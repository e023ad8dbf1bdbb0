/** The hand evaluator (main.py, `Player.get_hand_totals` and the checks
    built on it), stated on a hand as a sequence of cards.

    The original enumerates the Cartesian product of the cards' value lists
    and collects the sums into a set. `HandTotals` is that set, built one
    card at a time. The lemmas relate it to a closed form: a hand with low
    sum L (every Ace counted as 1) and a Aces has exactly the totals
    L, L + 10, ..., L + 10a. */
module Hands {
  import opened Cards
  import opened Extrema

  /** All sums of one total from `totals` and one value of card `c`. */
  function Extend(totals: set<int>, c: Card): set<int> {
    set t, v | t in totals && v in c.Value() :: t + v
  }

  lemma ExtendNonEmpty(totals: set<int>, c: Card)
    requires totals != {}
    ensures Extend(totals, c) != {}
  {
    HasElement(totals);
    var t :| t in totals;
    var v := c.Value()[0];
    assert v in c.Value();
    assert t + v in Extend(totals, c);
  }

  /** `get_hand_totals`: the set of sums over every choice of one value per
      card. The empty hand has the single total 0 (the empty product has
      one, empty, combination). */
  function HandTotals(hand: seq<Card>): (r: set<int>)
    ensures r != {}
    decreases |hand|
  {
    if |hand| == 0 then {0}
    else
      var prev := HandTotals(hand[..|hand| - 1]);
      ExtendNonEmpty(prev, hand[|hand| - 1]);
      Extend(prev, hand[|hand| - 1])
  }

  /** The value a card counts as at its lowest (an Ace as 1). */
  function LowValue(c: Card): int {
    c.Value()[0]
  }

  /** The hand's total with every Ace counted as 1. */
  function LowSum(hand: seq<Card>): int
    decreases |hand|
  {
    if |hand| == 0 then 0 else LowSum(hand[..|hand| - 1]) + LowValue(hand[|hand| - 1])
  }

  function Aces(hand: seq<Card>): nat
    decreases |hand|
  {
    if |hand| == 0 then 0
    else Aces(hand[..|hand| - 1]) + (if hand[|hand| - 1].face == Ace then 1 else 0)
  }

  /** `t` is one of low, low + 10, ..., low + 10 * aces. */
  predicate InShape(low: int, aces: nat, t: int) {
    low <= t <= low + 10 * aces && (t - low) % 10 == 0
  }

  /** The totals in `totals` that do not exceed 21. */
  function Qualifying(totals: set<int>): set<int> {
    set t | t in totals && t <= 21
  }

  /** Bust: even counting every Ace as 1 the hand exceeds 21. */
  predicate HandBust(hand: seq<Card>) {
    LowSum(hand) > 21
  }

  /** The usual best count of a hand: one Ace counted as 11 when that does
      not take the hand past 21. */
  function BestTotal(hand: seq<Card>): int {
    if Aces(hand) > 0 && LowSum(hand) + 10 <= 21 then LowSum(hand) + 10 else LowSum(hand)
  }

  /** A natural: exactly two cards, an Ace and a ten-point card. */
  predicate IsNatural(hand: seq<Card>) {
    && |hand| == 2
    && ((hand[0].face == Ace && IsTenCard(hand[1].face))
        || (IsTenCard(hand[0].face) && hand[1].face == Ace))
  }

  /** Every card counts at least 1, so the low sum is at least the number
      of Aces. */
  lemma {:induction false} LowSumAtLeastAces(hand: seq<Card>)
    ensures LowSum(hand) >= Aces(hand)
    decreases |hand|
  {
    if |hand| > 0 {
      LowSumAtLeastAces(hand[..|hand| - 1]);
      PointValueFacts(hand[|hand| - 1].face);
    }
  }

  /** A total of the longer hand comes from a total of the shorter one. */
  lemma ShapeStepOut(low: int, aces: nat, c: Card, t: int, prev: int, v: int)
    requires InShape(low, aces, prev) && v in c.Value() && t == prev + v
    ensures InShape(low + LowValue(c), aces + (if c.face == Ace then 1 else 0), t)
  {
  }

  /** Every total of the closed form for the longer hand is reached by
      extending a total of the shorter one. */
  lemma ShapeStepIn(low: int, aces: nat, c: Card, totals: set<int>, t: int)
    requires forall x :: x in totals <==> InShape(low, aces, x)
    requires InShape(low + LowValue(c), aces + (if c.face == Ace then 1 else 0), t)
    ensures t in Extend(totals, c)
  {
    PointValueFacts(c.face);
    var v := LowValue(c);
    if c.face == Ace && t - low - 1 > 10 * aces {
      v := 11;
    }
    var prev := t - v;
    assert InShape(low, aces, prev);
    assert prev in totals && v in c.Value();
  }

  /** The totals of a hand are exactly low, low + 10, ..., low + 10 * aces. */
  lemma {:induction false} TotalsShape(hand: seq<Card>)
    ensures forall t :: t in HandTotals(hand) <==> InShape(LowSum(hand), Aces(hand), t)
    decreases |hand|
  {
    if |hand| > 0 {
      var init, c := hand[..|hand| - 1], hand[|hand| - 1];
      TotalsShape(init);
      var prevTotals := HandTotals(init);
      forall t
        ensures t in HandTotals(hand) <==> InShape(LowSum(hand), Aces(hand), t)
      {
        if t in HandTotals(hand) {
          var prev, v :| prev in prevTotals && v in c.Value() && t == prev + v;
          ShapeStepOut(LowSum(init), Aces(init), c, t, prev, v);
        }
        if InShape(LowSum(hand), Aces(hand), t) {
          ShapeStepIn(LowSum(init), Aces(init), c, prevTotals, t);
        }
      }
    }
  }

  /** The least total is the low sum (`min(hand_totals)`). */
  lemma MinTotalIsLowSum(hand: seq<Card>)
    ensures LowSum(hand) in HandTotals(hand)
    ensures MinOf(HandTotals(hand)) == LowSum(hand)
  {
    TotalsShape(hand);
    assert InShape(LowSum(hand), Aces(hand), LowSum(hand));
  }

  /** A hand is bust exactly when every total exceeds 21, that is when
      no total qualifies. */
  lemma BustIffNoQualifyingTotal(hand: seq<Card>)
    ensures HandBust(hand) <==> Qualifying(HandTotals(hand)) == {}
    ensures HandBust(hand) <==> forall t :: t in HandTotals(hand) ==> t > 21
  {
    TotalsShape(hand);
    MinTotalIsLowSum(hand);
    if !HandBust(hand) {
      assert LowSum(hand) in Qualifying(HandTotals(hand));
    }
  }

  /** The greatest qualifying total of a hand that is not bust is its best
      total: at most one Ace can count 11 without busting. */
  lemma MaxQualifyingIsBestTotal(hand: seq<Card>)
    requires !HandBust(hand)
    ensures Qualifying(HandTotals(hand)) != {}
    ensures MaxOf(Qualifying(HandTotals(hand))) == BestTotal(hand)
  {
    TotalsShape(hand);
    LowSumAtLeastAces(hand);
    var q := Qualifying(HandTotals(hand));
    var best := BestTotal(hand);
    assert InShape(LowSum(hand), Aces(hand), best);
    assert best in q;
    forall t | t in q
      ensures t <= best
    {
      assert InShape(LowSum(hand), Aces(hand), t);
    }
    assert MaxOf(q) in q;
  }

  /** The low sum and Ace count of a two-card hand, card by card. */
  lemma HandOfTwo(hand: seq<Card>)
    requires |hand| == 2
    ensures LowSum(hand) == LowValue(hand[0]) + LowValue(hand[1])
    ensures Aces(hand) == (if hand[0].face == Ace then 1 else 0) + (if hand[1].face == Ace then 1 else 0)
  {
    var first := hand[..1];
    assert first == [hand[0]];
    assert first[..0] == [];
    assert LowSum(first) == LowValue(hand[0]);
    assert Aces(first) == if hand[0].face == Ace then 1 else 0;
  }

  /** Without Aces a hand has one total, the sum of its cards' values. */
  lemma NoAcesSingleTotal(hand: seq<Card>)
    requires Aces(hand) == 0
    ensures HandTotals(hand) == {LowSum(hand)}
  {
  }

  /** Two Aces make 2, 12 or 22. */
  lemma TwoAcesTotals(s1: Suit, s2: Suit)
    ensures HandTotals([Card(Ace, s1), Card(Ace, s2)]) == {2, 12, 22}
    ensures Qualifying(HandTotals([Card(Ace, s1), Card(Ace, s2)])) == {2, 12}
  {
    var hand := [Card(Ace, s1), Card(Ace, s2)];
    HandOfTwo(hand);
    assert LowSum(hand) == 2 && Aces(hand) == 2;
    TotalsShape(hand);
    assert forall t :: t in HandTotals(hand) <==> t in {2, 12, 22};
  }

  /** An Ace and a ten-point card make 11 or 21, both qualifying. */
  lemma AceAndTenTotals(s1: Suit, f: Face, s2: Suit)
    requires IsTenCard(f)
    ensures HandTotals([Card(Ace, s1), Card(f, s2)]) == {11, 21}
    ensures Qualifying(HandTotals([Card(Ace, s1), Card(f, s2)])) == {11, 21}
    ensures BestTotal([Card(Ace, s1), Card(f, s2)]) == 21
  {
    var hand := [Card(Ace, s1), Card(f, s2)];
    HandOfTwo(hand);
    PointValueFacts(f);
    assert LowSum(hand) == 11 && Aces(hand) == 1;
    TotalsShape(hand);
    assert forall t :: t in HandTotals(hand) <==> t in {11, 21};
  }

  /** A two-card hand counts 21 exactly when it is a natural. */
  lemma TwentyOneInTwoIffNatural(hand: seq<Card>)
    requires |hand| == 2
    ensures !HandBust(hand) && BestTotal(hand) == 21 <==> IsNatural(hand)
  {
    HandOfTwo(hand);
    PointValueFacts(hand[0].face);
    PointValueFacts(hand[1].face);
  }
}
