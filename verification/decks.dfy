/** The deck (main.py, class `Deck`): the 52 face-by-suit cards, shuffled,
    drawn from the end. The random shuffle is not modelled as randomness:
    the caller supplies the shuffled order, which must be a permutation of the
    order in which the constructor appends the cards. */
module Decks {
  import opened Wrappers
  import opened Cards

  datatype Deck = Deck(cards: seq<Card>)

  /** Position of card `c` in the unshuffled deck: faces in table order,
      and within a face the suits in list order. */
  function Ordinal(c: Card): nat {
    4 * FaceIndex(c.face) + SuitIndex(c.suit)
  }

  /** The order in which the constructor appends the cards, before shuffling. */
  function Unshuffled(): (r: seq<Card>)
    ensures |r| == 52
  {
    seq(52, i requires 0 <= i < 52 => Card(AllFaces[i / 4], AllSuits[i % 4]))
  }

  predicate Distinct(s: seq<Card>) {
    forall i, j :: 0 <= i < j < |s| ==> s[i] != s[j]
  }

  /** Every face-suit combination occurs. */
  ghost predicate Complete(s: seq<Card>) {
    forall c: Card :: c in s
  }

  /** A full deck: 52 cards, one of each combination. */
  ghost predicate IsFullDeck(s: seq<Card>) {
    |s| == 52 && Distinct(s) && Complete(s)
  }

  /** `random.shuffle` may produce any reordering of the cards. */
  predicate IsShuffleOf(s: seq<Card>, t: seq<Card>) {
    multiset(s) == multiset(t)
  }

  lemma FaceIndexOfAllFaces(i: nat)
    requires i < |AllFaces|
    ensures FaceIndex(AllFaces[i]) == i
    ensures FaceKey(AllFaces[i]) == FaceKeys[i]
  {
  }

  lemma SuitIndexOfAllSuits(j: nat)
    requires j < |AllSuits|
    ensures SuitIndex(AllSuits[j]) == j
    ensures SuitName(AllSuits[j]) == SuitNames[j]
  {
  }

  /** Card number `i` of the unshuffled deck has ordinal `i`. */
  lemma UnshuffledOrdinal(i: nat)
    requires i < 52
    ensures Ordinal(Unshuffled()[i]) == i
  {
    FaceIndexOfAllFaces(i / 4);
    SuitIndexOfAllSuits(i % 4);
  }

  /** Every card sits at its ordinal in the unshuffled deck. */
  lemma CardAtOrdinal(c: Card)
    ensures Ordinal(c) < 52 && Unshuffled()[Ordinal(c)] == c
  {
    var a, b := FaceIndex(c.face), SuitIndex(c.suit);
    assert (4 * a + b) / 4 == a && (4 * a + b) % 4 == b;
  }

  /** The constructor's loops produce each of the 52 combinations exactly once. */
  lemma UnshuffledIsFullDeck()
    ensures IsFullDeck(Unshuffled())
  {
    var u := Unshuffled();
    forall i, j | 0 <= i < j < |u|
      ensures u[i] != u[j]
    {
      UnshuffledOrdinal(i);
      UnshuffledOrdinal(j);
    }
    forall c: Card
      ensures c in u
    {
      CardAtOrdinal(c);
    }
  }

  /** The card the inner loop builds from face key `i` and suit name `j`
      is card `4 * i + j` of the unshuffled deck. */
  lemma BuiltCard(i: nat, j: nat)
    requires i < |FaceKeys| && j < |SuitNames|
    ensures NewCard(FaceKeys[i], SuitNames[j]) == Success(Unshuffled()[4 * i + j])
  {
    FaceIndexOfAllFaces(i);
    SuitIndexOfAllSuits(j);
    NewCardRoundTrip(AllFaces[i], AllSuits[j]);
    assert (4 * i + j) / 4 == i && (4 * i + j) % 4 == j;
  }

  /** The constructor's nested loops: for each face key, for each suit name,
      append `Card(face, suit)`. None of these constructions fails, and the
      result is the unshuffled deck. */
  method BuildDeck() returns (cards: seq<Card>)
    ensures cards == Unshuffled()
    ensures IsFullDeck(cards)
  {
    cards := [];
    for i := 0 to |FaceKeys|
      invariant cards == Unshuffled()[..4 * i]
    {
      cards := AppendSuits(cards, i);
    }
    UnshuffledIsFullDeck();
  }

  /** The inner loop of the constructor: one card of face key `i` per suit. */
  method AppendSuits(prefix: seq<Card>, i: nat) returns (cards: seq<Card>)
    requires i < |FaceKeys|
    requires prefix == Unshuffled()[..4 * i]
    ensures cards == Unshuffled()[..4 * i + 4]
  {
    cards := prefix;
    for j := 0 to |SuitNames|
      invariant cards == Unshuffled()[..4 * i + j]
    {
      BuiltCard(i, j);
      var built := NewCard(FaceKeys[i], SuitNames[j]);
      PrefixStep(Unshuffled(), 4 * i + j);
      cards := cards + [built.value];
    }
  }

  /** A prefix one longer is the prefix with the next element appended. */
  lemma PrefixStep(s: seq<Card>, n: nat)
    requires n < |s|
    ensures s[..n + 1] == s[..n] + [s[n]]
  {
  }

  /** In a sequence without repeats, each element is counted once. */
  lemma {:induction false} DistinctCounts(s: seq<Card>)
    requires Distinct(s)
    ensures forall x :: multiset(s)[x] == if x in s then 1 else 0
  {
    if |s| > 0 {
      var init := s[..|s| - 1];
      assert s == init + [s[|s| - 1]];
      assert Distinct(init);
      DistinctCounts(init);
      assert s[|s| - 1] !in init;
    }
  }

  /** A card at two different positions is counted at least twice. */
  lemma RepeatCounted(s: seq<Card>, i: nat, j: nat)
    requires i < j < |s| && s[i] == s[j]
    ensures multiset(s)[s[i]] >= 2
  {
    assert s == s[..j] + [s[j]] + s[j + 1..];
    assert s[i] in s[..j];
  }

  /** Any shuffle of the unshuffled deck is still a full deck. */
  lemma ShuffleIsFullDeck(s: seq<Card>)
    requires IsShuffleOf(s, Unshuffled())
    ensures IsFullDeck(s)
  {
    var u := Unshuffled();
    UnshuffledIsFullDeck();
    DistinctCounts(u);
    assert |s| == |multiset(s)| == |multiset(u)| == 52;
    forall c: Card
      ensures c in s
    {
      assert multiset(u)[c] == 1;
      assert multiset(s)[c] == 1;
    }
    forall i, j | 0 <= i < j < |s|
      ensures s[i] != s[j]
    {
      if s[i] == s[j] {
        RepeatCounted(s, i, j);
        assert false;
      }
    }
  }

  /** `Deck()`: build the 52 cards, then shuffle them into `shuffled`, the
      order the random shuffle produced. */
  method NewDeck(shuffled: seq<Card>) returns (deck: Deck)
    requires IsShuffleOf(shuffled, Unshuffled())
    ensures deck.cards == shuffled
    ensures IsFullDeck(deck.cards)
  {
    var built := BuildDeck();
    assert IsShuffleOf(shuffled, built);
    ShuffleIsFullDeck(shuffled);
    deck := Deck(shuffled);
  }

  /** `draw()`: `None` on an empty deck, which is left as it was; otherwise
      the last card, removed, with the others in their order. */
  function Draw(deck: Deck): (r: (Option<Card>, Deck))
    ensures |deck.cards| == 0 <==> r.0 == None
    ensures r.0 == None ==> r.1 == deck
    ensures r.0.Some? ==> r.1.cards + [r.0.value] == deck.cards
  {
    if |deck.cards| == 0 then (None, deck)
    else (Some(deck.cards[|deck.cards| - 1]), Deck(deck.cards[..|deck.cards| - 1]))
  }

  /** Drawing undoes putting a card on top. */
  lemma DrawUndoesPush(cards: seq<Card>, c: Card)
    ensures Draw(Deck(cards + [c])) == (Some(c), Deck(cards))
  {
  }

  /** The results of `n` successive draws, and the deck left after them. */
  function DrawMany(deck: Deck, n: nat): (seq<Option<Card>>, Deck)
    decreases n
  {
    if n == 0 then ([], deck)
    else
      var (card, rest) := Draw(deck);
      var (more, left) := DrawMany(rest, n - 1);
      ([card] + more, left)
  }

  /** `n` draws hand out the cards from the end of the deck, one by one,
      then `None` once the deck is empty. */
  lemma {:induction false} DrawManyShape(deck: Deck, n: nat)
    ensures |DrawMany(deck, n).0| == n
    ensures forall i :: 0 <= i < n ==>
      DrawMany(deck, n).0[i] ==
        if i < |deck.cards| then Some(deck.cards[|deck.cards| - 1 - i]) else None
    ensures DrawMany(deck, n).1.cards ==
      if n <= |deck.cards| then deck.cards[..|deck.cards| - n] else []
    decreases n
  {
    if n > 0 {
      var (card, rest) := Draw(deck);
      DrawManyShape(rest, n - 1);
      var drawn := DrawMany(deck, n).0;
      forall i | 0 <= i < n
        ensures drawn[i] ==
          if i < |deck.cards| then Some(deck.cards[|deck.cards| - 1 - i]) else None
      {
        if i > 0 {
          assert drawn[i] == DrawMany(rest, n - 1).0[i - 1];
        }
      }
    }
  }

  /** A full deck yields 52 different cards, after which it is empty and
      the 53rd draw gives `None`. */
  lemma FullDeckRunsOut(deck: Deck)
    requires IsFullDeck(deck.cards)
    ensures var (drawn, left) := DrawMany(deck, 53);
      && |drawn| == 53
      && (forall i :: 0 <= i < 52 ==> drawn[i].Some?)
      && (forall i, j :: 0 <= i < j < 52 ==> drawn[i] != drawn[j])
      && drawn[52] == None
      && left.cards == []
  {
    DrawManyShape(deck, 53);
    var drawn := DrawMany(deck, 53).0;
    forall i, j | 0 <= i < j < 52
      ensures drawn[i] != drawn[j]
    {
      assert deck.cards[51 - j] != deck.cards[51 - i];
    }
  }
}
