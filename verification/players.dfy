/** A player (main.py, class `Player`): chips, bet, results so far, hand and
    the cached set `hand_totals`.

    Methods of the original that mutate the player return the updated
    record here. Chips are a `real`: they start as an integer, but the
    blackjack payout of one and a half times the bet makes them fractional. */
module Players {
  import opened Cards
  import opened Extrema
  import opened Hands

  datatype Player = Player(
    name: string,
    chips: real,
    bet: int,
    wins: nat,
    loses: nat,
    ties: nat,
    hand: seq<Card>,
    handTotals: set<int>)

  /** `Player(name, chips)`. The cached totals start as the empty set, not
      as the totals {0} of the empty hand, so they are not current until the
      first card is added. */
  function NewPlayer(name: string, chips: int): (p: Player)
    ensures p.name == name && p.chips == chips as real
    ensures p.bet == 0 && p.wins == 0 && p.loses == 0 && p.ties == 0
    ensures p.hand == []
    ensures !TotalsCurrent(p)
  {
    Player(name, chips as real, 0, 0, 0, 0, [], {})
  }

  /** The cached `hand_totals` agree with a recomputation over the hand. */
  predicate TotalsCurrent(p: Player) {
    p.handTotals == HandTotals(p.hand)
  }

  /** `add_to_hand`: append the card and recompute the totals. The fresh
      totals are the old ones extended by the new card's values; nothing
      but the hand and its totals changes. */
  function AddToHand(p: Player, c: Card): (r: Player)
    ensures r.hand == p.hand + [c]
    ensures TotalsCurrent(r)
    ensures TotalsCurrent(p) ==> r.handTotals == Extend(p.handTotals, c)
    ensures r.(hand := p.hand, handTotals := p.handTotals) == p
  {
    var hand := p.hand + [c];
    assert hand[..|hand| - 1] == p.hand;
    p.(hand := hand, handTotals := HandTotals(hand))
  }

  /** `is_bust`: the least cached total exceeds 21 (`min` raises on an
      empty set, hence the precondition). */
  predicate IsBust(p: Player)
    requires p.handTotals != {}
  {
    MinOf(p.handTotals) > 21
  }

  /** `get_qualifying_hand_totals`: the cached totals of at most 21. */
  function QualifyingTotals(p: Player): set<int> {
    Qualifying(p.handTotals)
  }

  /** The greatest qualifying total (`max` raises on an empty set). */
  function MaxQualifying(p: Player): int
    requires QualifyingTotals(p) != {}
  {
    MaxOf(QualifyingTotals(p))
  }

  /** `hand_is_blackjack`: the greatest qualifying total is 21 and the hand
      has two cards. `max` is evaluated first, so a bust hand raises even
      when it does not have two cards. */
  predicate HandIsBlackjack(p: Player)
    requires QualifyingTotals(p) != {}
  {
    MaxQualifying(p) == 21 && |p.hand| == 2
  }

  /** `__lt__`: compare greatest qualifying totals. */
  predicate Less(p: Player, other: Player)
    requires QualifyingTotals(p) != {} && QualifyingTotals(other) != {}
  {
    MaxQualifying(p) < MaxQualifying(other)
  }

  /** `__gt__`. */
  predicate Greater(p: Player, other: Player)
    requires QualifyingTotals(p) != {} && QualifyingTotals(other) != {}
  {
    MaxQualifying(p) > MaxQualifying(other)
  }

  /** `__eq__` for a player holding cards (the identity fallback for an
      empty hand is not modelled). */
  predicate Equal(p: Player, other: Player)
    requires |p.hand| > 0
    requires QualifyingTotals(p) != {} && QualifyingTotals(other) != {}
  {
    MaxQualifying(p) == MaxQualifying(other)
  }

  /** Whatever the cache holds, the player is bust exactly when no cached
      total qualifies. */
  lemma BustIffNoQualifying(p: Player)
    requires p.handTotals != {}
    ensures IsBust(p) <==> QualifyingTotals(p) == {}
  {
    var m := MinOf(p.handTotals);
    if !IsBust(p) {
      assert m in QualifyingTotals(p);
    }
  }

  /** With current totals, `is_bust` is the closed-form test: counting every
      Ace as 1 exceeds 21. */
  lemma BustIffLowSumOver(p: Player)
    requires TotalsCurrent(p)
    ensures IsBust(p) <==> HandBust(p.hand)
  {
    MinTotalIsLowSum(p.hand);
  }

  /** With current totals, a player who is not bust has a qualifying total,
      and the greatest is the hand's best total. */
  lemma MaxQualifyingIsBest(p: Player)
    requires TotalsCurrent(p) && !IsBust(p)
    ensures QualifyingTotals(p) != {}
    ensures MaxQualifying(p) == BestTotal(p.hand)
  {
    BustIffLowSumOver(p);
    MaxQualifyingIsBestTotal(p.hand);
  }

  /** With current totals, `hand_is_blackjack` holds exactly for a natural:
      an Ace and a ten-point card. */
  lemma BlackjackIffNatural(p: Player)
    requires TotalsCurrent(p) && !IsBust(p)
    ensures QualifyingTotals(p) != {}
    ensures HandIsBlackjack(p) <==> IsNatural(p.hand)
  {
    MaxQualifyingIsBest(p);
    BustIffLowSumOver(p);
    if |p.hand| == 2 {
      TwentyOneInTwoIffNatural(p.hand);
    }
  }

  /** The three comparisons are exclusive and exhaustive, and `<` is `>`
      with the operands swapped. */
  lemma ComparisonsTrichotomy(p: Player, other: Player)
    requires |p.hand| > 0
    requires QualifyingTotals(p) != {} && QualifyingTotals(other) != {}
    ensures Less(p, other) || Equal(p, other) || Greater(p, other)
    ensures !(Less(p, other) && Equal(p, other))
    ensures !(Less(p, other) && Greater(p, other))
    ensures !(Equal(p, other) && Greater(p, other))
    ensures Less(p, other) <==> Greater(other, p)
  {
  }

  /** With current totals and neither player bust, the comparisons order
      players by their hands' best totals. */
  lemma ComparisonsFollowBestTotal(p: Player, other: Player)
    requires TotalsCurrent(p) && !IsBust(p)
    requires TotalsCurrent(other) && !IsBust(other)
    ensures QualifyingTotals(p) != {} && QualifyingTotals(other) != {}
    ensures Greater(p, other) <==> BestTotal(p.hand) > BestTotal(other.hand)
    ensures Less(p, other) <==> BestTotal(p.hand) < BestTotal(other.hand)
    ensures |p.hand| > 0 ==> (Equal(p, other) <==> BestTotal(p.hand) == BestTotal(other.hand))
  {
    MaxQualifyingIsBest(p);
    MaxQualifyingIsBest(other);
  }
}
