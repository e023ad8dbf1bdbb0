/** The round rules (main.py, class `Game`): settlement of a player's chips
    and record, adjudication of a player against the dealer, the dealer's
    drawing rule and the removal of players who bet nothing. */
module Game {
  import opened Wrappers
  import opened Cards
  import opened Decks
  import opened Hands
  import opened Players

  /** How a player's round ends. `AlreadySettled` is a player who went bust
      during their own turn and was charged then; adjudication leaves them
      alone. */
  datatype Outcome = Win | Tie | Loss | BlackjackWin | AlreadySettled

  /** `player_loses`: the bet is taken and the loss counted. */
  function PlayerLoses(p: Player): (r: Player)
    ensures r.chips == p.chips - p.bet as real
    ensures r.loses == p.loses + 1
    ensures r.(chips := p.chips, loses := p.loses) == p
  {
    p.(chips := p.chips - p.bet as real, loses := p.loses + 1)
  }

  /** `player_ties`: chips unchanged, the tie counted. */
  function PlayerTies(p: Player): (r: Player)
    ensures r.chips == p.chips
    ensures r.ties == p.ties + 1
    ensures r.(ties := p.ties) == p
  {
    p.(ties := p.ties + 1)
  }

  /** `player_wins`: the bet is paid and the win counted. */
  function PlayerWins(p: Player): (r: Player)
    ensures r.chips == p.chips + p.bet as real
    ensures r.wins == p.wins + 1
    ensures r.(chips := p.chips, wins := p.wins) == p
  {
    p.(chips := p.chips + p.bet as real, wins := p.wins + 1)
  }

  /** `player_wins_blackjack`: one and a half times the bet is paid and the
      win counted. */
  function PlayerWinsBlackjack(p: Player): (r: Player)
    ensures r.chips == p.chips + 3.0 * (p.bet as real) / 2.0
    ensures r.wins == p.wins + 1
    ensures r.(chips := p.chips, wins := p.wins) == p
  {
    p.(chips := p.chips + (p.bet as real) * 1.5, wins := p.wins + 1)
  }

  /** Apply the settlement that belongs to an outcome. */
  function Settle(p: Player, o: Outcome): Player {
    match o
    case Win => PlayerWins(p)
    case Tie => PlayerTies(p)
    case Loss => PlayerLoses(p)
    case BlackjackWin => PlayerWinsBlackjack(p)
    case AlreadySettled => p
  }

  /** Chips an outcome pays on a given bet (negative for a loss). */
  function Payout(o: Outcome, bet: int): real {
    match o
    case Win => bet as real
    case Tie => 0.0
    case Loss => -(bet as real)
    case BlackjackWin => 3.0 * (bet as real) / 2.0
    case AlreadySettled => 0.0
  }

  /** Net chips won over a history of (outcome, bet) settlements. */
  function Net(history: seq<(Outcome, int)>): real
    decreases |history|
  {
    if |history| == 0 then 0.0
    else Net(history[..|history| - 1]) + Payout(history[|history| - 1].0, history[|history| - 1].1)
  }

  /** Number of settlements in a history whose outcome satisfies `counted`. */
  function CountOf(history: seq<(Outcome, int)>, counted: Outcome -> bool): nat
    decreases |history|
  {
    if |history| == 0 then 0
    else CountOf(history[..|history| - 1], counted) + (if counted(history[|history| - 1].0) then 1 else 0)
  }

  /** A player's chips and counters are those of a starting balance followed
      by a history of settlements. */
  predicate Accounts(p: Player, start: real, history: seq<(Outcome, int)>) {
    && p.chips == start + Net(history)
    && p.wins == CountOf(history, o => o == Win || o == BlackjackWin)
    && p.ties == CountOf(history, o => o == Tie)
    && p.loses == CountOf(history, o => o == Loss)
  }

  /** Each settlement pays the outcome's payout on the player's bet, moves
      exactly the matching counter, and leaves name, bet and hand alone: the
      player's accounts stay those of their history, with one entry added. */
  lemma SettleKeepsAccounts(p: Player, start: real, history: seq<(Outcome, int)>, o: Outcome)
    requires Accounts(p, start, history)
    ensures Accounts(Settle(p, o), start, history + [(o, p.bet)])
    ensures Settle(p, o).name == p.name && Settle(p, o).bet == p.bet
    ensures Settle(p, o).hand == p.hand && Settle(p, o).handTotals == p.handTotals
  {
  }

  /** What adjudication needs to be defined: both cached totals non-empty
      (`is_bust` takes their minimum), and when the dealer stands, a
      player who is not bust and holds cards (their qualifying totals are
      compared with `max`). */
  predicate CanAdjudicate(dealer: Player, player: Player) {
    && dealer.handTotals != {}
    && player.handTotals != {}
    && (!IsBust(dealer) ==> !IsBust(player) && |player.hand| > 0)
  }

  /** One player's branch of `check_players_win_tie_loss`, with the
      settlement it calls named rather than applied. */
  function Adjudicate(dealer: Player, player: Player): (r: Outcome)
    requires CanAdjudicate(dealer, player)
    ensures r == AlreadySettled <==> IsBust(dealer) && IsBust(player)
    ensures IsBust(dealer) ==> r == AlreadySettled || r == Win
    ensures r == BlackjackWin ==> !IsBust(dealer) && QualifyingTotals(player) != {} && HandIsBlackjack(player)
    ensures r == BlackjackWin ==> QualifyingTotals(dealer) != {} && !HandIsBlackjack(dealer)
  {
    BustIffNoQualifying(dealer);
    BustIffNoQualifying(player);
    if IsBust(dealer) then
      if !IsBust(player) then Win else AlreadySettled
    else if HandIsBlackjack(dealer) then
      if HandIsBlackjack(player) then Tie else Loss
    else if HandIsBlackjack(player) then BlackjackWin
    else if Greater(player, dealer) then Win
    else if Equal(player, dealer) then Tie
    else Loss
  }

  /** The house rules stated on the cards alone: a dealer bust pays every
      player still standing; a dealer natural ties a player natural and
      beats everything else; a player natural pays three to two; otherwise
      the higher best total wins. */
  function RulesOutcome(dealerHand: seq<Card>, playerHand: seq<Card>): Outcome {
    if HandBust(dealerHand) then
      if HandBust(playerHand) then AlreadySettled else Win
    else if IsNatural(dealerHand) then
      if IsNatural(playerHand) then Tie else Loss
    else if IsNatural(playerHand) then BlackjackWin
    else if BestTotal(playerHand) > BestTotal(dealerHand) then Win
    else if BestTotal(playerHand) == BestTotal(dealerHand) then Tie
    else Loss
  }

  /** With current totals, adjudicating over the cached total sets gives
      the house rules' outcome for the two hands. */
  lemma AdjudicateFollowsRules(dealer: Player, player: Player)
    requires TotalsCurrent(dealer) && TotalsCurrent(player)
    requires CanAdjudicate(dealer, player)
    ensures Adjudicate(dealer, player) == RulesOutcome(dealer.hand, player.hand)
  {
    BustIffLowSumOver(dealer);
    BustIffLowSumOver(player);
    if !IsBust(dealer) {
      BlackjackIffNatural(dealer);
      BlackjackIffNatural(player);
      ComparisonsFollowBestTotal(player, dealer);
    }
  }

  /** Every player can be adjudicated against the dealer. */
  predicate AllCanAdjudicate(dealer: Player, players: seq<Player>) {
    forall i :: 0 <= i < |players| ==> CanAdjudicate(dealer, players[i])
  }

  /** `check_players_win_tie_loss`: each player, in order, is settled by
      their adjudicated outcome; names, bets and hands are untouched. */
  method CheckPlayersWinTieLoss(dealer: Player, players: seq<Player>) returns (settled: seq<Player>)
    requires AllCanAdjudicate(dealer, players)
    ensures |settled| == |players|
    ensures forall i :: 0 <= i < |players| ==>
      settled[i] == Settle(players[i], Adjudicate(dealer, players[i]))
    ensures forall i :: 0 <= i < |players| ==>
      settled[i].name == players[i].name && settled[i].bet == players[i].bet
      && settled[i].hand == players[i].hand
  {
    settled := [];
    for i := 0 to |players|
      invariant |settled| == i
      invariant forall k :: 0 <= k < i ==>
        settled[k] == Settle(players[k], Adjudicate(dealer, players[k]))
    {
      var outcome := Adjudicate(dealer, players[i]);
      settled := settled + [Settle(players[i], outcome)];
    }
  }

  /** The cards drawn from the end of a deck, in drawing order. */
  function Reversed(s: seq<Card>): (r: seq<Card>)
    ensures |r| == |s|
    decreases |s|
  {
    if |s| == 0 then [] else Reversed(s[1..]) + [s[0]]
  }

  /** A dealer hand that must draw again: not bust and below 17. */
  predicate KeepsDrawing(hand: seq<Card>) {
    !HandBust(hand) && BestTotal(hand) < 17
  }

  /** What the dealer loop keeps true: the dealer's totals are current,
      only the hand has changed, the cards taken are the last ones of the
      deck, in drawing order, and every hand held after the first draw and
      before the latest kept drawing. */
  ghost predicate DealerDrew(dealer: Player, deck: seq<Card>, final: Player, left: seq<Card>) {
    && TotalsCurrent(final)
    && final.(hand := dealer.hand, handTotals := dealer.handTotals) == dealer
    && |left| <= |deck| && left == deck[..|left|]
    && final.hand == dealer.hand + Reversed(deck[|left|..])
    && forall n :: |dealer.hand| < n < |final.hand| ==> KeepsDrawing(final.hand[..n])
  }

  /** `dealer_algorithm`, with the stand test guarded by the bust test (see
      `DealerAlgorithmAsWritten`). Unless already bust, the dealer draws at
      least once, then keeps drawing while not bust and below 17. The cards
      come off the end of the deck. `exhausted` reports a draw from an empty
      deck, where the original would fail on the missing card. */
  method DealerAlgorithm(dealer: Player, deck: Deck) returns (final: Player, left: Deck, exhausted: bool)
    requires TotalsCurrent(dealer)
    ensures DealerDrew(dealer, deck.cards, final, left.cards)
    ensures HandBust(dealer.hand) ==> final == dealer && left == deck && !exhausted
    ensures !HandBust(dealer.hand) && !exhausted ==> |final.hand| > |dealer.hand|
    ensures !exhausted ==> HandBust(final.hand) || BestTotal(final.hand) >= 17
    ensures exhausted ==> left.cards == [] && (|final.hand| > |dealer.hand| ==> KeepsDrawing(final.hand))
  {
    final, left, exhausted := dealer, deck, false;
    var stand := false;
    BustIffLowSumOver(final);
    while !stand && !IsBust(final)
      invariant DealerDrew(dealer, deck.cards, final, left.cards)
      invariant HandBust(dealer.hand) ==> final == dealer && left == deck && !stand
      invariant stand ==> |final.hand| > |dealer.hand| && !HandBust(final.hand) && BestTotal(final.hand) >= 17
      invariant !stand && |final.hand| > |dealer.hand| && !HandBust(final.hand) ==> KeepsDrawing(final.hand)
      decreases |left.cards|
    {
      BustIffLowSumOver(final);
      var next, rest, drawn, stood := DealerDraws(final, left);
      if !drawn {
        exhausted := true;
        return;
      }
      DealerDrewStep(dealer, deck.cards, final, left.cards, next);
      final, left, stand := next, rest, stood;
    }
    BustIffLowSumOver(final);
  }

  /** One more card off the end of the deck keeps the loop's invariant,
      provided the hand it joins was still drawing. */
  lemma DealerDrewStep(dealer: Player, deck: seq<Card>, final: Player, left: seq<Card>, next: Player)
    requires DealerDrew(dealer, deck, final, left)
    requires |left| > 0
    requires |final.hand| > |dealer.hand| ==> KeepsDrawing(final.hand)
    requires TotalsCurrent(next)
    requires next.(hand := final.hand, handTotals := final.handTotals) == final
    requires next.hand == final.hand + [left[|left| - 1]]
    ensures DealerDrew(dealer, deck, next, left[..|left| - 1])
  {
    DrawnCardJoinsHand(dealer.hand, deck, final.hand, left);
    StillDrawingPrefixes(|dealer.hand|, final.hand, left[|left| - 1]);
  }

  /** One pass of the dealer loop: draw a card, add it to the hand, and
      stand if the hand is not bust and its greatest qualifying total is at
      least 17. `drawn` is false when the deck is empty. */
  method DealerDraws(dealer: Player, deck: Deck) returns (next: Player, rest: Deck, drawn: bool, stand: bool)
    requires TotalsCurrent(dealer)
    ensures drawn <==> |deck.cards| > 0
    ensures !drawn ==> next == dealer && rest == deck && !stand
    ensures drawn ==> rest.cards == deck.cards[..|deck.cards| - 1]
    ensures drawn ==> next.hand == dealer.hand + [deck.cards[|deck.cards| - 1]]
    ensures TotalsCurrent(next)
    ensures next.(hand := dealer.hand, handTotals := dealer.handTotals) == dealer
    ensures stand <==> drawn && !HandBust(next.hand) && BestTotal(next.hand) >= 17
  {
    var (card, left) := Draw(deck);
    next, rest, drawn, stand := dealer, deck, false, false;
    if card.Some? {
      next, rest, drawn := AddToHand(dealer, card.value), left, true;
      BustIffLowSumOver(next);
      if !IsBust(next) {
        MaxQualifyingIsBest(next);
        if MaxQualifying(next) >= 17 {
          stand := true;
        }
      }
    }
  }

  /** Drawing the last card of what is left of the deck and adding it to
      the hand keeps the hand equal to the starting hand followed by the
      cards taken from the end of the deck. */
  lemma DrawnCardJoinsHand(start: seq<Card>, deck: seq<Card>, hand: seq<Card>, left: seq<Card>)
    requires 0 < |left| <= |deck| && left == deck[..|left|]
    requires hand == start + Reversed(deck[|left|..])
    ensures left[..|left| - 1] == deck[..|left| - 1]
    ensures hand + [left[|left| - 1]] == start + Reversed(deck[|left| - 1..])
  {
  }

  /** If every hand the dealer held since the start kept drawing, so does
      every hand of the longer one except, possibly, the last. */
  lemma StillDrawingPrefixes(startLen: nat, before: seq<Card>, c: Card)
    requires forall n :: startLen < n < |before| ==> KeepsDrawing(before[..n])
    requires |before| > startLen ==> KeepsDrawing(before)
    ensures forall n :: startLen < n < |before + [c]| ==> KeepsDrawing((before + [c])[..n])
  {
    forall n | startLen < n < |before + [c]|
      ensures KeepsDrawing((before + [c])[..n])
    {
      assert (before + [c])[..n] == before[..n];
      if n == |before| {
        assert before[..n] == before;
      }
    }
  }

  /** The ways the original dealer loop fails. */
  datatype DealerCrash = MaxOfEmpty | NoCardDrawn

  /** `dealer_algorithm` as written: after each draw it takes the maximum
      of the qualifying totals before testing for a bust, so a dealer who
      busts makes `max` fail on an empty set. */
  function DealerAlgorithmAsWritten(dealer: Player, deck: Deck): (r: Result<(Player, Deck), DealerCrash>)
    requires TotalsCurrent(dealer)
    ensures r.Success? ==> TotalsCurrent(r.value.0)
    ensures r.Success? && IsBust(r.value.0) ==> r.value.0 == dealer
    decreases |deck.cards|
  {
    if IsBust(dealer) then Success((dealer, deck))
    else
      var (card, rest) := Draw(deck);
      if card.None? then Failure(NoCardDrawn)
      else
        var next := AddToHand(dealer, card.value);
        BustIffNoQualifying(next);
        if QualifyingTotals(next) == {} then Failure(MaxOfEmpty)
        else if MaxQualifying(next) >= 17 then Success((next, rest))
        else DealerAlgorithmAsWritten(next, rest)
  }

  /** A dealer on 16 (King and Six) who draws a Queen busts, and the
      loop as written fails instead of reporting the bust. */
  lemma DealerBustCrashesAsWritten()
    ensures var dealer := AddToHand(AddToHand(NewPlayer("Dealer", 0), Card(King, Spades)), Card(Six, Hearts));
      DealerAlgorithmAsWritten(dealer, Deck([Card(Queen, Clubs)])) == Failure(MaxOfEmpty)
  {
  }

  /** How a round's settlement fails as written: a call that omits its
      `player` argument (`TypeError`), or `min`/`max` of an empty set of
      totals (`ValueError`). */
  datatype SettleCrash = MissingPlayerArgument | MinMaxOfEmpty

  /** One player's branch of `check_players_win_tie_loss` as written, on
      any caches. `is_bust` and `hand_is_blackjack` raise on an empty set of
      (qualifying) totals, so a bust player against a standing dealer fails;
      the calls for a dealer blackjack and for a player blackjack omit the
      `player` argument and fail; and `==` against a player without cards
      compares identities, which differ. */
  function AdjudicateAsWritten(dealer: Player, player: Player): (r: Result<Outcome, SettleCrash>)
    ensures r == Failure(MinMaxOfEmpty) <==>
      (dealer.handTotals == {}
       || (if IsBust(dealer) then player.handTotals == {} else QualifyingTotals(player) == {}))
    ensures CanAdjudicate(dealer, player) ==>
      (r == Failure(MissingPlayerArgument) <==>
        (!IsBust(dealer) && (Adjudicate(dealer, player) == BlackjackWin
                             || (QualifyingTotals(dealer) != {} && HandIsBlackjack(dealer)))))
    ensures CanAdjudicate(dealer, player) && r.Success? ==> r.value == Adjudicate(dealer, player)
  {
    if dealer.handTotals == {} then Failure(MinMaxOfEmpty)
    else if IsBust(dealer) then
      if player.handTotals == {} then Failure(MinMaxOfEmpty)
      else if !IsBust(player) then Success(Win) else Success(AlreadySettled)
    else
      BustIffNoQualifying(dealer);
      assert player.handTotals != {} ==> (IsBust(player) <==> QualifyingTotals(player) == {}) by {
        if player.handTotals != {} { BustIffNoQualifying(player); }
      }
      if HandIsBlackjack(dealer) then
        if QualifyingTotals(player) == {} then Failure(MinMaxOfEmpty) else Failure(MissingPlayerArgument)
      else if QualifyingTotals(player) == {} then Failure(MinMaxOfEmpty)
      else if HandIsBlackjack(player) then Failure(MissingPlayerArgument)
      else if Greater(player, dealer) then Success(Win)
      else if |player.hand| > 0 && Equal(player, dealer) then Success(Tie)
      else Success(Loss)
  }

  /** As written, a player who went bust during their turn fails the
      settlement against any dealer who is not bust. */
  lemma BustPlayerCrashesAsWritten(dealer: Player, player: Player)
    requires dealer.handTotals != {} && player.handTotals != {}
    requires !IsBust(dealer) && IsBust(player)
    ensures AdjudicateAsWritten(dealer, player) == Failure(MinMaxOfEmpty)
  {
    BustIffNoQualifying(player);
  }

  /** A dealer natural against a player on 17 should be a loss, but the
      code as written fails. */
  lemma DealerBlackjackCrashesAsWritten()
    ensures var dealer := AddToHand(AddToHand(NewPlayer("Dealer", 0), Card(Ace, Spades)), Card(King, Hearts));
      var player := AddToHand(AddToHand(NewPlayer("Ann", 100), Card(Nine, Clubs)), Card(Eight, Diamonds));
      && CanAdjudicate(dealer, player)
      && Adjudicate(dealer, player) == Loss
      && AdjudicateAsWritten(dealer, player) == Failure(MissingPlayerArgument)
  {
    var dealer := AddToHand(AddToHand(NewPlayer("Dealer", 0), Card(Ace, Spades)), Card(King, Hearts));
    var player := AddToHand(AddToHand(NewPlayer("Ann", 100), Card(Nine, Clubs)), Card(Eight, Diamonds));
    HandOfTwo(dealer.hand);
    HandOfTwo(player.hand);
    BustIffLowSumOver(dealer);
    BustIffLowSumOver(player);
    AdjudicateFollowsRules(dealer, player);
    BlackjackIffNatural(dealer);
  }

  /** Blackjack settled: a player with 100 chips betting 10 on a Ten of
      Spades and an Ace of Hearts, against a dealer on King and Seven, ends
      with 115 chips and one win. */
  lemma BlackjackPaysThreeToTwo()
    ensures var dealer := AddToHand(AddToHand(NewPlayer("Dealer", 0), Card(King, Clubs)), Card(Seven, Diamonds));
      var player := AddToHand(AddToHand(NewPlayer("Ann", 100).(bet := 10), Card(Ten, Spades)), Card(Ace, Hearts));
      && CanAdjudicate(dealer, player)
      && Settle(player, Adjudicate(dealer, player)).chips == 115.0
      && Settle(player, Adjudicate(dealer, player)).wins == 1
  {
    var dealer := AddToHand(AddToHand(NewPlayer("Dealer", 0), Card(King, Clubs)), Card(Seven, Diamonds));
    var player := AddToHand(AddToHand(NewPlayer("Ann", 100).(bet := 10), Card(Ten, Spades)), Card(Ace, Hearts));
    HandOfTwo(dealer.hand);
    HandOfTwo(player.hand);
    BustIffLowSumOver(dealer);
    BustIffLowSumOver(player);
    AdjudicateFollowsRules(dealer, player);
  }

  /** Number of players who bet nothing. */
  function ZeroBets(players: seq<Player>): nat
    decreases |players|
  {
    if |players| == 0 then 0
    else ZeroBets(players[..|players| - 1]) + (if players[|players| - 1].bet == 0 then 1 else 0)
  }

  /** `s` can be obtained from `t` by deleting elements. */
  predicate SubsequenceOf(s: seq<Player>, t: seq<Player>)
    decreases |t|
  {
    if |s| == 0 then true
    else if |t| == 0 then false
    else if s[|s| - 1] == t[|t| - 1] then SubsequenceOf(s[..|s| - 1], t[..|t| - 1])
    else SubsequenceOf(s, t[..|t| - 1])
  }

  /** `remove_non_betters`: drop the players whose bet is 0, keeping the
      others in their order. (The original removes by `list.remove`, which
      matches by identity here because every hand is empty at that point.) */
  function RemoveNonBetters(players: seq<Player>): (r: seq<Player>)
    ensures forall p :: p in r <==> p in players && p.bet != 0
    ensures |r| == |players| - ZeroBets(players)
    ensures SubsequenceOf(r, players)
    decreases |players|
  {
    if |players| == 0 then []
    else
      var init := RemoveNonBetters(players[..|players| - 1]);
      var last := players[|players| - 1];
      assert players == players[..|players| - 1] + [last];
      if last.bet == 0 then
        SubsequenceDropLast(init, players);
        init
      else
        var r := init + [last];
        assert r[..|r| - 1] == init;
        r
  }

  /** A subsequence of all but the last element is a subsequence of all. */
  lemma SubsequenceDropLast(s: seq<Player>, t: seq<Player>)
    requires |t| > 0 && SubsequenceOf(s, t[..|t| - 1])
    ensures SubsequenceOf(s, t)
    decreases |t|, 0
  {
    if |s| > 0 && s[|s| - 1] == t[|t| - 1] {
      SubsequencePrefix(s, t[..|t| - 1]);
    }
  }

  /** Dropping the last element of a subsequence keeps it a subsequence. */
  lemma SubsequencePrefix(s: seq<Player>, t: seq<Player>)
    requires |s| > 0 && SubsequenceOf(s, t)
    ensures SubsequenceOf(s[..|s| - 1], t)
    decreases |t|, 1
  {
  }
}
