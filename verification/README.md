# Blackjack rules, modelled and proved in Dafny

This project models the Blackjack rules of `main.py`: cards and the deck,
the hand evaluator on `Player` (the set of possible totals, qualifying
totals, bust, blackjack, comparisons), and the round rules on `Game`
(settlement, the adjudication of each player against the dealer, the
dealer's stand-on-17 loop, and the removal of players who bet nothing).

Everything is a pure function over immutable values, or a method with
loops where the original loops:

- `wrappers.dfy`, module `Wrappers`: `Option` (the deck's `None`) and
  `Result` (errors the original raises).
- `extrema.dfy`, module `Extrema`: `min` and `max` of a non-empty set of
  totals.
- `cards.dfy`, module `Cards`: faces and suits as datatypes, the value
  table, and the string-checking card constructor.
- `decks.dfy`, module `Decks`: building the 52 cards, shuffling them into
  an order the caller supplies, and drawing from the end.
- `hands.dfy`, module `Hands`: the set of totals of a hand and its closed
  form. A hand whose cards sum to L with every Ace counted as 1, holding a
  Aces, has exactly the totals L, L + 10, …, L + 10a. From this follow the
  bust test (L > 21), the best total (one Ace as 11 if that does not bust)
  and the blackjack test (an Ace and a ten-point card).
- `players.dfy`, module `Players`: the `Player` record with its cached
  `hand_totals`, and the checks that read that cache.
- `game.dfy`, module `Game`: settlements, adjudication, the dealer loop,
  `remove_non_betters`, and the code as written where it fails (see
  Findings).

Chips are `real` numbers. A blackjack pays one and a half times the bet,
which the original computes as a float. Dafny's reals make that payout
exact.

Three facts about `main.py` that are easy to miss:
- The qualifying totals of an Ace with a ten-point card are {11, 21}.
  Blackjack still holds, because the greatest qualifying total is 21
  (`Hands.AceAndTenTotals`).
- `dealer_algorithm` always draws at least once, even when the dealer
  already counts 17 or more: its loop only tests a stand flag that starts
  false, and a bust (main.py:186-187).
- A natural with 100 chips and a bet of 10 ends with 115 chips under the
  corrected rules (`Game.BlackjackPaysThreeToTwo`), while the code as
  written raises at main.py:167 first.

## Model

| member | source | states |
|---|---|---|
| `Cards.ParseFace` | main.py:14-21 | a face key is accepted exactly when it is one of the 13 keys of the value table, and it names the face it parses to |
| `Cards.ParseSuit` | main.py:17-23 | a suit name is accepted exactly when it is one of the four suits, and it names the suit it parses to |
| `Cards.NewCard` | main.py:19-26 | construction succeeds iff face and suit are both valid; an invalid face is reported first, even when the suit is invalid too; on success the card's face and suit are the ones named |
| `Cards.NewCardRoundTrip` | main.py:19-26 | every card can be built from its own key and suit name, and its value is that face's list in the table |
| `Cards.PointValueFacts` | main.py:14-16 | every value is between 1 and 11; only an Ace has two values and only an Ace counts 11; exactly 10, Jack, Queen and King count 10 |
| `Decks.BuildDeck` | main.py:36-40 | the nested face/suit loops construct every card without error, in table order, giving a full deck |
| `Decks.UnshuffledIsFullDeck` | main.py:36-40 | the unshuffled deck has 52 cards, no card twice, and every face-suit combination |
| `Decks.ShuffleIsFullDeck` | main.py:36-41 | any reordering of the 52 cards is still 52 distinct cards covering every combination |
| `Decks.NewDeck` | main.py:36-41 | a new deck holds the shuffled order and is a full deck |
| `Decks.Draw` | main.py:43-46 | an empty deck draws `None` and is left unchanged; otherwise the last card is drawn and the rest keep their order |
| `Decks.DrawUndoesPush` | main.py:43-46 | drawing from a deck with a card put on its end returns that card and the deck as it was |
| `Decks.DrawManyShape` | main.py:43-46 | n draws return the cards from the end one by one, then `None` once empty, and leave the front of the deck |
| `Decks.FullDeckRunsOut` | main.py:36-46 | a full deck gives 52 different cards, is then empty, and the 53rd draw is `None` |
| `Hands.HandTotals` | main.py:64-70 | every hand, the empty one included, has at least one total |
| `Hands.TotalsShape` | main.py:64-70 | a total is a sum of one value per card iff it is L + 10k with 0 <= k <= number of Aces, L being the sum with Aces counted as 1 |
| `Hands.NoAcesSingleTotal` | main.py:64-70 | without Aces the totals are the single arithmetic sum of the cards |
| `Hands.TwoAcesTotals` | main.py:64-86 | two Aces give totals {2, 12, 22} and qualifying totals {2, 12} |
| `Hands.AceAndTenTotals` | main.py:64-86 | an Ace with a ten-point card gives totals and qualifying totals {11, 21} and best total 21 |
| `Hands.MinTotalIsLowSum` | main.py:72-75 | the least total is the sum with every Ace counted as 1 |
| `Hands.BustIffNoQualifyingTotal` | main.py:72-86 | a hand is bust iff no total is at most 21, iff every total exceeds 21 |
| `Hands.MaxQualifyingIsBestTotal` | main.py:81-90 | a hand that is not bust has qualifying totals, and the greatest is its best total |
| `Hands.TwentyOneInTwoIffNatural` | main.py:77-79 | a two-card hand counts 21 without busting iff it is an Ace and a ten-point card |
| `Players.NewPlayer` | main.py:50-58 | a new player has the given name and chips, bet and counters zero, no cards, and a cache that does not yet hold the empty hand's totals |
| `Players.AddToHand` | main.py:60-62 | the card is appended, the cache again equals a recomputation, it equals the old totals extended by the card's values, and nothing else changes |
| `Players.BustIffNoQualifying` | main.py:72-86 | the contract of `Players.IsBust` and `Players.QualifyingTotals`: whatever non-empty cache the player holds, `is_bust` holds iff the qualifying totals are empty |
| `Players.BustIffLowSumOver` | main.py:72-75 | the contract of `Players.IsBust` on a current cache: `is_bust` holds iff the hand exceeds 21 with every Ace counted as 1 |
| `Players.MaxQualifyingIsBest` | main.py:81-90 | the contract of `Players.QualifyingTotals` and `Players.MaxQualifying`: with a current cache and no bust, the qualifying totals are not empty and the greatest is the hand's best total |
| `Players.BlackjackIffNatural` | main.py:77-79 | the contract of `Players.HandIsBlackjack`: with a current cache and no bust, `hand_is_blackjack` holds iff the hand is exactly an Ace and a ten-point card |
| `Players.ComparisonsTrichotomy` | main.py:88-100 | the contract of `Players.Less`, `Players.Greater` and `Players.Equal` among themselves: exactly one of `<`, `==`, `>` holds between two players, and `a < b` iff `b > a` |
| `Players.ComparisonsFollowBestTotal` | main.py:88-100 | the contract of `Players.Less`, `Players.Greater` and `Players.Equal` against the cards: with current caches and no bust, the comparisons order players by their hands' best totals |
| `Game.PlayerLoses` | main.py:241-245 | the bet is subtracted from the chips, losses go up by one, and no other field changes |
| `Game.PlayerTies` | main.py:247-251 | the chips stay the same, ties go up by one, and no other field changes |
| `Game.PlayerWins` | main.py:253-257 | the bet is added to the chips, wins go up by one, and no other field changes |
| `Game.PlayerWinsBlackjack` | main.py:259-264 | one and a half times the bet is added, wins go up by one, and no other field changes |
| `Game.SettleKeepsAccounts` | main.py:241-264 | after any settlement, the chips are still the starting chips plus the payouts recorded so far, and each counter still counts its outcomes, with one entry added; name, bet and hand are untouched |
| `Game.Adjudicate` | main.py:154-173 | the outcome is "already settled" iff dealer and player are both bust; a dealer bust pays every player still standing; a blackjack payout goes only to a blackjack player against a dealer who is neither bust nor blackjack |
| `Game.AdjudicateFollowsRules` | main.py:154-173 | with current caches, the outcome is the one the house rules give from the cards alone (bust, natural, best total) |
| `Game.CheckPlayersWinTieLoss` | main.py:154-173 | every player, in order, is settled by their own adjudicated outcome; names, bets and hands are unchanged |
| `Game.BlackjackPaysThreeToTwo` | main.py:259-264 | 100 chips, a bet of 10 and a Ten with an Ace against a dealer on 17 end with 115 chips and one win |
| `Game.DealerDraws` | main.py:188-195 | one pass of the corrected loop: it draws the last card if there is one and adds it; the dealer stands iff the new hand is not bust and counts at least 17 |
| `Game.DealerAlgorithm` | main.py:184-200 | a dealer not already bust draws at least once; the dealer ends bust or on at least 17 unless the deck runs out; every earlier hand was below 17; the cards drawn are the deck's last ones, in order |
| `Game.DealerAlgorithmAsWritten` | main.py:184-195 | as written, the loop can only finish with a bust dealer if the dealer was bust before drawing |
| `Game.DealerBustCrashesAsWritten` | main.py:193-196 | a dealer on King and Six who draws a Queen makes the loop as written fail on `max` of an empty set |
| `Game.AdjudicateAsWritten` | main.py:154-173 | as written, on any caches: adjudication raises on an empty set exactly when the dealer's cache is empty, or the player's cache is empty against a bust dealer, or the player has no qualifying total against a standing dealer; for players the corrected rules cover, it fails on a missing argument exactly when the dealer stands with a blackjack or the player has a blackjack, and otherwise agrees with the corrected rules |
| `Game.BustPlayerCrashesAsWritten` | main.py:160-166 | as written, a player who went bust makes the settlement raise against every dealer who is not bust, because `hand_is_blackjack` takes `max` of no totals (main.py:78) |
| `Game.DealerBlackjackCrashesAsWritten` | main.py:160-164 | a dealer natural against a player on 17 is a loss in the corrected rules but fails as written |
| `Game.RemoveNonBetters` | main.py:266-275 | the result keeps exactly the players with a non-zero bet, in their original order, and its length drops by the number of zero bets |

## Left out

- Console input and output: `get_valid_int`, `get_valid_move`, `ask_for_number_of_players`, `get_player_bets`, `get_players`, `ask_to_play_again` and every `print`. They are interactive prompting loops.
- `ask_players_for_hit`: each player's turn of hits and stands is chosen by console input. Its effects are `add_to_hand`, `is_bust` and `player_loses`, which are modelled.
- `deal_starting_hand`, `reset_game` and `run`. They only sequence the modelled operations. As written, `deal_starting_hand` gives the dealer two cards, `reset_game` never clears the dealer's hand and resets the cache to the empty set, and `run` calls `check_players_win_tie_loss` without its argument.
- `pause`, `sleep` and `sys.exit`: timing and process effects.
- `random.shuffle`: the shuffled order is a parameter of `Decks.NewDeck`. It may be any permutation of the 52 cards.
- `Card.__str__` and `__repr__`: formatting only.
- Cards.NewCard: takes strings only. The original would also accept any hashable object equal to a key.
- Players.Equal: requires cards in the player's hand. The original compares object identity for an empty hand.
- Players.IsBust: requires a non-empty cache, because `min` raises on the empty set, which is what a fresh player holds.
- Players.HandIsBlackjack: requires a qualifying total, because `max` raises when there is none.
- Game.Adjudicate: requires that a player is not bust and holds cards when the dealer is not bust. The original raises from `max` for such a bust player, as `Game.BustPlayerCrashesAsWritten` shows.
- Game.PlayerWinsBlackjack: pays exactly 1.5 times the bet. The original pays a float and can round for very large bets.
- Game.RemoveNonBetters: removes by identity. The original's `list.remove` falls back on `__eq__`, which identifies players by identity only while their hands are empty, as they are when it is called.
- Game.DealerDraws: models one pass of the corrected loop. It tests for a bust before taking `max`, and it reports an empty deck through `drawn` with the dealer unchanged. The original raises at main.py:194 on a bust hand and fails at main.py:191 on the `None` an empty deck gives (see Findings).
- Game.DealerAlgorithm: a draw from an empty deck ends the loop with `exhausted` set. The original appends `None` and then fails when it reads the card's value.

## Findings

| source | as written | input that shows it | evidently intended | confidence | as-written member | corrected member |
|---|---|---|---|---|---|---|
| main.py:160-167 | `player_ties()`, `player_loses()` and `player_wins_blackjack()` are called without the `player` argument, so these branches raise `TypeError` | dealer Ace of Spades and King of Hearts, player Nine of Clubs and Eight of Diamonds | settle the player as a tie, a loss or a 1.5x win | high, not executed | `Game.DealerBlackjackCrashesAsWritten` | `Game.Adjudicate` |
| main.py:193-196 | after a draw, `max` of the qualifying totals is taken before the bust test, and raises `ValueError` when the dealer busts | dealer King of Spades and Six of Hearts, deck holding only the Queen of Clubs | report the bust and stop drawing | high, not executed | `Game.DealerBustCrashesAsWritten` | `Game.DealerAlgorithm`, `Game.DealerDraws` |
