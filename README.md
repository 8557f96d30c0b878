# Caravan rules engine in Dafny

A Dafny model of the rules engine of a two-player Caravan card game. Each player has a hand,
a deck and three caravans. A caravan is an ordered pile of cards with a direction slot: unset,
"up" or "down". A numeral (value 1–10) adds its value to the caravan's score. A face card
(Jack 11, Queen 12, King 13) scores nothing. When played, a face card triggers an effect:
the Jack removes a card, the Queen flips the direction and the King duplicates a numeral.
A player wins with at least two caravans scoring 21 to 26.

The model has four modules:

- `Cards` (`cards.dfy`): the `Card` value, its classification as special and its face type, and
  the `Deck` class, whose `Draw` pops the last card.
- `Rules` (`rules.dfy`): the rules as pure functions on a caravan (`seq<Card>`) and its direction.
  `Blocked` is the closed form of the only condition under which a card is refused, and
  `CheckedDirection` is the direction a legality check leaves behind. It also holds the Jack scan
  (`JackScan`, `JackEffect`), the Queen flip (`Flip`), the King copy (`NumeralAtOrBefore`,
  `KingEffect`), `PlacedCaravan` and `PlacedDirection` for the result of a legal play, `Score`,
  and `WinningCount` / `FirstWinner`. The lemmas here state the game's properties.
- `Players` (`players.dfy`): the `Player` class. It has `hand`, `caravans` and `directions` fields
  that its methods update in place. `CanPlay`, `ApplySpecialEffect`, `RefillHand` and `PlayCard`
  are written step by step, with loops where the program loops. Each is proved against the `Rules`
  functions. A play onto the opponent's caravan passes the opponent object, and `null` stands for
  the program's `None`. The contracts also cover the case where the target is the player itself.
- `Games` (`games.dfy`): the `Game` class with both players and the current-player index. It
  holds `SwitchPlayer` and the read-only `CheckWinner`.

Rules the code settles one particular way, which the model follows:

- The Jack's backward scan starts at len-2 and steps by 2. It can read index -1, which is the
  Jack itself, so the Jack is skipped. It therefore removes the first numeral at an index of the
  scan's parity, not the nearest numeral before the Jack. `JackSkipsNearestNumeral` and
  `JackMissesOtherParity` show this.
- A numeral on a one-card caravan is always accepted. It sets "up" when its value is strictly
  greater than the single card's value, and "down" otherwise, including when the values are
  equal. The single card may be a face card, and its raw value 11–13 is compared.
- The monotonicity test also uses the raw value of a face card that is last on the caravan.
- A Queen on an unset direction sets it to "up".

## Model

| member | source | states |
|---|---|---|
| `Cards.FaceValue` | caravan_simulator.py:10 | the value of each face type is above 10 |
| `Cards.Card.SpecialType` | caravan_simulator.py:7-10 | a card has a face type exactly when it is special (value above 10), and that face type's value is the card's value |
| `Cards.FaceRoundTrip` | caravan_simulator.py:7-10 | classifying 11/12/13 gives back Jack/Queen/King, in any suit |
| `Cards.DrawOrder` | caravan_simulator.py:30-31 | drawing n cards yields exactly n cards, the j-th being the j-th from the end of the deck |
| `Cards.DrawConserves` | caravan_simulator.py:51-53 | the drawn cards plus what remains of the deck are, as a multiset, the original deck |
| `Cards.Deck.constructor` | caravan_simulator.py:19-21 | a deck holds exactly the given cards, in the given order |
| `Cards.Deck.Draw` | caravan_simulator.py:30-31 | on a non-empty deck returns the last card and leaves the deck without it, the rest in order; on an empty deck returns none and changes nothing |
| `Rules.Blocked` | caravan_simulator.py:79-89 | a refused card is always a numeral of another suit than the last card; once a caravan has two cards and a direction, a numeral of another suit with the same value as the last card is refused in either direction |
| `Rules.CheckedDirection` | caravan_simulator.py:79-80 | the legality check changes the direction only for a numeral on a one-card caravan, and then sets it ("up" iff strictly greater, else "down") |
| `Rules.EmptyOrFaceAlwaysPlayable` | caravan_simulator.py:72-77 | any card is accepted on an empty caravan, and any face card on any caravan, with the direction untouched |
| `Rules.SecondCardSetsDirection` | caravan_simulator.py:79-81 | a numeral on a one-card caravan is accepted and sets the direction, "up" iff its value is strictly greater than the single card's |
| `Rules.SameSuitAlwaysPlayable` | caravan_simulator.py:83-89 | a card of the last card's suit is never refused |
| `Rules.RefusalKeepsDirection` | caravan_simulator.py:79-89 | a refused card leaves the direction as it was |
| `Rules.DirectionKeptUnlessSecondNumeralOrQueen` | caravan_simulator.py:76-81 | a play that is neither a numeral on a one-card caravan nor a Queen leaves the direction as it was (a Jack or King on a one-card caravan included) |
| `Rules.AscendingExamples` | caravan_simulator.py:83-86 | on an "up" caravan ending in 7 of Diamonds, 4 of Clubs is refused, while 9 of Clubs and 4 of Diamonds are accepted |
| `Rules.PyIndex` | caravan_simulator.py:96-98 | a negative index i reads position n+i and a non-negative one reads position i, always inside the sequence |
| `Rules.JackScan` | caravan_simulator.py:94-100 | the scan from i returns a numeral's position: either the first numeral among i, i-2, ... with every earlier visited card special, or the last card (index -1) when the scan reaches it and every visited card was special; none means every visited card is special |
| `Rules.JackEffect` | caravan_simulator.py:94-100 | a Jack removes nothing or exactly one numeral; when the last card is special it stays last |
| `Rules.EffectCaravan` | caravan_simulator.py:94-115 | only a Jack or a King changes the cards: a Jack removes at most one, a King keeps every card in place and adds at most one at the end |
| `Rules.EffectDirection` | caravan_simulator.py:105-108 | the direction changes exactly for a Queen, which always leaves it set |
| `Rules.PlacedCaravan` | caravan_simulator.py:60-64 | a legal play of anything but a Jack keeps the old cards and puts the card right after them, adding at most one more card (the King's copy); a Jack play grows the caravan by 0 or 1 |
| `Rules.PlacedDirection` | caravan_simulator.py:60-64 | a legal play changes the direction only for a numeral on a one-card caravan or a Queen |
| `Rules.JackStays` | caravan_simulator.py:61-64 | a played Jack remains on the caravan as its last card, and the caravan grows by 0 or 1 |
| `Rules.JackOnSingleNumeral` | caravan_simulator.py:94-100 | a Jack played on a lone 4 of Hearts leaves only the Jack |
| `Rules.JackSkipsNearestNumeral` | caravan_simulator.py:96 | on 3, 5, King the stride-2 scan removes the 3 and keeps the nearer 5 |
| `Rules.JackMissesOtherParity` | caravan_simulator.py:96 | on 3, Queen the scan visits only the Queen and the Jack, so nothing is removed |
| `Rules.Flip` | caravan_simulator.py:105-108 | a Queen always leaves a set direction different from the old one; "down" exactly when it was "up" |
| `Rules.FlipTwice` | caravan_simulator.py:105-108 | two Queens restore a set direction, and turn an unset one into "down" |
| `Rules.NumeralAtOrBefore` | caravan_simulator.py:112-113 | the backward scan returns the last numeral at or before i, or none when all those cards are special |
| `Rules.KingEffect` | caravan_simulator.py:110-115 | a King changes nothing exactly when the caravan has no numeral; otherwise it appends a copy of the last numeral |
| `Rules.NumeralScanPrefix` | caravan_simulator.py:112-113 | the scan from an index inside a prefix does not depend on what follows it |
| `Rules.KingPlacement` | caravan_simulator.py:62-64 | a played King ends up after the old cards, followed by a copy of the last numeral before it, if there is one |
| `Rules.KingDoublesSix` | caravan_simulator.py:110-115 | a King on a lone 6 gives 6, King, 6, scoring 12 |
| `Rules.Score` | caravan_simulator.py:120 | the sum of the values of the numerals, so never more than 10 per card |
| `Rules.FacesOnlyScoreZero` | caravan_simulator.py:120 | a caravan holding only face cards scores 0 |
| `Rules.ScoreSnoc` | caravan_simulator.py:120 | appending one card adds exactly its points: its value for a numeral, nothing for a face card |
| `Rules.ScoreAppend` | caravan_simulator.py:120 | the score of two piles put together is the sum of their scores |
| `Rules.ScoreSplice` | caravan_simulator.py:120 | a card inserted anywhere in a caravan adds exactly its points (its value for a numeral, 0 for a face card) |
| `Rules.FacesScoreNothing` | caravan_simulator.py:120 | inserting a face card anywhere in a caravan leaves its score unchanged |
| `Rules.ScoreRemove` | caravan_simulator.py:120 | removing a card lowers the score by exactly that card's points |
| `Rules.KingScore` | caravan_simulator.py:110-115 | a played King raises the score by the value of the numeral it copies, or leaves it when there is none |
| `Rules.JackScore` | caravan_simulator.py:94-100 | a played Jack leaves the score or lowers it by the value of one numeral of the caravan |
| `Rules.PlacedScore` | caravan_simulator.py:62-64 | a numeral adds its value, a Queen adds nothing, a King adds the value of the copied numeral, and a Jack subtracts nothing or the value of one numeral of the caravan |
| `Rules.WinningCount` | caravan_simulator.py:180 | sanity bound only: the count never exceeds the number of scores (its meaning is `WinningCountCounts`) |
| `Rules.WinningCountCounts` | caravan_simulator.py:180 | the count equals the number of caravans whose score lies in 21..26 |
| `Rules.OneWinning` | caravan_simulator.py:180 | the count is at least 1 iff some score lies in 21..26 |
| `Rules.TwoWinning` | caravan_simulator.py:180-181 | the count is at least 2 iff two distinct caravans score in 21..26 |
| `Rules.FirstWinner` | caravan_simulator.py:178-183 | returns the first board, in order, with at least two winning scores, and none only if no board has them |
| `Players.Player.constructor` | caravan_simulator.py:39-44 | a new player has an empty hand, three empty caravans and three unset directions |
| `Players.Player.DrawCard` | caravan_simulator.py:46-49 | the last card of the deck moves to the end of the hand; an empty deck changes nothing |
| `Players.Player.RefillHand` | caravan_simulator.py:51-53 | draws min(target - hand, deck) cards, none if the hand is full, appending them in draw order; afterwards the hand is full or the deck empty, and hand plus deck hold the same cards |
| `Players.Player.CanPlay` | caravan_simulator.py:68-89 | answers false exactly when the card is blocked; sets the direction only for a numeral on a one-card caravan; a false answer changes nothing |
| `Players.Player.ApplySpecialEffect` | caravan_simulator.py:91-115 | the caravan becomes its Jack or King effect and the direction its Queen flip; other caravans, directions and the hand are unchanged |
| `Players.Player.PlayCard` | caravan_simulator.py:55-66 | succeeds iff both indices are in range and the card is not blocked on the target caravan; failure changes no hand, caravan or direction; success removes exactly that card from the hand and sets the target caravan and direction to their placed values, leaving the other player's hand and the acting player's caravans alone when the target is the opponent |
| `Players.Player.CalculateCaravanScores` | caravan_simulator.py:117-122 | three scores, the i-th being the numeral sum of caravan i |
| `Games.Game.constructor` | caravan_simulator.py:131-135 | two fresh, distinct players on the given decks, each with an empty hand, three empty caravans and three unset directions, and player 0 to move |
| `Games.Game.SwitchPlayer` | caravan_simulator.py:145-146 | the current player goes from 0 to 1 and from 1 to 0 |
| `Games.Game.Boards` | caravan_simulator.py:178-179 | the scores of each player's three caravans |
| `Games.Game.CheckWinner` | caravan_simulator.py:177-183 | the first player with two caravans winning at once, none exactly when neither has two; it reads the state and changes nothing |

## Left out

- Deck shuffle and the generation of the default 52-card deck (caravan_simulator.py:24-28): randomness. The deck constructor takes the cards in their order after the shuffle.
- Card and hand rendering (`__repr__`, `print_deck`, `show_hand`) and the message printed when a Jack removes a card: console output only.
- `Game.current_player_turn`: it prompts, parses and prints on the console. Its engine part is the `PlayCard` call, which is modelled.
- `Game.start`, `Game.play` and the main block: the interactive loop. `start` only calls `RefillHand` for each player. The random deck creation and the debug print in `Game.__init__` are left out too.
- Card values outside 1..13: the program fails on a value above 13 with a lookup error. Here the `Rank` type keeps values in 1..13, and suits are the four suits the program uses.
- Games.Game.CheckWinner: returns the winner's index in `players`, not the player's name string; the name is `players[w].name`.
- Players.Player.PlayCard: the program picks the target by truthiness (`opponent if opponent else self`); here `null` plays that role, because a player object is always truthy.
