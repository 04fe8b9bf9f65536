# Wizard card game engine, modelled in Dafny

This project models the rules engine of a Python implementation of the
trick-taking card game Wizard, and proves properties of it. The engine has
these parts:

- **Cards.** A card is a Standard card with a suit and a value, a Wizard or
  a Jester. `create_wizard_cards` builds the 60-card deck: 52 Standard
  cards, 4 Wizards and 4 Jesters.
- **Deck.** A list of cards that only shrinks. It is shuffled on creation,
  draws from the top and deals consecutive hands.
- **Turn.** The follow-suit rule `valid_cards`, and one player's turn. A
  turn asks the player for a card, rejects an illegal one, takes the card
  from the hand and records it in the trick.
- **Trick.** One turn per seat in order. The first Standard card sets the
  led suit. The winner is decided in this order:
  1. the first Wizard;
  2. the first card, if every card is a Jester;
  3. the highest trump;
  4. the highest card of the led suit.
- **Round.** Deals `round_number` cards per seat and flips a trump card if
  one is left. It then collects one bid per seat, plays `round_number`
  tricks and scores each seat. A met bid scores 20 plus 10 per trick; a
  missed bid scores minus 10 per trick of difference.
- **WizardGame.** Seats three to six players and shuffles the seating. It
  plays `60 // n` rounds, keeps every round's scores, adds them up per
  player, and names all players tied at the top.
- **`rotate_players`.** A standalone helper that rotates a seating list to
  start at a given player.

The files come from two layouts of the same package (`core/...` and
`src/core/...`). They are modelled as one engine.

## How the model is built

**Values and functions.** Cards, the deck factory, `valid_cards`,
`determine_winner`, `rotate_players` and the scoring rule are datatypes and
functions. Each comes with lemmas stating the rules the source implements.

**Classes.** The parts that change state in place are classes with
`modifies` frames: `Deck`, `Turn`, `Trick`, `Round` and `WizardGame`. Each
method's `ensures` ties the new state to specification functions:

- `Bidding` for the bets;
- `RemoveFirst` / `Put` / `FirstStandardSuit` for a turn;
- the `Played` predicate for a whole trick;
- the ghost sequences `winners` and `tricks`, with `Count`, for who won each trick of a round;
- `ScoresOf` and `Score` for round scores;
- `Merge` and `Total` for game totals.

**Insertion order.** A trick's insertion-ordered `trick_cards` dictionary
is a sequence of `Entry(player, card)`. Dictionary assignment is the
function `Put`. The other dictionaries are `map`s keyed by player.

**Player decisions.** A player's bid and card choice are supplied as
function values, `BidStrategy` and `CardStrategy`. Each receives a request
record holding what the engine shows the player.

**Errors.** Failures the source raises are `Err` outcomes of a `Result`:

- an illegal card;
- too few cards;
- a bad player count;
- a missing player;
- a seventh player.

**Two behaviours are modelled exactly as the code has them:**

- When the trick is not empty but no Standard card has set the led suit,
  `valid_cards` matches the suit `None`. That matches the Wizards and
  Jesters, so a hand holding one may play only those, and the list names
  each of them twice. See `Turns.NoLedSuitQuirk`.
- `Round.play` records each trick's winner as the next leader, but
  `play_trick` always passes the seats in their fixed order. The leader is
  stored and never read.

**Aliasing.** `Turn` and `Trick` mutate the hand lists and the trick
dictionary they share with their caller. In the model the callee works on
copies, and the caller writes the results back right after the call. This
gives the same state the aliasing gives.

## Model

| member | source | states |
|---|---|---|
| Cards.MakeCard | src/game/wizard_card.py:43-49 | A card is built exactly when a Standard card has both a suit and a value, or a Wizard/Jester has neither. Otherwise the result is InvalidCard. A built card has the requested type, suit and value. |
| Cards.CardFieldsAgree | src/game/wizard_card.py:37-49 | `TypeOf`, `SuitOf` and `ValueOf` read the three dataclass fields (lines 39-41). Every card is Standard iff it has a suit, iff it has a value. Rebuilding a card from its three fields gives the same card. |
| Cards.CardEquals | src/game/wizard_card.py:37-41 | Field-by-field dataclass equality holds exactly when the cards are the same value. `in` and `list.remove` on hands rely on this. |
| CardFactory.SuitIndex | src/game/wizard_card.py:7-11 | Each suit sits at its declaration position in the enum's iteration order. |
| CardFactory.CreateWizardCards | game/wizard_card_factory.py:3-15 | The deck has 60 cards. Position i < 52 holds the Standard card of suit i/13 and value i%13+1. Positions 52-55 hold Wizards and 56-59 hold Jesters. |
| CardFactory.StandardCardsFirst | game/wizard_card_factory.py:4-15 | Exactly the first 52 cards are Standard, each at position 13*suit + value - 1 (suit order first, then value). |
| CardFactory.DeckSpecials | game/wizard_card_factory.py:10-13 | The deck holds exactly four Wizards and four Jesters. Every Standard card's value lies in 1..13, a bound only the factory imposes. |
| CardFactory.DeckStandards | game/wizard_card_factory.py:4-8 | Every (suit, value) pair with value in 1..13 occurs exactly once in the deck. |
| Collections.IndexOf | src/core/player.py:22 | `list.index`: the returned position holds x, and x does not occur before it. |
| Collections.Shuffle | core/deck.py:12-14 | Whatever the random numbers, the result is a permutation of the input (same length, same multiset). Distinct inputs stay distinct. |
| Players.RotatePlayers | src/core/player.py:21-23 | A player who is not seated fails with PlayerNotFound. Otherwise the result starts with that player, is a permutation of the seating, and reads the seating cyclically from that player's first index. |
| Players.RotateToFirstIsIdentity | src/core/player.py:21-23 | Rotating to the first seat (so also any one-seat list) returns the seating unchanged. |
| Decks.Deck.constructor | core/deck.py:8-10 | The new deck holds a permutation of the given cards. |
| Decks.Deck.Shuffle | core/deck.py:12-14 | Shuffling keeps the deck's size and its multiset of cards. |
| Decks.Deck.Draw | core/deck.py:16-21 | `Remaining` is `remaining` (core/deck.py:32-33), the number of cards left. Drawing more cards than remain fails and leaves the deck unchanged. Otherwise it returns the top `count` cards and leaves the rest. The drawn cards followed by the new deck equal the old deck, and the remaining count drops by `count`. |
| Decks.Deck.DrawOne | core/deck.py:23-24 | An empty deck fails. Otherwise this returns the top card and leaves the rest, and the remaining count drops by one. |
| Decks.Deck.Deal | core/deck.py:26-30 | The deal succeeds iff n*k cards remain. On success every seat gets the k-card slice at its seat's offset, the n*k top cards are gone, and the hands joined in seat order followed by the deck give the old deck. On failure the draws already made stay removed. |
| Decks.SlicesJoin | core/deck.py:26-30 | Consecutive k-card hands, joined in seat order, are exactly the first n*k cards. |
| Decks.HandSizes | core/deck.py:26-30 | Every hand of a deal has exactly k cards. |
| Decks.WholeHands | src/game/wizard_game.py:39 | Floor division: q hands of k fit in the pile and q + 1 do not. |
| Decks.WholeHandsFromBounds | src/game/wizard_game.py:39 | The floor quotient is the unique i with i*k <= total < (i+1)*k. |
| Turns.PutRule | src/core/turn.py:35 | `Put` is the dictionary assignment `trick_cards[p] = c`. Afterwards p maps to c, and every other key keeps its card. The keys are the old keys in the same order, with p added last when it is new. |
| Turns.Specials | src/core/turn.py:45 | The list comprehension keeps exactly the hand's Wizards and Jesters. |
| Turns.Matching | src/core/turn.py:52 | The list comprehension keeps exactly the hand's cards whose suit field equals the given (possibly absent) suit. |
| Turns.ValidCardsRule | src/core/turn.py:44-54 | The rule of `ValidCards` (`valid_cards`). An empty trick allows the whole hand. Every allowed card is in the hand, and the list is empty iff the hand is. A player holding the led suit may play exactly the Wizards, the Jesters and cards of that suit. A player without it may play the whole hand. |
| Turns.MustFollowSuit | src/core/turn.py:52-54 | After a suit is led, a player holding that suit may play no Standard card of another suit. |
| Turns.NoLedSuitQuirk | src/core/turn.py:52-54 | With a non-empty trick and no led suit, a hand holding a Wizard or Jester may play only those, and the list names each of them twice. A hand without them may play anything. |
| Turns.SpecialsAreNoneSuited | src/core/turn.py:45-52 | The cards whose suit is `None` are exactly the Wizards and Jesters, in hand order. |
| Turns.RemoveFirst | src/core/turn.py:34 | `list.remove` drops exactly one card. |
| Turns.RemoveFirstRule | src/core/turn.py:34 | The card removed is the first occurrence, and the other cards keep their order. |
| Turns.RemoveFirstCounts | src/core/turn.py:34 | Removing c takes one copy of c out of the hand's multiset and nothing else. |
| Turns.NextLedSuit | src/core/turn.py:38-39 | The led suit changes only when it was unset and a Standard card is played, and then it becomes that card's suit. |
| Turns.Turn.constructor | src/core/turn.py:13-25 | The turn holds the given player, hand, trick and led suit, with no card played yet. |
| Turns.Turn.Play | src/core/turn.py:27-41 | The turn succeeds iff the player's choice is in `valid_cards`. On success the card leaves the hand (first copy), is recorded in the trick under the player and as the played card, and the led suit is updated. A rejected card changes nothing and names the player. |
| Tricks.FirstWhere | src/core/trick.py:50-54 | The first play satisfying the test, or none when no play does. |
| Tricks.FirstStandardSuitIsFirst | src/core/trick.py:40-41 | `FirstStandardSuit` is the led suit built play by play, as `Trick.play` does. It is the suit of the first Standard card, and it is absent iff no Standard card was played. |
| Tricks.Highest | src/core/trick.py:66-70 | `max(..., key=card_value)` over the cards of a suit: the chosen card has the suit and a value no smaller than any other card of the suit. Of equal values it keeps the earliest, as `max` does. |
| Tricks.WinningPlay | src/core/trick.py:48-78 | The winner is undefined exactly for an empty trick; otherwise it is the index of a play of the trick. |
| Tricks.DetermineWinner | src/core/trick.py:48-78 | A non-empty trick always has a winner, and the winner is one of the players of the trick. |
| Tricks.WizardWins | src/core/trick.py:52-54 | The earliest Wizard wins, whatever is played after it. |
| Tricks.AllJestersFirstWins | src/core/trick.py:60-62 | A trick of Jesters only goes to the first player. |
| Tricks.TrumpWins | src/core/trick.py:64-70 | With no Wizard and a trump card in play, the winner played a trump card at least as high as every other trump card. |
| Tricks.LedSuitWins | src/core/trick.py:56-78 | With no Wizard, not all Jesters and no trump played, the led suit is set. The winner played a led-suit card at least as high as every other card of that suit. |
| Tricks.JesterWinsOnlyAllJesters | src/core/trick.py:48-78 | A Jester wins only a trick made of Jesters alone. |
| Tricks.LegalPlaysAt | src/core/trick.py:30-39 | In a legal trick, play i was its player's own choice and was allowed given the plays before it. |
| Tricks.PutAgain | src/core/trick.py:38-39 | The trick's second write of the card the turn already recorded leaves one entry, at the end. |
| Tricks.TakenStep | src/core/trick.py:30-39 | One more turn takes that player's card from their still-untouched hand, and leaves every other hand alone. |
| Tricks.PlayedStep | src/core/trick.py:30-41 | A legal turn by the next seat extends everything `Played` records: the hands, the play order and legality. |
| Tricks.PlayedShrinks | src/core/trick.py:30-39 | After a whole trick every seated player holds one card fewer, and the hands of everyone else are unchanged. |
| Tricks.Trick.constructor | src/core/trick.py:13-26 | A new trick has the given seats, hands and trump, no cards and no led suit. |
| Tricks.Trick.PlayTurn | src/core/trick.py:31-41 | One loop pass succeeds iff the player's choice is legal for their hand and the led suit. On success the hand loses that card, the trick gains one entry at the end, and the led suit is the first Standard suit. A rejection names the player and changes nothing. |
| Tricks.Trick.Play | src/core/trick.py:28-46 | On success every seat has played once, in seat order, a legal card of its own choosing, taken from its hand. The led suit is the first Standard suit, and the result is `determine_winner` of the cards, a seated player. On failure the earlier seats have played and the named seat's choice was illegal. |
| Rounds.Score | core/round.py:65-67 | A met bid scores 20 + 10*won; a missed one scores -10 per trick of difference. Scores are multiples of 10, and a score is positive exactly when the bid was met. |
| Rounds.SumWonIncrement | core/round.py:37 | One more trick for a seated player raises the total tricks won by one. |
| Rounds.SumWonZero | core/round.py:25 | A fresh tally adds up to zero. |
| Rounds.BiddingKeys | core/round.py:45-49 | Bidding gives a bet to every bidder and leaves other bets unchanged. |
| Rounds.BiddingRecords | core/round.py:45-49 | `Bidding` is the bets after the seats bid in order. In it, each seat's stored bet is exactly the answer it gave, when asked after the seats before it had bid and shown their bets. |
| Rounds.CountStep | core/round.py:37 | One more trick adds one to its winner's `Count` and nothing to anyone else's. |
| Rounds.CountsAddUp | core/round.py:35-37 | Each trick counts for exactly one seat. Over distinct seats who won all the tricks, the `Tally` of counts adds up to the number of tricks. |
| Rounds.ScoresOf | core/round.py:62-69 | The score table has one entry for each seated player. |
| Rounds.DealRound | core/round.py:21-23 | The deal fails with InsufficientCards iff n*r > 60. Otherwise every seat holds r cards, and a trump card is flipped iff cards are left. Hands, trump card and stock together are the 60 given cards. |
| Rounds.ShuffledDeck | core/round.py:21 | The deck shuffled twice holds a permutation of the given cards. |
| Rounds.FlipTrump | core/round.py:23 | A trump card is drawn iff the deck is not empty, and it is the top card. |
| Rounds.DealHands | core/round.py:22 | The deal succeeds iff n*k cards remain. Each seat gets k cards from the top, and the hands plus the deck are the old deck. |
| Rounds.RunTrick | core/round.py:51-60 | On a copy of the round's hands: every seat plays once, in fixed seat order, legally, from its hand. Each hand loses one card, and the winner is a seated player and the trick's `determine_winner`. A failure names a seated player. |
| Rounds.Round.constructor | core/round.py:16-26 | A new round has no bets, a zero tally for each seat, the first seat as leader and no trick. |
| Rounds.Round.New | core/round.py:10-26 | A round is created iff its cards fit (n*r <= 60) and a seat exists. Each seat then holds r cards, and a trump card exists iff cards are left. Bets are empty, tallies zero and the leader is the first seat. All cards together are the factory deck. |
| Rounds.Round.TrumpSuit | core/round.py:84-85 | A trump suit exists iff a trump card was flipped and it is Standard; it is that card's suit. |
| Rounds.Round.RunBiddingPhase | core/round.py:45-49 | The bets become `Bidding` over the seats in order, and nothing else changes. |
| Rounds.Round.PlayTrick | core/round.py:51-60 | Every seat's hand loses one card. The result is a seated player and the winner of the trick just played, under the round's trump. Bets, tallies, trump and leader are unchanged. |
| Rounds.Round.CalculateScores | core/round.py:62-69 | Scores exist iff every seat has a bet; a missing bet fails with PlayerNotFound. The scores are `Score(bet, won)` per seat. |
| Rounds.Round.RecordWin | core/round.py:37-38 | The winner's tally goes up by one, the total goes up by one, and the winner becomes the (unused) leader. |
| Rounds.Round.PlayAndRecord | core/round.py:35-38 | One loop pass: the winner of the trick just played, a seated player, gets one more trick, and no one else's tally changes. |
| Rounds.Round.PlayTricks | core/round.py:33-38 | After `round_number` tricks, `winners[i]` is a seated player and the winner of `tricks[i]` under the round's trump. Each seat's tally has grown by the number of tricks it won, so the total grows by `round_number`. Each hand has lost `round_number` cards. A failure names a seated player. |
| Rounds.Round.Play | core/round.py:28-42 | The bets are `Bidding` over the seats. Trick i went to `winners[i]`, its `determine_winner`. Each seat's tally has grown by the tricks it won, `round_number` in all, and the result is `Score(bet, won)` for every seat. Trump and stock are unchanged. |
| Games.RoundCount | src/game/wizard_game.py:39 | `60 // n` is the largest r with n*r <= 60. |
| Games.RoundCounts | src/game/wizard_game.py:39 | 20 rounds for 3 players, 15 for 4, 12 for 5 and 10 for 6. |
| Games.DealFits | src/game/wizard_game.py:39-45 | Every round of a game can be dealt: n*r <= 60 for r <= 60 // n. |
| Games.MergeOrder | src/game/wizard_game.py:65-68 | `Merge`, with `Get` as `scores.get(p, 0)`: the totals do not depend on the order the rounds are merged in, and a round with no scores leaves them unchanged. |
| Games.TotalFrame | src/game/wizard_game.py:63 | Recording round k + 1 leaves the totals over rounds 1..k unchanged. |
| Games.TotalAfterRound | src/game/wizard_game.py:63-68 | Recording round k + 1 adds its score to the total over rounds 1..k. |
| Games.RoundAdded | src/game/wizard_game.py:63-68 | Merging round k + 1 into totals over rounds 1..k gives totals over 1..k + 1, for the same players. |
| Games.TopScorersExist | src/game/wizard_game.py:75-77 | A non-empty table has a top scorer, and all top scorers tie. |
| Games.Winners | src/game/wizard_game.py:75-77 | `max` of no scores fails with NoPlayers. Otherwise the winners are a non-empty set of players, each scoring at least as much as everyone. Every other player scores below some winner. |
| Games.RunRound | src/game/wizard_game.py:53-60 | Every seat is dealt `round_number` cards and bids in seating order. Trick i is won by `winners[i]`, a seated player. A round's scores exist for exactly the seated players, each `Score(bet, tricks that player won)`. A failure is too few cards, no seats or a named seat's illegal card. |
| Games.WizardGame.constructor | src/game/wizard_game.py:14-22 | A new game has no players, scores, round scores or rounds. |
| Games.WizardGame.AddPlayer | src/game/wizard_game.py:24-29 | A seventh player is refused with TooManyPlayers and nothing changes. Otherwise the player is appended, so a table never grows past six. |
| Games.WizardGame.PlayRound | src/game/wizard_game.py:51-68 | On success round r's scores are recorded under r, cover exactly the seats and are the scores of some bets and of r tricks, each won by a seated player. The totals become the merge of the old totals with them. On failure nothing is recorded. |
| Games.WizardGame.NextRound | src/game/wizard_game.py:43-45 | One pass of the round loop keeps everything `Recorded` states, one round further. |
| Games.WizardGame.PlayRounds | src/game/wizard_game.py:43-45 | After the loop, rounds 1..max_rounds are recorded, each as a round of that many tricks, and each total is the sum over them. |
| Games.WizardGame.StartGame | src/game/wizard_game.py:31-49 | Fewer than 3 or more than 6 players fail with InvalidPlayerCount and change nothing. Otherwise the seating becomes a permutation of itself and there are `60 // n` rounds. On success the round scores gain exactly the keys 1..max_rounds, and every player's total is the sum of their round scores. The winners are exactly the players at the maximum total. |

## Left out

- Logging, `print` and every `__str__`/display name are not modelled; they have no effect on the state.
- The game-state snapshot (`GameState`, `get_game_state_for_player`) is reduced to the request records given to the decision functions.
- Player strategies, the AI agents and the console players are not part of this model. Decisions are arbitrary total functions of the request, so one player always answers a given request the same way.
- `pick_trump_suit` is not modelled: the engine never calls it.
- `random.shuffle` takes its random numbers from a function parameter; nothing is claimed about their distribution.
- WizardGame's `_deck`, `_current_round` and `_current_trick` fields and its read-only properties are not modelled: `_deck` is never used, and the others only expose state.
- Rounds.Round: the round's deck object after the deal is kept as the `stock` sequence, because the round never draws from it again.
- Aliasing is not modelled as such. The shared hand lists and trick dictionary are passed as copies and written back after each call, which ends in the same state.
- Tricks.Trick.Play, Decks.Deck.Deal, Rounds.Round.New and Games.WizardGame.StartGame require distinct players. The same player object seated twice, which `add_player` allows and which makes the dictionaries collapse entries, is not modelled.
- Rounds.Round.PlayTricks: does not restate, for each trick, that every seat played in seating order; Rounds.RunTrick states that for one trick.
- Games.RunRound: does not relate the cards of each trick to the hands dealt; Tricks.Trick.Play states that for one trick.
- Rounds.Round.PlayTrick: does not repeat the per-turn facts about the trick (play order, legality, cards taken); those are stated once, on Rounds.RunTrick.
- Turns.ValidCardsRule: states which cards are allowed, not the list's order or repeats. The order is the definition of Turns.ValidCards, and the repeats are stated by Turns.NoLedSuitQuirk.
- Games.WizardGame.StartGame: the winners are returned as a set. `end_game` only logs a list of names, in an order that depends on a set union, with a singular/plural message.
- Games.Winners: the sorted score listing of `end_game` is not modelled, because it is log output.
- Decks.Deck.constructor: the copy of the input list is implicit, because sequences are values.
- Python's failures are modelled as `Err` outcomes: the assertion in `Turn.play`, `ValueError` from `draw` and `start_game`, `Exception` from `add_player`, `KeyError` in `calculate_scores`, and `IndexError`/`ValueError` on empty tables. The game stops at the first one.
