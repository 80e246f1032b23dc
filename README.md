# Rusty Blackjack: a verified model of one round

This project models the rule engine of Rusty Blackjack, a console Blackjack
game (`src/main.rs`). It covers:

- the cards and their values;
- the fresh 52-card deck, its shuffle and dealing from the end;
- the two hands, with their running value and count of soft aces;
- the player's chips and the betting prompt;
- one round of `main`:
  1. four opening deals;
  2. a fresh ledger of 100 chips and the bet;
  3. the player's hit-or-stand loop;
  4. the dealer's draw-to-17 loop;
  5. the four-way settlement.

The project has six modules, each in its own file:

| module | file | contents |
|---|---|---|
| `Wrappers` | `wrappers.dfy` | Option and Result |
| `Cards` | `cards.dfy` | suits, ranks and `set_value` |
| `Decks` | `deck.dfy` | the `Deck` class: `new_deck`, `shuffle`, `deal` |
| `Hands` | `hand.dfy` | the `Hand` class: `add_card`, `adjust_for_aces`, and the hand invariant |
| `Ledger` | `ledger.dfy` | the `Chips` class: `win_bet`, `lose_bet`, and `take_bet` |
| `Game` | `game.dfy` | `hit`, `hit_or_stand`, the settlement helpers and the round |

The state the source changes in place lives in classes: `Deck`, `Hand` and
`Chips`. Each class has methods that update its fields, and each method's
contract gives the new state:

- `Chips.WinBet`, `Chips.LoseBet`, `Deck.Deal` and `Hand.AddCard` state the
  new value of each field directly;
- `Hand.AddCard`, `Hand.AdjustForAces` and `Game.Hit` are also tied to the
  pure hand functions `WithCard`, `AceAdjusted` and `AfterHit`;
- `Deck.NewDeck` is tied to the pure function `FullDeck`;
- the loops and the round are tied to the pure functions `PlayerTurn`,
  `DealerTurn`, `PlayTable` and `RoundSpec`.

`Drawn` describes, as a sequence, the cards that a run of deals takes
from the end of a deck. The lemmas about the order of dealing use it.

The properties of the game are lemmas about those functions. The imperative
round, `Game.PlayRound`, is proved to return exactly `RoundSpec`. The
round-level lemmas therefore hold for what the loops compute.

The model replaces the program's outside inputs as follows:

- **Console input** becomes two parameters:
  - a sequence of bet attempts, each a value that `parse::<i32>()` can return;
  - a sequence of hit-or-stand lines: `ChooseHit`, `ChooseStand` or `Unrecognized`.
- **The random shuffle** becomes a parameter: the arrangement of the 52 cards,
  constrained only to be a permutation of the fresh deck.
- **Running out of input** ends the round with an error value. The program
  itself would panic, or re-prompt for ever.
- **The 32-bit overflow panic of the chip arithmetic** ends the round with
  `Err(ChipOverflow)`. `lose_bet` can overflow when a negative bet is accepted.

## Model

| member | source | states |
|---|---|---|
| Cards.RankValue | src/main.rs:142-158 | A rank's value is between 2 and 11; it is 11 exactly for the Ace and 10 exactly for Ten, Jack, Queen and King |
| Cards.RankValueTable | src/main.rs:142-158 | Two to Ten are worth their number, the court cards 10, the Ace 11 |
| Cards.MakeCard | src/main.rs:173-178 | A created card has the given suit and rank and carries its rank's value |
| Cards.CardIndexInjective | src/main.rs:170-171 | Two well-formed cards at the same suit-major position are the same card |
| Decks.Deck.constructor | src/main.rs:43-45 | A new deck holds no cards |
| Decks.Deck.NewDeck | src/main.rs:169-182 | `new_deck` appends exactly the fresh-deck sequence FullDeck to the cards already there |
| Decks.Deck.AddRow | src/main.rs:171-180 | The inner loop appends one card of the suit per rank, in rank order |
| Decks.SuitRow | src/main.rs:171-180 | The row of one suit: one card of that suit per rank, in the order of the ranks, as many cards as ranks |
| Decks.SuitRows | src/main.rs:170-181 | The rows of the given suits one after the other, suit by suit: 13 cards per suit |
| Decks.FullDeck | src/main.rs:169-182 | The fresh deck: the rows of the four suits in declaration order, 52 cards (FullDeckFacts gives its properties) |
| Decks.SuitRowAt | src/main.rs:171-180 | The m-th card of a suit's row has the m-th rank |
| Decks.SuitRowsAt | src/main.rs:170-181 | The card at 13 * a + m of the rows has the a-th suit and the m-th rank (suit-major order) |
| Decks.FullDeckAt | src/main.rs:169-182 | Position j of a fresh deck holds a well-formed card whose suit-major index is j |
| Decks.FullDeckOrder | src/main.rs:169-182 | A fresh deck has 52 cards, each well formed and at its own suit-major position |
| Decks.FullDeckPositions | src/main.rs:169-182 | Every well-formed card sits at position 13 * suit + rank of a fresh deck |
| Decks.FullDeckDistinct | src/main.rs:169-182 | No card occurs twice in a fresh deck |
| Decks.FullDeckMembers | src/main.rs:169-182 | A card is in a fresh deck exactly when it is well formed |
| Decks.FullDeckCounts | src/main.rs:169-182 | A fresh deck holds every well-formed card exactly once and no other card |
| Decks.FullDeckFacts | src/main.rs:169-182 | The five facts about the fresh deck above, together |
| Decks.Deck.Shuffle | src/main.rs:184-186 | The shuffled deck is the supplied arrangement, with the same cards and length |
| Decks.ArrangementFacts | src/main.rs:184-186 | Any permutation of the fresh deck has 52 well-formed cards |
| Decks.Deck.Deal | src/main.rs:188-190 | `deal` on a non-empty deck returns the last card and leaves the rest, in order |
| Decks.DrawnSplit | src/main.rs:188-190 | Dealing a + b cards from the end is dealing a cards, then b from what is left |
| Hands.WithCard | src/main.rs:203-209 | Adding a well-formed card to a consistent hand keeps the hand invariant |
| Hands.Hand.AddCard | src/main.rs:203-209 | `add_card` appends the card, adds its value, counts a soft ace exactly for an Ace, and keeps the invariant |
| Hands.AceAdjusted | src/main.rs:211-216 | The cards never change; one soft ace is made hard (value - 10) exactly when the value is over 21 and a soft ace remains, and nothing changes otherwise |
| Hands.Hand.AdjustForAces | src/main.rs:211-216 | `adjust_for_aces` changes the fields as AceAdjusted says and keeps the invariant |
| Hands.AfterHit | src/main.rs:255-258 | A hit with a well-formed card keeps the hand invariant |
| Hands.HardTotalAtLeastCount | src/main.rs:197-216 | With every Ace counted as 1, the cards are worth at least their number |
| Hands.ValueAtLeastCardCount | src/main.rs:197-216 | A consistent hand's value is at least its number of cards |
| Hands.TwoAcesThenKing | src/main.rs:255-258 | Ace, Ace, then a hit of a King is 22 with one soft ace, not 12: one adjustment per hit |
| Hands.Hand.constructor | src/main.rs:49-53 | A new hand is empty with value 0 and no aces |
| Ledger.FirstAffordable | src/main.rs:237-253 | The accepted attempt is the first one that does not exceed the total; there is none exactly when every attempt exceeds it |
| Ledger.TakeBet | src/main.rs:246-250 | The bet becomes the first attempt not over the total, and the total is unchanged; if there is none, the bet is unchanged |
| Ledger.Chips.constructor | src/main.rs:66-69 | The ledger starts with the given total and bet; the round creates it with 100 and 0 |
| Ledger.Chips.WinBet | src/main.rs:228-230 | `win_bet` adds the bet to the total unless the 32-bit sum overflows, and leaves the bet |
| Ledger.Chips.LoseBet | src/main.rs:232-234 | `lose_bet` subtracts the bet from the total unless the 32-bit difference overflows, and leaves the bet |
| Game.Settle | src/main.rs:103-111 | The settlement comparison never yields a player bust |
| Game.Delta | src/main.rs:103-111 | An outcome moves the total by plus or minus the bet, or by 0 for a push |
| Game.SettleByScore | src/main.rs:103-111 | With a dealer bust counted as 0, a non-busted player wins exactly on the higher score, loses exactly on the lower one, and pushes exactly on a tie |
| Game.Showdown | src/main.rs:103-111 | The four tests, in source order, choose the outcome Settle gives and move the total by Delta of it unless that overflows 32 bits; the bet is unchanged |
| Game.PlayerBusts | src/main.rs:301-303 | `player_busts` loses the bet |
| Game.PlayerWins | src/main.rs:305-307 | `player_wins` wins the bet |
| Game.DealerBusts | src/main.rs:309-311 | `dealer_busts` wins the bet |
| Game.DealerWins | src/main.rs:313-315 | `dealer_wins` loses the bet |
| Game.Hit | src/main.rs:255-258 | `hit` deals the deck's last card, adjusts aces once, and keeps the hand invariant |
| Game.NextDecision | src/main.rs:260-277 | The prompt acts on the first recognised line from the current position; every line skipped before it is unrecognised |
| Game.HitOrStand | src/main.rs:260-277 | `hit_or_stand` skips unrecognised lines and reports the choice at NextDecision: a hit changes the hand and deck as AfterHit does, and a stand changes nothing |
| Game.PlayerTurn | src/main.rs:77-91 | A player's turn keeps the hand invariant and a well-formed deck, moves cards only from the deck to the hand (at most 22 held), ends Stood only at 21 or less and Busted only over 21 |
| Game.PlayerTurnDeals | src/main.rs:77-91 | The player's final cards are the starting cards followed by cards dealt from the end of the deck; what is left is a prefix of the deck |
| Game.PlayerStep | src/main.rs:78-89 | One pass of the player's loop either ends the turn as PlayerTurn says or continues PlayerTurn from the new state |
| Game.PlayerPrompt | src/main.rs:78-89 | One hit-or-stand prompt in the loop, stated against PlayerTurn |
| Game.PlayerPlays | src/main.rs:77-91 | The player's loop ends in exactly the hand, deck and ending that PlayerTurn gives |
| Game.DealerTurn | src/main.rs:94-97 | The dealer stops at 17 or more, keeps the invariant, and draws nothing from 17 on |
| Game.DealerTurnDeals | src/main.rs:94-97 | The dealer's hits are dealt from the end of the deck |
| Game.DealerPlays | src/main.rs:94-97 | The dealer's loop ends in exactly the hand and deck that DealerTurn gives |
| Game.DealerRound | src/main.rs:93-112 | The dealer's loop and the settlement give exactly the dealer phase of the round |
| Game.DealerPhase | src/main.rs:94-111 | The dealer draws from its opening hand as DealerTurn says, then the round settles on Settle of the two values |
| Game.Settlement | src/main.rs:86-111 | The fresh 100-chip total moved by Delta of the outcome; ChipOverflow when that leaves the 32-bit range, otherwise a report of the hands, the deck left, the bet, the outcome and the total |
| Game.OpeningDeal | src/main.rs:54-63 | The opening leaves the deck minus its last four cards and gives the four cards in the order dealt |
| Game.OpeningHandCards | src/main.rs:54-55 | An opening hand holds its two cards, in order, at their full values, with no ace adjustment |
| Game.OpeningHandConsistent | src/main.rs:54-63 | An opening hand of well-formed cards keeps the hand invariant |
| Game.OpeningReady | src/main.rs:43-63 | After the opening deals, both hands hold two cards and are consistent, and 48 cards remain |
| Game.ShuffledDeck | src/main.rs:43-47 | The round's deck is a fresh deck put in the supplied order |
| Game.DealTo | src/main.rs:54 | One opening deal adds the deck's last card to the hand with no ace adjustment |
| Game.DealTwo | src/main.rs:54-55 | Two deals into a hand add the deck's last card, then the next one, with no ace adjustment, and leave the deck minus those two |
| Game.DealHand | src/main.rs:49-55 | A new hand dealt two cards holds the opening hand of the deck's last two cards |
| Game.DealOpening | src/main.rs:49-63 | The four opening deals give exactly the table OpeningDeal describes |
| Game.OpeningHand | src/main.rs:49-63 | An empty hand given two cards by `add_card`, with no ace adjustment, as both opening hands are dealt |
| Game.PlayHands | src/main.rs:77-112 | The player's loop, the bust branch and the dealer's round give exactly PlayTable |
| Game.PlayTable | src/main.rs:77-112 | The player's turn as PlayerTurn gives it; ChoicesExhausted when the input runs out; a bust settles as PlayerBust with the dealer's opening hand; a stand goes on to DealerPhase |
| Game.PlayRound | src/main.rs:43-112 | The whole round computes exactly RoundSpec of the arrangement, the bet attempts and the choices |
| Game.RoundSpec | src/main.rs:43-112 | The opening deal of the arrangement; NoAcceptableBet when FirstAffordable finds no attempt within 100; otherwise PlayTable with that attempt as the bet |
| Game.TableBust | src/main.rs:85-89 | A player bust is over 21, leaves the dealer's opening hand untouched, and costs the bet |
| Game.TableDealerPlays | src/main.rs:93-111 | Without a player bust, the player is at 21 or less, the dealer at 17 or more, and the outcome is Settle of the two values |
| Game.TableLedger | src/main.rs:66-111 | The total is 100 moved by Delta of the outcome, the bet is the one accepted, and an overflow happens only for a bet below 100 - I32_MAX |
| Game.TableOverflow | src/main.rs:86-111 | The chips overflow exactly when the bet is below 100 - I32_MAX and the round reaches `lose_bet`: a player bust or a higher dealer. A won bet or a push never overflows |
| Game.TableDealing | src/main.rs:77-111 | The player's hits and then the dealer's are dealt from the end of the deck, and at least 13 cards are never dealt |
| Game.TableHandsConsistent | src/main.rs:77-111 | Both final hands keep the hand invariant |
| Game.TableStandOver21 | src/main.rs:80-89 | A player who stands on an opening hand over 21 busts with that hand |
| Game.TableDealerOver21 | src/main.rs:94-104 | A dealer whose opening hand is over 21 draws nothing and busts unless the player did |
| Game.RoundBet | src/main.rs:66-72 | A round has no bet exactly when every attempt exceeds 100; otherwise the bet is the first attempt not over 100 |
| Game.RoundSettlement | src/main.rs:77-112 | A bust: player over 21, the dealer keeps the opening cards, total 100 - bet. Otherwise: player at 21 or less, dealer at 17 or more, outcome Settle, total 100 + Delta. Overflow only for a bet below 100 - I32_MAX |
| Game.RoundDealingOrder | src/main.rs:43-112 | Cards come off the end of the shuffled deck in this order: two to the player, two to the dealer, the player's hits, the dealer's hits. At least 13 are never dealt |
| Game.OpeningDealing | src/main.rs:43-112 | The dealing order for the round played on the opening deal |
| Game.RoundHandsConsistent | src/main.rs:43-112 | Both final hands of a round keep the hand invariant |
| Game.RoundOpeningAcesStand | src/main.rs:54-89 | A player dealt two Aces holds 22 and busts on standing at once |
| Game.RoundDealerOpeningAces | src/main.rs:62-104 | A dealer dealt two Aces holds 22, draws nothing, and busts when the player has not busted |

## Left out

- Console output (`println!`), `show_some` and `show_all` are display only. `show_some` reads `dealer.cards[1]` at src/main.rs:75 and src/main.rs:83. That read is in range: OpeningReady gives a table that satisfies `Ready`, so the dealer holds exactly two cards, and PlayerPlays may modify only the deck and the player's hand, so the dealer still holds them at both calls.
- Decks.Deck.Deal: the `requires cards != []` leaves out the panic of `pop().unwrap()` on an empty deck (src/main.rs:189), such as a 53rd deal from a fresh deck. No round reaches it: TableDealing and RoundDealingOrder show that at least 13 cards are never dealt.
- Console input and string trimming are replaced by the bet-attempt and choice sequences. `parse::<i32>().unwrap()` panicking on text that is not a number is not modelled: attempts are typed as 32-bit values.
- Ledger.TakeBet, Game.HitOrStand: when the input runs out, the program panics at the bet prompt and re-prompts for ever at the hit-or-stand prompt. The model returns `accepted == false` or `None` instead, and the round ends with `NoAcceptableBet` or `ChoicesExhausted`.
- `Deck::shuffle` calls `thread_rng`, which is not part of this model. The permutation arrives as a parameter (`Decks.Deck.Shuffle`).
- The `static mut PLAYING` global is a local loop flag in `Game.PlayerPlays`. The replay branch resets it before every later round. Nothing runs concurrently.
- The outer replay loop of `main` (the play-again prompt) is left out. A round is modelled once, and every round starts from fresh chips and a fresh deck.
- Ledger.Chips.WinBet, Ledger.Chips.LoseBet: the 32-bit overflow is modelled as the debug build's panic, which is `ok == false` with the total unchanged. The release build's wrap-around is not modelled. The hand's `i32` value and ace count cannot come near overflow and are unbounded integers.
- `push()` only prints and changes nothing. `Game.Showdown` covers it as its last branch.
- `main` is split into the helper methods PlayRound, ShuffledDeck, DealOpening, DealHand, DealTwo, DealTo, PlayHands, PlayerPlays, PlayerPrompt, DealerRound and Showdown. Each runs the statements of the lines it cites, in their order.
- The `strum` derives (`EnumIter`, `Display`) appear only as the sequences `ALL_SUITS` and `ALL_RANKS`, in declaration order.
