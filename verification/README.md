# Blackjack round logic, modelled in Dafny

A model of the game logic of a browser Blackjack game: the 52-card table that
cards are drawn from, hand scoring with Aces demoted from 11 to 1, the fixed
10-chip bet, the deal with its check for a player natural, the player's Hit
and Stand, the dealer's stand-on-17 loop, settlement, and reset. Around it sit
two small pieces of the UI with real rules: which of a hand's cards and totals
are hidden, and the clamp on the chip-refill amount.

Modules, one per source concern:

- `Numbers` (`numbers.dfy`): JavaScript `parseInt(text, 10)`, which the game
  uses to read numeral rank labels and the typed refill amount; `NaN` is `None`.
  The scoring call omits the radix, which would only matter for a "0x"
  prefix; the labels "2" to "10" have none, so the two readings agree.
- `Cards` (`cards.dfy`): suits, ranks, the rank labels, and the card table as a
  suit-major cross product (`src/assets/cardDeck.js`).
- `Scoring` (`scoring.dfy`): `calculateHandValue` as a functional
  specification (`HandValue`) and as the loop the game runs
  (`CalculateHandValue`), proved equal.
- `Round` (`round.dfy`): the game state as one record and `startHand`,
  `dealCardToPlayer`, `playerStand`, `handleGameOver`, `resetGame` as
  functions over it, with the invariant they keep.
- `HandView` (`hand_view.dfy`): the `Hand` component's hiding rules and the
  table the game renders from its state.
- `BuyChips` (`buy_chips.dfy`): the refill form's amount field, presets and
  add button.

Randomness is a parameter. Each `Math.random` draw is a table position
(`DeckIndex`, 0 to 51). A deal takes four such positions. A hit takes one. The
dealer's turn takes an endless draw source `nat -> DeckIndex`. Draws are with
replacement from an unchanging table, as in the game; there is no shoe.

React state is modelled as one record per render. The setter calls of one
handler are applied in order. Values read from the render's closure are the
old record's fields. That is why, as written, a player natural is settled on
the stake of the render before the bet, which is 0, and pays nothing back:
`Round.StartHandAsWritten` models the deal that way. The rest of the model
uses `Round.StartHand`, which settles the natural on the 10-chip stake just
placed (see "## Findings").

The game's rules differ from casino Blackjack; the model follows the code:

- the bet is always 10 chips, not a chosen wager;
- cards are drawn with replacement, with no finite shoe and no reshuffle;
- a natural is settled like any other result, never at 3:2: in `Round.StartHand`
  a natural win pays 2x the stake back; as written it pays nothing (see
  "## Findings");
- only a player natural settles at the deal; a dealer-only natural is settled
  at Stand by the ordinary comparison;
- the dealer's second card is hidden until the round is over, not until the
  dealer's turn starts.

## Model

| member | source | states |
|---|---|---|
| Cards.DeckLayout | src/assets/cardDeck.js:1-4 | the table has 52 entries, 4 suits times 13 ranks, and entry 13*i + j is the i-th suit with the j-th rank (suit-major order) |
| Cards.DeckIsComplete | src/assets/cardDeck.js:4 | no (suit, rank) pair appears twice in the table and every pair appears |
| Cards.CardIndex | src/App.jsx:26-29 | every card is the result of some random draw position |
| Scoring.LabelBranches | src/App.jsx:37-44 | every rank label falls into exactly one of the scoring branches: J/Q/K are worth 10, only "A" is the Ace worth 11, and every other label parses to its own value from 2 to 10 |
| Scoring.SingleCardValue | src/App.jsx:37-44 | a single card from the table scores between 2 and 11: 11 exactly for an Ace, 10 exactly for 10, J, Q and K |
| Scoring.HandValueDemotions | src/App.jsx:36-53 | the score is the all-Aces-11 total minus 10 times m, where m is at most the Ace count and is the fewest demotions that bring the total to 21 or less (all Aces if none does) |
| Scoring.LeastDemotions | src/App.jsx:47-51 | the closed-form demotion count satisfies the least-demotion property |
| Scoring.LeastDemotionUnique | src/App.jsx:47-51 | the least-demotion property has at most one solution |
| Scoring.HandValueBounds | src/App.jsx:32-53 | an empty hand scores 0; a hand without Aces scores the plain sum; the score lies between the all-Aces-1 and all-Aces-11 totals; it exceeds 21 only when every Ace counts 1, so a hand busts exactly when its all-Aces-1 total exceeds 21 |
| Scoring.HandValueIsBest | src/App.jsx:47-53 | no way of counting some Aces as 1 gives a larger total that is still 21 or less |
| Scoring.AppendCard | src/App.jsx:36-45 | appending a card adds its points to the running total and one to the Ace count for an Ace |
| Scoring.AddCard | src/App.jsx:37-44 | one step of the label-based summing pass adds the card's value and counts Aces |
| Scoring.SumCards | src/App.jsx:33-45 | the summing pass yields the all-Aces-11 total and the Ace count, and that total is the all-Aces-1 total plus 10 per Ace |
| Scoring.DemoteAces | src/App.jsx:47-51 | the demotion loop subtracts 10 exactly the least number of times |
| Scoring.CalculateHandValue | src/App.jsx:32-54 | the scoring routine as written computes the specified score for every hand |
| Round.StartHandAsWritten | src/App.jsx:57-89 | as the code runs: the same error path, stake, cards and end-of-round rule as `StartHand`, but a natural is settled on the stake held before the bet: the chips end 10 lower, plus twice that old stake on a natural win or the old stake on a double natural |
| Round.HandleGameOver | src/App.jsx:136-151 | settlement credits 2x the bet for a player win, the bet for a push and nothing otherwise, clears the stake, records the result and ends the round, leaving the hands; on the round's own stake the player's wealth moves by +bet, 0 or -bet |
| Round.StartHand | src/App.jsx:57-89 | with under 10 chips only an error result is set; otherwise exactly 10 chips are staked, two drawn cards go to each side, and the round settles at once exactly when the player's two cards score 21 (a push if the dealer's also do, else a win paid like any win); chips never go negative |
| Round.Hit | src/App.jsx:93-103 | a no-op once the round is over or while betting; otherwise exactly one drawn card is appended to the player's hand, the dealer's hand and the chips are untouched, and the round ends as a dealer win exactly when the new score exceeds 21, with the stake cleared and the game not back to betting |
| Round.DealerDraws | src/App.jsx:113-117 | the dealer's loop terminates and ends with a score of 17 or more |
| Round.DealerKeepsHand | src/App.jsx:110-115 | the dealer's final hand starts with the cards it held, drawn cards only being appended |
| Round.DrawRaisesHardTotal | src/App.jsx:114-116 | while the dealer is below 17 the all-Aces-1 total is below 17 and each draw raises it, so the loop's measure decreases |
| Round.DealerDrawsInOrder | src/App.jsx:114-116 | the dealer's new cards are the successive random draws, in order |
| Round.DealerStopsAtFirstSeventeen | src/App.jsx:114-117 | every hand the dealer passed through scored below 17, so the dealer stops at the first score of 17 or more |
| Round.DealerStandsOnSeventeen | src/App.jsx:114 | a dealer hand already at 17 or more draws nothing |
| Round.SoftSeventeenStands | src/App.jsx:114 | an Ace and a Six score 17 with the Ace as 11, and the dealer stands on it |
| Round.StandOutcome | src/App.jsx:124-132 | the first-match comparison makes the player win exactly when the dealer is over 21 or behind, the dealer win exactly when not over 21 and ahead, and a push exactly on equal scores at 21 or less |
| Round.Stand | src/App.jsx:106-133 | a no-op once the round is over or while betting; otherwise the dealer's hand becomes exactly the dealer's play from the draws (stopping at its first 17 or more, see the dealer lemmas), keeping its cards as a prefix, the player's hand is untouched, the round ends with the comparison's result and the wealth moves by the result's net gain on the stake |
| Round.ResetGame | src/App.jsx:155-162 | back to betting with empty hands, no stake and no result; chips unchanged |
| Round.TwoCardsNeverBust | src/App.jsx:47-51 | any two cards score 21 or less |
| Round.StartHandConsistent | src/App.jsx:57-89 | dealing keeps the game invariant: non-negative chips, a 10-chip stake only while in play, two dealer cards and a player score of at most 21 while in play |
| Round.StartHandAsWrittenConsistent | src/App.jsx:57-89 | the deal as the code runs it also keeps the game invariant, chips non-negative included, since the stale stake a natural is settled on is 0 |
| Round.HitConsistent | src/App.jsx:93-103 | hitting keeps the game invariant |
| Round.StandConsistent | src/App.jsx:106-133 | standing keeps the game invariant |
| Round.ResetConsistent | src/App.jsx:155-162 | resetting keeps the game invariant |
| Round.NewGameConsistent | src/App.jsx:15-23 | the starting state (500 chips, no stake, empty hands, betting) satisfies the invariant |
| Round.RoundNetGain | src/App.jsx:57-89 | from a betting state, a deal that settles moves the wealth by the result's net gain on 10 chips, and one that does not only moves 10 chips to the stake |
| Round.NaturalAsWrittenForfeitsBet | src/App.jsx:81-89 | as written, a natural (win or push) from any reachable betting state ends 10 chips down |
| Round.NaturalWinExample | src/App.jsx:81-89 | from a new game with ace and king against two and three, the as-written deal ends at 490 chips and the corrected one at 510 |
| HandView.DisplayValue | src/components/Hand.jsx:10-14 | the total is "?" exactly for a dealer hand of more than one card while the round is not over, and otherwise the passed total |
| HandView.RenderCards | src/components/Hand.jsx:22-26 | one view per card, in order, keyed by position, face down exactly for the dealer's card at index 1 while the round is not over |
| HandView.RenderKeepsCards | src/components/Hand.jsx:22-26 | the rendered cards read back as the hand |
| HandView.AtMostOneHidden | src/components/Hand.jsx:24 | at most one card is face down, the second one, and only in a dealer hand while the round is not over |
| HandView.TableHidesOnlyTheHoleCard | src/App.jsx:168-169 | in play, the dealer's total is "?" and only the second of two dealer cards is face down; once over, the dealer's true total and all cards are shown; the player's total and cards are always shown |
| BuyChips.Clamp | src/components/BuyChipsForm.jsx:42-45 | the amount is always in 1..10000; NaN or below 1 gives 1, above 10000 gives 10000, and an in-range value passes through |
| BuyChips.ClampIdempotent | src/components/BuyChipsForm.jsx:43-44 | clamping a clamped amount changes nothing |
| BuyChips.TypedAmountInRange | src/components/BuyChipsForm.jsx:42-45 | typing any in-range amount as a numeral sets exactly that amount |
| BuyChips.TypedNegative | src/components/BuyChipsForm.jsx:42-43 | typing a negative numeral sets the minimum of 1 |
| BuyChips.TypedNotANumber | src/components/BuyChipsForm.jsx:42-43 | text that parses to NaN sets the minimum of 1 |
| BuyChips.AmountAlwaysInRange | src/components/BuyChipsForm.jsx:59 | after any series of edits from the default 500, through presets 500, 2000, 10000 or typing, the amount is in 1..10000, so the add button is disabled exactly while loading |
| Numbers.ParseDecimal | src/components/BuyChipsForm.jsx:42 | `parseInt` reads the shortest decimal numeral of every non-negative number (no sign, spaces or leading zeros) back as that number |
| Numbers.ParseWithoutDigits | src/components/BuyChipsForm.jsx:42-43 | text that starts with neither white space, a sign nor a digit parses to NaN |
| BuyChips.TypedWithoutDigits | src/components/BuyChipsForm.jsx:42-43 | typing text that starts with neither white space, a sign nor a digit sets the minimum of 1 |
| Numbers.ParseNegativeDecimal | src/components/BuyChipsForm.jsx:42 | a leading minus sign negates the numeral |

## Left out

- Randomness: `Math.random` is replaced by explicit draw positions; nothing is said about the distribution of draws.
- React rendering, batching of state updates and effects; the JSX of the app, `Card.jsx`, `Button.jsx`, `Navbar.jsx`, `Header.jsx` and `main.jsx` (presentation only).
- The enabling of the deal, new-game, hit and stand buttons in the JSX of src/App.jsx:229-243 (presentation; the handlers' own guards are modelled).
- The refill itself (`onRefill`, the loading flag's timing) and the display formatting of amounts: they call code outside this model.
- Authentication, Supabase persistence and game history (`AuthForm.jsx`, `GameHistory.jsx`, the files under src/helper/): network and storage.
- `parseInt` on numerals beyond 2^53, where JavaScript rounds to a double: every such value is far above 10000 and clamps to 10000 either way. `-0` is read as 0; both clamp to 1.
- Result messages are kept as strings but nothing is proved about their wording.
- Round.StartHand: settles a player natural on the 10-chip stake just placed, the corrected behaviour; the code as written settles it on the stale stake of 0, which Round.StartHandAsWritten models.
- Round.RoundNetGain: is stated for Round.StartHand, where a natural is settled on the 10-chip stake; for the code as written a natural instead loses the 10 chips (Round.NaturalAsWrittenForfeitsBet).
- Round.DealerDraws: draws come from an endless source, so the model does not bound how many draws the dealer may take beyond termination itself.

## Findings

| source | as written | input that shows it | evidently intended | confidence | as-written member | corrected member |
|---|---|---|---|---|---|---|
| src/App.jsx:85-87 | on a player natural, `handleGameOver` is called from the same render as `startHand` and reads `currentBet` from before the bet was placed, which is 0 in every betting state, so the payout is 0 | a new game (500 chips) dealt ace and king of spades to the player and two and three of spades to the dealer: the natural "wins" and leaves 490 chips | settle the natural on the 10-chip bet just placed: 510 chips after a natural win, the bet returned on a double natural | not executed; high (follows from closure semantics of state hooks) | Round.StartHandAsWritten (lemmas Round.NaturalAsWrittenForfeitsBet, Round.NaturalWinExample) | Round.StartHand |
