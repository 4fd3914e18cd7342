# Family Feud Go — a model of the game logic

This project models the game logic of the Expo app of the feud-app repository:

- **Store.** The in-memory game store holds the coin balance, the wheel rotation and the trivia score.
- **Spin wheel.** It draws twelve 30-degree wedges and spins by a random number of turns.
- **Home screen.** It resolves the wedge a spin lands on, then either credits coins or moves to trivia.
- **Minigame screens.** There are six: trivia, survey-says, survey-steal, match-and-win, jackpot and destroy. Each is a round with a timer, timed callbacks, a back-button policy and calls into the store.

Each stateful unit is a Dafny class whose fields are the component's state and refs:

- The store is `GameStore.Store`. Its mutators reassign fields, as the source reassigns `gameState`.
- Every screen is a round class.
- Each `setTimeout` callback is its own method, fired later by the caller (`FeedbackTimeout`, `WinTimeout`, …). A pending flag or counter records that the timer is scheduled.
- The interval timers are `TimerTick` methods. The back button is `BackPressed`.
- The store-watching effects are `StoreChanged` methods. They receive the store values they read.
- The trivia, survey-says, survey-steal, match-and-win and jackpot round classes each have a `View()` record of their fields. A step's postcondition gives the new `View()` as the old one with the changed fields updated, so every field it does not name keeps its value. The store, the wheel, the home screen and the destroy round state each field a step leaves alone by name.

Several store functions are not defined in the store file: the survey, steal, match, jackpot and destroy functions and their constants. The screens call them through `useGameStore`.

- Each round class logs these calls, in order, in a `storeCalls` sequence of call events.
- What they return (coins earned, `gotBonus`, a flip result, a revealed count) is a method parameter.
- Their constants (`SURVEY_MAX_STRIKES`, `JACKPOT_QUESTION_COUNT`, the `DESTROY_*` amounts, the time limits) are constructor parameters, held in `const` fields.

Every `Math.random()` value is an explicit draw in `[0, 1)`.

The six copies of the Fisher–Yates shuffle (`shuffleArray` in the trivia, survey-says, survey-steal, jackpot and destroy screens, `shuffleDeck` in match-and-win) are modelled once, as `Shuffle.ShuffleArray`. It works in place on an array and is proved to return a permutation of its input.

Rotations are `real` numbers:

- JavaScript's truncating `%` is written out (`GameStore.JsMod360`).
- `Math.floor` is `.Floor`.

A few facts about the code that shape the model:

- The wedge lookup has no half-wedge offset.
- The wheel draws a uniform random angle; there is no weighted choice of wedge type.
- The wedge table has twelve wedges, four of them trivia.
- Landing on a coin wedge credits its value unchanged, with no multiplier.
- The trivia score is +10/−5, floored at zero.

## Model

| member | source | states |
|---|---|---|
| GameStore.WedgeTableShape | apps/expo/src/store/game-store.ts:18-34 | the table has 12 wedges of 30 degrees (12·30 = 360); ids are their positions; trivia wedges carry value 0 and coin wedges a positive value |
| GameStore.JsMod360 | apps/expo/src/store/game-store.ts:91 | JavaScript `rotation % 360` keeps the sign of the dividend, lies strictly inside (−360, 360) and differs from the rotation by whole turns |
| GameStore.NormalizeIsResidue | apps/expo/src/store/game-store.ts:89-97 | `((r % 360) + 360) % 360` is the unique residue of r in [0, 360), for negative rotations too |
| GameStore.ResidueUnique | apps/expo/src/store/game-store.ts:120 | a value in [0, 360) that differs from x by whole turns is the residue of x |
| GameStore.ResiduePeriodic | apps/expo/src/store/game-store.ts:120 | adding whole turns, positive or negative, does not change the normalised rotation |
| GameStore.WedgeIndexInRange | apps/expo/src/store/game-store.ts:123-124 | `Math.floor((360 − n) / 30) % 12` is always a valid index of the table, so the `!` lookup never fails |
| GameStore.GetWedgeFromRotation | apps/expo/src/store/game-store.ts:118-125 | the result is a wedge of the table, the one at the computed index |
| GameStore.WedgeWindow | apps/expo/src/store/game-store.ts:117-125 | the index returned is the wedge whose 30-degree window [30i, 30i+30) holds the angle under the top pointer, (−rotation) mod 360 |
| GameStore.WholeTurnsGiveWedgeZero | apps/expo/src/store/game-store.ts:120-123 | a rotation of whole turns (n = 0) lands on wedge 0, through the `% 12` on 360/30 = 12 |
| GameStore.WedgePeriodic | apps/expo/src/store/game-store.ts:118-125 | the wedge looked up is the same for rotations whole turns apart |
| GameStore.LookupAfterNormalize | apps/expo/src/store/game-store.ts:89-97 | looking up the stored, normalised rotation gives the same wedge as the raw rotation |
| GameStore.TriviaScoreClosedForm | apps/expo/src/store/game-store.ts:137-145 | the trivia score after a list of answers is 10 per correct and −5 per wrong answer |
| GameStore.ZeroRewardFloor | apps/expo/src/store/game-store.ts:147-149 | `Math.max(0, score)`: never negative, never below the score, and either 0 or the score |
| GameStore.Store.constructor | apps/expo/src/store/game-store.ts:46-57 | the store starts in the initial state: balance 0, rotation 0, not spinning, no result, trivia score and count 0 |
| GameStore.Store.GetGameState | apps/expo/src/store/game-store.ts:75-77 | returns a copy of the whole state record |
| GameStore.Store.AddCoins | apps/expo/src/store/game-store.ts:80-86 | the balance grows by `amount` and nothing else changes |
| GameStore.Store.SetWheelRotation | apps/expo/src/store/game-store.ts:89-97 | only the rotation changes; it becomes the normalised value, which is in [0, 360) |
| GameStore.Store.SetSpinning | apps/expo/src/store/game-store.ts:100-106 | only `isSpinning` changes |
| GameStore.Store.SetLastWedgeResult | apps/expo/src/store/game-store.ts:109-115 | only `lastWedgeResult` changes |
| GameStore.Store.StartTriviaRound | apps/expo/src/store/game-store.ts:128-135 | the trivia score and the answer count reset to 0; nothing else changes |
| GameStore.Store.RecordTriviaAnswer | apps/expo/src/store/game-store.ts:137-145 | the score moves by +10 or −5 and the count by one; the invariant score = TriviaScore(answers) is kept |
| GameStore.Store.FinishTriviaRound | apps/expo/src/store/game-store.ts:147-154 | returns max(0, score), credits exactly that amount, and leaves the score and every other field as they were |
| GameStore.Store.ResetGameState | apps/expo/src/store/game-store.ts:157-160 | the state is the initial state again |
| SpinWheel.WedgeLayout | apps/expo/src/components/SpinWheel.tsx:41-58 | wedge i ends where wedge i+1 starts, the last ends at 360, each label's mid angle lies strictly inside its wedge, and every arc takes the small-arc flag "0" |
| SpinWheel.WedgesTile | apps/expo/src/components/SpinWheel.tsx:134-152 | the drawn wedges tile [0, 360): an angle is inside wedge i exactly when i = ⌊angle/30⌋ |
| SpinWheel.WedgeUnderPointer | apps/expo/src/components/SpinWheel.tsx:134-152 | the wedge drawn under the top pointer after a clockwise turn is a wedge of the table |
| SpinWheel.PointerAgreesWithLookup | apps/expo/src/components/SpinWheel.tsx:134-152 | wedge i is drawn under the pointer exactly when the store's lookup returns index i (both directions) |
| SpinWheel.LookupMatchesDrawing | apps/expo/src/store/game-store.ts:117-125 | `getWedgeFromRotation` names the very wedge the player sees under the pointer |
| SpinWheel.SpinTargetBounds | apps/expo/src/components/SpinWheel.tsx:102-105 | a spin turns the wheel by at least 4 and less than 7 whole turns (1440 ≤ Δ < 2520 degrees) |
| SpinWheel.Wheel.constructor | apps/expo/src/components/SpinWheel.tsx:62-71 | the shared rotation value and the target ref start at the current rotation; no timer and no animation are pending |
| SpinWheel.Wheel.SetProps | apps/expo/src/components/SpinWheel.tsx:73-77 | new props; when `currentRotation` or `isSpinning` changed and the wheel is not spinning, the displayed rotation jumps to `currentRotation` and a running animation is cancelled (its callback reports nothing); otherwise the displayed rotation and the animation stay |
| SpinWheel.FallbackThenParentUpdate | apps/expo/src/components/SpinWheel.tsx:73-77 | when the fallback timer reports first and the parent then stores the result and stops spinning, the animation is cancelled and the spin is reported exactly once |
| SpinWheel.Wheel.HandleSpin | apps/expo/src/components/SpinWheel.tsx:93-132 | ignored while spinning or disabled; otherwise it calls `onSpinStart` once, sets the target ref to the random target, schedules the fallback timer and starts the animation towards that target |
| SpinWheel.Wheel.FallbackTimeoutFires | apps/expo/src/components/SpinWheel.tsx:108-110 | a fallback timer that was not cleared reports the target held in the ref |
| SpinWheel.Wheel.AnimationFinished | apps/expo/src/components/SpinWheel.tsx:112-130 | a finished animation clears the pending fallback and reports the target it captured |
| HomeScreen.SpinCreditSign | apps/expo/src/app/index.tsx:26-34 | a landed wedge never lowers the balance; it credits nothing exactly when it is a trivia wedge |
| HomeScreen.Home.constructor | apps/expo/src/app/index.tsx:12-15 | not spinning, no navigation scheduled |
| HomeScreen.Home.HandleSpinStart | apps/expo/src/app/index.tsx:17-19 | sets the spinning flag |
| HomeScreen.Home.HandleSpinComplete | apps/expo/src/app/index.tsx:21-37 | stores the normalised rotation, clears spinning and returns the wedge under the pointer, which is also the stored rotation's wedge; it credits that wedge's value for coin wedges, or schedules the move to trivia for trivia wedges; the balance never decreases |
| Shuffle.SwapIndex | apps/expo/src/app/trivia.tsx:29 | `Math.floor(Math.random() * (i + 1))` is a position no greater than i |
| Shuffle.ShuffleArray | apps/expo/src/app/trivia.tsx:26-33 | the shuffle returns a list of the same length holding the same elements (a permutation, as a multiset) |
| TriviaScreen.GetRandomQuestions | apps/expo/src/app/trivia.tsx:35-38 | `min(5, pool size)` questions, drawn from the pool without repetition beyond the pool's own |
| TriviaScreen.TriviaRound.constructor | apps/expo/src/app/trivia.tsx:44-58 | draws the questions, starts the store's trivia round (score and count 0), 60 seconds on the clock, nothing selected |
| TriviaScreen.TriviaRound.EndGame | apps/expo/src/app/trivia.tsx:90-99 | shows the score read before finishing, and credits and shows max(0, score); the game is over, and nothing else on the screen or in the store changes |
| TriviaScreen.TriviaRound.TimerTick | apps/expo/src/app/trivia.tsx:60-77 | while running, counts down and changes nothing else; at 1 it sets the clock to 0 and ends the game (score shown, max(0, score) credited, the rest of the store unchanged); after the game nothing happens |
| TriviaScreen.TriviaRound.BackPressed | apps/expo/src/app/trivia.tsx:79-88 | back during a running game ends it: the score read before finishing is shown, max(0, score) is credited and shown, and nothing else on the screen or in the store changes; after the game it changes nothing |
| TriviaScreen.TriviaRound.HandleAnswerSelect | apps/expo/src/app/trivia.tsx:101-129 | ignored when an answer is selected, the game is over or no question is left; otherwise it selects the answer, shows the result, records correct/incorrect in the store (+10/−5, one more answered) and starts the feedback pause; the clock, the score shown, the coins and the balance, rotation and spin fields of the store stay |
| TriviaScreen.TriviaRound.RecordPick | apps/expo/src/app/trivia.tsx:107-128 | the accepted branch: the whole new screen state and store record, with the recorded answers extended by whether the pick was the correct option |
| TriviaScreen.TriviaRound.FeedbackTimeout | apps/expo/src/app/trivia.tsx:118-126 | as written: the next question with the selection and result cleared and the store untouched, or, after the fifth question, `endGame` (score shown, max(0, score) credited) with no check of `isGameOver`; every other field keeps its value |
| TriviaScreen.TriviaRound.FeedbackTimeoutGuarded | apps/expo/src/app/trivia.tsx:118-126 | the guarded timer: for a game that is already over it only clears the pending flag; otherwise it advances or ends the game as written, with every other field and the store stated |
| TriviaScreen.RoundScore | apps/expo/src/store/game-store.ts:137-145 | after any play of the round the store has at most 5 answers and its score is 10·correct − 5·wrong |
| TriviaScreen.BackDuringLastFeedbackAsWritten | apps/expo/src/app/trivia.tsx:79-126 | back pressed during the last feedback pause, then the timer as written: a positive score is credited twice |
| TriviaScreen.BackDuringLastFeedbackGuarded | apps/expo/src/app/trivia.tsx:79-126 | the same play with the guarded timer credits max(0, score) once |
| SurveySays.CorrectOptions | apps/expo/src/app/survey-says.tsx:66 | the filter's result holds only correct options |
| SurveySays.CorrectOptionsCount | apps/expo/src/app/survey-says.tsx:66 | every correct option is kept as often as it occurs, and no other option is kept |
| SurveySays.InsertByPoints | apps/expo/src/app/survey-says.tsx:67 | inserting adds exactly that one element (multiset) |
| SurveySays.InsertBounded | apps/expo/src/app/survey-says.tsx:67 | inserting an option no heavier than a bound into options under that bound keeps every option under it |
| SurveySays.InsertKeepsOrder | apps/expo/src/app/survey-says.tsx:67 | inserting into a list ordered by points, highest first, keeps it ordered |
| SurveySays.SortByPoints | apps/expo/src/app/survey-says.tsx:67 | the sort is a permutation of its input |
| SurveySays.SortIsOrdered | apps/expo/src/app/survey-says.tsx:67 | the sort's result is ordered by points, highest first |
| SurveySays.AllCorrectAfterPermutation | apps/expo/src/app/survey-says.tsx:65-68 | a rearrangement of correct options holds only correct options |
| SurveySays.OptionsOf | apps/expo/src/app/survey-says.tsx:68 | the options of a ranked list, position by position |
| SurveySays.RankedCorrectOptions | apps/expo/src/app/survey-says.tsx:63-69 | the ranked list holds exactly the correct options, highest points first, and ranks them 1, 2, … in order |
| SurveySays.RankForPick | apps/expo/src/app/survey-says.tsx:145-146 | a pick whose text is not on the list gets rank 1; otherwise it gets the first matching entry's non-zero rank; with ranks 1..n the result is between 1 and n |
| SurveySays.GetRevealedAnswer | apps/expo/src/app/survey-says.tsx:204-207 | a board slot shows an answer only for a revealed rank, and shows the option of that rank; every revealed rank in 1..n shows its answer |
| SurveySays.SurveySaysRound.constructor | apps/expo/src/app/survey-says.tsx:51-76 | ranks the correct options, starts the store's round and shows a permutation of the options; the clock is full and nothing is disabled |
| SurveySays.SurveySaysRound.PicksBounded | apps/expo/src/app/survey-says.tsx:135-141 | accepted picks are distinct buttons, so they never outnumber the buttons |
| SurveySays.SurveySaysRound.HandleOptionSelect | apps/expo/src/app/survey-says.tsx:133-183 | ignored when over, already disabled, while a flash is showing, or for a missing button. Otherwise the button is disabled, and either a correct pick is recorded with its points and rank and first-try eligibility (bonus banner shown if the store grants it), or a wrong pick is recorded as (false, 0, 0, false) and flashes |
| SurveySays.SurveySaysRound.FlashTimeout | apps/expo/src/app/survey-says.tsx:168-170 | the red flash ends; every other field keeps its value |
| SurveySays.SurveySaysRound.BonusTimeout | apps/expo/src/app/survey-says.tsx:153-156 | the bonus banner ends; every other field keeps its value |
| SurveySays.SurveySaysRound.EndGame | apps/expo/src/app/survey-says.tsx:110-116 | calls `finishSurveyRound` once, shows what it returns, and the game is over; every other field keeps its value |
| SurveySays.SurveySaysRound.TimerTick | apps/expo/src/app/survey-says.tsx:78-96 | while running, counts down and changes nothing else; at 1 it sets the clock to 0 and ends the game; after the game nothing happens |
| SurveySays.SurveySaysRound.BackPressed | apps/expo/src/app/survey-says.tsx:98-108 | back during a running game ends it; after the game it changes nothing |
| SurveySays.SurveySaysRound.StoreChanged | apps/expo/src/app/survey-says.tsx:118-131 | in a running game, five revealed ranks and reaching the strike limit each schedule one `endGame` 500 ms later; every other field keeps its value |
| SurveySays.SurveySaysRound.EndTimeout | apps/expo/src/app/survey-says.tsx:122 | a scheduled `endGame` fires and finishes the round, whether or not the game already ended |
| SurveySays.BackDuringEndDelay | apps/expo/src/app/survey-says.tsx:98-131 | the board fills and back is pressed before the 500 ms delay runs out: `finishSurveyRound` is called twice, and the second reply is the one shown |
| SurveySteal.SumAtAppend | apps/expo/src/app/survey-steal.tsx:83-85 | the sum of points over two index lists is the sum of the two sums |
| SurveySteal.RemainingIndices | apps/expo/src/app/survey-steal.tsx:94-96 | no more remaining indices than answers |
| SurveySteal.RemainingIndicesSound | apps/expo/src/app/survey-steal.tsx:94-96 | every remaining index is a board position that is not pre-filled, and they come in ascending order (so each is offered once) |
| SurveySteal.RemainingIndicesComplete | apps/expo/src/app/survey-steal.tsx:94-96 | every board position that is not pre-filled is among the remaining indices |
| SurveySteal.ButtonsFor | apps/expo/src/app/survey-steal.tsx:98-103 | one button per index |
| SurveySteal.CorrectButtons | apps/expo/src/app/survey-steal.tsx:94-103 | one button per remaining answer; each button is marked correct and carries its own answer's text, index and points, for an answer that is not pre-filled |
| SurveySteal.CorrectButtonsComplete | apps/expo/src/app/survey-steal.tsx:94-103 | every answer that is not pre-filled has a button |
| SurveySteal.Range | apps/expo/src/app/survey-steal.tsx:95 | `map((_, idx) => idx)`: the positions 0..n−1 in order |
| SurveySteal.SumAtRange | apps/expo/src/app/survey-steal.tsx:83-85 | summing over all positions gives the board's total points |
| SurveySteal.ButtonsForPoints | apps/expo/src/app/survey-steal.tsx:98-103 | the buttons' points are the points of their answers |
| SurveySteal.SumAtRemove | apps/expo/src/app/survey-steal.tsx:83-85 | removing one index removes exactly its points from the sum |
| SurveySteal.RemainingIndicesBelow | apps/expo/src/app/survey-steal.tsx:94-96 | the remaining indices below m depend only on the pre-filled indices below m |
| SurveySteal.RemoveAtKeepsOthers | apps/expo/src/app/survey-steal.tsx:94-96 | removing the pre-filled index n−1 leaves distinct indices below n−1 and the same remaining answers below n−1 |
| SurveySteal.SplitStepPreFilled | apps/expo/src/app/survey-steal.tsx:81-103 | the board-split step when answer n−1 was pre-filled by the rival |
| SurveySteal.RangeStep | apps/expo/src/app/survey-steal.tsx:95 | the positions below n are those below n−1 followed by n−1 |
| SurveySteal.SplitStepRemaining | apps/expo/src/app/survey-steal.tsx:81-103 | the board-split step when answer n−1 is still to be stolen |
| SurveySteal.BoardSplitUpTo | apps/expo/src/app/survey-steal.tsx:81-103 | for the first n answers, the pre-filled points plus the remaining answers' points are all the points |
| SurveySteal.BoardSplitPreFilled | apps/expo/src/app/survey-steal.tsx:81-103 | the same split when the last of the n answers is pre-filled |
| SurveySteal.BoardSplit | apps/expo/src/app/survey-steal.tsx:81-103 | with distinct pre-filled indices on the board, `preFilledPoints` plus the points on the correct buttons are exactly the board's total: what the rival did not find is what can be stolen |
| SurveySteal.DistractorButtons | apps/expo/src/app/survey-steal.tsx:109-114 | each distractor button is wrong, has index −1 and is worth 0 points |
| SurveySteal.BuildOptions | apps/expo/src/app/survey-steal.tsx:93-117 | the buttons are a permutation of the correct buttons plus `slice(0, 6 − correct)` of the shuffled distractors; that slice has JavaScript's length (a negative count drops from the back) and is drawn from the distractors |
| SurveySteal.SixButtons | apps/expo/src/app/survey-steal.tsx:105-107 | with at most six answers left and enough distractors there are exactly six buttons |
| SurveySteal.GetAnswerForSlot | apps/expo/src/app/survey-steal.tsx:247-250 | a slot shows an answer exactly when it is revealed and on the board, and then it shows that slot's answer |
| SurveySteal.SurveyStealRound.constructor | apps/expo/src/app/survey-steal.tsx:66-119 | starts the store's round with the pre-filled indices and their points; the buttons are a rearrangement of the correct-answer buttons plus the buttons of the shown distractors, which are a `slice(0, 6 − correct)` of a rearrangement of the question's distractors; the game is started |
| SurveySteal.SurveyStealRound.HandleOptionSelect | apps/expo/src/app/survey-steal.tsx:182-221 | ignored when over, disabled, while flashing, or for a missing button. Otherwise the button is disabled, and either a correct pick is recorded with its points and answer index, or a wrong pick is recorded as (false, 0, −1), flashes and schedules the failure; every other field keeps its value |
| SurveySteal.SurveyStealRound.AcceptCorrect | apps/expo/src/app/survey-steal.tsx:189-199 | a correct pick: the button is disabled and recorded with its points and answer index, nothing else changes |
| SurveySteal.SurveyStealRound.AcceptWrong | apps/expo/src/app/survey-steal.tsx:189-210 | a wrong pick: the button is disabled and flashes, (false, 0, −1) is recorded and the failure timer is pending, nothing else changes |
| SurveySteal.SurveyStealRound.HandleFailure | apps/expo/src/app/survey-steal.tsx:159-164 | the round is lost with 0 coins and the failure screen; the store is not called |
| SurveySteal.SurveyStealRound.FailureTimeout | apps/expo/src/app/survey-steal.tsx:206-209 | 400 ms after a wrong pick the flash clears and the round is lost with 0 coins; every other field keeps its value |
| SurveySteal.SurveyStealRound.TimerTick | apps/expo/src/app/survey-steal.tsx:121-157 | once started and while running, counts down and changes nothing else; at 1 the time is up: clock 0, lost, 0 coins |
| SurveySteal.SurveyStealRound.BackPressed | apps/expo/src/app/survey-steal.tsx:141-151 | back during a running round loses it with 0 coins; afterwards it changes nothing |
| SurveySteal.SurveyStealRound.StoreChanged | apps/expo/src/app/survey-steal.tsx:174-180 | with five revealed slots in a started, running round, one more win timer is scheduled; every other field keeps its value |
| SurveySteal.SurveyStealRound.WinTimeout | apps/expo/src/app/survey-steal.tsx:166-178 | a scheduled `handleWin` calls `finishStealRound` and shows its reply as a win, without checking whether the round already ended |
| SurveySteal.SurveyStealRound.PicksBounded | apps/expo/src/app/survey-steal.tsx:182-210 | accepted picks never outnumber the buttons, and every pick but the last was correct: a wrong pick flashes until the round is lost, and nothing is accepted meanwhile |
| MatchAndWin.Repeat | apps/expo/src/app/match-and-win.tsx:36-38 | `Array(n).fill(s)` has n elements |
| MatchAndWin.RepeatCount | apps/expo/src/app/match-and-win.tsx:36-38 | it holds n copies of s and nothing else |
| MatchAndWin.DeckComposition | apps/expo/src/app/match-and-win.tsx:34-39 | the deck has 12 cards: 3 crowns, 5 bags, 4 coins |
| MatchAndWin.ShuffleDeck | apps/expo/src/app/match-and-win.tsx:56-63 | the shuffled deck still has 12 cards with 3 crowns, 5 bags and 4 coins |
| MatchAndWin.SymbolPositionsExact | apps/expo/src/app/match-and-win.tsx:327-334 | the positions found hold the symbol, ascend, and include every position below n that holds it |
| MatchAndWin.UnrevealedBelowExact | apps/expo/src/app/match-and-win.tsx:369-371 | the positions listed are unrevealed, ascend, and include every unrevealed position below n |
| MatchAndWin.SymbolPositionsSound | apps/expo/src/app/match-and-win.tsx:327-334 | every position found lies below n and holds the symbol |
| MatchAndWin.SymbolPositionsAscending | apps/expo/src/app/match-and-win.tsx:327-334 | the positions found are in ascending order |
| MatchAndWin.SymbolPositionsComplete | apps/expo/src/app/match-and-win.tsx:327-334 | every position below n that holds the symbol is found |
| MatchAndWin.UnrevealedBelowSound | apps/expo/src/app/match-and-win.tsx:369-371 | every position listed lies below n and is unrevealed |
| MatchAndWin.UnrevealedBelowAscending | apps/expo/src/app/match-and-win.tsx:369-371 | the positions listed are in ascending order |
| MatchAndWin.UnrevealedBelowComplete | apps/expo/src/app/match-and-win.tsx:369-371 | every unrevealed position below n is listed |
| MatchAndWin.KeepRevealed | apps/expo/src/app/match-and-win.tsx:362 | the filter is no longer than its input |
| MatchAndWin.KeepRevealedExact | apps/expo/src/app/match-and-win.tsx:362 | it keeps exactly the listed positions that are revealed |
| MatchAndWin.SymbolIndicesExact | apps/expo/src/app/match-and-win.tsx:327-334 | `getSymbolIndices` returns exactly the positions of the symbol, in ascending order |
| MatchAndWin.WinningIndicesExact | apps/expo/src/app/match-and-win.tsx:360-363 | the winning cards are exactly the revealed cards that hold the winning symbol |
| MatchAndWin.UnrevealedExact | apps/expo/src/app/match-and-win.tsx:369-371 | the unrevealed list is the complement of the revealed set, ascending |
| MatchAndWin.RevealDelay | apps/expo/src/app/match-and-win.tsx:429-435 | a card's reveal delay is never negative |
| MatchAndWin.RevealSchedule | apps/expo/src/app/match-and-win.tsx:369-381 | every auto-revealed card has finished flipping within `totalRevealTime`, and of two unrevealed cards the lower position starts at least 100 ms earlier |
| MatchAndWin.CountNoneRevealed | apps/expo/src/app/match-and-win.tsx:301-305 | with nothing revealed every count is 0 |
| MatchAndWin.CountAfterFlip | apps/expo/src/app/match-and-win.tsx:349-350 | revealing one new card adds one to its own symbol's count and nothing to the others |
| MatchAndWin.CountsPartition | apps/expo/src/app/match-and-win.tsx:345-351 | the three counts add up to the number of revealed cards |
| MatchAndWin.SymbolCounts.Increment | apps/expo/src/app/match-and-win.tsx:349-350 | the flipped symbol's count goes up by one; the others are unchanged |
| MatchAndWin.FlipUpdatesCounts | apps/expo/src/app/match-and-win.tsx:345-351 | incrementing the flipped card's count keeps `matchCounts` equal to the counts of the revealed cards |
| MatchAndWin.PositionsExact | apps/expo/src/app/match-and-win.tsx:369-370 | the positions of an n-card deck are 0..n−1 |
| MatchAndWin.PositionsAdd | apps/expo/src/app/match-and-win.tsx:345-346 | adding a deck position to revealed deck positions keeps them deck positions |
| MatchAndWin.MatchRound.constructor | apps/expo/src/app/match-and-win.tsx:298-313 | a shuffled 12-card deck (3/5/4), playing, nothing revealed, all counts 0, and the store's round started |
| MatchAndWin.MatchRound.RevealCard | apps/expo/src/app/match-and-win.tsx:342-354 | the card joins the revealed set, its symbol's count goes up by one, and the flip is recorded in the store; every other field keeps its value |
| MatchAndWin.MatchRound.HandleCardFlip | apps/expo/src/app/match-and-win.tsx:337-393 | ignored outside play or for a revealed card. Otherwise the card is revealed and recorded; on a winning reply the round sets the winning symbol and the revealed cards of that symbol, moves to revealing with `totalRevealTime` = 100·unrevealed + 400, and schedules completion; every other field, the points included, keeps its value |
| MatchAndWin.MatchRound.CompleteTimeout | apps/expo/src/app/match-and-win.tsx:377-381 | the completion timer moves to complete and shows the points `finishMatchRound` returns; the winning symbol and cards, the revealed set and every other field keep their value |
| MatchAndWin.MatchRound.UnrevealedIndices | apps/expo/src/app/match-and-win.tsx:400-403 | empty while playing |
| MatchAndWin.MatchRound.CardRevealDelay | apps/expo/src/app/match-and-win.tsx:428-435 | never negative, and 0 unless the card is being revealed automatically |
| MatchAndWin.MatchRound.RevealFitsTimer | apps/expo/src/app/match-and-win.tsx:369-381 | in the revealing phase every auto-revealed card finishes flipping by `totalRevealTime`, lower positions flip earlier, and the last flip ends at least the 1000 ms pause before the completion timer fires |
| MatchAndWin.MatchRound.BackPressed | apps/expo/src/app/match-and-win.tsx:315-324 | back is swallowed exactly while playing or revealing |
| MatchAndWin.MatchRound.CountsAddUp | apps/expo/src/app/match-and-win.tsx:345-351 | the counts add up to the number of revealed cards |
| Jackpot.GetRandomQuestions | apps/expo/src/app/jackpot.tsx:37-40 | `slice(0, count)` of a rearranged pool: min(count, pool size) questions, each taken from the pool |
| Jackpot.ShownPointsPrefix | apps/expo/src/app/jackpot.tsx:421 | the rows the board shows among the first n are the first (clamped) `revealedCount` ones |
| Jackpot.Clamp | apps/expo/src/app/jackpot.tsx:355-357 | the clamped count is at most n |
| Jackpot.ProgressiveTotalIsShownPoints | apps/expo/src/app/jackpot.tsx:355-357 | the running total (`slice(0, revealedCount)` summed) equals the points of the rows the board shows as revealed (`index < revealedCount`) |
| Jackpot.ProgressiveTotalStep | apps/expo/src/app/jackpot.tsx:355-357 | each reveal adds exactly the newly shown answer's points to the running total |
| Jackpot.JackpotRound.constructor | apps/expo/src/app/jackpot.tsx:66-99 | draws the questions with `getRandomQuestions(JACKPOT_QUESTION_COUNT)`, starts the store's round and the game; if there is a first question, its options are shown as a permutation with a full clock |
| Jackpot.JackpotRound.HandleOptionSelect | apps/expo/src/app/jackpot.tsx:150-186 | ignored while answering, without a question, or for a grid cell with no option. Otherwise it records the question, the option's text and its points (0 unless correct) and schedules the advance for this question; the options shown, the clock and every other field keep their value |
| Jackpot.JackpotRound.LoggedAnswerScores | apps/expo/src/app/jackpot.tsx:150-164 | every answer the screen records with non-zero points is a correct option, with exactly that option's text and points, of the drawn question it names |
| Jackpot.JackpotRound.HandleTimeout | apps/expo/src/app/jackpot.tsx:132-148 | ignored without a question or while answering; otherwise it records a 0-point answer through `advanceJackpotQuestion` and schedules the advance; every other field keeps its value |
| Jackpot.JackpotRound.TimerTick | apps/expo/src/app/jackpot.tsx:101-122 | counts down only in a started quiz that is not answering, changing nothing else; at 1 it sets the clock to 0 and times the question out |
| Jackpot.JackpotRound.AdvanceTimeout | apps/expo/src/app/jackpot.tsx:92-99 | after the question with index count−1 it starts the reveal with the quiz fields and the result unchanged and no finish timer yet; otherwise it moves to the next question, whose options are re-shuffled with a full clock if it exists; every other field keeps its value |
| Jackpot.JackpotRound.HandleRevealTap | apps/expo/src/app/jackpot.tsx:189-208 | ignored outside the reveal; otherwise it reveals the next answer and, once the store's revealed count reaches the question count, schedules the finish; every other field keeps its value |
| Jackpot.JackpotRound.FinishTimeout | apps/expo/src/app/jackpot.tsx:202-206 | a scheduled finish calls `finishJackpotRound` and shows its coins and verdict; the quiz fields and every other field keep their value |
| Jackpot.JackpotRound.ScreenTap | apps/expo/src/app/jackpot.tsx:359-368 | on the result a tap goes home; before all answers are revealed it reveals the next one and, once the store's revealed count reaches the question count, schedules the finish; otherwise nothing happens; every other field keeps its value |
| Jackpot.JackpotRound.BackPressed | apps/expo/src/app/jackpot.tsx:123-131 | back is swallowed exactly until the result shows |
| Destroy.DrawIndex | apps/expo/src/app/destroy.tsx:48 | `Math.floor(Math.random() * n)` is an index below n when n > 0 |
| Destroy.FloorBelow | apps/expo/src/app/destroy.tsx:181-183 | ⌊u·n⌋ lies in [0, n) for a draw u in [0, 1) |
| Destroy.CorrectOptions | apps/expo/src/app/destroy.tsx:51 | the filter is no longer than its input |
| Destroy.WrongOptions | apps/expo/src/app/destroy.tsx:52 | the filter is no longer than its input |
| Destroy.FiltersExact | apps/expo/src/app/destroy.tsx:51-52 | the two filters keep exactly the correct and exactly the wrong options |
| Destroy.PickTextChoice | apps/expo/src/app/destroy.tsx:54-57 | `?.text \|\| fallback` gives a candidate's non-empty text, or the fallback when there is no candidate or the drawn one's text is empty |
| Destroy.GetRandomTriviaQuestion | apps/expo/src/app/destroy.tsx:41-63 | both answer texts are non-empty, and the question is one of the pool's |
| Destroy.GateAnswersFromQuestion | apps/expo/src/app/destroy.tsx:41-63 | the correct answer is "Yes" or a correct option's text of the drawn question; the wrong answer is "No" or a wrong option's text |
| Destroy.ShuffleGateAnswers | apps/expo/src/app/destroy.tsx:89-94 | the two gate buttons are the correct and the wrong answer in some order: exactly one is correct |
| Destroy.RewardInRange | apps/expo/src/app/destroy.tsx:180-184 | the random reward lies between the minimum and the maximum, both included |
| Destroy.EveryRewardReachable | apps/expo/src/app/destroy.tsx:180-184 | every amount between the minimum and the maximum is paid for some draw |
| Destroy.DestroyRound.constructor | apps/expo/src/app/destroy.tsx:84-135 | draws the gate and the room, shuffles the two answers and starts the store's round; the gate shows, and nothing is selected or paid |
| Destroy.DestroyRound.HandleTriviaAnswer | apps/expo/src/app/destroy.tsx:148-161 | the correct button opens the cards with no store call; the wrong one finishes the round with the consolation prize, shows the store's reply and blocks; the phase only moves forward |
| Destroy.DestroyRound.HandleCardSelect | apps/expo/src/app/destroy.tsx:163-190 | only the first pick counts: it shows the room's object at that position (or none), finishes the round with the random reward and shows the reply, then schedules the reveal |
| Destroy.DestroyRound.RevealTimeout | apps/expo/src/app/destroy.tsx:187-189 | 500 ms after the pick the revealed screen shows, with the object and the reward already chosen unchanged; the phase only moves forward |
| Destroy.DestroyRound.BackPressed | apps/expo/src/app/destroy.tsx:137-146 | back is swallowed exactly on the gate and while the cards show |
| Destroy.DestroyRound.FinishedAtMostOnce | apps/expo/src/app/destroy.tsx:148-190 | the store's round is finished at most once: with the consolation prize when blocked, and with an amount between the bounds once a card is revealed |

## Left out

- **Rendering and animation.** Layout, colours, springs, the board-scale pulses and the card flip are not modelled. Neither are the SVG path strings, the label positions in pixels and the trigonometry of `polarToCartesian`. Only the angles the wheel drawing uses are modelled.
- **Time.** Every `setTimeout` and `setInterval` is an event method that the caller fires. The delays (300, 400, 500, 600, 800, 1000 and 1500 ms, and the reveal time) are constants and documentation; the model does not order events by clock time. The delays of the match reveal are modelled as numbers (`RevealSchedule`).
- **Store functions not defined in the store file.** These are the survey, steal, match, jackpot and destroy functions and constants (`recordSurveyAnswer`, `finishStealRound`, `recordMatchFlip`, `JACKPOT_QUESTION_COUNT`, `DESTROY_MIN_REWARD`, …). They are not part of this model: their calls are logged and their replies are parameters. The subscription mechanism (`subscribe`, `notifyListeners`) and the `use-game-store` hook are left out too. A change of store state reaches a screen as a `StoreChanged` call.
- **Randomness.** `Math.random()` values are parameters in [0, 1).
  - Jackpot.GetRandomQuestions: sorting with a random comparator (`sort(() => Math.random() - 0.5)`) is modelled as some rearrangement of the pool, given as a parameter. The model does not capture the comparator's bias.
  - `getRandomQuestion`, `getRandomRivalName` and `getRandomRoom` pick by a drawn index. Only the destroy screen's room and question draws are modelled; the others are constructor parameters.
- **Data and backend.** The question pools, the rooms file and the web dashboard are not modelled. Neither are the RPC routers and the database client.
- **Floating point.** Rotations and draws are exact reals, so rounding in `Math.random() * n`, `%` and `/` is not modelled.
- **Navigation.** `router.push` and `router.replace` are not modelled, except the flag recording that the home screen scheduled the move to trivia (`HomeScreen.Home.HandleSpinComplete`).
- SurveySteal.BuildOptions: the source computes `6 - correctOptions.length`, which is negative when more than six answers remain. JavaScript's `slice(0, negative)` then drops distractors from the back instead of taking none; the model follows that rule (`Common.JsSliceEnd`).
- Jackpot.ProgressiveTotalIsShownPoints: stated only for a non-negative revealed count. For a negative count `slice(0, n)` would count from the back, while the board's `index < n` test shows nothing.
- Jackpot.JackpotRound.AdvanceTimeout: when the pool holds fewer questions than `JACKPOT_QUESTION_COUNT`, the index moves past the last question. The screen then has no current question, every pick and timeout is ignored, and the quiz never reaches the reveal. The model reproduces this and does not repair it.
- Jackpot.JackpotRound.TimerTick: the interval's stale-closure timing is not modelled. The tick uses the current question, which matches the effect's dependencies (`currentQuestionIndex`, `isAnswering`).
- SurveySteal.SurveyStealRound.WinTimeout: `handleWin` does not check `isGameOver`. When the clock or back ends the round in the 300 ms after the board fills, the win is still paid afterwards. A wrong pick in those 300 ms fails the round 400 ms after the pick, so after the win: the win is paid first, then the failure screen replaces it and shows 0 coins. The model allows both orders. What `finishStealRound` pays is not part of this model.
- SurveySays.SurveySaysRound.EndTimeout: likewise unguarded. `SurveySays.BackDuringEndDelay` shows `finishSurveyRound` called twice, but what that means for the balance depends on the store function's body, which is not part of this model. So this is not listed as a finding.
- Destroy.GetRandomTriviaQuestion: requires a non-empty pool. With an empty pool the source reads `options` of `undefined`.

## Findings

| source | as written | input that shows it | evidently intended | confidence | as-written member | corrected member |
|---|---|---|---|---|---|---|
| apps/expo/src/app/trivia.tsx:118-126 | the 800 ms feedback timer calls `endGame` after the fifth answer without checking `isGameOver`, and `endGame` calls `finishTriviaRound`, which credits max(0, score) each time (game-store.ts:147-154) | answer the fifth question with a positive score, then press back (trivia.tsx:79-86) or let the clock run out (63-72) within 800 ms: the round ends and credits the score, then the timer ends it again and credits it a second time | a round credits its score once; the timer should do nothing for a game that is already over | not executed | TriviaScreen.BackDuringLastFeedbackAsWritten | TriviaScreen.BackDuringLastFeedbackGuarded |
