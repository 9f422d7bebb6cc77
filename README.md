# Apexx crash game — a Dafny model of the game core

Apexx is a multiplayer "crash" betting game. The backend runs one round after
another:

- a server seed is generated and its SHA-256 hash is published;
- the players' client seeds are mixed into a game hash;
- the hash fixes the round's crash point;
- the live multiplier grows by 0.35 % every tick until it reaches the crash
  point;
- in between, players place bets (during BETTING) and cash out (while
  RUNNING).

Bets and cashouts go through two FIFO queues into MongoDB transactions that
debit or credit the player's balance. At the end of a round the session's
analytics record is settled. If the analytics record cannot be saved at the
start of a round, every stake is refunded. On the client, two stores keep
the round's state and decide which bet actions are offered.

The model follows the code file by file:

| Dafny module (file) | models |
|---|---|
| `Money` (money.dfy) | two-decimal rounding (`toFixed(2)`) on exact integers and ratios |
| `Text` (text.dfy) | `trim()`, decimal digits of bet ids |
| `Errors` (errors.dfy) | `AppError` and its Betting/Cashout/Game subclasses, error constants |
| `CrashPoint` (crash_point.dfy) | `MultiplierGenerator`: seeds, game hash, crash point |
| `SessionAnalytics` (session_analytics.dfy) | the analytics schema and `calculateProfit` |
| `Store` (store.dfy) | the database: users, bet history, analytics records |
| `Ledger` (ledger.dfy) | `BettingManager`: the place-bet and cashout transactions |
| `BettingQueue` (betting_queue.dfy) | `BettingQueueManager`: the two FIFO queues |
| `Refunds` (refunds.dfy) | the refund loop run when the analytics save gives up |
| `Session` (session.dfy) | `GameSessionManager`: the round life-cycle |
| `History` (history.dfy) | the bounded most-recent-first crash history |
| `Validation` (betting_validation.dfy) | the bet and cashout payload schemas |
| `GameManager` (game_manager.dfy) | the socket-facing `GameManager` handlers |
| `ClientGameStore` (game_store.dfy) | the client's game store |
| `ClientBetStore` (bet_store.dfy) | the client's bet store and its action rules |

Representation choices:

- Amounts of money, multipliers and the countdown are integers in hundredths
  (1.00× is 100). The live multiplier is the exact fraction
  (2007/2000)^k.
- `toFixed(2)` is rounding to the nearest hundredth, with ties away from
  zero.
- SHA-256 and base64 are function values fixed when the generator is
  built. The random bytes and the database faults are parameters.
- Objects whose fields the code updates in place are classes:
  - `MultiplierGenerator`, `GameSessionManager`, `BettingManager`,
    `BettingQueueManager`, `GameManager`;
  - the database;
  - the two client stores.
- Transactions are pure functions returning the new database state together
  with the result. The class methods commit that state.
- A queued request's awaited completion is a ticket. The settled results
  are a map from ticket to result.
- Socket broadcasts and emits are appended to logs.

Where the code differs from its own description, the model follows the code:

- A fresh session starts in BETTING. It moves to PREPARING, then RUNNING,
  then CRASHED, then back to a fresh BETTING session.
- `handlePlaceBet` reads `clientSeed` from the bet result, which has no
  such field. So the client-seed contribution is always empty, and every
  round is hashed with the default client seed.

One deliberate exception: the round's analytics record is saved under the
schema's own path names, not under the keys the code uses (see "## Findings"
and "## Left out").

## Model

| member | source | states |
|---|---|---|
| Money.Round | backend/src/services/gameServices/bettingManager.ts:147 | `toFixed(2)` of num/den is the nearest whole number of hundredths; ties go away from zero |
| Money.RoundWhole | backend/src/services/gameServices/multiplierGenerator.ts:130-138 | rounding a value that is already whole gives it back unchanged |
| Money.RoundMonotone | backend/src/services/gameServices/multiplierGenerator.ts:130-138 | rounding preserves order: a larger value never rounds lower |
| Money.RoundRatio | backend/src/services/gameServices/index.ts:131-133 | the cashout multiplier is the live multiplier rounded to the nearest hundredth |
| Text.TrimStart | backend/src/services/gameServices/gameSessionManager.ts:477-479 | drops exactly the leading whitespace |
| Text.TrimEnd | backend/src/services/gameServices/gameSessionManager.ts:477-479 | drops exactly the trailing whitespace |
| Text.TrimCharacterised | backend/src/services/gameServices/gameSessionManager.ts:477-479 | `trim()` returns a middle slice, and only whitespace is cut on either side |
| Text.TrimEmptyIffBlank | backend/src/services/gameServices/multiplierGenerator.ts:84-89 | a trimmed seed is empty exactly when the seed is blank |
| Text.TrimIdempotent | backend/src/services/gameServices/gameSessionManager.ts:477-479 | trimming the joined seed twice equals trimming it once |
| Text.Trim | backend/src/services/gameServices/gameSessionManager.ts:477-479 | `trim()` never lengthens a string, and its result neither starts nor ends with whitespace |
| Text.DecimalText | backend/src/services/gameServices/bettingManager.ts:108 | a bet id's text is a non-empty run of digits with no leading zero |
| Text.ParseDecimal | backend/src/services/gameServices/bettingManager.ts:122-125 | parsing succeeds only on the canonical text of a number |
| Text.ParseDecimalText | backend/src/services/gameServices/bettingManager.ts:108 | round trip: parsing the text of n gives back n |
| Text.DecimalTextInjective | backend/src/services/gameServices/bettingManager.ts:108 | different numbers have different texts |
| Errors.WithDetails | backend/src/utils/errors/appError.ts:16-32 | an error built from internal details keeps its class's default description |
| Errors.WithDescription | backend/src/utils/errors/appError.ts:16-32 | an error built from a description shows that description and has no details |
| CrashPoint.EmptyMultiplierInfo | backend/src/services/gameServices/multiplierGenerator.ts:49-57 | every field of the multiplier data is unset |
| CrashPoint.HashPrefixValue | backend/src/services/gameServices/multiplierGenerator.ts:116-127 | the first two hex digits of the game hash, a value in 0..255 |
| CrashPoint.RawCrashPoint | backend/src/services/gameServices/multiplierGenerator.ts:127-133 | 255 gives the configured maximum; 0 gives 1.00; otherwise 255/(255-n) rounded, capped at the maximum |
| CrashPoint.FinalCrashPoint | backend/src/services/gameServices/multiplierGenerator.ts:135-138 | the raw crash point times (1 - house edge), rounded to hundredths |
| CrashPoint.CrashPointsOfHash | backend/src/services/gameServices/multiplierGenerator.ts:115-147 | the raw and final crash points both come from the game hash's prefix |
| CrashPoint.RawCrashPointInRange | backend/src/services/gameServices/multiplierGenerator.ts:127-133 | the raw crash point lies between 1.00 and the configured maximum |
| CrashPoint.RawCrashPointMonotone | backend/src/services/gameServices/multiplierGenerator.ts:127-133 | a larger hash prefix never gives a lower raw crash point |
| CrashPoint.RawCrashPointBelowOne | backend/src/services/gameServices/multiplierGenerator.ts:130-133 | a configured maximum below 1.00 caps every raw crash point at that maximum |
| CrashPoint.FinalAtMostRaw | backend/src/services/gameServices/multiplierGenerator.ts:135-138 | the house edge never raises a crash point and never makes it negative |
| CrashPoint.FinalNotReclamped | backend/src/services/gameServices/multiplierGenerator.ts:135-138 | with a 1 % edge, the lowest raw point 1.00 gives a final 0.99: the final point is not clamped back to 1.00 |
| CrashPoint.VerificationRoundTrip | backend/src/services/gameServices/multiplierGenerator.ts:82-147 | re-deriving a round from its revealed seeds accepts exactly the published crash point |
| CrashPoint.LowByteGivesOne | backend/src/services/gameServices/multiplierGenerator.ts:127-133 | a first byte of 0 or 1 gives the raw crash point 1.00 |
| CrashPoint.EdgeTakesOneBelowOne | backend/src/services/gameServices/multiplierGenerator.ts:135-138 | a house edge above half a percent makes the final crash point of 1.00 fall below 1.00 |
| CrashPoint.MultiplierGenerator.constructor | backend/src/services/gameServices/multiplierGenerator.ts:49-57 | starts with empty multiplier data |
| CrashPoint.MultiplierGenerator.GenerateServerSeed | backend/src/services/gameServices/multiplierGenerator.ts:59-80 | the seed is the base64 of 33 random bytes; its SHA-256 is stored next to it |
| CrashPoint.MultiplierGenerator.GenerateGameHash | backend/src/services/gameServices/multiplierGenerator.ts:82-113 | a blank client seed or a missing server seed gives its error and changes nothing; otherwise the hash is SHA-256(serverSeed + clientSeed) and it is stored |
| CrashPoint.MultiplierGenerator.CalculateCrashPoint | backend/src/services/gameServices/multiplierGenerator.ts:115-147 | stores and returns the crash points of the stored game hash |
| CrashPoint.MultiplierGenerator.ResetMultiplierData | backend/src/services/gameServices/multiplierGenerator.ts:153-155 | the multiplier data is emptied |
| SessionAnalytics.NewSessionAnalytics | backend/src/models/game/gameSessionAnalytics.ts:49-85 | a new record carries its fields, with the schema's defaults: PENDING, no cashouts, no profit |
| SessionAnalytics.NewRecordSchemaIff | backend/src/models/game/gameSessionAnalytics.ts:49-85 | the schema's validators (required paths, non-empty client seed, both crash points at least 1, non-negative player count) decide a new record's save from the supplied paths alone; the defaults never fail it |
| SessionAnalytics.CalculateProfit | backend/src/models/game/gameSessionAnalytics.ts:93-104 | profit is stakes minus payouts; LOSS, BREAK_EVEN and PROFIT each hold exactly when payouts are above, equal to or below stakes |
| SessionAnalytics.ProfitSignMatchesOutcome | backend/src/models/game/gameSessionAnalytics.ts:93-104 | the outcome is never PENDING and agrees with the sign of the profit |
| SessionAnalytics.ApplyCalculateProfit | backend/src/models/game/gameSessionAnalytics.ts:106-110 | updates profit, outcome and phase (CRASHED) and nothing else |
| Store.BetId | backend/src/services/gameServices/bettingManager.ts:87-110 | a created bet has a non-empty id |
| Store.BetIdInjective | backend/src/services/gameServices/bettingManager.ts:87-110 | two bets never share an id |
| Store.FindBet | backend/src/services/gameServices/bettingManager.ts:122-131 | finds the bet with this id in this session, or reports that there is none |
| Store.BetsEvolveTransitive | backend/src/models/game/betHistory.ts:3-8 | bet history only grows, and a bet leaves ACTIVE at most once; this holds across any number of steps |
| Store.Database.constructor | backend/src/models/user.ts:17-50 | the database starts from the given state |
| History.PushBounded | backend/src/services/gameServices/index.ts:48-56 | the newest entry comes first; older entries keep their order; the oldest is dropped once the limit is passed |
| History.PushAllBounded | backend/src/services/gameServices/index.ts:48-56 | a history within limit + 1 entries stays within it after any number of rounds |
| History.PushAllNewestFirst | backend/src/services/gameServices/index.ts:48-56 | after several rounds the k-th entry is the k-th most recent crash point |
| History.PushAllShift | backend/src/services/gameServices/index.ts:48-56 | an older entry moves back one place per round while it is kept |
| Ledger.WithTransaction | backend/src/services/gameServices/bettingManager.ts:51-67 | a failed body leaves the database as it was; a successful one commits its state |
| Ledger.PlaceBetTx | backend/src/services/gameServices/bettingManager.ts:69-115 | unknown user or stake above balance fail and change nothing; otherwise the stake is debited, an ACTIVE bet is appended and its id and the new balance are returned; the balance never goes negative |
| Ledger.Payout | backend/src/services/gameServices/bettingManager.ts:147 | the payout is multiplier × stake rounded to hundredths, and it is never negative |
| Ledger.CashoutTx | backend/src/services/gameServices/bettingManager.ts:117-183 | a missing bet, a bet no longer ACTIVE and a missing user fail with their own errors and change nothing, and success happens exactly when none of these holds; otherwise the bet becomes CASHEDOUT with its multiplier and payout, the payout is credited, and only the session's cashout total changes among the analytics records |
| Ledger.SecondCashoutFails | backend/src/services/gameServices/bettingManager.ts:133-137 | cashing out the same bet a second time fails with "Bet already settled" |
| Ledger.RunOps | backend/src/services/gameServices/bettingQueueManager.ts:74-153 | running ledger operations in order only grows the bet history and never changes the set of users |
| Ledger.StepEffect | backend/src/services/gameServices/bettingManager.ts:69-183 | one operation changes a user's balance by exactly its effect |
| Ledger.BalanceConservation | backend/src/services/gameServices/bettingManager.ts:69-183 | every balance ends at its start plus the net effect of the operations: no money is created or lost |
| Ledger.StepSolvent | backend/src/services/gameServices/bettingManager.ts:81-85 | one operation keeps every balance non-negative |
| Ledger.NeverNegative | backend/src/services/gameServices/bettingManager.ts:81-85 | any sequence of bets and cashouts keeps every balance non-negative |
| Ledger.BettingManager.constructor | backend/src/services/gameServices/bettingManager.ts:46-48 | the ledger service shares the session manager whose round id it reads, and the store |
| Ledger.BettingManager.PlaceBet | backend/src/services/gameServices/bettingManager.ts:69-115 | returns the place-bet transaction's result and commits its state |
| Ledger.BettingManager.Cashout | backend/src/services/gameServices/bettingManager.ts:117-183 | returns the cashout transaction's result and commits its state |
| BettingQueue.ValidateQueueSize | backend/src/services/gameServices/bettingQueueManager.ts:164-170 | a full queue (1000 waiting) is refused with a BettingError; any shorter queue is accepted |
| BettingQueue.BetSettlementsAt | backend/src/services/gameServices/bettingQueueManager.ts:74-102 | FIFO: each queued bet is settled against the database left by every bet ahead of it |
| BettingQueue.CashoutSettlementsAt | backend/src/services/gameServices/bettingQueueManager.ts:122-153 | FIFO: each queued cashout is settled against the database left by every cashout ahead of it |
| BettingQueue.SettlementsKeys | backend/src/services/gameServices/bettingQueueManager.ts:85-95 | every queued request, and nothing else, gets its handle settled |
| BettingQueue.SettlementsAt | backend/src/services/gameServices/bettingQueueManager.ts:85-95 | with increasing tickets each request is settled with its own outcome, computed after all requests ahead of it |
| BettingQueue.BetSettledLast | backend/src/services/gameServices/bettingQueueManager.ts:52-72 | a bet added last is settled after all earlier ones, and its result is the one its caller gets |
| BettingQueue.CashoutSettledLast | backend/src/services/gameServices/bettingQueueManager.ts:104-120 | a cashout added last is settled after all earlier ones, and its result is the one its caller gets |
| BettingQueue.BettingQueueManager.constructor | backend/src/services/gameServices/bettingQueueManager.ts:32-50 | both queues are empty and idle |
| BettingQueue.BettingQueueManager.AddBetToQueueAndProcess | backend/src/services/gameServices/bettingQueueManager.ts:52-72 | a full queue refuses and changes nothing; otherwise the bet is appended and processing starts if it was idle |
| BettingQueue.BettingQueueManager.ProcessBets | backend/src/services/gameServices/bettingQueueManager.ts:74-81 | the processing flag is taken at most once, only while bets are waiting |
| BettingQueue.BettingQueueManager.ResumeBets | backend/src/services/gameServices/bettingQueueManager.ts:83-101 | the head bet is settled by the ledger; its result is recorded under its ticket; the flag drops when the queue empties |
| BettingQueue.BettingQueueManager.DrainBets | backend/src/services/gameServices/bettingQueueManager.ts:74-102 | processing empties the queue; the database and results are those of settling the bets in FIFO order |
| BettingQueue.BettingQueueManager.SubmitBetAndWait | backend/src/services/gameServices/bettingQueueManager.ts:52-102 | the caller gets either the queue-full error, or the place-bet result against the state left by the bets ahead |
| BettingQueue.BettingQueueManager.AddCashoutToQueueAndProcess | backend/src/services/gameServices/bettingQueueManager.ts:104-120 | the cashout is appended (no size check) and processing starts if it was idle |
| BettingQueue.BettingQueueManager.ProcessCashouts | backend/src/services/gameServices/bettingQueueManager.ts:122-132 | the processing flag is taken at most once, only while cashouts are waiting |
| BettingQueue.BettingQueueManager.ResumeCashouts | backend/src/services/gameServices/bettingQueueManager.ts:134-152 | the head cashout is settled by the ledger; its result is recorded; the flag drops when the queue empties |
| BettingQueue.BettingQueueManager.DrainCashouts | backend/src/services/gameServices/bettingQueueManager.ts:122-153 | processing empties the queue; the database and results are those of settling the cashouts in FIFO order |
| BettingQueue.BettingQueueManager.SubmitCashoutAndWait | backend/src/services/gameServices/bettingQueueManager.ts:104-153 | the caller gets the cashout result against the state left by the cashouts ahead |
| Refunds.FirstActiveBet | backend/src/services/gameServices/gameSessionManager.ts:372-380 | the first ACTIVE bet of this user in this session, or none |
| Refunds.NotFoundForRefundNamesUser | backend/src/services/gameServices/gameSessionManager.ts:368 | the refund's not-found message names the user |
| Refunds.RefundTx | backend/src/services/gameServices/gameSessionManager.ts:357-405 | unknown user or no active bet fail with their messages and change nothing; otherwise the stake is credited and the bet becomes REFUNDED |
| Refunds.RefundLoop | backend/src/services/gameServices/gameSessionManager.ts:356-406 | each bet adds one detail, to the successes without an error or to the failures with its error; the count, total and error list agree with the lists |
| Refunds.Conclude | backend/src/services/gameServices/gameSessionManager.ts:409-420 | success when all are refunded, failed when none are, partial otherwise |
| Refunds.ProcessRefundsSpec | backend/src/services/gameServices/gameSessionManager.ts:341-431 | the summary counts every bet once; its status is success exactly when nothing failed, and failed exactly when nothing succeeded; its two lists are the (user, stake) pairs of the bets whose refund succeeded and of those whose refund failed, in order |
| Refunds.RefundLoopSplit | backend/src/services/gameServices/gameSessionManager.ts:356-406 | the successes are exactly the bets whose refund transaction succeeds on the state left by the bets before them, and the failures the others, each in order |
| Refunds.RefundLoopSuccesses | backend/src/services/gameServices/gameSessionManager.ts:356-406 | the successes list, as (user, stake) pairs, is the bets whose refund succeeded, in their original order |
| Refunds.RefundLoopFailures | backend/src/services/gameServices/gameSessionManager.ts:356-406 | the failures list, as (user, stake) pairs, is the bets whose refund failed, in their original order |
| Refunds.SelectPartition | backend/src/services/gameServices/gameSessionManager.ts:356-406 | together the successes and failures hold every bet exactly once |
| Refunds.RefundLoopMarksRefunded | backend/src/services/gameServices/gameSessionManager.ts:372-380 | every successful refund turns exactly one more bet of the round REFUNDED, and no bet is added or removed |
| Refunds.RefundLoopCredits | backend/src/services/gameServices/gameSessionManager.ts:361-365 | each user's balance rises by exactly the stakes refunded to that user |
| Session.InitializeSessionData | backend/src/services/gameServices/gameSessionManager.ts:97-108 | a fresh session: BETTING, multiplier 1.00, no bets, no seeds, no totals |
| Session.ChosenClientSeed | backend/src/services/gameServices/gameSessionManager.ts:124-128 | the round's hash uses either the accumulated client seed or the default "family"; without bets or contributions it is the default, which is never blank |
| Session.ClearedSlots | backend/src/services/gameServices/gameSessionManager.ts:433-448 | every timer slot is cleared and no slot is added or removed |
| Session.ClearedTwice | backend/src/services/gameServices/gameSessionManager.ts:433-448 | clearing the timers twice is clearing them once |
| Session.AnalyticsDocumentAsWritten | backend/src/services/gameServices/gameSessionManager.ts:314-326 | the document as the code builds it has no game-session hash and no final crash point |
| Session.AnalyticsDocument | backend/src/services/gameServices/gameSessionManager.ts:314-326 | the intended document: RUNNING, PENDING, stake total, player count, hash and crash points of the round |
| Session.SaveAttempt | backend/src/services/gameServices/gameSessionManager.ts:328-330 | a save succeeds exactly when there is no fault, the schema is met and the session id is new; it inserts the document |
| Session.SaveWithRetries | backend/src/services/gameServices/gameSessionManager.ts:301-339 | saved means some remaining attempt succeeded; gave up means every remaining attempt failed |
| Session.SaveGivesUpIff | backend/src/services/gameServices/gameSessionManager.ts:301-339 | the save gives up exactly when the document is invalid, the id is taken, or all four attempts hit a fault |
| Session.AsWrittenSaveAlwaysGivesUp | backend/src/services/gameServices/gameSessionManager.ts:314-330 | the document as written fails the schema, so the save always gives up |
| Session.CorrectedSaveSucceeds | backend/src/services/gameServices/gameSessionManager.ts:314-330 | the intended document of a prepared round saves at the first attempt without a fault |
| Session.LowCrashPointSaveGivesUp | backend/src/services/gameServices/multiplierGenerator.ts:127-138 | with an edge above half a percent, a round whose hash starts with byte 0 or 1 has a final crash point below 1.00, fails the schema's minimum and is never saved |
| Session.ClampedFinalCrashPoint | backend/src/services/gameServices/multiplierGenerator.ts:135-138 | the final crash point kept at 1.00 or more, and unchanged when it already is |
| Session.ClampedRoundSaves | backend/src/models/game/gameSessionAnalytics.ts:79-81 | with the final crash point clamped, every prepared round satisfies the schema and saves at the first attempt without a fault |
| Session.PreparedRoundVerifies | backend/src/services/gameServices/multiplierGenerator.ts:82-147 | the seeds, hashes and final crash point a prepared round stores pass a player's verification |
| Session.BustBets | backend/src/services/gameServices/gameSessionManager.ts:271-278 | every bet of the session that is not REFUNDED or CASHEDOUT becomes BUSTED; nothing else changes |
| Session.EndOfSessionTx | backend/src/services/gameServices/gameSessionManager.ts:266-299 | a missing analytics record gives its error and changes nothing; otherwise bets are busted and the profit is settled |
| Session.Grow | backend/src/services/gameServices/gameSessionManager.ts:165-167 | each tick multiplies the live multiplier by 2007/2000, exactly |
| Session.GrowthAtLeastLinear | backend/src/services/gameServices/gameSessionManager.ts:165-167 | after k ticks the multiplier is at least 1 + 0.0035·k |
| Session.CrashIsReached | backend/src/services/gameServices/gameSessionManager.ts:163-191 | every crash point is reached after a number of ticks bounded by the crash point |
| Session.CountdownTicksFromWhole | backend/src/services/gameServices/gameSessionManager.ts:236-263 | a countdown of k steps takes k + 1 ticks to reach its restart |
| Refunds.RefundLoopSnoc | backend/src/services/gameServices/gameSessionManager.ts:356-406 | one more iteration of the refund loop adds one success or one failure |
| Session.GameSessionManager.constructor | backend/src/services/gameServices/gameSessionManager.ts:62-108 | fresh generator, fresh session, the 4 s countdown, all timers cleared |
| Session.GameSessionManager.ClearAllSchedulers | backend/src/services/gameServices/gameSessionManager.ts:433-448 | all intervals and timeouts are cleared; nothing else changes |
| Session.GameSessionManager.ProcessRefundsDueToSaveSessionAnalyticsFailure | backend/src/services/gameServices/gameSessionManager.ts:341-431 | the loop's summary and database are those of the refund specification |
| Session.GameSessionManager.SaveGameSessionAnalyticsWithRetries | backend/src/services/gameServices/gameSessionManager.ts:301-339 | the stake total is recomputed; a successful save of the document under the schema's path names commits; giving up refunds every bet |
| Session.GameSessionManager.PrepareRound | backend/src/services/gameServices/gameSessionManager.ts:110-132 | PREPARING is broadcast with the hashed server seed; the client seed is chosen; the game hash and crash points are computed unless the hash is refused |
| Session.GameSessionManager.HaltRound | backend/src/services/gameServices/gameSessionManager.ts:153-160 | all timers are cleared and the game error is broadcast |
| Session.GameSessionManager.StartGameSession | backend/src/services/gameServices/gameSessionManager.ts:110-161 | the round becomes RUNNING with the count-up timer armed exactly when preparation and (with bets) the save of the document under the schema's path names succeed; otherwise it halts, after refunds when the save gave up |
| Session.GameSessionManager.ProcessEndOfSession | backend/src/services/gameServices/gameSessionManager.ts:266-299 | the database becomes that of the end-of-session transaction |
| Session.GameSessionManager.EndSession | backend/src/services/gameServices/gameSessionManager.ts:193-264 | CRASHED is broadcast with the crash point; bets are settled when there were any; a fresh session begins and the countdown is armed |
| Session.GameSessionManager.IncrementMultiplier | backend/src/services/gameServices/gameSessionManager.ts:163-191 | everything `MultiplierIncremented` states: below the crash point the multiplier grows one tick, is broadcast, and nothing else changes; on reaching it the CRASHED and countdown broadcasts follow, the multiplier timer is stopped and the countdown armed, the round is settled and reset; the session-end information is returned exactly then |
| Session.GameSessionManager.NextGameCountDownTick | backend/src/services/gameServices/gameSessionManager.ts:236-263 | the countdown drops by 0.1 s and is broadcast; at zero the countdown timer is stopped, the time reset to 4 s, and the next round starts with everything `RoundStarted` states: the broadcasts, the generator's data, the save or refunds on the database, and the phase |
| Session.GameSessionManager.UpdateSessionClientSeed | backend/src/services/gameServices/gameSessionManager.ts:467-483 | an empty seed or a full seed list changes nothing; otherwise the seed is recorded and appended to the trimmed client seed |
| Session.GameSessionManager.AddPlayerToSession | backend/src/services/gameServices/gameSessionManager.ts:485-487 | the bet is appended to the session's bets |
| Validation.StakeError | backend/src/validations/bettingRequestValidations.ts:18-29 | without convert mode, the stake is accepted exactly when it is a number above MIN_STAKE - 1, at most MAX_STAKE, with at most two decimals |
| Validation.RequiredStringError | backend/src/validations/bettingRequestValidations.ts:30-33 | accepted exactly when it is a non-empty string |
| Validation.RequiredNumberError | backend/src/validations/bettingRequestValidations.ts:34-37 | without convert mode, accepted exactly when it is a number |
| Validation.BetSchemaError | backend/src/validations/bettingRequestValidations.ts:17-38 | without convert mode, the bet schema accepts exactly a valid stake, a non-empty user id and a numeric button id |
| Validation.ValidateBetPayload | backend/src/validations/bettingRequestValidations.ts:40-53 | no error exactly for a valid payload; otherwise a BettingError whose details are the schema message, shown only when a user id is present |
| Validation.CashoutSchemaError | backend/src/validations/bettingRequestValidations.ts:55-64 | the cashout schema accepts exactly a non-empty bet id and a numeric button id |
| Validation.ValidateCashoutPayload | backend/src/validations/bettingRequestValidations.ts:66-74 | no error exactly for a valid payload; otherwise a CashoutError showing only "Unable to process cashout" |
| Validation.StakeHundredths | backend/src/validations/bettingRequestValidations.ts:18-29 | a valid stake is a whole number of hundredths within the configured bounds |
| Validation.MissingUserIdGetsFallback | backend/src/validations/bettingRequestValidations.ts:44-46 | a payload without a user id is rejected with the generic betting message |
| GameManager.BetData | backend/src/services/gameServices/index.ts:82-89 | a valid payload's user and stake, the stake within bounds |
| GameManager.BetRequestResult | backend/src/services/gameServices/index.ts:70-118 | outside BETTING the bet is refused; an invalid payload gives its validation error; success exactly when BETTING, valid, the queue has room, the user exists and can cover the stake |
| GameManager.CashoutRequestResult | backend/src/services/gameServices/index.ts:120-160 | outside RUNNING "Stage time out"; an invalid payload gives its error; otherwise the cashout transaction's result at the live multiplier rounded; success exactly for an ACTIVE bet of the session whose user exists, with the matching payout |
| GameManager.BetEmit | backend/src/services/gameServices/index.ts:105-116 | success or error is emitted to the requesting button; an error carries its description |
| GameManager.CashoutEmit | backend/src/services/gameServices/index.ts:144-158 | success or failure is emitted to the requesting button; a failure carries its description |
| GameManager.BetAndCashoutPhasesDisjoint | backend/src/services/gameServices/index.ts:72-78 | no phase accepts both a bet and a cashout |
| GameManager.GameManager.constructor | backend/src/services/gameServices/index.ts:33-57 | fresh services on one database; empty history, no emits |
| GameManager.GameManager.OnSessionEnd | backend/src/services/gameServices/index.ts:48-56 | the crash point is pushed onto the bounded history |
| GameManager.GameManager.OnConnectionData | backend/src/services/gameServices/index.ts:59-64 | a connecting client gets the session's bets and the history |
| GameManager.GameManager.MultiplierTick | backend/src/services/gameServices/index.ts:48-56 | the session, generator and database change as `MultiplierIncremented` states; the history gains the crash point exactly on the tick that ends the session |
| GameManager.GameManager.HandlePlaceBet | backend/src/services/gameServices/index.ts:70-118 | emits the bet request's result; in the betting phase with a valid payload, a queue with room is drained and the bet's transaction runs on what the bets ahead left (the database is that transaction's outcome, refused or not, and the queue is empty), while a full queue changes neither; a gated or invalid request touches neither; a successful bet joins the session; the cashout queue and the session's broadcasts and timers stay as they were |
| GameManager.GameManager.HandleCashout | backend/src/services/gameServices/index.ts:120-160 | emits the cashout request's result; in the running phase with a valid payload, the queued cashouts run, then this cashout's transaction at the rounded live multiplier, and the database is its outcome, refused or not, with the queue empty; a gated or invalid request touches neither queue nor database; the bet queue stays as it was |
| ClientGameStore.InitialGameData | frontend/src/stores/gameStore.ts:46-53 | multiplier 1, PREPARING, nothing else known |
| ClientGameStore.ApplyPatch | frontend/src/stores/gameStore.ts:83 | every supplied key takes its new value; every other key keeps its old one |
| ClientGameStore.ApplyPatchIdempotent | frontend/src/stores/gameStore.ts:83 | the same update twice is the update once; the empty update changes nothing |
| ClientGameStore.GameStore.constructor | frontend/src/stores/gameStore.ts:46-53 | the store starts from the initial data |
| ClientGameStore.GameStore.UpdateCurrentMultiplier | frontend/src/stores/gameStore.ts:55-56 | only the live multiplier changes |
| ClientGameStore.GameStore.UpdateHashedServerSeed | frontend/src/stores/gameStore.ts:57-58 | only the hashed server seed changes |
| ClientGameStore.GameStore.UpdateGamePhase | frontend/src/stores/gameStore.ts:59-60 | only the phase changes |
| ClientGameStore.GameStore.UpdateBets | frontend/src/stores/gameStore.ts:62 | only the bets change |
| ClientGameStore.GameStore.UpdatePreviousMultipliers | frontend/src/stores/gameStore.ts:64-76 | the newest entry comes first, older ones keep their order, and the list stays within 51 entries |
| ClientGameStore.GameStore.UpdateNextGameCountDown | frontend/src/stores/gameStore.ts:78-79 | only the countdown changes |
| ClientGameStore.GameStore.UpdateFinalMultiplier | frontend/src/stores/gameStore.ts:80-81 | only the final multiplier changes |
| ClientGameStore.GameStore.UpdateMany | frontend/src/stores/gameStore.ts:83 | exactly the supplied keys change |
| ClientBetStore.InitialBetData | frontend/src/stores/useBetStore.ts:71-83 | the minimum stake, the default auto-cashout, every flag off, no bet id |
| ClientBetStore.CalculateActionDisabledState | frontend/src/stores/useBetStore.ts:86-105 | the button is enabled exactly when not PREPARING, not requesting and not already bet in BETTING; other actions also need no scheduled bet and no running bet |
| ClientBetStore.CalculateValidBetActions | frontend/src/stores/useBetStore.ts:107-142 | nothing while requesting; otherwise bet exactly in BETTING, cash out exactly while RUNNING with a placed bet, unschedule exactly when scheduled; the auto actions need their base action |
| ClientBetStore.EnabledButtonOffersAnAction | frontend/src/stores/useBetStore.ts:86-142 | in BETTING or RUNNING an enabled button always offers some action |
| ClientBetStore.NoCashoutAfterCashout | frontend/src/stores/useBetStore.ts:193-199 | once a cashout is answered, no further cashout is offered |
| ClientBetStore.PlacedBetOffersCashoutWhenRunning | frontend/src/stores/useBetStore.ts:179-185 | a placed bet can be cashed out while RUNNING; a second bet cannot be placed in BETTING |
| ClientBetStore.BetStore.constructor | frontend/src/stores/useBetStore.ts:71-83 | the store starts from the initial data |
| ClientBetStore.BetStore.SetStake | frontend/src/stores/useBetStore.ts:149-154 | a non-number is ignored; otherwise the stake becomes the larger of the amount and the minimum |
| ClientBetStore.BetStore.SetHasScheduledBet | frontend/src/stores/useBetStore.ts:156 | only the scheduled flag changes |
| ClientBetStore.BetStore.SetHasPlacedBet | frontend/src/stores/useBetStore.ts:158 | only the placed flag changes |
| ClientBetStore.BetStore.SetHasCashedout | frontend/src/stores/useBetStore.ts:159 | only the cashed-out flag changes |
| ClientBetStore.BetStore.SetIsRequesting | frontend/src/stores/useBetStore.ts:161 | only the requesting flag changes |
| ClientBetStore.BetStore.SetAutoCashoutAt | frontend/src/stores/useBetStore.ts:163-169 | the auto-cashout becomes the larger of the value and the minimum |
| ClientBetStore.BetStore.SetAutoCashoutHasBeenInitialzed | frontend/src/stores/useBetStore.ts:171-172 | only the auto-cashout-initialised flag changes |
| ClientBetStore.BetStore.ToggleAutoBet | frontend/src/stores/useBetStore.ts:174-175 | auto-bet flips |
| ClientBetStore.BetStore.ToggleAutoCashout | frontend/src/stores/useBetStore.ts:176-177 | auto-cashout flips |
| ClientBetStore.BetStore.OnPlacebetSuccess | frontend/src/stores/useBetStore.ts:179-185 | the bet id is kept, the bet is placed and no longer scheduled or requesting |
| ClientBetStore.BetStore.OnPlacebetFailure | frontend/src/stores/useBetStore.ts:187-191 | the bet is no longer scheduled or requesting |
| ClientBetStore.BetStore.OnCashoutSuccessOrFailure | frontend/src/stores/useBetStore.ts:193-199 | the bet is cleared: no id, not placed, not requesting, auto-cashout to be re-initialised |
| ClientBetStore.BetStore.ResetBetState | frontend/src/stores/useBetStore.ts:201-207 | the per-round flags are cleared; stake and auto settings stay |
| ClientBetStore.BetStore.AreActionsDisabled | frontend/src/stores/useBetStore.ts:209-217 | reads the disabled state of the current flags |
| ClientBetStore.BetStore.GetValidBetActions | frontend/src/stores/useBetStore.ts:219-222 | reads the actions offered by the current state |

## Left out

- Sockets, HTTP, logging and event names: broadcasts and emits are appended
  to logs, and the `EventEmitter` signals are flags or log entries.
- Timers: `setInterval`/`setTimeout` become armed or empty slots. Each tick is
  a method call. The 2 s pause before the next round and the 100 ms polling
  of the queue flag are not modelled.
- Concurrency: each socket handler runs from its phase gate to its emit
  without interleaving. The queues are modelled in steps (enqueue, take the
  flag, settle the head), but a handler waits for its own result before
  another handler starts.
- SHA-256, base64, `randomBytes`, `uuid` and MongoDB faults are parameters or
  function values, not implementations.
- Session.GameSessionManager.SaveGameSessionAnalyticsWithRetries and
  Session.GameSessionManager.StartGameSession: these save
  `Session.AnalyticsDocument`, the document under the schema's path names,
  not the document the code builds. As written, a round with bets never
  saves (`Session.AsWrittenSaveAlwaysGivesUp`). Every stake is then refunded
  and the round halts in PREPARING with nothing to restart it. The model
  instead saves such a round and runs it. Both still use the final crash
  point as computed, without clamping, so a round whose final crash point is
  below 1.00 still gives up and is refunded
  (`Session.LowCrashPointSaveGivesUp`).
- Session.GameSessionManager.ProcessEndOfSession: `processEndOfSession`
  rethrows its error into a promise that `endSession` neither awaits nor
  catches, so a rejection there is unhandled (fatal on Node 15 or later
  without an `unhandledRejection` handler). That is not modelled: the
  model performs the transaction at once and returns its error.
- Ledger.PlaceBetTx and Ledger.CashoutTx: database faults and malformed-id
  `CastError`s inside the transactions are not modelled; only the
  business-rule failures are.
- Floating point: amounts are exact hundredths. IEEE artefacts of
  `toFixed`, `parseFloat` and `Math.pow`, `Infinity`, and Joi's
  `number.unsafe` rule are not modelled.
- Validation.ValidateBetPayload, Validation.CashoutSchemaError and
  Validation.ValidateCashoutPayload: Joi's convert mode is not modelled. In
  that mode numeric strings become numbers, so a numeric-string stake or
  `buttonId` is accepted, and stakes are rounded to two decimals rather
  than refused. The model accepts numbers only and refuses more than two
  decimals. Joi also refuses unknown keys by default (`allowUnknown` is
  false); the payload types here carry only the schema's keys, so that
  case does not arise.
- Validation.StakeError, Validation.RequiredNumberError and
  Validation.BetSchemaError state Joi's rules without convert mode, so they
  refuse what the source accepts: a numeric string such as `"5"` as
  `buttonId` or `stake`, and a stake with more than two decimals such as
  10.555, which convert mode rounds instead of refusing. Because
  `validateBetPayload` (bettingRequestValidations.ts:41) discards Joi's
  converted value and `handlePlaceBet` (index.ts:82-85) passes the raw
  `stake` on, such a stake reaches the ledger unrounded, and the message
  "Stake must have at most 2 decimal places" is never produced. The model's
  ledger keeps whole hundredths, so it cannot hold that stake at all.
- Mongoose's handling of unknown keys and array defaults is reduced to the
  required fields and minimums of the analytics schema.
- `simulateRounds` and `calculateStatistics` in multiplierGenerator.ts are
  analysis helpers, outside the game's round.
- The getters of `GameSessionManager` and `GameManager.startGameSession` only
  return fields or delegate. `updateIsCashoutComplete` and the auth store
  are not part of this model.
- Client stores: numbers are exact rationals. A value that is not a number
  (NaN, strings) is `None` for `SetStake`.

## Findings

| source | as written | input that shows it | evidently intended | confidence | as-written member | corrected member |
|---|---|---|---|---|---|---|
| backend/src/services/gameServices/gameSessionManager.ts:314-326 | the analytics document names the hash `gameHash` and the crash point `finalMultiplier`, while the schema (backend/src/models/game/gameSessionAnalytics.ts:79-81) requires `gameSessionHash` and `finalCrashPoint` | any round with at least one bet: every save attempt fails the required-field check, so all stakes are refunded and the round halts with a game error | the keys `gameSessionHash` and `finalCrashPoint`, so that a prepared round's record saves | not executed | Session.AsWrittenSaveAlwaysGivesUp | Session.CorrectedSaveSucceeds |
| backend/src/services/gameServices/multiplierGenerator.ts:135-138 | the final crash point is the raw one less the house edge, with no lower clamp, while the schema (backend/src/models/game/gameSessionAnalytics.ts:81) requires `finalCrashPoint` to be at least 1 | a game hash starting with `00` or `01` and a house edge above 0.005 (0.01, say): raw 1.00, final 0.99, so every save of a round with bets fails and its stakes are refunded | a final crash point of at least 1.00 (an instant crash), so that every prepared round's record saves | not executed; medium, since relaxing the schema's minimum would also remove the discrepancy | Session.LowCrashPointSaveGivesUp | Session.ClampedRoundSaves |
