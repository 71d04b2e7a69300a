# Verification of the rail connectors

Dafny models of the parts of the rail-connectors service where the logic is, and proofs about them. `dafny verify dfyconfig.toml` checks everything.

| files | what they model |
|---|---|
| `Text` | bytes, 64-bit wrap-around, `%d` and `%0wd` printing, digit parsing, splitting into lines |
| `NachaFile`, `NachaCheck`, `NachaLines`, `NachaLayout`, `NachaPieces`, `NachaTheorems`, `NachaControls`, `NachaTamper`, `NachaNewline` | the NACHA printer `Encode`, the checker `Validate`, and exactly how they fit together |
| `Rail`, `Circuit`, `CircuitHistory`, `RateBound`, `RateReached`, `Retry`, `Middleware`, `CallAnswers`, `Outage` | errors and idempotency keys, the circuit breaker, backoff and retry, the middleware that combines them |
| `Store`, `Settlement`, `Matcher`, `Connector`, `Server`, `Effects`, `Replay`, `LawfulLogs`, `TwoLogs`, `Interleaving`, `Races`, `Permutation` | the in-memory store, tracker, audit log and batch matcher, the in-process connector and its handlers, atomic runs of them and interleaved ones |
| `SqlStore` | the SQL store as steps on tables, against the in-memory store |
| `Migrations`, `MigrationRunner` | collecting the migration files, and running them when any statement may fail |

How the model reads the program:

- A Go string is its bytes, one `char` each. Amounts in cents are 64-bit and wrap; lengths and counts of things held in memory are plain integers. Decimal amounts are exact reals.
- Objects whose methods change fields are classes with those fields (`Breaker`, `Middleware`, `MemStore` with one heap `Row` per payment, `Tracker`, `Recorder`, `Connector`, `Service`, `Db`, `Runner`). Each method is proved equal to a function on values, and the theorems are about runs of those functions.
- The clock, random draws, generated references, the downstream function, the context and the outcome of each SQL statement are parameters, so every theorem holds for all of them. A monotone clock is stated where it is needed.
- Each locked method is one step. `CircuitHistory`, `RateBound` and `Interleaving` quantify over all interleavings of such steps by any number of callers.

Where the code and its own comments differ, the model follows the code:

- Lines are not 94 bytes (`internal/ach/nacha/encoder.go:51-52` says they are): their lengths depend on their fields, see `NachaLines.RecordLengths`.
- Non-retryable errors are not recorded as failures (`internal/middleware/middleware.go:66-67` says they are), see `Outage.WrappedUnavailable`.
- Half open admits every caller, not one probe (`internal/rail/circuit/circuit.go:76-77`; the comment at lines 24-27 speaks of a probe), hence the round of callers in `RateBound.InvocationBound`.

Things found false, each with a witness and the exact condition:

- `Validate` does not accept everything `Encode` prints. `NachaTheorems.EncodedExact` is the exact condition; `AcceptedWhenAmountsFit` and `AcceptedExactly` read it as field widths. `OverflowAccepted` is a file all of whose amounts are misread and that is still accepted. `NachaNewline.NewlineRejected` is a file a newline in a name turns into a wrong count, `NineAccepted` one that a newline and a nine in a name make accepted whatever its amount; `AcceptedWithoutNine` and `AcceptedWithNine` are the condition for such files.
- The doubling rule of `backoff` fails on overflow: `Retry.DoublingFails` has two inputs, `DoublingExact` says for which base and cap it holds, both directions.
- Keys of different calls can collide, exactly between operations one of which ends in a colon and the other (`Rail.OperationsCollide`).
- Captures are not bounded by authorizations, nor refunds by captures. With atomic requests they exceed them by up to the number of webhooks and settlements that reopen the payment, and no more (`Replay.CountsFollow`, `MovesExactly`). With n interleaved callers each event that allows a movement lets up to n of them through, no more, and that is reached (`Races.RaceExactly`); so the order of the atomic requests survives exactly when n is at most one (`OrderNeedsOneCaller`). `Races.CapturedTwice` is the smallest race. Keeping callers off each other's payments is enough for any n (`Races.OneCallerIsAtomic`).
- The two stores disagree on settled amounts exactly by the settlements whose id was taken; with the matcher's ids SQL keeps the first part of a payment only (`SqlStore.SettledDifference`, `SqlKeepsFirstPart`).
- The audit log does not rebuild the books in the default configuration, the one `cmd/rail-connectors/main.go:58-64` builds, where connector and service each get a recorder of their own (`internal/server/server.go:68-75`). `TwoLogs.NeitherTells` is a run; `DefaultLogs` and `WebhookUntold` say exactly which statuses are lost, and that totals are not. `Replay.LogIsFaithful` is about one shared sink.

## Model

| member | source | states |
|---|---|---|
| Text.WrapAdd | internal/ach/nacha/encoder.go:83-88 | adding with wrap-around step by step is wrapping the exact sum once |
| Text.ParseInt | internal/ach/nacha/encoder.go:260-269 | the digit loop yields the denoted number modulo 64-bit wrap-around, or zero and an error at any other byte |
| Text.ZeroPadMeaning | internal/ach/nacha/encoder.go:112-124 | zero-padded printing is read back as the same number and has exactly the asked width iff the number fits |
| Text.FieldReadMeaning | internal/ach/nacha/encoder.go:242-244 | a fixed-width slice of a padded number gives it back iff it fits, and otherwise something smaller |
| Text.FieldReadWide | internal/ach/nacha/encoder.go:231-232 | a number k places too wide is read as its quotient by ten to the k |
| Text.SplitJoin | internal/ach/nacha/encoder.go:207 | trimming and splitting a text of newline-terminated lines gives the pieces of each line, the lines themselves when they hold no newline, provided the last is not empty and holds none |
| NachaFile.FileDefectExact | internal/ach/nacha/encoder.go:150-171 | a file is refused iff some field anywhere in the tree breaks its length or sign rule |
| NachaFile.ComputeRoutingHash | internal/ach/nacha/encoder.go:191-202 | the loop sums the digits among the first eight bytes, zero for a shorter number |
| NachaFile.SumsConcat | internal/ach/nacha/encoder.go:83-88 | amount and hash sums of joined entry lists add up, so nested totals are flat totals |
| NachaFile.Encode | internal/ach/nacha/encoder.go:54-148 | refuses exactly the ill-formed files with their first defect, and otherwise prints lines whose totals are over the flattened entries, although it sums batch by batch with wrap-around |
| NachaFile.EncodeBatches | internal/ach/nacha/encoder.go:74-128 | running totals after the batch loop are the wrapped sums over all entries of all batches |
| NachaFile.AppendFillers | internal/ach/nacha/encoder.go:138-146 | the padding loop appends exactly the fillers of the last block |
| NachaCheck.Validate | internal/ach/nacha/encoder.go:206-258 | on any text the verdict, panics included, is the closed form Judge of its lines; accepted, panicking and missing header each under exactly their condition |
| NachaCheck.ScanLines | internal/ach/nacha/encoder.go:218-257 | the loop equals: find the first control record, compare it with sums over the lines before it, and panic at entry lines of 11 or 21 to 38 bytes unless an error comes first |
| NachaCheck.VerdictExact | internal/ach/nacha/encoder.go:206-258 | on any lines: missing header iff the first does not start with 1; missing control iff it does and the last does not start with 9; accepted iff both do, no entry line has a bad length, and the first line starting with 9 is shorter than 39 bytes or declares count, amount and hash of the lines before it; when it panics; and which mismatch it names |
| NachaLines.EntryLineFields | internal/ach/nacha/encoder.go:107-118 | routing stands at bytes 3 to 12 and the first ten places of the amount at 29 to 39, where the checker slices |
| NachaLines.EntryLineLayout | internal/ach/nacha/encoder.go:107-118 | with a fitting amount every field of an entry can be read from its place in the line |
| NachaLines.HeaderLayout | internal/ach/nacha/encoder.go:63-72 | every field of the file header has its place, the upper-cased file id modifier of any length at byte 71 |
| NachaLayout.BatchHeaderLayout | internal/ach/nacha/encoder.go:91-104 | every field of a batch header has its place, the number of the batch taking as many bytes as it needs |
| NachaLayout.ControlLayout | internal/ach/nacha/encoder.go:120-136 | kind, three padded figures and the rest of both control records |
| NachaLayout.HeaderPlace | internal/ach/nacha/encoder.go:63-72 | the file header is the first line |
| NachaLayout.LinePlaces | internal/ach/nacha/encoder.go:63-137 | batch by batch the header, the entries in order and the control stand at their line numbers |
| NachaLayout.PadRightBytes | internal/ach/nacha/encoder.go:173-178 | cut to the width, or filled with blanks on the right |
| NachaLayout.PadLeftBytes | internal/ach/nacha/encoder.go:180-185 | filled with zeros on the left, never cut |
| NachaLayout.ToUpperBytes | internal/ach/nacha/encoder.go:70 | small letters become capitals, every other byte stays |
| NachaLayout.NegativePadded | internal/ach/nacha/encoder.go:122 | a negative figure keeps its sign in front of the zeros |
| NachaLayout.RoutingHashDigits | internal/ach/nacha/encoder.go:191-202 | the digits among exactly the first eight bytes, nothing for a shorter number |
| NachaLayout.EntryReadings | internal/ach/nacha/encoder.go:227-236 | what the checker takes from an entry line of each length: nothing, the hash, the amount too, or a panic |
| NachaLayout.OtherReadings | internal/ach/nacha/encoder.go:224-256 | no other line adds to amount or hash, or panics |
| NachaLayout.FirstDefect | internal/ach/nacha/encoder.go:150-171 | the defect reported is the first in reading order, and within an entry the routing number comes before the amount |
| NachaLines.RecordLengths | internal/ach/nacha/encoder.go:63-136 | the lengths of all records in terms of their fields; a file header never has 94 bytes, an entry has them iff amount and trace number take forty places together |
| NachaLines.DataLinesRead | internal/ach/nacha/encoder.go:78-128 | of the lines before the file control the checker learns exactly the number of batches and entries, the hash sum, and the amounts as their ten-place fields read |
| NachaPieces.QuietChars | internal/ach/nacha/encoder.go:218-257 | the pieces a line falls into after its first are passed over by the checker iff no newline in it is followed by a five, six or nine |
| NachaPieces.AllPiecesRead | internal/ach/nacha/encoder.go:218-257 | newlines can only raise the record count the checker expects, and leave count, amount and hash alone iff no newline starts a counted piece |
| NachaTheorems.FramedVerdict | internal/ach/nacha/encoder.go:221-257 | on plain lines around a control record only the comparison with that record decides |
| NachaTheorems.EncodedPieces | internal/ach/nacha/encoder.go:54-258 | for every file at all, whatever its fields hold: the verdict is the closed form on the pieces of its data lines, the file control and the fillers |
| NachaTheorems.EncodedExact | internal/ach/nacha/encoder.go:54-258 | for every valid file, newlines in fields and dates included, in which no newline starts a control record or an unreadable entry line or cuts an entry short: Validate never panics on the encoded text, and accepts iff no newline is followed by a five, six or nine, the record count fits six places, and the next twelve and ten bytes read as the amount and hash it adds up |
| NachaTheorems.SumBounds | internal/ach/nacha/encoder.go:229-233 | the checker never reads more money than was printed, and reads the same sum iff every amount fits ten places |
| NachaTheorems.AcceptedWhenAmountsFit | internal/ach/nacha/encoder.go:54-258 | on such files with every amount below 10^10: accepted iff no newline starts a counted piece, fewer than 10^6 records and a total below 10^12 |
| NachaTheorems.AcceptedExactly | internal/ach/nacha/encoder.go:54-258 | on such files with fewer than 10^6 records and a total below 10^12: accepted iff no newline starts a counted piece and every amount is below 10^10 |
| NachaTheorems.AcceptedWithoutNine | internal/ach/nacha/encoder.go:206-258 | for every valid file, newlines anywhere, none of whose pieces starts with a nine: accepted iff no piece makes the checker panic and the file control declares what the pieces add up to |
| NachaTheorems.AcceptedWithNine | internal/ach/nacha/encoder.go:238-255 | for every other valid file: accepted iff no piece makes the checker panic and the first piece starting with a nine is shorter than 39 bytes or agrees with those before it; the file control is not looked at |
| NachaTheorems.OverflowAccepted | internal/ach/nacha/encoder.go:110-134 | a file of a hundred over-wide amounts, total over-wide too, is accepted: the width conditions are needed |
| NachaTheorems.EncodedBlocks | internal/ach/nacha/encoder.go:130-146 | the line count is a multiple of ten with fewer than ten fillers, and the control stands at the declared record count |
| NachaControls.FittingControl | internal/ach/nacha/encoder.go:120-136 | a control record whose figures fit is read back as those figures |
| NachaControls.BatchControlsAddUp | internal/ach/nacha/encoder.go:120-136 | amounts and hashes read from the printed batch controls add up to those read from the printed file control and to the flat sums, counts up to the header and file records |
| NachaTamper.ReplacedEntry | internal/ach/nacha/encoder.go:228-254 | in an accepted file, replacing one entry line by another goes unnoticed iff amount and hash are the same; otherwise the first difference is the error reported |
| NachaTamper.InsertedEntry | internal/ach/nacha/encoder.go:245-248 | one entry line more or less is always a record count mismatch |
| NachaTamper.ReorderedLines | internal/ach/nacha/encoder.go:221-256 | any permutation of the lines between header and control gets the same verdict |
| NachaTamper.TamperedAmount | internal/ach/nacha/encoder.go:229-251 | overwriting the ten amount digits of an entry of an accepted encoded file by another value makes Validate report the amount |
| NachaTamper.InsertedIntoFile | internal/ach/nacha/encoder.go:245-248 | adding any well-formed entry line, a duplicate included, to an accepted encoded file is reported as a count mismatch by one |
| NachaTamper.DeletedFromFile | internal/ach/nacha/encoder.go:245-248 | so is removing one |
| NachaNewline.NewlineSplitsLine | internal/ach/nacha/encoder.go:90-104 | a newline inside a field cannot be told from the end of a line |
| NachaNewline.NewlineRejected | internal/ach/nacha/encoder.go:150-258 | a file with a newline in a company name is printed without complaint and then rejected with a wrong count |
| NachaNewline.NineAccepted | internal/ach/nacha/encoder.go:238-241 | a file with a newline and a nine in a receiver name is accepted for every amount |
| Rail.KeyCollision | internal/rail/types.go:64-69 | two idempotency keys are equal iff the attempts are and payment:operation are, for all inputs |
| Rail.KeyInjective | internal/rail/types.go:64-69 | with colon-free operations a key determines payment, operation and attempt, colons in payment ids and negative attempts included |
| Rail.ColonCollides | internal/rail/types.go:64-69 | for all payments, operations and attempts: text before a colon in the operation may as well stand at the end of the payment id |
| Rail.OperationsCollide | internal/rail/types.go:64-69 | two operations have some colliding calls iff one of them, after some colon in it, is the other |
| Effects.KeyReads | internal/rail/types.go:64-69 | a key reads as payment, colon, operation, colon and the attempt in decimal |
| Rail.AsErrorMeaning | internal/rail/errors.go:37-48 | the first rail error of the chain of wrapped errors, or else INVALID_REQUEST with the outermost message |
| Effects.RetryableExactly | internal/rail/retry/retry.go:57-69 | a rail error is retried by its code alone, any other error iff its text contains one of four words |
| Effects.ValidStatuses | internal/rail/types.go:25-33 | exactly the seven statuses |
| Circuit.Breaker.Allow | internal/rail/circuit/circuit.go:63-80 | answer and new state for each state and clock reading |
| Circuit.Breaker.RecordFailure | internal/rail/circuit/circuit.go:90-112 | new state, and the shared counter rises exactly when the breaker opens |
| Circuit.Breaker.RecordSuccess | internal/rail/circuit/circuit.go:82-88 | closed with no failures |
| CircuitHistory.StateReflects | internal/rail/circuit/circuit.go:63-112 | in every interleaving on any number of breakers: closed iff fewer than maxFailures failures since the last success, opened at the last failure, half open only after the cool-down |
| CircuitHistory.AllowMeaning | internal/rail/circuit/circuit.go:63-80 | Allow answers yes iff fewer than maxFailures failures since the last success or the cool-down has passed since the last failure: three states refine two facts of the history |
| CircuitHistory.CounterMeaning | internal/rail/circuit/circuit.go:106-112 | the shared counter is the number of failures, over all scopes, that met a full count, whatever the prior state |
| CircuitHistory.QuietWindow | internal/rail/circuit/circuit.go:63-112 | after a failure leaves a breaker open, no caller is admitted before the cool-down without a success in between |
| RateBound.InvocationBound | internal/middleware/middleware.go:69-88 | N callers in any interleaving, all failing retryably: at most maxFailures + N - 1 invocations plus N per whole cool-down since the first opening |
| RateBound.AlwaysPaced | internal/rail/circuit/circuit.go:63-112 | the invariant behind it, kept by every step |
| RateBound.SingleCallerBound | internal/middleware/middleware.go:69-88 | for one caller: maxFailures plus one per whole cool-down |
| RateReached.BoundReached | internal/middleware/middleware.go:69-88 | for every number of callers and cool-downs some run makes exactly that many invocations |
| Retry.Backoff | internal/rail/retry/retry.go:116-132 | the doubling loop with wrap-around draws below its window, and the window is positive for every cap, so the random draw cannot panic |
| Retry.DoublingExact | internal/rail/retry/retry.go:116-132 | for every base and cap of 63 bits: the doubling rule holds at all attempts iff some doubling of the base passes the cap below 2^63, or base equals cap and 2^63 / (2^63 - cap) rounded up is a power of two |
| Retry.DoublingFails | internal/rail/retry/retry.go:116-132 | base 2^62 with cap 1, and base 1 with cap 2^62, break the doubling rule |
| Retry.Defaults | internal/rail/retry/retry.go:72-84 | options are taken as they are, at least one attempt, and 100 ms and 2 s for a base and a cap that are not positive; with these the windows are 100, 200, 400, 800, 1600 and then 2000 ms |
| Retry.WindowClosed | internal/rail/retry/retry.go:116-132 | base and cap below 2^62: base at the first attempt, then the smaller of cap and base doubled each time |
| Retry.WindowClosedExactly | internal/rail/retry/retry.go:116-132 | as a corollary, all bases below 2^62 keep the doubling rule iff the cap is below 2^62 |
| Retry.TotalWait | internal/rail/retry/retry.go:72-114 | for every Do, with the defaults for base and cap and whatever the draws, the function and the context: one wait between attempts and none after the last, the k-th below the k-th window; n waits are in total below base (2^n - 1) and at most n times the larger of base and cap, overflow included |
| Retry.KeysOfDo | internal/rail/retry/retry.go:90-113 | one Do hands out the keys of attempts 1 to n in order, n at most the maximum, all different, none of them ever a key of another payment or operation |
| Middleware.Middleware.BreakerFor | internal/middleware/middleware.go:52-62 | a fresh breaker for a new scope, the same object afterwards, all other scopes untouched |
| Middleware.Middleware.Do | internal/rail/retry/retry.go:72-114 | the attempt loop around the breaker closure, defaults and waits included, equals its recursive meaning, on the breaker object and the shared counter |
| Middleware.Middleware.Call | internal/middleware/middleware.go:69-95 | answers and updates its scope as specified, raises the counter by its own openings, leaves every other scope as it was |
| Middleware.CallOn | internal/middleware/middleware.go:89-94 | whatever the downstream returns, an error that leaves Call is a normalized rail error |
| CallAnswers.CallEnds | internal/middleware/middleware.go:69-95 | the answer, the invocations and the breaker of every call, by the attempt it ends at: refused at once, success, the error of a failure that is not retried or comes last, a refusal at the last attempt, the error of the context before an attempt or during a wait, each normalized |
| CallAnswers.CallSucceedsExactly | internal/middleware/middleware.go:69-95 | a call answers without an error iff it is let in and an attempt it reaches is admitted and returns none |
| CallAnswers.CallSucceeds | internal/middleware/middleware.go:80-94 | a success at attempt k after admitted retryable failures: no error, k invocations, breaker closed with no failures |
| Outage.CallInOutage | internal/middleware/middleware.go:69-95 | all answers RAIL_UNAVAILABLE, from any state of the breaker: no invocation while it cools down, one from half open or past the cool-down, min(attempts, max(1, maxFailures - f)) from closed with f failures; when it opens; RAIL_UNAVAILABLE returned |
| Outage.WrappedUnavailable | internal/middleware/middleware.go:84-109 | when the k-th attempt fails with an error that is not retried, even one wrapping RAIL_UNAVAILABLE, the function has run k times, the breaker has counted k - 1 failures, and the caller gets the error normalized |
| Outage.CallsReplay | internal/middleware/middleware.go:69-95 | any sequence of calls on one scope is a run of a single caller |
| Outage.SequentialRate | internal/middleware/middleware.go:69-95 | failing calls one after another: fewer than maxFailures invocations before the first opening, then at most maxFailures plus one per whole cool-down, for any calls, attempts and ended contexts |
| Store.MemStore.Upsert | internal/store/store.go:81-97 | the row is replaced, creation time kept, cached totals and row identity stay valid |
| Store.MemStore.SetStatus | internal/store/store.go:110-123 | one row changed through its pointer, all others untouched, false for an unknown payment |
| Store.MemStore.AddSettle | internal/store/store.go:125-139 | settlement appended, payment marked, and the cached total of every payment still equals the sum over the list |
| Store.MemStore.SettledAmount | internal/store/store.go:150-155 | the cached total is the sum of the settlements of that payment |
| Store.MemStore.AddChargeback | internal/store/store.go:168-189 | completed entry appended and returned, payment marked |
| Store.MemStore.ChargebacksFor | internal/store/store.go:200-211 | the sublist of one payment, in order |
| Effects.UpsertWrites | internal/store/store.go:81-97 | the row is the given record up to its times, every other row is as before |
| Effects.StatusWrites | internal/store/store.go:110-123 | only status, error fields and update time of that row change |
| Effects.SettleWrites | internal/store/store.go:125-139 | the settlement appended field by field, with the clock for its time and an id of its payment where it has none |
| Effects.ChargebackWrites | internal/store/store.go:168-189 | the chargeback appended field by field, time, id and status filled in where missing |
| Effects.ChargebacksSublist | internal/store/store.go:200-211 | the chargebacks of a payment are those that name it, as often and in the order they were added |
| Settlement.MatchEntries | internal/settlement/matcher.go:37-80 | the loop over the store and log objects equals the batch function, results in input order |
| Settlement.Tracker.RecordSettle | internal/settlement/tracker.go:38-44 | tracker and store both take the settlement |
| Matcher.MatchAnswers | internal/settlement/matcher.go:41-79 | one result and one event per line in order, matched iff the payment was in the store at the start |
| Effects.MatchStores | internal/settlement/matcher.go:59-67 | a batch stores one settlement for each line of a known payment, in order, field by field |
| Effects.LineWrites | internal/settlement/matcher.go:45-78 | type, rail, status and amount of the event of a line, and code and text of the error of an unmatched one |
| Effects.StampKept | internal/audit/audit.go:39-46 | an event that carries a time keeps it |
| Matcher.MatchTotals | internal/settlement/matcher.go:59-67 | each known payment gains exactly the amounts its lines carry, unknown ones nothing |
| Matcher.MatchRows | internal/settlement/matcher.go:59-67 | a mentioned known payment ends settled with all else kept, others keep their row |
| Matcher.MatchCompose | internal/settlement/matcher.go:37-80 | two batches in sequence are one batch |
| Matcher.MatchOrder | internal/settlement/matcher.go:37-80 | permuting a batch changes no settled total and no status |
| Connector.Connector.Authorize | internal/dummy/connector.go:69-95 | store, log and answer in every branch |
| Connector.Connector.DoCapture | internal/dummy/connector.go:97-127 | store, tracker, log and answer in every branch |
| Connector.Connector.DoRefund | internal/dummy/connector.go:129-159 | store, tracker, log and answer in every branch |
| Connector.Connector.GetStatus | internal/dummy/connector.go:161-171 | the stored status, or which error |
| Connector.MoveAnswer | internal/dummy/connector.go:97-159 | the answer is captured or refunded iff the payment is known, in a status the movement starts from, and the connector is not failing; otherwise it is a failure with a code, and store and tracker are as before |
| Connector.MoveOnce | internal/dummy/connector.go:97-159 | a movement changes one row and one total, and the same movement right after it is refused |
| Connector.RefundUndoesCapture | internal/dummy/connector.go:69-159 | authorize, capture and refund of one amount all go through and leave every tracker total as it was |
| Effects.AuthorizeWrites | internal/dummy/connector.go:82-94 | an authorization that goes through stores amount, currency, key, reference and all other fields of its row, keeps every other row, logs its event and answers with the reference |
| Effects.AuthorizeDeclines | internal/dummy/connector.go:69-81 | otherwise nothing is stored, and the answer carries the code and text of the check that failed |
| Effects.MoveWrites | internal/dummy/connector.go:97-159 | a capture or refund that goes through changes status, error fields and update time of one row and one total, logs its event and answers with the stored reference |
| Effects.MoveDeclines | internal/dummy/connector.go:97-159 | otherwise nothing is stored, the answer carries code and text of the first check that failed, and only the forced failure is logged |
| Effects.StartStatuses | internal/dummy/connector.go:112-148 | captures start from authorized, refunds from captured or settled |
| Server.Service.HandleAuthorize | internal/server/server.go:136-165 | state and code of the authorization, the fail switch of the request left on |
| Server.Service.HandleMovement | internal/server/server.go:174-234 | state and code of a capture or refund, unknown payments stopped before the connector |
| Server.Service.Webhook | internal/server/server.go:261-298 | state and code of a webhook whose body has been read and verified, in every branch |
| Server.HandledAnswer | internal/server/server.go:174-234 | OK iff the movement goes through, NOT_FOUND iff the payment is unknown, and with any answer but OK store and tracker are as before |
| Server.WebhookReach | internal/server/server.go:282-296 | a webhook touches at most the row it names and the log; it is logged iff it names a rail, a payment and a valid status, known payment or not |
| Server.FailureSticks | internal/server/server.go:147-149 | once a request has set the fail switch, no request short of resetting it moves a tracker total |
| Effects.MovementCodes | internal/server/server.go:174-234 | 400 without a payment id, 404 for an unknown payment, 200 when it goes through, 422 otherwise |
| Effects.AuthorizeCode | internal/server/server.go:136-165 | 422 without a payment id or with the fail switch on, else 200 |
| Effects.WebhookWrites | internal/server/server.go:261-298 | 404 without a rail, 400 for an invalid status, else 200; what a webhook that is taken stores and logs, and that any other does nothing |
| Replay.LogIsFaithful | internal/dummy/connector.go:70-159 | after every run of requests, webhooks and batches the log alone rebuilds all statuses, settled totals and tracker totals, all stored statuses are valid, and every capture or refund was allowed by the log before it |
| LawfulLogs.LogsExactly | internal/dummy/connector.go:69-159 | a log is written by some run of atomic requests, webhooks and settlement lines iff each of its events is one that an operation writes when the log before it tells the statuses |
| TwoLogs.DefaultLogs | internal/server/server.go:53-76 | with a log each for connector and service, after every run: the connector's log rebuilds tracker and settled totals and knows the same payments, tells a status iff no webhook has changed it since the connector's last event on the payment, and the service's log tells none |
| TwoLogs.WebhookUntold | internal/server/server.go:282-296 | a webhook leaves a told payment told iff it does not change a stored status |
| TwoLogs.NeitherTells | internal/server/server.go:282-296 | one authorization and one webhook after which the store says settled, one log authorized and the other nothing |
| Replay.CountsFollow | internal/dummy/connector.go:110-158 | in every run, webhooks and batches included: captures, plus one while the payment is authorized, are at most authorizations plus webhooks to authorized; refunds, plus one while it is captured or settled, at most captures plus webhooks to captured or settled plus settlement lines |
| Replay.MovesExactly | internal/dummy/connector.go:110-158 | captures can exceed authorizations by d, and refunds captures, in some run with k reopening events iff d <= k |
| Replay.RefundsCapturesAuthorizations | internal/dummy/connector.go:110-158 | as a corollary, captures <= authorizations if no webhook sets the payment to authorized, and refunds <= captures if no webhook sets it to captured or settled and no settlement line names it |
| Replay.WebhookAllowsMore | internal/server/server.go:282-296 | k webhooks (before a refund also settlement lines) let any d <= k extra captures or refunds through |
| Interleaving.AlwaysConserved | internal/dummy/connector.go:110-126 | at lock granularity, any callers: tracker = logged captures - logged refunds + recorded and not yet logged |
| Interleaving.QuiescentAgreement | internal/dummy/connector.go:142-158 | tracker and log agree whenever nobody is between the two |
| Interleaving.SoloMove | internal/dummy/connector.go:97-159 | a caller nobody interrupts does to statuses, tracker and log what the atomic capture or refund does |
| Interleaving.OneCallerPerPayment | internal/dummy/connector.go:110-158 | in any interleaving in which no operation gets past its check on a payment another caller is still working on, every logged capture and refund was allowed by the log before it, both keep their bounds, and the log tells the status of every payment nobody works on |
| Races.CapturedTwice | internal/dummy/connector.go:110-126 | two interleaved captures of one authorization both go through, and the money is counted twice |
| Races.RaceBound | internal/dummy/connector.go:110-158 | n callers in any interleaving: captures made or under way are at most n times the authorizations and webhooks to authorized, refunds at most n times the captures, settlements and webhooks that allow them |
| Races.RaceExactly | internal/dummy/connector.go:110-158 | some interleaving of n callers makes exactly that many captures or refunds on that many allowing events iff they are at most n times as many |
| Races.OrderNeedsOneCaller | internal/dummy/connector.go:110-158 | no interleaving of n callers makes more movements than were allowed iff n <= 1 |
| Races.OneCallerIsAtomic | internal/dummy/connector.go:69-159 | callers that keep off each other's payments are serializable: some run of atomic operations writes the same log and, once all are done, leaves the same statuses and totals |
| SqlStore.Db.Upsert | internal/store/postgres/postgres.go:55-71 | insert, or update of everything but the creation time |
| SqlStore.Db.AddSettle | internal/store/postgres/postgres.go:92-116 | insert unless the id is taken, mark the payment in either case |
| SqlStore.Db.SettledAmount | internal/store/postgres/postgres.go:138-147 | the sum over the rows of one payment |
| Effects.SqlUpsertWrites | internal/store/postgres/postgres.go:55-71 | the row is the given record up to its times, every other row is as before |
| Effects.SqlStatusWrites | internal/store/postgres/postgres.go:82-90 | only status, error fields and update time of that row change |
| Effects.SqlSettleWrites | internal/store/postgres/postgres.go:92-116 | a settlement with a new id is appended field by field, its own time kept if it has one; the payment is marked in either case |
| Effects.SqlChargebackWrites | internal/store/postgres/postgres.go:167-195 | likewise for chargebacks |
| SqlStore.StoresSimulate | internal/store/postgres/postgres.go:55-195 | on every run the stores agree on all payment rows up to timestamps, and the SQL lists are the first entries per id of the memory lists |
| SqlStore.SettledDifference | internal/store/postgres/postgres.go:105-147 | in-memory settled amount = SQL settled amount + amounts of settlements whose id was already taken |
| SqlStore.DistinctIdsAgree | internal/store/store.go:125-189 | with distinct settlement ids both stores hold the same settlements and amounts, with distinct chargeback ids the same chargebacks |
| SqlStore.SqlKeepsFirstPart | internal/settlement/matcher.go:59-67 | with the matcher's ids the SQL amount of a payment is its first settlement only |
| SqlStore.CreatedAtFixed | internal/store/store.go:86-96 | in both stores payments are never removed and their creation time never changes |
| Migrations.CollectedMeaning | internal/store/migrations/migrations.go:26-57 | a version exists iff it has a file, with the contents of its two files |
| Migrations.All | internal/store/migrations/migrations.go:21-72 | succeeds iff every version has both scripts, with one migration per version in byte order |
| Migrations.LessBytes | internal/store/migrations/migrations.go:58-62 | the order of versions is that of their bytes: the first difference decides, a proper prefix comes first |
| Migrations.ListingUnique | internal/store/migrations/migrations.go:58-71 | the result does not depend on the order in which the map is walked |
| MigrationRunner.Runner.Up | internal/store/migrations/migrations.go:86-115 | create the table, list the files, then the loop with early returns: equals its recursive meaning for every pattern of failures; succeeds iff table creation, listing and every statement of a version that was due ended done, and then every version is recorded |
| MigrationRunner.Runner.Down | internal/store/migrations/migrations.go:117-141 | likewise, from the last migration back; on success none of the versions is recorded any more |
| MigrationRunner.UpOnSucceeds | internal/store/migrations/migrations.go:86-115 | the exact condition of success of Up, whatever the meaning of its loop |
| MigrationRunner.DownOnSucceeds | internal/store/migrations/migrations.go:117-141 | the exact condition of success of Down |
| MigrationRunner.UpWithoutQuery | internal/store/migrations/migrations.go:97-113 | without a query Up runs the scripts from the start of the listing, each once and in order, all of them when it succeeds |
| MigrationRunner.DownWithoutQuery | internal/store/migrations/migrations.go:122-139 | likewise Down, from the end |
| MigrationRunner.HalfDone | internal/store/migrations/migrations.go:107-112 | what a statement that fails before or after its effect leaves behind |
| MigrationRunner.UpPrefix | internal/store/migrations/migrations.go:97-113 | from a recorded prefix Up reaches a longer one, running just the scripts in between and at most one it does not get to record |
| MigrationRunner.DownPrefix | internal/store/migrations/migrations.go:122-139 | from a recorded prefix Down reaches a shorter one, running just those reverting scripts in reverse order and at most one more |
| MigrationRunner.AlwaysPrefix | internal/store/migrations/migrations.go:86-141 | in every run of Up and Down, failing anywhere with or without effect, with or without a query, the recorded versions are a prefix of the order |
| MigrationRunner.FilesToPrefix | internal/store/migrations/migrations.go:21-141 | from the files themselves: incomplete files never run anything, complete ones keep the recorded versions a prefix of their listing in byte order |
| MigrationRunner.UpThenDown | internal/store/migrations/migrations.go:86-141 | a successful Up records all, a further Up changes nothing, a successful Down records none and reverted exactly what was recorded |
| MigrationRunner.UpsInOrder | internal/store/migrations/migrations.go:86-115 | in Up-only runs the scripts that took effect are those of the recorded prefix in order, each at least once, and at most the next one |

## Left out

- NachaFile.Encode: upper-cases only ASCII letters of the file id modifier; the library call also maps other alphabets.
- NachaTheorems.EncodedExact: leaves out files in which a newline starts a control record or an unreadable entry line or falls within the first 39 bytes of an entry; `AcceptedWithoutNine` and `AcceptedWithNine` together cover every file, in terms of its pieces.
- NachaLines.HeaderLayout: upper-cases ASCII only, like `Encode`.
- Rail.AsErrorMeaning: errors that wrap several errors at once are not modelled; the program makes none.
- Replay.LogIsFaithful: is about one shared sink, which the program itself never sets up; its default is the subject of `TwoLogs`.
- Interleaving.SoloMove: the step machine leaves event times unset.
- Retry.Backoff: the distribution of the random draw is not modelled, only its range.
- Middleware.Middleware.Do: a Dafny method cannot take a state-changing closure, so the retry loop and the closure of `Call` are one method here, and another caller cannot step in between; interleavings are the subject of `CircuitHistory` and `RateBound`.
- Interleaving.AlwaysConserved: authorizations, webhooks and settlements appear as arbitrary writes to the statuses.
- Settlement.MatchEntries: results are appended rather than written into a slice of final length; event payloads and the default for a missing audit sink are not kept.
- Server.Service.Webhook: starts after the body has been read, its signature verified and its JSON decoded; those failures answer before any state is touched.
- Connector.Connector.DoCapture: always has a tracker, as `server.New` provides one, and keeps no audit payload.
- Connector.Connector.DoRefund: likewise.
- Connector.Connector.Authorize: raw response bytes and audit payloads are not kept.
- Conformance to the Nacha Operating Rules: not claimed by the code, which prints its own line lengths and adds routing digits.
- The conversion of decimal amounts to cents: it goes through floating point.
- The five real rail adapters and their HTTP clients: network calls around the same store operations.
- The pain.001 builder and the settlement file parsers: work of the XML, CSV and JSON libraries.
- SQL errors and lost connections in the SQL store: swallowed by the code; every statement is taken to succeed.
- Capture and refund limits against the authorized amount: the code has none.
- Histograms and text rendering of metrics, signature checks, JSON, routing, tracing, environment parsing, `main`: they would add only easy members.
