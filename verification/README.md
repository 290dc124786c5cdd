# mcpdrill, verified

A Dafny 4.11 model of the parts of mcpdrill, a load generator for MCP servers,
where correctness is hardest to see: its concurrent session bookkeeping, its run
lifecycle, its leasing of work to workers, its telemetry path, its rate limits,
its stream parsers and the two small languages it evaluates.

`dafny verify dfyconfig.toml` checks the whole project.

## How it is built

Code that changes things step by step is imperative here too: a class for every
object whose fields the source updates, arrays where it sorts and compacts in
place, loops where it loops. Each method is proved against a function, and the
theorems are about that function, told apart from it by lemmas that name only the
source's own terms: its operators, limits, states and fields. Concurrency is a state machine whose steps are
the sections under one lock, so a theorem over every step sequence is a theorem
over every interleaving. Clocks, the network, number parsing and the order in
which a map is walked are inputs.

| file | what it models |
|---|---|
| Expression.dfy | the arithmetic evaluator: tokens, shunting yard, stack machine |
| Wildcard.dfy | the glob matcher of the safety policy |
| Sse.dfy | the batch and the streaming event-stream parser, and the frames written for them |
| TelemetryQueue.dfy | the tiered shedding queue |
| TelemetryShipper.dfy | the batching shipper goroutine |
| TelemetryStore.dfy | the per-run store, its eviction and its paged query |
| TimeSeries.dfy | the bucketed metrics series |
| GapHistogram.dfy | in-place sorting, percentiles and the event-gap histogram |
| RateLimit.dfy | the retargetable limiter of the virtual users |
| ClientLimit.dfy | the per-client limiter of the API: its buckets, their cleanup and their eviction |
| SessionPool.dfy | the bounded pool, its evictor and its borrowers |
| ReuseMode.dfy | the three maps of reuse mode |
| Assignments.dfy | leases: queueing, delivery, acknowledgement, requeueing, execution |
| RunLifecycle.dfy | the run state machine and its event log |
| EventStream.dfy | the event log, event identifiers, and resuming a stream |
| Sequences.dfy | sequence operations and running extremes that the other files share |

## What the code does not promise

Where a property that one would expect turned out false, the code is modelled as
it is, the failing case is a lemma, and another lemma says exactly when the
property holds.

- The logged state transitions are an unbroken chain only while none is owed, lost
  or overtaken: the stage transitions append their event after releasing the lock
  (`RunLifecycle.StopOvertakesBaseline`, `RunLifecycle.LogIsChainExactlyWhen`).
- The transition table has no way from Stopping to Completed; the finalizer takes
  it beside the table when the manager lacks a store. So a run stopped in an
  emergency, which is meant to end aborted, ends completed if and only if a store is
  missing (`RunLifecycle.EmergencyEnds`, `RunLifecycle.EmergencyCompletesWithoutStores`,
  `RunLifecycle.EmergencyCanAbort`).
- A waiter on the pool does not look at `closed` again and is handed a closed
  connection (`SessionPool.WaiterGetsDeadSession`, a run for every size of pool). At
  every step of every run, a borrower comes to hold a closed connection if and only
  if it is handed a session it created in a pool closed by then
  (`SessionPool.HandedDeadIff`).
- Reuse mode finds sessions by an identifier that the server chooses; the maps stay
  inverse exactly as long as no identifier is inserted while it is in the table
  (`ReuseMode.InsertKeepsLinksIff`, `ReuseMode.SharedIdStrandsSession`).
- Closing reuse mode is final if and only if, as it takes the lock, no call is past
  its own test of `closed` and short of inserting its session
  (`ReuseMode.CloseIsFinalIff`, `ReuseMode.AcquireOutlivesClose`).
- The API's limiter does not hold every client to one burst and the rate: a client
  it forgets comes back to a full bucket. It holds them to it in all windows of all
  runs if and only if the burst is not positive, so that nobody is admitted, or a bucket
  refills before it can be forgotten and there is room for every client
  (`ClientLimit.BoundedIff`, `ClientLimit.ForgottenTooSoon`, `ClientLimit.PushedOut`).
- Event identifiers are two hexadecimal numbers run together, although the comment
  above the function shows a separator; they are unique because timestamps have one
  width (`EventStream.IdsDistinct`, `EventStream.CollidingTimestamps`).
- The glob matcher compares a literal `*` before it treats `*` as a wildcard. It is
  exact on a value for every pattern exactly when the value has none, and exact for
  a pattern on every value exactly when the pattern has none
  (`Wildcard.ExactForValue`, `Wildcard.ExactForPattern`).
- The two event-stream parsers differ exactly on blocks with fields and nothing to
  dispatch (`Sse.ParsersAgree`), and either reads a written stream back if and only if
  every frame in it is clean (`Sse.RoundTripIffClean`).
- After cancellation the shipper still accepts items that nobody will post
  (`TelemetryShipper.StrandedAfterCancel`), even when it was closed before its last
  flush, because a call tests the flag and sends later
  (`TelemetryShipper.ClosedAndStillLoses`). What is posted is what was accepted before
  the last flush, and nothing is ever lost if and only if by then the shipper was
  closed and no call was between its test and its send
  (`TelemetryShipper.PostedIffBeforeFinish`, `TelemetryShipper.FinishLosesNothingIff`).
- A lease runs at most once at a time, not at most once: requeueing after a lost
  acknowledgement runs it again, and only that or a second add does
  (`Assignments.LostAckRerunsLease`, `Assignments.LaunchesBounded`,
  `Assignments.OnceUnlessRequeued`).
- The queue stays within its capacity, over every run of records of given tiers, if
  and only if all of them are among the three it knows
  (`TelemetryQueue.BoundedIffKnown`, `TelemetryQueue.UnknownTierOverflows`).
- The evaluator accepts tokens that form no expression
  (`Expression.UngrammaticalTokensAccepted`). One scan from left to right tells which
  tokens form one (`Expression.ExpressionIffScan`), and one count along the postfix
  code tells which are evaluated, always to the value of some tree
  (`Expression.RefusedIffUnbalanced`, `Expression.TokensOutcome`).
- The gap tracker uses -1 for no minimum yet and starts its maximum at zero. Over any
  gaps the minimum is right if and only if one is below -1, or none is -1, or the last
  is; the maximum if and only if one is not negative. A monotonic clock gives no
  negative gap (`GapHistogram.RecordedMinIff`, `GapHistogram.MinusOneForgotten`,
  `GapHistogram.RecordedMaxIff`, `GapHistogram.MonotonicFaithful`).
- A run's recorded start takes a timestamp of zero for none. It is the earliest if and
  only if one is negative, or none is zero, or the last is zero
  (`TelemetryStore.ZeroIsForgotten`, `TelemetryStore.SpanExactIff`).

## Model

| member | source | states |
|---|---|---|
| `Expression.ShuntingYard` | internal/mockserver/mockserver.go:1248-1304 | the loop computes `ToPostfix` of its tokens, errors included |
| `Expression.EvalRPN` | internal/mockserver/mockserver.go:1306-1343 | the stack machine computes `RunRPN`, with its three errors |
| `Expression.Tokenize` | internal/mockserver/mockserver.go:1220-1246 | the scanner computes `Lexemes` of the text |
| `Expression.EvalExpression` | internal/mockserver/mockserver.go:1208-1218 | tokenize, convert, run: the text's value, or the first stage's error |
| `Expression.RunLength` | internal/mockserver/mockserver.go:1232-1238 | the digits and dots taken as one token are the longest such run |
| `Expression.YardCompiles` | internal/mockserver/mockserver.go:1248-1304 | an expression's tokens, with parentheses, precedence and left grouping, come out as its postfix code |
| `Expression.MachineEvaluates` | internal/mockserver/mockserver.go:1306-1343 | postfix code pushes the expression's meaning on any stack, or stops at its division by zero |
| `Expression.CompilerCorrect` | internal/mockserver/mockserver.go:1248-1343 | yard then machine give the meaning of every grammatical expression; division by zero is the only error |
| `Expression.ParenthesizeCorrect` | internal/mockserver/mockserver.go:1248-1304 | every tree has a grammatical expression with its meaning, so every computation can be written |
| `Expression.PrintUnambiguous` | internal/mockserver/mockserver.go:1248-1304 | two grammatical expressions with the same tokens are the same tree |
| `Expression.GrammaticalIffSum` | internal/mockserver/mockserver.go:1248-1304 | the expressions the yard is proved for are exactly the sums of products of factors, with the four operators named, each grouped to the left |
| `Expression.TwoOperators` | internal/mockserver/mockserver.go:1251-1280 | for every pair of operators, `a o b p c` comes out as `a b c p o` exactly when `o` adds or subtracts and `p` multiplies or divides, and else as `a b o c p` |
| `Expression.YardOutcome` | internal/mockserver/mockserver.go:1248-1304 | on any tokens the yard fails exactly on a junk token or an unbalanced parenthesis, with that error, and else permutes operands and operators |
| `Expression.TokenizeFailsOnlyOnIllegal` | internal/mockserver/mockserver.go:1220-1246 | tokenizing fails exactly when the text has an illegal character |
| `Expression.TokenizeKeepsText` | internal/mockserver/mockserver.go:1220-1246 | the words, one after the other, are the text without its spaces, tabs and newlines, and each is a numeral or one of the six signs |
| `Expression.TokenizeLayout` | internal/mockserver/mockserver.go:1220-1246 | tokenizing undoes any layout of words in white space |
| `Expression.EvaluatorCorrect` | internal/mockserver/mockserver.go:1208-1343 | end to end: the text of a grammatical expression, however spaced, evaluates to its meaning |
| `Expression.UngrammaticalTokensAccepted` | internal/mockserver/mockserver.go:1248-1343 | `a b +` prints no expression and is evaluated all the same |
| `Expression.ExpressionIffScan` | internal/mockserver/mockserver.go:1248-1304 | tokens are those of a grammatical expression if and only if one left-to-right scan, knowing only the depth and whether an operand is due, passes them |
| `Expression.CodeIffBalanced` | internal/mockserver/mockserver.go:1306-1343 | code is the postfix form of some tree if and only if every operator finds two operands and one value is left |
| `Expression.TokensOutcome` | internal/mockserver/mockserver.go:1248-1343 | the whole evaluator on any tokens: a junk token or unbalanced parenthesis is its error; balanced code is some tree's, and the result is that tree's value or its division by zero; unbalanced code is refused |
| `Expression.RefusedIffUnbalanced` | internal/mockserver/mockserver.go:1248-1343 | unless a divisor turns out zero, tokens the yard passes are refused as invalid if and only if their code is unbalanced; for any arithmetic |
| `Wildcard.WildcardMatch` | internal/validation/semantic_validator.go:1117-1143 | the two-pointer loop computes `Matches` |
| `Wildcard.MatchesForbiddenPattern` | internal/validation/semantic_validator.go:1106-1115 | literal comparison without wildcards, else the matcher; agrees with glob matching when value or pattern has no star |
| `Wildcard.Sound` | internal/validation/semantic_validator.go:1117-1143 | whatever the matcher accepts is a glob match |
| `Wildcard.Complete` | internal/validation/semantic_validator.go:1117-1143 | a glob match of a value without `*` is accepted: one remembered star suffices |
| `Wildcard.GreedyComplete` | internal/validation/semantic_validator.go:1117-1143 | from every state of the loop that can still match, the loop succeeds |
| `Wildcard.ExactForValue` | internal/validation/semantic_validator.go:1117-1143 | the matcher decides glob matching of `v` for every pattern if and only if `v` has no `*` |
| `Wildcard.ExactForPattern` | internal/validation/semantic_validator.go:1117-1143 | the matcher decides glob matching by `p` for every value if and only if `p` has no `*` |
| `Wildcard.LiteralStarFails` | internal/validation/semantic_validator.go:1117-1143 | for every pattern with a `*`, a value it should match and the matcher refuses |
| `Wildcard.TrapSprings` | internal/validation/semantic_validator.go:1117-1143 | for every value with a `*`, a pattern that should match it and is refused |
| `Sse.ParseSSEFromBytes` | internal/transport/sse_decoder.go:556-640 | the batch parser computes the events of the bytes' lines |
| `Sse.ParseLines` | internal/transport/sse_decoder.go:564-632 | its loop, line by line, from any pending fields |
| `Sse.BlockReads` | internal/transport/sse_decoder.go:94-177 | any lines and then a blank one, in either parser: one event with the last name, the last identifier without NUL, the last numeric retry and all data lines in order, if there is data, a name or an identifier; else an empty event from the batch parser alone, and none for comments |
| `Sse.BlockAtEnd` | internal/transport/sse_decoder.go:566-632 | the same where the stream ends with a field line |
| `Sse.FieldReads` | internal/transport/sse_decoder.go:136-147 | the name and value of a field with a space after its colon, without one, or with no colon |
| `Sse.JoinThenSplit` | internal/transport/sse_decoder.go:112-114 | joined data cut at its newlines is the data lines, in order |
| `Sse.ValidEventIdIff` | internal/transport/sse_decoder.go:26-32 | an identifier is well formed if and only if it is `evt_` and one or more of 0-9 and a-f |
| `Sse.SSEDecoder.ReadEvent` | internal/transport/sse_decoder.go:94-177 | one call returns the next event of the stream, its end, the error after `Close`, or a stall, which forgets what its lines had begun; it takes just those lines off the channel and remembers the id only of an event returned and only if well formed |
| `Sse.NextEvent` | internal/transport/sse_decoder.go:102-176 | the loop of a call: the events still to come are the one returned and those of the lines left, or those of the lines left after what a stall forgot |
| `Sse.SSEDecoder.Remember` | internal/transport/sse_decoder.go:115-120 | the last identifier changes exactly when the new one is well formed |
| `Sse.SSEDecoder.constructor` | internal/transport/sse_decoder.go:56-71 | a decoder starts at the first line with no field pending |
| `Sse.ParsersAgree` | internal/transport/sse_decoder.go:94-177 | on any bytes both parsers return the same events if and only if no block is hollow (fields, and nothing to dispatch) |
| `Sse.NeverFewer` | internal/transport/sse_decoder.go:556-640 | the batch parser never returns fewer events than the streaming one |
| `Sse.MoreWhenHollow` | internal/transport/sse_decoder.go:556-640 | on a hollow block it returns strictly more |
| `Sse.FrameParses` | internal/controlplane/api/handlers.go:631-651 | any one frame without newlines is read, by either parser, as what it says, minus a trailing carriage return, whatever follows |
| `Sse.RoundTrip` | internal/controlplane/api/handlers.go:631-651 | every interleaving of clean run events, messages and keepalives is read back exactly, by either parser |
| `Sse.RoundTripIffClean` | internal/controlplane/api/handlers.go:631-651 | a stream of any frames is read back, by either parser, if and only if every frame is clean: no newline, no trailing carriage return, no NUL in the id |
| `Sse.IdsAreClean` | internal/transport/sse_decoder.go:556-640 | an id that is read, by either parser, never holds a newline or a NUL, on any input |
| `Sse.BrokenDataShrinks` | internal/transport/sse_decoder.go:556-640 | a payload with a newline comes back shorter, in either parser, whatever it contains and whatever follows |
| `TelemetryQueue.BoundedQueue.constructor` | internal/telemetry/queue.go:28-38 | an empty, open queue |
| `TelemetryQueue.BoundedQueue.Enqueue` | internal/telemetry/queue.go:43-97 | the queue and the answer are those of `Enqueued` and `Refused`: shed tier 2, then tier 1, never tier 0 |
| `TelemetryQueue.BoundedQueue.ShedTier2Locked` | internal/telemetry/queue.go:101-111 | the first tier 2 record goes, if there is one |
| `TelemetryQueue.BoundedQueue.ShedTier1Locked` | internal/telemetry/queue.go:113-123 | the first tier 1 record goes, if there is one |
| `TelemetryQueue.BoundedQueue.TryDequeueBatch` | internal/telemetry/queue.go:180-209 | the oldest records, up to the limit, in order |
| `TelemetryQueue.BoundedQueue.Close` | internal/telemetry/queue.go:241-244 | only the flag changes |
| `TelemetryQueue.RunsConserve` | internal/telemetry/queue.go:43-209 | over every run: accepted = handed out + queued + shed, order kept, and lifecycle records never shed |
| `TelemetryQueue.QueueWithinCapacity` | internal/telemetry/queue.go:43-97 | sheddable records stay within capacity over every run of known tiers |
| `TelemetryQueue.UnknownTierOverflows` | internal/telemetry/queue.go:62-92 | a full queue without verbose records overflows if and only if the record's tier is unknown |
| `TelemetryQueue.BoundedIffKnown` | internal/telemetry/queue.go:43-97 | every run from empty over a set of tiers stays within capacity if and only if all of them are known |
| `TelemetryQueue.Priority` | internal/telemetry/queue.go:62-92 | tier 1 is lost only at capacity with no verbose record left; a lifecycle record is never refused |
| `TelemetryQueue.RoomForAll` | internal/telemetry/queue.go:43-97 | while there are fewer records than the capacity, a record of any tier joins the end and nothing is dropped |
| `TelemetryQueue.VerboseMakesRoom` | internal/telemetry/queue.go:62-72 | at capacity the first tier 2 record makes room for any record but tier 0, and is counted |
| `TelemetryQueue.NoVerboseLeft` | internal/telemetry/queue.go:74-92 | at capacity without one: tier 2 is refused and counted, tier 1 replaces the first tier 1 record or is refused and counted, any other is appended |
| `TelemetryQueue.LifecycleAlwaysTaken` | internal/telemetry/queue.go:43-60 | a tier 0 record joins any open queue; a closed queue takes and drops nothing |
| `TelemetryQueue.CountersExact` | internal/telemetry/queue.go:43-209 | over every run the counters are the numbers accepted, handed out, and shed or refused |
| `RateLimit.RateLimiter.constructor` | internal/vu/rate_limiter.go:20-44 | a full bucket of the target's burst, or a disabled limiter |
| `RateLimit.RateLimiter.Refill` | internal/vu/rate_limiter.go:107-116 | tokens earned since the last refill, capped |
| `RateLimit.RateLimiter.TryAcquire` | internal/vu/rate_limiter.go:86-105 | one token taken, or refused; always granted when disabled |
| `RateLimit.RateLimiter.UpdateTargetRPS` | internal/vu/rate_limiter.go:133-159 | the new rate and cap; tokens cut to the cap |
| `RateLimit.WindowBound` | internal/vu/rate_limiter.go:86-159 | in any window of any run the attempts that succeed are at most the largest burst plus the highest rate times its length, and those made while disabled; retargeting included |
| `RateLimit.RunsStayValid` | internal/vu/rate_limiter.go:86-159 | tokens stay between zero and the cap over every run |
| `RateLimit.BurstIsGranted` | internal/vu/rate_limiter.go:86-105 | `n` tokens really give `n` grants at one instant |
| `RateLimit.WaitingGrants` | internal/vu/rate_limiter.go:86-116 | after the time of one token an attempt is granted, however empty the bucket was |
| `RateLimit.PacedNeverRefused` | internal/vu/rate_limiter.go:86-116 | attempts no closer together than that are all granted |
| `RateLimit.KeenConserves` | internal/vu/rate_limiter.go:86-116 | for attempts that leave no room for waste, grants and tokens left are exactly the tokens there were and those earned |
| `RateLimit.KeenGranted` | internal/vu/rate_limiter.go:86-116 | so the grants of a window are at least the rate times its length, but for what the bucket holds |
| `RateLimit.BurstIs` | internal/vu/rate_limiter.go:20-44 | a bucket holds one second of its target, at least one token and at most ten thousand, and starts full |
| `RateLimit.RetargetIs` | internal/vu/rate_limiter.go:133-159 | a new target keeps the tokens up to its burst; one of zero or less only disables |
| `ClientLimit.ClientLimiter.constructor` | internal/controlplane/api/ratelimit.go:99-108 | no clients |
| `ClientLimit.ClientLimiter.AllowKey` | internal/controlplane/api/ratelimit.go:115-143 | clean up, make room, find or make the bucket, take: buckets and answer are those of `Served` and `Admits`, the client evicted being one seen least recently; always granted, and nothing changed, when disabled |
| `ClientLimit.ClientLimiter.EnsureBucket` | internal/controlplane/api/ratelimit.go:129-139 | a missing client gets a full bucket; at the limit the oldest client goes, and only then |
| `ClientLimit.ClientLimiter.TakeFor` | internal/controlplane/api/ratelimit.go:141-142 | the client, seen now, takes from its old bucket or from the full one just made |
| `ClientLimit.ClientLimiter.Take` | internal/controlplane/api/ratelimit.go:63-84 | the client's bucket is refilled and a token taken if there is one |
| `ClientLimit.ClientLimiter.CleanupLocked` | internal/controlplane/api/ratelimit.go:145-165 | once an interval, exactly the buckets idle longer than the TTL go, defaults for both included |
| `ClientLimit.ClientLimiter.DropStale` | internal/controlplane/api/ratelimit.go:160-164 | the loop: exactly the buckets last seen before the cutoff go, in any order |
| `ClientLimit.ClientLimiter.EvictOldestLocked` | internal/controlplane/api/ratelimit.go:167-182 | a client seen least recently goes |
| `ClientLimit.ClientWindowBound` | internal/controlplane/api/ratelimit.go:63-182 | in any window of any run a client is admitted at most the burst once per bucket it has or is given, plus the rate times the window |
| `ClientLimit.SteadyNeverBreaks` | internal/controlplane/api/ratelimit.go:63-182 | when a bucket refills before it can be forgotten and there is room for all clients, every window of every run admits a client at most one burst plus the rate times its length |
| `ClientLimit.ForgottenTooSoon` | internal/controlplane/api/ratelimit.go:145-165 | when it does not refill in time, a run in which a client spends its burst, is forgotten by a cleanup and spends another |
| `ClientLimit.PushedOut` | internal/controlplane/api/ratelimit.go:129-139 | with more clients than MaxClients, a run in which a client is evicted and gets one burst more than allowed at one moment |
| `ClientLimit.BoundedIff` | internal/controlplane/api/ratelimit.go:63-182 | for any configuration, clients and delay between a call's arrival and its turn: one burst plus rate times length bounds all windows of all runs if and only if the burst is not positive, or rate * (TTL + 1 - delay) >= burst and the clients fit in MaxClients |
| `ClientLimit.SpacedAlwaysAdmitted` | internal/controlplane/api/ratelimit.go:63-182 | a client whose calls are at least the time of one token apart is always admitted, whoever else calls and whatever is evicted or cleaned up |
| `ClientLimit.CleanupGoesBy` | internal/controlplane/api/ratelimit.go:145-165 | before the interval is over nothing goes; then exactly the buckets idle longer than the TTL, the rest unchanged |
| `GapHistogram.SwapElements` | internal/transport/sse_decoder.go:476-487 | two elements change places |
| `GapHistogram.InsertionSort` | internal/transport/sse_decoder.go:456-466 | the array becomes `InsertionSorted` of itself |
| `GapHistogram.Partition` | internal/transport/sse_decoder.go:476-487 | the array and pivot index are those of `Partitioned` |
| `GapHistogram.Quicksort` | internal/transport/sse_decoder.go:468-474 | the array becomes `Quicksorted` of itself |
| `GapHistogram.Sort` | internal/transport/sse_decoder.go:447-454 | on both paths: sorted, and a permutation |
| `GapHistogram.InsertionSorts` | internal/transport/sse_decoder.go:456-466 | insertion sort yields a sorted permutation |
| `GapHistogram.PartitionCorrect` | internal/transport/sse_decoder.go:476-487 | partitioning splits the range around the pivot, permutes it and touches nothing else |
| `GapHistogram.QuicksortSorts` | internal/transport/sse_decoder.go:468-487 | quicksort yields the range sorted, permuted, and the rest untouched |
| `GapHistogram.PercentileMonotone` | internal/transport/sse_decoder.go:489-506 | on sorted data a higher percentile is never a smaller value, interpolation included |
| `GapHistogram.PercentileBounds` | internal/transport/sse_decoder.go:489-506 | a percentile lies between the first and last value |
| `GapHistogram.PercentileAtRank` | internal/transport/sse_decoder.go:489-506 | where p (n - 1) = 100 k the percentile is the value of rank k |
| `GapHistogram.PercentileLast` | internal/transport/sse_decoder.go:489-506 | the hundredth is the last value |
| `GapHistogram.PercentileBetweenRanks` | internal/transport/sse_decoder.go:489-506 | between two ranks it lies between their values in proportion, rounded down |
| `GapHistogram.EventGapTracker.constructor` | internal/transport/sse_decoder.go:380-385 | the fields before any gap |
| `GapHistogram.EventGapTracker.RecordGap` | internal/transport/sse_decoder.go:387-415 | the fields become those of `Recorded`, so after any gaps they are those of `RecordedAll` |
| `GapHistogram.EventGapTracker.CountInBar` | internal/transport/sse_decoder.go:399-414 | the gap's bar, and only it, counts one more |
| `GapHistogram.EventGapTracker.BuildHistogram` | internal/transport/sse_decoder.go:417-445 | after any gaps: nothing if and only if there were none; else the percentiles of the sorted sample, in order and below the maximum, the mean and bars of all gaps, and the two extremes exactly when the fields hold them |
| `GapHistogram.RecordedIs` | internal/transport/sse_decoder.go:387-415 | after any gaps at all: count, sum, bars and sample are those of all gaps, those past the 1000 sampled included, and the extremes are the running ones |
| `GapHistogram.RecordedMinIff` | internal/transport/sse_decoder.go:394-396 | after any gaps the minimum is right if and only if one is below -1, the mark for none, or none is -1, or the last is |
| `GapHistogram.MinusOneForgotten` | internal/transport/sse_decoder.go:394-396 | gaps of -1 and 5 leave a minimum of 5 |
| `Extremes.LeastExactIff` | internal/transport/sse_decoder.go:394-396 | a running minimum with a mark for none is right if and only if an element is below the mark, or none equals it, or the last does |
| `GapHistogram.RecordedMaxIff` | internal/transport/sse_decoder.go:397-399 | after any gaps the maximum, which starts at zero, is right if and only if one is not negative |
| `GapHistogram.HistogramFaithful` | internal/transport/sse_decoder.go:417-445 | what the histogram of any gaps says: bars that sum to their number, their mean, percentiles in order, and when the extremes are theirs |
| `GapHistogram.BarsCumulate` | internal/transport/sse_decoder.go:399-414 | the bars summed from the first are the numbers of gaps below 10, 50, 100, 500 and 1000 |
| `GapHistogram.MonotonicFaithful` | internal/transport/sse_decoder.go:417-445 | for gaps of a monotonic clock both extremes are right and min <= P50 <= P95 <= P99 <= max, min <= mean <= max |
| `TelemetryShipper.Shipper.constructor` | internal/worker/telemetry_shipper.go:51-68 | the initial state |
| `TelemetryShipper.Shipper.Ship` | internal/worker/telemetry_shipper.go:70-93 | when nothing comes between its steps: accepted into the buffer unless closed or full |
| `TelemetryShipper.Shipper.TestClosed` | internal/worker/telemetry_shipper.go:76-81 | with the lock held, a closed shipper drops the item and an open one goes on to send |
| `TelemetryShipper.Shipper.SendItem` | internal/worker/telemetry_shipper.go:83-92 | the item joins the buffer unless that is full; the channel is open |
| `TelemetryShipper.Shipper.CloseBuffer` | internal/worker/telemetry_shipper.go:191-201 | the channel is closed while nobody sends |
| `TelemetryShipper.Shipper.ReceiveItem` | internal/worker/telemetry_shipper.go:132-143 | one item joins its run's batch, which is posted when it reaches 100 |
| `TelemetryShipper.Shipper.FlushAll` | internal/worker/telemetry_shipper.go:100-107 | every open batch is posted, in the map's order, and none is left open |
| `TelemetryShipper.ShipperSafe` | internal/worker/telemetry_shipper.go:70-201 | over every interleaving: for each run, posted then open then buffered items are the accepted ones in order; batches hold 1 to 100; a send finds the channel open, whatever happened since its test |
| `TelemetryShipper.DroppedOnlyWhen` | internal/worker/telemetry_shipper.go:70-93 | an item is dropped and counted if and only if the shipper is closed at its test or the buffer holds ten thousand at its send; else it is accepted behind all others |
| `TelemetryShipper.PostsFullBatches` | internal/worker/telemetry_shipper.go:138-143 | receiving posts a batch, all of it, if and only if it makes it a hundred |
| `TelemetryShipper.ExitViaCloseShipsAll` | internal/worker/telemetry_shipper.go:130-136 | gone through the closed channel, the goroutine has posted everything accepted |
| `TelemetryShipper.NothingAfterExit` | internal/worker/telemetry_shipper.go:95-153 | after exit nothing more is posted |
| `TelemetryShipper.PostedAllIffBufferEmpty` | internal/worker/telemetry_shipper.go:95-201 | after exit everything accepted so far was posted if and only if the buffer is empty |
| `TelemetryShipper.PostedIffBeforeFinish` | internal/worker/telemetry_shipper.go:95-153 | over every run: what is posted in the end is, for each run and in order, what was accepted before the last flush |
| `TelemetryShipper.FinishLosesNothingIff` | internal/worker/telemetry_shipper.go:70-153 | in every continuation of the last flush everything accepted is posted if and only if by then the shipper was closed and no call was between its test and its send |
| `TelemetryShipper.ClosedAndStillLoses` | internal/worker/telemetry_shipper.go:70-201 | a run closed before its last flush that loses an item, its call having passed the test before the flag was set |
| `TelemetryShipper.CancelLeavesOpen` | internal/worker/telemetry_shipper.go:148-150 | cancellation ends the goroutine with the shipper still accepting |
| `TelemetryShipper.StrandedAfterCancel` | internal/worker/telemetry_shipper.go:70-153 | an item sent after exit leaves something unposted, whatever happens later |
| `Assignments.Server.constructor` | internal/controlplane/api/server.go:61-70 | no assignments anywhere |
| `Assignments.Server.AddAssignmentLocked` | internal/controlplane/api/server.go:121-140 | appended to the worker's queue, the oldest dropped beyond the limit |
| `Assignments.Server.GetAssignmentsForWorker` | internal/controlplane/api/worker_handlers.go:443-468 | the whole queue is delivered and waits for acknowledgement, stamped with the time |
| `Assignments.Server.AckAssignmentsForWorker` | internal/controlplane/api/worker_handlers.go:470-509 | exactly the acknowledged deliveries go, and their number is returned |
| `Assignments.Server.RequeueExpiredPendingAcks` | internal/controlplane/api/server.go:142-177 | for every worker, expired deliveries go back to the queue and the others stay; the number returned is the sum over the workers; nothing without a timeout |
| `Assignments.Server.RequeueWorker` | internal/controlplane/api/server.go:142-177 | the same for one worker, in the order of delivery |
| `Assignments.CompactUnacked` | internal/controlplane/api/worker_handlers.go:494-507 | compacting in place leaves the unacknowledged deliveries, in order, at the front |
| `Assignments.SplitByAck` | internal/controlplane/api/worker_handlers.go:470-509 | acknowledged and kept deliveries are together all of them, the first exactly those named |
| `Assignments.AssignmentExecutor.constructor` | internal/worker/assignment_executor.go:41-49 | nothing running |
| `Assignments.AssignmentExecutor.Execute` | internal/worker/assignment_executor.go:53-96 | launched, and recorded under its run, if and only if its lease is not active and its range not empty; skipped if active, refused if empty |
| `Assignments.AssignmentExecutor.CleanupAssignment` | internal/worker/assignment_executor.go:287-299 | exactly that lease goes, active or not; the index by run stays right if and only if the lease, when active, is of the run named |
| `Assignments.AssignmentExecutor.StopRun` | internal/worker/assignment_executor.go:304-331 | exactly the assignments of that run are cancelled, and marked when the stop is immediate; they stay recorded until their goroutines clean up |
| `Assignments.AssignmentExecutor.Collect` | internal/worker/assignment_executor.go:304-318 | the loop over the index finds exactly the active assignments of the run |
| `Assignments.ProtocolSafe` | cmd/worker/main.go:234-330 | over every interleaving of adds, polls, executions, acknowledgements lost, late or repeated, and requeues: assignments are conserved, no lease runs twice at once, nothing is acknowledged that was not launched, and the queue stays within its limit |
| `Assignments.QueueBounded` | internal/controlplane/api/server.go:121-140 | an add, and a sweep that requeues anything, leave the queue within the limit |
| `Assignments.AddKeepsNewest` | internal/controlplane/api/server.go:121-140 | the queue after an add is the newest of the old queue and the new assignment, up to the limit; all of them while there is room |
| `Assignments.SweepExact` | internal/controlplane/api/server.go:142-177 | a sweep adds exactly the deliveries older than the timeout, in order, keeps the newest of the queue up to the limit, and leaves the others delivered |
| `Assignments.DropsOnlyOverLimit` | internal/controlplane/api/server.go:121-177 | over every run an add or requeue drops exactly as many as are over the limit, and no other step drops any |
| `Assignments.RequeueUndoesPoll` | internal/controlplane/api/server.go:142-177 | what was delivered at one time and swept at another is pending again, in order, if and only if the timeout has passed |
| `Assignments.LaunchesIff` | internal/worker/assignment_executor.go:53-96 | an assignment is launched if and only if its lease is not active and its range not empty, and acknowledged if launched or active |
| `Assignments.LeaseSet` | internal/controlplane/api/worker_handlers.go:475-481 | the leases named, empty ones left out |
| `Assignments.Settle` | internal/controlplane/api/worker_handlers.go:494-508 | the deliveries left and the number acknowledged |
| `Assignments.LaunchesBounded` | internal/worker/assignment_executor.go:53-96 | over every run a lease is launched at most once for each time it was added and each time it was requeued |
| `Assignments.OnceUnlessRequeued` | internal/worker/assignment_executor.go:53-96 | without requeueing, a lease is launched at most as often as it was added |
| `Assignments.LostAckRerunsLease` | internal/controlplane/api/server.go:142-177 | at most once at a time is not at most once: a lost acknowledgement runs a lease again |
| `RunLifecycle.RunRecord.constructor` | internal/controlplane/runmanager/manager.go:220-276 | a created run with an empty log |
| `RunLifecycle.RunRecord.SetState` | internal/controlplane/runmanager/manager.go:342-377 | the state moves, with its event logged or lost |
| `RunLifecycle.RunRecord.SetStateLogLater` | internal/controlplane/runmanager/stages.go:427-549 | the state moves and the event is owed until after the lock |
| `RunLifecycle.RunRecord.InitDrainCancel` | internal/controlplane/runmanager/worker_failure.go:118-125 | a drain channel is made once |
| `RunLifecycle.RunRecord.CloseDrainCancel` | internal/controlplane/runmanager/manager.go:575-578 | the current drain channel is closed and forgotten |
| `RunLifecycle.RunRecord.CommitStart` | internal/controlplane/runmanager/manager.go:342-377 | only a run still created starts |
| `RunLifecycle.RunRecord.TransitionToFailedFromCreated` | internal/controlplane/runmanager/manager.go:394-423 | only a run still created fails |
| `RunLifecycle.RunRecord.EnterStopping` | internal/controlplane/runmanager/manager.go:431-525 | state, reason, drain channel and finalizer change together |
| `RunLifecycle.RunRecord.RequestStopWithReason` | internal/controlplane/runmanager/manager.go:431-525 | stops a run that may stop, repeats quietly, refuses a terminal one |
| `RunLifecycle.RunRecord.EmergencyStop` | internal/controlplane/runmanager/manager.go:529-634 | stops, or cuts a drain short, and records the emergency |
| `RunLifecycle.RunRecord.EscalateStop` | internal/controlplane/runmanager/manager.go:546-580 | the part for a run already stopping |
| `RunLifecycle.RunRecord.HandleWorkerCapacityLost` | internal/controlplane/runmanager/worker_failure.go:70-116 | drain cut short when stopping; a running run stops in preflight, and under every policy but best_effort and a replace_if_possible that found a replacement; nothing else changes |
| `RunLifecycle.RunRecord.TransitionToBaseline` | internal/controlplane/runmanager/stages.go:427-549 | preflight passes through to baseline |
| `RunLifecycle.RunRecord.TransitionToNextStage` | internal/controlplane/runmanager/stages.go:552-832 | one stage to the next, only from the state expected |
| `RunLifecycle.RunRecord.TransitionToCompleted` | internal/controlplane/runmanager/manager.go:706-735 | a stopping run is completed, and no other changes |
| `RunLifecycle.RunRecord.TransitionToAnalyzing` | internal/controlplane/runmanager/stages.go:835-896 | a stopping run is analysed, and any other is an error |
| `RunLifecycle.RunRecord.FinalizeRun` | internal/controlplane/runmanager/manager.go:681-704 | a run still stopping goes to completed when the manager lacks a store and to analysis when it has both |
| `RunLifecycle.RunRecord.CompleteAnalysis` | internal/controlplane/runmanager/analysis.go:194-253 | completed, or aborted after an emergency |
| `RunLifecycle.RunRecord.FailAnalysis` | internal/controlplane/runmanager/analysis.go:255-305 | failed |
| `RunLifecycle.StateMovesForward` | internal/controlplane/runmanager/state_machine.go:3-51 | every step of every operation leaves the state or raises its rank |
| `RunLifecycle.TerminalIsForever` | internal/controlplane/runmanager/state_machine.go:3-51 | a terminal state is never left, over every interleaving |
| `RunLifecycle.LifecycleSafe` | internal/controlplane/runmanager/manager.go:279-704 | over every interleaving: one start, one finalizer, no channel closed twice, an emergency keeps its reason and completes only straight from Stopping |
| `RunLifecycle.EverySectionIsAChange` | internal/controlplane/runmanager/manager.go:342-735 | every locked section keeps the journal or is one of four changes to it |
| `RunLifecycle.LogIsChainExactlyWhen` | internal/controlplane/runmanager/stages.go:427-896 | the logged transitions are an unbroken chain from Created to the state if and only if none is owed, lost or overtaken; at most eight transitions happen |
| `RunLifecycle.StopOvertakesBaseline` | internal/controlplane/runmanager/stages.go:427-549 | a run in which a stop's event is logged before the baseline's, though nothing was lost |
| `RunLifecycle.EmergencyNeverCompletesAnalysis` | internal/controlplane/runmanager/analysis.go:194-305 | once stopped in an emergency and analysing, a run ends aborted or failed in every continuation |
| `RunLifecycle.EmergencyEnds` | internal/controlplane/runmanager/manager.go:693-703 | over every interleaving, a run stopped in an emergency that has ended is completed if and only if the manager lacks a store, and aborted or failed if and only if it has both |
| `RunLifecycle.EmergencyCompletesWithoutStores` | internal/controlplane/runmanager/manager.go:693-696 | a run from its creation that is stopped in an emergency and ends completed |
| `RunLifecycle.EmergencyCanAbort` | internal/controlplane/runmanager/analysis.go:194-253 | with both stores, every run stopping in an emergency can go on to end aborted |
| `RunLifecycle.StopTakenIff` | internal/controlplane/runmanager/manager.go:431-525 | a stop request is taken, with its reason, a drain channel and a finalizer, in the six states from preflight to soak, and changes nothing in any other |
| `RunLifecycle.EmergencyTakenIff` | internal/controlplane/runmanager/manager.go:529-634 | an emergency is taken there too; a run already stopping has its drain cut and its reason replaced |
| `RunLifecycle.LossStopsIff` | internal/controlplane/runmanager/worker_failure.go:70-116 | losing a worker stops a run under way in preflight, under any policy but the two lenient ones, and under replace_if_possible without a replacement; else nothing changes |
| `RunLifecycle.LossCutsDrain` | internal/controlplane/runmanager/worker_failure.go:79-87 | losing a worker while stopping closes the drain channel |
| `RunLifecycle.AnalysisEnds` | internal/controlplane/runmanager/analysis.go:194-253 | a completed analysis ends aborted if and only if the recorded reason is `emergency_stop` or is immediate by the actor `emergency`, and else completed |
| `RunLifecycle.OrdinaryNeverAborts` | internal/controlplane/runmanager/analysis.go:194-253 | over every interleaving without an emergency or a request that reads like one, a run is never aborted and a completed analysis completes it |
| `RunLifecycle.EveryStageThenCompleted` | internal/controlplane/runmanager/state_machine.go:3-51 | a run through every stage, stopped and analysed, that ends completed |
| `SessionPool.Sessions.constructor` | internal/session/pool.go:30-45 | an empty pool |
| `SessionPool.Sessions.SkipUnusable` | internal/session/pool.go:94-107 | expired or closed sessions at the head are closed and dropped, up to the first usable one |
| `SessionPool.Sessions.Acquire` | internal/session/pool.go:91-131 | one pass of the loop behind its closed test: a session, a reservation, or a wait |
| `SessionPool.Sessions.AcquireUnlessClosed` | internal/session/pool.go:81-131 | the test of `closed` under the mutex and then a pass: refused, changing nothing, exactly when closed |
| `SessionPool.Sessions.Add` | internal/session/pool.go:179-187 | the reservation becomes a session in use |
| `SessionPool.Sessions.CancelReservation` | internal/session/pool.go:190-198 | the reservation is given back |
| `SessionPool.Sessions.Release` | internal/session/pool.go:208-226 | back to the idle list, or closed when expired |
| `SessionPool.Sessions.Unlist` | internal/session/pool.go:235-240 | the first occurrence leaves the idle list |
| `SessionPool.Sessions.Remove` | internal/session/pool.go:228-247 | out of the pool and closed |
| `SessionPool.Sessions.RemoveSession` | internal/session/pool.go:249-271 | the same for the evictor, which leaves a session in use alone |
| `SessionPool.Sessions.CloseAll` | internal/session/pool.go:58-78 | every session idle or in use is closed and the pool emptied |
| `SessionPool.Sessions.CloseIdle` | internal/session/pool.go:61-68 | the loop over the idle list |
| `SessionPool.Sessions.CloseInUse` | internal/session/pool.go:70-76 | the loop over the sessions in use |
| `SessionPool.PoolSafe` | internal/session/pool.go:51-271 | over every interleaving of borrowers, waiters, creators, evictor and close: idle + in use + pending within the limit, no session with two borrowers or idle while held, none idle with a closed connection, and none held with one unless the pool is closed |
| `SessionPool.WaiterGetsDeadSession` | internal/session/pool.go:134-167 | for every size of pool, a run in which a borrower is told to wait by an open pool, is woken by close, reserves, creates and is handed a closed connection |
| `SessionPool.HandedDeadIff` | internal/session/pool.go:81-187 | at every step of every run a borrower comes to hold a closed connection if and only if it is handed a session it created in a pool closed by then; sessions from the idle list or added under the lock are open |
| `SessionPool.NoConnectionLost` | internal/session/pool.go:51-271 | over every interleaving each session made is idle, in use, held, being added, or closed |
| `SessionPool.ReleasedComesBackIff` | internal/session/pool.go:208-226 | over every run a session given back goes to the end of the idle list, open, unless its time is up or it was marked, when it is closed |
| `SessionPool.IdleIsReusedIff` | internal/session/pool.go:91-115 | over every run an acquire is handed the first idle session whose time is not up if and only if there is one, and reserves nothing |
| `SessionPool.OpenPoolExact` | internal/session/pool.go:91-247 | over every run of an open pool, what is in use is what is held, and every reservation belongs to a borrower creating or adding |
| `ReuseMode.Mode.constructor` | internal/session/modes.go:126-139 | empty maps |
| `ReuseMode.Mode.Insert` | internal/session/modes.go:177-199 | the new session in all three maps, unless the user has one by then, which is returned |
| `ReuseMode.Mode.Unlist` | internal/session/modes.go:222-229 | the entry found through the session's identifier leaves all three maps |
| `ReuseMode.Mode.Invalidate` | internal/session/modes.go:216-238 | out of the maps, marked and closed |
| `ReuseMode.Mode.OnEviction` | internal/session/modes.go:302-320 | out of the maps and closed |
| `ReuseMode.Mode.CloseAll` | internal/session/modes.go:247-264 | every session closed and the maps emptied |
| `ReuseMode.InsertKeepsLinksIff` | internal/session/modes.go:194-199 | a new entry keeps the maps inverse if and only if its identifier is not in the table |
| `ReuseMode.TablesSafe` | internal/session/modes.go:145-320 | over every interleaving with identifiers issued once: maps inverse, timers on the sessions' domain, no closed connection in the table, every session in the table, closed, or with its connecting call |
| `ReuseMode.ReplacementStays` | internal/session/modes.go:302-320 | evicting or invalidating a stale session removes no entry but its own |
| `ReuseMode.ResumedDeadIffUnlisted` | internal/session/modes.go:160-168 | the session reused is closed if and only if it has left the table since it was looked up |
| `ReuseMode.ReusedIff` | internal/session/modes.go:145-168 | a call goes on to use its user's session if and only if its time is not up and it is neither closed nor expired |
| `ReuseMode.ConnectedIsListed` | internal/session/modes.go:177-204 | a session connected for a user without one is held and in all three maps, the others unchanged |
| `ReuseMode.ReleasedIsIdle` | internal/session/modes.go:207-214 | a session given back is idle and stays in the table |
| `ReuseMode.ClosedIffTableEmpty` | internal/session/modes.go:240-265 | after close, with no call under way now, every connection is closed if and only if the table is empty |
| `ReuseMode.SharedIdStrandsSession` | internal/session/modes.go:302-313 | with one identifier issued twice, an eviction strands an open session and leaves a closed one in the table |
| `ReuseMode.AcquireOutlivesClose` | internal/session/modes.go:172-204 | an acquire past the closed test inserts after close |
| `ReuseMode.CloseIsFinalIff` | internal/session/modes.go:145-265 | the table stays empty in every continuation of close if and only if no call was, as close took the lock, past its closed test and short of inserting |
| `ReuseMode.AllClosedAfterQuietClose` | internal/session/modes.go:240-265 | if none was, every connection is closed once the calls under way have ended |
| `EventStream.EventLog.constructor` | internal/controlplane/runmanager/event_log.go:118-123 | an empty log |
| `EventStream.EventLog.Append` | internal/controlplane/runmanager/event_log.go:128-184 | accepted if and only if all six fields are there, and else the first missing one is reported; while there is room the event is appended, with its own identifier and time if it has them; a full log drops it and is marked |
| `EventStream.EventLog.Tail` | internal/controlplane/runmanager/event_log.go:190-214 | the events from the cursor up to the limit, or the error |
| `EventStream.EventLog.FindEventIndex` | internal/controlplane/runmanager/event_log.go:243-253 | the first position of the identifier, or minus one if there is none |
| `EventStream.EventLog.StartCursor` | internal/controlplane/api/handlers.go:522-599 | behind the first event with the identifier given, by precedence of the three parameters, or the parameter's error |
| `EventStream.EventLog.Poll` | internal/controlplane/api/handlers.go:635-656 | what can be marshalled of the next hundred events is written and the cursor passes all of them |
| `EventStream.IdsDistinct` | internal/controlplane/runmanager/event_log.go:257-261 | for timestamps of one width, identifiers are equal if and only if both numbers are |
| `EventStream.IdsMatchPattern` | internal/controlplane/api/handlers.go:504-505 | every identifier made is one the endpoint accepts |
| `EventStream.PatternIff` | internal/controlplane/api/handlers.go:504-505 | an identifier is accepted if and only if it is `evt_` and one or more hexadecimal digits |
| `EventStream.EraWidth` | internal/controlplane/runmanager/event_log.go:258-260 | millisecond clocks from 2004 to 2527 have one width |
| `EventStream.CollidingTimestamps` | internal/controlplane/runmanager/event_log.go:257-261 | two timestamps of different width can collide if and only if one's digits continue the other's with a nonzero digit |
| `EventStream.IdsCollide` | internal/controlplane/runmanager/event_log.go:257-261 | such a collision |
| `EventStream.ClientSeesEachOnce` | internal/controlplane/api/handlers.go:526-657 | over every run of appends, polls, deliveries and cuts: the client has read an initial part of the readable events, each once, in order; all of them once caught up |
| `EventStream.ResumeNeverRefused` | internal/controlplane/api/handlers.go:526-551 | the identifier read last is always found, and the stream resumes right behind it |
| `EventStream.ResumeExactIff` | internal/controlplane/api/handlers.go:539-550 | resuming is exact if and only if no earlier event has the identifier |
| `EventStream.PollsReachEnd` | internal/controlplane/api/handlers.go:635-656 | after `n` ticks the cursor has advanced by a hundred each, up to the end |
| `Sorting.SortBy` | internal/controlplane/api/telemetry_store.go:155-160 | sorted by key, and a permutation |
| `TelemetryStore.TakeOperation` | internal/controlplane/api/telemetry_store.go:81-105 | span and operations after one operation, within the limit |
| `TelemetryStore.TakeOne` | internal/controlplane/api/telemetry_store.go:81-153 | the same for the log, and whether it is still in order |
| `TelemetryStore.TakeBatch` | internal/controlplane/api/telemetry_store.go:75-162 | a batch taken into a run: `Taken`, within the limits and in order of time |
| `TelemetryStore.StoreKeepsFirst` | internal/controlplane/api/telemetry_store.go:75-162 | after any batches: the first operations up to the limit in order of arrival, the same as logs in order of time, and a flag up exactly when something was left out |
| `TelemetryStore.SpanExactIff` | internal/controlplane/api/telemetry_store.go:82-87 | over any timestamps, of operations left out too: the recorded start is the earliest if and only if one is negative, or none is zero, or the last is; the end is no earlier than any, and is the latest if and only if one is not negative |
| `TelemetryStore.ZeroIsForgotten` | internal/controlplane/api/telemetry_store.go:82-87 | a start at zero is replaced by a later one, and is then not the earliest |
| `TelemetryStore.Store.constructor` | internal/controlplane/api/telemetry_store.go:64-73 | an empty store |
| `RunOrder.EvictOldest` | internal/controlplane/api/telemetry_store.go:166-178 | the oldest runs go, exactly as many as make room and none when there is room, and the others stay as they are |
| `RunOrder.EvictLoop` | internal/controlplane/api/telemetry_store.go:171-177 | the loop drops the oldest runs one by one, as many as are over |
| `TelemetryStore.Store.EvictIfNeeded` | internal/controlplane/api/telemetry_store.go:166-178 | the same on the store, which stays valid |
| `TelemetryStore.Store.GetOrCreate` | internal/controlplane/api/telemetry_store.go:182-201 | a known run changes nothing; a new one comes last in the order |
| `TelemetryStore.Store.AddTelemetryBatch` | internal/controlplane/api/telemetry_store.go:75-162 | the batch is taken into its run; the order lists exactly the stored runs, once each, within the limit; no other run goes while there is room, and the others are untouched |
| `TelemetryStore.Store.DeleteRun` | internal/controlplane/api/telemetry_store.go:283-295 | the run leaves map and order |
| `Sequences.Unlist` | internal/controlplane/api/telemetry_store.go:288-294 | the first occurrence leaves the order, and the rest keeps its order |
| `TelemetryStore.Store.QueryLogs` | internal/controlplane/api/telemetry_store.go:304-379 | the page of the filtered log asked for, a negative offset counting as zero, and the exact total; not found; or a panic exactly for a negative limit and an offset within the matches |
| `Paging.CountMatching` | internal/controlplane/api/telemetry_store.go:317-322 | the number of matches |
| `Paging.GatherOldest` | internal/controlplane/api/telemetry_store.go:336-350 | the loop forwards: the matches past the offset, until the page is full or the log ends |
| `Paging.GatherNewest` | internal/controlplane/api/telemetry_store.go:351-364 | the loop backwards: the same from the newest |
| `Paging.CollectOldestFirst` | internal/controlplane/api/telemetry_store.go:336-350 | the page of the filtered log, oldest first |
| `Paging.CollectNewestFirst` | internal/controlplane/api/telemetry_store.go:351-364 | the page of the filtered log, newest first |
| `Paging.NewestIsReverse` | internal/controlplane/api/telemetry_store.go:351-364 | newest first is the filtered log reversed |
| `Paging.MatchingExact` | internal/controlplane/api/telemetry_store.go:381-415 | the filtered log holds exactly the matching logs, as often as stored |
| `TelemetryStore.PagesMakeView` | internal/controlplane/api/telemetry_store.go:304-379 | pages at consecutive offsets are together the whole filtered log |
| `TelemetryStore.ViewOrdered` | internal/controlplane/api/telemetry_store.go:312-315 | ascending views run forwards in time, descending ones backwards |
| `TelemetryStore.OldPagesStay` | internal/controlplane/api/telemetry_store.go:338-352 | logs that arrive in order do not disturb full ascending pages |
| `TelemetryStore.PlaceFilters` | internal/controlplane/api/telemetry_store.go:381-415 | no filter lets every log through; each of stage, stage id, worker, user and session asked for lets through just the logs that have it |
| `TelemetryStore.KindFilters` | internal/controlplane/api/telemetry_store.go:381-415 | the same for operation, tool, error type, error code and token index |
| `TimeSeries.BucketSize` | internal/controlplane/api/telemetry_store.go:831-860 | a twenty-fifth of the duration, at least 100, or 5000 |
| `TimeSeries.Fill` | internal/controlplane/api/telemetry_store.go:765-788 | every bucket holds exactly its logs' counts and latencies |
| `TimeSeries.AddTo` | internal/controlplane/api/telemetry_store.go:778-787 | one log more in its bucket |
| `TimeSeries.SortedKeys` | internal/controlplane/api/telemetry_store.go:790-796 | the keys, strictly increasing |
| `TimeSeries.Percentiles` | internal/controlplane/api/telemetry_store.go:862-886 | the three ranks of the sorted latencies and the mean |
| `TimeSeries.PointFor` | internal/controlplane/api/telemetry_store.go:799-819 | the point of one bucket |
| `TimeSeries.PointCounts` | internal/controlplane/api/telemetry_store.go:765-788 | the successes and failures of a point are the numbers of logs in its stretch of time that went well and that did not |
| `TimeSeries.PointRates` | internal/controlplane/api/telemetry_store.go:799-806 | its error rate times its logs is its failures, its throughput times its seconds is its logs |
| `TimeSeries.PointRanks` | internal/controlplane/api/telemetry_store.go:862-886 | its percentiles are the latencies of rank k with 100 k <= p n < 100 (k + 1), its mean times their number is their sum |
| `TimeSeries.KeyIffInBucket` | internal/controlplane/api/telemetry_store.go:766-767 | a time falls in the bucket of a key if and only if the key is a multiple of the size and the time is less than a size past it, away from zero |
| `TimeSeries.SizeMeans` | internal/controlplane/api/telemetry_store.go:831-860 | twenty-five sizes fit in the duration and no larger ones, or the size is a hundred milliseconds |
| `TimeSeries.MetricsTimeSeries` | internal/controlplane/api/telemetry_store.go:749-822 | one point for every bucket that has a log, summarising it; at most 27, at increasing times, accounting for every log |
| `TimeSeries.SeriesSound` | internal/controlplane/api/telemetry_store.go:749-886 | for any timestamps at all: at most 27 points, strictly increasing times, counts summing to the number of logs, P50 <= P95 <= P99 |
| `TimeSeries.MeanWithin` | internal/controlplane/api/telemetry_store.go:871-876 | the mean is within any bounds of the latencies |
| `TimeSeries.BoundReached` | internal/controlplane/api/telemetry_store.go:831-860 | logs every series of which has 27 points |

## Left out

- HTTP routing, authentication, TLS, JSON encoding, OpenTelemetry and Prometheus export, the web console, the command line: no state worth a theorem here.
- The scheduler's worker registry, lease heartbeats and capacity allocation, the virtual-user engine and its think times: not modelled.
- Churn and per-request session modes: not modelled; in churn mode overlapping acquires of one user overwrite each other's entry, which would need its own accounting.
- Schema and semantic validation other than the glob matcher; report generation and comparison; the stability and tool metrics: they would add easy members.
- Blocking: condition variables, channel waits, deadlines and stall timeouts appear only as steps that may or may not happen, so nothing is claimed about progress, except that polling reaches the end of the log.
- Sessions as shared objects: their state and connection are kept in maps from session to state, so aliasing between a session and its holders is modelled by the identity of the session, not by references.
- 64-bit overflow of counters, times and sums; rounding of `float64`, which is `real` here.
- `strconv`, `strings.ToLower`, `json.Marshal` and the library sort: parameters or their documented contract.
- The network: posting a batch always counts as posted; retries are not modelled.
- ClientLimit.ClientWindowBound: counts the burst once for each bucket made, as the code gives it; `ClientLimit.BoundedIff` says when once is enough.
- ClientLimit.BoundedIff: bursts are whole numbers, as the configuration has them, and the rate is not negative; a clock that steps backwards is not covered.
- RateLimit.RateLimiter.TryAcquire: the waiting of the blocking acquire is left out; it repeats this attempt.
- RunLifecycle.RunRecord.HandleWorkerCapacityLost: whether the scheduler finds a replacement is an input; the reallocation itself is not modelled.
- RunLifecycle.EmergencyEnds: the manager's stores are set before the run is created and not changed.
- RunOrder.EvictOldest: works on the values of the two fields, which the store then assigns, not on the fields themselves.
- EventStream.ClientSeesEachOnce: the client reads whole frames and names the last identifier it read; the legacy numeric cursor is covered by `StartCursor` only.
