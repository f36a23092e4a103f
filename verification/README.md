# Kombiner: a verified model of its scheduler queues and controller

Kombiner takes placement requests (lists of pod-to-node bindings) from several schedulers
at once and serves them one at a time. Each scheduler has a queue; an iterator reads the
queues, either round robin with a quota per weight or at random by weight, and hands the
requests to a controller that binds pods and writes a status. This project models that
path in Dafny and proves what it promises.

`dafny verify dfyconfig.toml` checks everything.

## How it is laid out

The code that updates things in place is modelled in place, and each method is specified by
a function whose own properties are proved:

- `PriorityQueue.dfy`, `RoundRobin.dfy`, `Uniform.dfy`, `Config.dfy`, `Status.dfy`,
  `Controller.dfy`: the heap, the two readers, configuration, status and controller, as
  classes, methods and the functions they compute. `Readers.dfy` is what the readers share.
- `Quota.dfy`, `Float.dfy`, `CodeQuota.dfy`: the quota in exact arithmetic, binary64
  arithmetic, and the quota as the code computes it from any weights.
  `Int64.dfy`: wrap-around and the conversion of unsigned to signed values.
- `Iterator.dfy`: producers, context and iterator as an interleaved step system. Taking a
  queue's lock and inserting, signalling, unlocking, looking at one queue, choosing, popping,
  delivering, sleeping, waking and cancelling are separate steps, so pushes fall anywhere
  between the `Len` and `Pop` calls of a read. Either reader can be plugged in.
- `Safety.dfy`, `Cursor.dfy`: what holds in every reachable state. `Progress.dfy`: reads end,
  the iterator can move, shutdown is bounded. `Wakeup.dfy`: it wakes and works no more than it is
  given to do. `Waiting.dfy`, `Starvation.dfy`, `Delivery.dfy`,
  `Latency.dfy`, `Fairness.dfy`: the bounds the round-robin reader gives. `Panic.dfy`:
  what becomes of weights that are too large. `Priority.dfy`, `HeapOrder.dfy`: when order by
  creation time, and the order the heap hands over, is order by priority.
- `Placement.dfy`: controller, stale pod cache, API server and outside binders as a step system.
- `Types.dfy`, `Sums.dfy`, `Bags.dfy`: values and arithmetic used by the rest.

A configuration is valid if it passes the code's own validation and its weights are such
that it works: for the round-robin reader, that the quotas the code computes are positive; for
the uniform reader, that the weights add up to less than 2^63. `Panic.dfy` and `CodeQuota.dfy`
show that these conditions are exact, and `Fairness.SmallWeightsAreValid` that weights below
2^48 meet the first. What Go makes of a float too large for an int is a parameter.

The layers build on each other: admission bounds the size of a request, size bounds the
overshoot of a counter, overshoot and quota give fairness, and heap order with the waiting
bound of a queue gives the delivery bound of a request. `Progress.QuietReadServesTurn` ties
the step system to the sequential reader.

Weights and sizes are 64-bit unsigned integers in the source (`uint`); they are `nat` here,
and conversions to signed integers, sums and differences that may wrap are written out. The
results of `rand.Intn`, the answers of the pod cache and of the API server, and whether a
status update succeeds are parameters. A creation time does not change while a request is queued.
`container/heap` is written out from its definition over `Len/Less/Swap/Push/Pop`.

## Where code and documentation differ

The model follows the code.

- `pkg/apis/kombiner/v1alpha1/types.go:82-85` promises that a higher `Priority` is served
  first; the queues compare creation times only (`pkg/queue/placement-request.go:38-40`).
  `HeapOrders.HeapServesByPriorityIff` says exactly when that comes to the same, and
  `Priorities.UrgentServedLast` gives a queue for which it does not.
- `pkg/controller/controller.go:170-177` says a missing queue is created; the code rejects
  the request. `Config.AdmissionIsExact` says exactly which requests reach a queue.
- The repository's README describes an `AllOrNothing` policy; `Status.ValidateRequest` accepts
  exactly the lenient requests that have bindings.
- `pkg/queue/round-robin.go:112-118` promises every queue at least `MinimumBindings`. That is
  kept, in every order of the queues, exactly if all weights are less than 2^63 apart and every
  quota fits an int (`CodeQuotas.MinimumKeptIff`, `CodeQuotas.QuotaFitsIff`).
  `CodeQuotas.FarApartWeights` and `CodeQuotas.HeavyQuotaOverflows` give weights for which it
  is not. A queue whose quota does not fit may never be served (`Panics.ServableIff`).
- The quotas are meant as ceilings of ten times the weight ratio; computed in binary64 they
  are, for all weights below 2^48, and `Floats.LargerWeightsRoundDown` shows two weights
  below 2^49 for which they are not.
- `pkg/queue/uniform.go:57-59` says that no panic happens in `next`. The one written there is
  never reached, but `rand.Intn` panics if the 64-bit total is not positive
  (`Uniform.DrawPanicsIff`), for instance with two queues of weight 2^62
  (`Uniform.TwoHeavyQueuesPanic`). Some run panics exactly if the weights add up to 2^63 or more
  (`Panics.UniformPanicsIff`), and where the total is positive the draw follows the weights
  exactly if they add up to less (`Uniform.DrawIsProportionalIff`).
- A size limit of 2^63 or more becomes negative and shuts its queue (`Config.AdmissionIsExact`).
- A pod is looked up by name alone, so a Success can be recorded for a UID that no pod has
  (`Placement.UnneededBindingIgnoresUID`). A Success is about the pod of its UID exactly if the
  cache shows that UID (`Placement.SuccessIsSamePodIff`; over whole runs,
  `Placement.PlacementIsSound`).

## Model

| member | source | states |
|---|---|---|
| `Starvation.NoQueueStarves` | pkg/queue/round-robin.go:48-110 | for every configuration whose quotas, as the code computes them, are positive, and every history of pushes of requests with at least one binding: once queue j has something to send, at most the sum of the other queues' quotas is sent before its next request, whatever is pushed meanwhile and however often the reader is created anew |
| `Starvation.OnlyEmptyRequestsDelay` | pkg/queue/round-robin.go:67-70 | the same with no condition on sizes: at most one round of the other queues, plus the requests without bindings that were sent |
| `Starvation.NoStarvation` | pkg/queue/iterator.go:63-72 | the same from any state with the invariant, with the sharper bound of what the other queues may still use before the cursor comes round |
| `Starvation.StepsLowerBeforeNext` | pkg/queue/round-robin.go:67-76 | until queue j is served, every send of a request with bindings lowers the number of requests that may go before it, and no step raises it |
| `Starvation.StepsLowerBefore` | pkg/queue/round-robin.go:56-76 | no step other than popping j raises the bound on requests sent before j |
| `Starvation.BeforeIsBounded` | pkg/queue/round-robin.go:48-110 | that bound is never more than one round of the other queues |
| `Starvation.NothingGoesFree` | pkg/apis/kombiner/v1alpha1/types.go:101-102 | if every pushed request has a binding, none is sent without using up quota |
| `Starvation.EmptyRequestsStarve` | pkg/apis/kombiner/v1alpha1/types.go:101-102 | why a binding is needed: for every n there is a reachable state in which a request waits in another queue while n requests without bindings are sent |
| `Starvation.EmptyRequestsGoFirst` | pkg/queue/round-robin.go:67-70 | from any state about to read the first queue, all its requests without bindings are sent before anything else |
| `Starvation.ServeEmptyRequest` | pkg/queue/round-robin.go:67-70 | serving a request without bindings leaves the counters where they were |
| `Delivery.EveryRequestIsDelivered` | pkg/queue/placement-request.go:38-93 | a request with m queue-mates no younger than it, whose queue only receives younger ones, is sent after at most m + (m+1)*b others, b the other queues' quotas, and one more if a request of its queue was already in flight |
| `Latency.EveryRequestIsSentInTime` | pkg/queue/iterator.go:53-81 | in steps: before cancellation such a request is sent within (m + (m+1)*b + f)*(R+2) + 2*R + 3 of the iterator's own steps (R bounds one read, f is 1 with a queue-mate in flight), counting passes in vain, wake-ups and new readers; and until then something is always bound to happen |
| `Latency.StepsLowerNextSend` | pkg/queue/iterator.go:63-79 | while a queue is not empty each step of an uncancelled iterator brings its next send closer, and no producer puts it off |
| `Latency.StepsBefore` | pkg/queue/iterator.go:67-72 | the step bound from any state with the invariant, with requests without bindings counted |
| `Delivery.DeliveryIsBounded` | pkg/queue/round-robin.go:48-78 | the same from any state with the invariant and with no condition on sizes: requests of other queues without bindings come on top |
| `Delivery.StepsLowerSentBefore` | pkg/queue/placement-request.go:79-93 | each send lowers, and no step raises, the number of requests that may be sent before x; x is not lost on the way |
| `Delivery.NoYoungerAdd` | pkg/queue/placement-request.go:38-40 | adding a request raises the count of those no younger than a time exactly when it is one of them |
| `Delivery.NoYoungerCounts` | pkg/queue/placement-request.go:38-40 | the count of queue-mates no younger than a time is the number of those listed that are not |
| `Fairness.EveryRunIsFair` | pkg/queue/round-robin.go:119-148 | for weights below 2^48, over k whole rounds in which every queue is found non-empty on its turn, w_j*B_i - w_i*B_j < k*w_j*maxSize_i for every two queues |
| `Fairness.SmallWeightsAreValid` | pkg/queue/round-robin.go:119-148 | for weights below 2^48 the quotas the code computes are positive, so that all results for valid configurations hold, and are the exact ceilings |
| `Fairness.WeightedFairness` | pkg/queue/round-robin.go:92-110 | the same from any state with the invariant and any quotas proportional to the weights |
| `Fairness.WholeRoundsServeQuota` | pkg/queue/round-robin.go:67-70 | over k whole rounds a queue is served at least k*Max and at most k*(Max + MaxSize - 1) bindings |
| `Fairness.RoundsServeQuota` | pkg/queue/round-robin.go:48-78 | over any busy run, counters at the end and bindings served differ by one quota for each round begun, within the overshoot |
| `Fairness.ValidSetupIsProportional` | pkg/queue/round-robin.go:135-143 | for weights below 2^48 the quotas lie within one lightest weight of ten times the weights |
| `Safety.ReachableStatesAreSafe` | pkg/queue/round-robin.go:48-110 | in every reachable state, with positive quotas or with weights that add up to less than 2^63 for the uniform reader: queued requests fit their queue, BindingsRead < MaximumBindings + MaxSize, there is a cursor, no panic was reached, and nothing is queued unseen |
| `Safety.InvKept` | pkg/queue/iterator.go:53-81 | every step of producers, context and iterator keeps the invariant |
| `Safety.InvHoldsInitially` | pkg/queue/iterator.go:86-105 | the invariant holds at the start |
| `Safety.InvKeptByRun` | pkg/queue/iterator.go:53-81 | so does every run |
| `Safety.NoLostWakeUp` | pkg/queue/iterator.go:76-79 | an iterator asleep with no token buffered and no producer between insert and signal has left every queue empty, for any buffer of at least one token |
| `Wakeups.TokensStep` | pkg/queue/iterator.go:39-44 | a signal adds one token unless the buffer is full, a wake-up takes one, nothing else touches them |
| `Wakeups.WakesAreSignalled` | pkg/queue/iterator.go:76-79 | over any run, wake-ups and tokens left are at most the tokens there were and the signals sent |
| `Wakeups.PushesSignalOnce` | pkg/queue/placement-request.go:61-75 | over any run every push signals exactly once |
| `Wakeups.WakesArePushes` | pkg/queue/iterator.go:35-44 | from the start, n pushes cause at most n wake-ups |
| `Wakeups.StepsTowardsSleep` | pkg/queue/iterator.go:63-79 | each step of an uncancelled iterator brings sleep closer, but for pops and wake-ups |
| `Wakeups.NoBusyWaiting` | pkg/queue/iterator.go:56-80 | over any uncancelled run the steps of the iterator are bounded by its pops and wake-ups |
| `Wakeups.WorkIsProportional` | pkg/queue/iterator.go:46-52 | from the start and before cancellation, after n pushes the iterator has taken at most (R+2) + n*(R+2) + n*(R+3) steps, R bounding one read: it does not spin |
| `Safety.NothingForgottenKept` | pkg/queue/iterator.go:39-44 | every step keeps: a non-empty queue is still to be looked at in this pass, or a token is buffered, or its producer is about to signal |
| `Safety.AllFitKept` | pkg/controller/controller.go:184-197 | every queued or popped request has its queue's scheduler name and at most MaxSize bindings |
| `Safety.CountersKept` | pkg/queue/round-robin.go:56-76 | every step keeps the overshoot bound and the hidden cursor |
| `Safety.ControlStep` | pkg/queue/round-robin.go:61-64 | with positive quotas, or draws that succeed, no step panics |
| `Panics.UniformPanicsIff` | pkg/queue/uniform.go:38-83 | with a uniform reader and any weights, some run panics if and only if the weights add up to 2^63 or more |
| `Panics.NeverServed` | pkg/queue/round-robin.go:56-65 | with a round-robin reader and any weights nothing ever panics, and only queues with a positive quota are ever popped |
| `Panics.ServableIff` | pkg/queue/round-robin.go:103-110 | a queue that admits a request is popped in some run if and only if its quota is positive; where the platform makes a quota too large for an int negative, that is so if and only if its weight, as a float, is less than 922337203685477568 times the weight the quotas are relative to |
| `Panics.FailsAsDrawn` | pkg/queue/uniform.go:60-83 | a draw of the step system panics exactly where the draw of the uniform reader does |
| `Safety.StepMovesCursor` | pkg/queue/round-robin.go:48-110 | in reachable states each step on the counters is the step of the one-cursor machine |
| `Safety.ExactlyOnce` | pkg/queue/iterator.go:67-72 | over any run: held before plus pushed = held after plus sent plus thrown away, as multisets |
| `Safety.NothingDiscardedBeforeCancel` | pkg/queue/iterator.go:68-71 | nothing is thrown away before the context is cancelled |
| `Safety.PushedIsQueuedOrSent` | pkg/queue/placement-request.go:61-93 | from the start and before cancellation: pushed = queued + in flight + sent, as multisets |
| `Safety.ValidSetupIsSane` | pkg/controller/controller.go:184-197 | under a validated configuration the controller routes a request only to the queue of its scheduler, and only if it fits |
| `Progress.ReadTerminates` | pkg/queue/round-robin.go:48-78 | whatever is pushed meanwhile, one Read ends within a fixed number of its own steps and begins at most one new round, and none unless no non-empty queue has quota left |
| `Progress.ReadStepsLowerRank` | pkg/queue/round-robin.go:72-77 | each step of a Read lowers the pair (is every non-empty queue out of quota, number of queues with quota) |
| `Progress.OthersDoNotDelay` | pkg/queue/placement-request.go:61-75 | what producers do never raises that measure |
| `Progress.NonEmptyQueueIsFound` | pkg/queue/round-robin.go:49-54 | a Read begun while some queue was non-empty never returns nil |
| `Progress.QuietReadServesTurn` | pkg/queue/round-robin.go:48-78 | without interference the small steps of a Read do exactly what the sequential Read promises: same queue, same queues left, same counters |
| `Progress.QuiescentIff` | pkg/queue/iterator.go:56-80 | neither the iterator nor a producer in the middle of a push can step if and only if no push is under way and the iterator has stopped, or sleeps without a token and uncancelled; and then nothing is queued |
| `Progress.CancelledCanStop` | pkg/queue/iterator.go:53-61 | from every cancelled state, locks held or not, some run without further pushes ends with the iterator stopped |
| `Progress.CancelledRestsStopped` | pkg/queue/iterator.go:53-61 | a run of a cancelled iterator that cannot be continued by it or by a push under way has ended stopped |
| `Progress.ShutdownIsBounded` | pkg/queue/iterator.go:56-80 | once cancelled and with no more pushes, the steps of the iterator are bounded, whatever their order, with exactly one pop per request that leaves the queues |
| `Wakeups.StopsDrained` | pkg/queue/iterator.go:67-72 | an iterator whose pass still has to look at all that is queued reads on until the queues are empty before it sleeps or stops, cancelled or not |
| `Wakeups.CancelledIff` | pkg/queue/iterator.go:57-61 | a run ends cancelled exactly if it began so or the context was cancelled on the way |
| `Progress.CancelledStepsLowerWork` | pkg/queue/iterator.go:57-79 | each step of a cancelled iterator lowers the bound on its remaining steps |
| `Progress.ClosesOnce` | pkg/queue/iterator.go:54-61 | Next is closed exactly once on the way to being stopped |
| `Progress.StoppedForGood` | pkg/queue/iterator.go:54-61 | a stopped iterator takes no step and sends nothing |
| `Waiting.WaitIsBounded` | pkg/queue/round-robin.go:103-110 | what the other queues may still use before j's turn lies between 0 and one round |
| `Waiting.WaitAfterServe` | pkg/queue/round-robin.go:67-70 | right after another queue was served it is less than one round |
| `Waiting.ServeShortensWait` | pkg/queue/round-robin.go:67-70 | serving a request with bindings of another queue shortens j's wait by at least one; one without leaves it |
| `Waiting.SkipKeepsWait` | pkg/queue/round-robin.go:72-77 | passing over an empty queue does not lengthen j's wait |
| `Waiting.NewRoundKeepsWait` | pkg/queue/round-robin.go:56-65 | a new round does not lengthen j's wait |
| `Cursor.CursorExists` | pkg/queue/round-robin.go:103-110 | the pairwise order of the counters is the same as having a cursor: full before it, untouched after it |
| `Cursor.ServeRefines` | pkg/queue/round-robin.go:67-70 | serving does to the counters what the one-cursor machine does |
| `Cursor.SkipRefines` | pkg/queue/round-robin.go:72-77 | so does passing over an empty queue |
| `Cursor.NewRoundRefines` | pkg/queue/round-robin.go:92-97 | so does starting over |
| `RoundRobin.RoundRobinReader.constructor` | pkg/queue/round-robin.go:119-148 | the quotas as the code computes them, for any weights; counters at zero, the queues in their order; ready to read exactly if all quotas are positive |
| `RoundRobin.RoundRobinReader.Extend` | pkg/queue/round-robin.go:135-143 | each queue with its quota, in binary64, rounded up and converted to an int, and its counter at zero |
| `CodeQuotas.ComputeQuotas` | pkg/queue/round-robin.go:120-143 | the quotas relative to the weight the scan finds, in binary64 and as ints, for any weights |
| `CodeQuotas.SmallWeightsAreExact` | pkg/queue/round-robin.go:135-143 | for weights below 2^48 they are the exact ceilings relative to the least weight |
| `CodeQuotas.QuotaFitsIff` | pkg/queue/round-robin.go:137-141 | the quota fits an int if and only if the weight, as a float, is less than 922337203685477568 times the lightest as a float |
| `CodeQuotas.QuotasArePositiveIff` | pkg/queue/round-robin.go:137-141 | where the conversion of larger floats is not positive, all quotas are positive if and only if all of them fit |
| `CodeQuotas.HeavyQuotaOverflows` | pkg/queue/round-robin.go:137-141 | the quota of weight 2^60 beside weight 1 does not fit |
| `CodeQuotas.FloatQuotaAtLeastTen` | pkg/queue/round-robin.go:137-138 | in binary64 a queue no lighter than the one the quotas are relative to gets at least ten, and that one exactly ten |
| `CodeQuotas.RoundedIsNearest` | pkg/queue/round-robin.go:137-138 | quotients and products are rounded to the nearest 53-bit mantissa, ties to even |
| `CodeQuotas.ToFloatIsNearest` | pkg/queue/round-robin.go:137-137 | so are weights converted to floats, which is exact below 2^53 |
| `CodeQuotas.MinimumKeptIff` | pkg/queue/round-robin.go:112-143 | every queue gets at least MinimumBindings, in every order of the queues, if and only if all weights are less than 2^63 apart and every quota fits an int |
| `CodeQuotas.FarApartWeights` | pkg/queue/round-robin.go:112-118 | of weights 2^64-1 and 1 the first passes for the lightest, and the quota of the other is at most 5, below the promised minimum |
| `RoundRobin.RoundRobinReader.Empty` | pkg/queue/round-robin.go:81-88 | true exactly when every queue is empty |
| `RoundRobin.RoundRobinReader.Next` | pkg/queue/round-robin.go:103-110 | the first queue with quota left, or -1 when there is none |
| `RoundRobin.RoundRobinReader.Reset` | pkg/queue/round-robin.go:92-97 | all counters become zero and nothing else changes |
| `RoundRobin.RoundRobinReader.Choose` | pkg/queue/round-robin.go:56-65 | next, else reset and next; the panic is unreachable |
| `RoundRobin.RoundRobinReader.TryQueue` | pkg/queue/round-robin.go:67-76 | pops an oldest request and charges its bindings, or uses up the quota of an empty queue |
| `RoundRobin.RoundRobinReader.Charge` | pkg/queue/round-robin.go:68-76 | only the counter of the one queue changes |
| `RoundRobin.RoundRobinReader.Read` | pkg/queue/round-robin.go:48-78 | the recursive Read in closed form: nil exactly when all queues are empty, and then nothing changes; otherwise the queue whose turn it is, an oldest request of it, exactly that request removed, and all counters given |
| `RoundRobin.RoundRobinReader.ReadAll` | pkg/queue/iterator.go:67-72 | reading until nil hands over exactly what was queued, each queue's share complete and oldest first |
| `RoundRobin.NextIsTurn` | pkg/queue/round-robin.go:103-110 | if the first queue with quota is non-empty it is its turn, and the counters stand as they are |
| `RoundRobin.SkipKeepsTurn` | pkg/queue/round-robin.go:72-77 | exhausting an empty queue changes neither whose turn it is nor the counters at that turn |
| `RoundRobin.ChoiceKeepsTurn` | pkg/queue/round-robin.go:56-65 | nor does starting over when no queue has quota; it leaves a queue with quota |
| `RoundRobin.ExhaustLowersCount` | pkg/queue/round-robin.go:76-77 | exhausting a queue leaves one queue fewer with quota |
| `Readers.PopFrom` | pkg/queue/round-robin.go:67-67 | popping one queue takes an oldest request of it, or nothing exactly when it is empty, and leaves all others alone |
| `Readers.PassStep` | pkg/queue/iterator.go:67-72 | one more read keeps: what came out plus what is left is what was queued, per queue and oldest first |
| `Readers.PassDone` | pkg/queue/iterator.go:67-72 | and with nothing left every queue has handed over all it held |
| `Quotas.QuotaIsCeiling` | pkg/queue/round-robin.go:137-141 | 10*w <= lightest*quota < 10*w + lightest |
| `Quotas.CeilingIsUnique` | pkg/queue/round-robin.go:138-138 | only one integer satisfies that |
| `Quotas.QuotaAtLeastMinimum` | pkg/queue/round-robin.go:26-29 | every quota is at least ten, and exactly ten for the lightest queue |
| `Quotas.QuotaIsMonotone` | pkg/queue/round-robin.go:137-138 | a heavier queue never has the smaller quota |
| `Quotas.QuotaIgnoresScale` | pkg/queue/round-robin.go:137-138 | scaling all weights by a common factor changes no quota |
| `Quotas.QuotasOf` | pkg/queue/round-robin.go:135-143 | each queue has its quota relative to the lightest, at least ten |
| `Quotas.Lightest` | pkg/queue/round-robin.go:120-125 | the scan with comparison by the sign of a 64-bit difference |
| `Quotas.SignedLessIff` | pkg/queue/round-robin.go:122-124 | that comparison is right if and only if the difference of the weights lies in [-2^63, 2^63) |
| `Quotas.LightestInAnyOrderIff` | pkg/queue/round-robin.go:120-125 | the scan finds the least weight in every order of the queues if and only if all weights are less than 2^63 apart |
| `Quotas.CodeLightestIsMin` | pkg/queue/round-robin.go:120-125 | then it finds the least weight |
| `Floats.FloatQuotaIsExact` | pkg/queue/round-robin.go:137-141 | for all weights below 2^48 the two binary64 roundings leave the ceiling what exact arithmetic gives |
| `Floats.LargerWeightsRoundDown` | pkg/queue/round-robin.go:137-138 | for two weights below 2^49 the code computes 11 where the exact ceiling is 12 |
| `Floats.RatioIsClose` | pkg/queue/round-robin.go:137-137 | the rounded quotient is within half a unit in the last place of the exact one |
| `Uniform.UniformReadIsProportional` | pkg/queue/uniform.go:38-55 | with any number of empty queues of any weight anywhere in the list, a read serves a non-empty queue with chance exactly its weight over the weight of the non-empty queues |
| `Uniform.ChanceIsAverageServed` | pkg/queue/uniform.go:38-55 | that chance is the average, over all results of the calls of rand.Intn, of whether the read serves the queue |
| `Uniform.DrawIsProportionalIff` | pkg/queue/uniform.go:60-78 | for two queues or more of any weights with a positive 64-bit total t, the code gives every queue the share weight/Sum of the draws 1..t if and only if the weights add up to less than 2^63 |
| `Uniform.DrawPanicsIff` | pkg/queue/uniform.go:66-82 | for any weights a draw panics if and only if the 64-bit total is not positive; it is rand.Intn that panics, the panic at the end of next is never reached |
| `Uniform.ResultIsServed` | pkg/queue/uniform.go:38-55 | below 2^63 the read in 64 bits is the exact one, through all eliminations, and never panics |
| `Uniform.TwoHeavyQueuesPanic` | pkg/queue/uniform.go:61-68 | two queues of weight 2^62 make every read panic |
| `Uniform.TotalIsExactIff` | pkg/queue/uniform.go:61-68 | the 64-bit total is the sum of the weights if and only if that is below 2^63, and negative from there up to 2^64 |
| `Uniform.PickIsSelect` | pkg/queue/uniform.go:73-78 | below 2^63 the scan in 64 bits finds the selected queue |
| `Uniform.DrawsPerQueue` | pkg/queue/uniform.go:60-78 | of the draws 1..total exactly weight_i select queue i |
| `Uniform.SelectionIsUnique` | pkg/queue/uniform.go:66-78 | a draw selects queue i if and only if it falls into the prefix-sum interval of i |
| `Uniform.TotalWeight` | pkg/queue/uniform.go:61-64 | the loop leaves the sum of all weights wrapped to 64 bits |
| `Uniform.Scan` | pkg/queue/uniform.go:70-82 | the loop finds the first queue whose wrapped cumulated weight reaches the draw |
| `Uniform.PickFound` | pkg/queue/uniform.go:74-82 | for a draw within the 64-bit total there always is one, whatever the weights |
| `Uniform.ServedIsNonEmpty` | pkg/queue/uniform.go:43-53 | whatever the random numbers, the queue served is non-empty |
| `Uniform.NothingServedIfAllEmpty` | pkg/queue/uniform.go:43-54 | nothing is served if and only if every queue is empty |
| `Uniform.UniformReader.constructor` | pkg/queue/uniform.go:88-92 | the reader holds the configurations as given |
| `Uniform.UniformReader.Read` | pkg/queue/uniform.go:38-55 | an oldest request of exactly the queue the draws lead to in 64-bit arithmetic, only that request removed; nil and no change if they lead to none; a panic and no change exactly if a draw panics |
| `Uniform.UniformReader.DrawUntilFound` | pkg/queue/uniform.go:42-54 | the loop of draws and deletions follows the draws to their queue |
| `Uniform.UniformReader.TryOne` | pkg/queue/uniform.go:44-52 | one draw: a request of the drawn queue, or the same question for the list without it |
| `Uniform.UniformReader.Next` | pkg/queue/uniform.go:60-83 | the position drawn among those left, or the panic of rand.Intn or of the scan |
| `HeapOrders.HeapServesByPriorityIff` | pkg/apis/kombiner/v1alpha1/types.go:82-85 | the heap hands over its requests by priority, in whatever order they were pushed, if and only if no request has a lower priority than one that was not created before it |
| `HeapOrders.PushedToPrecede` | pkg/queue/prioritized.go:47-51 | of two requests either comes out of the heap first for some push order, unless it was created later |
| `HeapOrders.MapServed` | pkg/queue/prioritized.go:47-51 | the heap looks at creation times only: replacing requests by others of the same times replaces them in the output |
| `Priorities.ServedByPriorityIff` | pkg/queue/placement-request.go:38-40 | the same for all orders by creation time |
| `Priorities.UrgentServedLast` | pkg/queue/placement-request.go:38-40 | two requests that are always served in the wrong order: the more urgent one was created later |
| `PriorityQueues.RootIsOldest` | pkg/queue/prioritized.go:47-51 | in heap order no item is older than the first |
| `PriorityQueues.OldestIsFirst` | pkg/queue/prioritized.go:67-74 | so the first item is one of least creation time among all |
| `PriorityQueues.HoleMovesUp` | pkg/queue/prioritized.go:49-56 | swapping a misplaced item with its parent leaves heap order except one level further up |
| `PriorityQueues.HoleMovesDown` | pkg/queue/prioritized.go:49-56 | swapping a misplaced item with its older child leaves heap order except one level further down |
| `PriorityQueues.RootLeaves` | pkg/queue/prioritized.go:69-74 | whatever sifting did in between, cutting off the end takes out an oldest item and nothing else |
| `PriorityQueues.PriorityQueue.constructor` | pkg/queue/prioritized.go:79-83 | an empty heap |
| `PriorityQueues.PriorityQueue.Up` | pkg/queue/prioritized.go:49-56 | the loop computes SiftUp |
| `PriorityQueues.SiftUpRestores` | pkg/queue/prioritized.go:49-56 | which closes a hole above an item and keeps the multiset |
| `PriorityQueues.PriorityQueue.Down` | pkg/queue/prioritized.go:49-56 | the loop computes SiftDown |
| `PriorityQueues.SiftDownRestores` | pkg/queue/prioritized.go:49-56 | which closes a hole below an item, keeps the multiset and leaves the end alone |
| `PriorityQueues.PriorityQueue.Push` | pkg/queue/prioritized.go:59-65 | keeps heap order, adds exactly the request, and is the function HeapPush |
| `PriorityQueues.HeapPushKeeps` | pkg/queue/prioritized.go:59-65 | pushing keeps heap order and adds exactly the request |
| `PriorityQueues.PriorityQueue.Pop` | pkg/queue/prioritized.go:69-74 | keeps heap order, removes exactly the result, the result is of least creation time, and it is the function HeapPop |
| `PriorityQueues.HeapPopKeeps` | pkg/queue/prioritized.go:69-74 | popping keeps heap order and removes exactly the result, one of least creation time |
| `PriorityQueues.PlacementRequestQueue.constructor` | pkg/queue/placement-request.go:111-116 | an empty queue without handlers |
| `PriorityQueues.PlacementRequestQueue.Push` | pkg/queue/placement-request.go:61-75 | adds exactly the request, and every handler is called as often as it is registered |
| `PriorityQueues.PlacementRequestQueue.RunHandlers` | pkg/queue/placement-request.go:72-74 | every channel holds the tokens of one non-blocking send per registration |
| `PriorityQueues.PlacementRequestQueue.Pop` | pkg/queue/placement-request.go:79-93 | an oldest request, or nothing exactly when the queue is empty |
| `PriorityQueues.PlacementRequestQueue.Len` | pkg/queue/placement-request.go:104-108 | the number of queued requests |
| `PriorityQueues.PlacementRequestQueue.AddPushHandler` | pkg/queue/placement-request.go:97-101 | appends the handler |
| `PriorityQueues.SignalledTimes` | pkg/queue/iterator.go:39-44 | n sends into a buffer leave tokens + n, or as many as fit |
| `PriorityQueues.ResumeChannel.Resume` | pkg/queue/iterator.go:39-44 | exactly one more token, or none if the buffer is full |
| `Config.Validate` | pkg/queue/config.go:38-52 | no error exactly for a named queue with positive weight and size and a queue reference, and otherwise the first fault in that order |
| `Config.ValidateAll` | pkg/queue/config.go:79-98 | no error exactly for lists of valid, differently named configurations; otherwise the fault of the first configuration that has one, a repeated name before any other |
| `Config.ToMap` | pkg/queue/config.go:61-67 | each name maps to its last configuration, and every name is there |
| `Config.DistinctNamesKeepAll` | pkg/queue/config.go:61-67 | with distinct names the map holds every configuration |
| `Config.AdmissionIsExact` | pkg/controller/controller.go:178-198 | ignored exactly without a scheduler name; no queue found exactly if no configuration has the name; too large exactly if a configuration has it and the bindings exceed its limit as an int; pushed exactly if a configuration has it and allows the size (with a limit below 2^63), and then into that configuration's own queue |
| `Controller.Enqueue` | pkg/controller/controller.go:178-198 | without a scheduler name nothing happens; with an unknown one the status becomes Rejected/QueueNotFound, with too many bindings Rejected/PlacementRequestTooLarge; otherwise exactly the request is added to its queue and every handler called once per registration; every other queue and channel is unchanged |
| `Controller.Reject` | pkg/controller/controller.go:203-222 | the status becomes Rejected with the reason and keeps its entries |
| `Controller.ScheduleOne` | pkg/controller/controller.go:71-144 | status, bindings sent to the API server, and whether an update was made and failed, all given from the answers of cache and API server |
| `Controller.ProcessBinding` | pkg/controller/controller.go:96-135 | one binding: result and reason written out for each of the five cases, recorded in the first entry of the pod or a new one, every other entry unchanged; the API server asked exactly for a pod the cache holds to be unbound |
| `Controller.OutcomeIsExact` | pkg/controller/controller.go:99-134 | a binding is a Success exactly if the cache has the pod on its node, or has it unbound and the API server agrees, and otherwise a Failure; with the reason for each case |
| `Controller.EveryBindingIsProcessed` | pkg/controller/controller.go:96-137 | from an empty status a live, valid request ends up with one entry per pod of the whole spec, in order of first mention, each telling how the pod's last binding went |
| `Controller.RequestAsksForUnbound` | pkg/controller/controller.go:99-127 | the API server is asked for exactly the bindings whose pod the cache has unbound, in the order of the spec |
| `Controller.VerdictIsExact` | pkg/controller/controller.go:77-137 | a deleted request or one with a result is left alone; any other gets a result: Rejected exactly without bindings or with another policy, and then nothing is asked or recorded; else Success or Failure exactly as all or none of its entries succeeded, PartialSuccess in between |
| `Controller.SchedulingIsIdempotent` | pkg/controller/controller.go:75-80 | processing a request again, with any answers, asks for nothing and changes nothing |
| `Status.ValidateRequest` | pkg/placementrequests/v1alpha1/placementrequests.go:29-43 | no error exactly for a request with bindings and the lenient policy; missing bindings are reported first |
| `Status.SetPodBindingResult` | pkg/placementrequests/v1alpha1/placementrequests.go:62-82 | the first entry of the pod, or a new one at the end, holds the binding, the result and the reason given; every other entry, the result and the reason of the request are unchanged |
| `Status.Position` | pkg/placementrequests/v1alpha1/placementrequests.go:68-69 | the first entry of the pod, or the end when it has none |
| `Status.RecordedIsLastPerPod` | pkg/controller/controller.go:96-135 | from an empty status, whatever the duplicates and outcomes: one entry per pod UID, in the order of Pods, each with the pod's last binding, that binding's own result and its reason |
| `Status.PodsByFirstMention` | pkg/placementrequests/v1alpha1/placementrequests.go:68-81 | that order is the order of first mention in the spec |
| `Status.PodsAreMentioned` | pkg/placementrequests/v1alpha1/placementrequests.go:68-81 | the pods with an entry are exactly those of the spec |
| `Status.PodsAreDistinct` | pkg/placementrequests/v1alpha1/placementrequests.go:68-75 | no pod has two entries |
| `Status.SucceededCounts` | pkg/placementrequests/v1alpha1/placementrequests.go:92-97 | the counter is the length exactly when all succeeded, and zero exactly when none did |
| `Status.AssessResult` | pkg/placementrequests/v1alpha1/placementrequests.go:87-110 | Rejected without entries, else Success, Failure or PartialSuccess exactly as all, none or some succeeded |
| `Placement.PlacementIsSound` | pkg/controller/controller.go:96-137 | in every run, with a cache showing any past state, an API server that may refuse or lose its reply, and outside binders: each Success entry names a pod the server has on that node, and it is the pod of the entry's UID if and only if the cache showed that UID when the binding was processed (always if the API server bound it for the controller with a UID given); a Success verdict has the last binding of every pod of the spec in place |
| `Placement.SuccessIsSamePodIff` | pkg/controller/controller.go:99-107 | one binding: recorded as a Success, it is about the pod of its UID if and only if the cache holds the pod of that name under that UID |
| `Placement.ProcessIsRecorded` | pkg/controller/controller.go:99-134 | processing one binding: the server binds the pod exactly if the cache has it unbound and the server does not refuse, and the entry of the pod tells how it went, so that an accepted bind is a Success; all else is unchanged |
| `Placement.ResultIsScheduled` | pkg/controller/controller.go:71-144 | in every run a request with a result has the status ScheduleOne gives it for the answers it got |
| `Placement.LastStepIsScheduled` | pkg/controller/controller.go:88-94 | the last step of a request, verdict or rejection, gives it that status |
| `Placement.WorldSoundKept` | pkg/controller/controller.go:96-137 | every step keeps that, and that each status records exactly the outcomes so far |
| `Placement.WorldStaysSound` | pkg/controller/controller.go:96-137 | so does every run |
| `Placement.SuccessIsInPlace` | pkg/controller/controller.go:99-134 | a binding recorded as Success is in place although the cache may be stale, and is about the pod of its UID exactly if the cache shows that UID |
| `Placement.SuccessVerdictPlacesAll` | pkg/placementrequests/v1alpha1/placementrequests.go:99-103 | a Success verdict places the last binding of every pod UID of the spec |
| `Placement.UnneededBindingIgnoresUID` | pkg/controller/controller.go:104-107 | an input that fails it: a Success for a UID that no pod has, when a pod of the same name is on that node already |

## Left out

- Floats.FloatQuotaIsExact: goes one way only, for weights below 2^48; above, the quotas agree for some weights and not for others, depending on how close ten times the ratio is to an integer. Fairness, which needs the exact quotas, is stated for weights below 2^48.
- RoundRobin.RoundRobinReader.Extend: the loop of the source is written as two, one for the quotas and one for the list.
- RoundRobin.RoundRobinReader.Charge: counts bindings without 64-bit wrap-around, which it takes 2^63 bindings read in one round to reach.
- Uniform.UniformReadIsProportional: takes `rand.Intn` as uniform and the queues as not changing during one read; under concurrent pushes only safety, progress and hand-off are stated for the uniform reader.
- Starvation.NoQueueStarves: speaks of runs in which nothing is thrown away, that is before cancellation; what requests without bindings add is `Starvation.OnlyEmptyRequestsDelay`.
- Latency.EveryRequestIsSentInTime: counts the iterator's own steps; how long the scheduler of the Go runtime makes it or a producer wait is not part of the model.
- Controller.Reject: the message text and the update of the status through the API, whose failure is only logged, are left out.
- Fairness.EveryRunIsFair: speaks of whole rounds of one reader in which every queue is found non-empty on its turn; a queue that runs empty gives up the rest of its round.
- Delivery after cancellation: a popped request may be thrown away then, and `controller.Run` may receive nil from the closed channel.
- Mutexes inside the classes: the classes are sequential; locking is part of the step system of `Iterator.dfy`, where a push holds the lock from insert to unlock.
- Update of the array in place: `PriorityQueue.items` is a sequence that is reassigned, as the Go slice is, without its spare capacity.
- First-in-first-out order among equal creation times: the heap is not stable.
- A later `enqueue` of the same object rejects without looking at the status it has; that a result is permanent is stated for `ScheduleOne` only.
- Pods that are deleted, or recreated under the same name, and more than one namespace.
- The delete and poll paths of the bind plugin in `pkg/scheduler/bind-plugin.go`.
- Wiring: `NewQueueIterator`, `QueueConfigFromV1Alpha1Config`, `QueueConfigs.AddPushHandler`, event handlers, `controller.Run`, configuration files, flags, generated clients, logging, message texts and timeouts.
