# ocp-scale-utilities, modelled in Dafny

This project models the three pieces of logic in `ocp_scale_utilities` that decide what happens to a batch of OpenShift resources during a scale test. The model proves what each piece promises.

- **`ThreadedScaleResources`** (`threaded/scale.py`) is an `ExitStack` subclass.
  - On entry it deploys a batch of resources, optionally waits for a status, and records deploy times in the pytest cache.
  - On exit it deletes the batch, waits for the deletion, and records delete times.
  - Three flags (CREATE, DELETE, CLEANUP_ON_ERROR) switch these steps. A guard unwinds the whole callback stack when a guarded step raises.
  - Modelled in `scale.dfy`. The class `ThreadedScaleResources` has fields and methods that change them. Each of its methods is proved equal to a pure specification (`EnterSpec`, `ExitSpec`, `Guard`, ...) over a `State` value, and the lemmas state the properties of those specifications.
- **The fan-out helpers** (`threaded/utils.py`) run one resource call per list item on a thread pool and answer in input order.
  - Modelled in `utils.dfy` as methods with loops, proved against the pure `Run`/`FanOutSpec`.
  - The deploy helpers can push exit callbacks onto an exit stack as items finish. The order in which items finish is a parameter (`order`, any permutation of the item indices).
- **`MonitorResourceAPIServerRequests`** (`monitoring.py`) builds a Prometheus query and waits for the API server to go idle in two sampling loops. Modelled in `monitoring.dfy`.

Supporting modules:
- `cluster.dfy` models the cluster the resource handles talk to. Objects are kept by name, each with a status and a terminating mark. A fixed fault plan (`faults`) says which calls fail. A call is an operation and a name, so two identical calls always share one fate. Every call is logged in order.
- `exitstack.dfy` models the part of `contextlib.ExitStack` the code relies on: push, and last-in first-out unwinding that goes on after a callback raises.
- `wrappers.dfy` holds `Option`, `Result` and `Outcome`.

A Python exception is an `Err`/`Fail` value. Clock readings are parameters of the methods that take them. What Prometheus answers is a sequence of samples.

Where the class docstring and the code disagree, the model follows the code:
- The docstring (`threaded/scale.py:101-105`) says exit unwinds the stack in reverse creation order. The code's normal exit never calls the pushed callbacks; only the error guard does.
- When a callback raises while the guard unwinds, the exception that leaves is the last callback error, not the guarded step's own error. This is `ExitStack` semantics, stated by `ExitStacks.RaisedKeepsOriginal`.

## Model

| member | source | states |
|---|---|---|
| ExitStacks.UnwindIsLifo | ocp_scale_utilities/threaded/scale.py:61-67 | unwinding makes one clean-up per callback, the k-th for the k-th callback from the top of the stack |
| ExitStacks.RaisedKeepsOriginal | ocp_scale_utilities/threaded/scale.py:61-67 | the exception that started an unwinding leaves it unchanged when no callback raised; otherwise the last callback error leaves |
| ExitStacks.UnwindCleansUp | ocp_scale_utilities/threaded/scale.py:61-67 | an unwinding whose clean-ups all succeed removes exactly the resources on the stack, leaves every other object unchanged, and raises only the original exception |
| ExitStacks.ExitStack.Push | ocp_scale_utilities/threaded/scale.py:96 | the callback is added on top of the stack |
| ExitStacks.ExitStack.Unwind | ocp_scale_utilities/threaded/scale.py:63-67 | pops and calls every callback last-pushed first, carrying on past errors, leaves the stack empty, and raises what `Raised` says |
| Clusters.StepPromise | tests/threaded/test_utils.py:115-125 | a call touches only the object it names; a successful deploy leaves it existing, a status wait leaves it with that status, a deletion wait or clean-up leaves it gone |
| ThreadedUtils.CollectInOrder | ocp_scale_utilities/threaded/utils.py:25-26 | collecting the answers keeps input order and succeeds iff every item did; otherwise it raises the error of the lowest failing index |
| ThreadedUtils.FanOutInOrder | ocp_scale_utilities/threaded/utils.py:15-54 | a fan-out refuses an empty list (zero workers); otherwise it answers `op(resources[i])` at index i, or raises the lowest-index failure |
| ThreadedUtils.FanOut | ocp_scale_utilities/threaded/utils.py:25-26 | every item's call is made, in input order, with answers in input order, as `Run` specifies |
| ThreadedUtils.ThreadedCleanUpResources | ocp_scale_utilities/threaded/utils.py:15-26 | `clean_up` on every resource, answers and cluster as `FanOutSpec` specifies |
| ThreadedUtils.ThreadedDeleteResources | ocp_scale_utilities/threaded/utils.py:29-40 | `delete` on every resource, answers and cluster as `FanOutSpec` specifies |
| ThreadedUtils.ThreadedWaitDeletedResources | ocp_scale_utilities/threaded/utils.py:43-54 | `wait_deleted` on every resource, answers and cluster as `FanOutSpec` specifies |
| ThreadedUtils.ThreadedWaitForResourcesStatus | ocp_scale_utilities/threaded/utils.py:106-121 | every resource waits for the same status with the same timeout |
| ThreadedUtils.DeployRun | tests/threaded/test_utils.py:115-116 | deploys create every object whose deploy succeeds, leave existing objects alone, and fail exactly when faulted |
| ThreadedUtils.StatusRun | tests/threaded/test_utils.py:118-120 | a status wait sets the status of every existing resource whose wait succeeds, changes nothing else, and fails on missing objects |
| ThreadedUtils.DeleteRun | ocp_scale_utilities/threaded/utils.py:29-40 | deleting marks the named objects terminating and removes nothing |
| ThreadedUtils.WaitDeletedRun | tests/threaded/test_utils.py:122-124 | waiting for the deletion of terminating objects succeeds for every item and leaves none of them |
| ThreadedUtils.WaitDeletedGone | ocp_scale_utilities/threaded/utils.py:43-54 | a deletion wait adds nothing, changes no surviving object, and every item that answered is gone |
| ThreadedUtils.DeleteThenWaitDeleted | tests/threaded/test_utils.py:122-124 | delete and then wait-deleted, without faults, both succeed and leave exactly the unnamed objects |
| ThreadedUtils.CleanUpThenWaitDeleted | tests/threaded/test_utils.py:133-135 | clean-up and then wait-deleted, without faults, both succeed and leave exactly the unnamed objects |
| ThreadedUtils.PushedRespectsMultiset | ocp_scale_utilities/threaded/utils.py:96-103 | the exits pushed depend only on which items finished, not on their order |
| ThreadedUtils.PushedMembers | ocp_scale_utilities/threaded/utils.py:96-98 | a callback is pushed iff it is the exit of a finished item whose deploy succeeded |
| ThreadedUtils.StackPushesPermuteInputOrder | ocp_scale_utilities/threaded/utils.py:96-103 | whatever order the items finish in, the pushes are a permutation of the input-order pushes: exactly the exits of the successful deploys |
| ThreadedUtils.PushedInputOrder | ocp_scale_utilities/threaded/utils.py:96-98 | items finishing in input order with no failure push every exit in input order |
| ThreadedUtils.StackRepliesOutcome | ocp_scale_utilities/threaded/utils.py:96-103 | the stack variants answer `None` per item iff no deploy failed; otherwise they raise the lowest-index deploy error |
| ThreadedUtils.DeployOne | ocp_scale_utilities/threaded/utils.py:96-98 | one item deploys, and pushes its exit only once the deploy succeeded |
| ThreadedUtils.DeployOntoStack | ocp_scale_utilities/threaded/utils.py:102-103 | items deploy in the order they finish; answers are `StackReplies` in input order, and the pushes are `Pushed` for that order |
| ThreadedUtils.ThreadedDeployResources | ocp_scale_utilities/threaded/utils.py:84-103 | empty list: refused with nothing changed; without a stack: `deploy()` per item in input order; with a stack: `None` per item, with the exit of each successful deploy pushed in completion order |
| ThreadedUtils.ThreadedDeployRequestedResources | ocp_scale_utilities/threaded/utils.py:57-81 | items are paired up to the shorter list and only requests are deployed; with a stack, the managed resource's exit is pushed after its request deployed |
| ThreadedScale.PlainEnterPushesInInputOrder | ocp_scale_utilities/threaded/scale.py:94-96 | without CREATE, entry succeeds, deploys nothing, and pushes every exit in input order, so unwinding cleans up in reverse input order |
| ThreadedScale.GuardUnwindsWholeStack | ocp_scale_utilities/threaded/scale.py:61-69 | with CLEANUP_ON_ERROR a failed step unwinds the whole stack last-in first-out and empties it; without it nothing changes and the error propagates |
| ThreadedScale.GuardReraisesOriginal | ocp_scale_utilities/threaded/scale.py:61-67 | when no clean-up is faulted, the guard re-raises the step's error and removes exactly the stacked resources |
| ThreadedScale.DeployStepLog | ocp_scale_utilities/threaded/scale.py:75-80 | the deploy step deploys the requests iff `request_resources` is non-empty, else the resources, paired up to the shorter list, in completion order |
| ThreadedScale.EnterStartsWithDeploy | ocp_scale_utilities/threaded/scale.py:73-92 | with CREATE, every call after the deploy step only extends the log |
| ThreadedScale.EnterDeploysRequestsIffGiven | ocp_scale_utilities/threaded/scale.py:75-80 | entry's first calls are the deploys of the requests iff `request_resources` is non-empty; the managed resources are never deployed |
| ThreadedScale.EnterEmptyBatchFails | ocp_scale_utilities/threaded/scale.py:73-80 | with CREATE and no resources, entry raises, with the pool's error and no change when the stack was empty |
| ThreadedScale.DeployStepSucceeds | ocp_scale_utilities/threaded/scale.py:75-80 | a successful deploy had no failing item, pushed every paired exit (as a multiset), and left every deployed object existing |
| ThreadedScale.DeployStepPushesAll | ocp_scale_utilities/threaded/scale.py:75-80 | with no failing deploy, the stack gains exactly the paired exits, as a multiset |
| ThreadedScale.DeployStepCreatesAll | ocp_scale_utilities/threaded/scale.py:75-80 | with no failing deploy, every deployed name exists afterwards |
| ThreadedScale.StatusStepSucceeds | ocp_scale_utilities/threaded/scale.py:82-83 | a successful status wait runs only when a status is given, after the deploy, and leaves every resource with that status |
| ThreadedScale.EnterSucceeds | ocp_scale_utilities/threaded/scale.py:71-92 | a successful entry with CREATE: deploys, then the status wait; all exits stacked; the deploy stop time becomes the data start; "post-enter" then "cleanup-on-error" (flag only) are collected |
| ThreadedScale.EnterWritesDeployKeys | ocp_scale_utilities/threaded/scale.py:85-90 | the four deploy keys are added iff CREATE, success, a cache and a non-empty prefix; otherwise the cache is unchanged |
| ThreadedScale.EnterCacheBeforeRecord | ocp_scale_utilities/threaded/scale.py:73-90 | a failed entry leaves the cache alone; a successful one adds the deploy keys when it records |
| ThreadedScale.EnterFailureLeavesNoRecord | ocp_scale_utilities/threaded/scale.py:71-92 | a failed entry had CREATE and recorded nothing; with CLEANUP_ON_ERROR the stack is empty, without it nothing was unwound |
| ThreadedScale.CallsFromDeploy | ocp_scale_utilities/threaded/scale.py:75-80 | the deploy step only deploys, and only pushes onto the stack |
| ThreadedScale.ExitSucceeds | ocp_scale_utilities/threaded/scale.py:107-117 | without DELETE exit does nothing. A successful exit with DELETE deletes and then waits for every resource, calls no pushed callback, leaves no resource, and collects "pre-exit" from the data start |
| ThreadedScale.ExitWritesDeleteKeys | ocp_scale_utilities/threaded/scale.py:114-117 | exactly the three delete keys (no delete count) are added iff DELETE, success, a cache and a prefix; otherwise the cache is unchanged |
| ThreadedScale.ExitFailure | ocp_scale_utilities/threaded/scale.py:107-113 | a failed exit had DELETE, recorded only "pre-exit", and emptied the stack iff CLEANUP_ON_ERROR |
| ThreadedScale.ExitRemovesBatch | ocp_scale_utilities/threaded/scale.py:107-113 | with DELETE and no fault, exit succeeds and removes exactly the batch |
| ThreadedScale.PreExitMarksDeployStop | ocp_scale_utilities/threaded/scale.py:85-109 | the "pre-exit" after a successful entry collects from the deploy stop time |
| ThreadedScale.Cache.Set | ocp_scale_utilities/threaded/scale.py:87 | sets one cache entry |
| ThreadedScale.ThreadedScaleResources.constructor | ocp_scale_utilities/threaded/scale.py:29-58 | keeps its arguments; no flags means CREATE, DELETE and CLEANUP_ON_ERROR, given flags are kept as they are; the stack starts empty |
| ThreadedScale.ThreadedScaleResources.CollectData | ocp_scale_utilities/threaded/scale.py:119-125 | appends one id and start time to the trace |
| ThreadedScale.ThreadedScaleResources.PushResourceExits | ocp_scale_utilities/threaded/scale.py:94-96 | pushes every resource's exit in input order |
| ThreadedScale.ThreadedScaleResources.DeployOntoSelf | ocp_scale_utilities/threaded/scale.py:75-80 | the deploy onto the object's own stack, as `DeployStep` |
| ThreadedScale.ThreadedScaleResources.WaitForRequestedStatus | ocp_scale_utilities/threaded/scale.py:82-83 | the status wait, as `StatusStep` |
| ThreadedScale.ThreadedScaleResources.CleanupOnError | ocp_scale_utilities/threaded/scale.py:61-69 | the guard after a failed step, as `Guard` |
| ThreadedScale.ThreadedScaleResources.CleanupOnSuccess | ocp_scale_utilities/threaded/scale.py:62-67 | the guard after success collects "cleanup-on-error" (flag only) and unwinds nothing, as `Settle` |
| ThreadedScale.ThreadedScaleResources.RecordDeployTimes | ocp_scale_utilities/threaded/scale.py:85-92 | stop time becomes the data start, deploy keys are cached, "post-enter" is collected |
| ThreadedScale.ThreadedScaleResources.RecordDeleteTimes | ocp_scale_utilities/threaded/scale.py:113-117 | delete keys are cached |
| ThreadedScale.ThreadedScaleResources.Enter | ocp_scale_utilities/threaded/scale.py:71-98 | `__enter__`, with the whole new state as `EnterSpec` |
| ThreadedScale.ThreadedScaleResources.Exit | ocp_scale_utilities/threaded/scale.py:100-117 | `__exit__`, with the whole new state as `ExitSpec` |
| Monitoring.DefaultMonitor | ocp_scale_utilities/monitoring.py:15-21 | the window defaults to TIMEOUT_5MIN |
| Monitoring.IntRoundTrip | ocp_scale_utilities/monitoring.py:40 | the window's decimal text reads back as the window |
| Monitoring.QueryRoundTrip | ocp_scale_utilities/monitoring.py:36-41 | the query names exactly the API group, the lower-cased kind plus "s", and the window: parsing it recovers them |
| Monitoring.Polled | ocp_scale_utilities/monitoring.py:51-56 | a sampler yields a prefix of the answers, at most one per 5-second period of its timeout |
| Monitoring.CountersAreTrailingRuns | ocp_scale_utilities/monitoring.py:58-66 | silence and noise are the lengths of the trailing runs of rates below and at-or-above the threshold; after a rate, exactly one is non-zero |
| Monitoring.SampleUpdatesCounters | ocp_scale_utilities/monitoring.py:59-66 | an empty sample changes neither counter; a quiet rate increments silence and zeroes noise; a busy rate the opposite |
| Monitoring.InitialWaitStopsOnce | ocp_scale_utilities/monitoring.py:68-69 | the stopping point is unique: right after the first sample that makes silence > 5 or noise > 2, else the end |
| Monitoring.CountRuns | ocp_scale_utilities/monitoring.py:57-69 | the loop over the polled samples stops exactly at the first sample after which silence > 5 or noise > 2 (or at the end), and the counters it returns are the trailing quiet/busy runs of the rates read, bounded by 6 and 3 |
| Monitoring.CountSample | ocp_scale_utilities/monitoring.py:59-66 | one sample's update keeps the counters equal to the trailing runs of the rates read so far; an empty sample leaves both unchanged |
| Monitoring.InitialWait | ocp_scale_utilities/monitoring.py:43-71 | reads samples until that stopping point; the counters are the trailing runs, silence ≤ 6 and noise ≤ 3; a timeout is swallowed |
| Monitoring.WaitForIdle | ocp_scale_utilities/monitoring.py:73-95 | runs the initial wait, then succeeds at the first non-empty sample below the threshold. If there is none within twice the window, it raises with the last sample (none if no sample came) and the threshold |

## Left out

- Thread-pool scheduling is not modelled.
  - The fan-outs without an exit stack make their calls one after the other in input order.
  - Interleavings of calls are not modelled.
  - Concurrent pushes onto the shared exit stack are modelled as atomic, in the order the items finish (`order`).
- ThreadedUtils.FanOut: runs every item, also after an item has failed. When `list(executor.map(...))` meets an error, the result iterator cancels the futures that have not started, so queued items may never run. The model's cluster and call log after a failed fan-out can therefore hold calls the program would have skipped.
- ThreadedUtils.FanOutSpec: the same; a failed fan-out is specified as every item having run.
- ThreadedUtils.DeployOntoStack: the same; after a failed deploy, every later item in the completion order still deploys and pushes its exit, where the program may have cancelled it.
- Resource identity is by name only. Kind and namespace are not modelled: two resources with the same name in different namespaces are one object, and their calls are one call.
- ThreadedUtils.ThreadedDeployRequestedResources: deploying a request creates an object under the request's own name. The managed resource paired with it exists afterwards only when the two names coincide, as a ProjectRequest and its Project do. The OpenShift controllers that turn a request into its resource are not modelled.
- ThreadedScale.DeployStep: the same; with requests whose names differ from their managed resources', the managed names are not created.
- ThreadedScale.EnterSucceeds: says nothing about requests whose names differ from their managed resources'. With such requests and a status wait, the model's entry fails on the status wait, where the program would succeed.
- The internals of `ocp_resources.Resource` are not part of this model.
  - A call either succeeds with the effect on the named object or fails as the fault plan says. `Fails` also covers a status wait on a missing object and a deletion wait on a live object.
  - Successful answers are abstract (`Ack`, or `NoValue` for Python's `None`).
  - A resource's `__exit__` is modelled as its `clean_up`.
  - `enter_context` is modelled as a deploy followed by a push of the resource's exit.
- `time.time()` is not modelled; clock readings are integer parameters, and elapsed times are integer differences rather than floats.
- The pytest cache is a `map<string, int>`; its persistence is not modelled.
- `collect_data` is a hook that only logs a warning. The model records each call as an id and a start time in a trace.
- The exception arguments of `__exit__` are not modelled. The code ignores them and returns `None`, so it never suppresses the body's exception. `Exit` therefore takes none.
- Prometheus querying is not modelled: a poll's answer is a value in the sample sequence.
  - Reading `float(sample[0]["value"][1])` is not modelled; a sample is `None` or the rate `Some(v)` directly.
- `TimeoutSampler` sleeping and deadlines are not modelled. A sampler with timeout T is taken to yield at most ⌈T/5⌉ samples, one per 5-second period, and fewer when the sequence ends early.
- `wait_for_idle` re-raises the sampler's `TimeoutExpiredError` after logging the last sample, the query and the threshold. The model's error value carries that logged content.
- Monitoring.Lower: lower-cases ASCII letters only, not every Unicode letter as `str.lower` does.
- `ocp_scale_utilities/constants.py` is not part of this model. TIMEOUT_2MIN, TIMEOUT_30SEC and TIMEOUT_5MIN are taken as 120, 30 and 300 seconds from their names.
- `ocp_scale_utilities/logger.py` (logging queue and handler wiring) is not modelled; it is I/O plumbing.
- `tests/conftest.py` and `tests/utils.py` (environment variables, shell calls, cluster bootstrap) are not modelled.
- ThreadedScale.GuardReraisesOriginal: requires that no clean-up made during the unwinding is faulted. When one is, the last callback error is raised instead, as `ExitStacks.RaisedKeepsOriginal` states.
