/** `ThreadedScaleResources` of `ocp_scale_utilities/threaded/scale.py`: an
    exit stack that deploys a batch of resources on entry and deletes it on
    exit, as its three flags say, with a guard that unwinds the whole stack
    when a guarded step raises. The wall clock is not modelled: the two
    readings `__enter__` and `__exit__` take are parameters, as is the one the
    constructor takes. */
module ThreadedScale {
  import opened Wrappers
  import opened Clusters
  import opened ExitStacks
  import opened ThreadedUtils

  /** `ThreadedScaleResources.Flags`: which of CREATE, DELETE and
      CLEANUP_ON_ERROR are set. */
  datatype Flags = Flags(create: bool, delete: bool, cleanupOnError: bool)

  /** `CREATE | DELETE | CLEANUP_ON_ERROR`. */
  const AllFlags: Flags := Flags(true, true, true)

  /** One `collect_data` call: where it was made, and the time it collects from. */
  datatype DataPoint = DataPoint(id: string, start: int)

  const PostEnter: string := "post-enter"
  const PreExit: string := "pre-exit"
  const CleanupOnErrorId: string := "cleanup-on-error"

  /** What the constructor was given (the cache only as present or not). */
  datatype Config = Config(
    resources: seq<Name>,
    requestResources: Option<seq<Name>>,
    hasCache: bool,
    cacheKeyPrefix: Option<string>,
    waitForStatus: Option<Status>,
    flags: Flags)

  /** Everything entering and exiting can change: the cluster, its call log,
      the object's own callback stack, the cache, the `collect_data` trace and
      `collect_data_start_time`. */
  datatype State = State(
    objects: Objects,
    log: seq<Call>,
    callbacks: seq<Callback>,
    cache: map<string, int>,
    trace: seq<DataPoint>,
    dataStart: int)

  // ---------------------------------------------------------------------
  // Python truthiness of the optional arguments

  /** `if self.request_resources:` */
  predicate UsesRequests(cfg: Config)
  {
    cfg.requestResources.Some? && |cfg.requestResources.value| > 0
  }

  /** `if self.wait_for_status:` */
  predicate WaitsForStatus(cfg: Config)
  {
    cfg.waitForStatus.Some? && |cfg.waitForStatus.value| > 0
  }

  /** `if self.pytest_cache and self.cache_key_prefix:` */
  predicate Records(cfg: Config)
  {
    cfg.hasCache && cfg.cacheKeyPrefix.Some? && |cfg.cacheKeyPrefix.value| > 0
  }

  // ---------------------------------------------------------------------
  // Specification of `__enter__` and `__exit__`, step by step

  /** How many items the deploy fan-out processes: `zip` stops at the shorter list. */
  function DeployWidth(cfg: Config): nat
  {
    if UsesRequests(cfg) then Min(|cfg.resources|, |cfg.requestResources.value|) else |cfg.resources|
  }

  /** The names deployed: the requests on the request path, else the resources. */
  function DeployNames(cfg: Config): (names: seq<Name>)
    ensures |names| == DeployWidth(cfg)
  {
    if UsesRequests(cfg) then cfg.requestResources.value[..DeployWidth(cfg)] else cfg.resources
  }

  /** The resources whose exits the deploy pushes. */
  function ExitNames(cfg: Config): (names: seq<Name>)
    ensures |names| == DeployWidth(cfg)
  {
    cfg.resources[..DeployWidth(cfg)]
  }

  /** The deploy fan-out onto the object's own stack, items finishing in `order`. */
  function DeployStep(cfg: Config, faults: set<Call>, order: seq<nat>, s: State): (Result<seq<Reply>, Error>, State)
    requires IsPermutation(order, DeployWidth(cfg))
  {
    if |cfg.resources| == 0 then (Err(NoWorkers), s)
    else
      var calls := Calls(Deploy, DeployNames(cfg));
      var scheduled := Scheduled(calls, order);
      (Collect(StackReplies(faults, calls)),
       s.(objects := Run(s.objects, faults, scheduled).1,
          log := s.log + scheduled,
          callbacks := s.callbacks + Pushed(faults, calls, Exits(ExitNames(cfg)), order)))
  }

  /** A fan-out of `op` over `names`. */
  function FanOutStep(faults: set<Call>, op: Op, names: seq<Name>, s: State): (Result<seq<Reply>, Error>, State)
  {
    var (r, after) := FanOutSpec(s.objects, faults, |names|, Calls(op, names));
    (r, s.(objects := after, log := s.log + FanOutLog(|names|, Calls(op, names))))
  }

  /** The status wait, when one was asked for. */
  function StatusStep(cfg: Config, faults: set<Call>, s: State): (Result<seq<Reply>, Error>, State)
  {
    if WaitsForStatus(cfg) then FanOutStep(faults, WaitForStatus(cfg.waitForStatus.value, Timeout2Min), cfg.resources, s)
    else (Ok([]), s)
  }

  function DeployKeys(prefix: string, count: int, start: int, stop: int): map<string, int>
  {
    map[prefix + "-deploy-count" := count, prefix + "-deploy-start" := start,
        prefix + "-deploy-stop" := stop, prefix + "-deploy-elapsed" := stop - start]
  }

  function DeleteKeys(prefix: string, start: int, stop: int): map<string, int>
  {
    map[prefix + "-delete-start" := start, prefix + "-delete-stop" := stop,
        prefix + "-delete-elapsed" := stop - start]
  }

  /** Cache keys that share a prefix differ when their suffixes do. */
  lemma SuffixesDiffer(prefix: string, a: string, b: string)
    requires a != b
    ensures prefix + a != prefix + b
  {
    assert (prefix + a)[|prefix|..] == a;
    assert (prefix + b)[|prefix|..] == b;
  }

  /** Writing the deploy keys one `set` at a time adds exactly `DeployKeys`. */
  lemma DeployKeysOneByOne(m: map<string, int>, prefix: string, count: int, start: int, stop: int)
    ensures m[prefix + "-deploy-count" := count][prefix + "-deploy-start" := start]
             [prefix + "-deploy-stop" := stop][prefix + "-deploy-elapsed" := stop - start]
            == m + DeployKeys(prefix, count, start, stop)
  {
    SuffixesDiffer(prefix, "-deploy-count", "-deploy-start");
    SuffixesDiffer(prefix, "-deploy-count", "-deploy-stop");
    SuffixesDiffer(prefix, "-deploy-count", "-deploy-elapsed");
    SuffixesDiffer(prefix, "-deploy-start", "-deploy-stop");
    SuffixesDiffer(prefix, "-deploy-start", "-deploy-elapsed");
    SuffixesDiffer(prefix, "-deploy-stop", "-deploy-elapsed");
  }

  /** Writing the delete keys one `set` at a time adds exactly `DeleteKeys`. */
  lemma DeleteKeysOneByOne(m: map<string, int>, prefix: string, start: int, stop: int)
    ensures m[prefix + "-delete-start" := start][prefix + "-delete-stop" := stop][prefix + "-delete-elapsed" := stop - start]
            == m + DeleteKeys(prefix, start, stop)
  {
    SuffixesDiffer(prefix, "-delete-start", "-delete-stop");
    SuffixesDiffer(prefix, "-delete-start", "-delete-elapsed");
    SuffixesDiffer(prefix, "-delete-stop", "-delete-elapsed");
  }

  /** The end of a successful deploy: the stop time becomes the data start,
      the deploy keys are cached, and "post-enter" is collected. */
  function RecordDeploy(cfg: Config, s: State, start: int, stop: int): State
  {
    s.(dataStart := stop,
       cache := if Records(cfg) then s.cache + DeployKeys(cfg.cacheKeyPrefix.value, |cfg.resources|, start, stop) else s.cache,
       trace := s.trace + [DataPoint(PostEnter, start)])
  }

  /** The end of a successful delete: the delete keys are cached. */
  function RecordDelete(cfg: Config, s: State, start: int, stop: int): State
  {
    s.(cache := if Records(cfg) then s.cache + DeleteKeys(cfg.cacheKeyPrefix.value, start, stop) else s.cache)
  }

  /** `_cleanup_on_error` when the guarded step raised `e`: with the flag,
      the object's whole stack is unwound and whatever the unwinding raises
      propagates; without it, `e` propagates and nothing changes. */
  function Guard(cfg: Config, faults: set<Call>, s: State, e: Error): (Outcome<Error>, State)
  {
    if cfg.flags.cleanupOnError then
      var calls := UnwindCalls(s.callbacks);
      var (replies, after) := Run(s.objects, faults, calls);
      (Fail(Raised(Some(e), replies).value), s.(objects := after, log := s.log + calls, callbacks := []))
    else (Fail(e), s)
  }

  /** `_cleanup_on_error` when the guarded steps succeeded: with the flag,
      "cleanup-on-error" is collected and the guard is dropped unused. */
  function Settle(cfg: Config, s: State): State
  {
    if cfg.flags.cleanupOnError then s.(trace := s.trace + [DataPoint(CleanupOnErrorId, s.dataStart)]) else s
  }

  /** `__enter__`, with the deploys finishing in `order`, and the clock
      reading `start` before the deploy and `stop` after the status wait. */
  function EnterSpec(cfg: Config, faults: set<Call>, order: seq<nat>, s: State, start: int, stop: int): (Outcome<Error>, State)
    requires cfg.flags.create ==> IsPermutation(order, DeployWidth(cfg))
  {
    if !cfg.flags.create then (Pass, s.(callbacks := s.callbacks + Exits(cfg.resources)))
    else
      var (deployed, s1) := DeployStep(cfg, faults, order, s);
      if deployed.Err? then Guard(cfg, faults, s1, deployed.error)
      else
        var (waited, s2) := StatusStep(cfg, faults, s1);
        if waited.Err? then Guard(cfg, faults, s2, waited.error)
        else (Pass, Settle(cfg, RecordDeploy(cfg, s2, start, stop)))
  }

  /** `__exit__`, with the clock reading `start` before the delete and
      `stop` after the deletion wait. */
  function ExitSpec(cfg: Config, faults: set<Call>, s: State, start: int, stop: int): (Outcome<Error>, State)
  {
    if !cfg.flags.delete then (Pass, s)
    else
      var s0 := s.(trace := s.trace + [DataPoint(PreExit, s.dataStart)]);
      var (deleted, s1) := FanOutStep(faults, Delete, cfg.resources, s0);
      if deleted.Err? then Guard(cfg, faults, s1, deleted.error)
      else
        var (waited, s2) := FanOutStep(faults, WaitDeleted, cfg.resources, s1);
        if waited.Err? then Guard(cfg, faults, s2, waited.error)
        else (Pass, Settle(cfg, RecordDelete(cfg, s2, start, stop)))
  }

  // ---------------------------------------------------------------------
  // Properties of entering and exiting

  function DeployKeyNames(prefix: string): set<string>
  {
    {prefix + "-deploy-count", prefix + "-deploy-start", prefix + "-deploy-stop", prefix + "-deploy-elapsed"}
  }

  function DeleteKeyNames(prefix: string): set<string>
  {
    {prefix + "-delete-start", prefix + "-delete-stop", prefix + "-delete-elapsed"}
  }

  /** `t`'s log continues `s`'s. */
  predicate Appends(s: State, t: State)
  {
    |s.log| <= |t.log| && t.log[..|s.log|] == s.log
  }

  lemma AppendsTransitive(a: State, b: State, c: State)
    requires Appends(a, b) && Appends(b, c)
    ensures Appends(a, c)
  {
    assert c.log[..|a.log|] == c.log[..|b.log|][..|a.log|];
  }

  lemma GuardAppends(cfg: Config, faults: set<Call>, s: State, e: Error)
    ensures Appends(s, Guard(cfg, faults, s, e).1)
  {
    var t := Guard(cfg, faults, s, e).1;
    if cfg.flags.cleanupOnError {
      assert t.log == s.log + UnwindCalls(s.callbacks);
    }
  }

  lemma StatusStepAppends(cfg: Config, faults: set<Call>, s: State)
    ensures Appends(s, StatusStep(cfg, faults, s).1)
  {
  }

  /** Without CREATE, entering deploys nothing and pushes every resource's
      exit in input order, so that unwinding a stack that was empty before
      cleans the resources up in reverse input order. */
  lemma PlainEnterPushesInInputOrder(cfg: Config, faults: set<Call>, order: seq<nat>, s: State, start: int, stop: int)
    requires !cfg.flags.create
    ensures var (r, t) := EnterSpec(cfg, faults, order, s, start, stop);
      && r == Pass
      && t == s.(callbacks := s.callbacks + Exits(cfg.resources))
      && (s.callbacks == [] ==>
            && |UnwindCalls(t.callbacks)| == |cfg.resources|
            && forall k :: 0 <= k < |cfg.resources| ==>
                 UnwindCalls(t.callbacks)[k] == Call(CleanUp, cfg.resources[|cfg.resources| - 1 - k]))
  {
    var t := EnterSpec(cfg, faults, order, s, start, stop).1;
    UnwindIsLifo(t.callbacks);
  }

  /** The guard, when a step raised: with CLEANUP_ON_ERROR it unwinds the
      whole stack last-in first-out and leaves it empty; without it, it
      changes nothing and re-raises. It never touches the cache, the trace or
      the data start time. */
  lemma GuardUnwindsWholeStack(cfg: Config, faults: set<Call>, s: State, e: Error)
    ensures var (r, t) := Guard(cfg, faults, s, e);
      && r.Fail?
      && t.cache == s.cache && t.trace == s.trace && t.dataStart == s.dataStart
      && (cfg.flags.cleanupOnError ==>
            && t.callbacks == []
            && |t.log| == |s.log| + |s.callbacks|
            && t.log[..|s.log|] == s.log
            && var unwound := t.log[|s.log|..];
               forall k :: 0 <= k < |s.callbacks| ==> unwound[k] == Call(CleanUp, s.callbacks[|s.callbacks| - 1 - k].name))
      && (!cfg.flags.cleanupOnError ==> r == Fail(e) && t == s)
  {
    UnwindIsLifo(s.callbacks);
  }

  /** When no clean-up the unwinding makes is faulted, the guard re-raises
      the error of the step, and it has removed exactly the resources whose
      exits were on the stack. */
  lemma GuardReraisesOriginal(cfg: Config, faults: set<Call>, s: State, e: Error)
    requires cfg.flags.cleanupOnError
    requires forall cb :: cb in s.callbacks ==> ExitCall(cb) !in faults
    ensures var (r, t) := Guard(cfg, faults, s, e);
      && r == Fail(e)
      && forall n :: n in t.objects <==> n in s.objects && ResourceExit(n) !in s.callbacks
  {
    UnwindCleansUp(s.objects, faults, s.callbacks, Some(e));
  }

  /** The deploy step logs the deploys, in the order they finish, of the
      requests when `request_resources` is non-empty and of the resources
      otherwise, paired by position up to the shorter list. */
  lemma DeployStepLog(cfg: Config, faults: set<Call>, order: seq<nat>, s: State)
    requires IsPermutation(order, DeployWidth(cfg))
    requires |cfg.resources| > 0
    ensures var names := if cfg.requestResources.Some? && cfg.requestResources.value != []
                         then cfg.requestResources.value else cfg.resources;
      var t := DeployStep(cfg, faults, order, s).1;
      && DeployWidth(cfg) == Min(|cfg.resources|, |names|)
      && |t.log| == |s.log| + DeployWidth(cfg)
      && t.log[..|s.log|] == s.log
      && var deploys := t.log[|s.log|..];
         forall k :: 0 <= k < DeployWidth(cfg) ==> deploys[k] == Call(Deploy, names[order[k]])
  {
    var names := if cfg.requestResources.Some? && cfg.requestResources.value != []
                 then cfg.requestResources.value else cfg.resources;
    PermutationLength(order, DeployWidth(cfg));
    var t := DeployStep(cfg, faults, order, s).1;
    var scheduled := Scheduled(Calls(Deploy, DeployNames(cfg)), order);
    assert t.log == s.log + scheduled;
    assert t.log[|s.log|..] == scheduled;
    forall k | 0 <= k < DeployWidth(cfg) ensures scheduled[k] == Call(Deploy, names[order[k]]) {
      assert DeployNames(cfg)[order[k]] == names[order[k]];
    }
  }

  /** With CREATE, whatever happens after the deploy only appends to the log:
      the log of entering starts with the deploys of `DeployStepLog`. */
  lemma EnterStartsWithDeploy(cfg: Config, faults: set<Call>, order: seq<nat>, s: State, start: int, stop: int)
    requires cfg.flags.create && IsPermutation(order, DeployWidth(cfg))
    ensures Appends(DeployStep(cfg, faults, order, s).1, EnterSpec(cfg, faults, order, s, start, stop).1)
  {
    var (deployed, s1) := DeployStep(cfg, faults, order, s);
    if deployed.Err? {
      GuardAppends(cfg, faults, s1, deployed.error);
    } else {
      var (waited, s2) := StatusStep(cfg, faults, s1);
      StatusStepAppends(cfg, faults, s1);
      if waited.Err? {
        GuardAppends(cfg, faults, s2, waited.error);
        AppendsTransitive(s1, s2, Guard(cfg, faults, s2, waited.error).1);
      }
    }
  }

  /** With CREATE, the deploys `__enter__` makes, right after the calls made
      before it and in the order they finish, are those of the requests when
      `request_resources` is non-empty and of the resources otherwise, paired
      by position up to the shorter list; the managed resources of the request
      path are never deployed. */
  lemma EnterDeploysRequestsIffGiven(cfg: Config, faults: set<Call>, order: seq<nat>, s: State, start: int, stop: int)
    requires cfg.flags.create && IsPermutation(order, DeployWidth(cfg))
    requires |cfg.resources| > 0
    ensures var names := if cfg.requestResources.Some? && cfg.requestResources.value != []
                         then cfg.requestResources.value else cfg.resources;
      var t := EnterSpec(cfg, faults, order, s, start, stop).1;
      && DeployWidth(cfg) == Min(|cfg.resources|, |names|)
      && |order| == DeployWidth(cfg)
      && |s.log| + DeployWidth(cfg) <= |t.log|
      && t.log[..|s.log|] == s.log
      && var deploys := t.log[|s.log|..];
         forall k :: 0 <= k < DeployWidth(cfg) ==> deploys[k] == Call(Deploy, names[order[k]])
  {
    PermutationLength(order, DeployWidth(cfg));
    DeployStepLog(cfg, faults, order, s);
    EnterStartsWithDeploy(cfg, faults, order, s, start, stop);
    var t1 := DeployStep(cfg, faults, order, s).1;
    var t := EnterSpec(cfg, faults, order, s, start, stop).1;
    assert t.log[..|s.log|] == t.log[..|t1.log|][..|s.log|];
    forall k | 0 <= k < DeployWidth(cfg) ensures t.log[|s.log|..][k] == t1.log[|s.log|..][k] {
      assert t.log[|s.log|..][k] == t.log[..|t1.log|][|s.log| + k];
    }
  }

  /** With CREATE and no resources, the pool refuses: nothing is deployed,
      and entering raises, the pool's own error when the stack was empty. */
  lemma EnterEmptyBatchFails(cfg: Config, faults: set<Call>, order: seq<nat>, s: State, start: int, stop: int)
    requires cfg.flags.create && IsPermutation(order, DeployWidth(cfg))
    requires |cfg.resources| == 0
    ensures var (r, t) := EnterSpec(cfg, faults, order, s, start, stop);
      && r.Fail?
      && (s.callbacks == [] ==> r == Fail(NoWorkers) && t.objects == s.objects && t.log == s.log)
  {
  }

  /** The calls the status wait makes. */
  function StatusCalls(cfg: Config): seq<Call>
  {
    if WaitsForStatus(cfg) then Calls(WaitForStatus(cfg.waitForStatus.value, Timeout2Min), cfg.resources) else []
  }

  /** A deploy that answers: the batch was non-empty, no deploy failed, the
      pushed exits are those of every paired resource (in the order the
      deploys finished, so as a multiset), and every deployed object exists. */
  lemma DeployStepSucceeds(cfg: Config, faults: set<Call>, order: seq<nat>, s: State)
    requires IsPermutation(order, DeployWidth(cfg))
    ensures var (r, t) := DeployStep(cfg, faults, order, s);
      r.Ok? ==>
        && |cfg.resources| > 0
        && (forall i :: 0 <= i < DeployWidth(cfg) ==> Call(Deploy, DeployNames(cfg)[i]) !in faults)
        && t.log == s.log + Scheduled(Calls(Deploy, DeployNames(cfg)), order)
        && multiset(t.callbacks) == multiset(s.callbacks + Exits(ExitNames(cfg)))
        && (forall n :: n in DeployNames(cfg) ==> n in t.objects)
        && t.cache == s.cache && t.trace == s.trace && t.dataStart == s.dataStart
  {
    var (r, t) := DeployStep(cfg, faults, order, s);
    if r.Ok? {
      var calls := Calls(Deploy, DeployNames(cfg));
      StackRepliesOutcome(faults, calls);
      DeployStepPushesAll(cfg, faults, order, s);
      DeployStepCreatesAll(cfg, faults, order, s);
    }
  }

  lemma DeployStepPushesAll(cfg: Config, faults: set<Call>, order: seq<nat>, s: State)
    requires IsPermutation(order, DeployWidth(cfg))
    requires |cfg.resources| > 0
    requires forall i :: 0 <= i < DeployWidth(cfg) ==> Call(Deploy, DeployNames(cfg)[i]) !in faults
    ensures multiset(DeployStep(cfg, faults, order, s).1.callbacks) == multiset(s.callbacks + Exits(ExitNames(cfg)))
  {
    var w := DeployWidth(cfg);
    var calls := Calls(Deploy, DeployNames(cfg));
    var exits := Exits(ExitNames(cfg));
    StackPushesPermuteInputOrder(faults, calls, exits, order);
    PushedInputOrder(faults, calls, exits, w);
    assert exits[..w] == exits;
  }

  lemma DeployStepCreatesAll(cfg: Config, faults: set<Call>, order: seq<nat>, s: State)
    requires IsPermutation(order, DeployWidth(cfg))
    requires |cfg.resources| > 0
    requires forall i :: 0 <= i < DeployWidth(cfg) ==> Call(Deploy, DeployNames(cfg)[i]) !in faults
    ensures forall n :: n in DeployNames(cfg) ==> n in DeployStep(cfg, faults, order, s).1.objects
  {
    var w := DeployWidth(cfg);
    var names := DeployNames(cfg);
    var calls := Calls(Deploy, names);
    PermutationCovers(order, w);
    var scheduled := Scheduled(calls, order);
    DeployRun(s.objects, faults, scheduled);
    forall n | n in names ensures Call(Deploy, n) in scheduled && Call(Deploy, n) !in faults {
      var i :| 0 <= i < w && names[i] == n;
      assert i in order;
      var k :| 0 <= k < |order| && order[k] == i;
      assert scheduled[k] == Call(Deploy, n);
    }
  }

  /** A status wait that answers leaves the same objects, each resource with
      the status asked for, and logs one wait per resource. */
  lemma StatusStepSucceeds(cfg: Config, faults: set<Call>, s: State)
    ensures var (r, t) := StatusStep(cfg, faults, s);
      r.Ok? ==>
        && t.log == s.log + StatusCalls(cfg)
        && (forall n :: n in t.objects <==> n in s.objects)
        && (WaitsForStatus(cfg) ==> forall n :: n in cfg.resources ==> n in t.objects && t.objects[n].status == cfg.waitForStatus.value)
        && t.callbacks == s.callbacks && t.cache == s.cache && t.trace == s.trace && t.dataStart == s.dataStart
  {
    var (r, t) := StatusStep(cfg, faults, s);
    if r.Ok? && WaitsForStatus(cfg) {
      var status := cfg.waitForStatus.value;
      var op := WaitForStatus(status, Timeout2Min);
      StatusRun(s.objects, faults, status, Timeout2Min, cfg.resources);
      var replies := Run(s.objects, faults, Calls(op, cfg.resources)).0;
      CollectInOrder(replies);
      forall n | n in cfg.resources ensures n in t.objects && t.objects[n].status == status {
        var i :| 0 <= i < |cfg.resources| && cfg.resources[i] == n;
        assert replies[i].Ok?;
      }
    }
  }

  /** A successful entry with CREATE: every deploy succeeded; the log is the
      deploys, then the status wait exactly when one was asked for; the stack
      holds, beyond what it held before, the exit of every paired resource;
      every deployed object exists, with the status asked for; the deploy
      stop time became the data start; and "post-enter" was collected, then
      "cleanup-on-error" exactly when CLEANUP_ON_ERROR is set. */
  lemma EnterSucceeds(cfg: Config, faults: set<Call>, order: seq<nat>, s: State, start: int, stop: int)
    requires cfg.flags.create && IsPermutation(order, DeployWidth(cfg))
    ensures var (r, t) := EnterSpec(cfg, faults, order, s, start, stop);
      r == Pass ==>
        && |cfg.resources| > 0
        && (forall i :: 0 <= i < DeployWidth(cfg) ==> Call(Deploy, DeployNames(cfg)[i]) !in faults)
        && t.log == s.log + Scheduled(Calls(Deploy, DeployNames(cfg)), order) + StatusCalls(cfg)
        && multiset(t.callbacks) == multiset(s.callbacks + Exits(ExitNames(cfg)))
        && (forall n :: n in DeployNames(cfg) ==> n in t.objects)
        && (WaitsForStatus(cfg) ==> forall n :: n in cfg.resources ==> n in t.objects && t.objects[n].status == cfg.waitForStatus.value)
        && t.dataStart == stop
        && t.trace == s.trace + [DataPoint(PostEnter, start)] +
             (if cfg.flags.cleanupOnError then [DataPoint(CleanupOnErrorId, stop)] else [])
  {
    var (deployed, s1) := DeployStep(cfg, faults, order, s);
    DeployStepSucceeds(cfg, faults, order, s);
    StatusStepSucceeds(cfg, faults, s1);
  }

  /** The four deploy keys, with their values. */
  lemma DeployKeysContent(p: string, count: int, start: int, stop: int)
    ensures var m := DeployKeys(p, count, start, stop);
      && m.Keys == DeployKeyNames(p)
      && m[p + "-deploy-count"] == count && m[p + "-deploy-start"] == start
      && m[p + "-deploy-stop"] == stop && m[p + "-deploy-elapsed"] == stop - start
  {
    SuffixesDiffer(p, "-deploy-count", "-deploy-start");
    SuffixesDiffer(p, "-deploy-count", "-deploy-stop");
    SuffixesDiffer(p, "-deploy-count", "-deploy-elapsed");
    SuffixesDiffer(p, "-deploy-start", "-deploy-stop");
    SuffixesDiffer(p, "-deploy-start", "-deploy-elapsed");
    SuffixesDiffer(p, "-deploy-stop", "-deploy-elapsed");
  }

  /** The three delete keys, with their values. */
  lemma DeleteKeysContent(p: string, start: int, stop: int)
    ensures var m := DeleteKeys(p, start, stop);
      && m.Keys == DeleteKeyNames(p)
      && m[p + "-delete-start"] == start && m[p + "-delete-stop"] == stop && m[p + "-delete-elapsed"] == stop - start
  {
    SuffixesDiffer(p, "-delete-start", "-delete-stop");
    SuffixesDiffer(p, "-delete-start", "-delete-elapsed");
    SuffixesDiffer(p, "-delete-stop", "-delete-elapsed");
  }

  /** The cache after entering: with CREATE, success, a cache and a
      non-empty prefix, exactly the four deploy keys are added (count, start,
      stop, elapsed = stop - start) and every other entry is kept; in every
      other case the cache is unchanged. */
  lemma EnterWritesDeployKeys(cfg: Config, faults: set<Call>, order: seq<nat>, s: State, start: int, stop: int)
    requires cfg.flags.create ==> IsPermutation(order, DeployWidth(cfg))
    ensures var (r, t) := EnterSpec(cfg, faults, order, s, start, stop);
      && (r == Pass && cfg.flags.create && Records(cfg) ==>
            var p := cfg.cacheKeyPrefix.value;
            && t.cache.Keys == s.cache.Keys + DeployKeyNames(p)
            && t.cache[p + "-deploy-count"] == |cfg.resources|
            && t.cache[p + "-deploy-start"] == start
            && t.cache[p + "-deploy-stop"] == stop
            && t.cache[p + "-deploy-elapsed"] == stop - start
            && forall k :: k in s.cache && k !in DeployKeyNames(p) ==> t.cache[k] == s.cache[k])
      && (!(r == Pass && cfg.flags.create && Records(cfg)) ==> t.cache == s.cache)
  {
    if cfg.flags.create {
      EnterCacheBeforeRecord(cfg, faults, order, s, start, stop);
      if Records(cfg) {
        DeployKeysContent(cfg.cacheKeyPrefix.value, |cfg.resources|, start, stop);
      }
    }
  }

  /** Everything before the deploy keys are written leaves the cache alone. */
  lemma EnterCacheBeforeRecord(cfg: Config, faults: set<Call>, order: seq<nat>, s: State, start: int, stop: int)
    requires cfg.flags.create && IsPermutation(order, DeployWidth(cfg))
    ensures var (r, t) := EnterSpec(cfg, faults, order, s, start, stop);
      && (r.Fail? ==> t.cache == s.cache)
      && (r == Pass ==>
            t.cache == (if Records(cfg) then s.cache + DeployKeys(cfg.cacheKeyPrefix.value, |cfg.resources|, start, stop) else s.cache))
  {
    var (deployed, s1) := DeployStep(cfg, faults, order, s);
    if deployed.Err? {
      GuardUnwindsWholeStack(cfg, faults, s1, deployed.error);
    } else {
      var (waited, s2) := StatusStep(cfg, faults, s1);
      if waited.Err? {
        GuardUnwindsWholeStack(cfg, faults, s2, waited.error);
      }
    }
  }

  /** A failed entry: CREATE was set; the cache, the trace and the data start
      time are as they were; with CLEANUP_ON_ERROR the stack is left empty,
      and without it nothing is unwound: the stack keeps what it held and
      no clean-up is made. */
  lemma EnterFailureLeavesNoRecord(cfg: Config, faults: set<Call>, order: seq<nat>, s: State, start: int, stop: int)
    requires cfg.flags.create ==> IsPermutation(order, DeployWidth(cfg))
    ensures var (r, t) := EnterSpec(cfg, faults, order, s, start, stop);
      r.Fail? ==>
        && cfg.flags.create
        && t.cache == s.cache && t.trace == s.trace && t.dataStart == s.dataStart
        && (cfg.flags.cleanupOnError ==> t.callbacks == [])
        && (!cfg.flags.cleanupOnError ==>
              && |s.callbacks| <= |t.callbacks| && t.callbacks[..|s.callbacks|] == s.callbacks
              && forall c :: c in t.log[|s.log|..] ==> c.op != CleanUp)
  {
    if cfg.flags.create {
      var (deployed, s1) := DeployStep(cfg, faults, order, s);
      if deployed.Err? {
        GuardUnwindsWholeStack(cfg, faults, s1, deployed.error);
        CallsFromDeploy(cfg, faults, order, s);
      } else {
        var (waited, s2) := StatusStep(cfg, faults, s1);
        if waited.Err? {
          GuardUnwindsWholeStack(cfg, faults, s2, waited.error);
          CallsFromDeploy(cfg, faults, order, s);
          if WaitsForStatus(cfg) {
            assert s2.log == s1.log + Calls(WaitForStatus(cfg.waitForStatus.value, Timeout2Min), cfg.resources);
          }
        }
      }
    }
  }

  /** The deploy step makes only deploys, and only pushes onto the stack. */
  lemma CallsFromDeploy(cfg: Config, faults: set<Call>, order: seq<nat>, s: State)
    requires IsPermutation(order, DeployWidth(cfg))
    ensures var t := DeployStep(cfg, faults, order, s).1;
      && Appends(s, t)
      && (forall c :: c in t.log[|s.log|..] ==> c.op == Deploy)
      && |s.callbacks| <= |t.callbacks| && t.callbacks[..|s.callbacks|] == s.callbacks
  {
    var t := DeployStep(cfg, faults, order, s).1;
    if |cfg.resources| > 0 {
      var scheduled := Scheduled(Calls(Deploy, DeployNames(cfg)), order);
      assert t.log[|s.log|..] == scheduled;
    }
  }

  /** Exiting: without DELETE it does nothing at all. With DELETE and
      success, the batch was non-empty, the log is one delete per resource
      and then one deletion wait per resource, no pushed callback was called
      (the stack is as it was and no clean-up was made), no resource is left
      on the cluster, and "pre-exit" was collected from the data start time,
      then "cleanup-on-error" exactly when CLEANUP_ON_ERROR is set. */
  lemma ExitSucceeds(cfg: Config, faults: set<Call>, s: State, start: int, stop: int)
    ensures var (r, t) := ExitSpec(cfg, faults, s, start, stop);
      && (!cfg.flags.delete ==> r == Pass && t == s)
      && (cfg.flags.delete && r == Pass ==>
            && |cfg.resources| > 0
            && t.log == s.log + Calls(Delete, cfg.resources) + Calls(WaitDeleted, cfg.resources)
            && t.callbacks == s.callbacks
            && (forall n :: n in cfg.resources ==> n !in t.objects)
            && t.dataStart == s.dataStart
            && t.trace == s.trace + [DataPoint(PreExit, s.dataStart)] +
                 (if cfg.flags.cleanupOnError then [DataPoint(CleanupOnErrorId, s.dataStart)] else []))
  {
    var (r, t) := ExitSpec(cfg, faults, s, start, stop);
    if cfg.flags.delete && r == Pass {
      var s0 := s.(trace := s.trace + [DataPoint(PreExit, s.dataStart)]);
      var s1 := FanOutStep(faults, Delete, cfg.resources, s0).1;
      var waits := Calls(WaitDeleted, cfg.resources);
      WaitDeletedGone(s1.objects, faults, cfg.resources);
      var replies := Run(s1.objects, faults, waits).0;
      CollectInOrder(replies);
      forall n | n in cfg.resources ensures n !in t.objects {
        var i :| 0 <= i < |cfg.resources| && cfg.resources[i] == n;
        assert replies[i].Ok?;
      }
    }
  }

  /** The cache after exiting: with DELETE, success, a cache and a non-empty
      prefix, exactly the three delete keys are added (start, stop, elapsed =
      stop - start; there is no delete count) and every other entry is kept;
      in every other case the cache is unchanged. */
  lemma ExitWritesDeleteKeys(cfg: Config, faults: set<Call>, s: State, start: int, stop: int)
    ensures var (r, t) := ExitSpec(cfg, faults, s, start, stop);
      && (r == Pass && cfg.flags.delete && Records(cfg) ==>
            var p := cfg.cacheKeyPrefix.value;
            && t.cache.Keys == s.cache.Keys + DeleteKeyNames(p)
            && t.cache[p + "-delete-start"] == start
            && t.cache[p + "-delete-stop"] == stop
            && t.cache[p + "-delete-elapsed"] == stop - start
            && forall k :: k in s.cache && k !in DeleteKeyNames(p) ==> t.cache[k] == s.cache[k])
      && (!(r == Pass && cfg.flags.delete && Records(cfg)) ==> t.cache == s.cache)
  {
    if cfg.flags.delete {
      var s0 := s.(trace := s.trace + [DataPoint(PreExit, s.dataStart)]);
      var (deleted, s1) := FanOutStep(faults, Delete, cfg.resources, s0);
      if deleted.Err? {
        GuardUnwindsWholeStack(cfg, faults, s1, deleted.error);
      } else {
        var (waited, s2) := FanOutStep(faults, WaitDeleted, cfg.resources, s1);
        if waited.Err? {
          GuardUnwindsWholeStack(cfg, faults, s2, waited.error);
        } else if Records(cfg) {
          DeleteKeysContent(cfg.cacheKeyPrefix.value, start, stop);
        }
      }
    }
  }

  /** A failed exit: DELETE was set; the cache and the data start time are as
      they were and only "pre-exit" was collected; with CLEANUP_ON_ERROR the
      whole stack was unwound and left empty, and without it the stack is as
      it was. */
  lemma ExitFailure(cfg: Config, faults: set<Call>, s: State, start: int, stop: int)
    ensures var (r, t) := ExitSpec(cfg, faults, s, start, stop);
      r.Fail? ==>
        && cfg.flags.delete
        && t.cache == s.cache && t.dataStart == s.dataStart
        && t.trace == s.trace + [DataPoint(PreExit, s.dataStart)]
        && (cfg.flags.cleanupOnError ==> t.callbacks == [])
        && (!cfg.flags.cleanupOnError ==> t.callbacks == s.callbacks)
  {
    if cfg.flags.delete {
      var s0 := s.(trace := s.trace + [DataPoint(PreExit, s.dataStart)]);
      var (deleted, s1) := FanOutStep(faults, Delete, cfg.resources, s0);
      if deleted.Err? {
        GuardUnwindsWholeStack(cfg, faults, s1, deleted.error);
      } else {
        var (waited, s2) := FanOutStep(faults, WaitDeleted, cfg.resources, s1);
        if waited.Err? {
          GuardUnwindsWholeStack(cfg, faults, s2, waited.error);
        }
      }
    }
  }

  /** With DELETE, a non-empty batch and no delete or deletion wait faulted,
      exiting succeeds and removes exactly the batch from the cluster. */
  lemma ExitRemovesBatch(cfg: Config, faults: set<Call>, s: State, start: int, stop: int)
    requires cfg.flags.delete && |cfg.resources| > 0
    requires forall n :: n in cfg.resources ==> Call(Delete, n) !in faults && Call(WaitDeleted, n) !in faults
    ensures var (r, t) := ExitSpec(cfg, faults, s, start, stop);
      && r == Pass
      && (forall n :: n in t.objects <==> n in s.objects && n !in cfg.resources)
      && (forall n :: n in t.objects ==> t.objects[n] == s.objects[n])
  {
    DeleteThenWaitDeleted(s.objects, faults, cfg.resources);
  }

  /** After a successful entry with CREATE, the "pre-exit" of the following
      exit collects from the stop time the entry recorded. */
  lemma PreExitMarksDeployStop(cfg: Config, faults: set<Call>, order: seq<nat>, s: State, start: int, stop: int,
                               exitStart: int, exitStop: int)
    requires cfg.flags.create && cfg.flags.delete && IsPermutation(order, DeployWidth(cfg))
    requires EnterSpec(cfg, faults, order, s, start, stop).0 == Pass
    ensures var t := EnterSpec(cfg, faults, order, s, start, stop).1;
      var u := ExitSpec(cfg, faults, t, exitStart, exitStop).1;
      |t.trace| < |u.trace| && u.trace[|t.trace|] == DataPoint(PreExit, stop)
  {
    EnterSucceeds(cfg, faults, order, s, start, stop);
    var t := EnterSpec(cfg, faults, order, s, start, stop).1;
    ExitSucceeds(cfg, faults, t, exitStart, exitStop);
    ExitFailure(cfg, faults, t, exitStart, exitStop);
  }

  // ---------------------------------------------------------------------
  // The object

  /** `pytest.Cache`, as the map it keeps. */
  class Cache {
    var entries: map<string, int>

    constructor()
      ensures entries == map[]
    {
      entries := map[];
    }

    method Set(key: string, value: int)
      modifies this
      ensures entries == old(entries)[key := value]
    {
      entries := entries[key := value];
    }
  }

  class ThreadedScaleResources {
    const cluster: Cluster
    /** The `ExitStack` the object is. */
    const stack: ExitStack
    const resources: seq<Name>
    const requestResources: Option<seq<Name>>
    const pytestCache: Cache?
    const cacheKeyPrefix: Option<string>
    const waitForStatus: Option<Status>
    const flags: Flags
    var collectDataStartTime: int
    /** The `collect_data` calls made so far. */
    var trace: seq<DataPoint>

    /** `__init__`: `flags` defaults to all three flags; `now` is the clock. */
    constructor(cluster: Cluster, resources: seq<Name>, requestResources: Option<seq<Name>>, pytestCache: Cache?,
                cacheKeyPrefix: Option<string>, waitForStatus: Option<Status>, flags: Option<Flags>, now: int)
      ensures this.cluster == cluster && this.resources == resources && this.requestResources == requestResources
      ensures this.pytestCache == pytestCache && this.cacheKeyPrefix == cacheKeyPrefix && this.waitForStatus == waitForStatus
      ensures flags.None? ==> this.flags.create && this.flags.delete && this.flags.cleanupOnError
      ensures flags.Some? ==> this.flags == flags.value
      ensures fresh(stack) && stack.callbacks == []
      ensures trace == [] && collectDataStartTime == now
    {
      this.cluster := cluster;
      this.resources := resources;
      this.requestResources := requestResources;
      this.pytestCache := pytestCache;
      this.cacheKeyPrefix := cacheKeyPrefix;
      this.waitForStatus := waitForStatus;
      this.flags := if flags.None? then AllFlags else flags.value;
      stack := new ExitStack();
      trace := [];
      collectDataStartTime := now;
    }

    function Cfg(): Config
    {
      Config(resources, requestResources, pytestCache != null, cacheKeyPrefix, waitForStatus, flags)
    }

    function Snapshot(): State
      reads this, cluster, stack, pytestCache
    {
      State(cluster.objects, cluster.log, stack.callbacks, if pytestCache == null then map[] else pytestCache.entries,
            trace, collectDataStartTime)
    }

    /** The `collect_data` hook. */
    method CollectData(id: string, start: int)
      modifies this`trace
      ensures trace == old(trace) + [DataPoint(id, start)]
    {
      trace := trace + [DataPoint(id, start)];
    }

    /** `__enter__` without CREATE: push every resource's exit, in input order. */
    method PushResourceExits()
      modifies stack
      ensures stack.callbacks == old(stack.callbacks) + Exits(resources)
    {
      var i := 0;
      while i < |resources|
        invariant 0 <= i <= |resources|
        invariant stack.callbacks == old(stack.callbacks) + Exits(resources[..i])
      {
        stack.Push(ResourceExit(resources[i]));
        assert Exits(resources[..i + 1]) == Exits(resources[..i]) + [ResourceExit(resources[i])];
        i := i + 1;
      }
      assert resources[..i] == resources;
    }

    /** The deploy of `__enter__`, onto the object's own stack. */
    method DeployOntoSelf(order: seq<nat>) returns (r: Result<seq<Reply>, Error>)
      requires IsPermutation(order, DeployWidth(Cfg()))
      modifies cluster, stack
      ensures (r, Snapshot()) == DeployStep(Cfg(), cluster.faults, order, old(Snapshot()))
    {
      if requestResources.Some? && |requestResources.value| > 0 {
        r := ThreadedDeployRequestedResources(cluster, resources, requestResources.value, stack, order);
      } else {
        assert ExitNames(Cfg()) == resources[..|resources|] == resources;
        r := ThreadedDeployResources(cluster, resources, stack, order);
      }
    }

    /** The status wait of `__enter__`. */
    method WaitForRequestedStatus() returns (r: Result<seq<Reply>, Error>)
      modifies cluster
      ensures (r, Snapshot()) == StatusStep(Cfg(), cluster.faults, old(Snapshot()))
    {
      r := Ok([]);
      if waitForStatus.Some? && |waitForStatus.value| > 0 {
        r := ThreadedWaitForResourcesStatus(cluster, resources, waitForStatus.value, Timeout2Min);
      }
    }

    /** `_cleanup_on_error` after the guarded step raised `e`. */
    method CleanupOnError(e: Error) returns (r: Outcome<Error>)
      modifies cluster, stack
      ensures (r, Snapshot()) == Guard(Cfg(), cluster.faults, old(Snapshot()), e)
    {
      if flags.cleanupOnError {
        var raised := stack.Unwind(cluster, Some(e));
        r := Fail(raised.value);
      } else {
        r := Fail(e);
      }
    }

    /** `_cleanup_on_error` after the guarded steps succeeded. */
    method CleanupOnSuccess()
      modifies this`trace
      ensures Snapshot() == Settle(Cfg(), old(Snapshot()))
    {
      if flags.cleanupOnError {
        CollectData(CleanupOnErrorId, collectDataStartTime);
      }
    }

    /** The end of a successful deploy (lines 85-92). */
    method RecordDeployTimes(start: int, stop: int)
      modifies this, pytestCache
      ensures Snapshot() == RecordDeploy(Cfg(), old(Snapshot()), start, stop)
    {
      collectDataStartTime := stop;
      if pytestCache != null && cacheKeyPrefix.Some? && |cacheKeyPrefix.value| > 0 {
        var prefix := cacheKeyPrefix.value;
        pytestCache.Set(prefix + "-deploy-count", |resources|);
        pytestCache.Set(prefix + "-deploy-start", start);
        pytestCache.Set(prefix + "-deploy-stop", stop);
        pytestCache.Set(prefix + "-deploy-elapsed", stop - start);
        DeployKeysOneByOne(old(pytestCache.entries), prefix, |resources|, start, stop);
      }
      CollectData(PostEnter, start);
    }

    /** The end of a successful delete (lines 114-117). */
    method RecordDeleteTimes(start: int, stop: int)
      modifies pytestCache
      ensures Snapshot() == RecordDelete(Cfg(), old(Snapshot()), start, stop)
    {
      if pytestCache != null && cacheKeyPrefix.Some? && |cacheKeyPrefix.value| > 0 {
        var prefix := cacheKeyPrefix.value;
        pytestCache.Set(prefix + "-delete-start", start);
        pytestCache.Set(prefix + "-delete-stop", stop);
        pytestCache.Set(prefix + "-delete-elapsed", stop - start);
        DeleteKeysOneByOne(old(pytestCache.entries), prefix, start, stop);
      }
    }

    /** `__enter__`. `start` and `stop` are the clock readings of lines 74
        and 85; `order` is the order in which the deploys finish. */
    method Enter(order: seq<nat>, start: int, stop: int) returns (r: Outcome<Error>)
      requires flags.create ==> IsPermutation(order, DeployWidth(Cfg()))
      modifies this, cluster, stack, pytestCache
      ensures (r, Snapshot()) == EnterSpec(Cfg(), cluster.faults, order, old(Snapshot()), start, stop)
    {
      if !flags.create {
        PushResourceExits();
        return Pass;
      }
      var deployed := DeployOntoSelf(order);
      if deployed.Err? {
        r := CleanupOnError(deployed.error);
        return;
      }
      var waited := WaitForRequestedStatus();
      if waited.Err? {
        r := CleanupOnError(waited.error);
        return;
      }
      RecordDeployTimes(start, stop);
      CleanupOnSuccess();
      r := Pass;
    }

    /** `__exit__`. `start` and `stop` are the clock readings of lines 110
        and 113. */
    method Exit(start: int, stop: int) returns (r: Outcome<Error>)
      modifies this, cluster, stack, pytestCache
      ensures (r, Snapshot()) == ExitSpec(Cfg(), cluster.faults, old(Snapshot()), start, stop)
    {
      if !flags.delete {
        return Pass;
      }
      CollectData(PreExit, collectDataStartTime);
      var deleted := ThreadedDeleteResources(cluster, resources);
      if deleted.Err? {
        r := CleanupOnError(deleted.error);
        return;
      }
      var waited := ThreadedWaitDeletedResources(cluster, resources);
      if waited.Err? {
        r := CleanupOnError(waited.error);
        return;
      }
      RecordDeleteTimes(start, stop);
      CleanupOnSuccess();
      r := Pass;
    }
  }
}
