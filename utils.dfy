/** The fan-out helpers of `ocp_scale_utilities/threaded/utils.py`. Each one
    applies one resource call to every item of a list on a pool with one worker
    per item and returns the items' answers in input order, raising the first
    error it reads. The pool is not modelled: the calls of a fan-out run one
    after the other, in input order, except where they push onto an exit
    stack; there the order in which the items finish is the parameter `order`,
    any permutation of the item indices. */
module ThreadedUtils {
  import opened Wrappers
  import opened Clusters
  import opened ExitStacks

  /** The status wait's default per-item timeout, TIMEOUT_2MIN, in seconds. */
  const Timeout2Min: int := 120

  /** One call of `op` per name, in input order. */
  function Calls(op: Op, names: seq<Name>): (calls: seq<Call>)
    ensures |calls| == |names|
    ensures forall i :: 0 <= i < |names| ==> calls[i] == Call(op, names[i])
  {
    seq(|names|, i requires 0 <= i < |names| => Call(op, names[i]))
  }

  /** `list(executor.map(...))`: reads the items' answers in input order and
      raises the first error it meets. */
  function Collect(replies: seq<Result<Reply, Error>>): Result<seq<Reply>, Error>
    decreases |replies|
  {
    if replies == [] then Ok([])
    else if replies[0].Err? then Err(replies[0].error)
    else match Collect(replies[1..])
      case Ok(rest) => Ok([replies[0].value] + rest)
      case Err(e) => Err(e)
  }

  /** The i-th answer is the first error. */
  predicate FirstErrorAt(replies: seq<Result<Reply, Error>>, i: nat)
  {
    i < |replies| && replies[i].Err? && forall j :: 0 <= j < i ==> replies[j].Ok?
  }

  /** Collecting keeps input order, succeeds exactly when every item did, and
      otherwise raises the error of the lowest failing index. */
  lemma {:induction false} CollectInOrder(replies: seq<Result<Reply, Error>>)
    ensures Collect(replies).Ok? <==> forall i :: 0 <= i < |replies| ==> replies[i].Ok?
    ensures Collect(replies).Ok? ==>
      |Collect(replies).value| == |replies| &&
      forall i :: 0 <= i < |replies| ==> Collect(replies).value[i] == replies[i].value
    ensures Collect(replies).Err? ==>
      exists i: nat :: FirstErrorAt(replies, i) && Collect(replies).error == replies[i].error
    decreases |replies|
  {
    if replies != [] && replies[0].Ok? {
      var rest := replies[1..];
      CollectInOrder(rest);
      forall i | 0 <= i < |rest| ensures rest[i] == replies[i + 1] { }
      if Collect(rest).Err? {
        var i: nat :| FirstErrorAt(rest, i) && Collect(rest).error == rest[i].error;
        assert FirstErrorAt(replies, i + 1);
      }
    } else if replies != [] {
      assert FirstErrorAt(replies, 0);
    }
  }

  /** A fan-out over `workers` threads making `calls`: what it answers, and
      the objects afterwards. A pool of zero workers refuses before any call. */
  function FanOutSpec(objects: Objects, faults: set<Call>, workers: nat, calls: seq<Call>): (Result<seq<Reply>, Error>, Objects)
  {
    if workers == 0 then (Err(NoWorkers), objects)
    else
      var (replies, after) := Run(objects, faults, calls);
      (Collect(replies), after)
  }

  /** The calls a fan-out over `workers` threads makes. */
  function FanOutLog(workers: nat, calls: seq<Call>): seq<Call>
  {
    if workers == 0 then [] else calls
  }

  /** A fan-out answers `op(resources[i])` at index i, or raises the error of
      the lowest failing index, or refuses an empty list. */
  lemma FanOutInOrder(objects: Objects, faults: set<Call>, op: Op, names: seq<Name>)
    ensures FanOutSpec(objects, faults, |names|, Calls(op, names)).0 == Err(NoWorkers) <==> |names| == 0
    ensures var r := FanOutSpec(objects, faults, |names|, Calls(op, names)).0;
      r.Ok? ==> |r.value| == |names| && forall i :: 0 <= i < |names| ==> r.value[i] == Ack(Call(op, names[i]))
    ensures var r := FanOutSpec(objects, faults, |names|, Calls(op, names)).0;
      r.Err? && |names| > 0 ==>
        exists i: nat :: FirstErrorAt(Run(objects, faults, Calls(op, names)).0, i) &&
          i < |names| && r.error == OperationFailed(Call(op, names[i]))
  {
    if |names| > 0 {
      var calls := Calls(op, names);
      var replies := Run(objects, faults, calls).0;
      RunReplies(objects, faults, calls);
      CollectInOrder(replies);
      var r := Collect(replies);
      assert FanOutSpec(objects, faults, |names|, calls).0 == r;
      if r.Err? {
        var i: nat :| FirstErrorAt(replies, i) && r.error == replies[i].error;
        assert replies[i] == Err(OperationFailed(calls[i]));
      } else {
        forall i | 0 <= i < |names| ensures r.value[i] == Ack(Call(op, names[i])) {
          assert replies[i] == Ok(Ack(calls[i]));
        }
      }
    }
  }

  /** Makes `calls` on the cluster, every one of them, and keeps their answers
      in input order. */
  method FanOut(cluster: Cluster, calls: seq<Call>) returns (replies: seq<Result<Reply, Error>>)
    modifies cluster
    ensures (replies, cluster.objects) == Run(old(cluster.objects), cluster.faults, calls)
    ensures cluster.log == old(cluster.log) + calls
  {
    replies := [];
    var i := 0;
    while i < |calls|
      invariant 0 <= i <= |calls|
      invariant (replies, cluster.objects) == Run(old(cluster.objects), cluster.faults, calls[..i])
      invariant cluster.log == old(cluster.log) + calls[..i]
    {
      var r := cluster.Perform(calls[i]);
      replies := replies + [r];
      assert calls[..i + 1][..i] == calls[..i];
      assert calls[..i + 1] == calls[..i] + [calls[i]];
      i := i + 1;
    }
    assert calls[..|calls|] == calls;
  }

  /** `threaded_clean_up_resources`. */
  method ThreadedCleanUpResources(cluster: Cluster, resources: seq<Name>) returns (r: Result<seq<Reply>, Error>)
    modifies cluster
    ensures (r, cluster.objects) == FanOutSpec(old(cluster.objects), cluster.faults, |resources|, Calls(CleanUp, resources))
    ensures cluster.log == old(cluster.log) + FanOutLog(|resources|, Calls(CleanUp, resources))
  {
    if |resources| == 0 {
      return Err(NoWorkers);
    }
    var replies := FanOut(cluster, Calls(CleanUp, resources));
    r := Collect(replies);
  }

  /** `threaded_delete_resources`. */
  method ThreadedDeleteResources(cluster: Cluster, resources: seq<Name>) returns (r: Result<seq<Reply>, Error>)
    modifies cluster
    ensures (r, cluster.objects) == FanOutSpec(old(cluster.objects), cluster.faults, |resources|, Calls(Delete, resources))
    ensures cluster.log == old(cluster.log) + FanOutLog(|resources|, Calls(Delete, resources))
  {
    if |resources| == 0 {
      return Err(NoWorkers);
    }
    var replies := FanOut(cluster, Calls(Delete, resources));
    r := Collect(replies);
  }

  /** `threaded_wait_deleted_resources`. */
  method ThreadedWaitDeletedResources(cluster: Cluster, resources: seq<Name>) returns (r: Result<seq<Reply>, Error>)
    modifies cluster
    ensures (r, cluster.objects) == FanOutSpec(old(cluster.objects), cluster.faults, |resources|, Calls(WaitDeleted, resources))
    ensures cluster.log == old(cluster.log) + FanOutLog(|resources|, Calls(WaitDeleted, resources))
  {
    if |resources| == 0 {
      return Err(NoWorkers);
    }
    var replies := FanOut(cluster, Calls(WaitDeleted, resources));
    r := Collect(replies);
  }

  /** `threaded_wait_for_resources_status`: every item waits for the same
      status with the same timeout (TIMEOUT_2MIN unless the caller says
      otherwise). */
  method ThreadedWaitForResourcesStatus(cluster: Cluster, resources: seq<Name>, status: Status, timeout: int)
    returns (r: Result<seq<Reply>, Error>)
    modifies cluster
    ensures (r, cluster.objects) ==
      FanOutSpec(old(cluster.objects), cluster.faults, |resources|, Calls(WaitForStatus(status, timeout), resources))
    ensures cluster.log == old(cluster.log) + FanOutLog(|resources|, Calls(WaitForStatus(status, timeout), resources))
  {
    if |resources| == 0 {
      return Err(NoWorkers);
    }
    var replies := FanOut(cluster, Calls(WaitForStatus(status, timeout), resources));
    r := Collect(replies);
  }

  // ---------------------------------------------------------------------
  // What the fan-outs leave on the cluster

  /** A fan-out over a list runs the fan-out over all but its last name, and
      then the call on that name. */
  lemma RunLast(objects: Objects, faults: set<Call>, op: Op, names: seq<Name>)
    requires names != []
    ensures var (replies, before) := Run(objects, faults, Calls(op, names[..|names| - 1]));
      var (reply, after) := Step(before, faults, Call(op, names[|names| - 1]));
      Run(objects, faults, Calls(op, names)) == (replies + [reply], after)
  {
    assert Calls(op, names)[..|names| - 1] == Calls(op, names[..|names| - 1]);
  }

  /** Deploys, in any order, create every named object whose deploy the
      fault plan lets through, leave existing objects as they were, and each
      one fails exactly when it is faulted. */
  lemma {:induction false} DeployRun(objects: Objects, faults: set<Call>, calls: seq<Call>)
    requires forall c :: c in calls ==> c.op == Deploy
    ensures var (replies, after) := Run(objects, faults, calls);
      && |replies| == |calls|
      && (forall n :: n in after <==> n in objects || (Call(Deploy, n) in calls && Call(Deploy, n) !in faults))
      && (forall n :: n in objects ==> after[n] == objects[n])
      && (forall i :: 0 <= i < |calls| ==> (replies[i].Ok? <==> calls[i] !in faults))
    decreases |calls|
  {
    if calls != [] {
      var front := calls[..|calls| - 1];
      var c := calls[|calls| - 1];
      assert calls == front + [c];
      assert forall d :: d in calls <==> d in front || d == c;
      DeployRun(objects, faults, front);
      var (replies, before) := Run(objects, faults, front);
      StepPromise(before, faults, c);
    }
  }

  /** A status wait sets the status of every existing named object whose wait
      the fault plan lets through, changes nothing else, and an item fails
      exactly when its object does not exist or its wait is faulted. */
  lemma {:induction false} StatusRun(objects: Objects, faults: set<Call>, status: Status, timeout: int, names: seq<Name>)
    ensures var (replies, after) := Run(objects, faults, Calls(WaitForStatus(status, timeout), names));
      && |replies| == |names|
      && (forall n :: n in after <==> n in objects)
      && (forall n :: n in objects && n in names && Call(WaitForStatus(status, timeout), n) !in faults ==>
            after[n] == objects[n].(status := status))
      && (forall n :: n in objects && n !in names ==> after[n] == objects[n])
      && (forall i :: 0 <= i < |names| ==>
            (replies[i].Ok? <==> names[i] in objects && Call(WaitForStatus(status, timeout), names[i]) !in faults))
    decreases |names|
  {
    if names != [] {
      var front := names[..|names| - 1];
      var x := names[|names| - 1];
      var op := WaitForStatus(status, timeout);
      RunLast(objects, faults, op, names);
      StatusRun(objects, faults, status, timeout, front);
      var (replies, before) := Run(objects, faults, Calls(op, front));
      StepPromise(before, faults, Call(op, x));
      assert forall n :: n in names <==> n in front || n == x;
    }
  }

  /** Deleting marks every named object whose delete the fault plan lets
      through as terminating, removes nothing, and an item fails exactly when
      its delete is faulted. */
  lemma {:induction false} DeleteRun(objects: Objects, faults: set<Call>, names: seq<Name>)
    ensures var (replies, after) := Run(objects, faults, Calls(Delete, names));
      && |replies| == |names|
      && (forall n :: n in after <==> n in objects)
      && (forall n :: n in objects && n in names && Call(Delete, n) !in faults ==>
            after[n] == objects[n].(terminating := true))
      && (forall n :: n in objects && n !in names ==> after[n] == objects[n])
      && (forall i :: 0 <= i < |names| ==> (replies[i].Ok? <==> Call(Delete, names[i]) !in faults))
    decreases |names|
  {
    if names != [] {
      var front := names[..|names| - 1];
      var x := names[|names| - 1];
      RunLast(objects, faults, Delete, names);
      DeleteRun(objects, faults, front);
      var (replies, before) := Run(objects, faults, Calls(Delete, front));
      StepPromise(before, faults, Call(Delete, x));
      assert forall n :: n in names <==> n in front || n == x;
    }
  }

  /** Waiting for deletion, when every named object is gone or terminating
      and no wait is faulted, succeeds for every item and leaves none of the
      named objects behind. */
  lemma {:induction false} WaitDeletedRun(objects: Objects, faults: set<Call>, names: seq<Name>)
    requires forall n :: n in names && n in objects ==> objects[n].terminating
    requires forall n :: n in names ==> Call(WaitDeleted, n) !in faults
    ensures var (replies, after) := Run(objects, faults, Calls(WaitDeleted, names));
      && |replies| == |names|
      && (forall n :: n in after <==> n in objects && n !in names)
      && (forall n :: n in after ==> after[n] == objects[n])
      && (forall i :: 0 <= i < |names| ==> replies[i].Ok?)
    decreases |names|
  {
    if names != [] {
      var front := names[..|names| - 1];
      var x := names[|names| - 1];
      assert forall n :: n in names <==> n in front || n == x;
      RunLast(objects, faults, WaitDeleted, names);
      WaitDeletedRun(objects, faults, front);
      var (replies, before) := Run(objects, faults, Calls(WaitDeleted, front));
      StepPromise(before, faults, Call(WaitDeleted, x));
    }
  }

  /** A deletion wait removes nothing it does not name and adds nothing, and
      the object of every item that answered is gone afterwards. */
  lemma {:induction false} WaitDeletedGone(objects: Objects, faults: set<Call>, names: seq<Name>)
    ensures var (replies, after) := Run(objects, faults, Calls(WaitDeleted, names));
      && |replies| == |names|
      && (forall n :: n in after ==> n in objects && after[n] == objects[n])
      && (forall i :: 0 <= i < |names| && replies[i].Ok? ==> names[i] !in after)
    decreases |names|
  {
    if names != [] {
      var front := names[..|names| - 1];
      var x := names[|names| - 1];
      RunLast(objects, faults, WaitDeleted, names);
      WaitDeletedGone(objects, faults, front);
      var (replies, before) := Run(objects, faults, Calls(WaitDeleted, front));
      StepPromise(before, faults, Call(WaitDeleted, x));
    }
  }

  /** Deleting a list and then waiting for its deletion, with no fault on
      either, answers every item of both fan-outs and leaves no named object
      on the cluster, and every other object as it was. */
  lemma DeleteThenWaitDeleted(objects: Objects, faults: set<Call>, names: seq<Name>)
    requires names != []
    requires forall n :: n in names ==> Call(Delete, n) !in faults && Call(WaitDeleted, n) !in faults
    ensures var (deleted, middle) := FanOutSpec(objects, faults, |names|, Calls(Delete, names));
      var (waited, after) := FanOutSpec(middle, faults, |names|, Calls(WaitDeleted, names));
      && deleted.Ok? && waited.Ok?
      && (forall n :: n in after <==> n in objects && n !in names)
      && (forall n :: n in after ==> after[n] == objects[n])
  {
    var (deletes, middle) := Run(objects, faults, Calls(Delete, names));
    DeleteRun(objects, faults, names);
    WaitDeletedRun(middle, faults, names);
    var (waits, after) := Run(middle, faults, Calls(WaitDeleted, names));
    CollectInOrder(deletes);
    CollectInOrder(waits);
  }

  /** Cleaning a list up and then waiting for its deletion, with no fault on
      either, answers every item of both fan-outs and leaves no named object
      on the cluster, and every other object as it was. */
  lemma CleanUpThenWaitDeleted(objects: Objects, faults: set<Call>, names: seq<Name>)
    requires names != []
    requires forall n :: n in names ==> Call(CleanUp, n) !in faults && Call(WaitDeleted, n) !in faults
    ensures var (cleaned, middle) := FanOutSpec(objects, faults, |names|, Calls(CleanUp, names));
      var (waited, after) := FanOutSpec(middle, faults, |names|, Calls(WaitDeleted, names));
      && cleaned.Ok? && waited.Ok?
      && (forall n :: n in after <==> n in objects && n !in names)
      && (forall n :: n in after ==> after[n] == objects[n])
  {
    var calls := Calls(CleanUp, names);
    forall c | c in calls ensures c.op == CleanUp && c !in faults {
      var i :| 0 <= i < |calls| && calls[i] == c;
    }
    CleanUpRun(objects, faults, calls);
    var (cleanups, middle) := Run(objects, faults, calls);
    forall n ensures Call(CleanUp, n) in calls <==> n in names {
      if n in names {
        var i :| 0 <= i < |names| && names[i] == n;
        assert calls[i] == Call(CleanUp, n);
      }
    }
    WaitDeletedRun(middle, faults, names);
    RunReplies(objects, faults, calls);
    CollectInOrder(cleanups);
    var (waits, after) := Run(middle, faults, Calls(WaitDeleted, names));
    CollectInOrder(waits);
  }

  // ---------------------------------------------------------------------
  // Deploying onto an exit stack

  function Indices(n: nat): (s: seq<nat>)
    ensures |s| == n && forall i :: 0 <= i < n ==> s[i] == i
  {
    seq(n, i requires 0 <= i < n => i)
  }

  /** `order` lists each of the indices 0 .. n-1 exactly once. */
  predicate IsPermutation(order: seq<nat>, n: nat)
  {
    && (forall k :: 0 <= k < |order| ==> order[k] < n)
    && multiset(order) == multiset(Indices(n))
  }

  /** The calls in the order the items finish. */
  function Scheduled(calls: seq<Call>, order: seq<nat>): (s: seq<Call>)
    requires forall k :: 0 <= k < |order| ==> order[k] < |calls|
    ensures |s| == |order| && forall k :: 0 <= k < |order| ==> s[k] == calls[order[k]]
  {
    seq(|order|, k requires 0 <= k < |order| => calls[order[k]])
  }

  /** What item i pushes: its exit, if its deploy succeeded. */
  function PushedFor(faults: set<Call>, calls: seq<Call>, exits: seq<Callback>, i: nat): seq<Callback>
  {
    if i < |calls| && i < |exits| && calls[i] !in faults then [exits[i]] else []
  }

  /** The exits pushed when the items finish in `order`. */
  function Pushed(faults: set<Call>, calls: seq<Call>, exits: seq<Callback>, order: seq<nat>): seq<Callback>
    decreases |order|
  {
    if order == [] then []
    else Pushed(faults, calls, exits, order[..|order| - 1]) + PushedFor(faults, calls, exits, order[|order| - 1])
  }

  /** The stack variants answer `None` per item, or that item's deploy error. */
  function StackReplies(faults: set<Call>, calls: seq<Call>): (replies: seq<Result<Reply, Error>>)
    ensures |replies| == |calls|
  {
    seq(|calls|, i requires 0 <= i < |calls| =>
      if calls[i] in faults then Err(OperationFailed(calls[i])) else Ok(NoValue))
  }

  lemma {:induction false} PushedAppend(faults: set<Call>, calls: seq<Call>, exits: seq<Callback>, xs: seq<nat>, ys: seq<nat>)
    ensures Pushed(faults, calls, exits, xs + ys) == Pushed(faults, calls, exits, xs) + Pushed(faults, calls, exits, ys)
    decreases |ys|
  {
    if ys == [] {
      assert xs + ys == xs;
    } else {
      var front := ys[..|ys| - 1];
      assert (xs + ys)[..|xs + ys| - 1] == xs + front;
      assert (xs + ys)[|xs + ys| - 1] == ys[|ys| - 1];
      PushedAppend(faults, calls, exits, xs, front);
    }
  }

  /** Taking item j out of a completion order takes its push out. */
  lemma PushedRemoveAt(faults: set<Call>, calls: seq<Call>, exits: seq<Callback>, ys: seq<nat>, j: nat)
    requires j < |ys|
    ensures multiset(Pushed(faults, calls, exits, ys))
      == multiset(Pushed(faults, calls, exits, ys[..j] + ys[j + 1..])) + multiset(PushedFor(faults, calls, exits, ys[j]))
  {
    var x := ys[j];
    assert ys == ys[..j] + [x] + ys[j + 1..];
    PushedAppend(faults, calls, exits, ys[..j], [x]);
    PushedAppend(faults, calls, exits, ys[..j] + [x], ys[j + 1..]);
    PushedAppend(faults, calls, exits, ys[..j], ys[j + 1..]);
    assert [x][..0] == [];
    assert Pushed(faults, calls, exits, [x]) == PushedFor(faults, calls, exits, x);
  }

  /** Pushes depend only on which items finished, not on the order they
      finished in: reordering the items permutes the pushes. */
  lemma {:induction false} PushedRespectsMultiset(faults: set<Call>, calls: seq<Call>, exits: seq<Callback>, xs: seq<nat>, ys: seq<nat>)
    requires multiset(xs) == multiset(ys)
    ensures multiset(Pushed(faults, calls, exits, xs)) == multiset(Pushed(faults, calls, exits, ys))
    decreases |xs|
  {
    if xs == [] {
      assert |ys| == |multiset(ys)| == 0;
    } else {
      var x := xs[|xs| - 1];
      var xs' := xs[..|xs| - 1];
      assert xs == xs' + [x];
      assert x in multiset(ys);
      var j :| 0 <= j < |ys| && ys[j] == x;
      var ys' := ys[..j] + ys[j + 1..];
      assert ys == ys[..j] + [x] + ys[j + 1..];
      assert multiset(ys') == multiset(ys) - multiset{x};
      assert multiset(xs') == multiset(xs) - multiset{x};
      PushedRespectsMultiset(faults, calls, exits, xs', ys');
      PushedRemoveAt(faults, calls, exits, ys, j);
    }
  }

  /** A callback is pushed exactly when it is the exit of an item whose deploy
      succeeded. */
  lemma {:induction false} PushedMembers(faults: set<Call>, calls: seq<Call>, exits: seq<Callback>, xs: seq<nat>)
    requires |exits| == |calls|
    requires forall k :: 0 <= k < |xs| ==> xs[k] < |calls|
    ensures forall cb :: cb in Pushed(faults, calls, exits, xs) <==>
      exists k :: 0 <= k < |xs| && calls[xs[k]] !in faults && exits[xs[k]] == cb
    decreases |xs|
  {
    if xs != [] {
      var front := xs[..|xs| - 1];
      PushedMembers(faults, calls, exits, front);
      forall cb ensures cb in Pushed(faults, calls, exits, xs) <==>
        exists k :: 0 <= k < |xs| && calls[xs[k]] !in faults && exits[xs[k]] == cb
      {
        if exists k :: 0 <= k < |xs| && calls[xs[k]] !in faults && exits[xs[k]] == cb {
          var k :| 0 <= k < |xs| && calls[xs[k]] !in faults && exits[xs[k]] == cb;
          if k < |xs| - 1 {
            assert front[k] == xs[k];
          }
        }
        if cb in Pushed(faults, calls, exits, front) {
          var k :| 0 <= k < |front| && calls[front[k]] !in faults && exits[front[k]] == cb;
          assert xs[k] == front[k];
        }
      }
    }
  }

  /** Whatever order the items finish in, the pushed exits are a permutation
      of the exits of the items whose deploy succeeded, taken in input order;
      the exit of every such item is pushed, and no other. */
  lemma StackPushesPermuteInputOrder(faults: set<Call>, calls: seq<Call>, exits: seq<Callback>, order: seq<nat>)
    requires |exits| == |calls|
    requires IsPermutation(order, |calls|)
    ensures multiset(Pushed(faults, calls, exits, order)) == multiset(Pushed(faults, calls, exits, Indices(|calls|)))
    ensures forall cb :: cb in Pushed(faults, calls, exits, order) <==>
      exists i :: 0 <= i < |calls| && calls[i] !in faults && exits[i] == cb
  {
    var ids := Indices(|calls|);
    PushedRespectsMultiset(faults, calls, exits, order, ids);
    PushedMembers(faults, calls, exits, order);
    forall cb ensures cb in Pushed(faults, calls, exits, order) <==>
      exists i :: 0 <= i < |calls| && calls[i] !in faults && exits[i] == cb
    {
      if exists i :: 0 <= i < |calls| && calls[i] !in faults && exits[i] == cb {
        var i :| 0 <= i < |calls| && calls[i] !in faults && exits[i] == cb;
        assert ids[i] == i;
        assert i in multiset(order);
        var k :| 0 <= k < |order| && order[k] == i;
      }
    }
  }

  /** Items finishing in input order, none of them failing, push every exit
      in input order. */
  lemma {:induction false} PushedInputOrder(faults: set<Call>, calls: seq<Call>, exits: seq<Callback>, n: nat)
    requires n <= |calls| && n <= |exits|
    requires forall i :: 0 <= i < n ==> calls[i] !in faults
    ensures Pushed(faults, calls, exits, Indices(n)) == exits[..n]
    decreases n
  {
    if n > 0 {
      assert Indices(n)[..n - 1] == Indices(n - 1);
      PushedInputOrder(faults, calls, exits, n - 1);
      assert exits[..n] == exits[..n - 1] + [exits[n - 1]];
    }
  }

  /** The i-th call is the first one the fault plan fails. */
  predicate FirstFaultAt(faults: set<Call>, calls: seq<Call>, i: nat)
  {
    i < |calls| && calls[i] in faults && forall j :: 0 <= j < i ==> calls[j] !in faults
  }

  /** The stack variants raise exactly when some item's deploy failed, and
      then the error of the lowest failing index; otherwise they answer `None`
      for every item. */
  lemma StackRepliesOutcome(faults: set<Call>, calls: seq<Call>)
    ensures Collect(StackReplies(faults, calls)).Ok? <==> forall i :: 0 <= i < |calls| ==> calls[i] !in faults
    ensures Collect(StackReplies(faults, calls)).Ok? ==>
      Collect(StackReplies(faults, calls)).value == seq(|calls|, _ => NoValue)
    ensures var r := Collect(StackReplies(faults, calls));
      r.Err? ==> exists i: nat :: FirstFaultAt(faults, calls, i) && r.error == OperationFailed(calls[i])
  {
    var replies := StackReplies(faults, calls);
    CollectInOrder(replies);
    var r := Collect(replies);
    if r.Err? {
      var i: nat :| FirstErrorAt(replies, i) && r.error == replies[i].error;
      assert FirstFaultAt(faults, calls, i) by {
        forall j | 0 <= j < i ensures calls[j] !in faults {
          assert replies[j].Ok?;
        }
      }
    } else {
      assert forall i :: 0 <= i < |calls| ==> replies[i].Ok? ==> calls[i] !in faults;
      assert r.value == seq(|calls|, _ => NoValue);
    }
  }

  lemma PermutationLength(order: seq<nat>, n: nat)
    requires IsPermutation(order, n)
    ensures |order| == n
  {
    assert |order| == |multiset(order)| == |multiset(Indices(n))| == n;
  }

  /** A completion order has one entry per item and names every item. */
  lemma PermutationCovers(order: seq<nat>, n: nat)
    requires IsPermutation(order, n)
    ensures |order| == n
    ensures forall i :: 0 <= i < n ==> i in order
  {
    PermutationLength(order, n);
    forall i | 0 <= i < n ensures i in order {
      assert Indices(n)[i] == i;
      assert i in multiset(Indices(n));
    }
  }

  /** Finishing the (k+1)-th item extends the schedule, the run and the
      pushes by that item alone. */
  lemma ScheduledStep(objects: Objects, faults: set<Call>, calls: seq<Call>, exits: seq<Callback>, order: seq<nat>, k: nat)
    requires k < |order|
    requires forall j :: 0 <= j < |order| ==> order[j] < |calls|
    ensures order[..k + 1] == order[..k] + [order[k]]
    ensures Scheduled(calls, order[..k + 1]) == Scheduled(calls, order[..k]) + [calls[order[k]]]
    ensures Run(objects, faults, Scheduled(calls, order[..k + 1])).1
      == Step(Run(objects, faults, Scheduled(calls, order[..k])).1, faults, calls[order[k]]).1
    ensures Pushed(faults, calls, exits, order[..k + 1])
      == Pushed(faults, calls, exits, order[..k]) + PushedFor(faults, calls, exits, order[k])
  {
    assert order[..k + 1][..k] == order[..k];
    var s := Scheduled(calls, order[..k + 1]);
    assert s[..k] == Scheduled(calls, order[..k]);
    assert s == Scheduled(calls, order[..k]) + [calls[order[k]]];
  }

  /** One item of the stack variants: deploy it, and once that succeeded push
      its exit; a failed deploy pushes nothing. */
  method DeployOne(cluster: Cluster, stack: ExitStack, c: Call, cb: Callback) returns (r: Result<Reply, Error>)
    requires c.op == Deploy
    modifies cluster, stack
    ensures r.Ok? <==> c !in cluster.faults
    ensures r.Err? ==> r == Err(OperationFailed(c))
    ensures (r, cluster.objects) == Step(old(cluster.objects), cluster.faults, c)
    ensures cluster.log == old(cluster.log) + [c]
    ensures stack.callbacks == old(stack.callbacks) + (if r.Ok? then [cb] else [])
  {
    r := cluster.Perform(c);
    if r.Ok? {
      stack.Push(cb);
    }
  }

  /** The answers of the stack variants once the items in `done` finished:
      a finished item whose deploy failed holds its error, every other item
      `None`. */
  function Answered(faults: set<Call>, calls: seq<Call>, done: seq<nat>): (replies: seq<Result<Reply, Error>>)
    ensures |replies| == |calls|
  {
    seq(|calls|, i requires 0 <= i < |calls| =>
      if i in done && calls[i] in faults then Err(OperationFailed(calls[i])) else Ok(NoValue))
  }

  /** Item i finishing changes its own answer only, and only if its deploy
      failed. */
  lemma AnsweredStep(faults: set<Call>, calls: seq<Call>, done: seq<nat>, i: nat)
    requires i < |calls|
    ensures calls[i] !in faults ==> Answered(faults, calls, done + [i]) == Answered(faults, calls, done)
    ensures calls[i] in faults ==>
      Answered(faults, calls, done + [i]) == Answered(faults, calls, done)[i := Err(OperationFailed(calls[i]))]
  {
  }

  /** Once every item finished, the answers are those of the stack variants. */
  lemma AnsweredAll(faults: set<Call>, calls: seq<Call>, done: seq<nat>)
    requires forall i :: 0 <= i < |calls| ==> i in done
    ensures Answered(faults, calls, done) == StackReplies(faults, calls)
  {
  }

  /** The k-th item to finish: it is deployed (and its exit pushed), and its
      answer is recorded at its own index. */
  method FinishNext(cluster: Cluster, stack: ExitStack, calls: seq<Call>, exits: seq<Callback>, order: seq<nat>, k: nat,
                    replies: seq<Result<Reply, Error>>)
    returns (replies': seq<Result<Reply, Error>>)
    requires forall c :: c in calls ==> c.op == Deploy
    requires |exits| == |calls|
    requires k < |order| && forall j :: 0 <= j < |order| ==> order[j] < |calls|
    requires replies == Answered(cluster.faults, calls, order[..k])
    modifies cluster, stack
    ensures replies' == Answered(cluster.faults, calls, order[..k + 1])
    ensures cluster.log == old(cluster.log) + [calls[order[k]]]
    ensures cluster.objects == Step(old(cluster.objects), cluster.faults, calls[order[k]]).1
    ensures stack.callbacks == old(stack.callbacks) + PushedFor(cluster.faults, calls, exits, order[k])
  {
    var i := order[k];
    var r := DeployOne(cluster, stack, calls[i], exits[i]);
    assert order[..k + 1] == order[..k] + [i];
    AnsweredStep(cluster.faults, calls, order[..k], i);
    replies' := replies;
    if r.Err? {
      replies' := replies'[i := r];
    }
  }

  /** Deploys every item in the order the items finish, pushing an item's
      exit onto `stack` as soon as its deploy succeeded. Answers per item in
      input order. */
  method DeployOntoStack(cluster: Cluster, stack: ExitStack, calls: seq<Call>, exits: seq<Callback>, order: seq<nat>)
    returns (replies: seq<Result<Reply, Error>>)
    requires forall c :: c in calls ==> c.op == Deploy
    requires |exits| == |calls|
    requires |order| == |calls| && forall j :: 0 <= j < |order| ==> order[j] < |calls|
    requires forall i :: 0 <= i < |calls| ==> i in order
    modifies cluster, stack
    ensures replies == StackReplies(cluster.faults, calls)
    ensures cluster.log == old(cluster.log) + Scheduled(calls, order)
    ensures cluster.objects == Run(old(cluster.objects), cluster.faults, Scheduled(calls, order)).1
    ensures stack.callbacks == old(stack.callbacks) + Pushed(cluster.faults, calls, exits, order)
  {
    var n := |calls|;
    replies := seq(n, _ => Ok(NoValue));
    assert replies == Answered(cluster.faults, calls, order[..0]);
    var k := 0;
    while k < n
      invariant 0 <= k <= n
      invariant replies == Answered(cluster.faults, calls, order[..k])
      invariant cluster.log == old(cluster.log) + Scheduled(calls, order[..k])
      invariant cluster.objects == Run(old(cluster.objects), cluster.faults, Scheduled(calls, order[..k])).1
      invariant stack.callbacks == old(stack.callbacks) + Pushed(cluster.faults, calls, exits, order[..k])
    {
      ScheduledStep(old(cluster.objects), cluster.faults, calls, exits, order, k);
      replies := FinishNext(cluster, stack, calls, exits, order, k, replies);
      k := k + 1;
    }
    assert order[..n] == order;
    AnsweredAll(cluster.faults, calls, order);
  }

  /** `threaded_deploy_resources`: with an exit stack each item is entered
      as a context (deployed, then its exit pushed) and answers `None`;
      without one each item answers its `deploy()`. */
  method ThreadedDeployResources(cluster: Cluster, resources: seq<Name>, exitStack: ExitStack?, order: seq<nat>)
    returns (r: Result<seq<Reply>, Error>)
    requires exitStack != null ==> IsPermutation(order, |resources|)
    modifies cluster, exitStack
    ensures |resources| == 0 ==> r == Err(NoWorkers) && cluster.log == old(cluster.log) && cluster.objects == old(cluster.objects)
    ensures |resources| == 0 && exitStack != null ==> exitStack.callbacks == old(exitStack.callbacks)
    ensures |resources| > 0 && exitStack == null ==>
      && (r, cluster.objects) == FanOutSpec(old(cluster.objects), cluster.faults, |resources|, Calls(Deploy, resources))
      && cluster.log == old(cluster.log) + Calls(Deploy, resources)
    ensures |resources| > 0 && exitStack != null ==>
      && r == Collect(StackReplies(cluster.faults, Calls(Deploy, resources)))
      && cluster.log == old(cluster.log) + Scheduled(Calls(Deploy, resources), order)
      && cluster.objects == Run(old(cluster.objects), cluster.faults, Scheduled(Calls(Deploy, resources), order)).1
      && exitStack.callbacks == old(exitStack.callbacks) + Pushed(cluster.faults, Calls(Deploy, resources), Exits(resources), order)
  {
    if |resources| == 0 {
      return Err(NoWorkers);
    }
    if exitStack != null {
      PermutationCovers(order, |resources|);
      var replies := DeployOntoStack(cluster, exitStack, Calls(Deploy, resources), Exits(resources), order);
      r := Collect(replies);
    } else {
      var replies := FanOut(cluster, Calls(Deploy, resources));
      r := Collect(replies);
    }
  }

  function Min(a: nat, b: nat): nat
  {
    if a < b then a else b
  }

  /** `threaded_deploy_requested_resources`: pairs `request_resources[i]`
      with `resources[i]` as `zip` does, so only the shorter length is
      processed, on a pool sized by `resources`. Only the request is
      deployed; with an exit stack the managed resource's exit is pushed once
      that deploy succeeded and the item answers `None`, without one the item
      answers the request's `deploy()`. */
  method ThreadedDeployRequestedResources(cluster: Cluster, resources: seq<Name>, requestResources: seq<Name>,
                                          exitStack: ExitStack?, order: seq<nat>)
    returns (r: Result<seq<Reply>, Error>)
    requires exitStack != null ==> IsPermutation(order, Min(|resources|, |requestResources|))
    modifies cluster, exitStack
    ensures var m := Min(|resources|, |requestResources|);
      var requests := requestResources[..m];
      && (|resources| == 0 ==> r == Err(NoWorkers) && cluster.log == old(cluster.log) && cluster.objects == old(cluster.objects))
      && (|resources| == 0 && exitStack != null ==> exitStack.callbacks == old(exitStack.callbacks))
      && (|resources| > 0 && exitStack == null ==>
          && (r, cluster.objects) == FanOutSpec(old(cluster.objects), cluster.faults, |resources|, Calls(Deploy, requests))
          && cluster.log == old(cluster.log) + Calls(Deploy, requests))
      && (|resources| > 0 && exitStack != null ==>
          && r == Collect(StackReplies(cluster.faults, Calls(Deploy, requests)))
          && cluster.log == old(cluster.log) + Scheduled(Calls(Deploy, requests), order)
          && cluster.objects == Run(old(cluster.objects), cluster.faults, Scheduled(Calls(Deploy, requests), order)).1
          && exitStack.callbacks == old(exitStack.callbacks) +
               Pushed(cluster.faults, Calls(Deploy, requests), Exits(resources[..m]), order))
  {
    if |resources| == 0 {
      return Err(NoWorkers);
    }
    var m := Min(|resources|, |requestResources|);
    if exitStack != null {
      PermutationCovers(order, m);
      var replies := DeployOntoStack(cluster, exitStack, Calls(Deploy, requestResources[..m]), Exits(resources[..m]), order);
      r := Collect(replies);
    } else {
      var replies := FanOut(cluster, Calls(Deploy, requestResources[..m]));
      r := Collect(replies);
    }
  }
}
