/** The part of Python's `contextlib.ExitStack` the orchestrator relies on: a
    stack of exit callbacks that is pushed onto and, when unwound, calls the
    callbacks from the most recently pushed to the first. The only callbacks the
    scale utilities push are managed resources' `__exit__`, which clean the
    resource up. */
module ExitStacks {
  import opened Wrappers
  import opened Clusters

  /** A managed resource's `__exit__`: cleans up the resource it names. */
  datatype Callback = ResourceExit(name: Name)

  function Exits(names: seq<Name>): (exits: seq<Callback>)
    ensures |exits| == |names|
    ensures forall i :: 0 <= i < |names| ==> exits[i].name == names[i]
  {
    seq(|names|, i requires 0 <= i < |names| => ResourceExit(names[i]))
  }

  /** The cluster call a callback makes. */
  function ExitCall(cb: Callback): Call
  {
    Call(CleanUp, cb.name)
  }

  /** The calls an unwinding makes: take the last callback off the stack,
      call it, and go on with the rest. */
  function UnwindCalls(callbacks: seq<Callback>): seq<Call>
    decreases |callbacks|
  {
    if callbacks == [] then []
    else [ExitCall(callbacks[|callbacks| - 1])] + UnwindCalls(callbacks[..|callbacks| - 1])
  }

  /** The exception an unwinding raises: the last one a callback raised (each
      later one replaces the earlier), or else the one that started it. */
  function Raised(exc: Option<Error>, replies: seq<Result<Reply, Error>>): (raised: Option<Error>)
    ensures exc.Some? ==> raised.Some?
    decreases |replies|
  {
    if replies == [] then exc
    else if replies[|replies| - 1].Err? then Some(replies[|replies| - 1].error)
    else Raised(exc, replies[..|replies| - 1])
  }

  /** Unwinding is last-in, first-out: the k-th call cleans up the k-th
      callback counted from the top of the stack. */
  lemma {:induction false} UnwindIsLifo(callbacks: seq<Callback>)
    ensures |UnwindCalls(callbacks)| == |callbacks|
    ensures forall k :: 0 <= k < |callbacks| ==>
      UnwindCalls(callbacks)[k] == ExitCall(callbacks[|callbacks| - 1 - k])
    decreases |callbacks|
  {
    if callbacks != [] {
      UnwindIsLifo(callbacks[..|callbacks| - 1]);
    }
  }

  /** Unwinding `a + b` unwinds `b` first, then `a`. */
  lemma {:induction false} UnwindAppend(a: seq<Callback>, b: seq<Callback>)
    ensures UnwindCalls(a + b) == UnwindCalls(b) + UnwindCalls(a)
    decreases |b|
  {
    if b == [] {
      assert a + b == a;
    } else {
      assert (a + b)[..|a + b| - 1] == a + b[..|b| - 1];
      UnwindAppend(a, b[..|b| - 1]);
    }
  }

  /** No reply after the i-th is an error. */
  predicate LastErrorAt(replies: seq<Result<Reply, Error>>, i: nat)
  {
    forall j :: i < j < |replies| ==> replies[j].Ok?
  }

  /** An unwinding in which no callback raised lets the original exception out. */
  lemma {:induction false} RaisedWhenAllOk(exc: Option<Error>, replies: seq<Result<Reply, Error>>)
    requires forall i :: 0 <= i < |replies| ==> replies[i].Ok?
    ensures Raised(exc, replies) == exc
    decreases |replies|
  {
    if replies != [] {
      var front := replies[..|replies| - 1];
      assert replies[|replies| - 1].Ok?;
      assert forall j :: 0 <= j < |front| ==> front[j] == replies[j];
      RaisedWhenAllOk(exc, front);
    }
  }

  /** The error of the i-th callback leaves when no later callback raised. */
  lemma {:induction false} RaisedLastError(exc: Option<Error>, replies: seq<Result<Reply, Error>>, i: nat)
    requires i < |replies| && replies[i].Err? && LastErrorAt(replies, i)
    ensures Raised(exc, replies) == Some(replies[i].error)
    decreases |replies|
  {
    if i < |replies| - 1 {
      var front := replies[..|replies| - 1];
      assert replies[|replies| - 1].Ok?;
      assert forall j :: 0 <= j < |front| ==> front[j] == replies[j];
      RaisedLastError(exc, front, i);
    }
  }

  /** The exception that started an unwinding leaves it unchanged exactly
      when no callback raised; otherwise the last callback error leaves it. */
  lemma RaisedKeepsOriginal(exc: Option<Error>, replies: seq<Result<Reply, Error>>)
    ensures (forall i :: 0 <= i < |replies| ==> replies[i].Ok?) ==> Raised(exc, replies) == exc
    ensures forall i :: 0 <= i < |replies| && replies[i].Err? && LastErrorAt(replies, i) ==>
      Raised(exc, replies) == Some(replies[i].error)
  {
    if forall i :: 0 <= i < |replies| ==> replies[i].Ok? {
      RaisedWhenAllOk(exc, replies);
    }
    forall i | 0 <= i < |replies| && replies[i].Err? && LastErrorAt(replies, i)
      ensures Raised(exc, replies) == Some(replies[i].error)
    {
      RaisedLastError(exc, replies, i);
    }
  }

  /** Clean-ups the fault plan lets through all answer, and remove exactly the
      objects they name. */
  lemma {:induction false} CleanUpRun(objects: Objects, faults: set<Call>, calls: seq<Call>)
    requires forall c :: c in calls ==> c.op == CleanUp && c !in faults
    ensures var (replies, after) := Run(objects, faults, calls);
      && (forall i :: 0 <= i < |replies| ==> replies[i].Ok?)
      && (forall n :: n in after <==> n in objects && Call(CleanUp, n) !in calls)
      && (forall n :: n in after ==> after[n] == objects[n])
    decreases |calls|
  {
    if calls != [] {
      var front := calls[..|calls| - 1];
      assert forall c :: c in front ==> c in calls;
      CleanUpRun(objects, faults, front);
      assert calls == front + [calls[|calls| - 1]];
    }
  }

  /** An unwinding whose clean-ups the fault plan lets through removes every
      resource on the stack, leaves every other object as it was, and raises
      only the exception that started it. */
  lemma UnwindCleansUp(objects: Objects, faults: set<Call>, callbacks: seq<Callback>, exc: Option<Error>)
    requires forall cb :: cb in callbacks ==> ExitCall(cb) !in faults
    ensures var (replies, after) := Run(objects, faults, UnwindCalls(callbacks));
      && (forall n :: n in after <==> n in objects && ResourceExit(n) !in callbacks)
      && (forall n :: n in after ==> after[n] == objects[n])
      && Raised(exc, replies) == exc
  {
    var calls := UnwindCalls(callbacks);
    UnwindIsLifo(callbacks);
    forall c | c in calls
      ensures c.op == CleanUp && c !in faults
    {
      var k :| 0 <= k < |calls| && calls[k] == c;
      assert callbacks[|callbacks| - 1 - k] in callbacks;
    }
    CleanUpRun(objects, faults, calls);
    forall n
      ensures Call(CleanUp, n) in calls <==> ResourceExit(n) in callbacks
    {
      if Call(CleanUp, n) in calls {
        var k :| 0 <= k < |calls| && calls[k] == Call(CleanUp, n);
        assert callbacks[|callbacks| - 1 - k] == ResourceExit(n);
      }
      if ResourceExit(n) in callbacks {
        var j :| 0 <= j < |callbacks| && callbacks[j] == ResourceExit(n);
        assert calls[|callbacks| - 1 - j] == Call(CleanUp, n);
      }
    }
    RaisedKeepsOriginal(exc, Run(objects, faults, calls).0);
  }

  class ExitStack {
    var callbacks: seq<Callback>

    constructor()
      ensures callbacks == []
    {
      callbacks := [];
    }

    method Push(cb: Callback)
      modifies this
      ensures callbacks == old(callbacks) + [cb]
    {
      callbacks := callbacks + [cb];
    }

    /** `__exit__` of the stack itself: pops and calls every callback, last
        pushed first, going on when one raises, and leaves the stack empty.
        No callback suppresses, so it never swallows `exc`. */
    method Unwind(cluster: Cluster, exc: Option<Error>) returns (raised: Option<Error>)
      modifies this, cluster
      ensures callbacks == []
      ensures cluster.log == old(cluster.log) + UnwindCalls(old(callbacks))
      ensures var (replies, after) := Run(old(cluster.objects), cluster.faults, UnwindCalls(old(callbacks)));
        cluster.objects == after && raised == Raised(exc, replies)
    {
      raised := exc;
      ghost var replies: seq<Result<Reply, Error>> := [];
      while callbacks != []
        invariant callbacks == old(callbacks)[..|callbacks|]
        invariant cluster.log == old(cluster.log) + UnwindCalls(old(callbacks)[|callbacks|..])
        invariant (replies, cluster.objects) == Run(old(cluster.objects), cluster.faults, UnwindCalls(old(callbacks)[|callbacks|..]))
        invariant raised == Raised(exc, replies)
        decreases |callbacks|
      {
        var cb := callbacks[|callbacks| - 1];
        ghost var popped := old(callbacks)[|callbacks|..];
        callbacks := callbacks[..|callbacks| - 1];
        assert old(callbacks)[|callbacks|..] == [cb] + popped;
        UnwindAppend([cb], popped);
        assert UnwindCalls([cb]) == [ExitCall(cb)];
        var r := cluster.Perform(ExitCall(cb));
        ghost var calls := UnwindCalls(popped) + [ExitCall(cb)];
        assert calls[..|calls| - 1] == UnwindCalls(popped);
        ghost var prev := replies;
        replies := replies + [r];
        assert replies[..|replies| - 1] == prev;
        if r.Err? {
          raised := Some(r.error);
        }
      }
    }
  }
}
