/** The cluster as the scale utilities see it: named resources that exist or
    not, each with an observed status, and the five calls the utilities make on
    a resource handle (deploy, delete, wait_deleted, clean_up, wait_for_status).
    Which calls fail is fixed by a fault plan, so that every failure pattern is
    one value of the model. Every call is appended to a log, in the order it was
    made. */
module Clusters {
  import opened Wrappers

  type Name = string
  type Status = string

  /** The operation a call performs on the resource named in it. */
  datatype Op =
    | Deploy
    | Delete
    | WaitDeleted
    | CleanUp
    | WaitForStatus(status: Status, timeout: int)

  datatype Call = Call(op: Op, name: Name)

  /** An object that exists on the cluster; `terminating` once a delete was issued. */
  datatype Obj = Obj(status: Status, terminating: bool)

  type Objects = map<Name, Obj>

  /** What a fan-out can raise: the error of one call, or the worker pool's
      refusal of zero workers. */
  datatype Error = OperationFailed(call: Call) | NoWorkers

  /** What a call returns: its acknowledgement, or Python's `None`. */
  datatype Reply = Ack(call: Call) | NoValue

  /** The status a freshly created object reports before it is observed. */
  const CreatedStatus: Status := "Pending"

  /** Whether the cluster answers `c` with an error: the fault plan says so, a
      status wait names an object that does not exist (its status never comes),
      or a deletion wait names a live object nobody deleted (it never goes). */
  predicate Fails(objects: Objects, faults: set<Call>, c: Call)
  {
    || c in faults
    || (c.op.WaitForStatus? && c.name !in objects)
    || (c.op == WaitDeleted && c.name in objects && !objects[c.name].terminating)
  }

  /** The objects after `c` succeeded. */
  function Effect(objects: Objects, c: Call): Objects
  {
    match c.op
    case Deploy =>
      if c.name in objects then objects else objects[c.name := Obj(CreatedStatus, false)]
    case WaitForStatus(status, _) =>
      if c.name in objects then objects[c.name := objects[c.name].(status := status)] else objects
    case Delete =>
      if c.name in objects then objects[c.name := objects[c.name].(terminating := true)] else objects
    case WaitDeleted => objects - {c.name}
    case CleanUp => objects - {c.name}
  }

  /** One call: its reply and the objects afterwards. A failed call changes nothing. */
  function Step(objects: Objects, faults: set<Call>, c: Call): (Result<Reply, Error>, Objects)
  {
    if Fails(objects, faults, c) then (Err(OperationFailed(c)), objects)
    else (Ok(Ack(c)), Effect(objects, c))
  }

  /** The calls made one after the other: every call runs, whatever the
      earlier ones answered. */
  function Run(objects: Objects, faults: set<Call>, calls: seq<Call>): (seq<Result<Reply, Error>>, Objects)
    decreases |calls|
  {
    if calls == [] then ([], objects)
    else
      var (replies, before) := Run(objects, faults, calls[..|calls| - 1]);
      var (reply, after) := Step(before, faults, calls[|calls| - 1]);
      (replies + [reply], after)
  }

  /** A call touches only the object it names, and a successful call leaves
      that object as its operation promises. */
  lemma StepPromise(objects: Objects, faults: set<Call>, c: Call)
    ensures var (reply, after) := Step(objects, faults, c);
      && (reply == Ok(Ack(c)) || reply == Err(OperationFailed(c)))
      && (reply.Ok? <==> !Fails(objects, faults, c))
      && (forall n :: n != c.name ==> (n in after <==> n in objects))
      && (forall n :: n != c.name && n in objects ==> after[n] == objects[n])
      && (reply.Ok? ==> match c.op
          case Deploy => c.name in after
          case WaitForStatus(status, _) => c.name in after && after[c.name].status == status
          case Delete => c.name in after ==> after[c.name].terminating
          case WaitDeleted => c.name !in after
          case CleanUp => c.name !in after)
  {
  }

  /** The i-th reply of a run belongs to the i-th call. */
  lemma {:induction false} RunReplies(objects: Objects, faults: set<Call>, calls: seq<Call>)
    ensures |Run(objects, faults, calls).0| == |calls|
    ensures forall i :: 0 <= i < |calls| ==>
      Run(objects, faults, calls).0[i] == Ok(Ack(calls[i])) ||
      Run(objects, faults, calls).0[i] == Err(OperationFailed(calls[i]))
    decreases |calls|
  {
    if calls != [] {
      RunReplies(objects, faults, calls[..|calls| - 1]);
    }
  }

  /** Running `a` and then `b` is running `a + b`. */
  lemma {:induction false} RunAppend(objects: Objects, faults: set<Call>, a: seq<Call>, b: seq<Call>)
    ensures var (ra, oa) := Run(objects, faults, a);
      var (rb, ob) := Run(oa, faults, b);
      Run(objects, faults, a + b) == (ra + rb, ob)
    decreases |b|
  {
    if b == [] {
      assert a + b == a;
      var (ra, oa) := Run(objects, faults, a);
      assert ra + [] == ra;
    } else {
      assert (a + b)[..|a + b| - 1] == a + b[..|b| - 1];
      assert (a + b)[|a + b| - 1] == b[|b| - 1];
      RunAppend(objects, faults, a, b[..|b| - 1]);
      var (ra, oa) := Run(objects, faults, a);
      var (rb', ob') := Run(oa, faults, b[..|b| - 1]);
      var (reply, after) := Step(ob', faults, b[|b| - 1]);
      assert Run(oa, faults, b) == (rb' + [reply], after);
      assert Run(objects, faults, a + b) == (ra + rb' + [reply], after);
      assert ra + rb' + [reply] == ra + (rb' + [reply]);
    }
  }

  /** The cluster the resource handles talk to. */
  class Cluster {
    var objects: Objects
    const faults: set<Call>
    var log: seq<Call>

    constructor(objects: Objects, faults: set<Call>)
      ensures this.objects == objects && this.faults == faults && log == []
    {
      this.objects := objects;
      this.faults := faults;
      log := [];
    }

    /** Makes one call on the resource it names. */
    method Perform(c: Call) returns (r: Result<Reply, Error>)
      modifies this
      ensures (r, objects) == Step(old(objects), faults, c)
      ensures log == old(log) + [c]
    {
      log := log + [c];
      if Fails(objects, faults, c) {
        r := Err(OperationFailed(c));
      } else {
        r := Ok(Ack(c));
        objects := Effect(objects, c);
      }
    }
  }
}
