/** When the scheduler reports a deadlock there is one: the machines wait for each other in
    a circle, and none of them was owed a wake-up. */
module SchedulerDeadlock {
  import opened Basics
  import opened Machine
  import opened SchedulerModel
  import opened SchedulerInvariant

  /** The machine a blocked machine waits for: the target of a wait, or the owner of the
      other end of the pipe. */
  function WaitsFor(c: Core, id: VmId): VmId
    requires id in c.states && !c.states[id].Runnable? && !c.states[id].Terminated?
    requires c.states[id].WaitForRead? ==> OtherEndOpen(c, c.states[id].read.fd)
    requires c.states[id].WaitForWrite? ==> OtherEndOpen(c, c.states[id].write.fd)
  {
    match c.states[id]
    case Waiting(target, _) => target
    case WaitForRead(read) => c.fds[OtherFd(read.fd)]
    case WaitForWrite(write) => c.fds[OtherFd(write.fd)]
  }

  /** Every machine is blocked, and nothing blocked could go on. */
  ghost predicate Stuck(c: Core) {
    Inv(c) && Quiescent(c) && forall id :: id in c.states ==> !c.states[id].Runnable?
  }

  /** Each machine waits for a live one that has not done, and is not about to do, what
      would wake it up. */
  lemma NoLostWakeUp(c: Core, id: VmId)
    requires Stuck(c) && id in c.states
    ensures !c.states[id].Terminated?
    ensures c.states[id].WaitForRead? ==> OtherEndOpen(c, c.states[id].read.fd)
    ensures c.states[id].WaitForWrite? ==> OtherEndOpen(c, c.states[id].write.fd)
    ensures WaitsFor(c, id) in c.states
    ensures c.states[id].Waiting? ==> WaitsFor(c, id) !in c.terminated
    ensures c.states[id].WaitForRead? ==>
              var s := c.states[WaitsFor(c, id)]; s.WaitForWrite? ==> s.write.fd != OtherFd(c.states[id].read.fd)
    ensures c.states[id].WaitForWrite? ==>
              var s := c.states[WaitsFor(c, id)]; s.WaitForRead? ==> s.read.fd != OtherFd(c.states[id].write.fd)
  {
    assert StateOk(c, id, c.states[id]);
    var s := c.states[id];
    if s.WaitForRead? {
      assert Reads(c, id);
      var other := c.fds[OtherFd(s.read.fd)];
      if c.states[other].WaitForWrite? {
        assert Writes(c, other);
      }
    } else if s.WaitForWrite? {
      assert Writes(c, id);
      var other := c.fds[OtherFd(s.write.fd)];
      if c.states[other].WaitForRead? {
        assert Reads(c, other);
      }
    }
  }

  /** The machine reached from `id` by following who waits for whom `n` times. */
  ghost function Follow(c: Core, id: VmId, n: nat): (r: VmId)
    requires Stuck(c) && id in c.states
    ensures r in c.states
  {
    if n == 0 then id else
      var prev := Follow(c, id, n - 1);
      NoLostWakeUp(c, prev);
      WaitsFor(c, prev)
  }

  lemma {:induction false} FollowSplit(c: Core, id: VmId, m: nat, n: nat)
    requires Stuck(c) && id in c.states
    ensures Follow(c, id, m + n) == Follow(c, Follow(c, id, m), n)
  {
    hide Stuck, WaitsFor;
    if n > 0 {
      FollowSplit(c, id, m, n - 1);
    }
  }

  lemma {:induction false} Pigeonhole(s: seq<VmId>, holes: set<VmId>)
    requires |s| > |holes| && forall i :: 0 <= i < |s| ==> s[i] in holes
    ensures exists i, j :: 0 <= i < j < |s| && s[i] == s[j]
  {
    var x := s[0];
    if j :| 0 < j < |s| && s[j] == x {
      assert s[0] == s[j];
    } else {
      Pigeonhole(s[1..], holes - {x});
      var i, j :| 0 <= i < j < |s[1..]| && s[1..][i] == s[1..][j];
      assert s[i + 1] == s[j + 1];
    }
  }

  ghost function Trail(c: Core, id: VmId, n: nat): (r: seq<VmId>)
    requires Stuck(c) && id in c.states
    ensures |r| == n && forall i :: 0 <= i < n ==> r[i] == Follow(c, id, i) && r[i] in c.states.Keys
  {
    if n == 0 then [] else Trail(c, id, n - 1) + [Follow(c, id, n - 1)]
  }

  /** Following who waits for whom from `id` leads back to `id`. */
  ghost predicate OnCircle(c: Core, id: VmId, n: nat) {
    Stuck(c) && id in c.states && n > 0 && Follow(c, id, n) == id
  }

  lemma RootAlive(c: Core)
    requires Stuck(c)
    ensures ROOT_VM_ID in c.states
  {
  }

  /** A reported deadlock is genuine: some machines wait for each other in a circle. */
  lemma DeadlockIsCircular(c: Core)
    requires Stuck(c)
    ensures exists id, n :: OnCircle(c, id, n)
  {
    hide Stuck, Follow, Trail;
    RootAlive(c);
    var trail := Trail(c, ROOT_VM_ID, |c.states.Keys| + 1);
    Pigeonhole(trail, c.states.Keys);
    var i, j :| 0 <= i < j < |trail| && trail[i] == trail[j];
    FollowSplit(c, ROOT_VM_ID, i, j - i);
    assert OnCircle(c, trail[i], j - i);
  }

  /** The scheduler reports a deadlock in exactly the stuck states. */
  lemma DeadlockReported(isa: Isa, c: Core, base: nat, maxCycles: nat, budget: Option<nat>)
    requires Inv(c) && Quiescent(c)
    ensures var r := TakeTurn(isa, c, base, maxCycles, budget).res;
            (r.Err? && r.error == Deadlock) <==> Stuck(c)
  {
    TakeTurnKeeps(isa, c, base, maxCycles, budget);
    hide TakeTurn, Inv, Quiescent;
    if RunnableVms(c) == {} {
      forall id | id in c.states
        ensures !c.states[id].Runnable?
      {
        assert id !in RunnableVms(c);
      }
    }
  }
}
