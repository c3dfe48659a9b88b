/**
 The two operations as their callers see them: methods on a shared queue that other actors keep
 changing between any two of their accesses.
 */
module MpmcHost {
  import opened Words
  import opened Mpmc
  import opened MpmcInvariant
  import opened MpmcSteps
  import opened MpmcTheorems
  import opened MpmcProgress

  predicate NoneBy(acts: seq<Action>, a: Actor) {
    forall k | 0 <= k < |acts| :: acts[k].actor != a
  }

  /** Any number of steps and crashes of actors other than `a`. */
  ghost predicate OthersRan(s: State, s1: State, a: Actor) {
    exists acts :: NoneBy(acts, a) && Leads(s, acts, s1)
  }

  /** What interference cannot take from `a`. */
  ghost predicate Undisturbed(s: State, s1: State, a: Actor) {
    && ProcOf(s1, a) == ProcOf(s, a)
    && s1.width == s.width
    && (a in s1.crashed <==> a in s.crashed)
    && s.committed <= s1.committed && s.delivered <= s1.delivered
  }

  lemma OneOther(s: State, act: Action, a: Actor)
    requires Enabled(s, act) && act.actor != a
    ensures Undisturbed(s, Next(s, act), a)
  {
    StepAppends(s, act);
  }

  lemma {:induction false} Interference(s: State, acts: seq<Action>, s1: State, a: Actor)
    requires Inv(s) && NoneBy(acts, a) && Leads(s, acts, s1)
    ensures Inv(s1) && Undisturbed(s, s1, a)
    decreases |acts|
  {
    if acts != [] {
      NextKeeps(s, acts[0]);
      OneOther(s, acts[0], a);
      Interference(Next(s, acts[0]), acts[1..], s1, a);
    }
  }

  // ----- What one call carries from step to step -----

  predicate SameCall(was: Pc, pc: Pc) {
    && !was.Idle? && !pc.Idle?
    && SideOf(pc.op) == SideOf(was.op)
    && (pc.op.Push? ==> pc.op == was.op)
  }

  lemma ReadsSameCall(s: State, pc: Pc, retry: bool, why: Reason)
    requires pc.Snap? || pc.Drain?
    ensures pc.Snap? ==> SameCall(pc, SnapshotNext(s, pc))
    ensures pc.Drain? ==> SameCall(pc, DrainNext(s, pc, retry, why))
  {
  }

  lemma StepSameCall(s: State, a: Actor, retry: bool, why: Reason)
    requires Enabled(s, Advance(a, retry, why)) && !PcOf(s, a).Done?
    ensures SameCall(PcOf(s, a), PcOf(Run(s, a, retry, why), a))
  {
    var pc := PcOf(s, a);
    if pc.Snap? || pc.Drain? {
      ReadsSameCall(s, pc, retry, why);
    }
  }

  lemma StepSameFrame(s: State, a: Actor, retry: bool, why: Reason)
    requires Enabled(s, Advance(a, retry, why)) && !PcOf(s, a).Done?
    ensures var s1 := Run(s, a, retry, why);
            s1.crashed == s.crashed && s1.width == s.width && ProcOf(s1, a).call == ProcOf(s, a).call
  {
  }

  /** `s1` is a later moment of the call `a` was making in `s`. */
  ghost predicate Carried(s: State, s1: State, a: Actor) {
    && SameCall(PcOf(s, a), PcOf(s1, a))
    && ProcOf(s1, a).call == ProcOf(s, a).call
    && a !in s1.crashed
    && s1.width == s.width
    && s.committed <= s1.committed && s.delivered <= s1.delivered
  }

  /** Interference followed by one own step. */
  lemma Round(s0: State, s: State, acts: seq<Action>, s1: State, a: Actor, retry: bool, why: Reason)
    requires Inv(s) && Carried(s0, s, a) && !PcOf(s, a).Done?
    requires NoneBy(acts, a) && Leads(s, acts, s1)
    requires DiagnosisReason(s1, PcOf(s, a), why)
    ensures Enabled(s1, Advance(a, retry, why))
    ensures var s2 := Next(s1, Advance(a, retry, why));
            Inv(s2) && Carried(s0, s2, a) && StepsLeft(PcOf(s2, a), s2.width) < StepsLeft(PcOf(s, a), s.width)
  {
    var act := Advance(a, retry, why);
    Interference(s, acts, s1, a);
    assert ActorOk(s1, a);
    NextKeeps(s1, act);
    StepAppends(s1, act);
    EveryStepCounts(s1, a, retry, why);
    StepSameCall(s1, a, retry, why);
    StepSameFrame(s1, a, retry, why);
  }

  class MpmcQueue {
    var mem: State

    /** `mpmc_create_impl` */
    constructor (capacity: nat, width: nat)
      requires 0 < capacity <= MAX_CAPACITY && 0 < width
      ensures Init(mem) && mem.capacity == capacity && mem.width == width
    {
      var zero := seq(width, _ => 0);
      var slots := seq(capacity, i requires i >= 0 => Slot(i, SlotFree, i, 0, zero));
      mem := State(capacity, width, 0, 0, Gate(Free, 0), Gate(Free, 0), slots, 0,
                   map[], {}, None, None, [], []);
    }

    /** A point at which any other actors may run. */
    method Yield(a: Actor)
      modifies this
      ensures OthersRan(old(mem), mem, a)
    {
      assert NoneBy([], a) && Leads(mem, [], mem);
    }

    /** Runs the call `a` has begun to its end, yielding before every shared access. */
    method Finish(a: Actor)
      requires Inv(mem) && !PcOf(mem, a).Idle? && a !in mem.crashed
      modifies this
      ensures Inv(mem) && Carried(old(mem), mem, a) && PcOf(mem, a).Done?
    {
      while !PcOf(mem, a).Done?
        invariant Inv(mem) && Carried(old(mem), mem, a)
        decreases StepsLeft(PcOf(mem, a), mem.width)
      {
        ghost var before := mem;
        var pc := PcOf(mem, a);
        Yield(a);
        ghost var acts :| NoneBy(acts, a) && Leads(before, acts, mem);
        var retry: bool := *;
        var why :| DiagnosisReason(mem, pc, why);
        Round(old(mem), before, acts, mem, a, retry, why);
        mem := Next(mem, Advance(a, retry, why));
      }
    }

    /** `mpmc_try_push_impl`, under any interference. */
    method TryPush(a: Actor, msg: Payload) returns (res: Outcome)
      requires Inv(mem) && PcOf(mem, a).Idle? && a !in mem.crashed && |msg| == mem.width
      modifies this
      ensures Inv(mem) && PcOf(mem, a).Idle?
      ensures old(mem.committed) <= mem.committed
      ensures res.Ok? ==>
                && |old(mem.committed)| <= res.ticket < |mem.committed|
                && mem.committed[res.ticket] == Entry(a, old(ProcOf(mem, a).call), msg)
      ensures res.Err? ==>
                Possible(Push(msg), res.reason) && !Commits(mem.committed, a, old(ProcOf(mem, a).call))
    {
      NextKeeps(mem, Begin(a, Push(msg)));
      assert ActorOk(mem, a);
      mem := Next(mem, Begin(a, Push(msg)));
      Finish(a);
      assert ActorOk(mem, a);
      res := PcOf(mem, a).res;
      ReturnKeeps(mem, a);
      mem := ExitStep(mem, a, PcOf(mem, a), Contention);
    }

    /** `mpmc_try_pop_impl`, under any interference. */
    method TryPop(a: Actor) returns (res: Outcome, msg: Payload)
      requires Inv(mem) && PcOf(mem, a).Idle? && a !in mem.crashed
      modifies this
      ensures Inv(mem) && PcOf(mem, a).Idle?
      ensures old(mem.delivered) <= mem.delivered
      ensures res.Ok? ==>
                && |old(mem.delivered)| <= res.ticket < |mem.delivered| <= |mem.committed|
                && mem.delivered[res.ticket] == Entry(a, old(ProcOf(mem, a).call), msg)
                && msg == mem.committed[res.ticket].msg
      ensures res.Err? ==>
                Possible(Pop([]), res.reason) && !Commits(mem.delivered, a, old(ProcOf(mem, a).call))
    {
      NextKeeps(mem, Begin(a, Pop([])));
      assert ActorOk(mem, a);
      mem := Next(mem, Begin(a, Pop([])));
      Finish(a);
      assert ActorOk(mem, a);
      res, msg := PcOf(mem, a).res, PcOf(mem, a).op.buf;
      ReturnKeeps(mem, a);
      mem := ExitStep(mem, a, PcOf(mem, a), Contention);
    }
  }
}
