/** What the queue guarantees over whole runs. */
module MpmcTheorems {
  import opened Words
  import opened Mpmc
  import opened MpmcInvariant
  import opened MpmcSteps

  // ----- Refinement of a bounded FIFO -----

  function Messages(hist: seq<Entry>): (r: seq<Payload>)
    ensures |r| == |hist|
    ensures forall i | 0 <= i < |hist| :: r[i] == hist[i].msg
  {
    seq(|hist|, i requires 0 <= i < |hist| => hist[i].msg)
  }

  /** What a reader of the specification sees: the messages committed and not yet taken. */
  function Contents(s: State): seq<Payload>
    requires s.deq <= |s.committed|
  {
    Messages(s.committed)[s.deq..]
  }

  /** The atomic actions of a bounded FIFO queue. */
  datatype Event = Stutter | Enqueue(msg: Payload) | Dequeue(msg: Payload)

  predicate FifoStep(q: seq<Payload>, q1: seq<Payload>, capacity: nat, event: Event) {
    match event
    case Stutter => q1 == q
    case Enqueue(msg) => |q| < capacity && q1 == q + [msg]
    case Dequeue(msg) => 0 < |q| && msg == q[0] && q1 == q[1..]
  }

  /** A queue action happens at a position store and nowhere else. */
  function EventOf(s: State, act: Action): Event {
    if act.Advance? && PcOf(s, act.actor).Work? && PcOf(s, act.actor).work.StorePosition? then
      var op := PcOf(s, act.actor).op;
      if op.Push? then Enqueue(op.msg) else Dequeue(op.buf)
    else
      Stutter
  }

  /** Steps other than a position store leave positions and history alone. */
  lemma OtherStepsKeepHistory(s: State, act: Action)
    requires Enabled(s, act)
    requires EventOf(s, act).Stutter?
    ensures var s1 := Next(s, act);
            s1.enq == s.enq && s1.deq == s.deq && s1.committed == s.committed && s1.delivered == s.delivered
  {
  }

  lemma Refines(s: State, act: Action)
    requires Inv(s) && Enabled(s, act)
    ensures Inv(Next(s, act))
    ensures Next(s, act).capacity == s.capacity
    ensures FifoStep(Contents(s), Contents(Next(s, act)), s.capacity, EventOf(s, act))
  {
    NextKeeps(s, act);
    var s1 := Next(s, act);
    match EventOf(s, act)
    case Stutter => OtherStepsKeepHistory(s, act);
    case Enqueue(msg) =>
      OwnSlotFits(s, act.actor);
      assert Messages(s1.committed) == Messages(s.committed) + [msg];
      assert Contents(s1) == Contents(s) + [msg];
    case Dequeue(msg) =>
      OwnSlotFits(s, act.actor);
      assert Contents(s1) == Contents(s)[1..];
  }

  /** Every run is a run of the bounded FIFO, each queue action taken at one position store. */
  lemma RunRefinesFifo(run: seq<State>, acts: seq<Action>, i: nat)
    requires IsRun(run, acts) && i < |acts|
    ensures Inv(run[i]) && Inv(run[i + 1]) && run[i + 1].capacity == run[i].capacity
    ensures FifoStep(Contents(run[i]), Contents(run[i + 1]), run[i].capacity, EventOf(run[i], acts[i]))
    ensures Inv(run[0]) && Contents(run[0]) == []
  {
    RunInv(run, acts, 0);
    RunInv(run, acts, i);
    Refines(run[i], acts[i]);
  }

  // ----- Delivery -----

  /** One step only appends, and what it appends bears the stepping actor's current call. */
  lemma StepAppends(s: State, act: Action)
    requires Enabled(s, act)
    ensures var s1 := Next(s, act);
            && s.committed <= s1.committed && s.delivered <= s1.delivered
            && (forall k | |s.committed| <= k < |s1.committed| ::
                  s1.committed[k].actor == act.actor && s1.committed[k].call == ProcOf(s, act.actor).call)
  {
    if EventOf(s, act).Stutter? {
      OtherStepsKeepHistory(s, act);
    }
  }

  lemma {:induction false} HistoryGrows(run: seq<State>, acts: seq<Action>, i: nat, j: nat)
    requires IsRun(run, acts) && i <= j < |run|
    ensures run[i].committed <= run[j].committed
    ensures run[i].delivered <= run[j].delivered
    decreases j - i
  {
    if i < j {
      StepAppends(run[i], acts[i]);
      HistoryGrows(run, acts, i + 1, j);
    }
  }

  /** What poppers have taken is, in order, the oldest part of what pushers committed. */
  lemma DeliveredIsPrefix(run: seq<State>, acts: seq<Action>, i: nat)
    requires IsRun(run, acts) && i < |run|
    ensures Messages(run[i].delivered) <= Messages(run[i].committed)
    ensures |run[i].delivered| == run[i].deq && |run[i].committed| == run[i].enq
  {
    RunInv(run, acts, i);
  }

  /** A call of `a` has returned, or is about to return, success with ticket `t`. */
  predicate Succeeded(s: State, a: Actor, side: Side, t: nat) {
    Settled(PcOf(s, a), side) && PcOf(s, a).res.ticket == t
  }

  /** A successful pop returns exactly the message committed under its ticket. */
  lemma PopReturnsCommitted(run: seq<State>, acts: seq<Action>, i: nat, a: Actor, t: nat)
    requires IsRun(run, acts) && i < |run|
    requires Succeeded(run[i], a, Deq, t)
    ensures t < run[i].deq <= run[i].enq == |run[i].committed|
    ensures PcOf(run[i], a).op.buf == run[i].committed[t].msg
    ensures |run[i].delivered| == run[i].deq
    ensures run[i].delivered[t] == Entry(a, ProcOf(run[i], a).call, PcOf(run[i], a).op.buf)
  {
    RunInv(run, acts, i);
    assert ActorOk(run[i], a);
  }

  /** No ticket is delivered twice, to one popper or to two. */
  lemma DeliveredAtMostOnce(run: seq<State>, acts: seq<Action>, i: nat, j: nat, a: Actor, b: Actor, t: nat)
    requires IsRun(run, acts) && i <= j < |run|
    requires Succeeded(run[i], a, Deq, t) && Succeeded(run[j], b, Deq, t)
    ensures a == b && ProcOf(run[i], a).call == ProcOf(run[j], b).call
  {
    PopReturnsCommitted(run, acts, i, a, t);
    PopReturnsCommitted(run, acts, j, b, t);
    HistoryGrows(run, acts, i, j);
  }

  /** A successful push has committed its message, under one ticket and no other. */
  lemma PushCommitsOnce(run: seq<State>, acts: seq<Action>, i: nat, a: Actor, t: nat)
    requires IsRun(run, acts) && i < |run|
    requires Succeeded(run[i], a, Enq, t)
    ensures t < |run[i].committed|
    ensures run[i].committed[t] == Entry(a, ProcOf(run[i], a).call, PcOf(run[i], a).op.msg)
    ensures forall k | 0 <= k < |run[i].committed| && k != t ::
              !(run[i].committed[k].actor == a && run[i].committed[k].call == ProcOf(run[i], a).call)
  {
    RunInv(run, acts, i);
    assert ActorOk(run[i], a);
  }

  predicate Commits(hist: seq<Entry>, a: Actor, call: nat) {
    exists k :: 0 <= k < |hist| && hist[k].actor == a && hist[k].call == call
  }

  lemma {:induction false} NoLaterCommit(run: seq<State>, acts: seq<Action>, i: nat, j: nat, a: Actor, call: nat)
    requires IsRun(run, acts) && i <= j < |run|
    requires !Commits(run[i].committed, a, call)
    requires call < ProcOf(run[i], a).call || (call == ProcOf(run[i], a).call && PcOf(run[i], a).Done?)
    ensures !Commits(run[j].committed, a, call)
    decreases j - i
  {
    if i < j {
      var s, act := run[i], acts[i];
      StepAppends(s, act);
      assert !Commits(run[i + 1].committed, a, call);
      NoLaterCommit(run, acts, i + 1, j, a, call);
    }
  }

  /** A push that returns an error never becomes visible, then or later. */
  lemma FailedPushLeavesNothing(run: seq<State>, acts: seq<Action>, i: nat, j: nat, a: Actor)
    requires IsRun(run, acts) && i <= j < |run|
    requires PcOf(run[i], a).Done? && PcOf(run[i], a).op.Push? && PcOf(run[i], a).res.Err?
    ensures !Commits(run[j].committed, a, ProcOf(run[i], a).call)
  {
    RunInv(run, acts, i);
    assert ActorOk(run[i], a);
    NoLaterCommit(run, acts, i, j, a, ProcOf(run[i], a).call);
  }

  // ----- The drain guarantee -----

  /** No popper is between beginning to commit the dequeue gate and its position store. */
  predicate GateNotCommitted(s: State) {
    s.deqHolder.None? || Phase(PcOf(s, s.deqHolder.value)) == 0
  }

  /** Every pending message still has a dequeue-gate epoch to be taken with. */
  lemma DrainGuarantee(run: seq<State>, acts: seq<Action>, i: nat)
    requires IsRun(run, acts) && i < |run|
    ensures run[i].deq <= run[i].enq
    ensures GateNotCommitted(run[i]) ==>
              && run[i].deqGate.epoch <= MAX_EPOCH
              && run[i].enq - run[i].deq <= Budget(run[i].deqGate.epoch)
  {
    RunInv(run, acts, i);
  }

  /** A free dequeue gate with no budget left means the queue is empty: nothing is ever stranded. */
  lemma ExhaustedMeansDrained(run: seq<State>, acts: seq<Action>, i: nat)
    requires IsRun(run, acts) && i < |run|
    requires run[i].deqGate.lock == Free
    ensures run[i].deqGate.epoch <= MAX_EPOCH
    ensures Budget(run[i].deqGate.epoch) == 0 ==> run[i].enq == run[i].deq == LAST_TICKET
  {
    RunInv(run, acts, i);
  }

  // ----- Unreachable error paths -----

  /** No call ever fails for an inconsistent position, slot or epoch; only pushers meet an exhausted gate or slot. */
  lemma ImpossibleErrorsNeverHappen(run: seq<State>, acts: seq<Action>, i: nat, a: Actor)
    requires IsRun(run, acts) && i < |run|
    requires (PcOf(run[i], a).Unlock? || PcOf(run[i], a).Done?) && PcOf(run[i], a).res.Err?
    ensures Possible(PcOf(run[i], a).op, PcOf(run[i], a).res.reason)
  {
    RunInv(run, acts, i);
    assert ActorOk(run[i], a);
  }

  /** The gates never fault, and the dequeue gate never runs out. */
  lemma GatesNeverFault(run: seq<State>, acts: seq<Action>, i: nat)
    requires IsRun(run, acts) && i < |run|
    ensures run[i].enqGate.lock != Fault
    ensures run[i].deqGate.lock != Fault && run[i].deqGate.lock != Exhausted
  {
    RunInv(run, acts, i);
  }

  /** The whole ring, between calls: pending tickets are ready, the rest free or retired. */
  lemma RestingRing(run: seq<State>, acts: seq<Action>, i: nat, t: nat)
    requires IsRun(run, acts) && i < |run|
    requires run[i].enqHolder.None? && run[i].deqHolder.None?
    requires run[i].deq <= t < run[i].deq + run[i].capacity
    ensures Formed(run[i]) && |run[i].committed| == run[i].enq
    ensures t < run[i].enq ==> ReadySlot(SlotAt(run[i], t), t, run[i].committed[t].msg)
    ensures t >= run[i].enq ==> FreeSlot(SlotAt(run[i], t), t, t == run[i].enq)
  {
    RunInv(run, acts, i);
    assert SlotOk(run[i], t);
  }

  // ----- Fail closed -----

  /** `h` crashed inside the gate of `side`: between its gate CAS and its release. */
  predicate CrashedInside(s: State, side: Side, h: Actor) {
    HolderOf(s, side) == Some(h) && h in s.crashed
  }

  /** Position, history and holder of `side` have not moved, nor has the slot the holder was working on. */
  ghost predicate Frozen(s: State, s1: State, side: Side, h: Actor)
    requires Formed(s) && Formed(s1)
  {
    && CrashedInside(s1, side, h)
    && ProcOf(s1, h) == ProcOf(s, h)
    && s1.capacity == s.capacity
    && (side.Enq? ==> s1.enq == s.enq && s1.committed == s.committed)
    && (side.Deq? ==> s1.deq == s.deq && s1.delivered == s.delivered)
    && (PcOf(s, h).Work? ==> SlotAt(s1, PcOf(s, h).t) == SlotAt(s, PcOf(s, h).t))
  }

  /** Another actor's working slot is never the crashed holder's. */
  lemma WorkingSlotsDiffer(s: State, a: Actor, h: Actor)
    requires Inv(s) && PcOf(s, a).Work? && PcOf(s, h).Work? && a != h
    ensures PcOf(s, a).t % s.capacity != PcOf(s, h).t % s.capacity
  {
    assert ActorOk(s, a) && ActorOk(s, h);
    assert InGate(PcOf(s, a), SideOf(PcOf(s, a).op)) && InGate(PcOf(s, h), SideOf(PcOf(s, h).op));
    assert InGate(PcOf(s, a), Enq) <==> s.enqHolder == Some(a);
    assert InGate(PcOf(s, h), Enq) <==> s.enqHolder == Some(h);
    assert InGate(PcOf(s, a), Deq) <==> s.deqHolder == Some(a);
    assert InGate(PcOf(s, h), Deq) <==> s.deqHolder == Some(h);
    DistinctModulus(PcOf(s, a).t, PcOf(s, h).t, s.capacity);
  }

  lemma StepStaysFrozen(s: State, act: Action, side: Side, h: Actor)
    requires Inv(s) && Enabled(s, act) && CrashedInside(s, side, h)
    ensures Inv(Next(s, act)) && Frozen(s, Next(s, act), side, h)
  {
    NextKeeps(s, act);
    var a := act.actor;
    assert a != h;
    assert InGate(PcOf(s, a), side) <==> HolderOf(s, side) == Some(a);
    if EventOf(s, act).Stutter? {
      OtherStepsKeepHistory(s, act);
    }
    OthersSlotKeeps(s, act, h);
    if act.Advance? {
      HolderStays(s, act, side, h);
    }
  }

  /** A step writes no slot but the one of the stepping actor's ticket. */
  lemma StepWritesOwnSlot(s: State, act: Action, k: nat)
    requires Enabled(s, act) && k < s.capacity
    ensures Next(s, act).capacity == s.capacity && |Next(s, act).slots| == |s.slots|
    ensures (PcOf(s, act.actor).Work? ==> k != PcOf(s, act.actor).t % s.capacity) ==>
              Next(s, act).slots[k] == s.slots[k]
  {
  }

  lemma OthersSlotKeeps(s: State, act: Action, h: Actor)
    requires Inv(s) && Enabled(s, act) && act.actor != h
    ensures Next(s, act).capacity == s.capacity && |Next(s, act).slots| == |s.slots|
    ensures PcOf(s, h).Work? ==>
              Next(s, act).slots[PcOf(s, h).t % s.capacity] == s.slots[PcOf(s, h).t % s.capacity]
  {
    StepWritesOwnSlot(s, act, 0);
    if PcOf(s, h).Work? {
      StepWritesOwnSlot(s, act, PcOf(s, h).t % s.capacity);
      if PcOf(s, act.actor).Work? {
        WorkingSlotsDiffer(s, act.actor, h);
      }
    }
  }

  lemma HolderStays(s: State, act: Action, side: Side, h: Actor)
    requires Inv(s) && Enabled(s, act) && act.Advance? && act.actor != h && HolderOf(s, side) == Some(h)
    ensures HolderOf(Next(s, act), side) == Some(h)
    ensures ProcOf(Next(s, act), h) == ProcOf(s, h)
  {
    var a := act.actor;
    assert InGate(PcOf(s, a), side) <==> HolderOf(s, side) == Some(a);
  }

  /** Once a process crashes inside a gate, that side is closed in every continuation. */
  lemma {:induction false} FailClosed(run: seq<State>, acts: seq<Action>, i: nat, j: nat, side: Side, h: Actor)
    requires IsRun(run, acts) && i <= j < |run|
    requires CrashedInside(run[i], side, h)
    ensures Formed(run[i]) && Formed(run[j]) && Frozen(run[i], run[j], side, h)
    decreases j - i
  {
    RunInv(run, acts, i);
    RunInv(run, acts, j);
    if i < j {
      StepStaysFrozen(run[i], acts[i], side, h);
      FailClosed(run, acts, i + 1, j, side, h);
    }
  }
}
