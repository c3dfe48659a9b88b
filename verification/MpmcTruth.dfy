/** A call that reports a full or an empty queue has seen one. */
module MpmcTruth {
  import opened Words
  import opened Mpmc
  import opened MpmcInvariant
  import opened MpmcSteps
  import opened MpmcProgress
  import opened MpmcTheorems

  /** Pairs of enqueue and dequeue position. */
  type Positions = set<(nat, nat)>

  ghost predicate SawFull(seen: Positions, capacity: nat) {
    exists p :: p in seen && p.0 == p.1 + capacity
  }

  ghost predicate SawEmpty(seen: Positions) {
    exists p :: p in seen && p.0 == p.1
  }

  /** The last ticket was taken; for a popper, and the queue was drained to it. */
  ghost predicate SawEnd(op: Op, seen: Positions) {
    exists p :: p in seen && p.0 == LAST_TICKET && (op.Pop? ==> p.1 == LAST_TICKET)
  }

  /** The reason, if it is about the queue's contents, is borne out by positions that held together. */
  ghost predicate Truthful(op: Op, why: Reason, seen: Positions, capacity: nat) {
    && (why == QueueFull ==> SawFull(seen, capacity))
    && (why == QueueEmpty ==> SawEmpty(seen))
    && (why == BudgetExhausted ==> SawEnd(op, seen))
  }

  predicate Neutral(why: Reason) {
    why != QueueFull && why != QueueEmpty && why != BudgetExhausted
  }

  /** What a call has learnt: every pair of positions it relies on held at one instant. */
  ghost predicate Knows(pc: Pc, seen: Positions, capacity: nat) {
    match pc
    case Idle => true
    case Snap(_, site, _, snap) =>
      && (site.Refresh? ==> (site.e, site.d) in seen)
      && (snap.LoadEnq2? || snap.LoadDeq2? ==> (snap.atDeq, snap.d1) in seen)
    case Drain(_, need, _, _) => need.Admit? ==> (need.e, need.d) in seen
    case Diagnose(op, _, idle) => idle ==> if op.Push? then SawFull(seen, capacity) else SawEmpty(seen)
    case Claim(_, _) => true
    case Commit(_, _, commit) => commit.Refuse? ==> Neutral(commit.why)
    case Work(_, _, work) => (work.Retire? ==> Neutral(work.why)) && (work.Abandon? ==> Neutral(work.why))
    case Unlock(op, res) => res.Err? ==> Truthful(op, res.reason, seen, capacity)
    case Notify(_, res) => res.Ok?
    case Done(op, res) => res.Err? ==> Truthful(op, res.reason, seen, capacity)
  }

  lemma KnowsMore(pc: Pc, seen: Positions, more: Positions, capacity: nat)
    requires Knows(pc, seen, capacity) && seen <= more
    ensures Knows(pc, more, capacity)
  {
  }

  lemma Sighted(p: (nat, nat), seen: Positions, capacity: nat)
    requires p in seen
    ensures p.0 == p.1 + capacity ==> SawFull(seen, capacity)
    ensures p.0 == p.1 ==> SawEmpty(seen)
    ensures p.0 == LAST_TICKET ==> SawEnd(Push([]), seen) && forall msg :: SawEnd(Push(msg), seen)
    ensures p.0 == LAST_TICKET == p.1 ==> forall buf :: SawEnd(Pop(buf), seen)
  {
  }

  /** A consistent pair of snapshots names positions that held together when the first was halfway. */
  lemma SnapKnows(s: State, pc: Pc, seen: Positions)
    requires Bounds(s) && pc.Snap? && Registers(s, pc) && Knows(pc, seen, s.capacity) && (s.enq, s.deq) in seen
    ensures Knows(SnapshotNext(s, pc), seen, s.capacity)
  {
    if pc.snap.LoadDeq2? && pc.snap.e1 == pc.snap.e2 && pc.snap.d1 == s.deq {
      assert pc.snap.atDeq == pc.snap.e2;
      Sighted((pc.snap.e2, s.deq), seen, s.capacity);
    }
  }

  lemma DrainKnows(s: State, pc: Pc, retry: bool, why: Reason, seen: Positions)
    requires Bounds(s) && DrainFacts(s) && pc.Drain? && Registers(s, pc)
    requires Knows(pc, seen, s.capacity) && DiagnosisReason(s, pc, why) && (s.enq, s.deq) in seen
    ensures Knows(DrainNext(s, pc, retry, why), seen, s.capacity)
  {
    Sighted((s.enq, s.deq), seen, s.capacity);
    if pc.need.Admit? {
      Sighted((pc.need.e, pc.need.d), seen, s.capacity);
    }
    if pc.drain.LoadEpoch2? && pc.drain.lock2 == Free && pc.drain.ep == s.deqGate.epoch {
      assert pc.drain.drainedAt == s.deq;
    }
  }

  lemma GateKnows(s: State, a: Actor, seen: Positions)
    requires PcOf(s, a).Claim? || PcOf(s, a).Commit?
    requires Knows(PcOf(s, a), seen, s.capacity)
    ensures PcOf(s, a).Claim? ==> Knows(PcOf(ClaimStep(s, a, PcOf(s, a)), a), seen, s.capacity)
    ensures PcOf(s, a).Commit? ==> Knows(PcOf(CommitStep(s, a, PcOf(s, a)), a), seen, s.capacity)
  {
  }

  lemma WorkKnows(slot: Slot, pc: Pc, capacity: nat, width: nat, seen: Positions)
    requires pc.Work? && PcFormed(pc, width) && |slot.data| == width && !pc.work.StorePosition?
    requires Knows(pc, seen, capacity)
    ensures Knows(WorkNext(slot, pc, capacity, width).1, seen, capacity)
  {
  }

  lemma ExitKnows(s: State, a: Actor, why: Reason, seen: Positions)
    requires var pc := PcOf(s, a); pc.Diagnose? || pc.Unlock? || pc.Notify? || pc.Done?
    requires Bounds(s) && DrainFacts(s) && (s.enq, s.deq) in seen
    requires Knows(PcOf(s, a), seen, s.capacity) && DiagnosisReason(s, PcOf(s, a), why)
    ensures Knows(PcOf(ExitStep(s, a, PcOf(s, a), why), a), seen, s.capacity)
  {
    Sighted((s.enq, s.deq), seen, s.capacity);
  }

  /** The caller's own step keeps what it knows true. */
  lemma StepKnows(s: State, a: Actor, retry: bool, why: Reason, seen: Positions)
    requires Inv(s) && Enabled(s, Advance(a, retry, why))
    requires Knows(PcOf(s, a), seen, s.capacity) && (s.enq, s.deq) in seen
    ensures Knows(PcOf(Run(s, a, retry, why), a), seen, s.capacity)
  {
    var pc := PcOf(s, a);
    assert ActorOk(s, a);
    if pc.Snap? {
      SnapKnows(s, pc, seen);
    } else if pc.Drain? {
      DrainKnows(s, pc, retry, why, seen);
    } else if pc.Claim? || pc.Commit? {
      GateKnows(s, a, seen);
    } else if pc.Work? {
      if !pc.work.StorePosition? {
        WorkKnows(SlotAt(s, pc.t), pc, s.capacity, s.width, seen);
      }
    } else {
      ExitKnows(s, a, why, seen);
    }
  }

  // ----- One call -----

  /** Every pair of positions that held at an instant after `lo`, up to `hi`. */
  ghost function SeenIn(run: seq<State>, lo: nat, hi: nat): Positions
    requires hi < |run|
  {
    set t: nat | lo < t <= hi :: (run[t].enq, run[t].deq)
  }

  lemma {:induction false} CallKnows(run: seq<State>, acts: seq<Action>, lo: nat, hi: nat, a: Actor)
    requires OneCall(run, acts, lo, hi, a)
    ensures Knows(PcOf(run[hi], a), SeenIn(run, lo, hi), run[hi].capacity) && !PcOf(run[hi], a).Idle?
    decreases hi
  {
    var h := hi - 1;
    assert Enabled(run[h], acts[h]) && run[hi] == Next(run[h], acts[h]);
    RunInv(run, acts, h);
    if h > lo {
      CallKnows(run, acts, lo, h, a);
      assert SeenIn(run, lo, h) <= SeenIn(run, lo, hi);
      OwnStepKnows(run[h], acts[h], a, SeenIn(run, lo, h));
      KnowsMore(PcOf(run[hi], a), SeenIn(run, lo, h), SeenIn(run, lo, hi), run[hi].capacity);
    }
  }

  lemma OwnStepKnows(s: State, act: Action, a: Actor, seen: Positions)
    requires Inv(s) && Enabled(s, act) && Knows(PcOf(s, a), seen, s.capacity) && (s.enq, s.deq) in seen
    requires !PcOf(s, a).Done? && !PcOf(s, a).Idle?
    ensures Knows(PcOf(Next(s, act), a), seen, Next(s, act).capacity) && !PcOf(Next(s, act), a).Idle?
  {
    StepWritesOwnSlot(s, act, 0);
    if act.actor == a && act.Advance? {
      StepKnows(s, a, act.retry, act.why, seen);
      StaysInCall(s, a, act.retry, act.why);
    } else {
      OtherPc(s, act, a);
    }
  }

  predicate Full(s: State) {
    s.enq == s.deq + s.capacity
  }

  predicate Empty(s: State) {
    s.enq == s.deq
  }

  lemma {:induction false} CapacityFixed(run: seq<State>, acts: seq<Action>, i: nat, j: nat)
    requires IsRun(run, acts) && i <= j < |run|
    ensures run[j].capacity == run[i].capacity
    decreases j
  {
    if i < j {
      CapacityFixed(run, acts, i, j - 1);
      StepWritesOwnSlot(run[j - 1], acts[j - 1], 0);
    }
  }

  /** A push that reports a full queue: it was full at some instant of the call. */
  lemma FullMeansFull(run: seq<State>, acts: seq<Action>, lo: nat, hi: nat, a: Actor)
    requires OneCall(run, acts, lo, hi, a) && PcOf(run[hi], a).Done? && PcOf(run[hi], a).res == Err(QueueFull)
    ensures exists t: nat :: lo < t <= hi && Full(run[t])
  {
    CallKnows(run, acts, lo, hi, a);
    var p :| p in SeenIn(run, lo, hi) && p.0 == p.1 + run[hi].capacity;
    var t: nat :| lo < t <= hi && p == (run[t].enq, run[t].deq);
    CapacityFixed(run, acts, t, hi);
    assert Full(run[t]);
  }

  /** A pop that reports an empty queue: it was empty at some instant of the call. */
  lemma EmptyMeansEmpty(run: seq<State>, acts: seq<Action>, lo: nat, hi: nat, a: Actor)
    requires OneCall(run, acts, lo, hi, a) && PcOf(run[hi], a).Done? && PcOf(run[hi], a).res == Err(QueueEmpty)
    ensures exists t: nat :: lo < t <= hi && Empty(run[t])
  {
    CallKnows(run, acts, lo, hi, a);
    var p :| p in SeenIn(run, lo, hi) && p.0 == p.1;
    var t: nat :| lo < t <= hi && p == (run[t].enq, run[t].deq);
    assert Empty(run[t]);
  }

  /**
   A pop that reports exhaustion: at some instant of the call every ticket there will ever be had
   been pushed and popped.  It may have seen a message before that and lost it to another popper.
   */
  lemma PopExhaustedMeansEnd(run: seq<State>, acts: seq<Action>, lo: nat, hi: nat, a: Actor)
    requires OneCall(run, acts, lo, hi, a) && PcOf(run[hi], a).Done? && PcOf(run[hi], a).op.Pop?
    requires PcOf(run[hi], a).res == Err(BudgetExhausted)
    ensures exists t: nat :: lo < t <= hi && run[t].enq == run[t].deq == LAST_TICKET
  {
    CallKnows(run, acts, lo, hi, a);
    var p :| p in SeenIn(run, lo, hi) && p.0 == p.1 == LAST_TICKET;
    var t: nat :| lo < t <= hi && p == (run[t].enq, run[t].deq);
  }

  /** A push that reports exhaustion of the drain budget: the last ticket had been pushed. */
  lemma PushExhaustedMeansEnd(run: seq<State>, acts: seq<Action>, lo: nat, hi: nat, a: Actor)
    requires OneCall(run, acts, lo, hi, a) && PcOf(run[hi], a).Done?
    requires PcOf(run[hi], a).res == Err(BudgetExhausted)
    ensures exists t: nat :: lo < t <= hi && run[t].enq == LAST_TICKET
  {
    CallKnows(run, acts, lo, hi, a);
    var p :| p in SeenIn(run, lo, hi) && p.0 == LAST_TICKET;
    var t: nat :| lo < t <= hi && p == (run[t].enq, run[t].deq);
  }

  /** And that is for ever: no push ever succeeds again. */
  lemma {:induction false} EndIsFinal(run: seq<State>, acts: seq<Action>, i: nat, n: nat)
    requires IsRun(run, acts) && i <= n < |run| && run[i].enq == LAST_TICKET
    ensures run[n].enq == LAST_TICKET && run[n].committed == run[i].committed
  {
    RunInv(run, acts, i);
    RunInv(run, acts, n);
    HistoryGrows(run, acts, i, n);
  }
}
