/** Progress of the queue: no call blocks, and committed messages can always be taken. */
module MpmcProgress {
  import opened Words
  import opened Mpmc
  import opened MpmcInvariant
  import opened MpmcSteps
  import opened MpmcTheorems

  // ----- Every call ends within a fixed number of its own steps -----

  function Left(limit: nat, used: nat): nat {
    if used < limit then limit - used else 0
  }

  function SnapLeft(tries: nat, snap: SnapAt): nat {
    4 * Left(RETRIES - 1, tries) +
    (match snap
     case LoadEnq1 => 4
     case LoadDeq1(_) => 3
     case LoadEnq2(_, _, _) => 2
     case LoadDeq2(_, _, _, _) => 1)
  }

  function DrainLeft(tries: nat, drain: DrainAt): nat {
    4 * Left(RETRIES - 1, tries) +
    (match drain
     case LoadLock1 => 4
     case LoadEpoch1 => 3
     case LoadLock2(_) => 2
     case LoadEpoch2(_, _, _) => 1)
  }

  function CommitLeft(commit: CommitAt): nat {
    match commit
    case BeginLoad => 6
    case BeginCas(_) => 5
    case SetOwner(_) => 4
    case StoreEpoch(_) => 3
    case StoreOwned => 2
    case Refuse(_) => 1
  }

  function WorkLeft(work: WorkAt, width: nat): nat {
    match work
    case CheckSequence => width + 15
    case CheckState => width + 14
    case Examine => 4
    case CheckEpoch => width + 13
    case Retire(_) => 4
    case ClaimSlot => width + 12
    case SlotBeginLoad => width + 11
    case SlotBeginCas(_) => width + 10
    case Abandon(_) => 4
    case SlotSetOwner(_) => width + 9
    case SlotStoreEpoch(_) => width + 8
    case SlotStoreOwned => width + 7
    case CopyWord(i) => 6 + Left(width, i)
    case StoreSequence => 6
    case StoreState => 5
    case StorePosition => 4
  }

  /** An upper bound on the shared accesses a call still makes. */
  function StepsLeft(pc: Pc, width: nat): nat {
    match pc
    case Idle => 0
    case Done(_, _) => 1
    case Notify(_, _) => 2
    case Unlock(_, _) => 3
    case Diagnose(_, _, _) => 4
    case Work(_, _, work) => WorkLeft(work, width)
    case Drain(_, need, tries, drain) =>
      width + 15 + (if GatedNeed(need) then 0 else 250)
      + (if need.Admit? then 40 * Left(RETRIES - 1, need.round) else 0) + 20 + DrainLeft(tries, drain)
    case Snap(op, site, tries, snap) =>
      width + 15 + SnapLeft(tries, snap) +
      (match site
       case Early => 450
       case Gated => if op.Push? then 180 else 210
       case Refresh(gated, _, _, round, _, _) => (if gated then 0 else 250) + 40 * Left(RETRIES - 1, round))
    case Commit(_, _, commit) => width + 15 + 200 + CommitLeft(commit)
    case Claim(_, loaded) => width + 15 + 240 + (if loaded then 1 else 2)
  }

  lemma SnapCounts(s: State, pc: Pc)
    requires pc.Snap?
    ensures StepsLeft(SnapshotNext(s, pc), s.width) < StepsLeft(pc, s.width)
  {
    if pc.snap.LoadDeq2? && pc.site.Refresh? {
      var pc1 := RefreshedSnapshot(pc.op, s.capacity, pc.site, pc.snap.e2, s.deq);
      assert StepsLeft(pc1, s.width) < StepsLeft(pc, s.width);
    }
  }

  lemma DrainAgainCounts(pc: Pc, why: Reason, width: nat)
    requires pc.Drain?
    ensures StepsLeft(DrainAgain(pc.op, pc.need, pc.tries, why), width) < StepsLeft(pc, width)
  {
  }

  lemma BudgetedCounts(pc: Pc, capacity: nat, budget: nat, drained: nat, width: nat)
    requires pc.Drain?
    ensures StepsLeft(Budgeted(pc.op, capacity, pc.need, budget, drained), width) < StepsLeft(pc, width)
  {
  }

  lemma DrainCounts(s: State, pc: Pc, retry: bool, why: Reason)
    requires pc.Drain?
    ensures StepsLeft(DrainNext(s, pc, retry, why), s.width) < StepsLeft(pc, s.width)
  {
    DrainAgainCounts(pc, why, s.width);
    match pc.drain
    case LoadEpoch2(ep, lock2, drainedAt) =>
      if ep <= MAX_EPOCH {
        BudgetedCounts(pc, s.capacity, Budget(ep), drainedAt, s.width);
      }
    case _ =>
  }

  lemma GateCounts(s: State, a: Actor)
    requires PcOf(s, a).Claim? || PcOf(s, a).Commit?
    ensures var pc := PcOf(s, a);
            && (pc.Claim? ==> StepsLeft(PcOf(ClaimStep(s, a, pc), a), s.width) < StepsLeft(pc, s.width))
            && (pc.Commit? ==> StepsLeft(PcOf(CommitStep(s, a, pc), a), s.width) < StepsLeft(pc, s.width))
  {
  }

  lemma WorkCounts(slot: Slot, pc: Pc, capacity: nat, width: nat)
    requires pc.Work? && PcFormed(pc, width) && |slot.data| == width && !pc.work.StorePosition?
    ensures StepsLeft(WorkNext(slot, pc, capacity, width).1, width) < StepsLeft(pc, width)
  {
  }

  /** Whatever the other actors do, each own step brings a call closer to its return. */
  lemma EveryStepCounts(s: State, a: Actor, retry: bool, why: Reason)
    requires Formed(s) && PcFormed(PcOf(s, a), s.width) && !PcOf(s, a).Idle?
    ensures StepsLeft(PcOf(Run(s, a, retry, why), a), s.width) < StepsLeft(PcOf(s, a), s.width)
  {
    var pc := PcOf(s, a);
    if pc.Snap? {
      SnapCounts(s, pc);
    } else if pc.Drain? {
      DrainCounts(s, pc, retry, why);
    } else if pc.Claim? || pc.Commit? {
      GateCounts(s, a);
    } else if pc.Work? && !pc.work.StorePosition? {
      WorkCounts(SlotAt(s, pc.t), pc, s.capacity, s.width);
    }
  }

  lemma AtTheStart(op: Op, width: nat)
    ensures StepsLeft(Snap(op, Early, 0, LoadEnq1), width) == width + 481
  {
  }

  /** Between `lo` and `hi` actor `a` makes one call. */
  ghost predicate OneCall(run: seq<State>, acts: seq<Action>, lo: nat, hi: nat, a: Actor) {
    && IsRun(run, acts) && lo < hi < |run|
    && acts[lo].Begin? && acts[lo].actor == a
    && (forall k | lo < k < hi :: !PcOf(run[k], a).Done?)
  }

  lemma OtherPc(s: State, act: Action, a: Actor)
    requires Enabled(s, act) && (act.actor != a || act.Crash?)
    ensures PcOf(Next(s, act), a) == PcOf(s, a)
  {
  }

  /** How many of the steps from `lo` up to `hi` are accesses of `a`. */
  function Accesses(acts: seq<Action>, lo: nat, hi: nat, a: Actor): nat
    requires lo <= hi <= |acts|
  {
    if lo == hi then 0
    else Accesses(acts, lo, hi - 1, a) + (if acts[hi - 1].Advance? && acts[hi - 1].actor == a then 1 else 0)
  }

  lemma StepKeepsWidth(s: State, act: Action)
    requires Enabled(s, act)
    ensures Next(s, act).width == s.width
  {
  }

  lemma BeginCounts(s: State, act: Action)
    requires Enabled(s, act) && act.Begin?
    ensures PcOf(Next(s, act), act.actor) == Snap(act.op, Early, 0, LoadEnq1)
  {
  }

  /** A step of anyone: an access of `a` uses up one of its steps, and nothing else adds any. */
  lemma StepUses(s: State, act: Action, a: Actor)
    requires Enabled(s, act) && !PcOf(s, a).Idle? && !PcOf(s, a).Done?
    ensures !PcOf(Next(s, act), a).Idle?
    ensures StepsLeft(PcOf(Next(s, act), a), s.width) + (if act.Advance? && act.actor == a then 1 else 0)
            <= StepsLeft(PcOf(s, a), s.width)
  {
    if act.actor == a && act.Advance? {
      EveryStepCounts(s, a, act.retry, act.why);
      StaysInCall(s, a, act.retry, act.why);
    } else {
      OtherPc(s, act, a);
    }
  }

  lemma StaysInCall(s: State, a: Actor, retry: bool, why: Reason)
    requires Enabled(s, Advance(a, retry, why)) && !PcOf(s, a).Done?
    ensures !PcOf(Run(s, a, retry, why), a).Idle?
  {
  }

  lemma {:induction false} StaysBusy(run: seq<State>, acts: seq<Action>, lo: nat, hi: nat, a: Actor)
    requires OneCall(run, acts, lo, hi, a)
    ensures !PcOf(run[hi], a).Idle?
    decreases hi
  {
    if hi == lo + 1 {
      BeginCounts(run[lo], acts[lo]);
    } else {
      StaysBusy(run, acts, lo, hi - 1, a);
      StepUses(run[hi - 1], acts[hi - 1], a);
    }
  }

  /** A measure that falls with every access of `a`, and never rises, bounds the accesses. */
  lemma {:induction false} Descends(left: seq<nat>, acts: seq<Action>, lo: nat, hi: nat, a: Actor)
    requires lo <= hi <= |acts| && hi < |left|
    requires forall k | lo <= k < hi ::
               left[k + 1] + (if acts[k].Advance? && acts[k].actor == a then 1 else 0) <= left[k]
    ensures Accesses(acts, lo, hi, a) + left[hi] <= left[lo]
    decreases hi
  {
    if lo < hi {
      Descends(left, acts, lo, hi - 1, a);
    }
  }

  lemma {:induction false} WidthFixed(run: seq<State>, acts: seq<Action>, i: nat, n: nat)
    requires IsRun(run, acts) && i <= n < |run|
    ensures run[n].width == run[i].width
    decreases n
  {
    if i < n {
      WidthFixed(run, acts, i, n - 1);
      StepKeepsWidth(run[n - 1], acts[n - 1]);
    }
  }

  /** In every run a call makes at most its width plus 481 shared accesses, whatever the others do. */
  lemma CallIsBounded(run: seq<State>, acts: seq<Action>, lo: nat, hi: nat, a: Actor)
    requires OneCall(run, acts, lo, hi, a)
    ensures Accesses(acts, lo + 1, hi, a) <= run[lo].width + 481
  {
    var width := run[lo].width;
    var left := seq(|run|, k requires 0 <= k < |run| => StepsLeft(PcOf(run[k], a), width));
    forall k | lo + 1 <= k < hi
      ensures left[k + 1] + (if acts[k].Advance? && acts[k].actor == a then 1 else 0) <= left[k]
    {
      StaysBusy(run, acts, lo, k, a);
      WidthFixed(run, acts, lo, k);
      StepUses(run[k], acts[k], a);
    }
    Descends(left, acts, lo + 1, hi, a);
    BeginCounts(run[lo], acts[lo]);
    AtTheStart(acts[lo].op, width);
  }

  // ----- A popper alone always succeeds -----

  /**
   `a` is popping ticket `t` and nothing has moved since it looked: its registers agree with
   memory and no error branch is ahead.
   */
  ghost predicate OnCourse(s: State, a: Actor, t: nat) {
    var pc := PcOf(s, a);
    && !pc.Idle? && pc.op.Pop?
    && if Settled(pc, Deq) then pc.res.ticket == t
       else
         && t == s.deq < s.enq
         && (Inside(pc) || s.deqHolder.None?)
         && match pc
            case Snap(_, site, _, snap) => (site.Early? || site.Gated?) && FreshSnap(s, snap)
            case Drain(_, need, _, drain) => need.BeforeClaim? && FreshDrain(s, drain)
            case Claim(_, _) => true
            case Commit(_, _, _) => true
            case Work(_, _, _) => true
            case _ => false
  }

  predicate FreshSnap(s: State, snap: SnapAt) {
    match snap
    case LoadEnq1 => true
    case LoadDeq1(e1) => e1 == s.enq
    case LoadEnq2(e1, d1, _) => e1 == s.enq && d1 == s.deq
    case LoadDeq2(e1, d1, _, e2) => e1 == e2 == s.enq && d1 == s.deq
  }

  predicate FreshDrain(s: State, drain: DrainAt) {
    match drain
    case LoadLock1 => true
    case LoadEpoch1 => true
    case LoadLock2(ep) => ep == s.deqGate.epoch
    case LoadEpoch2(ep, lock2, _) => ep == s.deqGate.epoch && lock2 == Free
  }

  function Go(a: Actor): Action {
    Advance(a, false, Contention)
  }

  /** A step of the two loads that only read: the registers stay fresh and the way leads on. */
  lemma ReadsStayOnCourse(s: State, a: Actor, t: nat)
    requires Inv(s) && OnCourse(s, a, t) && (PcOf(s, a).Snap? || PcOf(s, a).Drain?)
    requires Enabled(s, Go(a))
    ensures OnCourse(Next(s, Go(a)), a, t)
  {
    var pc := PcOf(s, a);
    assert ActorOk(s, a);
    assert InGate(pc, Deq) <==> s.deqHolder == Some(a);
    assert TicketFits(s.deq, s.capacity);
  }

  lemma GateStaysOnCourse(s: State, a: Actor, t: nat)
    requires Inv(s) && OnCourse(s, a, t) && (PcOf(s, a).Claim? || PcOf(s, a).Commit?)
    requires Enabled(s, Go(a))
    ensures OnCourse(Next(s, Go(a)), a, t)
  {
    var pc := PcOf(s, a);
    assert ActorOk(s, a);
    assert InGate(pc, Deq) <==> s.deqHolder == Some(a);
  }

  lemma WorkStaysOnCourse(s: State, a: Actor, t: nat)
    requires Inv(s) && OnCourse(s, a, t) && PcOf(s, a).Work?
    requires Enabled(s, Go(a))
    ensures OnCourse(Next(s, Go(a)), a, t)
  {
    var pc := PcOf(s, a);
    OwnSlotFits(s, a);
    if !pc.work.StorePosition? {
      PopNextOk(s, SlotAt(s, pc.t), pc);
    }
  }

  lemma SoloStep(s: State, a: Actor, t: nat)
    requires Inv(s) && OnCourse(s, a, t) && !PcOf(s, a).Done? && a !in s.crashed
    ensures Enabled(s, Go(a))
    ensures Inv(Next(s, Go(a))) && OnCourse(Next(s, Go(a)), a, t)
    ensures Next(s, Go(a)).committed == s.committed && Next(s, Go(a)).width == s.width
    ensures Next(s, Go(a)).crashed == s.crashed
    ensures StepsLeft(PcOf(Next(s, Go(a)), a), s.width) < StepsLeft(PcOf(s, a), s.width)
  {
    var pc := PcOf(s, a);
    assert ActorOk(s, a);
    NextKeeps(s, Go(a));
    EveryStepCounts(s, a, false, Contention);
    if pc.Snap? || pc.Drain? {
      ReadsStayOnCourse(s, a, t);
    } else if pc.Claim? || pc.Commit? {
      GateStaysOnCourse(s, a, t);
    } else if pc.Work? {
      WorkStaysOnCourse(s, a, t);
    }
    SoloKeeps(s, a);
  }

  lemma SoloKeeps(s: State, a: Actor)
    requires Enabled(s, Go(a)) && PcOf(s, a).op.Pop?
    ensures Next(s, Go(a)).committed == s.committed && Next(s, Go(a)).width == s.width
    ensures Next(s, Go(a)).crashed == s.crashed
  {
  }

  /** `acts`, in order, lead from `s` to `s1`. */
  ghost predicate Leads(s: State, acts: seq<Action>, s1: State)
    decreases |acts|
  {
    if acts == [] then s1 == s
    else Enabled(s, acts[0]) && Leads(Next(s, acts[0]), acts[1..], s1)
  }

  predicate OnlyBy(acts: seq<Action>, a: Actor) {
    forall k | 0 <= k < |acts| :: acts[k].actor == a
  }

  lemma {:induction false} SoloFinish(s: State, a: Actor, t: nat) returns (acts: seq<Action>, s1: State)
    requires Inv(s) && OnCourse(s, a, t) && a !in s.crashed
    ensures Leads(s, acts, s1) && OnlyBy(acts, a) && |acts| <= StepsLeft(PcOf(s, a), s.width)
    ensures Inv(s1) && OnCourse(s1, a, t) && PcOf(s1, a).Done? && s1.committed == s.committed
    decreases StepsLeft(PcOf(s, a), s.width)
  {
    if PcOf(s, a).Done? {
      acts, s1 := [], s;
    } else {
      SoloStep(s, a, t);
      var rest;
      rest, s1 := SoloFinish(Next(s, Go(a)), a, t);
      acts := [Go(a)] + rest;
      assert acts[1..] == rest;
    }
  }

  /**
   In any reachable state, whoever has crashed on the producing side, an idle popper running
   alone while the dequeue gate is free takes the oldest message, in a bounded number of steps.
   */
  lemma CommittedStaysPoppable(run: seq<State>, past: seq<Action>, i: nat, a: Actor)
    requires IsRun(run, past) && i < |run|
    requires run[i].deqHolder.None? && run[i].deq < run[i].enq
    requires PcOf(run[i], a).Idle? && a !in run[i].crashed
    ensures |run[i].committed| == run[i].enq
    ensures exists acts, s1 ::
              && Leads(run[i], acts, s1) && OnlyBy(acts, a) && |acts| <= run[i].width + 482
              && PcOf(s1, a) == Done(Pop(run[i].committed[run[i].deq].msg), Ok(run[i].deq))
  {
    var s := run[i];
    RunInv(run, past, i);
    var begin := Begin(a, Pop([]));
    assert ActorOk(s, a);
    NextKeeps(s, begin);
    AtTheStart(Pop([]), s.width);
    var rest, s1 := SoloFinish(Next(s, begin), a, s.deq);
    var acts := [begin] + rest;
    assert acts[1..] == rest;
    assert Leads(s, acts, s1);
    assert ActorOk(s1, a);
  }
}
