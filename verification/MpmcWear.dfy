/**
 How the slots of the queue wear out.  A lap of the ring costs each slot exactly four epochs, two
 for the push and two for the pop, so the epoch of a slot tells the lap it is on.
 */
module MpmcWear {
  import opened Words
  import opened Mpmc
  import opened MpmcInvariant
  import opened MpmcSteps
  import opened MpmcProgress
  import opened MpmcTheorems

  /** How much of its two slot epochs a call at work has used. */
  function Used(pc: Pc): nat {
    match pc
    case Work(_, _, work) =>
      (match work
       case SlotSetOwner(_) => 1
       case SlotStoreEpoch(_) => 1
       case SlotStoreOwned => 2
       case CopyWord(_) => 2
       case StoreSequence => 2
       case StoreState => 2
       case StorePosition => 2
       case _ => 0)
    case _ => 0
  }

  function UsedBy(s: State, holder: Option<Actor>): nat {
    if holder.Some? then Used(PcOf(s, holder.value)) else 0
  }

  /** What ticket `t` has cost its slot so far, with `push` and `pop` used by the calls at work. */
  function Cost(s: State, t: nat, push: nat, pop: nat): nat {
    if t < s.enq then 2 + (if t == s.deq then pop else 0) else if t == s.enq then push else 0
  }

  ghost predicate WornAt(s: State, t: nat)
    requires Formed(s)
  {
    SlotAt(s, t).epoch == 4 * (t / s.capacity) + Cost(s, t, UsedBy(s, s.enqHolder), UsedBy(s, s.deqHolder))
  }

  /** Every slot is as worn as the lap of its ticket says. */
  ghost predicate Worn(s: State)
    requires Formed(s)
  {
    forall t {:trigger WornAt(s, t)} | s.deq <= t < s.deq + s.capacity :: WornAt(s, t)
  }

  /** A step that is not at a slot leaves slots, positions and what the calls at work have used. */
  predicate Idles(s: State, s1: State) {
    && s1.slots == s.slots && s1.capacity == s.capacity && s1.width == s.width && s1.enq == s.enq && s1.deq == s.deq
    && UsedBy(s1, s1.enqHolder) == UsedBy(s, s.enqHolder) && UsedBy(s1, s1.deqHolder) == UsedBy(s, s.deqHolder)
  }

  lemma ReadsIdle(s: State, a: Actor, retry: bool, why: Reason)
    requires Inv(s) && Enabled(s, Advance(a, retry, why)) && (PcOf(s, a).Snap? || PcOf(s, a).Drain?)
    ensures Idles(s, Run(s, a, retry, why))
  {
  }

  lemma FreeIsUnheld(s: State)
    requires Inv(s)
    ensures s.enqGate.lock == Free ==> s.enqHolder.None?
    ensures s.deqGate.lock == Free ==> s.deqHolder.None?
  {
  }

  lemma ClaimIdles(s: State, a: Actor, retry: bool, why: Reason)
    requires Inv(s) && Enabled(s, Advance(a, retry, why)) && PcOf(s, a).Claim?
    ensures Idles(s, Run(s, a, retry, why))
  {
    assert InGate(PcOf(s, a), Enq) <==> s.enqHolder == Some(a);
    assert InGate(PcOf(s, a), Deq) <==> s.deqHolder == Some(a);
    FreeIsUnheld(s);
  }

  lemma CommitIdles(s: State, a: Actor, retry: bool, why: Reason)
    requires Inv(s) && Enabled(s, Advance(a, retry, why)) && PcOf(s, a).Commit?
    ensures Idles(s, Run(s, a, retry, why))
  {
    assert InGate(PcOf(s, a), Enq) <==> s.enqHolder == Some(a);
    assert InGate(PcOf(s, a), Deq) <==> s.deqHolder == Some(a);
  }

  lemma ExitIdles(s: State, a: Actor, retry: bool, why: Reason)
    requires Inv(s) && Enabled(s, Advance(a, retry, why))
    requires var pc := PcOf(s, a); pc.Diagnose? || pc.Unlock? || pc.Notify? || pc.Done?
    ensures Idles(s, Run(s, a, retry, why))
  {
    assert InGate(PcOf(s, a), Enq) <==> s.enqHolder == Some(a);
    assert InGate(PcOf(s, a), Deq) <==> s.deqHolder == Some(a);
  }

  lemma StillWorn(s: State, s1: State)
    requires Formed(s) && Formed(s1) && Worn(s) && Idles(s, s1)
    ensures Worn(s1)
  {
    forall t | s1.deq <= t < s1.deq + s1.capacity ensures WornAt(s1, t) {
      assert WornAt(s, t);
    }
  }

  // ----- At the slot -----

  /** One access to the slot: the epoch moves with the call. */
  lemma SlotWears(s: State, a: Actor)
    requires Inv(s) && PcOf(s, a).Work? && !PcOf(s, a).work.StorePosition? && PcFormed(PcOf(s, a), s.width)
    ensures var pc := PcOf(s, a);
            var (slot1, pc1) := WorkNext(SlotAt(s, pc.t), pc, s.capacity, s.width);
            slot1.epoch + Used(pc) == SlotAt(s, pc.t).epoch + Used(pc1)
  {
    OwnSlotFits(s, a);
  }

  lemma WorkIs(s: State, a: Actor, retry: bool, why: Reason)
    requires Inv(s) && Enabled(s, Advance(a, retry, why)) && PcOf(s, a).Work? && !PcOf(s, a).work.StorePosition?
    ensures var pc, s1 := PcOf(s, a), Run(s, a, retry, why);
            var (slot1, pc1) := WorkNext(SlotAt(s, pc.t), pc, s.capacity, s.width);
            && s1.slots == s.slots[pc.t % s.capacity := slot1] && PcOf(s1, a) == pc1
            && s1.capacity == s.capacity && s1.enq == s.enq && s1.deq == s.deq
            && s1.enqHolder == s.enqHolder && s1.deqHolder == s.deqHolder
            && (forall b: Actor | b != a :: PcOf(s1, b) == PcOf(s, b))
  {
  }

  lemma WorkWears(s: State, a: Actor, retry: bool, why: Reason)
    requires Inv(s) && Worn(s) && Enabled(s, Advance(a, retry, why))
    requires PcOf(s, a).Work? && !PcOf(s, a).work.StorePosition?
    requires Formed(Run(s, a, retry, why))
    ensures Worn(Run(s, a, retry, why))
  {
    var pc, s1 := PcOf(s, a), Run(s, a, retry, why);
    OwnSlotFits(s, a);
    SlotWears(s, a);
    WorkIs(s, a, retry, why);
    assert InGate(pc, Enq) <==> s.enqHolder == Some(a);
    assert InGate(pc, Deq) <==> s.deqHolder == Some(a);
    forall t | s1.deq <= t < s1.deq + s1.capacity ensures WornAt(s1, t) {
      assert WornAt(s, t);
      if t != pc.t {
        DistinctModulus(t, pc.t, s.capacity);
        assert SlotAt(s1, t) == SlotAt(s, t);
      }
    }
  }

  lemma NextLap(t: nat, m: nat)
    requires m > 0
    ensures (t + m) / m == t / m + 1 && (t + m) % m == t % m
  {
    DivisionIsUnique(t + m, m, t / m + 1, t % m);
  }

  /** What a position store changes. */
  lemma PositionIs(s: State, a: Actor)
    requires Inv(s) && PcOf(s, a).Work? && PcOf(s, a).work.StorePosition?
    ensures var pc, s1 := PcOf(s, a), PositionStep(s, a, PcOf(s, a));
            && s1.slots == s.slots && s1.capacity == s.capacity
            && (if pc.op.Push? then
                  && s1.enq == s.enq + 1 && s1.deq == s.deq <= s.enq < s.deq + s.capacity
                  && UsedBy(s, s.enqHolder) == 2 && UsedBy(s1, s1.enqHolder) == 0
                  && UsedBy(s1, s1.deqHolder) == UsedBy(s, s.deqHolder)
                  && (s.deq == s.enq ==> UsedBy(s, s.deqHolder) == 0)
                else
                  && s1.enq == s.enq && s1.deq == s.deq + 1 <= s.enq
                  && UsedBy(s, s.deqHolder) == 2 && UsedBy(s1, s1.deqHolder) == 0
                  && UsedBy(s1, s1.enqHolder) == UsedBy(s, s.enqHolder)
                  && (s.enq == s.deq + s.capacity ==> UsedBy(s, s.enqHolder) == 0))
  {
    var pc := PcOf(s, a);
    OwnSlotFits(s, a);
    WorkingSides(s);
    assert InGate(pc, Enq) <==> s.enqHolder == Some(a);
    assert InGate(pc, Deq) <==> s.deqHolder == Some(a);
  }

  /** The position store: a finished push has cost its slot two, a finished pop the rest of the lap. */
  lemma PositionWears(s: State, a: Actor)
    requires Inv(s) && Worn(s) && PcOf(s, a).Work? && PcOf(s, a).work.StorePosition?
    requires Formed(PositionStep(s, a, PcOf(s, a)))
    ensures Worn(PositionStep(s, a, PcOf(s, a)))
  {
    PositionIs(s, a);
    if PcOf(s, a).op.Push? {
      PushedWears(s, PositionStep(s, a, PcOf(s, a)));
    } else {
      PoppedWears(s, PositionStep(s, a, PcOf(s, a)));
    }
  }

  lemma PushedWears(s: State, s1: State)
    requires Formed(s) && Worn(s) && Formed(s1) && s1.slots == s.slots && s1.capacity == s.capacity
    requires s1.enq == s.enq + 1 && s1.deq == s.deq <= s.enq < s.deq + s.capacity
    requires UsedBy(s, s.enqHolder) == 2 && UsedBy(s1, s1.enqHolder) == 0
    requires UsedBy(s1, s1.deqHolder) == UsedBy(s, s.deqHolder) && (s.deq == s.enq ==> UsedBy(s, s.deqHolder) == 0)
    ensures Worn(s1)
  {
    forall t | s1.deq <= t < s1.deq + s1.capacity ensures WornAt(s1, t) {
      assert WornAt(s, t);
    }
  }

  lemma PoppedWears(s: State, s1: State)
    requires Formed(s) && Worn(s) && Formed(s1) && s1.slots == s.slots && s1.capacity == s.capacity
    requires s1.enq == s.enq && s1.deq == s.deq + 1 <= s.enq <= s.deq + s.capacity
    requires UsedBy(s, s.deqHolder) == 2 && UsedBy(s1, s1.deqHolder) == 0
    requires UsedBy(s1, s1.enqHolder) == UsedBy(s, s.enqHolder)
    requires s.enq == s.deq + s.capacity ==> UsedBy(s, s.enqHolder) == 0
    ensures Worn(s1)
  {
    NextLap(s.deq, s.capacity);
    assert WornAt(s, s.deq);
    forall t | s1.deq <= t < s1.deq + s1.capacity ensures WornAt(s1, t) {
      if t < s.deq + s.capacity {
        assert WornAt(s, t);
      }
    }
  }

  lemma RunWears(s: State, a: Actor, retry: bool, why: Reason)
    requires Inv(s) && Worn(s) && Enabled(s, Advance(a, retry, why)) && Formed(Run(s, a, retry, why))
    ensures Worn(Run(s, a, retry, why))
  {
    var pc, s1 := PcOf(s, a), Run(s, a, retry, why);
    if pc.Work? {
      if pc.work.StorePosition? {
        PositionWears(s, a);
      } else {
        WorkWears(s, a, retry, why);
      }
    } else {
      if pc.Snap? || pc.Drain? {
        ReadsIdle(s, a, retry, why);
      } else if pc.Claim? {
        ClaimIdles(s, a, retry, why);
      } else if pc.Commit? {
        CommitIdles(s, a, retry, why);
      } else {
        ExitIdles(s, a, retry, why);
      }
      StillWorn(s, s1);
    }
  }

  lemma OthersIdle(s: State, act: Action)
    requires Inv(s) && Enabled(s, act) && !act.Advance?
    ensures Idles(s, Next(s, act))
  {
    assert InGate(PcOf(s, act.actor), Enq) <==> s.enqHolder == Some(act.actor);
    assert InGate(PcOf(s, act.actor), Deq) <==> s.deqHolder == Some(act.actor);
  }

  lemma NextWears(s: State, act: Action)
    requires Inv(s) && Worn(s) && Enabled(s, act)
    ensures Inv(Next(s, act)) && Worn(Next(s, act))
  {
    NextKeeps(s, act);
    if act.Advance? {
      RunWears(s, act.actor, act.retry, act.why);
    } else {
      OthersIdle(s, act);
      StillWorn(s, Next(s, act));
    }
  }

  lemma FirstLap(t: nat, m: nat)
    requires t < m
    ensures t / m == 0 && t % m == t
  {
    DivisionIsUnique(t, m, 0, t);
  }

  lemma InitWorn(s: State)
    requires Init(s)
    ensures Worn(s)
  {
    forall t | s.deq <= t < s.deq + s.capacity ensures WornAt(s, t) {
      FirstLap(t, s.capacity);
    }
  }

  /** In every run the epoch of a slot is four times its lap plus what its ticket has cost it so far. */
  lemma {:induction false} RunWorn(run: seq<State>, acts: seq<Action>, i: nat)
    requires IsRun(run, acts) && i < |run|
    ensures Inv(run[i]) && Worn(run[i])
    decreases i
  {
    if i == 0 {
      InitKeeps(run[0]);
      InitWorn(run[0]);
    } else {
      RunWorn(run, acts, i - 1);
      NextWears(run[i - 1], acts[i - 1]);
    }
  }

  // ----- How long a queue lasts -----

  /** The laps a slot lasts: each push needs four epochs to spare. */
  const LAPS: nat := MAX_EPOCH / 4

  lemma LapBound(t: nat, m: nat, laps: nat)
    requires 0 < m && t / m < laps
    ensures t < m * laps
  {
    assert t == m * (t / m) + t % m;
    Product(m, laps - 1 - t / m);
    assert m * laps == m * (t / m) + m + m * (laps - 1 - t / m);
  }

  /** A queue of `capacity` slots never takes more than `capacity * LAPS` messages. */
  lemma WornOut(s: State)
    requires Inv(s) && Worn(s)
    ensures s.enq <= s.capacity * LAPS
  {
    if s.enq > 0 {
      var t := s.enq - 1;
      if t < s.deq {
        NextLap(t, s.capacity);
        assert SlotOk(s, t + s.capacity) && WornAt(s, t + s.capacity);
        assert SlotAt(s, t + s.capacity).epoch <= MAX_EPOCH;
      } else {
        assert SlotOk(s, t) && WornAt(s, t);
      }
      assert t / s.capacity < LAPS;
      LapBound(t, s.capacity, LAPS);
    } else {
      Product(s.capacity, LAPS);
    }
  }

  /** So one or two slots wear out before the tickets do. */
  lemma FewSlotsFallShort(s: State)
    requires Inv(s) && Worn(s) && s.capacity <= 2
    ensures s.enq < LAST_TICKET
  {
    WornOut(s);
  }
}
