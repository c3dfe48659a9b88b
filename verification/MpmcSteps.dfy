/** Every step of every actor preserves the queue invariant. */
module MpmcSteps {
  import opened Words
  import opened Mpmc
  import opened MpmcInvariant

  // ----- Steps that only move the program counter -----

  /** The new program point claims nothing of gate or slot that the old one did not. */
  predicate Steady(was: Pc, pc: Pc) {
    && InGate(pc, Enq) == InGate(was, Enq)
    && InGate(pc, Deq) == InGate(was, Deq)
    && (InGate(pc, Deq) ==> Phase(pc) == Phase(was))
    && (Phase(pc) == 1 <==> Phase(was) == 1)
    && (Phase(pc) == 1 ==> pc.commit.cur == was.commit.cur)
    && !Touches(was) && !Touches(pc)
  }

  /** Nor of history. */
  predicate SameResult(was: Pc, pc: Pc) {
    && Settled(pc, Enq) == Settled(was, Enq) && Settled(pc, Deq) == Settled(was, Deq)
    && (Settled(pc, Enq) || Settled(pc, Deq) ==> pc.res == was.res && pc.op == was.op)
  }

  predicate Quiet(was: Pc, pc: Pc) {
    Steady(was, pc) && SameResult(was, pc)
  }

  predicate CasOk(s: State, pc: Pc) {
    pc.Commit? && pc.commit.BeginCas? ==> pc.commit.cur == GateAt(s, SideOf(pc.op)).epoch <= MAX_EPOCH - 2
  }

  lemma MoveActor(s: State, a: Actor, pc: Pc)
    requires Inv(s)
    requires Quiet(PcOf(s, a), pc) && Registers(s, pc) && PcFormed(pc, s.width)
    ensures Actors(At(s, a, pc))
  {
    var s1 := At(s, a, pc);
    assert ActorOk(s, a);
    RegistersKeep(s, s1, pc);
    assert ActorOk(s1, a);
    AllOthersKeep(s, s1, a);
  }

  lemma MoveHolders(s: State, a: Actor, pc: Pc)
    requires Holders(s)
    requires InGate(pc, Enq) == InGate(PcOf(s, a), Enq) && InGate(pc, Deq) == InGate(PcOf(s, a), Deq)
    ensures Holders(At(s, a, pc))
  {
    var s1 := At(s, a, pc);
    forall b: Actor
      ensures InGate(PcOf(s1, b), Enq) <==> s1.enqHolder == Some(b)
      ensures InGate(PcOf(s1, b), Deq) <==> s1.deqHolder == Some(b)
    {
      assert InGate(PcOf(s, b), Enq) <==> s.enqHolder == Some(b);
      assert InGate(PcOf(s, b), Deq) <==> s.deqHolder == Some(b);
    }
  }

  lemma MoveRing(s: State, a: Actor, pc: Pc)
    requires Inv(s) && !Touches(PcOf(s, a)) && !Touches(pc)
    ensures Ring(At(s, a, pc))
  {
    var s1 := At(s, a, pc);
    forall t | s1.deq <= t < s1.deq + s1.capacity
      ensures SlotOk(s1, t)
    {
      assert SlotOk(s, t);
    }
  }

  lemma MoveGates(s: State, a: Actor, pc: Pc)
    requires EnqGateOk(s) && DeqGateOk(s) && Holders(s)
    requires Steady(PcOf(s, a), pc) && CasOk(s, pc)
    ensures EnqGateOk(At(s, a, pc)) && DeqGateOk(At(s, a, pc))
  {
    assert InGate(PcOf(s, a), Enq) <==> s.enqHolder == Some(a);
    assert InGate(PcOf(s, a), Deq) <==> s.deqHolder == Some(a);
  }

  lemma Move(s: State, a: Actor, pc: Pc)
    requires Inv(s)
    requires Quiet(PcOf(s, a), pc) && CasOk(s, pc) && Registers(s, pc) && PcFormed(pc, s.width)
    ensures Inv(At(s, a, pc))
  {
    MoveActor(s, a, pc);
    MoveHolders(s, a, pc);
    MoveGates(s, a, pc);
    MoveRing(s, a, pc);
  }

  // ----- Snapshots and budgets -----

  /** The bounds on positions that register facts are read against. */
  predicate Bounds(s: State) {
    && 0 < s.capacity <= MAX_CAPACITY
    && s.deq <= s.enq <= s.deq + s.capacity
    && s.enq <= LAST_TICKET
  }

  /** All that `Move` asks of a new program point. */
  predicate Sound(s: State, was: Pc, pc: Pc) {
    Quiet(was, pc) && CasOk(s, pc) && Registers(s, pc) && PcFormed(pc, s.width)
  }

  lemma FailSound(s: State, was: Pc, why: Reason)
    requires was.Snap? || was.Drain? || was.Diagnose?
    requires PcFormed(was, s.width) && Possible(was.op, why)
    ensures Sound(s, was, Fail(was.op, Inside(was), why))
  {
  }

  lemma EarlySound(s: State, was: Pc, e: nat)
    requires Bounds(s) && was.Snap? && was.site.Early? && PcFormed(was, s.width)
    requires s.deq <= e <= s.deq + s.capacity && e <= s.enq
    ensures Sound(s, was, EarlySnapshot(was.op, s.capacity, e, s.deq))
  {
  }

  lemma GatedSound(s: State, was: Pc, e: nat)
    requires Bounds(s) && was.Snap? && was.site.Gated? && PcFormed(was, s.width)
    requires s.deq <= e <= s.deq + s.capacity && e <= s.enq && (was.op.Push? ==> e == s.enq)
    ensures Sound(s, was, GatedSnapshot(was.op, s.capacity, e, s.deq))
  {
  }

  lemma RefreshSound(s: State, was: Pc, e: nat)
    requires Bounds(s) && was.Snap? && was.site.Refresh? && PcFormed(was, s.width)
    requires SiteOk(s, was.op, was.site)
    requires s.deq <= e <= s.deq + s.capacity && e <= s.enq && (was.site.gated ==> e == s.enq)
    ensures Sound(s, was, RefreshedSnapshot(was.op, s.capacity, was.site, e, s.deq))
  {
  }

  lemma SnapshotNextOk(s: State, pc: Pc)
    requires Bounds(s)
    requires pc.Snap? && Registers(s, pc) && PcFormed(pc, s.width)
    ensures Sound(s, pc, SnapshotNext(s, pc))
  {
    if pc.snap.LoadDeq2? {
      var e := pc.snap.e2;
      if pc.snap.e1 == e && pc.snap.d1 == s.deq {
        match pc.site
        case Early => EarlySound(s, pc, e);
        case Gated => GatedSound(s, pc, e);
        case Refresh(_, _, _, _, _, _) => RefreshSound(s, pc, e);
      } else {
        FailSound(s, pc, Contention);
      }
    }
  }

  /** Where the dequeue gate stands when nobody is inside it. */
  predicate DrainFacts(s: State) {
    && (s.deqGate.lock == Free ==> s.deqGate.epoch == 2 * s.deq)
    && 2 * s.deq <= s.deqGate.epoch
    && s.deqGate.lock != Exhausted && s.deqGate.lock != Fault
  }

  lemma BudgetSound(s: State, was: Pc, ep: nat)
    requires Bounds(s) && was.Drain? && PcFormed(was, s.width)
    requires NeedOk(s, was.op, was.need)
    requires ep == 2 * s.deq
    ensures ep <= MAX_EPOCH
    ensures Sound(s, was, Budgeted(was.op, s.capacity, was.need, Budget(ep), s.deq))
  {
  }

  lemma DrainAgainSound(s: State, was: Pc, why: Reason)
    requires was.Drain? && NeedOk(s, was.op, was.need)
    requires PcFormed(was, s.width) && Possible(was.op, why)
    ensures Sound(s, was, DrainAgain(was.op, was.need, was.tries, why))
  {
  }

  lemma DrainLock1Ok(s: State, pc: Pc, retry: bool, why: Reason)
    requires DrainFacts(s)
    requires pc.Drain? && Registers(s, pc) && PcFormed(pc, s.width) && DiagnosisReason(s, pc, why)
    requires pc.drain.LoadLock1?
    ensures Sound(s, pc, DrainNext(s, pc, retry, why))
  {
    match s.deqGate.lock
    case Free =>
    case Owned => DrainAgainSound(s, pc, why); FailSound(s, pc, why);
    case lock => FailSound(s, pc, LockReason(lock));
  }

  lemma DrainEpoch2Ok(s: State, pc: Pc, retry: bool, why: Reason)
    requires Bounds(s) && DrainFacts(s)
    requires pc.Drain? && Registers(s, pc) && PcFormed(pc, s.width) && DiagnosisReason(s, pc, why)
    requires pc.drain.LoadEpoch2?
    ensures Sound(s, pc, DrainNext(s, pc, retry, why))
  {
    var LoadEpoch2(ep, lock2, drainedAt) := pc.drain;
    if lock2 == Free && ep == s.deqGate.epoch {
      assert drainedAt == s.deq;
      BudgetSound(s, pc, ep);
    } else if lock2 == Free || lock2 == Owned {
      DrainAgainSound(s, pc, why);
    } else {
      FailSound(s, pc, LockReason(lock2));
    }
  }

  lemma DrainNextOk(s: State, pc: Pc, retry: bool, why: Reason)
    requires Bounds(s) && DrainFacts(s)
    requires pc.Drain? && Registers(s, pc) && PcFormed(pc, s.width) && DiagnosisReason(s, pc, why)
    ensures Sound(s, pc, DrainNext(s, pc, retry, why))
  {
    match pc.drain
    case LoadLock1 => DrainLock1Ok(s, pc, retry, why);
    case LoadEpoch1 =>
    case LoadLock2(_) =>
    case LoadEpoch2(_, _, _) => DrainEpoch2Ok(s, pc, retry, why);
  }

  // ----- Steps on a gate -----

  function HolderOf(s: State, side: Side): Option<Actor> {
    if side.Enq? then s.enqHolder else s.deqHolder
  }

  /** The gate of `side` after `a` changed it and moved to `pc`. */
  function Regated(s: State, a: Actor, side: Side, g: Gate, h: Option<Actor>, pc: Pc): State {
    At(WithHolder(WithGate(s, side, g), side, h), a, pc)
  }

  /** Only `a`, or nobody, is inside, before and after. */
  predicate GateChange(s: State, a: Actor, side: Side, h: Option<Actor>, pc: Pc) {
    var was := PcOf(s, a);
    && !was.Idle? && !pc.Idle? && SideOf(was.op) == side && SideOf(pc.op) == side
    && (HolderOf(s, side) == None || HolderOf(s, side) == Some(a))
    && h == (if Inside(pc) then Some(a) else None)
    && !Touches(was) && !Touches(pc)
    && SameResult(was, pc)
  }

  lemma RegatedHolders(s: State, a: Actor, side: Side, g: Gate, h: Option<Actor>, pc: Pc)
    requires Holders(s) && GateChange(s, a, side, h, pc)
    ensures Holders(Regated(s, a, side, g, h, pc))
  {
    var s1 := Regated(s, a, side, g, h, pc);
    forall b: Actor
      ensures InGate(PcOf(s1, b), Enq) <==> s1.enqHolder == Some(b)
      ensures InGate(PcOf(s1, b), Deq) <==> s1.deqHolder == Some(b)
    {
      assert InGate(PcOf(s, b), Enq) <==> s.enqHolder == Some(b);
      assert InGate(PcOf(s, b), Deq) <==> s.deqHolder == Some(b);
    }
  }

  lemma RegatedActors(s: State, a: Actor, side: Side, g: Gate, h: Option<Actor>, pc: Pc)
    requires Inv(s) && GateChange(s, a, side, h, pc)
    requires side.Deq? ==> s.deqGate.epoch <= g.epoch
    requires Registers(Regated(s, a, side, g, h, pc), pc) && PcFormed(pc, s.width)
    ensures Actors(Regated(s, a, side, g, h, pc))
  {
    var s1 := Regated(s, a, side, g, h, pc);
    assert ActorOk(s, a);
    assert ActorOk(s1, a);
    AllOthersKeep(s, s1, a);
  }

  lemma RegatedRing(s: State, a: Actor, side: Side, g: Gate, h: Option<Actor>, pc: Pc)
    requires Inv(s) && GateChange(s, a, side, h, pc)
    ensures Ring(Regated(s, a, side, g, h, pc))
  {
    var s1 := Regated(s, a, side, g, h, pc);
    assert PushTouches(s1) == PushTouches(s) && PopTouches(s1) == PopTouches(s);
    forall t | s1.deq <= t < s1.deq + s1.capacity
      ensures SlotOk(s1, t)
    {
      assert SlotOk(s, t);
    }
  }

  lemma OtherGateKeeps(s: State, a: Actor, side: Side, g: Gate, h: Option<Actor>, pc: Pc)
    requires Holders(s) && EnqGateOk(s) && DeqGateOk(s) && GateChange(s, a, side, h, pc)
    ensures side.Enq? ==> DeqGateOk(Regated(s, a, side, g, h, pc))
    ensures side.Deq? ==> EnqGateOk(Regated(s, a, side, g, h, pc))
  {
    assert InGate(PcOf(s, a), Enq) <==> s.enqHolder == Some(a);
    assert InGate(PcOf(s, a), Deq) <==> s.deqHolder == Some(a);
  }

  lemma Regate(s: State, a: Actor, side: Side, g: Gate, h: Option<Actor>, pc: Pc)
    requires Inv(s) && GateChange(s, a, side, h, pc)
    requires side.Deq? ==> s.deqGate.epoch <= g.epoch
    requires Registers(Regated(s, a, side, g, h, pc), pc) && PcFormed(pc, s.width)
    requires side.Enq? ==> EnqGateOk(Regated(s, a, side, g, h, pc))
    requires side.Deq? ==> DeqGateOk(Regated(s, a, side, g, h, pc))
    ensures Inv(Regated(s, a, side, g, h, pc))
  {
    RegatedHolders(s, a, side, g, h, pc);
    RegatedActors(s, a, side, g, h, pc);
    RegatedRing(s, a, side, g, h, pc);
    OtherGateKeeps(s, a, side, g, h, pc);
  }

  lemma ClaimKeeps(s: State, a: Actor)
    requires Inv(s) && PcOf(s, a).Claim?
    ensures Inv(ClaimStep(s, a, PcOf(s, a)))
  {
    var pc := PcOf(s, a);
    var side := SideOf(pc.op);
    var g := GateAt(s, side);
    assert ActorOk(s, a);
    if pc.loaded && g.lock == Free {
      var pc1 := if pc.op.Push? then Commit(pc.op, 0, BeginLoad) else Snap(pc.op, Gated, 0, LoadEnq1);
      Regate(s, a, side, g.(lock := Claiming), Some(a), pc1);
    } else {
      Move(s, a, PcOf(ClaimStep(s, a, pc), a));
    }
  }

  lemma BeginLoadKeeps(s: State, a: Actor)
    requires Inv(s) && PcOf(s, a).Commit? && PcOf(s, a).commit.BeginLoad?
    ensures Inv(CommitStep(s, a, PcOf(s, a)))
  {
    var pc := PcOf(s, a);
    assert ActorOk(s, a);
    assert InGate(pc, SideOf(pc.op));
    Move(s, a, PcOf(CommitStep(s, a, pc), a));
  }

  lemma BeginCasKeeps(s: State, a: Actor)
    requires Inv(s) && PcOf(s, a).Commit? && PcOf(s, a).commit.BeginCas?
    ensures Inv(CommitStep(s, a, PcOf(s, a)))
  {
    var pc := PcOf(s, a);
    var side := SideOf(pc.op);
    var cur := pc.commit.cur;
    assert ActorOk(s, a);
    assert InGate(pc, side);
    Regate(s, a, side, GateAt(s, side).(epoch := cur + 1), Some(a), pc.(commit := SetOwner(cur)));
  }

  lemma SetOwnerKeeps(s: State, a: Actor)
    requires Inv(s) && PcOf(s, a).Commit? && PcOf(s, a).commit.SetOwner?
    ensures Inv(CommitStep(s, a, PcOf(s, a)))
  {
    var pc := PcOf(s, a);
    assert ActorOk(s, a);
    Move(s, a, pc.(commit := StoreEpoch(pc.commit.cur)));
  }

  lemma StoreEpochKeeps(s: State, a: Actor)
    requires Inv(s) && PcOf(s, a).Commit? && PcOf(s, a).commit.StoreEpoch?
    ensures Inv(CommitStep(s, a, PcOf(s, a)))
  {
    var pc := PcOf(s, a);
    var side := SideOf(pc.op);
    assert ActorOk(s, a);
    assert InGate(pc, side);
    Regate(s, a, side, GateAt(s, side).(epoch := pc.commit.cur + 2), Some(a), pc.(commit := StoreOwned));
  }

  lemma StoreOwnedKeeps(s: State, a: Actor)
    requires Inv(s) && PcOf(s, a).Commit? && PcOf(s, a).commit.StoreOwned?
    ensures Inv(CommitStep(s, a, PcOf(s, a)))
  {
    var pc := PcOf(s, a);
    var side := SideOf(pc.op);
    assert ActorOk(s, a);
    assert InGate(pc, side);
    Regate(s, a, side, GateAt(s, side).(lock := Owned), Some(a),
           if pc.op.Push? then Snap(pc.op, Gated, 0, LoadEnq1) else Work(pc.op, pc.t, CheckSequence));
  }

  lemma RefuseKeeps(s: State, a: Actor)
    requires Inv(s) && PcOf(s, a).Commit? && PcOf(s, a).commit.Refuse?
    ensures Inv(CommitStep(s, a, PcOf(s, a)))
  {
    var pc := PcOf(s, a);
    var side := SideOf(pc.op);
    assert ActorOk(s, a);
    assert InGate(pc, side);
    Regate(s, a, side, GateAt(s, side).(lock := Exhausted), None, Done(pc.op, Err(pc.commit.why)));
  }

  lemma CommitKeeps(s: State, a: Actor)
    requires Inv(s) && PcOf(s, a).Commit?
    ensures Inv(CommitStep(s, a, PcOf(s, a)))
  {
    match PcOf(s, a).commit
    case BeginLoad => BeginLoadKeeps(s, a);
    case BeginCas(_) => BeginCasKeeps(s, a);
    case SetOwner(_) => SetOwnerKeeps(s, a);
    case StoreEpoch(_) => StoreEpochKeeps(s, a);
    case StoreOwned => StoreOwnedKeeps(s, a);
    case Refuse(_) => RefuseKeeps(s, a);
  }

  lemma UnlockKeeps(s: State, a: Actor)
    requires Inv(s) && PcOf(s, a).Unlock?
    ensures Inv(ExitStep(s, a, PcOf(s, a), Contention))
  {
    var pc := PcOf(s, a);
    var side := SideOf(pc.op);
    assert ActorOk(s, a);
    assert InGate(pc, side);
    Regate(s, a, side, GateAt(s, side).(lock := Free), None,
           if pc.res.Ok? then Notify(pc.op, pc.res) else Done(pc.op, pc.res));
  }

  /** Nothing in the invariant reads the notify epoch or the set of crashed actors. */
  lemma Unobserved(s: State, n: nat, crashed: set<Actor>)
    requires Inv(s)
    ensures Inv(s.(notify := n, crashed := crashed))
  {
    var s1 := s.(notify := n, crashed := crashed);
    forall b: Actor ensures PcOf(s1, b) == PcOf(s, b) && ActorOk(s1, b) {
      assert ActorOk(s, b);
      RegistersKeep(s, s1, PcOf(s, b));
    }
    assert Ring(s1) by {
      forall t | s1.deq <= t < s1.deq + s1.capacity
        ensures SlotOk(s1, t)
      {
        assert SlotOk(s, t);
      }
    }
    assert Holders(s1) by {
      forall b: Actor
        ensures InGate(PcOf(s1, b), Enq) <==> s1.enqHolder == Some(b)
        ensures InGate(PcOf(s1, b), Deq) <==> s1.deqHolder == Some(b)
      {
        assert InGate(PcOf(s, b), Enq) <==> s.enqHolder == Some(b);
        assert InGate(PcOf(s, b), Deq) <==> s.deqHolder == Some(b);
      }
    }
  }

  lemma NotifyKeeps(s: State, a: Actor)
    requires Inv(s) && PcOf(s, a).Notify?
    ensures Inv(ExitStep(s, a, PcOf(s, a), Contention))
  {
    var pc := PcOf(s, a);
    assert ActorOk(s, a);
    Move(s, a, Done(pc.op, pc.res));
    Unobserved(At(s, a, Done(pc.op, pc.res)), (s.notify + 1) % NOTIFY_WRAP, s.crashed);
  }

  lemma ReturnKeeps(s: State, a: Actor)
    requires Inv(s) && PcOf(s, a).Done?
    ensures Inv(ExitStep(s, a, PcOf(s, a), Contention))
  {
    var s1 := ExitStep(s, a, PcOf(s, a), Contention);
    assert ActorOk(s, a);
    assert ActorOk(s1, a);
    AllOthersKeep(s, s1, a);
    MoveHolders(s, a, Idle);
    MoveRing(s, a, Idle);
    MoveGates(s, a, Idle);
    SameShared(At(s, a, Idle), s1);
  }

  /** All but `Actors` depends on program counters alone, not on call numbers. */
  lemma SameShared(s: State, s1: State)
    requires Formed(s) && |s.committed| == s.enq
    requires Holders(s) && Ring(s) && EnqGateOk(s) && DeqGateOk(s)
    requires s1 == s.(procs := s1.procs) && (forall b: Actor :: PcOf(s1, b) == PcOf(s, b))
    ensures Holders(s1) && Ring(s1) && EnqGateOk(s1) && DeqGateOk(s1)
  {
    forall t | s1.deq <= t < s1.deq + s1.capacity
      ensures SlotOk(s1, t)
    {
      assert SlotOk(s, t);
    }
  }

  // ----- Steps on a slot -----

  /** `a` replaced the slot of its ticket and moved to `pc`. */
  function Reslotted(s: State, a: Actor, t: nat, slot: Slot, pc: Pc): State
    requires Formed(s)
  {
    At(WithSlot(s, t, slot), a, pc)
  }

  /** The slot is as the invariant wants it for the new program point. */
  predicate SlotFits(s: State, slot: Slot, pc: Pc, t: nat)
    requires (pc.Work? || pc.Unlock?) && (pc.op.Pop? ==> t < |s.committed|)
  {
    if pc.op.Push? then
      if Touches(pc) then PushSlot(slot, t, pc.work, pc.op.msg) else FreeSlot(slot, t, true)
    else
      if Touches(pc) then PopSlot(slot, t, pc.work, pc.op.buf, s.capacity, s.committed[t].msg)
      else ReadySlot(slot, t, s.committed[t].msg)
  }

  /** A step from one working point to another, or out to an error. */
  predicate SlotChange(s: State, a: Actor, slot: Slot, pc: Pc) {
    var was := PcOf(s, a);
    && was.Work?
    && TicketOk(s, was.op, was.t)
    && (pc.Work? || (pc.Unlock? && pc.res.Err? && pc.op.Push?))
    && SideOf(pc.op) == SideOf(was.op)
    && (pc.Work? ==> pc.t == was.t)
    && |slot.data| == s.width
  }

  lemma ReslottedOwn(s: State, a: Actor, slot: Slot, pc: Pc)
    requires Inv(s) && SlotChange(s, a, slot, pc)
    requires SlotFits(s, slot, pc, PcOf(s, a).t)
    ensures SlotOk(Reslotted(s, a, PcOf(s, a).t, slot, pc), PcOf(s, a).t)
  {
    var was := PcOf(s, a);
    var s1 := Reslotted(s, a, was.t, slot, pc);
    assert InGate(was, Enq) <==> s.enqHolder == Some(a);
    assert InGate(was, Deq) <==> s.deqHolder == Some(a);
    assert SlotAt(s1, was.t) == slot;
  }

  lemma ReslottedOther(s: State, a: Actor, slot: Slot, pc: Pc, t: nat)
    requires Inv(s) && SlotChange(s, a, slot, pc)
    requires s.deq <= t < s.deq + s.capacity && t != PcOf(s, a).t
    ensures SlotOk(Reslotted(s, a, PcOf(s, a).t, slot, pc), t)
  {
    var was := PcOf(s, a);
    var s1 := Reslotted(s, a, was.t, slot, pc);
    assert InGate(was, Enq) <==> s.enqHolder == Some(a);
    assert InGate(was, Deq) <==> s.deqHolder == Some(a);
    assert SlotOk(s, t);
    DistinctModulus(t, was.t, s.capacity);
    assert SlotAt(s1, t) == SlotAt(s, t);
  }

  lemma ReslottedRing(s: State, a: Actor, slot: Slot, pc: Pc)
    requires Inv(s) && SlotChange(s, a, slot, pc)
    requires SlotFits(s, slot, pc, PcOf(s, a).t)
    ensures Ring(Reslotted(s, a, PcOf(s, a).t, slot, pc))
  {
    var s1 := Reslotted(s, a, PcOf(s, a).t, slot, pc);
    forall t | s1.deq <= t < s1.deq + s1.capacity
      ensures SlotOk(s1, t)
    {
      if t == PcOf(s, a).t {
        ReslottedOwn(s, a, slot, pc);
      } else {
        ReslottedOther(s, a, slot, pc, t);
      }
    }
  }

  lemma ReslottedActors(s: State, a: Actor, slot: Slot, pc: Pc)
    requires Inv(s) && SlotChange(s, a, slot, pc)
    requires Registers(s, pc) && PcFormed(pc, s.width)
    ensures Actors(Reslotted(s, a, PcOf(s, a).t, slot, pc))
  {
    var s1 := Reslotted(s, a, PcOf(s, a).t, slot, pc);
    assert ActorOk(s, a);
    RegistersKeep(s, s1, pc);
    assert ActorOk(s1, a);
    AllOthersKeep(s, s1, a);
  }

  lemma ReslottedGates(s: State, a: Actor, slot: Slot, pc: Pc)
    requires Inv(s) && SlotChange(s, a, slot, pc)
    ensures Holders(Reslotted(s, a, PcOf(s, a).t, slot, pc))
    ensures EnqGateOk(Reslotted(s, a, PcOf(s, a).t, slot, pc))
    ensures DeqGateOk(Reslotted(s, a, PcOf(s, a).t, slot, pc))
  {
    var s1 := Reslotted(s, a, PcOf(s, a).t, slot, pc);
    assert InGate(PcOf(s, a), Enq) <==> s.enqHolder == Some(a);
    assert InGate(PcOf(s, a), Deq) <==> s.deqHolder == Some(a);
    forall b: Actor
      ensures InGate(PcOf(s1, b), Enq) <==> s1.enqHolder == Some(b)
      ensures InGate(PcOf(s1, b), Deq) <==> s1.deqHolder == Some(b)
    {
      assert InGate(PcOf(s, b), Enq) <==> s.enqHolder == Some(b);
      assert InGate(PcOf(s, b), Deq) <==> s.deqHolder == Some(b);
    }
  }

  lemma Reslot(s: State, a: Actor, slot: Slot, pc: Pc)
    requires Inv(s) && SlotChange(s, a, slot, pc)
    requires SlotFits(s, slot, pc, PcOf(s, a).t)
    requires Registers(s, pc) && PcFormed(pc, s.width)
    ensures Inv(Reslotted(s, a, PcOf(s, a).t, slot, pc))
  {
    ReslottedRing(s, a, slot, pc);
    ReslottedActors(s, a, slot, pc);
    ReslottedGates(s, a, slot, pc);
  }

  predicate WorkSound(s: State, slot: Slot, was: Pc, pc: Pc)
    requires was.Work? && (was.op.Pop? ==> was.t < |s.committed|)
  {
    && (pc.Work? || (pc.Unlock? && pc.res.Err? && pc.op.Push? && Possible(pc.op, pc.res.reason)))
    && SideOf(pc.op) == SideOf(was.op)
    && (pc.Work? ==> pc.t == was.t)
    && PcFormed(pc, s.width)
    && |slot.data| == s.width
    && SlotFits(s, slot, pc, was.t)
  }

  /** Each access leaves the slot as the next program point needs it; no error path but retirement opens. */
  lemma PushNextOk(s: State, slot: Slot, pc: Pc)
    requires pc.Work? && PcFormed(pc, s.width) && |slot.data| == s.width && !pc.work.StorePosition?
    requires 0 < s.width && pc.op.Push?
    requires SlotFits(s, slot, pc, pc.t)
    ensures var (slot1, pc1) := WorkNext(slot, pc, s.capacity, s.width); WorkSound(s, slot1, pc, pc1)
  {
    if pc.work.CopyWord? {
      var i := pc.work.i;
      var data1 := slot.data[i := pc.op.msg[i]];
      assert data1[..i + 1] == slot.data[..i] + [pc.op.msg[i]];
      assert pc.op.msg[..i + 1] == pc.op.msg[..i] + [pc.op.msg[i]];
      if i + 1 == s.width {
        assert data1 == data1[..i + 1] && pc.op.msg == pc.op.msg[..i + 1];
      }
    }
  }

  lemma PopNextOk(s: State, slot: Slot, pc: Pc)
    requires pc.Work? && PcFormed(pc, s.width) && |slot.data| == s.width && !pc.work.StorePosition?
    requires 0 < s.width && pc.op.Pop? && pc.t < |s.committed|
    requires SlotFits(s, slot, pc, pc.t)
    ensures var (slot1, pc1) := WorkNext(slot, pc, s.capacity, s.width); WorkSound(s, slot1, pc, pc1)
  {
    if pc.work.CopyWord? {
      var i := pc.work.i;
      var msg := s.committed[pc.t].msg;
      assert msg[..i + 1] == msg[..i] + [slot.data[i]];
      if i + 1 == s.width {
        assert msg == msg[..i + 1];
      }
    }
  }

  /** The slot of an operation's ticket fits its program point. */
  lemma OwnSlotFits(s: State, a: Actor)
    requires Inv(s) && PcOf(s, a).Work?
    ensures var pc := PcOf(s, a);
            PcFormed(pc, s.width) && TicketOk(s, pc.op, pc.t) && SlotFits(s, SlotAt(s, pc.t), pc, pc.t)
  {
    var pc := PcOf(s, a);
    assert ActorOk(s, a);
    assert InGate(pc, Enq) <==> s.enqHolder == Some(a);
    assert InGate(pc, Deq) <==> s.deqHolder == Some(a);
    assert SlotOk(s, pc.t);
  }

  lemma WorkKeeps(s: State, a: Actor)
    requires Inv(s) && PcOf(s, a).Work? && !PcOf(s, a).work.StorePosition?
    ensures PcFormed(PcOf(s, a), s.width)
    ensures Inv(WorkStep(s, a, PcOf(s, a)))
  {
    var pc := PcOf(s, a);
    OwnSlotFits(s, a);
    var slot := SlotAt(s, pc.t);
    if pc.op.Push? {
      PushNextOk(s, slot, pc);
    } else {
      PopNextOk(s, slot, pc);
    }
    var (slot1, pc1) := WorkNext(slot, pc, s.capacity, s.width);
    Reslot(s, a, slot1, pc1);
  }

  // ----- The position store -----

  lemma PositionHistory(s: State, a: Actor)
    requires Inv(s) && PcOf(s, a).Work? && PcOf(s, a).work.StorePosition?
    ensures History(PositionStep(s, a, PcOf(s, a)))
  {
    OwnSlotFits(s, a);
    assert ActorOk(s, a);
  }

  lemma PositionActors(s: State, a: Actor)
    requires Inv(s) && PcOf(s, a).Work? && PcOf(s, a).work.StorePosition?
    ensures Actors(PositionStep(s, a, PcOf(s, a)))
  {
    var pc := PcOf(s, a);
    var s1 := PositionStep(s, a, pc);
    assert ActorOk(s, a);
    assert InGate(pc, Enq) <==> s.enqHolder == Some(a);
    assert InGate(pc, Deq) <==> s.deqHolder == Some(a);
    assert ActorOk(s1, a);
    AllOthersKeep(s, s1, a);
  }

  lemma PositionGates(s: State, a: Actor)
    requires Inv(s) && PcOf(s, a).Work? && PcOf(s, a).work.StorePosition?
    ensures var s1 := PositionStep(s, a, PcOf(s, a)); Holders(s1) && EnqGateOk(s1) && DeqGateOk(s1)
  {
    var pc := PcOf(s, a);
    var s1 := PositionStep(s, a, pc);
    OwnSlotFits(s, a);
    assert InGate(pc, Enq) <==> s.enqHolder == Some(a);
    assert InGate(pc, Deq) <==> s.deqHolder == Some(a);
    forall b: Actor
      ensures InGate(PcOf(s1, b), Enq) <==> s1.enqHolder == Some(b)
      ensures InGate(PcOf(s1, b), Deq) <==> s1.deqHolder == Some(b)
    {
      assert InGate(PcOf(s, b), Enq) <==> s.enqHolder == Some(b);
      assert InGate(PcOf(s, b), Deq) <==> s.deqHolder == Some(b);
    }
  }

  /** Where the two sides can be working: a popper below the enqueue position, a pusher below one lap. */
  lemma WorkingSides(s: State)
    requires Inv(s)
    ensures PopTouches(s) ==> s.deq < s.enq
    ensures PushTouches(s) ==> s.enq < s.deq + s.capacity
  {
    if s.deqHolder.Some? {
      assert ActorOk(s, s.deqHolder.value);
      assert InGate(PcOf(s, s.deqHolder.value), Deq);
    }
    if s.enqHolder.Some? {
      assert ActorOk(s, s.enqHolder.value);
      assert InGate(PcOf(s, s.enqHolder.value), Enq);
    }
  }

  lemma PushPositionRing(s: State, a: Actor)
    requires Inv(s) && PcOf(s, a).Work? && PcOf(s, a).work.StorePosition? && PcOf(s, a).op.Push?
    requires History(PositionStep(s, a, PcOf(s, a)))
    ensures Ring(PositionStep(s, a, PcOf(s, a)))
  {
    var s1 := PositionStep(s, a, PcOf(s, a));
    OwnSlotFits(s, a);
    WorkingSides(s);
    assert InGate(PcOf(s, a), Enq) <==> s.enqHolder == Some(a);
    assert InGate(PcOf(s, a), Deq) <==> s.deqHolder == Some(a);
    forall t | s1.deq <= t < s1.deq + s1.capacity
      ensures SlotOk(s1, t)
    {
      assert SlotOk(s, t);
      assert SlotAt(s1, t) == SlotAt(s, t);
    }
  }

  lemma PopPositionRing(s: State, a: Actor)
    requires Inv(s) && PcOf(s, a).Work? && PcOf(s, a).work.StorePosition? && PcOf(s, a).op.Pop?
    requires History(PositionStep(s, a, PcOf(s, a)))
    ensures Ring(PositionStep(s, a, PcOf(s, a)))
  {
    var s1 := PositionStep(s, a, PcOf(s, a));
    OwnSlotFits(s, a);
    WorkingSides(s);
    assert InGate(PcOf(s, a), Enq) <==> s.enqHolder == Some(a);
    assert InGate(PcOf(s, a), Deq) <==> s.deqHolder == Some(a);
    forall t | s1.deq <= t < s1.deq + s1.capacity
      ensures SlotOk(s1, t)
    {
      if t == s.deq + s.capacity {
        AddModulus(s.deq, s.capacity);
        assert SlotAt(s1, t) == SlotAt(s, s.deq);
      } else {
        assert SlotOk(s, t);
        assert SlotAt(s1, t) == SlotAt(s, t);
      }
    }
  }

  lemma PositionKeeps(s: State, a: Actor)
    requires Inv(s) && PcOf(s, a).Work? && PcOf(s, a).work.StorePosition?
    ensures Inv(PositionStep(s, a, PcOf(s, a)))
  {
    PositionHistory(s, a);
    PositionActors(s, a);
    PositionGates(s, a);
    if PcOf(s, a).op.Push? {
      PushPositionRing(s, a);
    } else {
      PopPositionRing(s, a);
    }
  }

  // ----- All steps -----

  lemma InitKeeps(s: State)
    requires Init(s)
    ensures Inv(s)
  {
    forall t | s.deq <= t < s.deq + s.capacity
      ensures SlotOk(s, t)
    {
      DivisionIsUnique(t, s.capacity, 0, t);
      assert SlotAt(s, t) == s.slots[t];
    }
  }

  lemma SnapshotKeeps(s: State, a: Actor)
    requires Inv(s) && PcOf(s, a).Snap?
    ensures Inv(At(s, a, SnapshotNext(s, PcOf(s, a))))
  {
    assert ActorOk(s, a);
    SnapshotNextOk(s, PcOf(s, a));
    Move(s, a, SnapshotNext(s, PcOf(s, a)));
  }

  lemma DrainKeeps(s: State, a: Actor, retry: bool, why: Reason)
    requires Inv(s) && PcOf(s, a).Drain? && DiagnosisReason(s, PcOf(s, a), why)
    ensures Inv(At(s, a, DrainNext(s, PcOf(s, a), retry, why)))
  {
    assert ActorOk(s, a);
    DrainNextOk(s, PcOf(s, a), retry, why);
    Move(s, a, DrainNext(s, PcOf(s, a), retry, why));
  }

  lemma DiagnoseKeeps(s: State, a: Actor, why: Reason)
    requires Inv(s) && PcOf(s, a).Diagnose? && DiagnosisReason(s, PcOf(s, a), why)
    ensures Inv(ExitStep(s, a, PcOf(s, a), why))
  {
    var pc := PcOf(s, a);
    assert ActorOk(s, a);
    FailSound(s, pc, why);
    Move(s, a, Fail(pc.op, pc.gated, why));
  }

  lemma ExitKeeps(s: State, a: Actor, why: Reason)
    requires Inv(s)
    requires var pc := PcOf(s, a); pc.Diagnose? || pc.Unlock? || pc.Notify? || pc.Done?
    requires DiagnosisReason(s, PcOf(s, a), why)
    ensures Inv(ExitStep(s, a, PcOf(s, a), why))
  {
    match PcOf(s, a)
    case Diagnose(_, _, _) => DiagnoseKeeps(s, a, why);
    case Unlock(_, _) => UnlockKeeps(s, a);
    case Notify(_, _) => NotifyKeeps(s, a);
    case Done(_, _) => ReturnKeeps(s, a);
  }

  lemma WorkStepKeeps(s: State, a: Actor)
    requires Inv(s) && PcOf(s, a).Work? && PcFormed(PcOf(s, a), s.width)
    ensures Inv(WorkStep(s, a, PcOf(s, a)))
  {
    if PcOf(s, a).work.StorePosition? {
      PositionKeeps(s, a);
    } else {
      WorkKeeps(s, a);
    }
  }

  lemma RunKeeps(s: State, a: Actor, retry: bool, why: Reason)
    requires Inv(s) && PcFormed(PcOf(s, a), s.width) && !PcOf(s, a).Idle?
    requires DiagnosisReason(s, PcOf(s, a), why)
    ensures Inv(Run(s, a, retry, why))
  {
    var pc := PcOf(s, a);
    if pc.Snap? {
      SnapshotKeeps(s, a);
    } else if pc.Drain? {
      DrainKeeps(s, a, retry, why);
    } else if pc.Claim? {
      ClaimKeeps(s, a);
    } else if pc.Commit? {
      CommitKeeps(s, a);
    } else if pc.Work? {
      WorkStepKeeps(s, a);
    } else {
      ExitKeeps(s, a, why);
    }
  }

  lemma NextKeeps(s: State, act: Action)
    requires Inv(s) && Enabled(s, act)
    ensures Inv(Next(s, act))
  {
    match act
    case Begin(a, op) =>
      assert ActorOk(s, a);
      Move(s, a, Snap(op, Early, 0, LoadEnq1));
    case Advance(a, retry, why) => RunKeeps(s, a, retry, why);
    case Crash(a) => Unobserved(s, s.notify, s.crashed + {a});
  }

  /** Every state of every run, with any number of actors and any crashes, satisfies the invariant. */
  lemma {:induction false} RunInv(run: seq<State>, acts: seq<Action>, i: nat)
    requires IsRun(run, acts) && i < |run|
    ensures Inv(run[i])
    decreases i
  {
    if i == 0 {
      InitKeeps(run[0]);
    } else {
      RunInv(run, acts, i - 1);
      NextKeeps(run[i - 1], acts[i - 1]);
    }
  }
}
