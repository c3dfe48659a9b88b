/**
 The ring and gate invariant of the queue, and what a step of one actor leaves to the others;
 module `MpmcSteps` proves that every step preserves it.

 The heart is one equation: the dequeue gate's epoch counts exactly the messages taken, plus
 the commit in flight.  With it the drain budget becomes a bound on the enqueue position alone.
 */
module MpmcInvariant {
  import opened Words
  import opened Mpmc

  /** The enqueue position can never pass this: every message below it still has a gate epoch. */
  const LAST_TICKET: nat := MAX_EPOCH / 2

  // ----- What a program counter says about gates and slots -----

  predicate InGate(pc: Pc, side: Side) {
    && !pc.Idle?
    && SideOf(pc.op) == side
    && Inside(pc)
  }

  predicate Inside(pc: Pc) {
    match pc
    case Idle => false
    case Snap(_, site, _, _) => GatedSite(site)
    case Drain(_, need, _, _) => GatedNeed(need)
    case Diagnose(_, gated, _) => gated
    case Claim(_, _) => false
    case Commit(_, _, _) => true
    case Work(_, _, _) => true
    case Unlock(_, _) => true
    case Notify(_, _) => false
    case Done(_, _) => false
  }

  /** How far the epoch of the held gate has run ahead: 1 while odd, 2 once committed. */
  function Phase(pc: Pc): nat {
    match pc
    case Commit(_, _, commit) =>
      (match commit
       case SetOwner(_) => 1
       case StoreEpoch(_) => 1
       case StoreOwned => 2
       case _ => 0)
    case Work(_, _, _) => 2
    case _ => 0
  }

  /** The program points at which the slot of the ticket is examined or changed. */
  predicate Touches(pc: Pc) {
    pc.Work? && !pc.work.CheckSequence? && !pc.work.CheckState?
  }

  /** Errors no run can report. */
  predicate Possible(op: Op, why: Reason) {
    && why != PositionsInconsistent && why != TicketExhausted && why != GateEpochCorrupt
    && why != SlotInconsistent && why != SlotEpochCorrupt && why != SlotContention && why != DequeueGateExhausted
    && (op.Pop? ==> why != GateEpochExhausted && why != SlotEpochExhausted)
  }

  // ----- Gates -----

  predicate Held(lock: Lock) {
    lock == Claiming || lock == Owned
  }

  ghost predicate EnqGateOk(s: State) {
    && s.enqGate.epoch <= MAX_EPOCH
    && match s.enqHolder
       case None => !Held(s.enqGate.lock) && s.enqGate.lock != Fault && Even(s.enqGate.epoch)
       case Some(b) =>
         var pc := PcOf(s, b);
         && Held(s.enqGate.lock)
         && (pc.Commit? && pc.commit.BeginCas? ==> pc.commit.cur == s.enqGate.epoch <= MAX_EPOCH - 2)
         && (Phase(pc) == 1 ==> s.enqGate.epoch == pc.commit.cur + 1 && Even(pc.commit.cur))
         && (Phase(pc) != 1 ==> Even(s.enqGate.epoch))
  }

  ghost predicate DeqGateOk(s: State) {
    match s.deqHolder
    case None => s.deqGate.lock == Free && s.deqGate.epoch == 2 * s.deq
    case Some(b) =>
      var pc := PcOf(s, b);
      && Held(s.deqGate.lock)
      && s.deqGate.epoch == 2 * s.deq + Phase(pc)
      && (pc.Commit? && pc.commit.BeginCas? ==> pc.commit.cur == 2 * s.deq)
      && (Phase(pc) == 1 ==> pc.commit.cur == 2 * s.deq)
  }

  ghost predicate Holders(s: State) {
    && (forall b: Actor {:trigger InGate(PcOf(s, b), Enq)} :: InGate(PcOf(s, b), Enq) <==> s.enqHolder == Some(b))
    && (forall b: Actor {:trigger InGate(PcOf(s, b), Deq)} :: InGate(PcOf(s, b), Deq) <==> s.deqHolder == Some(b))
  }

  // ----- The ring -----

  predicate FreeSlot(slot: Slot, t: nat, last: bool) {
    && slot.sequence == t
    && Even(slot.epoch) && slot.epoch <= MAX_EPOCH
    && (slot.state == SlotFree || (last && slot.state == SlotExhausted))
  }

  predicate ReadySlot(slot: Slot, t: nat, msg: Payload) {
    && slot.sequence == t + 1
    && Even(slot.epoch) && slot.epoch <= MAX_EPOCH - 2
    && slot.state == Ready
    && slot.data == msg
  }

  /** The slot a pusher is working on, by program point. */
  predicate PushSlot(slot: Slot, t: nat, work: WorkAt, msg: Payload) {
    && slot.sequence == (if work.StoreState? || work.StorePosition? then t + 1 else t)
    && slot.epoch <= MAX_EPOCH
    && (Even(slot.epoch) || work.SlotSetOwner? || work.SlotStoreEpoch?)
    && match work
       case CheckSequence => false
       case CheckState => false
       case Examine => slot.state == SlotExhausted
       case CheckEpoch => slot.state == SlotFree
       case Retire(why) => slot.state == SlotFree && why == SlotEpochExhausted
       case ClaimSlot => slot.state == SlotFree && slot.epoch <= MAX_EPOCH - 4
       case SlotBeginLoad => slot.state == EnqueueClaiming && slot.epoch <= MAX_EPOCH - 4
       case SlotBeginCas(cur) => slot.state == EnqueueClaiming && cur == slot.epoch <= MAX_EPOCH - 4
       case Abandon(_) => false
       case SlotSetOwner(cur) =>
         slot.state == EnqueueClaiming && Even(cur) && slot.epoch == cur + 1 && cur <= MAX_EPOCH - 4
       case SlotStoreEpoch(cur) =>
         slot.state == EnqueueClaiming && Even(cur) && slot.epoch == cur + 1 && cur <= MAX_EPOCH - 4
       case SlotStoreOwned => slot.state == EnqueueClaiming && slot.epoch <= MAX_EPOCH - 2
       case CopyWord(i) =>
         && slot.state == EnqueueOwned && slot.epoch <= MAX_EPOCH - 2
         && i < |msg| == |slot.data| && slot.data[..i] == msg[..i]
       case StoreSequence => slot.state == EnqueueOwned && slot.epoch <= MAX_EPOCH - 2 && slot.data == msg
       case StoreState => slot.state == EnqueueOwned && slot.epoch <= MAX_EPOCH - 2 && slot.data == msg
       case StorePosition => slot.state == Ready && slot.epoch <= MAX_EPOCH - 2 && slot.data == msg
  }

  /** The slot a popper is working on, by program point; `msg` is the message committed in it. */
  predicate PopSlot(slot: Slot, t: nat, work: WorkAt, buf: Payload, capacity: nat, msg: Payload) {
    && slot.sequence == (if work.StoreState? || work.StorePosition? then t + capacity else t + 1)
    && slot.epoch <= MAX_EPOCH
    && (Even(slot.epoch) || work.SlotSetOwner? || work.SlotStoreEpoch?)
    && slot.data == msg
    && match work
       case CheckSequence => false
       case CheckState => false
       case Examine => false
       case CheckEpoch => slot.state == Ready && slot.epoch <= MAX_EPOCH - 2
       case Retire(_) => false
       case ClaimSlot => slot.state == Ready && slot.epoch <= MAX_EPOCH - 2
       case SlotBeginLoad => slot.state == DequeueClaiming && slot.epoch <= MAX_EPOCH - 2
       case SlotBeginCas(cur) => slot.state == DequeueClaiming && cur == slot.epoch <= MAX_EPOCH - 2
       case Abandon(_) => false
       case SlotSetOwner(cur) =>
         slot.state == DequeueClaiming && Even(cur) && slot.epoch == cur + 1 && cur <= MAX_EPOCH - 2
       case SlotStoreEpoch(cur) =>
         slot.state == DequeueClaiming && Even(cur) && slot.epoch == cur + 1 && cur <= MAX_EPOCH - 2
       case SlotStoreOwned => slot.state == DequeueClaiming
       case CopyWord(i) => slot.state == DequeueOwned && i < |msg| && buf == msg[..i]
       case StoreSequence => slot.state == DequeueOwned && buf == msg
       case StoreState => slot.state == DequeueOwned && buf == msg
       case StorePosition => slot.state == SlotFree && buf == msg
  }

  predicate PushTouches(s: State) {
    s.enqHolder.Some? && Touches(PcOf(s, s.enqHolder.value))
  }

  predicate PopTouches(s: State) {
    s.deqHolder.Some? && Touches(PcOf(s, s.deqHolder.value))
  }

  ghost predicate SlotOk(s: State, t: nat)
    requires Formed(s) && |s.committed| == s.enq
  {
    if t == s.enq && PushTouches(s) then
      var pc := PcOf(s, s.enqHolder.value);
      pc.op.Push? && pc.t == t && PushSlot(SlotAt(s, t), t, pc.work, pc.op.msg)
    else if t == s.deq < s.enq && PopTouches(s) then
      var pc := PcOf(s, s.deqHolder.value);
      pc.op.Pop? && pc.t == t && PopSlot(SlotAt(s, t), t, pc.work, pc.op.buf, s.capacity, s.committed[t].msg)
    else if t < s.enq then ReadySlot(SlotAt(s, t), t, s.committed[t].msg)
    else FreeSlot(SlotAt(s, t), t, t == s.enq)
  }

  ghost predicate Ring(s: State)
    requires Formed(s) && |s.committed| == s.enq
  {
    forall t {:trigger SlotOk(s, t)} | s.deq <= t < s.deq + s.capacity :: SlotOk(s, t)
  }

  // ----- History -----

  /** Every entry of `a` belongs to an earlier call than `call`. */
  ghost predicate Earlier(hist: seq<Entry>, a: Actor, call: nat) {
    forall i | 0 <= i < |hist| && hist[i].actor == a :: hist[i].call < call
  }

  /** An actor's calls appear in the order it made them, each at most once. */
  ghost predicate CallOrder(hist: seq<Entry>) {
    forall i, j | 0 <= i < j < |hist| && hist[i].actor == hist[j].actor :: hist[i].call < hist[j].call
  }

  /** The call has passed its position store. */
  predicate Settled(pc: Pc, side: Side) {
    && (pc.Unlock? || pc.Notify? || pc.Done?)
    && pc.res.Ok? && SideOf(pc.op) == side
  }

  ghost predicate Recorded(hist: seq<Entry>, a: Actor, p: Proc, side: Side) {
    if Settled(p.pc, side) then
      && p.pc.res.ticket < |hist|
      && hist[p.pc.res.ticket] == Entry(a, p.call, MsgOf(p.pc.op))
      && Earlier(hist, a, p.call + 1)
    else
      Earlier(hist, a, p.call)
  }

  ghost predicate History(s: State) {
    && |s.committed| == s.enq
    && |s.delivered| == s.deq
    && s.deq <= s.enq <= s.deq + s.capacity
    && s.enq <= LAST_TICKET
    && (forall i | 0 <= i < |s.committed| :: |s.committed[i].msg| == s.width)
    && (forall i | 0 <= i < |s.delivered| :: s.delivered[i].msg == s.committed[i].msg)
    && CallOrder(s.committed) && CallOrder(s.delivered)
  }

  // ----- Registers -----

  predicate SiteOk(s: State, op: Op, site: Site) {
    match site
    case Early => true
    case Gated => true
    case Refresh(gated, e, d, round, budget, drained) =>
      && op.Push?
      && d <= e < d + s.capacity
      && d <= drained <= s.deq
      && drained <= LAST_TICKET && budget == LAST_TICKET - drained
      && (gated ==> e == s.enq)
  }

  predicate NeedOk(s: State, op: Op, need: Need) {
    match need
    case BeforeClaim => op.Pop?
    case Admit(gated, e, d, round) =>
      && op.Push?
      && d <= e <= d + s.capacity
      && d <= s.deq
      && (gated ==> e == s.enq)
  }

  /** Registers of a position snapshot: what was read stays a bound on what is there now. */
  predicate SnapOk(s: State, op: Op, site: Site, e1: nat) {
    && e1 <= s.enq
    && (GatedSite(site) && op.Push? ==> e1 == s.enq)
  }

  predicate SnapOk2(s: State, op: Op, site: Site, e1: nat, d1: nat, atDeq: nat) {
    && e1 <= atDeq <= s.enq
    && d1 <= s.deq
    && d1 <= atDeq <= d1 + s.capacity
    && (GatedSite(site) && op.Push? ==> e1 == s.enq)
    && (GatedSite(site) && op.Pop? ==> d1 == s.deq)
    && (site.Refresh? ==> site.drained <= d1)
  }

  predicate TicketOk(s: State, op: Op, t: nat) {
    if op.Push? then t == s.enq < s.deq + s.capacity && t + 1 <= LAST_TICKET
    else t == s.deq < s.enq
  }

  /** What holds of the registers of an actor standing at `pc`. */
  predicate Registers(s: State, pc: Pc) {
    match pc
    case Idle => true
    case Snap(op, site, _, snap) =>
      && SiteOk(s, op, site)
      && (match snap
          case LoadEnq1 => true
          case LoadDeq1(e1) => SnapOk(s, op, site, e1)
          case LoadEnq2(e1, d1, atDeq) => SnapOk2(s, op, site, e1, d1, atDeq)
          case LoadDeq2(e1, d1, atDeq, e2) => SnapOk2(s, op, site, e1, d1, atDeq) && atDeq <= e2 <= s.enq)
    case Drain(op, need, _, drain) =>
      && NeedOk(s, op, need)
      && (match drain
          case LoadLock1 => true
          case LoadEpoch1 => true
          case LoadLock2(ep) => ep <= s.deqGate.epoch
          case LoadEpoch2(ep, lock2, drainedAt) =>
            && drainedAt <= s.deq
            && (need.Admit? ==> need.d <= drainedAt)
            && (lock2 == Free ==> ep <= 2 * drainedAt)
            && lock2 != Exhausted && lock2 != Fault)
    case Diagnose(_, _, _) => true
    case Claim(_, _) => true
    case Commit(op, t, commit) =>
      && (op.Pop? ==> TicketOk(s, op, t))
      && (commit.Refuse? ==> op.Push? && commit.why == GateEpochExhausted)
    case Work(op, t, _) => TicketOk(s, op, t)
    case Unlock(op, res) => res.Err? ==> Possible(op, res.reason)
    case Notify(op, res) => res.Ok?
    case Done(op, res) => res.Err? ==> Possible(op, res.reason)
  }

  ghost predicate ActorOk(s: State, b: Actor) {
    && PcFormed(PcOf(s, b), s.width)
    && Registers(s, PcOf(s, b))
    && Recorded(s.committed, b, ProcOf(s, b), Enq)
    && Recorded(s.delivered, b, ProcOf(s, b), Deq)
  }

  ghost predicate Actors(s: State) {
    forall b: Actor {:trigger ActorOk(s, b)} :: ActorOk(s, b)
  }

  ghost predicate Inv(s: State) {
    && Formed(s)
    && History(s)
    && Holders(s)
    && EnqGateOk(s)
    && DeqGateOk(s)
    && Ring(s)
    && Actors(s)
  }

  // ----- Frame: what a step of one actor leaves to the others -----

  /** `s1` is `s` after a step of `a`, as far as any other actor can tell. */
  ghost predicate StepOf(s: State, s1: State, a: Actor) {
    && s1.capacity == s.capacity && s1.width == s.width
    && (forall b: Actor | b != a :: ProcOf(s1, b) == ProcOf(s, b))
    && s.enq <= s1.enq && (s.enqHolder != Some(a) ==> s1.enq == s.enq)
    && s.deq <= s1.deq && (s.deqHolder != Some(a) ==> s1.deq == s.deq)
    && s.deqGate.epoch <= s1.deqGate.epoch
    && s.committed <= s1.committed && s.delivered <= s1.delivered
    && (forall i | |s.committed| <= i < |s1.committed| :: s1.committed[i].actor == a)
    && (forall i | |s.delivered| <= i < |s1.delivered| :: s1.delivered[i].actor == a)
  }

  /** Positions and the dequeue epoch only grow, and stand still for an actor inside their gate. */
  predicate Grown(s: State, s1: State, pc: Pc) {
    && s1.capacity == s.capacity
    && s.enq <= s1.enq && (InGate(pc, Enq) ==> s1.enq == s.enq)
    && s.deq <= s1.deq && (InGate(pc, Deq) ==> s1.deq == s.deq)
    && s.deqGate.epoch <= s1.deqGate.epoch
  }

  lemma RegistersKeep(s: State, s1: State, pc: Pc)
    requires Registers(s, pc) && Grown(s, s1, pc)
    ensures Registers(s1, pc)
  {
  }

  lemma RecordedKeep(hist: seq<Entry>, hist1: seq<Entry>, a: Actor, b: Actor, p: Proc, side: Side)
    requires Recorded(hist, b, p, side) && a != b
    requires hist <= hist1 && (forall i | |hist| <= i < |hist1| :: hist1[i].actor == a)
    ensures Recorded(hist1, b, p, side)
  {
  }

  lemma OthersKeep(s: State, s1: State, a: Actor, b: Actor)
    requires Holders(s) && ActorOk(s, b)
    requires StepOf(s, s1, a) && b != a
    ensures ActorOk(s1, b)
  {
    assert InGate(PcOf(s, b), Enq) ==> s.enqHolder == Some(b);
    assert InGate(PcOf(s, b), Deq) ==> s.deqHolder == Some(b);
    RegistersKeep(s, s1, PcOf(s, b));
    RecordedKeep(s.committed, s1.committed, a, b, ProcOf(s, b), Enq);
    RecordedKeep(s.delivered, s1.delivered, a, b, ProcOf(s, b), Deq);
  }

  lemma AllOthersKeep(s: State, s1: State, a: Actor)
    requires Holders(s) && Actors(s)
    requires StepOf(s, s1, a) && ActorOk(s1, a)
    ensures Actors(s1)
  {
    forall b: Actor ensures ActorOk(s1, b) {
      assert ActorOk(s, b);
      if b != a {
        OthersKeep(s, s1, a, b);
      }
    }
  }
}
