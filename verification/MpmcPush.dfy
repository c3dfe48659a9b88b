/** A pusher left alone with room to push succeeds. */
module MpmcPush {
  import opened Words
  import opened Mpmc
  import opened MpmcInvariant
  import opened MpmcSteps
  import opened MpmcProgress
  import opened MpmcTheorems

  /** The enqueue side has room for one more message: ticket, drain budget, gate epoch and slot epoch. */
  predicate Room(s: State)
    requires Formed(s)
  {
    && s.enq < s.deq + s.capacity && s.enq < LAST_TICKET
    && s.enqGate.lock == Free && s.enqGate.epoch <= MAX_EPOCH - 2
    && SpareSlot(SlotAt(s, s.enq))
  }

  predicate SpareSlot(slot: Slot) {
    slot.state == SlotFree && slot.epoch <= MAX_EPOCH - 4
  }

  /** The program point is on the way to success, given what it has read so far. */
  predicate WayThere(s: State, pc: Pc)
    requires Formed(s)
  {
    match pc
    case Snap(_, site, _, snap) =>
      && FreshSnap(s, snap) && SpareSlot(SlotAt(s, s.enq))
      && (site.Refresh? ==> site.e == s.enq && site.d == s.deq && site.budget + s.deq == LAST_TICKET)
    case Drain(_, need, _, drain) =>
      && FreshDrain(s, drain) && SpareSlot(SlotAt(s, s.enq))
      && need.Admit? && need.e == s.enq && need.d == s.deq
    case Claim(_, _) => SpareSlot(SlotAt(s, s.enq))
    case Commit(_, _, commit) =>
      !commit.Refuse? && SpareSlot(SlotAt(s, s.enq)) && (commit.BeginLoad? ==> s.enqGate.epoch <= MAX_EPOCH - 2)
    case Work(_, _, work) =>
      && !work.Examine? && !work.Retire? && !work.Abandon?
      && (work.CheckSequence? || work.CheckState? || work.CheckEpoch? ==> SpareSlot(SlotAt(s, s.enq)))
    case _ => false
  }

  /** `a` is pushing ticket `t` and nothing has moved since it looked. */
  ghost predicate OnPush(s: State, a: Actor, t: nat)
    requires Formed(s)
  {
    var pc := PcOf(s, a);
    && !pc.Idle? && pc.op.Push?
    && if Settled(pc, Enq) then pc.res.ticket == t
       else
         && t == s.enq < s.deq + s.capacity && t < LAST_TICKET && s.deqHolder.None?
         && (Inside(pc) || (s.enqHolder.None? && s.enqGate.lock == Free && s.enqGate.epoch <= MAX_EPOCH - 2))
         && WayThere(s, pc)
  }

  lemma SnapStaysOnPush(s: State, a: Actor, t: nat)
    requires Inv(s) && OnPush(s, a, t) && PcOf(s, a).Snap? && Enabled(s, Go(a))
    ensures Formed(Next(s, Go(a))) && OnPush(Next(s, Go(a)), a, t)
  {
    assert ActorOk(s, a);
    assert InGate(PcOf(s, a), Enq) <==> s.enqHolder == Some(a);
    assert TicketFits(s.enq, s.capacity);
  }

  lemma DrainStaysOnPush(s: State, a: Actor, t: nat)
    requires Inv(s) && OnPush(s, a, t) && PcOf(s, a).Drain? && Enabled(s, Go(a))
    ensures Formed(Next(s, Go(a))) && OnPush(Next(s, Go(a)), a, t)
  {
    assert ActorOk(s, a);
    assert InGate(PcOf(s, a), Enq) <==> s.enqHolder == Some(a);
    assert Budget(2 * s.deq) + s.deq == LAST_TICKET;
  }

  lemma ClaimStaysOnPush(s: State, a: Actor, t: nat)
    requires Inv(s) && OnPush(s, a, t) && (PcOf(s, a).Claim? || PcOf(s, a).Commit?) && Enabled(s, Go(a))
    ensures Formed(Next(s, Go(a))) && OnPush(Next(s, Go(a)), a, t)
  {
    assert ActorOk(s, a);
    assert InGate(PcOf(s, a), Enq) <==> s.enqHolder == Some(a);
  }

  lemma WorkStaysOnPush(s: State, a: Actor, t: nat)
    requires Inv(s) && OnPush(s, a, t) && PcOf(s, a).Work? && Enabled(s, Go(a))
    ensures Formed(Next(s, Go(a))) && OnPush(Next(s, Go(a)), a, t)
  {
    var pc := PcOf(s, a);
    OwnSlotFits(s, a);
    if !pc.work.StorePosition? {
      PushNextOk(s, SlotAt(s, pc.t), pc);
    }
  }

  lemma PushStep(s: State, a: Actor, t: nat)
    requires Inv(s) && OnPush(s, a, t) && !PcOf(s, a).Done? && a !in s.crashed
    ensures Enabled(s, Go(a))
    ensures Inv(Next(s, Go(a))) && OnPush(Next(s, Go(a)), a, t)
    ensures StepsLeft(PcOf(Next(s, Go(a)), a), s.width) < StepsLeft(PcOf(s, a), s.width)
  {
    var pc := PcOf(s, a);
    assert ActorOk(s, a);
    NextKeeps(s, Go(a));
    EveryStepCounts(s, a, false, Contention);
    if pc.Snap? {
      SnapStaysOnPush(s, a, t);
    } else if pc.Drain? {
      DrainStaysOnPush(s, a, t);
    } else if pc.Claim? || pc.Commit? {
      ClaimStaysOnPush(s, a, t);
    } else if pc.Work? {
      WorkStaysOnPush(s, a, t);
    }
  }

  /** What a lone step leaves alone. */
  lemma PushFrame(s: State, a: Actor)
    requires Enabled(s, Go(a)) && !PcOf(s, a).Done? && PcOf(s, a).op.Push?
    ensures var s1 := Next(s, Go(a));
            s1.crashed == s.crashed && s1.width == s.width && PcOf(s1, a) != Idle && PcOf(s1, a).op == PcOf(s, a).op
  {
  }

  lemma {:induction false} PushFinishes(s: State, a: Actor, t: nat) returns (acts: seq<Action>, s1: State)
    requires Inv(s) && OnPush(s, a, t) && a !in s.crashed
    ensures Leads(s, acts, s1) && OnlyBy(acts, a) && |acts| <= StepsLeft(PcOf(s, a), s.width)
    ensures Inv(s1) && OnPush(s1, a, t) && PcOf(s1, a).Done? && PcOf(s1, a).op == PcOf(s, a).op
    decreases StepsLeft(PcOf(s, a), s.width)
  {
    if PcOf(s, a).Done? {
      acts, s1 := [], s;
    } else {
      PushStep(s, a, t);
      PushFrame(s, a);
      var rest;
      rest, s1 := PushFinishes(Next(s, Go(a)), a, t);
      acts := [Go(a)] + rest;
      assert acts[1..] == rest;
    }
  }

  /**
   In any reachable state with both gates unheld and room on the enqueue side, an idle pusher
   running alone commits its message under the next ticket, in a bounded number of steps.
   */
  lemma RoomMeansPushable(run: seq<State>, past: seq<Action>, i: nat, a: Actor, msg: Payload)
    requires IsRun(run, past) && i < |run| && Formed(run[i]) && Room(run[i])
    requires run[i].enqHolder.None? && run[i].deqHolder.None?
    requires PcOf(run[i], a).Idle? && a !in run[i].crashed && |msg| == run[i].width
    ensures exists acts, s1 ::
              && Leads(run[i], acts, s1) && OnlyBy(acts, a) && |acts| <= run[i].width + 482
              && PcOf(s1, a) == Done(Push(msg), Ok(run[i].enq))
              && run[i].enq < |s1.committed| && s1.committed[run[i].enq].msg == msg
  {
    var s := run[i];
    RunInv(run, past, i);
    var begin := Begin(a, Push(msg));
    assert ActorOk(s, a);
    NextKeeps(s, begin);
    AtTheStart(Push(msg), s.width);
    var rest, s1 := PushFinishes(Next(s, begin), a, s.enq);
    var acts := [begin] + rest;
    assert acts[1..] == rest;
    assert Leads(s, acts, s1);
    assert ActorOk(s1, a);
  }
}
