/**
 The last ticket.  A queue of three slots or more can be used until its dequeue epochs run out, and
 then a popper that has seen the last message may lose it to another and be told of exhaustion
 instead of emptiness.  With one or two slots neither happens.
 */
module MpmcLast {
  import opened Words
  import opened Mpmc
  import opened MpmcInvariant
  import opened MpmcSteps
  import opened MpmcProgress
  import opened MpmcPush
  import opened MpmcTheorems
  import opened MpmcTruth
  import opened MpmcWear

  lemma {:induction false} LeadsOn(s: State, acts: seq<Action>, s1: State, more: seq<Action>, s2: State)
    requires Leads(s, acts, s1) && Leads(s1, more, s2)
    ensures Leads(s, acts + more, s2)
    decreases |acts|
  {
    if acts == [] {
      assert acts + more == more;
    } else {
      LeadsOn(Next(s, acts[0]), acts[1..], s1, more, s2);
      assert (acts + more)[1..] == acts[1..] + more;
    }
  }

  lemma {:induction false} LeadsInv(s: State, acts: seq<Action>, s1: State)
    requires Inv(s) && Worn(s) && Leads(s, acts, s1)
    ensures Inv(s1) && Worn(s1)
    decreases |acts|
  {
    if acts != [] {
      NextWears(s, acts[0]);
      LeadsInv(Next(s, acts[0]), acts[1..], s1);
    }
  }

  // ----- What a lone push uses up -----

  /** How much of its two gate epochs a push has used. */
  function GateUsed(pc: Pc): nat {
    if pc.Commit? then Phase(pc)
    else if Inside(pc) || pc.Notify? || pc.Done? then 2
    else 0
  }

  /** Since a push of ticket `t` began with gate epoch `e`. */
  predicate PushUse(s: State, a: Actor, t: nat, e: nat)
    requires Formed(s)
  {
    var pc := PcOf(s, a);
    && s.enqGate.epoch == e + GateUsed(pc)
    && (Settled(pc, Enq) ==> s.enq == t + 1)
    && (pc.Notify? || pc.Done? ==> s.enqGate.lock == Free && s.enqHolder.None?)
  }

  lemma ReadsUse(s: State, a: Actor, t: nat, e: nat)
    requires Inv(s) && OnPush(s, a, t) && (PcOf(s, a).Snap? || PcOf(s, a).Drain?) && Enabled(s, Go(a))
    requires PushUse(s, a, t, e)
    ensures Formed(Next(s, Go(a))) && PushUse(Next(s, Go(a)), a, t, e)
  {
    if PcOf(s, a).Snap? {
      SnapStaysOnPush(s, a, t);
    } else {
      DrainStaysOnPush(s, a, t);
    }
  }

  lemma GateUse(s: State, a: Actor, t: nat, e: nat)
    requires Inv(s) && OnPush(s, a, t) && (PcOf(s, a).Claim? || PcOf(s, a).Commit?) && Enabled(s, Go(a))
    requires PushUse(s, a, t, e)
    ensures Formed(Next(s, Go(a))) && PushUse(Next(s, Go(a)), a, t, e)
  {
    ClaimStaysOnPush(s, a, t);
    assert ActorOk(s, a);
    assert InGate(PcOf(s, a), Enq) <==> s.enqHolder == Some(a);
  }

  lemma WorkUse(s: State, a: Actor, t: nat, e: nat)
    requires Inv(s) && OnPush(s, a, t) && PcOf(s, a).Work? && Enabled(s, Go(a))
    requires PushUse(s, a, t, e)
    ensures Formed(Next(s, Go(a))) && PushUse(Next(s, Go(a)), a, t, e)
  {
    WorkStaysOnPush(s, a, t);
    OwnSlotFits(s, a);
    var pc := PcOf(s, a);
    if !pc.work.StorePosition? {
      PushNextOk(s, SlotAt(s, pc.t), pc);
    }
  }

  lemma PushUses(s: State, a: Actor, t: nat, e: nat)
    requires Inv(s) && OnPush(s, a, t) && !PcOf(s, a).Done? && Enabled(s, Go(a)) && PushUse(s, a, t, e)
    ensures Formed(Next(s, Go(a))) && PushUse(Next(s, Go(a)), a, t, e)
  {
    var pc := PcOf(s, a);
    if pc.Snap? || pc.Drain? {
      ReadsUse(s, a, t, e);
    } else if pc.Claim? || pc.Commit? {
      GateUse(s, a, t, e);
    } else if pc.Work? {
      WorkUse(s, a, t, e);
    }
  }

  /** What a call of `a` on ticket `t` leaves alone, whichever its side. */
  ghost predicate Beside(s: State, s1: State, a: Actor, t: nat) {
    && s1.capacity == s.capacity && s1.width == s.width && s1.crashed == s.crashed
    && |s.slots| == |s1.slots| == s.capacity
    && (forall k | 0 <= k < s.capacity && k != t % s.capacity :: s1.slots[k] == s.slots[k])
    && (forall b: Actor | b != a :: ProcOf(s1, b) == ProcOf(s, b))
  }

  lemma StepBeside(s: State, a: Actor, t: nat)
    requires Enabled(s, Go(a)) && (PcOf(s, a).Work? ==> PcOf(s, a).t == t)
    ensures Beside(s, Next(s, Go(a)), a, t)
  {
    forall k | 0 <= k < s.capacity && k != t % s.capacity
      ensures |Next(s, Go(a)).slots| == s.capacity && Next(s, Go(a)).slots[k] == s.slots[k]
    {
      StepWritesOwnSlot(s, Go(a), k);
    }
    StepWritesOwnSlot(s, Go(a), 0);
  }

  predicate SameDeqSide(s: State, s1: State) {
    s1.deq == s.deq && s1.deqGate == s.deqGate && s1.deqHolder == s.deqHolder
  }

  predicate SameEnqSide(s: State, s1: State) {
    s1.enq == s.enq && s1.enqGate == s.enqGate && s1.enqHolder == s.enqHolder
  }

  lemma StepSide(s: State, a: Actor)
    requires Enabled(s, Go(a))
    ensures PcOf(s, a).op.Push? ==> SameDeqSide(s, Next(s, Go(a)))
    ensures PcOf(s, a).op.Pop? ==> SameEnqSide(s, Next(s, Go(a)))
  {
  }

  lemma {:induction false} PushRuns(s: State, a: Actor, t: nat, e: nat)
    returns (acts: seq<Action>, s1: State)
    requires Inv(s) && OnPush(s, a, t) && PushUse(s, a, t, e) && a !in s.crashed
    ensures Leads(s, acts, s1) && Inv(s1) && OnPush(s1, a, t) && PushUse(s1, a, t, e) && PcOf(s1, a).Done?
    ensures Beside(s, s1, a, t) && SameDeqSide(s, s1)
    decreases StepsLeft(PcOf(s, a), s.width)
  {
    if PcOf(s, a).Done? {
      acts, s1 := [], s;
    } else {
      PushStep(s, a, t);
      PushFrame(s, a);
      assert ActorOk(s, a);
      StepBeside(s, a, t);
      StepSide(s, a);
      PushUses(s, a, t, e);
      var rest;
      rest, s1 := PushRuns(Next(s, Go(a)), a, t, e);
      acts := [Go(a)] + rest;
      assert acts[1..] == rest;
    }
  }

  // ----- What a lone pop uses up -----

  predicate PopUse(s: State, a: Actor, t: nat) {
    var pc := PcOf(s, a);
    && (Settled(pc, Deq) ==> s.deq == t + 1)
    && (pc.Notify? || pc.Done? ==> s.deqHolder.None?)
  }

  lemma PopUses(s: State, a: Actor, t: nat)
    requires Inv(s) && OnCourse(s, a, t) && !PcOf(s, a).Done? && Enabled(s, Go(a)) && PopUse(s, a, t)
    ensures Formed(Next(s, Go(a))) && PopUse(Next(s, Go(a)), a, t)
  {
    var pc := PcOf(s, a);
    assert ActorOk(s, a);
    if pc.Snap? || pc.Drain? {
      ReadsStayOnCourse(s, a, t);
    } else if pc.Claim? || pc.Commit? {
      GateStaysOnCourse(s, a, t);
    } else if pc.Work? {
      PopWorkUses(s, a, t);
    }
  }

  lemma PopWorkUses(s: State, a: Actor, t: nat)
    requires Inv(s) && OnCourse(s, a, t) && PcOf(s, a).Work? && Enabled(s, Go(a)) && PopUse(s, a, t)
    ensures Formed(Next(s, Go(a))) && PopUse(Next(s, Go(a)), a, t)
  {
    WorkStaysOnCourse(s, a, t);
    OwnSlotFits(s, a);
    var pc := PcOf(s, a);
    if !pc.work.StorePosition? {
      PopNextOk(s, SlotAt(s, pc.t), pc);
    }
  }

  lemma {:induction false} PopRuns(s: State, a: Actor, t: nat)
    returns (acts: seq<Action>, s1: State)
    requires Inv(s) && OnCourse(s, a, t) && PopUse(s, a, t) && a !in s.crashed
    ensures Leads(s, acts, s1) && Inv(s1) && OnCourse(s1, a, t) && PopUse(s1, a, t) && PcOf(s1, a).Done?
    ensures Beside(s, s1, a, t) && SameEnqSide(s, s1)
    decreases StepsLeft(PcOf(s, a), s.width)
  {
    if PcOf(s, a).Done? {
      acts, s1 := [], s;
    } else {
      SoloStep(s, a, t);
      assert ActorOk(s, a);
      StepBeside(s, a, t);
      StepSide(s, a);
      PopUses(s, a, t);
      var rest;
      rest, s1 := PopRuns(Next(s, Go(a)), a, t);
      acts := [Go(a)] + rest;
      assert acts[1..] == rest;
    }
  }

  // ----- A queue of three slots or more lasts to its last ticket -----

  /** Everybody rests; ticket `t` is next to pop and `n` messages are waiting; no slot is retired. */
  ghost predicate Level(s: State, t: nat, n: nat) {
    && Inv(s) && Worn(s) && 3 <= s.capacity && s.crashed == {}
    && s.deq == t && s.enq == t + n
    && s.enqHolder.None? && s.deqHolder.None? && s.enqGate == Gate(Free, 2 * (t + n))
    && (forall a: Actor :: PcOf(s, a).Idle?)
    && (forall k | 0 <= k < s.capacity :: s.slots[k].state != SlotExhausted)
  }

  /** With three slots each takes at most a third of the tickets. */
  lemma Share(t: nat, m: nat)
    requires 3 <= m
    ensures 3 * (t / m) <= t
  {
    Product(m - 3, t / m);
    assert t == 3 * (t / m) + (m - 3) * (t / m) + t % m;
  }

  /** So the slot of the next ticket has epochs to spare. */
  lemma SlotToSpare(s: State, t: nat)
    requires Level(s, t, 0) && t < LAST_TICKET
    ensures SpareSlot(SlotAt(s, t))
  {
    assert SlotOk(s, t) && WornAt(s, t);
    Share(t, s.capacity);
  }

  lemma ReturnRests(s: State, a: Actor)
    requires Inv(s) && PcOf(s, a).Done? && a !in s.crashed
    ensures Enabled(s, Go(a)) && Leads(s, [Go(a)], Next(s, Go(a))) && Inv(Next(s, Go(a)))
    ensures PcOf(Next(s, Go(a)), a).Idle?
    ensures SameDeqSide(s, Next(s, Go(a))) && SameEnqSide(s, Next(s, Go(a)))
    ensures Next(s, Go(a)).slots == s.slots && Beside(s, Next(s, Go(a)), a, 0)
  {
    assert ActorOk(s, a);
    NextKeeps(s, Go(a));
    assert [Go(a)][1..] == [];
  }

  lemma BeginRests(s: State, a: Actor, op: Op)
    requires Inv(s) && Enabled(s, Begin(a, op))
    ensures Leads(s, [Begin(a, op)], Next(s, Begin(a, op))) && Inv(Next(s, Begin(a, op)))
    ensures PcOf(Next(s, Begin(a, op)), a) == Snap(op, Early, 0, LoadEnq1)
    ensures SameDeqSide(s, Next(s, Begin(a, op))) && SameEnqSide(s, Next(s, Begin(a, op)))
    ensures Next(s, Begin(a, op)).slots == s.slots && Beside(s, Next(s, Begin(a, op)), a, 0)
  {
    NextKeeps(s, Begin(a, op));
    assert [Begin(a, op)][1..] == [];
  }

  /** The whole call: begin, run, return. */
  lemma Whole(s: State, begin: Action, s2: State, more: seq<Action>, s3: State, end: Action, s1: State)
    returns (acts: seq<Action>)
    requires Leads(s, [begin], s2) && Leads(s2, more, s3) && Leads(s3, [end], s1)
    ensures Leads(s, acts, s1)
  {
    LeadsOn(s2, more, s3, [end], s1);
    LeadsOn(s, [begin], s2, more + [end], s1);
    acts := [begin] + (more + [end]);
  }

  lemma LonePush(s: State, t: nat) returns (acts: seq<Action>, s1: State)
    requires Level(s, t, 0) && t < LAST_TICKET
    ensures Leads(s, acts, s1) && Inv(s1) && PcOf(s1, 0).Idle? && Beside(s, s1, 0, t) && SameDeqSide(s, s1)
    ensures s1.enq == t + 1 && s1.enqHolder.None? && s1.enqGate == Gate(Free, 2 * t + 2)
  {
    var msg := seq(s.width, _ => 0);
    BeginRests(s, 0, Push(msg));
    var s2 := Next(s, Begin(0, Push(msg)));
    SlotToSpare(s, t);
    assert OnPush(s2, 0, t);
    var more, s3 := PushRuns(s2, 0, t, 2 * t);
    ReturnRests(s3, 0);
    s1 := Next(s3, Go(0));
    acts := Whole(s, Begin(0, Push(msg)), s2, more, s3, Go(0), s1);
  }

  lemma PushCycle(s: State, t: nat) returns (acts: seq<Action>, s1: State)
    requires Level(s, t, 0) && t < LAST_TICKET
    ensures Leads(s, acts, s1) && Level(s1, t, 1)
  {
    acts, s1 := LonePush(s, t);
    LeadsInv(s, acts, s1);
    assert SlotOk(s1, t);
    assert SlotAt(s1, t).state == Ready;
    forall a: Actor ensures PcOf(s1, a).Idle? {
      assert a != 0 ==> ProcOf(s1, a) == ProcOf(s, a);
      assert PcOf(s, a).Idle?;
    }
  }

  lemma LonePop(s: State, t: nat, a: Actor) returns (acts: seq<Action>, s1: State)
    requires Inv(s) && s.deq == t < s.enq && s.deqHolder.None? && PcOf(s, a).Idle? && a !in s.crashed
    ensures Leads(s, acts, s1) && Inv(s1) && PcOf(s1, a).Idle? && Beside(s, s1, a, t) && SameEnqSide(s, s1)
    ensures s1.deq == t + 1 && s1.deqHolder.None?
  {
    BeginRests(s, a, Pop([]));
    var s2 := Next(s, Begin(a, Pop([])));
    assert OnCourse(s2, a, t);
    var more, s3 := PopRuns(s2, a, t);
    ReturnRests(s3, a);
    s1 := Next(s3, Go(a));
    acts := Whole(s, Begin(a, Pop([])), s2, more, s3, Go(a), s1);
  }

  lemma EmptiedSlot(s: State, t: nat)
    requires Inv(s) && s.deq == t + 1 == s.enq && 3 <= s.capacity && s.deqHolder.None?
    ensures SlotAt(s, t).state == SlotFree
  {
    AddModulus(t, s.capacity);
    assert SlotOk(s, t + s.capacity);
    assert SlotAt(s, t) == SlotAt(s, t + s.capacity);
  }

  lemma PopCycle(s: State, t: nat) returns (acts: seq<Action>, s1: State)
    requires Level(s, t, 1)
    ensures Leads(s, acts, s1) && Level(s1, t + 1, 0)
  {
    acts, s1 := LonePop(s, t, 0);
    LeadsInv(s, acts, s1);
    EmptiedSlot(s1, t);
    forall a: Actor ensures PcOf(s1, a).Idle? {
      assert a != 0 ==> ProcOf(s1, a) == ProcOf(s, a);
      assert PcOf(s, a).Idle?;
    }
  }

  lemma {:induction false} Drive(s: State, t: nat) returns (acts: seq<Action>, s1: State)
    requires Init(s) && 3 <= s.capacity && t <= LAST_TICKET
    ensures Leads(s, acts, s1) && Level(s1, t, 0)
    decreases t
  {
    if t == 0 {
      InitKeeps(s);
      InitWorn(s);
      acts, s1 := [], s;
    } else {
      var first, s2 := Drive(s, t - 1);
      var push, s3 := PushCycle(s2, t - 1);
      var pop;
      pop, s1 := PopCycle(s3, t - 1);
      LeadsOn(s, first, s2, push, s3);
      LeadsOn(s, first + push, s3, pop, s1);
      acts := first + push + pop;
    }
  }

  // ----- Overtaken at the last message -----

  /** `a` has seen a message and is about to read what budget is left. */
  predicate SawMessage(s: State, a: Actor) {
    PcOf(s, a) == Drain(Pop([]), BeforeClaim, 0, LoadLock1)
  }

  predicate Waits(s: State, a: Actor) {
    SawMessage(s, a) && a !in s.crashed && Formed(s)
  }

  /** Whatever happens in between, `a` is still in the same call, which has ended in exhaustion. */
  predicate ToldExhausted(s: State, s1: State, a: Actor) {
    PcOf(s1, a) == Done(Pop([]), Err(BudgetExhausted)) && ProcOf(s1, a).call == ProcOf(s, a).call
  }

  /** Four more reads tell `a` that nothing is left for anyone. */
  lemma FindsNothingLeft(s: State, a: Actor) returns (acts: seq<Action>, s1: State)
    requires Inv(s) && Waits(s, a) && s.deqHolder.None? && s.deq == LAST_TICKET
    ensures Leads(s, acts, s1) && ToldExhausted(s, s1, a)
  {
    var go := Go(a);
    var s2 := Next(s, go);
    var s3 := Next(s2, go);
    var s4 := Next(s3, go);
    s1 := Next(s4, go);
    acts := [go, go, go, go];
    assert acts[1..] == [go, go, go] && acts[1..][1..] == [go, go] && acts[1..][1..][1..] == [go];
    assert Leads(s4, [go], s1) by { assert [go][1..] == []; }
  }

  /** The four reads of a look at the positions. */
  lemma Looks(s: State, a: Actor) returns (acts: seq<Action>, s1: State)
    requires Inv(s) && PcOf(s, a) == Snap(Pop([]), Early, 0, LoadEnq1) && a !in s.crashed && s.deq < s.enq
    ensures Leads(s, acts, s1) && s1 == At(s, a, Drain(Pop([]), BeforeClaim, 0, LoadLock1))
  {
    var go := Go(a);
    var s2 := Next(s, go);
    var s3 := Next(s2, go);
    var s4 := Next(s3, go);
    s1 := Next(s4, go);
    assert TicketFits(s.deq, s.capacity);
    acts := [go, go, go, go];
    assert acts[1..] == [go, go, go] && acts[1..][1..] == [go, go] && acts[1..][1..][1..] == [go];
    assert Leads(s4, [go], s1) by { assert [go][1..] == []; }
  }

  lemma LoserIsTold(s: State, a: Actor, b: Actor)
    requires Inv(s) && Waits(s, a) && a != b && PcOf(s, b).Idle? && b !in s.crashed
    requires s.deqHolder.None? && s.deq == LAST_TICKET - 1 < s.enq
    ensures exists more, s1 :: Leads(s, more, s1) && ToldExhausted(s, s1, a)
  {
    var pop, s2 := LonePop(s, s.deq, b);
    assert ProcOf(s2, a) == ProcOf(s, a);
    var rest, s1 := FindsNothingLeft(s2, a);
    LeadsOn(s, pop, s2, rest, s1);
  }

  lemma SeesLast(s: State, a: Actor) returns (acts: seq<Action>, s1: State)
    requires Level(s, LAST_TICKET - 1, 1)
    ensures Leads(s, acts, s1) && Inv(s1) && Waits(s1, a) && s1.crashed == {}
    ensures SameDeqSide(s, s1) && SameEnqSide(s, s1)
    ensures forall b: Actor | b != a :: PcOf(s1, b).Idle?
  {
    var begin := Begin(a, Pop([]));
    BeginRests(s, a, Pop([]));
    var s2 := Next(s, begin);
    var look;
    look, s1 := Looks(s2, a);
    LeadsOn(s, [begin], s2, look, s1);
    acts := [begin] + look;
    LeadsInv(s, acts, s1);
    forall b: Actor | b != a ensures PcOf(s1, b).Idle? {
      assert ProcOf(s2, b) == ProcOf(s, b);
      assert PcOf(s, b).Idle?;
    }
  }

  lemma LastMessage(s: State) returns (acts: seq<Action>, s1: State)
    requires Init(s) && 3 <= s.capacity
    ensures Leads(s, acts, s1) && Level(s1, LAST_TICKET - 1, 1)
  {
    var first, s2 := Drive(s, LAST_TICKET - 1);
    var push;
    push, s1 := PushCycle(s2, LAST_TICKET - 1);
    LeadsOn(s, first, s2, push, s1);
    acts := first + push;
  }

  /** The race: a popper sees a message, and in the same call is told that the sequence is exhausted. */
  ghost predicate Overtaken(s0: State, a: Actor) {
    exists acts, s, more, s1 ::
      && Leads(s0, acts, s) && SawMessage(s, a) && s.deq < s.enq
      && Leads(s, more, s1) && ToldExhausted(s, s1, a)
  }

  lemma OvertakenAtTheEnd(s0: State, a: Actor, b: Actor)
    requires Init(s0) && 3 <= s0.capacity && a != b
    ensures Overtaken(s0, a)
  {
    var first, s2 := LastMessage(s0);
    var look, s := SeesLast(s2, a);
    LeadsOn(s0, first, s2, look, s);
    LoserIsTold(s, a, b);
  }

  // ----- With fewer slots there is no such end -----

  /** All pairs of positions short of the last ticket. */
  ghost function Short(): Positions {
    set e: nat, d: nat | e < LAST_TICKET && d < LAST_TICKET :: (e, d)
  }

  /** Nobody has seen the end. */
  ghost predicate EndUnseen(s: State) {
    && Inv(s) && Worn(s) && s.capacity <= 2
    && (forall a: Actor {:trigger PcOf(s, a)} :: Knows(PcOf(s, a), Short(), s.capacity))
  }

  lemma ActorUnseen(s: State, act: Action, a: Actor)
    requires EndUnseen(s) && Enabled(s, act)
    ensures Knows(PcOf(Next(s, act), a), Short(), s.capacity)
  {
    FewSlotsFallShort(s);
    assert (s.enq, s.deq) in Short();
    if act.actor != a || act.Crash? {
      OtherPc(s, act, a);
    } else if act.Advance? {
      StepKnows(s, a, act.retry, act.why, Short());
    }
  }

  lemma StepUnseen(s: State, act: Action)
    requires EndUnseen(s) && Enabled(s, act)
    ensures EndUnseen(Next(s, act))
  {
    NextWears(s, act);
    StepWritesOwnSlot(s, act, 0);
    forall a: Actor ensures Knows(PcOf(Next(s, act), a), Short(), Next(s, act).capacity) {
      ActorUnseen(s, act, a);
    }
  }

  lemma {:induction false} LeadsUnseen(s: State, acts: seq<Action>, s1: State)
    requires EndUnseen(s) && Leads(s, acts, s1)
    ensures EndUnseen(s1)
    decreases |acts|
  {
    if acts != [] {
      StepUnseen(s, acts[0]);
      LeadsUnseen(Next(s, acts[0]), acts[1..], s1);
    }
  }

  lemma FewSlotsNeverEnd(s0: State, acts: seq<Action>, s: State, a: Actor)
    requires Init(s0) && s0.capacity <= 2 && Leads(s0, acts, s)
    ensures s.enq < LAST_TICKET && PcOf(s, a) != Done(Pop([]), Err(BudgetExhausted))
  {
    InitKeeps(s0);
    InitWorn(s0);
    LeadsUnseen(s0, acts, s);
    FewSlotsFallShort(s);
    assert Knows(PcOf(s, a), Short(), s.capacity);
  }

  ghost predicate Lasts(s0: State) {
    exists acts, s :: Leads(s0, acts, s) && s.enq == LAST_TICKET
  }

  lemma ManySlotsLast(s0: State)
    requires Init(s0) && 3 <= s0.capacity
    ensures Lasts(s0)
  {
    var acts, s := LastMessage(s0);
    assert s.enq == LAST_TICKET;
  }

  lemma FewSlotsDoNot(s0: State, a: Actor)
    requires Init(s0) && s0.capacity <= 2
    ensures !Lasts(s0) && !Overtaken(s0, a)
  {
    forall acts, s | Leads(s0, acts, s) ensures s.enq < LAST_TICKET {
      FewSlotsNeverEnd(s0, acts, s, a);
    }
    forall acts, s, more, s1 | Leads(s0, acts, s) && Leads(s, more, s1) ensures !ToldExhausted(s, s1, a) {
      LeadsOn(s0, acts, s, more, s1);
      FewSlotsNeverEnd(s0, acts + more, s1, a);
    }
  }

  /**
   A queue can reach its last ticket, and a popper be overtaken there, exactly if it has at least
   three slots.
   */
  lemma LastTicketIff(s0: State, a: Actor)
    requires Init(s0)
    ensures Lasts(s0) <==> 3 <= s0.capacity
    ensures Overtaken(s0, a) <==> 3 <= s0.capacity
  {
    if 3 <= s0.capacity {
      ManySlotsLast(s0);
      OvertakenAtTheEnd(s0, a, a + 1);
    } else {
      FewSlotsDoNot(s0, a);
    }
  }
}
