/** Every step of either side preserves the channel invariant. */
module ChannelSteps {
  import opened Words
  import opened Channel
  import opened ChannelInvariant

  // ----- What one side's step leaves to the other -----

  /** The slots the consumer side holds are as they were. */
  predicate SameHeld(s: State, s1: State)
    requires |s.slots| == |s1.slots| == SLOTS
  {
    forall i | 0 <= i < SLOTS ::
      s1.slots[i] == s.slots[i] || (!Held(s.slots[i].state) && !Held(s1.slots[i].state))
  }

  lemma SameHeldKeeps(s: State, s1: State)
    requires |s.slots| == |s1.slots| == SLOTS && SameHeld(s, s1) && s1.epoch == s.epoch
    ensures NoneHeld(s.slots) ==> NoneHeld(s1.slots)
    ensures AtMostOneHeld(s.slots) ==> AtMostOneHeld(s1.slots)
    ensures Known(s.slots, s.epoch) ==> Known(s1.slots, s1.epoch)
    ensures forall h: nat | OnlyHeld(s.slots, h) :: OnlyHeld(s1.slots, h) && s1.slots[h] == s.slots[h]
  {
    forall h: nat | OnlyHeld(s.slots, h) ensures OnlyHeld(s1.slots, h) && s1.slots[h] == s.slots[h] {}
  }

  /** The consumer's facts depend on the slots it holds and on what is published. */
  lemma ConsumerUndisturbed(s: State, s1: State)
    requires Formed(s) && Formed(s1) && ConsOk(s) && SameHeld(s, s1)
    requires s1 == s.(slots := s1.slots, prod := s1.prod)
    ensures ConsOk(s1)
  {
    SameHeldKeeps(s, s1);
  }

  /** All a consumer ever does to a slot. */
  predicate Touched(slot: Slot, slot1: Slot) {
    && slot1 == slot.(state := slot1.state, epoch := slot1.epoch)
    && (slot1.state == slot.state
        || ((slot.state == Published || Held(slot.state)) && (slot1.state == Published || Held(slot1.state))))
  }

  /** A slot the producer counts on stays out of the consumer's reach. */
  predicate StillAway(s: State, s1: State)
    requires |s.slots| == |s1.slots| == SLOTS
  {
    forall m | 0 <= m < SLOTS && m != CurrentSlot(s) && Away(s, m) :: Away(s1, m)
  }

  lemma PassedStays(s: State, s1: State, j: nat)
    requires |s.slots| == |s1.slots| == SLOTS && StillAway(s, s1) && s1.latest == s.latest && Passed(s, j)
    ensures Passed(s1, j)
  {
    forall m | 0 <= m < SLOTS && m != CurrentSlot(s1) && m != j ensures Away(s1, m) {
      assert Away(s, m);
    }
  }

  /** The producer's facts depend on the slot it writes and on the consumer keeping away. */
  lemma ProducerUndisturbed(s: State, s1: State)
    requires Formed(s) && Formed(s1) && ProdOk(s) && StillAway(s, s1)
    requires s1 == s.(slots := s1.slots, cons := s1.cons, epoch := s1.epoch, online := s1.online,
                      handle := s1.handle, taken := s1.taken)
    requires forall i | 0 <= i < SLOTS :: Touched(s.slots[i], s1.slots[i])
    ensures ProdOk(s1)
  {
    forall j: nat | Passed(s, j) ensures Passed(s1, j) {
      PassedStays(s, s1, j);
    }
  }

  /** A consumer step: it touches one slot, and can reach no slot but its own and the current one. */
  lemma ConsumerChanges(s: State, s1: State, i: nat)
    requires Inv(s) && i < SLOTS && |s1.slots| == SLOTS
    requires s1 == s.(slots := s.slots[i := s1.slots[i]], cons := s1.cons, epoch := s1.epoch, online := s1.online,
                      handle := s1.handle, taken := s1.taken)
    requires Touched(s.slots[i], s1.slots[i])
    requires Held(s1.slots[i].state) ==> s.latest != NO_TICKET
    requires !Held(s1.slots[i].state) ==> s1.slots[i].epoch == 0
    requires Held(s1.slots[i].state) && !Held(s.slots[i].state) ==> Target(s.cons) == Some(i)
    requires Target(s1.cons).Some? && Target(s1.cons) != Target(s.cons) ==> Target(s1.cons) == Some(CurrentSlot(s))
    requires ConsOk(s1) && Accounts(s1)
    ensures Inv(s1)
  {
    forall m | 0 <= m < SLOTS ensures Touched(s.slots[m], s1.slots[m]) {}
    assert StillAway(s, s1);
    ProducerUndisturbed(s, s1);
  }

  /** A step that changes only what the consumer remembers. */
  lemma ConsumerMoves(s: State, s1: State)
    requires Inv(s)
    requires s1 == s.(cons := s1.cons, epoch := s1.epoch, online := s1.online, handle := s1.handle, taken := s1.taken)
    requires Target(s1.cons).Some? && Target(s1.cons) != Target(s.cons) ==> Target(s1.cons) == Some(CurrentSlot(s))
    requires ConsOk(s1) && Accounts(s1)
    ensures Inv(s1)
  {
    assert s1.slots == s.slots[0 := s.slots[0]];
    ConsumerChanges(s, s1, 0);
  }

  /** A step that changes only the producer's program counter. */
  lemma ProducerMoves(s: State, p: Producer)
    requires Inv(s) && ProdOk(s.(prod := p)) && (Writes(p) == Writes(s.prod) || p.Stopped? || Writes(s.prod) == None)
    requires s.prod.Stopped? ==> p.Stopped?
    ensures Inv(s.(prod := p))
  {
    ConsumerUndisturbed(s, s.(prod := p));
  }

  /** A step in which the producer changes a slot that is neither current nor held. */
  lemma ProducerChanges(s: State, i: nat, slot: Slot, p: Producer)
    requires Inv(s) && i < SLOTS && i != CurrentSlot(s) && |slot.data| == s.width
    requires !Held(s.slots[i].state) && !Held(slot.state) && slot.epoch == s.slots[i].epoch
    requires slot.state == Writing ==> Writes(p) == Some(i)
    requires !s.prod.Stopped? && (Writes(s.prod) == None || Writes(s.prod) == Some(i))
    requires ProdOk(WithSlot(s, i, slot).(prod := p))
    ensures Inv(WithSlot(s, i, slot).(prod := p))
  {
    ConsumerUndisturbed(s, WithSlot(s, i, slot).(prod := p));
  }

  // ----- Producer steps -----

  /** A slot the search passes over was held, so nothing else but the current slot can be. */
  lemma PassOver(s: State, j: nat)
    requires Formed(s) && ConsOk(s) && j < SLOTS && Held(s.slots[j].state)
    ensures Passed(s, j)
  {
    forall m | 0 <= m < SLOTS && m != CurrentSlot(s) && m != j ensures Away(s, m) {}
  }

  /** The search meets a held slot at most once, so it can always go on from there. */
  lemma SearchGoesOn(s: State, next: nat, cur: nat, i: nat)
    requires Formed(s) && ConsOk(s) && SearchOk(s, next, cur, i) && (i == cur || Held(s.slots[i].state))
    requires Held(s.slots[i].state) ==> s.latest != NO_TICKET
    ensures SearchOk(s, next, cur, i + 1)
  {
    if i != cur {
      assert !Away(s, i);
      assert i > 0 && 0 != cur ==> !Passed(s, 0);
      assert i > 1 && 1 != cur ==> !Passed(s, 1);
      PassOver(s, i);
    }
  }

  lemma SearchKeeps(s: State)
    requires Inv(s) && (s.prod.LoadLatest? || s.prod.Search?)
    ensures Inv(s.(prod := SearchNext(s, s.prod)))
  {
    var p1 := SearchNext(s, s.prod);
    if s.prod.Search? && p1.Search? {
      SearchGoesOn(s, s.prod.next, s.prod.cur, s.prod.i);
    }
    forall j: nat | Passed(s, j) ensures Passed(s.(prod := p1), j) {
      PassedStays(s, s.(prod := p1), j);
    }
    ProducerMoves(s, p1);
  }

  lemma SeizeKeeps(s: State)
    requires Inv(s) && s.prod.Seize?
    ensures s.prod.i < SLOTS && Inv(SeizeStep(s))
  {
    var i := s.prod.i;
    var (slot1, p1) := SeizeNext(s.slots[i], s.prod);
    if p1.Search? {
      assert s.slots[i := slot1] == s.slots;
      SearchGoesOn(s, s.prod.next, s.prod.cur, i);
      forall j: nat | Passed(s, j) ensures Passed(s.(prod := p1), j) {
        PassedStays(s, s.(prod := p1), j);
      }
      ProducerMoves(s, p1);
    } else {
      ProducerChanges(s, i, slot1, p1);
    }
  }

  lemma WriteNextOk(s: State, slot: Slot, p: Producer)
    requires p.Write? && !p.at.StoreTicket? && |slot.data| == s.width && WriteOk(s, slot, p)
    ensures var (slot1, p1) := WriteNext(s.sum, slot, p);
            && p1 == p.(at := p1.at) && |slot1.data| == s.width && WriteOk(s, slot1, p1)
            && slot1.epoch == slot.epoch && slot1.state == (if p1.at.StoreTicket? then Published else Writing)
  {
    if p.at.CopyByte? {
      var k := p.at.k;
      var data, msg := slot.data, p.kind.sample.data;
      assert data[k := msg[k]][..k + 1] == data[..k] + [msg[k]] == msg[..k + 1];
      assert k + 1 == |msg| ==> data[k := msg[k]] == data[k := msg[k]][..k + 1] && msg == msg[..k + 1];
    }
  }

  lemma WriteKeeps(s: State)
    requires Inv(s) && s.prod.Write? && !s.prod.at.StoreTicket?
    ensures ProducerRuns(s) && Inv(WriteStep(s))
  {
    var i := s.prod.i;
    WriteNextOk(s, s.slots[i], s.prod);
    var (slot1, p1) := WriteNext(s.sum, s.slots[i], s.prod);
    var s1 := WithSlot(s, i, slot1).(prod := p1);
    assert WriteOk(s1, slot1, p1);
    ProducerChanges(s, i, slot1, p1);
  }

  lemma GotStays(s: State, s1: State, sample: Sample, got: Got)
    requires GotOk(s, got) && s1 == s.(latest := s1.latest, prod := s1.prod, samples := s.samples + [sample])
    ensures GotOk(s1, got)
  {
    assert forall k | 0 <= k < |s.samples| :: s1.samples[k] == s.samples[k];
  }

  /** What the consumer has or aims at is as good after one more sample. */
  lemma OneMoreSample(s: State, s1: State, sample: Sample)
    requires Formed(s) && ConsOk(s)
    requires s1 == s.(latest := s1.latest, prod := s1.prod, samples := s.samples + [sample])
    ensures ConsOk(s1)
  {
    if s.cons.Read? {
      GotStays(s, s1, sample, s.cons.got);
    } else if s.cons.Release? {
      if s.cons.after.Finish? {
        GotStays(s, s1, sample, s.cons.after.got);
      }
    } else {
      SameHeldKeeps(s, s1);
      assert forall k | 0 <= k < |s.samples| :: s1.samples[k] == s.samples[k];
    }
  }

  /** The ticket store makes a sample current. */
  lemma TicketKeeps(s: State)
    requires Inv(s) && s.prod.Write? && s.prod.at.StoreTicket?
    ensures s.prod.i < SLOTS && Inv(TicketStep(s))
  {
    var i := s.prod.i;
    var sample := Sample(s.slots[i].data, s.slots[i].boot);
    var s1 := TicketStep(s);
    assert s1.samples[|s.samples|] == sample;
    OneMoreSample(s, s1, sample);
  }

  lemma ProducerNextKeeps(s: State)
    requires Inv(s) && ProducerRuns(s)
    ensures Inv(ProducerNext(s))
  {
    match s.prod
    case Undo(i) => ProducerChanges(s, i, s.slots[i].(state := Free), Sent(Aborted));
    case Write(_, _, _, _, at) =>
      if at.StoreTicket? {
        TicketKeeps(s);
      } else {
        WriteKeeps(s);
      }
    case Seize(_, _, _, _, _) => SeizeKeeps(s);
    case _ => SearchKeeps(s);
  }

  lemma FillKeeps(s: State, k: nat, v: nat)
    requires Inv(s) && ProducerEnabled(s, Fill(k, v))
    ensures Inv(Produce(s, Fill(k, v)))
  {
    var s1 := Produce(s, Fill(k, v));
    var i := s.prod.i;
    assert s1 == WithSlot(s, i, s1.slots[i]).(prod := s.prod);
    ProducerChanges(s, i, s1.slots[i], s.prod);
  }

  lemma CallerKeeps(s: State, p: ProducerAct)
    requires Inv(s) && ProducerEnabled(s, p) && !p.Fill? && !p.Write1?
    ensures Inv(Produce(s, p))
  {
    ProducerMoves(s, Produce(s, p).prod);
  }

  lemma ProduceKeeps(s: State, p: ProducerAct)
    requires Inv(s) && ProducerEnabled(s, p)
    ensures Inv(Produce(s, p))
  {
    match p
    case Fill(k, v) => FillKeeps(s, k, v);
    case Write1 => ProducerNextKeeps(s);
    case _ => CallerKeeps(s, p);
  }

  // ----- Consumer steps -----

  lemma NextAttemptOk(s: State, call: Call, attempt: nat)
    requires Formed(s) && Live(s) && NoneHeld(s.slots)
    requires attempt < MAX_ATTEMPTS && call.base + attempt + 1 <= |s.samples|
    ensures ConsOk(s.(cons := NextAttempt(call, attempt)))
  {
  }

  lemma LoadTicketKeeps(s: State)
    requires Inv(s) && s.cons.Claim? && s.cons.claim.LoadTicket?
    ensures Inv(ClaimStep(s))
  {
    var s1 := ClaimStep(s);
    assert s1 == s.(cons := ClaimNext(s, s.slots[0], s.cons).1);
    ConsumerMoves(s, s1);
  }

  /** A claim that fails had a ticket already superseded. */
  lemma ClaimCasKeeps(s: State)
    requires Inv(s) && s.cons.Claim? && s.cons.claim.ClaimCas?
    ensures SlotOf(s.cons) < SLOTS && Inv(ClaimStep(s))
  {
    var Claim(call, attempt, claim) := s.cons;
    var i := claim.t.slot;
    var s1 := ClaimStep(s);
    if s.slots[i].state == Published {
      ConsumerChanges(s, s1, i);
    } else {
      assert claim.t != s.latest;
      NextAttemptOk(s, call, attempt);
      assert s1 == s.(cons := NextAttempt(call, attempt));
      ConsumerMoves(s, s1);
    }
  }

  lemma MarkKeeps(s: State)
    requires Inv(s) && s.cons.Claim? && (s.cons.claim.MarkEpoch? || s.cons.claim.MarkReading?)
    ensures SlotOf(s.cons) < SLOTS && Inv(ClaimStep(s))
  {
    ConsumerChanges(s, ClaimStep(s), s.cons.claim.t.slot);
  }

  /** A second look that agrees names the newest sample, whole; one that does not was overtaken by a newer ticket. */
  lemma RecheckDecides(s: State)
    requires Inv(s) && s.cons.Claim? && s.cons.claim.Recheck?
    ensures SlotOf(s.cons) < SLOTS
    ensures var c := ClaimStep(s).cons;
            || (c.Check? && s.latest == Ticket(c.q, c.i) && Intact(s.slots[c.i], |s.samples|, s.samples, s.sum))
            || (c.Release? && c.after.Retry? && s.cons.claim.t.seqno < s.latest.seqno)
  {
  }

  lemma LoadSequenceKeeps(s: State)
    requires Inv(s) && s.cons.Claim? && s.cons.claim.LoadSequence?
    ensures SlotOf(s.cons) < SLOTS && Inv(ClaimStep(s))
  {
    var s1 := ClaimStep(s);
    assert s1 == s.(cons := ClaimNext(s, s.slots[s.cons.claim.t.slot], s.cons).1);
    ConsumerMoves(s, s1);
  }

  lemma RecheckKeeps(s: State)
    requires Inv(s) && s.cons.Claim? && s.cons.claim.Recheck?
    ensures SlotOf(s.cons) < SLOTS && Inv(ClaimStep(s))
  {
    RecheckDecides(s);
    var s1 := ClaimStep(s);
    assert s1 == s.(cons := ClaimNext(s, s.slots[s.cons.claim.t.slot], s.cons).1);
    ConsumerMoves(s, s1);
  }

  lemma ClaimKeeps(s: State)
    requires Inv(s) && s.cons.Claim?
    ensures SlotOf(s.cons) < SLOTS && Inv(ClaimStep(s))
  {
    match s.cons.claim
    case LoadTicket => LoadTicketKeeps(s);
    case ClaimCas(_) => ClaimCasKeeps(s);
    case MarkEpoch(_) => MarkKeeps(s);
    case MarkReading(_) => MarkKeeps(s);
    case LoadSequence(_) => LoadSequenceKeeps(s);
    case Recheck(_, _) => RecheckKeeps(s);
  }

  lemma ReleasedOk(s: State)
    requires Inv(s) && s.cons.Release?
    ensures s.cons.i < SLOTS && Formed(ReleaseStep(s)) && ConsOk(ReleaseStep(s))
  {
  }

  lemma ReleaseKeeps(s: State)
    requires Inv(s) && s.cons.Release?
    ensures s.cons.i < SLOTS && Inv(ReleaseStep(s))
  {
    ReleasedOk(s);
    ConsumerChanges(s, ReleaseStep(s), s.cons.i);
  }

  lemma ReclaimKeeps(s: State)
    requires Inv(s) && s.cons.Reclaim?
    ensures s.cons.i < SLOTS && Inv(ReclaimStep(s))
  {
    ConsumerChanges(s, ReclaimStep(s), s.cons.i);
  }

  lemma OddKeeps(s: State)
    requires Inv(s) && s.cons.Open? && s.cons.open.OpenOdd?
    ensures Inv(OpenStep(s))
  {
    if s.epoch > U64_MAX - 2 {
      CrashKeeps(s);
    } else {
      ConsumerMoves(s, OpenStep(s));
    }
  }

  lemma EvenKeeps(s: State)
    requires Inv(s) && s.cons.Open? && s.cons.open.OpenEven?
    ensures Inv(OpenStep(s))
  {
    ConsumerMoves(s, OpenStep(s));
  }

  lemma OnlineKeeps(s: State)
    requires Inv(s) && s.cons.Open? && s.cons.open.OpenOnline?
    ensures Inv(OpenStep(s))
  {
    ConsumerMoves(s, OpenStep(s));
  }

  lemma OpenKeeps(s: State)
    requires Inv(s) && s.cons.Open?
    ensures Inv(OpenStep(s))
  {
    match s.cons.open
    case OpenOdd => OddKeeps(s);
    case OpenEven => EvenKeeps(s);
    case OpenOnline => OnlineKeeps(s);
  }

  /** A take rises above the last one and reports exactly the sequences in between. */
  lemma TakeAccounts(s: State, s1: State, q: nat, lent: bool)
    requires Accounts(s) && s.handle.last < q <= |s.samples|
    requires s1 == s.(cons := s1.cons, handle := s.handle.(last := q, first := false),
                      taken := s.taken + [Taken(q, if s.handle.first then 0 else Gap(s.handle.last, q), lent)])
    ensures Accounts(s1)
  {
    forall k | 0 < k < |s1.taken|
      ensures s1.taken[k - 1].seqno < s1.taken[k].seqno
      ensures s1.taken[k].missed == s1.taken[k].seqno - s1.taken[k - 1].seqno - 1
    {
      assert s1.taken[k - 1] == s.taken[k - 1];
    }
  }

  lemma TakenOk(s: State)
    requires Inv(s) && s.cons.Check?
    ensures s.cons.i < SLOTS && ConsOk(CheckStep(s, true))
  {
  }

  lemma CheckKeeps(s: State, clock: bool)
    requires Inv(s) && s.cons.Check?
    ensures s.cons.i < SLOTS && Inv(CheckStep(s, clock))
  {
    var s1 := CheckStep(s, clock);
    if clock {
      TakeAccounts(s, s1, s.cons.q, s.cons.call.lends);
      TakenOk(s);
    } else {
      assert s1 == s.(cons := Release(s.cons.i, false, Finish(GotNothing(ClockAnomaly))));
    }
    ConsumerMoves(s, s1);
  }

  lemma CopyKeeps(s: State)
    requires Inv(s) && s.cons.CopyOut?
    ensures s.cons.i < SLOTS && |s.cons.buf| < s.width && Inv(CopyStep(s))
  {
    OneByteMore(s.cons.buf, s.slots[s.cons.i].data);
    ConsumerMoves(s, CopyStep(s));
  }

  lemma OneByteMore(buf: Payload, data: Payload)
    requires |buf| < |data| && buf == data[..|buf|]
    ensures buf + [data[|buf|]] == data[..|buf| + 1]
    ensures |buf| + 1 == |data| ==> buf + [data[|buf|]] == data
  {
  }

  lemma ConsumerNextKeeps(s: State, clock: bool)
    requires Inv(s) && ConsumerRuns(s)
    ensures Inv(ConsumerNext(s, clock))
  {
    match s.cons
    case Claim(_, _, _) => ClaimKeeps(s);
    case Release(_, _, _) => ReleaseKeeps(s);
    case Reclaim(_, _) => ReclaimKeeps(s);
    case Open(_) => OpenKeeps(s);
    case Check(_, _, _) => CheckKeeps(s, clock);
    case CopyOut(_, _, _, _) => CopyKeeps(s);
  }

  /** A crash leaves at most one slot held, marked with the dead consumer's epoch or not at all. */
  lemma CrashKeeps(s: State)
    requires Inv(s)
    ensures Inv(s.(cons := Nobody))
  {
    ConsumerMoves(s, s.(cons := Nobody));
  }

  lemma EnterKeeps(s: State)
    requires Inv(s) && s.cons.Nobody?
    ensures Inv(Consume(s, Enter))
  {
    ConsumerMoves(s, Consume(s, Enter));
  }

  lemma BeginReadKeeps(s: State, lends: bool)
    requires Inv(s) && s.cons.Rest?
    ensures Inv(Consume(s, BeginRead(lends)))
  {
    ConsumerMoves(s, Consume(s, BeginRead(lends)));
  }

  lemma LeaveKeeps(s: State)
    requires Inv(s) && s.cons.Read?
    ensures Inv(s.(cons := Rest))
  {
    ConsumerMoves(s, s.(cons := Rest));
  }

  lemma ShutdownKeeps(s: State)
    requires Inv(s) && s.cons.Rest?
    ensures Inv(s.(online := false, cons := Nobody))
  {
    ConsumerMoves(s, s.(online := false, cons := Nobody));
  }

  lemma ReturnedOk(s: State)
    requires Inv(s) && s.cons.Lending?
    ensures ConsOk(s.(cons := Release(s.cons.i, false, Finish(GotLoan(s.cons.q)))))
  {
  }

  lemma ReturnLoanKeeps(s: State)
    requires Inv(s) && s.cons.Lending?
    ensures Inv(Consume(s, ReturnLoan))
  {
    ReturnedOk(s);
    ConsumerMoves(s, s.(cons := Release(s.cons.i, false, Finish(GotLoan(s.cons.q)))));
  }

  lemma ConsumeKeeps(s: State, c: ConsumerAct)
    requires Inv(s) && ConsumerEnabled(s, c)
    ensures Inv(Consume(s, c))
  {
    match c
    case Read1(clock) => ConsumerNextKeeps(s, clock);
    case Die => CrashKeeps(s);
    case Enter => EnterKeeps(s);
    case ReturnLoan => ReturnLoanKeeps(s);
    case BeginRead(lends) => BeginReadKeeps(s, lends);
    case Leave => LeaveKeeps(s);
    case Shutdown => ShutdownKeeps(s);
  }

  // ----- All steps -----

  lemma NextKeeps(s: State, act: Action)
    requires Inv(s) && Enabled(s, act)
    ensures Inv(Next(s, act))
  {
    match act
    case Producing(p) => ProduceKeeps(s, p);
    case Consuming(c) => ConsumeKeeps(s, c);
  }

  lemma {:induction false} RunInv(run: seq<State>, acts: seq<Action>, i: nat)
    requires IsRun(run, acts) && i < |run|
    ensures Inv(run[i])
    decreases i
  {
    if i > 0 {
      RunInv(run, acts, i - 1);
      NextKeeps(run[i - 1], acts[i - 1]);
    }
  }
}
