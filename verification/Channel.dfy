/**
 The latest-value channel: one producer, a chain of consumers that replace one another, three
 slots and a ticket that names the newest sample.

 One shared access per step; the producer or the consumer may crash at any step.  Payloads are
 copied byte by byte on both sides.  While a consumer is alive its control lock and liveness
 probe keep every other opener out, so the consumer side is one sequential actor at a time; a
 crash of that actor leaves the shared words as they are.
 */
module Channel {
  import opened Words

  const SLOTS: nat := 3

  /** `kMaxSampleSequence` */
  const MAX_SEQUENCE: nat := 0x3FFF_FFFF_FFFF_FFFF

  /** `kInvalidSlot` */
  const NO_SLOT: nat := 0xFFFF_FFFF

  /** `kMaxReadRetries` */
  const MAX_ATTEMPTS: nat := 8

  type Payload = seq<nat>

  datatype Sample = Sample(data: Payload, boot: nat)

  /** `SlotState` */
  datatype SlotState = Free | Writing | Published | ReadingClaiming | Reading

  datatype Slot = Slot(state: SlotState, size: nat, seqno: nat, boot: nat, data: Payload, sum: nat, epoch: nat)

  // ----- Tickets -----

  /** The ticket word as the pair it packs; module `Layout` has the packing. */
  datatype Ticket = Ticket(seqno: nat, slot: nat)

  /** The word zero: nothing published yet. */
  const NO_TICKET := Ticket(0, 0)

  /** `checked_next_sequence` */
  function NextSequence(t: Ticket): Option<nat> {
    if t.seqno >= MAX_SEQUENCE then None else Some(t.seqno + 1)
  }

  /** `saturated_gap` */
  function Gap(last: nat, now: nat): nat {
    if now <= last then 0 else now - last - 1
  }

  // ----- Program points -----

  /** What the producer is publishing: a message given whole, or a slot lent to the caller. */
  datatype Kind = Whole(sample: Sample) | Lent

  datatype WriteAt = StoreSize | StoreSequence | StoreBoot | CopyByte(k: nat) | StoreSum | StorePublished | StoreTicket

  datatype Sent =
    | SentOk(seqno: nat)
    | SizeDrift
    | NotOwner
    | SequenceExhausted
    | NoClock
    | NoWritableSlot
    | Aborted

  datatype Producer =
    | Ready
    | LoadLatest(kind: Kind, clock: bool)
    | Search(kind: Kind, next: nat, cur: nat, i: nat)
    | Seize(kind: Kind, next: nat, cur: nat, i: nat, observed: SlotState)
    | Loan(next: nat, i: nat)
    | Write(kind: Kind, next: nat, i: nat, boot: nat, at: WriteAt)
    | Undo(i: nat)
    | Sent(sent: Sent)
    | Stopped

  /** `t` is the ticket loaded on this attempt, `q` the sequence found in its slot. */
  datatype ClaimAt =
    | LoadTicket
    | ClaimCas(t: Ticket)
    | MarkEpoch(t: Ticket)
    | MarkReading(t: Ticket)
    | LoadSequence(t: Ticket)
    | Recheck(t: Ticket, q: nat)

  /** One call: whether it lends the slot, and (history) the samples published before it. */
  datatype Call = Call(lends: bool, base: nat)

  /** `base` and `seqno` are history: the samples published before the call, and the one not decoded. */
  datatype ReadError =
    | NoNewSample | CorruptSlot | ReadContention(base: nat) | PayloadCorrupt | ClockAnomaly | DecodeFailed(seqno: nat)

  datatype Got = Got(seqno: nat, sample: Sample) | GotLoan(seqno: nat) | GotNothing(why: ReadError)

  /** What follows a release: another attempt, or the end of the call. */
  datatype After = Retry(call: Call, attempt: nat) | Finish(got: Got)

  datatype ReclaimAt = LoadState | LoadEpoch(st: SlotState) | Zero | Store

  datatype OpenAt = OpenOdd | OpenEven | OpenOnline

  datatype Consumer =
    | Nobody
    | Reclaim(i: nat, step: ReclaimAt)
    | Open(open: OpenAt)
    | Rest
    | Claim(call: Call, attempt: nat, claim: ClaimAt)
    | Check(call: Call, i: nat, q: nat)
    | CopyOut(i: nat, q: nat, boot: nat, buf: Payload)
    | Lending(i: nat, q: nat)
    | Release(i: nat, zeroed: bool, after: After)
    | Read(got: Got)

  /** `ConsumerHandle`: role epoch, last sequence read, and whether one was read at all. */
  datatype Handle = Handle(role: nat, last: nat, first: bool)

  /**
   What a handle has taken: the sequence, the number reported missed before it, and whether it was
   lent as bytes or read through the codec.
   */
  datatype Taken = Taken(seqno: nat, missed: nat, lent: bool)

  /**
   `sum` is the checksum and `codec` what `PayloadCodec::decode` accepts; both are any function of
   the bytes.  `samples` and `taken` are history: the sample published under sequence k + 1, and
   what the present handle has taken.
   */
  datatype State = State(
    width: nat, sum: Payload -> nat, codec: Payload -> bool,
    slots: seq<Slot>, latest: Ticket, epoch: nat, online: bool,
    prod: Producer, cons: Consumer, handle: Handle,
    samples: seq<Sample>, taken: seq<Taken>)

  predicate Formed(s: State) {
    && |s.slots| == SLOTS
    && forall i | 0 <= i < SLOTS :: |s.slots[i].data| == s.width
  }

  // ----- The producer -----

  function CurrentSlot(s: State): nat {
    if s.latest == NO_TICKET then NO_SLOT else s.latest.slot
  }

  /** `producer_publish_impl` and `producer_loan_impl`: the search for a slot to write. */
  function SearchNext(s: State, p: Producer): Producer
    requires Formed(s) && (p.LoadLatest? || p.Search?)
  {
    match p
    case LoadLatest(kind, clock) =>
      (match NextSequence(s.latest)
       case None => Sent(SequenceExhausted)
       case Some(next) => if clock then Search(kind, next, CurrentSlot(s), 0) else Sent(NoClock))
    case Search(kind, next, cur, i) =>
      if i >= SLOTS then Sent(NoWritableSlot)
      else if i == cur then Search(kind, next, cur, i + 1)
      else if s.slots[i].state != Free && s.slots[i].state != Published then Search(kind, next, cur, i + 1)
      else Seize(kind, next, cur, i, s.slots[i].state)
  }

  /** `slot_claim_writable` */
  function SeizeNext(slot: Slot, p: Producer): (Slot, Producer)
    requires p.Seize?
  {
    var Seize(kind, next, cur, i, observed) := p;
    if slot.state == observed then
      (slot.(state := Writing),
       if kind.Lent? then Loan(next, i) else Write(kind, next, i, kind.sample.boot, StoreSize))
    else (slot, Search(kind, next, cur, i + 1))
  }

  /** One store of a sample into the slot the producer seized. */
  function WriteNext(sum: Payload -> nat, slot: Slot, p: Producer): (Slot, Producer)
    requires p.Write? && !p.at.StoreTicket?
    requires p.at.CopyByte? ==> p.kind.Whole? && p.at.k < |p.kind.sample.data| == |slot.data|
  {
    var Write(kind, next, i, boot, at) := p;
    match at
    case StoreSize => (slot.(size := if kind.Whole? then |kind.sample.data| else |slot.data|), p.(at := StoreSequence))
    case StoreSequence => (slot.(seqno := next), p.(at := StoreBoot))
    case StoreBoot =>
      (slot.(boot := boot),
       p.(at := if kind.Lent? || |kind.sample.data| == 0 then StoreSum else CopyByte(0)))
    case CopyByte(k) =>
      (slot.(data := slot.data[k := kind.sample.data[k]]),
       p.(at := if k + 1 < |kind.sample.data| then CopyByte(k + 1) else StoreSum))
    case StoreSum =>
      (slot.(sum := sum(if kind.Whole? then kind.sample.data else slot.data)), p.(at := StorePublished))
    case StorePublished => (slot.(state := Published), p.(at := StoreTicket))
  }

  // ----- The consumer -----

  predicate Claiming(c: Consumer) {
    c.Claim? || c.Check? || c.CopyOut? || c.Release?
  }

  function NextAttempt(call: Call, attempt: nat): Consumer {
    if attempt + 1 < MAX_ATTEMPTS then Claim(call, attempt + 1, LoadTicket)
    else Read(GotNothing(ReadContention(call.base)))
  }

  /** The slot an access goes to. */
  function SlotOf(c: Consumer): nat
    requires Claiming(c)
  {
    match c
    case Claim(_, _, claim) => if claim.LoadTicket? then 0 else claim.t.slot
    case Check(_, i, _) => i
    case CopyOut(i, _, _, _) => i
    case Release(i, _, _) => i
  }

  /** `claim_latest_unlocked`, up to the second look at the ticket. */
  function ClaimNext(s: State, slot: Slot, c: Consumer): (Slot, Consumer)
    requires c.Claim?
  {
    var Claim(call, attempt, claim) := c;
    match claim
    case LoadTicket =>
      (slot,
       if s.latest == NO_TICKET || s.latest.seqno <= s.handle.last then Read(GotNothing(NoNewSample))
       else if s.latest.slot >= SLOTS then Read(GotNothing(CorruptSlot))
       else c.(claim := ClaimCas(s.latest)))
    case ClaimCas(t) =>
      if slot.state == Published then (slot.(state := ReadingClaiming), c.(claim := MarkEpoch(t)))
      else (slot, NextAttempt(call, attempt))
    case MarkEpoch(t) => (slot.(epoch := s.handle.role), c.(claim := MarkReading(t)))
    case MarkReading(t) => (slot.(state := Reading), c.(claim := LoadSequence(t)))
    case LoadSequence(t) => (slot, c.(claim := Recheck(t, slot.seqno)))
    case Recheck(t, q) =>
      (slot,
       if s.latest != Ticket(q, t.slot) then Release(t.slot, false, Retry(call, attempt))
       else Check(call, t.slot, q))
  }

  /** The caller decodes its own copy, once the slot is released. */
  function Decoded(codec: Payload -> bool, got: Got): Got {
    if got.Got? && !codec(got.sample.data) then GotNothing(DecodeFailed(got.seqno)) else got
  }

  /** `slot_release_read` */
  function ReleaseNext(codec: Payload -> bool, slot: Slot, c: Consumer): (Slot, Consumer)
    requires c.Release?
  {
    if !c.zeroed then (slot.(epoch := 0), c.(zeroed := true))
    else
      (slot.(state := Published),
       match c.after
       case Retry(call, attempt) => NextAttempt(call, attempt)
       case Finish(got) => Read(Decoded(codec, got)))
  }

  /** `reclaim_dead_consumer_slots`, run by the next opener. */
  function ReclaimNext(s: State, slot: Slot, c: Consumer): (Slot, Consumer)
    requires c.Reclaim?
  {
    var Reclaim(i, step) := c;
    var on := if i + 1 < SLOTS then Reclaim(i + 1, LoadState) else Open(OpenOdd);
    match step
    case LoadState =>
      (slot, if slot.state == ReadingClaiming || slot.state == Reading then Reclaim(i, LoadEpoch(slot.state)) else on)
    case LoadEpoch(st) =>
      (slot,
       if (if st == ReadingClaiming then slot.epoch != 0 && slot.epoch != s.epoch else slot.epoch != s.epoch)
       then Nobody else Reclaim(i, Zero))
    case Zero => (slot.(epoch := 0), Reclaim(i, Store))
    case Store => (slot.(state := Published), on)
  }

  // ----- The transition relation -----

  /**
   `owned` says the producer still owns the instance, `clock` that the clock works; a commit that
   fails either way is an abort.
   */
  datatype ProducerAct =
    | Publish(sample: Sample, owned: bool, clock: bool)
    | Borrow(owned: bool)
    | Fill(k: nat, v: nat)
    | Commit(boot: nat)
    | Abort
    | Write1
    | Return
    | Crash

  /** `clock` says the clock works. */
  datatype ConsumerAct =
    | Enter
    | BeginRead(lends: bool)
    | Read1(clock: bool)
    | ReturnLoan
    | Leave
    | Shutdown
    | Die

  datatype Action = Producing(p: ProducerAct) | Consuming(c: ConsumerAct)

  function WithSlot(s: State, i: nat, slot: Slot): State
    requires i < |s.slots|
  {
    s.(slots := s.slots[i := slot])
  }

  /** The producer's next access. */
  predicate ProducerRuns(s: State) {
    match s.prod
    case Seize(_, _, _, i, _) => i < SLOTS
    case Write(kind, _, i, _, at) =>
      i < SLOTS && (at.CopyByte? ==> kind.Whole? && at.k < |kind.sample.data| == s.width)
    case Undo(i) => i < SLOTS
    case _ => s.prod.LoadLatest? || s.prod.Search?
  }

  function SeizeStep(s: State): State
    requires s.prod.Seize? && s.prod.i < |s.slots|
  {
    var (slot1, p1) := SeizeNext(s.slots[s.prod.i], s.prod);
    WithSlot(s, s.prod.i, slot1).(prod := p1)
  }

  function WriteStep(s: State): State
    requires Formed(s) && s.prod.Write? && ProducerRuns(s) && !s.prod.at.StoreTicket?
  {
    var (slot1, p1) := WriteNext(s.sum, s.slots[s.prod.i], s.prod);
    WithSlot(s, s.prod.i, slot1).(prod := p1)
  }

  /** The ticket store: the sample is now the channel's latest. */
  function TicketStep(s: State): State
    requires s.prod.Write? && s.prod.i < |s.slots|
  {
    var slot := s.slots[s.prod.i];
    s.(latest := Ticket(s.prod.next, s.prod.i), prod := Sent(SentOk(s.prod.next)),
       samples := s.samples + [Sample(slot.data, slot.boot)])
  }

  /** `slot_abort_write` */
  function UndoStep(s: State): State
    requires s.prod.Undo? && s.prod.i < |s.slots|
  {
    WithSlot(s, s.prod.i, s.slots[s.prod.i].(state := Free)).(prod := Sent(Aborted))
  }

  function ProducerNext(s: State): State
    requires Formed(s) && ProducerRuns(s)
  {
    match s.prod
    case Undo(_) => UndoStep(s)
    case Write(_, _, _, _, at) => if at.StoreTicket? then TicketStep(s) else WriteStep(s)
    case Seize(_, _, _, _, _) => SeizeStep(s)
    case _ => s.(prod := SearchNext(s, s.prod))
  }

  predicate ProducerEnabled(s: State, p: ProducerAct) {
    && Formed(s)
    && match p
       case Publish(_, _, _) => s.prod.Ready?
       case Borrow(_) => s.prod.Ready?
       case Fill(k, _) => s.prod.Loan? && s.prod.i < SLOTS && k < s.width
       case Commit(_) => s.prod.Loan?
       case Abort => s.prod.Loan?
       case Write1 => ProducerRuns(s)
       case Return => s.prod.Sent?
       case Crash => true
  }

  function Produce(s: State, p: ProducerAct): State
    requires ProducerEnabled(s, p)
  {
    match p
    case Publish(sample, owned, clock) =>
      s.(prod := if |sample.data| != s.width then Sent(SizeDrift)
                 else if !owned then Sent(NotOwner)
                 else LoadLatest(Whole(sample), clock))
    case Borrow(owned) => s.(prod := if !owned then Sent(NotOwner) else LoadLatest(Lent, true))
    case Fill(k, v) =>
      var slot := s.slots[s.prod.i];
      WithSlot(s, s.prod.i, slot.(data := slot.data[k := v]))
    case Commit(boot) => s.(prod := Write(Lent, s.prod.next, s.prod.i, boot, StoreSize))
    case Abort => s.(prod := Undo(s.prod.i))
    case Write1 => ProducerNext(s)
    case Return => s.(prod := Ready)
    case Crash => s.(prod := Stopped)
  }

  /** The consumer's next access. */
  predicate ConsumerRuns(s: State) {
    match s.cons
    case Reclaim(i, _) => i < SLOTS
    case Open(_) => true
    case CopyOut(i, _, _, buf) => i < SLOTS && |buf| < s.width
    case _ => Claiming(s.cons) && SlotOf(s.cons) < SLOTS
  }

  function ReclaimStep(s: State): State
    requires s.cons.Reclaim? && s.cons.i < |s.slots|
  {
    var (slot1, c1) := ReclaimNext(s, s.slots[s.cons.i], s.cons);
    WithSlot(s, s.cons.i, slot1).(cons := c1)
  }

  function ReleaseStep(s: State): State
    requires s.cons.Release? && s.cons.i < |s.slots|
  {
    var (slot1, c1) := ReleaseNext(s.codec, s.slots[s.cons.i], s.cons);
    WithSlot(s, s.cons.i, slot1).(cons := c1)
  }

  function ClaimStep(s: State): State
    requires s.cons.Claim? && SlotOf(s.cons) < |s.slots|
  {
    var (slot1, c1) := ClaimNext(s, s.slots[SlotOf(s.cons)], s.cons);
    WithSlot(s, SlotOf(s.cons), slot1).(cons := c1)
  }

  /** `identity_snapshot_write` around the new consumer's identity, and going online. */
  function OpenStep(s: State): State
    requires s.cons.Open?
  {
    match s.cons.open
    case OpenOdd =>
      if !Even(s.epoch) || s.epoch > U64_MAX - 2 then s.(cons := Nobody)
      else s.(epoch := s.epoch + 1, cons := Open(OpenEven))
    case OpenEven => s.(epoch := s.epoch + 1, cons := Open(OpenOnline))
    case OpenOnline => s.(online := true, cons := Rest, handle := Handle(s.epoch, 0, true), taken := [])
  }

  /**
   The checks after a successful claim, and what the handle remembers of it.  The slot is read in
   one step, since nothing in it can change while it is held.  The caller's buffer has the size the
   channel was opened with, so the sample always fits it.
   */
  function CheckStep(s: State, clock: bool): State
    requires s.cons.Check? && s.cons.i < |s.slots|
  {
    var Check(call, i, q) := s.cons;
    var slot := s.slots[i];
    if slot.size != s.width then s.(cons := Release(i, false, Finish(GotNothing(PayloadCorrupt))))
    else if !clock then s.(cons := Release(i, false, Finish(GotNothing(ClockAnomaly))))
    else if s.sum(slot.data) != slot.sum then s.(cons := Release(i, false, Finish(GotNothing(PayloadCorrupt))))
    else
      var missed := if s.handle.first then 0 else Gap(s.handle.last, q);
      var c1 :=
        if call.lends then Lending(i, q)
        else if s.width == 0 then Release(i, false, Finish(Got(q, Sample([], slot.boot))))
        else CopyOut(i, q, slot.boot, []);
      s.(handle := s.handle.(last := q, first := false), taken := s.taken + [Taken(q, missed, call.lends)],
         cons := c1)
  }

  function CopyStep(s: State): State
    requires Formed(s) && s.cons.CopyOut? && s.cons.i < SLOTS && |s.cons.buf| < s.width
  {
    var CopyOut(i, q, boot, buf) := s.cons;
    var buf1 := buf + [s.slots[i].data[|buf|]];
    s.(cons := if |buf1| < s.width then CopyOut(i, q, boot, buf1)
               else Release(i, false, Finish(Got(q, Sample(buf1, boot)))))
  }

  function ConsumerNext(s: State, clock: bool): State
    requires Formed(s) && ConsumerRuns(s)
  {
    match s.cons
    case Reclaim(_, _) => ReclaimStep(s)
    case Open(_) => OpenStep(s)
    case Check(_, _, _) => CheckStep(s, clock)
    case CopyOut(_, _, _, _) => CopyStep(s)
    case Release(_, _, _) => ReleaseStep(s)
    case Claim(_, _, _) => ClaimStep(s)
  }

  predicate ConsumerEnabled(s: State, c: ConsumerAct) {
    && Formed(s)
    && match c
       case Enter => s.cons.Nobody?
       case BeginRead(_) => s.cons.Rest?
       case Read1(_) => ConsumerRuns(s)
       case ReturnLoan => s.cons.Lending?
       case Leave => s.cons.Read?
       case Shutdown => s.cons.Rest?
       case Die => true
  }

  function Consume(s: State, c: ConsumerAct): State
    requires ConsumerEnabled(s, c)
  {
    match c
    case Enter =>
      s.(cons := if !Even(s.epoch) then Nobody else if s.online then Reclaim(0, LoadState) else Open(OpenOdd))
    case BeginRead(lends) => s.(cons := Claim(Call(lends, |s.samples|), 0, LoadTicket))
    case Read1(clock) => ConsumerNext(s, clock)
    case ReturnLoan => s.(cons := Release(s.cons.i, false, Finish(GotLoan(s.cons.q))))
    case Leave => s.(cons := Rest)
    case Shutdown => s.(online := false, cons := Nobody)
    case Die => s.(cons := Nobody)
  }

  predicate Enabled(s: State, act: Action) {
    match act
    case Producing(p) => ProducerEnabled(s, p)
    case Consuming(c) => ConsumerEnabled(s, c)
  }

  function Next(s: State, act: Action): State
    requires Enabled(s, act)
  {
    match act
    case Producing(p) => Produce(s, p)
    case Consuming(c) => Consume(s, c)
  }

  ghost predicate Init(s: State) {
    && Formed(s)
    && (forall i | 0 <= i < SLOTS :: s.slots[i].state == Free && s.slots[i].epoch == 0)
    && s.latest == NO_TICKET && s.epoch == 0 && !s.online
    && s.prod == Ready && s.cons == Nobody
    && s.samples == [] && s.taken == [] && s.handle == Handle(0, 0, true)
  }

  ghost predicate IsRun(run: seq<State>, acts: seq<Action>) {
    && |run| == |acts| + 1
    && Init(run[0])
    && (forall i | 0 <= i < |acts| :: Enabled(run[i], acts[i]) && run[i + 1] == Next(run[i], acts[i]))
  }
}
