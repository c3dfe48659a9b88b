/** What every step of the latest-value channel keeps. */
module ChannelInvariant {
  import opened Words
  import opened Channel

  predicate Held(st: SlotState) {
    st == ReadingClaiming || st == Reading
  }

  /** The slot a consumer has claimed and not yet let go. */
  function Holds(c: Consumer): Option<nat> {
    match c
    case Claim(_, _, claim) => if claim.LoadTicket? || claim.ClaimCas? then None else Some(claim.t.slot)
    case Check(_, i, _) => Some(i)
    case CopyOut(i, _, _, _) => Some(i)
    case Lending(i, _) => Some(i)
    case Release(i, _, _) => Some(i)
    case _ => None
  }

  /** The slot a consumer holds or is about to claim. */
  function Target(c: Consumer): Option<nat> {
    if c.Claim? && c.claim.ClaimCas? then Some(c.claim.t.slot) else Holds(c)
  }

  /** The slot is neither held nor about to be claimed. */
  predicate Away(s: State, m: nat)
    requires m < |s.slots|
  {
    !Held(s.slots[m].state) && Target(s.cons) != Some(m)
  }

  /** The slot holds sample `q`, whole. */
  predicate Intact(slot: Slot, q: nat, samples: seq<Sample>, sum: Payload -> nat) {
    && slot.seqno == q && 0 < q <= |samples|
    && Sample(slot.data, slot.boot) == samples[q - 1]
    && slot.sum == sum(slot.data) && slot.size == |slot.data|
  }

  /** The ticket names the newest sample, and its slot holds that sample and is not being written. */
  predicate Newest(s: State)
    requires |s.slots| == SLOTS
  {
    && |s.samples| <= MAX_SEQUENCE
    && (s.latest == NO_TICKET <==> s.samples == [])
    && (s.latest != NO_TICKET ==>
          var i := s.latest.slot;
          && i < SLOTS
          && s.latest.seqno == |s.samples|
          && s.slots[i].state != Free && s.slots[i].state != Writing
          && Intact(s.slots[i], |s.samples|, s.samples, s.sum))
  }

  // ----- The producer's side -----

  /** The slot the producer has seized and not yet published or freed. */
  function Writes(p: Producer): Option<nat> {
    match p
    case Loan(_, i) => Some(i)
    case Write(_, _, i, _, at) => if at.StoreTicket? then None else Some(i)
    case Undo(i) => Some(i)
    case _ => None
  }

  predicate Fresh(s: State, next: nat) {
    next == |s.samples| + 1 <= MAX_SEQUENCE
  }

  /** Slot `j` was passed over: no slot but `j` and the current one can be held now. */
  predicate Passed(s: State, j: nat)
    requires |s.slots| == SLOTS
  {
    forall m | 0 <= m < SLOTS && m != CurrentSlot(s) && m != j :: Away(s, m)
  }

  /**
   The search so far.  At most one slot other than the current one has been passed over; if one
   was, the consumer held it or was about to, and can reach no other slot but the current one.
   */
  predicate SearchOk(s: State, next: nat, cur: nat, i: nat)
    requires |s.slots| == SLOTS
  {
    && Fresh(s, next) && cur == CurrentSlot(s)
    && i < SLOTS && !(i == 2 && cur == 2)
    && (s.latest == NO_TICKET ==> i == 0)
    && (forall j | 0 <= j < i && j != cur :: Passed(s, j))
  }

  /** How far a sample has got into its slot. */
  predicate WriteOk(s: State, slot: Slot, p: Producer)
    requires p.Write? && |slot.data| == s.width
  {
    var Write(kind, next, i, boot, at) := p;
    && (kind.Whole? ==> |kind.sample.data| == s.width && kind.sample.boot == boot)
    && (!at.StoreSize? ==> slot.size == |slot.data|)
    && (!at.StoreSize? && !at.StoreSequence? ==> slot.seqno == next)
    && (!at.StoreSize? && !at.StoreSequence? && !at.StoreBoot? ==> slot.boot == boot)
    && (at.CopyByte? ==> kind.Whole? && at.k < s.width && slot.data[..at.k] == kind.sample.data[..at.k])
    && (at.StoreSum? || at.StorePublished? || at.StoreTicket? ==> kind.Whole? ==> slot.data == kind.sample.data)
    && (at.StorePublished? || at.StoreTicket? ==> slot.sum == s.sum(slot.data))
    && (if at.StoreTicket? then slot.state == Published || Held(slot.state) else slot.state == Writing)
  }

  predicate ProdOk(s: State)
    requires Formed(s)
  {
    match s.prod
    case Ready => true
    case LoadLatest(kind, clock) => if kind.Whole? then |kind.sample.data| == s.width else clock
    case Search(kind, next, cur, i) => (kind.Whole? ==> |kind.sample.data| == s.width) && SearchOk(s, next, cur, i)
    case Seize(kind, next, cur, i, observed) =>
      && (kind.Whole? ==> |kind.sample.data| == s.width)
      && SearchOk(s, next, cur, i) && i != cur
      && (if observed == Free then s.slots[i].state == Free
          else observed == Published && (s.slots[i].state == Published || Held(s.slots[i].state)))
    case Loan(next, i) => Fresh(s, next) && i < SLOTS && i != CurrentSlot(s) && s.slots[i].state == Writing
    case Write(_, next, i, _, _) =>
      Fresh(s, next) && i < SLOTS && i != CurrentSlot(s) && WriteOk(s, s.slots[i], s.prod)
    case Undo(i) => i < SLOTS && i != CurrentSlot(s) && s.slots[i].state == Writing
    case Sent(sent) =>
      sent != NoWritableSlot && (sent.SentOk? ==> 0 < sent.seqno == |s.samples|)
    case Stopped => true
  }

  // ----- The consumer's side -----

  predicate NoneHeld(slots: seq<Slot>)
    requires |slots| == SLOTS
  {
    forall i | 0 <= i < SLOTS :: !Held(slots[i].state)
  }

  predicate OnlyHeld(slots: seq<Slot>, h: nat)
    requires |slots| == SLOTS
  {
    h < SLOTS && Held(slots[h].state) && forall i | 0 <= i < SLOTS && i != h :: !Held(slots[i].state)
  }

  /** The registered consumer is alive and knows its own role epoch. */
  predicate Live(s: State) {
    s.online && Even(s.epoch) && s.handle.role == s.epoch
  }

  predicate GotOk(s: State, got: Got) {
    match got
    case Got(q, sample) => 0 < q <= |s.samples| && sample == s.samples[q - 1]
    case GotLoan(q) => 0 < q <= |s.samples|
    case GotNothing(why) =>
      && !why.PayloadCorrupt? && !why.CorruptSlot?
      && (why.ReadContention? ==> why.base + MAX_ATTEMPTS <= |s.samples|)
      && (why.DecodeFailed? ==> 0 < why.seqno <= |s.samples| && !s.codec(s.samples[why.seqno - 1].data))
  }

  /** A ticket loaded on this attempt, after at least `attempt` publishes since the call began. */
  predicate TicketOk(s: State, call: Call, attempt: nat, t: Ticket) {
    && t != NO_TICKET && t.slot < SLOTS
    && call.base + attempt <= t.seqno <= |s.samples|
    && s.handle.last < t.seqno
    && (t.seqno == |s.samples| ==> t == s.latest)
  }

  predicate ClaimOk(s: State, c: Consumer)
    requires Formed(s) && c.Claim?
  {
    var Claim(call, attempt, claim) := c;
    && attempt < MAX_ATTEMPTS
    && match claim
       case LoadTicket => NoneHeld(s.slots) && call.base + attempt <= |s.samples|
       case ClaimCas(t) => NoneHeld(s.slots) && TicketOk(s, call, attempt, t)
       case _ =>
         var t := claim.t;
         && TicketOk(s, call, attempt, t) && OnlyHeld(s.slots, t.slot)
         && var slot := s.slots[t.slot];
            && slot.state == (if claim.MarkEpoch? || claim.MarkReading? then ReadingClaiming else Reading)
            && (if claim.MarkEpoch? then slot.epoch == 0 else slot.epoch == s.epoch)
            && (claim.Recheck? ==> slot.seqno == claim.q)
  }

  predicate ReadingOk(slots: seq<Slot>, i: nat, epoch: nat)
    requires |slots| == SLOTS
  {
    OnlyHeld(slots, i) && slots[i].state == Reading && slots[i].epoch == epoch
  }

  predicate ConsOk(s: State)
    requires Formed(s)
  {
    match s.cons
    case Nobody =>
      if s.online && Even(s.epoch) then AtMostOneHeld(s.slots) && Known(s.slots, s.epoch) else NoneHeld(s.slots)
    case Reclaim(i, step) =>
      && s.online && Even(s.epoch) && i < SLOTS && AtMostOneHeld(s.slots) && Known(s.slots, s.epoch)
      && (forall j | 0 <= j < i :: !Held(s.slots[j].state))
      && (step.LoadEpoch? ==> s.slots[i].state == step.st && Held(step.st))
      && (step.Zero? || step.Store? ==> Held(s.slots[i].state))
      && (step.Zero? && s.slots[i].state == Reading ==> s.slots[i].epoch == s.epoch)
      && (step.Store? ==> s.slots[i].epoch == 0)
    case Open(open) =>
      && NoneHeld(s.slots) && (open.OpenOnline? ==> 0 < s.epoch)
      && (if open.OpenEven? then !Even(s.epoch) && s.epoch < U64_MAX else Even(s.epoch))
    case Rest => Live(s) && NoneHeld(s.slots)
    case Claim(_, _, _) => Live(s) && ClaimOk(s, s.cons)
    case Check(call, i, q) =>
      && Live(s) && ReadingOk(s.slots, i, s.epoch) && Intact(s.slots[i], q, s.samples, s.sum)
      && s.handle.last < q && call.base <= q
    case CopyOut(i, q, boot, buf) =>
      && Live(s) && ReadingOk(s.slots, i, s.epoch) && Intact(s.slots[i], q, s.samples, s.sum)
      && |buf| < s.width && boot == s.slots[i].boot && buf == s.slots[i].data[..|buf|]
    case Lending(i, q) => Live(s) && ReadingOk(s.slots, i, s.epoch) && Intact(s.slots[i], q, s.samples, s.sum)
    case Release(i, zeroed, after) =>
      && Live(s) && OnlyHeld(s.slots, i) && s.slots[i].state == Reading
      && s.slots[i].epoch == (if zeroed then 0 else s.epoch)
      && (match after
          case Retry(call, attempt) => attempt < MAX_ATTEMPTS && call.base + attempt + 1 <= |s.samples|
          case Finish(got) => GotOk(s, got))
    case Read(got) => Live(s) && NoneHeld(s.slots) && GotOk(s, got) && (got.Got? ==> s.codec(got.sample.data))
  }

  predicate AtMostOneHeld(slots: seq<Slot>)
    requires |slots| == SLOTS
  {
    forall i, j | 0 <= i < SLOTS && 0 <= j < SLOTS && Held(slots[i].state) && Held(slots[j].state) :: i == j
  }

  /** Every held slot is marked with the registered role epoch or not marked at all. */
  predicate Known(slots: seq<Slot>, epoch: nat)
    requires |slots| == SLOTS
  {
    forall i | 0 <= i < SLOTS && Held(slots[i].state) :: slots[i].epoch == 0 || slots[i].epoch == epoch
  }

  predicate SlotsOk(s: State)
    requires |s.slots| == SLOTS
  {
    forall i | 0 <= i < SLOTS ::
      && (!Held(s.slots[i].state) ==> s.slots[i].epoch == 0)
      && (s.slots[i].state == Writing ==> Writes(s.prod) == Some(i) || s.prod.Stopped?)
      && (Held(s.slots[i].state) ==> s.latest != NO_TICKET)
  }

  // ----- Loss accounting -----

  /** Sequences rise, and each gap is reported. */
  predicate Accounted(taken: seq<Taken>) {
    && (taken != [] ==> taken[0].missed == 0)
    && (forall k | 0 < k < |taken| ::
          taken[k - 1].seqno < taken[k].seqno && taken[k].missed == taken[k].seqno - taken[k - 1].seqno - 1)
  }

  predicate Accounts(s: State) {
    && Accounted(s.taken)
    && (s.handle.first <==> s.taken == [])
    && s.handle.last == (if s.taken == [] then 0 else s.taken[|s.taken| - 1].seqno)
    && s.handle.last <= |s.samples|
    && s.epoch <= U64_MAX && (s.online ==> 0 < s.epoch)
  }

  predicate Inv(s: State) {
    Formed(s) && Newest(s) && SlotsOk(s) && ProdOk(s) && ConsOk(s) && Accounts(s)
  }
}
