/**
 The bounded multi-producer multi-consumer queue, one shared-memory access per step.

 Any number of actors run `try_push` and `try_pop` concurrently.  An actor's program counter
 names the next shared access it will make; the step makes that access and the local
 computation up to the following one.  A crashed actor takes no further step.

 Owner identity words are left to module `OwnerCell`, and read-only diagnosis
 (`gate_busy_result`, `owner_observation_is_unrecoverable`) appears as a step that ends the
 call with any error such a diagnosis may report.
 */
module Mpmc {
  import opened Words

  type Actor = nat

  /** A message, as the words a `memcpy` moves one at a time. */
  type Payload = seq<nat>

  const RETRIES: nat := 4
  const MAX_CAPACITY: nat := 4096
  const NOTIFY_WRAP: nat := 0x1_0000_0000

  datatype Side = Enq | Deq

  /** `MpmcLockState` */
  datatype Lock = Free | Claiming | Owned | Exhausted | Fault

  datatype Gate = Gate(lock: Lock, epoch: nat)

  /** `MpmcSlotState` */
  datatype SlotState =
    | SlotFree
    | EnqueueClaiming
    | EnqueueOwned
    | Ready
    | DequeueClaiming
    | DequeueOwned
    | SlotExhausted
    | SlotFault

  datatype Slot = Slot(sequence: nat, state: SlotState, ticket: nat, epoch: nat, data: Payload)

  datatype Op = Push(msg: Payload) | Pop(buf: Payload)

  /** Why a call fails: one value for each error return of the two operations. */
  datatype Reason =
    | Contention
    | QueueFull
    | QueueEmpty
    | ConcurrentUse
    | RecoveryBlocked
    | DequeueGateExhausted
    | BudgetExhausted
    | PositionsInconsistent
    | TicketExhausted
    | GateEpochExhausted
    | GateEpochCorrupt
    | SlotInconsistent
    | SlotEpochExhausted
    | SlotEpochCorrupt
    | SlotContention

  datatype Outcome = Ok(ticket: nat) | Err(reason: Reason)

  /** What a position snapshot is taken for. */
  datatype Site =
    | Early
    | Gated
    | Refresh(gated: bool, e: nat, d: nat, round: nat, budget: nat, drained: nat)

  /** What a drain budget is read for. */
  datatype Need =
    | Admit(gated: bool, e: nat, d: nat, round: nat)
    | BeforeClaim

  /**
   The loads of one attempt of `snapshot_queue_positions`.  `atDeq` is a history value: the
   enqueue position at the moment the dequeue position was first loaded.
   */
  datatype SnapAt =
    | LoadEnq1
    | LoadDeq1(e1: nat)
    | LoadEnq2(e1: nat, d1: nat, atDeq: nat)
    | LoadDeq2(e1: nat, d1: nat, atDeq: nat, e2: nat)

  /**
   The loads of one attempt of `dequeue_drain_budget`.  `drainedAt` is a history value: the
   dequeue position at the moment the gate was loaded the second time.
   */
  datatype DrainAt =
    | LoadLock1
    | LoadEpoch1
    | LoadLock2(ep: nat)
    | LoadEpoch2(ep: nat, lock2: Lock, drainedAt: nat)

  /** `commit_claimed_gate` */
  datatype CommitAt =
    | BeginLoad
    | BeginCas(cur: nat)
    | SetOwner(cur: nat)
    | StoreEpoch(cur: nat)
    | StoreOwned
    | Refuse(why: Reason)

  /** What an operation does to the slot of its ticket, in order. */
  datatype WorkAt =
    | CheckSequence
    | CheckState
    | Examine
    | CheckEpoch
    | Retire(why: Reason)
    | ClaimSlot
    | SlotBeginLoad
    | SlotBeginCas(cur: nat)
    | Abandon(why: Reason)
    | SlotSetOwner(cur: nat)
    | SlotStoreEpoch(cur: nat)
    | SlotStoreOwned
    | CopyWord(i: nat)
    | StoreSequence
    | StoreState
    | StorePosition

  /** The next shared access of an actor, with its registers.  `idle` says the positions showed nothing to do. */
  datatype Pc =
    | Idle
    | Snap(op: Op, site: Site, tries: nat, snap: SnapAt)
    | Drain(op: Op, need: Need, tries: nat, drain: DrainAt)
    | Diagnose(op: Op, gated: bool, idle: bool)
    | Claim(op: Op, loaded: bool)
    | Commit(op: Op, t: nat, commit: CommitAt)
    | Work(op: Op, t: nat, work: WorkAt)
    | Unlock(op: Op, res: Outcome)
    | Notify(op: Op, res: Outcome)
    | Done(op: Op, res: Outcome)

  /** `call` numbers the calls an actor has made. */
  datatype Proc = Proc(call: nat, pc: Pc)

  /** One message in the order its position store committed it. */
  datatype Entry = Entry(actor: Actor, call: nat, msg: Payload)

  /**
   Shared memory (`capacity` to `notify`), the actors, and history: who is inside each gate,
   what was committed and what was delivered.
   */
  datatype State = State(
    capacity: nat, width: nat,
    enq: nat, deq: nat,
    enqGate: Gate, deqGate: Gate,
    slots: seq<Slot>,
    notify: nat,
    procs: map<Actor, Proc>,
    crashed: set<Actor>,
    enqHolder: Option<Actor>, deqHolder: Option<Actor>,
    committed: seq<Entry>, delivered: seq<Entry>)

  // ----- Accessors -----

  function SideOf(op: Op): Side {
    if op.Push? then Enq else Deq
  }

  function MsgOf(op: Op): Payload {
    if op.Push? then op.msg else op.buf
  }

  function ProcOf(s: State, a: Actor): Proc {
    if a in s.procs then s.procs[a] else Proc(0, Idle)
  }

  function PcOf(s: State, a: Actor): Pc {
    ProcOf(s, a).pc
  }

  function At(s: State, a: Actor, pc: Pc): State {
    s.(procs := s.procs[a := Proc(ProcOf(s, a).call, pc)])
  }

  function GateAt(s: State, side: Side): Gate {
    if side.Enq? then s.enqGate else s.deqGate
  }

  function WithGate(s: State, side: Side, g: Gate): State {
    if side.Enq? then s.(enqGate := g) else s.(deqGate := g)
  }

  function WithHolder(s: State, side: Side, h: Option<Actor>): State {
    if side.Enq? then s.(enqHolder := h) else s.(deqHolder := h)
  }

  predicate Formed(s: State) {
    && 0 < s.capacity <= MAX_CAPACITY
    && 0 < s.width
    && |s.slots| == s.capacity
    && (forall i | 0 <= i < |s.slots| :: |s.slots[i].data| == s.width)
  }

  /** `slot_at`: the ring slot of a ticket. */
  function SlotAt(s: State, t: nat): Slot
    requires Formed(s)
  {
    s.slots[t % s.capacity]
  }

  function WithSlot(s: State, t: nat, slot: Slot): State
    requires Formed(s)
  {
    s.(slots := s.slots[t % s.capacity := slot])
  }

  predicate OpFormed(op: Op, width: nat) {
    op.Push? ==> |op.msg| == width
  }

  // ----- Pieces of the protocol that differ between the two sides -----

  function Before(op: Op): SlotState {
    if op.Push? then SlotFree else Ready
  }

  function ClaimState(op: Op): SlotState {
    if op.Push? then EnqueueClaiming else DequeueClaiming
  }

  function OwnState(op: Op): SlotState {
    if op.Push? then EnqueueOwned else DequeueOwned
  }

  function After(op: Op): SlotState {
    if op.Push? then Ready else SlotFree
  }

  function SeqBefore(op: Op, t: nat): nat {
    if op.Push? then t else t + 1
  }

  function SeqAfter(op: Op, t: nat, capacity: nat): nat {
    if op.Push? then t + 1 else t + capacity
  }

  function Reserve(op: Op): nat {
    if op.Push? then 4 else 2
  }

  function Budget(epoch: nat): nat
    requires epoch <= MAX_EPOCH
  {
    (MAX_EPOCH - epoch) / 2
  }

  /** Ends a call with an error, releasing the gate first when it is held. */
  function Fail(op: Op, gated: bool, why: Reason): Pc {
    if gated then Unlock(op, Err(why)) else Done(op, Err(why))
  }

  predicate PositionsBad(e: nat, d: nat, capacity: nat) {
    e < d || e - d > capacity
  }

  /** `mpmc_checked_ticket_bounds` */
  predicate TicketFits(t: nat, capacity: nat) {
    t + 1 <= U64_MAX && t + capacity <= U64_MAX
  }

  // ----- snapshot_queue_positions and what each caller does with it -----

  function GatedSite(site: Site): bool {
    site.Gated? || (site.Refresh? && site.gated)
  }

  function GatedNeed(need: Need): bool {
    need.Admit? && need.gated
  }

  /** The first look at the positions, before any gate is claimed. */
  function EarlySnapshot(op: Op, capacity: nat, e: nat, d: nat): Pc {
    if PositionsBad(e, d, capacity) then Fail(op, false, PositionsInconsistent)
    else if !TicketFits(if op.Push? then e else d, capacity) then Fail(op, false, TicketExhausted)
    else if op.Push? then
      if e - d == capacity then Diagnose(op, false, true) else Drain(op, Admit(false, e, d, 0), 0, LoadLock1)
    else
      if d == e then Diagnose(op, false, true) else Drain(op, BeforeClaim, 0, LoadLock1)
  }

  /** The second look, inside the gate. */
  function GatedSnapshot(op: Op, capacity: nat, e: nat, d: nat): Pc {
    if PositionsBad(e, d, capacity) then Fail(op, true, PositionsInconsistent)
    else if !TicketFits(if op.Push? then e else d, capacity) then Fail(op, true, TicketExhausted)
    else if op.Push? then
      if e - d == capacity then Diagnose(op, true, true) else Drain(op, Admit(true, e, d, 0), 0, LoadLock1)
    else
      if d == e then Diagnose(op, true, true) else Commit(op, d, BeginLoad)
  }

  /** The refresh that closes one round of `validate_push_drain_admission`. */
  function RefreshedSnapshot(op: Op, capacity: nat, site: Site, e: nat, d: nat): Pc
    requires site.Refresh?
  {
    var gated := site.gated;
    if e != site.e || d != site.d then
      if site.round + 1 >= RETRIES then Fail(op, gated, Contention)
      else if PositionsBad(e, d, capacity) then Fail(op, gated, PositionsInconsistent)
      else Drain(op, Admit(gated, e, d, site.round + 1), 0, LoadLock1)
    else if e < d || e - d + 1 > site.budget then Fail(op, gated, BudgetExhausted)
    else if gated then Work(op, e, CheckSequence)
    else Claim(op, false)
  }

  function Snapshotted(op: Op, capacity: nat, site: Site, e: nat, d: nat): Pc {
    match site
    case Early => EarlySnapshot(op, capacity, e, d)
    case Gated => GatedSnapshot(op, capacity, e, d)
    case Refresh(_, _, _, _, _, _) => RefreshedSnapshot(op, capacity, site, e, d)
  }

  function SnapshotNext(s: State, pc: Pc): Pc
    requires pc.Snap?
  {
    var Snap(op, site, tries, snap) := pc;
    match snap
    case LoadEnq1 => pc.(snap := LoadDeq1(s.enq))
    case LoadDeq1(e1) => pc.(snap := LoadEnq2(e1, s.deq, s.enq))
    case LoadEnq2(e1, d1, atDeq) => pc.(snap := LoadDeq2(e1, d1, atDeq, s.enq))
    case LoadDeq2(e1, d1, _, e2) =>
      if e1 == e2 && d1 == s.deq then Snapshotted(op, s.capacity, site, e2, s.deq)
      else if tries + 1 < RETRIES then Snap(op, site, tries + 1, LoadEnq1)
      else Fail(op, GatedSite(site), Contention)
  }

  // ----- dequeue_drain_budget -----

  /** The reasons a budget read that finds no quiet gate can report. */
  function LockReason(lock: Lock): Reason {
    match lock
    case Exhausted => DequeueGateExhausted
    case Fault => RecoveryBlocked
    case _ => Contention
  }

  /** Retries the gate snapshot while attempts remain, and otherwise reports `why`. */
  function DrainAgain(op: Op, need: Need, tries: nat, why: Reason): Pc {
    if tries + 1 < RETRIES then Drain(op, need, tries + 1, LoadLock1)
    else Fail(op, GatedNeed(need), why)
  }

  function Budgeted(op: Op, capacity: nat, need: Need, budget: nat, drained: nat): Pc {
    match need
    case BeforeClaim =>
      if budget == 0 then Fail(op, false, BudgetExhausted) else Claim(op, false)
    case Admit(gated, e, d, round) =>
      if e >= d && e - d == capacity then Fail(op, gated, if budget == 0 then BudgetExhausted else QueueFull)
      else Snap(op, Refresh(gated, e, d, round, budget, drained), 0, LoadEnq1)
  }

  /** `retry` and `why` resolve what the owned branch of the gate snapshot goes on to observe. */
  function DrainNext(s: State, pc: Pc, retry: bool, why: Reason): Pc
    requires pc.Drain?
  {
    var Drain(op, need, tries, drain) := pc;
    match drain
    case LoadLock1 =>
      (match s.deqGate.lock
       case Free => pc.(drain := LoadEpoch1)
       case Owned => if retry then DrainAgain(op, need, tries, why) else Fail(op, GatedNeed(need), why)
       case lock => Fail(op, GatedNeed(need), LockReason(lock)))
    case LoadEpoch1 => pc.(drain := LoadLock2(s.deqGate.epoch))
    case LoadLock2(ep) => pc.(drain := LoadEpoch2(ep, s.deqGate.lock, s.deq))
    case LoadEpoch2(ep, lock2, drainedAt) =>
      if lock2 == Free && ep == s.deqGate.epoch then
        if !Even(ep) || ep > MAX_EPOCH then Fail(op, GatedNeed(need), RecoveryBlocked)
        else Budgeted(op, s.capacity, need, Budget(ep), drainedAt)
      else if lock2 == Free || lock2 == Owned then DrainAgain(op, need, tries, why)
      else Fail(op, GatedNeed(need), LockReason(lock2))
  }

  // ----- claim_gate, commit_claimed_gate, release_gate -----

  function ClaimStep(s: State, a: Actor, pc: Pc): State
    requires pc.Claim?
  {
    var op := pc.op;
    var side := SideOf(op);
    var g := GateAt(s, side);
    if !pc.loaded then
      if g.lock == Free then At(s, a, Claim(op, true)) else At(s, a, Diagnose(op, false, false))
    else if g.lock != Free then
      At(s, a, Done(op, Err(Contention)))
    else
      var s1 := WithHolder(WithGate(s, side, g.(lock := Claiming)), side, Some(a));
      if op.Push? then At(s1, a, Commit(op, 0, BeginLoad)) else At(s1, a, Snap(op, Gated, 0, LoadEnq1))
  }

  function CommitStep(s: State, a: Actor, pc: Pc): State
    requires pc.Commit?
  {
    var Commit(op, t, commit) := pc;
    var side := SideOf(op);
    var g := GateAt(s, side);
    match commit
    case BeginLoad =>
      (match EpochTest(g.epoch, 2, GateEpochExhausted, GateEpochCorrupt)
       case Some(reason) => At(s, a, pc.(commit := Refuse(reason)))
       case None => At(s, a, pc.(commit := BeginCas(g.epoch))))
    case BeginCas(cur) =>
      if g.epoch == cur then At(WithGate(s, side, g.(epoch := cur + 1)), a, pc.(commit := SetOwner(cur)))
      else At(s, a, pc.(commit := Refuse(GateEpochCorrupt)))
    case SetOwner(cur) => At(s, a, pc.(commit := StoreEpoch(cur)))
    case StoreEpoch(cur) => At(WithGate(s, side, g.(epoch := cur + 2)), a, pc.(commit := StoreOwned))
    case StoreOwned =>
      var s1 := WithGate(s, side, g.(lock := Owned));
      if op.Push? then At(s1, a, Snap(op, Gated, 0, LoadEnq1)) else At(s1, a, Work(op, t, CheckSequence))
    case Refuse(reason) =>
      var lock := if reason == GateEpochExhausted then Exhausted else Fault;
      At(WithHolder(WithGate(s, side, g.(lock := lock)), side, None), a, Done(op, Err(reason)))
  }

  // ----- The slot -----

  /** One access to the slot: the slot it leaves and where the operation goes on. */
  function WorkNext(slot: Slot, pc: Pc, capacity: nat, width: nat): (Slot, Pc)
    requires pc.Work? && PcFormed(pc, width) && |slot.data| == width && !pc.work.StorePosition?
  {
    var Work(op, t, work) := pc;
    match work
    case CheckSequence => (slot, pc.(work := if slot.sequence == SeqBefore(op, t) then CheckState else Examine))
    case CheckState => (slot, pc.(work := if slot.state == Before(op) then CheckEpoch else Examine))
    case Examine =>
      (slot, Unlock(op, Err(if slot.state == SlotExhausted then SlotEpochExhausted else SlotInconsistent)))
    case CheckEpoch =>
      (match EpochTest(slot.epoch, Reserve(op), SlotEpochExhausted, SlotEpochCorrupt)
       case None => (slot, pc.(work := ClaimSlot))
       case Some(reason) => (slot, if op.Push? then pc.(work := Retire(reason)) else Unlock(op, Err(reason))))
    case Retire(reason) =>
      (slot.(state := if reason == SlotEpochExhausted then SlotExhausted else SlotFault), Unlock(op, Err(reason)))
    case ClaimSlot =>
      if slot.state == Before(op) then (slot.(state := ClaimState(op)), pc.(work := SlotBeginLoad))
      else (slot, Unlock(op, Err(SlotContention)))
    case SlotBeginLoad =>
      (match EpochTest(slot.epoch, Reserve(op), SlotEpochExhausted, SlotEpochCorrupt)
       case None => (slot, pc.(work := SlotBeginCas(slot.epoch)))
       case Some(reason) => (slot, pc.(work := Abandon(reason))))
    case SlotBeginCas(cur) =>
      if slot.epoch == cur then (slot.(epoch := cur + 1), pc.(work := SlotSetOwner(cur)))
      else (slot, pc.(work := Abandon(SlotEpochCorrupt)))
    case Abandon(reason) =>
      var terminal := if op.Pop? then Ready else if reason == SlotEpochExhausted then SlotExhausted else SlotFault;
      (slot.(state := terminal), Unlock(op, Err(reason)))
    case SlotSetOwner(cur) => (slot.(ticket := t), pc.(work := SlotStoreEpoch(cur)))
    case SlotStoreEpoch(cur) => (slot.(epoch := cur + 2), pc.(work := SlotStoreOwned))
    case SlotStoreOwned => (slot.(state := OwnState(op)), Work(if op.Push? then op else Pop([]), t, CopyWord(0)))
    case CopyWord(i) =>
      var next := if i + 1 < width then CopyWord(i + 1) else StoreSequence;
      if op.Push? then (slot.(data := slot.data[i := op.msg[i]]), pc.(work := next))
      else (slot, Work(Pop(op.buf + [slot.data[i]]), t, next))
    case StoreSequence => (slot.(sequence := SeqAfter(op, t, capacity)), pc.(work := StoreState))
    case StoreState => (slot.(state := After(op)), pc.(work := StorePosition))
  }

  /** The store that makes a message visible, or a slot reusable. */
  function PositionStep(s: State, a: Actor, pc: Pc): State
    requires pc.Work? && pc.work.StorePosition?
  {
    var Work(op, t, _) := pc;
    var entry := Entry(a, ProcOf(s, a).call, MsgOf(op));
    var s1 :=
      if op.Push? then s.(enq := t + 1, committed := s.committed + [entry])
      else s.(deq := t + 1, delivered := s.delivered + [entry]);
    At(s1, a, Unlock(op, Ok(t)))
  }

  function WorkStep(s: State, a: Actor, pc: Pc): State
    requires Formed(s)
    requires pc.Work? && PcFormed(pc, s.width)
  {
    if pc.work.StorePosition? then PositionStep(s, a, pc)
    else
      var (slot, pc1) := WorkNext(SlotAt(s, pc.t), pc, s.capacity, s.width);
      At(WithSlot(s, pc.t, slot), a, pc1)
  }

  function ExitStep(s: State, a: Actor, pc: Pc, why: Reason): State
    requires pc.Diagnose? || pc.Unlock? || pc.Notify? || pc.Done?
  {
    match pc
    case Diagnose(op, gated, _) => At(s, a, Fail(op, gated, why))
    case Unlock(op, res) =>
      var side := SideOf(op);
      var s1 := WithHolder(WithGate(s, side, GateAt(s, side).(lock := Free)), side, None);
      At(s1, a, if res.Ok? then Notify(op, res) else Done(op, res))
    case Notify(op, res) => At(s.(notify := (s.notify + 1) % NOTIFY_WRAP), a, Done(op, res))
    case Done(_, _) => s.(procs := s.procs[a := Proc(ProcOf(s, a).call + 1, Idle)])
  }

  /**
   What a read-only diagnosis may report.  Only where the positions showed nothing to do, a full
   queue to a pusher or an empty one to a popper, may it say so; and it reports a dequeue gate that
   is exhausted, or out of budget, only of one that is.
   */
  predicate DiagnosisReason(s: State, pc: Pc, why: Reason) {
    || why == Contention
    || (why == RecoveryBlocked && (pc.Diagnose? || pc.Drain?))
    || (why == ConcurrentUse && pc.Diagnose?)
    || (pc.Diagnose? && pc.idle &&
        if pc.op.Push? then
          || why == QueueFull
          || (why == DequeueGateExhausted && s.deqGate.lock == Exhausted)
          || (&& why == BudgetExhausted && s.deqGate.lock == Free
              && s.deqGate.epoch <= MAX_EPOCH && Budget(s.deqGate.epoch) == 0)
        else why == QueueEmpty)
  }

  // ----- The transition relation -----

  predicate PcFormed(pc: Pc, width: nat) {
    && (pc.Idle? || OpFormed(pc.op, width))
    && (pc.Work? && pc.work.CopyWord? ==> pc.work.i < width)
  }

  /** One step of a running call. */
  function Run(s: State, a: Actor, retry: bool, why: Reason): State
    requires Formed(s) && PcFormed(PcOf(s, a), s.width) && !PcOf(s, a).Idle?
  {
    var pc := PcOf(s, a);
    if pc.Snap? then At(s, a, SnapshotNext(s, pc))
    else if pc.Drain? then At(s, a, DrainNext(s, pc, retry, why))
    else if pc.Claim? then ClaimStep(s, a, pc)
    else if pc.Commit? then CommitStep(s, a, pc)
    else if pc.Work? then WorkStep(s, a, pc)
    else ExitStep(s, a, pc, why)
  }

  function Start(s: State, a: Actor, op: Op): State {
    At(s, a, Snap(op, Early, 0, LoadEnq1))
  }

  datatype Action =
    | Begin(actor: Actor, op: Op)
    | Advance(actor: Actor, retry: bool, why: Reason)
    | Crash(actor: Actor)

  predicate Enabled(s: State, act: Action) {
    && Formed(s)
    && act.actor !in s.crashed
    && match act
       case Begin(a, op) => PcOf(s, a).Idle? && OpFormed(op, s.width) && (op.Pop? ==> op.buf == [])
       case Advance(a, _, why) =>
         && !PcOf(s, a).Idle? && PcFormed(PcOf(s, a), s.width)
         && DiagnosisReason(s, PcOf(s, a), why)
       case Crash(_) => true
  }

  function Next(s: State, act: Action): State
    requires Enabled(s, act)
  {
    match act
    case Begin(a, op) => Start(s, a, op)
    case Advance(a, retry, why) => Run(s, a, retry, why)
    case Crash(a) => s.(crashed := s.crashed + {a})
  }

  /** `mpmc_create_impl` */
  ghost predicate Init(s: State) {
    && Formed(s)
    && s.enq == 0 && s.deq == 0
    && s.enqGate == Gate(Free, 0) && s.deqGate == Gate(Free, 0)
    && (forall i | 0 <= i < s.capacity :: s.slots[i] == Slot(i, SlotFree, i, 0, s.slots[i].data))
    && s.notify == 0
    && s.procs == map[] && s.crashed == {}
    && s.enqHolder == None && s.deqHolder == None
    && s.committed == [] && s.delivered == []
  }

  ghost predicate IsRun(run: seq<State>, acts: seq<Action>) {
    && |run| == |acts| + 1
    && Init(run[0])
    && (forall i | 0 <= i < |acts| :: Enabled(run[i], acts[i]) && run[i + 1] == Next(run[i], acts[i]))
  }
}
