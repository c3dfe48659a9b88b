/**
 Creating, removing and recovering a named channel: the control journal and the shared object
 under the channel's name, rewritten step by step under the control lock.

 The lock admits one transaction at a time and is freed when its holder dies.  Any I/O step may
 fail; a journal write may also fail after taking effect.  The holder may die at any step, and the
 guards of a failed call undo what they can.  Liveness probes may always be inconclusive but never
 lie.  The object is identified by its inode; nothing else ever has the same one.
 */
module Journal {
  import opened Words

  type Proc = nat

  /** A created object has no bytes, then a bootstrap that is not ready, then one that is. */
  datatype Boot = Blank | Initializing | Ready

  datatype Object = Object(id: nat, boot: Boot, gen: nat, owner: Proc, online: bool)

  /** `JournalState` */
  datatype Phase = Idle | PreObject | Creating | Removing

  /** `ControlJournalV1`; a target of zero is none. */
  datatype Record = Record(phase: Phase, older: nat, newer: nat, target: nat, creator: Proc)

  /** What a handle remembers of its object. */
  datatype Handle = Handle(id: nat, gen: nat)

  /** `j` is the idle record the transaction started from, `g` the new generation. */
  datatype CreateAt =
    | ReadJournal
    | Probe(j: Record)
    | Look(j: Record)
    | Reset(j: Record)
    | Existing(j: Record)
    | UnlinkOld(j: Record, g: nat)
    | WritePre(j: Record, g: nat)
    | MakeObject(j: Record, g: nat)
    | Inspect(j: Record, g: nat, id: nat)
    | Retain(j: Record, g: nat, id: nat, captured: bool)
    | Unretain(j: Record)
    | WriteCreating(j: Record, g: nat, id: nat)
    | WriteBoot(j: Record, g: nat, id: nat)
    | StoreReady(j: Record, g: nat, id: nat)
    | WriteDone(j: Record, g: nat, id: nat)
    | UndoObject(j: Record)
    | UndoJournal(j: Record)

  datatype RemoveAt =
    | ReadForRemove
    | WriteRemoving(j: Record)
    | Unlink(j: Record)
    | WriteRemoved(j: Record)
    | UndoRemove(j: Record)

  datatype Pc = Free | Create(create: CreateAt) | Remove(h: Handle, remove: RemoveAt)

  /** What is on disk and in the name space. */
  datatype Disk = Disk(journal: Record, name: Option<Object>)

  /** `handles` are all the handles ever returned. */
  datatype World = World(disk: Disk, nextId: nat, dead: set<Proc>, handles: set<Handle>, pc: Pc, proc: Proc)

  datatype Io = Fine | Fails | FailsAfter

  datatype Liveness = Alive | Exited | Unverifiable

  predicate Truthful(w: World, p: Proc, liveness: Liveness) {
    (liveness.Alive? ==> p !in w.dead) && (liveness.Exited? ==> p in w.dead)
  }

  // ----- Generations -----

  function Max(a: nat, b: nat): nat {
    if a < b then b else a
  }

  /** `next_generation_from_journal` */
  function NextGeneration(j: Record): Option<nat> {
    var last := if j.phase.Idle? then Max(j.older, j.newer) else 0;
    if last >= U64_MAX - 1 then None else Some(last + 1)
  }

  /** The record a recovery starts from: idle, and back at the older generation. */
  function ResetOf(j: Record): Record {
    Record(Idle, j.older, j.older, 0, j.creator)
  }

  // ----- One step of the lock holder -----

  /** A journal write: `after` if it succeeds, `failed` if it reports an error. */
  function Write(d: Disk, record: Record, io: Io, after: Pc, failed: Pc): (Disk, Pc) {
    (if io.Fails? then d else d.(journal := record), if io.Fine? then after else failed)
  }

  function UnlinkStep(d: Disk, io: Io, after: Pc, failed: Pc): (Disk, Pc) {
    if io.Fine? then (d.(name := None), after) else (d, failed)
  }

  /** `reconcile_stale_journal`, once the previous creator is known to be dead. */
  function LookStep(d: Disk, j: Record, io: Io): (Disk, Pc) {
    var reset := Create(Reset(ResetOf(j)));
    match d.name
    case None => (d, reset)
    case Some(o) =>
      match j.phase
      case Idle => (d, reset)
      case PreObject => if o.boot.Blank? then UnlinkStep(d, io, reset, Free) else (d, Free)
      case Creating =>
        if o.id != j.target || o.boot.Blank? then (d, Free)
        else if o.boot.Ready? then (d, Create(Reset(ResetOf(j).(newer := o.gen))))
        else UnlinkStep(d, io, reset, Free)
      case Removing => (d, if o.id == j.target then reset else Free)
  }

  /** `producer_create_impl` on finding what the name already has. */
  function ExistingStep(d: Disk, j: Record, liveness: Liveness): Pc {
    match d.name
    case None => (match NextGeneration(j) case None => Free case Some(g) => Create(WritePre(j, g)))
    case Some(o) =>
      if NextGeneration(j).None? || !o.boot.Ready? then Free
      else if o.online && (liveness.Alive? || liveness.Unverifiable?) then Free
      else if j.newer != 0 && j.newer != o.gen then Free
      else if o.gen == U64_MAX then Free
      else Create(UnlinkOld(j, o.gen + 1))
  }

  function CreateStep(w: World, c: CreateAt, io: Io, liveness: Liveness): (Disk, Pc) {
    var d := w.disk;
    var me := w.proc;
    match c
    case ReadJournal =>
      (d, if d.journal.phase.Idle? then Create(Existing(d.journal)) else Create(Probe(d.journal)))
    case Probe(j) => (d, if liveness.Exited? then Create(Look(j)) else Free)
    case Look(j) => LookStep(d, j, io)
    case Reset(j) => Write(d, j, io, Create(Existing(j)), Free)
    case Existing(j) => (d, ExistingStep(d, j, liveness))
    case UnlinkOld(j, g) => UnlinkStep(d, io, Create(WritePre(j, g)), Free)
    case WritePre(j, g) => Write(d, Record(PreObject, j.older, g, 0, me), io, Create(MakeObject(j, g)), Free)
    case MakeObject(j, g) =>
      if io.Fine? && d.name.None? then
        (d.(name := Some(Object(w.nextId, Blank, 0, me, false))), Create(Inspect(j, g, w.nextId)))
      else (d, Create(UndoJournal(j)))
    case Inspect(j, g, id) =>
      // A failed inspection is retried once to learn the inode, which may fail too.
      (d, if io.Fine? then Create(WriteCreating(j, g, id)) else Create(Retain(j, g, id, io.FailsAfter?)))
    case Retain(j, g, id, captured) =>
      Write(d, Record(Creating, j.older, g, if captured then id else 0, me), io,
            if captured then Create(Unretain(j)) else Free, Free)
    case Unretain(j) => UnlinkStep(d, io, Create(UndoJournal(j)), Free)
    case WriteCreating(j, g, id) =>
      Write(d, Record(Creating, j.older, g, id, me), io, Create(WriteBoot(j, g, id)), Create(UndoObject(j)))
    case WriteBoot(j, g, id) =>
      if io.Fine? && d.name.Some? then
        (d.(name := Some(d.name.value.(boot := Initializing))), Create(StoreReady(j, g, id)))
      else (d, Create(UndoObject(j)))
    case StoreReady(j, g, id) =>
      if io.Fine? && d.name.Some? then
        (d.(name := Some(d.name.value.(boot := Ready, gen := g, owner := me, online := true))),
         Create(WriteDone(j, g, id)))
      else (d, Create(UndoObject(j)))
    case WriteDone(j, g, id) => Write(d, Record(Idle, j.older, g, id, me), io, Free, Create(UndoObject(j)))
    case UndoObject(j) => UnlinkStep(d, io, Create(UndoJournal(j)), Free)
    case UndoJournal(j) => Write(d, j, io, Free, Free)
  }

  /** `producer_remove_if_owner_impl` */
  function RemoveStep(w: World, h: Handle, r: RemoveAt, io: Io): (Disk, Pc) {
    var d := w.disk;
    match r
    case ReadForRemove =>
      (d, if d.name.Some? && d.name.value.id == h.id && d.name.value.gen == h.gen
          then Remove(h, WriteRemoving(d.journal)) else Free)
    case WriteRemoving(j) => Write(d, Record(Removing, h.gen, 0, h.id, w.proc), io, Remove(h, Unlink(j)), Free)
    case Unlink(j) => UnlinkStep(d, io, Remove(h, WriteRemoved(j)), Remove(h, UndoRemove(j)))
    case WriteRemoved(j) => Write(d, Record(Idle, h.gen, h.gen, h.id, w.proc), io, Free, Remove(h, UndoRemove(j)))
    case UndoRemove(j) => Write(d, j, io, Free, Free)
  }

  // ----- The transition relation -----

  datatype Action =
    | BeginCreate(p: Proc)
    | BeginRemove(p: Proc, h: Handle)
    | Step(io: Io, liveness: Liveness)
    | GoOffline(p: Proc)
    | Die(p: Proc)

  /** Whom the step's probe asks about. */
  function Probed(w: World): Proc {
    if w.pc.Create? && w.pc.create.Probe? then w.pc.create.j.creator
    else if w.disk.name.Some? then w.disk.name.value.owner
    else 0
  }

  predicate Enabled(w: World, act: Action) {
    match act
    case BeginCreate(p) => w.pc.Free? && p !in w.dead
    case BeginRemove(p, h) => w.pc.Free? && p !in w.dead && h in w.handles
    case Step(_, liveness) => !w.pc.Free? && Truthful(w, Probed(w), liveness)
    case GoOffline(p) => p !in w.dead
    case Die(_) => true
  }

  /** The create has just returned its handle. */
  predicate Succeeds(w: World, act: Action) {
    act.Step? && act.io.Fine? && w.pc.Create? && w.pc.create.WriteDone?
  }

  /** An object has just become ready. */
  predicate StoresReady(w: World, act: Action) {
    act.Step? && act.io.Fine? && w.pc.Create? && w.pc.create.StoreReady?
  }

  /** The recovery has just rewritten the journal. */
  predicate Resets(w: World, act: Action) {
    act.Step? && !act.io.Fails? && w.pc.Create? && w.pc.create.Reset?
  }

  function StepNext(w: World, io: Io, liveness: Liveness): World
    requires Enabled(w, Step(io, liveness))
  {
    if w.pc.Remove? then
      var (d, pc) := RemoveStep(w, w.pc.h, w.pc.remove, io);
      w.(disk := d, pc := pc)
    else
      var (d, pc) := CreateStep(w, w.pc.create, io, liveness);
      w.(disk := d, pc := pc,
         nextId := if w.pc.create.MakeObject? then w.nextId + 1 else w.nextId,
         handles := if Succeeds(w, Step(io, liveness)) then w.handles + {Handle(w.pc.create.id, w.pc.create.g)}
                    else w.handles)
  }

  function Next(w: World, act: Action): World
    requires Enabled(w, act)
  {
    match act
    case BeginCreate(p) => w.(pc := Create(ReadJournal), proc := p)
    case BeginRemove(p, h) => w.(pc := Remove(h, ReadForRemove), proc := p)
    case Step(io, liveness) => StepNext(w, io, liveness)
    case GoOffline(p) =>
      if w.disk.name.Some? && w.disk.name.value.owner == p && w.disk.name.value.boot.Ready?
      then w.(disk := w.disk.(name := Some(w.disk.name.value.(online := false)))) else w
    case Die(p) => w.(dead := w.dead + {p}, pc := if !w.pc.Free? && w.proc == p then Free else w.pc)
  }

  predicate Init(w: World) {
    && w.disk == Disk(Record(Idle, 0, 0, 0, 0), None)
    && 0 < w.nextId && w.handles == {} && w.pc.Free?
  }

  ghost predicate IsRun(run: seq<World>, acts: seq<Action>) {
    && |run| == |acts| + 1
    && Init(run[0])
    && (forall i | 0 <= i < |acts| :: Enabled(run[i], acts[i]) && run[i + 1] == Next(run[i], acts[i]))
  }
}
