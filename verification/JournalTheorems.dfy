/** What the control journal guarantees over every run of creates, removes, failures and crashes. */
module JournalTheorems {
  import opened Words
  import opened Journal

  // ----- The invariant -----

  /** What the journal says of the object under the name, at every instant, crash or no crash. */
  predicate Durable(d: Disk) {
    var j := d.journal;
    d.name.Some? ==>
      var o := d.name.value;
      match j.phase
      case Idle => o.boot.Ready? && o.gen == j.newer
      case PreObject => o.boot.Blank?
      case Creating => if o.id == j.target then o.boot.Ready? ==> o.gen == j.newer else o.boot.Blank?
      case Removing => o.id == j.target && o.boot.Ready? && o.gen == j.older
  }

  /** An idle record's newer generation is its last; a create announces one above that. */
  predicate Shape(j: Record) {
    && (j.phase.Idle? ==> j.older <= j.newer)
    && (j.phase.PreObject? || j.phase.Creating? ==> j.older < j.newer)
  }

  predicate Unhandled(w: World, id: nat) {
    forall h | h in w.handles :: h.id != id
  }

  /** What has the name, if anything, is nobody's. */
  predicate NobodysName(w: World) {
    w.disk.name.Some? ==> Unhandled(w, w.disk.name.value.id)
  }

  /** A handle's object, while it has the name, is ready and not in the middle of a create. */
  predicate Handles(w: World) {
    forall h | h in w.handles ::
      && h.id < w.nextId
      && (w.disk.name.Some? && w.disk.name.value.id == h.id ==>
            && w.disk.name.value.boot.Ready? && w.disk.name.value.gen == h.gen
            && (w.disk.journal.phase.Idle? || w.disk.journal.phase.Removing?))
  }

  predicate Ids(w: World) {
    0 < w.nextId && (w.disk.name.Some? ==> 0 < w.disk.name.value.id < w.nextId)
  }

  /** The idle record a create started from, and the generation it is about to hand out. */
  predicate Begun(j: Record, g: nat) {
    j.phase.Idle? && Shape(j) && g == j.newer + 1
  }

  /** The record a create writes before it has an object, and once it has one. */
  predicate Prepares(r: Record, j: Record, g: nat) {
    r.phase.PreObject? && r.older == j.older && r.newer == g
  }

  predicate Announces(r: Record, j: Record, g: nat, id: nat) {
    r.phase.Creating? && r.older == j.older && r.newer == g && r.target == id
  }

  /** The fresh object of a create. */
  predicate Fresh(w: World, id: nat, boot: Boot) {
    w.disk.name.Some? && w.disk.name.value.id == id && w.disk.name.value.boot == boot && Unhandled(w, id)
  }

  /** A ready instance whose producer is dead or offline. */
  predicate Abandoned(w: World) {
    && w.disk.name.Some? && w.disk.name.value.boot.Ready?
    && (!w.disk.name.value.online || w.disk.name.value.owner in w.dead)
  }

  predicate CreateOk(w: World, c: CreateAt) {
    var d := w.disk;
    match c
    case ReadJournal => true
    case Probe(j) => j == d.journal && !j.phase.Idle?
    case Look(j) => j == d.journal && !j.phase.Idle? && j.creator in w.dead
    case Reset(j) => j == Recovered(d) && !d.journal.phase.Idle? && Durable(Disk(j, d.name))
    case Existing(j) => j == d.journal && j.phase.Idle?
    case UnlinkOld(j, g) => j == d.journal && Begun(j, g) && Abandoned(w)
    case WritePre(j, g) => j == d.journal && Begun(j, g) && d.name.None?
    case MakeObject(j, g) => Begun(j, g) && Prepares(d.journal, j, g) && d.name.None?
    case Inspect(j, g, id) => Begun(j, g) && Prepares(d.journal, j, g) && Fresh(w, id, Blank)
    case Retain(j, g, id, _) => Begun(j, g) && Prepares(d.journal, j, g) && Fresh(w, id, Blank)
    case Unretain(j) => j.phase.Idle? && Shape(j) && d.journal.phase.Creating? && w.disk.name.Some?
                        && Fresh(w, w.disk.name.value.id, Blank)
    case WriteCreating(j, g, id) => Begun(j, g) && Prepares(d.journal, j, g) && Fresh(w, id, Blank)
    case WriteBoot(j, g, id) => Begun(j, g) && Announces(d.journal, j, g, id) && Fresh(w, id, Blank)
    case StoreReady(j, g, id) => Begun(j, g) && Announces(d.journal, j, g, id) && Fresh(w, id, Initializing)
    case WriteDone(j, g, id) =>
      Begun(j, g) && Announces(d.journal, j, g, id) && Fresh(w, id, Ready) && d.name.value.gen == g
    case UndoObject(j) => j.phase.Idle? && Shape(j) && w.disk.name.Some? && NobodysName(w)
    case UndoJournal(j) => j.phase.Idle? && Shape(j) && d.name.None?
  }

  /** The record a recovery is about to write, given the disk it has left behind. */
  function Recovered(d: Disk): Record {
    var j := d.journal;
    if j.phase.Creating? && d.name.Some? && d.name.value.boot.Ready? then ResetOf(j).(newer := d.name.value.gen)
    else ResetOf(j)
  }

  predicate RemoveOk(w: World, h: Handle, r: RemoveAt) {
    var d := w.disk;
    && h in w.handles
    && match r
       case ReadForRemove => true
       case WriteRemoving(j) => j == d.journal && d.name.Some? && d.name.value.id == h.id
       case Unlink(j) =>
         && d.journal.phase.Removing? && d.journal.older == h.gen && Restorable(w, j)
         && d.name.Some? && d.name.value.id == h.id
       case WriteRemoved(j) => d.name.None? && d.journal.phase.Removing? && Restorable(w, j)
       case UndoRemove(j) => (d.journal.phase.Removing? || d.name.None?) && Restorable(w, j)
  }

  /** Writing `j` back is as good as before. */
  predicate Restorable(w: World, j: Record) {
    Shape(j) && Durable(Disk(j, w.disk.name)) && (j.phase.Idle? || j.phase.Removing?)
  }

  predicate Inv(w: World) {
    && Durable(w.disk) && Shape(w.disk.journal) && Handles(w) && Ids(w)
    && (w.pc.Create? ==> CreateOk(w, w.pc.create))
    && (w.pc.Remove? ==> RemoveOk(w, w.pc.h, w.pc.remove))
  }

  // ----- Preservation -----

  predicate Recovering(c: CreateAt) {
    c.ReadJournal? || c.Probe? || c.Look? || c.Reset? || c.Existing?
  }

  predicate Building(c: CreateAt) {
    c.UnlinkOld? || c.WritePre? || c.MakeObject? || c.Inspect? || c.Retain? || c.Unretain?
  }

  lemma RecoverKeeps(w: World, io: Io, liveness: Liveness)
    requires Inv(w) && Enabled(w, Step(io, liveness)) && w.pc.Create? && Recovering(w.pc.create)
    ensures Inv(StepNext(w, io, liveness))
  {
  }

  lemma BuildKeeps(w: World, io: Io, liveness: Liveness)
    requires Inv(w) && Enabled(w, Step(io, liveness)) && w.pc.Create? && Building(w.pc.create)
    ensures Inv(StepNext(w, io, liveness))
  {
  }

  lemma CommitKeeps(w: World, io: Io, liveness: Liveness)
    requires Inv(w) && Enabled(w, Step(io, liveness)) && w.pc.Create?
    requires w.pc.create.WriteCreating? || w.pc.create.WriteBoot? || w.pc.create.StoreReady?
    ensures Inv(StepNext(w, io, liveness))
  {
  }

  lemma DoneKeeps(w: World, io: Io, liveness: Liveness)
    requires Inv(w) && Enabled(w, Step(io, liveness)) && w.pc.Create?
    requires w.pc.create.WriteDone? || w.pc.create.UndoObject? || w.pc.create.UndoJournal?
    ensures Inv(StepNext(w, io, liveness))
  {
  }

  lemma RemoveKeeps(w: World, io: Io, liveness: Liveness)
    requires Inv(w) && Enabled(w, Step(io, liveness)) && w.pc.Remove?
    ensures Inv(StepNext(w, io, liveness))
  {
  }

  lemma StepKeeps(w: World, io: Io, liveness: Liveness)
    requires Inv(w) && Enabled(w, Step(io, liveness))
    ensures Inv(StepNext(w, io, liveness))
  {
    if w.pc.Remove? {
      RemoveKeeps(w, io, liveness);
    } else if Recovering(w.pc.create) {
      RecoverKeeps(w, io, liveness);
    } else if Building(w.pc.create) {
      BuildKeeps(w, io, liveness);
    } else if w.pc.create.WriteDone? || w.pc.create.UndoObject? || w.pc.create.UndoJournal? {
      DoneKeeps(w, io, liveness);
    } else {
      CommitKeeps(w, io, liveness);
    }
  }

  lemma NextKeeps(w: World, act: Action)
    requires Inv(w) && Enabled(w, act)
    ensures Inv(Next(w, act))
  {
    match act
    case Step(io, liveness) => StepKeeps(w, io, liveness);
    case _ =>
  }

  lemma {:induction false} RunInv(run: seq<World>, acts: seq<Action>, i: nat)
    requires IsRun(run, acts) && i < |run|
    ensures Inv(run[i])
    decreases i
  {
    if i > 0 {
      RunInv(run, acts, i - 1);
      NextKeeps(run[i - 1], acts[i - 1]);
    }
  }

  // ----- Recovery -----

  /** A recovery never takes the name from a ready instance. */
  lemma RecoveryKeepsReady(run: seq<World>, acts: seq<Action>, i: nat)
    requires IsRun(run, acts) && i < |acts| && acts[i].Step?
    requires run[i].pc.Create? && Recovering(run[i].pc.create)
    requires run[i].disk.name.Some? && run[i].disk.name.value.boot.Ready?
    ensures run[i + 1].disk.name == run[i].disk.name
  {
    RunInv(run, acts, i);
  }

  /**
   Whenever the journal is idle, and so after every successful recovery, whatever has the name is
   ready and of the generation the journal names.
   */
  lemma IdleMatchesReady(run: seq<World>, acts: seq<Action>, i: nat)
    requires IsRun(run, acts) && i < |run| && run[i].disk.journal.phase.Idle? && run[i].disk.name.Some?
    ensures run[i].disk.name.value.boot.Ready? && run[i].disk.name.value.gen == run[i].disk.journal.newer
  {
    RunInv(run, acts, i);
  }

  /** A recovery that got its record written goes on from an idle journal. */
  lemma RecoveryLeavesIdle(run: seq<World>, acts: seq<Action>, i: nat)
    requires IsRun(run, acts) && i < |acts| && Resets(run[i], acts[i])
    ensures run[i + 1].disk.journal.phase.Idle? && run[i + 1].disk.name == run[i].disk.name
    ensures run[i + 1].disk.name.Some? ==>
              && run[i + 1].disk.name.value.boot.Ready?
              && run[i + 1].disk.name.value.gen == run[i + 1].disk.journal.newer
  {
    RunInv(run, acts, i);
  }

  /** A create never finds an existing object unready or at odds with the journal. */
  lemma NoDisagreement(run: seq<World>, acts: seq<Action>, i: nat)
    requires IsRun(run, acts) && i < |run| && run[i].pc.Create? && run[i].pc.create.Existing?
    requires run[i].disk.name.Some?
    ensures run[i].disk.name.value.boot.Ready?
    ensures run[i].disk.name.value.gen == run[i].pc.create.j.newer
  {
    RunInv(run, acts, i);
  }

  // ----- Ownership -----

  /**
   Who takes the name from a ready instance: a create that replaces one whose producer is dead or
   offline, the undo of a create that never returned a handle to it, or a remove through its own
   handle.
   */
  lemma WhoUnlinksReady(run: seq<World>, acts: seq<Action>, i: nat)
    requires IsRun(run, acts) && i < |acts|
    requires run[i].disk.name.Some? && run[i].disk.name.value.boot.Ready?
    requires run[i + 1].disk.name.None? || run[i + 1].disk.name.value.id != run[i].disk.name.value.id
    ensures run[i + 1].disk.name.None?
    ensures var o, pc := run[i].disk.name.value, run[i].pc;
            || (pc.Create? && pc.create.UnlinkOld? && (!o.online || o.owner in run[i].dead))
            || (pc.Create? && pc.create.UndoObject? && Unhandled(run[i], o.id))
            || (pc.Remove? && pc.remove.Unlink? && pc.h == Handle(o.id, o.gen))
  {
    RunInv(run, acts, i);
  }

  /** A replacement of a ready instance was decided when its producer was dead or offline. */
  lemma ReplacesOnlyAbandoned(run: seq<World>, acts: seq<Action>, i: nat)
    requires IsRun(run, acts) && i < |run| && run[i].pc.Create? && run[i].pc.create.UnlinkOld?
    ensures Abandoned(run[i])
  {
    RunInv(run, acts, i);
  }

  /** The object of handle `h` has the name and its producer is online. */
  predicate Stands(w: World, h: Handle) {
    && h in w.handles
    && w.disk.name.Some? && w.disk.name.value.id == h.id && w.disk.name.value.online
  }

  /** The step is a remove through `h` taking the name away. */
  predicate RemovedBy(w: World, act: Action, h: Handle) {
    act.Step? && act.io.Fine? && w.pc.Remove? && w.pc.h == h && w.pc.remove.Unlink?
  }

  lemma StandsOn(run: seq<World>, acts: seq<Action>, i: nat, h: Handle)
    requires IsRun(run, acts) && i < |acts| && Stands(run[i], h)
    requires run[i].disk.name.value.owner !in run[i].dead && !RemovedBy(run[i], acts[i], h)
    requires acts[i] != GoOffline(run[i].disk.name.value.owner)
    ensures Stands(run[i + 1], h) && run[i + 1].disk.name == run[i].disk.name
  {
    RunInv(run, acts, i);
    if run[i + 1].disk.name.None? || run[i + 1].disk.name.value.id != h.id {
      WhoUnlinksReady(run, acts, i);
    }
  }

  /**
   While the producer of a returned handle is alive and has not gone offline, its instance keeps
   the name through every create, recovery, failure and crash of others, unless it is removed
   through that very handle.
   */
  lemma {:induction false} OwnedInstanceKeepsName(run: seq<World>, acts: seq<Action>, i: nat, n: nat, h: Handle)
    requires IsRun(run, acts) && i <= n < |run| && Stands(run[i], h)
    requires run[i].disk.name.value.owner !in run[n].dead
    requires forall k | i <= k < n ::
               !RemovedBy(run[k], acts[k], h) && acts[k] != GoOffline(run[i].disk.name.value.owner)
    ensures Stands(run[n], h) && run[n].disk.name == run[i].disk.name
    decreases n
  {
    if i < n {
      DeadStay(run, acts, n - 1);
      OwnedInstanceKeepsName(run, acts, i, n - 1, h);
      StandsOn(run, acts, n - 1, h);
    }
  }

  lemma DeadStay(run: seq<World>, acts: seq<Action>, i: nat)
    requires IsRun(run, acts) && i < |acts|
    ensures run[i].dead <= run[i + 1].dead
  {
  }
}
