/** Which crashes a later create recovers from, and which block the name for good. */
module JournalRecovery {
  import opened Words
  import opened Journal
  import opened JournalTheorems

  /** `acts`, in order, lead from `w` to `w1`. */
  ghost predicate Leads(w: World, acts: seq<Action>, w1: World)
    decreases |acts|
  {
    if acts == [] then w1 == w else Enabled(w, acts[0]) && Leads(Next(w, acts[0]), acts[1..], w1)
  }

  // ----- Stuck -----

  /** An object was announced that has no bootstrap. */
  predicate StuckDisk(d: Disk) {
    d.journal.phase.Creating? && d.name.Some? && d.name.value.boot.Blank?
  }

  /** So it is on disk, and nobody is past the point of noticing. */
  predicate Stuck(w: World) {
    && StuckDisk(w.disk)
    && (w.pc.Free?
        || (w.pc.Create? && (w.pc.create.ReadJournal? || w.pc.create.Probe? || w.pc.create.Look?))
        || (w.pc.Remove? && w.pc.remove.ReadForRemove?))
  }

  lemma StepStaysStuck(w: World, act: Action)
    requires Inv(w) && Enabled(w, act) && Stuck(w)
    ensures Stuck(Next(w, act)) && Next(w, act).disk == w.disk
  {
  }

  /** No continuation ever touches the journal or the object again. */
  lemma {:induction false} StuckForever(run: seq<World>, acts: seq<Action>, i: nat, n: nat)
    requires IsRun(run, acts) && i <= n < |run| && Stuck(run[i])
    ensures Stuck(run[n]) && run[n].disk == run[i].disk
    decreases n
  {
    if i < n {
      StuckForever(run, acts, i, n - 1);
      RunInv(run, acts, n - 1);
      StepStaysStuck(run[n - 1], acts[n - 1]);
    }
  }

  /**
   The ways in: the creator dies with its object announced and blank, before the bootstrap, before
   undoing, or before unlinking what it could not inspect; that unlink or the undo's fails; or the
   record of an object it could not identify is written.
   */
  predicate GetsStuck(w: World, act: Action) {
    && w.pc.Create?
    && var c := w.pc.create;
       match act
       case Die(p) => p == w.proc && StuckDisk(w.disk) && (c.WriteBoot? || c.UndoObject? || c.Unretain?)
       case Step(io, _) =>
         || (c.Retain? && !io.Fails? && !(c.captured && io.Fine?))
         || (c.Unretain? && !io.Fine?)
         || (c.UndoObject? && !io.Fine? && StuckDisk(w.disk))
       case _ => false
  }

  lemma StepGetsStuck(w: World, io: Io, liveness: Liveness)
    requires Inv(w) && Enabled(w, Step(io, liveness)) && !Stuck(w) && w.pc.Create?
    ensures Stuck(StepNext(w, io, liveness)) <==> GetsStuck(w, Step(io, liveness))
  {
  }

  lemma RemoveNeverSticks(w: World, io: Io, liveness: Liveness)
    requires Inv(w) && Enabled(w, Step(io, liveness)) && !Stuck(w) && w.pc.Remove?
    ensures !Stuck(StepNext(w, io, liveness))
  {
  }

  /** A run gets stuck at exactly these steps. */
  lemma StuckExactlyBy(run: seq<World>, acts: seq<Action>, i: nat)
    requires IsRun(run, acts) && i < |acts| && !Stuck(run[i])
    ensures Stuck(run[i + 1]) <==> GetsStuck(run[i], acts[i])
  {
    RunInv(run, acts, i);
    match acts[i]
    case Step(io, liveness) =>
      if run[i].pc.Create? {
        StepGetsStuck(run[i], io, liveness);
      } else {
        RemoveNeverSticks(run[i], io, liveness);
      }
    case _ =>
  }

  // ----- Recoverable -----

  /** The create of `p`, with no I/O failing. */
  predicate Undisturbed(acts: seq<Action>, p: Proc) {
    && acts != [] && acts[0] == BeginCreate(p)
    && forall k | 0 < k < |acts| :: acts[k].Step? && acts[k].io.Fine?
  }

  lemma LeadsOne(w: World, act: Action, rest: seq<Action>, w1: World)
    requires Enabled(w, act) && Leads(Next(w, act), rest, w1)
    ensures Leads(w, [act] + rest, w1)
  {
    assert ([act] + rest)[1..] == rest;
  }

  /** Five steps: read, probe, look, reset, and on. */
  lemma RecoveryGoesThrough(w: World, p: Proc)
    requires Inv(w) && w.pc.Free? && !w.disk.journal.phase.Idle? && w.disk.journal.creator in w.dead
    requires p !in w.dead && !StuckDisk(w.disk)
    ensures Recovers(w, p)
  {
    var fine, exited := Step(Fine, Unverifiable), Step(Fine, Exited);
    var j := w.disk.journal;
    var w1 := Next(w, BeginCreate(p));
    var w2 := Next(w1, fine);
    assert w2.pc == Create(Probe(j));
    var w3 := Next(w2, exited);
    assert w3.pc == Create(Look(j)) && w3.disk == w.disk;
    var w4 := Next(w3, fine);
    assert w4.pc.Create? && w4.pc.create.Reset?;
    var w5 := Next(w4, fine);
    assert Leads(w5, [], w5);
    LeadsOne(w4, fine, [], w5);
    LeadsOne(w3, fine, [fine] + [], w5);
    LeadsOne(w2, exited, [fine] + ([fine] + []), w5);
    LeadsOne(w1, fine, [exited] + ([fine] + ([fine] + [])), w5);
    LeadsOne(w, BeginCreate(p), [fine] + ([exited] + ([fine] + ([fine] + []))), w5);
  }

  /** The next create of `p` can recover and go on, with no I/O failing and nobody else at work. */
  ghost predicate Recovers(w: World, p: Proc) {
    exists acts, w1 ::
      && Leads(w, acts, w1) && Undisturbed(acts, p)
      && w1.pc.Create? && w1.pc.create.Existing? && w1.disk.journal.phase.Idle?
  }

  /** The create has not got past looking, and will not. */
  predicate Hopeless(w: World) {
    && !w.disk.journal.phase.Idle? && (w.disk.journal.creator !in w.dead || StuckDisk(w.disk))
    && (w.pc.Free? || (w.pc.Create? && (w.pc.create.ReadJournal? || w.pc.create.Probe? || w.pc.create.Look?)))
  }

  lemma StepStaysHopeless(w: World, act: Action)
    requires Inv(w) && Hopeless(w) && Enabled(w, act) && act.Step?
    ensures Hopeless(Next(w, act))
  {
  }

  lemma {:induction false} HopelessThrough(w: World, acts: seq<Action>, w1: World)
    requires Inv(w) && Hopeless(w) && Leads(w, acts, w1) && forall k | 0 <= k < |acts| :: acts[k].Step?
    ensures Hopeless(w1)
    decreases |acts|
  {
    if acts != [] {
      assert acts[0].Step?;
      NextKeeps(w, acts[0]);
      StepStaysHopeless(w, acts[0]);
      HopelessThrough(Next(w, acts[0]), acts[1..], w1);
    }
  }

  lemma HopelessCreate(w: World, p: Proc)
    requires Inv(w) && w.pc.Free? && Hopeless(w)
    ensures !Recovers(w, p)
  {
    forall acts, w1 | Leads(w, acts, w1) && Undisturbed(acts, p) ensures Hopeless(w1) {
      NextKeeps(w, acts[0]);
      HopelessThrough(Next(w, acts[0]), acts[1..], w1);
    }
  }

  /**
   From any reachable moment with the lock free and a transaction on record, the next create
   recovers, if no I/O fails, exactly when the process that left the record is dead and no object
   without bootstrap has been announced.  With such an object no create ever does, whatever else
   happens.
   */
  lemma RecoverableIff(run: seq<World>, acts: seq<Action>, i: nat, p: Proc)
    requires IsRun(run, acts) && i < |run| && run[i].pc.Free? && p !in run[i].dead
    requires !run[i].disk.journal.phase.Idle?
    ensures Recovers(run[i], p) <==> run[i].disk.journal.creator in run[i].dead && !StuckDisk(run[i].disk)
    ensures StuckDisk(run[i].disk) ==>
              forall n | i <= n < |run| :: !(run[n].pc.Create? && run[n].pc.create.Existing?)
  {
    RunInv(run, acts, i);
    if StuckDisk(run[i].disk) {
      forall n | i <= n < |run| ensures !(run[n].pc.Create? && run[n].pc.create.Existing?) {
        StuckForever(run, acts, i, n);
      }
    }
    if run[i].disk.journal.creator in run[i].dead && !StuckDisk(run[i].disk) {
      RecoveryGoesThrough(run[i], p);
    } else {
      HopelessCreate(run[i], p);
    }
  }

  // ----- A live process in the way -----

  /** A failed create left its record and its process lives on; nobody has got further than asking. */
  predicate Occupied(w: World) {
    && (w.disk.journal.phase.PreObject? || w.disk.journal.phase.Creating?)
    && w.disk.journal.creator !in w.dead
    && (w.pc.Free?
        || (w.pc.Create? && (w.pc.create.ReadJournal? || w.pc.create.Probe?))
        || (w.pc.Remove? && w.pc.remove.ReadForRemove?))
  }

  lemma StepStaysOccupied(w: World, act: Action)
    requires Inv(w) && Enabled(w, act) && Occupied(w) && w.disk.journal.creator !in Next(w, act).dead
    ensures Occupied(Next(w, act)) && Next(w, act).disk.journal == w.disk.journal
  {
  }

  lemma OccupiedOn(run: seq<World>, acts: seq<Action>, i: nat)
    requires IsRun(run, acts) && i < |acts| && Occupied(run[i])
    requires run[i].disk.journal.creator !in run[i + 1].dead
    ensures Occupied(run[i + 1]) && run[i + 1].disk.journal == run[i].disk.journal
  {
    RunInv(run, acts, i);
    StepStaysOccupied(run[i], acts[i]);
  }

  /**
   Until that process ends no create and no remove of anybody, its own retries included, gets
   anywhere: the record stays as it is.
   */
  lemma {:induction false} OccupiedUntilDeath(run: seq<World>, acts: seq<Action>, i: nat, n: nat)
    requires IsRun(run, acts) && i <= n < |run| && Occupied(run[i])
    requires run[i].disk.journal.creator !in run[n].dead
    ensures Occupied(run[n]) && run[n].disk.journal == run[i].disk.journal
    decreases n
  {
    if i < n {
      DeadStay(run, acts, n - 1);
      OccupiedUntilDeath(run, acts, i, n - 1);
      OccupiedOn(run, acts, n - 1);
    }
  }
}
