/** Creating and removing a channel as their callers see it, with any I/O step failing. */
module JournalHost {
  import opened Words
  import opened Journal
  import opened JournalOrder
  import opened JournalTheorems

  function CreateLeft(c: CreateAt): nat {
    match c
    case ReadJournal => 16
    case Probe(_) => 15
    case Look(_) => 14
    case Reset(_) => 13
    case Existing(_) => 12
    case UnlinkOld(_, _) => 11
    case WritePre(_, _) => 10
    case MakeObject(_, _) => 9
    case Inspect(_, _, _) => 8
    case Retain(_, _, _, _) => 7
    case WriteCreating(_, _, _) => 7
    case WriteBoot(_, _, _) => 6
    case StoreReady(_, _, _) => 5
    case WriteDone(_, _, _) => 4
    case Unretain(_) => 3
    case UndoObject(_) => 3
    case UndoJournal(_) => 2
  }

  function RemoveLeft(r: RemoveAt): nat {
    match r
    case ReadForRemove => 5
    case WriteRemoving(_) => 4
    case Unlink(_) => 3
    case WriteRemoved(_) => 2
    case UndoRemove(_) => 1
  }

  /** A bound on the steps the transaction still takes. */
  function Left(pc: Pc): nat {
    match pc
    case Free => 0
    case Create(c) => CreateLeft(c)
    case Remove(_, r) => RemoveLeft(r)
  }

  /** The generation a create that starts from this disk hands out, if it succeeds. */
  function Upcoming(d: Disk): nat {
    match d.journal.phase
    case Idle => d.journal.newer + 1
    case Creating => if d.name.Some? && d.name.value.boot.Ready? then d.journal.newer + 1 else d.journal.older + 1
    case _ => d.journal.older + 1
  }

  /** The create is on its way from disk `d` to that generation. */
  predicate Heading(d: Disk, w: World)
    requires w.pc.Create?
  {
    match w.pc.create
    case ReadJournal => w.disk == d
    case Probe(_) => w.disk == d
    case Look(_) => w.disk == d
    case Reset(j) => j.newer + 1 == Upcoming(d)
    case Existing(j) => j.newer + 1 == Upcoming(d)
    case c => Carried(c).Some? && Carried(c).value.newer + 1 == Upcoming(d)
  }

  /** Where a create begun in `w0` stands; `g` is the generation it has handed out, if any. */
  predicate CreateOn(w0: World, w: World, g: Option<nat>) {
    && w.dead == w0.dead && w.proc == w0.proc && !w.pc.Remove?
    && (if g.Some? then
          && w.pc.Free? && w.disk.journal.phase.Idle? && w.disk.journal.newer == g.value
          && w.disk.name.Some? && w.disk.name.value.owner == w.proc && w.disk.name.value.online
          && Handle(w.disk.name.value.id, g.value) in w.handles
        else w.handles == w0.handles)
  }

  lemma CreateRound(w0: World, w: World, io: Io, liveness: Liveness)
    requires Inv(w) && CreateOn(w0, w, None) && w.pc.Create? && Enabled(w, Step(io, liveness))
    requires w.pc.create.StoreReady? || w.pc.create.WriteDone? ==> Ours(w)
    ensures var w1 := StepNext(w, io, liveness);
            && CreateOn(w0, w1, if Succeeds(w, Step(io, liveness)) then Some(w.pc.create.g) else None)
            && Left(w1.pc) < Left(w.pc)
            && (w1.pc.Create? && (w1.pc.create.StoreReady? || w1.pc.create.WriteDone?) ==> Ours(w1))
  {
  }

  lemma RecoverHeads(d: Disk, w: World, io: Io, liveness: Liveness)
    requires Inv(w) && w.pc.Create? && Enabled(w, Step(io, liveness)) && Heading(d, w) && Recovering(w.pc.create)
    ensures var w1 := StepNext(w, io, liveness); w1.pc.Create? ==> Heading(d, w1)
  {
  }

  lemma BuildHeads(d: Disk, w: World, io: Io, liveness: Liveness)
    requires Inv(w) && w.pc.Create? && Enabled(w, Step(io, liveness)) && Heading(d, w) && !Recovering(w.pc.create)
    ensures var w1 := StepNext(w, io, liveness); w1.pc.Create? ==> Heading(d, w1)
    ensures Succeeds(w, Step(io, liveness)) ==>
              w.pc.create.g == Upcoming(d) && Above(StepNext(w, io, liveness), w.pc.create.g)
  {
  }

  lemma CreateHeads(d: Disk, w: World, io: Io, liveness: Liveness)
    requires Inv(w) && w.pc.Create? && Enabled(w, Step(io, liveness)) && Heading(d, w)
    ensures var w1 := StepNext(w, io, liveness); w1.pc.Create? ==> Heading(d, w1)
    ensures Succeeds(w, Step(io, liveness)) ==>
              w.pc.create.g == Upcoming(d) && Above(StepNext(w, io, liveness), w.pc.create.g)
  {
    if Recovering(w.pc.create) {
      RecoverHeads(d, w, io, liveness);
    } else {
      BuildHeads(d, w, io, liveness);
    }
  }

  /** The object a create is about to commit is its own. */
  predicate Ours(w: World) {
    && w.disk.name.Some?
    && (w.disk.name.value.boot.Ready? ==> w.disk.name.value.owner == w.proc && w.disk.name.value.online)
  }

  predicate RemoveOn(w0: World, w: World, h: Handle, done: bool) {
    && w.dead == w0.dead && w.proc == w0.proc && w.handles == w0.handles
    && (w.pc.Remove? ==> w.pc.h == h) && !w.pc.Create?
    && (w.disk.name == w0.disk.name || w.disk.name.None?)
    && (done ==> w.pc.Free? && w.disk == Disk(Record(Idle, h.gen, h.gen, h.id, w.proc), None))
  }

  lemma RemoveRound(w0: World, w: World, h: Handle, io: Io, liveness: Liveness)
    requires Inv(w) && RemoveOn(w0, w, h, false) && w.pc.Remove? && Enabled(w, Step(io, liveness))
    ensures var w1 := StepNext(w, io, liveness);
            RemoveOn(w0, w1, h, w.pc.remove.WriteRemoved? && io.Fine?) && Left(w1.pc) < Left(w.pc)
  {
  }

  // ----- Calls in which no I/O fails -----

  /** A create from idle record `j` and a free name, on its way to generation `g`. */
  predicate CreateOnTrack(j: Record, g: nat, w: World, done: Option<nat>) {
    match w.pc
    case Free => done == Some(g)
    case Remove(_, _) => false
    case Create(c) =>
      match c
      case ReadJournal => w.disk == Disk(j, None)
      case Existing(j1) => j1 == j && w.disk.name.None?
      case WritePre(j1, g1) => j1 == j && g1 == g
      case MakeObject(j1, g1) => j1 == j && g1 == g
      case Inspect(j1, g1, _) => j1 == j && g1 == g
      case WriteCreating(j1, g1, _) => j1 == j && g1 == g
      case WriteBoot(j1, g1, _) => j1 == j && g1 == g
      case StoreReady(j1, g1, _) => j1 == j && g1 == g
      case WriteDone(j1, g1, _) => j1 == j && g1 == g
      case _ => false
  }

  lemma CreateTracks(j: Record, g: nat, w: World, liveness: Liveness)
    requires Inv(w) && w.pc.Create? && Enabled(w, Step(Fine, liveness)) && CreateOnTrack(j, g, w, None)
    requires j.phase.Idle? && NextGeneration(j) == Some(g)
    ensures CreateOnTrack(j, g, StepNext(w, Fine, liveness),
                          if Succeeds(w, Step(Fine, liveness)) then Some(g) else None)
  {
  }

  /** A remove of the object that has the name. */
  predicate RemoveOnTrack(h: Handle, w: World, done: bool) {
    match w.pc
    case Free => done
    case Create(_) => false
    case Remove(h1, r) =>
      match r
      case ReadForRemove => w.disk.name.Some? && w.disk.name.value.id == h.id == h1.id
      case UndoRemove(_) => false
      case _ => true
  }

  lemma RemoveTracks(h: Handle, w: World, liveness: Liveness)
    requires Inv(w) && w.pc.Remove? && w.pc.h == h && Enabled(w, Step(Fine, liveness)) && RemoveOnTrack(h, w, false)
    ensures RemoveOnTrack(h, StepNext(w, Fine, liveness), w.pc.remove.WriteRemoved?)
  {
  }

  class ControlPlane {
    var w: World

    /**
     `producer_create_impl` from the moment it holds the lock.  A generation returned is on disk,
     ready and the caller's, and exactly one above what the journal and the object under the name
     stood at.  A failure hands out nothing.  From an idle journal with the name free, only a failed
     I/O step makes it fail.
     */
    method CreateChannel(p: Proc) returns (g: Option<nat>, clean: bool)
      requires Inv(w) && w.pc.Free? && p !in w.dead
      modifies this
      ensures Inv(w) && w.pc.Free?
      ensures g.Some? ==>
                && w.disk.journal.phase.Idle? && w.disk.journal.newer == g.value
                && w.disk.name.Some? && w.disk.name.value.boot.Ready? && w.disk.name.value.gen == g.value
                && w.disk.name.value.owner == p && Handle(w.disk.name.value.id, g.value) in w.handles
      ensures g.Some? ==> g.value == Upcoming(old(w.disk)) && Above(w, g.value)
      ensures g.None? ==> w.handles == old(w.handles)
      ensures clean && old(Vacant(w)) ==> g == old(NextGeneration(w.disk.journal))
    {
      ghost var j := w.disk.journal;
      ghost var vacant := Vacant(w);
      w := Next(w, BeginCreate(p));
      ghost var w0 := w;
      g, clean := None, true;
      while w.pc.Create?
        invariant Inv(w) && CreateOn(w0, w, g) && (g.Some? ==> w.pc.Free?)
        invariant w.pc.Create? && (w.pc.create.StoreReady? || w.pc.create.WriteDone?) ==> Ours(w)
        invariant if g.Some? then g.value == Upcoming(w0.disk) && Above(w, g.value)
                  else w.pc.Create? ==> Heading(w0.disk, w)
        invariant clean && vacant ==> CreateOnTrack(j, NextGeneration(j).value, w, g)
        decreases Left(w.pc)
      {
        var io: Io := *;
        var liveness: Liveness :| Truthful(w, Probed(w), liveness);
        CreateRound(w0, w, io, liveness);
        CreateHeads(w0.disk, w, io, liveness);
        clean := clean && io.Fine?;
        if clean && vacant {
          CreateTracks(j, NextGeneration(j).value, w, liveness);
        }
        StepKeeps(w, io, liveness);
        g := if Succeeds(w, Step(io, liveness)) then Some(w.pc.create.g) else None;
        w := StepNext(w, io, liveness);
      }
    }

    /**
     `producer_remove_if_owner_impl`: on success the name is free and the journal remembers the
     generation.  While the handle's object has the name, only a failed I/O step makes it fail.
     */
    method RemoveChannel(p: Proc, h: Handle) returns (done: bool, clean: bool)
      requires Inv(w) && w.pc.Free? && p !in w.dead && h in w.handles
      modifies this
      ensures Inv(w) && w.pc.Free? && w.handles == old(w.handles)
      ensures done ==> w.disk == Disk(Record(Idle, h.gen, h.gen, h.id, p), None)
      ensures w.disk.name == old(w.disk.name) || w.disk.name.None?
      ensures clean && old(w.disk.name.Some? && w.disk.name.value.id == h.id) ==> done
    {
      ghost var named := w.disk.name.Some? && w.disk.name.value.id == h.id;
      w := Next(w, BeginRemove(p, h));
      ghost var w0 := w;
      done, clean := false, true;
      while w.pc.Remove?
        invariant Inv(w) && RemoveOn(w0, w, h, done)
        invariant clean && named ==> RemoveOnTrack(h, w, done)
        decreases Left(w.pc)
      {
        var io: Io := *;
        var liveness: Liveness :| Truthful(w, Probed(w), liveness);
        RemoveRound(w0, w, h, io, liveness);
        clean := clean && io.Fine?;
        if clean && named {
          RemoveTracks(h, w, liveness);
        }
        StepKeeps(w, io, liveness);
        done := w.pc.remove.WriteRemoved? && io.Fine?;
        w := StepNext(w, io, liveness);
      }
    }
  }
}
