/** In which order generations are handed out, through failures, crashes and recoveries. */
module JournalOrder {
  import opened Words
  import opened Journal
  import opened JournalTheorems

  /**
   A recovery that keeps the order, as its record and the object under the name show: it finishes
   a remove, adopts an instance already ready, or takes back a create that announced the
   generation right after the record's older one.
   */
  predicate Good(d: Disk) {
    || d.journal.phase.Removing?
    || (d.name.Some? && d.name.value.boot.Ready?)
    || d.journal.newer <= d.journal.older + 1
  }

  // ----- No generation up to `g` will be handed out again -----

  predicate Covers(d: Disk, g: nat) {
    match d.journal.phase
    case Idle => g <= d.journal.newer
    case Removing => g <= d.journal.older
    case _ => g < d.journal.newer || (g == d.journal.newer && d.name.Some? && d.name.value.boot.Ready?)
  }

  /** The idle record a create would restore. */
  function Carried(c: CreateAt): Option<Record> {
    match c
    case UnlinkOld(j, _) => Some(j)
    case WritePre(j, _) => Some(j)
    case MakeObject(j, _) => Some(j)
    case Inspect(j, _, _) => Some(j)
    case Retain(j, _, _, _) => Some(j)
    case Unretain(j) => Some(j)
    case WriteCreating(j, _, _) => Some(j)
    case WriteBoot(j, _, _) => Some(j)
    case StoreReady(j, _, _) => Some(j)
    case WriteDone(j, _, _) => Some(j)
    case UndoObject(j) => Some(j)
    case UndoJournal(j) => Some(j)
    case _ => None
  }

  predicate Above(w: World, g: nat) {
    && Covers(w.disk, g)
    && (w.pc.Create? && Carried(w.pc.create).Some? ==>
          g <= Carried(w.pc.create).value.newer && Covers(Disk(w.disk.journal, None), g))
    && (w.pc.Remove? ==>
          match w.pc.remove
          case ReadForRemove => true
          case WriteRemoving(_) => true
          case Unlink(j) => g <= w.pc.h.gen && Covers(Disk(j, w.disk.name), g)
          case WriteRemoved(j) => g <= w.pc.h.gen && Covers(Disk(j, None), g)
          case UndoRemove(j) => Covers(Disk(j, w.disk.name), g))
  }

  lemma RecoverStaysAbove(w: World, io: Io, liveness: Liveness, g: nat)
    requires Inv(w) && Enabled(w, Step(io, liveness)) && w.pc.Create? && Recovering(w.pc.create) && Above(w, g)
    requires Resets(w, Step(io, liveness)) ==> Good(w.disk)
    ensures Above(StepNext(w, io, liveness), g)
  {
  }

  lemma BuildStaysAbove(w: World, io: Io, liveness: Liveness, g: nat)
    requires Inv(w) && Enabled(w, Step(io, liveness)) && w.pc.Create? && !Recovering(w.pc.create) && Above(w, g)
    ensures Above(StepNext(w, io, liveness), g)
  {
  }

  lemma RemoveStaysAbove(w: World, io: Io, liveness: Liveness, g: nat)
    requires Inv(w) && Enabled(w, Step(io, liveness)) && w.pc.Remove? && Above(w, g)
    ensures Above(StepNext(w, io, liveness), g)
  {
  }

  lemma StaysAbove(w: World, act: Action, g: nat)
    requires Inv(w) && Enabled(w, act) && Above(w, g)
    requires Resets(w, act) ==> Good(w.disk)
    ensures Above(Next(w, act), g)
  {
    match act
    case Step(io, liveness) =>
      if w.pc.Remove? {
        RemoveStaysAbove(w, io, liveness, g);
      } else if Recovering(w.pc.create) {
        RecoverStaysAbove(w, io, liveness, g);
      } else {
        BuildStaysAbove(w, io, liveness, g);
      }
    case _ =>
  }

  /** The generation a create is about to make ready or hand out. */
  function GenerationOf(w: World): nat
    requires w.pc.Create? && (w.pc.create.StoreReady? || w.pc.create.WriteDone?)
  {
    w.pc.create.g
  }

  ghost predicate GoodThrough(run: seq<World>, acts: seq<Action>, i: nat, n: nat)
    requires |run| == |acts| + 1 && n <= |acts|
  {
    forall k | i <= k < n && Resets(run[k], acts[k]) :: Good(run[k].disk)
  }

  lemma {:induction false} AboveThrough(run: seq<World>, acts: seq<Action>, i: nat, n: nat, g: nat)
    requires IsRun(run, acts) && i <= n < |run| && Above(run[i], g) && GoodThrough(run, acts, i, n)
    ensures Above(run[n], g)
    decreases n
  {
    if i < n {
      AboveThrough(run, acts, i, n - 1, g);
      RunInv(run, acts, n - 1);
      StaysAbove(run[n - 1], acts[n - 1], g);
    }
  }

  /**
   Successive creates hand out strictly larger generations if every recovery between them is good,
   however many calls fail, undo their work or crash in between.
   */
  lemma GenerationsRise(run: seq<World>, acts: seq<Action>, i: nat, n: nat)
    requires IsRun(run, acts) && i < n < |acts| && Succeeds(run[i], acts[i]) && Succeeds(run[n], acts[n])
    requires GoodThrough(run, acts, i, n)
    ensures GenerationOf(run[i]) < GenerationOf(run[n])
  {
    RunInv(run, acts, i);
    AboveThrough(run, acts, i + 1, n, GenerationOf(run[i]));
    RunInv(run, acts, n);
  }

  /** Where nobody dies nothing is ever recovered. */
  lemma {:induction false} NoDeathNoReset(run: seq<World>, acts: seq<Action>, n: nat)
    requires IsRun(run, acts) && n < |run| && run[0].dead == {}
    requires forall k | 0 <= k < n :: !acts[k].Die?
    ensures run[n].dead == {} && !(run[n].pc.Create? && (run[n].pc.create.Look? || run[n].pc.create.Reset?))
    decreases n
  {
    if n > 0 {
      NoDeathNoReset(run, acts, n - 1);
    }
  }

  /** So in a run without crashes successive creates get strictly larger generations. */
  lemma CrashFreeGenerationsRise(run: seq<World>, acts: seq<Action>, i: nat, n: nat)
    requires IsRun(run, acts) && i < n < |acts| && Succeeds(run[i], acts[i]) && Succeeds(run[n], acts[n])
    requires run[0].dead == {} && forall k | 0 <= k < n :: !acts[k].Die?
    ensures GenerationOf(run[i]) < GenerationOf(run[n])
  {
    forall k | i <= k < n ensures !Resets(run[k], acts[k]) {
      NoDeathNoReset(run, acts, k);
    }
    GenerationsRise(run, acts, i, n);
  }

  // ----- Generations spent -----

  /** What whoever takes the lock next can see: the idle record's generation, the ready instance's. */
  function Shown(d: Disk): nat {
    Max(if d.journal.phase.Idle? then d.journal.newer else 0,
        if d.name.Some? && d.name.value.boot.Ready? then d.name.value.gen else 0)
  }

  /** The largest generation shown at any moment so far at which the lock was free; it never falls. */
  function Spent(run: seq<World>, i: nat): nat
    requires i < |run|
  {
    var before := if i == 0 then 0 else Spent(run, i - 1);
    if run[i].pc.Free? then Max(before, Shown(run[i].disk)) else before
  }

  lemma {:induction false} SpentGrows(run: seq<World>, i: nat, n: nat)
    requires i <= n < |run|
    ensures Spent(run, i) <= Spent(run, n)
    decreases n
  {
    if i < n {
      SpentGrows(run, i, n - 1);
    }
  }

  /** A generation handed out is spent. */
  lemma HandedOutIsSpent(run: seq<World>, acts: seq<Action>, i: nat)
    requires IsRun(run, acts) && i < |acts| && Succeeds(run[i], acts[i])
    ensures GenerationOf(run[i]) <= Spent(run, i + 1)
  {
  }

  lemma AboveBoth(w: World, g: nat, h: nat)
    requires Above(w, g) && Above(w, h)
    ensures Above(w, Max(g, h))
  {
  }

  lemma RestShows(w: World)
    requires Inv(w) && w.pc.Free?
    ensures Above(w, Shown(w.disk))
  {
  }

  lemma {:induction false} SpentIsAbove(run: seq<World>, acts: seq<Action>, n: nat)
    requires IsRun(run, acts) && n < |run| && GoodThrough(run, acts, 0, n)
    ensures Above(run[n], Spent(run, n))
    decreases n
  {
    RunInv(run, acts, n);
    if n > 0 {
      SpentIsAbove(run, acts, n - 1);
      RunInv(run, acts, n - 1);
      StaysAbove(run[n - 1], acts[n - 1], Spent(run, n - 1));
      if run[n].pc.Free? {
        RestShows(run[n]);
        AboveBoth(run[n], Spent(run, n - 1), Shown(run[n].disk));
      }
    }
  }

  /** While every recovery is good, an instance becomes ready only with a generation never spent. */
  lemma ReadyIsFresh(run: seq<World>, acts: seq<Action>, n: nat)
    requires IsRun(run, acts) && n < |acts| && StoresReady(run[n], acts[n]) && GoodThrough(run, acts, 0, n)
    ensures Spent(run, n) < GenerationOf(run[n])
  {
    SpentIsAbove(run, acts, n);
    RunInv(run, acts, n);
  }

  // ----- A recovery that is not good turns back -----

  /** What a create starts from has been seen, or is no higher than the record's older generation. */
  predicate Founded(j: Record, spent: nat) {
    j.newer == j.older || j.newer <= spent
  }

  /** A record of a create in progress announces one above something founded. */
  predicate Announced(j: Record, spent: nat) {
    j.phase.PreObject? || j.phase.Creating? ==> j.newer <= j.older + 1 || j.newer <= spent + 1
  }

  /** The create has not yet touched the disk, or only to recover. */
  predicate Untouched(w: World) {
    w.pc.Free? || (w.pc.Create? && Recovering(w.pc.create) && !w.pc.create.Existing?)
    || (w.pc.Remove? && (w.pc.remove.ReadForRemove? || w.pc.remove.WriteRemoving?))
  }

  predicate Known(w: World, spent: nat) {
    && Announced(w.disk.journal, spent)
    && (Untouched(w) ==> Shown(w.disk) <= spent)
    && (w.pc.Create? && w.pc.create.Existing? ==> Founded(w.pc.create.j, spent))
    && (w.pc.Create? && Carried(w.pc.create).Some? ==> Founded(Carried(w.pc.create).value, spent))
  }

  /** What is known after a step, the lock perhaps just freed. */
  predicate KnownAfter(w1: World, spent: nat) {
    Known(w1, if w1.pc.Free? then Max(spent, Shown(w1.disk)) else spent)
  }

  lemma RecoverKnows(w: World, io: Io, liveness: Liveness, spent: nat)
    requires Inv(w) && Enabled(w, Step(io, liveness)) && w.pc.Create? && Recovering(w.pc.create) && Known(w, spent)
    ensures KnownAfter(StepNext(w, io, liveness), spent)
  {
  }

  lemma BuildKnows(w: World, io: Io, liveness: Liveness, spent: nat)
    requires Inv(w) && Enabled(w, Step(io, liveness)) && w.pc.Create? && Building(w.pc.create) && Known(w, spent)
    ensures KnownAfter(StepNext(w, io, liveness), spent)
  {
  }

  lemma CommitKnows(w: World, io: Io, liveness: Liveness, spent: nat)
    requires Inv(w) && Enabled(w, Step(io, liveness)) && w.pc.Create? && Known(w, spent)
    requires !Recovering(w.pc.create) && !Building(w.pc.create)
    ensures KnownAfter(StepNext(w, io, liveness), spent)
  {
  }

  lemma StepKnows(w: World, io: Io, liveness: Liveness, spent: nat)
    requires Inv(w) && Enabled(w, Step(io, liveness)) && Known(w, spent)
    ensures KnownAfter(StepNext(w, io, liveness), spent)
  {
    if w.pc.Remove? {
      RemoveKnows(w, io, liveness, spent);
    } else if Recovering(w.pc.create) {
      RecoverKnows(w, io, liveness, spent);
    } else if Building(w.pc.create) {
      BuildKnows(w, io, liveness, spent);
    } else {
      CommitKnows(w, io, liveness, spent);
    }
  }

  lemma RemoveKnows(w: World, io: Io, liveness: Liveness, spent: nat)
    requires Inv(w) && Enabled(w, Step(io, liveness)) && w.pc.Remove? && Known(w, spent)
    ensures KnownAfter(StepNext(w, io, liveness), spent)
  {
  }

  lemma NextKnows(w: World, act: Action, spent: nat)
    requires Inv(w) && Enabled(w, act) && Known(w, spent)
    ensures KnownAfter(Next(w, act), spent)
  {
    match act
    case Step(io, liveness) => StepKnows(w, io, liveness, spent);
    case _ =>
  }

  lemma {:induction false} RunKnows(run: seq<World>, acts: seq<Action>, n: nat)
    requires IsRun(run, acts) && n < |run|
    ensures Known(run[n], Spent(run, n))
    decreases n
  {
    if n > 0 {
      RunKnows(run, acts, n - 1);
      RunInv(run, acts, n - 1);
      NextKnows(run[n - 1], acts[n - 1], Spent(run, n - 1));
    }
  }

  /** The next instance to become ready will have generation `q`. */
  predicate Bound(w: World, q: nat) {
    && 0 < q
    && (w.disk.name.Some? ==> !w.disk.name.value.boot.Ready?)
    && (match w.disk.journal.phase
        case Idle => w.disk.journal.older == w.disk.journal.newer == q - 1
        case Removing => false
        case _ => w.disk.journal.older == q - 1 && w.disk.journal.newer == q)
    && (w.pc.Create? && Carried(w.pc.create).Some? ==>
          var j := Carried(w.pc.create).value; j.older == j.newer == q - 1)
    && (w.pc.Remove? ==> w.pc.remove.ReadForRemove?)
    && !(w.pc.Create? && w.pc.create.WriteDone?)
  }

  lemma CreateStaysBound(w: World, io: Io, liveness: Liveness, q: nat)
    requires Inv(w) && Enabled(w, Step(io, liveness)) && w.pc.Create? && Bound(w, q)
    requires !StoresReady(w, Step(io, liveness))
    ensures Bound(StepNext(w, io, liveness), q)
  {
  }

  lemma StaysBound(w: World, act: Action, q: nat)
    requires Inv(w) && Enabled(w, act) && Bound(w, q) && !StoresReady(w, act)
    ensures Bound(Next(w, act), q)
  {
    match act
    case Step(io, liveness) =>
      if w.pc.Create? {
        CreateStaysBound(w, io, liveness, q);
      }
    case _ =>
  }

  lemma {:induction false} BoundThrough(run: seq<World>, acts: seq<Action>, i: nat, n: nat, q: nat)
    requires IsRun(run, acts) && i <= n < |run| && Bound(run[i], q)
    requires forall k | i <= k < n :: !StoresReady(run[k], acts[k])
    ensures Bound(run[n], q)
    decreases n
  {
    if i < n {
      BoundThrough(run, acts, i, n - 1, q);
      RunInv(run, acts, n - 1);
      StaysBound(run[n - 1], acts[n - 1], q);
    }
  }

  /**
   After a recovery that is not good, the next instance to become ready repeats a generation spent
   before it, or falls below one.
   */
  lemma BadRecoveryRepeats(run: seq<World>, acts: seq<Action>, i: nat, n: nat)
    requires IsRun(run, acts) && i < n < |acts|
    requires Resets(run[i], acts[i]) && !Good(run[i].disk) && StoresReady(run[n], acts[n])
    requires forall k | i < k < n :: !StoresReady(run[k], acts[k])
    ensures GenerationOf(run[n]) <= Spent(run, i)
  {
    RunInv(run, acts, i);
    RunKnows(run, acts, i);
    var q := run[i].disk.journal.older + 1;
    assert Bound(run[i + 1], q);
    BoundThrough(run, acts, i + 1, n, q);
    RunInv(run, acts, n);
  }

  /**
   In a run whose recoveries so far were all good, a recovery is followed by an instance of a
   generation never spent exactly when it is good too.
   */
  lemma RecoveryKeepsOrderIff(run: seq<World>, acts: seq<Action>, i: nat, n: nat)
    requires IsRun(run, acts) && i < n < |acts| && Resets(run[i], acts[i]) && StoresReady(run[n], acts[n])
    requires GoodThrough(run, acts, 0, i)
    requires forall k | i < k < n :: !StoresReady(run[k], acts[k]) && !Resets(run[k], acts[k])
    ensures Spent(run, i) < GenerationOf(run[n]) <==> Good(run[i].disk)
  {
    if Good(run[i].disk) {
      ReadyIsFresh(run, acts, n);
      SpentGrows(run, i, n);
    } else {
      BadRecoveryRepeats(run, acts, i, n);
    }
  }

  // ----- A run that does -----

  ghost predicate Reached(w: World) {
    exists run: seq<World>, acts: seq<Action> :: IsRun(run, acts) && run[|run| - 1] == w
  }

  lemma ReachedNext(w: World, act: Action, w1: World)
    requires Reached(w) && Enabled(w, act) && w1 == Next(w, act)
    ensures Reached(w1)
  {
    var run: seq<World>, acts: seq<Action> :| IsRun(run, acts) && run[|run| - 1] == w;
    assert IsRun(run + [w1], acts + [act]);
    assert (run + [w1])[|run|] == w1;
  }

  predicate Vacant(w: World) {
    w.pc.Free? && w.disk.journal.phase.Idle? && w.disk.name.None? && NextGeneration(w.disk.journal).Some?
  }

  /** A create has found the name free and is left to itself: it gets as far as its own object. */
  lemma CreateMakesObject(w: World, p: Proc, j: Record, g: nat)
    requires Reached(w) && w.proc == p && w.pc == Create(Existing(j)) && w.disk == Disk(j, None)
    requires j.phase.Idle? && NextGeneration(j) == Some(g)
    ensures Reached(w.(disk := Disk(Record(PreObject, j.older, g, 0, p), Some(Object(w.nextId, Blank, 0, p, false))),
                       nextId := w.nextId + 1, pc := Create(Inspect(j, g, w.nextId))))
  {
    var w1 := w.(pc := Create(WritePre(j, g)));
    var w2 := w.(disk := Disk(Record(PreObject, j.older, g, 0, p), None), pc := Create(MakeObject(j, g)));
    ReachedNext(w, Step(Fine, Unverifiable), w1);
    ReachedNext(w1, Step(Fine, Unverifiable), w2);
    ReachedNext(w2, Step(Fine, Unverifiable), Next(w2, Step(Fine, Unverifiable)));
  }

  function Created(w: World, p: Proc, g: nat): World {
    w.(disk := Disk(Record(Idle, w.disk.journal.older, g, w.nextId, p), Some(Object(w.nextId, Ready, g, p, true))),
       nextId := w.nextId + 1, handles := w.handles + {Handle(w.nextId, g)}, proc := p, pc := Free)
  }

  /** And then succeeds. */
  lemma ExistingSucceeds(w: World, p: Proc, j: Record, g: nat)
    requires Reached(w) && w.proc == p && w.pc == Create(Existing(j)) && w.disk == Disk(j, None)
    requires j.phase.Idle? && NextGeneration(j) == Some(g)
    ensures Reached(Created(w, p, g))
  {
    CreateMakesObject(w, p, j, g);
    var id := w.nextId;
    var o := Object(id, Blank, 0, p, false);
    var announced := Record(Creating, j.older, g, id, p);
    var w5 := w.(disk := Disk(Record(PreObject, j.older, g, 0, p), Some(o)), nextId := id + 1,
                 pc := Create(Inspect(j, g, id)));
    var w6 := w5.(pc := Create(WriteCreating(j, g, id)));
    var w7 := w5.(disk := Disk(announced, Some(o)), pc := Create(WriteBoot(j, g, id)));
    var w8 := w5.(disk := Disk(announced, Some(o.(boot := Initializing))), pc := Create(StoreReady(j, g, id)));
    var w9 := w5.(disk := Disk(announced, Some(Object(id, Ready, g, p, true))), pc := Create(WriteDone(j, g, id)));
    ReachedNext(w5, Step(Fine, Unverifiable), w6);
    ReachedNext(w6, Step(Fine, Unverifiable), w7);
    ReachedNext(w7, Step(Fine, Unverifiable), w8);
    ReachedNext(w8, Step(Fine, Unverifiable), w9);
    ReachedNext(w9, Step(Fine, Unverifiable), Created(w, p, g));
  }

  /** A create left to itself under an idle journal with the name free succeeds. */
  lemma CreateSucceeds(w: World, p: Proc, g: nat)
    requires Reached(w) && Vacant(w) && p !in w.dead && NextGeneration(w.disk.journal) == Some(g)
    ensures Reached(Created(w, p, g))
  {
    var j := w.disk.journal;
    var w1 := w.(pc := Create(ReadJournal), proc := p);
    var w2 := w1.(pc := Create(Existing(j)));
    ReachedNext(w, BeginCreate(p), w1);
    ReachedNext(w1, Step(Fine, Unverifiable), w2);
    ExistingSucceeds(w2, p, j, g);
  }

  /** A second create replaces a dead producer's instance and dies with its first record written. */
  lemma SecondCreateDies(w: World, p: Proc, q: Proc)
    requires Reached(w) && w.pc.Free? && p in w.dead && q !in w.dead
    requires w.disk.journal.phase.Idle? && NextGeneration(w.disk.journal).Some?
    requires w.disk.name.Some? && w.disk.name.value.boot.Ready? && w.disk.name.value.owner == p
    requires w.disk.name.value.gen == w.disk.journal.newer < U64_MAX
    ensures var j := w.disk.journal;
            var disk := Disk(Record(PreObject, j.older, j.newer + 1, 0, q), None);
            Reached(w.(disk := disk, dead := w.dead + {q}, proc := q))
  {
    var j := w.disk.journal;
    var g := j.newer + 1;
    var w1 := w.(pc := Create(ReadJournal), proc := q);
    var w2 := w1.(pc := Create(Existing(j)));
    var w3 := w1.(pc := Create(UnlinkOld(j, g)));
    var w4 := w1.(disk := Disk(j, None), pc := Create(WritePre(j, g)));
    var w5 := w1.(disk := Disk(Record(PreObject, j.older, g, 0, q), None), pc := Create(MakeObject(j, g)));
    ReachedNext(w, BeginCreate(q), w1);
    ReachedNext(w1, Step(Fine, Exited), w2);
    ReachedNext(w2, Step(Fine, Exited), w3);
    ReachedNext(w3, Step(Fine, Exited), w4);
    ReachedNext(w4, Step(Fine, Unverifiable), w5);
    ReachedNext(w5, Die(q), w5.(dead := w.dead + {q}, pc := Free));
  }

  /** A third create recovers the second, back to the record's older generation. */
  lemma ThirdCreateRecovers(w: World, q: Proc, r: Proc)
    requires Reached(w) && w.pc.Free? && q in w.dead && r !in w.dead
    requires w.disk.name.None? && w.disk.journal.phase.PreObject? && w.disk.journal.creator == q
    ensures var j := ResetOf(w.disk.journal);
            Reached(w.(disk := Disk(j, None), pc := Create(Existing(j)), proc := r))
  {
    var j := w.disk.journal;
    var w1 := w.(pc := Create(ReadJournal), proc := r);
    var w2 := w1.(pc := Create(Probe(j)));
    var w3 := w1.(pc := Create(Look(j)));
    var w4 := w1.(pc := Create(Reset(ResetOf(j))));
    ReachedNext(w, BeginCreate(r), w1);
    ReachedNext(w1, Step(Fine, Unverifiable), w2);
    ReachedNext(w2, Step(Fine, Exited), w3);
    ReachedNext(w3, Step(Fine, Unverifiable), w4);
    ReachedNext(w4, Step(Fine, Unverifiable), w1.(disk := Disk(ResetOf(j), None), pc := Create(Existing(ResetOf(j)))));
  }

  /** So a generation can be handed out twice: two handles of generation 1 to two different objects. */
  lemma RecoveryTurnsBack()
    ensures exists w: World, a: Handle, b: Handle ::
              Reached(w) && a in w.handles && b in w.handles && a.id != b.id && a.gen == b.gen == 1
  {
    var w0 := World(Disk(Record(Idle, 0, 0, 0, 0), None), 1, {}, {}, Free, 0);
    assert IsRun([w0], []);
    CreateSucceeds(w0, 1, 1);
    var w1 := Created(w0, 1, 1);
    var w2 := w1.(dead := {1});
    ReachedNext(w1, Die(1), w2);
    SecondCreateDies(w2, 1, 2);
    var w3 := w2.(disk := Disk(Record(PreObject, 0, 2, 0, 2), None), dead := {1} + {2}, proc := 2);
    ThirdCreateRecovers(w3, 2, 3);
    var j := ResetOf(w3.disk.journal);
    var w4 := w3.(disk := Disk(j, None), pc := Create(Existing(j)), proc := 3);
    ExistingSucceeds(w4, 3, j, 1);
    var w5 := Created(w4, 3, 1);
    assert Handle(1, 1) in w5.handles && Handle(2, 1) in w5.handles;
  }
}
