/** Runs that show the journal's exceptions happen: a name blocked for good, and one blocked by a live process. */
module JournalRuns {
  import opened Words
  import opened Journal
  import opened JournalOrder
  import opened JournalRecovery

  function Empty(): World {
    World(Disk(Record(Idle, 0, 0, 0, 0), None), 1, {}, {}, Free, 0)
  }

  /** The first create ever, on finding the name free. */
  lemma FirstCreate() returns (w: World)
    ensures Reached(w) && w == Empty().(pc := Create(Existing(Record(Idle, 0, 0, 0, 0))), proc := 1)
  {
    assert IsRun([Empty()], []);
    var w1 := Empty().(pc := Create(ReadJournal), proc := 1);
    w := Empty().(pc := Create(Existing(Record(Idle, 0, 0, 0, 0))), proc := 1);
    ReachedNext(Empty(), BeginCreate(1), w1);
    ReachedNext(w1, Step(Fine, Unverifiable), w);
  }

  /** It dies with its object announced and no bootstrap written: the name is lost for good. */
  lemma DeathBeforeBootstrap()
    ensures exists w :: Reached(w) && w.pc.Free? && w.disk.journal.creator in w.dead && Stuck(w)
  {
    var w := FirstCreate();
    var j := w.disk.journal;
    CreateMakesObject(w, 1, j, 1);
    var o := Object(1, Blank, 0, 1, false);
    var w1 := w.(disk := Disk(Record(PreObject, 0, 1, 0, 1), Some(o)), nextId := 2, pc := Create(Inspect(j, 1, 1)));
    var w2 := w1.(pc := Create(WriteCreating(j, 1, 1)));
    var w3 := w1.(disk := Disk(Record(Creating, 0, 1, 1, 1), Some(o)), pc := Create(WriteBoot(j, 1, 1)));
    var w4 := w3.(dead := {1}, pc := Free);
    ReachedNext(w1, Step(Fine, Unverifiable), w2);
    ReachedNext(w2, Step(Fine, Unverifiable), w3);
    ReachedNext(w3, Die(1), w4);
  }

  /** Its first journal write takes effect but reports an error: its own retries are refused from then on. */
  lemma FailedWriteOccupies()
    ensures exists w :: Reached(w) && w.pc.Free? && w.dead == {} && w.disk.name.None? && Occupied(w)
  {
    var w := FirstCreate();
    var j := w.disk.journal;
    var w1 := w.(pc := Create(WritePre(j, 1)));
    var w2 := w.(disk := Disk(Record(PreObject, 0, 1, 0, 1), None), pc := Free);
    ReachedNext(w, Step(Fine, Unverifiable), w1);
    ReachedNext(w1, Step(FailsAfter, Unverifiable), w2);
  }
}
