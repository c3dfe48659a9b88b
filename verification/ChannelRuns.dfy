/** Runs that show the channel's exceptions happen: an orphan, a spent identity, a sample lost to its codec. */
module ChannelRuns {
  import opened Words
  import opened Channel
  import opened ChannelHandover
  import opened ChannelTheorems

  /** Step `i` of the run is one of the protocol's. */
  ghost predicate Linked(run: seq<State>, acts: seq<Action>, i: nat) {
    i < |acts| && i + 1 < |run| && Enabled(run[i], acts[i]) && run[i + 1] == Next(run[i], acts[i])
  }

  ghost predicate Chain(run: seq<State>, acts: seq<Action>) {
    && |run| == |acts| + 1 && Init(run[0])
    && (forall i {:trigger Linked(run, acts, i)} | 0 <= i < |acts| :: Linked(run, acts, i))
  }

  ghost predicate Reached(s: State) {
    exists run: seq<State>, acts: seq<Action> :: Chain(run, acts) && run[|run| - 1] == s
  }

  lemma ReachedNext(s: State, act: Action) returns (s1: State)
    requires Reached(s) && Enabled(s, act)
    ensures s1 == Next(s, act) && Reached(s1)
  {
    var run: seq<State>, acts: seq<Action> :| Chain(run, acts) && run[|run| - 1] == s;
    s1 := Next(s, act);
    var run1, acts1 := run + [s1], acts + [act];
    forall i | 0 <= i < |acts1| ensures Linked(run1, acts1, i) {
      assert i < |acts| ==> Linked(run, acts, i);
    }
    assert Chain(run1, acts1) && run1[|run|] == s1;
  }

  /** What is reached so is reached by a run. */
  lemma ReachedByRun(s: State)
    ensures Reached(s) <==> exists run: seq<State>, acts: seq<Action> :: IsRun(run, acts) && run[|run| - 1] == s
  {
    if Reached(s) {
      var run: seq<State>, acts: seq<Action> :| Chain(run, acts) && run[|run| - 1] == s;
      forall i | 0 <= i < |acts| ensures Enabled(run[i], acts[i]) && run[i + 1] == Next(run[i], acts[i]) {
        assert Linked(run, acts, i);
      }
      assert IsRun(run, acts);
    }
    if exists run: seq<State>, acts: seq<Action> :: IsRun(run, acts) && run[|run| - 1] == s {
      var run: seq<State>, acts: seq<Action> :| IsRun(run, acts) && run[|run| - 1] == s;
      assert Chain(run, acts);
    }
  }

  const X := Sample([7], 1)

  const BLANK := Slot(Free, 0, 0, 0, [0], 0, 0)

  /** The slot of the first sample, while a consumer of epoch `epoch` is at it or nobody is. */
  function First(sum: Payload -> nat, state: SlotState, epoch: nat): Slot {
    Slot(state, 1, 1, 1, [7], sum([7]), epoch)
  }

  /** A channel of one-byte samples whose first slot is `slot`. */
  ghost predicate OneByte(s: State, slot: Slot) {
    s.width == 1 && |s.slots| == SLOTS && s.slots[0] == slot && s.slots[1] == s.slots[2] == BLANK
  }

  function Fresh(sum: Payload -> nat, codec: Payload -> bool): State {
    State(1, sum, codec, [BLANK, BLANK, BLANK], NO_TICKET, 0, false, Ready, Nobody, Handle(0, 0, true), [], [])
  }

  lemma FreshReached(sum: Payload -> nat, codec: Payload -> bool)
    ensures Reached(Fresh(sum, codec)) && OneByte(Fresh(sum, codec), BLANK)
  {
    assert Chain([Fresh(sum, codec)], []);
  }

  // ----- An identity nobody can rewrite -----

  /** The first opener dies between the two halves of its identity. */
  lemma IdentityHalfWritten()
    ensures exists s :: Reached(s) && s.cons.Nobody? && !Even(s.epoch) && Sealed(s)
  {
    FreshReached(_ => 0, _ => true);
    var s1 := ReachedNext(Fresh(_ => 0, _ => true), Consuming(Enter));
    var s2 := ReachedNext(s1, Consuming(Read1(true)));
    var s3 := ReachedNext(s2, Consuming(Die));
  }

  // ----- One sample published, one consumer -----

  lemma Opened(sum: Payload -> nat, codec: Payload -> bool) returns (s: State)
    ensures Reached(s) && OneByte(s, BLANK) && s.sum == sum && s.codec == codec
    ensures s.epoch == 2 && s.online && s.cons == Rest && s.handle == Handle(2, 0, true) && s.taken == []
    ensures s.latest == NO_TICKET && s.prod == Ready && s.samples == []
  {
    FreshReached(sum, codec);
    var s1 := ReachedNext(Fresh(sum, codec), Consuming(Enter));
    var s2 := ReachedNext(s1, Consuming(Read1(true)));
    var s3 := ReachedNext(s2, Consuming(Read1(true)));
    s := ReachedNext(s3, Consuming(Read1(true)));
  }

  /** The first slot seized for the sample. */
  lemma Seized(s: State) returns (s1: State)
    requires Reached(s) && OneByte(s, BLANK) && s.prod == Ready && s.latest == NO_TICKET
    ensures Reached(s1) && OneByte(s1, BLANK.(state := Writing))
    ensures s1 == s.(slots := s1.slots, prod := Write(Whole(X), 1, 0, 1, StoreSize))
  {
    var p := ReachedNext(s, Producing(Publish(X, true, true)));
    var q := ReachedNext(p, Producing(Write1));
    var r := ReachedNext(q, Producing(Write1));
    s1 := ReachedNext(r, Producing(Write1));
  }

  /** One store into the first slot. */
  lemma Stored(s: State, slot: Slot, at: WriteAt, slot1: Slot, at1: WriteAt) returns (s1: State)
    requires Reached(s) && OneByte(s, slot) && |slot.data| == |slot1.data| == 1
    requires s.prod == Write(Whole(X), 1, 0, 1, at) && !at.StoreTicket? && (at.CopyByte? ==> at.k == 0)
    requires WriteNext(s.sum, slot, s.prod) == (slot1, Write(Whole(X), 1, 0, 1, at1))
    ensures Reached(s1) && OneByte(s1, slot1)
    ensures s1 == s.(slots := s1.slots, prod := Write(Whole(X), 1, 0, 1, at1))
  {
    s1 := ReachedNext(s, Producing(Write1));
  }

  lemma HeaderWritten(s: State) returns (s1: State)
    requires Reached(s) && OneByte(s, BLANK.(state := Writing)) && s.prod == Write(Whole(X), 1, 0, 1, StoreSize)
    ensures Reached(s1) && OneByte(s1, Slot(Writing, 1, 1, 1, [0], 0, 0))
    ensures s1 == s.(slots := s1.slots, prod := Write(Whole(X), 1, 0, 1, CopyByte(0)))
  {
    var sized := BLANK.(state := Writing, size := 1);
    s1 := Stored(s, BLANK.(state := Writing), StoreSize, sized, StoreSequence);
    s1 := Stored(s1, sized, StoreSequence, sized.(seqno := 1), StoreBoot);
    s1 := Stored(s1, sized.(seqno := 1), StoreBoot, Slot(Writing, 1, 1, 1, [0], 0, 0), CopyByte(0));
  }

  lemma SampleWritten(s: State) returns (s1: State)
    requires Reached(s) && OneByte(s, Slot(Writing, 1, 1, 1, [0], 0, 0))
    requires s.prod == Write(Whole(X), 1, 0, 1, CopyByte(0))
    ensures Reached(s1) && OneByte(s1, First(s.sum, Published, 0))
    ensures s1 == s.(slots := s1.slots, prod := Write(Whole(X), 1, 0, 1, StoreTicket))
  {
    var filled := Slot(Writing, 1, 1, 1, [7], 0, 0);
    assert [0][0 := 7] == [7];
    s1 := Stored(s, Slot(Writing, 1, 1, 1, [0], 0, 0), CopyByte(0), filled, StoreSum);
    s1 := Stored(s1, filled, StoreSum, First(s.sum, Writing, 0), StorePublished);
    s1 := Stored(s1, First(s.sum, Writing, 0), StorePublished, First(s.sum, Published, 0), StoreTicket);
  }

  lemma PublishedOne(s: State) returns (s1: State)
    requires Reached(s) && OneByte(s, BLANK) && s.prod == Ready && s.latest == NO_TICKET && s.samples == []
    ensures Reached(s1) && OneByte(s1, First(s.sum, Published, 0))
    ensures s1 == s.(slots := s1.slots, latest := Ticket(1, 0), prod := Sent(SentOk(1)), samples := [X])
  {
    var p := Seized(s);
    var q := HeaderWritten(p);
    var r := SampleWritten(q);
    s1 := ReachedNext(r, Producing(Write1));
  }

  /** A consumer that has just opened, and one sample for it. */
  ghost predicate Ripe(s: State) {
    && OneByte(s, First(s.sum, Published, 0)) && s.latest == Ticket(1, 0) && s.samples == [X]
    && s.epoch == 2 && s.online && s.cons == Rest && s.handle == Handle(2, 0, true) && s.taken == []
  }

  lemma RipeReached(sum: Payload -> nat, codec: Payload -> bool) returns (s: State)
    ensures Reached(s) && Ripe(s) && s.sum == sum && s.codec == codec
  {
    var o := Opened(sum, codec);
    s := PublishedOne(o);
  }

  // ----- A read of it -----

  /** One access of the consumer to the first slot. */
  lemma Accessed(s: State, slot: Slot, slot1: Slot, c1: Consumer) returns (s1: State)
    requires Reached(s) && OneByte(s, slot) && |slot.data| == |slot1.data| == 1
    requires s.cons.Claim? || s.cons.Release? || s.cons.Reclaim?
    requires s.cons.Claim? ==> SlotOf(s.cons) == 0 && ClaimNext(s, slot, s.cons) == (slot1, c1)
    requires s.cons.Release? ==> s.cons.i == 0 && ReleaseNext(s.codec, slot, s.cons) == (slot1, c1)
    requires s.cons.Reclaim? ==> s.cons.i == 0 && ReclaimNext(s, slot, s.cons) == (slot1, c1)
    ensures Reached(s1) && OneByte(s1, slot1) && s1 == s.(slots := s1.slots, cons := c1)
  {
    s1 := ReachedNext(s, Consuming(Read1(true)));
  }

  lemma Marked(s: State, call: Call) returns (s1: State)
    requires Reached(s) && Ripe(s) && call.base == 1
    ensures Reached(s1) && OneByte(s1, First(s.sum, ReadingClaiming, 2))
    ensures s1 == s.(slots := s1.slots, cons := Claim(call, 0, MarkReading(Ticket(1, 0))))
  {
    var t, sum := Ticket(1, 0), s.sum;
    s1 := ReachedNext(s, Consuming(BeginRead(call.lends)));
    s1 := Accessed(s1, First(sum, Published, 0), First(sum, Published, 0), Claim(call, 0, ClaimCas(t)));
    s1 := Accessed(s1, First(sum, Published, 0), First(sum, ReadingClaiming, 0), Claim(call, 0, MarkEpoch(t)));
    s1 := Accessed(s1, First(sum, ReadingClaiming, 0), First(sum, ReadingClaiming, 2), Claim(call, 0, MarkReading(t)));
  }

  lemma Claimed(s: State, call: Call) returns (s1: State)
    requires Reached(s) && Ripe(s) && call.base == 1
    ensures Reached(s1) && OneByte(s1, First(s.sum, Reading, 2))
    ensures s1 == s.(slots := s1.slots, cons := Check(call, 0, 1))
  {
    var t, held := Ticket(1, 0), First(s.sum, Reading, 2);
    s1 := Marked(s, call);
    s1 := Accessed(s1, First(s.sum, ReadingClaiming, 2), held, Claim(call, 0, LoadSequence(t)));
    s1 := Accessed(s1, held, held, Claim(call, 0, Recheck(t, 1)));
    s1 := Accessed(s1, held, held, Check(call, 0, 1));
  }

  lemma TakenOne(s: State, lends: bool) returns (s1: State)
    requires Reached(s) && Ripe(s)
    ensures Reached(s1) && OneByte(s1, First(s.sum, Reading, 2))
    ensures s1 == s.(slots := s1.slots, handle := Handle(2, 1, false), taken := [Taken(1, 0, lends)],
                     cons := if lends then Lending(0, 1) else CopyOut(0, 1, 1, []))
  {
    var c := Claimed(s, Call(lends, 1));
    s1 := ReachedNext(c, Consuming(Read1(true)));
  }

  /** The copy is made and the slot's epoch cleared, but the slot is still READING. */
  lemma HalfwayOut(s: State) returns (s1: State)
    requires Reached(s) && Ripe(s)
    ensures Reached(s1) && OneByte(s1, First(s.sum, Reading, 0))
    ensures s1 == s.(slots := s1.slots, handle := Handle(2, 1, false), taken := [Taken(1, 0, false)],
                     cons := Release(0, true, Finish(Got(1, X))))
  {
    var t := TakenOne(s, false);
    assert [] + [t.slots[0].data[0]] == [7];
    var u := ReachedNext(t, Consuming(Read1(true)));
    s1 := Accessed(u, First(s.sum, Reading, 2), First(s.sum, Reading, 0), Release(0, true, Finish(Got(1, X))));
  }

  // ----- What can go wrong with it -----

  /** A consumer that dies there leaves an orphan. */
  lemma ReaderLeavesOrphan()
    ensures exists s :: Reached(s) && s.cons.Nobody? && Blocked(s, 0) && !Replaceable(s)
  {
    var s := RipeReached(_ => 0, _ => true);
    var t := HalfwayOut(s);
    var u := ReachedNext(t, Consuming(Die));
  }

  /** The next opener is halfway through taking back the slot of a consumer that died with a loan. */
  lemma HalfwayBack(s: State) returns (s1: State)
    requires Reached(s) && Ripe(s)
    ensures Reached(s1) && OneByte(s1, First(s.sum, Reading, 0)) && s1.cons == Reclaim(0, Store)
    ensures s1.online && s1.epoch == 2
  {
    var held := First(s.sum, Reading, 2);
    var t := TakenOne(s, true);
    var u := ReachedNext(t, Consuming(Die));
    var v := ReachedNext(u, Consuming(Enter));
    var w := Accessed(v, held, held, Reclaim(0, LoadEpoch(Reading)));
    var x := Accessed(w, held, held, Reclaim(0, Zero));
    s1 := Accessed(x, held, First(s.sum, Reading, 0), Reclaim(0, Store));
  }

  /** So does an opener that dies there. */
  lemma OpenerLeavesOrphan()
    ensures exists s ::
              && Reached(s) && s.cons == Reclaim(0, Store)
              && Reached(s.(cons := Nobody)) && Blocked(s.(cons := Nobody), 0) && !Replaceable(s.(cons := Nobody))
  {
    var s := RipeReached(_ => 0, _ => true);
    var t := HalfwayBack(s);
    var u := ReachedNext(t, Consuming(Die));
    assert u == t.(cons := Nobody);
  }

  /** A sample the codec rejects is taken, not delivered, and not reported as missed. */
  lemma UndecodedIsLost()
    ensures exists s ::
              && Reached(s) && s.cons == Read(GotNothing(DecodeFailed(1))) && s.taken == [Taken(1, 0, false)]
              && !Kept(s.codec, s.samples, s.taken[0])
              && |s.taken| - Refused(s.codec, s.samples, s.taken) + Missed(s.taken) == 0
  {
    var s := RipeReached(_ => 0, _ => false);
    var t := HalfwayOut(s);
    var u := Accessed(t, First(s.sum, Reading, 0), First(s.sum, Published, 0), Read(GotNothing(DecodeFailed(1))));
    assert u.taken[..0] == [];
    assert Refused(u.codec, u.samples, u.taken) == 1;
    assert Missed(u.taken) == 0;
  }
}
