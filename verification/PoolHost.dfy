/**
 The pool's operations as their callers see them: methods on shared blocks that other actors keep
 changing between any two accesses.
 */
module PoolHost {
  import opened Words
  import opened Pool
  import opened PoolInvariant
  import opened PoolSteps
  import opened PoolTheorems

  // ----- Every call is bounded -----

  predicate Busy(pc: Pc) {
    pc.Scan? || pc.WriteClaim? || pc.ReadTry? || pc.ReadClaim? || pc.Closing?
  }

  function WriteRank(write: WriteAt): nat {
    match write
    case LoadGeneration => 12
    case CheckEpoch(_) => 11
    case BeginLoad(_) => 10
    case BeginCas(_, _) => 9
    case StoreGeneration(_, _) => 8
    case StoreOwner(_, _) => 7
    case StoreEpoch(_, _) => 6
    case StoreWriting => 5
    case MakeHandle => 4
    case Retire(_) => 3
    case RestoreFree => 3
  }

  function ReadRank(read: ReadAt): nat {
    match read
    case RecheckGeneration => 8
    case ReadCheckEpoch => 7
    case ReadBeginLoad => 6
    case ReadBeginCas(_) => 5
    case ReadStoreOwner(_) => 4
    case ReadStoreEpoch(_) => 3
    case StoreReading => 2
    case Rollback(_) => 1
  }

  /** An upper bound on the accesses a call still makes. */
  function StepsLeft(pc: Pc, count: nat): nat
    requires (pc.Scan? || pc.WriteClaim?) ==> pc.b < count
  {
    match pc
    case Scan(b, _, _, scan) => 16 * (count - b) + (if scan.LoadState? then 14 else 13) - 16
    case WriteClaim(b, _, _, write) => 16 * (count - b) + WriteRank(write) - 16
    case ReadTry(_, _, attempt) =>
      9 + (match attempt
           case ValidateGeneration => 3
           case LoadPublished => 2
           case CheckGeneration => 1
           case ReadCas => 0)
    case ReadClaim(_, _, read) => ReadRank(read)
    case Closing(_, _, _, close) =>
      (match close case CloseState => 4 case CloseSnapshot => 3 case CloseGeneration => 2 case CloseStore => 1)
    case _ => 0
  }

  /** Where an access leads, given the block it finds. */
  function PcAfter(blk: Block, count: nat, me: nat, pc: Pc, recovery: bool, why: Error): Pc
    requires Busy(pc)
  {
    match pc
    case Scan(b, flags, seen, scan) =>
      if !scan.ClaimCas? then ScanNext(blk, count, pc, recovery)
      else if blk.state == Free then WriteClaim(b, flags, seen, LoadGeneration)
      else ScanOn(count, b, flags.(contention := true), seen + [LostCas])
    case WriteClaim(_, _, _, _) => WriteNext(blk, count, me, pc).1
    case ReadTry(b, gen, attempt) =>
      if !attempt.ReadCas? then TryNext(blk, pc, why)
      else if blk.state == Published then ReadClaim(b, gen, RecheckGeneration)
      else Done(Failed(Contention))
    case ReadClaim(_, _, _) => ReadNext(blk, me, pc).1
    case Closing(_, _, _, _) => CloseNext(blk, me, pc).1
  }

  lemma AdvancesTo(s: State, a: Actor, recovery: bool, why: Error)
    requires Enabled(s, Advance(a, recovery, why))
    ensures PcOf(AdvanceStep(s, a, recovery, why), a)
            == PcAfter(s.blocks[PcOf(s, a).b], |s.blocks|, a.process, PcOf(s, a), recovery, why)
  {
  }

  /**
   Every access brings its call nearer its end, whatever it finds: a call makes at most 16
   accesses for each block, 12 to acquire a read and 4 to close a buffer.
   */
  lemma EveryStepCounts(blk: Block, count: nat, me: nat, pc: Pc, recovery: bool, why: Error)
    requires Busy(pc) && pc.b < count
    ensures var pc1 := PcAfter(blk, count, me, pc, recovery, why);
            && ((pc1.Scan? || pc1.WriteClaim?) ==> pc1.b < count)
            && StepsLeft(pc1, count) < StepsLeft(pc, count) <= 16 * count + 12
  {
  }

  // ----- Interference -----

  predicate NoneBy(acts: seq<Action>, a: Actor) {
    forall k | 0 <= k < |acts| :: acts[k].actor != a
  }

  ghost predicate Leads(s: State, acts: seq<Action>, s1: State)
    decreases |acts|
  {
    if acts == [] then s1 == s else Enabled(s, acts[0]) && Leads(Next(s, acts[0]), acts[1..], s1)
  }

  /** Any number of steps and crashes of actors other than `a`. */
  ghost predicate OthersRan(s: State, s1: State, a: Actor) {
    exists acts :: NoneBy(acts, a) && Leads(s, acts, s1)
  }

  /** What no step takes back. */
  ghost predicate Grown(s: State, s1: State) {
    && |s1.blocks| == |s.blocks| && s1.width == s.width
    && s.redeemed <= s1.redeemed
    && (forall d | d in s.published :: d in s1.published && s1.published[d] == s.published[d])
  }

  /** What interference cannot take from `a`. */
  ghost predicate Undisturbed(s: State, s1: State, a: Actor) {
    && PcOf(s1, a) == PcOf(s, a)
    && (a in s1.crashed <==> a in s.crashed)
    && Grown(s, s1)
    && (InBlock(PcOf(s, a)) ==>
          PcOf(s, a).b < |s.blocks| == |s1.blocks| && s1.blocks[PcOf(s, a).b] == s.blocks[PcOf(s, a).b])
  }

  lemma StepGrows(s: State, act: Action)
    requires Inv(s) && Enabled(s, act)
    ensures Grown(s, Next(s, act))
  {
    forall d | d in s.published
      ensures d in Next(s, act).published && Next(s, act).published[d] == s.published[d]
    {
      StepKeepsPublished(s, act, d);
    }
  }

  lemma OneOther(s: State, act: Action, a: Actor)
    requires Inv(s) && Enabled(s, act) && act.actor != a
    ensures Undisturbed(s, Next(s, act), a)
  {
    StepGrows(s, act);
    if InBlock(PcOf(s, a)) {
      assert ActorOk(s, a);
      HeldBlockUntouched(s, act, a);
    }
  }

  lemma {:induction false} Interference(s: State, acts: seq<Action>, s1: State, a: Actor)
    requires Inv(s) && NoneBy(acts, a) && Leads(s, acts, s1)
    ensures Inv(s1) && Undisturbed(s, s1, a)
    decreases |acts|
  {
    assert ActorOk(s, a);
    if acts != [] {
      NextKeeps(s, acts[0]);
      OneOther(s, acts[0], a);
      Interference(Next(s, acts[0]), acts[1..], s1, a);
    }
  }

  // ----- The instants of a call -----

  ghost predicate Reaches(s: State, s1: State) {
    exists acts :: Leads(s, acts, s1)
  }

  /** From `s` to `s1` the pool passed through the instants of `past`, in order. */
  ghost predicate Passes(s: State, past: seq<State>, s1: State)
    decreases |past|
  {
    if past == [] then Reaches(s, s1)
    else
      var last := past[|past| - 1];
      Passes(s, past[..|past| - 1], last) && Reaches(last, s1)
  }

  lemma {:induction false} LeadsOn(s: State, acts: seq<Action>, s1: State, more: seq<Action>, s2: State)
    requires Leads(s, acts, s1) && Leads(s1, more, s2)
    ensures Leads(s, acts + more, s2)
    decreases |acts|
  {
    if acts == [] {
      assert acts + more == more;
    } else {
      LeadsOn(Next(s, acts[0]), acts[1..], s1, more, s2);
      assert (acts + more)[1..] == acts[1..] + more;
    }
  }

  lemma ReachesOn(s: State, s1: State, s2: State)
    requires Reaches(s, s1) && Reaches(s1, s2)
    ensures Reaches(s, s2)
  {
    var acts :| Leads(s, acts, s1);
    var more :| Leads(s1, more, s2);
    LeadsOn(s, acts, s1, more, s2);
  }

  lemma PassesOn(s: State, past: seq<State>, s1: State, s2: State)
    requires Passes(s, past, s1) && Reaches(s1, s2)
    ensures Passes(s, past, s2)
  {
    ReachesOn(if past == [] then s else past[|past| - 1], s1, s2);
  }

  /** Interference up to the instant `s1`, which is kept, then one own step. */
  lemma PassesRound(s0: State, past: seq<State>, s: State, acts: seq<Action>, s1: State, act: Action)
    requires Passes(s0, past, s) && Leads(s, acts, s1) && Enabled(s1, act)
    ensures Passes(s0, past + [s1], Next(s1, act))
  {
    PassesOn(s0, past, s, s1);
    assert (past + [s1])[..|past|] == past;
    assert Leads(Next(s1, act), [act][1..], Next(s1, act));
    assert Leads(s1, [act], Next(s1, act));
  }

  lemma PassesStep(s0: State, past: seq<State>, s: State, act: Action)
    requires Passes(s0, past, s) && Enabled(s, act)
    ensures Passes(s0, past, Next(s, act))
  {
    assert Leads(Next(s, act), [act][1..], Next(s, act));
    assert Leads(s, [act], Next(s, act));
    PassesOn(s0, past, s, Next(s, act));
  }

  lemma {:induction false} PassesFrom(s: State, act: Action, past: seq<State>, s1: State)
    requires Enabled(s, act) && Passes(Next(s, act), past, s1)
    ensures Passes(s, past, s1)
    decreases |past|
  {
    if past == [] {
      assert Leads(Next(s, act), [act][1..], Next(s, act));
      assert Leads(s, [act], Next(s, act));
      ReachesOn(s, Next(s, act), s1);
    } else {
      PassesFrom(s, act, past[..|past| - 1], past[|past| - 1]);
    }
  }

  // ----- What one call carries from step to step -----

  /** What the instants of a call say for the way it is going, or for the way it failed. */
  ghost predicate BorneOut(past: seq<State>, s0: State, s1: State, a: Actor) {
    var pc0, pc := PcOf(s0, a), PcOf(s1, a);
    match pc0
    case Scan(_, _, _, _) =>
      && Evidence(past, pc, a)
      && (pc.Done? ==> pc.res.Failed? && NoneToTake(past, |s1.blocks|, a, pc.res.why))
    case ReadTry(b, gen, _) => pc.Done? ==> pc.res.Failed? && RefusedAt(past, b, gen, a, pc.res.why)
    case _ => true
  }

  /** The last instant justifies the refusal. */
  ghost predicate RefusedAt(past: seq<State>, b: nat, gen: nat, a: Actor, why: Error) {
    && past != [] && b < |past[|past| - 1].blocks|
    && JustlyRefused(past[|past| - 1].blocks[b], gen, a, why)
  }

  lemma BorneOutOn(past: seq<State>, s0: State, s: State, s1: State, a: Actor, recovery: bool, why: Error)
    requires Inv(s1) && BorneOut(past, s0, s, a) && PcOf(s1, a) == PcOf(s, a) && Carried(s0, s1, a)
    requires Enabled(s1, Advance(a, recovery, why)) && Begun(PcOf(s0, a))
    ensures BorneOut(past + [s1], s0, AdvanceStep(s1, a, recovery, why), a)
  {
    var act := Advance(a, recovery, why);
    match PcOf(s0, a)
    case Scan(_, _, _, _) =>
      EvidenceLater(past, past + [s1], PcOf(s1, a), a);
      SearchStep(past + [s1], s1, act, a);
      StepGrows(s1, act);
    case ReadTry(_, _, _) =>
      if PcOf(Next(s1, act), a).Done? {
        StepRefuses(s1, act, a);
      }
    case Closing(_, _, _, _) =>
  }

  /** From `pc` the call `a` was making in `s0` can still end, or has ended, as it promises. */
  ghost predicate OnCourse(s0: State, s1: State, a: Actor) {
    var pc0, pc := PcOf(s0, a), PcOf(s1, a);
    match pc0
    case Scan(_, _, _, _) =>
      pc.Scan? || pc.WriteClaim? || pc.WriteBuffer? || (pc.Done? && pc.res.Failed?)
    case ReadTry(b, gen, _) =>
      || (pc.ReadTry? && pc.b == b && pc.gen == gen)
      || (pc.ReadClaim? && pc.b == b && pc.gen == gen)
      || (pc == ReadBuffer(b, gen) && (b, gen) !in s0.redeemed)
      || (pc.Done? && pc.res.Failed?)
    case Closing(b, gen, how, _) =>
      && b < |s0.blocks| == |s1.blocks|
      && (|| (pc.Closing? && pc.b == b && pc.gen == gen && pc.how == how && s1.blocks[b].data == s0.blocks[b].data)
          || (how.Publish? && pc == Done(PublishedAs(b, gen))
              && (b, gen) in s1.published && s1.published[(b, gen)] == s0.blocks[b].data)
          || (!how.Publish? && pc == Done(Closed(true)) && s1.blocks[b].state == Free))
    case _ => true
  }

  ghost predicate Carried(s0: State, s1: State, a: Actor) {
    OnCourse(s0, s1, a) && Grown(s0, s1) && a !in s1.crashed
  }

  lemma CarriedBeside(s0: State, s: State, s1: State, a: Actor)
    requires Inv(s) && Busy(PcOf(s, a)) && Carried(s0, s, a) && Undisturbed(s, s1, a)
    ensures Carried(s0, s1, a)
  {
  }

  lemma CarriedWrite(s0: State, s: State, a: Actor, recovery: bool, why: Error)
    requires Inv(s) && Carried(s0, s, a) && Enabled(s, Advance(a, recovery, why)) && PcOf(s0, a).Scan?
    ensures OnCourse(s0, AdvanceStep(s, a, recovery, why), a)
  {
  }

  lemma CarriedRead(s0: State, s: State, a: Actor, recovery: bool, why: Error)
    requires Inv(s) && Carried(s0, s, a) && Enabled(s, Advance(a, recovery, why)) && PcOf(s0, a).ReadTry?
    ensures OnCourse(s0, AdvanceStep(s, a, recovery, why), a)
  {
    var pc := PcOf(s, a);
    if pc.ReadClaim? && pc.read.StoreReading? {
      RedeemStep(s, Advance(a, recovery, why), (pc.b, pc.gen));
    }
  }

  lemma CarriedClose(s0: State, s: State, a: Actor, recovery: bool, why: Error)
    requires Inv(s) && Carried(s0, s, a) && Enabled(s, Advance(a, recovery, why)) && PcOf(s0, a).Closing?
    ensures OnCourse(s0, AdvanceStep(s, a, recovery, why), a)
  {
    assert ActorOk(s, a) && BlockOk(s, PcOf(s, a).b);
  }

  /** Interference followed by one own step. */
  lemma Round(s0: State, s: State, acts: seq<Action>, s1: State, a: Actor, recovery: bool, why: Error)
    requires Inv(s) && Carried(s0, s, a) && Busy(PcOf(s, a)) && Begun(PcOf(s0, a))
    requires NoneBy(acts, a) && Leads(s, acts, s1) && ClassifyError(why)
    ensures Enabled(s1, Advance(a, recovery, why))
    ensures var s2 := Next(s1, Advance(a, recovery, why));
            && Inv(s2) && Carried(s0, s2, a) && |s2.blocks| == |s.blocks|
            && LocalOk(PcOf(s, a), |s.blocks|) && LocalOk(PcOf(s2, a), |s.blocks|)
            && StepsLeft(PcOf(s2, a), |s.blocks|) < StepsLeft(PcOf(s, a), |s.blocks|)
  {
    var act := Advance(a, recovery, why);
    assert ActorOk(s, a);
    Interference(s, acts, s1, a);
    CarriedBeside(s0, s, s1, a);
    assert ActorOk(s1, a);
    EveryStepCounts(s1.blocks[PcOf(s1, a).b], |s1.blocks|, a.process, PcOf(s1, a), recovery, why);
    AdvancesTo(s1, a, recovery, why);
    StepGrows(s1, act);
    NextKeeps(s1, act);
    assert ActorOk(Next(s1, act), a);
    match PcOf(s0, a)
    case Scan(_, _, _, _) => CarriedWrite(s0, s1, a, recovery, why);
    case ReadTry(_, _, _) => CarriedRead(s0, s1, a, recovery, why);
    case Closing(_, _, _, _) => CarriedClose(s0, s1, a, recovery, why);
  }

  lemma OnCourseBefore(s0: State, s: State, acts: seq<Action>, s1: State, a: Actor)
    requires Inv(s) && Carried(s0, s, a) && Busy(PcOf(s, a)) && NoneBy(acts, a) && Leads(s, acts, s1)
    ensures Inv(s1) && Carried(s0, s1, a) && PcOf(s1, a) == PcOf(s, a)
  {
    Interference(s, acts, s1, a);
    CarriedBeside(s0, s, s1, a);
  }

  predicate Begun(pc: Pc) {
    (pc.Scan? && pc.seen == [] && !pc.scan.Classify?) || pc.ReadTry? || pc.Closing?
  }

  datatype Acquired<T> = Got(value: T) | Refused(why: Error)

  class SharedBufferPool {
    var mem: State

    /** `shared_buffer_pool_create_impl` */
    constructor (count: nat, width: nat)
      requires 0 < count
      ensures Init(mem) && |mem.blocks| == count && mem.width == width
    {
      var blank := Block(Free, 0, 0, 0, seq(width, _ => 0), None);
      mem := State(width, seq(count, _ => blank), map[], {}, map[], []);
    }

    /** A point at which any other actors may run. */
    method Yield(a: Actor)
      modifies this
      ensures OthersRan(old(mem), mem, a)
    {
      assert NoneBy([], a) && Leads(mem, [], mem);
    }

    /**
     Runs the call `a` has begun to its end, yielding before every shared access; `past` holds the
     instants of those accesses.
     */
    method Finish(a: Actor) returns (ghost past: seq<State>)
      requires Inv(mem) && Begun(PcOf(mem, a)) && a !in mem.crashed
      requires PcOf(mem, a).b < |mem.blocks|
      modifies this
      ensures Inv(mem) && Carried(old(mem), mem, a) && !Busy(PcOf(mem, a))
      ensures Passes(old(mem), past, mem) && BorneOut(past, old(mem), mem, a)
    {
      assert ActorOk(mem, a);
      past := [];
      assert Leads(mem, [], mem);
      while Busy(PcOf(mem, a))
        invariant Inv(mem) && Carried(old(mem), mem, a) && LocalOk(PcOf(mem, a), |mem.blocks|)
        invariant Passes(old(mem), past, mem) && BorneOut(past, old(mem), mem, a)
        decreases StepsLeft(PcOf(mem, a), |mem.blocks|)
      {
        ghost var before := mem;
        Yield(a);
        ghost var acts :| NoneBy(acts, a) && Leads(before, acts, mem);
        var recovery: bool := *;
        var why :| ClassifyError(why);
        Round(old(mem), before, acts, mem, a, recovery, why);
        OnCourseBefore(old(mem), before, acts, mem, a);
        BorneOutOn(past, old(mem), before, mem, a, recovery, why);
        PassesRound(old(mem), past, before, acts, mem, Advance(a, recovery, why));
        past := past + [mem];
        mem := Next(mem, Advance(a, recovery, why));
      }
    }

    /** Ends a call that failed. */
    method Leave(a: Actor) returns (why: Error)
      requires Inv(mem) && a !in mem.crashed && PcOf(mem, a).Done? && PcOf(mem, a).res.Failed?
      modifies this
      ensures Inv(mem) && PcOf(mem, a).Idle? && a !in mem.crashed && Grown(old(mem), mem)
      ensures why == PcOf(old(mem), a).res.why && |mem.blocks| == |old(mem).blocks|
      ensures forall s0, past | Passes(s0, past, old(mem)) :: Passes(s0, past, mem)
    {
      why := PcOf(mem, a).res.why;
      NextKeeps(mem, Return(a));
      StepGrows(mem, Return(a));
      forall s0, past | Passes(s0, past, mem) ensures Passes(s0, past, Next(mem, Return(a))) {
        PassesStep(s0, past, mem, Return(a));
      }
      mem := Next(mem, Return(a));
    }

    /**
     `try_acquire_write`: a block to write into, with a generation never handed out; or an error,
     and then each block could not be taken at some instant of the call.
     */
    method TryAcquireWrite(a: Actor) returns (res: Acquired<(nat, nat)>, ghost past: seq<State>)
      requires Inv(mem) && PcOf(mem, a).Idle? && a !in mem.crashed
      modifies this
      ensures Inv(mem) && Grown(old(mem), mem) && a !in mem.crashed && Passes(old(mem), past, mem)
      ensures res.Got? ==>
                && PcOf(mem, a) == WriteBuffer(res.value.0, res.value.1)
                && res.value.0 < |mem.blocks| && mem.blocks[res.value.0].holder == Some(a)
                && res.value !in mem.published
      ensures res.Refused? ==> PcOf(mem, a).Idle? && NoneToTake(past, |mem.blocks|, a, res.why)
    {
      NextKeeps(mem, BeginWrite(a));
      ghost var before := mem;
      mem := Next(mem, BeginWrite(a));
      past := Finish(a);
      PassesFrom(before, BeginWrite(a), past, mem);
      assert ActorOk(mem, a);
      var pc := PcOf(mem, a);
      if pc.WriteBuffer? {
        assert BlockOk(mem, pc.b);
        res := Got((pc.b, pc.gen));
      } else {
        var why := Leave(a);
        res := Refused(why);
      }
    }

    /** `publish_write` on an active buffer: always succeeds, and fixes the descriptor's bytes. */
    method PublishWrite(a: Actor) returns (d: (nat, nat))
      requires Inv(mem) && PcOf(mem, a).WriteBuffer? && a !in mem.crashed && PcOf(mem, a).b < |mem.blocks|
      modifies this
      ensures Inv(mem) && PcOf(mem, a).Idle? && Grown(old(mem), mem) && a !in mem.crashed
      ensures d == (old(PcOf(mem, a).b), old(PcOf(mem, a).gen))
      ensures d in mem.published && mem.published[d] == old(mem.blocks[PcOf(mem, a).b].data)
    {
      var pc := PcOf(mem, a);
      NextKeeps(mem, BeginClose(a, Publish));
      mem := Next(mem, BeginClose(a, Publish));
      var _ := Finish(a);
      d := (pc.b, pc.gen);
      NextKeeps(mem, Return(a));
      mem := Next(mem, Return(a));
    }

    /**
     `acquire_read`: a descriptor handed out and not redeemed before, and exactly its bytes; or an
     error, and then the descriptor is malformed or could not be redeemed at an instant of the call.
     */
    method AcquireRead(a: Actor, b: nat, gen: nat) returns (res: Acquired<Payload>, ghost past: seq<State>)
      requires Inv(mem) && PcOf(mem, a).Idle? && a !in mem.crashed
      modifies this
      ensures Inv(mem) && Grown(old(mem), mem) && a !in mem.crashed && Passes(old(mem), past, mem)
      ensures res.Got? ==>
                && PcOf(mem, a) == ReadBuffer(b, gen)
                && (b, gen) !in old(mem.redeemed) && (b, gen) in mem.redeemed
                && (b, gen) in mem.published && res.value == mem.published[(b, gen)]
      ensures res.Refused? ==> PcOf(mem, a).Idle?
      ensures res.Refused? ==>
                if b >= |mem.blocks| || gen == 0 then res.why == InvalidHandle else RefusedAt(past, b, gen, a, res.why)
    {
      NextKeeps(mem, BeginRead(a, b, gen));
      ghost var before := mem;
      mem := Next(mem, BeginRead(a, b, gen));
      past := [];
      assert Leads(mem, [], mem);
      if PcOf(mem, a).ReadTry? {
        assert ActorOk(mem, a);
        past := Finish(a);
      }
      PassesFrom(before, BeginRead(a, b, gen), past, mem);
      assert ActorOk(mem, a);
      var pc := PcOf(mem, a);
      if pc.ReadBuffer? {
        assert BlockOk(mem, pc.b);
        res := Got(mem.blocks[pc.b].data);
      } else {
        var why := Leave(a);
        res := Refused(why);
      }
    }

    /** `abort_write` and `release_read` on an active buffer: always let the block go. */
    method LetGo(a: Actor)
      requires Inv(mem) && a !in mem.crashed && (PcOf(mem, a).WriteBuffer? || PcOf(mem, a).ReadBuffer?)
      requires PcOf(mem, a).b < |mem.blocks|
      modifies this
      ensures Inv(mem) && PcOf(mem, a).Idle? && Grown(old(mem), mem) && a !in mem.crashed
      ensures mem.blocks[old(PcOf(mem, a).b)].state == Free
    {
      var how := if PcOf(mem, a).ReadBuffer? then Release else Abort;
      NextKeeps(mem, BeginClose(a, how));
      mem := Next(mem, BeginClose(a, how));
      var _ := Finish(a);
      NextKeeps(mem, Return(a));
      mem := Next(mem, Return(a));
    }
  }
}
