/** Every step of every actor preserves the pool invariant. */
module PoolSteps {
  import opened Words
  import opened Pool
  import opened PoolInvariant

  lemma ScanOnOk(count: nat, b: nat, flags: Flags, seen: seq<Sight>)
    requires b < count && ScanOk(flags, seen, b + 1)
    ensures LocalOk(ScanOn(count, b, flags, seen), count) && !InBlock(ScanOn(count, b, flags, seen))
  {
  }

  /** A scan that raises a flag, or sees a published block, may go on. */
  lemma ScanPast(flags: Flags, seen: seq<Sight>, b: nat, flags1: Flags, sight: Sight)
    requires ScanOk(flags, seen, b)
    requires flags1.contention || flags1.recovery || flags1.exhausted || (flags1 == flags && sight == SawPublished)
    ensures ScanOk(flags1, seen + [sight], b + 1)
  {
  }

  lemma ScanNextOk(blk: Block, count: nat, pc: Pc, recovery: bool)
    requires pc.Scan? && !pc.scan.ClaimCas? && LocalOk(pc, count)
    ensures LocalOk(ScanNext(blk, count, pc, recovery), count) && !InBlock(ScanNext(blk, count, pc, recovery))
  {
    var Scan(b, flags, seen, scan) := pc;
    if scan.Classify? {
      var f := if recovery then flags.(recovery := true) else flags.(contention := true);
      ScanPast(flags, seen, b, f, SawBusy);
      ScanOnOk(count, b, f, seen + [SawBusy]);
    } else if blk.state == Published {
      ScanPast(flags, seen, b, flags, SawPublished);
      ScanOnOk(count, b, flags, seen + [SawPublished]);
    } else if blk.state == EpochExhausted {
      ScanPast(flags, seen, b, flags.(exhausted := true), SawExhausted);
      ScanOnOk(count, b, flags.(exhausted := true), seen + [SawExhausted]);
    }
  }

  lemma ScanKeeps(s: State, a: Actor, recovery: bool, why: Error)
    requires Inv(s) && PcOf(s, a).Scan? && Enabled(s, Advance(a, recovery, why))
    ensures Inv(AdvanceStep(s, a, recovery, why))
  {
    var pc := PcOf(s, a);
    var blk := s.blocks[pc.b];
    assert ActorOk(s, a) && BlockOk(s, pc.b);
    if !pc.scan.ClaimCas? {
      ScanNextOk(blk, |s.blocks|, pc, recovery);
      Move(s, a, ScanNext(blk, |s.blocks|, pc, recovery));
    } else if blk.state == Free {
      Change(s, a, pc.b, blk.(state := WritingClaiming, holder := Some(a)),
             WriteClaim(pc.b, pc.flags, pc.seen, LoadGeneration));
    } else {
      ScanPast(pc.flags, pc.seen, pc.b, pc.flags.(contention := true), LostCas);
      ScanOnOk(|s.blocks|, pc.b, pc.flags.(contention := true), pc.seen + [LostCas]);
      Move(s, a, ScanOn(|s.blocks|, pc.b, pc.flags.(contention := true), pc.seen + [LostCas]));
    }
  }

  /** The block after a writer's access, and the program point it suits. */
  predicate WriteSound(s: State, blk: Block, b: nat, me: nat, pc: Pc) {
    && blk.epoch <= MAX_EPOCH && blk.generation <= U64_MAX
    && LocalOk(pc, |s.blocks|)
    && (if InBlock(pc) then
          && pc.b == b
          && (pc.WriteClaim? || pc.WriteBuffer?)
          && (pc.WriteClaim? ==> WriteClaimOk(s, blk, b, me, pc.write))
          && (pc.WriteBuffer? ==> blk.state == Writing && WrittenOk(s, blk, b, me, pc.gen))
        else Even(blk.epoch) && (blk.state == Free || blk.state == EpochExhausted))
  }

  lemma WriteNextOk(s: State, blk: Block, b: nat, me: nat, pc: Pc)
    requires pc.WriteClaim? && pc.b == b < |s.blocks| && LocalOk(pc, |s.blocks|)
    requires blk.epoch <= MAX_EPOCH && blk.generation <= U64_MAX
    requires forall g {:trigger (b, g) in s.published} | (b, g) in s.published :: g <= blk.generation
    requires WriteClaimOk(s, blk, b, me, pc.write)
    ensures var (blk1, pc1) := WriteNext(blk, |s.blocks|, me, pc);
            WriteSound(s, blk1, b, me, pc1) && blk1.data == blk.data && blk.generation <= blk1.generation
            && blk1.holder == (if InBlock(pc1) then blk.holder else None)
  {
    var WriteClaim(_, flags, seen, write) := pc;
    if write.RestoreFree? {
      ScanPast(flags, seen, b, flags.(exhausted := true), NoGeneration);
    } else if write.Retire? {
      ScanPast(flags, seen, b, flags.(exhausted := true), NoEpoch);
    }
  }

  lemma WriteKeeps(s: State, a: Actor, recovery: bool, why: Error)
    requires Inv(s) && PcOf(s, a).WriteClaim? && Enabled(s, Advance(a, recovery, why))
    ensures Inv(AdvanceStep(s, a, recovery, why))
  {
    var pc := PcOf(s, a);
    var b := pc.b;
    var blk := s.blocks[b];
    assert ActorOk(s, a) && BlockOk(s, b);
    WriteNextOk(s, blk, b, a.process, pc);
    var (blk1, pc1) := WriteNext(blk, |s.blocks|, a.process, pc);
    Change(s, a, b, blk1, pc1);
  }

  lemma TryKeeps(s: State, a: Actor, recovery: bool, why: Error)
    requires Inv(s) && PcOf(s, a).ReadTry? && Enabled(s, Advance(a, recovery, why))
    ensures Inv(AdvanceStep(s, a, recovery, why))
  {
    var pc := PcOf(s, a);
    var blk := s.blocks[pc.b];
    assert ActorOk(s, a) && BlockOk(s, pc.b);
    if !pc.attempt.ReadCas? {
      Move(s, a, TryNext(blk, pc, why));
    } else if blk.state == Published {
      Change(s, a, pc.b, blk.(state := ReadingClaiming, holder := Some(a)), ReadClaim(pc.b, pc.gen, RecheckGeneration));
    } else {
      Move(s, a, Done(Failed(Contention)));
    }
  }

  lemma ReadKeeps(s: State, a: Actor, recovery: bool, why: Error)
    requires Inv(s) && PcOf(s, a).ReadClaim? && !PcOf(s, a).read.StoreReading? && Enabled(s, Advance(a, recovery, why))
    ensures Inv(AdvanceStep(s, a, recovery, why))
  {
    var pc := PcOf(s, a);
    var b := pc.b;
    assert ActorOk(s, a) && BlockOk(s, b);
    var (blk1, pc1) := ReadNext(s.blocks[b], a.process, pc);
    Change(s, a, b, blk1, pc1);
  }

  lemma RedeemKeeps(s: State, a: Actor, recovery: bool, why: Error)
    requires Inv(s) && PcOf(s, a).ReadClaim? && PcOf(s, a).read.StoreReading? && Enabled(s, Advance(a, recovery, why))
    ensures Inv(AdvanceStep(s, a, recovery, why))
  {
    var pc := PcOf(s, a);
    var b := pc.b;
    assert ActorOk(s, a) && BlockOk(s, b);
    var (blk1, pc1) := ReadNext(s.blocks[b], a.process, pc);
    var red := s.redeemed + [(b, pc.gen)];
    ChangedActors(s, a, b, blk1, pc1, s.published, red);
    ChangedBlocks(s, a, b, blk1, pc1, s.published, red);
  }

  lemma CloseKeeps(s: State, a: Actor, recovery: bool, why: Error)
    requires Inv(s) && PcOf(s, a).Closing? && Enabled(s, Advance(a, recovery, why))
    requires !(PcOf(s, a).how.Publish? && PcOf(s, a).close.CloseStore?)
    ensures Inv(AdvanceStep(s, a, recovery, why))
  {
    var pc := PcOf(s, a);
    var b := pc.b;
    assert ActorOk(s, a) && BlockOk(s, b);
    var (blk1, pc1) := CloseNext(s.blocks[b], a.process, pc);
    Change(s, a, b, blk1, pc1);
  }

  lemma PublishKeeps(s: State, a: Actor, recovery: bool, why: Error)
    requires Inv(s) && PcOf(s, a).Closing? && Enabled(s, Advance(a, recovery, why))
    requires PcOf(s, a).how.Publish? && PcOf(s, a).close.CloseStore?
    ensures Inv(AdvanceStep(s, a, recovery, why))
  {
    var pc := PcOf(s, a);
    var b := pc.b;
    assert ActorOk(s, a) && BlockOk(s, b);
    var blk := s.blocks[b];
    var (blk1, pc1) := CloseNext(blk, a.process, pc);
    var pub := s.published[(b, pc.gen) := blk.data];
    assert (b, pc.gen) !in s.redeemed;
    ChangedActors(s, a, b, blk1, pc1, pub, s.redeemed);
    ChangedBlocks(s, a, b, blk1, pc1, pub, s.redeemed);
  }

  lemma FillKeeps(s: State, act: Action)
    requires Inv(s) && Enabled(s, act) && (act.Fill? || act.BeginClose?)
    ensures Inv(Next(s, act))
  {
    var a := act.actor;
    var pc := PcOf(s, a);
    var b := pc.b;
    assert ActorOk(s, a) && BlockOk(s, b);
    var blk := s.blocks[b];
    if act.Fill? {
      Change(s, a, b, blk.(data := blk.data[act.k := act.v]), pc);
      assert s.pcs[a := pc] == s.pcs;
    } else {
      Change(s, a, b, blk, PcOf(Next(s, act), a));
      assert s.blocks[b := blk] == s.blocks;
    }
  }

  lemma AdvanceKeeps(s: State, a: Actor, recovery: bool, why: Error)
    requires Inv(s) && Enabled(s, Advance(a, recovery, why))
    ensures Inv(AdvanceStep(s, a, recovery, why))
  {
    var pc := PcOf(s, a);
    if pc.Scan? {
      ScanKeeps(s, a, recovery, why);
    } else if pc.WriteClaim? {
      WriteKeeps(s, a, recovery, why);
    } else if pc.ReadTry? {
      TryKeeps(s, a, recovery, why);
    } else if pc.ReadClaim? {
      if pc.read.StoreReading? {
        RedeemKeeps(s, a, recovery, why);
      } else {
        ReadKeeps(s, a, recovery, why);
      }
    } else if pc.how.Publish? && pc.close.CloseStore? {
      PublishKeeps(s, a, recovery, why);
    } else {
      CloseKeeps(s, a, recovery, why);
    }
  }

  lemma CrashKeeps(s: State, crashed: set<Actor>)
    requires Inv(s)
    ensures Inv(s.(crashed := crashed))
  {
    var s1 := s.(crashed := crashed);
    forall a: Actor ensures ActorOk(s1, a) {
      assert ActorOk(s, a);
    }
    forall b: nat | b < |s1.blocks|
      ensures BlockOk(s1, b) && (s1.blocks[b].holder.Some? ==> Inside(PcOf(s1, s1.blocks[b].holder.value), b))
    {
      assert BlockOk(s, b);
    }
  }

  lemma NextKeeps(s: State, act: Action)
    requires Inv(s) && Enabled(s, act)
    ensures Inv(Next(s, act))
  {
    assert ActorOk(s, act.actor);
    match act
    case BeginWrite(a) => Move(s, a, Scan(0, Flags(false, false, false), [], LoadState));
    case BeginRead(a, _, _) => Move(s, a, PcOf(Next(s, act), a));
    case Fill(_, _, _) => FillKeeps(s, act);
    case BeginClose(_, _) => FillKeeps(s, act);
    case Advance(a, recovery, why) => AdvanceKeeps(s, a, recovery, why);
    case Return(a) => Move(s, a, Idle);
    case Crash(a) => CrashKeeps(s, s.crashed + {a});
  }

  lemma {:induction false} RunInv(run: seq<State>, acts: seq<Action>, i: nat)
    requires IsRun(run, acts) && i < |run|
    ensures Inv(run[i])
    decreases i
  {
    if i == 0 {
      var s := run[0];
      forall b: nat | b < |s.blocks| ensures BlockOk(s, b) {}
      forall a: Actor ensures ActorOk(s, a) {}
    } else {
      RunInv(run, acts, i - 1);
      NextKeeps(run[i - 1], acts[i - 1]);
    }
  }
}
