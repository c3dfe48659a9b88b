/** Block ownership, generations and epochs: the pool invariant and its preservation. */
module PoolInvariant {
  import opened Words
  import opened Pool

  /** The actor is inside the block: it has won a claim and not yet let go. */
  predicate InBlock(pc: Pc) {
    pc.WriteClaim? || pc.WriteBuffer? || pc.ReadClaim? || pc.ReadBuffer? || pc.Closing?
  }

  predicate Inside(pc: Pc, b: nat) {
    InBlock(pc) && pc.b == b
  }

  /** The descriptor has been handed out, its bytes are in place and nobody has redeemed it. */
  predicate Redeemable(s: State, blk: Block, b: nat) {
    && (b, blk.generation) in s.published
    && blk.data == s.published[(b, blk.generation)]
    && (b, blk.generation) !in s.redeemed
  }

  /** A writer's claim, by program point.  A commit from `cur` leaves room for the reader's. */
  predicate WriteClaimOk(s: State, blk: Block, b: nat, me: nat, write: WriteAt) {
    && blk.state == (if write.MakeHandle? then Writing else WritingClaiming)
    && match write
       case LoadGeneration => Even(blk.epoch)
       case RestoreFree => Even(blk.epoch) && blk.generation == U64_MAX
       case CheckEpoch(g) => Even(blk.epoch) && g == blk.generation < U64_MAX
       case Retire(why) => Even(blk.epoch) && why == SequenceExhausted && MAX_EPOCH - 4 < blk.epoch
       case BeginLoad(g) => Even(blk.epoch) && blk.epoch <= MAX_EPOCH - 4 && g == blk.generation < U64_MAX
       case BeginCas(g, cur) => Even(blk.epoch) && cur == blk.epoch <= MAX_EPOCH - 4 && g == blk.generation < U64_MAX
       case StoreGeneration(g, cur) =>
         Even(cur) && cur <= MAX_EPOCH - 4 && blk.epoch == cur + 1 && g == blk.generation < U64_MAX
       case StoreOwner(g, cur) =>
         && Even(cur) && cur <= MAX_EPOCH - 4 && blk.epoch == cur + 1
         && blk.generation == g + 1 && (b, blk.generation) !in s.published
       case StoreEpoch(g, cur) =>
         && Even(cur) && cur <= MAX_EPOCH - 4 && blk.epoch == cur + 1 && blk.owner == me
         && blk.generation == g + 1 && (b, blk.generation) !in s.published
       case StoreWriting => WrittenOk(s, blk, b, me, blk.generation)
       case MakeHandle => WrittenOk(s, blk, b, me, blk.generation)
  }

  predicate WrittenOk(s: State, blk: Block, b: nat, me: nat, gen: nat) {
    && Even(blk.epoch) && blk.epoch <= MAX_EPOCH - 2
    && blk.owner == me && 0 < blk.generation == gen && (b, gen) !in s.published
  }

  predicate ReadClaimOk(s: State, blk: Block, b: nat, me: nat, gen: nat, read: ReadAt) {
    && blk.state == ReadingClaiming
    && 0 < blk.generation && Redeemable(s, blk, b)
    && (read.RecheckGeneration? || read.Rollback? || blk.generation == gen)
    && match read
       case RecheckGeneration => Even(blk.epoch) && blk.epoch <= MAX_EPOCH - 2
       case Rollback(why) =>
         Even(blk.epoch) && blk.epoch <= MAX_EPOCH - 2 && why == InvalidHandle && blk.generation != gen
       case ReadCheckEpoch => Even(blk.epoch) && blk.epoch <= MAX_EPOCH - 2
       case ReadBeginLoad => Even(blk.epoch) && blk.epoch <= MAX_EPOCH - 2
       case ReadBeginCas(cur) => Even(blk.epoch) && cur == blk.epoch <= MAX_EPOCH - 2
       case ReadStoreOwner(cur) => Even(cur) && cur <= MAX_EPOCH - 2 && blk.epoch == cur + 1
       case ReadStoreEpoch(cur) => Even(cur) && cur <= MAX_EPOCH - 2 && blk.epoch == cur + 1 && blk.owner == me
       case StoreReading => Even(blk.epoch) && blk.owner == me
  }

  /** An active reader sees exactly the bytes published under its descriptor. */
  predicate ReadingOk(s: State, blk: Block, b: nat, me: nat, gen: nat) {
    && blk.state == Reading && Even(blk.epoch) && blk.owner == me && 0 < blk.generation == gen
    && (b, gen) in s.published && blk.data == s.published[(b, gen)]
    && (b, gen) in s.redeemed
  }

  /** The block an actor is inside, by its program point. */
  predicate HeldOk(s: State, blk: Block, b: nat, a: Actor, pc: Pc) {
    match pc
    case WriteClaim(_, _, _, write) => WriteClaimOk(s, blk, b, a.process, write)
    case WriteBuffer(_, gen) => blk.state == Writing && WrittenOk(s, blk, b, a.process, gen)
    case ReadClaim(_, gen, read) => ReadClaimOk(s, blk, b, a.process, gen, read)
    case ReadBuffer(_, gen) => ReadingOk(s, blk, b, a.process, gen)
    case Closing(_, gen, how, close) =>
      if how.Release? then !close.CloseState? && ReadingOk(s, blk, b, a.process, gen)
      else blk.state == Writing && WrittenOk(s, blk, b, a.process, gen)
    case _ => false
  }

  predicate RestingOk(s: State, blk: Block, b: nat) {
    && Even(blk.epoch)
    && (blk.state == Free || blk.state == EpochExhausted
        || (blk.state == Published && blk.epoch <= MAX_EPOCH - 2 && 0 < blk.generation && Redeemable(s, blk, b)))
  }

  ghost predicate BlockOk(s: State, b: nat)
    requires b < |s.blocks|
  {
    var blk := s.blocks[b];
    && blk.epoch <= MAX_EPOCH && blk.generation <= U64_MAX
    && (forall g {:trigger (b, g) in s.published} | (b, g) in s.published :: g <= blk.generation)
    && match blk.holder
       case None => RestingOk(s, blk, b)
       case Some(a) => HeldOk(s, blk, b, a, PcOf(s, a))
  }

  /** A scan that has not raised a flag has seen nothing but published blocks. */
  predicate ScanOk(flags: Flags, seen: seq<Sight>, b: nat) {
    && |seen| == b
    && (flags.contention || flags.recovery || flags.exhausted || forall j | 0 <= j < |seen| :: seen[j] == SawPublished)
  }

  /** Errors no run can report. */
  predicate Possible(res: Result) {
    && (res.Failed? ==>
          res.why != RollbackLost && res.why != ReaderEpochExhausted && res.why != ReaderEpochCorrupt
          && res.why != PublishRefused)
    && (res.Closed? ==> res.freed)
  }

  predicate LocalOk(pc: Pc, count: nat) {
    match pc
    case Scan(b, flags, seen, _) => b < count && ScanOk(flags, seen, b)
    case WriteClaim(b, flags, seen, _) => b < count && ScanOk(flags, seen, b)
    case Done(res) => Possible(res)
    case Idle => true
    case _ => pc.b < count
  }

  ghost predicate ActorOk(s: State, a: Actor) {
    && LocalOk(PcOf(s, a), |s.blocks|)
    && (InBlock(PcOf(s, a)) ==> s.blocks[PcOf(s, a).b].holder == Some(a))
  }

  ghost predicate Actors(s: State) {
    forall a: Actor {:trigger ActorOk(s, a)} :: ActorOk(s, a)
  }

  ghost predicate Blocks(s: State) {
    forall b: nat {:trigger BlockOk(s, b)} | b < |s.blocks| ::
      && BlockOk(s, b)
      && (s.blocks[b].holder.Some? ==> Inside(PcOf(s, s.blocks[b].holder.value), b))
  }

  ghost predicate Once(redeemed: seq<(nat, nat)>) {
    forall i, j | 0 <= i < j < |redeemed| :: redeemed[i] != redeemed[j]
  }

  ghost predicate Inv(s: State) {
    && Formed(s)
    && Actors(s)
    && Blocks(s)
    && Once(s.redeemed)
    && (forall k | 0 <= k < |s.redeemed| :: s.redeemed[k] in s.published)
  }

  // ----- Preservation -----

  /** `a` changed block `b`, moved to `pc`, and perhaps published or redeemed a descriptor of `b`. */
  function Changed(s: State, a: Actor, b: nat, blk: Block, pc: Pc,
                   pub: map<(nat, nat), Payload>, red: seq<(nat, nat)>): State
    requires b < |s.blocks|
  {
    At(WithBlock(s, b, blk), a, pc).(published := pub, redeemed := red)
  }

  /** Only descriptors of block `b` are new. */
  ghost predicate OnlyOf(b: nat, s: State, pub: map<(nat, nat), Payload>, red: seq<(nat, nat)>) {
    && (forall c: nat, g: nat {:trigger (c, g) in pub} | c != b ::
          ((c, g) in pub <==> (c, g) in s.published) && ((c, g) in pub ==> pub[(c, g)] == s.published[(c, g)]))
    && (forall c: nat, g: nat {:trigger (c, g) in red} | c != b :: (c, g) in red <==> (c, g) in s.redeemed)
  }

  /** `a` is inside no block but `b`, before and after, and the block knows it. */
  predicate Fits(s: State, a: Actor, b: nat, blk: Block, pc: Pc)
    requires b < |s.blocks|
  {
    && (InBlock(PcOf(s, a)) ==> PcOf(s, a).b == b)
    && (s.blocks[b].holder == None || s.blocks[b].holder == Some(a))
    && (if InBlock(pc) then pc.b == b && blk.holder == Some(a) else blk.holder == None)
    && LocalOk(pc, |s.blocks|)
    && |blk.data| == s.width
  }

  lemma ChangedActors(s: State, a: Actor, b: nat, blk: Block, pc: Pc,
                      pub: map<(nat, nat), Payload>, red: seq<(nat, nat)>)
    requires Inv(s) && b < |s.blocks| && Fits(s, a, b, blk, pc)
    ensures Actors(Changed(s, a, b, blk, pc, pub, red))
  {
    var s1 := Changed(s, a, b, blk, pc, pub, red);
    forall d: Actor ensures ActorOk(s1, d) {
      assert ActorOk(s, d);
    }
  }

  lemma ChangedBlocks(s: State, a: Actor, b: nat, blk: Block, pc: Pc,
                      pub: map<(nat, nat), Payload>, red: seq<(nat, nat)>)
    requires Inv(s) && b < |s.blocks| && Fits(s, a, b, blk, pc) && OnlyOf(b, s, pub, red)
    requires BlockOk(Changed(s, a, b, blk, pc, pub, red), b)
    ensures Blocks(Changed(s, a, b, blk, pc, pub, red))
  {
    var s1 := Changed(s, a, b, blk, pc, pub, red);
    forall c: nat | c < |s1.blocks|
      ensures BlockOk(s1, c) && (s1.blocks[c].holder.Some? ==> Inside(PcOf(s1, s1.blocks[c].holder.value), c))
    {
      assert BlockOk(s, c);
      if c != b {
        OtherBlock(s, s1, c);
      }
    }
  }

  /** A block untouched by a step is as good as before. */
  lemma OtherBlock(s: State, s1: State, c: nat)
    requires c < |s.blocks| == |s1.blocks| && BlockOk(s, c)
    requires s1.blocks[c] == s.blocks[c]
    requires s.blocks[c].holder.Some? ==> PcOf(s1, s.blocks[c].holder.value) == PcOf(s, s.blocks[c].holder.value)
    requires forall g: nat {:trigger (c, g) in s1.published} ::
               && ((c, g) in s1.published <==> (c, g) in s.published)
               && ((c, g) in s1.published ==> s1.published[(c, g)] == s.published[(c, g)])
    requires forall g: nat {:trigger (c, g) in s1.redeemed} :: (c, g) in s1.redeemed <==> (c, g) in s.redeemed
    ensures BlockOk(s1, c)
  {
    var g := s.blocks[c].generation;
    assert (c, g) in s1.published <==> (c, g) in s.published;
    assert (c, g) in s1.redeemed <==> (c, g) in s.redeemed;
    match s.blocks[c].holder
    case None =>
    case Some(a) =>
      assert HeldOk(s, s.blocks[c], c, a, PcOf(s, a));
  }

  /** The words of a block keep their bounds, and its generation never falls. */
  predicate Sane(was: Block, blk: Block) {
    blk.epoch <= MAX_EPOCH && was.generation <= blk.generation <= U64_MAX
  }

  lemma ChangedBlock(s: State, a: Actor, b: nat, blk: Block, pc: Pc)
    requires b < |s.blocks| && Fits(s, a, b, blk, pc) && BlockOk(s, b) && Sane(s.blocks[b], blk)
    requires if InBlock(pc) then HeldOk(s, blk, b, a, pc) else RestingOk(s, blk, b)
    ensures BlockOk(Changed(s, a, b, blk, pc, s.published, s.redeemed), b)
  {
    var s1 := Changed(s, a, b, blk, pc, s.published, s.redeemed);
    if InBlock(pc) {
      assert PcOf(s1, a) == pc;
      assert HeldOk(s1, blk, b, a, pc);
    }
  }

  lemma Change(s: State, a: Actor, b: nat, blk: Block, pc: Pc)
    requires Inv(s) && b < |s.blocks| && Fits(s, a, b, blk, pc) && Sane(s.blocks[b], blk)
    requires if InBlock(pc) then HeldOk(s, blk, b, a, pc) else RestingOk(s, blk, b)
    ensures Inv(At(WithBlock(s, b, blk), a, pc))
  {
    assert BlockOk(s, b);
    ChangedBlock(s, a, b, blk, pc);
    ChangedActors(s, a, b, blk, pc, s.published, s.redeemed);
    ChangedBlocks(s, a, b, blk, pc, s.published, s.redeemed);
    assert Changed(s, a, b, blk, pc, s.published, s.redeemed) == At(WithBlock(s, b, blk), a, pc);
  }

  /** A step that moves only the program counter of an actor inside no block. */
  lemma Move(s: State, a: Actor, pc: Pc)
    requires Inv(s) && !InBlock(PcOf(s, a)) && !InBlock(pc) && LocalOk(pc, |s.blocks|)
    ensures Inv(At(s, a, pc))
  {
    var s1 := At(s, a, pc);
    forall d: Actor ensures ActorOk(s1, d) {
      assert ActorOk(s, d);
    }
    forall b: nat | b < |s1.blocks|
      ensures BlockOk(s1, b) && (s1.blocks[b].holder.Some? ==> Inside(PcOf(s1, s1.blocks[b].holder.value), b))
    {
      assert BlockOk(s, b);
    }
  }
}
