/**
 The shared buffer pool: a fixed set of blocks that writers fill and publish under a fresh
 generation, and readers redeem by descriptor.

 One shared access per step, any number of actors, a crash at any point.  Descriptors are plain
 values: any actor may present any block number and generation at any time.  An owner identity
 is one word here (module `OwnerCell` treats its four words), and the owner snapshot an actor
 takes of a block it holds is one step, since nothing in that block can change meanwhile.
 */
module Pool {
  import opened Words

  /** A thread of a process; the process is the identity stored as owner. */
  datatype Actor = Actor(process: nat, thread: nat)

  type Payload = seq<nat>

  /** `SharedBufferBlockState` */
  datatype BlockState =
    | Free | WritingClaiming | Writing | Published | ReadingClaiming | Reading | EpochExhausted | ProtocolFault

  /** `holder` is history: the actor inside the block. */
  datatype Block = Block(
    state: BlockState, generation: nat, epoch: nat, owner: nat, data: Payload, holder: Option<Actor>)

  /** What a scan saw of one block it could not take. */
  datatype Sight = SawPublished | SawBusy | SawExhausted | LostCas | NoGeneration | NoEpoch

  /** The `saw_*` flags of `try_acquire_write`. */
  datatype Flags = Flags(contention: bool, recovery: bool, exhausted: bool)

  datatype Error =
    | PoolFull
    | Contention
    | RecoveryBlocked
    | ConcurrentUse
    | SequenceExhausted
    | InvalidHandle
    | StateMismatch
    | RollbackLost
    | ReaderEpochExhausted
    | ReaderEpochCorrupt
    | PublishRefused

  datatype Result =
    | Failed(why: Error)
    | PublishedAs(b: nat, gen: nat)
    | Closed(freed: bool)

  /** Before a write claim. */
  datatype ScanAt = LoadState | Classify | ClaimCas

  /** After the CAS to WRITING_CLAIMING; `g` is the generation found, `cur` the even epoch. */
  datatype WriteAt =
    | LoadGeneration
    | RestoreFree
    | CheckEpoch(g: nat)
    | Retire(why: Error)
    | BeginLoad(g: nat)
    | BeginCas(g: nat, cur: nat)
    | StoreGeneration(g: nat, cur: nat)
    | StoreOwner(g: nat, cur: nat)
    | StoreEpoch(g: nat, cur: nat)
    | StoreWriting
    | MakeHandle

  /** Before a read claim. */
  datatype TryAt = ValidateGeneration | LoadPublished | CheckGeneration | ReadCas

  /** After the CAS to READING_CLAIMING. */
  datatype ReadAt =
    | RecheckGeneration
    | Rollback(why: Error)
    | ReadCheckEpoch
    | ReadBeginLoad
    | ReadBeginCas(cur: nat)
    | ReadStoreOwner(cur: nat)
    | ReadStoreEpoch(cur: nat)
    | StoreReading

  /** The checks before a buffer lets go of its block. */
  datatype CloseAt = CloseState | CloseSnapshot | CloseGeneration | CloseStore

  datatype Close = Publish | Abort | Release

  datatype Pc =
    | Idle
    | Scan(b: nat, flags: Flags, seen: seq<Sight>, scan: ScanAt)
    | WriteClaim(b: nat, flags: Flags, seen: seq<Sight>, write: WriteAt)
    | WriteBuffer(b: nat, gen: nat)
    | ReadTry(b: nat, gen: nat, attempt: TryAt)
    | ReadClaim(b: nat, gen: nat, read: ReadAt)
    | ReadBuffer(b: nat, gen: nat)
    | Closing(b: nat, gen: nat, how: Close, close: CloseAt)
    | Done(res: Result)

  /** `published` and `redeemed` are history: the bytes of each descriptor, and who was let read. */
  datatype State = State(
    width: nat, blocks: seq<Block>,
    pcs: map<Actor, Pc>, crashed: set<Actor>,
    published: map<(nat, nat), Payload>, redeemed: seq<(nat, nat)>)

  function PcOf(s: State, a: Actor): Pc {
    if a in s.pcs then s.pcs[a] else Idle
  }

  function At(s: State, a: Actor, pc: Pc): State {
    s.(pcs := s.pcs[a := pc])
  }

  predicate Formed(s: State) {
    0 < |s.blocks| && forall b | 0 <= b < |s.blocks| :: |s.blocks[b].data| == s.width
  }

  // ----- try_acquire_write -----

  function Verdict(f: Flags): Error {
    if f.recovery then RecoveryBlocked
    else if f.exhausted then SequenceExhausted
    else if f.contention then Contention
    else PoolFull
  }

  /** The scan moves past a block, or ends with its verdict. */
  function ScanOn(count: nat, b: nat, flags: Flags, seen: seq<Sight>): Pc {
    if b + 1 < count then Scan(b + 1, flags, seen, LoadState) else Done(Failed(Verdict(flags)))
  }

  /** `recovery` is what `classify_active_block` makes of an active block. */
  function ScanNext(blk: Block, count: nat, pc: Pc, recovery: bool): Pc
    requires pc.Scan? && !pc.scan.ClaimCas?
  {
    var Scan(b, flags, seen, scan) := pc;
    match scan
    case LoadState =>
      (match blk.state
       case Published => ScanOn(count, b, flags, seen + [SawPublished])
       case Free => pc.(scan := ClaimCas)
       case EpochExhausted => ScanOn(count, b, flags.(exhausted := true), seen + [SawExhausted])
       case _ => pc.(scan := Classify))
    case Classify =>
      var f := if recovery then flags.(recovery := true) else flags.(contention := true);
      ScanOn(count, b, f, seen + [SawBusy])
  }

  function Refused(b: nat, flags: Flags, seen: seq<Sight>, count: nat, why: Error): Pc {
    var f := if why == SequenceExhausted then flags.(exhausted := true) else flags.(recovery := true);
    ScanOn(count, b, f, seen + [NoEpoch])
  }

  /** One access of a writer to the block it claimed. */
  function WriteNext(blk: Block, count: nat, me: nat, pc: Pc): (Block, Pc)
    requires pc.WriteClaim?
  {
    var WriteClaim(b, flags, seen, write) := pc;
    match write
    case LoadGeneration =>
      (blk, pc.(write := if blk.generation == U64_MAX then RestoreFree else CheckEpoch(blk.generation)))
    case RestoreFree =>
      (blk.(state := Free, holder := None), ScanOn(count, b, flags.(exhausted := true), seen + [NoGeneration]))
    case CheckEpoch(g) =>
      (match EpochTest(blk.epoch, 4, SequenceExhausted, RecoveryBlocked)
       case None => (blk, pc.(write := BeginLoad(g)))
       case Some(why) => (blk, pc.(write := Retire(why))))
    case Retire(why) =>
      (blk.(state := if why == SequenceExhausted then EpochExhausted else ProtocolFault, holder := None),
       Refused(b, flags, seen, count, why))
    case BeginLoad(g) =>
      (match EpochTest(blk.epoch, 4, SequenceExhausted, RecoveryBlocked)
       case None => (blk, pc.(write := BeginCas(g, blk.epoch)))
       case Some(why) => (blk, pc.(write := Retire(why))))
    case BeginCas(g, cur) =>
      if blk.epoch == cur then (blk.(epoch := cur + 1), pc.(write := StoreGeneration(g, cur)))
      else (blk, pc.(write := Retire(RecoveryBlocked)))
    case StoreGeneration(g, cur) => (blk.(generation := g + 1), pc.(write := StoreOwner(g, cur)))
    case StoreOwner(g, cur) => (blk.(owner := me), pc.(write := StoreEpoch(g, cur)))
    case StoreEpoch(g, cur) => (blk.(epoch := cur + 2), pc.(write := StoreWriting))
    case StoreWriting => (blk.(state := Writing), pc.(write := MakeHandle))
    case MakeHandle => (blk, WriteBuffer(b, blk.generation))
  }

  // ----- acquire_read -----

  /** `why` is what `classify_active_block` reports of an active block. */
  function TryNext(blk: Block, pc: Pc, why: Error): Pc
    requires pc.ReadTry? && !pc.attempt.ReadCas?
  {
    match pc.attempt
    case ValidateGeneration =>
      if blk.generation != pc.gen then Done(Failed(InvalidHandle)) else pc.(attempt := LoadPublished)
    case LoadPublished =>
      if blk.state == Published then pc.(attempt := CheckGeneration)
      else if blk.state == Free then Done(Failed(StateMismatch))
      else Done(Failed(why))
    case CheckGeneration =>
      if blk.generation != pc.gen then Done(Failed(InvalidHandle)) else pc.(attempt := ReadCas)
  }

  /** One access of a reader to the block it claimed. */
  function ReadNext(blk: Block, me: nat, pc: Pc): (Block, Pc)
    requires pc.ReadClaim?
  {
    match pc.read
    case RecheckGeneration =>
      (blk, pc.(read := if blk.generation != pc.gen then Rollback(InvalidHandle) else ReadCheckEpoch))
    case Rollback(why) =>
      if blk.state == ReadingClaiming then (blk.(state := Published, holder := None), Done(Failed(why)))
      else (blk, Done(Failed(RollbackLost)))
    case ReadCheckEpoch =>
      (match EpochTest(blk.epoch, 2, ReaderEpochExhausted, ReaderEpochCorrupt)
       case None => (blk, pc.(read := ReadBeginLoad))
       case Some(why) => (blk, pc.(read := Rollback(why))))
    case ReadBeginLoad =>
      (match EpochTest(blk.epoch, 2, ReaderEpochExhausted, ReaderEpochCorrupt)
       case None => (blk, pc.(read := ReadBeginCas(blk.epoch)))
       case Some(why) => (blk, pc.(read := Rollback(why))))
    case ReadBeginCas(cur) =>
      if blk.epoch == cur then (blk.(epoch := cur + 1), pc.(read := ReadStoreOwner(cur)))
      else (blk, pc.(read := Rollback(ReaderEpochCorrupt)))
    case ReadStoreOwner(cur) => (blk.(owner := me), pc.(read := ReadStoreEpoch(cur)))
    case ReadStoreEpoch(cur) => (blk.(epoch := cur + 2), pc.(read := StoreReading))
    case StoreReading => (blk.(state := Reading), ReadBuffer(pc.b, pc.gen))
  }

  // ----- publish_write, abort_write, release_read -----

  predicate Stable(blk: Block, me: nat) {
    Even(blk.epoch) && blk.owner == me
  }

  /** What a buffer does when a check fails: publish reports it, abort and release let the block be. */
  function CloseFails(how: Close): Pc {
    if how.Publish? then Done(Failed(PublishRefused)) else Done(Closed(false))
  }

  function CloseNext(blk: Block, me: nat, pc: Pc): (Block, Pc)
    requires pc.Closing?
  {
    var Closing(b, gen, how, close) := pc;
    var active := if how.Release? then Reading else Writing;
    match close
    case CloseState => (blk, if blk.state == Writing then pc.(close := CloseSnapshot) else CloseFails(how))
    case CloseSnapshot =>
      (blk, if blk.state == active && Stable(blk, me) then pc.(close := CloseGeneration) else CloseFails(how))
    case CloseGeneration => (blk, if blk.generation == gen then pc.(close := CloseStore) else CloseFails(how))
    case CloseStore =>
      (blk.(state := if how.Publish? then Published else Free, holder := None),
       Done(if how.Publish? then PublishedAs(b, gen) else Closed(true)))
  }

  // ----- The transition relation -----

  datatype Action =
    | BeginWrite(actor: Actor)
    | BeginRead(actor: Actor, b: nat, gen: nat)
    | Fill(actor: Actor, k: nat, v: nat)
    | BeginClose(actor: Actor, how: Close)
    | Advance(actor: Actor, recovery: bool, why: Error)
    | Return(actor: Actor)
    | Crash(actor: Actor)

  /** The block an actor's next access goes to. */
  predicate Targets(pc: Pc) {
    !pc.Idle? && !pc.Done?
  }

  predicate ClassifyError(why: Error) {
    why == Contention || why == RecoveryBlocked || why == ConcurrentUse
  }

  predicate Enabled(s: State, act: Action) {
    && Formed(s)
    && act.actor !in s.crashed
    && var pc := PcOf(s, act.actor);
       && (Targets(pc) ==> pc.b < |s.blocks|)
       && match act
          case BeginWrite(_) => pc.Idle?
          case BeginRead(_, _, _) => pc.Idle?
          case Fill(_, k, _) => pc.WriteBuffer? && k < s.width
          case BeginClose(_, how) => if how.Release? then pc.ReadBuffer? else pc.WriteBuffer?
          case Advance(_, _, why) =>
            (pc.Scan? || pc.WriteClaim? || pc.ReadTry? || pc.ReadClaim? || pc.Closing?) && ClassifyError(why)
          case Return(_) => pc.Done?
          case Crash(_) => true
  }

  function WithBlock(s: State, b: nat, blk: Block): State
    requires b < |s.blocks|
  {
    s.(blocks := s.blocks[b := blk])
  }

  function AdvanceStep(s: State, a: Actor, recovery: bool, why: Error): State
    requires Enabled(s, Advance(a, recovery, why))
  {
    var pc := PcOf(s, a);
    var blk := s.blocks[pc.b];
    var count := |s.blocks|;
    match pc
    case Scan(b, flags, seen, scan) =>
      if !scan.ClaimCas? then At(s, a, ScanNext(blk, count, pc, recovery))
      else if blk.state == Free then
        At(WithBlock(s, b, blk.(state := WritingClaiming, holder := Some(a))), a,
           WriteClaim(b, flags, seen, LoadGeneration))
      else At(s, a, ScanOn(count, b, flags.(contention := true), seen + [LostCas]))
    case WriteClaim(b, _, _, _) =>
      var (blk1, pc1) := WriteNext(blk, count, a.process, pc);
      At(WithBlock(s, b, blk1), a, pc1)
    case ReadTry(b, gen, attempt) =>
      if !attempt.ReadCas? then At(s, a, TryNext(blk, pc, why))
      else if blk.state == Published then
        At(WithBlock(s, b, blk.(state := ReadingClaiming, holder := Some(a))), a, ReadClaim(b, gen, RecheckGeneration))
      else At(s, a, Done(Failed(Contention)))
    case ReadClaim(b, gen, read) =>
      var (blk1, pc1) := ReadNext(blk, a.process, pc);
      var s1 := At(WithBlock(s, b, blk1), a, pc1);
      if read.StoreReading? then s1.(redeemed := s.redeemed + [(b, gen)]) else s1
    case Closing(b, gen, how, close) =>
      var (blk1, pc1) := CloseNext(blk, a.process, pc);
      var s1 := At(WithBlock(s, b, blk1), a, pc1);
      if how.Publish? && close.CloseStore? then s1.(published := s.published[(b, gen) := blk.data]) else s1
  }

  function Next(s: State, act: Action): State
    requires Enabled(s, act)
  {
    var pc := PcOf(s, act.actor);
    match act
    case BeginWrite(a) => At(s, a, Scan(0, Flags(false, false, false), [], LoadState))
    case BeginRead(a, b, gen) =>
      At(s, a, if b >= |s.blocks| || gen == 0 then Done(Failed(InvalidHandle)) else ReadTry(b, gen, ValidateGeneration))
    case Fill(a, k, v) =>
      var blk := s.blocks[pc.b];
      WithBlock(s, pc.b, blk.(data := blk.data[k := v]))
    case BeginClose(a, how) => At(s, a, Closing(pc.b, pc.gen, how, if how.Publish? then CloseState else CloseSnapshot))
    case Advance(a, recovery, why) => AdvanceStep(s, a, recovery, why)
    case Return(a) => At(s, a, Idle)
    case Crash(a) => s.(crashed := s.crashed + {a})
  }

  /** `shared_buffer_pool_create_impl` */
  ghost predicate Init(s: State) {
    && Formed(s)
    && (forall b | 0 <= b < |s.blocks| ::
          && s.blocks[b].state == Free && s.blocks[b].generation == 0 && s.blocks[b].epoch == 0
          && s.blocks[b].holder == None)
    && s.pcs == map[] && s.crashed == {} && s.published == map[] && s.redeemed == []
  }

  ghost predicate IsRun(run: seq<State>, acts: seq<Action>) {
    && |run| == |acts| + 1
    && Init(run[0])
    && (forall i | 0 <= i < |acts| :: Enabled(run[i], acts[i]) && run[i + 1] == Next(run[i], acts[i]))
  }
}
