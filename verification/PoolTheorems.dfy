/** What the pool promises over every run. */
module PoolTheorems {
  import opened Words
  import opened Pool
  import opened PoolInvariant
  import opened PoolSteps

  // ----- Ownership -----

  /** An actor inside a block is its only holder, and the block's state says which kind it is. */
  lemma SoleHolder(run: seq<State>, acts: seq<Action>, i: nat, a: Actor, d: Actor, b: nat)
    requires IsRun(run, acts) && i < |run| && b < |run[i].blocks|
    requires Inside(PcOf(run[i], a), b)
    ensures Inside(PcOf(run[i], d), b) <==> d == a
    ensures var s := run[i].blocks[b].state;
            && (PcOf(run[i], a).WriteBuffer? ==> s == Writing)
            && (PcOf(run[i], a).ReadBuffer? ==> s == Reading)
            && s != Free && s != Published
  {
    RunInv(run, acts, i);
    assert ActorOk(run[i], a) && ActorOk(run[i], d);
    assert BlockOk(run[i], b);
  }

  /** Nothing another actor does changes any word or byte of a block an actor is inside. */
  lemma HeldBlockUntouched(s: State, act: Action, a: Actor)
    requires Inv(s) && Enabled(s, act) && InBlock(PcOf(s, a)) && act.actor != a
    ensures PcOf(s, a).b < |Next(s, act).blocks|
    ensures Next(s, act).blocks[PcOf(s, a).b] == s.blocks[PcOf(s, a).b]
    ensures PcOf(Next(s, act), a) == PcOf(s, a)
  {
    assert ActorOk(s, a) && ActorOk(s, act.actor);
    assert BlockOk(s, PcOf(s, a).b);
  }

  /** While one buffer is held, only its holder's own stores reach the bytes. */
  lemma {:induction false} BufferIsPrivate(run: seq<State>, acts: seq<Action>, i: nat, n: nat, a: Actor)
    requires IsRun(run, acts) && i <= n < |run| && InBlock(PcOf(run[i], a))
    requires forall k | i <= k < n :: acts[k].actor != a
    ensures PcOf(run[n], a) == PcOf(run[i], a)
    ensures PcOf(run[i], a).b < |run[i].blocks| && PcOf(run[i], a).b < |run[n].blocks|
    ensures run[n].blocks[PcOf(run[i], a).b] == run[i].blocks[PcOf(run[i], a).b]
  {
    if i == n {
      RunInv(run, acts, i);
      assert ActorOk(run[i], a);
    } else {
      BufferIsPrivate(run, acts, i, n - 1, a);
      RunInv(run, acts, n - 1);
      HeldBlockUntouched(run[n - 1], acts[n - 1], a);
    }
  }

  // ----- Descriptors -----

  /** What a descriptor stands for never changes once it is handed out. */
  lemma StepKeepsPublished(s: State, act: Action, d: (nat, nat))
    requires Inv(s) && Enabled(s, act) && d in s.published
    ensures d in Next(s, act).published && Next(s, act).published[d] == s.published[d]
  {
    assert ActorOk(s, act.actor);
    var pc := PcOf(s, act.actor);
    if InBlock(pc) {
      assert BlockOk(s, pc.b);
    }
  }

  lemma {:induction false} PublishedForGood(run: seq<State>, acts: seq<Action>, i: nat, n: nat, d: (nat, nat))
    requires IsRun(run, acts) && i <= n < |run| && d in run[i].published
    ensures d in run[n].published && run[n].published[d] == run[i].published[d]
    decreases n
  {
    if i < n {
      PublishedForGood(run, acts, i, n - 1, d);
      RunInv(run, acts, n - 1);
      StepKeepsPublished(run[n - 1], acts[n - 1], d);
    }
  }

  /** The step on which `publish_write` of `a` hands out descriptor `d`. */
  predicate Publishes(s: State, act: Action, d: (nat, nat)) {
    && Enabled(s, act) && act.Advance?
    && var pc := PcOf(s, act.actor);
       pc.Closing? && pc.how.Publish? && pc.close.CloseStore? && d == (pc.b, pc.gen)
  }

  /** The step on which `acquire_read` of `a` succeeds with descriptor `d`. */
  predicate Redeems(s: State, act: Action, d: (nat, nat)) {
    && Enabled(s, act)
    && !PcOf(s, act.actor).ReadBuffer?
    && PcOf(Next(s, act), act.actor) == ReadBuffer(d.0, d.1)
  }

  /** Each generation of a block is handed out at most once. */
  lemma PublishedOnce(run: seq<State>, acts: seq<Action>, i: nat, j: nat, d: (nat, nat))
    requires IsRun(run, acts) && i < j < |acts| && Publishes(run[i], acts[i], d)
    ensures !Publishes(run[j], acts[j], d)
  {
    PublishedForGood(run, acts, i + 1, j, d);
    RunInv(run, acts, j);
    assert ActorOk(run[j], acts[j].actor);
    var pc := PcOf(run[j], acts[j].actor);
    if pc.Closing? {
      assert BlockOk(run[j], pc.b);
    }
  }

  lemma RedeemedGrows(run: seq<State>, acts: seq<Action>, i: nat, n: nat)
    requires IsRun(run, acts) && i <= n < |run|
    ensures run[i].redeemed <= run[n].redeemed
    decreases n
  {
    if i < n {
      RedeemedGrows(run, acts, i, n - 1);
    }
  }

  lemma RedeemStep(s: State, act: Action, d: (nat, nat))
    requires Inv(s) && Redeems(s, act, d)
    ensures d !in s.redeemed && Next(s, act).redeemed == s.redeemed + [d]
  {
    var pc := PcOf(s, act.actor);
    assert ActorOk(s, act.actor);
    assert pc.ReadClaim? && pc.read.StoreReading?;
    assert BlockOk(s, pc.b);
  }

  /** However often a descriptor is copied and presented, `acquire_read` accepts it at most once. */
  lemma RedeemedOnce(run: seq<State>, acts: seq<Action>, i: nat, j: nat, d: (nat, nat))
    requires IsRun(run, acts) && i < j < |acts| && Redeems(run[i], acts[i], d)
    ensures !Redeems(run[j], acts[j], d)
  {
    RunInv(run, acts, i);
    RedeemStep(run[i], acts[i], d);
    RedeemedGrows(run, acts, i + 1, j);
    assert d == run[i + 1].redeemed[|run[i].redeemed|];
    assert d in run[j].redeemed;
    RunInv(run, acts, j);
    if Redeems(run[j], acts[j], d) {
      RedeemStep(run[j], acts[j], d);
    }
  }

  /**
   For as long as `a` holds a read buffer for descriptor (b, gen), the block's bytes are exactly
   those that were in it at the one publish store of (b, gen), whatever happened to the block
   between the first generation check and the claim.
   */
  lemma ReadSeesPublishedBytes(run: seq<State>, acts: seq<Action>, i: nat, n: nat, a: Actor, b: nat, gen: nat)
    requires IsRun(run, acts) && i < n < |run| && b < |run[i].blocks|
    requires Publishes(run[i], acts[i], (b, gen)) && PcOf(run[n], a) == ReadBuffer(b, gen)
    ensures b < |run[n].blocks| && run[n].blocks[b].data == run[i].blocks[b].data
  {
    RunInv(run, acts, n);
    assert ActorOk(run[n], a) && BlockOk(run[n], b);
    PublishedForGood(run, acts, i + 1, n, (b, gen));
  }

  /** A descriptor that reads has been handed out: its publish store is in the run's past. */
  lemma {:induction false} ReadImpliesPublished(run: seq<State>, acts: seq<Action>, n: nat, d: (nat, nat))
    requires IsRun(run, acts) && n < |run| && d in run[n].published
    ensures exists i: nat :: i < n && Publishes(run[i], acts[i], d)
    decreases n
  {
    if d in run[n - 1].published {
      ReadImpliesPublished(run, acts, n - 1, d);
    } else {
      assert Publishes(run[n - 1], acts[n - 1], d);
    }
  }

  lemma ReaderHasPublisher(run: seq<State>, acts: seq<Action>, n: nat, a: Actor)
    requires IsRun(run, acts) && n < |run| && PcOf(run[n], a).ReadBuffer?
    ensures exists i: nat :: i < n && Publishes(run[i], acts[i], (PcOf(run[n], a).b, PcOf(run[n], a).gen))
  {
    RunInv(run, acts, n);
    var pc := PcOf(run[n], a);
    assert ActorOk(run[n], a) && BlockOk(run[n], pc.b);
    ReadImpliesPublished(run, acts, n, (pc.b, pc.gen));
  }

  // ----- Outcomes -----

  /**
   A closing buffer never finds its block changed: publish ends with its descriptor handed out,
   abort and release end with the block free, and nothing else can happen.
   */
  lemma ClosingSucceeds(run: seq<State>, acts: seq<Action>, i: nat, a: Actor)
    requires IsRun(run, acts) && i < |acts| && acts[i].actor == a && acts[i].Advance?
    requires PcOf(run[i], a).Closing?
    ensures var pc := PcOf(run[i], a);
            var pc1 := PcOf(run[i + 1], a);
            && pc.b < |run[i + 1].blocks|
            && var blk := run[i + 1].blocks[pc.b];
               || (pc1.Closing? && pc1.(close := pc.close) == pc && !pc1.close.CloseState?)
               || (pc.how.Publish? && pc1 == Done(PublishedAs(pc.b, pc.gen)) && blk.state == Published
                   && blk.generation == pc.gen)
               || (!pc.how.Publish? && pc1 == Done(Closed(true)) && blk.state == Free)
  {
    RunInv(run, acts, i);
    assert ActorOk(run[i], a) && BlockOk(run[i], PcOf(run[i], a).b);
  }

  /**
   No call ever reports a lost rollback, an exhausted or corrupt epoch on the reading side, or a
   refused publish; no abort or release leaves its block behind.
   */
  lemma ImpossibleErrorsNeverHappen(run: seq<State>, acts: seq<Action>, i: nat, a: Actor)
    requires IsRun(run, acts) && i < |run| && PcOf(run[i], a).Done?
    ensures Possible(PcOf(run[i], a).res)
  {
    RunInv(run, acts, i);
    assert ActorOk(run[i], a);
  }

  /** A reader that has claimed its block finds the state it set, and room for its own commit. */
  lemma ReaderHasRoom(run: seq<State>, acts: seq<Action>, i: nat, a: Actor)
    requires IsRun(run, acts) && i < |run| && PcOf(run[i], a).ReadClaim?
    ensures PcOf(run[i], a).b < |run[i].blocks|
    ensures var blk := run[i].blocks[PcOf(run[i], a).b];
            && blk.state == ReadingClaiming
            && (Even(blk.epoch) && !PcOf(run[i], a).read.StoreReading? ==> blk.epoch + 2 <= MAX_EPOCH)
  {
    RunInv(run, acts, i);
    assert ActorOk(run[i], a) && BlockOk(run[i], PcOf(run[i], a).b);
  }

  /** The descriptor can be redeemed by `a`: its generation is in place, published or already claimed by `a`. */
  predicate Presentable(blk: Block, gen: nat, a: Actor) {
    blk.generation == gen && (blk.state == Published || blk.holder == Some(a))
  }

  /**
   `acquire_read` refuses a well-formed descriptor only at an instant at which it could not have
   been redeemed, and says why truthfully.
   */
  lemma RefusalIsJust(run: seq<State>, acts: seq<Action>, i: nat, a: Actor)
    requires IsRun(run, acts) && i < |acts| && acts[i].Advance? && acts[i].actor == a
    requires PcOf(run[i], a).ReadTry? || PcOf(run[i], a).ReadClaim?
    requires PcOf(run[i + 1], a).Done?
    ensures PcOf(run[i + 1], a).res.Failed? && PcOf(run[i], a).b < |run[i].blocks|
    ensures JustlyRefused(run[i].blocks[PcOf(run[i], a).b], PcOf(run[i], a).gen, a, PcOf(run[i + 1], a).res.why)
  {
    RunInv(run, acts, i);
    StepRefuses(run[i], acts[i], a);
  }

  /** The descriptor could not be redeemed, and the reason given is the true one. */
  predicate JustlyRefused(blk: Block, gen: nat, a: Actor, why: Error) {
    && !Presentable(blk, gen, a)
    && (why == InvalidHandle ==> blk.generation != gen)
    && (why == StateMismatch ==> blk.state == Free)
    && (why != InvalidHandle ==> blk.state != Published)
  }

  lemma StepRefuses(s: State, act: Action, a: Actor)
    requires Inv(s) && Enabled(s, act) && act.Advance? && act.actor == a
    requires PcOf(s, a).ReadTry? || PcOf(s, a).ReadClaim?
    requires PcOf(Next(s, act), a).Done?
    ensures PcOf(Next(s, act), a).res.Failed? && PcOf(s, a).b < |s.blocks|
    ensures JustlyRefused(s.blocks[PcOf(s, a).b], PcOf(s, a).gen, a, PcOf(Next(s, act), a).res.why)
  {
    assert ActorOk(s, a) && BlockOk(s, PcOf(s, a).b);
  }

  // ----- Scan completeness -----

  /** `a` could take the block: it is free or already `a`'s, with a generation and two commits to spare. */
  predicate Takeable(blk: Block, a: Actor) {
    (blk.state == Free || blk.holder == Some(a)) && blk.generation < U64_MAX && blk.epoch <= MAX_EPOCH - 4
  }

  /** The instant a sight of block `b` was taken. */
  predicate Shows(s: State, b: nat, a: Actor, sight: Sight) {
    && b < |s.blocks|
    && !Takeable(s.blocks[b], a)
    && (sight == SawPublished ==> s.blocks[b].state == Published)
  }

  /** One of the instants `past` shows it. */
  ghost predicate Seen(past: seq<State>, a: Actor, b: nat, sight: Sight) {
    exists s :: s in past && Shows(s, b, a, sight)
  }

  ghost predicate AllSeen(past: seq<State>, a: Actor, seen: seq<Sight>) {
    forall j: nat | j < |seen| :: Seen(past, a, j, seen[j])
  }

  predicate Searches(pc: Pc) {
    pc.Scan? || pc.WriteClaim?
  }

  /** What a searching call remembers is borne out by the instants it has lived through. */
  ghost predicate Evidence(past: seq<State>, pc: Pc, a: Actor) {
    && (Searches(pc) ==> AllSeen(past, a, pc.seen))
    && (pc.Scan? && pc.scan.Classify? ==> Seen(past, a, pc.b, SawBusy))
  }

  /** What a report says of every block. */
  function Excuse(why: Error): Sight {
    if why == PoolFull then SawPublished else SawBusy
  }

  /** Each block could not be taken at some instant; for a full pool, because it was published. */
  ghost predicate NoneToTake(past: seq<State>, count: nat, a: Actor, why: Error) {
    forall b: nat | b < count :: Seen(past, a, b, Excuse(why))
  }

  lemma SeenLater(past: seq<State>, more: seq<State>, a: Actor, seen: seq<Sight>)
    requires past <= more && AllSeen(past, a, seen)
    ensures AllSeen(more, a, seen)
  {
    forall j: nat | j < |seen| ensures Seen(more, a, j, seen[j]) {
      assert Seen(past, a, j, seen[j]);
      var s :| s in past && Shows(s, j, a, seen[j]);
      assert s in more;
    }
  }

  lemma EvidenceLater(past: seq<State>, more: seq<State>, pc: Pc, a: Actor)
    requires past <= more && Evidence(past, pc, a)
    ensures Evidence(more, pc, a)
  {
    if Searches(pc) {
      SeenLater(past, more, a, pc.seen);
    }
    if pc.Scan? && pc.scan.Classify? {
      var s :| s in past && Shows(s, pc.b, a, SawBusy);
      assert s in more;
    }
  }

  lemma SeenMore(past: seq<State>, a: Actor, seen: seq<Sight>, sight: Sight)
    requires AllSeen(past, a, seen) && Seen(past, a, |seen|, sight)
    ensures AllSeen(past, a, seen + [sight])
  {
    forall j: nat | j < |seen| + 1 ensures Seen(past, a, j, (seen + [sight])[j]) {
      if j < |seen| {
        assert Seen(past, a, j, seen[j]);
      }
    }
  }

  /** What `a`'s own step adds to what it has seen. */
  function Adds(s: State, pc: Pc): Option<Sight>
    requires Searches(pc) && pc.b < |s.blocks|
  {
    var blk := s.blocks[pc.b];
    if pc.Scan? then
      (match pc.scan
       case LoadState =>
         if blk.state == Published then Some(SawPublished)
         else if blk.state == EpochExhausted then Some(SawExhausted)
         else None
       case Classify => Some(SawBusy)
       case ClaimCas => if blk.state == Free then None else Some(LostCas))
    else if pc.write.RestoreFree? then Some(NoGeneration)
    else if pc.write.Retire? then Some(NoEpoch)
    else None
  }

  /** Every sight is of a block `a` could not have taken at that instant. */
  lemma AddsTrue(past: seq<State>, s: State, a: Actor)
    requires Inv(s) && Searches(PcOf(s, a)) && Evidence(past, PcOf(s, a), a) && s in past
    ensures var pc := PcOf(s, a);
            && pc.b < |s.blocks|
            && (Adds(s, pc).Some? ==> Seen(past, a, pc.b, Adds(s, pc).value))
            && (pc.Scan? && pc.scan.LoadState? && s.blocks[pc.b].state != Free ==> Seen(past, a, pc.b, SawBusy))
  {
    var pc := PcOf(s, a);
    assert ActorOk(s, a) && BlockOk(s, pc.b);
    var sight := Adds(s, pc);
    if sight.Some? && !(pc.Scan? && pc.scan.Classify?) {
      assert Shows(s, pc.b, a, sight.value);
    }
    if pc.Scan? && s.blocks[pc.b].state != Free {
      assert Shows(s, pc.b, a, SawBusy);
    }
  }

  /** What the call has seen once it has stepped from `pc`. */
  function SeenAfter(s: State, pc: Pc): seq<Sight>
    requires Searches(pc) && pc.b < |s.blocks|
  {
    if Adds(s, pc).Some? then pc.seen + [Adds(s, pc).value] else pc.seen
  }

  /** `a` moves from `pc` to `pc1`. */
  predicate Follows(s: State, pc: Pc, pc1: Pc)
    requires Searches(pc) && pc.b < |s.blocks|
  {
    && (Searches(pc1) ==> pc1.seen == SeenAfter(s, pc))
    && (pc1.Scan? && pc1.scan.Classify? ==>
          pc1.b == pc.b && pc.Scan? && pc.scan.LoadState? && s.blocks[pc.b].state != Free)
    && (pc1.Done? ==>
          && pc1.res.Failed? && |SeenAfter(s, pc)| == |s.blocks|
          && (pc1.res.why == PoolFull ==> forall sight | sight in SeenAfter(s, pc) :: sight == SawPublished))
  }

  lemma ScanFollows(s: State, act: Action, a: Actor)
    requires Inv(s) && Enabled(s, act) && act.Advance? && act.actor == a && PcOf(s, a).Scan?
    ensures PcOf(s, a).b < |s.blocks| && Follows(s, PcOf(s, a), PcOf(Next(s, act), a))
  {
    assert ActorOk(s, a);
  }

  lemma ClaimFollows(s: State, act: Action, a: Actor)
    requires Inv(s) && Enabled(s, act) && act.Advance? && act.actor == a && PcOf(s, a).WriteClaim?
    ensures PcOf(s, a).b < |s.blocks| && Follows(s, PcOf(s, a), PcOf(Next(s, act), a))
  {
    var pc := PcOf(s, a);
    assert ActorOk(s, a) && BlockOk(s, pc.b);
    if pc.write.Retire? {
      assert pc.write.why == SequenceExhausted;
    }
  }

  /** A search that ends without a block has seen every block untakeable. */
  lemma SearchStep(past: seq<State>, s: State, act: Action, a: Actor)
    requires Inv(s) && Enabled(s, act) && act.Advance? && act.actor == a
    requires Searches(PcOf(s, a)) && Evidence(past, PcOf(s, a), a) && s in past
    ensures var pc1 := PcOf(Next(s, act), a);
            && Evidence(past, pc1, a)
            && (pc1.Done? ==> pc1.res.Failed? && NoneToTake(past, |s.blocks|, a, pc1.res.why))
  {
    var pc, pc1 := PcOf(s, a), PcOf(Next(s, act), a);
    assert ActorOk(s, a);
    if pc.Scan? {
      ScanFollows(s, act, a);
    } else {
      ClaimFollows(s, act, a);
    }
    AddsTrue(past, s, a);
    if Adds(s, pc).Some? {
      SeenMore(past, a, pc.seen, Adds(s, pc).value);
    }
    if pc1.Done? {
      SeenAll(past, |s.blocks|, a, SeenAfter(s, pc), pc1.res.why);
    }
  }

  lemma SeenAll(past: seq<State>, count: nat, a: Actor, seen: seq<Sight>, why: Error)
    requires AllSeen(past, a, seen) && |seen| == count
    requires why == PoolFull ==> forall sight | sight in seen :: sight == SawPublished
    ensures NoneToTake(past, count, a, why)
  {
    forall b: nat | b < count ensures Seen(past, a, b, Excuse(why)) {
      assert Seen(past, a, b, seen[b]);
      var s :| s in past && Shows(s, b, a, seen[b]);
      assert seen[b] in seen;
      assert Shows(s, b, a, Excuse(why));
    }
  }

  lemma OtherStepSeen(s: State, act: Action, a: Actor)
    requires Enabled(s, act) && Searches(PcOf(s, a))
    requires !act.Advance? || act.actor != a
    ensures PcOf(Next(s, act), a) == PcOf(s, a)
  {
  }

  /** Between `lo` and `hi` actor `a` is searching for a block in one call of `try_acquire_write`. */
  ghost predicate Searching(run: seq<State>, acts: seq<Action>, lo: nat, hi: nat, a: Actor) {
    && IsRun(run, acts) && lo < hi < |run|
    && acts[lo] == BeginWrite(a)
    && (forall k | lo < k < hi :: Searches(PcOf(run[k], a)))
  }

  lemma {:induction false} EvidenceKept(run: seq<State>, acts: seq<Action>, lo: nat, hi: nat, a: Actor)
    requires Searching(run, acts, lo, hi, a)
    ensures Evidence(run[lo + 1..hi], PcOf(run[hi], a), a)
    ensures PcOf(run[hi], a).Done? ==>
              && PcOf(run[hi], a).res.Failed?
              && NoneToTake(run[lo + 1..hi], |run[hi].blocks|, a, PcOf(run[hi], a).res.why)
    decreases hi
  {
    if lo + 1 < hi {
      var h := hi - 1;
      EvidenceKept(run, acts, lo, h, a);
      RunInv(run, acts, h);
      assert Enabled(run[h], acts[h]) && run[h + 1] == Next(run[h], acts[h]);
      EvidenceLater(run[lo + 1..h], run[lo + 1..hi], PcOf(run[h], a), a);
      if !acts[h].Advance? || acts[h].actor != a {
        OtherStepSeen(run[h], acts[h], a);
      } else {
        assert run[h] == run[lo + 1..hi][h - lo - 1];
        SearchStep(run[lo + 1..hi], run[h], acts[h], a);
      }
    }
  }

  lemma CountFixed(run: seq<State>, acts: seq<Action>, i: nat, n: nat)
    requires IsRun(run, acts) && i <= n < |run|
    ensures |run[n].blocks| == |run[i].blocks|
    decreases n
  {
    if i < n {
      CountFixed(run, acts, i, n - 1);
    }
  }

  /**
   `try_acquire_write` fails only if every block was, at some instant of the call, one the caller
   could not take; and reports a full pool only if every block was published at some instant of
   the call.  So a block that stays takeable throughout is enough for the call to succeed.
   */
  lemma ScanIsComplete(run: seq<State>, acts: seq<Action>, lo: nat, hi: nat, a: Actor, b: nat)
    requires Searching(run, acts, lo, hi, a) && PcOf(run[hi], a).Done? && b < |run[lo].blocks|
    ensures PcOf(run[hi], a).res.Failed?
    ensures exists t: nat :: lo < t <= hi && b < |run[t].blocks| && !Takeable(run[t].blocks[b], a)
    ensures PcOf(run[hi], a).res.why == PoolFull ==>
              exists t: nat :: lo < t <= hi && b < |run[t].blocks| && run[t].blocks[b].state == Published
  {
    EvidenceKept(run, acts, lo, hi, a);
    CountFixed(run, acts, lo, hi);
    var sight := Excuse(PcOf(run[hi], a).res.why);
    var past := run[lo + 1..hi];
    assert Seen(past, a, b, sight);
    var s :| s in past && Shows(s, b, a, sight);
    var k :| 0 <= k < |past| && past[k] == s;
    assert run[lo + 1 + k] == s;
  }
}
