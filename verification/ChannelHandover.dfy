/** When a channel can get a new consumer, and when it never will. */
module ChannelHandover {
  import opened Words
  import opened Channel
  import opened ChannelInvariant
  import opened ChannelSteps
  import opened ChannelTheorems

  /** When a consumer is registered, nothing is left held. */
  lemma HandoverIsClean(run: seq<State>, acts: seq<Action>, i: nat)
    requires IsRun(run, acts) && i < |run| && (run[i].cons.Open? || run[i].cons.Rest?)
    ensures forall k | 0 <= k < |run[i].slots| :: !Held(run[i].slots[k].state)
  {
    RunInv(run, acts, i);
  }

  // ----- Orphans -----

  /** A slot marked READING but by nobody: its reader died between the two stores of its release. */
  predicate Orphan(slot: Slot) {
    slot.state == Reading && slot.epoch == 0
  }

  /** Reclaiming gives up on a slot exactly when it is an orphan. */
  lemma BlockedOnlyByOrphan(s: State)
    requires Inv(s) && s.cons.Reclaim? && s.cons.step.LoadEpoch?
    ensures s.cons.i < |s.slots| && (ReclaimStep(s).cons.Nobody? <==> Orphan(s.slots[s.cons.i]))
  {
  }

  /** An opener would meet the orphan in slot `h`: nobody has begun to release it. */
  predicate Ahead(c: Consumer, h: nat) {
    c.Nobody? || (c.Reclaim? && c.i <= h && (c.i == h ==> c.step.LoadState? || c.step.LoadEpoch?))
  }

  predicate Blocked(s: State, h: nat) {
    h < |s.slots| && Orphan(s.slots[h]) && s.online && Even(s.epoch) && Ahead(s.cons, h)
  }

  /** The two stores of `slot_release_read` on a READING slot: a consumer's own, or an opener's reclaim. */
  predicate HalfReleased(s: State, h: nat)
    requires h < |s.slots|
  {
    || (s.cons.Release? && s.cons.zeroed && s.cons.i == h)
    || (s.cons.Reclaim? && s.cons.step.Store? && s.cons.i == h && s.slots[h].state == Reading)
  }

  lemma ProducerMakesNoOrphan(s: State, p: ProducerAct, h: nat)
    requires Inv(s) && ProducerEnabled(s, p) && h < |s.slots|
    ensures |Produce(s, p).slots| == |s.slots| && (Orphan(Produce(s, p).slots[h]) <==> Orphan(s.slots[h]))
  {
    if Held(s.slots[h].state) {
      HeldSlotUntouched(s, p, h);
    } else {
      ProducerStaysOut(s, p, h);
    }
  }

  lemma ProducerStaysOut(s: State, p: ProducerAct, h: nat)
    requires ProducerEnabled(s, p) && h < |s.slots| && !Held(s.slots[h].state)
    ensures |Produce(s, p).slots| == |s.slots| && !Held(Produce(s, p).slots[h].state)
  {
  }

  /**
   An orphan is left exactly by a death between the two stores of a release: of a consumer letting
   go of its slot, or of an opener taking back a READING one.
   */
  lemma OrphanedExactlyBy(s: State, act: Action, h: nat)
    requires Inv(s) && Enabled(s, act) && h < |s.slots| && !Blocked(s, h)
    ensures Blocked(Next(s, act), h) <==> act == Consuming(Die) && HalfReleased(s, h)
  {
    match act
    case Producing(p) => ProducerMakesNoOrphan(s, p, h);
    case Consuming(c) => ConsumerOrphans(s, c, h);
  }

  lemma ConsumerOrphans(s: State, c: ConsumerAct, h: nat)
    requires Inv(s) && ConsumerEnabled(s, c) && h < |s.slots| && !Blocked(s, h)
    ensures Blocked(Consume(s, c), h) <==> c.Die? && HalfReleased(s, h)
  {
    if c.Read1? {
      StepMakesNoOrphan(s, c.clock, h);
    }
  }

  lemma StepMakesNoOrphan(s: State, clock: bool, h: nat)
    requires Inv(s) && ConsumerRuns(s) && h < |s.slots| && !Blocked(s, h)
    ensures !Blocked(ConsumerNext(s, clock), h)
  {
    match s.cons
    case Reclaim(_, _) =>
      if s.cons.step.LoadEpoch? {
        BlockedOnlyByOrphan(s);
      }
    case _ =>
  }

  lemma StepStaysBlocked(s: State, act: Action, h: nat)
    requires Inv(s) && Enabled(s, act) && Blocked(s, h)
    ensures Blocked(Next(s, act), h)
  {
    match act
    case Producing(p) => HeldSlotUntouched(s, p, h);
    case Consuming(c) =>
      if s.cons.Reclaim? && s.cons.step.LoadEpoch? {
        BlockedOnlyByOrphan(s);
      }
  }

  /** No later opener ever gets past an orphan, whatever anyone does. */
  lemma {:induction false} OrphanBlocksForever(run: seq<State>, acts: seq<Action>, i: nat, n: nat, h: nat)
    requires IsRun(run, acts) && i <= n < |run| && Blocked(run[i], h)
    ensures Blocked(run[n], h)
    decreases n
  {
    if i < n {
      OrphanBlocksForever(run, acts, i, n - 1, h);
      RunInv(run, acts, n - 1);
      StepStaysBlocked(run[n - 1], acts[n - 1], h);
    }
  }

  // ----- Spent identities -----

  /** The identity cannot be rewritten: an opener died halfway through writing it, or its epoch ran out. */
  predicate Sealed(s: State) {
    && (!Even(s.epoch) || s.epoch > U64_MAX - 2)
    && (s.cons.Nobody? || s.cons.Reclaim? || (s.cons.Open? && s.cons.open.OpenOdd?))
  }

  lemma ProducerKeepsRegistration(s: State, p: ProducerAct)
    requires ProducerEnabled(s, p)
    ensures Produce(s, p).epoch == s.epoch && Produce(s, p).online == s.online && Produce(s, p).cons == s.cons
  {
  }

  lemma StepStaysSealed(s: State, act: Action)
    requires Inv(s) && Enabled(s, act) && Sealed(s)
    ensures Sealed(Next(s, act))
  {
    match act
    case Producing(p) => ProducerKeepsRegistration(s, p);
    case Consuming(c) =>
  }

  lemma {:induction false} SealedForever(run: seq<State>, acts: seq<Action>, i: nat, n: nat)
    requires IsRun(run, acts) && i <= n < |run| && Sealed(run[i])
    ensures Sealed(run[n])
    decreases n
  {
    if i < n {
      SealedForever(run, acts, i, n - 1);
      RunInv(run, acts, n - 1);
      StepStaysSealed(run[n - 1], acts[n - 1]);
    }
  }

  /** How the identity gets that way, short of running out. */
  lemma DeathInOpenSeals(s: State)
    requires Inv(s) && s.cons.Open? && s.cons.open.OpenEven?
    ensures Sealed(Next(s, Consuming(Die)))
  {
  }

  // ----- An opener left alone -----

  function Left(c: Consumer): nat {
    match c
    case Reclaim(i, step) =>
      if i >= SLOTS then 4
      else 4 + 4 * (SLOTS - i) - (match step case LoadState => 0 case LoadEpoch(_) => 1 case Zero => 2 case Store => 3)
    case Open(open) => (match open case OpenOdd => 3 case OpenEven => 2 case OpenOnline => 1)
    case _ => 0
  }

  /** Where the opener gets with nobody interfering. */
  function Alone(s: State): State
    requires |s.slots| == SLOTS && (s.cons.Reclaim? ==> s.cons.i < SLOTS)
    decreases Left(s.cons)
  {
    match s.cons
    case Reclaim(_, _) => Alone(ReclaimStep(s))
    case Open(_) => Alone(OpenStep(s))
    case _ => s
  }

  /** Nothing in the opener's way: no orphan ahead, and an identity epoch to spare. */
  predicate WayClear(s: State)
    requires |s.slots| == SLOTS
  {
    match s.cons
    case Reclaim(i, step) =>
      && s.epoch <= U64_MAX - 2
      && (forall k | i <= k < SLOTS && (k > i || step.LoadState? || step.LoadEpoch?) :: !Orphan(s.slots[k]))
    case Open(open) => open.OpenOdd? ==> s.epoch <= U64_MAX - 2
    case _ => s.cons.Rest?
  }

  lemma ReclaimOn(s: State)
    requires Inv(s) && s.cons.Reclaim? && WayClear(s)
    ensures s.cons.i < SLOTS && Inv(ReclaimStep(s)) && WayClear(ReclaimStep(s))
  {
    ReclaimKeeps(s);
    if s.cons.step.LoadEpoch? {
      BlockedOnlyByOrphan(s);
    }
  }

  lemma OpenOn(s: State)
    requires Inv(s) && s.cons.Open? && WayClear(s)
    ensures Inv(OpenStep(s)) && WayClear(OpenStep(s))
  {
    OpenKeeps(s);
  }

  lemma {:induction false} AloneSucceeds(s: State)
    requires Inv(s) && WayClear(s)
    ensures Alone(s).cons == Rest
    decreases Left(s.cons)
  {
    match s.cons
    case Reclaim(_, _) =>
      ReclaimOn(s);
      AloneSucceeds(ReclaimStep(s));
    case Open(_) =>
      OpenOn(s);
      AloneSucceeds(OpenStep(s));
    case _ =>
  }

  /** What an opener can read off the channel before it starts. */
  predicate Replaceable(s: State) {
    && Even(s.epoch) && s.epoch <= U64_MAX - 2
    && (s.online ==> forall k | 0 <= k < |s.slots| :: !Orphan(s.slots[k]))
  }

  /**
   From every reachable moment at which nobody is the consumer: an opener left alone gets all the
   way to being it exactly when the identity epoch is even and has room and, if the last consumer
   did not shut down, no slot is an orphan; and otherwise nobody ever is again.
   */
  lemma ReplaceableIff(run: seq<State>, acts: seq<Action>, i: nat)
    requires IsRun(run, acts) && i < |run| && run[i].cons.Nobody?
    ensures Formed(run[i])
    ensures Replaceable(run[i]) ==> Alone(Consume(run[i], Enter)).cons == Rest
    ensures !Replaceable(run[i]) ==> forall n | i <= n < |run| :: !run[n].cons.Rest?
  {
    RunInv(run, acts, i);
    var s := run[i];
    if Replaceable(s) {
      EnterKeeps(s);
      AloneSucceeds(Consume(s, Enter));
    } else if !Even(s.epoch) || s.epoch > U64_MAX - 2 {
      forall n | i <= n < |run| ensures !run[n].cons.Rest? {
        SealedForever(run, acts, i, n);
      }
    } else {
      var h: nat :| h < |s.slots| && Orphan(s.slots[h]);
      forall n | i <= n < |run| ensures !run[n].cons.Rest? {
        OrphanBlocksForever(run, acts, i, n, h);
      }
    }
  }
}
