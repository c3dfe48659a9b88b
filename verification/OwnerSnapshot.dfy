/**
 `snapshot_owner_seq_cst` and the liveness verdicts built on it.

 The methods read one cell of a run that goes on around them: a load at time `t` sees
 `run[t]`, and between two loads any number of steps may pass.
 */
module OwnerSnapshot {
  import opened Words
  import opened OwnerCell

  const RETRIES: nat := 4
  const NOBODY: Owner := Owner(0, 0, 0, 0)

  /** `OwnerSnapshotKind` */
  datatype Verdict = IsInactive | IsClaiming | IsStable | IsUnstable | IsCorrupt | IsExhausted

  datatype Snapshot = Snapshot(verdict: Verdict, state: nat, owner: Owner, epoch: nat)

  /** What a snapshot asserts of one moment. */
  ghost predicate HeldAt(su: Setup, s: Sys, r: Snapshot) {
    && s.mem.state == r.state
    && match r.verdict
       case IsInactive =>
         su.classify(r.state) == Inactive && s.mem.epoch == r.epoch && Even(r.epoch) && s.holder.None?
       case IsClaiming => su.classify(r.state) == Claiming && s.holder.Some?
       case IsStable =>
         && su.classify(r.state) == Owned && s.mem.epoch == r.epoch && s.mem.owner == r.owner
         && Even(r.epoch) && r.epoch in s.log && s.holder == Some(s.log[r.epoch])
         && r.owner == su.who(s.log[r.epoch])
       case IsExhausted => su.classify(r.state) == EpochExhausted
       case IsCorrupt => su.classify(r.state) == ProtocolFault || su.classify(r.state) == Unexpected
       case IsUnstable => true
  }

  /** What the loads alone establish: the two alarms the code raises are not yet known to be false. */
  ghost predicate SeenAt(su: Setup, s: Sys, r: Snapshot) {
    && s.mem.state == r.state
    && match r.verdict
       case IsInactive => su.classify(r.state) == Inactive && s.mem.epoch == r.epoch
       case IsClaiming => su.classify(r.state) == Claiming
       case IsStable => su.classify(r.state) == Owned && s.mem.epoch == r.epoch && s.mem.owner == r.owner
       case IsExhausted => su.classify(r.state) == EpochExhausted
       case IsCorrupt =>
         || su.classify(r.state) == ProtocolFault || su.classify(r.state) == Unexpected
         || (su.classify(r.state) == Inactive && s.mem.epoch == r.epoch && (!Even(r.epoch) || r.epoch > MAX_EPOCH))
         || (su.classify(r.state) == Owned && s.mem.epoch == r.epoch && s.mem.owner == r.owner && !Valid(r.owner))
       case IsUnstable => true
  }

  /** No live protocol state looks corrupt, and what looks stable is one whole commit. */
  lemma SeenIsHeld(su: Setup, run: seq<Sys>, at: nat, r: Snapshot)
    requires IsRun(su, run) && at < |run| && SeenAt(su, run[at], r)
    ensures HeldAt(su, run[at], r)
  {
    RunInv(su, run, at);
  }

  /** Nothing happens to the cell from `i` through `j`. */
  ghost predicate Quiet(run: seq<Sys>, i: nat, j: nat) {
    i <= j < |run| && forall k | i <= k <= j :: run[k].mem == run[i].mem
  }

  /**
   The inactive branch of one attempt, entered after `state1` was loaded at `t`: it loads the epoch
   at `t1`, the state at `t2` and the epoch at `t3`.  What it reports held at `t2`.
   */
  method InactiveAttempt(su: Setup, run: seq<Sys>, t: nat, state1: nat, t1: nat, t2: nat, t3: nat)
    returns (r: Option<Snapshot>)
    requires IsRun(su, run) && t <= t1 <= t2 <= t3 < |run| && su.classify(state1) == Inactive
    ensures r.Some? ==> SeenAt(su, run[t2], r.value) && !r.value.verdict.IsUnstable?
    ensures Quiet(run, t, t3) && run[t].mem.state == state1 ==> r.Some?
  {
    var epoch1 := run[t1].mem.epoch;
    var state2 := run[t2].mem.state;
    var epoch2 := run[t3].mem.epoch;
    RunForward(su, run, t1, t2);
    RunForward(su, run, t2, t3);
    r := None;
    var kind := su.classify(state2);
    if state2 == state1 && epoch1 == epoch2 {
      if !Even(epoch2) || epoch2 > MAX_EPOCH {
        r := Some(Snapshot(IsCorrupt, state2, NOBODY, epoch2));
      } else {
        r := Some(Snapshot(IsInactive, state2, NOBODY, epoch2));
      }
    } else if kind == Claiming {
      r := Some(Snapshot(IsClaiming, state2, NOBODY, epoch2));
    } else if kind == EpochExhausted {
      r := Some(Snapshot(IsExhausted, state2, NOBODY, epoch2));
    } else if kind == ProtocolFault || kind == Unexpected {
      r := Some(Snapshot(IsCorrupt, state2, NOBODY, epoch2));
    }
  }

  /** When the loads of an owned attempt are made: epoch, four words, epoch, state, epoch. */
  datatype Loads = Loads(t1: nat, w0: nat, w1: nat, w2: nat, w3: nat, t2: nat, t3: nat, t4: nat)

  predicate InOrder(t: nat, at: Loads, n: nat) {
    && t <= at.t1 <= at.w0 <= at.w1 <= at.w2 <= at.w3
    && at.w3 <= at.t2 <= at.t3 <= at.t4 < n
  }

  /** The owned branch; what it reports held at its second load of the state. */
  method OwnedAttempt(su: Setup, run: seq<Sys>, t: nat, at: Loads) returns (r: Option<Snapshot>)
    requires IsRun(su, run) && InOrder(t, at, |run|)
    ensures r.Some? ==> SeenAt(su, run[at.t3], r.value) && !r.value.verdict.IsUnstable?
    ensures Quiet(run, t, at.t4) && su.classify(run[t].mem.state) == Owned ==> r.Some?
  {
    RunInv(su, run, t);
    var epoch1 := run[at.t1].mem.epoch;
    if !Even(epoch1) {
      return None;
    }
    var candidate := Owner(run[at.w0].mem.owner.pid, run[at.w1].mem.owner.startTicks,
                           run[at.w2].mem.owner.bootHi, run[at.w3].mem.owner.bootLo);
    var epoch2 := run[at.t2].mem.epoch;
    var state2 := run[at.t3].mem.state;
    var epoch3 := run[at.t4].mem.epoch;
    r := None;
    var kind := su.classify(state2);
    if kind == Owned && epoch1 == epoch2 && epoch2 == epoch3 && Even(epoch3) {
      OneCommit(su, run, at.t1, at.w0, at.t4);
      OneCommit(su, run, at.t1, at.w1, at.t4);
      OneCommit(su, run, at.t1, at.w2, at.t4);
      OneCommit(su, run, at.t1, at.w3, at.t4);
      OneCommit(su, run, at.t1, at.t3, at.t4);
      r := Some(Snapshot(if Valid(candidate) then IsStable else IsCorrupt, state2, candidate, epoch3));
    } else if kind == EpochExhausted {
      r := Some(Snapshot(IsExhausted, state2, NOBODY, epoch3));
    } else if kind == ProtocolFault || kind == Unexpected {
      r := Some(Snapshot(IsCorrupt, state2, NOBODY, epoch3));
    }
  }

  /** Between two loads of one even epoch, every load of an owner word sees the same commit. */
  lemma OneCommit(su: Setup, run: seq<Sys>, i: nat, k: nat, j: nat)
    requires IsRun(su, run) && i <= k <= j < |run|
    requires run[i].mem.epoch == run[j].mem.epoch && Even(run[i].mem.epoch)
    ensures run[k].mem.epoch == run[i].mem.epoch && run[k].mem.owner == run[i].mem.owner
  {
    RunForward(su, run, i, k);
    RunForward(su, run, k, j);
  }

  /**
   `snapshot_owner_seq_cst`: at most four attempts, then one last look at the state.  It is
   inconclusive only if the cell changed while it looked.
   */
  method SnapshotOwner(su: Setup, run: seq<Sys>, start: nat) returns (r: Snapshot, end: nat, ghost at: nat)
    requires IsRun(su, run) && start < |run|
    ensures start <= at <= end < |run|
    ensures HeldAt(su, run[at], r)
    ensures Quiet(run, start, end) ==> !r.verdict.IsUnstable?
  {
    var attempt, found := 0, None;
    end, at := start, start;
    while attempt < RETRIES && found.None?
      invariant start <= at <= end < |run|
      invariant found.Some? ==> SeenAt(su, run[at], found.value) && !found.value.verdict.IsUnstable?
      invariant attempt > 0 && Quiet(run, start, end) ==> found.Some?
      decreases RETRIES - attempt
    {
      var t :| end <= t < |run|;
      var state1 := run[t].mem.state;
      var t1 :| t <= t1 < |run|;
      at, end := t, t1;
      match su.classify(state1) {
      case Inactive =>
        var t2 :| t1 <= t2 < |run|;
        var t3 :| t2 <= t3 < |run|;
        found := InactiveAttempt(su, run, t, state1, t1, t2, t3);
        at, end := t2, t3;
      case Claiming => found := Some(Snapshot(IsClaiming, state1, NOBODY, run[t1].mem.epoch));
      case EpochExhausted => found := Some(Snapshot(IsExhausted, state1, NOBODY, run[t1].mem.epoch));
      case Owned =>
        assert InOrder(t, Loads(t1, t1, t1, t1, t1, t1, t1, t1), |run|);
        var loads :| InOrder(t, loads, |run|);
        found := OwnedAttempt(su, run, t, loads);
        at, end := loads.t3, loads.t4;
      case _ => found := Some(Snapshot(IsCorrupt, state1, NOBODY, run[t1].mem.epoch));
      }
      attempt := attempt + 1;
    }
    if found.None? {
      var t :| end <= t < |run|;
      var t1 :| t <= t1 < |run|;
      var state := run[t].mem.state;
      var kind := su.classify(state);
      var verdict :=
        if kind == EpochExhausted then IsExhausted
        else if kind == ProtocolFault || kind == Unexpected then IsCorrupt
        else IsUnstable;
      found, at, end := Some(Snapshot(verdict, state, NOBODY, run[t1].mem.epoch)), t, t1;
    }
    r := found.value;
    SeenIsHeld(su, run, at, r);
  }

  // ----- Liveness verdicts -----

  datatype Liveness = Alive | Exited | PidReused | Unverifiable

  /** What `probe_liveness` may answer at a moment. */
  predicate Truthful(s: Sys, o: Owner, answer: Liveness) {
    match answer
    case Alive => o !in s.dead
    case Exited => o in s.dead
    case PidReused => o in s.dead
    case Unverifiable => true
  }

  /** `OwnerObservationDisposition` */
  datatype Disposition = NotUnrecoverable | Changed | Unrecoverable

  predicate Foreign(o: Owner, self: Owner) {
    o.bootHi != self.bootHi || o.bootLo != self.bootLo
  }

  /** `same_stable_owner_observation` */
  predicate SameStable(r: Snapshot, r1: Snapshot) {
    r.verdict.IsStable? && r1.verdict.IsStable? && r1.state == r.state && r1.epoch == r.epoch && r1.owner == r.owner
  }

  /** One commit, of identity `o`, holds the cell from `i` through `j`. */
  ghost predicate OneHolder(su: Setup, run: seq<Sys>, i: nat, j: nat, o: Owner) {
    && i <= j < |run|
    && run[i].holder.Some? && su.who(run[i].holder.value) == o
    && (forall k | i <= k <= j :: run[k].mem == run[i].mem && run[k].holder == run[i].holder)
  }

  lemma StableMeansHolder(su: Setup, run: seq<Sys>, i: nat, j: nat, r: Snapshot, r1: Snapshot)
    requires IsRun(su, run) && i <= j < |run|
    requires HeldAt(su, run[i], r) && HeldAt(su, run[j], r1) && SameStable(r, r1)
    ensures OneHolder(su, run, i, j, r.owner)
  {
    forall k | i <= k <= j ensures run[k].mem == run[i].mem && run[k].holder == run[i].holder {
      HeldThroughout(su, run, i, j, k);
    }
  }

  /**
   `confirm_owner_liveness`: probe, then look again.  Unless the gate changed, the commit first
   observed held it from before the probe until after, so the verdict is about that commit.
   */
  method ConfirmOwnerLiveness(su: Setup, run: seq<Sys>, self: Owner, obs: Snapshot, ghost seen: nat, start: nat)
    returns (verdict: Disposition, live: Liveness, end: nat, ghost probed: nat, ghost again: nat)
    requires IsRun(su, run) && seen <= start < |run|
    requires obs.verdict.IsStable? && HeldAt(su, run[seen], obs)
    ensures seen <= probed <= again <= end < |run|
    ensures verdict == Changed ==> !Quiet(run, seen, end)
    ensures !Foreign(obs.owner, self) ==> Truthful(run[probed], obs.owner, live)
    ensures verdict != Changed ==> OneHolder(su, run, seen, again, obs.owner)
    ensures verdict == Unrecoverable ==> Foreign(obs.owner, self) || live != Alive
    ensures verdict == NotUnrecoverable ==> !Foreign(obs.owner, self) && obs.owner !in run[probed].dead
  {
    var foreign := Foreign(obs.owner, self);
    var t :| start <= t < |run|;
    probed := t;
    if foreign {
      live := Unverifiable;
    } else {
      assert Truthful(run[t], obs.owner, Unverifiable);
      live :| Truthful(run[t], obs.owner, live);
    }
    var confirmed;
    confirmed, end, again := SnapshotOwner(su, run, t);
    if !SameStable(obs, confirmed) {
      verdict := Changed;
    } else {
      StableMeansHolder(su, run, seen, again, obs, confirmed);
      verdict := if foreign || live != Alive then Unrecoverable else NotUnrecoverable;
    }
  }

  datatype Busy = Contention | RecoveryBlocked | ConcurrentUse

  /** A dead, unverifiable or foreign commit held the gate across the whole probe. */
  ghost predicate Blamed(su: Setup, run: seq<Sys>, self: Owner, i: nat, probed: nat, j: nat, o: Owner, live: Liveness) {
    && i <= probed <= j
    && OneHolder(su, run, i, j, o)
    && (Foreign(o, self) || (live != Alive && Truthful(run[probed], o, live)))
  }

  /** At moment `i` the cell is classified `kind` and its holder's process has ended. */
  ghost predicate DeadIn(su: Setup, run: seq<Sys>, i: nat, kind: Kind) {
    && i < |run| && run[i].holder.Some? && su.who(run[i].holder.value) in run[i].dead
    && su.classify(run[i].mem.state) == kind
  }

  lemma DeadStaysQuiet(su: Setup, run: seq<Sys>, i: nat, j: nat, kind: Kind)
    requires IsRun(su, run) && i <= j < |run| && DeadIn(su, run, i, kind)
    ensures Quiet(run, i, j) && DeadIn(su, run, j, kind) && run[j].holder == run[i].holder
  {
    forall k | i <= k <= j ensures run[k].mem == run[i].mem {
      DeadHolderStuck(su, run, i, k);
    }
    DeadHolderStuck(su, run, i, j);
    RunForward(su, run, i, j);
  }

  /**
   `gate_busy_result`: blame only for what cannot recover, and mere contention only where the gate
   moved on, was being claimed, or had a holder alive when asked about.  A holder that died owning
   the gate is always blamed; one that died while claiming it never is.
   */
  method GateBusyResult(su: Setup, run: seq<Sys>, self: Owner, start: nat)
    returns (code: Busy, live: Liveness, obs: Snapshot, end: nat, ghost seen: nat, ghost probed: nat, ghost again: nat)
    requires IsRun(su, run) && start < |run|
    ensures start <= seen <= end < |run| && HeldAt(su, run[seen], obs)
    ensures obs.verdict.IsCorrupt? || obs.verdict.IsExhausted? ==> code == RecoveryBlocked
    ensures code == Contention && obs.verdict.IsStable? ==>
              || !Quiet(run, seen, end)
              || (&& seen <= probed <= again && OneHolder(su, run, seen, again, obs.owner)
                  && obs.owner !in run[probed].dead)
    ensures code == RecoveryBlocked ==>
              || obs.verdict.IsCorrupt? || obs.verdict.IsExhausted?
              || (obs.verdict.IsStable? && Blamed(su, run, self, seen, probed, again, obs.owner, live))
    ensures code == ConcurrentUse ==>
              obs.verdict.IsStable? && obs.owner == self && seen <= again && OneHolder(su, run, seen, again, self)
    ensures obs.verdict.IsStable? && obs.owner == self ==> code != RecoveryBlocked
    ensures code == Contention && obs.verdict.IsUnstable? ==> !Quiet(run, start, end)
    ensures DeadIn(su, run, start, Claiming) ==> code == Contention
    ensures DeadIn(su, run, start, Owned) && su.who(run[start].holder.value) != self ==> code == RecoveryBlocked
  {
    obs, end, seen := SnapshotOwner(su, run, start);
    live, probed, again := Unverifiable, seen, seen;
    ghost var kind := su.classify(run[start].mem.state);
    if DeadIn(su, run, start, kind) {
      DeadStaysQuiet(su, run, start, end, kind);
      DeadStaysQuiet(su, run, start, seen, kind);
    }
    match obs.verdict
    case IsInactive => code := Contention;
    case IsClaiming => code := Contention;
    case IsUnstable => code := Contention;
    case IsCorrupt => code := RecoveryBlocked;
    case IsExhausted => code := RecoveryBlocked;
    case IsStable =>
      var verdict;
      verdict, live, end, probed, again := ConfirmOwnerLiveness(su, run, self, obs, seen, end);
      if DeadIn(su, run, start, kind) {
        DeadStaysQuiet(su, run, seen, end, kind);
        DeadStaysQuiet(su, run, seen, probed, kind);
      }
      if verdict == Changed {
        code := Contention;
      } else if obs.owner == self {
        code := ConcurrentUse;
      } else {
        code := if verdict == NotUnrecoverable then Contention else RecoveryBlocked;
      }
  }

  /** A gate blamed on a process that really ended is stuck: the refusal is final. */
  lemma BlameIsFinal(su: Setup, run: seq<Sys>, self: Owner, i: nat, probed: nat, j: nat, o: Owner,
                     live: Liveness, k: nat)
    requires IsRun(su, run) && Blamed(su, run, self, i, probed, j, o, live)
    requires !Foreign(o, self) && live != Unverifiable
    requires i <= k < |run|
    ensures run[k].mem == run[i].mem && run[k].holder == run[i].holder
  {
    if k > j {
      RunForward(su, run, probed, j);
      DeadHolderStuck(su, run, j, k);
    }
  }

  // ----- The classifiers in use -----

  /** `MpmcLockState` */
  function GateRole(st: nat): Role {
    if st == 0 then Rest else if st == 1 then Claimed else if st == 2 then Held else Terminal
  }

  function GateKind(st: nat): Kind {
    if st == 0 then Inactive else if st == 1 then Claiming else if st == 2 then Owned
    else if st == 3 then EpochExhausted else if st == 4 then ProtocolFault else Unexpected
  }

  /** `MpmcSlotState` */
  function SlotRole(st: nat): Role {
    if st == 0 || st == 3 then Rest
    else if st == 1 || st == 4 then Claimed
    else if st == 2 || st == 5 then Held
    else Terminal
  }

  /** `snapshot_slot_owner`: each side knows its own three states. */
  function SlotKind(enqueue: bool, st: nat): Kind {
    if st == (if enqueue then 0 else 3) then Inactive
    else if st == (if enqueue then 1 else 4) then Claiming
    else if st == (if enqueue then 2 else 5) then Owned
    else if st == 6 then EpochExhausted
    else if st == 7 then ProtocolFault
    else Unexpected
  }

  /** `classify_block_state`; the pool's block states are numbered like the slot states. */
  function BlockKind(st: nat): Kind {
    if st == 0 || st == 3 then Inactive
    else if st == 1 || st == 4 then Claiming
    else if st == 2 || st == 5 then Owned
    else if st == 6 then EpochExhausted
    else if st == 7 then ProtocolFault
    else Unexpected
  }

  /** Every reader in the library is one the snapshot theorem covers. */
  lemma ReadersAreSound(who: Actor -> Owner, enqueue: bool)
    requires forall a :: Valid(who(a))
    ensures Sound(Setup(GateRole, GateKind, who))
    ensures Sound(Setup(SlotRole, (st: nat) => SlotKind(enqueue, st), who))
    ensures Sound(Setup(SlotRole, BlockKind, who))
  {
  }
}
