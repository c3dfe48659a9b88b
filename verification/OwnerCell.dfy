/**
 The owner-commit protocol under every gate, queue slot and pool block, and the optimistic
 snapshot that reads it while it changes.

 A cell is a state word, an epoch word and a four-word owner identity.  A claimant makes the
 epoch odd, writes the four words one by one, makes the epoch even again and only then stores
 an owned state.  Any number of claimants come and go; a process may die at any step.
 */
module OwnerCell {
  import opened Words

  type Actor = nat

  /** `MpmcOwnerAbi`, `BufferPoolOwnerAbi` */
  datatype Owner = Owner(pid: nat, startTicks: nat, bootHi: nat, bootLo: nat)

  datatype Mem = Mem(state: nat, epoch: nat, owner: Owner)

  /** What a state value means to the protocol. */
  datatype Role = Rest | Claimed | Held | Terminal

  /** `OwnerStateKind`: how one reader classifies a state value. */
  datatype Kind = Inactive | Claiming | Owned | EpochExhausted | ProtocolFault | Unexpected

  /** The meaning of states, a reader's classifier, and the identity each actor runs under. */
  datatype Setup = Setup(role: nat -> Role, classify: nat -> Kind, who: Actor -> Owner)

  /**
   A reader may find states of the other side unexpected (a queue slot has two sides), but what
   it does recognise it recognises correctly.
   */
  ghost predicate Sound(su: Setup) {
    && (forall st :: su.classify(st) == Inactive ==> su.role(st) == Rest)
    && (forall st :: su.classify(st) == Claiming ==> su.role(st) == Claimed)
    && (forall st :: su.classify(st) == Owned ==> su.role(st) == Held)
    && (forall st :: su.classify(st) == EpochExhausted ==> su.role(st) == Terminal)
    && (forall a :: Valid(su.who(a)))
  }

  /** `owner_valid` */
  predicate Valid(o: Owner) {
    o.pid != 0 && o.startTicks != 0 && o.bootHi != 0 && o.bootLo != 0
  }

  /** Where a claimant stands. `cur` is the even epoch its commit started from. */
  datatype Pc =
    | Away
    | BeginLoad(reserve: nat)
    | BeginCas(cur: nat)
    | StoreWord(cur: nat, k: nat)
    | StoreEpoch(cur: nat)
    | StoreHeld
    | Refuse
    | Holding

  /** `log` records which actor committed each even epoch, `dead` the identities that have ended. */
  datatype Sys = Sys(mem: Mem, procs: map<Actor, Pc>, holder: Option<Actor>, log: map<nat, Actor>, dead: set<Owner>)

  datatype Action =
    | Claim(actor: Actor, st: nat, reserve: nat)
    | Rollback(actor: Actor, st: nat)
    | Commit(actor: Actor, st: nat)
    | Release(actor: Actor, st: nat)
    | Retire(actor: Actor, st: nat)
    | Die(id: Owner)

  function PcOf(s: Sys, a: Actor): Pc {
    if a in s.procs then s.procs[a] else Away
  }

  function At(s: Sys, a: Actor, pc: Pc): Sys {
    s.(procs := s.procs[a := pc])
  }

  function WithWord(o: Owner, k: nat, v: Owner): Owner
    requires k < 4
  {
    if k == 0 then o.(pid := v.pid)
    else if k == 1 then o.(startTicks := v.startTicks)
    else if k == 2 then o.(bootHi := v.bootHi)
    else o.(bootLo := v.bootLo)
  }

  /** `begin_owner_commit` up to its CAS, and `owner_epoch_capacity`. */
  predicate EpochAdmits(epoch: nat, reserve: nat) {
    Even(epoch) && epoch <= MAX_EPOCH && reserve <= MAX_EPOCH - epoch
  }

  ghost predicate Enabled(su: Setup, s: Sys, act: Action) {
    match act
    case Claim(a, st, reserve) =>
      && su.who(a) !in s.dead && PcOf(s, a).Away? && su.role(s.mem.state) == Rest && su.role(st) == Claimed
      && 2 <= reserve
    case Rollback(a, st) => su.who(a) !in s.dead && PcOf(s, a).BeginLoad? && su.role(st) == Rest
    case Commit(a, st) =>
      && su.who(a) !in s.dead
      && (match PcOf(s, a)
          case Away => false
          case Holding => false
          case StoreWord(_, k) => k < 4
          case StoreHeld => su.role(st) == Held
          case Refuse => su.role(st) == Terminal || su.role(st) == Rest
          case _ => true)
    case Release(a, st) => su.who(a) !in s.dead && PcOf(s, a).Holding? && su.role(st) == Rest
    case Retire(a, st) => su.who(a) !in s.dead && su.role(s.mem.state) == Rest && su.role(st) == Terminal
    case Die(_) => true
  }

  /** The next shared access of a committing claimant. */
  function CommitStep(s: Sys, a: Actor, st: nat, me: Owner): Sys
    requires match PcOf(s, a) case Away => false case Holding => false case StoreWord(_, k) => k < 4 case _ => true
  {
    match PcOf(s, a)
    case BeginLoad(reserve) =>
      At(s, a, if EpochAdmits(s.mem.epoch, reserve) then BeginCas(s.mem.epoch) else Refuse)
    case BeginCas(cur) =>
      if s.mem.epoch == cur then At(s.(mem := s.mem.(epoch := cur + 1)), a, StoreWord(cur, 0)) else At(s, a, Refuse)
    case StoreWord(cur, k) =>
      At(s.(mem := s.mem.(owner := WithWord(s.mem.owner, k, me))), a,
         if k < 3 then StoreWord(cur, k + 1) else StoreEpoch(cur))
    case StoreEpoch(cur) =>
      At(s.(mem := s.mem.(epoch := cur + 2), log := s.log[cur + 2 := a]), a, StoreHeld)
    case StoreHeld => At(s.(mem := s.mem.(state := st)), a, Holding)
    case Refuse => At(s.(mem := s.mem.(state := st), holder := None), a, Away)
  }

  function Next(su: Setup, s: Sys, act: Action): Sys
    requires act.Commit? ==> match PcOf(s, act.actor)
                             case Away => false case Holding => false case StoreWord(_, k) => k < 4 case _ => true
  {
    match act
    case Claim(a, st, reserve) => At(s.(mem := s.mem.(state := st), holder := Some(a)), a, BeginLoad(reserve))
    case Rollback(a, st) => At(s.(mem := s.mem.(state := st), holder := None), a, Away)
    case Commit(a, st) => CommitStep(s, a, st, su.who(a))
    case Release(a, st) => At(s.(mem := s.mem.(state := st), holder := None), a, Away)
    case Retire(a, st) => s.(mem := s.mem.(state := st))
    case Die(id) => s.(dead := s.dead + {id})
  }

  ghost predicate Init(su: Setup, s: Sys) {
    && su.role(s.mem.state) == Rest && s.mem.epoch == 0
    && s.procs == map[] && s.holder == None && s.log == map[] && s.dead == {}
  }

  ghost predicate Step(su: Setup, s: Sys, s1: Sys) {
    exists act :: Enabled(su, s, act) && s1 == Next(su, s, act)
  }

  ghost predicate IsRun(su: Setup, run: seq<Sys>) {
    && Sound(su)
    && 0 < |run|
    && Init(su, run[0])
    && (forall i | 0 <= i < |run| - 1 :: Step(su, run[i], run[i + 1]))
  }

  // ----- Invariant -----

  /** The first `k` words are those of `v`. */
  predicate WordsUpTo(o: Owner, v: Owner, k: nat) {
    && (k > 0 ==> o.pid == v.pid)
    && (k > 1 ==> o.startTicks == v.startTicks)
    && (k > 2 ==> o.bootHi == v.bootHi)
    && (k > 3 ==> o.bootLo == v.bootLo)
  }

  ghost predicate HolderOk(su: Setup, s: Sys, a: Actor) {
    var m := s.mem;
    match PcOf(s, a)
    case Away => false
    case BeginLoad(reserve) => su.role(m.state) == Claimed && Even(m.epoch) && 2 <= reserve
    case BeginCas(cur) => su.role(m.state) == Claimed && Even(m.epoch) && cur == m.epoch <= MAX_EPOCH - 2
    case StoreWord(cur, k) =>
      && su.role(m.state) == Claimed && Even(cur) && m.epoch == cur + 1 && cur <= MAX_EPOCH - 2
      && k < 4 && WordsUpTo(m.owner, su.who(a), k)
    case StoreEpoch(cur) =>
      && su.role(m.state) == Claimed && Even(cur) && m.epoch == cur + 1 && cur <= MAX_EPOCH - 2
      && m.owner == su.who(a)
    case StoreHeld =>
      su.role(m.state) == Claimed && Even(m.epoch) && m.epoch != 0 && m.epoch in s.log && s.log[m.epoch] == a
    case Refuse => su.role(m.state) == Claimed && Even(m.epoch)
    case Holding => su.role(m.state) == Held && Even(m.epoch) && m.epoch != 0 && m.epoch in s.log && s.log[m.epoch] == a
  }

  ghost predicate Inv(su: Setup, s: Sys) {
    && s.mem.epoch <= MAX_EPOCH
    && (match s.holder
        case None => Even(s.mem.epoch) && (su.role(s.mem.state) == Rest || su.role(s.mem.state) == Terminal)
        case Some(a) => HolderOk(su, s, a))
    && (forall b: Actor {:trigger PcOf(s, b)} :: s.holder != Some(b) ==> PcOf(s, b).Away?)
    // an even epoch names the one commit whose identity the words hold
    && (Even(s.mem.epoch) && s.mem.epoch != 0 ==>
          s.mem.epoch in s.log && s.mem.owner == su.who(s.log[s.mem.epoch]))
  }

  lemma CommitKeeps(su: Setup, s: Sys, a: Actor, st: nat)
    requires Sound(su) && Inv(su, s) && Enabled(su, s, Commit(a, st))
    ensures Inv(su, Next(su, s, Commit(a, st)))
  {
    assert s.holder == Some(a) by {
      assert PcOf(s, a) != Away;
    }
    var s1 := Next(su, s, Commit(a, st));
    forall b: Actor | s1.holder != Some(b) ensures PcOf(s1, b).Away? {
      assert b != a ==> PcOf(s1, b) == PcOf(s, b);
    }
  }

  lemma NextKeeps(su: Setup, s: Sys, act: Action)
    requires Sound(su) && Inv(su, s) && Enabled(su, s, act)
    ensures Inv(su, Next(su, s, act))
  {
    var s1 := Next(su, s, act);
    if act.Commit? {
      CommitKeeps(su, s, act.actor, act.st);
    } else if !act.Die? {
      var a := act.actor;
      forall b: Actor | s1.holder != Some(b) ensures PcOf(s1, b).Away? {
        assert b != a ==> PcOf(s1, b) == PcOf(s, b);
      }
    } else {
      forall b: Actor ensures PcOf(s1, b) == PcOf(s, b) {}
    }
  }

  lemma {:induction false} RunInv(su: Setup, run: seq<Sys>, i: nat)
    requires IsRun(su, run) && i < |run|
    ensures Inv(su, run[i])
    decreases i
  {
    if i > 0 {
      RunInv(su, run, i - 1);
      assert Step(su, run[i - 1], run[i]);
      var act :| Enabled(su, run[i - 1], act) && run[i] == Next(su, run[i - 1], act);
      NextKeeps(su, run[i - 1], act);
    }
  }

  // ----- What stays put while the epoch stands still -----

  /** The epoch never falls; while it keeps one even value, so do the owner words. */
  ghost predicate Forward(s: Sys, s1: Sys) {
    && s.mem.epoch <= s1.mem.epoch
    && (s1.mem.epoch == s.mem.epoch && Even(s.mem.epoch) ==> s1.mem.owner == s.mem.owner)
    && s.dead <= s1.dead
    && (forall e | e in s.log && e <= s.mem.epoch && Even(s.mem.epoch) :: e in s1.log && s1.log[e] == s.log[e])
  }

  lemma StepForward(su: Setup, s: Sys, act: Action)
    requires Sound(su) && Inv(su, s) && Enabled(su, s, act)
    ensures Forward(s, Next(su, s, act))
  {
  }

  lemma {:induction false} RunForward(su: Setup, run: seq<Sys>, i: nat, j: nat)
    requires IsRun(su, run) && i <= j < |run|
    ensures run[i].mem.epoch <= run[j].mem.epoch
    ensures run[j].mem.epoch == run[i].mem.epoch && Even(run[i].mem.epoch) ==> run[j].mem.owner == run[i].mem.owner
    ensures run[i].dead <= run[j].dead
    decreases j - i
  {
    if i < j {
      RunInv(su, run, i);
      assert Step(su, run[i], run[i + 1]);
      var act :| Enabled(su, run[i], act) && run[i + 1] == Next(su, run[i], act);
      StepForward(su, run[i], act);
      RunForward(su, run, i + 1, j);
    }
  }

  /** The commit of epoch `e` no longer holds the cell, and never will again. */
  ghost predicate Over(su: Setup, s: Sys, e: nat) {
    || e < s.mem.epoch
    || (s.mem.epoch == e && Even(e) && su.role(s.mem.state) != Held
        && (s.holder.Some? ==> !PcOf(s, s.holder.value).StoreHeld?))
  }

  lemma StepStaysOver(su: Setup, s: Sys, act: Action, e: nat)
    requires Sound(su) && Inv(su, s) && Enabled(su, s, act) && Over(su, s, e)
    ensures Over(su, Next(su, s, act), e)
  {
  }

  lemma StepEndsHold(su: Setup, s: Sys, act: Action)
    requires Sound(su) && Inv(su, s) && Enabled(su, s, act) && su.role(s.mem.state) == Held
    ensures var s1 := Next(su, s, act);
            Over(su, s1, s.mem.epoch) || (s1.mem == s.mem && s1.holder == s.holder)
  {
  }

  lemma {:induction false} RunStaysOver(su: Setup, run: seq<Sys>, i: nat, j: nat, e: nat)
    requires IsRun(su, run) && i <= j < |run| && Over(su, run[i], e)
    ensures Over(su, run[j], e)
    decreases j - i
  {
    if i < j {
      RunInv(su, run, i);
      assert Step(su, run[i], run[i + 1]);
      var act :| Enabled(su, run[i], act) && run[i + 1] == Next(su, run[i], act);
      StepStaysOver(su, run[i], act, e);
      RunStaysOver(su, run, i + 1, j, e);
    }
  }

  /** Held at two moments under one epoch means held, unchanged and by one actor, all the time between. */
  lemma {:induction false} HeldThroughout(su: Setup, run: seq<Sys>, i: nat, j: nat, k: nat)
    requires IsRun(su, run) && i <= k <= j < |run|
    requires su.role(run[i].mem.state) == Held && su.role(run[j].mem.state) == Held
    requires run[i].mem.epoch == run[j].mem.epoch
    ensures run[k].mem == run[i].mem && run[k].holder == run[i].holder
    decreases k - i
  {
    if i < k {
      RunInv(su, run, i);
      assert Step(su, run[i], run[i + 1]);
      var act :| Enabled(su, run[i], act) && run[i + 1] == Next(su, run[i], act);
      StepEndsHold(su, run[i], act);
      if Over(su, run[i + 1], run[i].mem.epoch) {
        RunStaysOver(su, run, i + 1, j, run[i].mem.epoch);
        RunInv(su, run, j);
        assert false;
      }
      HeldThroughout(su, run, i + 1, j, k);
    }
  }

  /** A cell whose holder's process has died never changes again. */
  lemma {:induction false} DeadHolderStuck(su: Setup, run: seq<Sys>, i: nat, j: nat)
    requires IsRun(su, run) && i <= j < |run|
    requires run[i].holder.Some? && su.who(run[i].holder.value) in run[i].dead
    ensures run[j].mem == run[i].mem && run[j].holder == run[i].holder
    decreases j - i
  {
    if i < j {
      RunInv(su, run, i);
      assert Step(su, run[i], run[i + 1]);
      var act :| Enabled(su, run[i], act) && run[i + 1] == Next(su, run[i], act);
      DeadHolderStep(su, run[i], act);
      DeadHolderStuck(su, run, i + 1, j);
    }
  }

  lemma DeadHolderStep(su: Setup, s: Sys, act: Action)
    requires Sound(su) && Inv(su, s) && Enabled(su, s, act)
    requires s.holder.Some? && su.who(s.holder.value) in s.dead
    ensures var s1 := Next(su, s, act); s1.mem == s.mem && s1.holder == s.holder && s.dead <= s1.dead
  {
  }
}
