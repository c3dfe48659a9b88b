/**
 The queue and the wait for it together: `wait_push_until` and `wait_pop_until`.

 Every position store of the queue is a store of the wakeup protocol, every notify of the queue a
 count, and a waiter's second attempt is a call on the queue.  Nobody returns from a call before
 its wake, and whoever has crashed neither waits nor wakes; a wait may end at any time, as the
 slices it is made of run out.
 */
module QueueWait {
  import opened Mpmc
  import opened MpmcInvariant
  import opened MpmcProgress
  import opened MpmcSteps
  import opened MpmcTruth
  import MpmcTheorems
  import W = Wakeup

  /** History: `seen` is every pair of positions since an actor's sample, `told` its last attempt's error. */
  datatype Joint = Joint(q: Mpmc.State, w: W.State, seen: map<Actor, Positions>, told: map<Actor, Reason>)

  datatype Action = Queue(act: Mpmc.Action) | Wait(wait: W.Action)

  predicate Stores(q: Mpmc.State, act: Mpmc.Action) {
    act.Advance? && PcOf(q, act.actor).Work? && PcOf(q, act.actor).work.StorePosition?
  }

  predicate Counts(q: Mpmc.State, act: Mpmc.Action) {
    act.Advance? && PcOf(q, act.actor).Notify?
  }

  /** A waiter begins no call but its second attempt, and nobody returns before its wake. */
  predicate QueueEnabled(s: Joint, act: Mpmc.Action) {
    && Mpmc.Enabled(s.q, act)
    && (act.Begin? ==> W.WaiterOf(s.w, act.actor).Awake? || W.WaiterOf(s.w, act.actor).Sampled?)
    && (act.Advance? && PcOf(s.q, act.actor).Done? ==> W.NotifierOf(s.w, act.actor).Quiet?)
  }

  /** The second attempt found the queue empty, full or contended. */
  predicate Waitable(pc: Pc) {
    && pc.Done? && pc.res.Err?
    && (pc.res.reason == QueueEmpty || pc.res.reason == QueueFull || pc.res.reason == Contention)
  }

  predicate WaitEnabled(s: Joint, act: W.Action) {
    && W.Enabled(s.w, act) && !act.Store? && !act.Count?
    && (act.Wake? ==> act.n !in s.q.crashed)
    && (act.Sample? || act.Try? || act.Park? ==> act.w !in s.q.crashed)
    && (act.Sample? ==> PcOf(s.q, act.w).Idle?)
    && (act.Try? ==> Waitable(PcOf(s.q, act.w)))
  }

  function WaitStep(s: Joint, act: W.Action): Joint
    requires WaitEnabled(s, act)
  {
    Joint(s.q, W.Next(s.w, act),
          if act.Sample? then s.seen[act.w := {(s.q.enq, s.q.deq)}] else s.seen,
          if act.Try? then s.told[act.w := PcOf(s.q, act.w).res.reason] else s.told)
  }

  /** What a step of the queue is to the wakeup protocol. */
  function Echo(q: Mpmc.State, w: W.State, act: Mpmc.Action): W.State
    requires Stores(q, act) ==> W.Enabled(w, W.Store(act.actor))
    requires Counts(q, act) ==> W.Enabled(w, W.Count(act.actor))
  {
    if Stores(q, act) then W.Next(w, W.Store(act.actor))
    else if Counts(q, act) then W.Next(w, W.Count(act.actor))
    else w
  }

  function Look(seen: map<Actor, Positions>, p: (nat, nat)): map<Actor, Positions> {
    map a | a in seen :: seen[a] + {p}
  }

  predicate Enabled(s: Joint, act: Action) {
    match act
    case Queue(qact) =>
      && QueueEnabled(s, qact)
      && (Stores(s.q, qact) ==> W.Enabled(s.w, W.Store(qact.actor)))
      && (Counts(s.q, qact) ==> W.Enabled(s.w, W.Count(qact.actor)))
    case Wait(wact) => WaitEnabled(s, wact)
  }

  function Next(s: Joint, act: Action): Joint
    requires Enabled(s, act)
  {
    match act
    case Queue(qact) =>
      var q := Mpmc.Next(s.q, qact);
      Joint(q, Echo(s.q, s.w, qact), Look(s.seen, (q.enq, q.deq)), s.told)
    case Wait(wact) => WaitStep(s, wact)
  }

  ghost predicate Init(s: Joint) {
    && Mpmc.Init(s.q) && W.Init(s.w) && s.w.all && s.w.epoch == 0
    && s.seen == map[] && s.told == map[]
  }

  ghost predicate Leads(s: Joint, acts: seq<Action>, s1: Joint)
    decreases |acts|
  {
    if acts == [] then s1 == s else Enabled(s, acts[0]) && Leads(Next(s, acts[0]), acts[1..], s1)
  }

  // ----- The invariant -----

  /** Between its position store and its notify. */
  predicate Settling(pc: Pc) {
    (pc.Unlock? || pc.Notify?) && pc.res.Ok?
  }

  /** Between its position store and its notify an actor owes a count, and until its return a wake. */
  ghost predicate Owes(q: Mpmc.State, w: W.State) {
    forall a: Actor {:trigger W.NotifierOf(w, a)} ::
      && (W.NotifierOf(w, a).Stored? <==> Settling(PcOf(q, a)))
      && (W.NotifierOf(w, a).Counted? ==> PcOf(q, a).Done?)
  }

  /** Positions never fall, and every move of one is a store. */
  ghost predicate SeenOk(q: Mpmc.State, since: nat, seen: Positions) {
    && (q.enq, q.deq) in seen
    && (forall p | p in seen :: since <= p.0 + p.1 && p.0 <= q.enq && p.1 <= q.deq)
  }

  ghost predicate Waiting(s: Joint, a: Actor) {
    var waiter := W.WaiterOf(s.w, a);
    !waiter.Awake? ==>
      && a in s.seen && SeenOk(s.q, waiter.since, s.seen[a])
      && (waiter.Sampled? ==> Knows(PcOf(s.q, a), s.seen[a], s.q.capacity))
      && (!waiter.Sampled? ==>
            && a in s.told
            && (s.told[a] == QueueEmpty ==> SawEmpty(s.seen[a]))
            && (s.told[a] == QueueFull ==> SawFull(s.seen[a], s.q.capacity)))
  }

  /** The wakeup protocol counts the queue's own stores and notifies. */
  predicate Tied(q: Mpmc.State, w: W.State) {
    w.all && w.stores == q.enq + q.deq && q.notify == w.epoch % NOTIFY_WRAP
  }

  ghost predicate Inv(s: Joint) {
    && MpmcInvariant.Inv(s.q) && W.Inv(s.w) && W.Covered(s.w)
    && Tied(s.q, s.w) && Owes(s.q, s.w)
    && (forall a: Actor {:trigger Waiting(s, a)} :: Waiting(s, a))
  }

  /** Waiting never holds up the queue: a store finds no notify pending, a count its own store. */
  lemma NeverHeldUp(s: Joint, act: Mpmc.Action)
    requires Inv(s) && QueueEnabled(s, act)
    ensures Enabled(s, Queue(act))
  {
    var n := W.NotifierOf(s.w, act.actor);
    assert n.Stored? <==> Settling(PcOf(s.q, act.actor));
    assert ActorOk(s.q, act.actor);
  }

  // ----- Steps of the queue -----

  /** What a step of the queue does to the positions, the epoch and the actors' debts. */
  lemma QueueMoves(q: Mpmc.State, act: Mpmc.Action)
    requires MpmcInvariant.Inv(q) && Mpmc.Enabled(q, act)
    ensures var q1 := Mpmc.Next(q, act);
            && q.enq <= q1.enq && q.deq <= q1.deq && q1.capacity == q.capacity
            && q1.enq + q1.deq == q.enq + q.deq + (if Stores(q, act) then 1 else 0)
            && q1.notify == (if Counts(q, act) then (q.notify + 1) % NOTIFY_WRAP else q.notify)
  {
    assert ActorOk(q, act.actor);
    MpmcTheorems.StepWritesOwnSlot(q, act, 0);
  }

  lemma CallMoves(q: Mpmc.State, act: Mpmc.Action)
    requires MpmcInvariant.Inv(q) && Mpmc.Enabled(q, act) && act.Advance?
    requires var pc := PcOf(q, act.actor); pc.Snap? || pc.Drain? || pc.Claim? || pc.Commit? || pc.Work?
    ensures Settling(PcOf(Mpmc.Next(q, act), act.actor)) <==> Stores(q, act)
  {
    assert ActorOk(q, act.actor);
  }

  lemma ExitMoves(q: Mpmc.State, act: Mpmc.Action)
    requires MpmcInvariant.Inv(q) && Mpmc.Enabled(q, act) && act.Advance?
    requires var pc := PcOf(q, act.actor); pc.Diagnose? || pc.Unlock? || pc.Notify? || pc.Done?
    ensures var pc, pc1 := PcOf(q, act.actor), PcOf(Mpmc.Next(q, act), act.actor);
            && (Settling(pc1) <==> pc.Unlock? && pc.res.Ok?)
            && (pc.Notify? ==> pc.res.Ok? && pc1.Done?)
  {
    assert ActorOk(q, act.actor);
  }

  lemma QueueOwes(s: Joint, act: Mpmc.Action)
    requires Inv(s) && Enabled(s, Queue(act))
    ensures Owes(Mpmc.Next(s.q, act), Echo(s.q, s.w, act))
  {
    var q1, w1 := Mpmc.Next(s.q, act), Echo(s.q, s.w, act);
    forall a: Actor
      ensures W.NotifierOf(w1, a).Stored? <==> Settling(PcOf(q1, a))
      ensures W.NotifierOf(w1, a).Counted? ==> PcOf(q1, a).Done?
    {
      assert W.NotifierOf(s.w, a).Counted? ==> PcOf(s.q, a).Done?;
      if a != act.actor || act.Crash? {
        OtherPc(s.q, act, a);
      } else if act.Advance? {
        var pc := PcOf(s.q, a);
        if pc.Diagnose? || pc.Unlock? || pc.Notify? || pc.Done? {
          ExitMoves(s.q, act);
        } else {
          CallMoves(s.q, act);
        }
      }
    }
  }

  lemma EchoKeeps(s: Joint, act: Mpmc.Action)
    requires Inv(s) && Enabled(s, Queue(act))
    ensures W.Inv(Echo(s.q, s.w, act)) && W.Covered(Echo(s.q, s.w, act))
    ensures Tied(Mpmc.Next(s.q, act), Echo(s.q, s.w, act))
    ensures Echo(s.q, s.w, act).waiters == s.w.waiters
  {
    QueueMoves(s.q, act);
    if Stores(s.q, act) {
      W.NextKeeps(s.w, W.Store(act.actor));
      W.StepCovers(s.w, W.Store(act.actor));
    } else if Counts(s.q, act) {
      W.NextKeeps(s.w, W.Count(act.actor));
      W.StepCovers(s.w, W.Count(act.actor));
    }
  }

  lemma QueueKnows(s: Joint, act: Mpmc.Action, a: Actor)
    requires Inv(s) && Enabled(s, Queue(act)) && W.WaiterOf(s.w, a).Sampled?
    ensures a in s.seen && Knows(PcOf(Mpmc.Next(s.q, act), a), s.seen[a], s.q.capacity)
  {
    assert Waiting(s, a);
    if act.actor == a && act.Advance? {
      if !PcOf(s.q, a).Done? {
        StepKnows(s.q, a, act.retry, act.why, s.seen[a]);
      }
    } else if act.actor != a || act.Crash? {
      OtherPc(s.q, act, a);
    }
  }

  lemma QueueWaiting(s: Joint, act: Mpmc.Action, a: Actor)
    requires Inv(s) && Enabled(s, Queue(act))
    ensures Waiting(Next(s, Queue(act)), a)
  {
    var s1 := Next(s, Queue(act));
    EchoKeeps(s, act);
    QueueMoves(s.q, act);
    assert Waiting(s, a);
    assert W.WaiterOf(s1.w, a) == W.WaiterOf(s.w, a);
    if W.WaiterOf(s.w, a).Sampled? {
      QueueKnows(s, act, a);
      KnowsMore(PcOf(s1.q, a), s.seen[a], s1.seen[a], s.q.capacity);
    }
  }

  lemma QueueKeeps(s: Joint, act: Mpmc.Action)
    requires Inv(s) && Enabled(s, Queue(act))
    ensures Inv(Next(s, Queue(act)))
  {
    MpmcSteps.NextKeeps(s.q, act);
    QueueOwes(s, act);
    EchoKeeps(s, act);
    forall a: Actor ensures Waiting(Next(s, Queue(act)), a) {
      QueueWaiting(s, act, a);
    }
  }

  // ----- Steps of the wait -----

  lemma WaitWaiting(s: Joint, act: W.Action, a: Actor)
    requires Inv(s) && Enabled(s, Wait(act))
    ensures Waiting(Next(s, Wait(act)), a)
  {
    assert Waiting(s, a);
    var s1 := Next(s, Wait(act));
    if act.Wake? {
      assert W.WaiterOf(s1.w, a) == W.Woken(W.WaiterOf(s.w, a));
    }
  }

  lemma WaitOwes(s: Joint, act: W.Action)
    requires Inv(s) && Enabled(s, Wait(act))
    ensures Owes(s.q, W.Next(s.w, act))
  {
    forall a: Actor
      ensures var n, pc := W.NotifierOf(W.Next(s.w, act), a), PcOf(s.q, a);
              && (n.Stored? <==> Settling(pc))
              && (n.Counted? ==> pc.Done?)
    {
      assert W.NotifierOf(s.w, a).Counted? ==> PcOf(s.q, a).Done?;
      if act.Wake? && act.n != a {
        W.OtherNotifiers(s.w, act, a);
      }
    }
  }

  lemma WaitKeeps(s: Joint, act: W.Action)
    requires Inv(s) && Enabled(s, Wait(act))
    ensures Inv(Next(s, Wait(act)))
  {
    W.NextKeeps(s.w, act);
    W.StepCovers(s.w, act);
    WaitOwes(s, act);
    forall a: Actor ensures Waiting(Next(s, Wait(act)), a) {
      WaitWaiting(s, act, a);
    }
  }

  lemma {:induction false} LeadsInv(s: Joint, acts: seq<Action>, s1: Joint)
    requires Inv(s) && Leads(s, acts, s1)
    ensures Inv(s1)
    decreases |acts|
  {
    if acts != [] {
      if acts[0].Queue? {
        QueueKeeps(s, acts[0].act);
      } else {
        WaitKeeps(s, acts[0].wait);
      }
      LeadsInv(Next(s, acts[0]), acts[1..], s1);
    }
  }

  lemma InitKeeps(s: Joint)
    requires Init(s)
    ensures Inv(s)
  {
    MpmcSteps.InitKeeps(s.q);
  }

  /**
   Nobody sleeps through a change: once every notify has finished, a parked popper whose attempt
   found the queue empty faces an empty queue, and a parked pusher a full one.
   */
  lemma ParkedForReason(s0: Joint, acts: seq<Action>, s: Joint, a: Actor)
    requires Init(s0) && Leads(s0, acts, s) && W.ParkedInTime(W.WaiterOf(s.w, a))
    requires forall n: Actor :: W.NotifierOf(s.w, n).Quiet?
    ensures a in s.told
    ensures s.told[a] == QueueEmpty ==> Empty(s.q)
    ensures s.told[a] == QueueFull ==> Full(s.q)
  {
    InitKeeps(s0);
    LeadsInv(s0, acts, s);
    W.NothingMissed(s.w, a);
    assert Waiting(s, a);
    assert forall p | p in s.seen[a] :: p == (s.q.enq, s.q.deq);
  }

  /** `n` has yet to wake the sleepers, and can go on doing so unless it has crashed. */
  ghost predicate OwesWake(s: Joint, n: Actor) {
    && !W.NotifierOf(s.w, n).Quiet?
    && (n in s.q.crashed || Enabled(s, Queue(Go(n))) || Enabled(s, Wait(W.Wake(n, n))))
  }

  /**
   A popper that sleeps although there is a message, and a pusher although there is room, is owed
   a wake by somebody; if that one has crashed, another notify or the end of the time slice, which
   may come at any time, has to do.
   */
  lemma SleeperIsOwed(s0: Joint, acts: seq<Action>, s: Joint, a: Actor)
    requires Init(s0) && Leads(s0, acts, s) && W.ParkedInTime(W.WaiterOf(s.w, a))
    ensures a in s.told && Enabled(s, Wait(W.Resume(a)))
    ensures (s.told[a] == QueueEmpty && !Empty(s.q)) || (s.told[a] == QueueFull && !Full(s.q)) ==>
              exists n: Actor :: OwesWake(s, n)
  {
    InitKeeps(s0);
    LeadsInv(s0, acts, s);
    assert Waiting(s, a);
    if forall n: Actor :: W.NotifierOf(s.w, n).Quiet? {
      ParkedForReason(s0, acts, s, a);
    } else {
      var n: Actor :| !W.NotifierOf(s.w, n).Quiet?;
      DebtorGoesOn(s, n);
    }
  }

  lemma DebtorGoesOn(s: Joint, n: Actor)
    requires Inv(s) && !W.NotifierOf(s.w, n).Quiet?
    ensures OwesWake(s, n)
  {
    assert ActorOk(s.q, n);
    if n !in s.q.crashed && W.NotifierOf(s.w, n).Stored? {
      assert Settling(PcOf(s.q, n));
      NeverHeldUp(s, Go(n));
    }
  }
}
