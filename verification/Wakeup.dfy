/**
 The futex protocol between the stores that change a queue or a channel and those who wait for
 them.

 A notifier stores (a position or a ticket), adds one to the 32-bit notify epoch, and wakes.  A
 waiter samples the epoch, tries once more (a second attempt on the queue, a second look at the
 ticket on the channel), and parks only if the kernel still finds the sampled word.  The epoch is
 counted without wrapping here; only its low 32 bits are compared.
 */
module Wakeup {

  /** The epoch word has 32 bits. */
  const WORD: nat := 0x1_0000_0000

  type Actor = nat

  /** `e` is the epoch sampled, `since` (history) the stores made before that, `at` the epoch at parking. */
  datatype Waiter =
    | Awake
    | Sampled(e: nat, since: nat)
    | Tried(e: nat, since: nat)
    | Parked(e: nat, since: nat, at: nat)

  /** `k` (history) numbers the notifier's store. */
  datatype Notifier = Quiet | Stored(k: nat) | Counted(k: nat)

  /**
   `all` says a wake reaches every parked waiter, as on the queue; otherwise it reaches one, and
   only actor 0 ever waits, as on the channel.  `done` (history) holds the stores whose notify has
   finished.
   */
  datatype State = State(
    all: bool, epoch: nat, stores: nat, done: set<nat>,
    waiters: map<Actor, Waiter>, notifiers: map<Actor, Notifier>)

  function WaiterOf(s: State, w: Actor): Waiter {
    if w in s.waiters then s.waiters[w] else Awake
  }

  function NotifierOf(s: State, n: Actor): Notifier {
    if n in s.notifiers then s.notifiers[n] else Quiet
  }

  datatype Action =
    | Sample(w: Actor)
    | Try(w: Actor)
    | Park(w: Actor)
    | Resume(w: Actor)
    | Store(n: Actor)
    | Count(n: Actor)
    | Wake(n: Actor, w: Actor)

  /** `Resume` is a timeout, a signal, a stale epoch or an attempt that did not fail. */
  predicate Enabled(s: State, act: Action) {
    match act
    case Sample(w) => WaiterOf(s, w).Awake? && (s.all || w == 0)
    case Try(w) => WaiterOf(s, w).Sampled?
    case Park(w) => WaiterOf(s, w).Tried? && s.epoch % WORD == WaiterOf(s, w).e % WORD
    case Resume(w) => true
    case Store(n) => NotifierOf(s, n).Quiet?
    case Count(n) => NotifierOf(s, n).Stored?
    case Wake(n, w) => NotifierOf(s, n).Counted? && (s.all || w == 0)
  }

  function Woken(waiter: Waiter): Waiter {
    if waiter.Parked? then Awake else waiter
  }

  function Next(s: State, act: Action): State
    requires Enabled(s, act)
  {
    match act
    case Sample(w) => s.(waiters := s.waiters[w := Sampled(s.epoch, s.stores)])
    case Try(w) => s.(waiters := s.waiters[w := Tried(WaiterOf(s, w).e, WaiterOf(s, w).since)])
    case Park(w) => s.(waiters := s.waiters[w := Parked(WaiterOf(s, w).e, WaiterOf(s, w).since, s.epoch)])
    case Resume(w) => s.(waiters := s.waiters[w := Awake])
    case Store(n) => s.(stores := s.stores + 1, notifiers := s.notifiers[n := Stored(s.stores)])
    case Count(n) => s.(epoch := s.epoch + 1, notifiers := s.notifiers[n := Counted(NotifierOf(s, n).k)])
    case Wake(n, w) =>
      var waiters := if s.all then map v | v in s.waiters :: Woken(s.waiters[v])
                     else s.waiters[w := Woken(WaiterOf(s, w))];
      s.(waiters := waiters, notifiers := s.notifiers[n := Quiet], done := s.done + {NotifierOf(s, n).k})
  }

  predicate Init(s: State) {
    s.stores == 0 && s.done == {} && s.waiters == map[] && s.notifiers == map[]
  }

  ghost predicate Leads(s: State, acts: seq<Action>, s1: State)
    decreases |acts|
  {
    if acts == [] then s1 == s else Enabled(s, acts[0]) && Leads(Next(s, acts[0]), acts[1..], s1)
  }

  // ----- The invariant -----

  /** No notify of a store numbered `since` or later has finished. */
  ghost predicate NoneDone(s: State, since: nat) {
    forall k | k in s.done :: k < since
  }

  /** Nor has any got as far as counting. */
  ghost predicate NoneCounted(s: State, since: nat) {
    forall n: Actor :: NotifierOf(s, n).Counted? ==> NotifierOf(s, n).k < since
  }

  ghost predicate WaiterOk(s: State, waiter: Waiter) {
    match waiter
    case Awake => true
    case Sampled(e, since) =>
      since <= s.stores && e <= s.epoch && (s.epoch == e ==> NoneDone(s, since) && NoneCounted(s, since))
    case Tried(e, since) =>
      since <= s.stores && e <= s.epoch && (s.epoch == e ==> NoneDone(s, since) && NoneCounted(s, since))
    case Parked(e, since, at) =>
      since <= s.stores && (if at == e then NoneDone(s, since) else at > e && (at - e) % WORD == 0)
  }

  ghost predicate Inv(s: State) {
    && (forall k | k in s.done :: k < s.stores)
    && (forall n: Actor :: !NotifierOf(s, n).Quiet? ==> NotifierOf(s, n).k < s.stores)
    && (forall w: Actor :: WaiterOk(s, WaiterOf(s, w)) && (WaiterOf(s, w).Awake? || s.all || w == 0))
  }

  lemma SameWord(e: nat, now: nat)
    requires e < now && now % WORD == e % WORD
    ensures (now - e) % WORD == 0
  {
  }

  lemma WaiterMoves(s: State, act: Action)
    requires Inv(s) && Enabled(s, act) && (act.Sample? || act.Try? || act.Park? || act.Resume?)
    ensures Inv(Next(s, act))
  {
    var s1 := Next(s, act);
    if act.Park? && WaiterOf(s, act.w).e < s.epoch {
      SameWord(WaiterOf(s, act.w).e, s.epoch);
    }
    assert forall n: Actor :: NotifierOf(s1, n) == NotifierOf(s, n);
    forall w: Actor ensures WaiterOk(s1, WaiterOf(s1, w)) && (WaiterOf(s1, w).Awake? || s1.all || w == 0) {
      assert WaiterOk(s, WaiterOf(s, w));
    }
  }

  /** A step of notifier `n` changes no other notifier. */
  lemma OtherNotifiers(s: State, act: Action, m: Actor)
    requires Enabled(s, act) && (act.Store? || act.Count? || act.Wake?) && m != act.n
    ensures NotifierOf(Next(s, act), m) == NotifierOf(s, m)
  {
  }

  lemma NotifierMoves(s: State, act: Action)
    requires Inv(s) && Enabled(s, act) && (act.Store? || act.Count?)
    ensures Inv(Next(s, act))
  {
    var s1 := Next(s, act);
    forall m: Actor | m != act.n ensures NotifierOf(s1, m) == NotifierOf(s, m) {
      OtherNotifiers(s, act, m);
    }
    forall w: Actor ensures WaiterOk(s1, WaiterOf(s1, w)) && (WaiterOf(s1, w).Awake? || s1.all || w == 0) {
      assert WaiterOf(s1, w) == WaiterOf(s, w);
      assert WaiterOk(s, WaiterOf(s, w));
    }
    forall m: Actor | !NotifierOf(s1, m).Quiet? ensures NotifierOf(s1, m).k < s1.stores {
      assert m != act.n ==> NotifierOf(s1, m) == NotifierOf(s, m);
    }
  }

  lemma WakeKeeps(s: State, n: Actor, w: Actor)
    requires Inv(s) && Enabled(s, Wake(n, w))
    ensures Inv(Next(s, Wake(n, w)))
  {
    var s1 := Next(s, Wake(n, w));
    forall m: Actor ensures NotifierOf(s1, m) == NotifierOf(s, m) || NotifierOf(s1, m).Quiet? {
      if m != n {
        OtherNotifiers(s, Wake(n, w), m);
      }
    }
    forall v: Actor ensures WaiterOk(s1, WaiterOf(s1, v)) && (WaiterOf(s1, v).Awake? || s1.all || v == 0) {
      assert WaiterOk(s, WaiterOf(s, v));
      assert WaiterOf(s1, v) == if s.all || v == w then Woken(WaiterOf(s, v)) else WaiterOf(s, v);
    }
    forall m: Actor | !NotifierOf(s1, m).Quiet? ensures NotifierOf(s1, m).k < s1.stores {
      assert NotifierOf(s1, m) == NotifierOf(s, m);
    }
  }

  lemma NextKeeps(s: State, act: Action)
    requires Inv(s) && Enabled(s, act)
    ensures Inv(Next(s, act))
  {
    match act
    case Store(_) => NotifierMoves(s, act);
    case Count(_) => NotifierMoves(s, act);
    case Wake(n, w) => WakeKeeps(s, n, w);
    case _ => WaiterMoves(s, act);
  }

  lemma {:induction false} LeadsInv(s: State, acts: seq<Action>, s1: State)
    requires Inv(s) && Leads(s, acts, s1)
    ensures Inv(s1)
    decreases |acts|
  {
    if acts != [] {
      NextKeeps(s, acts[0]);
      LeadsInv(Next(s, acts[0]), acts[1..], s1);
    }
  }

  // ----- Theorems -----

  /**
   While a waiter is parked, no store made since it sampled the epoch, and so none after its last
   failed attempt, has finished its notify: its wake is still to come.  The one exception is a
   waiter that parked on an epoch counted a multiple of 2^32 times since it was sampled.
   */
  lemma NoLostWakeup(s0: State, acts: seq<Action>, s: State, w: Actor)
    requires Init(s0) && Leads(s0, acts, s) && WaiterOf(s, w).Parked?
    ensures var p := WaiterOf(s, w);
            p.at == p.e ==> forall k | p.since <= k < s.stores :: k !in s.done
    ensures var p := WaiterOf(s, w); p.at != p.e ==> p.at > p.e && (p.at - p.e) % WORD == 0
  {
    LeadsInv(s0, acts, s);
    assert WaiterOk(s, WaiterOf(s, w));
  }

  /** Stores are either in the hands of a notifier or finished. */
  ghost predicate Covered(s: State) {
    forall k: nat | k < s.stores ::
      k in s.done || exists n: Actor :: !NotifierOf(s, n).Quiet? && NotifierOf(s, n).k == k
  }

  lemma StepCovers(s: State, act: Action)
    requires Covered(s) && Enabled(s, act)
    ensures Covered(Next(s, act))
  {
    var s1 := Next(s, act);
    forall k: nat | k < s1.stores
      ensures k in s1.done || exists n: Actor :: !NotifierOf(s1, n).Quiet? && NotifierOf(s1, n).k == k
    {
      if k < s.stores && k !in s.done {
        var n: Actor :| !NotifierOf(s, n).Quiet? && NotifierOf(s, n).k == k;
        assert k in s1.done || (!NotifierOf(s1, n).Quiet? && NotifierOf(s1, n).k == k);
      } else if k == s.stores && act.Store? {
        assert NotifierOf(s1, act.n) == Stored(k);
      }
    }
  }

  lemma {:induction false} LeadsCovered(s: State, acts: seq<Action>, s1: State)
    requires Covered(s) && Leads(s, acts, s1)
    ensures Covered(s1)
    decreases |acts|
  {
    if acts != [] {
      StepCovers(s, acts[0]);
      LeadsCovered(Next(s, acts[0]), acts[1..], s1);
    }
  }

  /** A waiter that did not park on a wrapped epoch. */
  predicate ParkedInTime(waiter: Waiter) {
    waiter.Parked? && waiter.at < waiter.e + WORD
  }

  lemma NothingMissed(s: State, w: Actor)
    requires Inv(s) && Covered(s) && ParkedInTime(WaiterOf(s, w))
    requires forall n: Actor :: NotifierOf(s, n).Quiet?
    ensures s.stores == WaiterOf(s, w).since
  {
    assert WaiterOk(s, WaiterOf(s, w));
    var since := WaiterOf(s, w).since;
    assert since < s.stores ==> since in s.done;
  }

  /** With every notify finished, a parked waiter has missed nothing at all. */
  lemma QuietMeansNothingMissed(s0: State, acts: seq<Action>, s: State, w: Actor)
    requires Init(s0) && Leads(s0, acts, s) && ParkedInTime(WaiterOf(s, w))
    requires forall n: Actor :: NotifierOf(s, n).Quiet?
    ensures s.stores == WaiterOf(s, w).since
  {
    LeadsCovered(s0, acts, s);
    LeadsInv(s0, acts, s);
    NothingMissed(s, w);
  }

  // ----- The exception is real -----

  function Lap(): seq<Action> {
    [Store(0), Count(0), Wake(0, 0)]
  }

  function Laps(n: nat): seq<Action> {
    if n == 0 then [] else Lap() + Laps(n - 1)
  }

  /** Actor 0 as a waiter about to park, and as a notifier at rest. */
  predicate AboutToPark(s: State, e: nat, since: nat) {
    WaiterOf(s, 0) == Tried(e, since) && NotifierOf(s, 0).Quiet? && !s.all
  }

  lemma OneLap(s: State, e: nat, since: nat, rest: seq<Action>, s1: State)
    requires AboutToPark(s, e, since)
    ensures var s3 := s.(epoch := s.epoch + 1, stores := s.stores + 1, done := s.done + {s.stores},
                         waiters := s.waiters[0 := Tried(e, since)], notifiers := s.notifiers[0 := Quiet]);
            AboutToPark(s3, e, since) && (Leads(s3, rest, s1) ==> Leads(s, Lap() + rest, s1))
  {
    var a := Next(s, Store(0));
    var b := Next(a, Count(0));
    var c := Next(b, Wake(0, 0));
    assert c.notifiers == s.notifiers[0 := Quiet];
    var acts := Lap() + rest;
    assert acts[0] == Store(0) && acts[1..][0] == Count(0) && acts[1..][1..][0] == Wake(0, 0);
    assert acts[1..][1..][1..] == rest;
    if Leads(c, rest, s1) {
      assert Leads(b, acts[1..][1..], s1);
      assert Leads(a, acts[1..], s1);
    }
  }

  /** After n notifies the waiter, still unparked, finds the epoch n further. */
  lemma {:induction false} ManyLaps(s: State, e: nat, since: nat, n: nat)
    requires AboutToPark(s, e, since)
    ensures exists s1 :: Leads(s, Laps(n), s1) && AboutToPark(s1, e, since) && s1.epoch == s.epoch + n
                         && s1.stores == s.stores + n && s.done <= s1.done && (n > 0 ==> s.stores in s1.done)
    decreases n
  {
    if n == 0 {
      assert Leads(s, Laps(0), s);
    } else {
      var s3 := s.(epoch := s.epoch + 1, stores := s.stores + 1, done := s.done + {s.stores},
                   waiters := s.waiters[0 := Tried(e, since)], notifiers := s.notifiers[0 := Quiet]);
      OneLap(s, e, since, Laps(n - 1), s3);
      ManyLaps(s3, e, since, n - 1);
      var s1 :| Leads(s3, Laps(n - 1), s1) && AboutToPark(s1, e, since) && s1.epoch == s3.epoch + n - 1
                && s1.stores == s3.stores + n - 1 && s3.done <= s1.done && (n - 1 > 0 ==> s3.stores in s1.done);
      OneLap(s, e, since, Laps(n - 1), s1);
      assert s.stores in s1.done;
    }
  }

  lemma {:induction false} LeadsThen(s: State, acts: seq<Action>, s1: State, act: Action)
    requires Leads(s, acts, s1) && Enabled(s1, act)
    ensures Leads(s, acts + [act], Next(s1, act))
    decreases |acts|
  {
    if acts == [] {
      assert Leads(Next(s, act), [], Next(s1, act));
      assert (acts + [act])[1..] == [];
    } else {
      LeadsThen(Next(s, acts[0]), acts[1..], s1, act);
      assert (acts + [act])[1..] == acts[1..] + [act];
    }
  }

  /** Exactly 2^32 notifies between the sample and the park put a waiter to sleep on a finished one. */
  lemma WrapLosesWakeup(e: nat)
    ensures exists s0, acts, s ::
              && Init(s0) && Leads(s0, acts, s) && s0.epoch == e
              && WaiterOf(s, 0).Parked? && WaiterOf(s, 0).at == e + WORD && WaiterOf(s, 0).since in s.done
  {
    var s0 := State(false, e, 0, {}, map[], map[]);
    var s1 := Next(s0, Sample(0));
    var s2 := Next(s1, Try(0));
    ManyLaps(s2, e, 0, WORD);
    var s3 :| Leads(s2, Laps(WORD), s3) && AboutToPark(s3, e, 0) && s3.epoch == s2.epoch + WORD
              && s3.stores == s2.stores + WORD && s2.done <= s3.done && (WORD > 0 ==> s2.stores in s3.done);
    var tail := Laps(WORD);
    LeadsThen(s2, tail, s3, Park(0));
    var s := Next(s3, Park(0));
    var acts := [Sample(0), Try(0)] + (tail + [Park(0)]);
    assert acts[1..][1..] == tail + [Park(0)];
    assert Leads(s1, acts[1..], s);
    assert Leads(s0, acts, s);
  }
}
