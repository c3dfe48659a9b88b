/**
 The producer supervisor: back off, spawn, await readiness, monitor, kill.

 One pass of the loop takes from its surroundings what the clock, the kernel and the channel
 answer during that pass; a run is any finite number of passes with any answers at all.
 */
module Supervisor {
  import opened Words

  // ----- Backoff -----

  function Pow(b: nat, e: nat): nat {
    if e == 0 then 1 else b * Pow(b, e - 1)
  }

  function Min(a: nat, b: nat): nat {
    if a < b then a else b
  }

  /** The delay before restart `n`: geometric growth up to a cap. */
  function Delay(initial: nat, cap: nat, multiplier: nat, n: nat): nat {
    Min(cap, initial * Pow(multiplier, if n == 0 then 0 else n - 1))
  }

  /** The delay after `k` multiplications, with no cap. */
  function Grown(initial: nat, b: nat, k: nat): nat {
    if k == 0 then initial else Grown(initial, b, k - 1) * b
  }

  lemma {:induction false} GrownIsPower(initial: nat, b: nat, k: nat)
    ensures Grown(initial, b, k) == initial * Pow(b, k)
  {
    if k > 0 {
      GrownIsPower(initial, b, k - 1);
      Reorder(initial, Pow(b, k - 1), b);
    }
  }

  lemma Reorder(x: nat, y: nat, z: nat)
    ensures (x * y) * z == x * (z * y)
  {
  }

  lemma {:induction false} GrownRises(initial: nat, b: nat, k: nat, n: nat)
    requires 1 <= b && k <= n
    ensures Grown(initial, b, k) <= Grown(initial, b, n)
    decreases n
  {
    if k < n {
      GrownRises(initial, b, k, n - 1);
      TimesAtLeast(Grown(initial, b, n - 1), b);
    }
  }

  lemma TimesAtLeast(x: nat, b: nat)
    requires 1 <= b
    ensures x <= x * b
  {
    Product(x, b - 1);
    assert x * b == x + x * (b - 1);
  }

  lemma Within(x: nat, b: nat, cap: nat)
    requires 1 <= b
    ensures x > cap / b <==> x * b > cap
  {
    DivBound(b, x, cap);
  }

  /** `backoff_delay_ns`: no product it forms exceeds the cap, let alone 64 bits. */
  method BackoffDelay(initial: nat, maxDelay: nat, multiplier: nat, failures: nat) returns (delay: nat)
    requires initial <= U64_MAX && maxDelay <= U64_MAX && 1 <= multiplier
    ensures delay == Delay(initial, if maxDelay == 0 then initial else maxDelay, multiplier, failures)
    ensures delay <= U64_MAX
  {
    delay := initial;
    var capped := maxDelay;
    if capped == 0 {
      capped := delay;
    }
    var i := 1;
    ghost var last := if failures == 0 then 0 else failures - 1;
    while i < failures && delay < capped
      invariant 1 <= i && i - 1 <= last
      invariant delay == Grown(initial, multiplier, i - 1)
      decreases failures - i
    {
      Within(delay, multiplier, capped);
      if delay > capped / multiplier {
        GrownRises(initial, multiplier, i, last);
        delay := capped;
        break;
      }
      delay := delay * multiplier;
      assert delay <= U64_MAX;
      i := i + 1;
    }
    GrownRises(initial, multiplier, i - 1, last);
    GrownIsPower(initial, multiplier, last);
    if delay > capped {
      delay := capped;
    }
  }

  // ----- The loop -----

  datatype Phase = Backoff | Spawn | AwaitReady | Monitor | Kill | Done

  datatype Decision = Undecided | CleanExit | Restart

  datatype Outcome = Stopped | Exited | RestartsExhausted

  /** What `waitpid` answers without blocking; `clean` is `is_clean_exit_status`. */
  datatype Reap = Gone(clean: bool) | NotYet | WaitFails

  datatype Event = StopEvent | ChildEvent(reap: Reap) | Output

  /**
   What one pass is told.  `now` is the clock at the deadline it checks, `armedAt` at a deadline it
   sets, `failedAt` at a failure and `spawnedAt` at a spawn, zero where the clock fails; `ready` is
   the generation of the child's own ready channel (zero if there is none); `killed`, `forced` and
   `waited` are whether a signal, the SIGKILL after the grace period and the blocking wait succeed.
   */
  datatype Answers = Answers(
    stop: bool, now: nat, armedAt: nat, failedAt: nat,
    spawned: bool, spawnedAt: nat, watched: bool, added: bool,
    ready: nat, stalled: bool, killed: bool, forced: bool, waited: bool, reap: Reap,
    polled: bool, events: seq<Event>)

  /** `monotonic_deadline_ns` */
  function Deadline(armedAt: nat, timeout: nat): nat {
    if armedAt == 0 then 0 else Min(U64_MAX, armedAt + timeout)
  }

  /** Each generation taken up is one more than the one before. */
  predicate Consecutive(accepted: seq<nat>) {
    forall k | 0 < k < |accepted| :: accepted[k] == accepted[k - 1] + 1
  }

  /** `n` times `m`, by addition. */
  function Times(n: nat, m: nat): nat {
    if n == 0 then 0 else Times(n - 1, m) + m
  }

  lemma {:induction false} TimesIsProduct(n: nat, m: nat)
    ensures Times(n, m) == n * m
  {
    if n > 0 {
      TimesIsProduct(n - 1, m);
      assert n * m == (n - 1) * m + m;
    }
  }

  /**
   The child the handle knows; a pid of zero is none.  `clean` is its exit status once reaped;
   `taken` and `ours` are history: its channel was taken up, and it was spawned by this run.
   */
  datatype Child = Child(
    pid: nat, reaped: bool, killing: bool, decision: Decision, clean: bool, taken: bool, ours: bool)

  /** `base`, `spawns`, `resets` and `allowed` are this run's history: restarts allowed by the failure count. */
  datatype Tally = Tally(
    attempts: nat, failures: nat, lastSpawn: nat, base: nat, spawns: nat, resets: nat, allowed: nat)

  /** History: the children spawned and not yet waited for, and those of them the handle has forgotten. */
  datatype Children = Children(nextPid: nat, unreaped: set<nat>, lost: set<nat>)

  /** The last generation taken up, and (history) all of them. */
  datatype Lineage = Lineage(baseline: nat, accepted: seq<nat>)

  /** The deadlines of the three timed phases; `armedAt` is history, when the backoff was armed. */
  datatype Deadlines = Deadlines(backoff: nat, create: nat, grace: nat, armedAt: nat)

  predicate Childless(phase: Phase) {
    phase.Backoff? || phase.Spawn?
  }

  predicate Supervised(phase: Phase) {
    phase.AwaitReady? || phase.Monitor?
  }

  /** The child the handle still has to wait for. */
  function Current(child: Child): set<nat> {
    if child.pid > 0 && !child.reaped then {child.pid} else {}
  }

  /**
   A child still to be waited for is the one the handle knows, or one forgotten earlier; one this
   run has spawned is never forgotten, because the loop waits for it before it spawns again.
   */
  predicate OneChild(child: Child, kids: Children, phase: Phase) {
    && 0 < kids.nextPid && child.pid < kids.nextPid
    && (forall pid | pid in kids.lost :: pid < kids.nextPid && pid != child.pid)
    && kids.unreaped == kids.lost + Current(child)
    && (Childless(phase) && child.ours ==> Current(child) == {})
    && (Supervised(phase) ==> child.pid > 0 && child.ours)
  }

  /** The handle knows a child of this run once one is spawned, and the same child until then. */
  predicate Descends(was: Child, child: Child, spawned: bool) {
    child.ours == (was.ours || spawned) && (!spawned ==> child.pid == was.pid)
  }

  /** The handle's view of its child: how it ended, and whether it did so by itself. */
  predicate ChildOk(child: Child, phase: Phase, outcome: Outcome) {
    && (Supervised(phase) ==>
          !child.killing && child.decision == if !child.reaped then Undecided else Judgement(child.clean))
    && (phase.Monitor? ==> child.taken)
    && (outcome.Exited? ==> child.ours && child.reaped && child.clean && child.taken && !child.killing)
  }

  function Judgement(clean: bool): Decision {
    if clean then CleanExit else Restart
  }

  /** Every spawn but the first was allowed by the failure count. */
  predicate Budget(tally: Tally, maxRestarts: nat) {
    && tally.failures <= maxRestarts
    && tally.allowed <= Times(tally.resets, maxRestarts) + tally.failures
    && (tally.resets == 0 ==> tally.failures == tally.base + tally.allowed)
    && tally.spawns <= 1 + tally.allowed
  }

  /** A failure now would be the failure of the last spawn that was allowed. */
  predicate MayFail(phase: Phase, thenRestart: bool) {
    Supervised(phase) || (phase.Kill? && thenRestart)
  }

  predicate Accounted(tally: Tally, phase: Phase, thenRestart: bool, outcome: Outcome, maxRestarts: nat) {
    && (Childless(phase) ==> tally.spawns == tally.allowed)
    && (MayFail(phase, thenRestart) || outcome.RestartsExhausted? ==> tally.spawns == 1 + tally.allowed)
    && (outcome.RestartsExhausted? ==> tally.failures == maxRestarts)
    && (!phase.Done? ==> outcome.Stopped?)
  }

  predicate Descent(line: Lineage) {
    && Consecutive(line.accepted)
    && (if line.accepted == [] then line.baseline == 0
        else 0 < line.baseline == line.accepted[|line.accepted| - 1])
  }

  /** The failure count a new failure starts from: a long enough life has cleared it. */
  function Counted(failures: nat, lastSpawn: nat, now: nat, window: nat): nat {
    if now != 0 && lastSpawn != 0 && now >= lastSpawn && now - lastSpawn >= window then 0
    else failures
  }

  /** The generation is the first, or the one after the last. */
  predicate Expected(ready: nat, baseline: nat) {
    ready != 0 && (baseline == 0 || (baseline != U64_MAX && ready == baseline + 1))
  }

  /** What a failure leads to: out of restarts, or one more failure counted and a backoff armed. */
  predicate GoesOn(count: nat, tally: Tally, armed: bool, maxRestarts: nat, phase: Phase, outcome: Outcome) {
    if count >= maxRestarts then phase.Done? && outcome.RestartsExhausted? && tally.failures == count
    else outcome.Stopped? && phase == (if armed then Backoff else Done) && tally.failures == count + 1
  }

  /** A failure touches only the failure count and its history. */
  predicate Recount(was: Tally, tally: Tally) {
    && tally == was.(failures := tally.failures, allowed := tally.allowed, resets := tally.resets)
    && tally.resets >= was.resets
  }

  /** No failure is counted, no backoff entered, no restart refused. */
  predicate NoFailure(was: Tally, tally: Tally, phase: Phase, outcome: Outcome) {
    && tally.failures == was.failures && tally.resets == was.resets && tally.allowed == was.allowed
    && !phase.Backoff? && !outcome.RestartsExhausted?
  }

  /** The loop is on its way out: it will not restart anything. */
  predicate Stopping(phase: Phase, thenRestart: bool) {
    phase.Done? || (phase.Kill? && !thenRestart)
  }

  /** The pass learns of a stop request, by the flag or by an event. */
  predicate Told(ans: Answers) {
    ans.stop || (ans.polled && StopEvent in ans.events)
  }

  /** After a pass that learns of a stop request there are no more attempts; and none in a pass told by the flag. */
  predicate Obeyed(log: seq<nat>, script: seq<Answers>)
    requires 0 < |log| <= |script| + 1
  {
    && (forall i, j | 0 <= i < j < |log| && Told(script[i]) :: log[j] == log[i + 1])
    && (forall i | 0 <= i < |log| - 1 && script[i].stop :: log[i + 1] == log[i])
  }

  /** Some pass so far learnt of a stop request. */
  ghost predicate Heard(log: seq<nat>, script: seq<Answers>)
    requires 0 < |log| <= |script| + 1
  {
    exists i :: 0 <= i < |log| - 1 && Told(script[i])
  }

  /** Some pass so far found the stop flag set. */
  ghost predicate Halted(log: seq<nat>, script: seq<Answers>)
    requires 0 < |log| <= |script| + 1
  {
    exists i :: 0 <= i < |log| - 1 && script[i].stop
  }

  lemma HaltedOn(log: seq<nat>, script: seq<Answers>, next: nat)
    requires 0 < |log| <= |script|
    ensures Halted(log + [next], script) <==> Halted(log, script) || script[|log| - 1].stop
  {
  }

  lemma ObeyedOn(log: seq<nat>, script: seq<Answers>, next: nat)
    requires 0 < |log| <= |script| && Obeyed(log, script)
    requires Heard(log, script) || script[|log| - 1].stop ==> next == log[|log| - 1]
    ensures Obeyed(log + [next], script)
    ensures Heard(log + [next], script) <==> Heard(log, script) || Told(script[|log| - 1])
  {
    var more := log + [next];
    forall i, j | 0 <= i < j < |more| && Told(script[i]) ensures more[j] == more[i + 1] {
      if j == |log| && i < |log| - 1 {
        assert Heard(log, script);
        assert log[|log| - 1] == log[i + 1];
      }
    }
  }

  /** Some attempt so far produced a child. */
  predicate Spawned(log: seq<nat>, script: seq<Answers>)
    requires 0 < |log| <= |script| + 1
  {
    exists i :: 0 <= i < |log| - 1 && log[i] < log[i + 1] && script[i].spawned
  }

  lemma SpawnedOn(log: seq<nat>, script: seq<Answers>, next: nat)
    requires 0 < |log| <= |script|
    ensures Spawned(log + [next], script) <==>
              Spawned(log, script) || (log[|log| - 1] < next && script[|log| - 1].spawned)
  {
    var more := log + [next];
    assert forall i | 0 <= i < |log| :: more[i] == log[i];
    if log[|log| - 1] < next && script[|log| - 1].spawned {
      assert more[|log| - 1] < more[|log| - 1 + 1];
    }
  }

  /** The restart budget in one formula. */
  lemma BudgetBound(tally: Tally, maxRestarts: nat)
    requires Budget(tally, maxRestarts)
    ensures tally.spawns <= 1 + (tally.resets + 1) * maxRestarts
  {
    TimesIsProduct(tally.resets + 1, maxRestarts);
  }

  class SupervisorLoop {
    const initial: nat
    const maxDelay: nat
    const multiplier: nat
    const maxRestarts: nat
    const window: nat
    const createTimeout: nat
    const graceTime: nat

    var child: Child
    var tally: Tally
    var kids: Children
    var line: Lineage
    var deadlines: Deadlines
    var phase: Phase
    var thenRestart: bool
    var outcome: Outcome
    var failed: bool

    predicate Options() {
      initial <= U64_MAX && maxDelay <= U64_MAX && 1 <= multiplier
    }

    /** The delay due after the failures counted so far. */
    function Wait(): nat
      reads this
      requires Options()
    {
      Delay(initial, if maxDelay == 0 then initial else maxDelay, multiplier, tally.failures)
    }

    /** What every phase keeps; the phase itself may be about to change. */
    predicate Steady()
      reads this
    {
      Options() && Budget(tally, maxRestarts) && Descent(line)
    }

    predicate Valid()
      reads this
    {
      && Steady()
      && OneChild(child, kids, phase) && ChildOk(child, phase, outcome)
      && Accounted(tally, phase, thenRestart, outcome, maxRestarts)
      && (phase.Backoff? ==> deadlines.armedAt != 0 && deadlines.backoff == Deadline(deadlines.armedAt, Wait()))
    }

    /** The kernel and the clock let the loop go on killing: SIGTERM once, SIGKILL after the grace period. */
    predicate Signalled(ans: Answers)
      reads this
    {
      || Current(child) == {}
      || (&& (child.killing || (ans.killed && ans.armedAt != 0))
          && (ans.now >= (if child.killing then deadlines.grace else Deadline(ans.armedAt, graceTime)) ==> ans.forced))
    }

    /** A failure: no child, a child gone too early or uncleanly, or one that had to be killed. */
    predicate Fails(ans: Answers)
      reads this
    {
      match phase
      case Spawn => !ans.spawned || (ans.spawnedAt != 0 && !ans.watched && ans.killed && ans.waited)
      case AwaitReady => child.reaped && !Expected(ans.ready, line.baseline)
      case Monitor => child.reaped && !child.clean
      case Kill => thenRestart && Signalled(ans) && (Current(child) == {} || ans.reap.Gone?)
      case _ => false
    }

    /** The failure count a failure of this pass would start from. */
    function Count(ans: Answers): nat
      reads this
    {
      var lastSpawn := if phase.Spawn? && ans.spawned then ans.spawnedAt else tally.lastSpawn;
      Counted(tally.failures, lastSpawn, ans.failedAt, window)
    }

    /** The child has ended by itself, cleanly, after its channel was taken up. */
    predicate EndsWell()
      reads this
    {
      phase.Monitor? && child.reaped && child.clean
    }

    /** `supervisor_create_impl` */
    constructor (initial: nat, maxDelay: nat, multiplier: nat, maxRestarts: nat, window: nat,
                 createTimeout: nat, graceTime: nat)
      requires initial <= U64_MAX && maxDelay <= U64_MAX && 1 <= multiplier
      ensures Valid() && phase.Done? && kids == Children(1, {}, {}) && child.pid == 0 && tally.attempts == 0
      ensures this.maxRestarts == maxRestarts
    {
      this.initial, this.maxDelay, this.multiplier := initial, maxDelay, multiplier;
      this.maxRestarts, this.window := maxRestarts, window;
      this.createTimeout, this.graceTime := createTimeout, graceTime;
      child := Child(0, false, false, Undecided, false, false, false);
      tally := Tally(0, 0, 0, 0, 0, 0, 0);
      kids := Children(1, {}, {});
      line := Lineage(0, []);
      deadlines := Deadlines(0, 0, 0, 0);
      phase, thenRestart, outcome, failed := Done, false, Stopped, false;
    }

    /** `count_failure`: a long enough life clears the count; then one more, unless it is full. */
    method CountFailure(now: nat) returns (full: bool)
      requires Budget(tally, maxRestarts)
      modifies `tally
      ensures Budget(tally, maxRestarts)
      ensures var was, count := old(tally), Counted(old(tally).failures, old(tally).lastSpawn, now, window);
              && full == (count >= maxRestarts)
              && tally.failures == (if full then count else count + 1)
              && tally.allowed == was.allowed + (if full then 0 else 1)
              && was.resets <= tally.resets <= was.resets + 1
              && (count < was.failures ==> tally.resets == was.resets + 1)
              && tally == was.(failures := tally.failures, allowed := tally.allowed, resets := tally.resets)
    {
      if now != 0 && tally.lastSpawn != 0 && now >= tally.lastSpawn && now - tally.lastSpawn >= window {
        tally := tally.(failures := 0, resets := tally.resets + 1);
      }
      if tally.failures >= maxRestarts {
        return true;
      }
      tally := tally.(failures := tally.failures + 1, allowed := tally.allowed + 1);
      return false;
    }

    /** `enter_backoff` */
    method EnterBackoff(ans: Answers)
      requires Options()
      modifies `phase, `failed, `deadlines
      ensures phase == if ans.armedAt != 0 then Backoff else Done
      ensures failed == (old(failed) || ans.armedAt == 0)
      ensures deadlines.armedAt == ans.armedAt && deadlines.backoff == Deadline(ans.armedAt, Wait())
    {
      var delay := BackoffDelay(initial, maxDelay, multiplier, tally.failures);
      deadlines := deadlines.(backoff := Deadline(ans.armedAt, delay), armedAt := ans.armedAt);
      if deadlines.backoff == 0 {
        failed := true;
        phase := Done;
      } else {
        phase := Backoff;
      }
    }

    /** What follows a failure: back off and spawn again, or give up. */
    method AfterFailure(ans: Answers)
      requires Steady() && outcome.Stopped? && OneChild(child, kids, Backoff)
      requires tally.spawns == 1 + tally.allowed
      modifies `tally, `phase, `outcome, `failed, `deadlines
      ensures Valid() && Recount(old(tally), tally)
      ensures var count := Counted(old(tally).failures, old(tally).lastSpawn, ans.failedAt, window);
              GoesOn(count, tally, ans.armedAt != 0, maxRestarts, phase, outcome)
    {
      var full := CountFailure(ans.failedAt);
      if full {
        outcome := RestartsExhausted;
        phase := Done;
      } else {
        EnterBackoff(ans);
      }
    }

    /** The loop gives up with an error; a child may be left for the final clean-up. */
    method Fail()
      requires Steady() && OneChild(child, kids, Done) && outcome.Stopped?
      modifies `phase, `failed
      ensures Valid() && phase.Done? && failed
    {
      failed := true;
      phase := Done;
    }

    /** `reap_child`: done once there is nothing left to wait for. */
    method ReapChild(answer: Reap) returns (done: bool, error: bool)
      requires OneChild(child, kids, phase)
      modifies `child, `kids
      ensures OneChild(child, kids, phase) && (done ==> Current(child) == {}) && (error ==> !done)
      ensures done == (Current(old(child)) == {} || answer.Gone?)
      ensures error == (Current(old(child)) != {} && answer.WaitFails?)
      ensures kids == old(kids).(unreaped := kids.unreaped)
      ensures child == if Current(old(child)) == {} || !answer.Gone? then old(child)
                       else old(child).(reaped := true, clean := answer.clean)
    {
      if child.pid == 0 || child.reaped {
        return true, false;
      }
      match answer
      case Gone(clean) =>
        child := child.(reaped := true, clean := clean);
        kids := kids.(unreaped := kids.unreaped - {child.pid});
        return true, false;
      case NotYet => return false, false;
      case WaitFails => return false, true;
    }

    /** The new child; one that an earlier run left behind is forgotten. */
    method Adopt(spawnedAt: nat)
      requires Steady() && OneChild(child, kids, Spawn)
      modifies `child, `kids, `tally
      ensures Steady() && OneChild(child, kids, AwaitReady)
      ensures child == Child(old(kids).nextPid, false, false, Undecided, false, false, true)
      ensures kids.lost == old(kids).lost + Current(old(child)) && kids.nextPid == old(kids).nextPid + 1
      ensures tally == old(tally).(lastSpawn := spawnedAt)
    {
      var lost := kids.lost + Current(child);
      child := Child(kids.nextPid, false, false, Undecided, false, false, true);
      kids := Children(kids.nextPid + 1, kids.unreaped + {child.pid}, lost);
      tally := tally.(lastSpawn := spawnedAt);
    }

    /** Without a watch on it the child is killed at once, and counts as a failure. */
    method Discard(ans: Answers)
      requires Steady() && OneChild(child, kids, AwaitReady) && Current(child) != {} && outcome.Stopped?
      requires tally.spawns == 1 + tally.allowed
      modifies `child, `kids, `tally, `phase, `outcome, `failed, `deadlines
      ensures Valid() && Recount(old(tally), tally)
      ensures kids == old(kids).(unreaped := kids.unreaped) && child.ours == old(child).ours
      ensures var count := Counted(old(tally).failures, old(tally).lastSpawn, ans.failedAt, window);
              if ans.killed && ans.waited then GoesOn(count, tally, ans.armedAt != 0, maxRestarts, phase, outcome)
              else tally == old(tally) && phase.Done? && failed && outcome.Stopped?
    {
      if !ans.killed || !ans.waited {
        Fail();
      } else {
        child := child.(reaped := true);
        kids := kids.(unreaped := kids.unreaped - {child.pid});
        AfterFailure(ans);
      }
    }

    method SpawnPhase(ans: Answers)
      requires Valid() && phase.Spawn?
      modifies `child, `kids, `tally, `phase, `outcome, `failed, `deadlines
      ensures Valid() && tally.resets >= old(tally).resets && tally.base == old(tally).base
      ensures tally.attempts == old(tally).attempts + 1 && tally.spawns == old(tally).spawns + 1
      ensures kids.lost == old(kids).lost + if ans.spawned then Current(old(child)) else {}
      ensures kids.nextPid == old(kids).nextPid + if ans.spawned then 1 else 0
      ensures !ans.spawned ==> child == old(child)
      ensures child.ours == (old(child).ours || ans.spawned)
      ensures phase.AwaitReady? <==> ans.spawned && ans.spawnedAt != 0 && ans.watched && ans.added && ans.armedAt != 0
      ensures ans.spawned && ans.spawnedAt == 0 ==> phase.Done? && Current(child) == {old(kids).nextPid}
      ensures if old(Fails(ans)) then
                GoesOn(old(Count(ans)), tally, ans.armedAt != 0, maxRestarts, phase, outcome)
              else NoFailure(old(tally), tally, phase, outcome)
      ensures !outcome.Exited? && (phase.AwaitReady? || phase.Backoff? || phase.Done?)
    {
      tally := tally.(attempts := tally.attempts + 1, spawns := tally.spawns + 1);
      if !ans.spawned {
        AfterFailure(ans);
        return;
      }
      Adopt(ans.spawnedAt);
      if ans.spawnedAt == 0 {
        Fail();
      } else if !ans.watched {
        Discard(ans);
      } else if !ans.added || ans.armedAt == 0 {
        Fail();
      } else {
        deadlines := deadlines.(create := Deadline(ans.armedAt, createTimeout));
        phase := AwaitReady;
      }
    }

    method AwaitPhase(ans: Answers)
      requires Valid() && phase.AwaitReady?
      modifies `line, `child, `tally, `phase, `outcome, `failed, `thenRestart, `deadlines
      ensures Valid() && Recount(old(tally), tally)
      ensures child == old(child).(taken := child.taken) && !outcome.Exited?
      ensures phase.Monitor? <==> Expected(ans.ready, old(line).baseline)
      ensures line == if phase.Monitor? then Lineage(ans.ready, old(line).accepted + [ans.ready]) else old(line)
      ensures if old(Fails(ans)) then GoesOn(old(Count(ans)), tally, ans.armedAt != 0, maxRestarts, phase, outcome)
              else NoFailure(old(tally), tally, phase, outcome)
      ensures phase.Kill? <==> !phase.Monitor? && !child.reaped && ans.now >= deadlines.create
      ensures phase.Kill? ==> thenRestart
    {
      if Expected(ans.ready, line.baseline) {
        line := Lineage(ans.ready, line.accepted + [ans.ready]);
        child := child.(taken := true);
        phase := Monitor;
      } else if child.reaped {
        AfterFailure(ans);
      } else if ans.now >= deadlines.create {
        thenRestart := true;
        phase := Kill;
      }
    }

    method MonitorPhase(ans: Answers)
      requires Valid() && phase.Monitor?
      modifies `child, `tally, `phase, `outcome, `failed, `thenRestart, `deadlines
      ensures Valid() && Recount(old(tally), tally)
      ensures child == old(child).(decision := child.decision)
      ensures outcome.Exited? <==> old(EndsWell())
      ensures if old(Fails(ans)) then GoesOn(old(Count(ans)), tally, ans.armedAt != 0, maxRestarts, phase, outcome)
              else NoFailure(old(tally), tally, phase, outcome)
      ensures phase.Kill? <==> !child.reaped && ans.stalled
      ensures phase.Kill? ==> thenRestart
    {
      if child.reaped {
        if child.decision.CleanExit? {
          outcome := Exited;
          phase := Done;
        } else {
          AfterFailure(ans);
        }
      } else if ans.stalled {
        child := child.(decision := Restart);
        thenRestart := true;
        phase := Kill;
      }
    }

    /** SIGTERM, and SIGKILL once the grace period is over; false if the kernel or the clock refuses. */
    method Signal(ans: Answers) returns (ok: bool)
      modifies `child, `deadlines
      ensures child == old(child).(killing := child.killing) && deadlines == old(deadlines).(grace := deadlines.grace)
      ensures ok == old(Signalled(ans)) && (ok ==> Current(child) == {} || child.killing)
    {
      if child.pid > 0 && !child.reaped {
        if !child.killing {
          if !ans.killed {
            return false;
          }
          child := child.(killing := true);
          if ans.armedAt == 0 {
            return false;
          }
          deadlines := deadlines.(grace := Deadline(ans.armedAt, graceTime));
        }
        if ans.now >= deadlines.grace {
          if !ans.forced {
            return false;
          }
          deadlines := deadlines.(grace := U64_MAX);
        }
      }
      return true;
    }

    /** The second half of a kill: wait for the child, then go on or end. */
    method AwaitDeath(ans: Answers)
      requires Valid() && phase.Kill? && (Current(child) == {} || child.killing)
      modifies `child, `kids, `tally, `phase, `outcome, `failed, `thenRestart, `deadlines
      ensures Valid() && Recount(old(tally), tally) && !outcome.Exited?
      ensures kids == old(kids).(unreaped := kids.unreaped)
      ensures Descends(old(child), child, false) && Current(child) <= Current(old(child))
      ensures if old(thenRestart) && (Current(old(child)) == {} || ans.reap.Gone?) then
                GoesOn(old(Count(ans)), tally, ans.armedAt != 0, maxRestarts, phase, outcome)
              else NoFailure(old(tally), tally, phase, outcome) && (phase.Kill? || phase.Done?)
      ensures phase.Kill? ==> Current(child) != {} && child.killing && thenRestart == old(thenRestart)
      ensures !phase.Kill? ==> Current(child) == {} || (phase.Done? && failed)
    {
      var done, error := ReapChild(ans.reap);
      if error {
        Fail();
      } else if done {
        if thenRestart {
          thenRestart := false;
          AfterFailure(ans);
        } else {
          outcome := Stopped;
          phase := Done;
        }
      }
    }

    method KillPhase(ans: Answers)
      requires Valid() && phase.Kill?
      modifies `child, `kids, `tally, `phase, `outcome, `failed, `thenRestart, `deadlines
      ensures Valid() && Recount(old(tally), tally) && !outcome.Exited?
      ensures kids == old(kids).(unreaped := kids.unreaped)
      ensures Descends(old(child), child, false) && Current(child) <= Current(old(child))
      ensures if old(Fails(ans)) then GoesOn(old(Count(ans)), tally, ans.armedAt != 0, maxRestarts, phase, outcome)
              else NoFailure(old(tally), tally, phase, outcome) && (phase.Kill? || phase.Done?)
      ensures phase.Kill? ==> Current(child) != {} && child.killing && thenRestart == old(thenRestart)
      ensures !phase.Kill? ==> Current(child) == {} || (phase.Done? && failed)
    {
      var ok := Signal(ans);
      if ok {
        AwaitDeath(ans);
      } else {
        Fail();
      }
    }

    /** One event; false if the loop has to end. */
    method HandleEvent(event: Event) returns (ok: bool)
      requires Valid() && !phase.Done?
      modifies `child, `kids, `phase, `failed, `thenRestart
      ensures Valid() && (ok <==> !phase.Done?)
      ensures kids == old(kids).(unreaped := kids.unreaped)
      ensures child.pid == old(child).pid && child.ours == old(child).ours && (child.ours || child == old(child))
      ensures (phase == old(phase) && thenRestart == old(thenRestart)) || Stopping(phase, thenRestart)
      ensures event.StopEvent? ==> Stopping(phase, thenRestart)
    {
      ok := true;
      match event
      case StopEvent =>
        thenRestart := false;
        phase := Kill;
      case ChildEvent(answer) =>
        if child.ours && !child.reaped {
          var done, error := ReapChild(answer);
          if error {
            Fail();
            ok := false;
          } else if done && child.decision.Undecided? {
            child := child.(decision := Judgement(child.clean));
          }
        }
      case Output =>
    }

    /** The events one wait delivers, in order. */
    method HandleEvents(ans: Answers)
      requires Valid() && !phase.Done?
      modifies `child, `kids, `phase, `failed, `thenRestart
      ensures Valid() && kids == old(kids).(unreaped := kids.unreaped)
      ensures Descends(old(child), child, false) && (child.ours || child == old(child))
      ensures phase == old(phase) || Stopping(phase, thenRestart)
      ensures Stopping(old(phase), old(thenRestart)) || (ans.polled && StopEvent in ans.events) ==>
                Stopping(phase, thenRestart)
    {
      if !ans.polled {
        Fail();
        return;
      }
      var k := 0;
      while k < |ans.events|
        invariant k <= |ans.events| && Valid() && !phase.Done?
        invariant kids == old(kids).(unreaped := kids.unreaped)
        invariant child.pid == old(child).pid && child.ours == old(child).ours && (child.ours || child == old(child))
        invariant (phase == old(phase) && thenRestart == old(thenRestart)) || Stopping(phase, thenRestart)
        invariant StopEvent in ans.events[..k] ==> Stopping(phase, thenRestart)
      {
        var ok := HandleEvent(ans.events[k]);
        if !ok {
          return;
        }
        k := k + 1;
      }
    }

    /** The phases that have a child to look after. */
    method Attend(ans: Answers)
      requires Valid() && (Supervised(phase) || phase.Kill?)
      modifies this
      ensures Valid() && Recount(old(tally), tally) && old(line).accepted <= line.accepted
      ensures kids.lost == old(kids).lost && Descends(old(child), child, false)
      ensures outcome.Exited? <==> old(EndsWell())
      ensures if old(Fails(ans)) then GoesOn(old(Count(ans)), tally, ans.armedAt != 0, maxRestarts, phase, outcome)
              else NoFailure(old(tally), tally, phase, outcome)
      ensures !phase.Spawn? && (Stopping(old(phase), old(thenRestart)) ==> Stopping(phase, thenRestart))
    {
      match phase
      case AwaitReady => AwaitPhase(ans);
      case Monitor => MonitorPhase(ans);
      case Kill => KillPhase(ans);
    }

    method PhaseStep(ans: Answers)
      requires Valid() && !phase.Done?
      modifies this
      ensures Valid() && tally.resets >= old(tally).resets && tally.base == old(tally).base
      ensures old(line).accepted <= line.accepted
      ensures tally.attempts - old(tally).attempts == tally.spawns - old(tally).spawns
      ensures tally.attempts == old(tally).attempts + (if old(phase).Spawn? then 1 else 0)
      ensures kids.lost == old(kids).lost + if old(phase).Spawn? && ans.spawned then Current(old(child)) else {}
      ensures Descends(old(child), child, old(phase).Spawn? && ans.spawned)
      ensures Childless(old(phase)) && !(old(phase).Spawn? && ans.spawned) ==>
                child == old(child) && (Childless(phase) || phase.Done?)
      ensures old(phase).Backoff? ==> phase == if ans.now >= deadlines.backoff then Spawn else Backoff
      ensures old(phase).Backoff? ==> tally == old(tally) && deadlines == old(deadlines)
      ensures outcome.Exited? <==> old(EndsWell())
      ensures !old(phase).Backoff? ==>
                if old(Fails(ans)) then
                  GoesOn(old(Count(ans)), tally, ans.armedAt != 0, maxRestarts, phase, outcome)
                else NoFailure(old(tally), tally, phase, outcome) && !phase.Spawn?
      ensures Stopping(old(phase), old(thenRestart)) ==> Stopping(phase, thenRestart)
    {
      if phase.Backoff? {
        if ans.now >= deadlines.backoff {
          phase := Spawn;
        }
      } else if phase.Spawn? {
        SpawnPhase(ans);
      } else {
        Attend(ans);
      }
    }

    /** A step of the phase and the events after it, for a loop that has not been told to stop before. */
    method Proceed(ans: Answers)
      requires Valid() && !phase.Done?
      modifies this
      ensures Valid() && tally.resets >= old(tally).resets && tally.base == old(tally).base
      ensures old(line).accepted <= line.accepted
      ensures tally.attempts - old(tally).attempts == tally.spawns - old(tally).spawns
      ensures tally.attempts == old(tally).attempts + (if old(phase).Spawn? then 1 else 0)
      ensures kids.lost == old(kids).lost + if old(phase).Spawn? && ans.spawned then Current(old(child)) else {}
      ensures Descends(old(child), child, old(phase).Spawn? && ans.spawned)
      ensures Childless(old(phase)) && !child.ours && !Stopping(phase, thenRestart) ==>
                Childless(phase) && child == old(child)
      ensures outcome.Exited? <==> old(EndsWell())
      ensures outcome.RestartsExhausted? <==> old(Fails(ans)) && old(Count(ans)) >= maxRestarts
      ensures phase.Backoff? && !old(phase).Backoff? ==> old(Fails(ans)) && old(Count(ans)) < maxRestarts
      ensures phase.Spawn? ==> old(phase).Backoff? && ans.now >= old(deadlines).backoff
      ensures Stopping(old(phase), old(thenRestart)) || (ans.polled && StopEvent in ans.events) ==>
                Stopping(phase, thenRestart)
    {
      PhaseStep(ans);
      if !phase.Done? {
        HandleEvents(ans);
      }
    }

    /**
     One pass of the loop.  It reports a clean exit exactly for a child that ended so by itself, and
     exhaustion exactly for a failure with the count full; it lets a restart begin only once the
     backoff has run out, and none after it has learnt of a stop request.
     */
    method Pass(ans: Answers)
      requires Valid() && !phase.Done?
      modifies this
      ensures Valid() && tally.resets >= old(tally).resets && tally.base == old(tally).base
      ensures old(line).accepted <= line.accepted
      ensures tally.attempts - old(tally).attempts == tally.spawns - old(tally).spawns
      ensures tally.attempts == old(tally).attempts + (if old(phase).Spawn? && !ans.stop then 1 else 0)
      ensures var spawned := old(phase).Spawn? && !ans.stop && ans.spawned;
              && kids.lost == old(kids).lost + (if spawned then Current(old(child)) else {})
              && Descends(old(child), child, spawned)
              && (Childless(old(phase)) && !child.ours && !Stopping(phase, thenRestart) ==>
                    Childless(phase) && child == old(child))
      ensures outcome.Exited? <==> !ans.stop && old(EndsWell())
      ensures outcome.RestartsExhausted? <==> !ans.stop && old(Fails(ans)) && old(Count(ans)) >= maxRestarts
      ensures phase.Backoff? && !old(phase).Backoff? ==> !ans.stop && old(Fails(ans)) && old(Count(ans)) < maxRestarts
      ensures phase.Spawn? ==>
                old(phase).Backoff? && !Told(ans) && ans.now >= Deadline(old(deadlines).armedAt, old(Wait()))
      ensures Told(ans) || Stopping(old(phase), old(thenRestart)) ==> Stopping(phase, thenRestart)
      ensures ans.stop || Stopping(old(phase), old(thenRestart)) ==>
                tally.attempts == old(tally).attempts && outcome.Stopped?
    {
      if ans.stop {
        thenRestart := false;
        phase := Kill;
      }
      Proceed(ans);
    }

    /** The clean-up every run ends with. */
    method CleanUp(killed: bool, waited: bool)
      requires Valid() && phase.Done?
      modifies `child, `kids, `failed
      ensures Valid() && kids == old(kids).(unreaped := kids.unreaped)
      ensures Current(child) == if killed && waited then {} else Current(old(child))
      ensures Current(child) != {} ==> failed
      ensures child == old(child).(reaped := child.reaped)
    {
      if child.pid > 0 && !child.reaped {
        if killed && waited {
          child := child.(reaped := true);
          kids := kids.(unreaped := kids.unreaped - {child.pid});
        } else {
          failed := true;
        }
      }
    }

    /** Where every run starts. */
    method Begin()
      requires Valid() && phase.Done?
      modifies this
      ensures Valid() && phase.Spawn? && !child.ours && child.pid == old(child).pid
      ensures kids == old(kids) && line == old(line) && Current(child) == Current(old(child))
      ensures tally == old(tally).(base := old(tally).failures, spawns := 0, resets := 0, allowed := 0)
      ensures outcome.Stopped? && !thenRestart
    {
      phase, thenRestart, outcome, failed := Spawn, false, Stopped, false;
      deadlines := Deadlines(0, 0, 0, 0);
      tally := tally.(base := tally.failures, spawns := 0, resets := 0, allowed := 0);
      child := child.(ours := false);
    }

    /** The passes of a run; `log` is the number of spawn attempts so far, before each pass and at the end. */
    method Loop(script: seq<Answers>) returns (log: seq<nat>)
      requires Valid() && phase.Spawn? && tally.spawns == 0 && !child.ours
      modifies this
      ensures Valid() && tally.base == old(tally).base && old(line).accepted <= line.accepted
      ensures 0 < |log| <= |script| + 1 && (|log| <= |script| ==> phase.Done?)
      ensures log[0] == old(tally).attempts && log[|log| - 1] == tally.attempts == log[0] + tally.spawns
      ensures kids.lost == old(kids).lost + if Spawned(log, script) then Current(old(child)) else {}
      ensures child.ours == Spawned(log, script) && (!child.ours ==> child.pid == old(child).pid)
      ensures Obeyed(log, script)
      ensures Halted(log, script) ==> outcome.Stopped?
    {
      log := [tally.attempts];
      while |log| <= |script| && !phase.Done?
        invariant 0 < |log| <= |script| + 1 && log[0] == old(tally).attempts && log[|log| - 1] == tally.attempts
        invariant Valid() && tally.base == old(tally).base && old(line).accepted <= line.accepted
        invariant tally.attempts == old(tally).attempts + tally.spawns
        invariant kids.lost == old(kids).lost + if child.ours then Current(old(child)) else {}
        invariant child.ours == Spawned(log, script) && (!child.ours ==> child.pid == old(child).pid)
        invariant child.ours || Stopping(phase, thenRestart) || (Childless(phase) && child == old(child))
        invariant Obeyed(log, script) && (Heard(log, script) ==> Stopping(phase, thenRestart))
        invariant Halted(log, script) ==> outcome.Stopped? && Heard(log, script)
      {
        Pass(script[|log| - 1]);
        ObeyedOn(log, script, tally.attempts);
        SpawnedOn(log, script, tally.attempts);
        HaltedOn(log, script, tally.attempts);
        log := log + [tally.attempts];
      }
    }

    /**
     `supervisor_run` over any script of answers; `log` counts the spawn attempts before each pass
     and at the end.

     There is never more than one child of this run to wait for, and one that an earlier run left
     is forgotten exactly if an attempt of this run produces another.  Attempts stay within the
     restart budget; exhaustion reported without a reset of the count means all of it was used.
     Nothing is spawned after a stop request; and the run leaves no child of its own behind unless
     the kernel refused to kill it or to report it.
     */
    method Run(script: seq<Answers>, killed: bool, waited: bool) returns (log: seq<nat>)
      requires Valid() && phase.Done?
      modifies this
      ensures Valid()
      ensures 0 < |log| <= |script| + 1 && (|log| <= |script| ==> phase.Done?)
      ensures log[0] == old(tally).attempts && log[|log| - 1] == tally.attempts
      // Children
      ensures kids.unreaped == kids.lost + Current(child)
      ensures kids.lost == old(kids).lost + if Spawned(log, script) then Current(old(child)) else {}
      ensures child.ours == Spawned(log, script) && (!child.ours ==> child.pid == old(child).pid)
      ensures phase.Done? && killed && waited ==> kids.unreaped == kids.lost
      ensures phase.Done? && kids.unreaped != kids.lost ==> failed
      // Restarts
      ensures tally.attempts <= old(tally).attempts + 1 + (tally.resets + 1) * maxRestarts
      ensures tally.resets == 0 ==> tally.attempts <= old(tally).attempts + 1 + maxRestarts - old(tally).failures
      ensures outcome.RestartsExhausted? ==> tally.failures == maxRestarts
      ensures outcome.RestartsExhausted? && tally.resets == 0 ==>
                tally.attempts == old(tally).attempts + 1 + maxRestarts - old(tally).failures
      // Stop requests
      ensures Obeyed(log, script)
      ensures Halted(log, script) ==> outcome.Stopped?
      // A clean exit
      ensures outcome.Exited? ==> child.ours && child.reaped && child.clean && child.taken && !child.killing
      ensures old(line).accepted <= line.accepted && Consecutive(line.accepted)
    {
      Begin();
      log := Loop(script);
      BudgetBound(tally, maxRestarts);
      if phase.Done? {
        CleanUp(killed, waited);
      }
    }
  }

  /**
   A child that a refused clean-up leaves behind is forgotten by the next run: two children then
   wait for a parent that knows only one of them.
   */
  method ForgottenChild(ans: Answers) returns (loop: SupervisorLoop)
    requires !ans.stop && ans.spawned && ans.spawnedAt == 0
    ensures fresh(loop) && loop.Valid() && loop.phase.Done?
    ensures loop.kids.lost == {1} && loop.kids.unreaped == {1, 2} && loop.child.pid == 2
  {
    loop := new SupervisorLoop(0, 0, 1, 0, 0, 0, 0);
    loop.Begin();
    loop.SpawnPhase(ans);
    loop.CleanUp(false, false);
    loop.Begin();
    loop.SpawnPhase(ans);
    loop.CleanUp(false, false);
  }
}
