/**
 A handle's `operation_in_use`, `shutdown_pending` and `shutdown_started` flags: how a shutdown
 waits for a loan, and when it is lost.

 Any number of threads share the handle.  Reads, publishes, waits and status calls hold the flag
 with a guard that only clears it; a loan keeps it until the slot is given back, and then services
 a pending shutdown.  A loan that fails services one too on a consumer handle but not on a producer
 handle.  There a loan fails, until the producer is offline, exactly when the channel's sequences
 are used up (`ChannelTheorems.LoanFailsOnlyAtTheEnd`).
 */
module Shutdown {
  import opened Words
  import Channel

  type Actor = nat

  datatype Service = LoadPending | TryUse | TryStart | MarkOffline | ClearUse

  datatype Pc =
    | Idle
    | Guarded
    | Seeking
    | Lent
    | Clearing(services: bool)
    | Ask
    | Serve(at: Service)

  /** What became of a service's attempt to take the flag. */
  datatype Attempt = Won | ByGuard | BySeeker | ByLoan | ByService

  /** `holder`, `slotHeld` and `attempts` are history; `offline` counts the OFFLINE stores. */
  datatype Flags = Flags(
    inUse: bool, pending: bool, started: bool, offline: nat,
    holder: Option<Actor>, slotHeld: bool, attempts: seq<Attempt>)

  /** `consumer` tells a consumer's handle from a producer's; `left` is the sequences a producer has left. */
  datatype State = State(consumer: bool, left: nat, flags: Flags, pcs: map<Actor, Pc>)

  function PcOf(s: State, a: Actor): Pc {
    if a in s.pcs then s.pcs[a] else Idle
  }

  /** A loan begun now ends by servicing: on a producer handle, because it finds a slot. */
  predicate LoanServes(s: State) {
    s.consumer || s.left > 0
  }

  /** How a refused service reads the holder of the flag. */
  function Refusal(pc: Pc, loanServes: bool): Attempt {
    match pc
    case Guarded => ByGuard
    case Clearing(services) => if services then ByLoan else ByGuard
    case Seeking => if loanServes then ByLoan else BySeeker
    case Serve(_) => ByService
    case _ => ByLoan
  }

  /** `publishes` and `commits` say that a publish or the commit of a loan uses up a sequence. */
  datatype Action =
    | BeginUse(a: Actor)
    | BeginLoan(a: Actor)
    | EndUse(a: Actor, publishes: bool)
    | Seek(a: Actor, found: bool)
    | GiveBack(a: Actor, commits: bool)
    | Clear(a: Actor)
    | BeginShutdown(a: Actor)
    | Step(a: Actor)

  predicate Enabled(s: State, act: Action) {
    match act
    case BeginUse(a) => PcOf(s, a).Idle?
    case BeginLoan(a) => PcOf(s, a).Idle?
    case EndUse(a, publishes) =>
      PcOf(s, a).Guarded? && (publishes ==> !s.consumer && s.left > 0 && s.flags.offline == 0)
    case Seek(a, found) => PcOf(s, a).Seeking? && (s.consumer || (found <==> s.flags.offline == 0 && s.left > 0))
    case GiveBack(a, commits) => PcOf(s, a).Lent? && (commits ==> !s.consumer && s.left > 0)
    case Clear(a) => PcOf(s, a).Clearing?
    case BeginShutdown(a) => PcOf(s, a).Idle?
    case Step(a) => PcOf(s, a).Ask? || PcOf(s, a).Serve?
  }

  /** `operation_in_use.exchange(true)`: the call is refused if it was set. */
  function Exchange(f: Flags, a: Actor, pc: Pc): (Flags, Pc) {
    if f.inUse then (f, Idle) else (f.(inUse := true, holder := Some(a)), pc)
  }

  /** What the log says of an attempt that finds the flag held. */
  function RefusedBy(s: State): Attempt {
    if s.flags.holder.Some? then Refusal(PcOf(s, s.flags.holder.value), LoanServes(s)) else ByService
  }

  /** `service_consumer_shutdown`, `service_producer_shutdown` */
  function ServeNext(s: State, a: Actor, at: Service): (Flags, Pc) {
    var f := s.flags;
    match at
    case LoadPending => (f, if f.pending then Serve(TryUse) else Idle)
    case TryUse =>
      if f.inUse then (f.(attempts := f.attempts + [RefusedBy(s)]), Idle)
      else (f.(inUse := true, holder := Some(a), attempts := f.attempts + [Won]), Serve(TryStart))
    case TryStart => if f.started then (f, Serve(ClearUse)) else (f.(started := true), Serve(MarkOffline))
    case MarkOffline => (f.(offline := f.offline + 1), Serve(ClearUse))
    case ClearUse => (f.(inUse := false, holder := None), Idle)
  }

  function After(s: State, act: Action): (Flags, Pc)
    requires Enabled(s, act)
  {
    var f := s.flags;
    match act
    case BeginUse(a) => Exchange(f, a, Guarded)
    case BeginLoan(a) => Exchange(f, a, Seeking)
    case EndUse(a, _) => (f, Clearing(false))
    case Seek(a, found) => if found then (f.(slotHeld := true), Lent) else (f, Clearing(s.consumer))
    case GiveBack(a, _) => (f.(slotHeld := false), Clearing(true))
    case Clear(a) => (f.(inUse := false, holder := None), if PcOf(s, a).services then Serve(LoadPending) else Idle)
    case BeginShutdown(a) => (f, Ask)
    case Step(a) =>
      if PcOf(s, a).Ask? then (f.(pending := true), Serve(LoadPending)) else ServeNext(s, a, PcOf(s, a).at)
  }

  /** The step stores a ticket. */
  predicate UsesSequence(act: Action) {
    (act.EndUse? && act.publishes) || (act.GiveBack? && act.commits)
  }

  function Next(s: State, act: Action): State
    requires Enabled(s, act)
  {
    var (f, pc) := After(s, act);
    State(s.consumer, if UsesSequence(act) then s.left - 1 else s.left, f, s.pcs[act.a := pc])
  }

  const CLEAN := Flags(false, false, false, 0, None, false, [])

  predicate Init(s: State) {
    s.left == Channel.MAX_SEQUENCE && s.flags == CLEAN && s.pcs == map[]
  }

  ghost predicate IsRun(run: seq<State>, acts: seq<Action>) {
    && |run| == |acts| + 1
    && Init(run[0])
    && (forall i | 0 <= i < |acts| :: Enabled(run[i], acts[i]) && run[i + 1] == Next(run[i], acts[i]))
  }

  // ----- The invariant -----

  /** Program points at which the thread owns the flag. */
  predicate Owns(pc: Pc) {
    || pc.Guarded? || pc.Seeking? || pc.Lent? || pc.Clearing?
    || (pc.Serve? && (pc.at.TryStart? || pc.at.MarkOffline? || pc.at.ClearUse?))
  }

  /** The thread will try to take the flag for a pending shutdown, or already has. */
  predicate WillServe(pc: Pc, loanServes: bool) {
    || (pc.Serve? && (pc.at.LoadPending? || pc.at.TryUse? || pc.at.TryStart?))
    || pc.Lent? || (pc.Clearing? && pc.services) || (pc.Seeking? && loanServes)
  }

  ghost predicate SomeoneWillServe(s: State) {
    exists a: Actor :: WillServe(PcOf(s, a), LoanServes(s))
  }

  /** The last attempt was refused by a holder that ends without servicing. */
  predicate LastWasted(s: State) {
    && s.flags.attempts != [] && Won !in s.flags.attempts
    && Deaf(s.flags.attempts[|s.flags.attempts| - 1])
  }

  /** Refused by a guard, or by a loan that will fail without servicing. */
  predicate Deaf(attempt: Attempt) {
    attempt == ByGuard || attempt == BySeeker
  }

  ghost predicate Owners(s: State) {
    && (s.flags.inUse <==> s.flags.holder.Some?)
    && (forall a: Actor :: Owns(PcOf(s, a)) <==> s.flags.holder == Some(a))
  }

  /** The flag's holder stands at `pc`. */
  predicate HeldAt(s: State, pc: Pc) {
    s.flags.holder.Some? && PcOf(s, s.flags.holder.value) == pc
  }

  ghost predicate Inv(s: State) {
    && Owners(s)
    && s.flags.slotHeld == (s.flags.holder.Some? && PcOf(s, s.flags.holder.value).Lent?)
    && s.flags.offline == (if s.flags.started && !HeldAt(s, Serve(MarkOffline)) then 1 else 0)
    && (s.flags.started ==> s.flags.pending && Won in s.flags.attempts)
    && (s.flags.holder.Some? && PcOf(s, s.flags.holder.value).Serve? ==>
          Won in s.flags.attempts && (s.flags.started || PcOf(s, s.flags.holder.value).at.TryStart?))
    && (Won in s.flags.attempts && !s.flags.started ==> HeldAt(s, Serve(TryStart)))
    && (forall a: Actor :: PcOf(s, a).Serve? && !PcOf(s, a).at.LoadPending? ==> s.flags.pending)
    && (s.flags.pending && !s.flags.started ==> SomeoneWillServe(s) || LastWasted(s))
  }

  /** A step of `a` moves only `a`. */
  lemma OthersStay(s: State, act: Action, b: Actor)
    requires Enabled(s, act) && b != act.a
    ensures PcOf(Next(s, act), b) == PcOf(s, b)
  {
  }

  /** Only the flag's holder uses up a sequence, and it is past looking for a slot. */
  lemma SeekersStay(s: State, act: Action, a: Actor)
    requires Owners(s) && Enabled(s, act) && PcOf(s, a).Seeking? && a != act.a
    ensures LoanServes(Next(s, act)) == LoanServes(s)
  {
    assert s.flags.holder == Some(a);
    assert Owns(PcOf(s, act.a)) ==> s.flags.holder == Some(act.a);
  }

  /** Nobody who would have served has stopped short. */
  lemma ServersStay(s: State, act: Action)
    requires Owners(s) && Enabled(s, act) && SomeoneWillServe(s)
    ensures || SomeoneWillServe(Next(s, act))
            || (&& WillServe(PcOf(s, act.a), LoanServes(s))
                && !WillServe(PcOf(Next(s, act), act.a), LoanServes(Next(s, act))))
  {
    var s1 := Next(s, act);
    var a: Actor :| WillServe(PcOf(s, a), LoanServes(s));
    if a != act.a {
      OthersStay(s, act, a);
      if PcOf(s, a).Seeking? {
        SeekersStay(s, act, a);
      }
      assert WillServe(PcOf(s1, a), LoanServes(s1));
    } else if WillServe(PcOf(s1, a), LoanServes(s1)) {
      assert SomeoneWillServe(s1);
    }
  }

  lemma UseKeeps(s: State, act: Action)
    requires Inv(s) && Enabled(s, act) && !act.Step? && !act.Clear?
    ensures Inv(Next(s, act))
  {
    var s1 := Next(s, act);
    forall b: Actor | b != act.a ensures PcOf(s1, b) == PcOf(s, b) {
      OthersStay(s, act, b);
    }
    if s.flags.pending && !s.flags.started && SomeoneWillServe(s) {
      ServersStay(s, act);
    }
  }

  lemma ClearKeeps(s: State, act: Action)
    requires Inv(s) && Enabled(s, act) && act.Clear?
    ensures Inv(Next(s, act))
  {
    var s1 := Next(s, act);
    forall b: Actor | b != act.a ensures PcOf(s1, b) == PcOf(s, b) {
      OthersStay(s, act, b);
    }
    if s.flags.pending && !s.flags.started && SomeoneWillServe(s) {
      ServersStay(s, act);
    }
  }

  lemma AskKeeps(s: State, act: Action)
    requires Inv(s) && Enabled(s, act) && act.Step? && PcOf(s, act.a).Ask?
    ensures Inv(Next(s, act))
  {
    var s1 := Next(s, act);
    forall b: Actor | b != act.a ensures PcOf(s1, b) == PcOf(s, b) {
      OthersStay(s, act, b);
    }
    assert WillServe(PcOf(s1, act.a), LoanServes(s1));
  }

  /** A refusal leaves a server behind, or is wasted on a holder that will not serve. */
  lemma RefusedKeeps(s: State, act: Action)
    requires Inv(s) && Enabled(s, act) && act.Step? && PcOf(s, act.a) == Serve(TryUse) && s.flags.inUse
    ensures Inv(Next(s, act))
  {
    var s1 := Next(s, act);
    var h := s.flags.holder.value;
    forall b: Actor | b != act.a ensures PcOf(s1, b) == PcOf(s, b) {
      OthersStay(s, act, b);
    }
    assert Owns(PcOf(s, h)) && h != act.a;
    assert PcOf(s1, h) == PcOf(s, h);
    assert s1.flags.attempts[|s1.flags.attempts| - 1] == Refusal(PcOf(s, h), LoanServes(s));
    if WillServe(PcOf(s, h), LoanServes(s)) {
      assert WillServe(PcOf(s1, h), LoanServes(s1));
    }
  }

  lemma ServeKeeps(s: State, act: Action)
    requires Inv(s) && Enabled(s, act) && act.Step? && PcOf(s, act.a).Serve?
    requires !(PcOf(s, act.a).at.TryUse? && s.flags.inUse)
    ensures Inv(Next(s, act))
  {
    var s1 := Next(s, act);
    forall b: Actor | b != act.a ensures PcOf(s1, b) == PcOf(s, b) {
      OthersStay(s, act, b);
    }
    if s.flags.pending && !s.flags.started && SomeoneWillServe(s) {
      ServersStay(s, act);
    }
    if PcOf(s, act.a).at.TryUse? {
      assert s1.flags.attempts[|s1.flags.attempts| - 1] == Won;
      assert WillServe(PcOf(s1, act.a), LoanServes(s1));
    }
  }

  lemma NextKeeps(s: State, act: Action)
    requires Inv(s) && Enabled(s, act)
    ensures Inv(Next(s, act))
  {
    match act
    case Clear(_) => ClearKeeps(s, act);
    case Step(a) =>
      if PcOf(s, a).Ask? {
        AskKeeps(s, act);
      } else if PcOf(s, a).at.TryUse? && s.flags.inUse {
        RefusedKeeps(s, act);
      } else {
        ServeKeeps(s, act);
      }
    case _ => UseKeeps(s, act);
  }

  lemma {:induction false} RunInv(run: seq<State>, acts: seq<Action>, i: nat)
    requires IsRun(run, acts) && i < |run|
    ensures Inv(run[i])
    decreases i
  {
    if i > 0 {
      RunInv(run, acts, i - 1);
      NextKeeps(run[i - 1], acts[i - 1]);
    }
  }

  // ----- Theorems -----

  ghost predicate Quiet(s: State) {
    forall a: Actor :: PcOf(s, a).Idle?
  }

  /** OFFLINE is stored at most once, and never while a slot is lent. */
  lemma OfflineOnceAndAfterRelease(run: seq<State>, acts: seq<Action>, i: nat)
    requires IsRun(run, acts) && i < |run|
    ensures run[i].flags.offline <= 1
    ensures i < |acts| && run[i + 1].flags.offline > run[i].flags.offline ==>
              !run[i].flags.slotHeld && run[i].flags.pending
  {
    RunInv(run, acts, i);
    if i < |acts| && run[i + 1].flags.offline > run[i].flags.offline {
      assert PcOf(run[i], acts[i].a) == Serve(MarkOffline);
    }
  }

  /** Step `k` of the run is a service's attempt to take the flag. */
  predicate Tries(run: seq<State>, acts: seq<Action>, k: nat) {
    k < |acts| && k < |run| && acts[k].Step? && PcOf(run[k], acts[k].a) == Serve(TryUse)
  }

  /** No other attempt lies between `k` and `i`. */
  ghost predicate LastTry(run: seq<State>, acts: seq<Action>, i: nat, k: nat) {
    k < i && Tries(run, acts, k) && (forall j | k < j < i :: !Tries(run, acts, j))
  }

  /** A call that ends without looking for a pending shutdown. */
  predicate DeafAt(pc: Pc, loanServes: bool) {
    pc.Guarded? || pc == Clearing(false) || (pc.Seeking? && !loanServes)
  }

  predicate HeldByDeaf(s: State) {
    s.flags.holder.Some? && DeafAt(PcOf(s, s.flags.holder.value), LoanServes(s))
  }

  ghost predicate AllRefused(run: seq<State>, acts: seq<Action>, i: nat)
    requires i < |run|
  {
    forall k | 0 <= k < i && Tries(run, acts, k) :: run[k].flags.inUse
  }

  ghost predicate LastRefusedByDeaf(run: seq<State>, acts: seq<Action>, i: nat)
    requires i < |run|
  {
    exists k: nat :: LastTry(run, acts, i, k) && HeldByDeaf(run[k])
  }

  /** An attempt, and nothing else, adds an entry: `Won` if the flag was free, deaf if its holder was. */
  lemma StepLogs(s: State, act: Action)
    requires Inv(s) && Enabled(s, act)
    ensures var log, log1 := s.flags.attempts, Next(s, act).flags.attempts;
            if act.Step? && PcOf(s, act.a) == Serve(TryUse) then
              && |log1| == |log| + 1 && log1[..|log|] == log
              && (log1[|log|] == Won <==> !s.flags.inUse)
              && (Deaf(log1[|log|]) <==> HeldByDeaf(s))
            else log1 == log
  {
  }

  lemma {:induction false} WonIsLogged(run: seq<State>, acts: seq<Action>, i: nat)
    requires IsRun(run, acts) && i < |run|
    ensures Won !in run[i].flags.attempts <==> AllRefused(run, acts, i)
    decreases i
  {
    if i > 0 {
      WonIsLogged(run, acts, i - 1);
      RunInv(run, acts, i - 1);
      StepLogs(run[i - 1], acts[i - 1]);
      var log, log1 := run[i - 1].flags.attempts, run[i].flags.attempts;
      if Tries(run, acts, i - 1) {
        assert log1 == log + [log1[|log|]];
      }
    }
  }

  ghost predicate LogEndsDeaf(s: State) {
    s.flags.attempts != [] && Deaf(s.flags.attempts[|s.flags.attempts| - 1])
  }

  lemma {:induction false} LastIsLogged(run: seq<State>, acts: seq<Action>, i: nat)
    requires IsRun(run, acts) && i < |run|
    ensures LogEndsDeaf(run[i]) <==> LastRefusedByDeaf(run, acts, i)
    decreases i
  {
    if i > 0 {
      LastIsLogged(run, acts, i - 1);
      RunInv(run, acts, i - 1);
      StepLogs(run[i - 1], acts[i - 1]);
      if Tries(run, acts, i - 1) {
        NewLastTry(run, acts, i);
      } else {
        assert LogEndsDeaf(run[i]) == LogEndsDeaf(run[i - 1]);
        SameLastTry(run, acts, i);
      }
    }
  }

  lemma NewLastTry(run: seq<State>, acts: seq<Action>, i: nat)
    requires 0 < i < |run| && Tries(run, acts, i - 1)
    ensures LastRefusedByDeaf(run, acts, i) <==> HeldByDeaf(run[i - 1])
  {
    assert LastTry(run, acts, i, i - 1);
    assert forall k: nat :: LastTry(run, acts, i, k) ==> k == i - 1;
  }

  lemma SameLastTry(run: seq<State>, acts: seq<Action>, i: nat)
    requires 0 < i < |run| && !Tries(run, acts, i - 1)
    ensures LastRefusedByDeaf(run, acts, i) <==> LastRefusedByDeaf(run, acts, i - 1)
  {
    forall k: nat ensures LastTry(run, acts, i, k) <==> LastTry(run, acts, i - 1, k) {
    }
  }

  /**
   Once all is quiet a requested shutdown has been carried out, except when every attempt found
   the flag held, the last of them by a call that ends without servicing shutdowns.
   */
  lemma ShutdownLostExactlyWhen(run: seq<State>, acts: seq<Action>, i: nat)
    requires IsRun(run, acts) && i < |run| && run[i].flags.pending && Quiet(run[i])
    ensures run[i].flags.offline == 0 <==> AllRefused(run, acts, i) && LastRefusedByDeaf(run, acts, i)
    ensures run[i].flags.offline == 1 <==> !AllRefused(run, acts, i)
  {
    RunInv(run, acts, i);
    WonIsLogged(run, acts, i);
    LastIsLogged(run, acts, i);
  }

  // ----- Use that never loses a shutdown -----

  /** A loan, with a sequence left for it on a producer handle, or a step of one already begun. */
  predicate Careful(s: State, act: Action) {
    !act.BeginUse? && (act.BeginLoan? && !s.flags.inUse ==> LoanServes(s))
  }

  /** No call under way is deaf, and a pending shutdown has its server. */
  ghost predicate Served(s: State) {
    !s.flags.started ==>
      && (forall a: Actor :: !DeafAt(PcOf(s, a), LoanServes(s)))
      && (s.flags.pending ==> SomeoneWillServe(s))
  }

  lemma NoneDeaf(s: State, act: Action, b: Actor)
    requires Inv(s) && Enabled(s, act) && Served(s) && Careful(s, act) && !s.flags.started
    ensures !DeafAt(PcOf(Next(s, act), b), LoanServes(Next(s, act)))
  {
    assert !DeafAt(PcOf(s, b), LoanServes(s)) && !DeafAt(PcOf(s, act.a), LoanServes(s));
    if b != act.a {
      OthersStay(s, act, b);
      if PcOf(s, b).Seeking? {
        SeekersStay(s, act, b);
      }
    }
  }

  lemma CarefulKeeps(s: State, act: Action)
    requires Inv(s) && Enabled(s, act) && Served(s) && Careful(s, act)
    ensures Served(Next(s, act))
  {
    var s1 := Next(s, act);
    if !s1.flags.started {
      forall b: Actor ensures !DeafAt(PcOf(s1, b), LoanServes(s1)) {
        NoneDeaf(s, act, b);
      }
      if s.flags.pending {
        ServersStay(s, act);
      }
      if act.Step? && PcOf(s, act.a) == Serve(TryUse) && s.flags.inUse {
        var h := s.flags.holder.value;
        assert Owns(PcOf(s, h)) && h != act.a && !DeafAt(PcOf(s, h), LoanServes(s));
        OthersStay(s, act, h);
        assert WillServe(PcOf(s1, h), LoanServes(s1));
      } else if act.Step? && PcOf(s, act.a).Ask? {
        assert WillServe(PcOf(s1, act.a), LoanServes(s1));
      }
    }
  }

  lemma {:induction false} CarefulRun(run: seq<State>, acts: seq<Action>, k: nat, i: nat)
    requires IsRun(run, acts) && k <= i < |run| && Served(run[k])
    requires forall j | k <= j < i :: Careful(run[j], acts[j])
    ensures Served(run[i])
    decreases i
  {
    if k < i {
      CarefulRun(run, acts, k, i - 1);
      RunInv(run, acts, i - 1);
      CarefulKeeps(run[i - 1], acts[i - 1]);
    }
  }

  /**
   On a handle used for loans alone, and on a producer handle for no loan once the sequences are
   used up, no shutdown is ever lost.
   */
  lemma NoGuardNoLoss(run: seq<State>, acts: seq<Action>, i: nat)
    requires IsRun(run, acts) && i < |run| && run[i].flags.pending && Quiet(run[i])
    requires forall k | 0 <= k < i :: Careful(run[k], acts[k])
    ensures run[i].flags.offline == 1
  {
    RunInv(run, acts, i);
    CarefulRun(run, acts, 0, i);
  }

  /** Inside a call, from taking the flag to clearing it; a loan given to its caller is not. */
  predicate InCall(pc: Pc) {
    pc.Guarded? || pc.Seeking? || pc == Clearing(false)
  }

  lemma AskServes(s: State, act: Action)
    requires Inv(s) && Enabled(s, act) && act.Step? && PcOf(s, act.a).Ask?
    requires forall a: Actor :: !InCall(PcOf(s, a))
    ensures Served(Next(s, act))
  {
    var s1 := Next(s, act);
    forall b: Actor ensures !DeafAt(PcOf(s1, b), LoanServes(s1)) {
      assert !InCall(PcOf(s, b));
      if b != act.a {
        OthersStay(s, act, b);
      }
    }
    assert WillServe(PcOf(s1, act.a), LoanServes(s1));
  }

  /**
   A handle shut down as its destructor may be, with no call under way and none to come: whatever
   loans are still out, the shutdown is carried out once they are given back.
   */
  lemma OrderlyShutdown(run: seq<State>, acts: seq<Action>, k: nat, i: nat)
    requires IsRun(run, acts) && k < i < |run| && Quiet(run[i])
    requires acts[k].Step? && PcOf(run[k], acts[k].a).Ask?
    requires forall a: Actor :: !InCall(PcOf(run[k], a))
    requires forall j | k < j < i :: !acts[j].BeginUse? && !acts[j].BeginLoan?
    ensures run[i].flags.offline == 1
  {
    RunInv(run, acts, k);
    AskServes(run[k], acts[k]);
    CarefulRun(run, acts, k + 1, i);
    PendingStays(run, acts, k + 1, i);
    RunInv(run, acts, i);
  }

  lemma {:induction false} PendingStays(run: seq<State>, acts: seq<Action>, k: nat, i: nat)
    requires IsRun(run, acts) && k <= i < |run| && run[k].flags.pending
    ensures run[i].flags.pending
    decreases i
  {
    if k < i {
      PendingStays(run, acts, k, i - 1);
    }
  }

  // ----- Shutdowns that are lost -----

  /** The steps `acts` lead from the beginning to `s`. */
  ghost predicate ReachedBy(s: State, acts: seq<Action>) {
    exists run: seq<State> :: IsRun(run, acts) && run[|acts|] == s
  }

  lemma ReachedNext(s: State, acts: seq<Action>, act: Action, s1: State)
    requires ReachedBy(s, acts) && Enabled(s, act) && s1 == Next(s, act)
    ensures ReachedBy(s1, acts + [act])
  {
    var run: seq<State> :| IsRun(run, acts) && run[|acts|] == s;
    assert IsRun(run + [s1], acts + [act]);
    assert (run + [s1])[|run|] == s1;
  }

  /** Asked for, quiet, and nobody has gone offline. */
  ghost predicate Lost(s: State) {
    Quiet(s) && s.flags.pending && s.flags.offline == 0
  }

  /** Nothing has happened on the handle but finished calls of thread 0. */
  predicate Unused(s: State) {
    s.flags == CLEAN && (s.pcs == map[] || s.pcs == map[0 := Idle])
  }

  /** A read or a loan is under way and another thread asks for a shutdown. */
  lemma ShutdownTries(s: State, acts: seq<Action>, call: Pc) returns (more: seq<Action>)
    requires ReachedBy(s, acts) && Unused(s) && (call.Guarded? || call.Seeking?)
    ensures more == acts + [if call.Guarded? then BeginUse(0) else BeginLoan(0)]
                    + [BeginShutdown(1)] + [Step(1)] + [Step(1)]
    ensures ReachedBy(s.(flags := CLEAN.(inUse := true, holder := Some(0), pending := true),
                         pcs := map[0 := call, 1 := Serve(TryUse)]), more)
  {
    var begin := if call.Guarded? then BeginUse(0) else BeginLoan(0);
    var used := CLEAN.(inUse := true, holder := Some(0));
    var s1 := s.(flags := used, pcs := map[0 := call]);
    assert s.pcs[0 := call] == map[0 := call];
    var s2 := s1.(pcs := map[0 := call, 1 := Ask]);
    var s3 := s1.(flags := used.(pending := true), pcs := map[0 := call, 1 := Serve(LoadPending)]);
    ReachedNext(s, acts, begin, s1);
    ReachedNext(s1, acts + [begin], BeginShutdown(1), s2);
    ReachedNext(s2, acts + [begin] + [BeginShutdown(1)], Step(1), s3);
    more := acts + [begin] + [BeginShutdown(1)] + [Step(1)] + [Step(1)];
    ReachedNext(s3, acts + [begin] + [BeginShutdown(1)] + [Step(1)], Step(1),
                s3.(pcs := map[0 := call, 1 := Serve(TryUse)]));
  }

  /** It is refused, the call ends deaf, and the shutdown is lost. */
  lemma DeafCallLoses(s: State, acts: seq<Action>, call: Pc) returns (more: seq<Action>, s1: State)
    requires ReachedBy(s, acts) && Unused(s) && (call.Guarded? || call.Seeking?) && DeafAt(call, LoanServes(s))
    ensures more == acts + [if call.Guarded? then BeginUse(0) else BeginLoan(0)]
                    + [BeginShutdown(1)] + [Step(1)] + [Step(1)] + [Step(1)]
                    + [if call.Guarded? then EndUse(0, false) else Seek(0, false)] + [Clear(0)]
    ensures ReachedBy(s1, more) && Lost(s1) && s1.consumer == s.consumer
  {
    var tried := ShutdownTries(s, acts, call);
    var asked := CLEAN.(inUse := true, holder := Some(0), pending := true);
    var end := if call.Guarded? then EndUse(0, false) else Seek(0, false);
    var s4 := s.(flags := asked, pcs := map[0 := call, 1 := Serve(TryUse)]);
    var refused := asked.(attempts := [Refusal(call, LoanServes(s))]);
    assert s4.flags.attempts + [Refusal(call, LoanServes(s))] == [Refusal(call, LoanServes(s))];
    var s5 := s.(flags := refused, pcs := map[0 := call, 1 := Idle]);
    var s6 := s.(flags := refused, pcs := map[0 := Clearing(false), 1 := Idle]);
    s1 := s.(flags := refused.(inUse := false, holder := None), pcs := map[0 := Idle, 1 := Idle]);
    ReachedNext(s4, tried, Step(1), s5);
    ReachedNext(s5, tried + [Step(1)], end, s6);
    ReachedNext(s6, tried + [Step(1)] + [end], Clear(0), s1);
    more := tried + [Step(1)] + [end] + [Clear(0)];
  }

  function NewHandle(consumer: bool): State {
    State(consumer, Channel.MAX_SEQUENCE, CLEAN, map[])
  }

  /** On either handle a read loses the shutdown, in a run without a loan. */
  lemma ReadLosesShutdown(consumer: bool)
    ensures exists s: State, acts: seq<Action> ::
              && s.consumer == consumer && ReachedBy(s, acts) && Lost(s)
              && (forall k | 0 <= k < |acts| :: !acts[k].BeginLoan?)
  {
    var s := NewHandle(consumer);
    assert IsRun([s], []);
    var acts, s1 := DeafCallLoses(s, [], Guarded);
  }

  /** The producer has committed `n` loans and rests. */
  function Spent(n: nat): State
    requires n <= Channel.MAX_SEQUENCE
  {
    State(false, Channel.MAX_SEQUENCE - n, CLEAN, if n == 0 then map[] else map[0 := Idle])
  }

  predicate NoGuards(acts: seq<Action>) {
    forall k | 0 <= k < |acts| :: !acts[k].BeginUse?
  }

  /** One more loan, found and committed. */
  lemma LoanCommits(n: nat, acts: seq<Action>) returns (more: seq<Action>)
    requires n < Channel.MAX_SEQUENCE && ReachedBy(Spent(n), acts) && NoGuards(acts)
    ensures NoGuards(more)
    ensures ReachedBy(Spent(n + 1).(flags := CLEAN.(inUse := true, holder := Some(0)), pcs := map[0 := Clearing(true)]),
                      more)
  {
    var s := Spent(n);
    var used := CLEAN.(inUse := true, holder := Some(0));
    assert s.pcs[0 := Seeking] == map[0 := Seeking];
    var s1 := s.(flags := used, pcs := map[0 := Seeking]);
    var s2 := s.(flags := used.(slotHeld := true), pcs := map[0 := Lent]);
    ReachedNext(s, acts, BeginLoan(0), s1);
    ReachedNext(s1, acts + [BeginLoan(0)], Seek(0, true), s2);
    more := acts + [BeginLoan(0)] + [Seek(0, true)] + [GiveBack(0, true)];
    ReachedNext(s2, acts + [BeginLoan(0)] + [Seek(0, true)], GiveBack(0, true),
                Spent(n + 1).(flags := used, pcs := map[0 := Clearing(true)]));
  }

  /** And out of the way again. */
  lemma OneLoan(n: nat, acts: seq<Action>) returns (more: seq<Action>)
    requires n < Channel.MAX_SEQUENCE && ReachedBy(Spent(n), acts) && NoGuards(acts)
    ensures ReachedBy(Spent(n + 1), more) && NoGuards(more)
  {
    var committed := LoanCommits(n, acts);
    var s := Spent(n + 1);
    var s1 := s.(flags := CLEAN.(inUse := true, holder := Some(0)), pcs := map[0 := Clearing(true)]);
    var s2 := s.(pcs := map[0 := Serve(LoadPending)]);
    ReachedNext(s1, committed, Clear(0), s2);
    ReachedNext(s2, committed + [Clear(0)], Step(0), s);
    more := committed + [Clear(0)] + [Step(0)];
  }

  lemma {:induction false} ManyLoans(n: nat) returns (acts: seq<Action>)
    requires n <= Channel.MAX_SEQUENCE
    ensures ReachedBy(Spent(n), acts) && NoGuards(acts)
    decreases n
  {
    if n == 0 {
      acts := [];
      assert IsRun([Spent(0)], []);
    } else {
      var before := ManyLoans(n - 1);
      acts := OneLoan(n - 1, before);
    }
  }

  /**
   On a producer handle a loan can lose it too, in a run of loans alone: the last one comes after
   every sequence is used up, fails, and does not look for the shutdown that found it in the way.
   */
  lemma FailedLoanLosesShutdown()
    ensures exists s: State, acts: seq<Action> ::
              && !s.consumer && ReachedBy(s, acts) && Lost(s)
              && NoGuards(acts) && Seek(0, false) in acts
  {
    var before := ManyLoans(Channel.MAX_SEQUENCE);
    var acts, s := DeafCallLoses(Spent(Channel.MAX_SEQUENCE), before, Seeking);
    assert acts[|before| + 5] == Seek(0, false);
  }
}
