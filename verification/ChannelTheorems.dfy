/** What the latest-value channel promises over every run. */
module ChannelTheorems {
  import opened Words
  import opened Channel
  import opened ChannelInvariant
  import opened ChannelSteps

  // ----- Publishing -----

  /** Three slots are enough: no publish and no loan ever finds all of them busy. */
  lemma ThreeSlotsSuffice(run: seq<State>, acts: seq<Action>, i: nat)
    requires IsRun(run, acts) && i < |run|
    ensures run[i].prod != Sent(NoWritableSlot)
  {
    RunInv(run, acts, i);
  }

  /** The producer is looking for a slot to lend. */
  predicate Borrows(p: Producer) {
    (p.LoadLatest? || p.Search? || p.Seize?) && p.kind.Lent?
  }

  /** A loan by the instance's owner fails exactly when the channel has no sequence left for it. */
  lemma LoanFailsOnlyAtTheEnd(run: seq<State>, acts: seq<Action>, i: nat)
    requires IsRun(run, acts) && i < |acts| && Borrows(run[i].prod) && acts[i] == Producing(Write1)
    ensures Borrows(run[i + 1].prod) || run[i + 1].prod.Loan? || run[i + 1].prod == Sent(SequenceExhausted)
    ensures run[i + 1].prod.Sent? <==> run[i].prod.LoadLatest? && |run[i].samples| == MAX_SEQUENCE
  {
    RunInv(run, acts, i);
    RunInv(run, acts, i + 1);
  }

  /** The slot the ticket names is never free and never being written; it holds the newest sample. */
  lemma CurrentSlotIsWhole(run: seq<State>, acts: seq<Action>, i: nat)
    requires IsRun(run, acts) && i < |run| && run[i].latest != NO_TICKET
    ensures var s := run[i];
            && s.latest.slot < |s.slots| && s.latest.seqno == |s.samples| > 0
            && var slot := s.slots[s.latest.slot];
               && slot.state != Writing && slot.state != Free
               && Sample(slot.data, slot.boot) == s.samples[|s.samples| - 1]
  {
    RunInv(run, acts, i);
  }

  /** The step that stores a ticket. */
  predicate Tickets(s: State, act: Action) {
    act == Producing(Write1) && s.prod.Write? && s.prod.at.StoreTicket?
  }

  /** A publish makes current exactly the message it was given, under the next sequence. */
  lemma PublishStoresMessage(run: seq<State>, acts: seq<Action>, i: nat)
    requires IsRun(run, acts) && i < |acts| && Tickets(run[i], acts[i]) && run[i].prod.kind.Whole?
    ensures run[i + 1].samples == run[i].samples + [run[i].prod.kind.sample]
    ensures run[i + 1].prod == Sent(SentOk(|run[i + 1].samples|))
    ensures run[i + 1].latest == Ticket(|run[i + 1].samples|, run[i].prod.i)
  {
    RunInv(run, acts, i);
  }

  /** From the start of a commit to its ticket store, nobody changes the lent bytes. */
  lemma CommitKeepsBytes(s: State, act: Action)
    requires Inv(s) && Enabled(s, act) && s.prod.Write? && s.prod.kind.Lent?
    ensures s.prod.i < |s.slots| && |Next(s, act).slots| == |s.slots|
    ensures Next(s, act).slots[s.prod.i].data == s.slots[s.prod.i].data
  {
  }

  lemma StepGrowsSamples(s: State, act: Action)
    requires Enabled(s, act)
    ensures Tickets(s, act) ==>
              && s.prod.i < |s.slots|
              && Next(s, act).samples == s.samples + [Sample(s.slots[s.prod.i].data, s.slots[s.prod.i].boot)]
    ensures !Tickets(s, act) ==> Next(s, act).samples == s.samples
  {
  }

  lemma {:induction false} SamplesGrow(run: seq<State>, acts: seq<Action>, i: nat, n: nat)
    requires IsRun(run, acts) && i <= n < |run|
    ensures run[i].samples <= run[n].samples
    decreases n
  {
    if i < n {
      SamplesGrow(run, acts, i, n - 1);
      StepGrowsSamples(run[n - 1], acts[n - 1]);
    }
  }

  /** Every sample was made current by one ticket store of the run. */
  lemma {:induction false} SampleHasTicket(run: seq<State>, acts: seq<Action>, n: nat, q: nat)
    requires IsRun(run, acts) && n < |run| && 0 < q <= |run[n].samples|
    ensures exists j: nat :: j < n && Tickets(run[j], acts[j]) && run[j].prod.next == q
                             && |run[j + 1].samples| == q && run[j + 1].samples[q - 1] == run[n].samples[q - 1]
    decreases n
  {
    StepGrowsSamples(run[n - 1], acts[n - 1]);
    if q <= |run[n - 1].samples| {
      SampleHasTicket(run, acts, n - 1, q);
    } else {
      TicketIsNext(run, acts, n - 1);
    }
  }

  lemma TicketIsNext(run: seq<State>, acts: seq<Action>, i: nat)
    requires IsRun(run, acts) && i < |acts| && Tickets(run[i], acts[i])
    ensures run[i].prod.next == |run[i].samples| + 1
  {
    RunInv(run, acts, i);
  }

  // ----- Reading -----

  /** A claim that passes its second look holds the sample the ticket names at that instant. */
  lemma RecheckNamesLatest(run: seq<State>, acts: seq<Action>, i: nat)
    requires IsRun(run, acts) && i < |acts| && acts[i].Consuming?
    requires run[i].cons.Claim? && run[i + 1].cons.Check?
    ensures var s, c := run[i], run[i + 1].cons;
            && s.latest == Ticket(c.q, c.i) && 0 < c.q == |s.samples| && c.i < |s.slots| && c.call.base <= c.q
            && Sample(s.slots[c.i].data, s.slots[c.i].boot) == s.samples[c.q - 1]
  {
    RunInv(run, acts, i);
    RunInv(run, acts, i + 1);
  }

  /** A read returns, whole, the sample published under the sequence it reports. */
  lemma ReadReturnsPublished(run: seq<State>, acts: seq<Action>, i: nat)
    requires IsRun(run, acts) && i < |run| && run[i].cons.Read? && run[i].cons.got.Got?
    ensures var got := run[i].cons.got;
            exists j: nat :: j < i && Tickets(run[j], acts[j]) && run[j].prod.next == got.seqno
                             && |run[j + 1].samples| == got.seqno && run[j + 1].samples[got.seqno - 1] == got.sample
  {
    RunInv(run, acts, i);
    SampleHasTicket(run, acts, i, run[i].cons.got.seqno);
  }

  /** A lent slot holds its sample, whole, for as long as it is lent. */
  lemma LoanShowsPublished(run: seq<State>, acts: seq<Action>, i: nat)
    requires IsRun(run, acts) && i < |run| && run[i].cons.Lending?
    ensures var s, c := run[i], run[i].cons;
            && c.i < |s.slots| && 0 < c.q <= |s.samples|
            && Sample(s.slots[c.i].data, s.slots[c.i].boot) == s.samples[c.q - 1]
  {
    RunInv(run, acts, i);
  }

  /** No producer step touches a slot a consumer holds. */
  lemma HeldSlotUntouched(s: State, p: ProducerAct, i: nat)
    requires Inv(s) && ProducerEnabled(s, p) && i < |s.slots| && Held(s.slots[i].state)
    ensures |Produce(s, p).slots| == |s.slots| && Produce(s, p).slots[i] == s.slots[i]
  {
    if p.Write1? {
      WriteMissesHeld(s, i);
    }
  }

  lemma WriteMissesHeld(s: State, i: nat)
    requires Inv(s) && ProducerRuns(s) && i < |s.slots| && Held(s.slots[i].state)
    ensures |ProducerNext(s).slots| == |s.slots| && ProducerNext(s).slots[i] == s.slots[i]
  {
    match s.prod
    case Undo(_) =>
    case Write(_, _, _, _, at) =>
    case Seize(_, _, _, _, _) =>
    case _ =>
  }

  /** Reads never report corruption. */
  lemma NoCorruption(run: seq<State>, acts: seq<Action>, i: nat)
    requires IsRun(run, acts) && i < |run| && run[i].cons.Read? && run[i].cons.got.GotNothing?
    ensures run[i].cons.got.why != PayloadCorrupt && run[i].cons.got.why != CorruptSlot
  {
    RunInv(run, acts, i);
  }

  // ----- Contention -----

  /** The consumer is in the retry loop of a call. */
  predicate InRetry(c: Consumer) {
    c.Claim? || (c.Release? && c.after.Retry?)
  }

  function CallOf(c: Consumer): Call
    requires InRetry(c)
  {
    if c.Claim? then c.call else c.after.call
  }

  predicate GaveUp(c: Consumer) {
    c.Read? && c.got.GotNothing? && c.got.why.ReadContention?
  }

  lemma CallBegins(s: State, act: Action)
    requires Enabled(s, act) && act.Consuming? && act.c.BeginRead?
    ensures InRetry(Next(s, act).cons) && CallOf(Next(s, act).cons).base == |s.samples|
  {
  }

  lemma RetryStep(s: State, act: Action)
    requires Enabled(s, act) && InRetry(s.cons)
    ensures var c := Next(s, act).cons;
            && (InRetry(c) ==> CallOf(c) == CallOf(s.cons))
            && (GaveUp(c) ==> c.got.why.base == CallOf(s.cons).base)
  {
  }

  lemma GaveUpLate(s: State)
    requires Inv(s) && GaveUp(s.cons)
    ensures |s.samples| >= s.cons.got.why.base + MAX_ATTEMPTS
  {
  }

  /** Between `lo` and `hi` the consumer is in the retry loop of one call. */
  ghost predicate OneCall(run: seq<State>, acts: seq<Action>, lo: nat, hi: nat) {
    && IsRun(run, acts) && lo + 1 < hi < |run|
    && acts[lo].Consuming? && acts[lo].c.BeginRead?
    && (forall k | lo < k < hi :: InRetry(run[k].cons))
  }

  /** Each instant from `lo` on is in the same call as the one before it. */
  ghost predicate SameCalls(run: seq<State>, lo: nat, hi: nat)
    requires lo < hi <= |run| && forall k | lo <= k < hi :: InRetry(run[k].cons)
  {
    forall k | lo < k < hi :: CallOf(run[k].cons) == CallOf(run[k - 1].cons)
  }

  lemma {:induction false} OneCallThroughout(run: seq<State>, lo: nat, hi: nat)
    requires lo < hi <= |run| && (forall k | lo <= k < hi :: InRetry(run[k].cons)) && SameCalls(run, lo, hi)
    ensures CallOf(run[hi - 1].cons) == CallOf(run[lo].cons)
    decreases hi
  {
    if lo + 1 < hi {
      OneCallThroughout(run, lo, hi - 1);
    }
  }

  /** A call gives up only after at least eight samples were published while it tried. */
  lemma ContentionNeedsEightPublishes(run: seq<State>, acts: seq<Action>, lo: nat, hi: nat)
    requires OneCall(run, acts, lo, hi) && GaveUp(run[hi].cons)
    ensures |run[hi].samples| >= |run[lo].samples| + MAX_ATTEMPTS
  {
    forall k | lo + 1 < k < hi ensures CallOf(run[k].cons) == CallOf(run[k - 1].cons) {
      RetryStep(run[k - 1], acts[k - 1]);
    }
    OneCallThroughout(run, lo + 1, hi);
    CallBegins(run[lo], acts[lo]);
    RetryStep(run[hi - 1], acts[hi - 1]);
    RunInv(run, acts, hi);
    GaveUpLate(run[hi]);
  }

  // ----- Loss accounting -----

  function Missed(taken: seq<Taken>): nat {
    if taken == [] then 0 else Missed(taken[..|taken| - 1]) + taken[|taken| - 1].missed
  }

  lemma {:induction false} Telescopes(taken: seq<Taken>)
    requires Accounted(taken) && taken != []
    ensures taken[0].seqno <= taken[|taken| - 1].seqno
    ensures |taken| + Missed(taken) == taken[|taken| - 1].seqno - taken[0].seqno + 1
    decreases |taken|
  {
    var init := taken[..|taken| - 1];
    if init != [] {
      Telescopes(init);
    }
  }

  /** The caller got it: as lent bytes, or because its codec accepts the bytes published. */
  predicate Kept(codec: Payload -> bool, samples: seq<Sample>, t: Taken) {
    t.lent || (0 < t.seqno <= |samples| && codec(samples[t.seqno - 1].data))
  }

  /** How many of the samples taken were not kept. */
  function Refused(codec: Payload -> bool, samples: seq<Sample>, taken: seq<Taken>): nat {
    if taken == [] then 0
    else
      Refused(codec, samples, taken[..|taken| - 1]) + (if Kept(codec, samples, taken[|taken| - 1]) then 0 else 1)
  }

  lemma {:induction false} RefusedCounts(codec: Payload -> bool, samples: seq<Sample>, taken: seq<Taken>)
    ensures Refused(codec, samples, taken) <= |taken|
    ensures Refused(codec, samples, taken) == 0 <==> forall k | 0 <= k < |taken| :: Kept(codec, samples, taken[k])
  {
    if taken != [] {
      var init := taken[..|taken| - 1];
      RefusedCounts(codec, samples, init);
      assert forall k | 0 <= k < |init| :: init[k] == taken[k];
    }
  }

  /**
   What one handle has read, what its codec would not decode, and what it was told it missed add
   up, at every instant, to the sequences from its first sample to its last; sequences only rise.
   A sample not decoded is gone and not reported as missed, so reads and misses alone add up
   exactly when the codec accepts every sample taken.
   */
  lemma LossIsAccounted(run: seq<State>, acts: seq<Action>, i: nat)
    requires IsRun(run, acts) && i < |run| && run[i].taken != []
    ensures var s, taken := run[i], run[i].taken;
            var span := taken[|taken| - 1].seqno - taken[0].seqno + 1;
            var refused := Refused(s.codec, s.samples, taken);
            var read := |taken| - refused;
            && read + refused + Missed(taken) == span
            && (read + Missed(taken) == span <==> forall k | 0 <= k < |taken| :: Kept(s.codec, s.samples, taken[k]))
            && (forall k | 0 < k < |taken| :: taken[k - 1].seqno < taken[k].seqno)
            && taken[|taken| - 1].seqno <= |run[i].samples|
  {
    RunInv(run, acts, i);
    Telescopes(run[i].taken);
    RefusedCounts(run[i].codec, run[i].samples, run[i].taken);
  }

  /** A read is told of a decode failure exactly for a published sample its codec rejects. */
  lemma DecodeDecides(run: seq<State>, acts: seq<Action>, i: nat)
    requires IsRun(run, acts) && i < |run| && run[i].cons.Read?
    ensures var s, got := run[i], run[i].cons.got;
            && (got.Got? ==>
                  0 < got.seqno <= |s.samples| && got.sample == s.samples[got.seqno - 1] && s.codec(got.sample.data))
            && (got.GotNothing? && got.why.DecodeFailed? ==>
                  0 < got.why.seqno <= |s.samples| && !s.codec(s.samples[got.why.seqno - 1].data))
  {
    RunInv(run, acts, i);
  }
}
