/**
 Publishing and reading as their callers see them: each side's method runs while the other side
 takes any steps, and may crash, between any two of its accesses.
 */
module ChannelHost {
  import opened Words
  import opened Channel
  import opened ChannelInvariant
  import opened ChannelSteps
  import opened ChannelTheorems

  // ----- Interference -----

  ghost predicate ConsumersLead(s: State, acts: seq<ConsumerAct>, s1: State)
    decreases |acts|
  {
    if acts == [] then s1 == s else ConsumerEnabled(s, acts[0]) && ConsumersLead(Consume(s, acts[0]), acts[1..], s1)
  }

  ghost predicate ProducerLeads(s: State, acts: seq<ProducerAct>, s1: State)
    decreases |acts|
  {
    if acts == [] then s1 == s else ProducerEnabled(s, acts[0]) && ProducerLeads(Produce(s, acts[0]), acts[1..], s1)
  }

  /** What consumers cannot take from the producer. */
  predicate ProducerKeeps(s: State, s1: State) {
    s1.prod == s.prod && s1.latest == s.latest && s1.samples == s.samples && s1.width == s.width
  }

  /** What the producer cannot take from a consumer. */
  ghost predicate ConsumerKeeps(s: State, s1: State) {
    && s1.cons == s.cons && s1.handle == s.handle && s1.taken == s.taken
    && s.samples <= s1.samples && s1.width == s.width && s1.codec == s.codec
  }

  lemma OneConsume(s: State, c: ConsumerAct)
    requires ConsumerEnabled(s, c)
    ensures ProducerKeeps(s, Consume(s, c))
  {
  }

  lemma OneProduce(s: State, p: ProducerAct)
    requires ProducerEnabled(s, p)
    ensures ConsumerKeeps(s, Produce(s, p))
  {
  }

  lemma {:induction false} ConsumersInterfere(s: State, acts: seq<ConsumerAct>, s1: State)
    requires Inv(s) && ConsumersLead(s, acts, s1)
    ensures Inv(s1) && ProducerKeeps(s, s1)
    decreases |acts|
  {
    if acts != [] {
      ConsumeKeeps(s, acts[0]);
      OneConsume(s, acts[0]);
      ConsumersInterfere(Consume(s, acts[0]), acts[1..], s1);
    }
  }

  lemma {:induction false} ProducerInterferes(s: State, acts: seq<ProducerAct>, s1: State)
    requires Inv(s) && ProducerLeads(s, acts, s1)
    ensures Inv(s1) && ConsumerKeeps(s, s1)
    decreases |acts|
  {
    if acts != [] {
      ProduceKeeps(s, acts[0]);
      OneProduce(s, acts[0]);
      ProducerInterferes(Produce(s, acts[0]), acts[1..], s1);
    }
  }

  // ----- Publishing -----

  /** An upper bound on the accesses a publish still makes. */
  function PublishLeft(p: Producer, width: nat): nat {
    match p
    case LoadLatest(_, _) => width + 14
    case Search(_, _, _, i) => if i < SLOTS then width + 7 + 2 * (SLOTS - i) else 0
    case Seize(_, _, _, i, _) => if i < SLOTS then width + 6 + 2 * (SLOTS - i) else 0
    case Write(_, _, _, _, at) =>
      (match at
       case StoreSize => width + 6
       case StoreSequence => width + 5
       case StoreBoot => width + 4
       case CopyByte(k) => if k < width then width - k + 3 else 0
       case StoreSum => 3
       case StorePublished => 2
       case StoreTicket => 1)
    case _ => 0
  }

  predicate Publishing(p: Producer, sample: Sample) {
    (p.LoadLatest? || p.Search? || p.Seize? || p.Write?) && p.kind == Whole(sample)
  }

  /** What a publish begun with `before` published reports, whatever consumers do. */
  function Report(before: seq<Sample>, clock: bool): Sent {
    if |before| >= MAX_SEQUENCE then SequenceExhausted
    else if !clock then NoClock
    else SentOk(|before| + 1)
  }

  /** Where a publish of `sample` begun with `before` published stands. */
  predicate PublishOn(before: seq<Sample>, s: State, sample: Sample, clock: bool) {
    if s.prod.Sent? then
      && s.prod.sent == Report(before, clock)
      && s.samples == if s.prod.sent.SentOk? then before + [sample] else before
    else
      && Publishing(s.prod, sample) && s.samples == before
      && (if s.prod.LoadLatest? then s.prod.clock == clock else clock && |before| < MAX_SEQUENCE)
  }

  lemma SearchRound(before: seq<Sample>, s: State, sample: Sample, clock: bool)
    requires Inv(s) && (s.prod.LoadLatest? || s.prod.Search?) && PublishOn(before, s, sample, clock)
    ensures var p1 := SearchNext(s, s.prod);
            PublishOn(before, s.(prod := p1), sample, clock) && PublishLeft(p1, s.width) < PublishLeft(s.prod, s.width)
  {
    SearchKeeps(s);
  }

  lemma WriteRound(before: seq<Sample>, s: State, sample: Sample, clock: bool)
    requires Inv(s) && s.prod.Write? && PublishOn(before, s, sample, clock)
    ensures ProducerRuns(s) && PublishOn(before, ProducerNext(s), sample, clock)
    ensures PublishLeft(ProducerNext(s).prod, s.width) < PublishLeft(s.prod, s.width)
  {
  }

  lemma SeizeRound(before: seq<Sample>, s: State, sample: Sample, clock: bool)
    requires Inv(s) && s.prod.Seize? && PublishOn(before, s, sample, clock)
    ensures ProducerRuns(s) && PublishOn(before, SeizeStep(s), sample, clock)
    ensures PublishLeft(SeizeStep(s).prod, s.width) < PublishLeft(s.prod, s.width)
  {
    SeizeKeeps(s);
  }

  lemma PublishRound(before: seq<Sample>, s: State, sample: Sample, clock: bool)
    requires Inv(s) && !s.prod.Sent? && PublishOn(before, s, sample, clock)
    ensures ProducerRuns(s) && PublishOn(before, ProducerNext(s), sample, clock) && ProducerNext(s).width == s.width
    ensures PublishLeft(ProducerNext(s).prod, s.width) < PublishLeft(s.prod, s.width)
  {
    if s.prod.Write? {
      WriteRound(before, s, sample, clock);
    } else if s.prod.Seize? {
      SeizeRound(before, s, sample, clock);
    } else {
      SearchRound(before, s, sample, clock);
    }
  }

  /** Interference followed by one access of the publish. */
  lemma PublishTurn(before: seq<Sample>, s: State, acts: seq<ConsumerAct>, s1: State, sample: Sample, clock: bool)
    requires Inv(s) && !s.prod.Sent? && PublishOn(before, s, sample, clock) && ConsumersLead(s, acts, s1)
    ensures Formed(s1) && ProducerRuns(s1)
    ensures var s2 := ProducerNext(s1);
            && Inv(s2) && PublishOn(before, s2, sample, clock) && s2.width == s.width
            && PublishLeft(s2.prod, s.width) < PublishLeft(s.prod, s.width)
  {
    ConsumersInterfere(s, acts, s1);
    PublishRound(before, s1, sample, clock);
    ProducerNextKeeps(s1);
  }

  // ----- Reading -----

  function ClaimRank(claim: ClaimAt): nat {
    match claim
    case LoadTicket => 10
    case ClaimCas(_) => 9
    case MarkEpoch(_) => 8
    case MarkReading(_) => 7
    case LoadSequence(_) => 6
    case Recheck(_, _) => 5
  }

  /** An upper bound on the accesses a read still makes. */
  function ReadLeft(c: Consumer, width: nat): nat {
    match c
    case Claim(_, attempt, claim) =>
      if attempt < MAX_ATTEMPTS then width + 8 + 12 * (MAX_ATTEMPTS - 1 - attempt) + ClaimRank(claim) else 0
    case Check(_, _, _) => width + 6
    case CopyOut(_, _, _, buf) => if |buf| < width then width - |buf| + 3 else 0
    case Release(_, zeroed, after) =>
      (if after.Retry? && after.attempt < MAX_ATTEMPTS then width + 10 + 12 * (MAX_ATTEMPTS - 1 - after.attempt) else 1)
      + (if zeroed then 0 else 1)
    case _ => 0
  }

  /** The handle took sample `q`, new to it and no older than the call. */
  predicate Took(s0: State, s: State, q: nat) {
    && |s0.samples| <= q && s0.handle.last < q == s.handle.last
    && s.taken == s0.taken + [Taken(q, if s0.handle.first then 0 else q - s0.handle.last - 1, false)]
  }

  predicate TookNothing(s0: State, s: State) {
    s.handle == s0.handle && s.taken == s0.taken
  }

  predicate Outcome(s0: State, s: State, got: Got) {
    match got
    case Got(q, _) => Took(s0, s, q)
    case GotLoan(_) => false
    case GotNothing(why) =>
      match why
      case NoNewSample => TookNothing(s0, s) && |s0.samples| <= s0.handle.last
      case ReadContention(base) => TookNothing(s0, s) && base == |s0.samples|
      case DecodeFailed(q) => Took(s0, s, q)
      case _ => TookNothing(s0, s)
  }

  /** Where a read begun in `s0` stands. */
  ghost predicate ReadOn(s0: State, s: State) {
    && s.width == s0.width && s.codec == s0.codec
    && s0.samples <= s.samples
    && match s.cons
       case Claim(call, _, _) => call == Call(false, |s0.samples|) && TookNothing(s0, s)
       case Check(call, _, _) => call == Call(false, |s0.samples|) && TookNothing(s0, s)
       case CopyOut(_, q, _, _) => Took(s0, s, q)
       case Release(_, _, after) =>
         (match after
          case Retry(call, _) => call == Call(false, |s0.samples|) && TookNothing(s0, s)
          case Finish(got) => Outcome(s0, s, got))
       case Read(got) => Outcome(s0, s, got)
       case _ => false
  }

  lemma ClaimRound(s0: State, s: State)
    requires Inv(s) && s.cons.Claim? && ReadOn(s0, s)
    ensures SlotOf(s.cons) < SLOTS && ReadOn(s0, ClaimStep(s))
    ensures ReadLeft(ClaimStep(s).cons, s.width) < ReadLeft(s.cons, s.width)
  {
  }

  lemma CheckRound(s0: State, s: State, clock: bool)
    requires Inv(s) && s.cons.Check? && ReadOn(s0, s)
    ensures s.cons.i < SLOTS && ReadOn(s0, CheckStep(s, clock))
    ensures ReadLeft(CheckStep(s, clock).cons, s.width) < ReadLeft(s.cons, s.width)
  {
  }

  lemma CopyRound(s0: State, s: State)
    requires Inv(s) && s.cons.CopyOut? && ReadOn(s0, s)
    ensures s.cons.i < SLOTS && |s.cons.buf| < s.width && ReadOn(s0, CopyStep(s))
    ensures ReadLeft(CopyStep(s).cons, s.width) < ReadLeft(s.cons, s.width)
  {
  }

  lemma ReleaseRound(s0: State, s: State)
    requires Inv(s) && s.cons.Release? && ReadOn(s0, s)
    ensures s.cons.i < SLOTS && ReadOn(s0, ReleaseStep(s))
    ensures ReadLeft(ReleaseStep(s).cons, s.width) < ReadLeft(s.cons, s.width)
  {
  }

  lemma ReadRound(s0: State, s: State, clock: bool)
    requires Inv(s) && !s.cons.Read? && ReadOn(s0, s)
    ensures ConsumerRuns(s) && ReadOn(s0, ConsumerNext(s, clock))
    ensures ReadLeft(ConsumerNext(s, clock).cons, s.width) < ReadLeft(s.cons, s.width)
  {
    match s.cons
    case Claim(_, _, _) => ClaimRound(s0, s);
    case Check(_, _, _) => CheckRound(s0, s, clock);
    case CopyOut(_, _, _, _) => CopyRound(s0, s);
    case Release(_, _, _) => ReleaseRound(s0, s);
  }

  lemma ReadBeside(s0: State, s: State, s1: State)
    requires ReadOn(s0, s) && ConsumerKeeps(s, s1)
    ensures ReadOn(s0, s1)
  {
  }

  /** Interference followed by one access of the read. */
  lemma ReadTurn(s0: State, s: State, acts: seq<ProducerAct>, s1: State, clock: bool)
    requires Inv(s) && !s.cons.Read? && ReadOn(s0, s) && ProducerLeads(s, acts, s1)
    ensures Formed(s1) && ConsumerRuns(s1)
    ensures var s2 := ConsumerNext(s1, clock);
            && Inv(s2) && ReadOn(s0, s2) && s2.width == s.width
            && ReadLeft(s2.cons, s.width) < ReadLeft(s.cons, s.width)
  {
    ProducerInterferes(s, acts, s1);
    ReadBeside(s0, s, s1);
    ReadRound(s0, s1, clock);
    ConsumerNextKeeps(s1, clock);
  }

  /** What a finished publish has to show for itself. */
  lemma PublishDone(before: seq<Sample>, s: State, sample: Sample, clock: bool)
    requires Inv(s) && s.prod.Sent? && PublishOn(before, s, sample, clock)
    ensures Inv(s.(prod := Ready))
    ensures s.prod.sent == Report(before, clock)
    ensures s.samples == if s.prod.sent.SentOk? then before + [sample] else before
    ensures s.prod.sent.SentOk? ==>
              && s.latest.seqno == s.prod.sent.seqno && s.latest.slot < |s.slots|
              && s.slots[s.latest.slot].data == sample.data
  {
    CallerKeeps(s, Return);
  }

  /** What a finished read has to show for itself. */
  lemma ReadDone(s0: State, s: State)
    requires Inv(s) && s.cons.Read? && ReadOn(s0, s)
    ensures Inv(s.(cons := Rest)) && Outcome(s0, s.(cons := Rest), s.cons.got) && ReadShows(s0, s, s.cons.got)
  {
    LeaveKeeps(s);
  }

  ghost predicate ReadShows(s0: State, s: State, got: Got) {
    && s0.samples <= s.samples && s.codec == s0.codec
    && (got.Got? ==>
          0 < got.seqno <= |s.samples| && got.sample == s.samples[got.seqno - 1] && s.codec(got.sample.data))
    && (got.GotNothing? && got.why.DecodeFailed? ==>
          0 < got.why.seqno <= |s.samples| && !s.codec(s.samples[got.why.seqno - 1].data))
    && (got.GotNothing? ==> got.why != PayloadCorrupt && got.why != CorruptSlot)
    && (got.GotNothing? && got.why.ReadContention? ==> |s.samples| >= |s0.samples| + MAX_ATTEMPTS)
  }

  class LatestValueChannel {
    var mem: State

    /** The consumer side runs. */
    method YieldToConsumers()
      modifies this
      ensures exists acts :: ConsumersLead(old(mem), acts, mem)
    {
      assert ConsumersLead(mem, [], mem);
    }

    /** The producer runs. */
    method YieldToProducer()
      modifies this
      ensures exists acts :: ProducerLeads(old(mem), acts, mem)
    {
      assert ProducerLeads(mem, [], mem);
    }

    /**
     `producer_publish_impl`: refused for a payload of the wrong size, by a producer that no longer
     owns the instance, when sequences have run out, or without a clock; otherwise it publishes the
     message under the next sequence, and nothing else can happen.
     */
    method Publish(sample: Sample, owned: bool, clock: bool) returns (sent: Sent)
      requires Inv(mem) && mem.prod.Ready?
      modifies this
      ensures Inv(mem) && mem.prod.Ready?
      ensures sent == if |sample.data| != old(mem.width) then SizeDrift
                      else if !owned then NotOwner
                      else Report(old(mem.samples), clock)
      ensures mem.samples == if sent.SentOk? then old(mem.samples) + [sample] else old(mem.samples)
      ensures sent.SentOk? ==>
                && mem.latest.seqno == sent.seqno && mem.latest.slot < |mem.slots|
                && mem.slots[mem.latest.slot].data == sample.data
    {
      if |sample.data| != mem.width {
        return SizeDrift;
      }
      if !owned {
        return NotOwner;
      }
      ghost var before := mem.samples;
      ProduceKeeps(mem, ProducerAct.Publish(sample, true, clock));
      mem := Produce(mem, ProducerAct.Publish(sample, true, clock));
      while !mem.prod.Sent?
        invariant Inv(mem) && PublishOn(before, mem, sample, clock)
        decreases PublishLeft(mem.prod, mem.width)
      {
        ghost var s := mem;
        YieldToConsumers();
        ghost var acts :| ConsumersLead(s, acts, mem);
        PublishTurn(before, s, acts, mem, sample, clock);
        mem := ProducerNext(mem);
      }
      sent := mem.prod.sent;
      PublishDone(before, mem, sample, clock);
      mem := mem.(prod := Ready);
    }

    /**
     `try_read_latest_unlocked`: a sample no older than the newest one when the call began and new
     to this handle, whole; or the reason there is none.
     */
    method TryReadLatest() returns (got: Got)
      requires Inv(mem) && mem.cons.Rest?
      modifies this
      ensures Inv(mem) && mem.cons.Rest?
      ensures Outcome(old(mem), mem, got) && ReadShows(old(mem), mem, got)
    {
      ghost var s0 := mem;
      BeginReadKeeps(mem, false);
      mem := Consume(mem, BeginRead(false));
      while !mem.cons.Read?
        invariant Inv(mem) && ReadOn(s0, mem)
        decreases ReadLeft(mem.cons, mem.width)
      {
        ghost var s := mem;
        YieldToProducer();
        ghost var acts :| ProducerLeads(s, acts, mem);
        var clock: bool := *;
        ReadTurn(s0, s, acts, mem, clock);
        mem := ConsumerNext(mem, clock);
      }
      got := mem.cons.got;
      ReadDone(s0, mem);
      mem := mem.(cons := Rest);
    }
  }
}
