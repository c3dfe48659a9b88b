/** `reclaim_dead_consumer_slots` in place, over the slot headers. */
module ReclaimSlots {
  import opened Words
  import opened Channel
  import opened ChannelInvariant
  import ChannelSteps
  import opened ChannelHandover

  /** The slot may be taken back from a consumer whose role epoch was `role`. */
  predicate Recoverable(slot: Slot, role: nat) {
    match slot.state
    case ReadingClaiming => slot.epoch == 0 || slot.epoch == role
    case Reading => slot.epoch == role
    case _ => true
  }

  function TakenBack(slot: Slot): Slot {
    if Held(slot.state) then slot.(epoch := 0, state := Published) else slot
  }

  /** Every slot before `n` has been taken back, and no other was touched. */
  predicate DoneTo(was: seq<Slot>, now: seq<Slot>, n: nat)
    requires n <= |was| == |now|
  {
    (forall i | 0 <= i < n :: now[i] == TakenBack(was[i])) && was[n..] == now[n..]
  }

  /**
   Succeeds exactly when every slot is recoverable; then no slot is held and only held slots have
   changed.  Otherwise it stops at the first slot it cannot account for, leaving that slot and all
   later ones alone.
   */
  method ReclaimDeadConsumerSlots(slots: array<Slot>, role: nat) returns (ok: bool)
    modifies slots
    ensures ok <==> forall i | 0 <= i < slots.Length :: Recoverable(old(slots[i]), role)
    ensures ok ==> DoneTo(old(slots[..]), slots[..], slots.Length)
    ensures ok ==> forall i | 0 <= i < slots.Length :: !Held(slots[i].state)
    ensures !ok ==> exists n :: 0 <= n < slots.Length && !Recoverable(old(slots[n]), role)
                                && (forall i | 0 <= i < n :: Recoverable(old(slots[i]), role))
                                && DoneTo(old(slots[..]), slots[..], n)
  {
    ghost var was := slots[..];
    var i := 0;
    while i < slots.Length
      invariant 0 <= i <= slots.Length
      invariant forall k | 0 <= k < i :: Recoverable(was[k], role)
      invariant DoneTo(was, slots[..], i)
    {
      var st := slots[i].state;
      assert slots[i] == slots[..][i..][0] == was[i..][0] == was[i];
      if st == ReadingClaiming {
        var epoch := slots[i].epoch;
        if epoch != 0 && epoch != role {
          return false;
        }
        ReleaseRead(slots, i);
      } else if st == Reading {
        var epoch := slots[i].epoch;
        if epoch != role {
          return false;
        }
        ReleaseRead(slots, i);
      }
      Advance(was, slots[..], i);
      i := i + 1;
    }
    return true;
  }

  /** `slot_release_read` */
  method ReleaseRead(slots: array<Slot>, i: nat)
    requires i < slots.Length && Held(slots[i].state)
    modifies slots
    ensures slots[..] == old(slots[..])[i := TakenBack(old(slots[i]))]
  {
    slots[i] := slots[i].(epoch := 0);
    slots[i] := slots[i].(state := Published);
  }

  lemma Advance(was: seq<Slot>, now: seq<Slot>, i: nat)
    requires i < |was| == |now| && (forall k | 0 <= k < i :: now[k] == TakenBack(was[k]))
    requires now[i] == TakenBack(was[i]) && now[i + 1..] == was[i + 1..]
    ensures DoneTo(was, now, i + 1)
  {
  }

  /** In a channel whose consumer died, the unrecoverable slots are exactly the orphans. */
  lemma UnrecoverableIsOrphan(run: seq<State>, acts: seq<Action>, n: nat, i: nat)
    requires IsRun(run, acts) && n < |run| && i < |run[n].slots|
    requires run[n].cons.Nobody? && run[n].online && Even(run[n].epoch)
    ensures Recoverable(run[n].slots[i], run[n].epoch) <==> !Orphan(run[n].slots[i])
  {
    ChannelSteps.RunInv(run, acts, n);
  }
}
