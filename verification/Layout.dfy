/** Where slots and blocks lie in a mapping, and how a ticket packs into one word. */
module Layout {
  import opened Words
  import Channel

  /** Every slot and block header is 64 bytes, and strides are multiples of 64. */
  const HEADER: nat := 64
  const ALIGN: nat := 64

  /** `kMpmcHeaderSize`, `kFirstSlotOffset` and the size of the pool header. */
  const MPMC_FIRST: nat := 320
  const CHANNEL_FIRST: nat := 448
  const POOL_FIRST: nat := 192

  const MAX_COUNT: nat := 4096
  const MAX_PAYLOAD: nat := 65536

  /** The largest size a 32-bit payload size can name. */
  const U32_MAX: nat := 0xFFFF_FFFF

  function Stride(payload: nat): Option<nat>
    requires HEADER + payload <= U64_MAX
  {
    RoundUp(HEADER + payload, ALIGN)
  }

  /** `first + count * stride`, each step checked. */
  function EndOf(first: nat, count: nat, stride: nat): Option<nat>
    requires first <= U64_MAX && count <= U64_MAX && stride <= U64_MAX
  {
    match CheckedMul(count, stride)
    case None => None
    case Some(area) => CheckedAdd(first, area)
  }

  /** `mpmc_mapping_size_for` */
  function MpmcMappingSize(capacity: nat, payload: nat): Option<nat> {
    if capacity == 0 || capacity > MAX_COUNT || payload == 0 || payload > MAX_PAYLOAD then None
    else
      match Stride(payload)
      case None => None
      case Some(stride) => EndOf(MPMC_FIRST, capacity, stride)
  }

  /** `mpmc_slot_offset` */
  function MpmcSlotOffset(i: nat, capacity: nat, stride: nat): Option<nat>
    requires i <= U64_MAX && stride <= U64_MAX
  {
    if i >= capacity then None else EndOf(MPMC_FIRST, i, stride)
  }

  /** `mapping_size_for_payload` */
  function ChannelMappingSize(payload: nat): Option<nat>
    requires HEADER + payload <= U64_MAX
  {
    match Stride(payload)
    case None => None
    case Some(stride) => EndOf(CHANNEL_FIRST, Channel.SLOTS, stride)
  }

  /** `slot_byte_offset` */
  function ChannelSlotOffset(i: nat, stride: nat): Option<nat>
    requires i <= U64_MAX && stride <= U64_MAX
  {
    if i >= Channel.SLOTS then None else EndOf(CHANNEL_FIRST, i, stride)
  }

  predicate PoolBlockSize(size: nat) {
    size == 4096 || size == 16384
  }

  /** `shared_buffer_pool_mapping_size_for` */
  function PoolMappingSize(size: nat, count: nat): Option<nat> {
    if count == 0 || count > MAX_COUNT || !PoolBlockSize(size) then None
    else
      match Stride(size)
      case None => None
      case Some(stride) => EndOf(POOL_FIRST, count, stride)
  }

  /** `shared_buffer_pool_block_offset_for`: the block's offset and its payload's. */
  function PoolBlockOffset(size: nat, b: nat, count: nat): Option<(nat, nat)>
    requires b <= U64_MAX
  {
    if b >= count || PoolMappingSize(size, count).None? then None
    else
      match Stride(size)
      case None => None
      case Some(stride) =>
        match EndOf(POOL_FIRST, b, stride)
        case None => None
        case Some(block) =>
          match CheckedAdd(block, HEADER)
          case None => None
          case Some(payload) => Some((block, payload))
  }

  // ----- Areas of equal cells -----

  lemma Scaled(i: nat, j: nat, stride: nat)
    requires i < j
    ensures i * stride + stride <= j * stride
  {
    assert (i + 1) * stride <= j * stride by {
      Product(stride, j - i - 1);
      assert j * stride == (i + 1) * stride + stride * (j - i - 1);
    }
  }

  /** A cell of a well-formed area lies inside it, aligned, and apart from every other. */
  predicate CellsFit(first: nat, count: nat, payload: nat, size: nat, offset: nat -> Option<nat>) {
    && (forall i | 0 <= i < count :: offset(i).Some?)
    && (forall i | 0 <= i < count ::
          first <= offset(i).value && offset(i).value + HEADER + payload <= size && offset(i).value % ALIGN == 0)
    && (forall i, j | 0 <= i < j < count :: offset(i).value + HEADER + payload <= offset(j).value)
  }

  lemma StrideHolds(payload: nat)
    requires payload <= U32_MAX
    ensures Stride(payload).Some?
    ensures var stride := Stride(payload).value;
            HEADER + payload <= stride < HEADER + payload + ALIGN && stride % ALIGN == 0
  {
  }

  lemma EndOfFits(first: nat, count: nat, stride: nat)
    requires first <= 448 && count <= MAX_COUNT && stride <= U32_MAX + 2 * HEADER
    ensures EndOf(first, count, stride) == Some(first + count * stride)
  {
    assert count * stride <= MAX_COUNT * stride by {
      Product(stride, MAX_COUNT - count);
      assert MAX_COUNT * stride == count * stride + stride * (MAX_COUNT - count);
    }
  }

  lemma AlignedCell(first: nat, i: nat, stride: nat)
    requires first % ALIGN == 0 && stride % ALIGN == 0
    ensures (first + i * stride) % ALIGN == 0
  {
    var f, s := first / ALIGN, stride / ALIGN;
    assert first + i * stride == ALIGN * (f + i * s) by {
      assert stride == ALIGN * s;
      assert i * stride == ALIGN * (i * s);
    }
    Product(i, s);
    MultipleMod(f + i * s, ALIGN);
  }

  lemma AreaFits(first: nat, count: nat, payload: nat, offset: nat -> Option<nat>)
    requires first <= 448 && first % ALIGN == 0 && 0 < count <= MAX_COUNT && payload <= U32_MAX
    requires Stride(payload).Some?
    requires forall i: nat | i < count :: offset(i) == EndOf(first, i, Stride(payload).value)
    ensures EndOf(first, count, Stride(payload).value).Some?
    ensures CellsFit(first, count, payload, EndOf(first, count, Stride(payload).value).value, offset)
  {
    StrideHolds(payload);
    var stride := Stride(payload).value;
    EndOfFits(first, count, stride);
    forall i: nat | i < count
      ensures offset(i) == Some(first + i * stride) && (first + i * stride) % ALIGN == 0
      ensures first + i * stride + stride <= first + count * stride
    {
      EndOfFits(first, i, stride);
      AlignedCell(first, i, stride);
      Scaled(i, count, stride);
    }
    forall i: nat, j: nat | i < j < count ensures offset(i).value + HEADER + payload <= offset(j).value {
      Scaled(i, j, stride);
    }
  }

  // ----- The three layouts -----

  /** Queue slots: the size is computed for exactly the admitted shapes, and the slots fit. */
  lemma MpmcSlotsFit(capacity: nat, payload: nat)
    ensures MpmcMappingSize(capacity, payload).Some? <==> 0 < capacity <= MAX_COUNT && 0 < payload <= MAX_PAYLOAD
    ensures MpmcMappingSize(capacity, payload).Some? ==>
              && Stride(payload).Some?
              && CellsFit(MPMC_FIRST, capacity, payload, MpmcMappingSize(capacity, payload).value,
                          (i: nat) => if i > U64_MAX then None else MpmcSlotOffset(i, capacity, Stride(payload).value))
  {
    if 0 < capacity <= MAX_COUNT && 0 < payload <= MAX_PAYLOAD {
      StrideHolds(payload);
      AreaFits(MPMC_FIRST, capacity, payload,
               (i: nat) => if i > U64_MAX then None else MpmcSlotOffset(i, capacity, Stride(payload).value));
    }
  }

  /** The three channel slots, for any 32-bit payload size. */
  lemma ChannelSlotsFit(payload: nat)
    requires payload <= U32_MAX
    ensures ChannelMappingSize(payload).Some? && Stride(payload).Some?
    ensures CellsFit(CHANNEL_FIRST, Channel.SLOTS, payload, ChannelMappingSize(payload).value,
                     (i: nat) => if i > U64_MAX then None else ChannelSlotOffset(i, Stride(payload).value))
  {
    StrideHolds(payload);
    AreaFits(CHANNEL_FIRST, Channel.SLOTS, payload,
             (i: nat) => if i > U64_MAX then None else ChannelSlotOffset(i, Stride(payload).value));
  }

  function PoolOffset(size: nat, b: nat, count: nat): Option<nat> {
    if b > U64_MAX then None
    else match PoolBlockOffset(size, b, count)
         case None => None
         case Some(pair) => Some(pair.0)
  }

  /** Pool blocks, and the payload of each right behind its header. */
  lemma PoolBlocksFit(size: nat, count: nat)
    ensures PoolMappingSize(size, count).Some? <==> 0 < count <= MAX_COUNT && PoolBlockSize(size)
    ensures PoolMappingSize(size, count).Some? ==>
              && CellsFit(POOL_FIRST, count, size, PoolMappingSize(size, count).value,
                          (b: nat) => PoolOffset(size, b, count))
              && forall b: nat | b < count ::
                   PoolBlockOffset(size, b, count).Some?
                   && PoolBlockOffset(size, b, count).value.1 == PoolBlockOffset(size, b, count).value.0 + HEADER
  {
    if 0 < count <= MAX_COUNT && PoolBlockSize(size) {
      StrideHolds(size);
      var stride := Stride(size).value;
      EndOfFits(POOL_FIRST, count, stride);
      forall b: nat | b < count
        ensures PoolBlockOffset(size, b, count) == Some((POOL_FIRST + b * stride, POOL_FIRST + b * stride + HEADER))
        ensures PoolOffset(size, b, count) == EndOf(POOL_FIRST, b, stride)
      {
        EndOfFits(POOL_FIRST, b, stride);
        Scaled(b, count, stride);
      }
      AreaFits(POOL_FIRST, count, size, (b: nat) => PoolOffset(size, b, count));
    }
  }

  // ----- Tickets -----

  /** `make_ticket`: on bits, shift by two and or in the slot. */
  function Pack(t: Channel.Ticket): nat {
    4 * t.seqno + t.slot % 4
  }

  /** `ticket_sequence` and `ticket_slot` */
  function Unpack(word: nat): Channel.Ticket {
    Channel.Ticket(word / 4, word % 4)
  }

  /**
   Packing loses nothing, so comparing words compares tickets; a word fits 64 bits exactly for the
   sequences `checked_next_sequence` hands out, and is zero only before the first publish.
   */
  lemma PackingIsExact(t: Channel.Ticket, u: Channel.Ticket)
    requires t.slot < 4 && u.slot < 4
    ensures Unpack(Pack(t)) == t
    ensures Pack(t) == Pack(u) <==> t == u
    ensures Pack(t) <= U64_MAX <==> t.seqno <= Channel.MAX_SEQUENCE
    ensures Pack(t) == 0 <==> t == Channel.NO_TICKET
  {
  }

  lemma UnpackingIsExact(word: nat)
    ensures Unpack(word).slot < 4 && Pack(Unpack(word)) == word
  {
  }

  /** A sequence is refused exactly when its ticket would not fit. */
  lemma NextTicketFits(t: Channel.Ticket, slot: nat)
    requires t.seqno <= Channel.MAX_SEQUENCE && slot < 4
    ensures Channel.NextSequence(t).Some? <==> Pack(Channel.Ticket(t.seqno + 1, slot)) <= U64_MAX
    ensures Channel.NextSequence(t).Some? ==>
              Pack(t) < Pack(Channel.Ticket(Channel.NextSequence(t).value, slot))
  {
  }
}
