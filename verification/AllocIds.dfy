/** The 128-bit allocation id: family hash, size, block and implementation tag, packed by the POSIX
    manager (src/pal/posix/server.rs) and by the XPC one (mercy-server-XPC), split into two words for
    the wire, and decoded in several places. */
module AllocIds {
  import opened Wrappers

  // ---------- The POSIX manager ----------

  /** `family_id as u128` for an i64: the client's u64 hash is sent as i64 and sign-extended here. */
  function SignExtend(family: bv64): bv128 {
    (family as bv128) | SignBits(family)
  }

  function SignBits(family: bv64): bv128 {
    if family & 0x8000_0000_0000_0000 != 0 then 0xFFFF_FFFF_FFFF_FFFF_0000_0000_0000_0000 else 0
  }

  /** The id built by handle_alloc_message; size is an i64 that came from a u32. */
  function Pack(family: bv64, size: bv32, block: bv16): bv128 {
    (SignExtend(family) << 64) | ((size as bv128) << 32) | ((block as bv128) << 16)
  }

  // ---------- The wire ----------

  function High(id: bv128): bv64 {
    (id >> 64) as bv64
  }

  function Low(id: bv128): bv64 {
    (id & 0xFFFF_FFFF_FFFF_FFFF) as bv64
  }

  function Join(high: bv64, low: bv64): bv128 {
    ((high as bv128) << 64) | (low as bv128)
  }

  // ---------- Decoders ----------

  /** `(id >> 64) as u64`, the key of the context registry */
  function FamilyOf(id: bv128): bv64 {
    (id >> 64) as bv64
  }

  /** `(id >> 32) as u32` */
  function SizeOf(id: bv128): bv32 {
    ((id >> 32) & 0xFFFF_FFFF) as bv32
  }

  /** `(id >> 16) as u16` */
  function BlockOf(id: bv128): bv16 {
    ((id >> 16) & 0xFFFF) as bv16
  }

  /** `id as u16` */
  function ImplementationOf(id: bv128): bv16 {
    (id & 0xFFFF) as bv16
  }

  /** handle_free_message and decode_alloc_id look at the low word only. */
  function BlockOfLow(low: bv64): bv16 {
    ((low >> 16) & 0xFFFF) as bv16
  }

  /** `alloc::len` */
  function Len(id: bv128): Result<bv32> {
    if id == 0 then Err
    else if ImplementationOf(id) != 0 then Err
    else if SizeOf(id) != 0 then Ok(SizeOf(id))
    else Err
  }

  // ---------- The XPC manager ----------

  /** encode_alloc_id, which builds the two words directly */
  function EncodeHigh(family: bv64): bv64 {
    family
  }

  function EncodeLow(block: bv16, length: bv32): bv64 {
    ((length as bv64) << 32) | ((block as bv64) << 16) | 0
  }

  // ---------- Proofs ----------

  /** Sign extension only touches bits that the shift throws away. */
  lemma {:induction false} SignLost(family: bv64)
    ensures SignExtend(family) << 64 == (family as bv128) << 64
  {
    ShiftedOut(family as bv128, SignBits(family));
  }

  lemma {:induction false} ShiftedOut(x: bv128, m: bv128)
    requires m << 64 == 0
    ensures (x | m) << 64 == x << 64
  {
  }

  /** Every decoder of the whole id returns the field that was packed. */
  lemma {:induction false} PackDecodes(family: bv64, size: bv32, block: bv16)
    ensures
      var id := Pack(family, size, block);
      && FamilyOf(id) == family
      && SizeOf(id) == size
      && BlockOf(id) == block
      && ImplementationOf(id) == 0
  {
    SignLost(family);
  }

  /** Splitting for the wire and joining again loses nothing, for any id. */
  lemma {:induction false} SplitJoin(id: bv128)
    ensures Join(High(id), Low(id)) == id
  {
  }

  lemma {:induction false} JoinSplit(high: bv64, low: bv64)
    ensures High(Join(high, low)) == high && Low(Join(high, low)) == low
  {
  }

  /** The low word alone identifies the block. */
  lemma {:induction false} LowWordBlock(id: bv128)
    ensures BlockOfLow(Low(id)) == BlockOf(id)
  {
  }

  /** The two managers use one layout. */
  lemma {:induction false} EncodersAgree(family: bv64, size: bv32, block: bv16)
    ensures High(Pack(family, size, block)) == EncodeHigh(family)
    ensures Low(Pack(family, size, block)) == EncodeLow(block, size)
  {
    SignLost(family);
  }

  /** The zero id, which stands for a freed block, is no packed id unless all fields are zero; and
      `len` answers exactly the size, for every size but zero. */
  lemma {:induction false} PackedNonzero(family: bv64, size: bv32, block: bv16)
    ensures Pack(family, size, block) == 0 <==> family == 0 && size == 0 && block == 0
    ensures Len(Pack(family, size, block)) == if size == 0 then Err else Ok(size)
  {
    PackDecodes(family, size, block);
    if Pack(family, size, block) == 0 {
      assert FamilyOf(0) == 0 && SizeOf(0) == 0 && BlockOf(0) == 0;
    }
  }

  /** What the client gets after the reply has crossed the wire decodes, at the client and after
      another crossing at the manager, to what the manager packed; distinct blocks get distinct ids. */
  lemma {:induction false} RoundTrip(family: bv64, size: bv32, block: bv16)
    ensures
      var sent := Pack(family, size, block);
      var received := Join(High(sent), Low(sent));
      && received == sent
      && FamilyOf(received) == family && SizeOf(received) == size
      && BlockOfLow(Low(received)) == block && BlockOf(Join(High(received), Low(received))) == block
      && ImplementationOf(received) == 0
  {
    var sent := Pack(family, size, block);
    PackDecodes(family, size, block);
    SplitJoin(sent);
    LowWordBlock(sent);
  }

  /** An id from the XPC manager, joined by its client and split again for a message, names the same
      words, and is the id that the POSIX manager would have packed. */
  lemma {:induction false} XpcRoundTrip(family: bv64, size: bv32, block: bv16)
    ensures
      var received := Join(EncodeHigh(family), EncodeLow(block, size));
      && received == Pack(family, size, block)
      && High(received) == EncodeHigh(family) && Low(received) == EncodeLow(block, size)
      && BlockOfLow(Low(received)) == block
  {
    JoinSplit(EncodeHigh(family), EncodeLow(block, size));
    EncodersAgree(family, size, block);
    SplitJoin(Pack(family, size, block));
    PackDecodes(family, size, block);
    LowWordBlock(Pack(family, size, block));
  }

  /** Where the fields are: the id is the family, the size, the block and the tag written one after the
      other, in 16, 8, 4 and 4 hexadecimal digits. */
  lemma {:induction false} Layout(family: bv64, size: bv32, block: bv16)
    ensures var id := Pack(family, size, block);
            && id >> 64 == family as bv128 && (id << 64) >> 96 == size as bv128
            && (id << 96) >> 112 == block as bv128 && (id << 112) >> 112 == 0
    ensures Pack(0x8123_4567_89AB_CDEF, 0x0246_8ACE, 0xF135) == 0x8123_4567_89AB_CDEF_0246_8ACE_F135_0000
  {
    SignLost(family);
  }
}
