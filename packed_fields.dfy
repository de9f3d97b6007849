/** The two packed-integer readings of bpd_classes.py.

    Both functions first run `struct.pack('>i', n)`: the four big-endian
    bytes of the two's-complement form of a signed 32-bit integer, raising
    struct.error for anything outside that range. They then read those
    bytes back with another struct format:
    - ArrayIndexAndLength reads '>HH', two unsigned 16-bit halves
      (index, length);
    - LinkIdAndLinkedBehavior reads '>bbH', a signed byte (the link id), a
      signed byte that is thrown away, and an unsigned 16-bit behaviour
      index. */
module PackedFields {
  import opened Wrappers
  import opened PyBuiltins

  const TWO_8: int := 0x100
  const TWO_16: int := 0x1_0000
  const TWO_24: int := 0x100_0000
  const TWO_31: int := 0x8000_0000
  const TWO_32: int := 0x1_0000_0000

  type Byte = b: int | 0 <= b < 0x100

  predicate IsInt32(n: int) { -TWO_31 <= n < TWO_31 }

  /** `struct.pack('>i', n)` */
  function PackInt32(n: int): (bytes: Result<seq<Byte>, PyError>)
    ensures bytes.Ok? <==> IsInt32(n)
    ensures bytes.Ok? ==> |bytes.value| == 4
    ensures bytes.Err? ==> bytes.error == StructError(n)
  {
    if !IsInt32(n) then Err(StructError(n))
    else
      var u := n % TWO_32;
      Ok([u / TWO_24, (u / TWO_16) % TWO_8, (u / TWO_8) % TWO_8, u % TWO_8])
  }

  /** Struct code 'H' on two big-endian bytes. */
  function UnsignedShort(hi: Byte, lo: Byte): int { hi * TWO_8 + lo }

  /** Struct code 'b' on one byte. */
  function SignedByte(b: Byte): int { if b < 0x80 then b else b - TWO_8 }

  /** The four bytes are the base-256 digits of the 32-bit pattern of `n`. */
  lemma BytesOfInt32(n: int)
    requires IsInt32(n)
    ensures var b := PackInt32(n).value;
      b[0] * TWO_24 + b[1] * TWO_16 + b[2] * TWO_8 + b[3] == n % TWO_32
  {
    var u := n % TWO_32;
    var q1 := u / TWO_8;
    var q2 := q1 / TWO_8;
    assert u == q1 * TWO_8 + u % TWO_8;
    assert q1 == q2 * TWO_8 + q1 % TWO_8;
    assert q2 == u / TWO_16;
    assert q2 == (q2 / TWO_8) * TWO_8 + q2 % TWO_8;
    assert q2 / TWO_8 == u / TWO_24;
  }

  /** `parse_arrayindexandlength`: the two unsigned 16-bit halves of the
      32-bit pattern of `n`, high half first. Both lie in [0, 65535] and
      `index * 65536 + length` is `n` modulo 2^32. */
  function ParseArrayIndexAndLength(n: int): (r: Result<(int, int), PyError>)
    ensures r.Ok? <==> IsInt32(n)
    ensures r.Err? ==> r.error == StructError(n)
    ensures r.Ok? ==> 0 <= r.value.0 < TWO_16 && 0 <= r.value.1 < TWO_16
    ensures r.Ok? ==> (r.value.0 * TWO_16 + r.value.1) % TWO_32 == n % TWO_32
  {
    var bytes :- PackInt32(n);
    BytesOfInt32(n);
    Ok((UnsignedShort(bytes[0], bytes[1]), UnsignedShort(bytes[2], bytes[3])))
  }

  /** `parse_linkidandlinkedbehavior`: the link id is the top byte read as
      signed, which is `n` shifted right arithmetically by 24 bits, and the
      behaviour index is the low 16 bits of `n`. */
  function ParseLinkIdAndLinkedBehavior(n: int): (r: Result<(int, int), PyError>)
    ensures r.Ok? <==> IsInt32(n)
    ensures r.Err? ==> r.error == StructError(n)
    ensures r.Ok? ==> -0x80 <= r.value.0 < 0x80 && 0 <= r.value.1 < TWO_16
    ensures r.Ok? ==> r.value.0 == n / TWO_24 && r.value.1 == n % TWO_16
  {
    var bytes :- PackInt32(n);
    BytesOfInt32(n);
    var linkId := SignedByte(bytes[0]);
    var junk := SignedByte(bytes[1]);
    var behavior := UnsignedShort(bytes[2], bytes[3]);
    Ok((linkId, behavior))
  }

  // ---------------------------------------------------------------------
  // Reference encodings. The repository only decodes; these are the
  // inverse readings ('>HH' and '>bbH' packed, then read as '>i'), used to
  // state what the decoders recover.

  /** The signed 32-bit integer whose bytes are `index` and `length` as two
      big-endian unsigned shorts. */
  function ArrayIndexAndLength(index: int, length: int): (n: int)
    requires 0 <= index < TWO_16 && 0 <= length < TWO_16
    ensures IsInt32(n)
  {
    var u := index * TWO_16 + length;
    if u < TWO_31 then u else u - TWO_32
  }

  /** The signed 32-bit integer whose bytes are `linkId` as a signed byte,
      a zero padding byte, and `behavior` as a big-endian unsigned short. */
  function LinkIdAndLinkedBehavior(linkId: int, behavior: int): (n: int)
    requires -0x80 <= linkId < 0x80 && 0 <= behavior < TWO_16
    ensures IsInt32(n)
  {
    linkId * TWO_24 + behavior
  }

  /** The same integer with its second byte (the padding byte of the link
      encoding) replaced by `pad`. */
  function WithPaddingByte(n: int, pad: Byte): (m: int)
    requires IsInt32(n)
    ensures IsInt32(m)
  {
    (n / TWO_24) * TWO_24 + pad * TWO_16 + n % TWO_16
  }

  /** Decoding every (index, length) pair in [0, 65535]^2 from its packed
      form gives the pair back. */
  lemma ArrayIndexAndLengthRoundTrip(index: int, length: int)
    requires 0 <= index < TWO_16 && 0 <= length < TWO_16
    ensures ParseArrayIndexAndLength(ArrayIndexAndLength(index, length)) == Ok((index, length))
  {
    var n := ArrayIndexAndLength(index, length);
    var r := ParseArrayIndexAndLength(n).value;
    assert n % TWO_32 == index * TWO_16 + length;
    HalvesUnique(r.0, r.1, index, length);
  }

  /** Conversely, packing what was decoded gives back every signed 32-bit
      integer: the decoder is a bijection onto [0, 65535]^2. */
  lemma ArrayIndexAndLengthInverse(n: int)
    requires IsInt32(n)
    ensures var r := ParseArrayIndexAndLength(n).value;
      ArrayIndexAndLength(r.0, r.1) == n
  {
    var r := ParseArrayIndexAndLength(n).value;
    var u := r.0 * TWO_16 + r.1;
    assert u == n % TWO_32;
  }

  lemma HalvesUnique(a: int, b: int, c: int, d: int)
    requires 0 <= a < TWO_16 && 0 <= b < TWO_16 && 0 <= c < TWO_16 && 0 <= d < TWO_16
    requires (a * TWO_16 + b) % TWO_32 == c * TWO_16 + d
    ensures a == c && b == d
  {
    assert a * TWO_16 + b < TWO_32;
  }

  /** Every (link id, behaviour index) pair comes back from its packed form,
      the link id -1 included. */
  lemma LinkIdAndLinkedBehaviorRoundTrip(linkId: int, behavior: int)
    requires -0x80 <= linkId < 0x80 && 0 <= behavior < TWO_16
    ensures ParseLinkIdAndLinkedBehavior(LinkIdAndLinkedBehavior(linkId, behavior)) == Ok((linkId, behavior))
  {
    var n := LinkIdAndLinkedBehavior(linkId, behavior);
    assert n / TWO_24 == linkId;
    assert n % TWO_16 == behavior;
  }

  /** The padding byte is ignored: two integers that differ only in their
      second byte decode to the same link. */
  lemma PaddingByteIgnored(n: int, pad: Byte)
    requires IsInt32(n)
    ensures ParseLinkIdAndLinkedBehavior(WithPaddingByte(n, pad)) == ParseLinkIdAndLinkedBehavior(n)
  {
    var m := WithPaddingByte(n, pad);
    var hi := n / TWO_24;
    assert m == hi * TWO_24 + (pad * TWO_16 + n % TWO_16);
    assert 0 <= pad * TWO_16 + n % TWO_16 < TWO_24;
    assert m / TWO_24 == hi;
    assert m % TWO_16 == n % TWO_16;
  }

  /** Re-packing a decoded link gives the input back exactly when its
      padding byte is zero: decoding normalises the padding byte to 0. */
  lemma LinkIdAndLinkedBehaviorInverse(n: int)
    requires IsInt32(n)
    ensures var r := ParseLinkIdAndLinkedBehavior(n).value;
      LinkIdAndLinkedBehavior(r.0, r.1) == WithPaddingByte(n, 0)
    ensures var r := ParseLinkIdAndLinkedBehavior(n).value;
      LinkIdAndLinkedBehavior(r.0, r.1) == n <==> (n / TWO_16) % TWO_8 == 0
  {
    var hi := n / TWO_24;
    var q := n / TWO_16;
    assert n == q * TWO_16 + n % TWO_16;
    assert q == hi * TWO_8 + q % TWO_8;
  }

  /** -1 is a value the link id really takes: the packed integer -1 and the
      packed -1/0 link both decode with link id -1. */
  lemma MinusOneLinkIdOccurs()
    ensures ParseLinkIdAndLinkedBehavior(-1) == Ok((-1, 0xFFFF))
    ensures ParseLinkIdAndLinkedBehavior(LinkIdAndLinkedBehavior(-1, 0)) == Ok((-1, 0))
  {
    LinkIdAndLinkedBehaviorRoundTrip(-1, 0);
  }
}
