// decoder.c: decoding of one UTF-8 character from its leading byte, after
// the bit layout of section 3 of RFC 3629. The decoder looks only at the
// leading byte to choose the width; continuation bytes are masked but never
// checked, and overlong forms and surrogates are accepted.
module Utf8Decoder {
  import opened Wrappers

  /** A byte, held as the unsigned 32-bit value C promotes it to before it
      is masked and shifted. */
  type Byte = b: bv32 | b < 0x100

  /** The rune written through the out-pointer and the width returned. */
  datatype Decoded = Decoded(rune: bv32, width: nat)

  /** The payload bits of a two-, three- and four-byte form, packed as
      decoder.c:15, :18 and :21 pack them. */
  function Pack2(b0: Byte, b1: Byte): bv32 { ((b0 & 0x1F) << 6) | (b1 & 0x3F) }
  function Pack3(b0: Byte, b1: Byte, b2: Byte): bv32 { ((b0 & 0x0F) << 12) | ((b1 & 0x3F) << 6) | (b2 & 0x3F) }
  function Pack4(b0: Byte, b1: Byte, b2: Byte, b3: Byte): bv32
  { ((b0 & 0x07) << 18) | ((b1 & 0x3F) << 12) | ((b2 & 0x3F) << 6) | (b3 & 0x3F) }

  /** The width the leading byte announces: the table of section 3 of
      RFC 3629, with every other byte (a continuation byte or 0xF8-0xFF)
      taken as a one-byte replacement. */
  function LeadWidth(c: Byte): (w: nat)
    ensures 1 <= w <= 4
  {
    if c < 0x80 then 1 else if 0xC0 <= c < 0xE0 then 2 else if 0xE0 <= c < 0xF0 then 3
    else if 0xF0 <= c < 0xF8 then 4 else 1
  }

  /** decode_utf8 (decoder.c:8-27). The caller must make `width` bytes
      readable; a read past the end of `p` is undefined behaviour, which is
      `None` here. The width depends on the leading byte alone and is 1 to 4,
      and the decoder succeeds exactly when that many bytes are readable.
      Each width bounds the rune by the bits it packs. */
  function DecodeUtf8(p: seq<Byte>): (r: Option<Decoded>)
    ensures p == [] ==> r.None?
    ensures p != [] ==> (r.Some? <==> LeadWidth(p[0]) <= |p|)
    ensures r.Some? ==> r.value.width == LeadWidth(p[0])
    ensures p != [] && p[0] < 0x80 ==> r == Some(Decoded(p[0], 1))
    ensures r.Some? && r.value.width == 2 ==> r.value.rune < 0x800
    ensures r.Some? && r.value.width == 3 ==> r.value.rune < 0x10000
    ensures r.Some? && r.value.width == 4 ==> r.value.rune < 0x200000
    ensures p != [] && ((0x80 <= p[0] && p[0] < 0xC0) || p[0] >= 0xF8) ==> r == Some(Decoded(0xFFFD, 1))
  {
    if |p| == 0 then None
    else
      var c := p[0];
      if c < 0x80 then Some(Decoded(c, 1))
      else if c & 0xE0 == 0xC0 then
        if |p| < 2 then None else Some(Decoded(Pack2(c, p[1]), 2))
      else if c & 0xF0 == 0xE0 then
        if |p| < 3 then None else Some(Decoded(Pack3(c, p[1], p[2]), 3))
      else if c & 0xF8 == 0xF0 then
        if |p| < 4 then None else Some(Decoded(Pack4(c, p[1], p[2], p[3]), 4))
      else Some(Decoded(0xFFFD, 1))
  }

  /** A continuation byte `10xxxxxx` carrying the low six bits of `x`. */
  function Continuation(x: bv32): (b: Byte)
    ensures b & 0xC0 == 0x80 && b & 0x3F == x & 0x3F
  {
    0x80 | (x & 0x3F)
  }

  /** The encoder of section 3 of RFC 3629, extended to every value below
      2^21 as the four-byte form allows. */
  function EncodeUtf8(r: bv32): seq<Byte>
    requires r < 0x200000
  {
    if r < 0x80 then [r]
    else if r < 0x800 then [0xC0 | (r >> 6), Continuation(r)]
    else if r < 0x10000 then [0xE0 | (r >> 12), Continuation(r >> 6), Continuation(r)]
    else [0xF0 | (r >> 18), Continuation(r >> 12), Continuation(r >> 6), Continuation(r)]
  }

  /** Decoding the shortest encoding gives back the value and consumes
      exactly the encoding. */
  lemma DecodeEncode(r: bv32)
    requires r < 0x200000
    ensures DecodeUtf8(EncodeUtf8(r)) == Some(Decoded(r, |EncodeUtf8(r)|))
  {
    if r < 0x80 {
    } else if r < 0x800 {
      Encode2(r);
    } else if r < 0x10000 {
      Encode3(r);
    } else {
      Encode4(r);
    }
  }

  lemma Encode2(r: bv32)
    requires 0x80 <= r < 0x800
    ensures var c: Byte := 0xC0 | (r >> 6); c >= 0x80 && c & 0xE0 == 0xC0 && Pack2(c, Continuation(r)) == r
  {
  }

  lemma Encode3(r: bv32)
    requires 0x800 <= r < 0x10000
    ensures var c: Byte := 0xE0 | (r >> 12);
      c >= 0x80 && c & 0xE0 != 0xC0 && c & 0xF0 == 0xE0 && Pack3(c, Continuation(r >> 6), Continuation(r)) == r
  {
  }

  lemma Encode4(r: bv32)
    requires 0x10000 <= r < 0x200000
    ensures var c: Byte := 0xF0 | (r >> 18);
      c >= 0x80 && c & 0xE0 != 0xC0 && c & 0xF0 != 0xE0 && c & 0xF8 == 0xF0
      && Pack4(c, Continuation(r >> 12), Continuation(r >> 6), Continuation(r)) == r
  {
  }

  /** Nothing after the leading byte is checked: the overlong form C0 80
      decodes to U+0000, a second byte that is not a continuation byte is
      still consumed, and an encoded surrogate is accepted. */
  lemma NoValidation()
    ensures DecodeUtf8([0xC0, 0x80]) == Some(Decoded(0, 2))
    ensures DecodeUtf8([0xC3, 0x41]) == Some(Decoded(0xC1, 2))
    ensures DecodeUtf8([0xED, 0xA0, 0x80]) == Some(Decoded(0xD800, 3))
  {
  }
}
