/**
 * Little-endian field readers, UTF-8 well-formedness and the 8-byte name
 * fields used by every lump.  A byte blob is a `seq<byte>`; a name is kept as
 * its UTF-8 bytes, so comparing names compares bytes.
 */
module Bytes {
  import opened Wrappers

  type byte = x: int | 0 <= x < 0x100
  type u16 = x: int | 0 <= x < 0x1_0000
  type u32 = x: int | 0 <= x < 0x1_0000_0000

  /** The UTF-8 encoding of a name. */
  type Name = seq<byte>

  /** The blobs of an archive, by name; a missing name is a failed read. */
  type DataSource = map<Name, seq<byte>>

  function Load(source: DataSource, path: Name): (r: Result<seq<byte>>)
    ensures r.Ok? <==> path in source
    ensures r.Ok? ==> r.value == source[path]
    ensures r.Err? ==> r.error == NotFound
  {
    if path in source then Ok(source[path]) else Err(NotFound)
  }

  // ---------------------------------------------------------------------
  // Little-endian integers

  function U16(s: seq<byte>, i: nat): u16
    requires i + 2 <= |s|
  {
    s[i] as int + 0x100 * s[i + 1] as int
  }

  /** Two's-complement reading of the same two bytes. */
  function I16(s: seq<byte>, i: nat): (r: int)
    requires i + 2 <= |s|
    ensures -0x8000 <= r < 0x8000
    ensures (r + 0x1_0000) % 0x1_0000 == U16(s, i)
  {
    var u := U16(s, i);
    if u < 0x8000 then u else u - 0x1_0000
  }

  function U32(s: seq<byte>, i: nat): u32
    requires i + 4 <= |s|
  {
    U16(s, i) + 0x1_0000 * U16(s, i + 2)
  }

  function I32(s: seq<byte>, i: nat): (r: int)
    requires i + 4 <= |s|
    ensures -0x8000_0000 <= r < 0x8000_0000
    ensures (r + 0x1_0000_0000) % 0x1_0000_0000 == U32(s, i)
  {
    var u := U32(s, i);
    if u < 0x8000_0000 then u else u - 0x1_0000_0000
  }

  /** The two bytes that U16 reads back as `x` (the writer side, for round trips). */
  function EncodeU16(x: u16): (r: seq<byte>)
    ensures |r| == 2
  {
    [x % 0x100, x / 0x100]
  }

  lemma {:induction false} U16RoundTrip(x: u16, prefix: seq<byte>, suffix: seq<byte>)
    ensures var s := prefix + EncodeU16(x) + suffix; U16(s, |prefix|) == x
  {
    var s := prefix + EncodeU16(x) + suffix;
    assert s[|prefix|] == x % 0x100 && s[|prefix| + 1] == x / 0x100;
  }

  // ---------------------------------------------------------------------
  // UTF-8, as Rust's `str::from_utf8` accepts it (RFC 3629: no overlong
  // forms, no surrogates, nothing above U+10FFFF)

  predicate IsContinuation(b: byte) { 0x80 <= b <= 0xBF }

  /** Length of the well-formed code point at the head of `s`, or 0 if it is ill-formed. */
  function HeadLength(s: seq<byte>): (n: nat)
    requires |s| > 0
    ensures n <= 4 && n <= |s|
    ensures n == 1 <==> s[0] < 0x80
  {
    var b0 := s[0];
    if b0 < 0x80 then 1
    else if 0xC2 <= b0 <= 0xDF then
      if |s| >= 2 && IsContinuation(s[1]) then 2 else 0
    else if 0xE0 <= b0 <= 0xEF then
      var lo := if b0 == 0xE0 then 0xA0 else 0x80;
      var hi := if b0 == 0xED then 0x9F else 0xBF;
      if |s| >= 3 && lo <= s[1] <= hi && IsContinuation(s[2]) then 3 else 0
    else if 0xF0 <= b0 <= 0xF4 then
      var lo := if b0 == 0xF0 then 0x90 else 0x80;
      var hi := if b0 == 0xF4 then 0x8F else 0xBF;
      if |s| >= 4 && lo <= s[1] <= hi && IsContinuation(s[2]) && IsContinuation(s[3]) then 4 else 0
    else 0
  }

  predicate ValidUtf8(s: seq<byte>)
    decreases |s|
  {
    |s| == 0 || (HeadLength(s) > 0 && ValidUtf8(s[HeadLength(s)..]))
  }

  /** Every ASCII byte string is valid UTF-8. */
  lemma {:induction false} AsciiIsUtf8(s: seq<byte>)
    requires forall i :: 0 <= i < |s| ==> s[i] < 0x80
    ensures ValidUtf8(s)
    decreases |s|
  {
    if |s| > 0 {
      AsciiIsUtf8(s[1..]);
    }
  }

  // ---------------------------------------------------------------------
  // 8-byte name fields

  /** `trim_end_matches('\0')`: drops every trailing NUL byte. */
  function TrimNuls(s: seq<byte>): (r: seq<byte>)
    ensures |r| <= |s| && r == s[..|r|]
    ensures forall k :: |r| <= k < |s| ==> s[k] == 0
    ensures |r| == 0 || r[|r| - 1] != 0
    decreases |s|
  {
    if |s| == 0 || s[|s| - 1] != 0 then s else TrimNuls(s[..|s| - 1])
  }

  /** The field `"-"` followed by seven NULs, which stands for "no texture". */
  const NoTextureField: seq<byte> := [0x2D, 0, 0, 0, 0, 0, 0, 0]

  /** A texture or flat name field of a sidedef or sector record. */
  function DecodeTextureName(field: seq<byte>): (r: Result<Option<Name>>)
    requires |field| == 8
    ensures r == Ok(None) <==> field == NoTextureField
    ensures r.Err? <==> field != NoTextureField && !ValidUtf8(field)
    ensures r.Err? ==> r.error == BadUtf8
    ensures r.Ok? && r.value.Some? ==> r.value.value == TrimNuls(field)
  {
    if field == NoTextureField then Ok(None)
    else if !ValidUtf8(field) then Err(BadUtf8)
    else Ok(Some(TrimNuls(field)))
  }

  /**
   * An 8-byte name read with no "no texture" sentinel (patch names, texture
   * directory entries).  The reader used for these is not part of this model;
   * it is taken to check UTF-8 and trim trailing NULs as the lump decoders do.
   */
  function ReadName(field: seq<byte>): (r: Result<Name>)
    requires |field| == 8
    ensures r.Ok? <==> ValidUtf8(field)
    ensures r.Ok? ==> r.value == TrimNuls(field)
  {
    if ValidUtf8(field) then Ok(TrimNuls(field)) else Err(BadUtf8)
  }

  /** A name of up to 8 bytes with NUL padding decodes back to itself. */
  lemma {:induction false} NameFieldRoundTrip(n: Name, field: seq<byte>)
    requires |n| <= 8 && |field| == 8 && field[..|n|] == n
    requires forall k :: |n| <= k < 8 ==> field[k] == 0
    requires |n| == 0 || n[|n| - 1] != 0
    requires ValidUtf8(field)
    ensures ReadName(field) == Ok(n)
  {
    var t := TrimNuls(field);
    assert |t| == |n|;
  }
}
