/**
 * Flats, the PNAMES table, the TEXTURE1/TEXTURE2 directories and the wall
 * texture compositor (src/doom/map/textures.rs).
 *
 * A wall texture is a W x H image assembled by copying rectangular patches
 * onto a buffer of default pixels, clamped to the texture, in the order the
 * directory lists them.  Pixel (x, y) of a W-wide image lives at index
 * x + y * W.
 */
module Textures {
  import opened Wrappers
  import opened Bytes
  import Assets
  import Lumps

  /** How a surface is drawn: an image from the registry, the sky, or nothing. */
  datatype TextureType = Normal(handle: Assets.Id) | Sky | NoTexture

  function IsSky(t: TextureType): (r: bool)
    ensures r <==> t == Sky
  {
    match t
    case Sky => true
    case _ => false
  }

  datatype IAColor = IAColor(i: byte, a: byte)

  /** The pixel a fresh wall texture starts with (`IAColor::default()`). */
  const DefaultColor := IAColor(0, 0)

  datatype ImageData = ImageData(data: seq<IAColor>, size: (nat, nat), offset: (int, int))

  /** An image holds one pixel per position of its size. */
  predicate WellFormed(img: ImageData)
  {
    |img.data| == img.size.0 * img.size.1
  }

  // ---------------------------------------------------------------------
  // Pixel arithmetic

  /** The index of position (x, y) in a w-wide image: y rows of w, then x. */
  function Idx(x: int, y: nat, w: int): int
  {
    if y == 0 then x else Idx(x, y - 1, w) + w
  }

  lemma {:induction false} IdxIsProduct(x: int, y: nat, w: int)
    ensures Idx(x, y, w) == x + y * w
  {
    if y > 0 {
      IdxIsProduct(x, y - 1, w);
      assert y * w == (y - 1) * w + w;
    }
  }

  lemma {:induction false} MulAtLeast(d: nat, w: nat)
    requires d >= 1
    ensures d * w >= w
  {
    if d > 1 {
      MulAtLeast(d - 1, w);
      assert d * w == (d - 1) * w + w;
    }
  }

  /** Position (x, y) of a w-wide image is recovered from its index. */
  lemma PixelIndex(x: int, y: nat, w: int)
    requires w > 0 && 0 <= x < w
    ensures Idx(x, y, w) % w == x && Idx(x, y, w) / w == y
  {
    IdxIsProduct(x, y, w);
    var k := x + y * w;
    var q := k / w;
    var r := k % w;
    assert k == q * w + r;
    assert (q - y) * w == x - r;
    if q > y {
      MulAtLeast(q - y, w);
    } else if q < y {
      MulAtLeast(y - q, w);
    }
  }

  lemma PixelBound(x: int, y: nat, w: nat, h: nat)
    requires 0 <= x < w && y < h
    ensures 0 <= Idx(x, y, w) < w * h
  {
    IdxIsProduct(x, y, w);
    assert y * w <= (h - 1) * w;
    assert w * h == (h - 1) * w + w;
  }

  /** Every index of a w x h image is the index of one of its positions. */
  lemma IndexIsPixel(k: int, w: nat, h: nat)
    requires 0 <= k < w * h
    ensures w > 0 && 0 <= k % w < w && 0 <= k / w < h && k == Idx(k % w, k / w, w)
  {
    var y := k / w;
    assert k == y * w + k % w;
    assert y < h;
    IdxIsProduct(k % w, y, w);
  }

  lemma PixelsInBounds(w: nat, h: nat)
    ensures forall x, y: nat {:trigger Idx(x, y, w)} :: 0 <= x < w && y < h ==> 0 <= Idx(x, y, w) < w * h
  {
    forall x, y: nat | 0 <= x < w && y < h
      ensures 0 <= Idx(x, y, w) < w * h
    {
      PixelBound(x, y, w, h);
    }
  }

  lemma IdxInjective(x1: int, y1: nat, x2: int, y2: nat, w: int)
    requires w > 0 && 0 <= x1 < w && 0 <= x2 < w
    requires Idx(x1, y1, w) == Idx(x2, y2, w)
    ensures x1 == x2 && y1 == y2
  {
    PixelIndex(x1, y1, w);
    PixelIndex(x2, y2, w);
  }

  // ---------------------------------------------------------------------
  // Flats

  const FlatSide: nat := 64

  /** A flat is 64 x 64 raw palette indices, each made an opaque pixel; extra bytes are ignored. */
  function ImportFlat(source: DataSource, path: Name): (r: Result<ImageData>)
    ensures r.Ok? <==> path in source && |source[path]| >= FlatSide * FlatSide
    ensures path in source && |source[path]| < FlatSide * FlatSide ==> r == Err(Truncated)
    ensures r.Ok? ==> && WellFormed(r.value)
                      && r.value.size == (FlatSide, FlatSide) && r.value.offset == (0, 0)
                      && forall k :: 0 <= k < |r.value.data| ==> r.value.data[k] == IAColor(source[path][k], 0xFF)
  {
    match Load(source, path)
    case Err(e) => Err(e)
    case Ok(blob) =>
      if |blob| < FlatSide * FlatSide then Err(Truncated)
      else Ok(ImageData(seq(FlatSide * FlatSide, k requires 0 <= k < FlatSide * FlatSide => IAColor(blob[k], 0xFF)),
                        (FlatSide, FlatSide), (0, 0)))
  }

  // ---------------------------------------------------------------------
  // PNAMES: a u32 count, then that many 8-byte patch names

  function ReadU32At(blob: seq<byte>, pos: nat): (r: Result<u32>)
    ensures r.Ok? <==> pos + 4 <= |blob|
    ensures r.Ok? ==> r.value == U32(blob, pos)
    ensures r.Err? ==> r.error == Truncated
  {
    if pos + 4 <= |blob| then Ok(U32(blob, pos)) else Err(Truncated)
  }

  /** n consecutive name fields from `pos`; the first short or ill-formed field is the error. */
  function ReadNames(blob: seq<byte>, pos: nat, n: nat): Result<seq<Name>>
    decreases n
  {
    if n == 0 then Ok([])
    else if pos + 8 > |blob| then Err(Truncated)
    else
      match ReadName(blob[pos..pos + 8])
      case Err(e) => Err(e)
      case Ok(x) => Lumps.Prepend([x], ReadNames(blob, pos + 8, n - 1))
  }

  lemma {:induction false} ReadNamesLength(blob: seq<byte>, pos: nat, n: nat)
    ensures ReadNames(blob, pos, n).Ok? ==> |ReadNames(blob, pos, n).value| == n && (n > 0 ==> pos + 8 * n <= |blob|)
    decreases n
  {
    if n > 0 && ReadNames(blob, pos, n).Ok? {
      ReadNamesLength(blob, pos + 8, n - 1);
      assert 8 * n == 8 + 8 * (n - 1);
    }
  }

  /** A successful read of n > 0 names is the first field's name followed by the read of the rest. */
  lemma ReadNamesCons(blob: seq<byte>, pos: nat, n: nat)
    requires ReadNames(blob, pos, n).Ok? && n > 0
    ensures pos + 8 <= |blob| && ReadName(blob[pos..pos + 8]).Ok? && ReadNames(blob, pos + 8, n - 1).Ok?
    ensures ReadNames(blob, pos, n).value == [ReadName(blob[pos..pos + 8]).value] + ReadNames(blob, pos + 8, n - 1).value
  {
  }

  /** Name k of a successful read is what the k-th 8-byte field reads as. */
  lemma {:induction false} ReadNamesAt(blob: seq<byte>, pos: nat, n: nat, k: nat)
    requires ReadNames(blob, pos, n).Ok? && k < n
    ensures pos + 8 * k + 8 <= |blob|
    ensures k < |ReadNames(blob, pos, n).value|
    ensures ReadName(blob[pos + 8 * k..pos + 8 * k + 8]) == Ok(ReadNames(blob, pos, n).value[k])
    decreases k
  {
    ReadNamesCons(blob, pos, n);
    ReadNamesLength(blob, pos + 8, n - 1);
    var all, rest := ReadNames(blob, pos, n).value, ReadNames(blob, pos + 8, n - 1).value;
    if k > 0 {
      ReadNamesAt(blob, pos + 8, n - 1, k - 1);
      var q := (pos + 8) + 8 * (k - 1);
      assert q == pos + 8 * k;
      assert blob[pos + 8 * k..pos + 8 * k + 8] == blob[q..q + 8];
      assert all[k] == rest[k - 1];
    } else {
      assert blob[pos + 8 * k..pos + 8 * k + 8] == blob[pos..pos + 8];
    }
  }

  lemma ReadNamesShape(blob: seq<byte>, pos: nat, n: nat)
    ensures ReadNames(blob, pos, n).Ok? ==>
              && |ReadNames(blob, pos, n).value| == n
              && (n > 0 ==> pos + 8 * n <= |blob|)
              && forall k :: 0 <= k < n ==>
                   ValidUtf8(blob[pos + 8 * k..pos + 8 * k + 8])
                   && ReadNames(blob, pos, n).value[k] == TrimNuls(blob[pos + 8 * k..pos + 8 * k + 8])
  {
    ReadNamesLength(blob, pos, n);
    if ReadNames(blob, pos, n).Ok? {
      forall k | 0 <= k < n
        ensures ValidUtf8(blob[pos + 8 * k..pos + 8 * k + 8])
                && ReadNames(blob, pos, n).value[k] == TrimNuls(blob[pos + 8 * k..pos + 8 * k + 8])
      {
        ReadNamesAt(blob, pos, n, k);
        assert ReadName(blob[pos + 8 * k..pos + 8 * k + 8]).Ok?;
      }
    }
  }

  function PNames(blob: seq<byte>): Result<seq<Name>>
  {
    match ReadU32At(blob, 0)
    case Err(e) => Err(e)
    case Ok(count) => ReadNames(blob, 4, count)
  }

  /** `import_pnames`: the names, one per 8-byte field after the count. */
  method ImportPNames(source: DataSource, path: Name) returns (r: Result<seq<Name>>)
    ensures path !in source ==> r == Err(NotFound)
    ensures path in source ==> r == PNames(source[path])
    ensures r.Ok? ==> |r.value| == U32(source[path], 0)
  {
    if path !in source {
      return Err(NotFound);
    }
    var blob := source[path];
    if |blob| < 4 {
      return Err(Truncated);
    }
    var count := U32(blob, 0);
    var ret: seq<Name> := [];
    Lumps.PrependNil(ReadNames(blob, 4, count));
    for n := 0 to count
      invariant |ret| == n
      invariant ReadNames(blob, 4, count) == Lumps.Prepend(ret, ReadNames(blob, 4 + 8 * n, count - n))
    {
      var pos := 4 + 8 * n;
      if pos + 8 > |blob| {
        return Err(Truncated);
      }
      var name := ReadName(blob[pos..pos + 8]);
      if name.Err? {
        return Err(name.error);
      }
      match ReadNames(blob, pos + 8, count - n - 1) {
        case Err(_) =>
        case Ok(ys) => assert ret + ([name.value] + ys) == (ret + [name.value]) + ys;
      }
      ret := ret + [name.value];
    }
    assert ret + [] == ret;
    r := Ok(ret);
    ReadNamesShape(blob, 4, count);
  }

  // ---------------------------------------------------------------------
  // TEXTURE1 / TEXTURE2: a u32 count, that many u32 record offsets, and at
  // each offset a record: name (8), unused (4), width and height (u16 each),
  // unused (4), patch count (u16), then 10 bytes per patch: x and y offset
  // (i16 each), PNAMES index (u16), unused (4).

  datatype PatchInfo = PatchInfo(offset: (int, int), name: Name)
  datatype TextureInfo = TextureInfo(size: (nat, nat), patches: seq<PatchInfo>)
  type TextureDirectory = map<Name, TextureInfo>

  /** `".patch"`, the suffix that turns a PNAMES entry into an image name. */
  const PatchSuffix: seq<byte> := [0x2E, 0x70, 0x61, 0x74, 0x63, 0x68]

  const RecordHeaderSize: nat := 22
  const PatchRecordSize: nat := 10

  function ReadOffsets(blob: seq<byte>, pos: nat, n: nat): Result<seq<nat>>
    decreases n
  {
    if n == 0 then Ok([])
    else if pos + 4 > |blob| then Err(Truncated)
    else Lumps.Prepend([U32(blob, pos) as nat], ReadOffsets(blob, pos + 4, n - 1))
  }

  lemma {:induction false} ReadOffsetsShape(blob: seq<byte>, pos: nat, n: nat)
    ensures ReadOffsets(blob, pos, n).Ok? <==> n == 0 || pos + 4 * n <= |blob|
    ensures ReadOffsets(blob, pos, n).Ok? ==>
              && |ReadOffsets(blob, pos, n).value| == n
              && forall k :: 0 <= k < n ==> ReadOffsets(blob, pos, n).value[k] == U32(blob, pos + 4 * k)
    decreases n
  {
    if n > 0 {
      ReadOffsetsShape(blob, pos + 4, n - 1);
      assert 4 * n == 4 + 4 * (n - 1);
      if ReadOffsets(blob, pos, n).Ok? {
        var r := ReadOffsets(blob, pos, n).value;
        var rest := ReadOffsets(blob, pos + 4, n - 1).value;
        forall k | 0 <= k < n
          ensures r[k] == U32(blob, pos + 4 * k)
        {
          if k > 0 {
            assert pos + 4 * k == (pos + 4) + 4 * (k - 1);
            assert r[k] == rest[k - 1];
          }
        }
      }
    }
  }

  /** n patch records from `pos`; an index past the end of `pnames` stops the read. */
  function ReadPatches(blob: seq<byte>, pos: nat, n: nat, pnames: seq<Name>): Result<seq<PatchInfo>>
    decreases n
  {
    if n == 0 then Ok([])
    else if pos + 6 > |blob| then Err(Truncated)
    else
      var index := U16(blob, pos + 4);
      if index >= |pnames| then Err(BadPatchIndex(index))
      else if pos + PatchRecordSize > |blob| then Err(Truncated)
      else Lumps.Prepend([PatchInfo((I16(blob, pos), I16(blob, pos + 2)), pnames[index] + PatchSuffix)],
                         ReadPatches(blob, pos + PatchRecordSize, n - 1, pnames))
  }

  /** Every patch record read names a real PNAMES entry, and the list has one patch per record. */
  lemma {:induction false} ReadPatchesShape(blob: seq<byte>, pos: nat, n: nat, pnames: seq<Name>)
    ensures ReadPatches(blob, pos, n, pnames).Ok? ==>
              var ps := ReadPatches(blob, pos, n, pnames).value;
              && |ps| == n && (n > 0 ==> pos + 10 * n <= |blob|)
              && forall k :: 0 <= k < n ==>
                   && U16(blob, pos + 10 * k + 4) < |pnames|
                   && ps[k] == PatchInfo((I16(blob, pos + 10 * k), I16(blob, pos + 10 * k + 2)),
                                         pnames[U16(blob, pos + 10 * k + 4)] + PatchSuffix)
    decreases n
  {
    if n > 0 && ReadPatches(blob, pos, n, pnames).Ok? {
      assert ReadPatches(blob, pos + 10, n - 1, pnames).Ok?;
      ReadPatchesShape(blob, pos + 10, n - 1, pnames);
      assert 10 * n == 10 + 10 * (n - 1);
      var ps := ReadPatches(blob, pos, n, pnames).value;
      var rest := ReadPatches(blob, pos + 10, n - 1, pnames).value;
      forall k | 0 <= k < n
        ensures && U16(blob, pos + 10 * k + 4) < |pnames|
                && ps[k] == PatchInfo((I16(blob, pos + 10 * k), I16(blob, pos + 10 * k + 2)),
                                      pnames[U16(blob, pos + 10 * k + 4)] + PatchSuffix)
      {
        if k > 0 {
          assert pos + 10 * k == (pos + 10) + 10 * (k - 1);
          assert ps[k] == rest[k - 1];
        }
      }
    }
  }

  function TextureRecord(blob: seq<byte>, offset: nat, pnames: seq<Name>): Result<(Name, TextureInfo)>
  {
    if offset + 8 > |blob| then Err(Truncated)
    else
      match ReadName(blob[offset..offset + 8])
      case Err(e) => Err(e)
      case Ok(name) =>
        if offset + RecordHeaderSize > |blob| then Err(Truncated)
        else
          match ReadPatches(blob, offset + RecordHeaderSize, U16(blob, offset + 20), pnames)
          case Err(e) => Err(e)
          case Ok(patches) => Ok((name, TextureInfo((U16(blob, offset + 12), U16(blob, offset + 14)), patches)))
  }

  function TextureRecords(blob: seq<byte>, offsets: seq<nat>, pnames: seq<Name>): Result<seq<(Name, TextureInfo)>>
    decreases |offsets|
  {
    if offsets == [] then Ok([])
    else
      match TextureRecord(blob, offsets[0], pnames)
      case Err(e) => Err(e)
      case Ok(entry) => Lumps.Prepend([entry], TextureRecords(blob, offsets[1..], pnames))
  }

  lemma {:induction false} TextureRecordsShape(blob: seq<byte>, offsets: seq<nat>, pnames: seq<Name>)
    ensures TextureRecords(blob, offsets, pnames).Ok? ==>
              && |TextureRecords(blob, offsets, pnames).value| == |offsets|
              && forall k :: 0 <= k < |offsets| ==>
                   TextureRecord(blob, offsets[k], pnames) == Ok(TextureRecords(blob, offsets, pnames).value[k])
    decreases |offsets|
  {
    if offsets != [] && TextureRecords(blob, offsets, pnames).Ok? {
      TextureRecordsShape(blob, offsets[1..], pnames);
      var r := TextureRecords(blob, offsets, pnames).value;
      var rest := TextureRecords(blob, offsets[1..], pnames).value;
      forall k | 0 <= k < |offsets|
        ensures TextureRecord(blob, offsets[k], pnames) == Ok(r[k])
      {
        if k > 0 {
          assert r[k] == rest[k - 1];
          assert offsets[k] == offsets[1..][k - 1];
        }
      }
    }
  }

  /** Entries collected into a map: a later record with the same name replaces an earlier one. */
  function ToDirectory(entries: seq<(Name, TextureInfo)>): TextureDirectory
    decreases |entries|
  {
    if entries == [] then map[]
    else
      var last := entries[|entries| - 1];
      ToDirectory(entries[..|entries| - 1])[last.0 := last.1]
  }

  /** Each name maps to the info of the last record carrying it, and only record names appear. */
  lemma {:induction false} ToDirectoryKeys(entries: seq<(Name, TextureInfo)>, name: Name)
    ensures name in ToDirectory(entries) <==> exists k :: 0 <= k < |entries| && entries[k].0 == name
    decreases |entries|
  {
    if entries != [] {
      var n := |entries| - 1;
      var init := entries[..n];
      ToDirectoryKeys(init, name);
      if entries[n].0 != name {
        if name in ToDirectory(entries) {
          var k :| 0 <= k < |init| && init[k].0 == name;
          assert entries[k].0 == name;
        }
        if exists k :: 0 <= k < |entries| && entries[k].0 == name {
          var k :| 0 <= k < |entries| && entries[k].0 == name;
          assert init[k].0 == name;
        }
      }
    }
  }

  /** The record with a name that no later record shares gives that name's info. */
  lemma {:induction false} ToDirectoryLastWins(entries: seq<(Name, TextureInfo)>, name: Name, k: nat)
    requires k < |entries| && entries[k].0 == name
    requires forall j :: k < j < |entries| ==> entries[j].0 != name
    ensures name in ToDirectory(entries) && ToDirectory(entries)[name] == entries[k].1
    decreases |entries|
  {
    var n := |entries| - 1;
    if k < n {
      var init := entries[..n];
      assert forall j :: k < j < |init| ==> init[j].0 != name by {
        forall j | k < j < |init| ensures init[j].0 != name {
          assert init[j] == entries[j];
        }
      }
      ToDirectoryLastWins(init, name, k);
      assert entries[n].0 != name;
    }
  }

  function TextureLump(blob: seq<byte>, pnames: seq<Name>): Result<TextureDirectory>
  {
    match ReadU32At(blob, 0)
    case Err(e) => Err(e)
    case Ok(count) =>
      match ReadOffsets(blob, 4, count)
      case Err(e) => Err(e)
      case Ok(offsets) =>
        match TextureRecords(blob, offsets, pnames)
        case Err(e) => Err(e)
        case Ok(entries) => Ok(ToDirectory(entries))
  }

  method ReadPatchList(blob: seq<byte>, pos: nat, n: nat, pnames: seq<Name>) returns (r: Result<seq<PatchInfo>>)
    ensures r == ReadPatches(blob, pos, n, pnames)
  {
    var patches: seq<PatchInfo> := [];
    Lumps.PrependNil(ReadPatches(blob, pos, n, pnames));
    for j := 0 to n
      invariant ReadPatches(blob, pos, n, pnames) ==
                Lumps.Prepend(patches, ReadPatches(blob, pos + PatchRecordSize * j, n - j, pnames))
    {
      var p := pos + PatchRecordSize * j;
      if p + 6 > |blob| {
        return Err(Truncated);
      }
      var offset := (I16(blob, p), I16(blob, p + 2));
      var index := U16(blob, p + 4);
      if index >= |pnames| {
        return Err(BadPatchIndex(index));
      }
      var name := pnames[index] + PatchSuffix;
      if p + PatchRecordSize > |blob| {
        return Err(Truncated);
      }
      match ReadPatches(blob, p + PatchRecordSize, n - j - 1, pnames) {
        case Err(_) =>
        case Ok(ys) => assert patches + ([PatchInfo(offset, name)] + ys) == (patches + [PatchInfo(offset, name)]) + ys;
      }
      patches := patches + [PatchInfo(offset, name)];
    }
    assert patches + [] == patches;
    r := Ok(patches);
  }

  method ReadTextureRecord(blob: seq<byte>, offset: nat, pnames: seq<Name>) returns (r: Result<(Name, TextureInfo)>)
    ensures r == TextureRecord(blob, offset, pnames)
  {
    if offset + 8 > |blob| {
      return Err(Truncated);
    }
    var name := ReadName(blob[offset..offset + 8]);
    if name.Err? {
      return Err(name.error);
    }
    if offset + RecordHeaderSize > |blob| {
      return Err(Truncated);
    }
    var size := (U16(blob, offset + 12), U16(blob, offset + 14));
    var patchCount := U16(blob, offset + 20);
    var patches := ReadPatchList(blob, offset + RecordHeaderSize, patchCount, pnames);
    if patches.Err? {
      return Err(patches.error);
    }
    r := Ok((name.value, TextureInfo(size, patches.value)));
  }

  /** The count and the record offsets that follow it. */
  method ReadOffsetTable(blob: seq<byte>) returns (r: Result<seq<nat>>)
    ensures ReadU32At(blob, 0).Err? ==> r == Err(ReadU32At(blob, 0).error)
    ensures ReadU32At(blob, 0).Ok? ==> r == ReadOffsets(blob, 4, ReadU32At(blob, 0).value)
  {
    if |blob| < 4 {
      return Err(Truncated);
    }
    var count := U32(blob, 0);
    var offsets: seq<nat> := [];
    Lumps.PrependNil(ReadOffsets(blob, 4, count));
    for n := 0 to count
      invariant ReadOffsets(blob, 4, count) == Lumps.Prepend(offsets, ReadOffsets(blob, 4 + 4 * n, count - n))
    {
      var pos := 4 + 4 * n;
      if pos + 4 > |blob| {
        return Err(Truncated);
      }
      match ReadOffsets(blob, pos + 4, count - n - 1) {
        case Err(_) =>
        case Ok(ys) => assert offsets + ([U32(blob, pos) as nat] + ys) == (offsets + [U32(blob, pos) as nat]) + ys;
      }
      offsets := offsets + [U32(blob, pos) as nat];
    }
    assert offsets + [] == offsets;
    r := Ok(offsets);
  }

  /**
   * `import_textures`: one directory entry per record offset, named by its
   * record, with the record's size and exactly its patch count of patches.
   */
  method ImportTextures(source: DataSource, path: Name, pnames: seq<Name>) returns (r: Result<TextureDirectory>)
    ensures path !in source ==> r == Err(NotFound)
    ensures path in source ==> r == TextureLump(source[path], pnames)
  {
    if path !in source {
      return Err(NotFound);
    }
    var blob := source[path];
    var table := ReadOffsetTable(blob);
    if table.Err? {
      return Err(table.error);
    }
    var offsets := table.value;
    r := CollectRecords(blob, offsets, pnames);
  }

  lemma TextureRecordsStep(blob: seq<byte>, offsets: seq<nat>, pnames: seq<Name>, j: nat,
                           entries: seq<(Name, TextureInfo)>, e: (Name, TextureInfo))
    requires j < |offsets| && TextureRecord(blob, offsets[j], pnames) == Ok(e)
    ensures Lumps.Prepend(entries, TextureRecords(blob, offsets[j..], pnames))
            == Lumps.Prepend(entries + [e], TextureRecords(blob, offsets[j + 1..], pnames))
  {
    assert offsets[j..][1..] == offsets[j + 1..];
    Lumps.PrependStep(entries, e, TextureRecords(blob, offsets[j + 1..], pnames));
  }

  lemma ToDirectoryStep(entries: seq<(Name, TextureInfo)>, e: (Name, TextureInfo))
    ensures ToDirectory(entries + [e]) == ToDirectory(entries)[e.0 := e.1]
  {
    assert (entries + [e])[..|entries|] == entries;
  }

  /** Reads the record at each offset, in order, into a directory. */
  method CollectRecords(blob: seq<byte>, offsets: seq<nat>, pnames: seq<Name>) returns (r: Result<TextureDirectory>)
    ensures TextureRecords(blob, offsets, pnames).Err? ==> r == Err(TextureRecords(blob, offsets, pnames).error)
    ensures TextureRecords(blob, offsets, pnames).Ok? ==> r == Ok(ToDirectory(TextureRecords(blob, offsets, pnames).value))
  {
    var entries: seq<(Name, TextureInfo)> := [];
    var directory: TextureDirectory := map[];
    Lumps.PrependNil(TextureRecords(blob, offsets, pnames));
    assert offsets[0..] == offsets;
    for j := 0 to |offsets|
      invariant TextureRecords(blob, offsets, pnames) == Lumps.Prepend(entries, TextureRecords(blob, offsets[j..], pnames))
      invariant directory == ToDirectory(entries)
    {
      var entry := ReadTextureRecord(blob, offsets[j], pnames);
      if entry.Err? {
        return Err(entry.error);
      }
      TextureRecordsStep(blob, offsets, pnames, j, entries, entry.value);
      ToDirectoryStep(entries, entry.value);
      directory := directory[entry.value.0 := entry.value.1];
      entries := entries + [entry.value];
    }
    assert entries + [] == entries;
    r := Ok(directory);
  }

  // ---------------------------------------------------------------------
  // Wall textures

  /** TEXTURE1 first; TEXTURE2, when the archive has one, only if TEXTURE1 lacks the name. */
  function LookupTexture(name: Name, texture1: TextureDirectory, texture2: Option<TextureDirectory>): (r: Result<TextureInfo>)
    ensures name in texture1 ==> r == Ok(texture1[name])
    ensures name !in texture1 && texture2.Some? && name in texture2.value ==> r == Ok(texture2.value[name])
    ensures r.Err? <==> name !in texture1 && (texture2.None? || name !in texture2.value)
    ensures r.Err? ==> r.error == NoSuchTexture
  {
    if name in texture1 then Ok(texture1[name])
    else if texture2.Some? && name in texture2.value then Ok(texture2.value[name])
    else Err(NoSuchTexture)
  }

  function Max(a: int, b: int): int { if a >= b then a else b }
  function Min(a: int, b: int): int { if a <= b then a else b }

  /** Texture position (x, y) lies under the patch placed at `off`. */
  predicate Covers(off: (int, int), patch: ImageData, x: int, y: int)
  {
    off.0 <= x < off.0 + patch.size.0 && off.1 <= y < off.1 + patch.size.1
  }

  /** Clamping the patch rectangle to the texture loses exactly the positions outside the texture. */
  lemma ClampedRect(off: (int, int), patch: ImageData, w: nat, h: nat, x: int, y: int)
    requires 0 <= x < w && 0 <= y < h
    ensures (Max(off.0, 0) <= x < Min(off.0 + patch.size.0, w) && Max(off.1, 0) <= y < Min(off.1 + patch.size.1, h))
            <==> Covers(off, patch, x, y)
  {
  }

  /** The patch pixel that lands on texture position (x, y). */
  function PatchPixel(off: (int, int), patch: ImageData, x: int, y: int): IAColor
    requires WellFormed(patch) && Covers(off, patch, x, y)
  {
    PixelBound(x - off.0, y - off.1, patch.size.0, patch.size.1);
    patch.data[Idx(x - off.0, y - off.1, patch.size.0)]
  }

  /** The texture after one patch is copied onto it. */
  function BlitSpec(before: seq<IAColor>, w: nat, h: nat, off: (int, int), patch: ImageData): (r: seq<IAColor>)
    requires |before| == w * h && WellFormed(patch)
    ensures |r| == w * h
  {
    seq(|before|, k requires 0 <= k < |before| =>
      IndexIsPixel(k, w, h);
      if Covers(off, patch, k % w, k / w) then PatchPixel(off, patch, k % w, k / w) else before[k])
  }

  /** After one patch, a covered position shows the patch and every other position is unchanged. */
  lemma BlitPixel(before: seq<IAColor>, w: nat, h: nat, off: (int, int), patch: ImageData, x: int, y: int)
    requires |before| == w * h && WellFormed(patch)
    requires 0 <= x < w && 0 <= y < h
    ensures 0 <= Idx(x, y, w) < w * h &&
            BlitSpec(before, w, h, off, patch)[Idx(x, y, w)] ==
              if Covers(off, patch, x, y) then PatchPixel(off, patch, x, y) else before[Idx(x, y, w)]
  {
    PixelBound(x, y, w, h);
    PixelIndex(x, y, w);
  }

  /** Copies row y of the patch, columns [x0, x1) of the texture, in place. */
  method CopyRow(data: array<IAColor>, w: nat, h: nat, off: (int, int), patch: ImageData, y: int, x0: int, x1: int)
    requires data.Length == w * h && WellFormed(patch)
    requires 0 <= y < h && 0 <= x0 && x1 <= w
    requires off.0 <= x0 && x1 <= off.0 + patch.size.0 && off.1 <= y < off.1 + patch.size.1
    modifies data
    ensures (PixelsInBounds(w, h);
             forall x, y' {:trigger Idx(x, y', w)} :: 0 <= x < w && 0 <= y' < h ==>
               data[Idx(x, y', w)] ==
                 if y' == y && x0 <= x < x1 then PatchPixel(off, patch, x, y) else old(data[Idx(x, y', w)]))
  {
    PixelsInBounds(w, h);
    var srcY := y - off.1;
    var destYIndex := y * w;
    var srcYIndex := srcY * patch.size.0;
    var destX := x0;
    while destX < x1
      invariant x0 <= destX <= Max(x0, x1)
      invariant forall x, y' {:trigger Idx(x, y', w)} :: 0 <= x < w && 0 <= y' < h ==>
                  data[Idx(x, y', w)] ==
                    if y' == y && x0 <= x < destX then PatchPixel(off, patch, x, y) else old(data[Idx(x, y', w)])
      decreases x1 - destX
    {
      var srcX := destX - off.0;
      var srcIndex := srcX + srcYIndex;
      var destIndex := destX + destYIndex;
      PixelBound(srcX, srcY, patch.size.0, patch.size.1);
      PixelBound(destX, y, w, h);
      IdxIsProduct(srcX, srcY, patch.size.0);
      IdxIsProduct(destX, y, w);
      data[destIndex] := patch.data[srcIndex];
      forall x, y' | 0 <= x < w && 0 <= y' < h && Idx(x, y', w) == destIndex
        ensures x == destX && y' == y
      {
        IdxInjective(x, y', destX, y, w);
      }
      destX := destX + 1;
    }
  }

  /**
   * The patch blit of `import_wall`: copies the patch into the buffer over
   * the patch rectangle clamped to the texture, in place.
   */
  method Blit(data: array<IAColor>, w: nat, h: nat, off: (int, int), patch: ImageData)
    requires data.Length == w * h && WellFormed(patch)
    modifies data
    ensures data[..] == BlitSpec(old(data[..]), w, h, off, patch)
  {
    ghost var before := data[..];
    PixelsInBounds(w, h);
    var destStart := (Max(off.0, 0), Max(off.1, 0));
    var destEnd := (Min(off.0 + patch.size.0, w), Min(off.1 + patch.size.1, h));
    var destY := destStart.1;
    while destY < destEnd.1
      invariant destStart.1 <= destY <= Max(destStart.1, destEnd.1)
      invariant forall x, y {:trigger Idx(x, y, w)} :: 0 <= x < w && 0 <= y < h ==>
                  data[Idx(x, y, w)] ==
                    if destStart.0 <= x < destEnd.0 && destStart.1 <= y < destY
                    then PatchPixel(off, patch, x, y) else before[Idx(x, y, w)]
      decreases destEnd.1 - destY
    {
      CopyRow(data, w, h, off, patch, destY, destStart.0, destEnd.0);
      destY := destY + 1;
    }
    forall k | 0 <= k < data.Length
      ensures data[k] == BlitSpec(before, w, h, off, patch)[k]
    {
      IndexIsPixel(k, w, h);
      ClampedRect(off, patch, w, h, k % w, k / w);
    }
    assert data[..] == BlitSpec(before, w, h, off, patch);
  }

  /** A patch together with where the directory places it. */
  datatype Placement = Placement(offset: (int, int), image: ImageData)

  predicate AllWellFormed(ps: seq<Placement>)
  {
    forall j :: 0 <= j < |ps| ==> WellFormed(ps[j].image)
  }

  /** The texture after the patches are copied in order. */
  function Compose(base: seq<IAColor>, w: nat, h: nat, ps: seq<Placement>): (r: seq<IAColor>)
    requires |base| == w * h && AllWellFormed(ps)
    ensures |r| == w * h
    decreases |ps|
  {
    if ps == [] then base
    else
      var last := ps[|ps| - 1];
      BlitSpec(Compose(base, w, h, ps[..|ps| - 1]), w, h, last.offset, last.image)
  }

  /** The last patch in the list that covers (x, y), if any. */
  function LastCover(ps: seq<Placement>, x: int, y: int): (r: Option<nat>)
    ensures r.Some? ==> r.value < |ps| && Covers(ps[r.value].offset, ps[r.value].image, x, y)
    ensures r.Some? ==> forall j :: r.value < j < |ps| ==> !Covers(ps[j].offset, ps[j].image, x, y)
    ensures r.None? ==> forall j :: 0 <= j < |ps| ==> !Covers(ps[j].offset, ps[j].image, x, y)
    decreases |ps|
  {
    if ps == [] then None
    else if Covers(ps[|ps| - 1].offset, ps[|ps| - 1].image, x, y) then Some(|ps| - 1)
    else LastCover(ps[..|ps| - 1], x, y)
  }

  /**
   * The compositing rule: each position shows the last patch that covers it
   * (later patches overwrite earlier ones), and a position no patch covers
   * keeps its default pixel.
   */
  lemma {:induction false} ComposePixel(base: seq<IAColor>, w: nat, h: nat, ps: seq<Placement>, x: int, y: int)
    requires |base| == w * h && AllWellFormed(ps)
    requires 0 <= x < w && 0 <= y < h
    ensures 0 <= Idx(x, y, w) < w * h
    ensures LastCover(ps, x, y).None? ==> Compose(base, w, h, ps)[Idx(x, y, w)] == base[Idx(x, y, w)]
    ensures LastCover(ps, x, y).Some? ==>
              Compose(base, w, h, ps)[Idx(x, y, w)]
              == PatchPixel(ps[LastCover(ps, x, y).value].offset, ps[LastCover(ps, x, y).value].image, x, y)
    decreases |ps|
  {
    PixelBound(x, y, w, h);
    if ps != [] {
      var init := ps[..|ps| - 1];
      var last := ps[|ps| - 1];
      assert AllWellFormed(init) by {
        forall j | 0 <= j < |init|
          ensures WellFormed(init[j].image)
        {
          assert init[j] == ps[j];
        }
      }
      ComposePixel(base, w, h, init, x, y);
      BlitPixel(Compose(base, w, h, init), w, h, last.offset, last.image, x, y);
    }
  }

  function Placements(patches: seq<PatchInfo>, images: map<Name, ImageData>): (r: seq<Placement>)
    requires forall p :: p in patches ==> p.name in images
    ensures |r| == |patches|
    ensures forall j :: 0 <= j < |r| ==> r[j] == Placement(patches[j].offset, images[patches[j].name])
  {
    seq(|patches|, j requires 0 <= j < |patches| => Placement(patches[j].offset, images[patches[j].name]))
  }

  /**
   * `import_wall` for the texture named `name` (the file stem of the
   * requested path): look the name up, then copy its patches, in order, onto
   * a buffer of default pixels.  `images` are the patch images the registry
   * holds, by name.
   */
  method ImportWall(name: Name, texture1: TextureDirectory, texture2: Option<TextureDirectory>,
                    images: map<Name, ImageData>) returns (r: Result<ImageData>)
    requires forall n :: n in images ==> WellFormed(images[n])
    requires LookupTexture(name, texture1, texture2).Ok? ==>
               forall p :: p in LookupTexture(name, texture1, texture2).value.patches ==> p.name in images
    ensures r.Err? <==> LookupTexture(name, texture1, texture2).Err?
    ensures r.Err? ==> r.error == NoSuchTexture
    ensures r.Ok? ==>
              var info := LookupTexture(name, texture1, texture2).value;
              var ps := Placements(info.patches, images);
              && AllWellFormed(ps)
              && r.value.size == info.size && r.value.offset == (0, 0) && WellFormed(r.value)
              && r.value.data == Compose(seq(info.size.0 * info.size.1, _ => DefaultColor), info.size.0, info.size.1, ps)
  {
    var found := LookupTexture(name, texture1, texture2);
    if found.Err? {
      return Err(found.error);
    }
    var info := found.value;
    var w := info.size.0;
    var h := info.size.1;
    ghost var ps := Placements(info.patches, images);
    ghost var base := seq(w * h, _ => DefaultColor);
    var data := new IAColor[w * h](_ => DefaultColor);
    assert data[..] == base;
    for j := 0 to |info.patches|
      invariant AllWellFormed(ps[..j])
      invariant data[..] == Compose(base, w, h, ps[..j])
    {
      var patchInfo := info.patches[j];
      assert patchInfo in info.patches;
      var image := images[patchInfo.name];
      Blit(data, w, h, patchInfo.offset, image);
      assert ps[..j + 1][..j] == ps[..j];
      assert ps[..j + 1][j] == Placement(patchInfo.offset, image);
    }
    assert ps[..|info.patches|] == ps;
    r := Ok(ImageData(data[..], (w, h), (0, 0)));
  }
}
