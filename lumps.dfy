/**
 * The fixed-record lump formats of a level (src/doom/map/load.rs): things,
 * linedefs, sidedefs, vertexes and sectors, and the glBSP "GL-Nodes"
 * version 2 lumps GL_VERT, GL_SEGS, GL_SSECT and GL_NODES.
 *
 * Every lump is a run of fixed-size little-endian records read until the blob
 * is exhausted; a trailing partial record is a read failure.  Floating-point
 * conversions are not modelled: coordinates stay integers, and both vertex
 * arrays are kept in 16.16 fixed-point units (a normal vertex is its map
 * coordinate times 0x10000, a GL vertex is its raw 32-bit value).
 */
module Lumps {
  import opened Wrappers
  import opened Bytes

  // ---------------------------------------------------------------------
  // Decoded records

  datatype ThingData = ThingData(x: int, y: int, angle: u16, doomednum: u16, flags: bv16)

  datatype LinedefData = LinedefData(
    vertexIndices: (nat, nat),
    flags: bv16,
    specialType: u16,
    sectorTag: u16,
    sidedefIndices: (Option<nat>, Option<nat>))

  datatype SidedefData = SidedefData(
    textureOffset: (int, int),
    topTextureName: Option<Name>,
    bottomTextureName: Option<Name>,
    middleTextureName: Option<Name>,
    sectorIndex: nat)

  /** A vertex in 16.16 fixed-point map units. */
  datatype Point = Point(x: int, y: int)

  datatype SectorData = SectorData(
    floorHeight: int,
    ceilingHeight: int,
    floorFlatName: Option<Name>,
    ceilingFlatName: Option<Name>,
    lightLevel: u16,
    specialType: u16,
    sectorTag: u16)

  /** A seg endpoint: an index into the normal vertexes or into the GL vertexes. */
  datatype EitherVertex = Normal(index: nat) | GL(index: nat)

  /** Which side of its linedef a seg runs along; side 0 is the right. */
  datatype Side = Right | Left

  datatype GLSegData = GLSegData(
    vertexIndices: (EitherVertex, EitherVertex),
    linedefIndex: Option<nat>,
    linedefSide: Side,
    partnerSegIndex: Option<nat>)

  datatype GLSSectData = GLSSectData(segCount: nat, firstSegIndex: nat)

  /** A BSP child: a leaf subsector or another node. */
  datatype NodeChild = Subsector(index: nat) | Node(index: nat)

  /** A child bounding box as the four 16-bit extents the lump stores. */
  datatype BBox = BBox(top: int, bottom: int, left: int, right: int)

  datatype GLNodeData = GLNodeData(
    partitionPoint: (int, int),
    partitionDir: (int, int),
    childBboxes: (BBox, BBox),
    childIndices: (NodeChild, NodeChild))

  /** Everything `Map::import` decodes, before any index is checked. */
  datatype MapData = MapData(
    linedefs: seq<LinedefData>,
    sidedefs: seq<SidedefData>,
    vertexes: seq<Point>,
    sectors: seq<SectorData>,
    glVert: seq<Point>,
    glSegs: seq<GLSegData>,
    glSsect: seq<GLSSectData>,
    glNodes: seq<GLNodeData>)

  function Slot<T>(pair: (T, T), side: Side): T
  {
    match side
    case Right => pair.0
    case Left => pair.1
  }

  // ---------------------------------------------------------------------
  // Field conventions

  /** A 16-bit index field: 0xFFFF means "no reference". */
  function Index16(x: u16): (r: Option<nat>)
    ensures r.None? <==> x == 0xFFFF
    ensures r.Some? ==> r.value == x && r.value < 0xFFFF
  {
    if x == 0xFFFF then None else Some(x)
  }

  /**
   * A seg vertex field: bit 15 selects the GL vertexes, the low 15 bits are
   * the index.  On a 16-bit value, testing bit 15 is `x >= 0x8000` and
   * masking it off is subtracting 0x8000.
   */
  function DecodeVertexRef(x: u16): (r: EitherVertex)
    ensures r.GL? <==> x >= 0x8000
    ensures r.index < 0x8000 && r.index == x % 0x8000
  {
    if x >= 0x8000 then GL(x - 0x8000) else Normal(x)
  }

  /** A node child field: bit 15 marks a subsector leaf, the low 15 bits are the index. */
  function DecodeChild(x: u16): (r: NodeChild)
    ensures r.Subsector? <==> x >= 0x8000
    ensures r.index < 0x8000 && r.index == x % 0x8000
  {
    if x >= 0x8000 then Subsector(x - 0x8000) else Node(x)
  }

  function DecodeSide(x: u16): (r: Side)
    ensures r == Right <==> x == 0
  {
    if x == 0 then Right else Left
  }

  /** Flag words keep only their defined bits (`from_bits_truncate`). */
  const ThingFlagBits: bv16 := 0x000F
  const LinedefFlagBits: bv16 := 0x00FF

  // ---------------------------------------------------------------------
  // One record each

  function DecodeThing(c: seq<byte>): (r: Result<ThingData>)
    requires |c| == 10
    ensures r.Ok? && r.value.flags & !ThingFlagBits == 0
  {
    Ok(ThingData(I16(c, 0), I16(c, 2), U16(c, 4), U16(c, 6), (U16(c, 8) as bv16) & ThingFlagBits))
  }

  function DecodeLinedef(c: seq<byte>): (r: Result<LinedefData>)
    requires |c| == 14
    ensures r.Ok? && r.value.flags & !LinedefFlagBits == 0
    ensures r.Ok? && r.value.sidedefIndices == (Index16(U16(c, 10)), Index16(U16(c, 12)))
  {
    Ok(LinedefData(
      (U16(c, 0), U16(c, 2)),
      (U16(c, 4) as bv16) & LinedefFlagBits,
      U16(c, 6),
      U16(c, 8),
      (Index16(U16(c, 10)), Index16(U16(c, 12)))))
  }

  function DecodeSidedef(c: seq<byte>): (r: Result<SidedefData>)
    requires |c| == 30
    ensures r.Ok? <==> DecodeTextureName(c[4..12]).Ok? && DecodeTextureName(c[12..20]).Ok?
                       && DecodeTextureName(c[20..28]).Ok?
    ensures r.Ok? ==> r.value.sectorIndex == U16(c, 28)
  {
    match DecodeTextureName(c[4..12])
    case Err(e) => Err(e)
    case Ok(top) =>
      match DecodeTextureName(c[12..20])
      case Err(e) => Err(e)
      case Ok(bottom) =>
        match DecodeTextureName(c[20..28])
        case Err(e) => Err(e)
        case Ok(middle) => Ok(SidedefData((I16(c, 0), I16(c, 2)), top, bottom, middle, U16(c, 28)))
  }

  function DecodeVertex(c: seq<byte>): (r: Result<Point>)
    requires |c| == 4
    ensures r.Ok? && r.value.x % 0x1_0000 == 0 && r.value.y % 0x1_0000 == 0
  {
    Ok(Point(I16(c, 0) * 0x1_0000, I16(c, 2) * 0x1_0000))
  }

  function DecodeSector(c: seq<byte>): (r: Result<SectorData>)
    requires |c| == 26
    ensures r.Ok? <==> DecodeTextureName(c[4..12]).Ok? && DecodeTextureName(c[12..20]).Ok?
  {
    match DecodeTextureName(c[4..12])
    case Err(e) => Err(e)
    case Ok(floor) =>
      match DecodeTextureName(c[12..20])
      case Err(e) => Err(e)
      case Ok(ceiling) => Ok(SectorData(I16(c, 0), I16(c, 2), floor, ceiling, U16(c, 20), U16(c, 22), U16(c, 24)))
  }

  function DecodeGLVert(c: seq<byte>): (r: Result<Point>)
    requires |c| == 8
    ensures r.Ok? && -0x8000_0000 <= r.value.x < 0x8000_0000 && -0x8000_0000 <= r.value.y < 0x8000_0000
  {
    Ok(Point(I32(c, 0), I32(c, 4)))
  }

  function DecodeGLSeg(c: seq<byte>): (r: Result<GLSegData>)
    requires |c| == 10
    ensures r.Ok?
    ensures r.Ok? ==> r.value.linedefIndex == Index16(U16(c, 4)) && r.value.partnerSegIndex == Index16(U16(c, 8))
  {
    Ok(GLSegData(
      (DecodeVertexRef(U16(c, 0)), DecodeVertexRef(U16(c, 2))),
      Index16(U16(c, 4)),
      DecodeSide(U16(c, 6)),
      Index16(U16(c, 8))))
  }

  function DecodeGLSSect(c: seq<byte>): (r: Result<GLSSectData>)
    requires |c| == 4
    ensures r.Ok? && r.value.segCount < 0x1_0000 && r.value.firstSegIndex < 0x1_0000
  {
    Ok(GLSSectData(U16(c, 0), U16(c, 2)))
  }

  function DecodeBBox(c: seq<byte>, i: nat): BBox
    requires i + 8 <= |c|
  {
    BBox(I16(c, i), I16(c, i + 2), I16(c, i + 4), I16(c, i + 6))
  }

  function DecodeGLNode(c: seq<byte>): (r: Result<GLNodeData>)
    requires |c| == 28
    ensures r.Ok? && r.value.childIndices.0.index < 0x8000 && r.value.childIndices.1.index < 0x8000
  {
    Ok(GLNodeData(
      (I16(c, 0), I16(c, 2)),
      (I16(c, 4), I16(c, 6)),
      (DecodeBBox(c, 8), DecodeBBox(c, 16)),
      (DecodeChild(U16(c, 24)), DecodeChild(U16(c, 26)))))
  }

  // ---------------------------------------------------------------------
  // Runs of records

  /** Reads records of `size` bytes from the front until the blob is used up. */
  function DecodeRecords<T>(data: seq<byte>, size: nat, decode: seq<byte> --> Result<T>): Result<seq<T>>
    requires size > 0
    requires forall c: seq<byte> :: |c| == size ==> decode.requires(c)
    decreases |data|
  {
    if |data| == 0 then Ok([])
    else if |data| < size then Err(Truncated)
    else
      match decode(data[..size])
      case Err(e) => Err(e)
      case Ok(x) =>
        match DecodeRecords(data[size..], size, decode)
        case Err(e) => Err(e)
        case Ok(xs) => Ok([x] + xs)
  }

  /** Where record k starts: k records of `size` bytes lie before it. */
  function Offset(k: nat, size: nat): nat
  {
    if k == 0 then 0 else Offset(k - 1, size) + size
  }

  lemma {:induction false} OffsetIsProduct(k: nat, size: nat)
    ensures Offset(k, size) == k * size
  {
    if k > 0 {
      OffsetIsProduct(k - 1, size);
      assert k * size == (k - 1) * size + size;
    }
  }

  lemma {:induction false} OffsetBound(k: nat, n: nat, size: nat)
    requires k < n
    ensures Offset(k, size) + size <= Offset(n, size)
    decreases n
  {
    if k < n - 1 {
      OffsetBound(k, n - 1, size);
    }
  }

  /** `rs` is what the blob holds: the first `size` bytes decode to the first record, and the rest holds the rest. */
  ghost predicate RecordsOf<T>(data: seq<byte>, size: nat, decode: seq<byte> --> Result<T>, rs: seq<T>)
    requires size > 0
    requires forall c: seq<byte> :: |c| == size ==> decode.requires(c)
    decreases |rs|
  {
    if rs == [] then |data| == 0
    else size <= |data| && decode(data[..size]) == Ok(rs[0]) && RecordsOf(data[size..], size, decode, rs[1..])
  }

  /** Record k + 1 of a blob is record k of what follows its first record. */
  lemma {:induction false} OffsetShift(k: nat, size: nat)
    ensures Offset(k + 1, size) == size + Offset(k, size)
    decreases k
  {
    if k > 0 {
      OffsetShift(k - 1, size);
    }
  }

  lemma ChunkOfTail(data: seq<byte>, size: nat, k: nat)
    requires size <= |data| && Offset(k, size) + size <= |data| - size
    ensures Offset(k + 1, size) + size <= |data|
    ensures data[size..][Offset(k, size)..Offset(k, size) + size] == data[Offset(k + 1, size)..Offset(k + 1, size) + size]
  {
    OffsetShift(k, size);
  }

  /** A blob of records is exactly as long as its records. */
  lemma {:induction false} RecordsOfLength<T>(data: seq<byte>, size: nat, decode: seq<byte> --> Result<T>, rs: seq<T>)
    requires size > 0
    requires forall c: seq<byte> :: |c| == size ==> decode.requires(c)
    requires RecordsOf(data, size, decode, rs)
    ensures |data| == Offset(|rs|, size)
    decreases |rs|
  {
    if rs != [] {
      RecordsOfLength(data[size..], size, decode, rs[1..]);
      OffsetShift(|rs| - 1, size);
    }
  }

  /** Record k of a blob is decoded from its k-th chunk of `size` bytes. */
  lemma {:induction false} RecordsOfChunk<T>(data: seq<byte>, size: nat, decode: seq<byte> --> Result<T>, rs: seq<T>, k: nat)
    requires size > 0
    requires forall c: seq<byte> :: |c| == size ==> decode.requires(c)
    requires RecordsOf(data, size, decode, rs) && k < |rs|
    ensures Offset(k, size) + size <= |data|
    ensures decode(data[Offset(k, size)..Offset(k, size) + size]) == Ok(rs[k])
    decreases k
  {
    if k == 0 {
      assert data[0..size] == data[..size];
    } else {
      RecordsOfChunk(data[size..], size, decode, rs[1..], k - 1);
      ChunkOfTail(data, size, k - 1);
      assert rs[1..][k - 1] == rs[k];
    }
  }

  /** The reader's successes are exactly the blobs of whole records each of which decodes. */
  lemma {:induction false} DecodeRecordsSound<T>(data: seq<byte>, size: nat, decode: seq<byte> --> Result<T>)
    requires size > 0
    requires forall c: seq<byte> :: |c| == size ==> decode.requires(c)
    ensures DecodeRecords(data, size, decode).Ok? ==> RecordsOf(data, size, decode, DecodeRecords(data, size, decode).value)
    decreases |data|
  {
    var r := DecodeRecords(data, size, decode);
    if |data| >= size && r.Ok? {
      DecodeRecordsSound(data[size..], size, decode);
      var xs := DecodeRecords(data[size..], size, decode).value;
      assert r.value[1..] == xs;
    }
  }

  /** Any reading of the blob as whole records is the one the reader returns. */
  lemma {:induction false} DecodeRecordsComplete<T>(data: seq<byte>, size: nat, decode: seq<byte> --> Result<T>, rs: seq<T>)
    requires size > 0
    requires forall c: seq<byte> :: |c| == size ==> decode.requires(c)
    requires RecordsOf(data, size, decode, rs)
    ensures DecodeRecords(data, size, decode) == Ok(rs)
    decreases |rs|
  {
    if rs != [] {
      DecodeRecordsComplete(data[size..], size, decode, rs[1..]);
      assert rs == [rs[0]] + rs[1..];
    }
  }

  /** A blob of m whole records and a partial one (0 < t < size bytes) fails to decode. */
  lemma {:induction false} TruncatedFails<T>(data: seq<byte>, size: nat, decode: seq<byte> --> Result<T>, m: nat, t: nat)
    requires size > 0
    requires forall c: seq<byte> :: |c| == size ==> decode.requires(c)
    requires 0 < t < size && |data| == m * size + t
    ensures DecodeRecords(data, size, decode).Err?
    decreases m
  {
    if m > 0 {
      assert m * size == (m - 1) * size + size;
      TruncatedFails(data[size..], size, decode, m - 1, t);
    }
  }

  /** `xs` in front of a successful read; a failed read stays failed. */
  function Prepend<T>(xs: seq<T>, r: Result<seq<T>>): (p: Result<seq<T>>)
    ensures p.Ok? <==> r.Ok?
    ensures p.Ok? ==> p.value == xs + r.value
    ensures p.Err? ==> p.error == r.error
  {
    match r
    case Err(e) => Err(e)
    case Ok(ys) => Ok(xs + ys)
  }

  lemma PrependNil<T>(r: Result<seq<T>>)
    ensures Prepend([], r) == r
  {
    match r
    case Err(_) =>
    case Ok(ys) => assert [] + ys == ys;
  }

  /** Moving one element from the pending read onto the prefix. */
  lemma PrependStep<T>(xs: seq<T>, x: T, r: Result<seq<T>>)
    ensures Prepend(xs, Prepend([x], r)) == Prepend(xs + [x], r)
  {
    match r
    case Err(_) =>
    case Ok(ys) => assert xs + ([x] + ys) == (xs + [x]) + ys;
  }

  /** The cursor loop of every format's `import`: decode records while bytes remain. */
  method ReadRecords<T>(data: seq<byte>, size: nat, decode: seq<byte> --> Result<T>) returns (r: Result<seq<T>>)
    requires size > 0
    requires forall c: seq<byte> :: |c| == size ==> decode.requires(c)
    ensures r == DecodeRecords(data, size, decode)
  {
    var ret: seq<T> := [];
    var position := 0;
    assert data[0..] == data;
    assert DecodeRecords(data, size, decode) == Prepend(ret, DecodeRecords(data, size, decode)) by {
      match DecodeRecords(data, size, decode)
      case Err(_) =>
      case Ok(ys) => assert [] + ys == ys;
    }
    while position < |data|
      invariant 0 <= position <= |data|
      invariant DecodeRecords(data, size, decode) == Prepend(ret, DecodeRecords(data[position..], size, decode))
      decreases |data| - position
    {
      var remaining := data[position..];
      if |remaining| < size {
        return Err(Truncated);
      }
      var record := decode(data[position..position + size]);
      assert remaining[..size] == data[position..position + size];
      assert remaining[size..] == data[position + size..];
      if record.Err? {
        return Err(record.error);
      }
      var tail := DecodeRecords(data[position + size..], size, decode);
      assert DecodeRecords(remaining, size, decode) == Prepend([record.value], tail);
      match tail {
        case Err(_) =>
        case Ok(ys) => assert ret + ([record.value] + ys) == (ret + [record.value]) + ys;
      }
      ret := ret + [record.value];
      position := position + size;
    }
    assert data[position..] == [];
    assert ret + [] == ret;
    r := Ok(ret);
  }

  // ---------------------------------------------------------------------
  // The formats: which blob each reads and how

  /** `"<name>/+<k>"`, the path of the k-th lump after a level marker. */
  function LumpPath(name: Name, k: nat): (p: Name)
    requires k <= 9
    ensures |p| == |name| + 3 && p[..|name|] == name
  {
    name + [0x2F, 0x2B, 0x30 + k]
  }

  /** `"GL_<name>"`, the marker of a level's GL lumps. */
  function GLName(name: Name): (p: Name)
    ensures |p| == |name| + 3 && p[3..] == name
  {
    [0x47, 0x4C, 0x5F] + name
  }

  /** The magic `"gNd2"` that opens a version 2 GL_VERT lump. */
  const GLVertMagic: seq<byte> := [0x67, 0x4E, 0x64, 0x32]

  function ThingsFormat(source: DataSource, name: Name): (r: Result<seq<ThingData>>)
    ensures r.Ok? ==> LumpPath(name, 1) in source && RecordsOf(source[LumpPath(name, 1)], 10, DecodeThing, r.value)
    ensures LumpPath(name, 1) !in source ==> r == Err(NotFound)
  {
    match Load(source, LumpPath(name, 1))
    case Err(e) => Err(e)
    case Ok(data) => DecodeRecordsSound(data, 10, DecodeThing); DecodeRecords(data, 10, DecodeThing)
  }

  function LinedefsFormat(source: DataSource, name: Name): (r: Result<seq<LinedefData>>)
    ensures r.Ok? ==> LumpPath(name, 2) in source && RecordsOf(source[LumpPath(name, 2)], 14, DecodeLinedef, r.value)
    ensures LumpPath(name, 2) !in source ==> r == Err(NotFound)
  {
    match Load(source, LumpPath(name, 2))
    case Err(e) => Err(e)
    case Ok(data) => DecodeRecordsSound(data, 14, DecodeLinedef); DecodeRecords(data, 14, DecodeLinedef)
  }

  function SidedefsFormat(source: DataSource, name: Name): (r: Result<seq<SidedefData>>)
    ensures r.Ok? ==> LumpPath(name, 3) in source && RecordsOf(source[LumpPath(name, 3)], 30, DecodeSidedef, r.value)
    ensures LumpPath(name, 3) !in source ==> r == Err(NotFound)
  {
    match Load(source, LumpPath(name, 3))
    case Err(e) => Err(e)
    case Ok(data) => DecodeRecordsSound(data, 30, DecodeSidedef); DecodeRecords(data, 30, DecodeSidedef)
  }

  function VertexesFormat(source: DataSource, name: Name): (r: Result<seq<Point>>)
    ensures r.Ok? ==> LumpPath(name, 4) in source && RecordsOf(source[LumpPath(name, 4)], 4, DecodeVertex, r.value)
    ensures LumpPath(name, 4) !in source ==> r == Err(NotFound)
  {
    match Load(source, LumpPath(name, 4))
    case Err(e) => Err(e)
    case Ok(data) => DecodeRecordsSound(data, 4, DecodeVertex); DecodeRecords(data, 4, DecodeVertex)
  }

  function SectorsFormat(source: DataSource, name: Name): (r: Result<seq<SectorData>>)
    ensures r.Ok? ==> LumpPath(name, 8) in source && RecordsOf(source[LumpPath(name, 8)], 26, DecodeSector, r.value)
    ensures LumpPath(name, 8) !in source ==> r == Err(NotFound)
  {
    match Load(source, LumpPath(name, 8))
    case Err(e) => Err(e)
    case Ok(data) => DecodeRecordsSound(data, 26, DecodeSector); DecodeRecords(data, 26, DecodeSector)
  }

  /** GL_VERT: the 4-byte magic, then 8-byte records. */
  function GLVertFormat(source: DataSource, glName: Name): (r: Result<seq<Point>>)
    ensures r.Ok? ==> && LumpPath(glName, 1) in source
                      && var data := source[LumpPath(glName, 1)];
                         |data| >= 4 && data[..4] == GLVertMagic && RecordsOf(data[4..], 8, DecodeGLVert, r.value)
    ensures (LumpPath(glName, 1) in source && |source[LumpPath(glName, 1)]| >= 4
             && source[LumpPath(glName, 1)][..4] != GLVertMagic) ==> r == Err(BadSignature)
  {
    match Load(source, LumpPath(glName, 1))
    case Err(e) => Err(e)
    case Ok(data) =>
      if |data| < 4 then Err(Truncated)
      else if data[..4] != GLVertMagic then Err(BadSignature)
      else DecodeRecordsSound(data[4..], 8, DecodeGLVert); DecodeRecords(data[4..], 8, DecodeGLVert)
  }

  function GLSegsFormat(source: DataSource, glName: Name): (r: Result<seq<GLSegData>>)
    ensures r.Ok? ==> LumpPath(glName, 2) in source && RecordsOf(source[LumpPath(glName, 2)], 10, DecodeGLSeg, r.value)
    ensures LumpPath(glName, 2) !in source ==> r == Err(NotFound)
  {
    match Load(source, LumpPath(glName, 2))
    case Err(e) => Err(e)
    case Ok(data) => DecodeRecordsSound(data, 10, DecodeGLSeg); DecodeRecords(data, 10, DecodeGLSeg)
  }

  function GLSSectFormat(source: DataSource, glName: Name): (r: Result<seq<GLSSectData>>)
    ensures r.Ok? ==> LumpPath(glName, 3) in source && RecordsOf(source[LumpPath(glName, 3)], 4, DecodeGLSSect, r.value)
    ensures LumpPath(glName, 3) !in source ==> r == Err(NotFound)
  {
    match Load(source, LumpPath(glName, 3))
    case Err(e) => Err(e)
    case Ok(data) => DecodeRecordsSound(data, 4, DecodeGLSSect); DecodeRecords(data, 4, DecodeGLSSect)
  }

  function GLNodesFormat(source: DataSource, glName: Name): (r: Result<seq<GLNodeData>>)
    ensures r.Ok? ==> LumpPath(glName, 4) in source && RecordsOf(source[LumpPath(glName, 4)], 28, DecodeGLNode, r.value)
    ensures LumpPath(glName, 4) !in source ==> r == Err(NotFound)
  {
    match Load(source, LumpPath(glName, 4))
    case Err(e) => Err(e)
    case Ok(data) => DecodeRecordsSound(data, 28, DecodeGLNode); DecodeRecords(data, 28, DecodeGLNode)
  }

  /** Imports one lump with the shared cursor loop. */
  method ImportRecords<T>(source: DataSource, path: Name, size: nat, decode: seq<byte> --> Result<T>) returns (r: Result<seq<T>>)
    requires size > 0
    requires forall c: seq<byte> :: |c| == size ==> decode.requires(c)
    ensures path !in source ==> r == Err(NotFound)
    ensures path in source ==> r == DecodeRecords(source[path], size, decode)
  {
    if path !in source {
      return Err(NotFound);
    }
    r := ReadRecords(source[path], size, decode);
  }

  method ImportGLVert(source: DataSource, glName: Name) returns (r: Result<seq<Point>>)
    ensures r == GLVertFormat(source, glName)
  {
    var path := LumpPath(glName, 1);
    if path !in source {
      return Err(NotFound);
    }
    var data := source[path];
    if |data| < 4 {
      return Err(Truncated);
    }
    if data[..4] != GLVertMagic {
      return Err(BadSignature);
    }
    r := ReadRecords(data[4..], 8, DecodeGLVert);
  }
}
