/**
 * `Map::import` (src/doom/map/load.rs): read the eight lumps of a level in a
 * fixed order, then bounds-check every positional cross-reference before
 * anything is built.  The first failed read or the first out-of-range index
 * ends the import with an error and no map data.
 */
module Validator {
  import opened Wrappers
  import opened Bytes
  import opened Lumps

  // ---------------------------------------------------------------------
  // What a well-formed level is (the independent definition)

  predicate VertexInRange(md: MapData, v: EitherVertex)
  {
    match v
    case GL(x) => x < |md.glVert|
    case Normal(x) => x < |md.vertexes|
  }

  predicate ChildInRange(md: MapData, c: NodeChild)
  {
    match c
    case Subsector(x) => x < |md.glSsect|
    case Node(x) => x < |md.glNodes|
  }

  /** Every index of every record names an element that exists. */
  predicate RefsValid(md: MapData)
  {
    && (forall s :: s in md.sidedefs ==> s.sectorIndex < |md.sectors|)
    && (forall l, side :: l in md.linedefs && Slot(l.sidedefIndices, side).Some? ==>
          Slot(l.sidedefIndices, side).value < |md.sidedefs|)
    && (forall g :: g in md.glSegs ==>
          && (g.linedefIndex.Some? ==> g.linedefIndex.value < |md.linedefs|)
          && VertexInRange(md, g.vertexIndices.0)
          && VertexInRange(md, g.vertexIndices.1)
          && (g.partnerSegIndex.Some? ==> g.partnerSegIndex.value < |md.glSegs|))
    && (forall ss :: ss in md.glSsect ==>
          ss.firstSegIndex < |md.glSegs| && ss.firstSegIndex + ss.segCount <= |md.glSegs|)
    && (forall n, side :: n in md.glNodes ==> ChildInRange(md, Slot(n.childIndices, side)))
  }

  /** The error `e` names an index of its record that is in fact out of range. */
  predicate Reports(md: MapData, e: Error)
  {
    e.BadReference? &&
    match e.kind
    case SidedefSector =>
      e.record < |md.sidedefs| && md.sidedefs[e.record].sectorIndex == e.value && e.value >= |md.sectors|
    case LinedefSidedef =>
      e.record < |md.linedefs| && e.value >= |md.sidedefs| &&
      Some(e.value) in {md.linedefs[e.record].sidedefIndices.0, md.linedefs[e.record].sidedefIndices.1}
    case SegLinedef =>
      e.record < |md.glSegs| && md.glSegs[e.record].linedefIndex == Some(e.value) && e.value >= |md.linedefs|
    case SegVertex =>
      e.record < |md.glSegs| &&
      exists v :: v in {md.glSegs[e.record].vertexIndices.0, md.glSegs[e.record].vertexIndices.1} &&
                  v.index == e.value && !VertexInRange(md, v)
    case SegPartner =>
      e.record < |md.glSegs| && md.glSegs[e.record].partnerSegIndex == Some(e.value) && e.value >= |md.glSegs|
    case SubsectorFirstSeg =>
      e.record < |md.glSsect| && md.glSsect[e.record].firstSegIndex == e.value && e.value >= |md.glSegs|
    case SubsectorSegCount =>
      e.record < |md.glSsect| && md.glSsect[e.record].segCount == e.value &&
      md.glSsect[e.record].firstSegIndex + e.value > |md.glSegs|
    case NodeSubsector =>
      e.record < |md.glNodes| && e.value >= |md.glSsect| &&
      Subsector(e.value) in {md.glNodes[e.record].childIndices.0, md.glNodes[e.record].childIndices.1}
    case NodeChildNode =>
      e.record < |md.glNodes| && e.value >= |md.glNodes| &&
      Node(e.value) in {md.glNodes[e.record].childIndices.0, md.glNodes[e.record].childIndices.1}
  }

  // ---------------------------------------------------------------------
  // The checks, record by record, in the order the importer makes them

  /** The five loops of the validator, in order. */
  datatype Phase = SidedefPhase | LinedefPhase | SegPhase | SubsectorPhase | NodePhase

  function Rank(p: Phase): nat
  {
    match p
    case SidedefPhase => 0
    case LinedefPhase => 1
    case SegPhase => 2
    case SubsectorPhase => 3
    case NodePhase => 4
  }

  function RecordCount(md: MapData, p: Phase): nat
  {
    match p
    case SidedefPhase => |md.sidedefs|
    case LinedefPhase => |md.linedefs|
    case SegPhase => |md.glSegs|
    case SubsectorPhase => |md.glSsect|
    case NodePhase => |md.glNodes|
  }

  function SideIndexError(md: MapData, i: nat, x: Option<nat>): Option<Error>
  {
    if x.Some? && x.value >= |md.sidedefs| then Some(BadReference(LinedefSidedef, i, x.value)) else None
  }

  function VertexError(md: MapData, i: nat, v: EitherVertex): Option<Error>
  {
    if VertexInRange(md, v) then None else Some(BadReference(SegVertex, i, v.index))
  }

  function ChildError(md: MapData, i: nat, c: NodeChild): Option<Error>
  {
    match c
    case Subsector(x) => if x < |md.glSsect| then None else Some(BadReference(NodeSubsector, i, x))
    case Node(x) => if x < |md.glNodes| then None else Some(BadReference(NodeChildNode, i, x))
  }

  function OrElse(a: Option<Error>, b: Option<Error>): Option<Error>
  {
    if a.Some? then a else b
  }

  /** The first failed check on record i of phase p, if any. */
  function RecordError(md: MapData, p: Phase, i: nat): Option<Error>
    requires i < RecordCount(md, p)
  {
    match p
    case SidedefPhase =>
      var s := md.sidedefs[i];
      if s.sectorIndex < |md.sectors| then None else Some(BadReference(SidedefSector, i, s.sectorIndex))
    case LinedefPhase =>
      var l := md.linedefs[i];
      OrElse(SideIndexError(md, i, l.sidedefIndices.0), SideIndexError(md, i, l.sidedefIndices.1))
    case SegPhase =>
      var g := md.glSegs[i];
      var lineError :=
        if g.linedefIndex.Some? && g.linedefIndex.value >= |md.linedefs|
        then Some(BadReference(SegLinedef, i, g.linedefIndex.value)) else None;
      var partnerError :=
        if g.partnerSegIndex.Some? && g.partnerSegIndex.value >= |md.glSegs|
        then Some(BadReference(SegPartner, i, g.partnerSegIndex.value)) else None;
      OrElse(lineError, OrElse(VertexError(md, i, g.vertexIndices.0),
                               OrElse(VertexError(md, i, g.vertexIndices.1), partnerError)))
    case SubsectorPhase =>
      var ss := md.glSsect[i];
      if ss.firstSegIndex >= |md.glSegs| then Some(BadReference(SubsectorFirstSeg, i, ss.firstSegIndex))
      else if ss.firstSegIndex + ss.segCount > |md.glSegs| then Some(BadReference(SubsectorSegCount, i, ss.segCount))
      else None
    case NodePhase =>
      var n := md.glNodes[i];
      OrElse(ChildError(md, i, n.childIndices.0), ChildError(md, i, n.childIndices.1))
  }

  /** An error for one record names that record and a reference of it that really is out of range. */
  lemma RecordErrorReports(md: MapData, p: Phase, i: nat)
    requires i < RecordCount(md, p)
    ensures RecordError(md, p, i).Some? ==>
              RecordError(md, p, i).value.record == i && Reports(md, RecordError(md, p, i).value)
  {
    match p
    case SidedefPhase =>
    case LinedefPhase =>
    case SegPhase =>
      var g := md.glSegs[i];
      if VertexError(md, i, g.vertexIndices.0).Some? {
        assert g.vertexIndices.0 in {g.vertexIndices.0, g.vertexIndices.1};
      }
      if VertexError(md, i, g.vertexIndices.1).Some? {
        assert g.vertexIndices.1 in {g.vertexIndices.0, g.vertexIndices.1};
      }
    case SubsectorPhase =>
    case NodePhase =>
  }

  /** The first n records of phase p pass every check. */
  ghost predicate PhaseClean(md: MapData, p: Phase, n: nat)
    requires n <= RecordCount(md, p)
  {
    forall i :: 0 <= i < n ==> RecordError(md, p, i).None?
  }

  ghost predicate AllClean(md: MapData)
  {
    && PhaseClean(md, SidedefPhase, RecordCount(md, SidedefPhase))
    && PhaseClean(md, LinedefPhase, RecordCount(md, LinedefPhase))
    && PhaseClean(md, SegPhase, RecordCount(md, SegPhase))
    && PhaseClean(md, SubsectorPhase, RecordCount(md, SubsectorPhase))
    && PhaseClean(md, NodePhase, RecordCount(md, NodePhase))
  }

  /** Every phase that runs before p passed on all its records. */
  ghost predicate CleanBefore(md: MapData, p: Phase)
  {
    && (Rank(p) > 0 ==> PhaseClean(md, SidedefPhase, RecordCount(md, SidedefPhase)))
    && (Rank(p) > 1 ==> PhaseClean(md, LinedefPhase, RecordCount(md, LinedefPhase)))
    && (Rank(p) > 2 ==> PhaseClean(md, SegPhase, RecordCount(md, SegPhase)))
    && (Rank(p) > 3 ==> PhaseClean(md, SubsectorPhase, RecordCount(md, SubsectorPhase)))
  }

  /** `e` is the error of the first failing record of phase p. */
  ghost predicate FirstInPhase(md: MapData, p: Phase, e: Error)
  {
    exists i: nat :: i < RecordCount(md, p) && RecordError(md, p, i) == Some(e) && PhaseClean(md, p, i)
  }

  /** `e` is the first error met: every earlier phase and every earlier record of its phase passed. */
  ghost predicate FirstViolation(md: MapData, e: Error)
  {
    exists p: Phase :: CleanBefore(md, p) && FirstInPhase(md, p, e)
  }

  /** The record-by-record checks accept exactly the well-formed levels. */
  lemma CleanIffValid(md: MapData)
    ensures AllClean(md) <==> RefsValid(md)
  {
    if AllClean(md) {
      forall s | s in md.sidedefs
        ensures s.sectorIndex < |md.sectors|
      {
        var i :| 0 <= i < |md.sidedefs| && md.sidedefs[i] == s;
        assert RecordError(md, SidedefPhase, i).None?;
      }
      forall l, side | l in md.linedefs && Slot(l.sidedefIndices, side).Some?
        ensures Slot(l.sidedefIndices, side).value < |md.sidedefs|
      {
        var i :| 0 <= i < |md.linedefs| && md.linedefs[i] == l;
        assert RecordError(md, LinedefPhase, i).None?;
      }
      forall g | g in md.glSegs
        ensures && (g.linedefIndex.Some? ==> g.linedefIndex.value < |md.linedefs|)
                && VertexInRange(md, g.vertexIndices.0)
                && VertexInRange(md, g.vertexIndices.1)
                && (g.partnerSegIndex.Some? ==> g.partnerSegIndex.value < |md.glSegs|)
      {
        var i :| 0 <= i < |md.glSegs| && md.glSegs[i] == g;
        assert RecordError(md, SegPhase, i).None?;
      }
      forall ss | ss in md.glSsect
        ensures ss.firstSegIndex < |md.glSegs| && ss.firstSegIndex + ss.segCount <= |md.glSegs|
      {
        var i :| 0 <= i < |md.glSsect| && md.glSsect[i] == ss;
        assert RecordError(md, SubsectorPhase, i).None?;
      }
      forall n, side | n in md.glNodes
        ensures ChildInRange(md, Slot(n.childIndices, side))
      {
        var i :| 0 <= i < |md.glNodes| && md.glNodes[i] == n;
        assert RecordError(md, NodePhase, i).None?;
      }
    }
    if RefsValid(md) {
      forall p: Phase, i | 0 <= i < RecordCount(md, p)
          ensures RecordError(md, p, i).None?
        {
          match p
          case SidedefPhase => assert md.sidedefs[i] in md.sidedefs;
          case LinedefPhase =>
            var l := md.linedefs[i];
            assert l in md.linedefs;
            assert Slot(l.sidedefIndices, Right) == l.sidedefIndices.0;
            assert Slot(l.sidedefIndices, Left) == l.sidedefIndices.1;
          case SegPhase => assert md.glSegs[i] in md.glSegs;
          case SubsectorPhase => assert md.glSsect[i] in md.glSsect;
          case NodePhase =>
            var n := md.glNodes[i];
            assert n in md.glNodes;
            assert ChildInRange(md, Slot(n.childIndices, Right));
            assert ChildInRange(md, Slot(n.childIndices, Left));
        }
      assert PhaseClean(md, SidedefPhase, RecordCount(md, SidedefPhase));
      assert PhaseClean(md, LinedefPhase, RecordCount(md, LinedefPhase));
      assert PhaseClean(md, SegPhase, RecordCount(md, SegPhase));
      assert PhaseClean(md, SubsectorPhase, RecordCount(md, SubsectorPhase));
      assert PhaseClean(md, NodePhase, RecordCount(md, NodePhase));
    }
  }

  lemma DirtyPhase(md: MapData, p: Phase)
    requires !PhaseClean(md, p, RecordCount(md, p))
    ensures !AllClean(md)
  {
    match p
    case SidedefPhase =>
    case LinedefPhase =>
    case SegPhase =>
    case SubsectorPhase =>
    case NodePhase =>
  }

  /** A first violation is a genuine one, so the level is not well formed. */
  lemma FirstViolationInvalid(md: MapData, e: Error)
    requires FirstViolation(md, e)
    ensures !RefsValid(md) && Reports(md, e)
  {
    var p: Phase :| CleanBefore(md, p) && FirstInPhase(md, p, e);
    var i: nat :| i < RecordCount(md, p) && RecordError(md, p, i) == Some(e) && PhaseClean(md, p, i);
    assert !PhaseClean(md, p, RecordCount(md, p));
    DirtyPhase(md, p);
    CleanIffValid(md);
    RecordErrorReports(md, p, i);
  }

  // ---------------------------------------------------------------------
  // The validator loops

  method CheckVertex(md: MapData, i: nat, v: EitherVertex) returns (e: Option<Error>)
    ensures e == VertexError(md, i, v)
  {
    match v {
      case GL(x) =>
        if x >= |md.glVert| {
          return Some(BadReference(SegVertex, i, x));
        }
      case Normal(x) =>
        if x >= |md.vertexes| {
          return Some(BadReference(SegVertex, i, x));
        }
    }
    return None;
  }

  method CheckChild(md: MapData, i: nat, c: NodeChild) returns (e: Option<Error>)
    ensures e == ChildError(md, i, c)
  {
    match c {
      case Subsector(x) =>
        if x >= |md.glSsect| {
          return Some(BadReference(NodeSubsector, i, x));
        }
      case Node(x) =>
        if x >= |md.glNodes| {
          return Some(BadReference(NodeChildNode, i, x));
        }
    }
    return None;
  }

  method CheckSidedefs(md: MapData) returns (culprit: Option<Error>)
    ensures culprit.None? <==> PhaseClean(md, SidedefPhase, |md.sidedefs|)
    ensures culprit.Some? ==> FirstInPhase(md, SidedefPhase, culprit.value)
  {
    for i := 0 to |md.sidedefs|
      invariant PhaseClean(md, SidedefPhase, i)
    {
      if md.sidedefs[i].sectorIndex >= |md.sectors| {
        culprit := Some(BadReference(SidedefSector, i, md.sidedefs[i].sectorIndex));
        assert RecordError(md, SidedefPhase, i) == culprit;
        return;
      }
    }
    return None;
  }

  method CheckLinedefs(md: MapData) returns (culprit: Option<Error>)
    ensures culprit.None? <==> PhaseClean(md, LinedefPhase, |md.linedefs|)
    ensures culprit.Some? ==> FirstInPhase(md, LinedefPhase, culprit.value)
  {
    for i := 0 to |md.linedefs|
      invariant PhaseClean(md, LinedefPhase, i)
    {
      var sides := md.linedefs[i].sidedefIndices;
      culprit := None;
      if sides.0.Some? && sides.0.value >= |md.sidedefs| {
        culprit := Some(BadReference(LinedefSidedef, i, sides.0.value));
      } else if sides.1.Some? && sides.1.value >= |md.sidedefs| {
        culprit := Some(BadReference(LinedefSidedef, i, sides.1.value));
      }
      if culprit.Some? {
        assert RecordError(md, LinedefPhase, i) == culprit;
        return;
      }
    }
    return None;
  }

  method CheckSegs(md: MapData) returns (culprit: Option<Error>)
    ensures culprit.None? <==> PhaseClean(md, SegPhase, |md.glSegs|)
    ensures culprit.Some? ==> FirstInPhase(md, SegPhase, culprit.value)
  {
    for i := 0 to |md.glSegs|
      invariant PhaseClean(md, SegPhase, i)
    {
      var seg := md.glSegs[i];
      culprit := None;
      if seg.linedefIndex.Some? && seg.linedefIndex.value >= |md.linedefs| {
        culprit := Some(BadReference(SegLinedef, i, seg.linedefIndex.value));
      }
      if culprit.None? {
        culprit := CheckVertex(md, i, seg.vertexIndices.0);
      }
      if culprit.None? {
        culprit := CheckVertex(md, i, seg.vertexIndices.1);
      }
      if culprit.None? && seg.partnerSegIndex.Some? && seg.partnerSegIndex.value >= |md.glSegs| {
        culprit := Some(BadReference(SegPartner, i, seg.partnerSegIndex.value));
      }
      assert culprit == RecordError(md, SegPhase, i);
      if culprit.Some? {
        return;
      }
    }
    return None;
  }

  method CheckSubsectors(md: MapData) returns (culprit: Option<Error>)
    ensures culprit.None? <==> PhaseClean(md, SubsectorPhase, |md.glSsect|)
    ensures culprit.Some? ==> FirstInPhase(md, SubsectorPhase, culprit.value)
  {
    for i := 0 to |md.glSsect|
      invariant PhaseClean(md, SubsectorPhase, i)
    {
      var ssect := md.glSsect[i];
      culprit := None;
      if ssect.firstSegIndex >= |md.glSegs| {
        culprit := Some(BadReference(SubsectorFirstSeg, i, ssect.firstSegIndex));
      } else if ssect.firstSegIndex + ssect.segCount > |md.glSegs| {
        culprit := Some(BadReference(SubsectorSegCount, i, ssect.segCount));
      }
      if culprit.Some? {
        assert RecordError(md, SubsectorPhase, i) == culprit;
        return;
      }
    }
    return None;
  }

  method CheckNodes(md: MapData) returns (culprit: Option<Error>)
    ensures culprit.None? <==> PhaseClean(md, NodePhase, |md.glNodes|)
    ensures culprit.Some? ==> FirstInPhase(md, NodePhase, culprit.value)
  {
    for i := 0 to |md.glNodes|
      invariant PhaseClean(md, NodePhase, i)
    {
      var children := md.glNodes[i].childIndices;
      culprit := CheckChild(md, i, children.0);
      if culprit.None? {
        culprit := CheckChild(md, i, children.1);
      }
      assert culprit == RecordError(md, NodePhase, i);
      if culprit.Some? {
        return;
      }
    }
    return None;
  }

  /**
   * The cross-reference checks: passes exactly on well-formed levels, and
   * otherwise reports the first violation in the order the importer checks.
   */
  method Validate(md: MapData) returns (o: Outcome)
    ensures o.Pass? <==> RefsValid(md)
    ensures o.Fail? ==> FirstViolation(md, o.error) && Reports(md, o.error)
  {
    CleanIffValid(md);
    var culprit := CheckSidedefs(md);
    if culprit.None? {
      culprit := CheckLinedefs(md);
      if culprit.None? {
        culprit := CheckSegs(md);
        if culprit.None? {
          culprit := CheckSubsectors(md);
          if culprit.None? {
            culprit := CheckNodes(md);
            if culprit.None? {
              return Pass;
            }
            assert CleanBefore(md, NodePhase);
          } else {
            assert CleanBefore(md, SubsectorPhase);
          }
        } else {
          assert CleanBefore(md, SegPhase);
        }
      } else {
        assert CleanBefore(md, LinedefPhase);
      }
    } else {
      assert CleanBefore(md, SidedefPhase);
    }
    o := Fail(culprit.value);
    FirstViolationInvalid(md, o.error);
  }

  // ---------------------------------------------------------------------
  // The whole import

  /** The eight lumps read in the importer's order; the first failed read wins. */
  function DecodeAll(source: DataSource, name: Name): (r: Result<MapData>)
    ensures r.Ok? ==> && LumpPath(name, 2) in source && LumpPath(name, 3) in source
                      && LumpPath(name, 4) in source && LumpPath(name, 8) in source
                      && LumpPath(GLName(name), 1) in source && |source[LumpPath(GLName(name), 1)]| >= 4
                      && LumpPath(GLName(name), 2) in source && LumpPath(GLName(name), 3) in source
                      && LumpPath(GLName(name), 4) in source
                      && RecordsOf(source[LumpPath(name, 2)], 14, DecodeLinedef, r.value.linedefs)
                      && RecordsOf(source[LumpPath(name, 3)], 30, DecodeSidedef, r.value.sidedefs)
                      && RecordsOf(source[LumpPath(name, 4)], 4, DecodeVertex, r.value.vertexes)
                      && RecordsOf(source[LumpPath(name, 8)], 26, DecodeSector, r.value.sectors)
                      && RecordsOf(source[LumpPath(GLName(name), 1)][4..], 8, DecodeGLVert, r.value.glVert)
                      && RecordsOf(source[LumpPath(GLName(name), 2)], 10, DecodeGLSeg, r.value.glSegs)
                      && RecordsOf(source[LumpPath(GLName(name), 3)], 4, DecodeGLSSect, r.value.glSsect)
                      && RecordsOf(source[LumpPath(GLName(name), 4)], 28, DecodeGLNode, r.value.glNodes)
    ensures LumpPath(name, 2) !in source ==> r == Err(NotFound)
  {
    var glName := GLName(name);
    match LinedefsFormat(source, name)
    case Err(e) => Err(e)
    case Ok(linedefs) =>
    match SidedefsFormat(source, name)
    case Err(e) => Err(e)
    case Ok(sidedefs) =>
    match VertexesFormat(source, name)
    case Err(e) => Err(e)
    case Ok(vertexes) =>
    match SectorsFormat(source, name)
    case Err(e) => Err(e)
    case Ok(sectors) =>
    match GLVertFormat(source, glName)
    case Err(e) => Err(e)
    case Ok(glVert) =>
    match GLSegsFormat(source, glName)
    case Err(e) => Err(e)
    case Ok(glSegs) =>
    match GLSSectFormat(source, glName)
    case Err(e) => Err(e)
    case Ok(glSsect) =>
    match GLNodesFormat(source, glName)
    case Err(e) => Err(e)
    case Ok(glNodes) => Ok(MapData(linedefs, sidedefs, vertexes, sectors, glVert, glSegs, glSsect, glNodes))
  }

  /**
   * `Map::import`: the lumps decode and every cross-reference is in range, or
   * the first failure is reported and no map data is produced.
   */
  method ImportMap(source: DataSource, name: Name) returns (r: Result<MapData>)
    ensures DecodeAll(source, name).Err? ==> r == Err(DecodeAll(source, name).error)
    ensures DecodeAll(source, name).Ok? ==>
              var md := DecodeAll(source, name).value;
              && (r.Ok? <==> RefsValid(md))
              && (r.Ok? ==> r.value == md)
              && (r.Err? ==> FirstViolation(md, r.error) && Reports(md, r.error))
  {
    var glName := GLName(name);
    var linedefs := ImportRecords(source, LumpPath(name, 2), 14, DecodeLinedef);
    if linedefs.Err? { return Err(linedefs.error); }
    var sidedefs := ImportRecords(source, LumpPath(name, 3), 30, DecodeSidedef);
    if sidedefs.Err? { return Err(sidedefs.error); }
    var vertexes := ImportRecords(source, LumpPath(name, 4), 4, DecodeVertex);
    if vertexes.Err? { return Err(vertexes.error); }
    var sectors := ImportRecords(source, LumpPath(name, 8), 26, DecodeSector);
    if sectors.Err? { return Err(sectors.error); }
    var glVert := ImportGLVert(source, glName);
    if glVert.Err? { return Err(glVert.error); }
    var glSegs := ImportRecords(source, LumpPath(glName, 2), 10, DecodeGLSeg);
    if glSegs.Err? { return Err(glSegs.error); }
    var glSsect := ImportRecords(source, LumpPath(glName, 3), 4, DecodeGLSSect);
    if glSsect.Err? { return Err(glSsect.error); }
    var glNodes := ImportRecords(source, LumpPath(glName, 4), 28, DecodeGLNode);
    if glNodes.Err? { return Err(glNodes.error); }
    var md := MapData(linedefs.value, sidedefs.value, vertexes.value, sectors.value,
                      glVert.value, glSegs.value, glSsect.value, glNodes.value);
    var outcome := Validate(md);
    if outcome.Fail? {
      return Err(outcome.error);
    }
    r := Ok(md);
  }
}
