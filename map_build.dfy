/**
 * `build_map` of src/doom/map/load.rs: turns validated `MapData` into the
 * runtime map.  Flat and wall texture names are resolved to registry handles
 * through a per-call memo (each distinct name is loaded at most once, "F_SKY1"
 * stands for the sky), sidedefs are moved into the linedefs that name them,
 * two-sided linedefs make their sectors neighbours, BSP nodes are reversed so
 * the root comes first, and every subsector is attached to the sector of the
 * first of its segs that runs along a sidedef.
 *
 * Both texture storages are tables of one registry, told apart by two
 * distinct type tags.  Geometry stays in integers: a line is a point and a
 * direction, and the floating-point normals, planes and bounding boxes the
 * source also computes are not modelled.
 */
module MapBuild {
  import opened Wrappers
  import opened Bytes
  import opened Lumps
  import opened Validator
  import Assets
  import Textures

  type TextureType = Textures.TextureType
  type Id = Assets.Id

  /** "F_SKY1", the flat name that stands for the sky. */
  const SkyFlatName: Name := [0x46, 0x5F, 0x53, 0x4B, 0x59, 0x31]

  // ---------------------------------------------------------------------
  // The runtime map

  datatype Line2 = Line2(point: Point, dir: Point)

  datatype Sector = Sector(
    floorHeight: int,
    ceilingHeight: int,
    floorTexture: TextureType,
    ceilingTexture: TextureType,
    lightLevel: u16,
    specialType: u16,
    sectorTag: u16,
    subsectors: seq<nat>,
    neighbours: seq<nat>)

  datatype Sidedef = Sidedef(
    textureOffset: (int, int),
    topTexture: TextureType,
    bottomTexture: TextureType,
    middleTexture: TextureType,
    sectorIndex: nat)

  /** What a linedef blocks: everything, only monsters, or nothing. */
  datatype SolidMask = SolidAll | SolidMonster | SolidEmpty

  datatype Linedef = Linedef(
    line: Line2,
    flags: bv16,
    solidMask: SolidMask,
    specialType: u16,
    sectorTag: u16,
    sidedefs: (Option<Sidedef>, Option<Sidedef>))

  datatype GLSeg = GLSeg(line: Line2, linedefIndex: Option<nat>, linedefSide: Side)

  datatype GLSSect = GLSSect(segs: seq<GLSeg>, sectorIndex: nat)

  /** A BSP node; its partition line is in plain map units, as the lump stores it. */
  datatype GLNode = GLNode(partitionLine: Line2, childBboxes: (BBox, BBox), childIndices: (NodeChild, NodeChild))

  datatype Map = Map(
    linedefs: seq<Linedef>,
    sectors: seq<Sector>,
    subsectors: seq<GLSSect>,
    nodes: seq<GLNode>,
    sky: Id)

  // ---------------------------------------------------------------------
  // Texture names and the registry's name cache

  /** The names of a table whose weak handle still upgrades: what `load` returns without importing. */
  function Cached<D, I>(t: Assets.Table<D, I>, live: set<Id>): (c: map<Name, Id>)
    ensures forall n :: n in c <==> n in t.names && t.names[n] in live
    ensures forall n :: n in c ==> c[n] == t.names[n]
  {
    map n | n in t.names && t.names[n] in live :: t.names[n]
  }

  predicate SubMap(m1: map<Name, Id>, m2: map<Name, Id>)
  {
    forall n :: n in m1 ==> n in m2 && m2[n] == m1[n]
  }

  /**
   * A texture name field resolved against the handles loaded so far.  Only a
   * `skyable` field (a flat, or a sidedef's top texture) turns "F_SKY1" into
   * the sky; every other name is a normal texture.
   */
  function Resolve(name: Option<Name>, skyable: bool, handles: map<Name, Id>): (r: TextureType)
    ensures name.None? ==> r == Textures.NoTexture
    ensures r == Textures.Sky <==> skyable && name == Some(SkyFlatName)
    ensures r.Normal? <==> name.Some? && !(skyable && name.value == SkyFlatName) && name.value in handles
    ensures r.Normal? ==> r.handle == handles[name.value]
  {
    match name
    case None => Textures.NoTexture
    case Some(n) =>
      if skyable && n == SkyFlatName then Textures.Sky
      else if n in handles then Textures.Normal(handles[n])
      else Textures.NoTexture
  }

  /** The name needs no handle, or has one. */
  predicate Resolvable(name: Option<Name>, skyable: bool, handles: map<Name, Id>)
  {
    name.Some? && !(skyable && name.value == SkyFlatName) ==> name.value in handles
  }

  /** Once resolvable, a name resolves the same against any larger set of handles. */
  lemma ResolveMonotone(name: Option<Name>, skyable: bool, h1: map<Name, Id>, h2: map<Name, Id>)
    requires Resolvable(name, skyable, h1) && SubMap(h1, h2)
    ensures Resolvable(name, skyable, h2)
    ensures Resolve(name, skyable, h1) == Resolve(name, skyable, h2)
  {
  }

  /**
   * What loading names does to a table: built assets and the iteration order
   * stay, the queue only grows at its end and only under names that had no
   * live handle, and a name whose handle was live keeps that handle.
   */
  ghost predicate Grown<D, I>(t0: Assets.Table<D, I>, live0: set<Id>, t1: Assets.Table<D, I>, live1: set<Id>)
  {
    && t1.assets == t0.assets
    && t1.handles == t0.handles
    && |t0.unbuilt| <= |t1.unbuilt| && t1.unbuilt[..|t0.unbuilt|] == t0.unbuilt
    && live0 <= live1
    && SubMap(Cached(t0, live0), Cached(t1, live1))
    && (forall i :: |t0.unbuilt| <= i < |t1.unbuilt| ==> t1.unbuilt[i].name !in Cached(t0, live0))
  }

  /**
   * The entries queued since `t0` have pairwise distinct names, each still
   * cached: no name was imported twice.
   */
  ghost predicate QueuedOnce<D, I>(t0: Assets.Table<D, I>, t1: Assets.Table<D, I>, live1: set<Id>)
    requires |t0.unbuilt| <= |t1.unbuilt|
  {
    && (forall i, j :: |t0.unbuilt| <= i < j < |t1.unbuilt| ==> t1.unbuilt[i].name != t1.unbuilt[j].name)
    && (forall i :: |t0.unbuilt| <= i < |t1.unbuilt| ==> t1.unbuilt[i].name in Cached(t1, live1))
  }

  lemma GrownTrans<D, I>(t0: Assets.Table<D, I>, l0: set<Id>, t1: Assets.Table<D, I>, l1: set<Id>,
                         t2: Assets.Table<D, I>, l2: set<Id>)
    requires Grown(t0, l0, t1, l1) && Grown(t1, l1, t2, l2)
    ensures Grown(t0, l0, t2, l2)
  {
    assert t2.unbuilt[..|t0.unbuilt|] == t2.unbuilt[..|t1.unbuilt|][..|t0.unbuilt|];
    forall i | |t0.unbuilt| <= i < |t1.unbuilt|
      ensures t2.unbuilt[i] == t1.unbuilt[i]
    {
      assert t2.unbuilt[..|t1.unbuilt|][i] == t2.unbuilt[i];
    }
  }

  /** Growth keeps the "queued once" property of an older base, given it of the newer one. */
  lemma QueuedOnceTrans<D, I>(t0: Assets.Table<D, I>, l0: set<Id>, t1: Assets.Table<D, I>, l1: set<Id>,
                              t2: Assets.Table<D, I>, l2: set<Id>)
    requires Grown(t0, l0, t1, l1) && Grown(t1, l1, t2, l2)
    requires QueuedOnce(t0, t1, l1) && QueuedOnce(t1, t2, l2)
    ensures QueuedOnce(t0, t2, l2)
  {
    assert t2.unbuilt[..|t1.unbuilt|] == t1.unbuilt;
    forall i | |t0.unbuilt| <= i < |t1.unbuilt|
      ensures t2.unbuilt[i] == t1.unbuilt[i]
    {
      assert t2.unbuilt[..|t1.unbuilt|][i] == t2.unbuilt[i];
    }
  }

  /**
   * The entries queued since `t0` are imports by `importer` of names in
   * `allowed`, each under the handle its name is now bound to; and a name is
   * bound to a new handle only together with such an entry.
   */
  ghost predicate QueuedFor<D, I>(t0: Assets.Table<D, I>, t1: Assets.Table<D, I>,
                                  importer: Name -> Result<I>, allowed: set<Name>)
  {
    && |t0.unbuilt| <= |t1.unbuilt|
    && (forall i :: |t0.unbuilt| <= i < |t1.unbuilt| ==>
          && t1.unbuilt[i].name in allowed
          && t1.unbuilt[i].name in t1.names
          && t1.unbuilt[i] == Assets.Entry(t1.names[t1.unbuilt[i].name], importer(t1.unbuilt[i].name), t1.unbuilt[i].name))
    && (forall n :: n in t1.names && (n !in t0.names || t1.names[n] != t0.names[n]) ==>
          exists i :: |t0.unbuilt| <= i < |t1.unbuilt| && t1.unbuilt[i].name == n)
  }

  /** A load that missed the cache queues the import of its name under the handle it binds. */
  lemma QueuedForMiss<D, I>(t: Assets.Table<D, I>, name: Name, h: Id, importer: Name -> Result<I>)
    ensures QueuedFor(t, t.(names := t.names[name := h], unbuilt := t.unbuilt + [Assets.Entry(h, importer(name), name)]),
                      importer, {name})
  {
    var t1 := t.(names := t.names[name := h], unbuilt := t.unbuilt + [Assets.Entry(h, importer(name), name)]);
    assert t1.unbuilt[|t.unbuilt|].name == name;
  }

  /** Two stretches of loading compose, their allowed names joined. */
  lemma QueuedForTrans<D, I>(t0: Assets.Table<D, I>, t1: Assets.Table<D, I>, l1: set<Id>,
                             t2: Assets.Table<D, I>, l2: set<Id>, importer: Name -> Result<I>,
                             a1: set<Name>, a2: set<Name>, a: set<Name>)
    requires QueuedFor(t0, t1, importer, a1) && QueuedFor(t1, t2, importer, a2) && a1 <= a && a2 <= a
    requires QueuedOnce(t0, t1, l1) && Grown(t1, l1, t2, l2)
    ensures QueuedFor(t0, t2, importer, a)
  {
    forall i | |t0.unbuilt| <= i < |t1.unbuilt|
      ensures t2.unbuilt[i] == t1.unbuilt[i]
      ensures t1.unbuilt[i].name in t2.names && t2.names[t1.unbuilt[i].name] == t1.names[t1.unbuilt[i].name]
    {
      assert t2.unbuilt[..|t1.unbuilt|][i] == t2.unbuilt[i];
      var n := t1.unbuilt[i].name;
      assert n in Cached(t1, l1) && n in Cached(t2, l2);
    }
    forall n | n in t2.names && (n !in t0.names || t2.names[n] != t0.names[n])
      ensures exists i :: |t0.unbuilt| <= i < |t2.unbuilt| && t2.unbuilt[i].name == n
    {
      if n in t1.names && t2.names[n] == t1.names[n] {
        var i :| |t0.unbuilt| <= i < |t1.unbuilt| && t1.unbuilt[i].name == n;
        assert t2.unbuilt[i] == t1.unbuilt[i];
      } else {
        var i :| |t1.unbuilt| <= i < |t2.unbuilt| && t2.unbuilt[i].name == n;
      }
    }
  }

  /** The name a texture slot needs loaded: none when it is empty or is the sky. */
  function FieldNames(name: Option<Name>, skyable: bool): (r: set<Name>)
    ensures r == {} <==> name.None? || (skyable && name.value == SkyFlatName)
    ensures r != {} ==> r == {name.value}
  {
    if name.Some? && !(skyable && name.value == SkyFlatName) then {name.value} else {}
  }

  /** The flats one sector needs loaded. */
  function SectorNames(d: SectorData): set<Name>
  {
    FieldNames(d.floorFlatName, true) + FieldNames(d.ceilingFlatName, true)
  }

  /** The textures one sidedef needs loaded; only its top slot can be the sky. */
  function SidedefNames(d: SidedefData): set<Name>
  {
    FieldNames(d.topTextureName, true) + FieldNames(d.bottomTextureName, false) + FieldNames(d.middleTextureName, false)
  }

  /** The flats the sectors need loaded. */
  function FlatNames(data: seq<SectorData>): (r: set<Name>)
    ensures forall k :: 0 <= k < |data| ==> SectorNames(data[k]) <= r
    ensures forall n :: n in r ==> exists k :: 0 <= k < |data| && n in SectorNames(data[k])
  {
    set k, n | 0 <= k < |data| && n in SectorNames(data[k]) :: n
  }

  /** The textures the sidedefs need loaded. */
  function WallNames(data: seq<SidedefData>): (r: set<Name>)
    ensures forall k :: 0 <= k < |data| ==> SidedefNames(data[k]) <= r
    ensures forall n :: n in r ==> exists k :: 0 <= k < |data| && n in SidedefNames(data[k])
  {
    set k, n | 0 <= k < |data| && n in SidedefNames(data[k]) :: n
  }

  lemma FlatNamesStep(data: seq<SectorData>, i: nat)
    requires i < |data|
    ensures FlatNames(data[..i]) + SectorNames(data[i]) <= FlatNames(data[..i + 1])
  {
    assert data[..i + 1][i] == data[i];
    forall n | n in FlatNames(data[..i])
      ensures n in FlatNames(data[..i + 1])
    {
      var k :| 0 <= k < i && n in SectorNames(data[..i][k]);
      assert data[..i + 1][k] == data[..i][k];
    }
  }

  lemma WallNamesStep(data: seq<SidedefData>, i: nat)
    requires i < |data|
    ensures WallNames(data[..i]) + SidedefNames(data[i]) <= WallNames(data[..i + 1])
  {
    assert data[..i + 1][i] == data[i];
    forall n | n in WallNames(data[..i])
      ensures n in WallNames(data[..i + 1])
    {
      var k :| 0 <= k < i && n in SidedefNames(data[..i][k]);
      assert data[..i + 1][k] == data[..i][k];
    }
  }

  /** The registry's other tables are untouched and the two named ones only grew. */
  ghost predicate RegistryGrown<D, I>(s0: map<Assets.TypeTag, Assets.Table<D, I>>, l0: set<Id>,
                                      s1: map<Assets.TypeTag, Assets.Table<D, I>>, l1: set<Id>,
                                      tag: Assets.TypeTag)
  {
    && s1.Keys == s0.Keys
    && (forall g :: g in s0 && g != tag ==> s1[g] == s0[g])
    && (tag in s0 ==> Grown(s0[tag], l0, s1[tag], l1) && QueuedOnce(s0[tag], s1[tag], l1))
    && l0 <= l1
  }

  lemma RegistryGrownTrans<D, I>(s0: map<Assets.TypeTag, Assets.Table<D, I>>, l0: set<Id>,
                                 s1: map<Assets.TypeTag, Assets.Table<D, I>>, l1: set<Id>,
                                 s2: map<Assets.TypeTag, Assets.Table<D, I>>, l2: set<Id>,
                                 tag: Assets.TypeTag)
    requires RegistryGrown(s0, l0, s1, l1, tag) && RegistryGrown(s1, l1, s2, l2, tag)
    ensures RegistryGrown(s0, l0, s2, l2, tag)
  {
    if tag in s0 {
      GrownTrans(s0[tag], l0, s1[tag], l1, s2[tag], l2);
      QueuedOnceTrans(s0[tag], l0, s1[tag], l1, s2[tag], l2);
    }
  }

  lemma GrownRefl<D, I>(t: Assets.Table<D, I>, live: set<Id>)
    ensures Grown(t, live, t, live) && QueuedOnce(t, t, live)
  {
    assert t.unbuilt[..|t.unbuilt|] == t.unbuilt;
  }

  /** A load that missed the cache grows the table by one entry, under a name not queued before. */
  lemma MissGrows<D, I>(t: Assets.Table<D, I>, live: set<Id>, name: Name, h: Id, e: Assets.Entry<I>)
    requires name !in Cached(t, live) && h !in live && e.name == name
    ensures var t1 := t.(names := t.names[name := h], unbuilt := t.unbuilt + [e]);
            Grown(t, live, t1, live + {h}) && QueuedOnce(t, t1, live + {h})
  {
    var t1 := t.(names := t.names[name := h], unbuilt := t.unbuilt + [e]);
    assert t1.unbuilt[..|t.unbuilt|] == t.unbuilt;
    forall n | n in Cached(t, live)
      ensures n in Cached(t1, live + {h}) && Cached(t1, live + {h})[n] == Cached(t, live)[n]
    {
      assert n != name;
    }
  }

  /** Replacing one table by a grown image of it grows the registry at that tag. */
  lemma RegistryUpdate<D, I>(s0: map<Assets.TypeTag, Assets.Table<D, I>>, l0: set<Id>,
                             t1: Assets.Table<D, I>, l1: set<Id>, tag: Assets.TypeTag)
    requires tag in s0 && Grown(s0[tag], l0, t1, l1) && QueuedOnce(s0[tag], t1, l1)
    ensures RegistryGrown(s0, l0, s0[tag := t1], l1, tag)
  {
  }

  /** A memo below a cache that then grows, extended by a name the cache now maps, is still below it. */
  lemma MemoExtend(memo: map<Name, Id>, c0: map<Name, Id>, c1: map<Name, Id>, name: Name, h: Id)
    requires SubMap(memo, c0) && SubMap(c0, c1) && name in c1 && c1[name] == h
    ensures SubMap(memo[name := h], c1)
  {
  }

  /**
   * The `Entry::Vacant` / `Entry::Occupied` step: a name already in the memo
   * reuses its handle without touching the registry, any other name is loaded
   * (which queues an import only if the registry has no live handle for it)
   * and remembered.
   */
  method LoadCached<D, I>(reg: Assets.AssetStorage<D, I>, tag: Assets.TypeTag, memo: map<Name, Id>,
                          name: Name, importer: Name -> Result<I>)
    returns (h: Id, nextMemo: map<Name, Id>)
    requires reg.Valid() && tag in reg.storages
    requires SubMap(memo, Cached(reg.storages[tag], reg.live))
    modifies reg, reg.allocator
    ensures reg.Valid()
    ensures RegistryGrown(old(reg.storages), old(reg.live), reg.storages, reg.live, tag)
    ensures reg.storages[tag].unbuilt == old(reg.storages[tag].unbuilt) ||
            reg.storages[tag].unbuilt == old(reg.storages[tag].unbuilt) + [Assets.Entry(h, importer(name), name)]
    ensures name in memo ==> h == memo[name] && reg.storages == old(reg.storages) && reg.live == old(reg.live)
    ensures name !in old(Cached(reg.storages[tag], reg.live)) ==>
              && h == old(reg.allocator.highestId) + 1
              && reg.storages[tag].unbuilt == old(reg.storages[tag].unbuilt) + [Assets.Entry(h, importer(name), name)]
    ensures QueuedFor(old(reg.storages[tag]), reg.storages[tag], importer, {name})
    ensures nextMemo == memo[name := h]
    ensures SubMap(nextMemo, Cached(reg.storages[tag], reg.live))
  {
    ghost var s0, t0, l0 := reg.storages, reg.storages[tag], reg.live;
    if name in memo {
      h := memo[name];
      GrownRefl(t0, l0);
      RegistryUpdate(s0, l0, t0, l0, tag);
      assert s0[tag := t0] == s0;
    } else {
      ghost var hit := reg.HandleFor(tag, name).Some?;
      h := reg.Load(tag, name, importer);
      if hit {
        GrownRefl(t0, l0);
        RegistryUpdate(s0, l0, t0, l0, tag);
        assert s0[tag := t0] == s0;
      } else {
        var e := Assets.Entry(h, importer(name), name);
        MissGrows(t0, l0, name, h, e);
        QueuedForMiss(t0, name, h, importer);
        RegistryUpdate(s0, l0, t0.(names := t0.names[name := h], unbuilt := t0.unbuilt + [e]), l0 + {h}, tag);
      }
      MemoExtend(memo, Cached(t0, l0), Cached(reg.storages[tag], reg.live), name, h);
    }
    nextMemo := memo[name := h];
  }

  /**
   * One texture field: no name is no texture, "F_SKY1" in a `skyable` field is
   * the sky, and any other name goes through the memo.
   */
  method ResolveField<D, I>(reg: Assets.AssetStorage<D, I>, tag: Assets.TypeTag, memo: map<Name, Id>,
                            name: Option<Name>, skyable: bool, importer: Name -> Result<I>)
    returns (tex: TextureType, nextMemo: map<Name, Id>)
    requires reg.Valid() && tag in reg.storages
    requires SubMap(memo, Cached(reg.storages[tag], reg.live))
    modifies reg, reg.allocator
    ensures reg.Valid()
    ensures RegistryGrown(old(reg.storages), old(reg.live), reg.storages, reg.live, tag)
    ensures SubMap(memo, nextMemo) && SubMap(nextMemo, Cached(reg.storages[tag], reg.live))
    ensures Resolvable(name, skyable, nextMemo) && tex == Resolve(name, skyable, nextMemo)
    ensures QueuedFor(old(reg.storages[tag]), reg.storages[tag], importer, FieldNames(name, skyable))
  {
    nextMemo := memo;
    match name {
      case None =>
        tex := Textures.NoTexture;
        GrownRefl(reg.storages[tag], reg.live);
      case Some(n) =>
        if skyable && n == SkyFlatName {
          tex := Textures.Sky;
          GrownRefl(reg.storages[tag], reg.live);
        } else {
          var h;
          h, nextMemo := LoadCached(reg, tag, memo, n, importer);
          tex := Textures.Normal(h);
        }
    }
  }

  /** A sector with its flats resolved, before subsectors and neighbours are attached. */
  function SectorOf(d: SectorData, flats: map<Name, Id>): Sector
  {
    Sector(d.floorHeight, d.ceilingHeight,
           Resolve(d.floorFlatName, true, flats), Resolve(d.ceilingFlatName, true, flats),
           d.lightLevel, d.specialType, d.specialType, [], [])
  }

  predicate SectorResolvable(d: SectorData, flats: map<Name, Id>)
  {
    Resolvable(d.floorFlatName, true, flats) && Resolvable(d.ceilingFlatName, true, flats)
  }

  lemma SectorOfMonotone(d: SectorData, f1: map<Name, Id>, f2: map<Name, Id>)
    requires SectorResolvable(d, f1) && SubMap(f1, f2)
    ensures SectorResolvable(d, f2) && SectorOf(d, f1) == SectorOf(d, f2)
  {
    ResolveMonotone(d.floorFlatName, true, f1, f2);
    ResolveMonotone(d.ceilingFlatName, true, f1, f2);
  }

  /** One sector: its floor flat, then its ceiling flat. */
  method BuildSector<D, I>(d: SectorData, reg: Assets.AssetStorage<D, I>, flatTag: Assets.TypeTag,
                           flats: map<Name, Id>, importFlat: Name -> Result<I>)
    returns (sector: Sector, nextFlats: map<Name, Id>)
    requires reg.Valid() && flatTag in reg.storages
    requires SubMap(flats, Cached(reg.storages[flatTag], reg.live))
    modifies reg, reg.allocator
    ensures reg.Valid()
    ensures RegistryGrown(old(reg.storages), old(reg.live), reg.storages, reg.live, flatTag)
    ensures SubMap(flats, nextFlats) && SubMap(nextFlats, Cached(reg.storages[flatTag], reg.live))
    ensures SectorResolvable(d, nextFlats) && sector == SectorOf(d, nextFlats)
    ensures QueuedFor(old(reg.storages[flatTag]), reg.storages[flatTag], importFlat, SectorNames(d))
  {
    ghost var s0, l0 := reg.storages, reg.live;
    var floor, ceiling;
    floor, nextFlats := ResolveField(reg, flatTag, flats, d.floorFlatName, true, importFlat);
    ghost var s1, l1, f1 := reg.storages, reg.live, nextFlats;
    ceiling, nextFlats := ResolveField(reg, flatTag, nextFlats, d.ceilingFlatName, true, importFlat);
    QueuedForTrans(s0[flatTag], s1[flatTag], l1, reg.storages[flatTag], reg.live, importFlat,
                   FieldNames(d.floorFlatName, true), FieldNames(d.ceilingFlatName, true), SectorNames(d));
    RegistryGrownTrans(s0, l0, s1, l1, reg.storages, reg.live, flatTag);
    ResolveMonotone(d.floorFlatName, true, f1, nextFlats);
    sector := Sector(d.floorHeight, d.ceilingHeight, floor, ceiling, d.lightLevel, d.specialType, d.specialType, [], []);
  }

  /** `sectors` are the first records of `data`, each resolved through `flats`. */
  ghost predicate SectorsBuilt(data: seq<SectorData>, sectors: seq<Sector>, flats: map<Name, Id>)
  {
    |sectors| == |data| &&
    forall k :: 0 <= k < |data| ==> SectorResolvable(data[k], flats) && sectors[k] == SectorOf(data[k], flats)
  }

  /** Building one more sector keeps the earlier ones: the memo only grows. */
  lemma SectorsStep(data: seq<SectorData>, prev: seq<Sector>, sector: Sector, f0: map<Name, Id>, flats: map<Name, Id>)
    requires |prev| < |data| && SectorsBuilt(data[..|prev|], prev, f0) && SubMap(f0, flats)
    requires SectorResolvable(data[|prev|], flats) && sector == SectorOf(data[|prev|], flats)
    ensures SectorsBuilt(data[..|prev| + 1], prev + [sector], flats)
  {
    var i := |prev|;
    forall k | 0 <= k < i + 1
      ensures SectorResolvable(data[k], flats) && (prev + [sector])[k] == SectorOf(data[k], flats)
    {
      if k < i {
        assert data[..i][k] == data[k];
        SectorOfMonotone(data[k], f0, flats);
      }
    }
  }

  lemma SectorsBuiltAll(data: seq<SectorData>, sectors: seq<Sector>, flats: map<Name, Id>)
    requires |sectors| == |data| && SectorsBuilt(data[..|sectors|], sectors, flats)
    ensures forall i :: 0 <= i < |data| ==> SectorResolvable(data[i], flats) && sectors[i] == SectorOf(data[i], flats)
  {
    assert data[..|data|] == data;
  }

  /** The state of the sector loop: the registry has grown from `s00`, `flats` is cached in it, `sectors` are built. */
  ghost predicate SectorLoop<D, I>(reg: Assets.AssetStorage<D, I>, flatTag: Assets.TypeTag,
                                   s00: map<Assets.TypeTag, Assets.Table<D, I>>, l00: set<Id>,
                                   data: seq<SectorData>, sectors: seq<Sector>, flats: map<Name, Id>,
                                   importFlat: Name -> Result<I>)
    reads reg, reg.allocator
  {
    && reg.Valid() && flatTag in reg.storages && flatTag in s00
    && RegistryGrown(s00, l00, reg.storages, reg.live, flatTag)
    && SubMap(flats, Cached(reg.storages[flatTag], reg.live))
    && |sectors| <= |data| && SectorsBuilt(data[..|sectors|], sectors, flats)
    && QueuedFor(s00[flatTag], reg.storages[flatTag], importFlat, FlatNames(data[..|sectors|]))
  }

  /** Builds the next sector of `data` onto `sectors`, keeping the loop's account of the registry. */
  method AppendSector<D, I>(data: seq<SectorData>, sectors: seq<Sector>, reg: Assets.AssetStorage<D, I>,
                            flatTag: Assets.TypeTag, flats: map<Name, Id>, importFlat: Name -> Result<I>,
                            ghost s00: map<Assets.TypeTag, Assets.Table<D, I>>, ghost l00: set<Id>)
    returns (nextSectors: seq<Sector>, nextFlats: map<Name, Id>)
    requires SectorLoop(reg, flatTag, s00, l00, data, sectors, flats, importFlat) && |sectors| < |data|
    modifies reg, reg.allocator
    ensures SectorLoop(reg, flatTag, s00, l00, data, nextSectors, nextFlats, importFlat) && |nextSectors| == |sectors| + 1
  {
    ghost var s0, l0 := reg.storages, reg.live;
    var sector;
    sector, nextFlats := BuildSector(data[|sectors|], reg, flatTag, flats, importFlat);
    FlatNamesStep(data, |sectors|);
    QueuedForTrans(s00[flatTag], s0[flatTag], l0, reg.storages[flatTag], reg.live, importFlat,
                   FlatNames(data[..|sectors|]), SectorNames(data[|sectors|]), FlatNames(data[..|sectors| + 1]));
    RegistryGrownTrans(s00, l00, s0, l0, reg.storages, reg.live, flatTag);
    SectorsStep(data, sectors, sector, flats, nextFlats);
    nextSectors := sectors + [sector];
  }

  /** The sectors, each through the one `flats` memo. */
  method BuildSectors<D, I>(data: seq<SectorData>, reg: Assets.AssetStorage<D, I>, flatTag: Assets.TypeTag,
                            importFlat: Name -> Result<I>)
    returns (sectors: seq<Sector>, flats: map<Name, Id>)
    requires reg.Valid() && flatTag in reg.storages
    modifies reg, reg.allocator
    ensures reg.Valid()
    ensures RegistryGrown(old(reg.storages), old(reg.live), reg.storages, reg.live, flatTag)
    ensures SubMap(flats, Cached(reg.storages[flatTag], reg.live))
    ensures |sectors| == |data|
    ensures forall i :: 0 <= i < |data| ==> SectorResolvable(data[i], flats) && sectors[i] == SectorOf(data[i], flats)
    ensures QueuedFor(old(reg.storages[flatTag]), reg.storages[flatTag], importFlat, FlatNames(data))
  {
    sectors, flats := [], map[];
    GrownRefl(reg.storages[flatTag], reg.live);
    assert data[..0] == [];
    for i := 0 to |data|
      invariant SectorLoop(reg, flatTag, old(reg.storages), old(reg.live), data, sectors, flats, importFlat) && |sectors| == i
    {
      sectors, flats := AppendSector(data, sectors, reg, flatTag, flats, importFlat, old(reg.storages), old(reg.live));
    }
    SectorsBuiltAll(data, sectors, flats);
    assert data[..|data|] == data;
  }

  /** A sidedef with its textures resolved; only the top texture can be the sky. */
  function SidedefOf(d: SidedefData, textures: map<Name, Id>): Sidedef
  {
    Sidedef(d.textureOffset,
            Resolve(d.topTextureName, true, textures),
            Resolve(d.bottomTextureName, false, textures),
            Resolve(d.middleTextureName, false, textures),
            d.sectorIndex)
  }

  predicate SidedefResolvable(d: SidedefData, textures: map<Name, Id>)
  {
    && Resolvable(d.topTextureName, true, textures)
    && Resolvable(d.bottomTextureName, false, textures)
    && Resolvable(d.middleTextureName, false, textures)
  }

  lemma SidedefOfMonotone(d: SidedefData, t1: map<Name, Id>, t2: map<Name, Id>)
    requires SidedefResolvable(d, t1) && SubMap(t1, t2)
    ensures SidedefResolvable(d, t2) && SidedefOf(d, t1) == SidedefOf(d, t2)
  {
    ResolveMonotone(d.topTextureName, true, t1, t2);
    ResolveMonotone(d.bottomTextureName, false, t1, t2);
    ResolveMonotone(d.middleTextureName, false, t1, t2);
  }

  /** One sidedef: its top, bottom and middle textures, in that order. */
  method BuildSidedef<D, I>(d: SidedefData, reg: Assets.AssetStorage<D, I>, wallTag: Assets.TypeTag,
                            textures: map<Name, Id>, importWall: Name -> Result<I>)
    returns (sidedef: Sidedef, nextTextures: map<Name, Id>)
    requires reg.Valid() && wallTag in reg.storages
    requires SubMap(textures, Cached(reg.storages[wallTag], reg.live))
    modifies reg, reg.allocator
    ensures reg.Valid()
    ensures RegistryGrown(old(reg.storages), old(reg.live), reg.storages, reg.live, wallTag)
    ensures SubMap(textures, nextTextures) && SubMap(nextTextures, Cached(reg.storages[wallTag], reg.live))
    ensures SidedefResolvable(d, nextTextures) && sidedef == SidedefOf(d, nextTextures)
    ensures QueuedFor(old(reg.storages[wallTag]), reg.storages[wallTag], importWall, SidedefNames(d))
  {
    ghost var s0, l0 := reg.storages, reg.live;
    var top, bottom, middle;
    ghost var top1, bottom1 := FieldNames(d.topTextureName, true), FieldNames(d.bottomTextureName, false);
    top, nextTextures := ResolveField(reg, wallTag, textures, d.topTextureName, true, importWall);
    ghost var s1, l1, t1 := reg.storages, reg.live, nextTextures;
    bottom, nextTextures := ResolveField(reg, wallTag, nextTextures, d.bottomTextureName, false, importWall);
    QueuedForTrans(s0[wallTag], s1[wallTag], l1, reg.storages[wallTag], reg.live, importWall,
                   top1, bottom1, top1 + bottom1);
    RegistryGrownTrans(s0, l0, s1, l1, reg.storages, reg.live, wallTag);
    ghost var s2, l2, t2 := reg.storages, reg.live, nextTextures;
    middle, nextTextures := ResolveField(reg, wallTag, nextTextures, d.middleTextureName, false, importWall);
    QueuedForTrans(s0[wallTag], s2[wallTag], l2, reg.storages[wallTag], reg.live, importWall,
                   top1 + bottom1, FieldNames(d.middleTextureName, false), SidedefNames(d));
    RegistryGrownTrans(s0, l0, s2, l2, reg.storages, reg.live, wallTag);
    ResolveMonotone(d.topTextureName, true, t1, nextTextures);
    ResolveMonotone(d.bottomTextureName, false, t2, nextTextures);
    sidedef := Sidedef(d.textureOffset, top, bottom, middle, d.sectorIndex);
  }

  /** `slots` hold the first sidedefs of `data`, each resolved through `textures`. */
  ghost predicate SidedefsBuilt(data: seq<SidedefData>, slots: seq<Option<Sidedef>>, textures: map<Name, Id>)
  {
    |slots| <= |data| &&
    forall k :: 0 <= k < |slots| ==> SidedefResolvable(data[k], textures) && slots[k] == Some(SidedefOf(data[k], textures))
  }

  /** Building one more sidedef keeps the earlier ones: the memo only grows. */
  lemma SidedefsStep(data: seq<SidedefData>, prev: seq<Option<Sidedef>>, sidedef: Sidedef,
                     t0: map<Name, Id>, textures: map<Name, Id>)
    requires |prev| < |data| && SidedefsBuilt(data, prev, t0) && SubMap(t0, textures)
    requires SidedefResolvable(data[|prev|], textures) && sidedef == SidedefOf(data[|prev|], textures)
    ensures SidedefsBuilt(data, prev + [Some(sidedef)], textures)
  {
    forall k | 0 <= k < |prev| + 1
      ensures SidedefResolvable(data[k], textures) && (prev + [Some(sidedef)])[k] == Some(SidedefOf(data[k], textures))
    {
      if k < |prev| {
        SidedefOfMonotone(data[k], t0, textures);
      }
    }
  }

  /** The state of the sidedef loop: the registry has grown from `s00`, `textures` is cached in it, `slots` are built. */
  ghost predicate SidedefLoop<D, I>(reg: Assets.AssetStorage<D, I>, wallTag: Assets.TypeTag,
                                    s00: map<Assets.TypeTag, Assets.Table<D, I>>, l00: set<Id>,
                                    data: seq<SidedefData>, slots: seq<Option<Sidedef>>, textures: map<Name, Id>,
                                    importWall: Name -> Result<I>)
    reads reg, reg.allocator
  {
    && reg.Valid() && wallTag in reg.storages && wallTag in s00
    && RegistryGrown(s00, l00, reg.storages, reg.live, wallTag)
    && SubMap(textures, Cached(reg.storages[wallTag], reg.live))
    && SidedefsBuilt(data, slots, textures)
    && QueuedFor(s00[wallTag], reg.storages[wallTag], importWall, WallNames(data[..|slots|]))
  }

  /** Builds the next sidedef of `data` into a new slot, keeping the loop's account of the registry. */
  method AppendSidedef<D, I>(data: seq<SidedefData>, slots: seq<Option<Sidedef>>, reg: Assets.AssetStorage<D, I>,
                             wallTag: Assets.TypeTag, textures: map<Name, Id>, importWall: Name -> Result<I>,
                             ghost s00: map<Assets.TypeTag, Assets.Table<D, I>>, ghost l00: set<Id>)
    returns (nextSlots: seq<Option<Sidedef>>, nextTextures: map<Name, Id>)
    requires SidedefLoop(reg, wallTag, s00, l00, data, slots, textures, importWall) && |slots| < |data|
    modifies reg, reg.allocator
    ensures SidedefLoop(reg, wallTag, s00, l00, data, nextSlots, nextTextures, importWall) && |nextSlots| == |slots| + 1
  {
    ghost var s0, l0 := reg.storages, reg.live;
    var sidedef;
    sidedef, nextTextures := BuildSidedef(data[|slots|], reg, wallTag, textures, importWall);
    WallNamesStep(data, |slots|);
    QueuedForTrans(s00[wallTag], s0[wallTag], l0, reg.storages[wallTag], reg.live, importWall,
                   WallNames(data[..|slots|]), SidedefNames(data[|slots|]), WallNames(data[..|slots| + 1]));
    RegistryGrownTrans(s00, l00, s0, l0, reg.storages, reg.live, wallTag);
    SidedefsStep(data, slots, sidedef, textures, nextTextures);
    nextSlots := slots + [Some(sidedef)];
  }

  /** The sidedefs, each in a slot a linedef will later take it from. */
  method BuildSidedefs<D, I>(data: seq<SidedefData>, reg: Assets.AssetStorage<D, I>, wallTag: Assets.TypeTag,
                             importWall: Name -> Result<I>)
    returns (slots: seq<Option<Sidedef>>, textures: map<Name, Id>)
    requires reg.Valid() && wallTag in reg.storages
    modifies reg, reg.allocator
    ensures reg.Valid()
    ensures RegistryGrown(old(reg.storages), old(reg.live), reg.storages, reg.live, wallTag)
    ensures SubMap(textures, Cached(reg.storages[wallTag], reg.live))
    ensures |slots| == |data|
    ensures forall j :: 0 <= j < |data| ==> SidedefResolvable(data[j], textures) && slots[j] == Some(SidedefOf(data[j], textures))
    ensures QueuedFor(old(reg.storages[wallTag]), reg.storages[wallTag], importWall, WallNames(data))
  {
    slots, textures := [], map[];
    GrownRefl(reg.storages[wallTag], reg.live);
    assert data[..0] == [];
    for j := 0 to |data|
      invariant SidedefLoop(reg, wallTag, old(reg.storages), old(reg.live), data, slots, textures, importWall) && |slots| == j
    {
      slots, textures := AppendSidedef(data, slots, reg, wallTag, textures, importWall, old(reg.storages), old(reg.live));
    }
    assert data[..|data|] == data;
  }

  // ---------------------------------------------------------------------
  // Linedefs: sidedefs moved in, neighbours linked, the sky rule

  /** Every sidedef index of every linedef is in range (the importer's check). */
  predicate SideRefsInRange(md: MapData)
  {
    forall k :: 0 <= k < |md.linedefs| ==>
      && (md.linedefs[k].sidedefIndices.0.Some? ==> md.linedefs[k].sidedefIndices.0.value < |md.sidedefs|)
      && (md.linedefs[k].sidedefIndices.1.Some? ==> md.linedefs[k].sidedefIndices.1.value < |md.sidedefs|)
  }

  /**
   * No sidedef is named by two linedef sides: the second `take` of a slot
   * would find it empty, and the source unwraps it.
   */
  predicate ClaimsUnique(md: MapData)
  {
    forall k1, s1, k2, s2 ::
      0 <= k1 < |md.linedefs| && 0 <= k2 < |md.linedefs| && (k1 != k2 || s1 != s2) &&
      Slot(md.linedefs[k1].sidedefIndices, s1).Some? ==>
        Slot(md.linedefs[k1].sidedefIndices, s1) != Slot(md.linedefs[k2].sidedefIndices, s2)
  }

  /** Both vertex indices of every linedef are in range; the importer does not check them. */
  predicate LinedefVerticesInRange(md: MapData)
  {
    forall k :: 0 <= k < |md.linedefs| ==>
      md.linedefs[k].vertexIndices.0 < |md.vertexes| && md.linedefs[k].vertexIndices.1 < |md.vertexes|
  }

  /** Sidedef `j` has been taken by one of the first `k` linedefs. */
  ghost predicate Claimed(md: MapData, j: nat, k: nat)
  {
    exists k', side :: 0 <= k' < k && k' < |md.linedefs| && Slot(md.linedefs[k'].sidedefIndices, side) == Some(j)
  }

  /** The sectors of the front and back sidedef of linedef `k`, when it has both. */
  function Sides(md: MapData, k: nat): (r: Option<(nat, nat)>)
  {
    if k < |md.linedefs| then
      var ix := md.linedefs[k].sidedefIndices;
      if ix.0.Some? && ix.1.Some? && ix.0.value < |md.sidedefs| && ix.1.value < |md.sidedefs| then
        Some((md.sidedefs[ix.0.value].sectorIndex, md.sidedefs[ix.1.value].sectorIndex))
      else None
    else None
  }

  /** Linedef `k` runs between two different sectors, `a` and `b`. */
  predicate Adjacent(md: MapData, k: nat, a: nat, b: nat)
  {
    Sides(md, k).Some? && Sides(md, k).value.0 != Sides(md, k).value.1 &&
    ((a, b) == Sides(md, k).value || (b, a) == Sides(md, k).value)
  }

  /**
   * After `k` linedefs: no sector lists a neighbour twice, and `x` is a
   * neighbour of `s` exactly when one of those linedefs runs between them.
   */
  ghost predicate Neighbourly(md: MapData, sectors: seq<Sector>, k: nat)
  {
    forall s :: 0 <= s < |sectors| ==>
      && Assets.Distinct(sectors[s].neighbours)
      && (forall x :: x in sectors[s].neighbours <==> exists k' :: 0 <= k' < k && Adjacent(md, k', s, x))
  }

  /** `if !neighbours.contains(&b) { neighbours.push(b) }` on sector `a`. */
  function Link(sectors: seq<Sector>, a: nat, b: nat): (r: seq<Sector>)
    requires a < |sectors|
    ensures |r| == |sectors|
    ensures forall s :: 0 <= s < |r| && s != a ==> r[s] == sectors[s]
    ensures r[a] == sectors[a].(neighbours := r[a].neighbours)
    ensures forall x :: x in r[a].neighbours <==> x in sectors[a].neighbours || x == b
    ensures Assets.Distinct(sectors[a].neighbours) ==> Assets.Distinct(r[a].neighbours)
  {
    if b in sectors[a].neighbours then sectors
    else sectors[a := sectors[a].(neighbours := sectors[a].neighbours + [b])]
  }

  /** The neighbour links linedef `k` adds, if any. */
  function Relink(md: MapData, sectors: seq<Sector>, k: nat): (r: seq<Sector>)
    requires Sides(md, k).Some? ==> Sides(md, k).value.0 < |sectors| && Sides(md, k).value.1 < |sectors|
    ensures |r| == |sectors|
    ensures forall s :: 0 <= s < |r| ==> r[s] == sectors[s].(neighbours := r[s].neighbours)
  {
    match Sides(md, k)
    case None => sectors
    case Some((f, b)) => if f != b then Link(Link(sectors, f, b), b, f) else sectors
  }

  lemma {:induction false} RelinkStep(md: MapData, sectors: seq<Sector>, k: nat)
    requires Sides(md, k).Some? ==> Sides(md, k).value.0 < |sectors| && Sides(md, k).value.1 < |sectors|
    requires Neighbourly(md, sectors, k)
    ensures Neighbourly(md, Relink(md, sectors, k), k + 1)
  {
    var r := Relink(md, sectors, k);
    forall s | 0 <= s < |r|
      ensures Assets.Distinct(r[s].neighbours)
      ensures forall x :: x in r[s].neighbours <==> exists k' :: 0 <= k' < k + 1 && Adjacent(md, k', s, x)
    {
      forall x
        ensures x in r[s].neighbours <==> exists k' :: 0 <= k' < k + 1 && Adjacent(md, k', s, x)
      {
        var old_ := x in sectors[s].neighbours;
        assert old_ <==> exists k' :: 0 <= k' < k && Adjacent(md, k', s, x);
        if x in r[s].neighbours && !old_ {
          assert Adjacent(md, k, s, x);
        }
        if Adjacent(md, k, s, x) {
          assert x in r[s].neighbours;
        }
      }
    }
  }

  /** `BLOCKING` (bit 0) blocks everything; otherwise `BLOCKMONSTERS` (bit 1) blocks monsters. */
  function SolidMaskOf(flags: bv16): (m: SolidMask)
    ensures m == SolidAll <==> flags & 1 != 0
    ensures m == SolidMonster <==> flags & 1 == 0 && flags & 2 != 0
    ensures m == SolidEmpty <==> flags & 3 == 0
  {
    if flags & 1 != 0 then SolidAll
    else if flags & 2 != 0 then SolidMonster
    else SolidEmpty
  }

  /** The slots as `build_map` fills them: one resolved sidedef per sidedef record. */
  ghost predicate SlotsFilled(md: MapData, sectorCount: nat, slots0: seq<Option<Sidedef>>)
  {
    && |slots0| == |md.sidedefs|
    && (forall j :: 0 <= j < |slots0| ==> slots0[j].Some? && slots0[j].value.sectorIndex == md.sidedefs[j].sectorIndex)
    && (forall j :: 0 <= j < |md.sidedefs| ==> md.sidedefs[j].sectorIndex < sectorCount)
  }

  /**
   * The sidedefs linedef `k` ends up with: each named slot's sidedef, and
   * when both sides face sectors with a sky ceiling, both top textures become
   * the sky.
   */
  function LinedefSides(md: MapData, sectors0: seq<Sector>, slots0: seq<Option<Sidedef>>, k: nat)
    : (Option<Sidedef>, Option<Sidedef>)
    requires k < |md.linedefs| && SideRefsInRange(md) && SlotsFilled(md, |sectors0|, slots0)
  {
    var ix := md.linedefs[k].sidedefIndices;
    assert Slot(ix, Right) == ix.0 && Slot(ix, Left) == ix.1;
    var front := if ix.0.Some? then slots0[ix.0.value] else None;
    var back := if ix.1.Some? then slots0[ix.1.value] else None;
    if front.Some? && back.Some? &&
       Textures.IsSky(sectors0[front.value.sectorIndex].ceilingTexture) &&
       Textures.IsSky(sectors0[back.value.sectorIndex].ceilingTexture)
    then (Some(front.value.(topTexture := Textures.Sky)), Some(back.value.(topTexture := Textures.Sky)))
    else (front, back)
  }

  function BuiltLinedef(md: MapData, sectors0: seq<Sector>, slots0: seq<Option<Sidedef>>, k: nat): Linedef
    requires k < |md.linedefs| && SideRefsInRange(md) && SlotsFilled(md, |sectors0|, slots0)
    requires LinedefVerticesInRange(md)
  {
    var d := md.linedefs[k];
    var v0, v1 := md.vertexes[d.vertexIndices.0], md.vertexes[d.vertexIndices.1];
    Linedef(Line2(v0, Point(v1.x - v0.x, v1.y - v0.y)), d.flags, SolidMaskOf(d.flags),
            d.specialType, d.sectorTag, LinedefSides(md, sectors0, slots0, k))
  }

  /** A sidedef named by linedef `k` has not been taken by an earlier linedef. */
  lemma Unclaimed(md: MapData, k: nat, side: Side)
    requires ClaimsUnique(md) && k < |md.linedefs| && Slot(md.linedefs[k].sidedefIndices, side).Some?
    ensures !Claimed(md, Slot(md.linedefs[k].sidedefIndices, side).value, k)
  {
  }

  lemma ClaimedStep(md: MapData, j: nat, k: nat)
    requires k < |md.linedefs|
    ensures Claimed(md, j, k + 1) <==>
              Claimed(md, j, k) || md.linedefs[k].sidedefIndices.0 == Some(j) || md.linedefs[k].sidedefIndices.1 == Some(j)
  {
    var ix := md.linedefs[k].sidedefIndices;
    assert Slot(ix, Right) == ix.0 && Slot(ix, Left) == ix.1;
    if Claimed(md, j, k + 1) && !Claimed(md, j, k) {
      var k', side' :| 0 <= k' < k + 1 && k' < |md.linedefs| && Slot(md.linedefs[k'].sidedefIndices, side') == Some(j);
      assert k' == k;
    }
  }

  /** `sidedefs[x].take().unwrap()` for each side of linedef `k`. */
  method TakeSides(md: MapData, slots0: seq<Option<Sidedef>>, slots: seq<Option<Sidedef>>, k: nat)
    returns (front: Option<Sidedef>, back: Option<Sidedef>, nextSlots: seq<Option<Sidedef>>)
    requires k < |md.linedefs| && SideRefsInRange(md) && ClaimsUnique(md)
    requires |slots0| == |md.sidedefs| && forall j :: 0 <= j < |slots0| ==> slots0[j].Some?
    requires |slots| == |slots0|
    requires forall j :: 0 <= j < |slots| ==> slots[j] == if Claimed(md, j, k) then None else slots0[j]
    ensures |nextSlots| == |slots0|
    ensures forall j :: 0 <= j < |nextSlots| ==> nextSlots[j] == if Claimed(md, j, k + 1) then None else slots0[j]
    ensures var ix := md.linedefs[k].sidedefIndices;
            && front == (if ix.0.Some? then slots0[ix.0.value] else None)
            && back == (if ix.1.Some? then slots0[ix.1.value] else None)
  {
    var ix := md.linedefs[k].sidedefIndices;
    assert Slot(ix, Right) == ix.0 && Slot(ix, Left) == ix.1;
    front, back, nextSlots := None, None, slots;
    if ix.0.Some? {
      Unclaimed(md, k, Right);
      front := Some(nextSlots[ix.0.value].value);
      nextSlots := nextSlots[ix.0.value := None];
    }
    if ix.1.Some? {
      Unclaimed(md, k, Left);
      back := Some(nextSlots[ix.1.value].value);
      nextSlots := nextSlots[ix.1.value := None];
    }
    forall j | 0 <= j < |nextSlots|
      ensures nextSlots[j] == if Claimed(md, j, k + 1) then None else slots0[j]
    {
      ClaimedStep(md, j, k);
    }
  }

  /** The loop body of the linedef pass: linedef `k` built, its sectors linked. */
  method BuildLinedef(md: MapData, sectors0: seq<Sector>, slots0: seq<Option<Sidedef>>,
                      sectors: seq<Sector>, slots: seq<Option<Sidedef>>, k: nat)
    returns (linedef: Linedef, nextSectors: seq<Sector>, nextSlots: seq<Option<Sidedef>>)
    requires k < |md.linedefs| && SideRefsInRange(md) && ClaimsUnique(md) && LinedefVerticesInRange(md)
    requires SlotsFilled(md, |sectors0|, slots0)
    requires |slots| == |slots0|
    requires forall j :: 0 <= j < |slots| ==> slots[j] == if Claimed(md, j, k) then None else slots0[j]
    requires |sectors| == |sectors0|
    requires forall s :: 0 <= s < |sectors| ==> sectors[s] == sectors0[s].(neighbours := sectors[s].neighbours)
    ensures linedef == BuiltLinedef(md, sectors0, slots0, k)
    ensures |nextSlots| == |slots0|
    ensures forall j :: 0 <= j < |nextSlots| ==> nextSlots[j] == if Claimed(md, j, k + 1) then None else slots0[j]
    ensures (Sides(md, k).Some? ==> Sides(md, k).value.0 < |sectors| && Sides(md, k).value.1 < |sectors|) &&
            nextSectors == Relink(md, sectors, k)
  {
    var front, back;
    front, back, nextSlots := TakeSides(md, slots0, slots, k);
    nextSectors := sectors;
    if front.Some? && back.Some? {
      var fs, bs := front.value.sectorIndex, back.value.sectorIndex;
      assert Sides(md, k) == Some((fs, bs));
      if fs != bs {
        nextSectors := Link(nextSectors, fs, bs);
        nextSectors := Link(nextSectors, bs, fs);
      }
      assert nextSectors[fs].ceilingTexture == sectors0[fs].ceilingTexture;
      assert nextSectors[bs].ceilingTexture == sectors0[bs].ceilingTexture;
      if Textures.IsSky(nextSectors[fs].ceilingTexture) && Textures.IsSky(nextSectors[bs].ceilingTexture) {
        front := Some(front.value.(topTexture := Textures.Sky));
        back := Some(back.value.(topTexture := Textures.Sky));
      }
    }
    var d := md.linedefs[k];
    var v0, v1 := md.vertexes[d.vertexIndices.0], md.vertexes[d.vertexIndices.1];
    var line := Line2(v0, Point(v1.x - v0.x, v1.y - v0.y));
    linedef := Linedef(line, d.flags, SolidMaskOf(d.flags), d.specialType, d.sectorTag, (front, back));
  }

  /** The linedefs, in order, each taking its sidedefs out of their slots. */
  method BuildLinedefs(md: MapData, sectors0: seq<Sector>, slots0: seq<Option<Sidedef>>)
    returns (linedefs: seq<Linedef>, sectors: seq<Sector>)
    requires SideRefsInRange(md) && ClaimsUnique(md) && LinedefVerticesInRange(md)
    requires SlotsFilled(md, |sectors0|, slots0)
    requires forall s :: 0 <= s < |sectors0| ==> sectors0[s].neighbours == []
    ensures |linedefs| == |md.linedefs|
    ensures forall k :: 0 <= k < |md.linedefs| ==> linedefs[k] == BuiltLinedef(md, sectors0, slots0, k)
    ensures |sectors| == |sectors0|
    ensures forall s :: 0 <= s < |sectors| ==> sectors[s] == sectors0[s].(neighbours := sectors[s].neighbours)
    ensures Neighbourly(md, sectors, |md.linedefs|)
  {
    linedefs, sectors := [], sectors0;
    var slots := slots0;
    for k := 0 to |md.linedefs|
      invariant |linedefs| == k
      invariant forall k' :: 0 <= k' < k ==> linedefs[k'] == BuiltLinedef(md, sectors0, slots0, k')
      invariant |slots| == |slots0|
      invariant forall j :: 0 <= j < |slots| ==> slots[j] == if Claimed(md, j, k) then None else slots0[j]
      invariant |sectors| == |sectors0|
      invariant forall s :: 0 <= s < |sectors| ==> sectors[s] == sectors0[s].(neighbours := sectors[s].neighbours)
      invariant Neighbourly(md, sectors, k)
    {
      var linedef, nextSectors;
      linedef, nextSectors, slots := BuildLinedef(md, sectors0, slots0, sectors, slots, k);
      RelinkStep(md, sectors, k);
      sectors := nextSectors;
      linedefs := linedefs + [linedef];
    }
  }

  /** Neighbourhood is symmetric and no sector neighbours itself. */
  lemma NeighboursSymmetric(md: MapData, sectors: seq<Sector>, n: nat, s: nat, x: nat)
    requires Neighbourly(md, sectors, n) && s < |sectors| && x < |sectors|
    ensures x in sectors[s].neighbours <==> s in sectors[x].neighbours
    ensures s !in sectors[s].neighbours
  {
    if x in sectors[s].neighbours {
      var k :| 0 <= k < n && Adjacent(md, k, s, x);
      assert Adjacent(md, k, x, s);
    }
    if s in sectors[x].neighbours {
      var k :| 0 <= k < n && Adjacent(md, k, x, s);
      assert Adjacent(md, k, s, x);
    }
  }

  /**
   * A built linedef carries the sidedefs it names; a top texture differs from
   * the resolved one only when both sides face sky ceilings, and then it is
   * the sky on both sides.
   */
  lemma SkyRule(md: MapData, sectors0: seq<Sector>, slots0: seq<Option<Sidedef>>, k: nat)
    requires k < |md.linedefs| && SideRefsInRange(md) && SlotsFilled(md, |sectors0|, slots0)
    ensures var ix := md.linedefs[k].sidedefIndices;
            var (f, b) := LinedefSides(md, sectors0, slots0, k);
            && (f.Some? <==> ix.0.Some?) && (b.Some? <==> ix.1.Some?)
            && (f.Some? ==> f.value == slots0[ix.0.value].value.(topTexture := f.value.topTexture))
            && (b.Some? ==> b.value == slots0[ix.1.value].value.(topTexture := b.value.topTexture))
            && (f.Some? && b.Some? ==>
                  var sky := Textures.IsSky(sectors0[md.sidedefs[ix.0.value].sectorIndex].ceilingTexture) &&
                             Textures.IsSky(sectors0[md.sidedefs[ix.1.value].sectorIndex].ceilingTexture);
                  && (sky ==> f.value.topTexture == Textures.Sky && b.value.topTexture == Textures.Sky)
                  && (!sky ==> f == slots0[ix.0.value] && b == slots0[ix.1.value]))
            && (!(f.Some? && b.Some?) ==>
                  (f.Some? ==> f == slots0[ix.0.value]) && (b.Some? ==> b == slots0[ix.1.value]))
  {
  }

  // ---------------------------------------------------------------------
  // BSP nodes, reversed so that the root (stored last) comes first

  /** Node children of the node records are in range (the importer's check). */
  predicate NodeRefsInRange(nodes: seq<GLNodeData>)
  {
    forall i :: 0 <= i < |nodes| ==>
      && (nodes[i].childIndices.0.Node? ==> nodes[i].childIndices.0.index < |nodes|)
      && (nodes[i].childIndices.1.Node? ==> nodes[i].childIndices.1.index < |nodes|)
  }

  /** Node `i` of `n` becomes node `n - i - 1`; subsectors keep their index. */
  function ReindexChild(c: NodeChild, n: nat): (r: NodeChild)
    requires c.Node? ==> c.index < n
    ensures r.Subsector? <==> c.Subsector?
    ensures r.Subsector? ==> r.index == c.index
    ensures r.Node? ==> r.index < n && r.index + c.index + 1 == n
  {
    match c
    case Subsector(i) => Subsector(i)
    case Node(i) => Node(n - i - 1)
  }

  /** Renumbering twice restores the child. */
  lemma ReindexChildInvolution(c: NodeChild, n: nat)
    requires c.Node? ==> c.index < n
    ensures ReindexChild(ReindexChild(c, n), n) == c
  {
  }

  function NodeOf(d: GLNodeData, n: nat): GLNode
    requires d.childIndices.0.Node? ==> d.childIndices.0.index < n
    requires d.childIndices.1.Node? ==> d.childIndices.1.index < n
  {
    GLNode(Line2(Point(d.partitionPoint.0, d.partitionPoint.1), Point(d.partitionDir.0, d.partitionDir.1)),
           d.childBboxes,
           (ReindexChild(d.childIndices.0, n), ReindexChild(d.childIndices.1, n)))
  }

  /**
   * The nodes in reverse order with node children renumbered to match: node
   * `i` of the lump is node `n - i - 1` of the map, and it points at the
   * renumbered images of the children it pointed at, so the tree is the same.
   */
  function ReindexNodes(nodes: seq<GLNodeData>): (r: seq<GLNode>)
    requires NodeRefsInRange(nodes)
    ensures |r| == |nodes|
    ensures forall k :: 0 <= k < |r| ==> r[k] == NodeOf(nodes[|nodes| - k - 1], |nodes|)
  {
    seq(|nodes|, k requires 0 <= k < |nodes| => NodeOf(nodes[|nodes| - k - 1], |nodes|))
  }

  /** The root, stored last in the lump, is node 0; every node child of the result names a node of the result. */
  lemma ReindexNodesShape(nodes: seq<GLNodeData>)
    requires NodeRefsInRange(nodes)
    ensures |nodes| > 0 ==> ReindexNodes(nodes)[0] == NodeOf(nodes[|nodes| - 1], |nodes|)
    ensures forall k :: 0 <= k < |nodes| ==>
              && (ReindexNodes(nodes)[k].childIndices.0.Node? ==> ReindexNodes(nodes)[k].childIndices.0.index < |nodes|)
              && (ReindexNodes(nodes)[k].childIndices.1.Node? ==> ReindexNodes(nodes)[k].childIndices.1.index < |nodes|)
  {
  }

  // ---------------------------------------------------------------------
  // Segs

  /** Seg endpoints index vertexes that exist (the importer's check). */
  predicate SegVerticesInRange(md: MapData)
  {
    forall j :: 0 <= j < |md.glSegs| ==>
      VertexInRange(md, md.glSegs[j].vertexIndices.0) && VertexInRange(md, md.glSegs[j].vertexIndices.1)
  }

  function Vertex(md: MapData, v: EitherVertex): Point
    requires VertexInRange(md, v)
  {
    match v
    case GL(i) => md.glVert[i]
    case Normal(i) => md.vertexes[i]
  }

  function SegOf(md: MapData, g: GLSegData): (seg: GLSeg)
    requires VertexInRange(md, g.vertexIndices.0) && VertexInRange(md, g.vertexIndices.1)
  {
    var v0, v1 := Vertex(md, g.vertexIndices.0), Vertex(md, g.vertexIndices.1);
    GLSeg(Line2(v0, Point(v1.x - v0.x, v1.y - v0.y)), g.linedefIndex, g.linedefSide)
  }

  /** The segs, one per seg record, as a line from its first to its second endpoint. */
  function BuildSegs(md: MapData): (segs: seq<GLSeg>)
    requires SegVerticesInRange(md)
    ensures |segs| == |md.glSegs|
    ensures forall j :: 0 <= j < |segs| ==>
              var v0, v1 := Vertex(md, md.glSegs[j].vertexIndices.0), Vertex(md, md.glSegs[j].vertexIndices.1);
              && segs[j].line.point == v0
              && segs[j].line.point.x + segs[j].line.dir.x == v1.x
              && segs[j].line.point.y + segs[j].line.dir.y == v1.y
              && segs[j].linedefIndex == md.glSegs[j].linedefIndex
              && segs[j].linedefSide == md.glSegs[j].linedefSide
  {
    seq(|md.glSegs|, j requires 0 <= j < |md.glSegs| => SegOf(md, md.glSegs[j]))
  }

  // ---------------------------------------------------------------------
  // Subsectors and the sectors that own them

  /** Seg linedef indices name built linedefs. */
  predicate SegLinedefsInRange(segs: seq<GLSeg>, linedefs: seq<Linedef>)
  {
    forall j :: 0 <= j < |segs| && segs[j].linedefIndex.Some? ==> segs[j].linedefIndex.value < |linedefs|
  }

  /** The seg runs along a side of its linedef that has a sidedef. */
  predicate OnSidedef(linedefs: seq<Linedef>, seg: GLSeg)
  {
    seg.linedefIndex.Some? && seg.linedefIndex.value < |linedefs| &&
    Slot(linedefs[seg.linedefIndex.value].sidedefs, seg.linedefSide).Some?
  }

  function SidedefSector(linedefs: seq<Linedef>, seg: GLSeg): nat
    requires OnSidedef(linedefs, seg)
  {
    Slot(linedefs[seg.linedefIndex.value].sidedefs, seg.linedefSide).value.sectorIndex
  }

  /**
   * The `find_map` over a subsector's segs: the sector of the first seg that
   * runs along a sidedef, or none when no seg does.
   */
  function FindSector(linedefs: seq<Linedef>, segs: seq<GLSeg>): Option<nat>
    requires SegLinedefsInRange(segs, linedefs)
    decreases |segs|
  {
    if |segs| == 0 then None
    else if OnSidedef(linedefs, segs[0]) then Some(SidedefSector(linedefs, segs[0]))
    else
      assert SegLinedefsInRange(segs[1..], linedefs) by {
        assert forall j :: 1 <= j < |segs| ==> segs[j] == segs[1..][j - 1];
      }
      FindSector(linedefs, segs[1..])
  }

  /** None exactly when no seg runs along a sidedef; otherwise the sector of the first seg that does. */
  lemma {:induction false} FindSectorSpec(linedefs: seq<Linedef>, segs: seq<GLSeg>)
    requires SegLinedefsInRange(segs, linedefs)
    ensures var r := FindSector(linedefs, segs);
            && (r.None? <==> forall j :: 0 <= j < |segs| ==> !OnSidedef(linedefs, segs[j]))
            && (r.Some? ==> exists j :: 0 <= j < |segs| && OnSidedef(linedefs, segs[j]) &&
                                        r.value == SidedefSector(linedefs, segs[j]) &&
                                        forall j' :: 0 <= j' < j ==> !OnSidedef(linedefs, segs[j']))
    decreases |segs|
  {
    if |segs| > 0 && !OnSidedef(linedefs, segs[0]) {
      assert forall j :: 1 <= j < |segs| ==> segs[j] == segs[1..][j - 1];
      FindSectorSpec(linedefs, segs[1..]);
      var r := FindSector(linedefs, segs[1..]);
      if r.Some? {
        var j :| 0 <= j < |segs[1..]| && OnSidedef(linedefs, segs[1..][j]) &&
                 r.value == SidedefSector(linedefs, segs[1..][j]) &&
                 forall j' :: 0 <= j' < j ==> !OnSidedef(linedefs, segs[1..][j']);
        assert OnSidedef(linedefs, segs[j + 1]);
      }
    }
  }

  /** Each subsector's seg range lies within the segs (the importer's check). */
  predicate SsectsInRange(ssects: seq<GLSSectData>, segCount: nat)
  {
    forall i :: 0 <= i < |ssects| ==> ssects[i].firstSegIndex + ssects[i].segCount <= segCount
  }

  /** Every sidedef a built linedef carries faces a sector that exists. */
  predicate LinedefSectorsInRange(linedefs: seq<Linedef>, sectorCount: nat)
  {
    forall k, side :: 0 <= k < |linedefs| && Slot(linedefs[k].sidedefs, side).Some? ==>
      Slot(linedefs[k].sidedefs, side).value.sectorIndex < sectorCount
  }

  function SubsectorSegs(segs: seq<GLSeg>, ss: GLSSectData): seq<GLSeg>
    requires ss.firstSegIndex + ss.segCount <= |segs|
  {
    segs[ss.firstSegIndex..ss.firstSegIndex + ss.segCount]
  }

  /** The sector subsector `ss` belongs to, if any of its segs runs along a sidedef. */
  function Owner(linedefs: seq<Linedef>, segs: seq<GLSeg>, ss: GLSSectData): (r: Option<nat>)
    requires SegLinedefsInRange(segs, linedefs) && ss.firstSegIndex + ss.segCount <= |segs|
  {
    var part := SubsectorSegs(segs, ss);
    assert forall j :: 0 <= j < |part| ==> part[j] == segs[ss.firstSegIndex + j];
    FindSector(linedefs, part)
  }

  lemma OwnerInRange(linedefs: seq<Linedef>, segs: seq<GLSeg>, ss: GLSSectData, sectorCount: nat)
    requires SegLinedefsInRange(segs, linedefs) && ss.firstSegIndex + ss.segCount <= |segs|
    requires LinedefSectorsInRange(linedefs, sectorCount)
    ensures Owner(linedefs, segs, ss).Some? ==> Owner(linedefs, segs, ss).value < sectorCount
  {
    var part := SubsectorSegs(segs, ss);
    assert forall j :: 0 <= j < |part| ==> part[j] == segs[ss.firstSegIndex + j];
    FindSectorSpec(linedefs, part);
    if Owner(linedefs, segs, ss).Some? {
      var j :| 0 <= j < |part| && OnSidedef(linedefs, part[j]) &&
               Owner(linedefs, segs, ss).value == SidedefSector(linedefs, part[j]);
      assert part[j].linedefIndex.value < |linedefs|;
    }
  }

  /** The subsectors among the first `n` that sector `s` owns, in ascending order. */
  function SubsectorsOf(linedefs: seq<Linedef>, segs: seq<GLSeg>, ssects: seq<GLSSectData>, s: nat, n: nat)
    : seq<nat>
    requires n <= |ssects| && SegLinedefsInRange(segs, linedefs) && SsectsInRange(ssects, |segs|)
  {
    if n == 0 then []
    else
      var prev := SubsectorsOf(linedefs, segs, ssects, s, n - 1);
      if Owner(linedefs, segs, ssects[n - 1]) == Some(s) then prev + [n - 1] else prev
  }

  /** Sector `s`'s list holds exactly the subsectors below `n` it owns. */
  lemma {:induction false} SubsectorsOfMembers(linedefs: seq<Linedef>, segs: seq<GLSeg>, ssects: seq<GLSSectData>,
                                               s: nat, n: nat)
    requires n <= |ssects| && SegLinedefsInRange(segs, linedefs) && SsectsInRange(ssects, |segs|)
    ensures forall x: nat :: x in SubsectorsOf(linedefs, segs, ssects, s, n) <==>
                             x < n && Owner(linedefs, segs, ssects[x]) == Some(s)
    decreases n
  {
    if n > 0 {
      SubsectorsOfMembers(linedefs, segs, ssects, s, n - 1);
      var prev := SubsectorsOf(linedefs, segs, ssects, s, n - 1);
      var r := SubsectorsOf(linedefs, segs, ssects, s, n);
      forall x: nat
        ensures x in r <==> x < n && Owner(linedefs, segs, ssects[x]) == Some(s)
      {
        assert x in prev <==> x < n - 1 && Owner(linedefs, segs, ssects[x]) == Some(s);
        if Owner(linedefs, segs, ssects[n - 1]) == Some(s) {
          assert r == prev + [n - 1];
        } else {
          assert r == prev;
        }
      }
    }
  }

  /** Sector `s`'s list is strictly increasing and bounded by `n`, so it holds each subsector once. */
  lemma {:induction false} SubsectorsOfAscending(linedefs: seq<Linedef>, segs: seq<GLSeg>, ssects: seq<GLSSectData>,
                                                 s: nat, n: nat)
    requires n <= |ssects| && SegLinedefsInRange(segs, linedefs) && SsectsInRange(ssects, |segs|)
    ensures forall a :: 0 <= a < |SubsectorsOf(linedefs, segs, ssects, s, n)| ==>
              SubsectorsOf(linedefs, segs, ssects, s, n)[a] < n
    ensures forall a, b :: 0 <= a < b < |SubsectorsOf(linedefs, segs, ssects, s, n)| ==>
              SubsectorsOf(linedefs, segs, ssects, s, n)[a] < SubsectorsOf(linedefs, segs, ssects, s, n)[b]
    decreases n
  {
    if n > 0 {
      SubsectorsOfAscending(linedefs, segs, ssects, s, n - 1);
      var prev := SubsectorsOf(linedefs, segs, ssects, s, n - 1);
      var r := SubsectorsOf(linedefs, segs, ssects, s, n);
      if Owner(linedefs, segs, ssects[n - 1]) == Some(s) {
        assert r == prev + [n - 1];
        assert forall a :: 0 <= a < |prev| ==> r[a] == prev[a];
      } else {
        assert r == prev;
      }
    }
  }

  /** Sector `s`'s subsector list after the first `n` subsectors were attached. */
  ghost predicate Attached(linedefs: seq<Linedef>, segs: seq<GLSeg>, ssects: seq<GLSSectData>,
                           sectors0: seq<Sector>, sectors: seq<Sector>, n: nat)
    requires n <= |ssects| && SegLinedefsInRange(segs, linedefs) && SsectsInRange(ssects, |segs|)
  {
    && |sectors| == |sectors0|
    && forall s :: 0 <= s < |sectors| ==>
         sectors[s] == sectors0[s].(subsectors := sectors0[s].subsectors + SubsectorsOf(linedefs, segs, ssects, s, n))
  }

  lemma AttachStep(linedefs: seq<Linedef>, segs: seq<GLSeg>, ssects: seq<GLSSectData>,
                   sectors0: seq<Sector>, sectors: seq<Sector>, i: nat, o: nat)
    requires i < |ssects| && SegLinedefsInRange(segs, linedefs) && SsectsInRange(ssects, |segs|)
    requires Attached(linedefs, segs, ssects, sectors0, sectors, i)
    requires Owner(linedefs, segs, ssects[i]) == Some(o) && o < |sectors|
    ensures Attached(linedefs, segs, ssects, sectors0, sectors[o := sectors[o].(subsectors := sectors[o].subsectors + [i])], i + 1)
  {
    var nextSectors := sectors[o := sectors[o].(subsectors := sectors[o].subsectors + [i])];
    forall s | 0 <= s < |nextSectors|
      ensures nextSectors[s] == sectors0[s].(subsectors := sectors0[s].subsectors + SubsectorsOf(linedefs, segs, ssects, s, i + 1))
    {
      if s == o {
        assert sectors0[s].subsectors + SubsectorsOf(linedefs, segs, ssects, s, i) + [i] ==
               sectors0[s].subsectors + (SubsectorsOf(linedefs, segs, ssects, s, i) + [i]);
      }
    }
  }

  /** The first `n` subsectors, each with its segs and its owning sector. */
  ghost predicate Recorded(linedefs: seq<Linedef>, segs: seq<GLSeg>, ssects: seq<GLSSectData>,
                           subsectors: seq<GLSSect>, n: nat)
    requires n <= |ssects| && SegLinedefsInRange(segs, linedefs) && SsectsInRange(ssects, |segs|)
  {
    && |subsectors| == n
    && forall i :: 0 <= i < n ==>
         Owner(linedefs, segs, ssects[i]).Some? &&
         subsectors[i] == GLSSect(SubsectorSegs(segs, ssects[i]), Owner(linedefs, segs, ssects[i]).value)
  }

  lemma RecordStep(linedefs: seq<Linedef>, segs: seq<GLSeg>, ssects: seq<GLSSectData>,
                   subsectors: seq<GLSSect>, i: nat, o: nat)
    requires i < |ssects| && SegLinedefsInRange(segs, linedefs) && SsectsInRange(ssects, |segs|)
    requires Recorded(linedefs, segs, ssects, subsectors, i)
    requires Owner(linedefs, segs, ssects[i]) == Some(o)
    ensures Recorded(linedefs, segs, ssects, subsectors + [GLSSect(SubsectorSegs(segs, ssects[i]), o)], i + 1)
  {
    var nextSubsectors := subsectors + [GLSSect(SubsectorSegs(segs, ssects[i]), o)];
    forall i' | 0 <= i' < i
      ensures nextSubsectors[i'] == subsectors[i']
    {
    }
  }

  /** One subsector: find its owner and, if there is one, record it in both lists. */
  method AttachSubsector(ssects: seq<GLSSectData>, segs: seq<GLSeg>, linedefs: seq<Linedef>, sectors0: seq<Sector>,
                         subsectors: seq<GLSSect>, sectors: seq<Sector>, i: nat)
    returns (owner: Option<nat>, nextSubsectors: seq<GLSSect>, nextSectors: seq<Sector>)
    requires i < |ssects| && SegLinedefsInRange(segs, linedefs) && SsectsInRange(ssects, |segs|)
    requires LinedefSectorsInRange(linedefs, |sectors0|)
    requires Recorded(linedefs, segs, ssects, subsectors, i)
    requires Attached(linedefs, segs, ssects, sectors0, sectors, i)
    ensures owner == Owner(linedefs, segs, ssects[i])
    ensures owner.Some? ==> && Recorded(linedefs, segs, ssects, nextSubsectors, i + 1)
                            && Attached(linedefs, segs, ssects, sectors0, nextSectors, i + 1)
  {
    var part := segs[ssects[i].firstSegIndex..ssects[i].firstSegIndex + ssects[i].segCount];
    assert part == SubsectorSegs(segs, ssects[i]);
    owner := FindSector(linedefs, part);
    assert owner == Owner(linedefs, segs, ssects[i]);
    nextSubsectors, nextSectors := subsectors, sectors;
    if owner.Some? {
      OwnerInRange(linedefs, segs, ssects[i], |sectors0|);
      var o := owner.value;
      AttachStep(linedefs, segs, ssects, sectors0, sectors, i, o);
      RecordStep(linedefs, segs, ssects, subsectors, i, o);
      nextSectors := sectors[o := sectors[o].(subsectors := sectors[o].subsectors + [i])];
      nextSubsectors := subsectors + [GLSSect(part, o)];
    }
  }

  /**
   * The subsector pass: each subsector takes its segs and the sector of its
   * first seg along a sidedef and is recorded in that sector; the first
   * subsector with no such seg fails the whole build.
   */
  method BuildSubsectors(ssects: seq<GLSSectData>, segs: seq<GLSeg>, linedefs: seq<Linedef>, sectors0: seq<Sector>)
    returns (r: Result<(seq<GLSSect>, seq<Sector>)>)
    requires SegLinedefsInRange(segs, linedefs) && SsectsInRange(ssects, |segs|)
    requires LinedefSectorsInRange(linedefs, |sectors0|)
    ensures r.Ok? ==> forall i :: 0 <= i < |ssects| ==> Owner(linedefs, segs, ssects[i]).Some?
    ensures r.Err? ==> r.error.NoSector? && r.error.subsector < |ssects| &&
                       Owner(linedefs, segs, ssects[r.error.subsector]).None? &&
                       forall i :: 0 <= i < r.error.subsector ==> Owner(linedefs, segs, ssects[i]).Some?
    ensures r.Ok? ==> |r.value.0| == |ssects|
    ensures r.Ok? ==> forall i :: 0 <= i < |ssects| ==>
              r.value.0[i] == GLSSect(SubsectorSegs(segs, ssects[i]), Owner(linedefs, segs, ssects[i]).value)
    ensures r.Ok? ==> |r.value.1| == |sectors0|
    ensures r.Ok? ==> forall s :: 0 <= s < |sectors0| ==>
              r.value.1[s] == sectors0[s].(subsectors := sectors0[s].subsectors +
                                                         SubsectorsOf(linedefs, segs, ssects, s, |ssects|))
  {
    var subsectors: seq<GLSSect> := [];
    var sectors := sectors0;
    for i := 0 to |ssects|
      invariant Recorded(linedefs, segs, ssects, subsectors, i)
      invariant Attached(linedefs, segs, ssects, sectors0, sectors, i)
    {
      var owner;
      owner, subsectors, sectors := AttachSubsector(ssects, segs, linedefs, sectors0, subsectors, sectors, i);
      if owner.None? {
        return Err(NoSector(i));
      }
    }
    r := Ok((subsectors, sectors));
  }

  // ---------------------------------------------------------------------
  // The whole build

  /**
   * What `build_map` needs of its input: the importer's checks passed, no
   * sidedef is taken twice and linedef vertices exist (the source panics
   * otherwise).
   */
  predicate Buildable(md: MapData)
  {
    RefsValid(md) && ClaimsUnique(md) && LinedefVerticesInRange(md)
  }

  lemma {:induction false} BuildableRanges(md: MapData)
    requires RefsValid(md)
    ensures SideRefsInRange(md) && NodeRefsInRange(md.glNodes) && SegVerticesInRange(md)
    ensures SsectsInRange(md.glSsect, |md.glSegs|)
    ensures forall j :: 0 <= j < |md.sidedefs| ==> md.sidedefs[j].sectorIndex < |md.sectors|
    ensures forall j :: 0 <= j < |md.glSegs| && md.glSegs[j].linedefIndex.Some? ==>
              md.glSegs[j].linedefIndex.value < |md.linedefs|
  {
    forall k | 0 <= k < |md.linedefs|
      ensures md.linedefs[k].sidedefIndices.0.Some? ==> md.linedefs[k].sidedefIndices.0.value < |md.sidedefs|
      ensures md.linedefs[k].sidedefIndices.1.Some? ==> md.linedefs[k].sidedefIndices.1.value < |md.sidedefs|
    {
      var l := md.linedefs[k];
      assert l in md.linedefs;
      assert Slot(l.sidedefIndices, Right) == l.sidedefIndices.0 && Slot(l.sidedefIndices, Left) == l.sidedefIndices.1;
    }
    forall i | 0 <= i < |md.glNodes|
      ensures md.glNodes[i].childIndices.0.Node? ==> md.glNodes[i].childIndices.0.index < |md.glNodes|
      ensures md.glNodes[i].childIndices.1.Node? ==> md.glNodes[i].childIndices.1.index < |md.glNodes|
    {
      var n := md.glNodes[i];
      assert n in md.glNodes;
      assert ChildInRange(md, Slot(n.childIndices, Right)) && ChildInRange(md, Slot(n.childIndices, Left));
    }
    forall j | 0 <= j < |md.glSegs|
      ensures VertexInRange(md, md.glSegs[j].vertexIndices.0) && VertexInRange(md, md.glSegs[j].vertexIndices.1)
      ensures md.glSegs[j].linedefIndex.Some? ==> md.glSegs[j].linedefIndex.value < |md.linedefs|
    {
      assert md.glSegs[j] in md.glSegs;
    }
    forall i | 0 <= i < |md.glSsect|
      ensures md.glSsect[i].firstSegIndex + md.glSsect[i].segCount <= |md.glSegs|
    {
      assert md.glSsect[i] in md.glSsect;
    }
    forall j | 0 <= j < |md.sidedefs|
      ensures md.sidedefs[j].sectorIndex < |md.sectors|
    {
      assert md.sidedefs[j] in md.sidedefs;
    }
  }

  /** The sectors with their flats resolved against `flats`. */
  function SpecSectors(md: MapData, flats: map<Name, Id>): (r: seq<Sector>)
    ensures |r| == |md.sectors| && forall i :: 0 <= i < |r| ==> r[i] == SectorOf(md.sectors[i], flats)
  {
    seq(|md.sectors|, i requires 0 <= i < |md.sectors| => SectorOf(md.sectors[i], flats))
  }

  /** The sidedef slots with their textures resolved against `walls`. */
  function SpecSlots(md: MapData, walls: map<Name, Id>): (r: seq<Option<Sidedef>>)
    ensures |r| == |md.sidedefs| && forall j :: 0 <= j < |r| ==> r[j] == Some(SidedefOf(md.sidedefs[j], walls))
  {
    seq(|md.sidedefs|, j requires 0 <= j < |md.sidedefs| => Some(SidedefOf(md.sidedefs[j], walls)))
  }

  /** The linedefs `build_map` produces for the given texture handles. */
  function SpecLinedefs(md: MapData, flats: map<Name, Id>, walls: map<Name, Id>): (r: seq<Linedef>)
    requires Buildable(md)
    ensures |r| == |md.linedefs| && LinedefSectorsInRange(r, |md.sectors|)
    ensures (BuildableRanges(md);
             forall k :: 0 <= k < |r| ==> r[k] == BuiltLinedef(md, SpecSectors(md, flats), SpecSlots(md, walls), k))
  {
    BuildableRanges(md);
    var sectors0, slots0 := SpecSectors(md, flats), SpecSlots(md, walls);
    seq(|md.linedefs|, k requires 0 <= k < |md.linedefs| => BuiltLinedef(md, sectors0, slots0, k))
  }

  /** A memo below the cache of one table stays below it as the registry grows. */
  lemma MemoStays<D, I>(s0: map<Assets.TypeTag, Assets.Table<D, I>>, l0: set<Id>,
                        s1: map<Assets.TypeTag, Assets.Table<D, I>>, l1: set<Id>,
                        tags: set<Assets.TypeTag>, tag: Assets.TypeTag, memo: map<Name, Id>)
    requires RegistryGrownOn(s0, l0, s1, l1, tags) && tag in s0 && tag in tags
    requires SubMap(memo, Cached(s0[tag], l0))
    ensures SubMap(memo, Cached(s1[tag], l1))
  {
    assert SubMap(Cached(s0[tag], l0), Cached(s1[tag], l1));
  }

  /** Sectors and sidedefs resolved against smaller memos resolve the same against the final caches. */
  lemma SpecsMonotone(md: MapData, flats: map<Name, Id>, flatsEnd: map<Name, Id>, sectors0: seq<Sector>,
                      textures: map<Name, Id>, walls: map<Name, Id>, slots0: seq<Option<Sidedef>>)
    requires SubMap(flats, flatsEnd) && SubMap(textures, walls)
    requires |sectors0| == |md.sectors|
    requires forall i :: 0 <= i < |md.sectors| ==>
               SectorResolvable(md.sectors[i], flats) && sectors0[i] == SectorOf(md.sectors[i], flats)
    requires |slots0| == |md.sidedefs|
    requires forall j :: 0 <= j < |md.sidedefs| ==>
               SidedefResolvable(md.sidedefs[j], textures) && slots0[j] == Some(SidedefOf(md.sidedefs[j], textures))
    ensures sectors0 == SpecSectors(md, flatsEnd) && slots0 == SpecSlots(md, walls)
    ensures forall i :: 0 <= i < |md.sectors| ==> SectorResolvable(md.sectors[i], flatsEnd)
    ensures forall j :: 0 <= j < |md.sidedefs| ==> SidedefResolvable(md.sidedefs[j], walls)
  {
    forall i | 0 <= i < |sectors0|
      ensures SectorResolvable(md.sectors[i], flatsEnd) && sectors0[i] == SpecSectors(md, flatsEnd)[i]
    {
      SectorOfMonotone(md.sectors[i], flats, flatsEnd);
    }
    forall j | 0 <= j < |slots0|
      ensures SidedefResolvable(md.sidedefs[j], walls) && slots0[j] == SpecSlots(md, walls)[j]
    {
      SidedefOfMonotone(md.sidedefs[j], textures, walls);
    }
  }

  /** `RegistryGrown` for a set of tables. */
  ghost predicate RegistryGrownOn<D, I>(s0: map<Assets.TypeTag, Assets.Table<D, I>>, l0: set<Id>,
                                        s1: map<Assets.TypeTag, Assets.Table<D, I>>, l1: set<Id>,
                                        tags: set<Assets.TypeTag>)
  {
    && s1.Keys == s0.Keys
    && (forall g :: g in s0 && g !in tags ==> s1[g] == s0[g])
    && (forall g :: g in s0 && g in tags ==> Grown(s0[g], l0, s1[g], l1) && QueuedOnce(s0[g], s1[g], l1))
    && l0 <= l1
  }

  lemma LiftGrown<D, I>(s0: map<Assets.TypeTag, Assets.Table<D, I>>, l0: set<Id>,
                        s1: map<Assets.TypeTag, Assets.Table<D, I>>, l1: set<Id>,
                        tag: Assets.TypeTag, tags: set<Assets.TypeTag>)
    requires RegistryGrown(s0, l0, s1, l1, tag) && tag in tags
    ensures RegistryGrownOn(s0, l0, s1, l1, tags)
  {
    forall g | g in s0 && g in tags && g != tag
      ensures Grown(s0[g], l0, s1[g], l1) && QueuedOnce(s0[g], s1[g], l1)
    {
      GrownRefl(s0[g], l0);
    }
  }

  lemma RegistryGrownOnTrans<D, I>(s0: map<Assets.TypeTag, Assets.Table<D, I>>, l0: set<Id>,
                                   s1: map<Assets.TypeTag, Assets.Table<D, I>>, l1: set<Id>,
                                   s2: map<Assets.TypeTag, Assets.Table<D, I>>, l2: set<Id>,
                                   tags: set<Assets.TypeTag>)
    requires RegistryGrownOn(s0, l0, s1, l1, tags) && RegistryGrownOn(s1, l1, s2, l2, tags)
    ensures RegistryGrownOn(s0, l0, s2, l2, tags)
  {
    forall g | g in s0 && g in tags
      ensures Grown(s0[g], l0, s2[g], l2) && QueuedOnce(s0[g], s2[g], l2)
    {
      GrownTrans(s0[g], l0, s1[g], l1, s2[g], l2);
      QueuedOnceTrans(s0[g], l0, s1[g], l1, s2[g], l2);
    }
  }

  /** Everything `build_map` promises about its result, given the texture handles it ended with. */
  ghost predicate BuildResult(md: MapData, flats: map<Name, Id>, walls: map<Name, Id>, sky: Id, r: Result<Map>)
    requires Buildable(md)
  {
    BuildableRanges(md);
    var linedefs := SpecLinedefs(md, flats, walls);
    var segs := BuildSegs(md);
    && (r.Ok? <==> forall i :: 0 <= i < |md.glSsect| ==> Owner(linedefs, segs, md.glSsect[i]).Some?)
    && (r.Err? ==>
          && r.error.NoSector? && r.error.subsector < |md.glSsect|
          && Owner(linedefs, segs, md.glSsect[r.error.subsector]).None?
          && forall i :: 0 <= i < r.error.subsector ==> Owner(linedefs, segs, md.glSsect[i]).Some?)
    && (r.Ok? ==>
          && r.value.sky == sky
          && r.value.linedefs == linedefs
          && r.value.nodes == ReindexNodes(md.glNodes)
          && |r.value.subsectors| == |md.glSsect|
          && (forall i :: 0 <= i < |md.glSsect| ==>
                r.value.subsectors[i] ==
                  GLSSect(SubsectorSegs(segs, md.glSsect[i]), Owner(linedefs, segs, md.glSsect[i]).value))
          && |r.value.sectors| == |md.sectors|
          && (forall s :: 0 <= s < |md.sectors| ==>
                r.value.sectors[s] ==
                  SectorOf(md.sectors[s], flats).(subsectors := SubsectorsOf(linedefs, segs, md.glSsect, s, |md.glSsect|),
                                                  neighbours := r.value.sectors[s].neighbours))
          && Neighbourly(md, r.value.sectors, |md.linedefs|))
  }

  /** In a built map every named floor flat that is not the sky is a real texture, its handle from the memo. */
  lemma NamedFloorsNormal(md: MapData, flats: map<Name, Id>, walls: map<Name, Id>, sky: Id, r: Result<Map>, s: nat)
    requires Buildable(md) && BuildResult(md, flats, walls, sky, r) && r.Ok?
    requires s < |md.sectors| && SectorResolvable(md.sectors[s], flats)
    requires md.sectors[s].floorFlatName.Some? && md.sectors[s].floorFlatName.value != SkyFlatName
    ensures md.sectors[s].floorFlatName.value in flats
    ensures r.value.sectors[s].floorTexture == Textures.Normal(flats[md.sectors[s].floorFlatName.value])
  {
  }

  /** The same for ceiling flats. */
  lemma NamedCeilingsNormal(md: MapData, flats: map<Name, Id>, walls: map<Name, Id>, sky: Id, r: Result<Map>, s: nat)
    requires Buildable(md) && BuildResult(md, flats, walls, sky, r) && r.Ok?
    requires s < |md.sectors| && SectorResolvable(md.sectors[s], flats)
    requires md.sectors[s].ceilingFlatName.Some? && md.sectors[s].ceilingFlatName.value != SkyFlatName
    ensures md.sectors[s].ceilingFlatName.value in flats
    ensures r.value.sectors[s].ceilingTexture == Textures.Normal(flats[md.sectors[s].ceilingFlatName.value])
  {
  }

  /** A built sector is its record's sector with its subsectors attached and the neighbours of the linedef pass. */
  lemma SectorsAssembled(md: MapData, flats: map<Name, Id>, linedefs: seq<Linedef>, segs: seq<GLSeg>,
                         sectors1: seq<Sector>, sectors: seq<Sector>)
    requires SegLinedefsInRange(segs, linedefs) && SsectsInRange(md.glSsect, |segs|)
    requires |sectors1| == |md.sectors| && |sectors| == |sectors1|
    requires forall s :: 0 <= s < |sectors1| ==>
               sectors1[s] == SpecSectors(md, flats)[s].(neighbours := sectors1[s].neighbours)
    requires forall s :: 0 <= s < |sectors| ==>
               sectors[s] == sectors1[s].(subsectors := sectors1[s].subsectors +
                                                        SubsectorsOf(linedefs, segs, md.glSsect, s, |md.glSsect|))
    requires Neighbourly(md, sectors1, |md.linedefs|)
    ensures forall s :: 0 <= s < |md.sectors| ==>
              sectors[s] ==
                SectorOf(md.sectors[s], flats).(subsectors := SubsectorsOf(linedefs, segs, md.glSsect, s, |md.glSsect|),
                                                neighbours := sectors[s].neighbours)
    ensures Neighbourly(md, sectors, |md.linedefs|)
  {
    forall s | 0 <= s < |md.sectors|
      ensures sectors[s] ==
                SectorOf(md.sectors[s], flats).(subsectors := SubsectorsOf(linedefs, segs, md.glSsect, s, |md.glSsect|),
                                                neighbours := sectors[s].neighbours)
      ensures sectors[s].neighbours == sectors1[s].neighbours
    {
      var subs := SubsectorsOf(linedefs, segs, md.glSsect, s, |md.glSsect|);
      assert sectors1[s].subsectors == [];
      assert [] + subs == subs;
    }
  }

  /** The passes after texture resolution: linedefs, nodes, segs, subsectors. */
  method Assemble(md: MapData, ghost flats: map<Name, Id>, ghost walls: map<Name, Id>,
                  sectors0: seq<Sector>, slots0: seq<Option<Sidedef>>, sky: Id)
    returns (r: Result<Map>)
    requires Buildable(md)
    requires sectors0 == SpecSectors(md, flats) && slots0 == SpecSlots(md, walls)
    ensures BuildResult(md, flats, walls, sky, r)
  {
    BuildableRanges(md);
    var linedefs, sectors1 := BuildLinedefs(md, sectors0, slots0);
    assert linedefs == SpecLinedefs(md, flats, walls);
    var nodes := ReindexNodes(md.glNodes);
    var segs := BuildSegs(md);
    var res := BuildSubsectors(md.glSsect, segs, linedefs, sectors1);
    match res {
      case Err(e) =>
        r := Err(e);
      case Ok((subsectors, sectors)) =>
        SectorsAssembled(md, flats, linedefs, segs, sectors1, sectors);
        r := Ok(Map(linedefs, sectors, subsectors, nodes, sky));
    }
  }

  /**
   * The sky's load followed by the sidedefs' loads: the wall queue holds only
   * their imports, and the sky's entry, if any, comes first.
   */
  lemma SkyQueuedFirst<D, I>(t0: Assets.Table<D, I>, t1: Assets.Table<D, I>, l1: set<Id>,
                             t2: Assets.Table<D, I>, l2: set<Id>, importWall: Name -> Result<I>,
                             skyName: Name, sides: set<Name>)
    requires QueuedFor(t0, t1, importWall, {skyName}) && QueuedFor(t1, t2, importWall, sides)
    requires QueuedOnce(t0, t1, l1) && Grown(t1, l1, t2, l2)
    ensures QueuedFor(t0, t2, importWall, {skyName} + sides)
    ensures |t0.unbuilt| < |t1.unbuilt| ==> |t0.unbuilt| < |t2.unbuilt| && t2.unbuilt[|t0.unbuilt|] == t1.unbuilt[|t0.unbuilt|]
  {
    QueuedForTrans(t0, t1, l1, t2, l2, importWall, {skyName}, sides, {skyName} + sides);
    if |t0.unbuilt| < |t1.unbuilt| {
      assert t2.unbuilt[..|t1.unbuilt|][|t0.unbuilt|] == t2.unbuilt[|t0.unbuilt|];
    }
  }

  /**
   * The texture half of `build_map`: the sky texture is loaded first, then
   * the sector flats, then the sidedef textures; the registry's other tables
   * are untouched.  Each table's queue gains only imports, by its own
   * importer, of names the map uses, no name twice; and every such name ends
   * up with a live handle in the cache, through which the sectors and
   * sidedefs are resolved.
   */
  /** The account of `LoadTextures`, from what its three loading steps promise. */
  lemma TexturesLoaded<D, I>(md: MapData, skyName: Name, flatTag: Assets.TypeTag, wallTag: Assets.TypeTag,
                             importFlat: Name -> Result<I>, importWall: Name -> Result<I>, h0: nat,
                             s0: map<Assets.TypeTag, Assets.Table<D, I>>, l0: set<Id>,
                             s1: map<Assets.TypeTag, Assets.Table<D, I>>, l1: set<Id>,
                             s2: map<Assets.TypeTag, Assets.Table<D, I>>, l2: set<Id>,
                             s3: map<Assets.TypeTag, Assets.Table<D, I>>, l3: set<Id>,
                             sky: Id, skyMemo: map<Name, Id>, flats: map<Name, Id>, sectors0: seq<Sector>,
                             textures: map<Name, Id>, slots0: seq<Option<Sidedef>>)
    requires flatTag in s0 && wallTag in s0 && flatTag != wallTag
    // the sky's load
    requires RegistryGrown(s0, l0, s1, l1, wallTag)
    requires skyName !in Cached(s0[wallTag], l0) ==>
               && sky == h0 + 1
               && s1[wallTag].unbuilt == s0[wallTag].unbuilt + [Assets.Entry(sky, importWall(skyName), skyName)]
    requires QueuedFor(s0[wallTag], s1[wallTag], importWall, {skyName})
    requires skyMemo == map[][skyName := sky] && SubMap(skyMemo, Cached(s1[wallTag], l1))
    // the sectors
    requires RegistryGrown(s1, l1, s2, l2, flatTag)
    requires SubMap(flats, Cached(s2[flatTag], l2)) && |sectors0| == |md.sectors|
    requires forall i :: 0 <= i < |md.sectors| ==>
               SectorResolvable(md.sectors[i], flats) && sectors0[i] == SectorOf(md.sectors[i], flats)
    requires QueuedFor(s1[flatTag], s2[flatTag], importFlat, FlatNames(md.sectors))
    // the sidedefs
    requires RegistryGrown(s2, l2, s3, l3, wallTag)
    requires SubMap(textures, Cached(s3[wallTag], l3)) && |slots0| == |md.sidedefs|
    requires forall j :: 0 <= j < |md.sidedefs| ==>
               SidedefResolvable(md.sidedefs[j], textures) && slots0[j] == Some(SidedefOf(md.sidedefs[j], textures))
    requires QueuedFor(s2[wallTag], s3[wallTag], importWall, WallNames(md.sidedefs))
    ensures RegistryGrownOn(s0, l0, s3, l3, {flatTag, wallTag})
    ensures QueuedFor(s0[flatTag], s3[flatTag], importFlat, FlatNames(md.sectors))
    ensures QueuedFor(s0[wallTag], s3[wallTag], importWall, {skyName} + WallNames(md.sidedefs))
    ensures skyName !in Cached(s0[wallTag], l0) ==>
              |s0[wallTag].unbuilt| < |s3[wallTag].unbuilt| &&
              s3[wallTag].unbuilt[|s0[wallTag].unbuilt|] == Assets.Entry(h0 + 1, importWall(skyName), skyName)
    ensures forall i :: 0 <= i < |md.sectors| ==> SectorResolvable(md.sectors[i], Cached(s3[flatTag], l3))
    ensures forall j :: 0 <= j < |md.sidedefs| ==> SidedefResolvable(md.sidedefs[j], Cached(s3[wallTag], l3))
    ensures var walls := Cached(s3[wallTag], l3);
            && skyName in walls && sky == walls[skyName]
            && sectors0 == SpecSectors(md, Cached(s3[flatTag], l3))
            && slots0 == SpecSlots(md, walls)
  {
    var tags := {flatTag, wallTag};
    LiftGrown(s0, l0, s1, l1, wallTag, tags);
    LiftGrown(s1, l1, s2, l2, flatTag, tags);
    LiftGrown(s2, l2, s3, l3, wallTag, tags);
    RegistryGrownOnTrans(s0, l0, s1, l1, s2, l2, tags);
    RegistryGrownOnTrans(s0, l0, s2, l2, s3, l3, tags);
    RegistryGrownOnTrans(s1, l1, s2, l2, s3, l3, tags);
    assert s2[wallTag] == s1[wallTag] && s3[flatTag] == s2[flatTag] && s1[flatTag] == s0[flatTag];
    SkyQueuedFirst(s0[wallTag], s2[wallTag], l2, s3[wallTag], l3, importWall, skyName, WallNames(md.sidedefs));
    MemoStays(s1, l1, s3, l3, tags, wallTag, skyMemo);
    MemoStays(s2, l2, s3, l3, tags, flatTag, flats);
    SpecsMonotone(md, flats, Cached(s3[flatTag], l3), sectors0, textures, Cached(s3[wallTag], l3), slots0);
  }

  method LoadTextures<D, I>(md: MapData, skyName: Name, reg: Assets.AssetStorage<D, I>,
                            flatTag: Assets.TypeTag, wallTag: Assets.TypeTag,
                            importFlat: Name -> Result<I>, importWall: Name -> Result<I>)
    returns (sky: Id, sectors0: seq<Sector>, slots0: seq<Option<Sidedef>>)
    requires reg.Valid() && flatTag in reg.storages && wallTag in reg.storages && flatTag != wallTag
    modifies reg, reg.allocator
    ensures reg.Valid()
    ensures RegistryGrownOn(old(reg.storages), old(reg.live), reg.storages, reg.live, {flatTag, wallTag})
    ensures QueuedFor(old(reg.storages[flatTag]), reg.storages[flatTag], importFlat, FlatNames(md.sectors))
    ensures QueuedFor(old(reg.storages[wallTag]), reg.storages[wallTag], importWall, {skyName} + WallNames(md.sidedefs))
    ensures var q0 := old(reg.storages[wallTag].unbuilt);
            skyName !in old(Cached(reg.storages[wallTag], reg.live)) ==>
              |q0| < |reg.storages[wallTag].unbuilt| &&
              reg.storages[wallTag].unbuilt[|q0|] == Assets.Entry(old(reg.allocator.highestId) + 1, importWall(skyName), skyName)
    ensures forall i :: 0 <= i < |md.sectors| ==> SectorResolvable(md.sectors[i], Cached(reg.storages[flatTag], reg.live))
    ensures forall j :: 0 <= j < |md.sidedefs| ==> SidedefResolvable(md.sidedefs[j], Cached(reg.storages[wallTag], reg.live))
    ensures var walls := Cached(reg.storages[wallTag], reg.live);
            && skyName in walls && sky == walls[skyName]
            && sectors0 == SpecSectors(md, Cached(reg.storages[flatTag], reg.live))
            && slots0 == SpecSlots(md, walls)
  {
    ghost var s0, l0, h0 := reg.storages, reg.live, reg.allocator.highestId;
    // The sky goes straight to the registry: an empty memo makes this a plain load.
    var skyMemo;
    sky, skyMemo := LoadCached(reg, wallTag, map[], skyName, importWall);
    ghost var s1, l1 := reg.storages, reg.live;
    var flats;
    sectors0, flats := BuildSectors(md.sectors, reg, flatTag, importFlat);
    ghost var s2, l2 := reg.storages, reg.live;
    var textures;
    slots0, textures := BuildSidedefs(md.sidedefs, reg, wallTag, importWall);
    TexturesLoaded(md, skyName, flatTag, wallTag, importFlat, importWall, h0, s0, l0, s1, l1, s2, l2,
                   reg.storages, reg.live, sky, skyMemo, flats, sectors0, textures, slots0);
  }

  /**
   * `build_map`: the textures are loaded as `LoadTextures` states, and the
   * result is described by `BuildResult` against the handles the registry
   * caches at the end.
   */
  method BuildMap<D, I>(md: MapData, skyName: Name, reg: Assets.AssetStorage<D, I>,
                        flatTag: Assets.TypeTag, wallTag: Assets.TypeTag,
                        importFlat: Name -> Result<I>, importWall: Name -> Result<I>)
    returns (r: Result<Map>)
    requires reg.Valid() && flatTag in reg.storages && wallTag in reg.storages && flatTag != wallTag
    requires Buildable(md)
    modifies reg, reg.allocator
    ensures reg.Valid()
    ensures RegistryGrownOn(old(reg.storages), old(reg.live), reg.storages, reg.live, {flatTag, wallTag})
    ensures QueuedFor(old(reg.storages[flatTag]), reg.storages[flatTag], importFlat, FlatNames(md.sectors))
    ensures QueuedFor(old(reg.storages[wallTag]), reg.storages[wallTag], importWall, {skyName} + WallNames(md.sidedefs))
    ensures var q0 := old(reg.storages[wallTag].unbuilt);
            skyName !in old(Cached(reg.storages[wallTag], reg.live)) ==>
              |q0| < |reg.storages[wallTag].unbuilt| &&
              reg.storages[wallTag].unbuilt[|q0|] == Assets.Entry(old(reg.allocator.highestId) + 1, importWall(skyName), skyName)
    ensures forall i :: 0 <= i < |md.sectors| ==> SectorResolvable(md.sectors[i], Cached(reg.storages[flatTag], reg.live))
    ensures forall j :: 0 <= j < |md.sidedefs| ==> SidedefResolvable(md.sidedefs[j], Cached(reg.storages[wallTag], reg.live))
    ensures var walls := Cached(reg.storages[wallTag], reg.live);
            skyName in walls &&
            BuildResult(md, Cached(reg.storages[flatTag], reg.live), walls, walls[skyName], r)
  {
    var sky, sectors0, slots0 := LoadTextures(md, skyName, reg, flatTag, wallTag, importFlat, importWall);
    r := Assemble(md, Cached(reg.storages[flatTag], reg.live), Cached(reg.storages[wallTag], reg.live),
                  sectors0, slots0, sky);
  }

}
