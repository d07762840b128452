/**
 * The type-keyed asset registry of src/common/assets.rs.
 *
 * Each asset type has a table (reached through a type tag) holding built
 * values by id, the insertion-ordered list of handles, a name -> weak handle
 * cache and a queue of entries imported but not yet built.  All types share one
 * id allocator.  A handle is its id; reference counting is modelled by the set
 * `live` of ids that some strong handle still references.  Those handles are
 * either the registry's own (in a table's `handles` or in its queue) or held
 * outside it (the set `outside`: every handle a method returns joins it, and
 * `Release` stands for the last such handle being dropped).  An id is live
 * exactly when it is held in one of these two ways, and a weak handle upgrades
 * exactly when its id is live.
 */
module Assets {
  import opened Wrappers
  import opened Bytes

  type Id = nat
  type TypeTag = nat

  /** A queued `(handle, import result, name)` triple. */
  datatype Entry<I> = Entry(id: Id, intermediate: Result<I>, name: Name)

  /** `AssetStorageTyped`: the table of one asset type. */
  datatype Table<D, I> = Table(
    assets: map<Id, D>,
    handles: seq<Id>,
    names: map<Name, Id>,
    unbuilt: seq<Entry<I>>)

  function EmptyTable<D, I>(): Table<D, I>
  {
    Table(map[], [], map[], [])
  }

  function EntryIds<I>(q: seq<Entry<I>>): (r: seq<Id>)
    ensures |r| == |q|
    ensures forall i :: 0 <= i < |q| ==> r[i] == q[i].id
  {
    seq(|q|, i requires 0 <= i < |q| => q[i].id)
  }

  ghost predicate Distinct<X>(s: seq<X>)
  {
    forall i, j :: 0 <= i < j < |s| ==> s[i] != s[j]
  }

  /**
   * The table invariant: every listed handle has built data (so iteration
   * never fails), every id it mentions was allocated, the handles the table
   * owns are live, and no id is listed or queued twice.
   */
  ghost predicate TableValid<D, I>(t: Table<D, I>, highest: nat, live: set<Id>)
  {
    && (forall i :: 0 <= i < |t.handles| ==> t.handles[i] in t.assets)
    && (forall id :: id in t.assets ==> 0 < id <= highest)
    && (forall n :: n in t.names ==> 0 < t.names[n] <= highest)
    && (forall i :: 0 <= i < |t.handles| ==> t.handles[i] in live)
    && (forall i :: 0 <= i < |t.unbuilt| ==> t.unbuilt[i].id in live)
    && Distinct(t.handles)
    && Distinct(EntryIds(t.unbuilt))
    && (forall i :: 0 <= i < |t.unbuilt| ==> t.unbuilt[i].id !in t.handles)
  }

  // ---------------------------------------------------------------------
  // What `build_waiting` does to one table, as functions of the queue

  /** The outcome of building one queued entry: its import error, or the builder's result. */
  function Built<D, I>(e: Entry<I>, build: I -> Result<D>): Result<D>
  {
    match e.intermediate
    case Err(err) => Err(err)
    case Ok(x) => build(x)
  }

  /** The handles of the entries that build successfully, in queue order. */
  function BuiltIds<D, I>(q: seq<Entry<I>>, build: I -> Result<D>): seq<Id>
    decreases |q|
  {
    if q == [] then []
    else
      var last := q[|q| - 1];
      BuiltIds(q[..|q| - 1], build) + (if Built(last, build).Ok? then [last.id] else [])
  }

  /** `assets` after inserting every successful build of `q`, in queue order. */
  function ApplyBuilt<D, I>(assets: map<Id, D>, q: seq<Entry<I>>, build: I -> Result<D>): map<Id, D>
    decreases |q|
  {
    if q == [] then assets
    else
      var a := ApplyBuilt(assets, q[..|q| - 1], build);
      var last := q[|q| - 1];
      match Built(last, build)
      case Ok(v) => a[last.id := v]
      case Err(_) => a
  }

  /** Building entry k of the queue extends the first k builds by that one entry. */
  lemma BuiltStep<D, I>(assets: map<Id, D>, q: seq<Entry<I>>, k: nat, build: I -> Result<D>)
    requires k < |q|
    ensures BuiltIds(q[..k + 1], build) == BuiltIds(q[..k], build) + (if Built(q[k], build).Ok? then [q[k].id] else [])
    ensures ApplyBuilt(assets, q[..k + 1], build)
            == (if Built(q[k], build).Ok? then ApplyBuilt(assets, q[..k], build)[q[k].id := Built(q[k], build).value]
                else ApplyBuilt(assets, q[..k], build))
  {
    assert q[..k + 1][..k] == q[..k];
  }

  /** The table once its queue has been drained. */
  function Drained<D, I>(t: Table<D, I>, build: I -> Result<D>): Table<D, I>
  {
    t.(assets := ApplyBuilt(t.assets, t.unbuilt, build),
       handles := t.handles + BuiltIds(t.unbuilt, build),
       unbuilt := [])
  }

  lemma {:induction false} BuiltIdsMembers<D, I>(q: seq<Entry<I>>, build: I -> Result<D>, x: Id)
    ensures x in BuiltIds(q, build) <==>
            exists i :: 0 <= i < |q| && q[i].id == x && Built(q[i], build).Ok?
    decreases |q|
  {
    if q != [] {
      var p, last := q[..|q| - 1], q[|q| - 1];
      var tail := if Built(last, build).Ok? then [last.id] else [];
      assert BuiltIds(q, build) == BuiltIds(p, build) + tail;
      assert x in BuiltIds(q, build) <==> x in BuiltIds(p, build) || x in tail;
      BuiltIdsMembers(p, build, x);
      if x in BuiltIds(p, build) {
        var i :| 0 <= i < |p| && p[i].id == x && Built(p[i], build).Ok?;
        assert q[i] == p[i];
      }
      if exists i :: 0 <= i < |q| && q[i].id == x && Built(q[i], build).Ok? {
        var i :| 0 <= i < |q| && q[i].id == x && Built(q[i], build).Ok?;
        if i < |p| {
          assert p[i] == q[i];
        }
      }
    }
  }

  /** Failures add nothing: the built handles are never more than the queue. */
  lemma {:induction false} BuiltIdsLength<D, I>(q: seq<Entry<I>>, build: I -> Result<D>)
    ensures |BuiltIds(q, build)| <= |q|
    ensures |BuiltIds(q, build)| == |q| <==> forall i :: 0 <= i < |q| ==> Built(q[i], build).Ok?
    decreases |q|
  {
    if q != [] {
      var p := q[..|q| - 1];
      BuiltIdsLength(p, build);
      if forall i :: 0 <= i < |q| ==> Built(q[i], build).Ok? {
        assert forall i :: 0 <= i < |p| ==> Built(p[i], build).Ok? by {
          forall i | 0 <= i < |p| ensures Built(p[i], build).Ok? { assert p[i] == q[i]; }
        }
      }
      if |BuiltIds(q, build)| == |q| {
        forall i | 0 <= i < |q| ensures Built(q[i], build).Ok? {
          if i < |p| { assert p[i] == q[i]; }
        }
      }
    }
  }

  lemma {:induction false} BuiltIdsDistinct<D, I>(q: seq<Entry<I>>, build: I -> Result<D>)
    requires Distinct(EntryIds(q))
    ensures Distinct(BuiltIds(q, build))
    decreases |q|
  {
    if q != [] {
      var p := q[..|q| - 1];
      var last := q[|q| - 1];
      assert EntryIds(p) == EntryIds(q)[..|q| - 1];
      BuiltIdsDistinct(p, build);
      BuiltIdsMembers(p, build, last.id);
    }
  }

  /**
   * After the drain, each successfully built entry's data is stored under its
   * handle, and an id that no successful entry names keeps its old data (or
   * stays absent).
   */
  lemma {:induction false} ApplyBuiltValues<D, I>(assets: map<Id, D>, q: seq<Entry<I>>, build: I -> Result<D>)
    requires Distinct(EntryIds(q))
    ensures forall i :: 0 <= i < |q| && Built(q[i], build).Ok? ==>
              q[i].id in ApplyBuilt(assets, q, build) &&
              ApplyBuilt(assets, q, build)[q[i].id] == Built(q[i], build).value
    ensures forall id :: id !in BuiltIds(q, build) ==>
              (id in ApplyBuilt(assets, q, build) <==> id in assets) &&
              (id in assets ==> ApplyBuilt(assets, q, build)[id] == assets[id])
    decreases |q|
  {
    if q != [] {
      var p := q[..|q| - 1];
      var last := q[|q| - 1];
      assert EntryIds(p) == EntryIds(q)[..|q| - 1];
      ApplyBuiltValues(assets, p, build);
      forall i | 0 <= i < |q| - 1
        ensures q[i].id != last.id && q[i] == p[i]
      {
        assert EntryIds(q)[i] != EntryIds(q)[|q| - 1];
      }
    }
  }

  lemma {:induction false} ApplyBuiltKeys<D, I>(assets: map<Id, D>, q: seq<Entry<I>>, build: I -> Result<D>)
    ensures ApplyBuilt(assets, q, build).Keys
         == assets.Keys + set i | 0 <= i < |BuiltIds(q, build)| :: BuiltIds(q, build)[i]
    decreases |q|
  {
    if q != [] {
      var p := q[..|q| - 1];
      ApplyBuiltKeys(assets, p, build);
      var bp := BuiltIds(p, build);
      var bq := BuiltIds(q, build);
      assert bq[..|bp|] == bp;
      assert (set i | 0 <= i < |bq| :: bq[i])
          == (set i | 0 <= i < |bp| :: bp[i]) + (if |bq| > |bp| then {bq[|bp|]} else {});
    }
  }

  lemma DistinctAppend<X>(a: seq<X>, b: seq<X>)
    requires Distinct(a) && Distinct(b)
    requires forall i :: 0 <= i < |b| ==> b[i] !in a
    ensures Distinct(a + b)
  {
    forall i, j | 0 <= i < j < |a + b| ensures (a + b)[i] != (a + b)[j] {
      if j >= |a| && i < |a| {
        assert (a + b)[j] == b[j - |a|];
      }
    }
  }

  /** Draining the queue keeps the table invariant. */
  lemma DrainedValid<D, I>(t: Table<D, I>, build: I -> Result<D>, highest: nat, live: set<Id>)
    requires TableValid(t, highest, live)
    requires forall id :: id in live ==> 0 < id <= highest
    ensures TableValid(Drained(t, build), highest, live)
  {
    var q := t.unbuilt;
    var b := BuiltIds(q, build);
    var d := Drained(t, build);
    ApplyBuiltValues(t.assets, q, build);
    ApplyBuiltKeys(t.assets, q, build);
    BuiltIdsDistinct(q, build);
    forall k | 0 <= k < |b| ensures b[k] in live && b[k] !in t.handles && b[k] in d.assets {
      BuiltIdsMembers(q, build, b[k]);
      var i :| 0 <= i < |q| && q[i].id == b[k] && Built(q[i], build).Ok?;
    }
    DistinctAppend(t.handles, b);
    forall k | 0 <= k < |d.handles| ensures d.handles[k] in d.assets && d.handles[k] in live {
      if k < |t.handles| {
        assert d.handles[k] == t.handles[k];
      } else {
        assert d.handles[k] == b[k - |t.handles|];
      }
    }
  }


  lemma TableValidMono<D, I>(t: Table<D, I>, highest: nat, live: set<Id>, highest': nat, live': set<Id>)
    requires TableValid(t, highest, live)
    requires highest <= highest' && live <= live'
    ensures TableValid(t, highest', live')
  {
  }

  /** Storing data under a freshly allocated id, appended to the handles, keeps the table valid. */
  lemma FreshHandleValid<D, I>(t: Table<D, I>, h: Id, v: D, name: Name, live: set<Id>)
    requires h > 0 && TableValid(t, h - 1, live)
    requires forall id :: id in live ==> 0 < id < h
    ensures TableValid(t.(assets := t.assets[h := v], handles := t.handles + [h]), h, live + {h})
    ensures TableValid(t.(assets := t.assets[h := v], handles := t.handles + [h], names := t.names[name := h]),
                       h, live + {h})
  {
    assert h !in t.handles;
    DistinctAppend(t.handles, [h]);
    forall i | 0 <= i < |t.unbuilt| ensures t.unbuilt[i].id != h {
      assert t.unbuilt[i].id in live;
    }
  }

  /** Queueing an entry under a freshly allocated id keeps the table valid. */
  lemma FreshEntryValid<D, I>(t: Table<D, I>, e: Entry<I>, name: Name, live: set<Id>)
    requires e.id > 0 && TableValid(t, e.id - 1, live)
    requires forall id :: id in live ==> 0 < id < e.id
    ensures TableValid(t.(names := t.names[name := e.id], unbuilt := t.unbuilt + [e]), e.id, live + {e.id})
  {
    var q := t.unbuilt + [e];
    assert EntryIds(q) == EntryIds(t.unbuilt) + [e.id];
    forall i | 0 <= i < |t.unbuilt| ensures t.unbuilt[i].id != e.id {
      assert t.unbuilt[i].id in live;
    }
    assert e.id !in EntryIds(t.unbuilt);
    DistinctAppend(EntryIds(t.unbuilt), [e.id]);
    assert e.id !in t.handles;
  }

  /** True when the table holds a strong handle to `id`: a listed handle or a queued one. */
  predicate TableHolds<D, I>(t: Table<D, I>, id: Id)
  {
    id in t.handles || id in EntryIds(t.unbuilt)
  }

  /** Some table of the registry holds a strong handle to `id`. */
  predicate HeldBy<D, I>(storages: map<TypeTag, Table<D, I>>, id: Id)
  {
    exists tag :: tag in storages && TableHolds(storages[tag], id)
  }

  /** A table other than the one of `tag` holds a strong handle to `id`. */
  ghost predicate OtherHolds<D, I>(storages: map<TypeTag, Table<D, I>>, tag: TypeTag, id: Id)
  {
    exists g :: g in storages && g != tag && TableHolds(storages[g], id)
  }

  /** The holders of `id` are the table of `tag` and the others. */
  lemma HeldSplit<D, I>(storages: map<TypeTag, Table<D, I>>, tag: TypeTag, id: Id)
    ensures HeldBy(storages, id) <==> (tag in storages && TableHolds(storages[tag], id)) || OtherHolds(storages, tag, id)
  {
  }

  /** Replacing the table of `tag` changes only what that table holds. */
  lemma HeldUpdate<D, I>(storages: map<TypeTag, Table<D, I>>, tag: TypeTag, t: Table<D, I>, id: Id)
    ensures HeldBy(storages[tag := t], id) <==> TableHolds(t, id) || OtherHolds(storages, tag, id)
  {
    var s := storages[tag := t];
    if TableHolds(t, id) {
      assert tag in s && s[tag] == t;
    }
    if OtherHolds(storages, tag, id) {
      var g :| g in storages && g != tag && TableHolds(storages[g], id);
      assert g in s && s[g] == storages[g];
    }
    if HeldBy(s, id) && !TableHolds(t, id) {
      var g :| g in s && TableHolds(s[g], id);
      assert g != tag && s[g] == storages[g];
    }
  }

  /**
   * After draining, a table holds exactly its listed handles and the handles
   * of the entries that built: a failed entry's handle is dropped.
   */
  lemma DrainedHolds<D, I>(t: Table<D, I>, build: I -> Result<D>, x: Id)
    ensures TableHolds(Drained(t, build), x) <==>
            x in t.handles || exists i :: 0 <= i < |t.unbuilt| && t.unbuilt[i].id == x && Built(t.unbuilt[i], build).Ok?
  {
    BuiltIdsMembers(t.unbuilt, build, x);
    assert EntryIds(Drained(t, build).unbuilt) == [];
  }

  /** Every id a drained table holds was held before the drain. */
  lemma DrainedHoldsFewer<D, I>(t: Table<D, I>, build: I -> Result<D>, x: Id)
    requires TableHolds(Drained(t, build), x)
    ensures TableHolds(t, x)
  {
    DrainedHolds(t, build, x);
    if x !in t.handles {
      var i :| 0 <= i < |t.unbuilt| && t.unbuilt[i].id == x && Built(t.unbuilt[i], build).Ok?;
      assert EntryIds(t.unbuilt)[i] == x;
    }
  }

  /** A valid table stays valid under a new live set that still contains every id the table holds. */
  lemma TableValidRelive<D, I>(t: Table<D, I>, highest: nat, live: set<Id>, live': set<Id>)
    requires TableValid(t, highest, live)
    requires forall x :: TableHolds(t, x) ==> x in live'
    ensures TableValid(t, highest, live')
  {
    forall i | 0 <= i < |t.unbuilt| ensures t.unbuilt[i].id in live' {
      assert EntryIds(t.unbuilt)[i] == t.unbuilt[i].id;
    }
  }

  /** `id` is live exactly when a strong handle outside the registry or in one of its tables references it. */
  ghost predicate LiveIff<D, I>(storages: map<TypeTag, Table<D, I>>, live: set<Id>, outside: set<Id>, id: Id)
  {
    id in live <==> id in outside || HeldBy(storages, id)
  }

  /**
   * The registry invariant: every live id was allocated, an id is live exactly
   * when a strong handle outside the registry or in one of its tables
   * references it, and every table is valid.
   */
  ghost predicate RegistryValid<D, I>(storages: map<TypeTag, Table<D, I>>, live: set<Id>, outside: set<Id>, highest: nat)
  {
    && (forall id :: id in live ==> 0 < id <= highest)
    && (forall id :: LiveIff(storages, live, outside, id))
    && (forall tag :: tag in storages ==> TableValid(storages[tag], highest, live))
  }

  /**
   * Handing out a strong handle to `h` while the table of `tag` keeps what it
   * held and at most gains `h` keeps the registry invariant.
   */
  lemma HandOutValid<D, I>(s: map<TypeTag, Table<D, I>>, tag: TypeTag, t': Table<D, I>, h: Id,
                           live: set<Id>, outside: set<Id>, highest: nat, highest': nat)
    requires tag in s && RegistryValid(s, live, outside, highest)
    requires highest <= highest' && 0 < h <= highest'
    requires forall x :: TableHolds(s[tag], x) ==> TableHolds(t', x)
    requires forall x :: TableHolds(t', x) ==> TableHolds(s[tag], x) || x == h
    requires TableValid(t', highest', live + {h})
    ensures RegistryValid(s[tag := t'], live + {h}, outside + {h}, highest')
  {
    var s' := s[tag := t'];
    forall x ensures LiveIff(s', live + {h}, outside + {h}, x) {
      assert LiveIff(s, live, outside, x);
      HeldUpdate(s, tag, t', x);
      HeldSplit(s, tag, x);
    }
    forall g | g in s' ensures TableValid(s'[g], highest', live + {h}) {
      if g != tag {
        assert s'[g] == s[g];
        TableValidMono(s[g], highest, live, highest', live + {h});
      }
    }
  }

  /**
   * Replacing the table of `tag` by a valid one, then keeping only the ids
   * still held outside or by a table, restores the registry invariant.
   */
  lemma RecountValid<D, I>(s: map<TypeTag, Table<D, I>>, tag: TypeTag, t': Table<D, I>, highest: nat,
                           live: set<Id>, outside: set<Id>, live': set<Id>)
    requires RegistryValid(s, live, outside, highest)
    requires TableValid(t', highest, live)
    requires forall x :: x in live' <==> x in live && (x in outside || HeldBy(s[tag := t'], x))
    ensures RegistryValid(s[tag := t'], live', outside, highest)
  {
    var s' := s[tag := t'];
    forall x | TableHolds(t', x) ensures x in live {
      if x in t'.handles {
        var i :| 0 <= i < |t'.handles| && t'.handles[i] == x;
      } else {
        var i :| 0 <= i < |t'.unbuilt| && EntryIds(t'.unbuilt)[i] == x;
      }
    }
    forall x ensures LiveIff(s', live', outside, x) {
      assert LiveIff(s, live, outside, x);
      HeldUpdate(s, tag, t', x);
      HeldSplit(s, tag, x);
    }
    forall g | g in s' ensures TableValid(s'[g], highest, live') {
      var tg := s'[g];
      assert g != tag ==> tg == s[g];
      forall x | TableHolds(tg, x) ensures x in live' {
        assert HeldBy(s', x);
        if g != tag {
          assert HeldBy(s, x) && LiveIff(s, live, outside, x);
        }
      }
      TableValidRelive(tg, highest, live, live');
    }
  }

  /**
   * Dropping the last outside strong handle to `id` keeps the invariant: the id
   * dies unless a table still holds it.
   */
  lemma ReleaseValid<D, I>(s: map<TypeTag, Table<D, I>>, live: set<Id>, outside: set<Id>, highest: nat, id: Id)
    requires RegistryValid(s, live, outside, highest)
    ensures RegistryValid(s, if HeldBy(s, id) then live else live - {id}, outside - {id}, highest)
  {
    var live' := if HeldBy(s, id) then live else live - {id};
    forall x ensures LiveIff(s, live', outside - {id}, x) {
      assert LiveIff(s, live, outside, x);
    }
    if !HeldBy(s, id) {
      forall tag | tag in s ensures TableValid(s[tag], highest, live - {id}) {
        forall x | TableHolds(s[tag], x) ensures x in live - {id} {
          assert HeldBy(s, x) && LiveIff(s, live, outside, x);
        }
        TableValidRelive(s[tag], highest, live, live - {id});
      }
    }
  }

  /** Storing data under a fresh handle, with or without binding a name to it, keeps the registry invariant. */
  lemma StoreFreshValid<D, I>(s: map<TypeTag, Table<D, I>>, tag: TypeTag, h: Id, v: D, name: Name,
                              live: set<Id>, outside: set<Id>)
    requires tag in s && h > 0 && RegistryValid(s, live, outside, h - 1)
    ensures RegistryValid(s[tag := s[tag].(assets := s[tag].assets[h := v], handles := s[tag].handles + [h])],
                          live + {h}, outside + {h}, h)
    ensures RegistryValid(s[tag := s[tag].(assets := s[tag].assets[h := v], handles := s[tag].handles + [h],
                                           names := s[tag].names[name := h])],
                          live + {h}, outside + {h}, h)
  {
    var t := s[tag];
    FreshHandleValid(t, h, v, name, live);
    HandOutValid(s, tag, t.(assets := t.assets[h := v], handles := t.handles + [h]), h, live, outside, h - 1, h);
    HandOutValid(s, tag, t.(assets := t.assets[h := v], handles := t.handles + [h], names := t.names[name := h]),
                 h, live, outside, h - 1, h);
  }

  /** Queueing an entry under a fresh handle bound to `name` keeps the registry invariant. */
  lemma QueueFreshValid<D, I>(s: map<TypeTag, Table<D, I>>, tag: TypeTag, e: Entry<I>, name: Name,
                              live: set<Id>, outside: set<Id>)
    requires tag in s && e.id > 0 && RegistryValid(s, live, outside, e.id - 1)
    ensures RegistryValid(s[tag := s[tag].(names := s[tag].names[name := e.id], unbuilt := s[tag].unbuilt + [e])],
                          live + {e.id}, outside + {e.id}, e.id)
  {
    var t := s[tag];
    var t' := t.(names := t.names[name := e.id], unbuilt := t.unbuilt + [e]);
    FreshEntryValid(t, e, name, live);
    assert EntryIds(t'.unbuilt) == EntryIds(t.unbuilt) + [e.id];
    HandOutValid(s, tag, t', e.id, live, outside, e.id - 1, e.id);
  }

  /** Handing out another strong handle to a live id keeps the registry invariant. */
  lemma HandOutLiveValid<D, I>(s: map<TypeTag, Table<D, I>>, live: set<Id>, outside: set<Id>, highest: nat, h: Id)
    requires RegistryValid(s, live, outside, highest) && h in live
    ensures RegistryValid(s, live, outside + {h}, highest)
  {
    forall x ensures LiveIff(s, live, outside + {h}, x) {
      assert LiveIff(s, live, outside, x);
    }
  }

  /** Overwriting the data of a live named handle, and handing that handle out, keeps the registry invariant. */
  lemma OverwriteValid<D, I>(s: map<TypeTag, Table<D, I>>, tag: TypeTag, name: Name, v: D,
                             live: set<Id>, outside: set<Id>, highest: nat)
    requires tag in s && name in s[tag].names && s[tag].names[name] in live
    requires RegistryValid(s, live, outside, highest)
    ensures RegistryValid(s[tag := s[tag].(assets := s[tag].assets[s[tag].names[name] := v])],
                          live, outside + {s[tag].names[name]}, highest)
  {
    var t, h := s[tag], s[tag].names[name];
    var t' := t.(assets := t.assets[h := v]);
    assert TableValid(t', highest, live);
    assert live + {h} == live;
    HandOutValid(s, tag, t', h, live, outside, highest, highest);
  }

  // ---------------------------------------------------------------------

  /** `HandleAllocator`: ids come from a counter that only grows. */
  class HandleAllocator {
    var highestId: nat

    constructor ()
      ensures highestId == 0
    {
      highestId := 0;
    }

    /** Each id is one more than the last one handed out, so no id is ever reused. */
    method Allocate() returns (id: Id)
      modifies this
      ensures id == old(highestId) + 1 && highestId == id
    {
      highestId := highestId + 1;
      id := highestId;
    }
  }

  class AssetStorage<D, I> {
    var storages: map<TypeTag, Table<D, I>>
    const allocator: HandleAllocator
    var live: set<Id>
    /** The ids that some strong handle outside the registry's tables references. */
    var outside: set<Id>

    ghost predicate Valid()
      reads this, allocator
    {
      RegistryValid(storages, live, outside, allocator.highestId)
    }

    constructor ()
      ensures Valid() && fresh(allocator)
      ensures storages == map[] && live == {} && outside == {} && allocator.highestId == 0
    {
      storages := map[];
      allocator := new HandleAllocator();
      live := {};
      outside := {};
    }

    /**
     * Registers (or resets to empty) the table of one asset type.  Replacing a
     * table drops the strong handles it held: their ids stay live only when
     * held outside the registry or by another table.
     */
    method AddStorage(tag: TypeTag)
      requires Valid()
      modifies this
      ensures Valid()
      ensures storages == old(storages)[tag := EmptyTable()] && outside == old(outside)
      ensures forall id :: id in live <==> id in old(live) && (id in outside || Held(id))
      ensures tag !in old(storages) ==> live == old(live)
    {
      ghost var s0, live0 := storages, live;
      storages := storages[tag := EmptyTable()];
      live := set id | id in live && (id in outside || Held(id));
      RecountValid(s0, tag, EmptyTable(), allocator.highestId, live0, outside, live);
      if tag !in s0 {
        forall x | x in live0 ensures x in live {
          assert LiveIff(s0, live0, outside, x);
          HeldSplit(s0, tag, x);
          HeldUpdate(s0, tag, EmptyTable(), x);
        }
      }
    }

    /** The data stored under a handle; none for a handle that is queued but unbuilt. */
    function Get(tag: TypeTag, id: Id): (r: Option<D>)
      reads this
      requires tag in storages
      ensures r.Some? <==> id in storages[tag].assets
      ensures r.Some? ==> r.value == storages[tag].assets[id]
    {
      var t := storages[tag];
      if id in t.assets then Some(t.assets[id]) else None
    }

    /** Every listed handle with its data, in insertion order; the invariant rules out a missing entry. */
    function Iter(tag: TypeTag): (r: seq<(Id, D)>)
      reads this, allocator
      requires Valid() && tag in storages
      ensures |r| == |storages[tag].handles|
      ensures forall i :: 0 <= i < |r| ==>
                r[i].0 == storages[tag].handles[i] && Get(tag, r[i].0) == Some(r[i].1)
    {
      var t := storages[tag];
      seq(|t.handles|, i requires 0 <= i < |t.handles| && t.handles[i] in t.assets =>
                           (t.handles[i], t.assets[t.handles[i]]))
    }

    /** `names[name].upgrade()`: the cached handle, if some strong handle still keeps it alive. */
    function HandleFor(tag: TypeTag, name: Name): (r: Option<Id>)
      reads this
      requires tag in storages
      ensures r.Some? <==> name in storages[tag].names && storages[tag].names[name] in live
      ensures r.Some? ==> r.value == storages[tag].names[name]
    {
      var t := storages[tag];
      if name in t.names && t.names[name] in live then Some(t.names[name]) else None
    }

    function GetByName(tag: TypeTag, name: Name): (r: Option<D>)
      reads this
      requires tag in storages
      ensures HandleFor(tag, name).None? ==> r == None
      ensures HandleFor(tag, name).Some? ==> r == Get(tag, HandleFor(tag, name).value)
    {
      var t := storages[tag];
      if name in t.names && t.names[name] in live && t.names[name] in t.assets
      then Some(t.assets[t.names[name]])
      else None
    }

    /** Stores already-built data under a fresh handle, appended to the iteration order. */
    method Insert(tag: TypeTag, asset: D) returns (h: Id)
      requires Valid() && tag in storages
      modifies this, allocator
      ensures Valid()
      ensures h == old(allocator.highestId) + 1 && allocator.highestId == h
      ensures live == old(live) + {h} && outside == old(outside) + {h}
      ensures storages == old(storages)[tag := old(storages[tag]).(
                assets := old(storages[tag].assets)[h := asset],
                handles := old(storages[tag].handles) + [h])]
    {
      h := allocator.Allocate();
      StoreFreshValid(storages, tag, h, asset, [], live, outside);
      var t := storages[tag];
      live := live + {h};
      outside := outside + {h};
      storages := storages[tag := t.(assets := t.assets[h := asset], handles := t.handles + [h])];
    }

    /**
     * Replaces the data of a live name in place, keeping its handle and the
     * iteration order; otherwise stores it under a fresh handle and rebinds the name.
     */
    method InsertWithName(tag: TypeTag, name: Name, asset: D) returns (h: Id)
      requires Valid() && tag in storages
      modifies this, allocator
      ensures Valid()
      ensures tag in storages && HandleFor(tag, name) == Some(h)
      ensures var t := old(storages[tag]);
              if old(HandleFor(tag, name)).Some? then
                && h == t.names[name]
                && allocator.highestId == old(allocator.highestId) && live == old(live)
                && storages == old(storages)[tag := t.(assets := t.assets[h := asset])]
              else
                && h == old(allocator.highestId) + 1 && allocator.highestId == h
                && live == old(live) + {h}
                && storages == old(storages)[tag := t.(
                     assets := t.assets[h := asset],
                     handles := t.handles + [h],
                     names := t.names[name := h])]
      ensures outside == old(outside) + {h}
    {
      var t := storages[tag];
      if name in t.names && t.names[name] in live {
        h := t.names[name];
        OverwriteValid(storages, tag, name, asset, live, outside, allocator.highestId);
        storages := storages[tag := t.(assets := t.assets[h := asset])];
      } else {
        h := allocator.Allocate();
        StoreFreshValid(storages, tag, h, asset, name, live, outside);
        live := live + {h};
        storages := storages[tag := t.(assets := t.assets[h := asset], handles := t.handles + [h],
                                       names := t.names[name := h])];
      }
      outside := outside + {h};
    }

    /**
     * Returns the cached handle of a live name without importing anything;
     * otherwise allocates a handle, records the name, imports now and queues
     * the result to be built later.
     */
    method Load(tag: TypeTag, name: Name, importer: Name -> Result<I>) returns (h: Id)
      requires Valid() && tag in storages
      modifies this, allocator
      ensures Valid()
      ensures tag in storages && HandleFor(tag, name) == Some(h)
      ensures var t := old(storages[tag]);
              if old(HandleFor(tag, name)).Some? then
                && h == t.names[name]
                && allocator.highestId == old(allocator.highestId)
                && live == old(live) && storages == old(storages)
              else
                && h == old(allocator.highestId) + 1 && allocator.highestId == h
                && live == old(live) + {h}
                && h !in t.assets
                && storages == old(storages)[tag := t.(
                     names := t.names[name := h],
                     unbuilt := t.unbuilt + [Entry(h, importer(name), name)])]
      ensures outside == old(outside) + {h}
    {
      var t := storages[tag];
      if name in t.names && t.names[name] in live {
        h := t.names[name];
        HandOutLiveValid(storages, live, outside, allocator.highestId, h);
        outside := outside + {h};
      } else {
        h := allocator.Allocate();
        var intermediate := importer(name);
        QueueFreshValid(storages, tag, Entry(h, intermediate, name), name, live, outside);
        live := live + {h};
        outside := outside + {h};
        storages := storages[tag := t.(names := t.names[name := h], unbuilt := t.unbuilt + [Entry(h, intermediate, name)])];
      }
    }

    /**
     * Takes the whole queue of one type and builds each entry in order:
     * a success is stored and its handle appended to the iteration order, a
     * failure is dropped together with its queued strong handle, so its id
     * dies unless it is held outside the registry or by another table (see
     * `DrainedHolds`).  A type with no table is left alone.
     */
    method BuildWaiting(tag: TypeTag, build: I -> Result<D>)
      requires Valid()
      modifies this
      ensures Valid()
      ensures outside == old(outside)
      ensures forall id :: id in live <==> id in old(live) && (id in outside || Held(id))
      ensures tag in old(storages) ==> storages == old(storages)[tag := Drained(old(storages[tag]), build)]
      ensures tag !in old(storages) ==> storages == old(storages) && live == old(live)
    {
      if tag !in storages {
        forall id | id in live ensures id in outside || Held(id) {
          assert LiveIff(storages, live, outside, id);
        }
        return;
      }
      var t := storages[tag];
      assert TableValid(t, allocator.highestId, live);
      var unbuilt := t.unbuilt;
      var cur := t.(unbuilt := []);
      var k := 0;
      assert unbuilt[..0] == [] && t.handles + [] == t.handles;
      while k < |unbuilt|
        invariant 0 <= k <= |unbuilt|
        invariant storages == old(storages) && live == old(live) && outside == old(outside)
        invariant cur == t.(unbuilt := [],
                            assets := ApplyBuilt(t.assets, unbuilt[..k], build),
                            handles := t.handles + BuiltIds(unbuilt[..k], build))
      {
        var e := unbuilt[k];
        var built := match e.intermediate
                     case Err(err) => Err(err)
                     case Ok(x) => build(x);
        BuiltStep(t.assets, unbuilt, k, build);
        assert Built(e, build) == built;
        if built.Ok? {
          assert t.handles + BuiltIds(unbuilt[..k + 1], build) == t.handles + BuiltIds(unbuilt[..k], build) + [e.id];
          cur := cur.(assets := cur.assets[e.id := built.value], handles := cur.handles + [e.id]);
        }
        k := k + 1;
      }
      ghost var s0, live0 := storages, live;
      storages := storages[tag := cur];
      assert unbuilt[..k] == unbuilt;
      DrainedValid(t, build, allocator.highestId, live);
      live := set id | id in live && (id in outside || Held(id));
      RecountValid(s0, tag, cur, allocator.highestId, live0, outside, live);
    }

    /** True when one of the registry's own tables holds a strong handle to `id`. */
    predicate Held(id: Id)
      reads this
    {
      HeldBy(storages, id)
    }

    /**
     * The last strong handle to `id` held outside the registry is dropped: the
     * id dies unless one of the tables still holds it.  Weak name entries for a
     * dead id no longer upgrade.
     */
    method Release(id: Id)
      requires Valid()
      modifies this
      ensures Valid() && storages == old(storages)
      ensures outside == old(outside) - {id}
      ensures live == if old(Held(id)) then old(live) else old(live) - {id}
    {
      ReleaseValid(storages, live, outside, allocator.highestId, id);
      outside := outside - {id};
      if !Held(id) {
        live := live - {id};
      }
    }
  }

  /**
   * Two loads of the same name with no build in between: the second one finds
   * the name live, so both return the same handle and only one entry is queued.
   */
  method LoadTwice<D, I>(reg: AssetStorage<D, I>, tag: TypeTag, name: Name, importer: Name -> Result<I>)
    returns (h1: Id, h2: Id)
    requires reg.Valid() && tag in reg.storages
    requires reg.HandleFor(tag, name).None?
    modifies reg, reg.allocator
    ensures reg.Valid() && h1 == h2
    ensures tag in reg.storages
    ensures reg.storages[tag].unbuilt == old(reg.storages[tag].unbuilt) + [Entry(h1, importer(name), name)]
    ensures reg.storages[tag].assets == old(reg.storages[tag].assets)
    ensures reg.storages[tag].handles == old(reg.storages[tag].handles)
  {
    h1 := reg.Load(tag, name, importer);
    h2 := reg.Load(tag, name, importer);
  }

  /**
   * When a freshly queued entry fails to build, no table holds its handle any
   * more once the queue is drained.
   */
  lemma FailedEntryDropped<D, I>(s0: map<TypeTag, Table<D, I>>, live0: set<Id>, outside0: set<Id>, highest0: nat,
                                 tag: TypeTag, t1: Table<D, I>, e: Entry<I>, build: I -> Result<D>)
    requires tag in s0 && RegistryValid(s0, live0, outside0, highest0)
    requires e.id == highest0 + 1 && Built(e, build).Err?
    requires t1.handles == s0[tag].handles && t1.unbuilt == s0[tag].unbuilt + [e]
    ensures !HeldBy(s0[tag := t1][tag := Drained(t1, build)], e.id)
  {
    var t0, d := s0[tag], Drained(t1, build);
    var h := e.id;
    assert LiveIff(s0, live0, outside0, h);
    HeldSplit(s0, tag, h);
    assert !TableHolds(d, h) by {
      DrainedHolds(t1, build, h);
      forall i | 0 <= i < |t0.unbuilt| ensures t0.unbuilt[i].id != h {
        assert EntryIds(t0.unbuilt)[i] == t0.unbuilt[i].id;
      }
      assert t1.unbuilt[|t0.unbuilt|] == e;
    }
    assert s0[tag := t1][tag := d] == s0[tag := d];
    HeldUpdate(s0, tag, d, h);
  }

  /**
   * A load whose import fails, its returned handle then dropped: building the
   * queue drops the last strong handle, so the id dies and the name no longer
   * upgrades.
   */
  method FailedLoadDies<D, I>(reg: AssetStorage<D, I>, tag: TypeTag, name: Name,
                              importer: Name -> Result<I>, build: I -> Result<D>)
    returns (h: Id)
    requires reg.Valid() && tag in reg.storages
    requires reg.HandleFor(tag, name).None? && importer(name).Err?
    modifies reg, reg.allocator
    ensures reg.Valid() && tag in reg.storages
    ensures h == old(reg.allocator.highestId) + 1 && reg.allocator.highestId == h
    ensures h !in reg.live && reg.storages[tag].unbuilt == []
    ensures reg.HandleFor(tag, name).None?
  {
    ghost var s0, live0, outside0, highest0 := reg.storages, reg.live, reg.outside, reg.allocator.highestId;
    h := reg.Load(tag, name, importer);
    ghost var t1 := reg.storages[tag];
    FailedEntryDropped(s0, live0, outside0, highest0, tag, t1, Entry(h, importer(name), name), build);
    reg.Release(h);
    reg.BuildWaiting(tag, build);
  }

  /** After such a failure, loading the name again allocates a fresh handle and imports again. */
  method ReloadAfterFailure<D, I>(reg: AssetStorage<D, I>, tag: TypeTag, name: Name,
                                  importer: Name -> Result<I>, build: I -> Result<D>)
    returns (h1: Id, h2: Id)
    requires reg.Valid() && tag in reg.storages
    requires reg.HandleFor(tag, name).None? && importer(name).Err?
    modifies reg, reg.allocator
    ensures reg.Valid()
    ensures h1 == old(reg.allocator.highestId) + 1 && h2 == h1 + 1
    ensures h1 !in reg.live
    ensures tag in reg.storages && reg.HandleFor(tag, name) == Some(h2)
    ensures reg.storages[tag].unbuilt == [Entry(h2, importer(name), name)]
  {
    h1 := FailedLoadDies(reg, tag, name, importer, build);
    h2 := reg.Load(tag, name, importer);
  }
}
