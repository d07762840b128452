# Level loading for a Doom engine, modelled in Dafny

This project models the level-loading core of a Rust Doom engine. The core has three parts.

- **Asset registry** (`assets.rs`). A handle allocator whose ids only increase. Per-type tables hold:
  - built data by id;
  - the handles in insertion order;
  - a name to weak-handle cache;
  - a queue of entries that are imported but not yet built.
  The operations are `load`, `insert`, `insert_with_name`, `build_waiting` and the lookups. Strong and weak reference counts are modelled by two sets. `live` holds the ids some strong handle still references. `outside` holds the ids that have a strong handle outside the registry's tables. The invariant says an id is live exactly when it is in `outside` or a table holds it, in its handle list or its queue.
- **Map loading** (`load.rs`). It has three stages:
  - Little-endian lump decoders with their sentinels:
    - the 8-byte name `-` means no texture;
    - `0xFFFF` means no reference;
    - bit 15 tags a GL vertex or a subsector leaf;
    - a side word of 0 means Right.
  - A cross-reference validator (`Map::import`).
  - `build_map`, which does the following:
    - resolves flat and wall-texture names through per-map memo caches;
    - moves each sidedef into its linedef;
    - builds the sector adjacency lists;
    - applies the two-sky-ceilings rule;
    - re-indexes the BSP nodes root-first;
    - gives every subsector an owning sector.

  The GL lumps follow version 2 of the glBSP GL-Nodes specification: GL_VERT with its `gNd2` signature, GL_SEGS, GL_SSECT and GL_NODES.
- **Textures** (`textures.rs`). This part covers:
  - 64×64 flats;
  - the PNAMES table;
  - TEXTURE1/TEXTURE2 directories (a count, then offsets, then records);
  - the wall-texture compositor, which clamps each patch rectangle to the texture and blits it in place into a pixel buffer.

Modules:

- `Wrappers` (`wrappers.dfy`): `Option`, `Result`, the error kinds and the validator's `Outcome`.
- `Bytes` (`bytes.dfy`): the data source as a map from lump path to bytes, little-endian readers, UTF-8 well-formedness and 8-byte name fields.
- `Assets` (`assets.dfy`): the registry as a class. Its invariant `Valid` covers every table, and the allocator is a class of its own.
- `Lumps` (`lumps.dfy`): the record decoders for every lump format, and the `while position < len` reading loop. That loop is proved equal to a decoding function, which is then characterised by a relation on record boundaries.
- `Validator` (`validator.dfy`): the five validation loops, each with its early exit. `Validate` passes exactly when every cross-reference is in range. When it fails, it reports the first violation in the source's order.
- `Textures` (`textures.dfy`): flats, PNAMES, the texture directory and the in-place blit on an `array`. The blit is proved against a per-pixel specification.
- `MapBuild` (`map_build.dfy`): `build_map` as methods over the registry. Texture resolution and the memo caches mutate the registry. The later passes are loops over sequences, each proved against a specification function.

## Model

| member | source | states |
|---|---|---|
| Assets.HandleAllocator.Allocate | src/common/assets.rs:256-269 | the new id is one more than the previous highest id, and the counter becomes that id, so ids strictly increase and are never reused |
| Assets.AssetStorage.AddStorage | src/common/assets.rs:38-44 | the type's table becomes an empty table, replacing any old one. The handles the old table held are dropped: an id stays live exactly when it was live and is still held outside or by another table. With no previous table, liveness is unchanged. The registry invariant holds |
| Assets.AssetStorage.Get | src/common/assets.rs:46-50 | a value is returned exactly when the id has built data in that table, and it is that data; a queued but unbuilt id yields nothing |
| Assets.AssetStorage.Iter | src/common/assets.rs:52-59 | one pair per handle, in handle order, each pairing the handle with the data `Get` finds for it; under the invariant no lookup fails (the source's `unwrap` is safe) |
| Assets.AssetStorage.HandleFor | src/common/assets.rs:61-65 | a handle is returned exactly when the name is cached and its handle is still live |
| Assets.AssetStorage.GetByName | src/common/assets.rs:67-75 | the name's live handle, when there is one, looked up in the built data; otherwise nothing |
| Assets.AssetStorage.Insert | src/common/assets.rs:77-84 | the data is stored under a fresh id one above the previous highest, and that handle is appended to the handle list. The name cache and the queue are unchanged. The returned handle is a new outside strong handle. The registry invariant holds |
| Assets.AssetStorage.InsertWithName | src/common/assets.rs:86-105 | on a live name: the data at the existing handle is overwritten, the same handle is returned, no id is allocated and the handle list does not grow. Otherwise a fresh handle is allocated, appended and bound to the name. Afterwards the name resolves to the returned handle, which joins the outside strong handles |
| Assets.AssetStorage.Load | src/common/assets.rs:107-126 | on a live name: the same handle is returned and the tables do not change. Otherwise a fresh handle is bound to the name, and exactly one entry (handle, import result, name) is appended to the queue. Built data and the handle list are untouched, and the new handle has no data yet. Afterwards the name resolves to the returned handle, which joins the outside strong handles |
| Assets.LoadTwice | src/common/assets.rs:107-126 | two loads of an uncached name with no build between return the same handle and queue exactly one entry |
| Assets.AssetStorage.BuildWaiting | src/common/assets.rs:128-168 | with a table, the table becomes its drained form (see `Assets.ApplyBuiltValues` and `Assets.BuiltIdsMembers`); without one nothing changes. The outside handles are unchanged. An id stays live exactly when it was live and is still held outside or by a table, so a failed entry's id dies unless it is held elsewhere. The invariant (every listed handle has data) holds |
| Assets.BuiltIdsMembers | src/common/assets.rs:150-167 | an id is appended to the handle list by a drain exactly when some queued entry with that id imported and built successfully |
| Assets.BuiltIdsLength | src/common/assets.rs:150-167 | the handle list grows by at most the queue length, and by exactly that length iff every entry built |
| Assets.BuiltIdsDistinct | src/common/assets.rs:150-167 | draining a queue of distinct ids appends distinct handles |
| Assets.ApplyBuiltValues | src/common/assets.rs:150-167 | each successfully built entry's data is stored under its id; ids not built keep exactly their previous data (failed entries change nothing) |
| Assets.ApplyBuiltKeys | src/common/assets.rs:150-167 | after a drain the ids with data are the old ones plus the built ones |
| Assets.DrainedValid | src/common/assets.rs:150-167 | a drain keeps the table invariant: every handle has data, handles distinct, queue emptied |
| Assets.AssetStorage.Release | src/common/assets.rs:210-248 | the last outside strong handle to the id is dropped: the id leaves the outside set, and it dies exactly when no table holds it. Tables are unchanged, so a dead name no longer upgrades |
| Assets.DrainedHolds | src/common/assets.rs:143-166 | after a drain the table holds exactly its old listed handles and the handles of the entries that built, so a failed entry's queued strong handle is dropped |
| Assets.FailedEntryDropped | src/common/assets.rs:143-153 | a freshly queued entry that fails to build is held by no table once the queue is drained |
| Assets.FailedLoadDies | src/common/assets.rs:107-168 | loading an uncached name whose import fails, dropping the returned handle and building the queue kills the fresh id: the name no longer upgrades |
| Assets.ReloadAfterFailure | src/common/assets.rs:107-126 | after such a failure, loading the name again allocates the next fresh id and queues a new import of the name |
| Bytes.Load | src/common/assets.rs:278 | a lump is read exactly when its path is present, and yields its bytes; a missing path is `NotFound` |
| Bytes.I16 | src/doom/map/load.rs:484-485 | the signed reading lies in [-32768, 32768) and agrees with the unsigned reading modulo 2^16 |
| Bytes.I32 | src/doom/map/load.rs:699-700 | the signed reading lies in [-2^31, 2^31) and agrees with the unsigned reading modulo 2^32 |
| Bytes.U16RoundTrip | src/doom/map/load.rs:532-537 | reading a little-endian u16 back from its encoding, at any position in a blob, gives the value |
| Bytes.HeadLength | src/doom/map/load.rs:586 | the length of a UTF-8 sequence head is at most 4 and within the input, and is 1 exactly for an ASCII byte |
| Bytes.AsciiIsUtf8 | src/doom/map/load.rs:586 | a field of ASCII bytes is valid UTF-8 |
| Bytes.TrimNuls | src/doom/map/load.rs:586 | the result is a prefix, everything cut was NUL, and the result does not end in NUL |
| Bytes.DecodeTextureName | src/doom/map/load.rs:581-601 | the field `-` followed by seven NULs means no texture; any other field is an error exactly when it is not UTF-8, and otherwise is the field with trailing NULs trimmed |
| Bytes.ReadName | src/doom/map/textures.rs:112-114 | a name field decodes exactly when it is UTF-8, to the field with trailing NULs trimmed |
| Bytes.NameFieldRoundTrip | src/doom/map/textures.rs:112-114 | a name of at most 8 bytes that does not end in NUL, padded with NULs to an 8-byte field that is valid UTF-8, reads back as itself |
| Lumps.Index16 | src/doom/map/load.rs:539-546 | `0xFFFF` decodes to no reference and every other value to itself |
| Lumps.DecodeVertexRef | src/doom/map/load.rs:733-740 | bit 15 set means a GL vertex, otherwise a normal one; the index is the low 15 bits |
| Lumps.DecodeChild | src/doom/map/load.rs:829-836 | bit 15 set means a subsector leaf, otherwise a node; the index is the low 15 bits |
| Lumps.DecodeSide | src/doom/map/load.rs:746-749 | a side word decodes to Right exactly when it is 0 |
| Lumps.DecodeThing | src/doom/map/load.rs:478-493 | a 10-byte record always decodes; unknown flag bits are dropped |
| Lumps.DecodeLinedef | src/doom/map/load.rs:528-549 | a 14-byte record always decodes; unknown flag bits are dropped; the two sidedef references are the sentinel decodings of the last two words |
| Lumps.DecodeSidedef | src/doom/map/load.rs:572-604 | a 30-byte record decodes exactly when its three texture-name fields decode; the sector index is the last word |
| Lumps.DecodeVertex | src/doom/map/load.rs:619-625 | a 4-byte record always decodes, to a point in 16.16 fixed-point units (both coordinates whole map units) |
| Lumps.DecodeSector | src/doom/map/load.rs:650-675 | a 26-byte record decodes exactly when both flat-name fields decode |
| Lumps.DecodeGLVert | src/doom/map/load.rs:696-702 | an 8-byte record always decodes, to two signed 32-bit 16.16 coordinates |
| Lumps.DecodeGLSeg | src/doom/map/load.rs:729-755 | a 10-byte record always decodes; linedef and partner references are the sentinel decodings of their words |
| Lumps.DecodeGLSSect | src/doom/map/load.rs:775-781 | a 4-byte record always decodes, to a count and a first index below 2^16 |
| Lumps.DecodeGLNode | src/doom/map/load.rs:803-839 | a 28-byte record always decodes; both child indices are below 2^15 |
| Lumps.DecodeRecordsSound | src/doom/map/load.rs:528-552 | a successful decode of a lump is a record sequence: the lump is cut into consecutive fixed-size records, each decoded |
| Lumps.DecodeRecordsComplete | src/doom/map/load.rs:528-552 | every record-sequence reading of a lump is what the decoder returns, so the reading is unique |
| Lumps.RecordsOfChunk | src/doom/map/load.rs:528-552 | in a record sequence, record k is decoded from the k-th chunk of `size` bytes |
| Lumps.RecordsOfLength | src/doom/map/load.rs:528-552 | a record sequence uses up the whole lump: its length is the record count times the record size |
| Lumps.TruncatedFails | src/doom/map/load.rs:528-552 | a lump whose length is not a multiple of the record size fails |
| Lumps.ReadRecords | src/doom/map/load.rs:528-552 | the `while position < len` loop returns exactly the decoding function's result |
| Lumps.LumpPath | src/doom/map/load.rs:526 | the lump path `name/+k` extends the map name |
| Lumps.GLName | src/doom/map/load.rs:40 | the GL map name is the map name behind a three-byte prefix |
| Lumps.ThingsFormat | src/doom/map/load.rs:474-495 | on success the THINGS lump exists and the result is its 10-byte record sequence; a missing lump is `NotFound` |
| Lumps.LinedefsFormat | src/doom/map/load.rs:522-553 | on success the result is the LINEDEFS lump's 14-byte record sequence; missing is `NotFound` |
| Lumps.SidedefsFormat | src/doom/map/load.rs:566-608 | on success the result is the SIDEDEFS lump's 30-byte record sequence; missing is `NotFound` |
| Lumps.VertexesFormat | src/doom/map/load.rs:613-629 | on success the result is the VERTEXES lump's 4-byte record sequence; missing is `NotFound` |
| Lumps.SectorsFormat | src/doom/map/load.rs:644-679 | on success the result is the SECTORS lump's 26-byte record sequence; missing is `NotFound` |
| Lumps.GLVertFormat | src/doom/map/load.rs:684-706 | success requires the signature `gNd2` followed by 8-byte records; a different 4-byte signature is `BadSignature` |
| Lumps.GLSegsFormat | src/doom/map/load.rs:723-759 | on success the result is the GL_SEGS lump's 10-byte record sequence; missing is `NotFound` |
| Lumps.GLSSectFormat | src/doom/map/load.rs:769-785 | on success the result is the GL_SSECT lump's 4-byte record sequence; missing is `NotFound` |
| Lumps.GLNodesFormat | src/doom/map/load.rs:797-843 | on success the result is the GL_NODES lump's 28-byte record sequence; missing is `NotFound` |
| Lumps.ImportRecords | src/doom/map/load.rs:526-552 | a missing lump is `NotFound`; otherwise the result is the decoding of the lump's bytes |
| Lumps.ImportGLVert | src/doom/map/load.rs:687-706 | the imperative GL_VERT import returns exactly the format's result |
| Validator.RecordErrorReports | src/doom/map/load.rs:54-143 | an error for one record names that record and is reported against a real out-of-range reference |
| Validator.CleanIffValid | src/doom/map/load.rs:54-143 | all five phases find nothing exactly when every cross-reference is in range |
| Validator.FirstViolationInvalid | src/doom/map/load.rs:54-143 | a first violation implies the map is invalid and is truly reported |
| Validator.CheckVertex | src/doom/map/load.rs:85-98 | a seg vertex is checked against the GL or the normal vertex array according to its tag |
| Validator.CheckChild | src/doom/map/load.rs:127-140 | a node child is checked against the subsector or the node count according to its kind |
| Validator.CheckSidedefs | src/doom/map/load.rs:54-61 | no error exactly when every sidedef's sector is in range; an error is the first bad sidedef |
| Validator.CheckLinedefs | src/doom/map/load.rs:63-72 | no error exactly when every present sidedef reference is in range; an error is the first violation |
| Validator.CheckSegs | src/doom/map/load.rs:74-109 | no error exactly when every seg's vertices, linedef and partner are in range; an error is the first violation in check order |
| Validator.CheckSubsectors | src/doom/map/load.rs:111-124 | no error exactly when every subsector's first seg and end are within the seg list; an error is the first violation |
| Validator.CheckNodes | src/doom/map/load.rs:126-141 | no error exactly when every node child is in bounds for its kind; an error is the first violation |
| Validator.Validate | src/doom/map/load.rs:54-143 | passes exactly when every cross-reference is in range; on failure, the error is the first violation in source order |
| Validator.DecodeAll | src/doom/map/load.rs:39-52 | on success all eight lumps exist and each field is its lump's record sequence (GL_VERT after its signature); a missing LINEDEFS lump is `NotFound` |
| Validator.ImportMap | src/doom/map/load.rs:39-155 | decode errors propagate; a decoded map is returned exactly when it validates, and otherwise the first violation is reported with no map data |
| Textures.IsSky | src/doom/map/textures.rs:192-199 | true exactly for the Sky variant |
| Textures.PixelIndex | src/doom/map/textures.rs:67-82 | a buffer index `x + y * w` decodes back to its column and row |
| Textures.PixelBound | src/doom/map/textures.rs:67-82 | the index of a pixel inside a w×h image is below `w * h` |
| Textures.IdxInjective | src/doom/map/textures.rs:67-82 | distinct pixels of a row-major image have distinct indices |
| Textures.ImportFlat | src/doom/map/textures.rs:16-29 | succeeds exactly when the lump has at least 4096 bytes; the flat is 64×64, offset zero, each pixel the lump byte at full alpha; a short lump is `Truncated` |
| Textures.ReadU32At | src/doom/map/textures.rs:109 | a u32 read succeeds exactly when four bytes remain; otherwise `Truncated` |
| Textures.ReadNamesShape | src/doom/map/textures.rs:111-113 | reading `count` names yields exactly `count` names, each 8-byte field in turn trimmed and UTF-8 |
| Textures.ReadNamesAt | src/doom/map/textures.rs:111-113 | name k of a successful read is the k-th 8-byte field read as a name |
| Textures.ImportPNames | src/doom/map/textures.rs:104-117 | load errors propagate; on success the table has exactly the count read from the first word |
| Textures.ReadOffsetsShape | src/doom/map/textures.rs:141-146 | the offset table reads exactly when its bytes are there, giving `count` offsets, the k-th the u32 at position 4k |
| Textures.ReadPatchesShape | src/doom/map/textures.rs:162-171 | a patch list has exactly `patch_count` entries; each index is below the PNAMES length and the patch is `pnames[index] + ".patch"` at the record's offset |
| Textures.TextureRecordsShape | src/doom/map/textures.rs:148-181 | the directory read yields one record per offset, the k-th being the record decoded at the k-th offset |
| Textures.ToDirectoryKeys | src/doom/map/textures.rs:180-181 | a name is in the directory exactly when some record carries it |
| Textures.ToDirectoryLastWins | src/doom/map/textures.rs:180-181 | a name maps to the info of the last record carrying it |
| Textures.ReadPatchList | src/doom/map/textures.rs:160-171 | the patch loop returns exactly the patch list specification |
| Textures.ReadTextureRecord | src/doom/map/textures.rs:151-180 | the record reader returns exactly the record specification |
| Textures.ReadOffsetTable | src/doom/map/textures.rs:141-146 | the offset loop reads the count and exactly that many offsets |
| Textures.ImportTextures | src/doom/map/textures.rs:133-183 | load errors propagate; otherwise the result is the directory of the lump's records |
| Textures.CollectRecords | src/doom/map/textures.rs:148-181 | the record loop's directory is that of the record specification, or its first error |
| Textures.LookupTexture | src/doom/map/textures.rs:45-50 | TEXTURE1 wins; TEXTURE2 is consulted only when the name is absent there; absent from both is `NoSuchTexture` |
| Textures.ClampedRect | src/doom/map/textures.rs:61-90 | a pixel lies in the clamped rectangle `[max(offset,0), min(offset+size, tex size))` exactly when the patch covers it |
| Textures.BlitPixel | src/doom/map/textures.rs:51-93 | after one blit a covered pixel holds the patch's pixel and every other pixel keeps its value |
| Textures.CopyRow | src/doom/map/textures.rs:76-90 | the inner loop writes the patch's pixels to one row segment and leaves every other pixel alone, every write and read in bounds |
| Textures.Blit | src/doom/map/textures.rs:61-90 | the in-place blit leaves the buffer equal to the per-pixel blit specification of its old contents |
| Textures.LastCover | src/doom/map/textures.rs:51-93 | finds the last patch covering a pixel, or reports that none does |
| Textures.ComposePixel | src/doom/map/textures.rs:51-93 | after all patches a pixel holds the last covering patch's pixel, or the default when none covers it |
| Textures.Placements | src/doom/map/textures.rs:51-60 | one placement per patch, pairing its offset with its loaded image |
| Textures.ImportWall | src/doom/map/textures.rs:31-100 | fails exactly when the lookup fails (`NoSuchTexture`); otherwise the texture has the record's size, zero offset and the composition of its patches over default pixels |
| MapBuild.Cached | src/common/assets.rs:61-65 | the cache view holds exactly the names whose handles are live, with those handles |
| MapBuild.Resolve | src/doom/map/load.rs:186-210 | no name is None; in a skyable slot `F_SKY1` is Sky; any other name is Normal with its memoised handle |
| MapBuild.ResolveMonotone | src/doom/map/load.rs:186-210 | a name's resolution does not change as the memo grows |
| MapBuild.GrownTrans | src/doom/map/load.rs:186-210 | loading names through the memo composes: built data, the handle list and old cache entries survive; the queue only grows |
| MapBuild.QueuedOnceTrans | src/doom/map/load.rs:186-210 | across several loads, no name is queued twice |
| MapBuild.QueuedForMiss | src/common/assets.rs:116-123 | a load that misses the cache queues the import of its name under the handle it binds, and binds no other name |
| MapBuild.QueuedForTrans | src/doom/map/load.rs:186-210 | two stretches of loading compose: the entries queued over both are imports, by the one importer, of names allowed in either stretch, and every new binding has its entry |
| MapBuild.FieldNames | src/doom/map/load.rs:186-210 | a slot needs no load when it is empty or is the sky in a skyable slot, and otherwise exactly its own name |
| MapBuild.FlatNames | src/doom/map/load.rs:180-217 | a name is a needed flat exactly when some sector needs it |
| MapBuild.WallNames | src/doom/map/load.rs:219-268 | a name is a needed texture exactly when some sidedef needs it |
| MapBuild.FlatNamesStep | src/doom/map/load.rs:180-217 | one more sector adds its own flats to the needed names |
| MapBuild.WallNamesStep | src/doom/map/load.rs:219-268 | one more sidedef adds its own textures to the needed names |
| MapBuild.LoadCached | src/doom/map/load.rs:189-196 | a memo hit returns the memoised handle and leaves the registry untouched. A name the registry does not cache gets the next fresh id and queues exactly the entry (handle, importer(name), name). Any new entry is the import of this name by this importer. The memo stays a view of the live cache |
| MapBuild.ResolveField | src/doom/map/load.rs:186-210 | the slot's texture is the resolution of its name in the grown memo. The registry only grows, and its new entries are imports by the given importer of the slot's name only, and none when the slot is empty or the sky |
| MapBuild.SectorOfMonotone | src/doom/map/load.rs:180-217 | a sector's built form is stable under memo growth |
| MapBuild.BuildSector | src/doom/map/load.rs:182-216 | one sector built from its data with both flats resolved, `sector_tag` copied from `special_type`, empty lists. The only new entries are imports of its two flat names by the flat importer |
| MapBuild.BuildSectors | src/doom/map/load.rs:180-217 | one sector per record, each the specification of its data under the final flat memo. The new entries are imports by the flat importer of the records' non-sky flat names, no name twice. A name is bound to a new handle only with its entry |
| MapBuild.SidedefOfMonotone | src/doom/map/load.rs:219-268 | a sidedef's built form is stable under memo growth |
| MapBuild.BuildSidedef | src/doom/map/load.rs:221-266 | the top texture treats `F_SKY1` as Sky; bottom and middle never do. The only new entries are imports of its texture names by the wall importer |
| MapBuild.BuildSidedefs | src/doom/map/load.rs:219-268 | one filled slot per sidedef record, each its specification under the final texture memo. The new entries are imports by the wall importer of the sidedefs' texture names, no name twice |
| MapBuild.Link | src/doom/map/load.rs:282-292 | adds one neighbour to one sector without duplicating it and leaves all else alone |
| MapBuild.Relink | src/doom/map/load.rs:279-292 | one linedef's adjacency pass changes only neighbour lists |
| MapBuild.RelinkStep | src/doom/map/load.rs:279-292 | one more linedef keeps the adjacency invariant: lists duplicate-free, and x is a neighbour of s exactly when some earlier two-sided linedef joins two different sectors s and x |
| MapBuild.SolidMaskOf | src/doom/map/load.rs:333-339 | all if BLOCKING, else monster if BLOCKMONSTERS, else empty |
| MapBuild.ClaimedStep | src/doom/map/load.rs:273-276 | a sidedef is taken by the first k+1 linedefs exactly when taken by the first k or by linedef k |
| MapBuild.TakeSides | src/doom/map/load.rs:273-276 | the linedef's sidedefs are moved out of their slots, leaving exactly the claimed slots empty |
| MapBuild.BuildLinedef | src/doom/map/load.rs:270-345 | one linedef built to specification, its slots emptied, adjacency invariant kept |
| MapBuild.BuildLinedefs | src/doom/map/load.rs:270-345 | every linedef is its specification; sectors change only in their neighbour lists, which satisfy the adjacency invariant |
| MapBuild.NeighboursSymmetric | src/doom/map/load.rs:279-292 | adjacency is symmetric and no sector is its own neighbour |
| MapBuild.SkyRule | src/doom/map/load.rs:295-301 | sides are present as referenced; only top textures may change; when both sides' sectors have Sky ceilings both tops become Sky, otherwise they are the sidedefs' own |
| MapBuild.ReindexChild | src/doom/map/load.rs:355-365 | leaves stay as they are; node i becomes node N-1-i |
| MapBuild.ReindexChildInvolution | src/doom/map/load.rs:355-365 | re-indexing a child twice gives it back |
| MapBuild.ReindexNodes | src/doom/map/load.rs:347-368 | output k is input N-1-k, its node children renumbered the same way |
| MapBuild.ReindexNodesShape | src/doom/map/load.rs:347-368 | the root (the last record) becomes node 0, and every node child names a node of the result |
| MapBuild.BuildSegs | src/doom/map/load.rs:370-396 | each seg starts at its first vertex and its direction reaches the second; linedef and side carry over |
| MapBuild.FindSectorSpec | src/doom/map/load.rs:402-411 | none exactly when no seg's linedef has a sidedef on its side; otherwise the sector of the first such seg |
| MapBuild.OwnerInRange | src/doom/map/load.rs:402-411 | an owner is a real sector index |
| MapBuild.SubsectorsOfMembers | src/doom/map/load.rs:434 | a sector's subsector list holds exactly the subsectors it owns |
| MapBuild.SubsectorsOfAscending | src/doom/map/load.rs:434 | that list is strictly increasing and below the number of subsectors seen, as the in-order `push` makes it |
| MapBuild.AttachStep | src/doom/map/load.rs:434 | appending subsector i to its owner keeps every sector's list equal to its owned prefix |
| MapBuild.BuildSubsectors | src/doom/map/load.rs:398-442 | fails exactly at the first subsector with no owner (`NoSector`); otherwise every subsector records its segs and owner and each sector lists exactly its owned subsectors in increasing order |
| MapBuild.AttachSubsector | src/doom/map/load.rs:398-442 | one step of the map: the owner is the first seg's sidedef sector; on success the subsector is recorded and pushed onto exactly its owner's list |
| MapBuild.BuildableRanges | src/doom/map/load.rs:54-143 | a validated map has every index the builder uses in range |
| MapBuild.SpecLinedefs | src/doom/map/load.rs:270-345 | the specified linedefs' sides refer to real sectors |
| MapBuild.Assemble | src/doom/map/load.rs:270-452 | the passes after texture resolution meet the whole-build specification |
| MapBuild.NamedFloorsNormal | src/doom/map/load.rs:185-197 | in a built map, a sector whose floor flat is named and not the sky has that flat's handle as its floor texture |
| MapBuild.NamedCeilingsNormal | src/doom/map/load.rs:199-211 | in a built map, a sector whose ceiling flat is named and not the sky has that flat's handle as its ceiling texture |
| MapBuild.SkyQueuedFirst | src/doom/map/load.rs:166 | when the sky's load queued an entry, that entry stays first among the wall table's new entries after the sidedef loads |
| MapBuild.TexturesLoaded | src/doom/map/load.rs:164-268 | the three loading stages together give the texture account of `LoadTextures` |
| MapBuild.LoadTextures | src/doom/map/load.rs:164-268 | the sky, then the flats, then the wall textures are loaded. On each texture table the new entries are imports by that table's importer, the flat table's of the sectors' flat names and the wall table's of the sky and sidedef names. No name is queued twice, and a name is bound to a new handle only with its entry. An uncached sky gets the first fresh id and the first new wall entry. Every name the map uses ends up cached, and the sectors and sidedefs are their specifications under the final caches |
| MapBuild.BuildMap | src/doom/map/load.rs:157-452 | the texture account of `LoadTextures`: an uncached sky gets the first fresh id and the first new wall entry; the flat and wall queues gain only imports of the map's own names by the right importer, no name twice. Every flat and texture name the map uses, other than the sky flat in a sky slot, has a live handle in the final cache and resolves to it. The result fails exactly at the first ownerless subsector, and otherwise has the specified sectors, linedefs, nodes, subsectors and sky handle, with symmetric duplicate-free adjacency |

## Left out

- Floating point and geometry are left out: normals, `Plane`, bounding boxes, the `/255` light scaling and the 16.16 `/65536` conversion. Heights and light are raw integers. Vertexes are stored in 16.16 fixed units.
- MapBuild.NodeOf: node partition lines and bounding boxes stay in raw map units, while vertexes and segs are in 16.16 units. The source converts all of them to one unit.
- Assets.HandleAllocator.Allocate: `highest_id` is a `u64` in the source; here it is an unbounded integer, so its overflow is not modelled.
- Assets.HandleAllocator: the source's `unused_ids` list is omitted. Nothing in the core ever pushes onto it, so `allocate` always takes the `highest_id + 1` branch.
- The data source and the WAD loader are a map from lump path to bytes. Error texts beyond their kind are left out.
- `Arc`/`Weak` reference counting is modelled by the sets `live` and `outside`, not by counts. A caller's handle joins `outside` when a method returns it. `Release` models the caller dropping the last of its strong handles to an id. Strong handles kept inside built asset data are not tracked.
- The registry's tables are keyed by a type tag and hold one data type. `build_map` uses two typed storages, modelled as two distinct tags of one registry. The `build_waiting` build function is a pure function, not one given the registry.
- `storage` and `storage_mut` panic on an unregistered type. Here this is the precondition `tag in storages`.
- `textures.rs` calls a newer registry API than `assets.rs`. Its collaborators are parameters: the PNAMES list, the TEXTURE1/2 directories and the loaded patch images.
- Textures.ImportWall: the source panics when a patch image is absent (`get(...).unwrap()`) or when a patch's data is shorter than its size (`patch.data[src_index]`). Here these are the preconditions that every patch has an image and every image is well formed. The `unwrap` of the TEXTURE1 directory is replaced by taking the directory as a parameter. The `file_stem` "Empty file name" error is not modelled: the texture name is the parameter `name`.
- `wad::read_string` is not part of this model. It is taken to read 8 bytes, require UTF-8 and trim trailing NULs.
- Lumps.DecodeRecordsSound: a partial trailing record is always reported as `Truncated`. The source decodes the partial record field by field, so it may report a different error first. An example is the UTF-8 error of a complete name field in a partial SIDEDEFS or SECTORS record.
- Textures.ReadPatchesShape: a PNAMES index out of range is the error `BadPatchIndex`. The source panics at `pnames[index]`.
- MapBuild.BuildLinedefs: a sidedef claimed twice panics at `take().unwrap()` in the source. It is excluded by the precondition `ClaimsUnique`. Linedef vertex indices are never validated, yet are indexed. The precondition `LinedefVerticesInRange` covers them.
- MapBuild.BuildLinedefs: the order of each neighbour list is not stated, only its contents and the absence of duplicates.
- MapBuild.BuildSector: `sector_tag` is copied from `special_type`, as the source has it.
- The Things lump is decoded, but `Map::import` does not call it.
- Thing placement, the ECS entity catalogue, rendering and the game loop are outside the core.
