/**
 * Option, Result and the error kinds that the level-loading pipeline can
 * report.  Only pass/fail and a kind of failure are modelled; the text of the
 * messages is not, and where the source could fail in more than one way the
 * kind reported may differ from the one it reports first.
 */
module Wrappers {

  datatype Option<T> = None | Some(value: T)

  /** The cross-reference that the validator found out of range. */
  datatype RefKind =
    | SidedefSector       // sidedef -> sector
    | LinedefSidedef      // linedef -> sidedef
    | SegLinedef          // seg -> linedef
    | SegVertex           // seg -> normal or GL vertex
    | SegPartner          // seg -> partner seg
    | SubsectorFirstSeg   // subsector -> first seg
    | SubsectorSegCount   // subsector -> end of its seg range
    | NodeSubsector       // node -> subsector child
    | NodeChildNode       // node -> node child

  datatype Error =
    | NotFound                                           // the data source has no blob of that name
    | Truncated                                          // fewer bytes than a read needs
    | BadUtf8                                            // a name field is not valid UTF-8
    | BadSignature                                       // the GL vertex lump lacks its "gNd2" magic
    | BadReference(kind: RefKind, record: nat, value: nat) // a positional index out of range
    | NoSector(subsector: nat)                           // no seg of a subsector names a sidedef
    | NoSuchTexture                                      // neither texture directory has the name
    | BadPatchIndex(index: nat)                          // a patch index past the end of PNAMES (a panic in the importer)

  datatype Result<T> = Ok(value: T) | Err(error: Error)

  /** Outcome of a check that produces no value. */
  datatype Outcome = Pass | Fail(error: Error)
}
