/** The storage API types the adapter uses: the payload type enumeration and the
    ways an operation can fail. */
module Api {
  import opened Wrappers

  /** The role of a payload within its object. */
  datatype PayloadType = Source | Annotation | Other

  /** The enumeration constant's name, as `toString()` gives it. */
  function TypeName(t: PayloadType): string
  {
    match t
    case Source => "Source"
    case Annotation => "Annotation"
    case Other => "Other"
  }

  /** `PayloadType.valueOf`: `None` where it throws IllegalArgumentException. */
  function ParseType(s: string): (t: Option<PayloadType>)
    ensures t.Some? ==> TypeName(t.value) == s
    ensures forall u :: TypeName(u) == s ==> t == Some(u)
  {
    if s == "Source" then Some(Source)
    else if s == "Annotation" then Some(Annotation)
    else if s == "Other" then Some(Other)
    else None
  }

  /** Why an operation failed. The first six are the StorageExceptions the adapter
      throws itself; the rest are unchecked exceptions that escape it. */
  datatype Error =
    | NullArgument        // a null OID, PID or stream
    | DuplicatePid        // the PID is already in the object's manifest
    | PidNotFound         // the PID is not in the object's manifest
    | DuplicateOid        // the object's directory already exists
    | OidNotFound         // the object's directory does not exist
    | FileNotFound        // the file of a linked payload cannot be opened
    | NullLinkPath        // null dereference: a linked payload with a null path
    | MissingSidecar      // null dereference: sidecar mode and no `.meta` blob
    | UnknownPayloadType  // IllegalArgumentException: stored type names no constant
    | NoContent           // null dereference: opening a blob that has no payload
}
