/** One named payload of a digital object, stored as the blob `oid/pid`. Its label,
    type and content type travel with the blob: as the blob's user metadata when the
    backend supports it, otherwise in a sidecar blob `oid/pid.meta`. */
module Payloads {
  import opened Wrappers
  import opened Api
  import opened Backend

  const MetadataSuffix := ".meta"
  const IdKey := "id"
  const PayloadTypeKey := "payloadtype"
  const LabelKey := "label"
  const LinkedKey := "linked"
  const ContentTypeKey := "contenttype"
  const DefaultMimeType := "application/octet-stream"

  /** The MIME-type sniffer: (bytes, file name) to content type. */
  type MimeSniffer = (seq<byte>, string) -> string

  /** What the generic base payload starts with besides its id: its default type
      and whether it is linked. Label and content type start out unset. */
  datatype PayloadDefaults = PayloadDefaults(ptype: Option<PayloadType>, linked: bool)

  /** The metadata fields a payload handle holds. */
  datatype PayloadFields = PayloadFields(labelText: Option<string>, ptype: Option<PayloadType>, contentType: Option<string>)

  function Initial(d: PayloadDefaults): PayloadFields
  {
    PayloadFields(None, d.ptype, None)
  }

  /** The path of payload `pid` of object `oid`. */
  function Location(oid: string, pid: string): string
  {
    oid + "/" + pid
  }

  /** The path of the sidecar metadata blob of the blob at `location`. */
  function SidecarPath(location: string): string
  {
    location + MetadataSuffix
  }

  function Lookup(m: map<string, string>, key: string): Option<string>
  {
    if key in m then Some(m[key]) else None
  }

  /** The properties read back from a blob; a blob not written as properties yields none. */
  function PropertiesOf(c: Content): map<string, string>
  {
    if c.Properties? then c.props else map[]
  }

  function BoolString(b: bool): string
  {
    if b then "true" else "false"
  }

  function ContentTypeOrDefault(contentType: Option<string>): string
  {
    if contentType.Some? then contentType.value else DefaultMimeType
  }

  /** The stored metadata of blob `b` at `location`: its own user metadata in native
      mode, otherwise the properties of the sidecar blob. */
  function UserMetadata(blobs: map<string, Blob>, native: bool, location: string, b: Blob): Result<map<string, string>, Error>
  {
    if native then Success(b.userMetadata)
    else if SidecarPath(location) in blobs then Success(PropertiesOf(blobs[SidecarPath(location)].content))
    else Failure(MissingSidecar)
  }

  /** The fields after loading metadata `md`: the type only when a non-empty one is
      stored, label and content type always (possibly with nothing). */
  function ApplyMetadata(f: PayloadFields, md: map<string, string>): Result<PayloadFields, Error>
  {
    var stored := Lookup(md, PayloadTypeKey);
    var hasType := stored.Some? && stored.value != "";
    if hasType && ParseType(stored.value).None? then Failure(UnknownPayloadType)
    else
      var ptype := if hasType then ParseType(stored.value) else f.ptype;
      Success(PayloadFields(Lookup(md, LabelKey), ptype, Lookup(md, ContentTypeKey)))
  }

  /** What loading leaves behind: the blob now held, the fields, and whether it threw. */
  datatype Loaded = Loaded(blob: Blob, fields: PayloadFields, status: Outcome<Error>)

  /** Loading the payload at `location` into a handle whose fields are `f`. */
  function Load(blobs: map<string, Blob>, native: bool, location: string, f: PayloadFields): (l: Loaded)
    ensures location !in blobs ==> l == Loaded(Blob(NoPayload, map[]), f, Pass)
    ensures location in blobs ==> l.blob == blobs[location]
    ensures l.status.Fail? ==> l.fields == f
    ensures location in blobs && l.status.Pass? ==> UserMetadata(blobs, native, location, blobs[location]).Success?
    ensures location in blobs && UserMetadata(blobs, native, location, blobs[location]).Failure? ==>
              l.status == Fail(UserMetadata(blobs, native, location, blobs[location]).error)
    ensures location in blobs && UserMetadata(blobs, native, location, blobs[location]).Success? ==>
              var md := UserMetadata(blobs, native, location, blobs[location]).value;
              (Lookup(md, PayloadTypeKey) !in {None, Some("")} && ParseType(md[PayloadTypeKey]).None? <==> l.status.Fail?)
    ensures location in blobs && l.status.Fail? && UserMetadata(blobs, native, location, blobs[location]).Success? ==>
              l.status == Fail(UnknownPayloadType)
    ensures location in blobs && l.status.Pass? ==>
              var md := UserMetadata(blobs, native, location, blobs[location]).value;
              && l.fields.labelText == Lookup(md, LabelKey)
              && l.fields.contentType == Lookup(md, ContentTypeKey)
              && (Lookup(md, PayloadTypeKey) in {None, Some("")} ==> l.fields.ptype == f.ptype)
              && (Lookup(md, PayloadTypeKey) !in {None, Some("")} ==> l.fields.ptype == ParseType(md[PayloadTypeKey]))
  {
    if location !in blobs then Loaded(Blob(NoPayload, map[]), f, Pass)
    else
      var b := blobs[location];
      match UserMetadata(blobs, native, location, b)
      case Failure(e) => Loaded(b, f, Fail(e))
      case Success(md) =>
        match ApplyMetadata(f, md)
        case Failure(e) => Loaded(b, f, Fail(e))
        case Success(g) => Loaded(b, g, Pass)
  }

  /** Loading only when no blob is held yet, as every lazy accessor does. */
  function EnsureLoaded(blobs: map<string, Blob>, native: bool, location: string, blob: Option<Blob>, f: PayloadFields): Loaded
  {
    if blob.Some? then Loaded(blob.value, f, Pass) else Load(blobs, native, location, f)
  }

  /** The fields a write stores, from the fields `f` held once loaded. */
  function WriteFields(f: PayloadFields, pid: string, data: seq<byte>, determineContentType: bool, sniff: MimeSniffer): (w: PayloadFields)
    ensures w.labelText == (if f.labelText.None? then Some(pid) else f.labelText)
    ensures w.ptype == (if f.ptype.None? then Some(Source) else f.ptype)
    ensures determineContentType ==> w.contentType == Some(sniff(data, pid))
    ensures !determineContentType ==> w.contentType == f.contentType
  {
    var labelText := if f.labelText.None? then Some(pid) else f.labelText;
    var ptype := if f.ptype.None? then Some(Source) else f.ptype;
    var contentType := if determineContentType then Some(sniff(data, pid)) else f.contentType;
    PayloadFields(labelText, ptype, contentType)
  }

  /** The metadata map a write attaches to the payload blob. */
  function MetadataMap(pid: string, f: PayloadFields, linked: bool): (md: map<string, string>)
    requires f.labelText.Some? && f.ptype.Some?
    ensures md.Keys == {IdKey, PayloadTypeKey, LabelKey, LinkedKey, ContentTypeKey}
    ensures md[IdKey] == pid && md[LinkedKey] == BoolString(linked)
    ensures md[LabelKey] == f.labelText.value && md[PayloadTypeKey] == TypeName(f.ptype.value)
    ensures md[ContentTypeKey] == ContentTypeOrDefault(f.contentType)
  {
    map[IdKey := pid, PayloadTypeKey := TypeName(f.ptype.value), LabelKey := f.labelText.value,
        LinkedKey := BoolString(linked), ContentTypeKey := ContentTypeOrDefault(f.contentType)]
  }

  /** The blobs after writing `data` with metadata `md` at `location`. */
  function Written(blobs: map<string, Blob>, native: bool, location: string, data: seq<byte>, md: map<string, string>): map<string, Blob>
  {
    var put := blobs[location := Blob(Bytes(data), md)];
    if native then put else put[SidecarPath(location) := Blob(Properties(md), map[])]
  }

  lemma SidecarPathDiffers(location: string)
    ensures SidecarPath(location) != location
  {
    assert |SidecarPath(location)| == |location| + 5;
  }

  /** Metadata round-trip: a fresh handle loading a payload just written gets back
      the written bytes, label and type, and the content type or the default one,
      in both metadata modes. */
  lemma {:induction false} MetadataRoundTrip(blobs: map<string, Blob>, native: bool, oid: string, pid: string,
                                             f: PayloadFields, linked: bool, data: seq<byte>, g: PayloadFields)
    requires f.labelText.Some? && f.ptype.Some?
    ensures var location := Location(oid, pid);
            var md := MetadataMap(pid, f, linked);
            Load(Written(blobs, native, location, data, md), native, location, g)
              == Loaded(Blob(Bytes(data), md), PayloadFields(f.labelText, f.ptype, Some(ContentTypeOrDefault(f.contentType))), Pass)
  {
    var location := Location(oid, pid);
    var md := MetadataMap(pid, f, linked);
    var after := Written(blobs, native, location, data, md);
    SidecarPathDiffers(location);
    assert after[location] == Blob(Bytes(data), md);
    assert UserMetadata(after, native, location, after[location]) == Success(md);
    assert ParseType(TypeName(f.ptype.value)) == f.ptype;
    assert ApplyMetadata(g, md) == Success(PayloadFields(f.labelText, f.ptype, Some(ContentTypeOrDefault(f.contentType))));
  }

  /** A handle on one payload. Label, type and content type are loaded from the store
      the first time any accessor needs them, and `blob` records that this happened. */
  class Payload {
    const store: BlobStore
    const oid: string
    const id: string
    const location: string
    const linked: bool
    var blob: Option<Blob>
    var labelText: Option<string>
    var ptype: Option<PayloadType>
    var contentType: Option<string>

    ghost predicate Valid()
    {
      location == Location(oid, id)
    }

    function Current(): PayloadFields
      reads this
    {
      PayloadFields(labelText, ptype, contentType)
    }

    constructor (store: BlobStore, oid: string, pid: string, defaults: PayloadDefaults)
      ensures Valid()
      ensures this.store == store && this.oid == oid && id == pid && linked == defaults.linked
      ensures blob == None && Current() == Initial(defaults)
    {
      this.store := store;
      this.oid := oid;
      id := pid;
      location := oid + "/" + pid;
      linked := defaults.linked;
      blob := None;
      labelText := None;
      ptype := defaults.ptype;
      contentType := None;
    }

    /** The stored metadata of the blob just fetched. */
    method GetUserMetadata() returns (r: Result<map<string, string>, Error>)
      requires Valid() && blob.Some?
      ensures r == UserMetadata(store.blobs, store.supportsUserMetadata, location, blob.value)
    {
      if store.supportsUserMetadata {
        r := Success(blob.value.userMetadata);
      } else {
        var metaBlob := store.GetBlob(location + MetadataSuffix);
        if metaBlob.None? {
          r := Failure(MissingSidecar);
        } else {
          r := Success(PropertiesOf(metaBlob.value.content));
        }
      }
    }

    /** Fetches the blob and copies its stored metadata into the fields; when there
        is no blob yet, holds an empty one and writes nothing. */
    method LoadBlob() returns (r: Outcome<Error>)
      requires Valid()
      modifies this
      ensures var l := Load(store.blobs, store.supportsUserMetadata, location, old(Current()));
              blob == Some(l.blob) && Current() == l.fields && r == l.status
    {
      var found := store.BlobExists(location);
      if found {
        blob := store.GetBlob(location);
        var md := GetUserMetadata();
        if md.Failure? {
          return Fail(md.error);
        }
        var stored := Lookup(md.value, PayloadTypeKey);
        if stored.Some? && stored.value != "" {
          var parsed := ParseType(stored.value);
          if parsed.None? {
            return Fail(UnknownPayloadType);
          }
          ptype := parsed;
        }
        labelText := Lookup(md.value, LabelKey);
        contentType := Lookup(md.value, ContentTypeKey);
        r := Pass;
      } else {
        blob := Some(Blob(NoPayload, map[]));
        r := Pass;
      }
    }

    method GetLabel() returns (r: Result<Option<string>, Error>)
      requires Valid()
      modifies this
      ensures old(blob).Some? ==> unchanged(this)
      ensures var l := EnsureLoaded(store.blobs, store.supportsUserMetadata, location, old(blob), old(Current()));
              blob == Some(l.blob) && Current() == l.fields &&
              r == if l.status.Fail? then Failure(l.status.error) else Success(l.fields.labelText)
    {
      if blob.None? {
        var loaded := LoadBlob();
        if loaded.Fail? {
          return Failure(loaded.error);
        }
      }
      r := Success(labelText);
    }

    method GetType() returns (r: Result<Option<PayloadType>, Error>)
      requires Valid()
      modifies this
      ensures old(blob).Some? ==> unchanged(this)
      ensures var l := EnsureLoaded(store.blobs, store.supportsUserMetadata, location, old(blob), old(Current()));
              blob == Some(l.blob) && Current() == l.fields &&
              r == if l.status.Fail? then Failure(l.status.error) else Success(l.fields.ptype)
    {
      if blob.None? {
        var loaded := LoadBlob();
        if loaded.Fail? {
          return Failure(loaded.error);
        }
      }
      r := Success(ptype);
    }

    method GetContentType() returns (r: Result<Option<string>, Error>)
      requires Valid()
      modifies this
      ensures old(blob).Some? ==> unchanged(this)
      ensures var l := EnsureLoaded(store.blobs, store.supportsUserMetadata, location, old(blob), old(Current()));
              blob == Some(l.blob) && Current() == l.fields &&
              r == if l.status.Fail? then Failure(l.status.error) else Success(l.fields.contentType)
    {
      if blob.None? {
        var loaded := LoadBlob();
        if loaded.Fail? {
          return Failure(loaded.error);
        }
      }
      r := Success(contentType);
    }

    /** Sets the type once the stored metadata is loaded, so a later load cannot undo it. */
    method SetType(t: PayloadType) returns (r: Outcome<Error>)
      requires Valid()
      modifies this
      ensures var l := EnsureLoaded(store.blobs, store.supportsUserMetadata, location, old(blob), old(Current()));
              blob == Some(l.blob) && r == l.status &&
              Current() == if l.status.Fail? then l.fields else l.fields.(ptype := Some(t))
    {
      if blob.None? {
        var loaded := LoadBlob();
        if loaded.Fail? {
          return loaded;
        }
      }
      ptype := Some(t);
      r := Pass;
    }

    /** The content of the held blob, loading it first if none is held. */
    method Open() returns (r: Result<Content, Error>)
      requires Valid()
      modifies this
      ensures var l := EnsureLoaded(store.blobs, store.supportsUserMetadata, location, old(blob), old(Current()));
              blob == Some(l.blob) && Current() == l.fields &&
              r == if l.status.Fail? then Failure(l.status.error)
                   else if l.blob.content.NoPayload? then Failure(NoContent)
                   else Success(l.blob.content)
    {
      if blob.None? {
        var loaded := LoadBlob();
        if loaded.Fail? {
          return Failure(loaded.error);
        }
      }
      if blob.value.content.NoPayload? {
        r := Failure(NoContent);
      } else {
        r := Success(blob.value.content);
      }
    }

    /** Writes `data` as the payload blob with the metadata map attached, and in
        sidecar mode the same map as `oid/pid.meta`. The stored metadata is loaded
        first, so a payload that already exists keeps its label and type. */
    method WritePayload(data: seq<byte>, determineContentType: bool, sniff: MimeSniffer) returns (r: Outcome<Error>)
      requires Valid()
      modifies this, store
      ensures store.directories == old(store.directories)
      ensures blob.Some?
      ensures var l := EnsureLoaded(old(store.blobs), store.supportsUserMetadata, location, old(blob), old(Current()));
              if l.status.Fail? then
                r == l.status && blob == Some(l.blob) && Current() == l.fields && store.blobs == old(store.blobs)
              else
                var f := WriteFields(l.fields, id, data, determineContentType, sniff);
                var md := MetadataMap(id, f, linked);
                r == Pass && Current() == f && blob == Some(Blob(Bytes(data), md)) &&
                store.blobs == Written(old(store.blobs), store.supportsUserMetadata, location, data, md)
    {
      var currentLabel := GetLabel();
      if currentLabel.Failure? {
        return Fail(currentLabel.error);
      }
      // the blob is held from here on, so the accessors below do not reload
      if labelText.None? {
        labelText := Some(id);
      }
      if ptype.None? {
        ptype := Some(Source);
      }
      if determineContentType {
        contentType := Some(sniff(data, id));
      }
      var payloadPath := oid + "/" + id;
      var userMetadata: map<string, string> := map[];
      userMetadata := userMetadata[IdKey := id];
      userMetadata := userMetadata[PayloadTypeKey := TypeName(ptype.value)];
      userMetadata := userMetadata[LabelKey := labelText.value];
      userMetadata := userMetadata[LinkedKey := BoolString(linked)];
      if contentType.Some? {
        userMetadata := userMetadata[ContentTypeKey := contentType.value];
      } else {
        userMetadata := userMetadata[ContentTypeKey := DefaultMimeType];
      }
      blob := Some(Blob(Bytes(data), userMetadata));
      store.PutBlob(payloadPath, blob.value);
      if !store.supportsUserMetadata {
        WritePayloadMetadata(userMetadata);
      }
      r := Pass;
    }

    /** Puts the sidecar blob holding the same key/value pairs as `userMetadata`. */
    method WritePayloadMetadata(userMetadata: map<string, string>)
      requires Valid()
      modifies store
      ensures store.blobs == old(store.blobs)[SidecarPath(location) := Blob(Properties(userMetadata), map[])]
      ensures store.directories == old(store.directories)
    {
      var metadata := CopyProperties(userMetadata);
      store.PutBlob(location + MetadataSuffix, Blob(Properties(metadata), map[]));
    }
  }

  /** Content round-trip on one handle: once a write succeeds, opening the handle
      yields the written bytes, and the content type is the sniffed one or the one
      held before. */
  method WriteThenOpen(p: Payload, data: seq<byte>, determineContentType: bool, sniff: MimeSniffer)
    returns (w: Outcome<Error>, r: Result<Content, Error>)
    requires p.Valid()
    modifies p, p.store
    ensures w.Pass? ==> r == Success(Bytes(data))
    ensures w.Pass? && determineContentType ==> p.contentType == Some(sniff(data, p.id))
    ensures w.Pass? && !determineContentType ==>
              p.contentType == EnsureLoaded(old(p.store.blobs), p.store.supportsUserMetadata, p.location, old(p.blob), old(p.Current())).fields.contentType
  {
    w := p.WritePayload(data, determineContentType, sniff);
    r := p.Open();
  }

  /** Fills a properties table with every entry of `m`, one key at a time. */
  method CopyProperties(m: map<string, string>) returns (props: map<string, string>)
    ensures props == m
  {
    props := map[];
    var keys := m.Keys;
    while keys != {}
      invariant keys <= m.Keys
      invariant props.Keys == m.Keys - keys
      invariant forall k :: k in props ==> props[k] == m[k]
      decreases keys
    {
      var key :| key in keys;
      props := props[key := m[key]];
      keys := keys - {key};
    }
  }
}
