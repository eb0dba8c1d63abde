/** A digital object: a set of payloads under the prefix `oid/`, listed in memory by
    a manifest (PID to payload handle) and persisted as the blob `oid/object-manifest`. */
module Objects {
  import opened Wrappers
  import opened Api
  import opened Backend
  import opened Payloads

  /** The reserved PID of the indexer's metadata payload. */
  const MetadataPayload := "TF-OBJ-META"
  const ManifestName := "object-manifest"
  /** The manifest item type of every payload that is not the source. */
  const OtherKind := "other"

  function ManifestPath(oid: string): string
  {
    Location(oid, ManifestName)
  }

  /** The type a new payload is given before it is written; `None` leaves it as is. */
  function Classify(pid: string, sourceId: Option<string>): (t: Option<PayloadType>)
    ensures t == Some(Annotation) <==> pid == MetadataPayload
    ensures t == Some(Source) <==> pid != MetadataPayload && sourceId.None?
    ensures t.None? <==> pid != MetadataPayload && sourceId.Some?
  {
    if pid == MetadataPayload then Some(Annotation)
    else if sourceId.None? then Some(Source)
    else None
  }

  /** The object's source after creating `pid`: once set, it is never reassigned. */
  function NextSourceId(pid: string, sourceId: Option<string>): (s: Option<string>)
    ensures sourceId.Some? ==> s == sourceId
    ensures s.Some?  <==> sourceId.Some? || pid != MetadataPayload
    ensures s != sourceId ==> s == Some(pid) && Classify(pid, sourceId) == Some(Source)
  {
    if pid != MetadataPayload && sourceId.None? then Some(pid) else sourceId
  }

  function Classified(f: PayloadFields, t: Option<PayloadType>): PayloadFields
  {
    if t.Some? then f.(ptype := t) else f
  }

  /** The manifest item type written for `name`. */
  function KindOf(name: string, sourceId: Option<string>): string
  {
    if Some(name) == sourceId then TypeName(Source) else OtherKind
  }

  /** The PIDs the persisted manifest lists: those not ending in ".meta". */
  function ListedNames(keys: set<string>): set<string>
  {
    set k | k in keys && !EndsWith(k, MetadataSuffix)
  }

  function NamesOf(items: seq<ManifestItem>): set<string>
  {
    set i | i in items :: i.name
  }

  /** `items` is a serialisation of a manifest with keys `keys` and source `sourceId`:
      one item per listed PID, typed Source exactly when it is the source. */
  ghost predicate Serializes(items: seq<ManifestItem>, keys: set<string>, sourceId: Option<string>)
  {
    && NamesOf(items) == ListedNames(keys)
    && (forall i, j :: 0 <= i < j < |items| ==> items[i].name != items[j].name)
    && (forall i :: 0 <= i < |items| ==> items[i].kind == KindOf(items[i].name, sourceId))
  }

  ghost predicate IsManifestBlob(b: Blob, keys: set<string>, sourceId: Option<string>)
  {
    b.userMetadata == map[] && b.content.Json? && b.content.items.Some? && Serializes(b.content.items.value, keys, sourceId)
  }

  /** The items of a manifest blob; a missing "items" array, or a blob that is not a
      manifest, lists none. */
  function ItemsOf(c: Content): seq<ManifestItem>
  {
    if c.Json? && c.items.Some? then c.items.value else []
  }

  /** Builds the "items" array from the manifest's keys, in whatever order the key
      set yields them. */
  method SerializeManifest(keys: set<string>, sourceId: Option<string>) returns (items: seq<ManifestItem>)
    ensures Serializes(items, keys, sourceId)
  {
    items := [];
    var rest := keys;
    while rest != {}
      invariant rest <= keys
      invariant NamesOf(items) == ListedNames(keys - rest)
      invariant forall i, j :: 0 <= i < j < |items| ==> items[i].name != items[j].name
      invariant forall i :: 0 <= i < |items| ==> items[i].name !in rest
      invariant forall i :: 0 <= i < |items| ==> items[i].kind == KindOf(items[i].name, sourceId)
      decreases rest
    {
      var name :| name in rest;
      assert keys - (rest - {name}) == (keys - rest) + {name};
      if !EndsWith(name, MetadataSuffix) {
        assert ListedNames(keys - (rest - {name})) == ListedNames(keys - rest) + {name};
        items := items + [ManifestItem(name, KindOf(name, sourceId))];
      } else {
        assert ListedNames(keys - (rest - {name})) == ListedNames(keys - rest);
      }
      rest := rest - {name};
    }
  }

  /** At most one serialised item is typed Source, and there is one exactly when the
      source is a listed PID. */
  lemma {:induction false} SerializedSourceUnique(items: seq<ManifestItem>, keys: set<string>, sourceId: Option<string>)
    requires Serializes(items, keys, sourceId)
    ensures forall i, j :: 0 <= i < |items| && 0 <= j < |items| && items[i].kind == TypeName(Source) && items[j].kind == TypeName(Source) ==> i == j
    ensures (exists i :: 0 <= i < |items| && items[i].kind == TypeName(Source)) <==> sourceId.Some? && sourceId.value in ListedNames(keys)
  {
    if sourceId.Some? && sourceId.value in ListedNames(keys) {
      assert sourceId.value in NamesOf(items);
      var it :| it in items && it.name == sourceId.value;
      var i :| 0 <= i < |items| && items[i] == it;
      assert items[i].kind == TypeName(Source);
    }
  }

  /** The type a fresh handle on `name` reports once it has loaded. */
  function LoadedType(blobs: map<string, Blob>, native: bool, oid: string, defaults: PayloadDefaults, name: string): Result<Option<PayloadType>, Error>
  {
    var l := Load(blobs, native, Location(oid, name), Initial(defaults));
    if l.status.Fail? then Failure(l.status.error) else Success(l.fields.ptype)
  }

  /** How rebuilding learns the type of each listed PID. */
  type TypeLoader = string -> Result<Option<PayloadType>, Error>

  function Loader(blobs: map<string, Blob>, native: bool, oid: string, defaults: PayloadDefaults): TypeLoader
  {
    name => LoadedType(blobs, native, oid, defaults, name)
  }

  /** The source recorded while rebuilding from `items` in order, starting from `init`:
      the last item whose handle loads as Source. */
  function RebuildSource(loaded: TypeLoader,
                         items: seq<ManifestItem>, init: Option<string>): Result<Option<string>, Error>
    decreases |items|
  {
    if items == [] then Success(init)
    else
      match RebuildSource(loaded, items[..|items| - 1], init)
      case Failure(e) => Failure(e)
      case Success(s) =>
        var name := items[|items| - 1].name;
        match loaded(name)
        case Failure(e) => Failure(e)
        case Success(t) => Success(if t == Some(Source) then Some(name) else s)
  }

  /** A rebuilt source other than the initial one is a listed item that loads as
      Source, and no later item does. */
  lemma {:induction false} RebuiltSourceIsLastSource(loaded: TypeLoader,
                                                     items: seq<ManifestItem>, init: Option<string>)
    requires RebuildSource(loaded, items, init).Success?
    ensures var s := RebuildSource(loaded, items, init).value;
            || (s == init && forall i :: 0 <= i < |items| ==> loaded(items[i].name) != Success(Some(Source)))
            || (exists i :: 0 <= i < |items| && s == Some(items[i].name)
                  && loaded(items[i].name) == Success(Some(Source))
                  && forall j :: i < j < |items| ==> loaded(items[j].name) != Success(Some(Source)))
  {
    if items != [] {
      var n := |items| - 1;
      var prefix := items[..n];
      RebuiltSourceIsLastSource(loaded, prefix, init);
      var t := loaded(items[n].name);
      if t != Success(Some(Source)) {
        var s := RebuildSource(loaded, prefix, init).value;
        if s == init && forall i :: 0 <= i < n ==> loaded(prefix[i].name) != Success(Some(Source)) {
          assert forall i :: 0 <= i < n ==> items[i] == prefix[i];
        } else {
          var i :| 0 <= i < n && s == Some(prefix[i].name)
                  && loaded(prefix[i].name) == Success(Some(Source))
                  && forall j :: i < j < n ==> loaded(prefix[j].name) != Success(Some(Source));
          assert items[i] == prefix[i];
          assert forall j :: i < j < n ==> items[j] == prefix[j];
        }
      }
    }
  }

  /** What rebuilding from the store yields: the manifest's keys and the source. */
  datatype Rehydration = Rehydration(keys: set<string>, sourceId: Option<string>)

  /** Rebuilding a freshly constructed object from the store. */
  function Rehydrate(blobs: map<string, Blob>, native: bool, oid: string, defaults: PayloadDefaults): Result<Rehydration, Error>
  {
    var path := ManifestPath(oid);
    if path !in blobs then Success(Rehydration({}, None))
    else
      var items := ItemsOf(blobs[path].content);
      match RebuildSource(Loader(blobs, native, oid, defaults), items, None)
      case Failure(e) => Failure(e)
      case Success(s) => Success(Rehydration(NamesOf(items), s))
  }

  /** The store after rebuilding: an object without a manifest blob gets "{}". */
  function AfterRehydration(blobs: map<string, Blob>, oid: string): map<string, Blob>
  {
    var path := ManifestPath(oid);
    if path in blobs then blobs else blobs[path := Blob(Json(None), map[])]
  }

  /** Serialise-then-rebuild: rebuilding from a manifest blob that `UpdateObjectManifest`
      wrote yields exactly the manifest's keys that do not end in ".meta", and as
      source an item that loads as Source, if any does. */
  lemma {:induction false} RehydrateSerialized(blobs: map<string, Blob>, native: bool, oid: string, defaults: PayloadDefaults,
                                               keys: set<string>, sourceId: Option<string>)
    requires ManifestPath(oid) in blobs && IsManifestBlob(blobs[ManifestPath(oid)], keys, sourceId)
    ensures Rehydrate(blobs, native, oid, defaults).Success? ==>
              (var h := Rehydrate(blobs, native, oid, defaults).value;
               && h.keys == ListedNames(keys)
               && (h.sourceId.Some? ==>
                     h.sourceId.value in ListedNames(keys)
                     && LoadedType(blobs, native, oid, defaults, h.sourceId.value) == Success(Some(Source))))
  {
    var items := ItemsOf(blobs[ManifestPath(oid)].content);
    var loaded := Loader(blobs, native, oid, defaults);
    if RebuildSource(loaded, items, None).Success? {
      RebuiltSourceIsLastSource(loaded, items, None);
      var s := RebuildSource(loaded, items, None).value;
      if s.Some? {
        var i :| 0 <= i < |items| && s == Some(items[i].name) && loaded(items[i].name) == Success(Some(Source));
        assert items[i] in items;
      }
    }
  }

  /** Distinct PIDs of one object live at distinct paths. */
  lemma LocationsDiffer(oid: string, a: string, b: string)
    requires a != b
    ensures Location(oid, a) != Location(oid, b)
  {
    assert Location(oid, a)[|oid| + 1..] == a;
    assert Location(oid, b)[|oid| + 1..] == b;
  }

  /** No sidecar is the manifest blob: one path ends in ".meta", the other does not. */
  lemma SidecarIsNotManifest(oid: string, pid: string)
    ensures SidecarPath(Location(oid, pid)) != ManifestPath(oid)
  {
    var sidecar := SidecarPath(Location(oid, pid));
    assert sidecar[|sidecar| - 1] == 'a';
    assert ManifestPath(oid)[|ManifestPath(oid)| - 1] == 't';
  }

  /** One step of rebuilding: the item after a prefix either fails to load, or
      becomes the source when it loads as Source, and joins the listed names. */
  lemma RebuildStep(loaded: TypeLoader,
                    items: seq<ManifestItem>, i: nat, s: Option<string>)
    requires i < |items|
    requires RebuildSource(loaded, items[..i], None) == Success(s)
    ensures NamesOf(items[..i + 1]) == NamesOf(items[..i]) + {items[i].name}
    ensures RebuildSource(loaded, items[..i + 1], None)
              == match loaded(items[i].name)
                 case Failure(e) => Failure(e)
                 case Success(t) => Success(if t == Some(Source) then Some(items[i].name) else s)
  {
    assert items[..i + 1][..i] == items[..i];
    assert items[..i + 1] == items[..i] + [items[i]];
  }

  /** Rebuilding stops at the first handle that fails to load. */
  lemma {:induction false} RebuildFailurePersists(loaded: TypeLoader,
                                                  items: seq<ManifestItem>, k: nat, init: Option<string>, e: Error)
    requires k <= |items|
    requires RebuildSource(loaded, items[..k], init) == Failure(e)
    ensures RebuildSource(loaded, items, init) == Failure(e)
    decreases |items|
  {
    if k == |items| {
      assert items[..k] == items;
    } else {
      var n := |items| - 1;
      assert items[..n][..k] == items[..k];
      RebuildFailurePersists(loaded, items[..n], k, init, e);
    }
  }

  /** Removing a payload's blob leaves the manifest blob and the payload's own sidecar
      in place, unless the PID is the manifest's own name. */
  lemma {:induction false} RemovalKeepsManifestAndSidecar(blobs: map<string, Blob>, oid: string, pid: string)
    requires pid != ManifestName
    ensures var after := blobs - {Location(oid, pid)};
            && (ManifestPath(oid) in blobs ==> ManifestPath(oid) in after && after[ManifestPath(oid)] == blobs[ManifestPath(oid)])
            && (SidecarPath(Location(oid, pid)) in blobs ==>
                  SidecarPath(Location(oid, pid)) in after && after[SidecarPath(Location(oid, pid))] == blobs[SidecarPath(Location(oid, pid))])
  {
    LocationsDiffer(oid, pid, ManifestName);
    SidecarPathDiffers(Location(oid, pid));
  }

  /** In native mode a payload named like the manifest is created over the manifest
      blob's path: a handle on `object-manifest` loads the manifest blob, whose empty
      user metadata passes, so the create goes on to write there and the manifest
      rewrite that follows replaces the payload's bytes. */
  lemma ManifestNameCollides(blobs: map<string, Blob>, oid: string, keys: set<string>,
                             sourceId: Option<string>, f: PayloadFields)
    requires ManifestPath(oid) in blobs && IsManifestBlob(blobs[ManifestPath(oid)], keys, sourceId)
    ensures Load(blobs, true, Location(oid, ManifestName), f)
              == Loaded(blobs[ManifestPath(oid)], PayloadFields(None, f.ptype, None), Pass)
  {
  }

  /** In sidecar mode the same create fails before writing: the manifest blob exists
      once the object is built, so the new handle loads it and finds no sidecar. */
  lemma ManifestNameCreateFails(blobs: map<string, Blob>, oid: string, f: PayloadFields)
    requires ManifestPath(oid) in blobs && SidecarPath(ManifestPath(oid)) !in blobs
    ensures Load(blobs, false, Location(oid, ManifestName), f) == Loaded(blobs[ManifestPath(oid)], f, Fail(MissingSidecar))
  {
  }

  /** In sidecar mode a payload named `pid + ".meta"` shares its path with the sidecar
      of payload `pid`: writing `pid` replaces that payload's bytes with the metadata. */
  lemma SidecarNameCollides(blobs: map<string, Blob>, oid: string, pid: string,
                            data: seq<byte>, md: map<string, string>)
    ensures Location(oid, pid + MetadataSuffix) in Written(blobs, false, Location(oid, pid), data, md)
    ensures Written(blobs, false, Location(oid, pid), data, md)[Location(oid, pid + MetadataSuffix)]
              == Blob(Properties(md), map[])
  {
    assert Location(oid, pid + MetadataSuffix) == SidecarPath(Location(oid, pid));
  }

  /** Rebuilding fails as soon as one listed PID fails to load, whatever comes before
      or after it. */
  lemma {:induction false} RebuildFailsOnItem(loaded: TypeLoader, items: seq<ManifestItem>, i: nat, init: Option<string>)
    requires i < |items| && loaded(items[i].name).Failure?
    ensures RebuildSource(loaded, items, init).Failure?
  {
    var r := RebuildSource(loaded, items[..i + 1], init);
    assert items[..i + 1][..i] == items[..i];
    assert r.Failure?;
    RebuildFailurePersists(loaded, items, i + 1, init, r.error);
  }

  /** In sidecar mode, removing the payload `pid + ".meta"` deletes payload `pid`'s
      sidecar, so every later fetch of an object whose manifest blob lists `pid` fails. */
  lemma RemovedSidecarBreaksFetch(blobs: map<string, Blob>, oid: string, pid: string, defaults: PayloadDefaults)
    requires ManifestPath(oid) in blobs && Location(oid, pid) in blobs
    requires exists i :: 0 <= i < |ItemsOf(blobs[ManifestPath(oid)].content)| && ItemsOf(blobs[ManifestPath(oid)].content)[i].name == pid
    ensures Rehydrate(blobs - {Location(oid, pid + MetadataSuffix)}, false, oid, defaults).Failure?
  {
    var removed := Location(oid, pid + MetadataSuffix);
    var after := blobs - {removed};
    assert (pid + MetadataSuffix)[|pid + MetadataSuffix| - 1] == 'a';
    LocationsDiffer(oid, pid + MetadataSuffix, ManifestName);
    assert removed == SidecarPath(Location(oid, pid));
    SidecarPathDiffers(Location(oid, pid));
    var items := ItemsOf(after[ManifestPath(oid)].content);
    var i :| 0 <= i < |items| && items[i].name == pid;
    assert LoadedType(after, false, oid, defaults, pid) == Failure(MissingSidecar);
    RebuildFailsOnItem(Loader(after, false, oid, defaults), items, i, None);
  }

  /** A removed PID that the manifest blob still lists is listed again when the
      object is rebuilt before anything rewrites the manifest blob. */
  lemma {:induction false} RemovedPidComesBack(blobs: map<string, Blob>, native: bool, oid: string, defaults: PayloadDefaults,
                                               keys: set<string>, sourceId: Option<string>, pid: string)
    requires pid != ManifestName && pid in ListedNames(keys)
    requires ManifestPath(oid) in blobs && IsManifestBlob(blobs[ManifestPath(oid)], keys, sourceId)
    ensures var after := blobs - {Location(oid, pid)};
            Rehydrate(after, native, oid, defaults).Success? ==> pid in Rehydrate(after, native, oid, defaults).value.keys
  {
    var after := blobs - {Location(oid, pid)};
    RemovalKeepsManifestAndSidecar(blobs, oid, pid);
    RehydrateSerialized(after, native, oid, defaults, keys, sourceId);
  }

  /** A payload created in an object is read back by a fresh handle with its bytes
      and metadata, after the manifest blob has been rewritten too. */
  lemma {:induction false} CreatedPayloadReloads(blobs: map<string, Blob>, after: map<string, Blob>, native: bool,
                                                 oid: string, pid: string, f: PayloadFields, linked: bool,
                                                 data: seq<byte>, g: PayloadFields)
    requires f.labelText.Some? && f.ptype.Some? && pid != ManifestName
    requires ManifestPath(oid) in after
    requires after - {ManifestPath(oid)} == Written(blobs, native, Location(oid, pid), data, MetadataMap(pid, f, linked)) - {ManifestPath(oid)}
    ensures Load(after, native, Location(oid, pid), g)
              == Loaded(Blob(Bytes(data), MetadataMap(pid, f, linked)),
                        PayloadFields(f.labelText, f.ptype, Some(ContentTypeOrDefault(f.contentType))), Pass)
  {
    var location := Location(oid, pid);
    var md := MetadataMap(pid, f, linked);
    var written := Written(blobs, native, location, data, md);
    var path := ManifestPath(oid);
    LocationsDiffer(oid, pid, ManifestName);
    SidecarIsNotManifest(oid, pid);
    assert location in written && written[location] == after[location] by {
      assert location in written - {path};
    }
    if !native {
      assert SidecarPath(location) in written && written[SidecarPath(location)] == after[SidecarPath(location)] by {
        assert SidecarPath(location) in written - {path};
      }
    }
    MetadataRoundTrip(blobs, native, oid, pid, f, linked, data, g);
    assert UserMetadata(after, native, location, after[location]) == UserMetadata(written, native, location, written[location]);
  }

  /** Updating a payload that an earlier write stored keeps that write's label and
      type: the fresh handle loads them before writing, and only the content type is
      sniffed anew. */
  lemma {:induction false} UpdateKeepsLabelAndType(prev: map<string, Blob>, native: bool, oid: string, pid: string,
                                                   f: PayloadFields, defaults: PayloadDefaults, earlier: seq<byte>,
                                                   data: seq<byte>, sniff: MimeSniffer)
    requires f.labelText.Some? && f.ptype.Some?
    ensures var location := Location(oid, pid);
            var blobs := Written(prev, native, location, earlier, MetadataMap(pid, f, defaults.linked));
            var l := Load(blobs, native, location, Initial(defaults));
            && l.status == Pass
            && WriteFields(l.fields, pid, data, true, sniff) == PayloadFields(f.labelText, f.ptype, Some(sniff(data, pid)))
  {
    MetadataRoundTrip(prev, native, oid, pid, f, defaults.linked, earlier, Initial(defaults));
  }

  /** The type a created payload is written with: Annotation for the indexer's
      metadata payload, Source for the first other payload, and otherwise the type
      its handle loaded (stored or default), or Source when that is unset. */
  lemma CreatedType(f: PayloadFields, pid: string, sourceId: Option<string>, data: seq<byte>, sniff: MimeSniffer)
    ensures var w := WriteFields(Classified(f, Classify(pid, sourceId)), pid, data, true, sniff);
            && (pid == MetadataPayload ==> w.ptype == Some(Annotation))
            && (pid != MetadataPayload && sourceId.None? ==> w.ptype == Some(Source))
            && (pid != MetadataPayload && sourceId.Some? ==> w.ptype == (if f.ptype.Some? then f.ptype else Some(Source)))
            && w.labelText == (if f.labelText.Some? then f.labelText else Some(pid))
  {
  }

  /** One digital object. `manifest` and `sourceId` are the base class's state. */
  class DigitalObject {
    const store: BlobStore
    const id: string
    const defaults: PayloadDefaults
    var manifest: map<string, Payload?>
    var sourceId: Option<string>

    /** The base constructor; the manifest is rebuilt by `BuildManifest`. */
    constructor (store: BlobStore, oid: string, defaults: PayloadDefaults)
      ensures this.store == store && id == oid && this.defaults == defaults
      ensures manifest == map[] && sourceId == None
    {
      this.store := store;
      id := oid;
      this.defaults := defaults;
      manifest := map[];
      sourceId := None;
    }

    /** Rehydrates a new object: writes "{}" when there is no manifest blob, otherwise
        puts a handle in the manifest for every listed item and records as source the
        items whose handles load as Source. */
    method BuildManifest() returns (r: Outcome<Error>)
      requires manifest == map[] && sourceId == None
      modifies this, store
      ensures store.directories == old(store.directories)
      ensures store.blobs == AfterRehydration(old(store.blobs), id)
      ensures match Rehydrate(old(store.blobs), store.supportsUserMetadata, id, defaults)
              case Failure(e) => r == Fail(e)
              case Success(h) => r == Pass && manifest.Keys == h.keys && sourceId == h.sourceId
    {
      var path := ManifestPath(id);
      var manifestBlob := store.GetBlob(path);
      if manifestBlob.None? {
        store.PutBlob(path, Blob(Json(None), map[]));
        return Pass;
      }
      r := AddHandles(ItemsOf(manifestBlob.value.content));
    }

    /** The loop of `BuildManifest`: a fresh handle per item, in order; an item whose
        handle loads as Source becomes the source. */
    method AddHandles(items: seq<ManifestItem>) returns (r: Outcome<Error>)
      requires manifest == map[] && sourceId == None
      modifies this
      ensures match RebuildSource(Loader(store.blobs, store.supportsUserMetadata, id, defaults), items, None)
              case Failure(e) => r == Fail(e)
              case Success(s) => r == Pass && manifest.Keys == NamesOf(items) && sourceId == s
    {
      var i := 0;
      while i < |items|
        invariant 0 <= i <= |items|
        invariant manifest.Keys == NamesOf(items[..i])
        invariant RebuildSource(Loader(store.blobs, store.supportsUserMetadata, id, defaults), items[..i], None) == Success(sourceId)
      {
        var name := items[i].name;
        RebuildStep(Loader(store.blobs, store.supportsUserMetadata, id, defaults), items, i, sourceId);
        var payload := new Payload(store, id, name, defaults);
        var t := payload.GetType();
        assert t == Loader(store.blobs, store.supportsUserMetadata, id, defaults)(name);
        if t.Failure? {
          RebuildFailurePersists(Loader(store.blobs, store.supportsUserMetadata, id, defaults), items, i + 1, None, t.error);
          return Fail(t.error);
        }
        if t.value == Some(Source) {
          sourceId := Some(name);
        }
        manifest := manifest[name := payload];
        i := i + 1;
      }
      assert items[..i] == items;
      r := Pass;
    }

    /** The effect of creating payload `pid` from `input`, shared by stored and linked creation. */
    twostate predicate StoredPayloadCreated(pid: Option<string>, input: Option<seq<byte>>, sniff: MimeSniffer,
                                            new r: Result<Payload, Error>)
      reads this, store, if r.Success? then {r.value} else {}
    {
      && store.directories == old(store.directories)
      && (pid.None? || input.None? ==> r == Failure(NullArgument))
      && (pid.Some? && input.Some? && pid.value in old(manifest) ==> r == Failure(DuplicatePid))
      && (r.Failure? ==> manifest == old(manifest) && sourceId == old(sourceId) && store.blobs == old(store.blobs))
      && (pid.Some? && input.Some? && pid.value !in old(manifest) ==>
            var p := pid.value;
            var location := Location(id, p);
            var loaded := Load(old(store.blobs), store.supportsUserMetadata, location, Initial(defaults));
            if loaded.status.Fail? then r == Failure(loaded.status.error)
            else
              var f := WriteFields(Classified(loaded.fields, Classify(p, old(sourceId))), p, input.value, true, sniff);
              var md := MetadataMap(p, f, defaults.linked);
              && r.Success? && fresh(r.value)
              && r.value.store == store && r.value.oid == id && r.value.id == p && r.value.Valid()
              && r.value.blob.None? && r.value.Current() == Initial(defaults)
              && manifest == old(manifest)[p := r.value]
              && sourceId == NextSourceId(p, old(sourceId))
              && ManifestPath(id) in store.blobs
              && IsManifestBlob(store.blobs[ManifestPath(id)], manifest.Keys, sourceId)
              && store.blobs - {ManifestPath(id)}
                   == Written(old(store.blobs), store.supportsUserMetadata, location, input.value, md) - {ManifestPath(id)})
    }

    /** Creates a payload: classifies it, writes it, adds a fresh handle to the
        manifest and rewrites the manifest blob. */
    method CreateStoredPayload(pid: Option<string>, input: Option<seq<byte>>, sniff: MimeSniffer) returns (r: Result<Payload, Error>)
      modifies this, store
      ensures StoredPayloadCreated(pid, input, sniff, r)
    {
      if pid.None? || input.None? {
        return Failure(NullArgument);
      }
      r := CreatePayload(pid.value, input.value, sniff);
    }

    method CreatePayload(pid: string, input: seq<byte>, sniff: MimeSniffer) returns (r: Result<Payload, Error>)
      modifies this, store
      ensures StoredPayloadCreated(Some(pid), Some(input), sniff, r)
    {
      if pid in manifest {
        return Failure(DuplicatePid);
      }
      var payload := new Payload(store, id, pid, defaults);
      if pid == MetadataPayload {
        var typed := payload.SetType(Annotation);
        if typed.Fail? {
          return Failure(typed.error);
        }
      } else if sourceId.None? {
        var typed := payload.SetType(Source);
        if typed.Fail? {
          return Failure(typed.error);
        }
        sourceId := Some(pid);
      }
      var written := payload.WritePayload(input, true, sniff);
      if written.Fail? {
        return Failure(written.error);
      }
      manifest := manifest[pid := null];
      r := GetPayload(Some(pid));
      if r.Success? {
        manifest := manifest[pid := r.value];
      }
      UpdateObjectManifest();
    }

    /** Linked payloads are ingested as stored ones: the file at `linkPath` is read
        from `files` and handed to `CreateStoredPayload`. */
    method CreateLinkedPayload(pid: Option<string>, linkPath: Option<string>, files: map<string, seq<byte>>, sniff: MimeSniffer)
      returns (r: Result<Payload, Error>)
      modifies this, store
      ensures linkPath.None? ==> r == Failure(NullLinkPath) && unchanged(this, store)
      ensures linkPath.Some? && linkPath.value !in files ==> r == Failure(FileNotFound) && unchanged(this, store)
      ensures linkPath.Some? && linkPath.value in files ==> StoredPayloadCreated(pid, Some(files[linkPath.value]), sniff, r)
    {
      if linkPath.None? {
        return Failure(NullLinkPath);
      }
      if linkPath.value !in files {
        return Failure(FileNotFound);
      }
      r := CreateStoredPayload(pid, Some(files[linkPath.value]), sniff);
    }

    /** A fresh, unloaded handle on a payload in the manifest. */
    method GetPayload(pid: Option<string>) returns (r: Result<Payload, Error>)
      ensures pid.None? ==> r == Failure(NullArgument)
      ensures pid.Some? && pid.value !in manifest ==> r == Failure(PidNotFound)
      ensures pid.Some? && pid.value in manifest ==>
                r.Success? && fresh(r.value) && r.value.store == store && r.value.oid == id && r.value.id == pid.value
                && r.value.Valid() && r.value.blob.None? && r.value.Current() == Initial(defaults)
    {
      if pid.None? {
        return Failure(NullArgument);
      }
      if pid.value !in manifest {
        return Failure(PidNotFound);
      }
      var payload := new Payload(store, id, pid.value, defaults);
      r := Success(payload);
    }

    /** Removes the manifest entry and the payload blob; the manifest blob, the
        sidecar and the source are left as they were. */
    method RemovePayload(pid: Option<string>) returns (r: Outcome<Error>)
      modifies this, store
      ensures store.directories == old(store.directories)
      ensures sourceId == old(sourceId)
      ensures pid.None? ==> r == Fail(NullArgument) && manifest == old(manifest) && store.blobs == old(store.blobs)
      ensures pid.Some? && pid.value !in old(manifest) ==> r == Fail(PidNotFound) && manifest == old(manifest) && store.blobs == old(store.blobs)
      ensures pid.Some? && pid.value in old(manifest) ==>
                r == Pass && manifest == old(manifest) - {pid.value} && store.blobs == old(store.blobs) - {Location(id, pid.value)}
    {
      if pid.None? {
        return Fail(NullArgument);
      }
      if pid.value !in manifest {
        return Fail(PidNotFound);
      }
      manifest := manifest - {pid.value};
      store.RemoveBlob(Location(id, pid.value));
      r := Pass;
    }

    /** Overwrites a payload through a fresh handle, which loads the stored metadata
        before writing, and puts a new handle in the manifest. */
    method UpdatePayload(pid: Option<string>, input: Option<seq<byte>>, sniff: MimeSniffer) returns (r: Result<Payload, Error>)
      modifies this, store
      ensures store.directories == old(store.directories)
      ensures sourceId == old(sourceId)
      ensures pid.None? || input.None? ==> r == Failure(NullArgument)
      ensures pid.Some? && input.Some? && pid.value !in old(manifest) ==> r == Failure(PidNotFound)
      ensures r.Failure? ==> manifest == old(manifest) && store.blobs == old(store.blobs)
      ensures pid.Some? && input.Some? && pid.value in old(manifest) ==>
                var location := Location(id, pid.value);
                var loaded := Load(old(store.blobs), store.supportsUserMetadata, location, Initial(defaults));
                if loaded.status.Fail? then r == Failure(loaded.status.error)
                else
                  var md := MetadataMap(pid.value, WriteFields(loaded.fields, pid.value, input.value, true, sniff), defaults.linked);
                  && r.Success? && fresh(r.value) && r.value.id == pid.value && r.value.store == store && r.value.Valid()
                  && r.value.blob.None? && r.value.Current() == Initial(defaults)
                  && manifest == old(manifest)[pid.value := r.value]
                  && store.blobs == Written(old(store.blobs), store.supportsUserMetadata, location, input.value, md)
    {
      if pid.None? || input.None? {
        return Failure(NullArgument);
      }
      if pid.value !in manifest {
        return Failure(PidNotFound);
      }
      var payload := new Payload(store, id, pid.value, defaults);
      var written := payload.WritePayload(input.value, true, sniff);
      if written.Fail? {
        return Failure(written.error);
      }
      r := GetPayload(pid);
      if r.Success? {
        manifest := manifest[pid.value := r.value];
      }
    }

    /** Rewrites the manifest blob from the manifest's keys and the source. */
    method UpdateObjectManifest()
      modifies store
      ensures store.directories == old(store.directories)
      ensures ManifestPath(id) in store.blobs && IsManifestBlob(store.blobs[ManifestPath(id)], manifest.Keys, sourceId)
      ensures store.blobs - {ManifestPath(id)} == old(store.blobs) - {ManifestPath(id)}
    {
      var items := SerializeManifest(manifest.Keys, sourceId);
      store.PutBlob(ManifestPath(id), Blob(Json(Some(items)), map[]));
    }
  }

  /** Content round-trip through an object: once a create succeeds, opening the handle
      it returns yields the bytes written, for any payload not named like the manifest. */
  method CreateThenOpen(obj: DigitalObject, pid: string, data: seq<byte>, sniff: MimeSniffer)
    returns (c: Result<Payload, Error>, r: Result<Content, Error>)
    requires pid != ManifestName
    modifies obj, obj.store
    ensures c.Success? ==> r == Success(Bytes(data))
  {
    ghost var before := obj.store.blobs;
    ghost var sourceId := obj.sourceId;
    c := obj.CreateStoredPayload(Some(pid), Some(data), sniff);
    if c.Failure? {
      return c, Failure(c.error);
    }
    ghost var loaded := Load(before, obj.store.supportsUserMetadata, Location(obj.id, pid), Initial(obj.defaults));
    ghost var f := WriteFields(Classified(loaded.fields, Classify(pid, sourceId)), pid, data, true, sniff);
    CreatedPayloadReloads(before, obj.store.blobs, obj.store.supportsUserMetadata, obj.id, pid, f,
                          obj.defaults.linked, data, Initial(obj.defaults));
    r := c.value.Open();
  }
}
