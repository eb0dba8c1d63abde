# Blobstore storage plugin: object-to-blob mapping

This project models how The Fascinator's blobstore storage plugin stores digital
objects in a flat blob store. It covers the three classes of the mapping layer.
The backend is an in-memory store: a map from path to blob and a set of directory
names. The container name and the "supports user metadata" switch are constants
of the store.

- **Payloads** (`payload.dfy`, `BlobStorePayload`). A payload `pid` of object
  `oid` is the blob `oid/pid`. Its label, type and content type travel as a
  five-key metadata map. In native mode the map is the blob's user metadata.
  Otherwise it is also written to a sidecar blob `oid/pid.meta`. A handle loads
  the stored metadata at most once, the first time an accessor needs it.
- **Digital objects** (`digital_object.dfy`, `BlobStoreDigitalObject`). An
  object holds a manifest, which maps each PID to a payload handle, and the PID of
  its source payload. It persists the manifest as the item list in
  `oid/object-manifest` and rebuilds it from that list when it is constructed.
- **Storage** (`storage.dfy`, `BlobStoreStorage`). This facade creates, fetches
  and removes objects as directories of the container. It also lists object
  identifiers from a container listing.

`backend.dfy` holds the store, `api.dfy` the payload types and error kinds, and
`wrappers.dfy` the Option, Result and Outcome types.

Java `null` arguments are `Option` values. Exceptions are `Failure`/`Fail`
results carrying an error kind. This includes the unchecked ones:
- the `RuntimeException` that wraps a failed load in the accessors;
- `IllegalArgumentException` from `PayloadType.valueOf`;
- the null dereference when a sidecar is missing.

Behaviour of the code that the model keeps as written:
- `createObject` rejects only a null identifier, so an empty one is accepted.
- A payload other than the indexer's metadata payload that is created while a
  source is recorded gets no type from the object. The source stays recorded
  even after the source payload is removed, so no later payload becomes the
  recorded source.
  Such a payload keeps its stored type, or the base payload's default type. A
  type that is still unset becomes Source when it is written, not "other".
- `removePayload` does not rewrite the manifest blob. A removed PID therefore
  comes back, without its blob, when the object is rebuilt before a create on it
  rewrites the manifest blob from the in-memory keys (`RemovedPidComesBack`).
- A payload named `object-manifest` shares its path with the manifest blob. In
  native mode, the new handle loads the manifest blob without error, because its
  empty user metadata is valid (`ManifestNameCollides`). The create therefore goes on
  to write there, and the rewritten manifest then replaces the payload's bytes. In sidecar mode, the create fails before writing
  anything: the new handle loads the manifest blob and finds no sidecar for it
  (`ManifestNameCreateFails`).
- In sidecar mode, a payload named `x.meta` shares its path with the sidecar of
  payload `x`. Writing `x` replaces the bytes of `x.meta` with `x`'s metadata
  (`SidecarNameCollides`). Removing `x.meta` deletes `x`'s sidecar, and from then
  on every fetch of the object fails while the manifest blob lists `x` and its blob
  remains (`RemovedSidecarBreaksFetch`).
- Fetching an object that has no manifest blob writes the empty manifest `{}`.
  So `getObject` can change the store.
- `buildManifest` takes the source from the type each item's handle loads. It
  ignores the `type` field of the manifest items.

## Model

| member | source | states |
|---|---|---|
| Api.ParseType | src/main/java/com/googlecode/fascinator/storage/jclouds/BlobStorePayload.java:78-80 | `PayloadType.valueOf` inverts the type names: it returns the type whose name is the string, or fails when none has it |
| Payloads.Load | src/main/java/com/googlecode/fascinator/storage/jclouds/BlobStorePayload.java:71-91 | an absent blob yields an empty blob and leaves the fields alone; a present blob is held even when its metadata fails to load, and a failed load changes no field; loading fails with the metadata's own error (a missing sidecar) when the metadata cannot be read, and otherwise fails, with UnknownPayloadType, exactly when the stored payloadtype is non-empty and names no type; a successful load replaces the type only when the stored payloadtype is non-empty, and always replaces the label and content type with the stored ones, possibly with nothing |
| Payloads.WriteFields | src/main/java/com/googlecode/fascinator/storage/jclouds/BlobStorePayload.java:254-268 | before a write, an unset label becomes the PID and an unset type becomes Source, while set ones are kept; the content type is sniffed from the bytes only when asked |
| Payloads.MetadataMap | src/main/java/com/googlecode/fascinator/storage/jclouds/BlobStorePayload.java:272-285 | the metadata map has exactly the keys id, payloadtype, label, linked and contenttype, with id the PID, linked the flag as text, and contenttype the content type or application/octet-stream |
| Payloads.MetadataRoundTrip | src/main/java/com/googlecode/fascinator/storage/jclouds/BlobStorePayload.java:71-109 | in both metadata modes, a fresh handle loading a just-written payload gets the written bytes, label and type, and the content type or its default |
| Payloads.Payload.constructor | src/main/java/com/googlecode/fascinator/storage/jclouds/BlobStorePayload.java:65-69 | the handle's path is `oid/pid`, nothing is loaded, and the fields are the base payload's defaults |
| Payloads.Payload.GetUserMetadata | src/main/java/com/googlecode/fascinator/storage/jclouds/BlobStorePayload.java:93-109 | the stored metadata is the blob's own user metadata in native mode, otherwise the properties of `oid/pid.meta`, and it fails when that sidecar is missing |
| Payloads.Payload.LoadBlob | src/main/java/com/googlecode/fascinator/storage/jclouds/BlobStorePayload.java:71-91 | loading sets the held blob and fields as `Load` does, and writes nothing to the store |
| Payloads.Payload.GetLabel | src/main/java/com/googlecode/fascinator/storage/jclouds/BlobStorePayload.java:205-215 | loads only while no blob is held, and leaves the handle unchanged once one is held |
| Payloads.Payload.GetType | src/main/java/com/googlecode/fascinator/storage/jclouds/BlobStorePayload.java:217-227 | loads only while no blob is held, and returns the loaded type or the load's failure |
| Payloads.Payload.SetType | src/main/java/com/googlecode/fascinator/storage/jclouds/BlobStorePayload.java:229-239 | loads first if needed, so a later load cannot overwrite the type set; on a failed load the type is not set |
| Payloads.Payload.GetContentType | src/main/java/com/googlecode/fascinator/storage/jclouds/BlobStorePayload.java:241-251 | loads only while no blob is held, and returns the loaded content type |
| Payloads.Payload.Open | src/main/java/com/googlecode/fascinator/storage/jclouds/BlobStorePayload.java:118-129 | returns the held blob's content after loading if needed; a payload with no blob in the store has no content |
| Payloads.Payload.WritePayload | src/main/java/com/googlecode/fascinator/storage/jclouds/BlobStorePayload.java:253-303 | loads the stored metadata, then puts the bytes with the metadata map at `oid/pid`, and the sidecar too exactly in sidecar mode; the blob is held afterwards, and a failed load writes nothing |
| Payloads.Payload.WritePayloadMetadata | src/main/java/com/googlecode/fascinator/storage/jclouds/BlobStorePayload.java:305-321 | puts `oid/pid.meta` holding the same key/value pairs as the metadata map, and changes no other blob |
| Payloads.CopyProperties | src/main/java/com/googlecode/fascinator/storage/jclouds/BlobStorePayload.java:306-309 | the properties table filled key by key holds exactly the map's entries |
| Objects.CreateThenOpen | src/main/java/com/googlecode/fascinator/storage/jclouds/BlobStoreDigitalObject.java:88-111 | opening the handle a successful create returns yields the bytes written, for any PID other than object-manifest |
| Payloads.WriteThenOpen | src/main/java/com/googlecode/fascinator/storage/jclouds/BlobStorePayload.java:119-124 | after a successful write, opening the same handle yields the written bytes, and the content type is the sniffed one or the one held before |
| Objects.Classify | src/main/java/com/googlecode/fascinator/storage/jclouds/BlobStoreDigitalObject.java:95-101 | TF-OBJ-META is an Annotation, another payload is the Source while no source is recorded, and otherwise it gets no type from the object |
| Objects.NextSourceId | src/main/java/com/googlecode/fascinator/storage/jclouds/BlobStoreDigitalObject.java:98-101 | once set, the source is never reassigned by a create; it changes only to the PID that is classified as Source |
| Objects.CreatedType | src/main/java/com/googlecode/fascinator/storage/jclouds/BlobStoreDigitalObject.java:95-103 | the type a created payload is written with is Annotation, Source, or the loaded type defaulted to Source, and its label is the loaded label or the PID |
| Objects.SerializeManifest | src/main/java/com/googlecode/fascinator/storage/jclouds/BlobStoreDigitalObject.java:253-272 | the manifest items are one per key not ending in ".meta", without repeats, and typed Source exactly when the name is the source and "other" otherwise |
| Objects.SerializedSourceUnique | src/main/java/com/googlecode/fascinator/storage/jclouds/BlobStoreDigitalObject.java:259-272 | at most one serialised item is typed Source, and there is one exactly when the source is a listed PID |
| Objects.RebuiltSourceIsLastSource | src/main/java/com/googlecode/fascinator/storage/jclouds/BlobStoreDigitalObject.java:237-245 | a rebuilt source is the last item whose handle loads as Source, or the initial one when no item does |
| Objects.RebuildFailurePersists | src/main/java/com/googlecode/fascinator/storage/jclouds/BlobStoreDigitalObject.java:237-245 | a handle that fails to load aborts rebuilding with that failure |
| Objects.RehydrateSerialized | src/main/java/com/googlecode/fascinator/storage/jclouds/BlobStoreDigitalObject.java:221-277 | rebuilding from a manifest blob that was serialised yields exactly the keys not ending in ".meta", and a source that is one of them and loads as Source |
| Objects.RebuildFailsOnItem | src/main/java/com/googlecode/fascinator/storage/jclouds/BlobStoreDigitalObject.java:237-245 | rebuilding fails whenever any listed PID's handle fails to load, wherever it is listed |
| Objects.SidecarNameCollides | src/main/java/com/googlecode/fascinator/storage/jclouds/BlobStorePayload.java:305-318 | in sidecar mode, writing payload `pid` puts its metadata at the path of payload `pid.meta`, replacing that payload's bytes |
| Objects.RemovedSidecarBreaksFetch | src/main/java/com/googlecode/fascinator/storage/jclouds/BlobStorePayload.java:98-105 | in sidecar mode, once payload `pid.meta` is removed, rebuilding an object whose manifest blob lists `pid`, whose blob remains, fails |
| Objects.RemovalKeepsManifestAndSidecar | src/main/java/com/googlecode/fascinator/storage/jclouds/BlobStoreDigitalObject.java:174-189 | removing a payload's blob leaves the manifest blob and the payload's sidecar as they were, for any PID other than the manifest's own name |
| Objects.ManifestNameCollides | src/main/java/com/googlecode/fascinator/storage/jclouds/BlobStorePayload.java:71-91 | in native mode, a handle on object-manifest loads the manifest blob without error and holds no label, no content type and its prior type, so the create proceeds to write over the manifest's path |
| Objects.ManifestNameCreateFails | src/main/java/com/googlecode/fascinator/storage/jclouds/BlobStorePayload.java:71-105 | in sidecar mode, a handle on object-manifest loads the manifest blob and fails for want of its sidecar, so the create writes nothing |
| Objects.RemovedPidComesBack | src/main/java/com/googlecode/fascinator/storage/jclouds/BlobStoreDigitalObject.java:174-189 | a removed PID still listed by the manifest blob is in the manifest again when the object is rebuilt before that blob is rewritten |
| Objects.CreatedPayloadReloads | src/main/java/com/googlecode/fascinator/storage/jclouds/BlobStoreDigitalObject.java:103-108 | after a create, a fresh handle reads back the payload's bytes and metadata, the rewritten manifest blob notwithstanding, for any PID other than object-manifest |
| Objects.UpdateKeepsLabelAndType | src/main/java/com/googlecode/fascinator/storage/jclouds/BlobStoreDigitalObject.java:212-214 | updating a payload keeps the label and type of the earlier write, and only the content type is sniffed anew |
| Objects.DigitalObject.BuildManifest | src/main/java/com/googlecode/fascinator/storage/jclouds/BlobStoreDigitalObject.java:221-251 | with no manifest blob it writes "{}" and the manifest stays empty; otherwise the manifest's keys are the item names and the source is the last item loading as Source, or the first load failure is returned |
| Objects.DigitalObject.AddHandles | src/main/java/com/googlecode/fascinator/storage/jclouds/BlobStoreDigitalObject.java:236-246 | the loop over the items adds one handle per name and records the source as `RebuildSource` defines it |
| Objects.DigitalObject.CreateStoredPayload | src/main/java/com/googlecode/fascinator/storage/jclouds/BlobStoreDigitalObject.java:77-86 | a null PID or stream fails with nothing changed; otherwise it is a create, returning a fresh handle that holds no blob yet and reports the base payload's defaults |
| Objects.DigitalObject.CreatePayload | src/main/java/com/googlecode/fascinator/storage/jclouds/BlobStoreDigitalObject.java:88-111 | a duplicate PID fails with nothing changed; otherwise the payload is classified and written, the manifest gains the PID with the returned handle, which is fresh, holds no blob yet and reports the base payload's defaults (the handle `getPayload` builds), the source advances as `NextSourceId` says, and the manifest blob lists the new keys |
| Objects.DigitalObject.CreateLinkedPayload | src/main/java/com/googlecode/fascinator/storage/jclouds/BlobStoreDigitalObject.java:128-137 | a linked payload is the file's bytes created as a stored payload, with the same fresh unloaded handle returned; a missing file fails with nothing changed |
| Objects.DigitalObject.GetPayload | src/main/java/com/googlecode/fascinator/storage/jclouds/BlobStoreDigitalObject.java:149-163 | a null or unknown PID fails; otherwise it returns a fresh, unloaded handle on `oid/pid`, and nothing changes |
| Objects.DigitalObject.RemovePayload | src/main/java/com/googlecode/fascinator/storage/jclouds/BlobStoreDigitalObject.java:174-189 | a null or unknown PID fails with nothing changed; otherwise exactly that key and the blob `oid/pid` go, and the source is kept |
| Objects.DigitalObject.UpdatePayload | src/main/java/com/googlecode/fascinator/storage/jclouds/BlobStoreDigitalObject.java:203-219 | a null argument or unknown PID fails; otherwise the payload is rewritten from its loaded metadata, the key set stays the same, the source is kept, and the returned handle is a fresh one that holds no blob yet and reports the base payload's defaults |
| Objects.DigitalObject.UpdateObjectManifest | src/main/java/com/googlecode/fascinator/storage/jclouds/BlobStoreDigitalObject.java:253-277 | the manifest blob is replaced by the serialised manifest, and no other blob changes |
| Storage.RemovalIsolated | src/main/java/com/googlecode/fascinator/storage/jclouds/BlobStoreStorage.java:306-312 | for identifiers without '/', deleting one object's directory does not reach another object's payload paths |
| Storage.RemoveObjectKeepsOthers | src/main/java/com/googlecode/fascinator/storage/jclouds/BlobStoreStorage.java:306-312 | removing an object keeps every payload blob of every other object, for identifiers without '/'; an object `a/b` loses its blobs when `a` is removed, since only a null identifier is rejected |
| Storage.RehydrationIdempotent | src/main/java/com/googlecode/fascinator/storage/jclouds/BlobStoreStorage.java:263-274 | fetching an object a second time writes nothing more and gives the same result, the same manifest and source or the same failure |
| Storage.BlobStoreStorage.NewObject | src/main/java/com/googlecode/fascinator/storage/jclouds/BlobStoreDigitalObject.java:55-62 | constructing an object rebuilds its manifest: the keys and source are those `Rehydrate` gives, "{}" is written when there is no manifest blob, and a load failure escapes the construction |
| Storage.BlobStoreStorage.CreateObject | src/main/java/com/googlecode/fascinator/storage/jclouds/BlobStoreStorage.java:236-251 | a null identifier or an existing directory fails with nothing changed; otherwise the directory is added and the object is rebuilt from what is stored under it |
| Storage.BlobStoreStorage.GetObject | src/main/java/com/googlecode/fascinator/storage/jclouds/BlobStoreStorage.java:263-274 | a null or unknown identifier fails; otherwise no directory is created and the object is rebuilt |
| Storage.BlobStoreStorage.RemoveObject | src/main/java/com/googlecode/fascinator/storage/jclouds/BlobStoreStorage.java:285-312 | a null or unknown identifier fails with nothing changed; otherwise the directory, those under it and every blob under it are gone |
| Storage.BlobStoreStorage.GetObjectIdList | src/main/java/com/googlecode/fascinator/storage/jclouds/BlobStoreStorage.java:320-338 | the identifiers are exactly the names of folder and relative-path entries of the listing, and none when listing fails |

## Left out

- BlobStoreClient.java is not part of this model: the connection, credentials,
  endpoints and the client cache. The container name and the user-metadata switch
  are constants of `Backend.BlobStore`.
- MIME sniffing is a function parameter (`MimeSniffer`).
- The text formats are left out. The sidecar holds the metadata map itself, not
  `java.util.Properties` text. The manifest holds a sequence of (name, type) items
  or nothing for `{}`, not JSON text. Malformed JSON, and items without a name,
  are not modelled.
- Streams are byte sequences. The IOException paths of reading a stream are not
  modelled.
- `close()`, `size()` and `lastModified()` are left out. They depend on
  backend-supplied lengths and timestamps, and `close()` re-reads its own stream.
- `synchronized` is not modelled: the model is single-threaded.
- The base classes GenericPayload and GenericDigitalObject are not part of this
  model. `Payloads.PayloadDefaults` stands for what a fresh payload starts with:
  its default type and whether it is linked. A fresh payload is taken to start
  with no label and no content type.
- PayloadType is taken to have the three values Source, Annotation and Other.
- Objects.SerializeManifest: the order of the items is left unspecified, because
  it follows the iteration order of a hash map's key set.
- Payloads.UserMetadata: a sidecar that is not a properties blob reads as empty.
  In sidecar mode, the payload blob's own user metadata is also kept by the store.
- `getId` and `getName` of the storage plugin are the constants
  `Storage.PluginId` and `Storage.PluginName`. `init`, `shutdown` and
  `getPluginDetails` are configuration plumbing and are left out.
- Payloads.WriteThenOpen: when the content type is not determined, the source
  gives the caller's stream itself to the held blob. Storing the blob consumes that
  stream, so opening the same handle again reads an exhausted stream. The model
  holds the written bytes instead, so a handle's content can be read again after a
  write. The fresh handle a create returns reads the bytes back from the store
  (`Objects.CreateThenOpen`).
- Payloads.Payload.WritePayload: the held blob is `Bytes(data)` in both branches,
  for the reason above; the source holds the consumed stream when the content type
  is not determined.
- Storage.BlobStoreStorage.GetObjectIdList takes the container listing as a
  parameter, with a failed listing as `Failure`. It does not compute the listing
  from the store.
