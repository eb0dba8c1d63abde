/** The storage plugin: objects are directories of the configured container. */
module Storage {
  import opened Wrappers
  import opened Api
  import opened Backend
  import opened Payloads
  import opened Objects

  const PluginId := "blobstore"
  const PluginName := "Blobstore Storage Plugin"

  /** A listing entry that names an object: a folder or a relative path. */
  predicate IsObjectEntry(e: StorageMetadata)
  {
    e.kind == Folder || e.kind == RelativePath
  }

  predicate NoSlash(s: string)
  {
    forall i :: 0 <= i < |s| ==> s[i] != '/'
  }

  /** Deleting one object's directory leaves every payload path of another object
      alone, as long as neither identifier contains a '/'. */
  lemma {:induction false} RemovalIsolated(oid: string, other: string, pid: string)
    requires NoSlash(oid) && NoSlash(other) && oid != other
    ensures !(oid + "/" <= Location(other, pid))
  {
    var path := Location(other, pid);
    if |oid| < |other| {
      assert path[|oid|] == other[|oid|];
    } else if |oid| > |other| {
      assert path[|other|] == '/';
    } else {
      assert path[..|oid|] == other;
    }
  }

  /** Removing an object keeps the blobs of every other object. */
  lemma {:induction false} RemoveObjectKeepsOthers(blobs: map<string, Blob>, oid: string, other: string, pid: string)
    requires NoSlash(oid) && NoSlash(other) && oid != other
    requires Location(other, pid) in blobs
    ensures Location(other, pid) in WithoutDirectory(blobs, oid)
    ensures WithoutDirectory(blobs, oid)[Location(other, pid)] == blobs[Location(other, pid)]
  {
    RemovalIsolated(oid, other, pid);
  }

  /** Fetching an object twice rebuilds the same manifest and source, and the second
      fetch writes nothing. */
  lemma RehydrationIdempotent(blobs: map<string, Blob>, native: bool, oid: string, defaults: PayloadDefaults)
    ensures AfterRehydration(AfterRehydration(blobs, oid), oid) == AfterRehydration(blobs, oid)
    ensures Rehydrate(AfterRehydration(blobs, oid), native, oid, defaults) == Rehydrate(blobs, native, oid, defaults)
  {
    var path := ManifestPath(oid);
    if path !in blobs {
      var after := AfterRehydration(blobs, oid);
      assert ItemsOf(after[path].content) == [];
      assert NamesOf([]) == {};
    }
  }

  /** The plugin. `defaults` is what a fresh payload handle reports before it loads. */
  class BlobStoreStorage {
    const store: BlobStore
    const defaults: PayloadDefaults

    constructor (store: BlobStore, defaults: PayloadDefaults)
      ensures this.store == store && this.defaults == defaults
    {
      this.store := store;
      this.defaults := defaults;
    }

    /** The object in `oid`'s directory, rebuilt from its manifest blob. */
    twostate predicate Fetched(oid: string, new r: Result<DigitalObject, Error>)
      reads this, store, if r.Success? then {r.value} else {}
    {
      && store.blobs == AfterRehydration(old(store.blobs), oid)
      && match Rehydrate(old(store.blobs), store.supportsUserMetadata, oid, defaults)
         case Failure(e) => r == Failure(e)
         case Success(h) =>
           && r.Success? && fresh(r.value)
           && r.value.store == store && r.value.id == oid && r.value.defaults == defaults
           && r.value.manifest.Keys == h.keys && r.value.sourceId == h.sourceId
    }

    /** Constructs an object handle and rebuilds its manifest; a load failure while
        rebuilding escapes the construction. */
    method NewObject(oid: string) returns (r: Result<DigitalObject, Error>)
      modifies store
      ensures store.directories == old(store.directories)
      ensures Fetched(oid, r)
    {
      var obj := new DigitalObject(store, oid, defaults);
      var built := obj.BuildManifest();
      if built.Fail? {
        return Failure(built.error);
      }
      r := Success(obj);
    }

    /** Creates the object's directory, then rebuilds the object from whatever the
        store already holds under that prefix. */
    method CreateObject(oid: Option<string>) returns (r: Result<DigitalObject, Error>)
      modifies store
      ensures oid.None? ==> r == Failure(NullArgument) && unchanged(store)
      ensures oid.Some? && oid.value in old(store.directories) ==> r == Failure(DuplicateOid) && unchanged(store)
      ensures oid.Some? && oid.value !in old(store.directories) ==>
                store.directories == old(store.directories) + {oid.value} && Fetched(oid.value, r)
    {
      if oid.None? {
        return Failure(NullArgument);
      }
      var known := store.DirectoryExists(oid.value);
      if known {
        return Failure(DuplicateOid);
      }
      store.CreateDirectory(oid.value);
      r := NewObject(oid.value);
    }

    method GetObject(oid: Option<string>) returns (r: Result<DigitalObject, Error>)
      modifies store
      ensures store.directories == old(store.directories)
      ensures oid.None? ==> r == Failure(NullArgument) && unchanged(store)
      ensures oid.Some? && oid.value !in old(store.directories) ==> r == Failure(OidNotFound) && unchanged(store)
      ensures oid.Some? && oid.value in old(store.directories) ==> Fetched(oid.value, r)
    {
      if oid.None? {
        return Failure(NullArgument);
      }
      var known := store.DirectoryExists(oid.value);
      if !known {
        return Failure(OidNotFound);
      }
      r := NewObject(oid.value);
    }

    /** Deletes the object's directory with everything under it. */
    method RemoveObject(oid: Option<string>) returns (r: Outcome<Error>)
      modifies store
      ensures oid.None? ==> r == Fail(NullArgument) && unchanged(store)
      ensures oid.Some? && oid.value !in old(store.directories) ==> r == Fail(OidNotFound) && unchanged(store)
      ensures oid.Some? && oid.value in old(store.directories) ==>
                && r == Pass
                && oid.value !in store.directories
                && store.directories == set d | d in old(store.directories) && d != oid.value && !(oid.value + "/" <= d)
                && store.blobs == WithoutDirectory(old(store.blobs), oid.value)
    {
      if oid.None? {
        return Fail(NullArgument);
      }
      var known := store.DirectoryExists(oid.value);
      if !known {
        return Fail(OidNotFound);
      }
      store.DeleteDirectory(oid.value);
      r := Pass;
    }

    /** The names of the folder and relative-path entries of the container listing;
        a listing that fails yields no identifiers. */
    method GetObjectIdList(listing: Result<seq<StorageMetadata>, Error>) returns (ids: set<string>)
      ensures listing.Failure? ==> ids == {}
      ensures listing.Success? ==>
                (forall id :: id in ids <==> exists e :: e in listing.value && IsObjectEntry(e) && e.name == id)
    {
      ids := {};
      if listing.Failure? {
        return;
      }
      var entries := listing.value;
      var i := 0;
      while i < |entries|
        invariant 0 <= i <= |entries|
        invariant forall id :: id in ids <==> exists k :: 0 <= k < i && IsObjectEntry(entries[k]) && entries[k].name == id
      {
        if IsObjectEntry(entries[i]) {
          ids := ids + {entries[i].name};
        }
        i := i + 1;
      }
      forall id | id in ids
        ensures exists e :: e in entries && IsObjectEntry(e) && e.name == id
      {
        var k :| 0 <= k < |entries| && IsObjectEntry(entries[k]) && entries[k].name == id;
        assert entries[k] in entries;
      }
      forall id | exists e :: e in entries && IsObjectEntry(e) && e.name == id
        ensures id in ids
      {
        var e :| e in entries && IsObjectEntry(e) && e.name == id;
        var k :| 0 <= k < |entries| && entries[k] == e;
      }
    }
  }
}
