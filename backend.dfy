/** The blob-store backend as the adapter sees it: one container of blobs addressed
    by path, the directory markers of backends with folder semantics, and the two
    settings the client exposes. */
module Backend {
  import opened Wrappers

  newtype byte = b: int | 0 <= b < 256

  /** One entry of the object manifest's "items" array. */
  datatype ManifestItem = ManifestItem(name: string, kind: string)

  /** What a blob's payload holds. Text formats are not modelled: a sidecar holds the
      properties themselves, and a manifest its items (`None` is the document "{}"). */
  datatype Content =
    | NoPayload
    | Bytes(data: seq<byte>)
    | Properties(props: map<string, string>)
    | Json(items: Option<seq<ManifestItem>>)

  datatype Blob = Blob(content: Content, userMetadata: map<string, string>)

  /** The kinds of entry a container listing reports. */
  datatype StorageType = BlobEntry | Folder | RelativePath | ContainerEntry

  datatype StorageMetadata = StorageMetadata(name: string, kind: StorageType)

  predicate EndsWith(s: string, suffix: string)
  {
    |suffix| <= |s| && s[|s| - |suffix|..] == suffix
  }

  /** The blobs that remain once the directory `dir` has been deleted. */
  function WithoutDirectory(blobs: map<string, Blob>, dir: string): map<string, Blob>
  {
    map p | p in blobs && !(dir + "/" <= p) :: blobs[p]
  }

  /** The backend with the configured container: `containerName` and
      `supportsUserMetadata` are fixed once the client is initialised. */
  class BlobStore {
    const containerName: string
    const supportsUserMetadata: bool
    var blobs: map<string, Blob>
    var directories: set<string>

    constructor (containerName: string, supportsUserMetadata: bool)
      ensures this.containerName == containerName
      ensures this.supportsUserMetadata == supportsUserMetadata
      ensures blobs == map[] && directories == {}
    {
      this.containerName := containerName;
      this.supportsUserMetadata := supportsUserMetadata;
      blobs := map[];
      directories := {};
    }

    method BlobExists(path: string) returns (b: bool)
      ensures b <==> path in blobs
    {
      b := path in blobs;
    }

    method GetBlob(path: string) returns (r: Option<Blob>)
      ensures path in blobs ==> r == Some(blobs[path])
      ensures path !in blobs ==> r == None
    {
      r := if path in blobs then Some(blobs[path]) else None;
    }

    /** Writes the blob, replacing any blob at that path. */
    method PutBlob(path: string, blob: Blob)
      modifies this
      ensures blobs == old(blobs)[path := blob]
      ensures directories == old(directories)
    {
      blobs := blobs[path := blob];
    }

    method RemoveBlob(path: string)
      modifies this
      ensures blobs == old(blobs) - {path}
      ensures directories == old(directories)
    {
      blobs := blobs - {path};
    }

    method DirectoryExists(dir: string) returns (b: bool)
      ensures b <==> dir in directories
    {
      b := dir in directories;
    }

    method CreateDirectory(dir: string)
      modifies this
      ensures directories == old(directories) + {dir}
      ensures blobs == old(blobs)
    {
      directories := directories + {dir};
    }

    /** Deletes the directory, the directories under it and every blob under it. */
    method DeleteDirectory(dir: string)
      modifies this
      ensures directories == set d | d in old(directories) && d != dir && !(dir + "/" <= d)
      ensures blobs == WithoutDirectory(old(blobs), dir)
    {
      directories := set d | d in directories && d != dir && !(dir + "/" <= d);
      blobs := WithoutDirectory(blobs, dir);
    }
  }
}
