/** Backend listing records and the framework's object representation, and
    the conversion of a file record into an object. */
module Objects {
  import opened Wrappers
  import opened Service

  /** The record the SDK delivers for each listed or stat-ed entry. `time` is
      an opaque timestamp; `meta` holds the user metadata headers. */
  datatype FileInfo = FileInfo(
    name: string,
    isDir: bool,
    size: int,
    time: int,
    meta: map<string, string>,
    md5: string,
    contentType: string)

  /** Mode bits of an object. */
  datatype Mode = Read | Dir

  /** The framework's object. `done` is the flag given to `NewObject`; an
      optional field is `None` until its setter is called. */
  datatype Object = Object(
    id: string,
    path: string,
    mode: set<Mode>,
    done: bool,
    contentLength: Option<int>,
    lastModified: Option<int>,
    serviceMetadata: Option<map<string, string>>,
    userMetadata: Option<map<string, string>>,
    etag: Option<string>,
    contentType: Option<string>)

  /** A directory object never carries size, hash or content type, and every
      object is readable or a directory. */
  predicate ShapeOk(o: Object) {
    && (Dir in o.mode ==> o.contentLength.None? && o.etag.None? && o.contentType.None?)
    && (Read in o.mode || Dir in o.mode)
  }

  /** `formatFileObject`: a readable object whose id is the record's name and
      whose path is that name relative to the root; size, time and service
      metadata are copied, and the hash and content type are set only when
      they are not empty. */
  function FormatFileObject(s: Storage, v: FileInfo): (o: Object)
    ensures o.id == v.name && o.path == RelPath(s, v.name)
    ensures o.mode == {Read} && !o.done
    ensures o.contentLength == Some(v.size) && o.lastModified == Some(v.time)
    ensures o.serviceMetadata == Some(v.meta) && o.userMetadata.None?
    ensures o.etag.Some? <==> v.md5 != ""
    ensures o.contentType.Some? <==> v.contentType != ""
    ensures o.etag.Some? ==> o.etag.value == v.md5
    ensures o.contentType.Some? ==> o.contentType.value == v.contentType
  {
    Object(
      id := v.name,
      path := RelPath(s, v.name),
      mode := {Read},
      done := false,
      contentLength := Some(v.size),
      lastModified := Some(v.time),
      serviceMetadata := Some(v.meta),
      userMetadata := None,
      etag := if v.md5 != "" then Some(v.md5) else None,
      contentType := if v.contentType != "" then Some(v.contentType) else None)
  }

  /** The record a file object was made from, read back from the object: an
      absent hash or content type reads as the empty string. */
  function FileRecordOf(o: Object): FileInfo {
    FileInfo(
      o.id,
      Dir in o.mode,
      o.contentLength.GetOr(0),
      o.lastModified.GetOr(0),
      o.serviceMetadata.GetOr(map[]),
      o.etag.GetOr(""),
      o.contentType.GetOr(""))
  }

  /** Formatting a file record loses nothing: the record can be read back
      from the object, so leaving out an empty hash or content type is the
      same as keeping it empty. */
  lemma FileRecordRoundTrip(s: Storage, v: FileInfo)
    requires !v.isDir
    ensures FileRecordOf(FormatFileObject(s, v)) == v
  {
  }

  /** File objects have the object shape, and their id is recovered from
      their path exactly when the record's name lies under the root. */
  lemma FileObjectShape(s: Storage, v: FileInfo)
    ensures ShapeOk(FormatFileObject(s, v))
    ensures Dir !in FormatFileObject(s, v).mode
    ensures AbsPath(s, FormatFileObject(s, v).path) == v.name <==> Root(s) <= v.name
  {
    AbsOfRel(s, v.name);
  }
}
