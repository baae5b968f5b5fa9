/** The storage-layer entities the core reads: JSON values, content files and
    object-versions, with Python's truthiness and `getattr(x, name, '')`. */
module Models {
  import opened Wrappers

  /** A JSON value as stored in a record document; `JUuid` is a Python
      `uuid.UUID` object kept in a dict before serialisation. */
  datatype Json =
    | JNull
    | JBool(b: bool)
    | JInt(i: int)
    | JStr(s: string)
    | JUuid(id: string)
    | JList(items: seq<Json>)
    | JObj(fields: map<string, Json>)

  /** Python's `bool(v)`: `None`, `False`, `0`, `''`, `[]` and `{}` are falsy;
      a `UUID` defines neither `__bool__` nor `__len__`, so it is always truthy. */
  predicate Truthy(v: Json) {
    match v
    case JNull => false
    case JBool(b) => b
    case JInt(i) => i != 0
    case JStr(s) => s != ""
    case JUuid(_) => true
    case JList(items) => items != []
    case JObj(fields) => fields != map[]
  }

  type Uuid = string

  /** The content file an object-version points to. */
  datatype FileInstance = FileInstance(checksum: Option<string>, size: Option<int>)

  /** One revision of a named object inside a bucket. */
  datatype ObjectVersion = ObjectVersion(
    key: string,
    versionId: Option<Uuid>,
    bucketId: Option<Uuid>,
    fileId: Option<Uuid>,
    isHead: bool,
    file: Option<FileInstance>)

  function UuidValue(u: Option<Uuid>): Json {
    match u
    case None => JNull
    case Some(id) => JUuid(id)
  }

  /** `getattr(obj, name, '')` on an object-version. */
  function ObjAttr(obj: ObjectVersion, name: string): Json {
    if name == "key" then JStr(obj.key)
    else if name == "version_id" then UuidValue(obj.versionId)
    else if name == "bucket_id" then UuidValue(obj.bucketId)
    else if name == "file_id" then UuidValue(obj.fileId)
    else JStr("")
  }

  /** `getattr(file_, name, '')`, where `file_` may be `None`. */
  function FileAttr(f: Option<FileInstance>, name: string): Json {
    match f
    case None => JStr("")
    case Some(fi) =>
      if name == "checksum" then
        (match fi.checksum case None => JNull case Some(c) => JStr(c))
      else if name == "size" then
        (match fi.size case None => JNull case Some(n) => JInt(n))
      else JStr("")
  }

  /** The file object a record exposes under a filename: the object-version
      and the descriptor dict stored for it. */
  datatype FileObject = FileObject(obj: ObjectVersion, data: map<string, Json>)
}
