/** `flush_record_metadata_with_new_file`: on an upload or delete event, write a
    descriptor of the head object-version into the owning record's `_files`
    list (utils.py:104-155). */
module MetadataFlush {
  import opened Wrappers
  import opened Models

  /** One `_files` entry, and the descriptor the flush builds. */
  type Entry = map<string, Json>

  /** A record's JSON document, split into its `_files` value (`files`, when
      the key is present) and its other top-level keys (`fields`). */
  datatype JsonDoc = Doc(fields: map<string, Json>, files: Option<seq<Entry>>)

  /** `_files` lives only in `files`, so the split is unambiguous. */
  type Doc = d: JsonDoc | FilesKey !in d.fields witness Doc(map[], None)

  const FilesKey: string := "_files"

  const ObjectKeys: seq<string> := ["key", "version_id", "bucket_id", "file_id"]
  const FileKeys: seq<string> := ["checksum", "size"]
  const Translations: seq<(string, string)> := [("bucket_id", "bucket")]

  // ---------------------------------------------------------------------------
  // The descriptor (utils.py:122-139)

  /** `{each: getattr(obj, each) for each in keys_to_copy if getattr(obj, each, '')}` */
  function ObjectMetadata(obj: ObjectVersion): Entry {
    map k | k in ObjectKeys && Truthy(ObjAttr(obj, k)) :: ObjAttr(obj, k)
  }

  /** The content-file fields, read only when `obj.file_id` is truthy. */
  function FileMetadata(obj: ObjectVersion): Entry {
    if Truthy(ObjAttr(obj, "file_id")) then
      map k | k in FileKeys && Truthy(FileAttr(obj.file, k)) :: FileAttr(obj.file, k)
    else map[]
  }

  /** `d[new] = d.pop(old)` for each pair in turn; `pop` of a missing key raises. */
  function Rename(d: Entry, pairs: seq<(string, string)>): Result<Entry>
    decreases |pairs|
  {
    if pairs == [] then Ok(d)
    else if pairs[0].0 !in d then Err(KeyError(pairs[0].0))
    else Rename((d - {pairs[0].0})[pairs[0].1 := d[pairs[0].0]], pairs[1..])
  }

  /** `dict(object_version_metadata, **file_metadata)` with `bucket_id` renamed. */
  function Descriptor(obj: ObjectVersion): Result<Entry> {
    Rename(ObjectMetadata(obj) + FileMetadata(obj), Translations)
  }

  lemma ObjectMetadataFields(obj: ObjectVersion)
    ensures var m := ObjectMetadata(obj);
      && m.Keys <= {"key", "version_id", "bucket_id", "file_id"}
      && ("key" in m <==> obj.key != "") && ("key" in m ==> m["key"] == JStr(obj.key))
      && ("version_id" in m <==> obj.versionId.Some?)
      && ("version_id" in m ==> m["version_id"] == JUuid(obj.versionId.value))
      && ("bucket_id" in m <==> obj.bucketId.Some?)
      && ("bucket_id" in m ==> m["bucket_id"] == JUuid(obj.bucketId.value))
      && ("file_id" in m <==> obj.fileId.Some?)
      && ("file_id" in m ==> m["file_id"] == JUuid(obj.fileId.value))
  {
  }

  lemma FileMetadataFields(obj: ObjectVersion)
    ensures var m := FileMetadata(obj);
      && m.Keys <= {"checksum", "size"}
      && ("checksum" in m <==>
            obj.fileId.Some? && obj.file.Some? && obj.file.value.checksum.Some? &&
            obj.file.value.checksum.value != "")
      && ("checksum" in m ==> m["checksum"] == JStr(obj.file.value.checksum.value))
      && ("size" in m <==>
            obj.fileId.Some? && obj.file.Some? && obj.file.value.size.Some? &&
            obj.file.value.size.value != 0)
      && ("size" in m ==> m["size"] == JInt(obj.file.value.size.value))
  {
  }

  /** The descriptor holds exactly the truthy object fields, `bucket_id` under
      the name `bucket`, and `checksum`/`size` only when `file_id` is truthy and
      each of them is truthy; a missing `bucket_id` makes the `pop` raise. */
  lemma DescriptorFields(obj: ObjectVersion)
    ensures Descriptor(obj).Err? <==> obj.bucketId.None?
    ensures Descriptor(obj).Err? ==> Descriptor(obj).error == KeyError("bucket_id")
    ensures Descriptor(obj).Ok? ==>
      var d := Descriptor(obj).value;
      && d.Keys <= {"key", "version_id", "bucket", "file_id", "checksum", "size"}
      && "bucket_id" !in d
      && "bucket" in d && d["bucket"] == JUuid(obj.bucketId.value)
      && ("key" in d <==> obj.key != "")
      && ("key" in d ==> d["key"] == JStr(obj.key))
      && ("version_id" in d <==> obj.versionId.Some?)
      && ("version_id" in d ==> d["version_id"] == JUuid(obj.versionId.value))
      && ("file_id" in d <==> obj.fileId.Some?)
      && ("file_id" in d ==> d["file_id"] == JUuid(obj.fileId.value))
      && ("checksum" in d <==>
            obj.fileId.Some? && obj.file.Some? && obj.file.value.checksum.Some? &&
            obj.file.value.checksum.value != "")
      && ("checksum" in d ==> d["checksum"] == JStr(obj.file.value.checksum.value))
      && ("size" in d <==>
            obj.fileId.Some? && obj.file.Some? && obj.file.value.size.Some? &&
            obj.file.value.size.value != 0)
      && ("size" in d ==> d["size"] == JInt(obj.file.value.size.value))
  {
    DescriptorRenames(obj);
    if obj.bucketId.Some? {
      RenamedObjectFields(obj);
      RenamedFileFields(obj);
    }
  }

  lemma RenamedObjectFields(obj: ObjectVersion)
    requires obj.bucketId.Some?
    ensures "bucket_id" in ObjectMetadata(obj) + FileMetadata(obj)
    ensures var d := Renamed(ObjectMetadata(obj) + FileMetadata(obj));
      && "bucket_id" !in d
      && "bucket" in d && d["bucket"] == JUuid(obj.bucketId.value)
      && ("key" in d <==> obj.key != "")
      && ("key" in d ==> d["key"] == JStr(obj.key))
      && ("version_id" in d <==> obj.versionId.Some?)
      && ("version_id" in d ==> d["version_id"] == JUuid(obj.versionId.value))
      && ("file_id" in d <==> obj.fileId.Some?)
      && ("file_id" in d ==> d["file_id"] == JUuid(obj.fileId.value))
  {
    var om, fm := ObjectMetadata(obj), FileMetadata(obj);
    ObjectMetadataFields(obj);
    FileMetadataFields(obj);
    var merged := om + fm;
    assert forall k :: k in om ==> k in merged && merged[k] == om[k];
    RenamedFields(merged);
  }

  lemma RenamedFileFields(obj: ObjectVersion)
    requires obj.bucketId.Some?
    ensures "bucket_id" in ObjectMetadata(obj) + FileMetadata(obj)
    ensures var d := Renamed(ObjectMetadata(obj) + FileMetadata(obj));
      && d.Keys <= {"key", "version_id", "bucket", "file_id", "checksum", "size"}
      && ("checksum" in d <==>
            obj.fileId.Some? && obj.file.Some? && obj.file.value.checksum.Some? &&
            obj.file.value.checksum.value != "")
      && ("checksum" in d ==> d["checksum"] == JStr(obj.file.value.checksum.value))
      && ("size" in d <==>
            obj.fileId.Some? && obj.file.Some? && obj.file.value.size.Some? &&
            obj.file.value.size.value != 0)
      && ("size" in d ==> d["size"] == JInt(obj.file.value.size.value))
  {
    var om, fm := ObjectMetadata(obj), FileMetadata(obj);
    ObjectMetadataFields(obj);
    FileMetadataFields(obj);
    var merged := om + fm;
    assert forall k :: k in fm ==> k in merged && merged[k] == fm[k];
    assert merged.Keys == om.Keys + fm.Keys;
    RenamedFields(merged);
  }

  function Renamed(m: Entry): Entry
    requires "bucket_id" in m
  {
    (m - {"bucket_id"})["bucket" := m["bucket_id"]]
  }

  lemma RenamedFields(m: Entry)
    requires "bucket_id" in m
    ensures "bucket_id" !in Renamed(m) && "bucket" in Renamed(m)
    ensures Renamed(m)["bucket"] == m["bucket_id"]
    ensures forall k :: k != "bucket" && k != "bucket_id" ==>
      (k in Renamed(m) <==> k in m) && (k in m ==> Renamed(m)[k] == m[k])
    ensures Renamed(m).Keys == m.Keys - {"bucket_id"} + {"bucket"}
  {
  }

  lemma DescriptorRenames(obj: ObjectVersion)
    ensures var merged := ObjectMetadata(obj) + FileMetadata(obj);
      Descriptor(obj) == if "bucket_id" in merged then Ok(Renamed(merged)) else Err(KeyError("bucket_id"))
    ensures "bucket_id" in ObjectMetadata(obj) + FileMetadata(obj) <==> obj.bucketId.Some?
  {
  }

  /** The object-field comprehension as a loop over `keys_to_copy`. */
  method CopyObjectMetadata(obj: ObjectVersion) returns (m: Entry)
    ensures m == ObjectMetadata(obj)
  {
    m := map[];
    var i := 0;
    while i < |ObjectKeys|
      invariant 0 <= i <= |ObjectKeys|
      invariant m == map k | k in ObjectKeys[..i] && Truthy(ObjAttr(obj, k)) :: ObjAttr(obj, k)
    {
      var v := ObjAttr(obj, ObjectKeys[i]);
      if Truthy(v) {
        m := m[ObjectKeys[i] := v];
      }
      i := i + 1;
    }
    assert ObjectKeys[..i] == ObjectKeys;
  }

  /** The content-file comprehension, run only when `obj.file_id` is truthy. */
  method CopyFileMetadata(obj: ObjectVersion) returns (m: Entry)
    ensures m == FileMetadata(obj)
  {
    m := map[];
    if Truthy(ObjAttr(obj, "file_id")) {
      var j := 0;
      while j < |FileKeys|
        invariant 0 <= j <= |FileKeys|
        invariant m == map k | k in FileKeys[..j] && Truthy(FileAttr(obj.file, k)) :: FileAttr(obj.file, k)
      {
        var v := FileAttr(obj.file, FileKeys[j]);
        if Truthy(v) {
          m := m[FileKeys[j] := v];
        }
        j := j + 1;
      }
      assert FileKeys[..j] == FileKeys;
    }
  }

  /** Builds the descriptor as the source does: two filtered copies, a merge,
      and a renaming loop that mutates the merged dict. */
  method BuildDescriptor(obj: ObjectVersion) returns (r: Result<Entry>)
    ensures r == Descriptor(obj)
  {
    var objectMeta := CopyObjectMetadata(obj);
    var fileMeta := CopyFileMetadata(obj);
    var d := objectMeta + fileMeta;
    var t := 0;
    while t < |Translations|
      invariant 0 <= t <= |Translations|
      invariant Rename(d, Translations[t..]) == Descriptor(obj)
    {
      var (from, to) := Translations[t];
      if from !in d {
        r := Err(KeyError(from));
        return;
      }
      d := (d - {from})[to := d[from]];
      t := t + 1;
    }
    r := Ok(d);
  }

  // ---------------------------------------------------------------------------
  // The `_files` update (utils.py:141-151)

  /** Some entry has no `key`, so `existing_metadata_object['key']` raises. */
  predicate HasKeyless(files: seq<Entry>) {
    exists i :: 0 <= i < |files| && "key" !in files[i]
  }

  /** Some entry's `key` equals `key`. */
  predicate HasKey(files: seq<Entry>, key: Json) {
    exists i :: 0 <= i < |files| && "key" in files[i] && files[i]["key"] == key
  }

  /** At most one entry per distinct key. */
  predicate UniqueKeys(files: seq<Entry>) {
    forall i, j :: 0 <= i < j < |files| && "key" in files[i] && "key" in files[j] ==>
      files[i]["key"] != files[j]["key"]
  }

  /** The scan over `_files` that sets `is_update`. The loop has no `break`,
      so an entry without `key` raises even after a match; rebinding the loop
      variable (utils.py:147) changes nothing. */
  method ScanFiles(files: seq<Entry>, key: Json) returns (r: Result<bool>)
    ensures r.Err? <==> HasKeyless(files)
    ensures r.Err? ==> r.error == KeyError("key")
    ensures r.Ok? ==> (r.value <==> HasKey(files, key))
  {
    var isUpdate := false;
    var i := 0;
    while i < |files|
      invariant 0 <= i <= |files|
      invariant forall j :: 0 <= j < i ==> "key" in files[j]
      invariant isUpdate <==> exists j :: 0 <= j < i && files[j]["key"] == key
    {
      var existing := files[i];
      if "key" !in existing {
        r := Err(KeyError("key"));
        return;
      }
      if existing["key"] == key {
        isUpdate := true;
      }
      i := i + 1;
    }
    r := Ok(isUpdate);
  }

  /** The new `_files` list, as the source computes it: initialised to the
      descriptor when absent, the descriptor appended when no key matches, and
      the list unchanged when one does. */
  function UpdatedFiles(files: Option<seq<Entry>>, key: Json, d: Entry): Result<seq<Entry>> {
    match files
    case None => Ok([d])
    case Some(fs) =>
      if HasKeyless(fs) then Err(KeyError("key"))
      else if HasKey(fs, key) then Ok(fs)
      else Ok(fs + [d])
  }

  /** The update keeps at most one entry per key. */
  lemma UpdatedFilesKeepsKeysUnique(files: Option<seq<Entry>>, obj: ObjectVersion)
    requires Descriptor(obj).Ok?
    requires files.Some? ==> UniqueKeys(files.value)
    ensures UpdatedFiles(files, JStr(obj.key), Descriptor(obj).value).Ok? ==>
            UniqueKeys(UpdatedFiles(files, JStr(obj.key), Descriptor(obj).value).value)
  {
  }

  // ---------------------------------------------------------------------------
  // The evidently intended update: replace the entry whose key matches

  /** Every entry whose key equals `key` replaced by `d`. */
  function ReplaceByKey(fs: seq<Entry>, key: Json, d: Entry): (r: seq<Entry>)
    ensures |r| == |fs|
    ensures forall i :: 0 <= i < |fs| && "key" in fs[i] && fs[i]["key"] == key ==> r[i] == d
    ensures forall i :: 0 <= i < |fs| && !("key" in fs[i] && fs[i]["key"] == key) ==> r[i] == fs[i]
  {
    if fs == [] then []
    else [if "key" in fs[0] && fs[0]["key"] == key then d else fs[0]] + ReplaceByKey(fs[1..], key, d)
  }

  /** Upsert by key: what the `is_update` flag and the assignment at
      utils.py:147 evidently meant to do. */
  function UpdatedFilesReplacing(files: Option<seq<Entry>>, key: Json, d: Entry): Result<seq<Entry>> {
    match files
    case None => Ok([d])
    case Some(fs) =>
      if HasKeyless(fs) then Err(KeyError("key"))
      else if HasKey(fs, key) then Ok(ReplaceByKey(fs, key, d))
      else Ok(fs + [d])
  }

  /** The replacing update always stores the new descriptor, never grows the
      list on a match, keeps the other entries and keeps keys unique. */
  lemma ReplacingStoresDescriptor(files: Option<seq<Entry>>, obj: ObjectVersion)
    requires Descriptor(obj).Ok?
    requires files.Some? ==> UniqueKeys(files.value)
    ensures var d := Descriptor(obj).value;
      var out := UpdatedFilesReplacing(files, JStr(obj.key), d);
      && (out.Err? <==> files.Some? && HasKeyless(files.value))
      && (out.Ok? ==> d in out.value && UniqueKeys(out.value))
      && (out.Ok? && files.Some? && HasKey(files.value, JStr(obj.key)) ==>
            |out.value| == |files.value|)
      && (out.Ok? && files.Some? ==> forall i :: 0 <= i < |files.value| ==>
            (files.value[i]["key"] != JStr(obj.key) ==> out.value[i] == files.value[i]))
  {
    var d := Descriptor(obj).value;
    var key := JStr(obj.key);
    DescriptorFields(obj);
    if files.Some? && !HasKeyless(files.value) {
      var fs := files.value;
      if HasKey(fs, key) {
        var out := ReplaceByKey(fs, key, d);
        var m :| 0 <= m < |fs| && "key" in fs[m] && fs[m]["key"] == key;
        assert out[m] == d;
        forall i, j | 0 <= i < j < |out| && "key" in out[i] && "key" in out[j]
          ensures out[i]["key"] != out[j]["key"]
        {
          var mi := "key" in fs[i] && fs[i]["key"] == key;
          var mj := "key" in fs[j] && fs[j]["key"] == key;
          assert mi && mj ==> false;
        }
      } else {
        var out := fs + [d];
        assert out[|fs|] == d;
        forall i, j | 0 <= i < j < |out| && "key" in out[i] && "key" in out[j]
          ensures out[i]["key"] != out[j]["key"]
        {
          if j == |fs| {
            assert out[i] == fs[i];
          }
        }
      }
    }
  }

  /** As written, a second flush for a key already listed keeps the stale
      entry: the list is returned unchanged and the new descriptor is lost. */
  lemma AsWrittenKeepsStaleEntry()
    ensures var old1: Entry := map["key" := JStr("a.txt"), "size" := JInt(1)];
      var new2: Entry := map["key" := JStr("a.txt"), "size" := JInt(2)];
      && UpdatedFiles(Some([old1]), JStr("a.txt"), new2) == Ok([old1])
      && new2 !in [old1]
      && UpdatedFilesReplacing(Some([old1]), JStr("a.txt"), new2) == Ok([new2])
  {
    var old1: Entry := map["key" := JStr("a.txt"), "size" := JInt(1)];
    var new2: Entry := map["key" := JStr("a.txt"), "size" := JInt(2)];
    assert [old1][0] == old1 && "key" in old1 && old1["key"] == JStr("a.txt");
    assert HasKey([old1], JStr("a.txt"));
    assert old1["size"] != new2["size"];
    assert ReplaceByKey([old1], JStr("a.txt"), new2) == [new2];
  }

  // ---------------------------------------------------------------------------
  // The whole handler over the database tables

  datatype Outcome = Outcome(result: Result<bool>, records: map<Uuid, Option<Doc>>)

  /** The flush as a function of the tables it reads: `objects` is the
      ObjectVersion table, `buckets` maps a bucket id to the record id of its
      first RecordsBuckets row, `records` maps a record id to its JSON
      document (`None` for a JSON null). */
  function FlushOutcome(objects: map<Uuid, ObjectVersion>, buckets: map<Uuid, Uuid>,
                        records: map<Uuid, Option<Doc>>, objUuid: Uuid): Outcome
  {
    if objUuid !in objects then Outcome(Err(NoResultFound), records)
    else
      var obj := objects[objUuid];
      if !obj.isHead then Outcome(Ok(false), records)
      else if obj.bucketId.None? || obj.bucketId.value !in buckets then
        Outcome(Err(AttributeError("record_id")), records)
      else
        var rid := buckets[obj.bucketId.value];
        if rid !in records then Outcome(Err(NoResultFound), records)
        else
          match Descriptor(obj)
          case Err(e) => Outcome(Err(e), records)
          case Ok(d) =>
            match records[rid]
            case None => Outcome(Err(TypeError), records)
            case Some(doc) =>
              match UpdatedFiles(doc.files, JStr(obj.key), d)
              case Err(e) => Outcome(Err(e), records)
              case Ok(fs) => Outcome(Ok(true), records[rid := Some(doc.(files := Some(fs)))])
  }

  /** The head object-version `objUuid` resolves through its bucket to the
      record `rid`, whose JSON document is `doc`. */
  predicate Resolves(objects: map<Uuid, ObjectVersion>, buckets: map<Uuid, Uuid>,
                     records: map<Uuid, Option<Doc>>, objUuid: Uuid, rid: Uuid, doc: Doc)
  {
    && objUuid in objects && objects[objUuid].isHead
    && objects[objUuid].bucketId.Some? && objects[objUuid].bucketId.value in buckets
    && buckets[objects[objUuid].bucketId.value] == rid
    && rid in records && records[rid] == Some(doc)
  }

  /** A non-head object-version is ignored: False, nothing written (utils.py:115-116). */
  lemma FlushIgnoresNonHead(objects: map<Uuid, ObjectVersion>, buckets: map<Uuid, Uuid>,
                            records: map<Uuid, Option<Doc>>, objUuid: Uuid)
    requires objUuid in objects && !objects[objUuid].isHead
    ensures FlushOutcome(objects, buckets, records, objUuid) == Outcome(Ok(false), records)
  {
  }

  /** A failed flush writes nothing, and a successful one writes only the
      owning record, keeping its other top-level fields. */
  lemma FlushFrame(objects: map<Uuid, ObjectVersion>, buckets: map<Uuid, Uuid>,
                   records: map<Uuid, Option<Doc>>, objUuid: Uuid)
    ensures var out := FlushOutcome(objects, buckets, records, objUuid);
      && out.records.Keys == records.Keys
      && (out.result != Ok(true) ==> out.records == records)
      && (out.result == Ok(true) ==> exists rid, doc ::
            Resolves(objects, buckets, records, objUuid, rid, doc) &&
            out.records[rid].Some? && out.records[rid].value.fields == doc.fields &&
            forall id :: id in records && id != rid ==> out.records[id] == records[id])
  {
  }

  /** Absent `_files` becomes the one-element list `[descriptor]` (utils.py:150-151). */
  lemma FlushInitialisesFiles(objects: map<Uuid, ObjectVersion>, buckets: map<Uuid, Uuid>,
                              records: map<Uuid, Option<Doc>>, objUuid: Uuid, rid: Uuid, doc: Doc)
    requires Resolves(objects, buckets, records, objUuid, rid, doc)
    requires doc.files.None?
    ensures Descriptor(objects[objUuid]).Ok?
    ensures FlushOutcome(objects, buckets, records, objUuid) ==
      Outcome(Ok(true), records[rid := Some(doc.(files := Some([Descriptor(objects[objUuid]).value])))])
  {
  }

  /** No entry with the object's key: the descriptor is appended after the
      unchanged earlier entries (utils.py:148-149). */
  lemma FlushAppends(objects: map<Uuid, ObjectVersion>, buckets: map<Uuid, Uuid>,
                     records: map<Uuid, Option<Doc>>, objUuid: Uuid, rid: Uuid, doc: Doc)
    requires Resolves(objects, buckets, records, objUuid, rid, doc)
    requires doc.files.Some? && !HasKeyless(doc.files.value)
    requires !HasKey(doc.files.value, JStr(objects[objUuid].key))
    ensures Descriptor(objects[objUuid]).Ok?
    ensures var out := FlushOutcome(objects, buckets, records, objUuid);
      var fs := doc.files.value;
      && out.result == Ok(true)
      && out.records[rid].Some? && out.records[rid].value.files.Some?
      && var fs' := out.records[rid].value.files.value;
      && |fs'| == |fs| + 1
      && fs'[..|fs|] == fs
      && fs'[|fs|] == Descriptor(objects[objUuid]).value
  {
  }

  /** An entry with the object's key already exists: the loop only rebinds a
      local variable (utils.py:147), so the record is left exactly as it was,
      yet the flush reports True (utils.py:143-148, 155). */
  lemma FlushKeepsMatchedList(objects: map<Uuid, ObjectVersion>, buckets: map<Uuid, Uuid>,
                              records: map<Uuid, Option<Doc>>, objUuid: Uuid, rid: Uuid, doc: Doc)
    requires Resolves(objects, buckets, records, objUuid, rid, doc)
    requires doc.files.Some? && !HasKeyless(doc.files.value)
    requires HasKey(doc.files.value, JStr(objects[objUuid].key))
    ensures FlushOutcome(objects, buckets, records, objUuid) == Outcome(Ok(true), records)
  {
  }

  /** An existing entry without `key` makes the scan raise `KeyError`. */
  lemma FlushRejectsKeylessEntry(objects: map<Uuid, ObjectVersion>, buckets: map<Uuid, Uuid>,
                                 records: map<Uuid, Option<Doc>>, objUuid: Uuid, rid: Uuid, doc: Doc)
    requires Resolves(objects, buckets, records, objUuid, rid, doc)
    requires doc.files.Some? && HasKeyless(doc.files.value)
    ensures FlushOutcome(objects, buckets, records, objUuid) == Outcome(Err(KeyError("key")), records)
  {
  }

  /** The `pop` of `bucket_id` never fails inside the handler: a version
      without a bucket id has no RecordsBuckets row, so reading `record_id`
      on `None` raises first (utils.py:117-121). */
  lemma FlushNeverFailsOnBucketPop(objects: map<Uuid, ObjectVersion>, buckets: map<Uuid, Uuid>,
                                   records: map<Uuid, Option<Doc>>, objUuid: Uuid)
    ensures FlushOutcome(objects, buckets, records, objUuid).result != Err(KeyError("bucket_id"))
    ensures objUuid in objects && objects[objUuid].isHead && objects[objUuid].bucketId.None? ==>
      FlushOutcome(objects, buckets, records, objUuid).result == Err(AttributeError("record_id"))
  {
    if objUuid in objects {
      DescriptorFields(objects[objUuid]);
    }
  }

  /** If every record keeps one entry per key, so does every record after a flush. */
  lemma FlushKeepsKeysUnique(objects: map<Uuid, ObjectVersion>, buckets: map<Uuid, Uuid>,
                             records: map<Uuid, Option<Doc>>, objUuid: Uuid)
    requires forall id :: id in records && records[id].Some? && records[id].value.files.Some? ==>
      UniqueKeys(records[id].value.files.value)
    ensures var out := FlushOutcome(objects, buckets, records, objUuid).records;
      forall id :: id in out && out[id].Some? && out[id].value.files.Some? ==>
        UniqueKeys(out[id].value.files.value)
  {
  }

  /** The tables the handler reads and writes. */
  class FilesDb {
    var objects: map<Uuid, ObjectVersion>
    var recordsBuckets: map<Uuid, Uuid>
    var records: map<Uuid, Option<Doc>>

    constructor(objects: map<Uuid, ObjectVersion>, recordsBuckets: map<Uuid, Uuid>,
                records: map<Uuid, Option<Doc>>)
      ensures this.objects == objects && this.recordsBuckets == recordsBuckets
      ensures this.records == records
    {
      this.objects := objects;
      this.recordsBuckets := recordsBuckets;
      this.records := records;
    }

    /** The signal handler for `file_uploaded` / `file_deleted`; only the
        record table changes. */
    method Flush(objUuid: Uuid) returns (r: Result<bool>)
      modifies this`records
      ensures Outcome(r, records) == FlushOutcome(objects, recordsBuckets, old(records), objUuid)
    {
      if objUuid !in objects {
        r := Err(NoResultFound);
        return;
      }
      var obj := objects[objUuid];
      if !obj.isHead {
        r := Ok(false);
        return;
      }
      if obj.bucketId.None? || obj.bucketId.value !in recordsBuckets {
        r := Err(AttributeError("record_id"));
        return;
      }
      var recordId := recordsBuckets[obj.bucketId.value];
      if recordId !in records {
        r := Err(NoResultFound);
        return;
      }
      var json := records[recordId];
      var descriptor := BuildDescriptor(obj);
      match descriptor {
        case Err(e) =>
          r := Err(e);
        case Ok(d) =>
          match json {
            case None =>
              r := Err(TypeError);
            case Some(doc) =>
              match doc.files {
                case None =>
                  records := records[recordId := Some(doc.(files := Some([d])))];
                  r := Ok(true);
                case Some(fs) =>
                  var isUpdate := ScanFiles(fs, JStr(obj.key));
                  match isUpdate {
                    case Err(e) =>
                      r := Err(e);
                    case Ok(found) =>
                      if !found {
                        records := records[recordId := Some(doc.(files := Some(fs + [d])))];
                      }
                      r := Ok(true);
                  }
              }
          }
      }
    }
  }
}
