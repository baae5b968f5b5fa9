# invenio-records-files in Dafny

A model of the logic in Invenio-Records-Files that can be stated exactly:

- **Bucket sort** (`sorted_files_from_bucket`). The object-versions of a bucket are ordered by the position of their key in a list of desired keys. Keys not in the list rank last. The sort is stable. (`bucket_sort.dfy`, module `BucketSort`.)
- **File lookup** (`record_file_factory`). A record and a filename resolve to the record's file object, or to `None`. (`file_lookup.dfy`, module `FileLookup`.)
- **Metadata flush** (`flush_record_metadata_with_new_file`). This is the signal handler run when a file is uploaded or deleted. For a head object-version it builds a file descriptor and writes it into the owning record's `_files` list. (`metadata_flush.dfy`, module `MetadataFlush`.)
- **Extension bootstrap** (`InvenioRecordsFiles`). `init_config` merges the `RECORDS_FILES_*` defaults into the app config, set-if-absent. `init_app` registers the extension. (`extension.dfy`, module `Extension`.)

Two modules are shared. `wrappers.dfy` holds `Option`, `Result` and the Python exceptions the code can raise. `models.dfy` holds JSON values, Python truthiness, `getattr(x, name, '')`, object-versions and content files.

## How the model is shaped

- The sort and the lookup are pure functions, as in the source.
- The descriptor is built by a method, `BuildDescriptor`. It uses the source's loops: two filtered copies, a merge, and a loop that renames keys by `pop`. It is proved equal to the declarative `Descriptor`.
- The scan that sets `is_update` is the loop method `ScanFiles`.
- The handler is `FilesDb.Flush`. `FilesDb` is a class holding three tables: ObjectVersion rows, the bucket-to-record association and the record JSON documents. Only the record table changes. `Flush` is proved equal to the function `FlushOutcome`, and the lemmas about the handler state their properties in terms of that function.
- `init_config` is a loop over the default names that updates `app.config` in place. `init_app` also writes `app.extensions`.
- Python exceptions are `Err` results:
  - a missing object-version row, or a missing record row, is `NoResultFound`;
  - a missing bucket association is `AttributeError` (reading `record_id` on `None`);
  - a JSON null document is `TypeError`;
  - a missing `bucket_id` is `KeyError` from `pop` in `Descriptor`. The handler never reaches it: a version without a bucket id has no association row, so the handler fails first with `AttributeError` (`FlushNeverFailsOnBucketPop`);
  - an existing `_files` entry without `key` is `KeyError`.
- A Python `UUID` is the always-truthy JSON value `JUuid`. `UUID` defines neither `__bool__` nor `__len__`.

### A key match leaves `_files` unchanged

The `is_update` flag and the assignment at utils.py:146-147 only make sense as replacing the matching entry. The code does not do that. At utils.py:147 the loop only rebinds its local variable, so the list is left exactly as it was, and the handler still returns `True`. The model follows the code: `UpdatedFiles`, `FlushOutcome` and `FilesDb.Flush` keep the list unchanged (see `FlushKeepsMatchedList`). The replacing behaviour is defined beside it as `UpdatedFilesReplacing` (see Findings).

The handler does not distinguish upload from delete events. A delete of a head version therefore writes a descriptor too, as the code does.

## Model

| member | source | states |
|---|---|---|
| `BucketSort.SortedFilesFromBucket` | invenio_records_files/utils.py:19-31 | No contract of its own. Its properties are the rows `SortedFilesPermutes`, `SortedFilesOrdered`, `SortedFilesStable`, `ListedBeforeUnlisted` and `NoKeysKeepsOrder`. |
| `BucketSort.RankIsLastIndex` | invenio_records_files/utils.py:27-31 | A listed key ranks at the last index where it occurs in `keys`. An unlisted key ranks at `len(keys)`. |
| `BucketSort.SortedFilesPermutes` | invenio_records_files/utils.py:30-31 | The sorted list is a permutation of the bucket's object-versions: same multiset, same length. |
| `BucketSort.SortedFilesOrdered` | invenio_records_files/utils.py:28-31 | The output is non-decreasing in rank. |
| `BucketSort.SortedFilesStable` | invenio_records_files/utils.py:31 | For every rank, the items of that rank appear in the output in their input order. This includes all unlisted items. |
| `BucketSort.ListedBeforeUnlisted` | invenio_records_files/utils.py:28-31 | Every item whose key is listed comes before every item whose key is not. |
| `BucketSort.NoKeysKeepsOrder` | invenio_records_files/utils.py:27-31 | With `keys` None or empty, the output equals the input. |
| `FileLookup.RecordFileFactory` | invenio_records_files/utils.py:42-51 | Returns `None` when the record has no `files` attribute, when reading it raises the missing-model error, when it is empty, or when the filename is absent. Otherwise returns `record.files[filename]`. |
| `MetadataFlush.ObjectMetadataFields` | invenio_records_files/utils.py:122-124 | The copied object fields are exactly the truthy ones among `key`, `version_id`, `bucket_id`, `file_id`, with their values. |
| `MetadataFlush.FileMetadataFields` | invenio_records_files/utils.py:126-133 | `checksum` and `size` are copied only when `file_id` is truthy, a file is attached and each value is truthy (`size` 0 is dropped). |
| `MetadataFlush.RenamedFields` | invenio_records_files/utils.py:137-139 | Renaming moves the `bucket_id` value to `bucket`, removes `bucket_id` and keeps every other key. |
| `MetadataFlush.DescriptorRenames` | invenio_records_files/utils.py:135-139 | The descriptor is the renamed merge when the merge holds `bucket_id`. Otherwise `pop` raises `KeyError('bucket_id')`. The merge holds `bucket_id` exactly when the version has a bucket id. |
| `MetadataFlush.RenamedObjectFields` | invenio_records_files/utils.py:122-139 | With a bucket id, the renamed merge holds the truthy `key`, `version_id` and `file_id` with their values, and `bucket` in place of `bucket_id`. |
| `MetadataFlush.RenamedFileFields` | invenio_records_files/utils.py:126-139 | With a bucket id, the renamed merge holds only the six descriptor names. It holds `checksum`/`size` exactly under `file_id` with a truthy value. |
| `MetadataFlush.Descriptor` | invenio_records_files/utils.py:122-139 | No contract of its own. Its properties are the rows `DescriptorFields` and `DescriptorRenames`, and `BuildDescriptor` is proved equal to it. |
| `MetadataFlush.DescriptorFields` | invenio_records_files/utils.py:122-139 | The descriptor fails exactly when `bucket_id` is missing. Otherwise it holds exactly the truthy `key`, `version_id` and `file_id`, plus `bucket`, and never `bucket_id`. It holds `checksum`/`size` only under `file_id` and only when truthy. |
| `MetadataFlush.CopyObjectMetadata` | invenio_records_files/utils.py:122-124 | The loop over `keys_to_copy` returns exactly `ObjectMetadata(obj)`: the truthy object fields with their values. |
| `MetadataFlush.CopyFileMetadata` | invenio_records_files/utils.py:126-133 | Returns exactly `FileMetadata(obj)`: the truthy `checksum`/`size` when `file_id` is truthy, and an empty dict otherwise. |
| `MetadataFlush.BuildDescriptor` | invenio_records_files/utils.py:122-139 | The loop-based construction (filtered copies, merge, `pop`-and-assign renaming) returns exactly `Descriptor(obj)`, including the `KeyError`. |
| `MetadataFlush.ScanFiles` | invenio_records_files/utils.py:141-147 | The scan raises `KeyError('key')` exactly when some entry lacks `key`. This holds even after a match, since there is no `break`. Otherwise `is_update` is true exactly when some entry's key equals the object's key. |
| `MetadataFlush.UpdatedFiles` | invenio_records_files/utils.py:141-151 | No contract of its own. Its properties are the rows `UpdatedFilesKeepsKeysUnique` and `AsWrittenKeepsStaleEntry`, and the flush rows through `FlushOutcome`. |
| `MetadataFlush.UpdatedFilesKeepsKeysUnique` | invenio_records_files/utils.py:143-151 | If `_files` holds at most one entry per key, so does the updated list. |
| `MetadataFlush.UpdatedFilesReplacing` | invenio_records_files/utils.py:143-151 | The corrected update. No contract of its own. Its properties are the row `ReplacingStoresDescriptor`. |
| `MetadataFlush.ReplaceByKey` | invenio_records_files/utils.py:143-147 | Corrected update: same length; each entry whose key matches becomes the descriptor; the others are unchanged. |
| `MetadataFlush.ReplacingStoresDescriptor` | invenio_records_files/utils.py:143-151 | The corrected upsert fails only on a keyless entry. Otherwise the result contains the new descriptor, keeps keys unique, keeps the length on a match and keeps every entry with another key. |
| `MetadataFlush.AsWrittenKeepsStaleEntry` | invenio_records_files/utils.py:143-149 | Take `_files = [{key: a.txt, size: 1}]` and a new descriptor with size 2. The code as written returns the list unchanged, so the new descriptor is lost. The corrected update stores it. |
| `MetadataFlush.FlushOutcome` | invenio_records_files/utils.py:104-155 | No contract of its own. Its properties are the rows `FlushIgnoresNonHead` through `FlushKeepsKeysUnique`, and `FilesDb.Flush` is proved equal to it. |
| `MetadataFlush.FlushIgnoresNonHead` | invenio_records_files/utils.py:114-116 | A non-head object-version returns `False` and leaves every record unchanged. |
| `MetadataFlush.FlushFrame` | invenio_records_files/utils.py:114-155 | A flush that does not return `True` changes no record. A successful flush changes only the record its bucket resolves to, and keeps that record's other top-level fields. The set of records is unchanged. |
| `MetadataFlush.FlushInitialisesFiles` | invenio_records_files/utils.py:150-151 | An absent `_files` becomes `[descriptor]`, and the flush returns `True`. |
| `MetadataFlush.FlushAppends` | invenio_records_files/utils.py:148-149 | If no entry has the object's key, the descriptor is appended at the end. The earlier entries are unchanged and the flush returns `True`. |
| `MetadataFlush.FlushKeepsMatchedList` | invenio_records_files/utils.py:143-148 | If an entry already has the object's key, every record is left exactly as it was (no replacement, no duplicate), and the flush still returns `True`. |
| `MetadataFlush.FlushRejectsKeylessEntry` | invenio_records_files/utils.py:144-145 | An existing entry without `key` makes the flush raise `KeyError('key')`, and no record changes. |
| `MetadataFlush.FlushNeverFailsOnBucketPop` | invenio_records_files/utils.py:117-139 | The handler never raises the `KeyError('bucket_id')` of the rename. A head version without a bucket id fails at the association lookup with `AttributeError` instead. |
| `MetadataFlush.FlushKeepsKeysUnique` | invenio_records_files/utils.py:141-151 | If every record's `_files` holds at most one entry per key, this still holds after a flush. |
| `MetadataFlush.FilesDb.Flush` | invenio_records_files/utils.py:104-155 | The handler's result and new record table are exactly `FlushOutcome` of the tables before the call. The other tables are untouched. |
| `Extension.MergedConfig` | invenio_records_files/ext.py:33-37 | The merged config never overwrites an existing key. It maps every absent `RECORDS_FILES_` default to its value. It adds no other name. |
| `Extension.MergedConfigIdempotent` | invenio_records_files/ext.py:33-37 | Merging the defaults twice gives the same config as merging once. |
| `Extension.InvenioRecordsFiles.InitConfig` | invenio_records_files/ext.py:33-37 | The set-if-absent loop leaves `app.config` equal to `MergedConfig` of the old config and the defaults. |
| `Extension.InvenioRecordsFiles.InitApp` | invenio_records_files/ext.py:27-31 | The config is merged, and the instance is registered under `'invenio-records-files'` in `app.extensions`. No other extension entry changes. |
| `Extension.InvenioRecordsFiles.constructor` | invenio_records_files/ext.py:22-25 | With an app, construction runs `init_app` on it. |

## Findings

| source | as written | input that shows it | evidently intended | confidence | as-written member | corrected member |
|---|---|---|---|---|---|---|
| invenio_records_files/utils.py:143-149 | On a key match the loop sets `is_update` and rebinds the loop variable `existing_metadata_object`. The list is not modified. | `_files = [{key: "a.txt", size: 1}]`, flushed with a head version of `a.txt` whose file has size 2 | Replace the matching entry with the new descriptor (upsert by key) | not executed; high: the flag and the assignment only make sense as a replacement | `MetadataFlush.AsWrittenKeepsStaleEntry` | `MetadataFlush.UpdatedFilesReplacing` |

The handler model (`FlushOutcome`, `FilesDb.Flush`) keeps the as-written behaviour, because it models the code as it runs. `UpdatedFilesReplacing` is the corrected `_files` update, and `ReplacingStoresDescriptor` proves its properties.

## Left out

- `file_download_ui` (utils.py:54-101): a Flask view. It aborts with 404, reads `request.args` and calls the storage service's permission check and `send_object`, which have no visible semantics here. In the source, the not-found check comes before the permission check, and attachment mode is `'download' in request.args`.
- Database session handling in the flush: `expire_all`, the `with_for_update` row locks, `flag_modified`, `merge` and `commit`. These are persistence and concurrency plumbing. The tables are given as the state of `FilesDb`.
- `ObjectVersion.get_by_bucket(bucket).all()`: an ORM query. Its result is the `values` argument of `SortedFilesFromBucket`.
- `register_signals` (ext.py:39-43): connecting the handler to the storage signals is event-bus glue.
- The `dir(config)` reflection in `init_config`: the defaults module is given as a finite map from its names to their values. The order in which `dir` lists names does not affect the result, so the loop takes them in any order.
- The `_files` list is typed as a list of string-keyed dicts. A `_files` value that is not a list, or an entry that is not a dict, is not modelled.
- Insertion order of the descriptor dict's keys: Python dicts keep it, Dafny maps do not.
- Extension.InvenioRecordsFiles.constructor: extra keyword arguments are not modelled. When an app is given, `__init__` passes `**kwargs` on to `init_app`, which takes none, so any keyword argument raises `TypeError`. Without an app they are ignored (ext.py:22-27).
- The `pid` argument of `record_file_factory` is unused by the source and is not a parameter of `RecordFileFactory`.
