/** `record_file_factory`: resolve a record and a filename to the record's file
    object, or `None` (utils.py:34-51). */
module FileLookup {
  import opened Wrappers
  import opened Models

  /** What reading `record.files` yields: the attribute is missing, reading it
      raises `MissingModelError`, or it is the record's filename-to-file map
      (falsy exactly when empty). */
  datatype RecordFiles =
    | NoFilesAttribute
    | MissingModel
    | Files(entries: map<string, FileObject>)

  /** The `pid` argument is unused by the source and left out. */
  function RecordFileFactory(record: RecordFiles, filename: string): (r: Option<FileObject>)
    ensures record.NoFilesAttribute? ==> r == None
    ensures record.MissingModel? ==> r == None
    ensures record.Files? && record.entries == map[] ==> r == None
    ensures record.Files? && filename !in record.entries ==> r == None
    ensures record.Files? && filename in record.entries ==> r == Some(record.entries[filename])
  {
    match record
    case NoFilesAttribute => None
    case MissingModel => None
    case Files(entries) =>
      if entries == map[] then None
      else if filename in entries then Some(entries[filename])
      else None
  }
}
