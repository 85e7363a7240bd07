/**
 * The part of the operating system's file system the cache uses: whole-file
 * reads (`ioutil.ReadFile`), whole-file writes (`ioutil.WriteFile`) and
 * removal (`os.Remove`). The files are a map from path to contents. A write or
 * a removal is atomic: it either happens entirely or leaves every file as it
 * was. `fault` is the I/O error the operating system reports for the call, if
 * any (a full disk, a permission problem, ...).
 */
module FileSystem {
  import opened Wrappers
  import opened GoText
  import opened Errors

  type Files = map<Str, Str>

  /** *fs.PathError for a missing file: "<op> <path>: no such file or directory". */
  function NotExist(op: Str, path: Str): Error {
    Wrapped(op + [0x20] + path, Failure(Lit("no such file or directory")))
  }

  /** ioutil.ReadFile: the contents of an existing file, or the error. */
  function ReadResult(files: Files, path: Str, fault: Option<Error>): (r: Result<Str, Error>)
    ensures r.Ok? <==> path in files && fault.None?
    ensures r.Ok? ==> r.value == files[path]
    ensures path !in files ==> r == Err(NotExist(Lit("open"), path))
  {
    if path !in files then Err(NotExist(Lit("open"), path))
    else if fault.Some? then Err(fault.value)
    else Ok(files[path])
  }

  /** ioutil.WriteFile: create or truncate the file and store data, or fail without change. */
  function WriteResult(files: Files, path: Str, data: Str, fault: Option<Error>): (r: (Files, Option<Error>))
    ensures r.1 == fault
    ensures r.1.Some? ==> r.0 == files
    ensures r.1.None? ==> r.0.Keys == files.Keys + {path}
  {
    if fault.Some? then (files, fault) else (files[path := data], None)
  }

  /** os.Remove: delete an existing file, or fail without change. */
  function RemoveResult(files: Files, path: Str, fault: Option<Error>): (r: (Files, Option<Error>))
    ensures r.1.None? <==> path in files && fault.None?
    ensures r.1.Some? ==> r.0 == files
    ensures r.1.None? ==> r.0.Keys == files.Keys - {path}
    ensures path !in files ==> r.1 == Some(NotExist(Lit("remove"), path))
  {
    if path !in files then (files, Some(NotExist(Lit("remove"), path)))
    else if fault.Some? then (files, fault)
    else (files - {path}, None)
  }

  /** What a successful write stores is what a later read returns; other files keep their contents. */
  lemma WriteThenRead(files: Files, path: Str, data: Str, other: Str)
    requires other != path
    ensures ReadResult(WriteResult(files, path, data, None).0, path, None) == Ok(data)
    ensures ReadResult(WriteResult(files, path, data, None).0, other, None) == ReadResult(files, other, None)
  {
  }

  /** After a successful removal the file is gone; other files keep their contents. */
  lemma RemoveThenRead(files: Files, path: Str, other: Str)
    requires path in files && other != path
    ensures ReadResult(RemoveResult(files, path, None).0, path, None) == Err(NotExist(Lit("open"), path))
    ensures ReadResult(RemoveResult(files, path, None).0, other, None) == ReadResult(files, other, None)
  {
  }

  /** The disk as the running process sees it: one shared, mutable set of files. */
  class Disk {
    var files: Files

    constructor(initial: Files)
      ensures files == initial
    {
      files := initial;
    }

    method ReadFile(path: Str, fault: Option<Error>) returns (r: Result<Str, Error>)
      ensures r == ReadResult(files, path, fault)
      ensures r.Ok? ==> path in files && r.value == files[path]
    {
      if path !in files {
        r := Err(NotExist(Lit("open"), path));
      } else if fault.Some? {
        r := Err(fault.value);
      } else {
        r := Ok(files[path]);
      }
    }

    method WriteFile(path: Str, data: Str, fault: Option<Error>) returns (err: Option<Error>)
      modifies this
      ensures (files, err) == WriteResult(old(files), path, data, fault)
    {
      err := fault;
      if fault.None? {
        files := files[path := data];
      }
    }

    method Remove(path: Str, fault: Option<Error>) returns (err: Option<Error>)
      modifies this
      ensures (files, err) == RemoveResult(old(files), path, fault)
    {
      if path !in files {
        err := Some(NotExist(Lit("remove"), path));
      } else if fault.Some? {
        err := fault;
      } else {
        files := files - {path};
        err := None;
      }
    }
  }
}
