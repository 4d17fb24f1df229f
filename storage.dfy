/** The files the ingest touches, as a map from path to contents, and the three things it does to
    them: `shutil.copyfile`, decompressing a gzip archive into another file, and `os.remove`. */
module Storage {
  import opened Outcomes

  /** What a file operation reports, and the files afterwards. */
  datatype Change = Change(result: Result<(), Failure>, files: map<string, Bytes>)

  /** `shutil.copyfile(src, dst)`: copying a file onto itself raises `SameFileError` (checked
      first, and only for a file that exists); a missing source raises `FileNotFoundError`. */
  function CopyFile(files: map<string, Bytes>, src: string, dst: string): (c: Change)
    ensures c.result.Ok? <==> src in files && src != dst
    ensures c.result.Ok? ==> c.files == files[dst := files[src]]
    ensures c.result.Err? ==> c.files == files && c.result.error == (if src in files then SameFile(src) else FileMissing(src))
  {
    if src !in files then Change(Err(FileMissing(src)), files)
    else if src == dst then Change(Err(SameFile(src)), files)
    else Change(Ok(()), files[dst := files[src]])
  }

  /** What decompression writes for an input: an empty input is read as no data. */
  function Gunzip(input: Bytes, gunzip: Bytes -> Option<Bytes>): Option<Bytes> {
    if input == [] then Some([]) else gunzip(input)
  }

  /** `with gzip.open(archive, 'rb') as f_in: with open(target, 'wb') as f_out:
      shutil.copyfileobj(f_in, f_out)`. Opening a missing archive raises before anything is
      written; otherwise `target` is created (or truncated) before the archive is read, so an
      archive decompressed onto itself is read as empty. A stream that is not gzip raises after
      `target` exists. No file but `target` changes. */
  function Decompressed(files: map<string, Bytes>, archive: string, target: string, gunzip: Bytes -> Option<Bytes>): (c: Change)
    ensures archive !in files ==> c == Change(Err(FileMissing(archive)), files)
    ensures archive in files ==> c.files.Keys == files.Keys + {target}
    ensures forall p :: p in c.files && p != target ==> p in files && c.files[p] == files[p]
    ensures c.result.Ok? <==> archive in files && Gunzip(if archive == target then [] else files[archive], gunzip).Some?
    ensures c.result.Ok? ==> c.files[target] == Gunzip(if archive == target then [] else files[archive], gunzip).value
    ensures c.result.Err? ==> c.result.error == if archive in files then CorruptArchive(archive) else FileMissing(archive)
  {
    if archive !in files then Change(Err(FileMissing(archive)), files)
    else
      match Gunzip(if archive == target then [] else files[archive], gunzip)
      case Some(data) => Change(Ok(()), files[target := data])
      case None => Change(Err(CorruptArchive(archive)), files[target := []])
  }

  /** `os.remove(path)`. */
  function Removed(files: map<string, Bytes>, path: string): (c: Change)
    ensures c.result.Ok? <==> path in files
    ensures c.result.Ok? ==> c.files == files - {path}
    ensures c.result.Err? ==> c == Change(Err(FileMissing(path)), files)
  {
    if path !in files then Change(Err(FileMissing(path)), files) else Change(Ok(()), files - {path})
  }

  class FileSystem {
    var files: map<string, Bytes>

    constructor (initial: map<string, Bytes>)
      ensures files == initial
    {
      files := initial;
    }

    method Copy(src: string, dst: string) returns (r: Result<(), Failure>)
      modifies this
      ensures Change(r, files) == CopyFile(old(files), src, dst)
    {
      if src !in files {
        r := Err(FileMissing(src));
      } else if src == dst {
        r := Err(SameFile(src));
      } else {
        files := files[dst := files[src]];
        r := Ok(());
      }
    }

    method Decompress(archive: string, target: string, gunzip: Bytes -> Option<Bytes>) returns (r: Result<(), Failure>)
      modifies this
      ensures Change(r, files) == Decompressed(old(files), archive, target, gunzip)
    {
      if archive !in files {
        return Err(FileMissing(archive));
      }
      files := files[target := []];
      var input := files[archive];
      var out := if input == [] then Some([]) else gunzip(input);
      match out
      case Some(data) =>
        files := files[target := data];
        r := Ok(());
      case None =>
        r := Err(CorruptArchive(archive));
    }

    method Remove(path: string) returns (r: Result<(), Failure>)
      modifies this
      ensures Change(r, files) == Removed(old(files), path)
    {
      if path !in files {
        r := Err(FileMissing(path));
      } else {
        files := files - {path};
        r := Ok(());
      }
    }
  }
}
