/**
 * The filesystem as a value: what listing a directory yields, the bytes of
 * each file, and how a path is extended by a name (Unix paths).
 */
module FsModel {
  import opened Results
  import opened Utf8Text

  /** What `DirEntry::file_type` reports (symbolic links are not followed). */
  datatype FileKind = Directory | RegularFile | Symlink | OtherKind

  /** The I/O errors of the filesystem store, by tag. */
  datatype IoError =
    | NotFound(path: Text)                          // the path cannot be listed or opened
    | Os(code: int)                                 // a fault the operating system reports for one entry
    | UnableToReadDir(path: Text, cause: IoError)   // a bucket directory could not be listed
    | UnableToOpen(path: Text, cause: IoError)      // a value file could not be opened
    | InvalidBucketName                             // a bucket path is not valid UTF-8
    | InvalidFilename                               // a key name is not valid UTF-8
    | InvalidData                                   // the bytes read are not valid UTF-8

  /** A directory entry: its file name, and the outcome of asking for its type. */
  datatype DirEntry = DirEntry(name: Text, fileType: Result<FileKind, IoError>)

  /**
   * A filesystem: for each listable directory, the entries its listing yields
   * in order (each may fail on its own), and for each openable file its bytes.
   */
  datatype FileSystem = FileSystem(dirs: map<Text, seq<Result<DirEntry, IoError>>>, files: map<Text, seq<byte>>)

  /** Listing a directory fails as a whole when it cannot be opened. */
  function ReadDir(fs: FileSystem, path: Text): (r: Result<seq<Result<DirEntry, IoError>>, IoError>)
    ensures r.Ok? <==> path in fs.dirs
  {
    if path in fs.dirs then Ok(fs.dirs[path]) else Err(NotFound(path))
  }

  /** Opening a file and reading all of its bytes. */
  function Open(fs: FileSystem, path: Text): (r: Result<seq<byte>, IoError>)
    ensures r.Ok? <==> path in fs.files
  {
    if path in fs.files then Ok(fs.files[path]) else Err(NotFound(path))
  }

  const Separator: byte := 0x2F

  /**
   * `Path::join` on Unix: an absolute name replaces the directory; otherwise a
   * separator is put between them unless the directory is empty or already ends
   * with one.
   */
  function Join(dir: Text, name: Text): (p: Text)
    ensures |name| > 0 && name[0] == Separator ==> p == name
    ensures !(|name| > 0 && name[0] == Separator) ==>
      |dir| + |name| <= |p| <= |dir| + 1 + |name| && p[..|dir|] == dir && p[|p| - |name|..] == name
  {
    if |name| > 0 && name[0] == Separator then name
    else if |dir| == 0 || dir[|dir| - 1] == Separator then
      var p := dir + name;
      assert p[|p| - |name|..] == name;
      p
    else
      var p := dir + [Separator] + name;
      assert p[|p| - |name|..] == name;
      p
  }

  /** Under a well-formed directory path, a joined path is well-formed exactly when the name is. */
  lemma JoinWellFormed(dir: Text, name: Text)
    requires WellFormed(dir)
    ensures WellFormed(Join(dir, name)) <==> WellFormed(name)
  {
    if |name| > 0 && name[0] == Separator {
    } else if |dir| == 0 || dir[|dir| - 1] == Separator {
      ConcatWellFormed(dir, name);
    } else {
      var sep: Text := [Separator];
      assert LeadWidth(sep) == 1;
      assert sep[1..] == [];
      assert WellFormed(sep);
      ConcatWellFormed(sep, name);
      ConcatWellFormed(dir, sep + name);
      assert Join(dir, name) == dir + (sep + name);
    }
  }
}
