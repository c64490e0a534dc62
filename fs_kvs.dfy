/**
 * The filesystem store: buckets are the sub-directories of a root directory,
 * keys are the regular files of a bucket directory, and a value is the text of
 * such a file, read up to a byte ceiling. Every column is a column of UTF-8 text.
 */
module FsKvs {
  import opened Results
  import opened Utf8Text
  import opened Arrow
  import opened FsModel
  import Core

  newtype u64 = x: int | 0 <= x < 0x1_0000_0000_0000_0000

  /** Text known to be valid UTF-8, as a Rust `String` is. */
  type Utf8String = s: Text | WellFormed(s) witness []

  /** The store's configuration: the directory holding the buckets, and the byte ceiling on values. */
  datatype SimpleFsKvStoreString = SimpleFsKvStoreString(rootDir: Utf8String, maxFileSize: u64)

  /** A finite stream whose every element may fail on its own. */
  type Stream<T> = seq<Result<T, IoError>>

  type Entries = Stream<DirEntry>

  /** A column of text cells. */
  function StringArray(v: seq<Text>): Column<Text> {
    Column(Utf8, v)
  }

  // ---------------------------------------------------------------------------
  // Directory entries

  /** An entry's file name, which must be valid UTF-8 to become a key. */
  function Basename(d: DirEntry): (r: Result<Text, IoError>)
    ensures r.Ok? <==> WellFormed(d.name)
    ensures r.Ok? ==> r.value == d.name
    ensures r.Err? ==> r.error == InvalidFilename
  {
    if WellFormed(d.name) then Ok(d.name) else Err(InvalidFilename)
  }

  /** Names the entries of a stream one by one; a failed entry keeps its error. */
  function MapNames(s: Entries, name: DirEntry -> Result<Text, IoError>): Stream<Text> {
    seq(|s|, i requires 0 <= i < |s| => match s[i] case Err(e) => Err(e) case Ok(d) => name(d))
  }

  /**
   * The file names of a listing, in listing order: an entry whose name is not
   * valid UTF-8 becomes an "invalid filename" error, a failed entry keeps its error.
   */
  function Dirents2Basenames(entries: Entries): (r: Stream<Text>)
    ensures |r| == |entries|
    ensures forall i | 0 <= i < |entries| && entries[i].Err? :: r[i] == Err(entries[i].error)
    ensures forall i | 0 <= i < |entries| && entries[i].Ok? ::
      if WellFormed(entries[i].value.name) then r[i] == Ok(entries[i].value.name) else r[i] == Err(InvalidFilename)
  {
    MapNames(entries, Basename)
  }

  /** Whether an entry is a directory; a failed type lookup passes its error through. */
  function IsDir(d: DirEntry): (r: Result<bool, IoError>)
    ensures r == Ok(true) <==> d.fileType == Ok(Directory)
    ensures r.Err? <==> d.fileType.Err?
    ensures r.Err? ==> r.error == d.fileType.error
  {
    match d.fileType
    case Err(e) => Err(e)
    case Ok(k) => Ok(k == Directory)
  }

  /** Whether an entry is a regular file; a failed type lookup passes its error through. */
  function IsFile(d: DirEntry): (r: Result<bool, IoError>)
    ensures r == Ok(true) <==> d.fileType == Ok(RegularFile)
    ensures r.Err? <==> d.fileType.Err?
    ensures r.Err? ==> r.error == d.fileType.error
  {
    match d.fileType
    case Err(e) => Err(e)
    case Ok(k) => Ok(k == RegularFile)
  }

  /** What one element of a listing leaves behind after filtering: itself, nothing, or the error of the test. */
  function Survivor(x: Result<DirEntry, IoError>, keep: DirEntry -> Result<bool, IoError>): (r: Entries)
    ensures |r| <= 1
    ensures x.Err? ==> r == [x]
    ensures x.Ok? ==> (r == [x] <==> keep(x.value) == Ok(true))
    ensures x.Ok? ==> (r == [] <==> keep(x.value) == Ok(false))
    ensures x.Ok? && keep(x.value).Err? ==> r == [Err(keep(x.value).error)]
  {
    match x
    case Err(e) => [Err(e)]
    case Ok(d) =>
      match keep(d)
      case Ok(true) => [Ok(d)]
      case Ok(false) => []
      case Err(e) => [Err(e)]
  }

  /** Filtering a listing by a fallible test, in order; filtering never adds elements. */
  function FilterMapEntries(s: Entries, keep: DirEntry -> Result<bool, IoError>): (r: Entries)
    ensures |r| <= |s|
  {
    if s == [] then [] else Survivor(s[0], keep) + FilterMapEntries(s[1..], keep)
  }

  /** A listing filtered by `keep`, then named by `name`. */
  function Listing(s: Entries, keep: DirEntry -> Result<bool, IoError>, name: DirEntry -> Result<Text, IoError>): Stream<Text> {
    MapNames(FilterMapEntries(s, keep), name)
  }

  /** A bucket's name: the entry's full path, which must be valid UTF-8. */
  function BucketName(root: Text, d: DirEntry): (r: Result<Text, IoError>)
    ensures r.Ok? <==> WellFormed(Join(root, d.name))
    ensures r.Ok? ==> r.value == Join(root, d.name)
    ensures WellFormed(root) ==> (r.Ok? <==> WellFormed(d.name))
    ensures r.Err? ==> r.error == InvalidBucketName
  {
    var p := Join(root, d.name);
    assert WellFormed(root) ==> (WellFormed(p) <==> WellFormed(d.name)) by {
      if WellFormed(root) {
        JoinWellFormed(root, d.name);
      }
    }
    if WellFormed(p) then Ok(p) else Err(InvalidBucketName)
  }

  function BucketNamer(root: Text): DirEntry -> Result<Text, IoError> {
    d => BucketName(root, d)
  }

  // ---------------------------------------------------------------------------
  // Store primitives

  /**
   * The buckets: the directories among the root's entries, named by full path.
   * A root that cannot be listed fails as a whole, with the listing's own error.
   */
  function GetBuckets(cfg: SimpleFsKvStoreString, fs: FileSystem): (r: Result<Stream<Text>, IoError>)
    ensures r.Ok? <==> cfg.rootDir in fs.dirs
    ensures r.Err? ==> r.error == ReadDir(fs, cfg.rootDir).error
  {
    match ReadDir(fs, cfg.rootDir)
    case Err(e) => Err(e)
    case Ok(entries) => Ok(Listing(entries, IsDir, BucketNamer(cfg.rootDir)))
  }

  /**
   * The keys of a bucket: the regular files among its entries, named by file
   * name. A bucket that cannot be listed fails as a whole, with a wrapped error.
   */
  function GetKeys(fs: FileSystem, bkt: Text): (r: Result<Stream<Text>, IoError>)
    ensures r.Ok? <==> bkt in fs.dirs
    ensures r.Err? ==> r.error == UnableToReadDir(bkt, ReadDir(fs, bkt).error)
    ensures r.Ok? ==> r.value == Dirents2Basenames(FilterMapEntries(fs.dirs[bkt], IsFile))
  {
    match ReadDir(fs, bkt)
    case Err(e) => Err(UnableToReadDir(bkt, e))
    case Ok(entries) => Ok(Listing(entries, IsFile, Basename))
  }

  /** At most `limit` bytes from the front of `bytes`. */
  function Take(bytes: seq<byte>, limit: u64): (r: seq<byte>)
    ensures r <= bytes
    ensures |r| == if |bytes| <= limit as int then |bytes| else limit as int
  {
    if |bytes| <= limit as int then bytes else bytes[..limit]
  }

  /**
   * The value of a key: the file at the bucket path joined with the key, read
   * up to the ceiling, which must be valid UTF-8 text. A file that cannot be
   * opened gives a wrapped error naming the path.
   */
  function GetVal(cfg: SimpleFsKvStoreString, fs: FileSystem, bkt: Text, key: Text): (r: Result<Text, IoError>)
    ensures Join(bkt, key) !in fs.files ==> r == Err(UnableToOpen(Join(bkt, key), NotFound(Join(bkt, key))))
    ensures Join(bkt, key) in fs.files ==> (r.Ok? <==> WellFormed(Take(fs.files[Join(bkt, key)], cfg.maxFileSize)))
    ensures Join(bkt, key) in fs.files && r.Err? ==> r.error == InvalidData
    ensures r.Ok? ==>
      var content := fs.files[Join(bkt, key)];
      r.value <= content && WellFormed(r.value) &&
      |r.value| <= cfg.maxFileSize as int &&
      (|content| <= cfg.maxFileSize as int ==> r.value == content) &&
      (|content| > cfg.maxFileSize as int ==> |r.value| == cfg.maxFileSize as int)
  {
    var full := Join(bkt, key);
    match Open(fs, full)
    case Err(e) => Err(UnableToOpen(full, e))
    case Ok(bytes) =>
      var limited := Take(bytes, cfg.maxFileSize);
      if WellFormed(limited) then Ok(limited) else Err(InvalidData)
  }

  /** The store's constant schema: three non-nullable text fields, bucket, key and value, in that order. */
  function FsSchema(): (sch: Schema)
    ensures |sch.fields| == 3
    ensures sch.fields[0].name == "bucket" && sch.fields[1].name == "key" && sch.fields[2].name == "value"
    ensures forall i | 0 <= i < 3 :: sch.fields[i].dataType == Utf8 && !sch.fields[i].nullable
  {
    Schema([Field("bucket", Utf8, false), Field("key", Utf8, false), Field("value", Utf8, false)])
  }

  /** A text column of `sz` rows, each holding the bucket `b`. */
  function Bucket2Arr(b: Text, sz: nat): (col: Column<Text>)
    ensures col.dataType == Utf8 && |col.cells| == sz
    ensures forall i | 0 <= i < sz :: col.cells[i] == b
  {
    StringArray(seq(sz, _ => b))
  }

  // ---------------------------------------------------------------------------
  // Draining streams

  /**
   * Draining a stream in order: all of its values when every element succeeds,
   * otherwise the error of the first element that fails.
   */
  function Collect<T, E>(s: seq<Result<T, E>>): (r: Result<seq<T>, E>)
    ensures r.Ok? <==> forall i | 0 <= i < |s| :: s[i].Ok?
    ensures r.Ok? ==> |r.value| == |s| && forall i | 0 <= i < |s| :: r.value[i] == s[i].value
    ensures forall k | 0 <= k < |s| && s[k].Err? && (forall j | 0 <= j < k :: s[j].Ok?) :: r == Err(s[k].error)
  {
    if s == [] then Ok([])
    else
      match s[0]
      case Err(e) => Err(e)
      case Ok(x) =>
        match Collect(s[1..])
        case Err(e) =>
          assert forall k | 1 <= k < |s| :: s[k] == s[1..][k - 1];
          Err(e)
        case Ok(xs) => Ok([x] + xs)
  }

  /** The fold that drains a stream into a vector, stopping at the first error. */
  method TryCollect<T, E>(s: seq<Result<T, E>>) returns (r: Result<seq<T>, E>)
    ensures r == Collect(s)
  {
    var acc: seq<T> := [];
    for i := 0 to |s|
      invariant |acc| == i
      invariant forall j | 0 <= j < i :: s[j].Ok? && acc[j] == s[j].value
    {
      if s[i].Err? {
        return Err(s[i].error);
      }
      acc := acc + [s[i].value];
    }
    assert Collect(s).value == acc;
    return Ok(acc);
  }

  /** A stream of names drained into a text column. */
  function CollectArray(s: Stream<Text>): (r: Result<Column<Text>, IoError>)
    ensures r.Ok? <==> Collect(s).Ok?
    ensures r.Ok? ==> r.value == StringArray(Collect(s).value)
    ensures r.Err? ==> r.error == Collect(s).error
  {
    match Collect(s)
    case Err(e) => Err(e)
    case Ok(v) => Ok(StringArray(v))
  }

  /** Drains the bucket stream into a column, in encounter order; the first failing element fails it. */
  method Buckets2Array(buckets: Stream<Text>) returns (r: Result<Column<Text>, IoError>)
    ensures r == CollectArray(buckets)
  {
    var v := TryCollect(buckets);
    match v
    case Err(e) => r := Err(e);
    case Ok(names) => r := Ok(StringArray(names));
  }

  /** Drains the key stream into a column, in encounter order; the first failing element fails it. */
  method Keys2Array(keys: Stream<Text>) returns (r: Result<Column<Text>, IoError>)
    ensures r == CollectArray(keys)
  {
    var v := TryCollect(keys);
    match v
    case Err(e) => r := Err(e);
    case Ok(names) => r := Ok(StringArray(names));
  }

  // ---------------------------------------------------------------------------
  // Key/value pairs

  /** The value lookups for a key column, in key order. */
  function Resolve(cfg: SimpleFsKvStoreString, fs: FileSystem, bkt: Text, karr: seq<Text>): Stream<Text> {
    seq(|karr|, i requires 0 <= i < |karr| => GetVal(cfg, fs, bkt, karr[i]))
  }

  /**
   * The key column and the value column of a bucket: the drained keys, and for
   * each of them in order its value; the first failing key or lookup fails it.
   */
  function Keys2PairsSpec(cfg: SimpleFsKvStoreString, fs: FileSystem, bkt: Text, keys: Stream<Text>): (r: Result<(Column<Text>, Column<Text>), IoError>)
    ensures Collect(keys).Err? ==> r == Err(Collect(keys).error)
  {
    match Collect(keys)
    case Err(e) => Err(e)
    case Ok(karr) =>
      match Collect(Resolve(cfg, fs, bkt, karr))
      case Err(e) => Err(e)
      case Ok(vals) => Ok((StringArray(karr), StringArray(vals)))
  }

  /**
   * Once the keys are drained, the pairs exist exactly when every lookup
   * succeeds, and then the key column is the keys in encounter order and value
   * i is the value of key i.
   */
  lemma Keys2PairsValues(cfg: SimpleFsKvStoreString, fs: FileSystem, bkt: Text, keys: Stream<Text>, karr: seq<Text>)
    requires Collect(keys) == Ok(karr)
    ensures var r := Keys2PairsSpec(cfg, fs, bkt, keys);
      (r.Ok? <==> forall i | 0 <= i < |karr| :: GetVal(cfg, fs, bkt, karr[i]).Ok?) &&
      (r.Ok? ==>
        r.value.0 == StringArray(karr) && r.value.1.dataType == Utf8 && |r.value.1.cells| == |karr| &&
        forall i | 0 <= i < |karr| :: GetVal(cfg, fs, bkt, karr[i]) == Ok(r.value.1.cells[i]))
  {
    var lookups := Resolve(cfg, fs, bkt, karr);
    assert forall i | 0 <= i < |karr| :: lookups[i] == GetVal(cfg, fs, bkt, karr[i]);
  }

  /** Once the keys are drained, the first lookup that fails decides the error. */
  lemma Keys2PairsFirstFailure(cfg: SimpleFsKvStoreString, fs: FileSystem, bkt: Text, keys: Stream<Text>, karr: seq<Text>, k: nat)
    requires Collect(keys) == Ok(karr)
    requires k < |karr| && GetVal(cfg, fs, bkt, karr[k]).Err?
    requires forall j | 0 <= j < k :: GetVal(cfg, fs, bkt, karr[j]).Ok?
    ensures Keys2PairsSpec(cfg, fs, bkt, keys) == Err(GetVal(cfg, fs, bkt, karr[k]).error)
  {
    var lookups := Resolve(cfg, fs, bkt, karr);
    assert lookups[k] == GetVal(cfg, fs, bkt, karr[k]);
    assert forall j | 0 <= j < k :: lookups[j] == GetVal(cfg, fs, bkt, karr[j]);
  }

  /**
   * The keys handed to the lookups, `calls`, are the key column's first keys in
   * order: all of them when no lookup failed; otherwise every lookup but the
   * last succeeded and the last one failed.
   */
  ghost predicate StopsAtFirstFailure(cfg: SimpleFsKvStoreString, fs: FileSystem, bkt: Text, karr: seq<Text>, calls: seq<Text>, failed: bool) {
    calls <= karr &&
    (!failed ==> calls == karr) &&
    (failed ==> |calls| > 0 && GetVal(cfg, fs, bkt, calls[|calls| - 1]).Err?) &&
    forall j | 0 <= j < |calls| - 1 :: GetVal(cfg, fs, bkt, calls[j]).Ok?
  }

  /**
   * Drains the keys, then looks up their values one at a time, in key order,
   * through a reused buffer, and stops at the first lookup that fails.
   * `calls` records the key passed to each lookup.
   */
  method Keys2Pairs(cfg: SimpleFsKvStoreString, fs: FileSystem, bkt: Text, keys: Stream<Text>)
    returns (r: Result<(Column<Text>, Column<Text>), IoError>, ghost calls: seq<Text>)
    ensures r == Keys2PairsSpec(cfg, fs, bkt, keys)
    ensures Collect(keys).Err? ==> calls == []
    ensures Collect(keys).Ok? ==> StopsAtFirstFailure(cfg, fs, bkt, Collect(keys).value, calls, r.Err?)
  {
    calls := [];
    var k := Keys2Array(keys);
    if k.Err? {
      return Err(k.error), calls;
    }
    var karr := k.value;
    var names := karr.cells;
    var buf: Text := [];
    var vals: seq<Text> := [];
    for i := 0 to |names|
      invariant |vals| == i && calls == names[..i]
      invariant forall j | 0 <= j < i :: GetVal(cfg, fs, bkt, names[j]) == Ok(vals[j])
    {
      buf := [];
      buf := buf + names[i];
      assert buf == names[i];
      assert names[..i + 1] == names[..i] + [names[i]];
      calls := calls + [buf];
      var v := GetVal(cfg, fs, bkt, buf);
      if v.Err? {
        Keys2PairsFirstFailure(cfg, fs, bkt, keys, names, i);
        assert StopsAtFirstFailure(cfg, fs, bkt, names, calls, true);
        return Err(v.error), calls;
      }
      vals := vals + [v.value];
    }
    assert calls == names;
    Keys2PairsValues(cfg, fs, bkt, keys, names);
    ghost var spec := Keys2PairsSpec(cfg, fs, bkt, keys);
    assert spec.value.1.cells == vals;
    assert StopsAtFirstFailure(cfg, fs, bkt, names, calls, false);
    r := Ok((karr, StringArray(vals)));
  }

  // ---------------------------------------------------------------------------
  // The store

  /**
   * The filesystem store, seen through the primitives the conversion uses: its
   * key listing is `GetKeys`, its pair resolution is what the `Keys2Pairs`
   * method computes, its bucket column repeats the bucket, and its schema is
   * the constant three-text-field schema.
   */
  function Store(cfg: SimpleFsKvStoreString, fs: FileSystem): (s: Core.KvStore<Text, Text, Text, Stream<Text>, IoError>)
    ensures forall bkt :: s.getKeys(bkt) == GetKeys(fs, bkt)
    ensures forall bkt, keys :: s.keys2pairs(bkt, keys) == Keys2PairsSpec(cfg, fs, bkt, keys)
    ensures forall b, sz :: s.bucket2arr(b, sz).dataType == Utf8 && |s.bucket2arr(b, sz).cells| == sz
    ensures forall b, sz, i | 0 <= i < sz :: s.bucket2arr(b, sz).cells[i] == b
    ensures s.schema == Ok(FsSchema())
  {
    Core.KvStore(
      bkt => GetKeys(fs, bkt),
      (bkt, keys) => Keys2PairsSpec(cfg, fs, bkt, keys),
      (b, sz) => Bucket2Arr(b, sz),
      Ok(FsSchema()))
  }

  // ---------------------------------------------------------------------------
  // Listings: order, dropping and membership

  /** Filtering keeps the listing's order: it filters the two halves of a listing separately. */
  lemma {:induction false} FilterMapAppend(a: Entries, b: Entries, keep: DirEntry -> Result<bool, IoError>)
    ensures FilterMapEntries(a + b, keep) == FilterMapEntries(a, keep) + FilterMapEntries(b, keep)
  {
    if a == [] {
      assert a + b == b;
    } else {
      assert (a + b)[1..] == a[1..] + b;
      FilterMapAppend(a[1..], b, keep);
    }
  }

  /** An entry survives filtering exactly when it is in the listing and passes the test. */
  lemma {:induction false} FilterMapOk(s: Entries, keep: DirEntry -> Result<bool, IoError>, d: DirEntry)
    ensures Ok(d) in FilterMapEntries(s, keep) <==> Ok(d) in s && keep(d) == Ok(true)
  {
    if s != [] {
      FilterMapOk(s[1..], keep, d);
      assert Ok(d) in s <==> s[0] == Ok(d) || Ok(d) in s[1..];
    }
  }

  /** The errors after filtering are exactly the listing's failed entries and the failed tests. */
  lemma {:induction false} FilterMapErr(s: Entries, keep: DirEntry -> Result<bool, IoError>, e: IoError)
    ensures Err(e) in FilterMapEntries(s, keep) <==>
      Err(e) in s || exists d :: Ok(d) in s && keep(d) == Err(e)
  {
    if s != [] {
      FilterMapErr(s[1..], keep, e);
      assert Err(e) in s <==> s[0] == Err(e) || Err(e) in s[1..];
      if exists d :: Ok(d) in s && keep(d) == Err(e) {
        var d :| Ok(d) in s && keep(d) == Err(e);
        if s[0] != Ok(d) {
          assert Ok(d) in s[1..];
        }
      }
      if exists d :: Ok(d) in s[1..] && keep(d) == Err(e) {
        var d :| Ok(d) in s[1..] && keep(d) == Err(e);
        assert Ok(d) in s;
      }
    }
  }

  lemma MapNamesAppend(a: Entries, b: Entries, name: DirEntry -> Result<Text, IoError>)
    ensures MapNames(a + b, name) == MapNames(a, name) + MapNames(b, name)
  {
  }

  /** A listing of two halves is the listing of the first half followed by that of the second. */
  lemma ListingAppend(a: Entries, b: Entries, keep: DirEntry -> Result<bool, IoError>, name: DirEntry -> Result<Text, IoError>)
    ensures Listing(a + b, keep, name) == Listing(a, keep, name) + Listing(b, keep, name)
  {
    FilterMapAppend(a, b, keep);
    MapNamesAppend(FilterMapEntries(a, keep), FilterMapEntries(b, keep), name);
  }

  /** An entry that fails the test is dropped silently: the listing is as if it were absent. */
  lemma ListingDrops(pre: Entries, d: DirEntry, post: Entries, keep: DirEntry -> Result<bool, IoError>, name: DirEntry -> Result<Text, IoError>)
    requires keep(d) == Ok(false)
    ensures Listing(pre + [Ok(d)] + post, keep, name) == Listing(pre + post, keep, name)
  {
    ListingAppend(pre + [Ok(d)], post, keep, name);
    ListingAppend(pre, [Ok(d)], keep, name);
    ListingAppend(pre, post, keep, name);
    assert FilterMapEntries([Ok(d)], keep) == [];
  }

  /** The names a listing yields are those of the entries that pass the test and whose naming succeeds. */
  lemma ListingOk(s: Entries, keep: DirEntry -> Result<bool, IoError>, name: DirEntry -> Result<Text, IoError>, p: Text)
    ensures Ok(p) in Listing(s, keep, name) <==> exists d :: Ok(d) in s && keep(d) == Ok(true) && name(d) == Ok(p)
  {
    var f := FilterMapEntries(s, keep);
    var out := MapNames(f, name);
    if Ok(p) in out {
      var i :| 0 <= i < |out| && out[i] == Ok(p);
      var d := f[i].value;
      FilterMapOk(s, keep, d);
      assert Ok(d) in f;
    }
    if exists d :: Ok(d) in s && keep(d) == Ok(true) && name(d) == Ok(p) {
      var d :| Ok(d) in s && keep(d) == Ok(true) && name(d) == Ok(p);
      FilterMapOk(s, keep, d);
      var i :| 0 <= i < |f| && f[i] == Ok(d);
      assert out[i] == Ok(p);
    }
  }

  /**
   * The errors a listing yields are exactly the listing's failed entries, the
   * failed tests, and the failed namings of entries that pass the test.
   */
  lemma ListingErr(s: Entries, keep: DirEntry -> Result<bool, IoError>, name: DirEntry -> Result<Text, IoError>, e: IoError)
    ensures Err(e) in Listing(s, keep, name) <==>
      Err(e) in s ||
      (exists d :: Ok(d) in s && keep(d) == Err(e)) ||
      (exists d :: Ok(d) in s && keep(d) == Ok(true) && name(d) == Err(e))
  {
    var f := FilterMapEntries(s, keep);
    var out := MapNames(f, name);
    FilterMapErr(s, keep, e);
    if Err(e) in out {
      var i :| 0 <= i < |out| && out[i] == Err(e);
      if f[i].Err? {
        assert Err(e) in f;
      } else {
        var d := f[i].value;
        FilterMapOk(s, keep, d);
        assert Ok(d) in f;
      }
    }
    if Err(e) in f {
      var i :| 0 <= i < |f| && f[i] == Err(e);
      assert out[i] == Err(e);
    }
    if exists d :: Ok(d) in s && keep(d) == Ok(true) && name(d) == Err(e) {
      var d :| Ok(d) in s && keep(d) == Ok(true) && name(d) == Err(e);
      FilterMapOk(s, keep, d);
      var i :| 0 <= i < |f| && f[i] == Ok(d);
      assert out[i] == Err(e);
    }
  }

  // ---------------------------------------------------------------------------
  // Buckets and keys

  /**
   * The buckets are the full paths of the root's directory entries whose names
   * are valid UTF-8; nothing else is listed as a bucket.
   */
  lemma GetBucketsNames(cfg: SimpleFsKvStoreString, fs: FileSystem, p: Text)
    requires cfg.rootDir in fs.dirs
    ensures Ok(p) in GetBuckets(cfg, fs).value <==>
      exists d :: Ok(d) in fs.dirs[cfg.rootDir] && d.fileType == Ok(Directory) && WellFormed(d.name) && p == Join(cfg.rootDir, d.name)
  {
    ListingOk(fs.dirs[cfg.rootDir], IsDir, BucketNamer(cfg.rootDir), p);
    forall d: DirEntry
      ensures BucketNamer(cfg.rootDir)(d) == Ok(p) <==> WellFormed(d.name) && p == Join(cfg.rootDir, d.name)
    {
      JoinWellFormed(cfg.rootDir, d.name);
    }
  }

  /**
   * The bucket stream's errors are the root listing's failed entries, the failed
   * type lookups, and "invalid bucket name" for a directory whose name is not
   * valid UTF-8.
   */
  lemma GetBucketsErrors(cfg: SimpleFsKvStoreString, fs: FileSystem, e: IoError)
    requires cfg.rootDir in fs.dirs
    ensures Err(e) in GetBuckets(cfg, fs).value <==>
      Err(e) in fs.dirs[cfg.rootDir] ||
      (exists d :: Ok(d) in fs.dirs[cfg.rootDir] && d.fileType == Err(e)) ||
      (e == InvalidBucketName && exists d :: Ok(d) in fs.dirs[cfg.rootDir] && d.fileType == Ok(Directory) && !WellFormed(d.name))
  {
    ListingErr(fs.dirs[cfg.rootDir], IsDir, BucketNamer(cfg.rootDir), e);
    forall d: DirEntry
      ensures BucketNamer(cfg.rootDir)(d) == Err(e) <==> e == InvalidBucketName && !WellFormed(d.name)
    {
      JoinWellFormed(cfg.rootDir, d.name);
    }
  }

  /** The keys are the names, valid UTF-8, of the bucket's regular files; nothing else is listed as a key. */
  lemma GetKeysNames(fs: FileSystem, bkt: Text, k: Text)
    requires bkt in fs.dirs
    ensures Ok(k) in GetKeys(fs, bkt).value <==>
      WellFormed(k) && exists d :: Ok(d) in fs.dirs[bkt] && d.fileType == Ok(RegularFile) && d.name == k
  {
    ListingOk(fs.dirs[bkt], IsFile, Basename, k);
  }

  /**
   * The key stream's errors are the bucket listing's failed entries, the failed
   * type lookups, and "invalid filename" for a regular file whose name is not
   * valid UTF-8.
   */
  lemma GetKeysErrors(fs: FileSystem, bkt: Text, e: IoError)
    requires bkt in fs.dirs
    ensures Err(e) in GetKeys(fs, bkt).value <==>
      Err(e) in fs.dirs[bkt] ||
      (exists d :: Ok(d) in fs.dirs[bkt] && d.fileType == Err(e)) ||
      (e == InvalidFilename && exists d :: Ok(d) in fs.dirs[bkt] && d.fileType == Ok(RegularFile) && !WellFormed(d.name))
  {
    ListingErr(fs.dirs[bkt], IsFile, Basename, e);
  }

  // ---------------------------------------------------------------------------
  // The conversion over the filesystem store

  /**
   * The filesystem store is well-behaved: bucket columns have the requested
   * length, key and value columns agree in length, and the schema's three text
   * fields match the three text columns.
   */
  lemma StoreLawful(cfg: SimpleFsKvStoreString, fs: FileSystem)
    ensures Core.Lawful(Store(cfg, fs))
  {
    var s := Store(cfg, fs);
    forall b: Text, ks: Stream<Text> | s.keys2pairs(b, ks).Ok?
      ensures |s.keys2pairs(b, ks).value.0.cells| == |s.keys2pairs(b, ks).value.1.cells|
      ensures s.keys2pairs(b, ks).value.0.dataType == Utf8 && s.keys2pairs(b, ks).value.1.dataType == Utf8
    {
      Keys2PairsValues(cfg, fs, b, ks, Collect(ks).value);
    }
  }

  /** A bucket that cannot be listed ends the conversion with the wrapped listing error. */
  lemma ConvertUnlistableBucket(cfg: SimpleFsKvStoreString, fs: FileSystem, bkt: Text)
    requires bkt !in fs.dirs
    ensures Core.Bucket2Batch(Store(cfg, fs), bkt) == Err(Core.MapToArrowError(UnableToReadDir(bkt, NotFound(bkt))))
  {
  }

  /** A failing element of the key stream ends the conversion with the first such error. */
  lemma ConvertKeyStreamError(cfg: SimpleFsKvStoreString, fs: FileSystem, bkt: Text)
    requires bkt in fs.dirs && Collect(GetKeys(fs, bkt).value).Err?
    ensures Core.Bucket2Batch(Store(cfg, fs), bkt) == Err(Core.MapToArrowError(Collect(GetKeys(fs, bkt).value).error))
  {
  }

  /**
   * With the keys drained, the conversion succeeds exactly when every key's
   * value can be read, and then row i of the batch is the bucket, key i in
   * encounter order, and the value of key i, under the store's schema.
   */
  lemma ConvertBucketRows(cfg: SimpleFsKvStoreString, fs: FileSystem, bkt: Text, names: seq<Text>)
    requires bkt in fs.dirs && Collect(GetKeys(fs, bkt).value) == Ok(names)
    ensures var r := Core.Bucket2Batch(Store(cfg, fs), bkt);
      (r.Ok? <==> forall i | 0 <= i < |names| :: GetVal(cfg, fs, bkt, names[i]).Ok?) &&
      (r.Ok? ==>
        r.value.schema == FsSchema() &&
        |r.value.bucket.cells| == |r.value.key.cells| == |r.value.value.cells| == |names| &&
        forall i | 0 <= i < |names| ::
          r.value.bucket.cells[i] == bkt && r.value.key.cells[i] == names[i] &&
          GetVal(cfg, fs, bkt, names[i]) == Ok(r.value.value.cells[i]))
  {
    StoreLawful(cfg, fs);
    Core.LawfulConversion(Store(cfg, fs), bkt);
    Keys2PairsValues(cfg, fs, bkt, GetKeys(fs, bkt).value, names);
  }

  /** The first key whose value cannot be read ends the conversion with that lookup's error; no batch is produced. */
  lemma ConvertFirstFailingLookup(cfg: SimpleFsKvStoreString, fs: FileSystem, bkt: Text, names: seq<Text>, k: nat)
    requires bkt in fs.dirs && Collect(GetKeys(fs, bkt).value) == Ok(names)
    requires k < |names| && GetVal(cfg, fs, bkt, names[k]).Err?
    requires forall j | 0 <= j < k :: GetVal(cfg, fs, bkt, names[j]).Ok?
    ensures Core.Bucket2Batch(Store(cfg, fs), bkt) == Err(Core.MapToArrowError(GetVal(cfg, fs, bkt, names[k]).error))
  {
    Keys2PairsFirstFailure(cfg, fs, bkt, GetKeys(fs, bkt).value, names, k);
  }

  /** An empty bucket directory converts into a batch of no rows, not an error. */
  lemma ConvertEmptyBucket(cfg: SimpleFsKvStoreString, fs: FileSystem, bkt: Text)
    requires bkt in fs.dirs && fs.dirs[bkt] == []
    ensures var r := Core.Bucket2Batch(Store(cfg, fs), bkt);
      r.Ok? && r.value.bucket.cells == r.value.key.cells == r.value.value.cells == []
  {
    assert GetKeys(fs, bkt).value == [];
    ConvertBucketRows(cfg, fs, bkt, []);
  }
}
