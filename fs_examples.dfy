/**
 * Worked examples of the filesystem store: a root directory `r` holding one
 * bucket directory `alpha` with the files `k1` and `k2`.
 */
module FsExamples {
  import opened Results
  import opened Utf8Text
  import opened Arrow
  import opened FsModel
  import opened FsKvs
  import Core

  const Root: Text := [0x72]                              // "r"
  const Alpha: Text := [0x61, 0x6C, 0x70, 0x68, 0x61]     // "alpha"
  const AlphaPath: Text := [0x72, 0x2F, 0x61, 0x6C, 0x70, 0x68, 0x61]  // "r/alpha"
  const K1: Text := [0x6B, 0x31]                          // "k1"
  const K2: Text := [0x6B, 0x32]                          // "k2"
  const V1: Text := [0x76, 0x31]                          // "v1"
  const V2: Text := [0x76, 0x32]                          // "v2"
  const Hello: Text := [0x68, 0x65, 0x6C, 0x6C, 0x6F]     // "hello"
  const EAcute: Text := [0xC3, 0xA9]                      // "é", two bytes

  function Tree(): FileSystem {
    FileSystem(
      map[Root := [Ok(DirEntry(Alpha, Ok(Directory)))],
          AlphaPath := [Ok(DirEntry(K1, Ok(RegularFile))), Ok(DirEntry(K2, Ok(RegularFile)))]],
      map[AlphaPath + [0x2F] + K1 := V1, AlphaPath + [0x2F] + K2 := V2])
  }

  lemma {:induction false} AsciiWellFormed(s: Text)
    requires forall i | 0 <= i < |s| :: s[i] <= 0x7F
    ensures WellFormed(s)
    decreases |s|
  {
    if s != [] {
      assert LeadWidth(s) == 1;
      AsciiWellFormed(s[1..]);
    }
  }

  /** The root lists one bucket, named by its full path. */
  lemma OneBucketListed()
    ensures GetBuckets(SimpleFsKvStoreString(Root, 1024), Tree()) == Ok([Ok(AlphaPath)])
  {
    var listed := Tree().dirs[Root];
    assert listed == [Ok(DirEntry(Alpha, Ok(Directory)))];
    assert FilterMapEntries(listed, IsDir) == listed by {
      assert listed[1..] == [];
    }
    assert BucketName(Root, DirEntry(Alpha, Ok(Directory))) == Ok(AlphaPath) by {
      AsciiWellFormed(AlphaPath);
      assert Join(Root, Alpha) == AlphaPath;
    }
    var names := Listing(listed, IsDir, BucketNamer(Root));
    assert names == [Ok(AlphaPath)] by {
      assert names[0] == Ok(AlphaPath);
    }
  }

  /** The bucket's keys drain to its two file names, in listing order. */
  lemma TwoKeysListed()
    ensures Collect(GetKeys(Tree(), AlphaPath).value) == Ok([K1, K2])
  {
    var fs := Tree();
    AsciiWellFormed(K1);
    AsciiWellFormed(K2);
    var keys := GetKeys(fs, AlphaPath).value;
    assert FilterMapEntries(fs.dirs[AlphaPath], IsFile) == fs.dirs[AlphaPath];
    assert keys[0] == Ok(K1) && keys[1] == Ok(K2);
    var names := Collect(keys).value;
    assert names == [K1, K2];
  }

  lemma TwoValuesRead()
    ensures GetVal(SimpleFsKvStoreString(Root, 1024), Tree(), AlphaPath, K1) == Ok(V1)
    ensures GetVal(SimpleFsKvStoreString(Root, 1024), Tree(), AlphaPath, K2) == Ok(V2)
  {
    AsciiWellFormed(V1);
    AsciiWellFormed(V2);
    assert Join(AlphaPath, K1) == AlphaPath + [0x2F] + K1;
    assert Join(AlphaPath, K2) == AlphaPath + [0x2F] + K2;
  }

  /** The bucket converts into two rows, in listing order. */
  lemma TwoFileBucket()
    ensures Core.Bucket2Batch(Store(SimpleFsKvStoreString(Root, 1024), Tree()), AlphaPath) ==
      Ok(RecordBatch(FsSchema(), StringArray([AlphaPath, AlphaPath]), StringArray([K1, K2]), StringArray([V1, V2])))
  {
    var cfg := SimpleFsKvStoreString(Root, 1024);
    var fs := Tree();
    TwoKeysListed();
    TwoValuesRead();
    ConvertBucketRows(cfg, fs, AlphaPath, [K1, K2]);
    var r := Core.Bucket2Batch(Store(cfg, fs), AlphaPath);
    assert r.value.bucket.cells == [AlphaPath, AlphaPath];
    assert r.value.key.cells == [K1, K2];
    assert r.value.value.cells == [V1, V2];
  }

  /** With a ceiling of 2 bytes, a file holding "hello" reads as "he", without an error. */
  lemma CeilingTruncates()
    ensures GetVal(SimpleFsKvStoreString(Root, 2), FileSystem(map[], map[[0x72, 0x2F] + K1 := Hello]), Root, K1) == Ok(Hello[..2])
  {
    AsciiWellFormed(Hello[..2]);
    assert Join(Root, K1) == [0x72, 0x2F] + K1;
  }

  /**
   * The ceiling does not always truncate silently: a ceiling of 1 byte cuts the
   * two-byte "é" in half, so a well-formed file reads as invalid data.
   */
  lemma CeilingSplitsCharacter()
    ensures WellFormed(EAcute)
    ensures GetVal(SimpleFsKvStoreString(Root, 1), FileSystem(map[], map[[0x72, 0x2F] + K1 := EAcute]), Root, K1) == Err(InvalidData)
  {
    assert LeadWidth(EAcute) == 2 && EAcute[2..] == [];
    assert Take(EAcute, 1) == [0xC3];
    assert LeadWidth([0xC3]) == 0;
    assert Join(Root, K1) == [0x72, 0x2F] + K1;
  }
}
