# rs-kvpairs2rbat in Dafny

A verified model of the core of rs-kvpairs2rbat. The library turns one bucket
of a key-value store into an Arrow record batch with three text columns:
bucket, key and value.

- `core.dfy` (module `Core`) models `src/core.rs`. This is the generic
  `KvStore` contract and its default pipeline, `bucket2batch`: list the
  bucket's keys, resolve them into a key column and a value column, build a
  bucket column as long as the key column, fetch the schema, and assemble the
  batch. A store is a datatype of the primitives the pipeline calls, given as
  functions. Every store error is wrapped unchanged as the external cause of
  an `ArrowError`. A refused assembly is reported with the three column
  lengths.
- `fs_kvs.dfy` (module `FsKvs`) models `src/kvstore/fs/kvs.rs`, the
  `SimpleFsKvStoreString` store:
  - buckets are the directories of a root directory, named by full path;
  - keys are the regular files of a bucket directory, named by file name;
  - values are file contents, read up to `max_file_size` bytes, which must be
    UTF-8.
  The stream filters are functions. `keys2pairs` is a method with the source's
  loop and reused buffer. The try-fold of `buckets2array`/`keys2array` is also
  a method. Each method is proved equal to a specification function.
  `FsKvs.Store` plugs the store into `Core`. The conversion is then proved end
  to end: rows are in key order, the bucket column repeats the bucket, value i
  is the value of key i, and the first failing lookup aborts the conversion.
- `fs_model.dfy` (module `FsModel`) models the filesystem as a value:
  - directory listings are sequences of entries, and each entry may fail;
  - an entry is a name plus the outcome of its file-type lookup;
  - files are byte strings;
  - `Path::join` follows Unix rules.
- `utf8_text.dfy` (module `Utf8Text`) holds texts as byte strings, and
  UTF-8 well-formedness as defined in section 4 of RFC 3629. This is the test
  behind `OsString::into_string`, `Path::to_str` and `read_to_string`.
- `arrow.dfy` (module `Arrow`) stands in for the Arrow library. It provides
  data types, fields, schemas, columns, the three-column record batch, and the
  checks that `RecordBatch::try_new` makes.
- `results.dfy` (module `Results`) defines `Result` and `Option`.
- `fs_examples.dfy` (module `FsExamples`) works through a root holding one
  bucket with two files, and shows a read cut at the byte ceiling.

A directory or regular file whose name is not valid UTF-8 is not skipped.
`kvs.rs:102-110` and `kvs.rs:132-139` turn it into an error element of the
stream ("invalid bucket name" / "invalid filename"). `GetBucketsErrors` and
`GetKeysErrors` state this.

The byte ceiling on values does not always truncate silently. A ceiling that
falls inside a multi-byte character leaves an incomplete character at the end
of what was read. `read_to_string` (`kvs.rs:83`) then rejects it as invalid
data, even though the file itself is well-formed UTF-8.
`FsExamples.CeilingSplitsCharacter` shows this for "é" under a 1-byte ceiling.

## Model

| member | source | states |
|---|---|---|
| Core.MapToArrowError | src/core.rs:52-54 | the store error is wrapped as the external cause and can be recovered from it unchanged |
| Core.Arr2Batch | src/core.rs:43-50 | the batch holds the bucket, key and value columns in that order under the given schema; it fails exactly when batch assembly refuses, with an invalid-argument error that carries no store error |
| Core.Bucket2Batch | src/core.rs:56-75 | on success the key and value columns are exactly what `keys2pairs` returned, the bucket column is the store's bucket column for the key count, the schema is the store's, and all three columns have the same length; a failure that carries no store error is a batch-assembly report |
| Core.KeyListingFailureAborts | src/core.rs:57 | a failed key listing gives that error wrapped, and replacing `keys2pairs`, `bucket2arr` and `schema` changes nothing (they are never reached) |
| Core.PairResolutionFailureAborts | src/core.rs:58-61 | a failed `keys2pairs` gives that error wrapped and no batch; `bucket2arr` and `schema` are never reached |
| Core.SchemaFailureAborts | src/core.rs:67 | a failed `schema()` aborts the conversion with that error wrapped |
| Core.AssemblyOutcome | src/core.rs:63-74 | the bucket column is built with the key length `klen`; the outcome is batch assembly's, and a refusal reports bucket, key and value lengths with no store error |
| Core.LengthMismatchReported | src/core.rs:69-74 | the pipeline never compares key and value lengths itself; unequal lengths fail only at assembly, as a length mismatch reported with all three lengths |
| Core.LawfulConversion | src/core.rs:56-75 | for a well-behaved store, the conversion succeeds iff every primitive does; then every column has `klen` rows, and any failure carries the store error |
| FsModel.Join | src/kvstore/fs/kvs.rs:74-75 | joining keeps the directory as prefix and the name as suffix; an absolute name replaces the directory |
| FsModel.JoinWellFormed | src/kvstore/fs/kvs.rs:102-108 | under a UTF-8 root, a joined path is valid UTF-8 exactly when the entry name is |
| Utf8Text.ConcatWellFormed | src/kvstore/fs/kvs.rs:104-108 | behind well-formed UTF-8, an extension is well-formed exactly when the whole is |
| FsKvs.Basename | src/kvstore/fs/kvs.rs:133-137 | a file name becomes a key exactly when it is valid UTF-8, and then unchanged; otherwise "invalid filename" |
| FsKvs.Survivor | src/kvstore/fs/kvs.rs:92-98 | a failed entry stays as its error; an entry stays iff its test gives `Ok(true)`, is dropped iff it gives `Ok(false)`, and becomes the test's error otherwise; never more than one element |
| FsKvs.BucketName | src/kvstore/fs/kvs.rs:102-110 | a bucket is named by its full path, root joined with the entry name, exactly when that path is UTF-8; under a UTF-8 root that is exactly when the entry name is; otherwise "invalid bucket name" |
| FsKvs.Dirents2Basenames | src/kvstore/fs/kvs.rs:26-38 | one element per entry, in order: a failed entry keeps its error, a UTF-8 name becomes the key, other names become "invalid filename" |
| FsKvs.IsDir | src/kvstore/fs/kvs.rs:40-43 | `Ok(true)` exactly for directories; a failed type lookup passes its error through |
| FsKvs.IsFile | src/kvstore/fs/kvs.rs:45-48 | `Ok(true)` exactly for regular files; a failed type lookup passes its error through |
| FsKvs.GetBuckets | src/kvstore/fs/kvs.rs:87-89 | fails as a whole, with the listing's own error, exactly when the root cannot be listed |
| FsKvs.GetKeys | src/kvstore/fs/kvs.rs:114-141 | fails as a whole, with a wrapped error, exactly when the bucket cannot be listed; otherwise the key stream is the file-name stream of the regular-file entries |
| FsKvs.Take | src/kvstore/fs/kvs.rs:81 | the limited read is a prefix of the content, of length min(content length, limit) |
| FsKvs.GetVal | src/kvstore/fs/kvs.rs:73-85 | opens bucket joined with key; an open failure is a wrapped error naming the path; the value is a UTF-8 prefix of the file of at most `max_file_size` bytes, the whole file when it fits, and exactly the ceiling when it does not; bytes read that are not UTF-8 give an invalid-data error, even when the ceiling only cut a character in two |
| FsKvs.FsSchema | src/kvstore/fs/kvs.rs:143-150 | exactly three fields named bucket, key, value, in that order, all Utf8 and non-nullable |
| FsKvs.Bucket2Arr | src/kvstore/fs/kvs.rs:152-155 | a text column of exactly `sz` rows, every one equal to the bucket |
| FsKvs.Collect | src/kvstore/fs/kvs.rs:157-174 | succeeds iff every element does, then gives the values in encounter order; otherwise gives the error of the first failing element |
| FsKvs.TryCollect | src/kvstore/fs/kvs.rs:168-172 | the push-accumulating fold computes `Collect` |
| FsKvs.Buckets2Array | src/kvstore/fs/kvs.rs:157-165 | drains the bucket stream into a text column in encounter order, or fails with the first element error |
| FsKvs.Keys2Array | src/kvstore/fs/kvs.rs:167-174 | drains the key stream into a text column in encounter order, or fails with the first element error |
| FsKvs.Keys2PairsSpec | src/kvstore/fs/kvs.rs:176-194 | a key-stream error is returned unchanged, with no arrays |
| FsKvs.Keys2PairsValues | src/kvstore/fs/kvs.rs:181-193 | once keys are drained: success iff every lookup succeeds, then key and value columns of equal length with `value[i] = get_val(bkt, key[i])` in key order |
| FsKvs.Keys2PairsFirstFailure | src/kvstore/fs/kvs.rs:185-190 | the first failing lookup's error is the result, and no arrays are returned |
| FsKvs.Keys2Pairs | src/kvstore/fs/kvs.rs:176-194 | the loop computes `Keys2PairsSpec`; the buffer passed to each lookup is `key[i]`, lookups go in key order, and they stop at the first failure |
| FsKvs.Store | src/kvstore/fs/kvs.rs:50-195 | the store the conversion sees: its key listing is `GetKeys`, its pair resolution is what the `Keys2Pairs` loop computes, its bucket column is `sz` copies of the bucket as text, and its schema is the constant three-field schema |
| FsKvs.FilterMapAppend | src/kvstore/fs/kvs.rs:91-100 | filtering preserves order: it distributes over concatenation of listings |
| FsKvs.FilterMapEntries | src/kvstore/fs/kvs.rs:121-130 | filtering a listing never adds elements |
| FsKvs.FilterMapOk | src/kvstore/fs/kvs.rs:91-100 | an entry survives iff it is in the listing and its test gives `Ok(true)` |
| FsKvs.FilterMapErr | src/kvstore/fs/kvs.rs:121-130 | the errors after filtering are exactly the failed entries and the failed type lookups |
| FsKvs.ListingAppend | src/kvstore/fs/kvs.rs:87-111 | the named listing of two halves is the concatenation of the halves' listings (order preserved) |
| FsKvs.ListingDrops | src/kvstore/fs/kvs.rs:96 | an entry whose test gives `Ok(false)` is dropped silently: the listing is as if it were absent |
| FsKvs.ListingOk | src/kvstore/fs/kvs.rs:114-139 | the listed names are exactly the names of entries that pass the test and whose naming succeeds |
| FsKvs.ListingErr | src/kvstore/fs/kvs.rs:114-139 | the listed errors are exactly the entry errors, the test errors, and the naming errors of entries that pass |
| FsKvs.GetBucketsNames | src/kvstore/fs/kvs.rs:91-110 | the buckets are exactly the full paths of the root's directory entries with UTF-8 names |
| FsKvs.GetBucketsErrors | src/kvstore/fs/kvs.rs:91-110 | the bucket stream's errors are exactly the entry errors, the file-type errors, and "invalid bucket name" for non-UTF-8 directories |
| FsKvs.GetKeysNames | src/kvstore/fs/kvs.rs:121-139 | the keys are exactly the UTF-8 basenames of the bucket's regular files |
| FsKvs.GetKeysErrors | src/kvstore/fs/kvs.rs:121-139 | the key stream's errors are exactly the entry errors, the file-type errors, and "invalid filename" for non-UTF-8 regular files |
| FsKvs.StoreLawful | src/kvstore/fs/kvs.rs:143-155 | the filesystem store is well-behaved: full-length bucket columns, key and value columns of equal length, a schema matching the three text columns |
| FsKvs.ConvertUnlistableBucket | src/kvstore/fs/kvs.rs:114-119 | a bucket directory that cannot be read ends the conversion with the wrapped listing error |
| FsKvs.ConvertKeyStreamError | src/kvstore/fs/kvs.rs:181 | the first failing key-stream element ends the conversion with that error |
| FsKvs.ConvertBucketRows | src/core.rs:56-75 | with keys drained, success iff every value can be read; then row i holds the bucket, key i in listing order, and the value of key i, under the store's schema |
| FsKvs.ConvertFirstFailingLookup | src/kvstore/fs/kvs.rs:185-190 | the first key whose value cannot be read ends the conversion with that lookup's error and no batch |
| FsKvs.ConvertEmptyBucket | src/core.rs:56-75 | an empty bucket converts into a batch of zero rows, not an error |
| FsExamples.OneBucketListed | src/kvstore/fs/kvs.rs:87-112 | a root holding one directory `alpha` lists the single bucket `r/alpha` (its full path) |
| FsExamples.TwoKeysListed | src/kvstore/fs/kvs.rs:114-141 | that bucket's two files drain to the keys `k1`, `k2` in listing order |
| FsExamples.TwoValuesRead | src/kvstore/fs/kvs.rs:73-85 | their values read as `v1`, `v2` |
| FsExamples.TwoFileBucket | src/core.rs:56-75 | the bucket converts into two rows, (r/alpha, k1, v1) and (r/alpha, k2, v2) |
| FsExamples.CeilingTruncates | src/kvstore/fs/kvs.rs:81-84 | with a 2-byte ceiling, "hello" reads as "he", without an error |
| FsExamples.CeilingSplitsCharacter | src/kvstore/fs/kvs.rs:81-84 | with a 1-byte ceiling, the well-formed file "é" (two bytes) fails to read with invalid data |

## Left out

- Asynchrony and streams: the `async` functions, `ReadDirStream`, `filter_map`, `map` and `try_fold` are not modelled as such. A stream is a finite sequence of per-element results, drained in order. Cancellation and laziness are not modelled.
- Real I/O is left out. The filesystem is a given value (`FsModel.FileSystem`). A path that cannot be listed or opened is simply absent from it, and that covers permission errors too. `read_dir` on the root passes its error through; the model's error for this is `NotFound`.
- FsKvs.GetVal: `File::open` on a directory (which succeeds on Linux and then fails on read) and I/O failures in the middle of a read are not modelled. A read fails only for bytes that are not UTF-8.
- `read_to_string` is modelled by its outcome, not by its internal read loop.
- Arrow is a stand-in (`Arrow` module). Only these checks of `RecordBatch::try_new` are kept, tested in this order: the column count, equal lengths, then the column types. The Arrow library itself is not part of this model, so this order is the stand-in's own. Its nullability check, error texts and options are not modelled.
- Nulls are not modelled: `StringArray::from(Vec<String>)` never has nulls. So `try_new`'s non-nullable check and the `unwrap_or_default` in `keys2pairs` (`kvs.rs:186`) have no effect there.
- Error messages are kept as tags and structured fields, not formatted text.
- `Core.KvStore` has only the primitives that `bucket2batch` calls (`get_keys`, `keys2pairs`, `bucket2arr`, `schema`). The filesystem store's other primitives (`get_val`, `get_buckets`, `buckets2array`, `keys2array`) are modelled in `FsKvs` directly. The trait's `Send`/`Sync`/`'static` bounds and associated-type bounds are not modelled.
- `usize` and `u64` bounds are not modelled for lengths; `max_file_size` is a `u64`.
- Paths are Unix byte strings. Windows path prefixes and `OsString` as WTF-16 are not modelled.
- `examples/fs2kvpairs2rbat/src/main.rs` (environment variables, parsing, printing, exit codes) is command-line glue and is not part of this model.
