/**
 * The backend-agnostic conversion of one bucket of a key-value store into a
 * three-column record batch (bucket, key, value).
 *
 * A store is given by the primitives the conversion uses, as functions:
 * B is the bucket type, K the key type, V the value type, Ks the key stream
 * and E the store's own error type.
 */
module Core {
  import opened Results
  import opened Arrow

  datatype KvStore<!B, K, V, !Ks, E> = KvStore(
    getKeys: B -> Result<Ks, E>,                                   // the keys of one bucket, as a stream
    keys2pairs: (B, Ks) -> Result<(Column<K>, Column<V>), E>,      // the key column and the value column
    bucket2arr: (B, nat) -> Column<B>,                             // a bucket column of a given length
    schema: Result<Schema, E>)                                     // the store's schema

  /** The cause carried by the external errors the conversion reports. */
  datatype Cause<E> =
    | Backend(error: E)                                                              // a store primitive failed
    | BatchNotCreated(blen: nat, klen: nat, vlen: nat, reason: ArrowError<Cause<E>>) // batch assembly failed

  type ConversionError<E> = ArrowError<Cause<E>>

  /** The store's error, if `err` is one wrapped unchanged as the external cause. */
  function BackendCause<E>(err: ConversionError<E>): Option<E> {
    match err
    case ExternalError(Backend(e)) => Some(e)
    case _ => None
  }

  /** Wrapping a store error into the library's error keeps it recoverable unchanged. */
  function MapToArrowError<E>(e: E): (r: ConversionError<E>)
    ensures BackendCause(r) == Some(e)
  {
    ExternalError(Backend(e))
  }

  /** Assembly of the three columns, in the order bucket, key, value, under the given schema. */
  function Arr2Batch<B, K, V, E>(b: Column<B>, k: Column<K>, v: Column<V>, sch: Schema): (r: Result<RecordBatch<B, K, V>, ConversionError<E>>)
    ensures r.Ok? ==> r.value.schema == sch && r.value.bucket == b && r.value.key == k && r.value.value == v
    ensures r.Ok? <==> TryNew(sch, b, k, v).Ok?
    ensures r.Err? ==> r.error.InvalidArgumentError? && BackendCause(r.error) == None
  {
    match TryNew(sch, b, k, v)
    case Ok(batch) => Ok(batch)
    case Err(fault) => Err(InvalidArgumentError(fault))
  }

  /**
   * The default pipeline: list the bucket's keys, resolve them into a key and
   * a value column, build a bucket column as long as the key column, fetch the
   * schema and assemble the batch. The first failing step ends the conversion.
   */
  function Bucket2Batch<B, K, V, Ks, E>(s: KvStore<B, K, V, Ks, E>, bkt: B): (r: Result<RecordBatch<B, K, V>, ConversionError<E>>)
    ensures r.Ok? ==> s.getKeys(bkt).Ok? && s.keys2pairs(bkt, s.getKeys(bkt).value) == Ok((r.value.key, r.value.value))
    ensures r.Ok? ==> s.schema == Ok(r.value.schema) && r.value.bucket == s.bucket2arr(bkt, |r.value.key.cells|)
    ensures r.Ok? ==> |r.value.bucket.cells| == |r.value.key.cells| == |r.value.value.cells|
    ensures r.Err? && BackendCause(r.error).None? ==> r.error.ExternalError? && r.error.cause.BatchNotCreated?
  {
    match s.getKeys(bkt)
    case Err(e) => Err(MapToArrowError(e))
    case Ok(keys) =>
      match s.keys2pairs(bkt, keys)
      case Err(e) => Err(MapToArrowError(e))
      case Ok((karr, varr)) =>
        var klen := |karr.cells|;
        var vlen := |varr.cells|;
        var barr := s.bucket2arr(bkt, klen);
        match s.schema
        case Err(e) => Err(MapToArrowError(e))
        case Ok(sch) =>
          var blen := |barr.cells|;
          match Arr2Batch(barr, karr, varr, sch)
          case Ok(batch) => Ok(batch)
          case Err(e) => Err(ExternalError(BatchNotCreated(blen, klen, vlen, e)))
  }

  /**
   * A failure to list the keys is reported as that store error, and nothing
   * after the listing takes part: replacing the later primitives changes nothing.
   */
  lemma KeyListingFailureAborts<B, K, V, Ks, E>(
    s: KvStore<B, K, V, Ks, E>, bkt: B,
    kp: (B, Ks) -> Result<(Column<K>, Column<V>), E>, ba: (B, nat) -> Column<B>, sc: Result<Schema, E>)
    requires s.getKeys(bkt).Err?
    ensures Bucket2Batch(s, bkt) == Err(MapToArrowError(s.getKeys(bkt).error))
    ensures Bucket2Batch(s.(keys2pairs := kp, bucket2arr := ba, schema := sc), bkt) == Bucket2Batch(s, bkt)
  {
  }

  /** A failure to resolve the pairs is reported as that store error, and neither the bucket column nor the schema takes part. */
  lemma PairResolutionFailureAborts<B, K, V, Ks, E>(
    s: KvStore<B, K, V, Ks, E>, bkt: B, ba: (B, nat) -> Column<B>, sc: Result<Schema, E>)
    requires s.getKeys(bkt).Ok? && s.keys2pairs(bkt, s.getKeys(bkt).value).Err?
    ensures Bucket2Batch(s, bkt) == Err(MapToArrowError(s.keys2pairs(bkt, s.getKeys(bkt).value).error))
    ensures Bucket2Batch(s.(bucket2arr := ba, schema := sc), bkt) == Bucket2Batch(s, bkt)
  {
  }

  /** A failure to produce the schema is reported as that store error. */
  lemma SchemaFailureAborts<B, K, V, Ks, E>(s: KvStore<B, K, V, Ks, E>, bkt: B)
    requires s.getKeys(bkt).Ok? && s.keys2pairs(bkt, s.getKeys(bkt).value).Ok? && s.schema.Err?
    ensures Bucket2Batch(s, bkt) == Err(MapToArrowError(s.schema.error))
  {
  }

  /**
   * Once the columns and the schema are there, the outcome is batch assembly's:
   * the bucket column is built with the key column's length, the batch holds the
   * columns unchanged, and a refusal is reported with the three lengths, bucket,
   * key and value, and carries no store error.
   */
  lemma AssemblyOutcome<B, K, V, Ks, E>(s: KvStore<B, K, V, Ks, E>, bkt: B, karr: Column<K>, varr: Column<V>, sch: Schema)
    requires s.getKeys(bkt).Ok? && s.keys2pairs(bkt, s.getKeys(bkt).value) == Ok((karr, varr)) && s.schema == Ok(sch)
    ensures var barr := s.bucket2arr(bkt, |karr.cells|);
      var r := Bucket2Batch(s, bkt);
      (r.Ok? <==> TryNew(sch, barr, karr, varr).Ok?) &&
      (r.Ok? ==> r.value == RecordBatch(sch, barr, karr, varr)) &&
      (r.Err? ==> r.error.ExternalError? && BackendCause(r.error) == None &&
                  r.error.cause.BatchNotCreated? &&
                  r.error.cause.blen == |barr.cells| && r.error.cause.klen == |karr.cells| && r.error.cause.vlen == |varr.cells|)
  {
  }

  /**
   * The conversion never compares the key and value lengths itself: with a
   * schema of three fields, unequal key and value columns are refused by batch
   * assembly alone, and the report carries all three lengths.
   */
  lemma LengthMismatchReported<B, K, V, Ks, E>(s: KvStore<B, K, V, Ks, E>, bkt: B, karr: Column<K>, varr: Column<V>, sch: Schema)
    requires s.getKeys(bkt).Ok? && s.keys2pairs(bkt, s.getKeys(bkt).value) == Ok((karr, varr)) && s.schema == Ok(sch)
    requires |karr.cells| != |varr.cells|
    ensures Bucket2Batch(s, bkt).Err?
    ensures var barr := s.bucket2arr(bkt, |karr.cells|);
      |sch.fields| == 3 ==>
      Bucket2Batch(s, bkt) == Err(ExternalError(BatchNotCreated(|barr.cells|, |karr.cells|, |varr.cells|, InvalidArgumentError(ColumnLengthMismatch))))
  {
  }

  /**
   * A well-behaved store: its bucket columns have the requested length, its key
   * and value columns agree in length, and its schema, when it has one, has three
   * fields whose types are those of the columns it produces.
   */
  ghost predicate Lawful<B(!new), K, V, Ks(!new), E>(s: KvStore<B, K, V, Ks, E>) {
    (forall b, n :: |s.bucket2arr(b, n).cells| == n) &&
    (forall b, ks :: s.keys2pairs(b, ks).Ok? ==> |s.keys2pairs(b, ks).value.0.cells| == |s.keys2pairs(b, ks).value.1.cells|) &&
    (s.schema.Ok? ==>
      |s.schema.value.fields| == 3 &&
      (forall b, n :: s.bucket2arr(b, n).dataType == s.schema.value.fields[0].dataType) &&
      (forall b, ks :: s.keys2pairs(b, ks).Ok? ==>
        s.keys2pairs(b, ks).value.0.dataType == s.schema.value.fields[1].dataType &&
        s.keys2pairs(b, ks).value.1.dataType == s.schema.value.fields[2].dataType))
  }

  /**
   * For a well-behaved store the conversion succeeds exactly when every store
   * primitive does, and then every column has as many rows as there are keys:
   * the key and value columns are the resolved pairs and the bucket column is
   * the store's bucket column of that length. A failure always carries the
   * store's error.
   */
  lemma LawfulConversion<B(!new), K, V, Ks(!new), E>(s: KvStore<B, K, V, Ks, E>, bkt: B)
    requires Lawful(s)
    ensures var r := Bucket2Batch(s, bkt);
      (r.Ok? <==> s.getKeys(bkt).Ok? && s.keys2pairs(bkt, s.getKeys(bkt).value).Ok? && s.schema.Ok?) &&
      (r.Ok? ==>
        var (karr, varr) := s.keys2pairs(bkt, s.getKeys(bkt).value).value;
        r.value == RecordBatch(s.schema.value, s.bucket2arr(bkt, |karr.cells|), karr, varr) &&
        |r.value.bucket.cells| == |r.value.key.cells| == |r.value.value.cells| == |karr.cells|) &&
      (r.Err? ==> BackendCause(r.error).Some?)
  {
  }
}
