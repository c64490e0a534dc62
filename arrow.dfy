/**
 * The part of the columnar-array library the conversion relies on: typed
 * columns, schemas, record batches, batch assembly and the library's error.
 * The library is a black box; this module states only what batch assembly
 * checks, which is what decides whether a conversion succeeds.
 */
module Arrow {
  import opened Results

  /** Logical column types; only `Utf8` is used by the filesystem store. */
  datatype DataType = Utf8 | OtherType(name: string)

  datatype Field = Field(name: string, dataType: DataType, nullable: bool)

  datatype Schema = Schema(fields: seq<Field>)

  /** A column: its logical type and its cells (no nulls: see the README). */
  datatype Column<+T> = Column(dataType: DataType, cells: seq<T>)

  /** A three-column batch in the column order bucket, key, value. */
  datatype RecordBatch<+B, +K, +V> = RecordBatch(schema: Schema, bucket: Column<B>, key: Column<K>, value: Column<V>)

  /** Why batch assembly refused its columns. */
  datatype BatchFault =
    | ColumnCountMismatch(columns: nat, fields: nat)
    | ColumnTypeMismatch(index: nat, expected: DataType, found: DataType)
    | ColumnLengthMismatch

  /** The library's error; an external error carries a cause of the caller's choosing. */
  datatype ArrowError<+C> = InvalidArgumentError(fault: BatchFault) | ExternalError(cause: C)

  /**
   * Batch assembly from three columns: the column count must equal the field
   * count, all columns must have the same length, and column i must have field
   * i's type. The checks run in that order and the first failing one is
   * reported. (The library also checks non-nullable fields for nulls, between
   * the count and the lengths; columns here never hold nulls.)
   */
  function TryNew<B, K, V>(schema: Schema, b: Column<B>, k: Column<K>, v: Column<V>): (r: Result<RecordBatch<B, K, V>, BatchFault>)
    ensures r.Ok? <==>
      |schema.fields| == 3 &&
      b.dataType == schema.fields[0].dataType &&
      k.dataType == schema.fields[1].dataType &&
      v.dataType == schema.fields[2].dataType &&
      |b.cells| == |k.cells| == |v.cells|
    ensures r.Ok? ==> r.value.schema == schema && r.value.bucket == b && r.value.key == k && r.value.value == v
    ensures |schema.fields| != 3 ==> r == Err(ColumnCountMismatch(3, |schema.fields|))
    ensures |schema.fields| == 3 && !(|b.cells| == |k.cells| == |v.cells|) ==> r == Err(ColumnLengthMismatch)
  {
    var f := schema.fields;
    if |f| != 3 then Err(ColumnCountMismatch(3, |f|))
    else if |k.cells| != |b.cells| || |v.cells| != |b.cells| then Err(ColumnLengthMismatch)
    else if b.dataType != f[0].dataType then Err(ColumnTypeMismatch(0, f[0].dataType, b.dataType))
    else if k.dataType != f[1].dataType then Err(ColumnTypeMismatch(1, f[1].dataType, k.dataType))
    else if v.dataType != f[2].dataType then Err(ColumnTypeMismatch(2, f[2].dataType, v.dataType))
    else Ok(RecordBatch(schema, b, k, v))
  }
}
