/** The fixed-size bytes of a slot: the record's text first, then spaces; a slot never written is all zeros. */
module SlotBytes {
  import opened Collections
  import opened SlotRecords
  import opened SlotSteps
  import opened SlotStore
  import opened Wrappers

  type Byte = b: int | 0 <= b < 256

  const SPACE: Byte := 0x20
  const FINAL_BYTES := 32_768
  const OPERATION_BYTES := 2_048

  function Fill(n: nat, b: Byte): seq<Byte> {
    seq(n, _ => b)
  }

  function SlotOf(encoded: seq<Byte>, size: nat): seq<Byte>
    requires |encoded| <= size
  {
    encoded + Fill(size - |encoded|, SPACE)
  }

  /** Drops the trailing spaces a JSON reader skips. */
  function Trimmed(bytes: seq<Byte>): seq<Byte> {
    if bytes != [] && bytes[|bytes| - 1] == SPACE then Trimmed(bytes[..|bytes| - 1]) else bytes
  }

  /** `encodeSlot`: too long a text is refused, a shorter one is copied over a buffer of spaces. */
  method EncodeSlot(encoded: seq<Byte>, size: nat) returns (r: Result<array<Byte>, StoreError>)
    ensures r.Ok? <==> |encoded| <= size
    ensures r.Ok? ==> fresh(r.value) && r.value[..] == SlotOf(encoded, size)
    ensures r.Err? ==> r.error == CapacityExceeded
  {
    if |encoded| > size {
      return Err(CapacityExceeded);
    }
    var buffer := new Byte[size](_ => SPACE);
    for i := 0 to |encoded|
      invariant buffer[..i] == encoded[..i]
      invariant forall k | i <= k < size :: buffer[k] == SPACE
    {
      buffer[i] := encoded[i];
    }
    assert buffer[..] == encoded + buffer[|encoded|..];
    r := Ok(buffer);
  }

  /** `decodeSlot` up to the text it hands to the JSON reader. */
  function DecodeSlot(bytes: seq<Byte>, size: nat): Result<Option<seq<Byte>>, StoreError> {
    if |bytes| != size then Err(StoreFailed)
    else if bytes != [] && bytes[0] == 0 then Ok(None)
    else Ok(Some(Trimmed(bytes)))
  }

  /** What a canonical record text is: it starts with a brace, not a zero, and ends with one, not a space. */
  predicate RecordText(encoded: seq<Byte>) {
    encoded != [] && encoded[0] != 0 && encoded[|encoded| - 1] != SPACE
  }

  lemma {:induction false} TrimFill(encoded: seq<Byte>, n: nat)
    requires RecordText(encoded)
    ensures Trimmed(encoded + Fill(n, SPACE)) == encoded
  {
    var bytes := encoded + Fill(n, SPACE);
    if n == 0 {
      assert bytes == encoded;
    } else {
      assert bytes[..|bytes| - 1] == encoded + Fill(n - 1, SPACE);
      TrimFill(encoded, n - 1);
    }
  }

  /** A record's text survives its slot, and a slot that was written is never taken for an empty one. */
  lemma SlotRoundTrip(encoded: seq<Byte>, size: nat)
    requires RecordText(encoded) && |encoded| <= size
    ensures DecodeSlot(SlotOf(encoded, size), size) == Ok(Some(encoded))
  {
    TrimFill(encoded, size - |encoded|);
  }

  // ---------------------------------------------------------------------------------- columns of the tables

  /** Canonical texts of records, each parsed back to its record. */
  ghost predicate Codec<T(!new)>(encode: T -> seq<Byte>, parse: seq<Byte> -> T) {
    forall record :: RecordText(encode(record)) && parse(encode(record)) == record
  }

  /** A column in bytes: a zero blob until the first write, then the slot of the record's text. */
  function Column<T>(record: Option<T>, encode: T -> seq<Byte>, size: nat): seq<Byte>
    requires record.Some? ==> |encode(record.value)| <= size
  {
    match record case None => Fill(size, 0) case Some(known) => SlotOf(encode(known), size)
  }

  function ReadColumn<T>(bytes: seq<Byte>, parse: seq<Byte> -> T, size: nat): Result<Option<T>, StoreError> {
    match DecodeSlot(bytes, size)
    case Err(e) => Err(e)
    case Ok(None) => Ok(None)
    case Ok(Some(text)) => Ok(Some(parse(text)))
  }

  lemma ColumnReads<T(!new)>(record: Option<T>, encode: T -> seq<Byte>, parse: seq<Byte> -> T, size: nat)
    requires Codec(encode, parse) && size > 0 && (record.Some? ==> |encode(record.value)| <= size)
    ensures ReadColumn(Column(record, encode, size), parse, size) == Ok(record)
  {
    if record.Some? {
      SlotRoundTrip(encode(record.value), size);
    }
  }

  /** The texts of final slots and operations, and the parsers that read them. */
  datatype RecordTexts = RecordTexts(final: FinalSlot -> seq<Byte>, operation: Operation -> seq<Byte>,
                         parseFinal: seq<Byte> -> FinalSlot, parseOperation: seq<Byte> -> Operation)

  ghost predicate Codecs(t: RecordTexts) {
    Codec(t.final, t.parseFinal) && Codec(t.operation, t.parseOperation)
  }

  /** Every slot and operation fits its column, which each commit keeps. */
  ghost predicate Fits(db: Tables, t: RecordTexts) {
    FitOutside(db, slot => |t.final(slot)| <= FINAL_BYTES, op => |t.operation(op)| <= OPERATION_BYTES, {})
  }

  /** Read through its bytes, every slot, critical column and operation row holds exactly what the tables say. */
  lemma BytesHold(db: Tables, t: RecordTexts, r: Id, kind: CriticalKind, key: OperationKey)
    requires Codecs(t) && Fits(db, t)
    ensures r in db.runs ==>
              && (db.runs[r].final.Some? ==> |t.final(db.runs[r].final.value)| <= FINAL_BYTES)
              && ReadColumn(Column(db.runs[r].final, t.final, FINAL_BYTES), t.parseFinal, FINAL_BYTES) == Ok(ReadSlot(db, r))
    ensures r in db.runs ==>
              && (kind in db.runs[r].critical ==> |t.operation(db.runs[r].critical[kind])| <= OPERATION_BYTES)
              && ReadColumn(Column(Lookup(db.runs[r].critical, kind), t.operation, OPERATION_BYTES), t.parseOperation, OPERATION_BYTES)
                 == Ok(Lookup(db.runs[r].critical, kind))
    ensures key in db.operations ==>
              && |t.operation(db.operations[key].data)| <= OPERATION_BYTES
              && ReadColumn(Column(Some(db.operations[key].data), t.operation, OPERATION_BYTES), t.parseOperation, OPERATION_BYTES)
                 == Ok(Some(db.operations[key].data))
  {
    hide ReadColumn, Column, Codec;
    if r in db.runs {
      assert RowFits(db.runs[r], slot => |t.final(slot)| <= FINAL_BYTES, op => |t.operation(op)| <= OPERATION_BYTES, false);
      ColumnReads(db.runs[r].final, t.final, t.parseFinal, FINAL_BYTES);
      ColumnReads(Lookup(db.runs[r].critical, kind), t.operation, t.parseOperation, OPERATION_BYTES);
    }
    if key in db.operations {
      ColumnReads(Some(db.operations[key].data), t.operation, t.parseOperation, OPERATION_BYTES);
    }
  }

  /** The zero blobs an admission inserts read as no slot and no operation, so the next read finds the run not yet written. */
  lemma AdmittedReadsEmpty(db: Tables, t: RecordTexts, run: Run, input: string, parent: Parent, kind: CriticalKind)
    requires Codecs(t)
    ensures var row := AdmitRun(db, run, input, parent).runs[run.runId];
      && Column(row.final, t.final, FINAL_BYTES) == Fill(FINAL_BYTES, 0)
      && ReadColumn(Fill(FINAL_BYTES, 0), t.parseFinal, FINAL_BYTES) == Ok(None)
      && Column(Lookup(row.critical, kind), t.operation, OPERATION_BYTES) == Fill(OPERATION_BYTES, 0)
      && ReadColumn(Fill(OPERATION_BYTES, 0), t.parseOperation, OPERATION_BYTES) == Ok(None)
  {
    ColumnReads(None, t.final, t.parseFinal, FINAL_BYTES);
    ColumnReads(None, t.operation, t.parseOperation, OPERATION_BYTES);
  }
}
