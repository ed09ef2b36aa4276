/**
 * The advertisement record and its parser: a walk over the length / type /
 * value fields of a Bluetooth LE advertisement (Bluetooth Core Specification
 * 4.1, Volume 3, Part C, Sections 11 and 18), as the library writes it.
 *
 * The loop of the parser is `ParseFromBytes`; it is proved against `Parse`,
 * a function that runs the same loop body (`LoopBody`) from cursor to cursor.
 * Every byte is read as a signed JVM byte, so a length byte of 0x80 or more
 * makes the cursor move backwards, and a length byte of 0xFF makes it stay
 * where it is. The loop then never ends; `Parse` reports this as `Hangs`,
 * and `HangsIffLoopsForever` proves that it does so exactly when the loop
 * of the source runs for ever.
 */
module ScanRecords {
  import opened Common

  // Advertising data types (Bluetooth SIG assigned numbers).
  const DATA_TYPE_FLAGS: int := 0x01
  const DATA_TYPE_SERVICE_UUIDS_16_BIT_PARTIAL: int := 0x02
  const DATA_TYPE_SERVICE_UUIDS_16_BIT_COMPLETE: int := 0x03
  const DATA_TYPE_SERVICE_UUIDS_32_BIT_PARTIAL: int := 0x04
  const DATA_TYPE_SERVICE_UUIDS_32_BIT_COMPLETE: int := 0x05
  const DATA_TYPE_SERVICE_UUIDS_128_BIT_PARTIAL: int := 0x06
  const DATA_TYPE_SERVICE_UUIDS_128_BIT_COMPLETE: int := 0x07
  const DATA_TYPE_LOCAL_NAME_SHORT: int := 0x08
  const DATA_TYPE_LOCAL_NAME_COMPLETE: int := 0x09
  const DATA_TYPE_TX_POWER_LEVEL: int := 0x0A
  const DATA_TYPE_SERVICE_DATA_16_BIT: int := 0x16
  const DATA_TYPE_SERVICE_DATA_32_BIT: int := 0x20
  const DATA_TYPE_SERVICE_DATA_128_BIT: int := 0x21
  const DATA_TYPE_MANUFACTURER_SPECIFIC_DATA: int := 0xFF

  // UUID sizes in bytes.
  const UUID_BYTES_16_BIT: nat := 2
  const UUID_BYTES_32_BIT: nat := 4
  const UUID_BYTES_128_BIT: nat := 16

  /** `0xFF.toByte()`, the bit pattern of -1: `b and FF` is `b` itself. */
  const FF: Byte := 0xFF

  /** `0xFF.shl(8).toByte()` in the manufacturer branch: the low byte of 0xFF00. */
  const HIGH_BYTE_MASK: Byte := (((0xFF as bv32) << 8) & 0xFF) as Byte

  /**
   * The collaborators the parser calls but that are not part of this model:
   * `BluetoothUuid.parseUuidFrom` and the `String(bytes)` constructor.
   */
  datatype Decoders = Decoders(parseUuid: seq<Byte> -> Uuid, decodeString: seq<Byte> -> string)

  /** A parsed advertisement; `bytes` is the raw record it came from. */
  datatype ScanRecord = ScanRecord(
    serviceUuids: Option<seq<Uuid>>,
    manufacturerSpecificData: Option<map<int, seq<Byte>>>,
    serviceData: Option<map<Uuid, seq<Byte>>>,
    advertiseFlags: int,
    txPowerLevel: int,
    deviceName: Option<string>,
    bytes: seq<Byte>)

  /** `getServiceData(uuid)`: null when there is no map or no entry. */
  function GetServiceData(r: ScanRecord, uuid: Uuid): (d: Option<seq<Byte>>)
    ensures d.Some? <==> r.serviceData.Some? && uuid in r.serviceData.value
    ensures d.Some? ==> d.value == r.serviceData.value[uuid]
  {
    if r.serviceData.Some? && uuid in r.serviceData.value then Some(r.serviceData.value[uuid]) else None
  }

  /** `getManufacturerSpecificData(id)`: null when there is no map or no entry. */
  function GetManufacturerSpecificData(r: ScanRecord, id: int): (d: Option<seq<Byte>>)
    ensures d.Some? <==> r.manufacturerSpecificData.Some? && id in r.manufacturerSpecificData.value
    ensures d.Some? ==> d.value == r.manufacturerSpecificData.value[id]
  {
    if r.manufacturerSpecificData.Some? && id in r.manufacturerSpecificData.value
    then Some(r.manufacturerSpecificData.value[id])
    else None
  }

  /** `equals`: two records are equal when their raw bytes are. */
  predicate Equals(a: ScanRecord, b: ScanRecord)
  {
    a.bytes == b.bytes
  }

  /**
   * `extractBytes`: a copy of `length` bytes from `start`; `None` where the
   * source throws (a negative length, or a range outside the record).
   */
  function ExtractBytes(s: seq<Byte>, start: int, length: int): (r: Option<seq<Byte>>)
    ensures r.Some? <==> 0 <= length && 0 <= start && start + length <= |s|
    ensures r.Some? ==> |r.value| == length && forall i :: 0 <= i < length ==> r.value[i] == s[start + i]
  {
    if length < 0 || start < 0 || start + length > |s| then None else Some(s[start..start + length])
  }

  /** How many UUIDs `parseServiceUuid` reads from `dataLength` bytes. */
  function ChunkCount(dataLength: int, uuidLength: nat): nat
    requires uuidLength > 0
    decreases if dataLength > 0 then dataLength else 0
  {
    if dataLength <= 0 then 0 else 1 + ChunkCount(dataLength - uuidLength, uuidLength)
  }

  /**
   * The UUIDs `parseServiceUuid` appends: one per `uuidLength` bytes while
   * bytes remain, the last chunk read in full even when the field ends
   * inside it; `None` where a chunk runs off the record.
   */
  function UuidChunks(s: seq<Byte>, pos: int, dataLength: int, uuidLength: nat, dec: Decoders): Option<seq<Uuid>>
    requires uuidLength > 0
    decreases if dataLength > 0 then dataLength else 0
  {
    if dataLength <= 0 then Some([])
    else
      match ExtractBytes(s, pos, uuidLength)
      case None => None
      case Some(b) =>
        match UuidChunks(s, pos + uuidLength, dataLength - uuidLength, uuidLength, dec)
        case None => None
        case Some(rest) => Some([dec.parseUuid(b)] + rest)
  }

  /** The cursor after the last UUID chunk `parseServiceUuid` reads. */
  function ChunkEnd(pos: int, dataLength: int, uuidLength: nat): int
    requires uuidLength > 0
    decreases if dataLength > 0 then dataLength else 0
  {
    if dataLength <= 0 then pos else ChunkEnd(pos + uuidLength, dataLength - uuidLength, uuidLength)
  }

  /** A UUID list field is read without exception exactly when its last chunk ends inside the record. */
  lemma {:induction false} UuidChunksSucceed(s: seq<Byte>, pos: int, dataLength: int, w: nat, dec: Decoders)
    requires w > 0
    ensures UuidChunks(s, pos, dataLength, w, dec).Some? <==> dataLength <= 0 || (0 <= pos && ChunkEnd(pos, dataLength, w) <= |s|)
    ensures UuidChunks(s, pos, dataLength, w, dec).Some? ==> |UuidChunks(s, pos, dataLength, w, dec).value| == ChunkCount(dataLength, w)
    ensures ChunkEnd(pos, dataLength, w) >= pos + ChunkCount(dataLength, w)
    decreases if dataLength > 0 then dataLength else 0
  {
    if dataLength > 0 {
      UuidChunksSucceed(s, pos + w, dataLength - w, w, dec);
    }
  }

  /** The `k`-th UUID of a list field is the one parsed from the `w` bytes at `pos + k * w`. */
  lemma {:induction false} UuidChunkAt(s: seq<Byte>, pos: int, dataLength: int, w: nat, dec: Decoders, k: nat)
    requires w > 0
    requires UuidChunks(s, pos, dataLength, w, dec).Some?
    requires k < |UuidChunks(s, pos, dataLength, w, dec).value|
    ensures 0 <= pos + k * w && pos + k * w + w <= |s|
    ensures UuidChunks(s, pos, dataLength, w, dec).value[k] == dec.parseUuid(s[pos + k * w .. pos + k * w + w])
    decreases k
  {
    if k > 0 {
      UuidChunkAt(s, pos + w, dataLength - w, w, dec, k - 1);
      assert (pos + w) + (k - 1) * w == pos + k * w by {
        assert (k - 1) * w == k * w - w;
      }
    }
  }

  /** The values the parser's loop accumulates. */
  datatype Fields = Fields(
    advertiseFlag: int,
    txPowerLevel: int,
    localName: Option<string>,
    serviceUuids: Option<seq<Uuid>>,
    manufacturerData: Option<map<int, seq<Byte>>>,
    serviceData: Option<map<Uuid, seq<Byte>>>)

  /** The values before the first field: flags -1, power `Integer.MIN_VALUE`, no name, no collections. */
  const NoFields: Fields := Fields(-1, MIN_INT, None, None, None, None)

  /** The record the parser returns once the loop has ended normally. */
  function RecordOf(f: Fields, s: seq<Byte>): ScanRecord
  {
    ScanRecord(f.serviceUuids, f.manufacturerData, f.serviceData, f.advertiseFlag, f.txPowerLevel, f.localName, s)
  }

  /** The record the parser returns after an exception: only the raw bytes. */
  function Fallback(s: seq<Byte>): ScanRecord
  {
    RecordOf(NoFields, s)
  }

  /** The size of the UUID heading a service data field of type `fieldType`. */
  function ServiceDataUuidLength(fieldType: int): nat
  {
    if fieldType == DATA_TYPE_SERVICE_DATA_32_BIT then UUID_BYTES_32_BIT
    else if fieldType == DATA_TYPE_SERVICE_DATA_128_BIT then UUID_BYTES_128_BIT
    else UUID_BYTES_16_BIT
  }

  predicate IsUuidListType(fieldType: int)
  {
    DATA_TYPE_SERVICE_UUIDS_16_BIT_PARTIAL <= fieldType <= DATA_TYPE_SERVICE_UUIDS_128_BIT_COMPLETE
  }

  function UuidListLength(fieldType: int): nat
  {
    if fieldType <= DATA_TYPE_SERVICE_UUIDS_16_BIT_COMPLETE then UUID_BYTES_16_BIT
    else if fieldType <= DATA_TYPE_SERVICE_UUIDS_32_BIT_COMPLETE then UUID_BYTES_32_BIT
    else UUID_BYTES_128_BIT
  }

  predicate IsNameType(fieldType: int)
  {
    fieldType == DATA_TYPE_LOCAL_NAME_SHORT || fieldType == DATA_TYPE_LOCAL_NAME_COMPLETE
  }

  predicate IsServiceDataType(fieldType: int)
  {
    fieldType == DATA_TYPE_SERVICE_DATA_16_BIT || fieldType == DATA_TYPE_SERVICE_DATA_32_BIT
      || fieldType == DATA_TYPE_SERVICE_DATA_128_BIT
  }

  /** A field type the parser's `when` has a branch for. */
  predicate IsHandledType(fieldType: int)
  {
    fieldType == DATA_TYPE_FLAGS || IsUuidListType(fieldType) || IsNameType(fieldType)
      || fieldType == DATA_TYPE_TX_POWER_LEVEL || IsServiceDataType(fieldType)
      || fieldType == DATA_TYPE_MANUFACTURER_SPECIFIC_DATA
  }

  /**
   * The manufacturer branch: the id is the high byte masked with 0x00 plus
   * the signed low byte, the payload is what follows the two id bytes.
   */
  function ManufacturerField(s: seq<Byte>, pos: int, dataLength: int): (r: Option<(int, seq<Byte>)>)
    ensures r.Some? ==> 0 <= pos < |s| && r.value.0 == Signed(s[pos])
  {
    if pos < 0 || pos + 1 >= |s| then None
    else
      var id := Signed(s[pos + 1] & HIGH_BYTE_MASK) + Signed(s[pos] & FF);
      match ExtractBytes(s, pos + 2, dataLength - 2)
      case None => None
      case Some(bytes) => Some((id, bytes))
  }

  function ListOrEmpty<T>(l: Option<seq<T>>): seq<T>
  {
    if l.Some? then l.value else []
  }

  function MapOrEmpty<K, V>(m: Option<map<K, V>>): map<K, V>
  {
    if m.Some? then m.value else map[]
  }

  /**
   * One branch of the `when` over the field type: the accumulated values
   * after the field whose value starts at `pos`, or `None` where the branch
   * throws.
   */
  function FieldEffect(s: seq<Byte>, pos: int, dataLength: int, fieldType: int, f: Fields, dec: Decoders): Option<Fields>
  {
    if fieldType == DATA_TYPE_FLAGS then
      if 0 <= pos < |s| then Some(f.(advertiseFlag := Signed(s[pos] & FF))) else None
    else if IsUuidListType(fieldType) then
      match UuidChunks(s, pos, dataLength, UuidListLength(fieldType), dec)
      case None => None
      case Some(uuids) => Some(f.(serviceUuids := Some(ListOrEmpty(f.serviceUuids) + uuids)))
    else if IsNameType(fieldType) then
      match ExtractBytes(s, pos, dataLength)
      case None => None
      case Some(name) => Some(f.(localName := Some(dec.decodeString(name))))
    else if fieldType == DATA_TYPE_TX_POWER_LEVEL then
      if 0 <= pos < |s| then Some(f.(txPowerLevel := Signed(s[pos]))) else None
    else if IsServiceDataType(fieldType) then
      var w := ServiceDataUuidLength(fieldType);
      match ExtractBytes(s, pos, w)
      case None => None
      case Some(uuidBytes) =>
        match ExtractBytes(s, pos + w, dataLength - w)
        case None => None
        case Some(value) =>
          Some(f.(serviceData := Some(MapOrEmpty(f.serviceData)[dec.parseUuid(uuidBytes) := value])))
    else if fieldType == DATA_TYPE_MANUFACTURER_SPECIFIC_DATA then
      match ManufacturerField(s, pos, dataLength)
      case None => None
      case Some((id, bytes)) => Some(f.(manufacturerData := Some(MapOrEmpty(f.manufacturerData)[id := bytes])))
    else
      Some(f)
  }

  /** What one run of the loop body does. */
  datatype Step = Break | Throw | Next(pos: int, fields: Fields)

  /**
   * The loop body at cursor `pos` (the loop guard `pos < |s|` holds): read
   * the length byte and the type byte as signed bytes, run the branch for
   * the type, and move the cursor `length - 1` bytes past the type byte.
   */
  function LoopBody(s: seq<Byte>, pos: int, f: Fields, dec: Decoders): Step
    requires pos < |s|
  {
    if pos < 0 then Throw
    else
      var length := Signed(s[pos] & FF);
      if length == 0 then Break
      else if pos + 1 >= |s| then Throw
      else
        var dataLength := length - 1;
        var fieldType := Signed(s[pos + 1] & FF);
        match FieldEffect(s, pos + 2, dataLength, fieldType, f, dec)
        case None => Throw
        case Some(g) => Next(pos + 2 + dataLength, g)
  }

  /** How a bounded run of the loop ends. */
  datatype Outcome = Completed(fields: Fields) | Failed | OutOfFuel

  /** The loop from cursor `pos`, allowed `fuel` more runs of its body. */
  function Run(s: seq<Byte>, pos: int, f: Fields, fuel: nat, dec: Decoders): Outcome
    decreases fuel
  {
    if pos >= |s| then Completed(f)
    else if fuel == 0 then OutOfFuel
    else
      match LoopBody(s, pos, f, dec)
      case Break => Completed(f)
      case Throw => Failed
      case Next(p, g) => Run(s, p, g, fuel - 1, dec)
  }

  /** What `parseFromBytes` does: no record, a record, or a loop that never ends. */
  datatype ParseResult = NoRecord | Parsed(record: ScanRecord) | Hangs

  /**
   * `parseFromBytes`. A null input gives no record. Otherwise the loop is
   * run with enough fuel to visit every cursor once more than there are
   * bytes; a loop still running then never ends (`HangsIffLoopsForever`).
   * An exception gives the record that keeps only the raw bytes.
   */
  function Parse(scanRecord: Option<seq<Byte>>, dec: Decoders): (r: ParseResult)
    ensures scanRecord.None? <==> r.NoRecord?
    ensures r.Parsed? ==> r.record.bytes == scanRecord.value
    ensures scanRecord.Some? && Run(scanRecord.value, 0, NoFields, |scanRecord.value| + 1, dec).Failed?
      ==> r == Parsed(Fallback(scanRecord.value))
  {
    match scanRecord
    case None => NoRecord
    case Some(s) =>
      match Run(s, 0, NoFields, |s| + 1, dec)
      case Completed(f) => Parsed(RecordOf(f, s))
      case Failed => Parsed(Fallback(s))
      case OutOfFuel => Hangs
  }

  // ---------------------------------------------------------------------
  // Termination of the parser's loop.

  /** Whether a branch throws depends on the bytes alone, not on the values accumulated so far. */
  lemma FieldEffectThrowsAlike(s: seq<Byte>, pos: int, dataLength: int, fieldType: int, f: Fields, g: Fields, dec: Decoders)
    ensures FieldEffect(s, pos, dataLength, fieldType, f, dec).Some? == FieldEffect(s, pos, dataLength, fieldType, g, dec).Some?
  {
  }

  /** The control flow of the loop body depends on the cursor alone. */
  lemma LoopBodyControl(s: seq<Byte>, pos: int, f: Fields, dec: Decoders)
    requires pos < |s|
    ensures LoopBody(s, pos, f, dec).Next? == LoopBody(s, pos, NoFields, dec).Next?
    ensures LoopBody(s, pos, f, dec).Next? ==> LoopBody(s, pos, f, dec).pos == LoopBody(s, pos, NoFields, dec).pos
  {
    if 0 <= pos && pos + 1 < |s| {
      FieldEffectThrowsAlike(s, pos + 2, Signed(s[pos] & FF) - 1, Signed(s[pos + 1] & FF), f, NoFields, dec);
    }
  }

  /** The loop is still going after `k` more runs of its body from cursor `pos`. */
  predicate Running(s: seq<Byte>, pos: int, k: nat, dec: Decoders)
    decreases k
  {
    pos < |s|
    && (k == 0 || (LoopBody(s, pos, NoFields, dec).Next? && Running(s, LoopBody(s, pos, NoFields, dec).pos, k - 1, dec)))
  }

  /** The cursor after `k` runs of the loop body from `pos`. */
  function Cursor(s: seq<Byte>, pos: int, k: nat, dec: Decoders): int
    decreases k
  {
    if k == 0 || pos >= |s| then pos
    else
      match LoopBody(s, pos, NoFields, dec)
      case Next(p, _) => Cursor(s, p, k - 1, dec)
      case _ => pos
  }

  /** The source's loop never ends on `s`. */
  ghost predicate LoopsForever(s: seq<Byte>, dec: Decoders)
  {
    forall k: nat :: Running(s, 0, k, dec)
  }

  lemma {:induction false} RunningSplit(s: seq<Byte>, x: int, a: nat, b: nat, dec: Decoders)
    ensures Running(s, x, a + b, dec) <==> Running(s, x, a, dec) && Running(s, Cursor(s, x, a, dec), b, dec)
    decreases a
  {
    if a > 0 && x < |s| && LoopBody(s, x, NoFields, dec).Next? {
      RunningSplit(s, LoopBody(s, x, NoFields, dec).pos, a - 1, b, dec);
    }
  }

  lemma {:induction false} CursorSplit(s: seq<Byte>, x: int, a: nat, b: nat, dec: Decoders)
    requires Running(s, x, a, dec)
    ensures Cursor(s, x, a + b, dec) == Cursor(s, Cursor(s, x, a, dec), b, dec)
    decreases a
  {
    if a > 0 {
      CursorSplit(s, LoopBody(s, x, NoFields, dec).pos, a - 1, b, dec);
    }
  }

  /** A bounded run of the loop runs out of fuel exactly when the loop is still going. */
  lemma {:induction false} OutOfFuelIffRunning(s: seq<Byte>, pos: int, f: Fields, fuel: nat, dec: Decoders)
    ensures Run(s, pos, f, fuel, dec).OutOfFuel? <==> Running(s, pos, fuel, dec)
    decreases fuel
  {
    if pos < |s| && fuel > 0 {
      LoopBodyControl(s, pos, f, dec);
      if LoopBody(s, pos, f, dec).Next? {
        OutOfFuelIffRunning(s, LoopBody(s, pos, f, dec).pos, LoopBody(s, pos, f, dec).fields, fuel - 1, dec);
      }
    }
  }

  /** A loop that comes back to a cursor it has left goes round for ever. */
  lemma {:induction false} CycleRunsForever(s: seq<Byte>, x: int, d: nat, k: nat, dec: Decoders)
    requires d >= 1 && Running(s, x, d, dec) && Cursor(s, x, d, dec) == x
    ensures Running(s, x, k, dec)
    decreases k
  {
    if k <= d {
      RunningSplit(s, x, k, d - k, dec);
    } else {
      CycleRunsForever(s, x, d, k - d, dec);
      RunningSplit(s, x, d, k - d, dec);
    }
  }

  /** More than `n` values below `n` repeat one. */
  lemma {:induction false} Pigeonhole(xs: seq<int>, n: nat)
    requires n < |xs|
    requires forall i :: 0 <= i < |xs| ==> 0 <= xs[i] < n
    ensures exists i, j :: 0 <= i < j < |xs| && xs[i] == xs[j]
    decreases n
  {
    var last := xs[|xs| - 1];
    if k :| 0 <= k < |xs| - 1 && xs[k] == last {
      assert xs[k] == xs[|xs| - 1];
    } else {
      var ys := seq(|xs| - 1, i requires 0 <= i < |xs| - 1 => if xs[i] > last then xs[i] - 1 else xs[i]);
      Pigeonhole(ys, n - 1);
      var i, j :| 0 <= i < j < |ys| && ys[i] == ys[j];
      assert xs[i] == xs[j];
    }
  }

  /** The cursors at the first `n` loop heads of a loop still going after `n` runs. */
  lemma {:induction false} CursorsInRecord(s: seq<Byte>, n: nat, i: nat, dec: Decoders)
    requires Running(s, 0, n, dec) && i < n
    ensures 0 <= Cursor(s, 0, i, dec) < |s|
  {
    RunningSplit(s, 0, i, n - i, dec);
  }

  /**
   * A loop still going after one run more than there are bytes has visited
   * some cursor twice, so it goes round for ever.
   */
  lemma {:induction false} LongRunLoopsForever(s: seq<Byte>, dec: Decoders)
    requires Running(s, 0, |s| + 1, dec)
    ensures LoopsForever(s, dec)
  {
    var n := |s| + 1;
    var xs := seq(n, i requires 0 <= i < n => Cursor(s, 0, i, dec));
    forall i | 0 <= i < |xs| ensures 0 <= xs[i] < |s| {
      CursorsInRecord(s, n, i, dec);
    }
    Pigeonhole(xs, |s|);
    var i, j :| 0 <= i < j < |xs| && xs[i] == xs[j];
    var x := Cursor(s, 0, i, dec);
    RunningSplit(s, 0, j, n - j, dec);
    RunningSplit(s, 0, i, j - i, dec);
    CursorSplit(s, 0, i, j - i, dec);
    assert Running(s, x, j - i, dec) && Cursor(s, x, j - i, dec) == x;
    forall k: nat ensures Running(s, 0, k, dec) {
      if k <= i {
        RunningSplit(s, 0, k, i - k, dec);
      } else {
        CycleRunsForever(s, x, j - i, k - i, dec);
        RunningSplit(s, 0, i, k - i, dec);
      }
    }
  }

  /** `Parse` reports `Hangs` exactly when the source's loop never ends. */
  lemma HangsIffLoopsForever(s: seq<Byte>, dec: Decoders)
    ensures Parse(Some(s), dec) == Hangs <==> LoopsForever(s, dec)
  {
    OutOfFuelIffRunning(s, 0, NoFields, |s| + 1, dec);
    if Running(s, 0, |s| + 1, dec) {
      LongRunLoopsForever(s, dec);
    }
  }

  // ---------------------------------------------------------------------
  // What the fields do.

  /** A zero length byte ends the loop, whatever follows it. */
  lemma ZeroLengthBreaks(s: seq<Byte>, pos: int, f: Fields, dec: Decoders)
    requires 0 <= pos < |s| && s[pos] == 0
    ensures LoopBody(s, pos, f, dec) == Break
  {
  }

  /** After a field the cursor has moved by the signed length byte plus one. */
  lemma CursorMovesBySignedLength(s: seq<Byte>, pos: int, f: Fields, dec: Decoders)
    requires pos < |s| && LoopBody(s, pos, f, dec).Next?
    ensures 0 <= pos && LoopBody(s, pos, f, dec).pos == pos + 1 + Signed(s[pos])
  {
  }

  /** A field of a type the parser does not handle is skipped and never throws, truncated or not. */
  lemma UnknownFieldSkipped(s: seq<Byte>, pos: int, dataLength: int, fieldType: int, f: Fields, dec: Decoders)
    requires !IsHandledType(fieldType)
    ensures FieldEffect(s, pos, dataLength, fieldType, f, dec) == Some(f)
  {
  }

  /** The three UUID list sizes append their UUIDs, in order, to the one list of service UUIDs. */
  lemma UuidListFieldAppends(s: seq<Byte>, pos: int, dataLength: int, fieldType: int, f: Fields, dec: Decoders)
    requires IsUuidListType(fieldType)
    requires FieldEffect(s, pos, dataLength, fieldType, f, dec).Some?
    ensures UuidChunks(s, pos, dataLength, UuidListLength(fieldType), dec).Some?
    ensures FieldEffect(s, pos, dataLength, fieldType, f, dec).value
      == f.(serviceUuids := Some(ListOrEmpty(f.serviceUuids) + UuidChunks(s, pos, dataLength, UuidListLength(fieldType), dec).value))
    ensures fieldType <= DATA_TYPE_SERVICE_UUIDS_16_BIT_COMPLETE ==> UuidListLength(fieldType) == 2
    ensures DATA_TYPE_SERVICE_UUIDS_32_BIT_PARTIAL <= fieldType <= DATA_TYPE_SERVICE_UUIDS_32_BIT_COMPLETE ==> UuidListLength(fieldType) == 4
    ensures DATA_TYPE_SERVICE_UUIDS_128_BIT_PARTIAL <= fieldType ==> UuidListLength(fieldType) == 16
  {
  }

  /**
   * A flags field and a TX power field read the one byte at `pos`, and
   * succeed exactly when it lies inside the record; the flags value is
   * `byte and 0xFF` read back as a signed `Byte`, the power level the byte
   * itself sign-extended. Nothing else changes, so the last such field
   * wins.
   */
  lemma FlagsAndTxPowerFieldsSet(s: seq<Byte>, pos: int, dataLength: int, fieldType: int, f: Fields, dec: Decoders)
    requires fieldType == DATA_TYPE_FLAGS || fieldType == DATA_TYPE_TX_POWER_LEVEL
    ensures FieldEffect(s, pos, dataLength, fieldType, f, dec).Some? <==> 0 <= pos < |s|
    ensures fieldType == DATA_TYPE_FLAGS && 0 <= pos < |s| ==>
      FieldEffect(s, pos, dataLength, fieldType, f, dec).value == f.(advertiseFlag := Signed(s[pos] & FF))
    ensures fieldType == DATA_TYPE_TX_POWER_LEVEL && 0 <= pos < |s| ==>
      FieldEffect(s, pos, dataLength, fieldType, f, dec).value == f.(txPowerLevel := Signed(s[pos]))
  {
  }

  /** A name field replaces any earlier name: the last one wins. */
  lemma NameFieldReplaces(s: seq<Byte>, pos: int, dataLength: int, fieldType: int, f: Fields, dec: Decoders)
    requires IsNameType(fieldType)
    ensures FieldEffect(s, pos, dataLength, fieldType, f, dec).Some?
      <==> 0 <= dataLength && 0 <= pos && pos + dataLength <= |s|
    ensures FieldEffect(s, pos, dataLength, fieldType, f, dec).Some? ==>
      FieldEffect(s, pos, dataLength, fieldType, f, dec).value
        == f.(localName := Some(dec.decodeString(s[pos .. pos + dataLength])))
  {
    if 0 <= dataLength && 0 <= pos && pos + dataLength <= |s| {
      assert ExtractBytes(s, pos, dataLength).value == s[pos .. pos + dataLength];
    }
  }

  /**
   * A service data field stores the bytes after its UUID under that UUID,
   * replacing an earlier value for the same UUID.
   */
  lemma ServiceDataFieldOverwrites(s: seq<Byte>, pos: int, dataLength: int, fieldType: int, f: Fields, dec: Decoders)
    requires IsServiceDataType(fieldType)
    ensures FieldEffect(s, pos, dataLength, fieldType, f, dec).Some?
      <==> 0 <= pos && ServiceDataUuidLength(fieldType) <= dataLength && pos + dataLength <= |s|
    ensures FieldEffect(s, pos, dataLength, fieldType, f, dec).Some? ==>
      var w := ServiceDataUuidLength(fieldType);
      FieldEffect(s, pos, dataLength, fieldType, f, dec).value
        == f.(serviceData := Some(MapOrEmpty(f.serviceData)[dec.parseUuid(s[pos .. pos + w]) := s[pos + w .. pos + dataLength]]))
    ensures ServiceDataUuidLength(fieldType) == (if fieldType == DATA_TYPE_SERVICE_DATA_16_BIT then 2
      else if fieldType == DATA_TYPE_SERVICE_DATA_32_BIT then 4 else 16)
  {
    var w := ServiceDataUuidLength(fieldType);
    if 0 <= pos && w <= dataLength && pos + dataLength <= |s| {
      assert ExtractBytes(s, pos, w).value == s[pos .. pos + w];
      assert ExtractBytes(s, pos + w, dataLength - w).value == s[pos + w .. pos + dataLength];
    }
  }

  /** The type byte is read signed, so no field is ever of type 0xFF and the manufacturer branch never runs. */
  lemma {:induction false} ManufacturerDataNeverParsed(s: seq<Byte>, dec: Decoders)
    ensures Parse(Some(s), dec).Parsed? ==> Parse(Some(s), dec).record.manufacturerSpecificData.None?
  {
    RunKeepsNoManufacturerData(s, 0, NoFields, |s| + 1, dec);
  }

  lemma {:induction false} RunKeepsNoManufacturerData(s: seq<Byte>, pos: int, f: Fields, fuel: nat, dec: Decoders)
    requires f.manufacturerData.None?
    ensures Run(s, pos, f, fuel, dec).Completed? ==> Run(s, pos, f, fuel, dec).fields.manufacturerData.None?
    decreases fuel
  {
    if pos < |s| && fuel > 0 && LoopBody(s, pos, f, dec).Next? {
      assert Signed(s[pos + 1] & FF) != DATA_TYPE_MANUFACTURER_SPECIFIC_DATA;
      RunKeepsNoManufacturerData(s, LoopBody(s, pos, f, dec).pos, LoopBody(s, pos, f, dec).fields, fuel - 1, dec);
    }
  }

  // ---------------------------------------------------------------------
  // Records.

  /** A flags field then a terminator: flags 6, every other value at its sentinel; later bytes are ignored. */
  lemma FlagsThenTerminator(tail: seq<Byte>, dec: Decoders)
    ensures Parse(Some([0x02, 0x01, 0x06, 0x00] + tail), dec)
      == Parsed(ScanRecord(None, None, None, 6, MIN_INT, None, [0x02, 0x01, 0x06, 0x00] + tail))
  {
    var s := [0x02, 0x01, 0x06, 0x00] + tail;
    var f6 := NoFields.(advertiseFlag := 6);
    assert LoopBody(s, 0, NoFields, dec) == Next(3, f6);
    assert LoopBody(s, 3, f6, dec) == Break;
    assert Run(s, 3, f6, |s|, dec) == Completed(f6);
    assert Run(s, 0, NoFields, |s| + 1, dec) == Completed(f6);
  }

  /** A truncated trailing field of an unhandled type ends the loop without an exception. */
  lemma TruncatedUnknownFieldKeepsValues(dec: Decoders)
    ensures Parse(Some([0x02, 0x01, 0x06, 0x05, 0x30]), dec)
      == Parsed(ScanRecord(None, None, None, 6, MIN_INT, None, [0x02, 0x01, 0x06, 0x05, 0x30]))
  {
    var s: seq<Byte> := [0x02, 0x01, 0x06, 0x05, 0x30];
    var f6 := NoFields.(advertiseFlag := 6);
    assert LoopBody(s, 0, NoFields, dec) == Next(3, f6);
    assert LoopBody(s, 3, f6, dec) == Next(9, f6);
  }

  /** A flags field cut off before its value throws, and only the raw bytes are kept. */
  lemma TruncatedFlagsFallsBack(dec: Decoders)
    ensures Parse(Some([0x02, 0x01]), dec) == Parsed(Fallback([0x02, 0x01]))
  {
    var s: seq<Byte> := [0x02, 0x01];
    assert LoopBody(s, 0, NoFields, dec) == Throw;
  }

  /**
   * A list of 128-bit service UUIDs holding less than one UUID throws at the
   * copy of the first one, and only the raw bytes are kept.
   */
  lemma TruncatedUuidListFallsBack(dec: Decoders)
    ensures Parse(Some([0x02, 0x06, 0x01, 0x02, 0x01]), dec) == Parsed(Fallback([0x02, 0x06, 0x01, 0x02, 0x01]))
  {
    var s: seq<Byte> := [0x02, 0x06, 0x01, 0x02, 0x01];
    assert LoopBody(s, 0, NoFields, dec) == Throw by {
      assert UuidChunks(s, 2, 1, 16, dec) == None;
    }
  }

  /** A length byte of 0x80 is -128: the cursor goes below zero and the next read throws. */
  lemma NegativeLengthFallsBack(dec: Decoders)
    ensures Parse(Some([0x80, 0x30]), dec) == Parsed(Fallback([0x80, 0x30]))
  {
    var s: seq<Byte> := [0x80, 0x30];
    assert LoopBody(s, 0, NoFields, dec) == Next(-127, NoFields);
  }

  /**
   * A negative length that moves the cursor back need not throw or loop: of
   * `0x03 0x30 0x00 0x00 0xFD 0x30` the cursor visits 0, 4 and 2, where the
   * zero length ends the loop normally.
   */
  lemma BackwardCursorBreaks(dec: Decoders)
    ensures Parse(Some([0x03, 0x30, 0x00, 0x00, 0xFD, 0x30]), dec)
      == Parsed(ScanRecord(None, None, None, -1, MIN_INT, None, [0x03, 0x30, 0x00, 0x00, 0xFD, 0x30]))
  {
    var s: seq<Byte> := [0x03, 0x30, 0x00, 0x00, 0xFD, 0x30];
    assert LoopBody(s, 0, NoFields, dec) == Next(4, NoFields);
    assert LoopBody(s, 4, NoFields, dec) == Next(2, NoFields);
    assert LoopBody(s, 2, NoFields, dec) == Break;
  }

  /** A length byte of 0xFF is -1: the cursor comes back to the length byte and the loop never ends. */
  lemma LengthFFHangs(dec: Decoders)
    ensures Parse(Some([0xFF, 0x00]), dec) == Hangs
    ensures LoopsForever([0xFF, 0x00], dec)
  {
    var s: seq<Byte> := [0xFF, 0x00];
    assert LoopBody(s, 0, NoFields, dec) == Next(0, NoFields);
    assert Running(s, 0, 1, dec) && Cursor(s, 0, 1, dec) == 0;
    forall k: nat ensures Running(s, 0, k, dec) {
      CycleRunsForever(s, 0, 1, k, dec);
    }
    HangsIffLoopsForever(s, dec);
  }

  // ---------------------------------------------------------------------
  // The imperative parser.

  /**
   * `parseServiceUuid`: appends one UUID per `uuidLength` bytes to `uuids`
   * while `dataLength` stays positive; `ok` is false where the source throws.
   */
  method ParseServiceUuid(s: seq<Byte>, currentPos: int, dataLength: int, uuidLength: nat, uuids: seq<Uuid>, dec: Decoders)
    returns (ok: bool, out: seq<Uuid>, endPos: int)
    requires uuidLength > 0
    ensures ok <==> UuidChunks(s, currentPos, dataLength, uuidLength, dec).Some?
    ensures ok ==> out == uuids + UuidChunks(s, currentPos, dataLength, uuidLength, dec).value
    ensures ok ==> endPos == ChunkEnd(currentPos, dataLength, uuidLength)
  {
    var pos := currentPos;
    var remaining := dataLength;
    out := uuids;
    while remaining > 0
      invariant UuidChunks(s, currentPos, dataLength, uuidLength, dec).Some?
        <==> UuidChunks(s, pos, remaining, uuidLength, dec).Some?
      invariant UuidChunks(s, currentPos, dataLength, uuidLength, dec).Some? ==>
        uuids + UuidChunks(s, currentPos, dataLength, uuidLength, dec).value
          == out + UuidChunks(s, pos, remaining, uuidLength, dec).value
      invariant ChunkEnd(currentPos, dataLength, uuidLength) == ChunkEnd(pos, remaining, uuidLength)
      decreases remaining
    {
      var uuidBytes := ExtractBytes(s, pos, uuidLength);
      if uuidBytes.None? {
        return false, out, pos;
      }
      out := out + [dec.parseUuid(uuidBytes.value)];
      remaining := remaining - uuidLength;
      pos := pos + uuidLength;
    }
    return true, out, pos;
  }

  /**
   * The `when` over the field type in `parseFromBytes`: updates the
   * accumulated values for the field whose value starts at `currentPos`;
   * `None` where the branch throws.
   */
  method ParseField(s: seq<Byte>, currentPos: int, dataLength: int, fieldType: int, fields: Fields, dec: Decoders)
    returns (r: Option<Fields>)
    ensures r == FieldEffect(s, currentPos, dataLength, fieldType, fields, dec)
  {
    if fieldType == DATA_TYPE_FLAGS {
      if currentPos < 0 || currentPos >= |s| {
        return None;
      }
      return Some(fields.(advertiseFlag := Signed(s[currentPos] & FF)));
    } else if IsUuidListType(fieldType) {
      var ok, uuids, _ := ParseServiceUuid(s, currentPos, dataLength, UuidListLength(fieldType),
                                           ListOrEmpty(fields.serviceUuids), dec);
      if !ok {
        return None;
      }
      return Some(fields.(serviceUuids := Some(uuids)));
    } else if IsNameType(fieldType) {
      var nameBytes := ExtractBytes(s, currentPos, dataLength);
      if nameBytes.None? {
        return None;
      }
      return Some(fields.(localName := Some(dec.decodeString(nameBytes.value))));
    } else if fieldType == DATA_TYPE_TX_POWER_LEVEL {
      if currentPos < 0 || currentPos >= |s| {
        return None;
      }
      return Some(fields.(txPowerLevel := Signed(s[currentPos])));
    } else if IsServiceDataType(fieldType) {
      var serviceUuidLength := ServiceDataUuidLength(fieldType);
      var serviceDataUuidBytes := ExtractBytes(s, currentPos, serviceUuidLength);
      if serviceDataUuidBytes.None? {
        return None;
      }
      var serviceDataUuid := dec.parseUuid(serviceDataUuidBytes.value);
      var serviceDataArray := ExtractBytes(s, currentPos + serviceUuidLength, dataLength - serviceUuidLength);
      if serviceDataArray.None? {
        return None;
      }
      return Some(fields.(serviceData := Some(MapOrEmpty(fields.serviceData)[serviceDataUuid := serviceDataArray.value])));
    } else if fieldType == DATA_TYPE_MANUFACTURER_SPECIFIC_DATA {
      var manufacturer := ManufacturerField(s, currentPos, dataLength);
      if manufacturer.None? {
        return None;
      }
      var (id, bytes) := manufacturer.value;
      return Some(fields.(manufacturerData := Some(MapOrEmpty(fields.manufacturerData)[id := bytes])));
    }
    return Some(fields);
  }

  /**
   * One run of the loop body of `parseFromBytes` at cursor `currentPos`:
   * the signed length byte, the signed type byte, the branch for the type,
   * and the cursor moved `length - 1` bytes past the type byte.
   */
  method ParseOneField(s: seq<Byte>, currentPos: int, fields: Fields, dec: Decoders) returns (step: Step)
    requires currentPos < |s|
    ensures step == LoopBody(s, currentPos, fields, dec)
  {
    if currentPos < 0 {
      return Throw;
    }
    var length := Signed(s[currentPos] & FF);
    if length == 0 {
      return Break;
    }
    var dataLength := length - 1;
    if currentPos + 1 >= |s| {
      return Throw;
    }
    var fieldType := Signed(s[currentPos + 1] & FF);
    var next := ParseField(s, currentPos + 2, dataLength, fieldType, fields, dec);
    if next.None? {
      return Throw;
    }
    return Next(currentPos + 2 + dataLength, next.value);
  }

  /**
   * `parseFromBytes` as the source runs it: a loop over the fields with its
   * accumulators, returning the fallback record where the source catches an
   * exception. The loop counts its iterations; when it has run once more
   * than there are bytes it is caught in a cycle and the source never
   * returns, which is the `Hangs` outcome.
   */
  method ParseFromBytes(scanRecord: Option<seq<Byte>>, dec: Decoders) returns (r: ParseResult)
    ensures r == Parse(scanRecord, dec)
  {
    if scanRecord.None? {
      return NoRecord;
    }
    var s := scanRecord.value;
    var currentPos := 0;
    var fields := NoFields;
    var iterations := 0;
    while currentPos < |s|
      invariant 0 <= iterations <= |s| + 1
      invariant Run(s, 0, NoFields, |s| + 1, dec) == Run(s, currentPos, fields, |s| + 1 - iterations, dec)
      decreases |s| + 1 - iterations
    {
      if iterations == |s| + 1 {
        return Hangs;
      }
      var step := ParseOneField(s, currentPos, fields, dec);
      match step {
        case Break =>
          break;
        case Throw =>
          return Parsed(Fallback(s));
        case Next(p, g) =>
          currentPos, fields := p, g;
      }
      iterations := iterations + 1;
    }
    return Parsed(RecordOf(fields, s));
  }
}
