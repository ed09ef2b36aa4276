/**
 * One scan result: the device, its parsed record, the signal strength, the
 * time it was seen and the advertising event type bits of Bluetooth LE 5.
 */
module ScanResults {
  import opened Common
  import ScanRecords

  const DATA_COMPLETE: Int32 := 0x00
  const DATA_TRUNCATED: Int32 := 0x02
  const PHY_LE_1M: int := 1
  const PHY_UNUSED: int := 0x00
  const SID_NOT_PRESENT: int := 0xFF
  const TX_POWER_NOT_PRESENT: int := 0x7F
  const PERIODIC_INTERVAL_NOT_PRESENT: int := 0x00
  const ET_LEGACY_MASK: Int32 := 0x10
  const ET_CONNECTABLE_MASK: Int32 := 0x01

  datatype ScanResult = ScanResult(
    device: Address,
    scanRecord: Option<ScanRecords.ScanRecord>,
    rssi: int,
    timestampNanos: int,
    eventType: Int32,
    primaryPhy: int,
    secondaryPhy: int,
    advertisingSid: int,
    txPower: int,
    periodicAdvertisingInterval: int)

  /** The event type of a complete, legacy, connectable advertisement. */
  const LEGACY_EVENT_TYPE: Int32 := (DATA_COMPLETE << 5) | ET_LEGACY_MASK | ET_CONNECTABLE_MASK

  /**
   * The four-argument constructor, used below Android 8: a complete legacy
   * connectable advertisement on the 1M PHY with no extended fields.
   */
  function LegacyScanResult(device: Address, scanRecord: Option<ScanRecords.ScanRecord>, rssi: int, timestampNanos: int)
    : (r: ScanResult)
    ensures r.device == device && r.scanRecord == scanRecord && r.rssi == rssi && r.timestampNanos == timestampNanos
    ensures IsLegacy(r) && IsConnectable(r) && DataStatus(r) == DATA_COMPLETE
    ensures r.primaryPhy == PHY_LE_1M && r.secondaryPhy == PHY_UNUSED && r.advertisingSid == SID_NOT_PRESENT
    ensures r.txPower == 127 && r.periodicAdvertisingInterval == 0
  {
    ScanResult(device, scanRecord, rssi, timestampNanos, LEGACY_EVENT_TYPE,
               PHY_LE_1M, PHY_UNUSED, SID_NOT_PRESENT, 127, 0)
  }

  /** The ten-argument constructor, used from Android 8: every argument is stored as given. */
  function ExtendedScanResult(device: Address, eventType: Int32, primaryPhy: int, secondaryPhy: int,
                              advertisingSid: int, txPower: int, rssi: int, periodicAdvertisingInterval: int,
                              scanRecord: Option<ScanRecords.ScanRecord>, timestampNanos: int): (r: ScanResult)
    ensures r.device == device && r.eventType == eventType
    ensures r.primaryPhy == primaryPhy && r.secondaryPhy == secondaryPhy
    ensures r.advertisingSid == advertisingSid && r.txPower == txPower && r.rssi == rssi
    ensures r.periodicAdvertisingInterval == periodicAdvertisingInterval
    ensures r.scanRecord == scanRecord && r.timestampNanos == timestampNanos
  {
    ScanResult(device, scanRecord, rssi, timestampNanos, eventType, primaryPhy, secondaryPhy,
               advertisingSid, txPower, periodicAdvertisingInterval)
  }

  /** `isLegacy`: bit 4 of the event type. */
  predicate IsLegacy(r: ScanResult)
  {
    r.eventType & ET_LEGACY_MASK != 0
  }

  /** `isConnectable`: bit 0 of the event type. */
  predicate IsConnectable(r: ScanResult)
  {
    r.eventType & ET_CONNECTABLE_MASK != 0
  }

  /** `getDataStatus`: bits 5 and 6 of the event type. */
  function DataStatus(r: ScanResult): (status: Int32)
    ensures status < 4
  {
    Shr(r.eventType, 5) & 0x03
  }

  /**
   * The event type Android 8 and later rebuild from a native result: the
   * data status in bits 5 and up, the legacy flag in bit 4, the connectable
   * flag in bit 0.
   */
  function EventType(dataStatus: Int32, legacy: bool, connectable: bool): (e: Int32)
  {
    (dataStatus << 5) | (if legacy then ET_LEGACY_MASK else 0) | (if connectable then ET_CONNECTABLE_MASK else 0)
  }

  /** The getters read back what `EventType` packed; of the data status, its two low bits. */
  lemma EventTypeRoundTrip(r: ScanResult, dataStatus: Int32, legacy: bool, connectable: bool)
    requires r.eventType == EventType(dataStatus, legacy, connectable)
    ensures IsLegacy(r) == legacy && IsConnectable(r) == connectable
    ensures DataStatus(r) == dataStatus & 0x03
    ensures dataStatus < 4 ==> DataStatus(r) == dataStatus
  {
  }

  /** The records' `equals`, with nulls equal only to nulls. */
  predicate RecordsEqual(a: Option<ScanRecords.ScanRecord>, b: Option<ScanRecords.ScanRecord>)
  {
    if a.None? || b.None? then a.None? && b.None? else ScanRecords.Equals(a.value, b.value)
  }

  /** `equals`: every field, the records compared by their raw bytes. */
  predicate Equals(a: ScanResult, b: ScanResult)
  {
    a.device == b.device && a.rssi == b.rssi && RecordsEqual(a.scanRecord, b.scanRecord)
    && a.timestampNanos == b.timestampNanos && a.eventType == b.eventType
    && a.primaryPhy == b.primaryPhy && a.secondaryPhy == b.secondaryPhy
    && a.advertisingSid == b.advertisingSid && a.txPower == b.txPower
    && a.periodicAdvertisingInterval == b.periodicAdvertisingInterval
  }

  /** `equals` is an equivalence. */
  lemma EqualsIsEquivalence(a: ScanResult, b: ScanResult, c: ScanResult)
    ensures Equals(a, a)
    ensures Equals(a, b) ==> Equals(b, a)
    ensures Equals(a, b) && Equals(b, c) ==> Equals(a, c)
  {
  }

  /**
   * `equals` sees only the raw bytes of the records: two results that differ
   * only in what was parsed out of the same bytes are equal, and equal
   * results with records carry the same bytes.
   */
  lemma EqualsIgnoresParsedValues(a: ScanResult, b: ScanResult)
    requires a.scanRecord.Some? && b.scanRecord.Some?
    requires a == b.(scanRecord := a.scanRecord)
    ensures Equals(a, b) <==> a.scanRecord.value.bytes == b.scanRecord.value.bytes
  {
  }
}
