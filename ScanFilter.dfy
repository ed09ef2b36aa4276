/**
 * Scan filters: the criteria a scan result must meet, the matcher the
 * library runs when it emulates filtering, and the builder that validates
 * the criteria.
 */
module ScanFilters {
  import opened Common
  import ScanRecords
  import opened ScanResults

  /**
   * A filter. `None` is an unset criterion; a negative `manufacturerId`
   * leaves manufacturer data unchecked.
   */
  datatype ScanFilter = ScanFilter(
    deviceName: Option<string>,
    deviceAddress: Option<Address>,
    serviceUuid: Option<Uuid>,
    serviceUuidMask: Option<Uuid>,
    serviceDataUuid: Option<Uuid>,
    serviceData: Option<seq<Byte>>,
    serviceDataMask: Option<seq<Byte>>,
    manufacturerId: int,
    manufacturerData: Option<seq<Byte>>,
    manufacturerDataMask: Option<seq<Byte>>)

  /** The filter a fresh builder builds: nothing set, manufacturer id -1. */
  const EmptyFilter: ScanFilter := ScanFilter(None, None, None, None, None, None, None, -1, None, None)

  /** A mask is given only with a value of the same length. */
  predicate MaskFits(data: Option<seq<Byte>>, mask: Option<seq<Byte>>)
  {
    mask.Some? ==> data.Some? && |data.value| == |mask.value|
  }

  /** What the builder's checks guarantee of every filter it builds. */
  predicate WellFormed(f: ScanFilter)
  {
    (f.serviceUuidMask.Some? ==> f.serviceUuid.Some?)
    && MaskFits(f.serviceData, f.serviceDataMask)
    && ((f.serviceData.Some? || f.serviceDataMask.Some?) ==> f.serviceDataUuid.Some?)
    && (f.manufacturerData.Some? ==> f.manufacturerId >= 0)
    && MaskFits(f.manufacturerData, f.manufacturerDataMask)
  }

  /** `matchesServiceUuid`: equality, or equality of both halves under the mask. */
  predicate MatchesServiceUuid(uuid: Uuid, mask: Option<Uuid>, data: Uuid)
  {
    match mask
    case None => uuid == data
    case Some(m) => HalfMatches(uuid.lsb, m.lsb, data.lsb) && HalfMatches(uuid.msb, m.msb, data.msb)
  }

  /** One 64-bit half of a UUID compared under its half of the mask. */
  predicate HalfMatches(x: bv64, mask: bv64, y: bv64)
  {
    x & mask == y & mask
  }

  /** Under a mask of ones two halves agree exactly when they are equal; under zeros always. */
  lemma HalfMaskExtremes(x: bv64, y: bv64)
    ensures HalfMatches(x, 0xFFFF_FFFF_FFFF_FFFF, y) <==> x == y
    ensures HalfMatches(x, 0, y)
  {
  }

  /** A mask of all ones asks for equality; a mask of all zeros accepts every UUID. */
  lemma ServiceUuidMaskExtremes(uuid: Uuid, data: Uuid)
    ensures MatchesServiceUuid(uuid, Some(Uuid(0xFFFF_FFFF_FFFF_FFFF, 0xFFFF_FFFF_FFFF_FFFF)), data) <==> uuid == data
    ensures MatchesServiceUuid(uuid, Some(Uuid(0, 0)), data)
  {
    HalfMaskExtremes(uuid.lsb, data.lsb);
    HalfMaskExtremes(uuid.msb, data.msb);
  }

  /** The loop of `matchesServiceUuids` from position `i` of the list. */
  function AnyServiceUuidMatches(uuid: Uuid, mask: Option<Uuid>, uuids: seq<Uuid>, i: nat): (r: bool)
    requires i <= |uuids|
    ensures r <==> exists k :: i <= k < |uuids| && MatchesServiceUuid(uuid, mask, uuids[k])
    decreases |uuids| - i
  {
    if i == |uuids| then false
    else if MatchesServiceUuid(uuid, mask, uuids[i]) then true
    else AnyServiceUuidMatches(uuid, mask, uuids, i + 1)
  }

  /** `matchesServiceUuids`: no UUID asked for, or some UUID of the record matches it. */
  function MatchesServiceUuids(uuid: Option<Uuid>, mask: Option<Uuid>, uuids: Option<seq<Uuid>>): (r: bool)
    ensures r <==> (uuid.None?
      || (uuids.Some? && exists k :: 0 <= k < |uuids.value| && MatchesServiceUuid(uuid.value, mask, uuids.value[k])))
  {
    if uuid.None? then true
    else if uuids.None? then false
    else AnyServiceUuidMatches(uuid.value, mask, uuids.value, 0)
  }

  /** Byte `i` of the parsed data agrees with byte `i` of the pattern, under the mask if there is one. */
  predicate ByteMatches(data: seq<Byte>, mask: Option<seq<Byte>>, parsed: seq<Byte>, i: nat)
    requires i < |data| && i < |parsed|
    requires mask.Some? ==> i < |mask.value|
  {
    match mask
    case None => parsed[i] == data[i]
    case Some(m) => m[i] & parsed[i] == m[i] & data[i]
  }

  /** The loop of `matchesPartialData` from index `i`. */
  function PatternMatchesFrom(data: seq<Byte>, mask: Option<seq<Byte>>, parsed: seq<Byte>, i: nat): (r: bool)
    requires i <= |data| <= |parsed|
    requires mask.Some? ==> |data| <= |mask.value|
    ensures r <==> forall k :: i <= k < |data| ==> ByteMatches(data, mask, parsed, k)
    decreases |data| - i
  {
    if i == |data| then true
    else if !ByteMatches(data, mask, parsed, i) then false
    else PatternMatchesFrom(data, mask, parsed, i + 1)
  }

  /**
   * `matchesPartialData`: with no pattern, any data present; otherwise
   * data at least as long as the pattern whose leading bytes agree with it.
   * The source indexes the mask by the pattern's indices, so it needs a
   * mask no shorter than the pattern.
   */
  function MatchesPartialData(data: Option<seq<Byte>>, mask: Option<seq<Byte>>, parsed: Option<seq<Byte>>): (r: bool)
    requires data.Some? && mask.Some? ==> |data.value| <= |mask.value|
    ensures data.None? ==> (r <==> parsed.Some?)
    ensures data.Some? ==> (r <==> (parsed.Some? && |data.value| <= |parsed.value|
      && forall k :: 0 <= k < |data.value| ==> ByteMatches(data.value, mask, parsed.value, k)))
  {
    if data.None? then parsed.Some?
    else if parsed.None? || |parsed.value| < |data.value| then false
    else PatternMatchesFrom(data.value, mask, parsed.value, 0)
  }

  /** A pattern matches every data that starts with it, under any mask. */
  lemma PatternMatchesItsExtensions(data: seq<Byte>, mask: Option<seq<Byte>>, rest: seq<Byte>)
    requires mask.Some? ==> |data| <= |mask.value|
    ensures MatchesPartialData(Some(data), mask, Some(data + rest))
  {
    var parsed := data + rest;
    assert forall k :: 0 <= k < |data| ==> parsed[k] == data[k];
  }

  /** A mask of zeros accepts every data as long as the pattern. */
  lemma ZeroMaskAcceptsAll(data: seq<Byte>, parsed: seq<Byte>)
    requires |data| <= |parsed|
    ensures MatchesPartialData(Some(data), Some(seq(|data|, _ => 0)), Some(parsed))
  {
  }

  /**
   * `matches` with the nullable result: an address that differs, a record
   * missing while a record criterion is set, a different name, no matching
   * service UUID, or service or manufacturer data that does not match the
   * pattern rejects the result. Service and manufacturer data are checked
   * only when there is a record.
   */
  predicate Matches(f: ScanFilter, result: Option<ScanResult>)
    requires WellFormed(f)
  {
    if result.None? then false
    else
      var r := result.value;
      var record := r.scanRecord;
      if f.deviceAddress.Some? && f.deviceAddress.value != r.device then false
      else if record.None? && (f.deviceName.Some? || f.serviceUuid.Some? || f.manufacturerData.Some? || f.serviceData.Some?) then false
      else if f.deviceName.Some? && Some(f.deviceName.value) != record.value.deviceName then false
      else if f.serviceUuid.Some? && !MatchesServiceUuids(f.serviceUuid, f.serviceUuidMask, record.value.serviceUuids) then false
      else if f.serviceDataUuid.Some? && record.Some?
        && !MatchesPartialData(f.serviceData, f.serviceDataMask, ScanRecords.GetServiceData(record.value, f.serviceDataUuid.value))
      then false
      else if f.manufacturerId >= 0 && record.Some?
        && !MatchesPartialData(f.manufacturerData, f.manufacturerDataMask,
                               ScanRecords.GetManufacturerSpecificData(record.value, f.manufacturerId))
      then false
      else true
  }

  /**
   * No filter matches a null result; the empty filter matches every other
   * result, although `isAllFieldsEmpty` does not report it as empty.
   */
  lemma EmptyFilterMatchesAll(result: Option<ScanResult>)
    ensures WellFormed(EmptyFilter)
    ensures Matches(EmptyFilter, result) <==> result.Some?
    ensures !IsAllFieldsEmpty(EmptyFilter)
  {
  }

  /**
   * A result without a record passes exactly the filters that ask for no
   * name, service UUID, manufacturer data or service data and whose address,
   * if any, is the result's.
   */
  lemma NoRecordMatches(f: ScanFilter, result: ScanResult)
    requires WellFormed(f) && result.scanRecord.None?
    ensures Matches(f, Some(result)) <==>
      (f.deviceAddress.None? || f.deviceAddress.value == result.device)
      && f.deviceName.None? && f.serviceUuid.None? && f.manufacturerData.None? && f.serviceData.None?
  {
  }

  /**
   * A filter that asks for manufacturer data matches no result whose record
   * has no manufacturer data, which is every record the parser produces.
   */
  lemma ManufacturerFilterRejects(f: ScanFilter, result: ScanResult)
    requires WellFormed(f) && f.manufacturerId >= 0
    requires result.scanRecord.Some? && result.scanRecord.value.manufacturerSpecificData.None?
    ensures !Matches(f, Some(result))
  {
  }

  /** Parsed records never satisfy a manufacturer filter. */
  lemma ManufacturerFilterRejectsParsed(f: ScanFilter, result: ScanResult, bytes: seq<Byte>, dec: ScanRecords.Decoders)
    requires WellFormed(f) && f.manufacturerId >= 0
    requires ScanRecords.Parse(Some(bytes), dec).Parsed?
    requires result.scanRecord == Some(ScanRecords.Parse(Some(bytes), dec).record)
    ensures !Matches(f, Some(result))
  {
    ScanRecords.ManufacturerDataNeverParsed(bytes, dec);
    ManufacturerFilterRejects(f, result);
  }

  /**
   * The pattern condition of `matchesPartialData`, stated on its own: data
   * was found, and when there is a pattern the data is at least as long and
   * agrees with it under the mask.
   */
  predicate MeetsPattern(data: Option<seq<Byte>>, mask: Option<seq<Byte>>, parsed: Option<seq<Byte>>)
    requires MaskFits(data, mask)
  {
    parsed.Some? && (data.Some? ==> (|data.value| <= |parsed.value|
      && forall k :: 0 <= k < |data.value| ==> ByteMatches(data.value, mask, parsed.value, k)))
  }

  /**
   * A filter matches a result exactly when every criterion it sets holds:
   * the address; no record criterion without a record; the name; some
   * service UUID of the record; and, when there is a record, the service
   * data under the service-data UUID and the manufacturer data under the
   * manufacturer id.
   */
  lemma MatchesIffCriteria(f: ScanFilter, result: ScanResult)
    requires WellFormed(f)
    ensures Matches(f, Some(result)) <==>
      var record := result.scanRecord;
      (f.deviceAddress.Some? ==> result.device == f.deviceAddress.value)
      && (record.None? ==> f.deviceName.None? && f.serviceUuid.None? && f.manufacturerData.None? && f.serviceData.None?)
      && (f.deviceName.Some? ==> record.Some? && record.value.deviceName == f.deviceName)
      && (f.serviceUuid.Some? ==> (record.Some? && record.value.serviceUuids.Some?
            && exists k :: 0 <= k < |record.value.serviceUuids.value|
                 && MatchesServiceUuid(f.serviceUuid.value, f.serviceUuidMask, record.value.serviceUuids.value[k])))
      && (f.serviceDataUuid.Some? && record.Some? ==>
            MeetsPattern(f.serviceData, f.serviceDataMask, ScanRecords.GetServiceData(record.value, f.serviceDataUuid.value)))
      && (f.manufacturerId >= 0 && record.Some? ==>
            MeetsPattern(f.manufacturerData, f.manufacturerDataMask,
                         ScanRecords.GetManufacturerSpecificData(record.value, f.manufacturerId)))
  {
  }

  /** A filter on one service UUID, as in the library's own example. */
  lemma ServiceUuidExample(a: Uuid, b: Uuid, result: ScanResult)
    requires a != b && result.scanRecord.Some?
    ensures var f := EmptyFilter.(serviceUuid := Some(a));
      WellFormed(f)
      && (result.scanRecord.value.serviceUuids == Some([a, b]) ==> Matches(f, Some(result)))
      && (result.scanRecord.value.serviceUuids == Some([b]) ==> !Matches(f, Some(result)))
  {
    var f := EmptyFilter.(serviceUuid := Some(a));
    var uuids := result.scanRecord.value.serviceUuids;
    if uuids == Some([a, b]) {
      assert MatchesServiceUuid(a, None, uuids.value[0]);
      assert MatchesServiceUuids(Some(a), None, uuids);
    }
    if uuids == Some([b]) {
      assert !MatchesServiceUuid(a, None, uuids.value[0]);
      assert !MatchesServiceUuids(Some(a), None, uuids);
    }
  }

  /** `equals`: every field, byte arrays compared by content. */
  predicate Equals(a: ScanFilter, b: ScanFilter)
  {
    a.deviceName == b.deviceName && a.deviceAddress == b.deviceAddress
    && a.manufacturerId == b.manufacturerId
    && a.manufacturerData == b.manufacturerData && a.manufacturerDataMask == b.manufacturerDataMask
    && a.serviceDataUuid == b.serviceDataUuid
    && a.serviceData == b.serviceData && a.serviceDataMask == b.serviceDataMask
    && a.serviceUuid == b.serviceUuid && a.serviceUuidMask == b.serviceUuidMask
  }

  /** `equals` is value equality of the whole filter. */
  lemma EqualsIsValueEquality(a: ScanFilter, b: ScanFilter)
    ensures Equals(a, b) <==> a == b
  {
  }

  /** `isAllFieldsEmpty`: always false, even for the empty filter. */
  predicate IsAllFieldsEmpty(f: ScanFilter)
  {
    false
  }

  // ---------------------------------------------------------------------
  // The builder's checks.

  /** `setServiceUuid(uuid, mask)` accepts a mask only with a UUID. */
  predicate ServiceUuidAccepted(uuid: Option<Uuid>, mask: Option<Uuid>)
  {
    !(mask.Some? && uuid.None?)
  }

  /** The masked setters accept a mask only with data of the same size. */
  predicate MaskedDataAccepted(data: Option<seq<Byte>>, mask: Option<seq<Byte>>)
  {
    mask.Some? ==> data.Some? && |data.value| == |mask.value|
  }

  /** The manufacturer setters accept data only with a non-negative id. */
  predicate ManufacturerIdAccepted(id: int, data: Option<seq<Byte>>)
  {
    !(data.Some? && id < 0)
  }

  /** `ScanFilter.Builder`. Every setter checks its arguments before it assigns, so a rejected call changes nothing. */
  class FilterBuilder {
    var deviceName: Option<string>
    var deviceAddress: Option<Address>
    var serviceUuid: Option<Uuid>
    var uuidMask: Option<Uuid>
    var serviceDataUuid: Option<Uuid>
    var serviceData: Option<seq<Byte>>
    var serviceDataMask: Option<seq<Byte>>
    var manufacturerId: int
    var manufacturerData: Option<seq<Byte>>
    var manufacturerDataMask: Option<seq<Byte>>

    /** The filter `build` would return now. */
    function Current(): ScanFilter
      reads this
    {
      ScanFilter(deviceName, deviceAddress, serviceUuid, uuidMask, serviceDataUuid, serviceData,
                 serviceDataMask, manufacturerId, manufacturerData, manufacturerDataMask)
    }

    ghost predicate Valid()
      reads this
    {
      WellFormed(Current())
    }

    constructor ()
      ensures Valid() && Current() == EmptyFilter
    {
      deviceName, deviceAddress := None, None;
      serviceUuid, uuidMask := None, None;
      serviceDataUuid, serviceData, serviceDataMask := None, None, None;
      manufacturerId, manufacturerData, manufacturerDataMask := -1, None, None;
    }

    method SetDeviceName(name: Option<string>)
      requires Valid()
      modifies this
      ensures Valid() && Current() == old(Current()).(deviceName := name)
    {
      deviceName := name;
    }

    /** `setDeviceAddress`: `checkAddress` is `BluetoothAdapter.checkBluetoothAddress`. */
    method SetDeviceAddress(address: Option<Address>, checkAddress: Address -> bool) returns (ok: bool)
      requires Valid()
      modifies this
      ensures ok <==> address.None? || checkAddress(address.value)
      ensures Valid() && Current() == if ok then old(Current()).(deviceAddress := address) else old(Current())
    {
      if address.Some? && !checkAddress(address.value) {
        return false;
      }
      deviceAddress := address;
      return true;
    }

    /** `setServiceUuid(uuid)`: also clears the mask. */
    method SetServiceUuid(uuid: Option<Uuid>)
      requires Valid()
      modifies this
      ensures Valid() && Current() == old(Current()).(serviceUuid := uuid, serviceUuidMask := None)
    {
      serviceUuid := uuid;
      uuidMask := None;
    }

    method SetServiceUuidMasked(uuid: Option<Uuid>, mask: Option<Uuid>) returns (ok: bool)
      requires Valid()
      modifies this
      ensures ok == ServiceUuidAccepted(uuid, mask)
      ensures Valid() && Current() == if ok then old(Current()).(serviceUuid := uuid, serviceUuidMask := mask) else old(Current())
    {
      if mask.Some? && uuid.None? {
        return false;
      }
      serviceUuid, uuidMask := uuid, mask;
      return true;
    }

    /** `setServiceData(uuid, data)`: also clears the mask. */
    method SetServiceData(uuid: Uuid, data: Option<seq<Byte>>)
      requires Valid()
      modifies this
      ensures Valid()
      ensures Current() == old(Current()).(serviceDataUuid := Some(uuid), serviceData := data, serviceDataMask := None)
    {
      serviceDataUuid, serviceData, serviceDataMask := Some(uuid), data, None;
    }

    method SetServiceDataMasked(uuid: Uuid, data: Option<seq<Byte>>, mask: Option<seq<Byte>>) returns (ok: bool)
      requires Valid()
      modifies this
      ensures ok == MaskedDataAccepted(data, mask)
      ensures Valid()
      ensures Current() == if ok then old(Current()).(serviceDataUuid := Some(uuid), serviceData := data, serviceDataMask := mask)
                           else old(Current())
    {
      if mask.Some? {
        if data.None? {
          return false;
        }
        if |data.value| != |mask.value| {
          return false;
        }
      }
      serviceDataUuid, serviceData, serviceDataMask := Some(uuid), data, mask;
      return true;
    }

    /** `setManufacturerData(id, data)`: also clears the mask. */
    method SetManufacturerData(id: int, data: Option<seq<Byte>>) returns (ok: bool)
      requires Valid()
      modifies this
      ensures ok == ManufacturerIdAccepted(id, data)
      ensures Valid()
      ensures Current() == if ok then old(Current()).(manufacturerId := id, manufacturerData := data, manufacturerDataMask := None)
                           else old(Current())
    {
      if data.Some? && id < 0 {
        return false;
      }
      manufacturerId, manufacturerData, manufacturerDataMask := id, data, None;
      return true;
    }

    method SetManufacturerDataMasked(id: int, data: Option<seq<Byte>>, mask: Option<seq<Byte>>) returns (ok: bool)
      requires Valid()
      modifies this
      ensures ok == (ManufacturerIdAccepted(id, data) && MaskedDataAccepted(data, mask))
      ensures Valid()
      ensures Current() == if ok then old(Current()).(manufacturerId := id, manufacturerData := data, manufacturerDataMask := mask)
                           else old(Current())
    {
      if data.Some? && id < 0 {
        return false;
      }
      if mask.Some? {
        if data.None? {
          return false;
        }
        if |data.value| != |mask.value| {
          return false;
        }
      }
      manufacturerId, manufacturerData, manufacturerDataMask := id, data, mask;
      return true;
    }

    /** `build`: the filter holds the builder's values, and is well formed. */
    method Build() returns (f: ScanFilter)
      requires Valid()
      ensures f == Current() && WellFormed(f)
    {
      f := ScanFilter(deviceName, deviceAddress, serviceUuid, uuidMask, serviceDataUuid, serviceData,
                      serviceDataMask, manufacturerId, manufacturerData, manufacturerDataMask);
    }
  }
}
