/**
 * The conversions between the library's values and the platform's own
 * scanner types on Android 5 and later: which settings fields each tier
 * hands to the platform's settings builder, the filter copy in both
 * directions, the settings copy back from the platform (Android 8), and the
 * result conversion with the event type Android 8 rebuilds.
 *
 * The platform's builders are not part of this model: a platform settings
 * or filter object is represented by the values that were set on its
 * builder, and the platform fills in its own defaults for the rest.
 */
module NativeConversions {
  import opened Common
  import ScanRecords
  import opened ScanResults
  import opened ScanFilters
  import opened Settings

  /** The scanner implementation in use: Android 5, Android 6 and 7, Android 8 and later. */
  datatype Tier = Lollipop | Marshmallow | Oreo

  // ---------------------------------------------------------------------
  // Settings.

  /**
   * The calls made on the platform's `ScanSettings.Builder`: a field is
   * `None` when its setter was not called. The scan mode is always set.
   */
  datatype NativeSettings = NativeSettings(
    reportDelayMillis: Option<Long>,
    scanMode: int,
    callbackType: Option<Int32>,
    matchMode: Option<int>,
    numOfMatches: Option<int>,
    legacy: Option<bool>,
    phy: Option<int>)

  /**
   * `toNativeScanSettings` of each tier. The report delay is handed on when
   * an exact copy is asked for or when the controller batches; Android 5
   * replaces OPPORTUNISTIC by LOW_POWER and hands on nothing else; Android 6
   * and later hand on the callback type, match mode and number of matches
   * together when an exact copy is asked for or hardware callback types are
   * wanted, and the scan mode as it is; Android 8 adds `legacy` and the PHY.
   */
  function NativeSettingsFor(tier: Tier, offloadedBatchingSupported: bool, s: ScanSettings, exactCopy: bool)
    : (n: NativeSettings)
    reads s
    ensures n.reportDelayMillis.Some?
      <==> exactCopy || (offloadedBatchingSupported && s.useHardwareBatchingIfSupported)
    ensures n.reportDelayMillis.Some? ==> n.reportDelayMillis.value == s.reportDelayMillis
    ensures tier == Lollipop ==>
      n.scanMode == (if s.scanMode == SCAN_MODE_OPPORTUNISTIC then SCAN_MODE_LOW_POWER else s.scanMode)
    ensures tier != Lollipop ==> n.scanMode == s.scanMode
    ensures n.callbackType.Some? == n.matchMode.Some? == n.numOfMatches.Some?
    ensures n.callbackType.Some? <==> tier != Lollipop && (exactCopy || s.useHardwareCallbackTypesIfSupported)
    ensures n.callbackType.Some? ==> (n.callbackType.value == s.callbackType
      && n.matchMode.value == s.matchMode && n.numOfMatches.value == s.numOfMatchesPerFilter)
    ensures n.legacy.Some? == n.phy.Some? == (tier == Oreo)
    ensures n.legacy.Some? ==> n.legacy.value == s.legacy && n.phy.value == s.phy
  {
    var delay := if exactCopy || (offloadedBatchingSupported && s.useHardwareBatchingIfSupported)
      then Some(s.reportDelayMillis) else None;
    match tier
    case Lollipop =>
      var mode := if s.scanMode != SCAN_MODE_OPPORTUNISTIC then s.scanMode else SCAN_MODE_LOW_POWER;
      NativeSettings(delay, mode, None, None, None, None, None)
    case _ =>
      var group := exactCopy || s.useHardwareCallbackTypesIfSupported;
      NativeSettings(delay, s.scanMode,
                     if group then Some(s.callbackType) else None,
                     if group then Some(s.matchMode) else None,
                     if group then Some(s.numOfMatchesPerFilter) else None,
                     if tier == Oreo then Some(s.legacy) else None,
                     if tier == Oreo then Some(s.phy) else None)
  }

  /** Android 5 never asks the platform for an OPPORTUNISTIC scan; the later tiers pass every mode through. */
  lemma LollipopNeverOpportunistic(offloadedBatchingSupported: bool, s: ScanSettings, exactCopy: bool)
    requires IsValidScanMode(s.scanMode)
    ensures NativeSettingsFor(Lollipop, offloadedBatchingSupported, s, exactCopy).scanMode != SCAN_MODE_OPPORTUNISTIC
    ensures IsValidScanMode(NativeSettingsFor(Lollipop, offloadedBatchingSupported, s, exactCopy).scanMode)
  {
  }

  /**
   * Settings made by the settings builder are never legacy, so Android 8
   * always asks the platform for a scan that is not limited to legacy
   * advertisements.
   */
  lemma OreoNeverAsksForLegacy(offloadedBatchingSupported: bool, s: ScanSettings, p: Params, exactCopy: bool)
    requires Constructed(s, p)
    ensures NativeSettingsFor(Oreo, offloadedBatchingSupported, s, exactCopy).legacy == Some(false)
  {
  }

  /** What a platform `ScanSettings` reports back. */
  datatype NativeValues = NativeValues(
    reportDelayMillis: Long,
    scanMode: int,
    callbackType: Int32,
    matchMode: int,
    numOfMatches: int,
    legacy: bool,
    phy: int)

  /** The platform builder's `build`: the values that were set, the platform's defaults for the rest. */
  function NativeBuild(n: NativeSettings, defaults: NativeValues): (v: NativeValues)
    ensures v.scanMode == n.scanMode
    ensures n.reportDelayMillis.Some? ==> v.reportDelayMillis == n.reportDelayMillis.value
    ensures n.reportDelayMillis.None? ==> v.reportDelayMillis == defaults.reportDelayMillis
    ensures n.callbackType.Some? ==> v.callbackType == n.callbackType.value
    ensures n.callbackType.None? ==> v.callbackType == defaults.callbackType
    ensures n.legacy.Some? ==> v.legacy == n.legacy.value
    ensures n.phy.Some? ==> v.phy == n.phy.value
  {
    NativeValues(n.reportDelayMillis.GetOr(defaults.reportDelayMillis), n.scanMode,
                 n.callbackType.GetOr(defaults.callbackType), n.matchMode.GetOr(defaults.matchMode),
                 n.numOfMatches.GetOr(defaults.numOfMatches), n.legacy.GetOr(defaults.legacy),
                 n.phy.GetOr(defaults.phy))
  }

  /**
   * An exact copy made on Android 8 carries every field the platform
   * reports, whatever the platform's defaults are.
   */
  lemma OreoExactCopyCarriesEverything(offloadedBatchingSupported: bool, s: ScanSettings, defaults: NativeValues)
    ensures NativeBuild(NativeSettingsFor(Oreo, offloadedBatchingSupported, s, true), defaults)
      == NativeValues(s.reportDelayMillis, s.scanMode, s.callbackType, s.matchMode,
                      s.numOfMatchesPerFilter, s.legacy, s.phy)
  {
  }

  /**
   * `fromNativeScanSettings` through the settings builder, in the order the
   * source calls its setters: the first rejected value throws
   * IllegalArgumentException. Match mode and number of matches do not come
   * from the platform object and are passed separately.
   */
  method FromNativeScanSettings(v: NativeValues, useHardwareBatchingIfSupported: bool,
                                useHardwareFilteringIfSupported: bool, useHardwareCallbackTypesIfSupported: bool,
                                matchLostDeviceTimeout: Long, matchLostTaskInterval: Long,
                                matchMode: int, numOfMatches: int)
    returns (r: Result<ScanSettings>)
    ensures r.Ok? <==> (IsValidCallbackType(v.callbackType) && IsValidScanMode(v.scanMode)
      && IsValidReportDelay(v.reportDelayMillis)
      && ArePositiveIntervals(matchLostDeviceTimeout, matchLostTaskInterval)
      && IsValidMatchMode(matchMode) && IsValidNumOfMatches(numOfMatches))
    ensures r.Err? ==> r.error == IllegalArgumentException
    ensures r.Ok? ==> fresh(r.value) && Constructed(r.value, BuildParams(
      Params(v.scanMode, v.callbackType, v.reportDelayMillis, matchMode, numOfMatches, v.legacy, v.phy,
             useHardwareFilteringIfSupported, useHardwareBatchingIfSupported, useHardwareCallbackTypesIfSupported,
             matchLostDeviceTimeout, matchLostTaskInterval, 0, 0)))
  {
    var b := new SettingsBuilder();
    var ok := ConfigureScan(b, v);
    if ok {
      ok := ConfigureMatching(b, useHardwareBatchingIfSupported, useHardwareFilteringIfSupported,
                              useHardwareCallbackTypesIfSupported, matchLostDeviceTimeout, matchLostTaskInterval,
                              matchMode, numOfMatches);
    }
    if !ok {
      return Err(IllegalArgumentException);
    }
    var s := b.Build();
    return Ok(s);
  }

  /** The first links of the chain: legacy, PHY, callback type, scan mode and report delay. */
  method ConfigureScan(b: SettingsBuilder, v: NativeValues) returns (ok: bool)
    requires b.Valid()
    modifies b
    ensures b.Valid()
    ensures ok <==> IsValidCallbackType(v.callbackType) && IsValidScanMode(v.scanMode)
                    && IsValidReportDelay(v.reportDelayMillis)
    ensures ok ==> b.Current() == old(b.Current()).(legacy := v.legacy, phy := v.phy,
      callbackType := v.callbackType, scanMode := v.scanMode, reportDelayMillis := v.reportDelayMillis)
  {
    b.SetLegacy(v.legacy);
    b.SetPhy(v.phy);
    ok := b.SetCallbackType(v.callbackType);
    if ok {
      ok := b.SetScanMode(v.scanMode);
    }
    if ok {
      ok := b.SetReportDelay(v.reportDelayMillis);
    }
  }

  /** The rest of the chain: the hardware flags, the match-lost intervals, the match mode and count. */
  method ConfigureMatching(b: SettingsBuilder, useHardwareBatchingIfSupported: bool,
                           useHardwareFilteringIfSupported: bool, useHardwareCallbackTypesIfSupported: bool,
                           matchLostDeviceTimeout: Long, matchLostTaskInterval: Long,
                           matchMode: int, numOfMatches: int)
    returns (ok: bool)
    requires b.Valid()
    modifies b
    ensures b.Valid()
    ensures ok <==> ArePositiveIntervals(matchLostDeviceTimeout, matchLostTaskInterval)
                    && IsValidMatchMode(matchMode) && IsValidNumOfMatches(numOfMatches)
    ensures ok ==> b.Current() == old(b.Current()).(
      useHardwareBatchingIfSupported := useHardwareBatchingIfSupported,
      useHardwareFilteringIfSupported := useHardwareFilteringIfSupported,
      useHardwareCallbackTypesIfSupported := useHardwareCallbackTypesIfSupported,
      matchLostDeviceTimeout := matchLostDeviceTimeout, matchLostTaskInterval := matchLostTaskInterval,
      matchMode := matchMode, numOfMatchesPerFilter := numOfMatches)
  {
    b.SetUseHardwareBatchingIfSupported(useHardwareBatchingIfSupported);
    b.SetUseHardwareFilteringIfSupported(useHardwareFilteringIfSupported);
    b.SetUseHardwareCallbackTypesIfSupported(useHardwareCallbackTypesIfSupported);
    ok := b.SetMatchOptions(matchLostDeviceTimeout, matchLostTaskInterval);
    if ok {
      ok := b.SetMatchMode(matchMode);
    }
    if ok {
      ok := b.SetNumOfMatches(numOfMatches);
    }
  }

  /**
   * Settings copied to the platform exactly (Android 8) and back again keep
   * their scan mode, callback type, delay, match mode, number of matches,
   * PHY and hardware flags; the copy is accepted whenever the original was
   * valid. Power-save intervals are not part of the platform object: the
   * copy gets the scan mode's defaults. The timeout comes back in
   * nanoseconds from the milliseconds passed alongside.
   */
  lemma OreoSettingsRoundTrip(s: ScanSettings, offloadedBatchingSupported: bool, defaults: NativeValues,
                              timeoutMillis: Long, copy: ScanSettings)
    requires IsValidScanMode(s.scanMode) && IsValidCallbackType(s.callbackType)
    requires IsValidReportDelay(s.reportDelayMillis)
    requires IsValidMatchMode(s.matchMode) && IsValidNumOfMatches(s.numOfMatchesPerFilter)
    requires ArePositiveIntervals(timeoutMillis, s.matchLostTaskInterval)
    requires var v := NativeBuild(NativeSettingsFor(Oreo, offloadedBatchingSupported, s, true), defaults);
      Constructed(copy, BuildParams(
        Params(v.scanMode, v.callbackType, v.reportDelayMillis, s.matchMode, s.numOfMatchesPerFilter, v.legacy, v.phy,
               s.useHardwareFilteringIfSupported, s.useHardwareBatchingIfSupported,
               s.useHardwareCallbackTypesIfSupported, timeoutMillis, s.matchLostTaskInterval, 0, 0)))
    ensures var v := NativeBuild(NativeSettingsFor(Oreo, offloadedBatchingSupported, s, true), defaults);
      IsValidCallbackType(v.callbackType) && IsValidScanMode(v.scanMode) && IsValidReportDelay(v.reportDelayMillis)
    ensures copy.scanMode == s.scanMode && copy.callbackType == s.callbackType
    ensures copy.reportDelayMillis == s.reportDelayMillis && copy.phy == s.phy
    ensures copy.matchMode == s.matchMode && copy.numOfMatchesPerFilter == s.numOfMatchesPerFilter
    ensures copy.useHardwareFilteringIfSupported == s.useHardwareFilteringIfSupported
    ensures copy.useHardwareBatchingIfSupported == s.useHardwareBatchingIfSupported
    ensures copy.useHardwareCallbackTypesIfSupported == s.useHardwareCallbackTypesIfSupported
    ensures copy.matchLostTaskInterval == s.matchLostTaskInterval
    ensures copy.matchLostDeviceTimeout == WrapLong(timeoutMillis * NANOS_PER_MILLI)
    ensures (copy.powerSaveScanInterval, copy.powerSaveRestInterval) == PowerSaveDefaults(s.scanMode)
  {
    OreoExactCopyCarriesEverything(offloadedBatchingSupported, s, defaults);
  }

  // ---------------------------------------------------------------------
  // Filters.

  /** The values set on the platform's `ScanFilter.Builder`; unset fields are `None`, the id -1. */
  datatype NativeFilter = NativeFilter(
    deviceAddress: Option<Address>,
    deviceName: Option<string>,
    serviceUuid: Option<Uuid>,
    serviceUuidMask: Option<Uuid>,
    manufacturerId: int,
    manufacturerData: Option<seq<Byte>>,
    manufacturerDataMask: Option<seq<Byte>>,
    serviceDataUuid: Option<Uuid>,
    serviceData: Option<seq<Byte>>,
    serviceDataMask: Option<seq<Byte>>)

  /**
   * `toNativeScanFilter`: address, name, service UUID with its mask and
   * manufacturer data with id and mask are always set; service data only
   * when the filter has a service-data UUID.
   */
  function ToNativeScanFilter(f: ScanFilter): (n: NativeFilter)
    ensures n.deviceAddress == f.deviceAddress && n.deviceName == f.deviceName
    ensures n.serviceUuid == f.serviceUuid && n.serviceUuidMask == f.serviceUuidMask
    ensures n.manufacturerId == f.manufacturerId
    ensures n.manufacturerData == f.manufacturerData && n.manufacturerDataMask == f.manufacturerDataMask
    ensures n.serviceDataUuid == f.serviceDataUuid
    ensures f.serviceDataUuid.Some? ==> n.serviceData == f.serviceData && n.serviceDataMask == f.serviceDataMask
    ensures f.serviceDataUuid.None? ==> n.serviceData.None? && n.serviceDataMask.None?
  {
    var n := NativeFilter(f.deviceAddress, f.deviceName, f.serviceUuid, f.serviceUuidMask, f.manufacturerId,
                          f.manufacturerData, f.manufacturerDataMask, None, None, None);
    if f.serviceDataUuid.Some? then
      n.(serviceDataUuid := f.serviceDataUuid, serviceData := f.serviceData, serviceDataMask := f.serviceDataMask)
    else n
  }

  /** Whether the library's filter builder accepts every value `fromNativeScanFilter` hands it. */
  predicate NativeFilterAccepted(n: NativeFilter, checkAddress: Address -> bool)
  {
    (n.deviceAddress.None? || checkAddress(n.deviceAddress.value))
    && ServiceUuidAccepted(n.serviceUuid, n.serviceUuidMask)
    && ManufacturerIdAccepted(n.manufacturerId, n.manufacturerData)
    && MaskedDataAccepted(n.manufacturerData, n.manufacturerDataMask)
    && (n.serviceDataUuid.Some? ==> MaskedDataAccepted(n.serviceData, n.serviceDataMask))
  }

  /** The filter the builder holds after `fromNativeScanFilter`'s calls. */
  function FilterOf(n: NativeFilter): ScanFilter
  {
    var f := ScanFilter(n.deviceName, n.deviceAddress, n.serviceUuid, n.serviceUuidMask, None, None, None,
                        n.manufacturerId, n.manufacturerData, n.manufacturerDataMask);
    if n.serviceDataUuid.Some? then
      f.(serviceDataUuid := n.serviceDataUuid, serviceData := n.serviceData, serviceDataMask := n.serviceDataMask)
    else f
  }

  /**
   * `fromNativeScanFilter` through the filter builder: the first value the
   * builder rejects throws IllegalArgumentException; otherwise the filter
   * holds the platform filter's values (service data only with its UUID).
   */
  method FromNativeScanFilter(n: NativeFilter, checkAddress: Address -> bool) returns (r: Result<ScanFilter>)
    ensures r.Ok? <==> NativeFilterAccepted(n, checkAddress)
    ensures r.Err? ==> r.error == IllegalArgumentException
    ensures r.Ok? ==> r.value == FilterOf(n) && WellFormed(r.value)
  {
    var b := new FilterBuilder();
    var ok := b.SetDeviceAddress(n.deviceAddress, checkAddress);
    if ok {
      b.SetDeviceName(n.deviceName);
      ok := b.SetServiceUuidMasked(n.serviceUuid, n.serviceUuidMask);
    }
    if ok {
      ok := b.SetManufacturerDataMasked(n.manufacturerId, n.manufacturerData, n.manufacturerDataMask);
    }
    if ok && n.serviceDataUuid.Some? {
      ok := b.SetServiceDataMasked(n.serviceDataUuid.value, n.serviceData, n.serviceDataMask);
    }
    if !ok {
      return Err(IllegalArgumentException);
    }
    var f := b.Build();
    return Ok(f);
  }

  /** `fromNativeScanFilters`: the filters converted in order; the first rejected one throws. */
  method FromNativeScanFilters(ns: seq<NativeFilter>, checkAddress: Address -> bool)
    returns (r: Result<seq<ScanFilter>>)
    ensures r.Ok? <==> forall i :: 0 <= i < |ns| ==> NativeFilterAccepted(ns[i], checkAddress)
    ensures r.Err? ==> r.error == IllegalArgumentException
    ensures r.Ok? ==> |r.value| == |ns| && forall i :: 0 <= i < |ns| ==> r.value[i] == FilterOf(ns[i])
  {
    var filters: seq<ScanFilter> := [];
    var i := 0;
    while i < |ns|
      invariant 0 <= i <= |ns| && |filters| == i
      invariant forall k :: 0 <= k < i ==> NativeFilterAccepted(ns[k], checkAddress) && filters[k] == FilterOf(ns[k])
    {
      var f := FromNativeScanFilter(ns[i], checkAddress);
      if f.Err? {
        return Err(IllegalArgumentException);
      }
      filters := filters + [f.value];
      i := i + 1;
    }
    return Ok(filters);
  }

  /**
   * A filter built by the library, copied to the platform and back, comes
   * back as it was, provided the platform accepts its address.
   */
  lemma FilterRoundTrip(f: ScanFilter, checkAddress: Address -> bool)
    requires WellFormed(f)
    requires f.deviceAddress.Some? ==> checkAddress(f.deviceAddress.value)
    ensures NativeFilterAccepted(ToNativeScanFilter(f), checkAddress)
    ensures FilterOf(ToNativeScanFilter(f)) == f
  {
  }

  /**
   * And the other way: a platform filter the library accepts, whose service
   * data comes with a UUID, is copied back to the platform as it was.
   */
  lemma NativeFilterRoundTrip(n: NativeFilter, checkAddress: Address -> bool)
    requires NativeFilterAccepted(n, checkAddress)
    requires n.serviceDataUuid.None? ==> n.serviceData.None? && n.serviceDataMask.None?
    ensures WellFormed(FilterOf(n))
    ensures ToNativeScanFilter(FilterOf(n)) == n
  {
  }

  // ---------------------------------------------------------------------
  // Results.

  /** A platform `ScanResult`: the record as raw bytes (or null) and the Bluetooth 5 fields. */
  datatype NativeScanResult = NativeScanResult(
    device: Address,
    scanRecord: Option<seq<Byte>>,
    rssi: int,
    timestampNanos: int,
    dataStatus: Int32,
    isLegacy: bool,
    isConnectable: bool,
    primaryPhy: int,
    secondaryPhy: int,
    advertisingSid: int,
    txPower: int,
    periodicAdvertisingInterval: int)

  /**
   * `fromNativeScanResult` of each tier: the record parsed from the native
   * bytes, then the four-argument result below Android 8 and, from Android 8,
   * the ten-argument result with the event type packed from the data
   * status and the two flags. `None` when parsing never ends.
   */
  function FromNativeScanResult(tier: Tier, n: NativeScanResult, dec: ScanRecords.Decoders): (r: Option<ScanResult>)
    ensures r.None? <==> ScanRecords.Parse(n.scanRecord, dec).Hangs?
    ensures r.Some? ==> (r.value.device == n.device && r.value.rssi == n.rssi
      && r.value.timestampNanos == n.timestampNanos)
    ensures r.Some? ==> (r.value.scanRecord.None? <==> n.scanRecord.None?)
    ensures r.Some? && n.scanRecord.Some? ==>
      r.value.scanRecord == Some(ScanRecords.Parse(n.scanRecord, dec).record)
      && r.value.scanRecord.value.bytes == n.scanRecord.value
    ensures r.Some? && tier != Oreo ==>
      r.value == LegacyScanResult(n.device, r.value.scanRecord, n.rssi, n.timestampNanos)
    ensures r.Some? && tier == Oreo ==>
      r.value.eventType == EventType(n.dataStatus, n.isLegacy, n.isConnectable)
      && IsLegacy(r.value) == n.isLegacy && IsConnectable(r.value) == n.isConnectable
      && DataStatus(r.value) == n.dataStatus & 0x03
      && r.value.primaryPhy == n.primaryPhy && r.value.secondaryPhy == n.secondaryPhy
      && r.value.advertisingSid == n.advertisingSid && r.value.txPower == n.txPower
      && r.value.periodicAdvertisingInterval == n.periodicAdvertisingInterval
  {
    var p := ScanRecords.Parse(n.scanRecord, dec);
    if p.Hangs? then None
    else
      var record := if p.Parsed? then Some(p.record) else None;
      if tier == Oreo then
        var eventType := EventType(n.dataStatus, n.isLegacy, n.isConnectable);
        var r := ExtendedScanResult(n.device, eventType, n.primaryPhy, n.secondaryPhy, n.advertisingSid,
                                    n.txPower, n.rssi, n.periodicAdvertisingInterval, record, n.timestampNanos);
        EventTypeRoundTrip(r, n.dataStatus, n.isLegacy, n.isConnectable);
        Some(r)
      else Some(LegacyScanResult(n.device, record, n.rssi, n.timestampNanos))
  }

  /**
   * `fromNativeScanResults`: every result converted, in order; `None` when
   * the conversion of one of them never ends.
   */
  function FromNativeScanResults(tier: Tier, ns: seq<NativeScanResult>, dec: ScanRecords.Decoders)
    : (r: Option<seq<ScanResult>>)
    ensures r.Some? <==> forall i :: 0 <= i < |ns| ==> FromNativeScanResult(tier, ns[i], dec).Some?
    ensures r.Some? ==> (|r.value| == |ns|
      && forall i :: 0 <= i < |ns| ==> r.value[i] == FromNativeScanResult(tier, ns[i], dec).value)
  {
    if ns == [] then Some([])
    else
      var first := FromNativeScanResult(tier, ns[0], dec);
      var rest := FromNativeScanResults(tier, ns[1..], dec);
      if first.None? || rest.None? then None
      else Some([first.value] + rest.value)
  }
}
