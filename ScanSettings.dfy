/**
 * Scan settings: the immutable settings value (with its one flag that the
 * Lollipop scanner clears in place) and the builder that validates them and
 * fills in power-save intervals from the scan mode.
 */
module Settings {
  import opened Common

  const MATCH_LOST_DEVICE_TIMEOUT_DEFAULT: int := 10000
  const MATCH_LOST_TASK_INTERVAL_DEFAULT: int := 10000

  const SCAN_MODE_OPPORTUNISTIC: int := -1
  const SCAN_MODE_LOW_POWER: int := 0
  const SCAN_MODE_BALANCED: int := 1
  const SCAN_MODE_LOW_LATENCY: int := 2

  const CALLBACK_TYPE_ALL_MATCHES: Int32 := 1
  const CALLBACK_TYPE_FIRST_MATCH: Int32 := 2
  const CALLBACK_TYPE_MATCH_LOST: Int32 := 4

  const MATCH_NUM_ONE_ADVERTISEMENT: int := 1
  const MATCH_NUM_FEW_ADVERTISEMENT: int := 2
  const MATCH_NUM_MAX_ADVERTISEMENT: int := 3

  const MATCH_MODE_AGGRESSIVE: int := 1
  const MATCH_MODE_STICKY: int := 2

  const PHY_LE_ALL_SUPPORTED: int := 255

  /** Nanoseconds per millisecond, the factor of the match-lost timeout. */
  const NANOS_PER_MILLI: int := 1000000

  /** `ScanSettings`. Every field is fixed at construction except the hardware-callback-types flag. */
  class ScanSettings {
    const scanMode: int
    const callbackType: Int32
    const reportDelayMillis: Long
    const matchMode: int
    const numOfMatchesPerFilter: int
    const legacy: bool
    const phy: int
    const useHardwareFilteringIfSupported: bool
    const useHardwareBatchingIfSupported: bool
    var useHardwareCallbackTypesIfSupported: bool
    /** In nanoseconds. */
    const matchLostDeviceTimeout: Long
    /** In milliseconds. */
    const matchLostTaskInterval: Long
    const powerSaveScanInterval: Long
    const powerSaveRestInterval: Long

    /**
     * The fourteen-argument constructor. It converts the match-lost timeout
     * from milliseconds to nanoseconds in `Long` arithmetic, and it ignores
     * `flegacy`: it assigns the `legacy` field to itself, so `legacy` keeps
     * its initial `false`.
     */
    constructor (scanMode: int, callbackType: Int32, reportDelayMillis: Long, matchMode: int,
                 numOfMatchesPerFilter: int, flegacy: bool, phy: int,
                 hardwareFiltering: bool, hardwareBatching: bool, hardwareCallbackTypes: bool,
                 matchTimeout: Long, taskInterval: Long, powerSaveScanInterval: Long, powerSaveRestInterval: Long)
      ensures this.scanMode == scanMode && this.callbackType == callbackType
      ensures this.reportDelayMillis == reportDelayMillis
      ensures this.matchMode == matchMode && this.numOfMatchesPerFilter == numOfMatchesPerFilter
      ensures !this.legacy
      ensures this.phy == phy
      ensures this.useHardwareFilteringIfSupported == hardwareFiltering
      ensures this.useHardwareBatchingIfSupported == hardwareBatching
      ensures this.useHardwareCallbackTypesIfSupported == hardwareCallbackTypes
      ensures this.matchLostDeviceTimeout == WrapLong(matchTimeout * NANOS_PER_MILLI)
      ensures this.matchLostTaskInterval == taskInterval
      ensures this.powerSaveScanInterval == powerSaveScanInterval
      ensures this.powerSaveRestInterval == powerSaveRestInterval
    {
      this.scanMode := scanMode;
      this.callbackType := callbackType;
      this.reportDelayMillis := reportDelayMillis;
      this.numOfMatchesPerFilter := numOfMatchesPerFilter;
      this.matchMode := matchMode;
      this.legacy := false;
      this.phy := phy;
      this.useHardwareFilteringIfSupported := hardwareFiltering;
      this.useHardwareBatchingIfSupported := hardwareBatching;
      this.useHardwareCallbackTypesIfSupported := hardwareCallbackTypes;
      this.matchLostDeviceTimeout := WrapLong(matchTimeout * NANOS_PER_MILLI);
      this.matchLostTaskInterval := taskInterval;
      this.powerSaveScanInterval := powerSaveScanInterval;
      this.powerSaveRestInterval := powerSaveRestInterval;
    }

    /** `hasPowerSaveMode`. */
    predicate HasPowerSaveMode()
    {
      powerSaveRestInterval > 0 && powerSaveScanInterval > 0
    }

    /** `disableUseHardwareCallbackTypes`: clears that flag and nothing else. */
    method DisableUseHardwareCallbackTypes()
      modifies this
      ensures !useHardwareCallbackTypesIfSupported
    {
      useHardwareCallbackTypesIfSupported := false;
    }
  }

  /** The match-lost timeout converts exactly while the product fits in a `Long`. */
  lemma MatchTimeoutInNanos(matchTimeout: Long)
    requires 0 <= matchTimeout <= MAX_LONG / NANOS_PER_MILLI
    ensures WrapLong(matchTimeout * NANOS_PER_MILLI) == matchTimeout * NANOS_PER_MILLI
    ensures WrapLong(matchTimeout * NANOS_PER_MILLI) >= 0
  {
  }

  // ---------------------------------------------------------------------
  // The builder's checks.

  /** `setScanMode` accepts OPPORTUNISTIC through LOW_LATENCY. */
  predicate IsValidScanMode(scanMode: int)
  {
    SCAN_MODE_OPPORTUNISTIC <= scanMode <= SCAN_MODE_LOW_LATENCY
  }

  /**
   * `isValidCallbackType`: one of the three types, or FIRST_MATCH and
   * MATCH_LOST together. Kotlin's `or` is the bitwise or, computed before
   * the comparison.
   */
  function IsValidCallbackType(callbackType: Int32): (r: bool)
    ensures r <==> callbackType == 1 || callbackType == 2 || callbackType == 4 || callbackType == 6
  {
    if callbackType == CALLBACK_TYPE_ALL_MATCHES || callbackType == CALLBACK_TYPE_FIRST_MATCH
       || callbackType == CALLBACK_TYPE_MATCH_LOST
    then true
    else callbackType == CALLBACK_TYPE_FIRST_MATCH | CALLBACK_TYPE_MATCH_LOST
  }

  /**
   * The valid callback types are ALL_MATCHES on its own and every non-empty
   * combination of FIRST_MATCH and MATCH_LOST.
   */
  lemma ValidCallbackTypesAreCombinations(callbackType: Int32)
    ensures IsValidCallbackType(callbackType) <==>
      (callbackType == CALLBACK_TYPE_ALL_MATCHES
       || (callbackType != 0 && callbackType & !(CALLBACK_TYPE_FIRST_MATCH | CALLBACK_TYPE_MATCH_LOST) == 0))
  {
    var others := !(CALLBACK_TYPE_FIRST_MATCH | CALLBACK_TYPE_MATCH_LOST);
    if callbackType != 0 && callbackType & others == 0 {
      assert callbackType == callbackType & 6;
    }
  }

  /** `setReportDelay` refuses a negative delay. */
  predicate IsValidReportDelay(reportDelayMillis: int)
  {
    reportDelayMillis >= 0
  }

  /** `setNumOfMatches` accepts ONE through MAX advertisements. */
  predicate IsValidNumOfMatches(numOfMatches: int)
  {
    MATCH_NUM_ONE_ADVERTISEMENT <= numOfMatches <= MATCH_NUM_MAX_ADVERTISEMENT
  }

  /** `setMatchMode` accepts AGGRESSIVE and STICKY. */
  predicate IsValidMatchMode(matchMode: int)
  {
    MATCH_MODE_AGGRESSIVE <= matchMode <= MATCH_MODE_STICKY
  }

  /** `setMatchOptions` and `setPowerSave` both want two positive intervals. */
  predicate ArePositiveIntervals(first: int, second: int)
  {
    first > 0 && second > 0
  }

  /**
   * `updatePowerSaveSettings`: the (scan, rest) intervals for a scan mode.
   * LOW_LATENCY disables power save; BALANCED scans 2 s in every 5 s; every
   * other mode scans 0.5 s in every 5 s.
   */
  function PowerSaveDefaults(scanMode: int): (r: (Long, Long))
    ensures scanMode == SCAN_MODE_LOW_LATENCY ==> r == (0, 0)
    ensures scanMode != SCAN_MODE_LOW_LATENCY ==> r.0 > 0 && r.1 > 0 && r.0 + r.1 == 5000
    ensures scanMode == SCAN_MODE_BALANCED ==> r.0 == 2000
    ensures scanMode != SCAN_MODE_LOW_LATENCY && scanMode != SCAN_MODE_BALANCED ==> r.0 == 500
  {
    if scanMode == SCAN_MODE_LOW_LATENCY then (0, 0)
    else if scanMode == SCAN_MODE_BALANCED then (2000, 3000)
    else if scanMode == SCAN_MODE_OPPORTUNISTIC || scanMode == SCAN_MODE_LOW_POWER then (500, 4500)
    else (500, 4500)
  }

  /** The builder's values, in the order the constructor takes them. */
  datatype Params = Params(
    scanMode: int,
    callbackType: Int32,
    reportDelayMillis: Long,
    matchMode: int,
    numOfMatchesPerFilter: int,
    legacy: bool,
    phy: int,
    useHardwareFilteringIfSupported: bool,
    useHardwareBatchingIfSupported: bool,
    useHardwareCallbackTypesIfSupported: bool,
    matchLostDeviceTimeout: Long,
    matchLostTaskInterval: Long,
    powerSaveScanInterval: Long,
    powerSaveRestInterval: Long)

  /** A fresh builder's values. */
  const DefaultParams: Params := Params(
    SCAN_MODE_LOW_POWER, CALLBACK_TYPE_ALL_MATCHES, 0, MATCH_MODE_AGGRESSIVE,
    MATCH_NUM_MAX_ADVERTISEMENT, true, PHY_LE_ALL_SUPPORTED, true, true, true,
    MATCH_LOST_DEVICE_TIMEOUT_DEFAULT, MATCH_LOST_TASK_INTERVAL_DEFAULT, 0, 0)

  /** What the setters' checks keep true of the builder's values. */
  predicate ValidParams(p: Params)
  {
    IsValidScanMode(p.scanMode) && IsValidCallbackType(p.callbackType)
    && IsValidReportDelay(p.reportDelayMillis)
    && IsValidMatchMode(p.matchMode) && IsValidNumOfMatches(p.numOfMatchesPerFilter)
    && ArePositiveIntervals(p.matchLostDeviceTimeout, p.matchLostTaskInterval)
    && (ArePositiveIntervals(p.powerSaveScanInterval, p.powerSaveRestInterval)
        || (p.powerSaveScanInterval == 0 && p.powerSaveRestInterval == 0))
  }

  /** The values `build` passes on: power-save defaults when neither interval was set. */
  function BuildParams(p: Params): (q: Params)
    ensures p.powerSaveScanInterval != 0 || p.powerSaveRestInterval != 0 ==> q == p
    ensures q == p.(powerSaveScanInterval := q.powerSaveScanInterval, powerSaveRestInterval := q.powerSaveRestInterval)
  {
    if p.powerSaveRestInterval == 0 && p.powerSaveScanInterval == 0 then
      var (scan, rest) := PowerSaveDefaults(p.scanMode);
      p.(powerSaveScanInterval := scan, powerSaveRestInterval := rest)
    else p
  }

  /**
   * Built settings are in power-save mode unless the builder was left
   * without intervals and the scan mode is LOW_LATENCY; intervals that were
   * set are kept.
   */
  lemma BuiltPowerSaveMode(p: Params)
    requires ValidParams(p)
    ensures var q := BuildParams(p);
      (q.powerSaveScanInterval > 0 && q.powerSaveRestInterval > 0)
      <==> !(p.powerSaveScanInterval == 0 && p.powerSaveRestInterval == 0 && p.scanMode == SCAN_MODE_LOW_LATENCY)
    ensures ValidParams(BuildParams(p))
  {
  }

  /** `ScanSettings.Builder`. A rejected setter call changes nothing. */
  class SettingsBuilder {
    var scanMode: int
    var callbackType: Int32
    var reportDelayMillis: Long
    var matchMode: int
    var numOfMatchesPerFilter: int
    var legacy: bool
    var phy: int
    var useHardwareFilteringIfSupported: bool
    var useHardwareBatchingIfSupported: bool
    var useHardwareCallbackTypesIfSupported: bool
    var matchLostDeviceTimeout: Long
    var matchLostTaskInterval: Long
    var powerSaveRestInterval: Long
    var powerSaveScanInterval: Long

    function Current(): Params
      reads this
    {
      Params(scanMode, callbackType, reportDelayMillis, matchMode, numOfMatchesPerFilter, legacy, phy,
             useHardwareFilteringIfSupported, useHardwareBatchingIfSupported, useHardwareCallbackTypesIfSupported,
             matchLostDeviceTimeout, matchLostTaskInterval, powerSaveScanInterval, powerSaveRestInterval)
    }

    ghost predicate Valid()
      reads this
    {
      ValidParams(Current())
    }

    constructor ()
      ensures Valid() && Current() == DefaultParams
    {
      scanMode := SCAN_MODE_LOW_POWER;
      callbackType := CALLBACK_TYPE_ALL_MATCHES;
      reportDelayMillis := 0;
      matchMode := MATCH_MODE_AGGRESSIVE;
      numOfMatchesPerFilter := MATCH_NUM_MAX_ADVERTISEMENT;
      legacy := true;
      phy := PHY_LE_ALL_SUPPORTED;
      useHardwareFilteringIfSupported := true;
      useHardwareBatchingIfSupported := true;
      useHardwareCallbackTypesIfSupported := true;
      matchLostDeviceTimeout := MATCH_LOST_DEVICE_TIMEOUT_DEFAULT;
      matchLostTaskInterval := MATCH_LOST_TASK_INTERVAL_DEFAULT;
      powerSaveRestInterval := 0;
      powerSaveScanInterval := 0;
    }

    method SetScanMode(mode: int) returns (ok: bool)
      requires Valid()
      modifies this
      ensures ok == IsValidScanMode(mode)
      ensures Valid() && Current() == if ok then old(Current()).(scanMode := mode) else old(Current())
    {
      if mode < SCAN_MODE_OPPORTUNISTIC || mode > SCAN_MODE_LOW_LATENCY {
        return false;
      }
      scanMode := mode;
      return true;
    }

    method SetCallbackType(cbType: Int32) returns (ok: bool)
      requires Valid()
      modifies this
      ensures ok == IsValidCallbackType(cbType)
      ensures Valid() && Current() == if ok then old(Current()).(callbackType := cbType) else old(Current())
    {
      if !IsValidCallbackType(cbType) {
        return false;
      }
      callbackType := cbType;
      return true;
    }

    method SetReportDelay(delay: Long) returns (ok: bool)
      requires Valid()
      modifies this
      ensures ok == IsValidReportDelay(delay)
      ensures Valid() && Current() == if ok then old(Current()).(reportDelayMillis := delay) else old(Current())
    {
      if delay < 0 {
        return false;
      }
      reportDelayMillis := delay;
      return true;
    }

    method SetNumOfMatches(numOfMatches: int) returns (ok: bool)
      requires Valid()
      modifies this
      ensures ok == IsValidNumOfMatches(numOfMatches)
      ensures Valid() && Current() == if ok then old(Current()).(numOfMatchesPerFilter := numOfMatches) else old(Current())
    {
      if numOfMatches < MATCH_NUM_ONE_ADVERTISEMENT || numOfMatches > MATCH_NUM_MAX_ADVERTISEMENT {
        return false;
      }
      numOfMatchesPerFilter := numOfMatches;
      return true;
    }

    method SetMatchMode(mode: int) returns (ok: bool)
      requires Valid()
      modifies this
      ensures ok == IsValidMatchMode(mode)
      ensures Valid() && Current() == if ok then old(Current()).(matchMode := mode) else old(Current())
    {
      if mode < MATCH_MODE_AGGRESSIVE || mode > MATCH_MODE_STICKY {
        return false;
      }
      matchMode := mode;
      return true;
    }

    method SetLegacy(value: bool)
      requires Valid()
      modifies this
      ensures Valid() && Current() == old(Current()).(legacy := value)
    {
      legacy := value;
    }

    method SetPhy(value: int)
      requires Valid()
      modifies this
      ensures Valid() && Current() == old(Current()).(phy := value)
    {
      phy := value;
    }

    method SetUseHardwareFilteringIfSupported(use: bool)
      requires Valid()
      modifies this
      ensures Valid() && Current() == old(Current()).(useHardwareFilteringIfSupported := use)
    {
      useHardwareFilteringIfSupported := use;
    }

    method SetUseHardwareBatchingIfSupported(use: bool)
      requires Valid()
      modifies this
      ensures Valid() && Current() == old(Current()).(useHardwareBatchingIfSupported := use)
    {
      useHardwareBatchingIfSupported := use;
    }

    method SetUseHardwareCallbackTypesIfSupported(use: bool)
      requires Valid()
      modifies this
      ensures Valid() && Current() == old(Current()).(useHardwareCallbackTypesIfSupported := use)
    {
      useHardwareCallbackTypesIfSupported := use;
    }

    method SetMatchOptions(deviceTimeoutMillis: Long, taskIntervalMillis: Long) returns (ok: bool)
      requires Valid()
      modifies this
      ensures ok == ArePositiveIntervals(deviceTimeoutMillis, taskIntervalMillis)
      ensures Valid()
      ensures Current() == if ok then old(Current()).(matchLostDeviceTimeout := deviceTimeoutMillis,
                                                       matchLostTaskInterval := taskIntervalMillis)
                           else old(Current())
    {
      if deviceTimeoutMillis <= 0 || taskIntervalMillis <= 0 {
        return false;
      }
      matchLostDeviceTimeout := deviceTimeoutMillis;
      matchLostTaskInterval := taskIntervalMillis;
      return true;
    }

    method SetPowerSave(scanInterval: Long, restInterval: Long) returns (ok: bool)
      requires Valid()
      modifies this
      ensures ok == ArePositiveIntervals(scanInterval, restInterval)
      ensures Valid()
      ensures Current() == if ok then old(Current()).(powerSaveScanInterval := scanInterval,
                                                       powerSaveRestInterval := restInterval)
                           else old(Current())
    {
      if scanInterval <= 0 || restInterval <= 0 {
        return false;
      }
      powerSaveScanInterval := scanInterval;
      powerSaveRestInterval := restInterval;
      return true;
    }

    /** `updatePowerSaveSettings`: the intervals become the scan mode's defaults. */
    method UpdatePowerSaveSettings()
      requires Valid()
      modifies this
      ensures Valid()
      ensures Current() == old(Current()).(powerSaveScanInterval := PowerSaveDefaults(scanMode).0,
                                           powerSaveRestInterval := PowerSaveDefaults(scanMode).1)
    {
      ghost var defaults := PowerSaveDefaults(scanMode);
      if scanMode == SCAN_MODE_LOW_LATENCY {
        powerSaveScanInterval := 0;
        powerSaveRestInterval := 0;
      } else if scanMode == SCAN_MODE_BALANCED {
        powerSaveScanInterval := 2000;
        powerSaveRestInterval := 3000;
      } else {
        // OPPORTUNISTIC and LOW_POWER; the source's `else` arm, which a valid
        // builder never reaches, sets the same intervals
        powerSaveScanInterval := 500;
        powerSaveRestInterval := 4500;
      }
    }

    /**
     * `build`: fills in the power-save defaults when neither interval is
     * set, then passes the builder's values to the constructor.
     */
    method Build() returns (s: ScanSettings)
      requires Valid()
      modifies this
      ensures Valid() && Current() == BuildParams(old(Current()))
      ensures fresh(s)
      ensures Constructed(s, Current())
    {
      if powerSaveRestInterval == 0 && powerSaveScanInterval == 0 {
        UpdatePowerSaveSettings();
      }
      s := new ScanSettings(scanMode, callbackType, reportDelayMillis, matchMode,
                            numOfMatchesPerFilter, legacy, phy, useHardwareFilteringIfSupported,
                            useHardwareBatchingIfSupported, useHardwareCallbackTypesIfSupported,
                            matchLostDeviceTimeout, matchLostTaskInterval,
                            powerSaveScanInterval, powerSaveRestInterval);
    }
  }

  /** `s` is what the constructor makes of the builder values `p`. */
  predicate Constructed(s: ScanSettings, p: Params)
    reads s
  {
    s.scanMode == p.scanMode && s.callbackType == p.callbackType
    && s.reportDelayMillis == p.reportDelayMillis
    && s.matchMode == p.matchMode && s.numOfMatchesPerFilter == p.numOfMatchesPerFilter
    && !s.legacy && s.phy == p.phy
    && s.useHardwareFilteringIfSupported == p.useHardwareFilteringIfSupported
    && s.useHardwareBatchingIfSupported == p.useHardwareBatchingIfSupported
    && s.useHardwareCallbackTypesIfSupported == p.useHardwareCallbackTypesIfSupported
    && s.matchLostDeviceTimeout == WrapLong(p.matchLostDeviceTimeout * NANOS_PER_MILLI)
    && s.matchLostTaskInterval == p.matchLostTaskInterval
    && s.powerSaveScanInterval == p.powerSaveScanInterval
    && s.powerSaveRestInterval == p.powerSaveRestInterval
  }

  /**
   * Settings built from valid builder values: valid modes and types, a
   * non-negative delay, `legacy` false whatever `setLegacy` asked for, and
   * power-save mode unless the scan mode is LOW_LATENCY and no intervals
   * were set.
   */
  lemma BuiltSettingsProperties(s: ScanSettings, p: Params)
    requires ValidParams(p) && Constructed(s, BuildParams(p))
    ensures IsValidScanMode(s.scanMode) && IsValidCallbackType(s.callbackType)
    ensures s.reportDelayMillis >= 0
    ensures IsValidMatchMode(s.matchMode) && IsValidNumOfMatches(s.numOfMatchesPerFilter)
    ensures !s.legacy
    ensures s.HasPowerSaveMode()
      <==> !(p.powerSaveScanInterval == 0 && p.powerSaveRestInterval == 0 && p.scanMode == SCAN_MODE_LOW_LATENCY)
    ensures p.matchLostDeviceTimeout <= MAX_LONG / NANOS_PER_MILLI ==>
      s.matchLostDeviceTimeout == p.matchLostDeviceTimeout * NANOS_PER_MILLI > 0
  {
    BuiltPowerSaveMode(p);
    if p.matchLostDeviceTimeout <= MAX_LONG / NANOS_PER_MILLI {
      MatchTimeoutInNanos(p.matchLostDeviceTimeout);
    }
  }

  /** Settings from a fresh builder: low power, all matches, 10 s timeout in nanoseconds, 0.5 s in 5 s. */
  lemma DefaultSettings(s: ScanSettings)
    requires Constructed(s, BuildParams(DefaultParams))
    ensures s.scanMode == SCAN_MODE_LOW_POWER && s.callbackType == CALLBACK_TYPE_ALL_MATCHES
    ensures s.reportDelayMillis == 0 && !s.legacy
    ensures s.matchLostDeviceTimeout == 10_000_000_000 && s.matchLostTaskInterval == 10000
    ensures s.powerSaveScanInterval == 500 && s.powerSaveRestInterval == 4500
  {
    MatchTimeoutInNanos(MATCH_LOST_DEVICE_TIMEOUT_DEFAULT);
  }
}
