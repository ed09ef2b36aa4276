/**
 * The scanner of Android 5 and later (`BluetoothLeScannerImplLollipop`,
 * which the Android 6 and Android 8 scanners extend with their own
 * conversions): the registry of running scans, one wrapper per application
 * callback, the calls made on the platform scanner, and the runnables the
 * platform's callback posts on a wrapper's handler.
 *
 * The platform is represented by the `Adapter` values it reports at each
 * call and by the log `nativeCalls` of what was asked of its scanner.
 */
module LollipopScanners {
  import opened Common
  import ScanRecords
  import opened ScanResults
  import ScanFilters
  import opened Settings
  import opened Compat
  import opened NativeConversions

  /** What `BluetoothAdapter` reports: whether it has an LE scanner, and its offload capabilities. */
  datatype Adapter = Adapter(
    scannerAvailable: bool,
    offloadedBatchingSupported: bool,
    offloadedFilteringSupported: bool)

  /** A call on the platform's `BluetoothLeScanner`, naming the wrapper whose native callback it passes. */
  datatype NativeCall =
    | StartScan(filters: Option<seq<NativeFilter>>, settings: NativeSettings, wrapper: ScanCallbackWrapper)
    | StopScan(wrapper: ScanCallbackWrapper)
    | FlushNative(wrapper: ScanCallbackWrapper)

  /**
   * The platform filters a scan is started with: the converted filters when
   * there are filters and the controller is to apply them, null otherwise.
   */
  function NativeFiltersFor(adapter: Adapter, filters: seq<ScanFilters.ScanFilter>, s: ScanSettings)
    : (r: Option<seq<NativeFilter>>)
    reads s
    ensures r.Some? <==>
      |filters| > 0 && adapter.offloadedFilteringSupported && s.useHardwareFilteringIfSupported
    ensures r.Some? ==> (|r.value| == |filters|
      && forall i :: 0 <= i < |filters| ==> r.value[i] == ToNativeScanFilter(filters[i]))
  {
    if |filters| > 0 && adapter.offloadedFilteringSupported && s.useHardwareFilteringIfSupported
    then Some(seq(|filters|, i requires 0 <= i < |filters| => ToNativeScanFilter(filters[i])))
    else None
  }

  /** Whether a failed scan is downgraded: the hardware was asked for callback types other than ALL_MATCHES. */
  predicate Downgrades(useHardwareCallbackTypes: bool, callbackType: Int32)
  {
    useHardwareCallbackTypes && callbackType != CALLBACK_TYPE_ALL_MATCHES
  }

  class LollipopScanner {
    const tier: Tier
    /** The parser's collaborators, used by every result conversion. */
    const dec: ScanRecords.Decoders
    var wrappers: map<CallbackId, ScanCallbackWrapper>
    var nativeCalls: seq<NativeCall>

    ghost predicate Valid()
      reads this, wrappers.Values
    {
      RegistryValid(wrappers)
    }

    constructor (tier: Tier, dec: ScanRecords.Decoders)
      ensures Valid() && this.tier == tier && this.dec == dec
      ensures wrappers == map[] && nativeCalls == []
    {
      this.tier := tier;
      this.dec := dec;
      wrappers := map[];
      nativeCalls := [];
    }

    /**
     * `toNativeScanSettings` of the tier. Android 5 also clears the
     * settings' hardware-callback-types flag, since the platform has no
     * callback types there; the later tiers leave the settings alone.
     */
    method ToNativeScanSettings(adapter: Adapter, settings: ScanSettings, exactCopy: bool) returns (n: NativeSettings)
      modifies settings
      ensures n == old(NativeSettingsFor(tier, adapter.offloadedBatchingSupported, settings, exactCopy))
      ensures settings.useHardwareCallbackTypesIfSupported
        == (tier != Lollipop && old(settings.useHardwareCallbackTypesIfSupported))
    {
      n := NativeSettingsFor(tier, adapter.offloadedBatchingSupported, settings, exactCopy);
      if tier == Lollipop {
        settings.DisableUseHardwareCallbackTypes();
      }
    }

    /** `toNativeScanFilters`: every filter converted, in order. */
    method ToNativeScanFilters(filters: seq<ScanFilters.ScanFilter>) returns (ns: seq<NativeFilter>)
      ensures |ns| == |filters| && forall i :: 0 <= i < |filters| ==> ns[i] == ToNativeScanFilter(filters[i])
    {
      ns := [];
      for i := 0 to |filters|
        invariant |ns| == i && forall k :: 0 <= k < i ==> ns[k] == ToNativeScanFilter(filters[k])
      {
        ns := ns + [ToNativeScanFilter(filters[i])];
      }
    }

    /**
     * `startScanInternal`. Without an LE scanner it throws
     * IllegalStateException; a callback that is already registered throws
     * IllegalArgumentException; either way nothing changes. Otherwise one new
     * wrapper is registered under the callback (callback types are supported
     * from Android 6) and the platform scan is started with the converted
     * settings and, when the controller filters, the converted filters.
     */
    method StartScanInternal(adapter: Adapter, filters: seq<ScanFilters.ScanFilter>, settings: ScanSettings,
                             callback: CallbackId)
      returns (thrown: Option<Exception>)
      requires Valid() && AllWellFormed(filters)
      modifies this, settings
      ensures Valid()
      ensures !adapter.scannerAvailable ==> thrown == Some(IllegalStateException)
      ensures adapter.scannerAvailable && callback in old(wrappers) ==> thrown == Some(IllegalArgumentException)
      ensures thrown.None? <==> adapter.scannerAvailable && callback !in old(wrappers)
      ensures thrown.Some? ==> wrappers == old(wrappers) && nativeCalls == old(nativeCalls) && unchanged(settings)
      ensures thrown.None? ==>
        callback in wrappers && fresh(wrappers[callback])
        && wrappers == old(wrappers)[callback := wrappers[callback]]
        && wrappers[callback].settings == settings
        && wrappers[callback].config == old(MakeConfig(adapter.offloadedBatchingSupported,
             adapter.offloadedFilteringSupported, tier != Lollipop, filters, settings))
        && wrappers[callback].State() == Initial(wrappers[callback].config)
        && nativeCalls == old(nativeCalls) + [StartScan(old(NativeFiltersFor(adapter, filters, settings)),
             old(NativeSettingsFor(tier, adapter.offloadedBatchingSupported, settings, false)), wrappers[callback])]
        && settings.useHardwareCallbackTypesIfSupported
           == (tier != Lollipop && old(settings.useHardwareCallbackTypesIfSupported))
    {
      if !adapter.scannerAvailable {
        return Some(IllegalStateException);
      }
      if callback in wrappers {
        return Some(IllegalArgumentException);
      }
      var wrapper := Register(adapter, filters, settings, callback);
      return None;
    }

    /** The part of `startScanInternal` after its checks: the new wrapper, then the platform scan. */
    method Register(adapter: Adapter, filters: seq<ScanFilters.ScanFilter>, settings: ScanSettings,
                    callback: CallbackId)
      returns (wrapper: ScanCallbackWrapper)
      requires Valid() && AllWellFormed(filters) && callback !in wrappers
      modifies this, settings
      ensures Valid() && fresh(wrapper)
      ensures wrappers == old(wrappers)[callback := wrapper]
      ensures wrapper.settings == settings
      ensures wrapper.config == old(MakeConfig(adapter.offloadedBatchingSupported,
                adapter.offloadedFilteringSupported, tier != Lollipop, filters, settings))
      ensures wrapper.State() == Initial(wrapper.config)
      ensures nativeCalls == old(nativeCalls) + [StartScan(old(NativeFiltersFor(adapter, filters, settings)),
                old(NativeSettingsFor(tier, adapter.offloadedBatchingSupported, settings, false)), wrapper)]
      ensures settings.useHardwareCallbackTypesIfSupported
                == (tier != Lollipop && old(settings.useHardwareCallbackTypesIfSupported))
    {
      wrapper := new ScanCallbackWrapper(adapter.offloadedBatchingSupported, adapter.offloadedFilteringSupported,
                                         tier != Lollipop, filters, settings, callback);
      var native, nativeSettings := NativeRequest(adapter, filters, settings);
      Record(callback, wrapper, StartScan(native, nativeSettings, wrapper));
    }

    /** The converted filters and settings handed to the platform scan. */
    method NativeRequest(adapter: Adapter, filters: seq<ScanFilters.ScanFilter>, settings: ScanSettings)
      returns (native: Option<seq<NativeFilter>>, nativeSettings: NativeSettings)
      modifies settings
      ensures native == old(NativeFiltersFor(adapter, filters, settings))
      ensures nativeSettings == old(NativeSettingsFor(tier, adapter.offloadedBatchingSupported, settings, false))
      ensures settings.useHardwareCallbackTypesIfSupported
                == (tier != Lollipop && old(settings.useHardwareCallbackTypesIfSupported))
    {
      ghost var nativeFilters := NativeFiltersFor(adapter, filters, settings);
      nativeSettings := ToNativeScanSettings(adapter, settings, false);
      native := None;
      if |filters| > 0 && adapter.offloadedFilteringSupported && settings.useHardwareFilteringIfSupported {
        var ns := ToNativeScanFilters(filters);
        assert ns == nativeFilters.value;
        native := Some(ns);
      }
    }

    /** The new wrapper put under its callback, and the platform call logged. */
    method Record(callback: CallbackId, wrapper: ScanCallbackWrapper, call: NativeCall)
      requires Valid() && wrapper.Valid() && wrapper.callback == callback && callback !in wrappers
      modifies this
      ensures Valid()
      ensures wrappers == old(wrappers)[callback := wrapper] && nativeCalls == old(nativeCalls) + [call]
    {
      RegistryAdd(wrappers, callback, wrapper);
      wrappers := wrappers[callback := wrapper];
      nativeCalls := nativeCalls + [call];
    }

    /**
     * `stopScanInternal`: an unknown callback changes nothing; a known one
     * is removed and its wrapper closed, and the platform scan is stopped
     * when there is an LE scanner.
     */
    method StopScanInternal(adapter: Adapter, callback: CallbackId)
      requires Valid()
      modifies this, if callback in wrappers then {wrappers[callback]} else {}
      ensures Valid() && wrappers == old(wrappers) - {callback}
      ensures callback !in old(wrappers) ==> wrappers == old(wrappers) && nativeCalls == old(nativeCalls)
      ensures callback in old(wrappers) ==>
        var w := old(wrappers[callback]);
        w.State() == Closed(old(w.State()))
        && nativeCalls == old(nativeCalls) + (if adapter.scannerAvailable then [StopScan(w)] else [])
    {
      if callback !in wrappers {
        Unregistered(wrappers, callback);
        return;
      }
      var wrapper := wrappers[callback];
      wrappers := wrappers - {callback};
      wrapper.Close();
      if adapter.scannerAvailable {
        nativeCalls := nativeCalls + [StopScan(wrapper)];
      }
    }

    /**
     * `flushPendingScanResults`: an unregistered callback throws
     * IllegalArgumentException. When the controller batches, the platform is
     * asked to flush (nothing happens without an LE scanner); otherwise the
     * wrapper flushes its own buffer.
     */
    method FlushPendingScanResults(adapter: Adapter, callback: CallbackId) returns (thrown: Option<Exception>)
      requires Valid()
      modifies this, if callback in wrappers then {wrappers[callback]} else {}
      ensures Valid() && wrappers == old(wrappers)
      ensures callback !in wrappers ==> thrown == Some(IllegalArgumentException) && nativeCalls == old(nativeCalls)
      ensures callback in wrappers ==>
        var w := wrappers[callback];
        thrown.None?
        && if adapter.offloadedBatchingSupported && w.settings.useHardwareBatchingIfSupported then
             w.State() == old(w.State())
             && nativeCalls == old(nativeCalls) + (if adapter.scannerAvailable then [FlushNative(w)] else [])
           else
             w.State() == Flush(w.config, old(w.State())) && nativeCalls == old(nativeCalls)
    {
      if callback !in wrappers {
        return Some(IllegalArgumentException);
      }
      var wrapper := wrappers[callback];
      if adapter.offloadedBatchingSupported && wrapper.settings.useHardwareBatchingIfSupported {
        if adapter.scannerAvailable {
          nativeCalls := nativeCalls + [FlushNative(wrapper)];
        }
      } else {
        wrapper.FlushPendingScanResults();
      }
      return None;
    }

    /** `fromNativeScanResult`: the record parsed by the parser's loop, then the tier's result. */
    method ConvertResult(n: NativeScanResult) returns (r: Option<ScanResult>)
      ensures r == FromNativeScanResult(tier, n, dec)
    {
      var parsed := ScanRecords.ParseFromBytes(n.scanRecord, dec);
      if parsed.Hangs? {
        return None;
      }
      var record := if parsed.Parsed? then Some(parsed.record) else None;
      if tier == Oreo {
        var eventType := EventType(n.dataStatus, n.isLegacy, n.isConnectable);
        r := Some(ExtendedScanResult(n.device, eventType, n.primaryPhy, n.secondaryPhy, n.advertisingSid,
                                     n.txPower, n.rssi, n.periodicAdvertisingInterval, record, n.timestampNanos));
      } else {
        r := Some(LegacyScanResult(n.device, record, n.rssi, n.timestampNanos));
      }
    }

    /** `fromNativeScanResults`: the loop converting a batch, in order. */
    method ConvertResults(ns: seq<NativeScanResult>) returns (rs: Option<seq<ScanResult>>)
      ensures rs == FromNativeScanResults(tier, ns, dec)
    {
      var results: seq<ScanResult> := [];
      for i := 0 to |ns|
        invariant |results| == i
        invariant forall k :: 0 <= k < i ==>
          FromNativeScanResult(tier, ns[k], dec).Some? && results[k] == FromNativeScanResult(tier, ns[k], dec).value
      {
        var r := ConvertResult(ns[i]);
        if r.None? {
          return None;
        }
        results := results + [r.value];
      }
      assert results == FromNativeScanResults(tier, ns, dec).value;
      return Some(results);
    }

    /**
     * `onScanResult` of a wrapper's native callback: it posts the runnable
     * that converts the result and hands it to `handleScanResult` with the
     * platform's callback type.
     */
    method OnNativeScanResult(w: ScanCallbackWrapper, callbackType: Int32, n: NativeScanResult)
      requires Valid() && w.Valid()
      modifies w
      ensures Valid() && w.Valid()
      ensures var r := FromNativeScanResult(tier, n, dec);
        w.State() == old(w.State()).(pending := old(w.pending) + if r.Some? then [Deliver(callbackType, r.value)] else [])
    {
      var r := ConvertResult(n);
      if r.Some? {
        w.Post(Deliver(callbackType, r.value));
      }
    }

    /**
     * `onBatchScanResults`: it posts the runnable that drops a batch coming
     * too early after the last one, converts the others and hands them to
     * `handleScanResults`.
     */
    method OnNativeBatchScanResults(w: ScanCallbackWrapper, ns: seq<NativeScanResult>)
      requires Valid() && w.Valid()
      modifies w
      ensures Valid() && w.Valid()
      ensures var rs := FromNativeScanResults(tier, ns, dec);
        w.State() == old(w.State()).(pending := old(w.pending) + if rs.Some? then [NativeBatch(rs.value)] else [])
    {
      var rs := ConvertResults(ns);
      if rs.Some? {
        w.Post(NativeBatch(rs.value));
      }
    }

    /**
     * The runnable `onScanFailed` posts, when it runs. If the hardware was
     * asked for callback types other than ALL_MATCHES it clears that wish,
     * stops the scan of the wrapper's callback and starts it again with the
     * same filters and settings, ignoring what either throws; the
     * application hears of no error. Otherwise the error goes to the wrapper.
     */
    method RunScanFailed(adapter: Adapter, w: ScanCallbackWrapper, errorCode: int)
      returns (restarted: ScanCallbackWrapper?)
      requires Valid() && w.Valid()
      modifies this, w, w.settings, wrappers.Values
      ensures Valid()
      ensures !Downgrades(old(w.settings.useHardwareCallbackTypesIfSupported), w.settings.callbackType) ==>
        w.State() == HandleError(old(w.State()), errorCode)
        && wrappers == old(wrappers) && nativeCalls == old(nativeCalls)
        && w.settings.useHardwareCallbackTypesIfSupported == old(w.settings.useHardwareCallbackTypesIfSupported)
        && restarted == null
      ensures Downgrades(old(w.settings.useHardwareCallbackTypesIfSupported), w.settings.callbackType) ==>
        !w.settings.useHardwareCallbackTypesIfSupported && w.events == old(w.events)
        && (w.callback in old(wrappers) ==>
              var u := old(wrappers[w.callback]); u.State() == Closed(old(u.State())))
        && (!adapter.scannerAvailable ==> wrappers == old(wrappers) - {w.callback} && nativeCalls == old(nativeCalls))
        && (adapter.scannerAvailable ==>
              restarted != null && fresh(restarted)
              && wrappers == old(wrappers)[w.callback := restarted]
              && restarted.settings == w.settings
              && restarted.config == MakeConfig(adapter.offloadedBatchingSupported, adapter.offloadedFilteringSupported,
                                                tier != Lollipop, w.config.filters, w.settings)
              && restarted.State() == Initial(restarted.config)
              && nativeCalls == old(nativeCalls)
                   + (if w.callback in old(wrappers) then [StopScan(old(wrappers[w.callback]))] else [])
                   + [StartScan(NativeFiltersFor(adapter, w.config.filters, w.settings),
                                NativeSettingsFor(tier, adapter.offloadedBatchingSupported, w.settings, false), restarted)])
      // The wrapper now registered for the callback hands its next failure to the application: at most one downgrade.
      ensures w.callback in wrappers && old(w.callback in wrappers && wrappers[w.callback] == w) ==>
        !Downgrades(wrappers[w.callback].settings.useHardwareCallbackTypesIfSupported,
                    wrappers[w.callback].settings.callbackType)
    {
      if Downgrades(w.settings.useHardwareCallbackTypesIfSupported, w.settings.callbackType) {
        restarted := Downgrade(adapter, w);
      } else {
        w.HandleScanError(errorCode);
        restarted := null;
      }
    }

    /**
     * The downgrade of `onScanFailed`: the flag cleared, the callback's scan
     * stopped (its wrapper closed) and started again, now emulating
     * FIRST_MATCH and MATCH_LOST. No event reaches the application.
     */
    method Downgrade(adapter: Adapter, w: ScanCallbackWrapper) returns (v: ScanCallbackWrapper?)
      requires Valid() && w.Valid()
      modifies this, w.settings, wrappers.Values
      ensures Valid()
      ensures !w.settings.useHardwareCallbackTypesIfSupported
      ensures w.events == old(w.events)
      ensures w.callback in old(wrappers) ==>
        var u := old(wrappers[w.callback]); u.State() == Closed(old(u.State()))
      ensures !adapter.scannerAvailable ==> wrappers == old(wrappers) - {w.callback} && nativeCalls == old(nativeCalls)
      ensures adapter.scannerAvailable ==>
        v != null && fresh(v)
        && wrappers == old(wrappers)[w.callback := v]
        && v.settings == w.settings
        && v.config == MakeConfig(adapter.offloadedBatchingSupported, adapter.offloadedFilteringSupported,
                                  tier != Lollipop, w.config.filters, w.settings)
        && v.State() == Initial(v.config)
        && nativeCalls == old(nativeCalls)
             + (if w.callback in old(wrappers) then [StopScan(old(wrappers[w.callback]))] else [])
             + [StartScan(NativeFiltersFor(adapter, w.config.filters, w.settings),
                          NativeSettingsFor(tier, adapter.offloadedBatchingSupported, w.settings, false), v)]
    {
      w.settings.DisableUseHardwareCallbackTypes();
      ghost var events := w.events;
      ghost var registry := wrappers;
      StopScanInternal(adapter, w.callback);
      assert w.events == events;
      v := Restart(adapter, w);
      if adapter.scannerAvailable {
        Reregistered(registry, w.callback, v);
      }
    }

    /** The second half of the downgrade: the scan started again, the exceptions of the start ignored. */
    method Restart(adapter: Adapter, w: ScanCallbackWrapper) returns (v: ScanCallbackWrapper?)
      requires Valid() && AllWellFormed(w.config.filters) && w.callback !in wrappers
      requires !w.settings.useHardwareCallbackTypesIfSupported
      modifies this, w.settings
      ensures Valid() && !w.settings.useHardwareCallbackTypesIfSupported
      ensures !adapter.scannerAvailable ==> wrappers == old(wrappers) && nativeCalls == old(nativeCalls)
      ensures adapter.scannerAvailable ==>
        v != null && fresh(v)
        && wrappers == old(wrappers)[w.callback := v]
        && v.settings == w.settings
        && v.config == MakeConfig(adapter.offloadedBatchingSupported, adapter.offloadedFilteringSupported,
                                  tier != Lollipop, w.config.filters, w.settings)
        && v.State() == Initial(v.config)
        && nativeCalls == old(nativeCalls)
             + [StartScan(NativeFiltersFor(adapter, w.config.filters, w.settings),
                          NativeSettingsFor(tier, adapter.offloadedBatchingSupported, w.settings, false), v)]
    {
      var settings := w.settings;
      ghost var config := MakeConfig(adapter.offloadedBatchingSupported, adapter.offloadedFilteringSupported,
                                     tier != Lollipop, w.config.filters, settings);
      ghost var nativeFilters := NativeFiltersFor(adapter, w.config.filters, settings);
      ghost var nativeSettings := NativeSettingsFor(tier, adapter.offloadedBatchingSupported, settings, false);
      var ignored := StartScanInternal(adapter, w.config.filters, settings, w.callback);
      v := if ignored.None? then wrappers[w.callback] else null;
      assert config == MakeConfig(adapter.offloadedBatchingSupported, adapter.offloadedFilteringSupported,
                                  tier != Lollipop, w.config.filters, settings);
      assert nativeFilters == NativeFiltersFor(adapter, w.config.filters, settings);
      assert nativeSettings == NativeSettingsFor(tier, adapter.offloadedBatchingSupported, settings, false);
    }
  }
}
