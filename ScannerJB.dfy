/**
 * The scanner of Android 4.3 and 4.4 (`BluetoothLeScannerImplJB`). The
 * platform has a single LE scan with a single callback: it is started when
 * the first application callback is registered and stopped when the last
 * one is removed, and every advertisement it reports is handed to every
 * registered wrapper as an ALL_MATCHES result. Everything else (filters,
 * batching, first match and match lost) is emulated by the wrappers.
 *
 * The platform is represented by the log `leScanCalls` of the
 * `startLeScan` / `stopLeScan` calls made on the adapter.
 */
module JBScanners {
  import opened Common
  import ScanRecords
  import opened ScanResults
  import ScanFilters
  import opened Settings
  import opened Compat

  /** A call on `BluetoothAdapter`, always with the scanner's one `LeScanCallback`. */
  datatype LeScanCall = StartLeScan | StopLeScan

  /** The calls alternate, beginning with a start: no scan is started twice or stopped when not running. */
  predicate Alternating(log: seq<LeScanCall>)
  {
    forall i :: 0 <= i < |log| ==> log[i] == if i % 2 == 0 then StartLeScan else StopLeScan
  }

  /** Whether the platform scan is running after the calls of `log`: the last call started it. */
  predicate LeScanRunning(log: seq<LeScanCall>)
  {
    |log| > 0 && log[|log| - 1] == StartLeScan
  }

  /** In an alternating log the scan runs exactly when an odd number of calls was made. */
  lemma RunningIffOdd(log: seq<LeScanCall>)
    requires Alternating(log)
    ensures LeScanRunning(log) <==> |log| % 2 == 1
  {
    if |log| > 0 {
      assert log[|log| - 1] == if (|log| - 1) % 2 == 0 then StartLeScan else StopLeScan;
    }
  }

  /** A start when the scan is not running, or a stop when it is, keeps the log alternating. */
  lemma AlternatingAppend(log: seq<LeScanCall>, call: LeScanCall)
    requires Alternating(log)
    requires call == if LeScanRunning(log) then StopLeScan else StartLeScan
    ensures Alternating(log + [call])
    ensures LeScanRunning(log + [call]) == (call == StartLeScan)
  {
    RunningIffOdd(log);
    var next := log + [call];
    forall i | 0 <= i < |next|
      ensures next[i] == if i % 2 == 0 then StartLeScan else StopLeScan
    {
      if i < |log| {
        assert next[i] == log[i];
      }
    }
  }

  /** The result built from one advertisement: the parsed record and the four-argument constructor. */
  function LeScanResult(device: Address, rssi: int, scanRecord: Option<seq<Byte>>, now: int,
                        dec: ScanRecords.Decoders): (r: Option<ScanResult>)
    ensures r.None? <==> ScanRecords.Parse(scanRecord, dec).Hangs?
    ensures r.Some? ==> r.value == LegacyScanResult(device, r.value.scanRecord, rssi, now)
    ensures r.Some? ==> (r.value.scanRecord.None? <==> scanRecord.None?)
    ensures r.Some? && scanRecord.Some? ==>
      r.value.scanRecord == Some(ScanRecords.Parse(scanRecord, dec).record)
      && r.value.scanRecord.value.bytes == scanRecord.value
  {
    var p := ScanRecords.Parse(scanRecord, dec);
    if p.Hangs? then None
    else Some(LegacyScanResult(device, if p.Parsed? then Some(p.record) else None, rssi, now))
  }

  /** A wrapper's state once a runnable has been posted on its handler. */
  function Posted(s: Session, task: Task): (r: Session)
    ensures r.pending == s.pending + [task] && r.(pending := s.pending) == s
  {
    s.(pending := s.pending + [task])
  }

  class JBScanner {
    /** The parser's collaborators. */
    const dec: ScanRecords.Decoders
    var wrappers: map<CallbackId, ScanCallbackWrapper>
    var leScanCalls: seq<LeScanCall>

    /** The registry is valid, and the platform scan runs exactly while some callback is registered. */
    ghost predicate Valid()
      reads this, wrappers.Values
    {
      RegistryValid(wrappers) && Alternating(leScanCalls) && (LeScanRunning(leScanCalls) <==> wrappers != map[])
    }

    constructor (dec: ScanRecords.Decoders)
      ensures Valid() && this.dec == dec
      ensures wrappers == map[] && leScanCalls == []
    {
      this.dec := dec;
      wrappers := map[];
      leScanCalls := [];
    }

    /**
     * `startScanInternal`: a callback that is already registered throws
     * IllegalArgumentException and changes nothing. Otherwise a wrapper that
     * emulates everything the controller would offload (callback types are
     * not supported below Android 6) is registered, and the platform scan is
     * started if this is the first callback.
     */
    method StartScanInternal(filters: seq<ScanFilters.ScanFilter>, settings: ScanSettings, callback: CallbackId)
      returns (thrown: Option<Exception>, wrapper: ScanCallbackWrapper?)
      requires Valid() && AllWellFormed(filters)
      modifies this
      ensures Valid()
      ensures thrown.Some? <==> callback in old(wrappers)
      ensures thrown.Some? ==>
        thrown.value == IllegalArgumentException && wrappers == old(wrappers) && leScanCalls == old(leScanCalls)
      ensures thrown.None? ==>
        wrapper != null && fresh(wrapper)
        && wrappers == old(wrappers)[callback := wrapper]
        && wrapper.settings == settings
        && wrapper.config == MakeConfig(false, false, false, filters, settings)
        && wrapper.State() == Initial(wrapper.config)
        && leScanCalls == old(leScanCalls) + (if old(wrappers) == map[] then [StartLeScan] else [])
    {
      if callback in wrappers {
        return Some(IllegalArgumentException), null;
      }
      wrapper := new ScanCallbackWrapper(false, false, false, filters, settings, callback);
      Register(callback, wrapper);
      thrown := None;
    }

    /** The new wrapper put under its callback; the platform scan started when it is the first. */
    method Register(callback: CallbackId, wrapper: ScanCallbackWrapper)
      requires Valid() && wrapper.Valid() && wrapper.callback == callback && callback !in wrappers
      modifies this
      ensures Valid() && wrappers == old(wrappers)[callback := wrapper]
      ensures leScanCalls == old(leScanCalls) + (if old(wrappers) == map[] then [StartLeScan] else [])
    {
      var shouldStart := wrappers == map[];
      RegistryAdd(wrappers, callback, wrapper);
      wrappers := wrappers[callback := wrapper];
      if shouldStart {
        AlternatingAppend(leScanCalls, StartLeScan);
        leScanCalls := leScanCalls + [StartLeScan];
      }
    }

    /**
     * `stopScanInternal`: the callback is removed; an unknown one changes
     * nothing more. A known one's wrapper is closed, and the platform scan
     * is stopped if it was the last callback.
     */
    method StopScanInternal(callback: CallbackId)
      requires Valid()
      modifies this, if callback in wrappers then {wrappers[callback]} else {}
      ensures Valid() && wrappers == old(wrappers) - {callback}
      ensures callback !in old(wrappers) ==> leScanCalls == old(leScanCalls)
      ensures callback in old(wrappers) ==>
        var w := old(wrappers[callback]);
        w.State() == Closed(old(w.State()))
        && leScanCalls == old(leScanCalls) + (if wrappers == map[] then [StopLeScan] else [])
    {
      if callback !in wrappers {
        Unregistered(wrappers, callback);
        return;
      }
      var wrapper := wrappers[callback];
      wrappers := wrappers - {callback};
      var shouldStop := wrappers == map[];
      wrapper.Close();
      if shouldStop {
        AlternatingAppend(leScanCalls, StopLeScan);
        leScanCalls := leScanCalls + [StopLeScan];
      }
    }

    /**
     * `flushPendingScanResults`: an unregistered callback throws
     * IllegalArgumentException; a registered one's wrapper flushes its buffer.
     */
    method FlushPendingScanResults(callback: CallbackId) returns (thrown: Option<Exception>)
      requires Valid()
      modifies if callback in wrappers then {wrappers[callback]} else {}
      ensures Valid()
      ensures callback !in wrappers ==> thrown == Some(IllegalArgumentException)
      ensures callback in wrappers ==>
        var w := wrappers[callback];
        thrown.None? && w.State() == Flush(w.config, old(w.State()))
    {
      if callback !in wrappers {
        return Some(IllegalArgumentException);
      }
      var wrapper := wrappers[callback];
      wrapper.FlushPendingScanResults();
      return None;
    }

    /**
     * The platform's `LeScanCallback`: one result is built from the
     * advertisement, stamped with the clock `now`, and an ALL_MATCHES
     * delivery of it is posted on the handler of every registered wrapper.
     * When the record's parse never ends nothing is posted.
     */
    method OnLeScan(device: Address, rssi: int, scanRecord: Option<seq<Byte>>, now: int)
      returns (r: Option<ScanResult>)
      requires Valid()
      modifies wrappers.Values
      ensures Valid() && r == LeScanResult(device, rssi, scanRecord, now, dec)
      ensures forall id :: id in wrappers ==>
        (wrappers[id].State() == if r.None? then old(wrappers[id].State())
                                 else Posted(old(wrappers[id].State()), Deliver(CALLBACK_TYPE_ALL_MATCHES, r.value)))
    {
      var parsed := ScanRecords.ParseFromBytes(scanRecord, dec);
      if parsed.Hangs? {
        return None;
      }
      var result := LegacyScanResult(device, if parsed.Parsed? then Some(parsed.record) else None, rssi, now);
      PostToAll(Deliver(CALLBACK_TYPE_ALL_MATCHES, result));
      r := Some(result);
    }

    /** The loop over `wrappers.values`, in the map's unspecified order: one post on each handler. */
    method PostToAll(task: Task)
      requires Valid() && task.Deliver?
      modifies wrappers.Values
      ensures Valid()
      ensures forall id :: id in wrappers ==> wrappers[id].State() == Posted(old(wrappers[id].State()), task)
    {
      ghost var before := map id | id in wrappers :: wrappers[id].State();
      var ids := wrappers.Keys;
      while ids != {}
        invariant unchanged(this) && ids <= wrappers.Keys && RegistryValid(wrappers)
        invariant forall id :: id in wrappers ==>
          id in before && wrappers[id].State() == if id in ids then before[id] else Posted(before[id], task)
        decreases ids
      {
        var id :| id in ids;
        PostOne(id, task, ids, before);
        ids := ids - {id};
      }
    }

    /** The loop's body: the post on the handler of the wrapper registered under `id`. */
    method PostOne(id: CallbackId, task: Task, ghost ids: set<CallbackId>, ghost before: map<CallbackId, Session>)
      requires id in ids && ids <= wrappers.Keys && RegistryValid(wrappers) && task.Deliver?
      requires forall j :: j in wrappers ==>
        j in before && wrappers[j].State() == if j in ids then before[j] else Posted(before[j], task)
      modifies wrappers[id]
      ensures unchanged(this) && RegistryValid(wrappers)
      ensures forall j :: j in wrappers ==>
        j in before && wrappers[j].State() == if j in ids - {id} then before[j] else Posted(before[j], task)
    {
      var w := wrappers[id];
      w.Post(task);
    }
  }
}
