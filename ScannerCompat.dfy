/**
 * `BluetoothLeScannerCompat.ScanCallbackWrapper`: the per-scan state machine
 * that emulates on the phone what the Bluetooth controller may not offer —
 * filtering, batching and the FIRST_MATCH / MATCH_LOST callback types.
 *
 * The Android `Handler` is an explicit queue of pending tasks, the clock is
 * a parameter, and the application's `ScanCallback` is an append-only log
 * of the events delivered to it. `Session` is the abstract state; the
 * functions below say what each entry point does to it, and the class
 * `ScanCallbackWrapper` implements them on mutable fields.
 */
module Compat {
  import opened Common
  import opened ScanResults
  import ScanFilters
  import Settings

  /** An application `ScanCallback`, known by the identity of the object. */
  type CallbackId = nat

  // `ScanCallback` error codes.
  const SCAN_FAILED_ALREADY_STARTED: int := 1
  const SCAN_FAILED_APPLICATION_REGISTRATION_FAILED: int := 2
  const SCAN_FAILED_INTERNAL_ERROR: int := 3
  const SCAN_FAILED_FEATURE_UNSUPPORTED: int := 4

  /** A call on the application's `ScanCallback`. */
  datatype Event =
    | OnScanResult(callbackType: Int32, result: ScanResult)
    | OnBatchScanResults(results: seq<ScanResult>)
    | OnScanFailed(errorCode: int)

  /**
   * A runnable posted on the wrapper's handler: the two periodic tasks (with
   * the delay they were posted with), a MATCH_LOST notification, and the
   * runnables the scanner facades post for native results and batches.
   */
  datatype Task =
    | FlushTask(delay: int)
    | MatchLostTask(delay: int)
    | NotifyLost(result: ScanResult)
    | Deliver(callbackType: Int32, result: ScanResult)
    | NativeBatch(results: seq<ScanResult>)

  /** What the wrapper fixes at construction: the filters, the settings it reads, the emulation flags. */
  datatype Config = Config(
    filters: seq<ScanFilters.ScanFilter>,
    callbackType: Int32,
    reportDelayMillis: int,
    matchLostDeviceTimeout: int,
    matchLostTaskInterval: int,
    emulateFiltering: bool,
    emulateBatching: bool,
    emulateFoundOrLost: bool)

  /** Filters built by the filter builder, as every filter the library receives is. */
  predicate AllWellFormed(filters: seq<ScanFilters.ScanFilter>)
  {
    forall i :: 0 <= i < |filters| ==> ScanFilters.WellFormed(filters[i])
  }

  /**
   * The constructor's decisions: emulate FIRST_MATCH / MATCH_LOST unless all
   * matches are wanted or the platform delivers those types; emulate
   * filtering when there are filters the controller will not apply; emulate
   * batching when there is a report delay the controller will not apply.
   */
  function MakeConfig(offloadedBatchingSupported: bool, offloadedFilteringSupported: bool,
                      callbackTypesSupported: bool, filters: seq<ScanFilters.ScanFilter>,
                      settings: Settings.ScanSettings): (c: Config)
    reads settings
  {
    Config(filters, settings.callbackType, settings.reportDelayMillis,
           settings.matchLostDeviceTimeout, settings.matchLostTaskInterval,
           |filters| > 0 && (!offloadedFilteringSupported || !settings.useHardwareFilteringIfSupported),
           settings.reportDelayMillis > 0 && (!offloadedBatchingSupported || !settings.useHardwareBatchingIfSupported),
           settings.callbackType != Settings.CALLBACK_TYPE_ALL_MATCHES
             && (!callbackTypesSupported || !settings.useHardwareCallbackTypesIfSupported))
  }

  /** The wrapper's mutable state and what the application has been told. */
  datatype Session = Session(
    stopped: bool,
    scanResults: seq<ScanResult>,
    devicesInBatch: set<Address>,
    devicesInRange: map<Address, ScanResult>,
    pending: seq<Task>,
    events: seq<Event>,
    lastBatchTimestamp: int)

  /** A new wrapper: running, empty, with the flush task armed only when batching is emulated. */
  function Initial(c: Config): Session
  {
    Session(false, [], {}, map[], if c.emulateBatching then [FlushTask(c.reportDelayMillis)] else [], [], 0)
  }

  /**
   * What a wrapper emulates: found/lost only for settings other than
   * ALL_MATCHES, filtering only with filters, batching only with a report
   * delay, and then the flush task is armed; whatever the controller does
   * not offer is emulated, and nothing is when it offers everything and the
   * settings ask for it.
   */
  lemma EmulationFlags(offloadedBatchingSupported: bool, offloadedFilteringSupported: bool,
                       callbackTypesSupported: bool, filters: seq<ScanFilters.ScanFilter>, settings: Settings.ScanSettings)
    ensures var c := MakeConfig(offloadedBatchingSupported, offloadedFilteringSupported, callbackTypesSupported,
                                filters, settings);
      (c.emulateFoundOrLost ==> settings.callbackType != Settings.CALLBACK_TYPE_ALL_MATCHES)
      && (c.emulateFiltering ==> |filters| > 0)
      && (c.emulateBatching ==> settings.reportDelayMillis > 0)
      && (Initial(c).pending != [] <==> c.emulateBatching)
      && (settings.callbackType != Settings.CALLBACK_TYPE_ALL_MATCHES && !callbackTypesSupported ==> c.emulateFoundOrLost)
      && (|filters| > 0 && !offloadedFilteringSupported ==> c.emulateFiltering)
      && (settings.reportDelayMillis > 0 && !offloadedBatchingSupported ==> c.emulateBatching)
      && (offloadedBatchingSupported && offloadedFilteringSupported && callbackTypesSupported
          && settings.useHardwareBatchingIfSupported && settings.useHardwareFilteringIfSupported
          && settings.useHardwareCallbackTypesIfSupported
          ==> !c.emulateFoundOrLost && !c.emulateFiltering && !c.emulateBatching)
  {
  }

  /** The devices of a list of results. */
  function Devices(results: seq<ScanResult>): set<Address>
  {
    if results == [] then {} else Devices(results[..|results| - 1]) + {results[|results| - 1].device}
  }

  /** `Devices` holds the device of every result and nothing else. */
  lemma {:induction false} DevicesOfResults(results: seq<ScanResult>)
    ensures forall i :: 0 <= i < |results| ==> results[i].device in Devices(results)
    ensures forall a :: a in Devices(results) ==> exists i :: 0 <= i < |results| && results[i].device == a
  {
    if results != [] {
      var init := results[..|results| - 1];
      DevicesOfResults(init);
      assert forall i :: 0 <= i < |init| ==> init[i] == results[i];
    }
  }

  /** No two results of the list are of the same device. */
  predicate DistinctDevices(results: seq<ScanResult>)
  {
    forall i, j :: 0 <= i < j < |results| ==> results[i].device != results[j].device
  }

  /** What every entry point keeps true of the state. */
  predicate Inv(c: Config, s: Session)
  {
    (forall a :: a in s.devicesInRange ==> s.devicesInRange[a].device == a)
    && s.devicesInBatch == Devices(s.scanResults)
    && DistinctDevices(s.scanResults)
    && (s.scanResults != [] ==> c.emulateBatching && !c.emulateFoundOrLost)
    && (s.devicesInRange != map[] ==> c.emulateFoundOrLost)
    && (s.stopped ==> s.scanResults == [] && s.devicesInRange == map[]
                      && forall k :: 0 <= k < |s.pending| ==> !s.pending[k].NotifyLost?)
  }

  /** The private `matches`: the first filter that matches decides; false for no filters. */
  function MatchesAny(filters: seq<ScanFilters.ScanFilter>, r: ScanResult): bool
    requires AllWellFormed(filters)
  {
    if filters == [] then false
    else ScanFilters.Matches(filters[0], Some(r)) || MatchesAny(filters[1..], r)
  }

  /** `matches` is the disjunction of the filters: true exactly when some filter matches. */
  lemma {:induction false} MatchesAnyIffSomeFilter(filters: seq<ScanFilters.ScanFilter>, r: ScanResult)
    requires AllWellFormed(filters)
    ensures MatchesAny(filters, r) <==> exists i :: 0 <= i < |filters| && ScanFilters.Matches(filters[i], Some(r))
    decreases |filters|
  {
    if filters != [] {
      var tail := filters[1..];
      assert forall i :: 1 <= i < |filters| ==> filters[i] == tail[i - 1];
      MatchesAnyIffSomeFilter(tail, r);
      if MatchesAny(tail, r) {
        var i :| 0 <= i < |tail| && ScanFilters.Matches(tail[i], Some(r));
        assert ScanFilters.Matches(filters[i + 1], Some(r));
      }
    }
  }

  /** The results some filter matches, in their order. */
  function FilterResults(filters: seq<ScanFilters.ScanFilter>, results: seq<ScanResult>): (r: seq<ScanResult>)
    requires AllWellFormed(filters)
    ensures |r| <= |results|
  {
    if results == [] then []
    else
      var rest := FilterResults(filters, results[1..]);
      if MatchesAny(filters, results[0]) then [results[0]] + rest else rest
  }

  /** The filtered list holds exactly the matching results of the input. */
  lemma {:induction false} FilterResultsKeepsMatching(filters: seq<ScanFilters.ScanFilter>, results: seq<ScanResult>)
    requires AllWellFormed(filters)
    ensures forall x :: x in FilterResults(filters, results) ==> x in results && MatchesAny(filters, x)
    ensures forall x :: x in results && MatchesAny(filters, x) ==> x in FilterResults(filters, results)
    decreases |results|
  {
    if results != [] {
      var tail := results[1..];
      FilterResultsKeepsMatching(filters, tail);
      assert results == [results[0]] + tail;
      var rest := FilterResults(filters, tail);
      assert FilterResults(filters, results) == if MatchesAny(filters, results[0]) then [results[0]] + rest else rest;
    }
  }

  /** The pending tasks without the match-lost task (`removeCallbacks(matchLostNotifierTask)`). */
  function WithoutMatchLost(pending: seq<Task>): (r: seq<Task>)
    ensures forall k :: 0 <= k < |r| ==> !r[k].MatchLostTask? && r[k] in pending
    ensures forall k :: 0 <= k < |pending| && !pending[k].MatchLostTask? ==> pending[k] in r
  {
    if pending == [] then []
    else
      var rest := WithoutMatchLost(pending[1..]);
      assert forall k :: 1 <= k < |pending| ==> pending[k] == pending[1..][k - 1];
      if pending[0].MatchLostTask? then rest else [pending[0]] + rest
  }

  /**
   * `handleScanResult`. Ignored when stopped or when no filter matches (with
   * filters present, emulated or not). With FIRST_MATCH / MATCH_LOST
   * emulated, the result is stored under its device: FIRST_MATCH is reported
   * for a new device, and the match-lost task is (re)armed when the map was
   * empty. Otherwise, with batching emulated the first result of each device
   * is buffered; without, it is delivered at once.
   */
  function HandleResult(c: Config, s: Session, callbackType: Int32, r: ScanResult): Session
    requires AllWellFormed(c.filters)
  {
    if s.stopped || (|c.filters| > 0 && !MatchesAny(c.filters, r)) then s
    else if c.emulateFoundOrLost then
      var firstResult := s.devicesInRange == map[];
      var previous := r.device in s.devicesInRange;
      var events := if !previous && c.callbackType & Settings.CALLBACK_TYPE_FIRST_MATCH != 0
                    then s.events + [OnScanResult(Settings.CALLBACK_TYPE_FIRST_MATCH, r)]
                    else s.events;
      var pending := if firstResult && c.callbackType & Settings.CALLBACK_TYPE_MATCH_LOST != 0
                     then WithoutMatchLost(s.pending) + [MatchLostTask(c.matchLostTaskInterval)]
                     else s.pending;
      s.(devicesInRange := s.devicesInRange[r.device := r], events := events, pending := pending)
    else if c.emulateBatching then
      if r.device in s.devicesInBatch then s
      else s.(scanResults := s.scanResults + [r], devicesInBatch := s.devicesInBatch + {r.device})
    else s.(events := s.events + [OnScanResult(callbackType, r)])
  }

  /** `handleScanResults`: ignored when stopped; otherwise one batch, filtered when filtering is emulated. */
  function HandleResults(c: Config, s: Session, results: seq<ScanResult>): Session
    requires AllWellFormed(c.filters)
  {
    if s.stopped then s
    else s.(events := s.events + [OnBatchScanResults(if c.emulateFiltering then FilterResults(c.filters, results) else results)])
  }

  /** `flushPendingScanResults`: deliver the buffer and forget the batch, when batching is emulated and running. */
  function Flush(c: Config, s: Session): Session
  {
    if c.emulateBatching && !s.stopped then
      s.(events := s.events + [OnBatchScanResults(s.scanResults)], scanResults := [], devicesInBatch := {})
    else s
  }

  /** `close`: stopped, every pending task cancelled, all collections cleared. */
  function Closed(s: Session): Session
  {
    s.(stopped := true, pending := [], devicesInRange := map[], devicesInBatch := {}, scanResults := [])
  }

  /** `handleScanError`: the error goes to the application, stopped or not. */
  function HandleError(s: Session, errorCode: int): Session
  {
    s.(events := s.events + [OnScanFailed(errorCode)])
  }

  /** What the match-lost sweep leaves in the map and the results it takes out, in visiting order. */
  datatype SweepResult = SweepResult(kept: map<Address, ScanResult>, lost: seq<ScanResult>)

  /**
   * The iterator loop of the match-lost task, visiting the devices in
   * `order`: an entry seen strictly before `threshold` is removed.
   */
  function Sweep(range: map<Address, ScanResult>, order: seq<Address>, threshold: int): SweepResult
    decreases |order|
  {
    if order == [] then SweepResult(range, [])
    else
      var a := order[0];
      if a in range && range[a].timestampNanos < threshold then
        var rest := Sweep(range - {a}, order[1..], threshold);
        SweepResult(rest.kept, [range[a]] + rest.lost)
      else Sweep(range, order[1..], threshold)
  }

  /**
   * The sweep keeps every entry seen at or after the threshold and every
   * entry it does not visit, and takes out every visited entry seen before
   * it; what it takes out are entries of the map seen before the threshold.
   */
  lemma {:induction false} SweepFacts(range: map<Address, ScanResult>, order: seq<Address>, threshold: int)
    ensures var r := Sweep(range, order, threshold);
      (forall a :: a in r.kept ==> a in range && r.kept[a] == range[a])
      && (forall a :: a in range && range[a].timestampNanos >= threshold ==> a in r.kept)
      && (forall a :: a in range && a !in order ==> a in r.kept)
      && (forall a :: a in range && a in order && range[a].timestampNanos < threshold ==> a !in r.kept)
      && (forall i :: 0 <= i < |r.lost| ==> r.lost[i] in range.Values && r.lost[i].timestampNanos < threshold)
      && (forall a :: a in range && a in order && range[a].timestampNanos < threshold ==> range[a] in r.lost)
    decreases |order|
  {
    if order != [] {
      var a := order[0];
      if a in range && range[a].timestampNanos < threshold {
        SweepFacts(range - {a}, order[1..], threshold);
      } else {
        SweepFacts(range, order[1..], threshold);
      }
    }
  }

  /** The MATCH_LOST notifications for the results the sweep took out. */
  function Notifications(lost: seq<ScanResult>): (ts: seq<Task>)
    ensures |ts| == |lost| && forall i :: 0 <= i < |lost| ==> ts[i] == NotifyLost(lost[i])
  {
    seq(|lost|, i requires 0 <= i < |lost| => NotifyLost(lost[i]))
  }

  /**
   * The match-lost task: remove every device not seen since `now` minus the
   * timeout (in `Long` arithmetic), post a MATCH_LOST notification for each,
   * and run again after the task interval while devices remain.
   */
  function MatchLostRun(c: Config, s: Session, now: int, order: seq<Address>): Session
  {
    var sweep := Sweep(s.devicesInRange, order, WrapLong(now - c.matchLostDeviceTimeout));
    s.(devicesInRange := sweep.kept,
       pending := s.pending + Notifications(sweep.lost)
                  + (if sweep.kept != map[] then [MatchLostTask(c.matchLostTaskInterval)] else []))
  }

  /** The flush task: while running, flush and run again after the report delay. */
  function FlushTaskRun(c: Config, s: Session): Session
  {
    if s.stopped then s
    else
      var f := Flush(c, s);
      f.(pending := f.pending + [FlushTask(c.reportDelayMillis)])
  }

  /**
   * The Lollipop runnable for a native batch: a batch that comes less than
   * the report delay minus 5 ms after the last accepted one is dropped
   * (some phones report every batch twice); otherwise it is handled and
   * its time remembered.
   */
  function NativeBatchRun(c: Config, s: Session, results: seq<ScanResult>, now: int): Session
    requires AllWellFormed(c.filters)
  {
    if s.lastBatchTimestamp > WrapLong(WrapLong(now - c.reportDelayMillis) + 5) then s
    else HandleResults(c, s.(lastBatchTimestamp := now), results)
  }

  /** The queue without its `k`-th task. */
  function Dequeue(pending: seq<Task>, k: nat): (r: seq<Task>)
    requires k < |pending|
    ensures |r| == |pending| - 1
    ensures forall i :: 0 <= i < k ==> r[i] == pending[i]
    ensures forall i :: k <= i < |r| ==> r[i] == pending[i + 1]
  {
    pending[..k] + pending[k + 1..]
  }

  /**
   * The handler runs the `k`-th pending task; `now` is the clock when it
   * runs, `order` the order in which the match-lost sweep visits devices.
   * The match-lost task reads `now` in nanoseconds (`elapsedRealtimeNanos`),
   * a native batch in milliseconds (`elapsedRealtime`).
   */
  function RunTask(c: Config, s: Session, k: nat, now: int, order: seq<Address>): Session
    requires AllWellFormed(c.filters) && k < |s.pending|
  {
    Execute(c, s.(pending := Dequeue(s.pending, k)), s.pending[k], now, order)
  }

  /** What one task does once it has been taken off the queue. */
  function Execute(c: Config, s: Session, task: Task, now: int, order: seq<Address>): Session
    requires AllWellFormed(c.filters)
  {
    match task
    case FlushTask(_) => FlushTaskRun(c, s)
    case MatchLostTask(_) => MatchLostRun(c, s, now, order)
    case NotifyLost(r) => s.(events := s.events + [OnScanResult(Settings.CALLBACK_TYPE_MATCH_LOST, r)])
    case Deliver(callbackType, r) => HandleResult(c, s, callbackType, r)
    case NativeBatch(results) => NativeBatchRun(c, s, results, now)
  }

  // ---------------------------------------------------------------------
  // The invariant.

  lemma DevicesAppend(results: seq<ScanResult>, r: ScanResult)
    ensures Devices(results + [r]) == Devices(results) + {r.device}
  {
    assert (results + [r])[..|results|] == results;
  }

  /** A new wrapper satisfies the invariant. */
  lemma InitialInv(c: Config)
    ensures Inv(c, Initial(c))
  {
  }

  /** `handleScanResult` keeps the invariant. */
  lemma HandleResultInv(c: Config, s: Session, callbackType: Int32, r: ScanResult)
    requires AllWellFormed(c.filters) && Inv(c, s)
    ensures Inv(c, HandleResult(c, s, callbackType, r))
  {
    if !s.stopped && !(|c.filters| > 0 && !MatchesAny(c.filters, r)) && !c.emulateFoundOrLost
       && c.emulateBatching && r.device !in s.devicesInBatch {
      DevicesAppend(s.scanResults, r);
      DevicesOfResults(s.scanResults);
    }
  }

  /** Running any pending task keeps the invariant. */
  lemma RunTaskInv(c: Config, s: Session, k: nat, now: int, order: seq<Address>)
    requires AllWellFormed(c.filters) && k < |s.pending| && Inv(c, s)
    ensures Inv(c, RunTask(c, s, k, now, order))
  {
    var rest := s.(pending := Dequeue(s.pending, k));
    assert Inv(c, rest);
    ExecuteInv(c, rest, s.pending[k], now, order);
  }

  /** Every task keeps the invariant. */
  lemma ExecuteInv(c: Config, s: Session, task: Task, now: int, order: seq<Address>)
    requires AllWellFormed(c.filters) && Inv(c, s)
    ensures Inv(c, Execute(c, s, task, now, order))
  {
    match task
    case FlushTask(_) =>
    case MatchLostTask(_) => MatchLostRunInv(c, s, now, order);
    case NotifyLost(_) =>
    case Deliver(callbackType, r) => HandleResultInv(c, s, callbackType, r);
    case NativeBatch(_) =>
  }

  /** The match-lost task keeps the invariant; once stopped, it takes nothing out and posts nothing. */
  lemma MatchLostRunInv(c: Config, s: Session, now: int, order: seq<Address>)
    requires Inv(c, s)
    ensures Inv(c, MatchLostRun(c, s, now, order))
    ensures s.stopped ==> MatchLostRun(c, s, now, order) == s
  {
    var sweep := Sweep(s.devicesInRange, order, WrapLong(now - c.matchLostDeviceTimeout));
    SweepFacts(s.devicesInRange, order, WrapLong(now - c.matchLostDeviceTimeout));
    if sweep.kept != map[] {
      var a :| a in sweep.kept;
      assert a in s.devicesInRange;
    }
    if s.devicesInRange == map[] {
      SweepEmpty(order, WrapLong(now - c.matchLostDeviceTimeout));
      assert Notifications(sweep.lost) == [];
      assert s.pending + [] + [] == s.pending;
    }
  }

  /** A sweep of an empty map keeps nothing and loses nothing. */
  lemma {:induction false} SweepEmpty(order: seq<Address>, threshold: int)
    ensures Sweep(map[], order, threshold) == SweepResult(map[], [])
    decreases |order|
  {
    if order != [] {
      SweepEmpty(order[1..], threshold);
    }
  }

  /** The other entry points keep the invariant. */
  lemma OtherEntryPointsInv(c: Config, s: Session, results: seq<ScanResult>, errorCode: int)
    requires AllWellFormed(c.filters) && Inv(c, s)
    ensures Inv(c, HandleResults(c, s, results))
    ensures Inv(c, Flush(c, s))
    ensures Inv(c, Closed(s))
    ensures Inv(c, HandleError(s, errorCode))
  {
  }

  // ---------------------------------------------------------------------
  // After `close`.

  /** `close` stops the wrapper, keeps the invariant and tells the application nothing. */
  lemma CloseStops(c: Config, s: Session)
    requires Inv(c, s)
    ensures Inv(c, Closed(s)) && Closed(s).stopped && Closed(s).pending == []
    ensures Closed(s).events == s.events
  {
  }

  /**
   * Once stopped, a wrapper delivers nothing more, whatever the application
   * or the handler does, except scan errors: `handleScanError` has no
   * stopped check.
   */
  lemma StoppedIsSilent(c: Config, s: Session, callbackType: Int32, r: ScanResult, results: seq<ScanResult>,
                        k: nat, now: int, order: seq<Address>, errorCode: int)
    requires AllWellFormed(c.filters) && Inv(c, s) && s.stopped
    ensures HandleResult(c, s, callbackType, r) == s
    ensures HandleResults(c, s, results) == s
    ensures Flush(c, s) == s
    ensures k < |s.pending| ==> var t := RunTask(c, s, k, now, order);
      t.events == s.events && t.stopped && Inv(c, t)
    ensures HandleError(s, errorCode).events == s.events + [OnScanFailed(errorCode)]
  {
    if k < |s.pending| {
      RunTaskInv(c, s, k, now, order);
      assert !s.pending[k].NotifyLost?;
      if s.pending[k].MatchLostTask? {
        MatchLostRunInv(c, s.(pending := Dequeue(s.pending, k)), now, order);
      }
    }
  }

  // ---------------------------------------------------------------------
  // FIRST_MATCH / MATCH_LOST emulation.

  /** The result passes the filter check of `handleScanResult`. */
  predicate Passes(c: Config, r: ScanResult)
    requires AllWellFormed(c.filters)
  {
    |c.filters| == 0 || MatchesAny(c.filters, r)
  }

  /**
   * With filters present, a result that no filter matches is ignored,
   * whether filtering is emulated or was left to the controller.
   */
  lemma UnmatchedResultIgnored(c: Config, s: Session, callbackType: Int32, r: ScanResult)
    requires AllWellFormed(c.filters) && |c.filters| > 0
    requires forall i :: 0 <= i < |c.filters| ==> !ScanFilters.Matches(c.filters[i], Some(r))
    ensures HandleResult(c, s, callbackType, r) == s
  {
    MatchesAnyIffSomeFilter(c.filters, r);
  }

  /** With neither found/lost nor batching emulated, a result goes to the application at once, with its callback type. */
  lemma PlainResultDelivered(c: Config, s: Session, callbackType: Int32, r: ScanResult)
    requires AllWellFormed(c.filters) && !s.stopped && Passes(c, r)
    requires !c.emulateFoundOrLost && !c.emulateBatching
    ensures HandleResult(c, s, callbackType, r) == s.(events := s.events + [OnScanResult(callbackType, r)])
  {
  }

  /**
   * In found/lost mode the first sighting of a device is reported as
   * FIRST_MATCH when the callback type asks for it, and stored; the
   * match-lost task is armed (once) when the map was empty and MATCH_LOST
   * is asked for.
   */
  lemma FirstSightingReported(c: Config, s: Session, callbackType: Int32, r: ScanResult)
    requires AllWellFormed(c.filters) && !s.stopped && c.emulateFoundOrLost && Passes(c, r)
    requires r.device !in s.devicesInRange
    ensures var t := HandleResult(c, s, callbackType, r);
      t.devicesInRange == s.devicesInRange[r.device := r]
      && t.events == s.events + (if c.callbackType & Settings.CALLBACK_TYPE_FIRST_MATCH != 0
                                 then [OnScanResult(Settings.CALLBACK_TYPE_FIRST_MATCH, r)] else [])
      && (s.devicesInRange == map[] && c.callbackType & Settings.CALLBACK_TYPE_MATCH_LOST != 0 ==>
            t.pending[|t.pending| - 1] == MatchLostTask(c.matchLostTaskInterval)
            && forall i :: 0 <= i < |t.pending| - 1 ==> !t.pending[i].MatchLostTask?)
      && (s.devicesInRange != map[] || c.callbackType & Settings.CALLBACK_TYPE_MATCH_LOST == 0 ==> t.pending == s.pending)
  {
  }

  /** A later sighting of a device in range replaces the stored result and reports nothing. */
  lemma RepeatSightingIsSilent(c: Config, s: Session, callbackType: Int32, r: ScanResult)
    requires AllWellFormed(c.filters) && !s.stopped && c.emulateFoundOrLost && Passes(c, r)
    requires r.device in s.devicesInRange
    ensures var t := HandleResult(c, s, callbackType, r);
      t.devicesInRange == s.devicesInRange[r.device := r] && t.events == s.events && t.pending == s.pending
  {
  }

  /**
   * The sweep keeps exactly the devices seen at or after the threshold and
   * takes out every other one, when it visits every device.
   */
  lemma SweepSplitsByAge(range: map<Address, ScanResult>, order: seq<Address>, threshold: int)
    requires forall a :: a in range ==> a in order
    ensures Sweep(range, order, threshold).kept == map a | a in range && range[a].timestampNanos >= threshold :: range[a]
    ensures forall a :: a in range && range[a].timestampNanos < threshold ==> range[a] in Sweep(range, order, threshold).lost
  {
    SweepFacts(range, order, threshold);
  }

  /** The sweep of a single expired device takes it out. */
  lemma SweepSingle(r: ScanResult, threshold: int)
    requires r.timestampNanos < threshold
    ensures Sweep(map[r.device := r], [r.device], threshold) == SweepResult(map[], [r])
  {
    var m := map[r.device := r];
    assert m - {r.device} == map[];
    assert Sweep(m - {r.device}, [], threshold) == SweepResult(map[], []);
  }

  /**
   * The scenario the emulation exists for: a device is reported as
   * FIRST_MATCH, the match-lost task runs after the device was last seen
   * longer ago than the timeout, and the device is reported as MATCH_LOST.
   */
  lemma FoundThenLost(c: Config, r: ScanResult, now: int)
    requires AllWellFormed(c.filters) && c.filters == [] && c.emulateFoundOrLost
    requires c.callbackType == Settings.CALLBACK_TYPE_FIRST_MATCH | Settings.CALLBACK_TYPE_MATCH_LOST
    requires r.timestampNanos < WrapLong(now - c.matchLostDeviceTimeout)
    ensures var s1 := HandleResult(c, Initial(c), Settings.CALLBACK_TYPE_ALL_MATCHES, r);
      s1.events == [OnScanResult(Settings.CALLBACK_TYPE_FIRST_MATCH, r)]
      && |s1.pending| > 0 && s1.pending[|s1.pending| - 1] == MatchLostTask(c.matchLostTaskInterval)
      && var s2 := RunTask(c, s1, |s1.pending| - 1, now, [r.device]);
         s2.devicesInRange == map[] && s2.pending == Initial(c).pending + [NotifyLost(r)]
         && var s3 := RunTask(c, s2, |s2.pending| - 1, now, []);
            s3.events == [OnScanResult(Settings.CALLBACK_TYPE_FIRST_MATCH, r),
                          OnScanResult(Settings.CALLBACK_TYPE_MATCH_LOST, r)]
  {
    var s0 := Initial(c);
    var found := OnScanResult(Settings.CALLBACK_TYPE_FIRST_MATCH, r);
    var s1 := HandleResult(c, s0, Settings.CALLBACK_TYPE_ALL_MATCHES, r);
    FirstMatchStep(c, r);
    assert s1.events == [found];
    var n := |s1.pending| - 1;
    assert s1.pending[n] == MatchLostTask(c.matchLostTaskInterval);
    assert s1.pending[..n] == s0.pending;
    LostAfterFound(c, s1, r, now);
    var s2 := RunTask(c, s1, n, now, [r.device]);
    assert s2.pending == s0.pending + [NotifyLost(r)];
    var s3 := RunTask(c, s2, |s2.pending| - 1, now, []);
    assert s3.events == [found] + [OnScanResult(Settings.CALLBACK_TYPE_MATCH_LOST, r)];
  }

  /**
   * The two tasks after the first sighting: the match-lost task takes the
   * expired device out and posts its loss, which then reaches the application.
   */
  lemma LostAfterFound(c: Config, s: Session, r: ScanResult, now: int)
    requires AllWellFormed(c.filters)
    requires |s.pending| > 0 && s.pending[|s.pending| - 1].MatchLostTask?
    requires s.devicesInRange == map[r.device := r]
    requires r.timestampNanos < WrapLong(now - c.matchLostDeviceTimeout)
    ensures var s2 := RunTask(c, s, |s.pending| - 1, now, [r.device]);
      s2.devicesInRange == map[] && s2.pending == s.pending[..|s.pending| - 1] + [NotifyLost(r)]
      && var s3 := RunTask(c, s2, |s2.pending| - 1, now, []);
         s3.events == s.events + [OnScanResult(Settings.CALLBACK_TYPE_MATCH_LOST, r)]
  {
    MatchLostStep(c, s, r, now);
    var s2 := RunTask(c, s, |s.pending| - 1, now, [r.device]);
    NotifyLostStep(c, s2, r, now);
  }

  /** FIRST_MATCH on a new wrapper: the device enters the map, is reported, and the match-lost task is armed. */
  lemma FirstMatchStep(c: Config, r: ScanResult)
    requires AllWellFormed(c.filters) && c.filters == [] && c.emulateFoundOrLost
    requires c.callbackType == Settings.CALLBACK_TYPE_FIRST_MATCH | Settings.CALLBACK_TYPE_MATCH_LOST
    ensures HandleResult(c, Initial(c), Settings.CALLBACK_TYPE_ALL_MATCHES, r)
         == Initial(c).(devicesInRange := map[r.device := r],
                        events := [OnScanResult(Settings.CALLBACK_TYPE_FIRST_MATCH, r)],
                        pending := Initial(c).pending + [MatchLostTask(c.matchLostTaskInterval)])
  {
    var s0 := Initial(c);
    assert WithoutMatchLost(s0.pending) == s0.pending;
  }

  /** The match-lost task run with one expired device in the map: it is taken out and its loss posted. */
  lemma MatchLostStep(c: Config, s: Session, r: ScanResult, now: int)
    requires AllWellFormed(c.filters)
    requires |s.pending| > 0 && s.pending[|s.pending| - 1].MatchLostTask?
    requires s.devicesInRange == map[r.device := r]
    requires r.timestampNanos < WrapLong(now - c.matchLostDeviceTimeout)
    ensures RunTask(c, s, |s.pending| - 1, now, [r.device])
         == s.(devicesInRange := map[], pending := s.pending[..|s.pending| - 1] + [NotifyLost(r)])
  {
    SweepSingle(r, WrapLong(now - c.matchLostDeviceTimeout));
    assert Dequeue(s.pending, |s.pending| - 1) == s.pending[..|s.pending| - 1];
    assert Notifications([r]) == [NotifyLost(r)];
  }

  /** The posted MATCH_LOST notification, run, reaches the application. */
  lemma NotifyLostStep(c: Config, s: Session, r: ScanResult, now: int)
    requires AllWellFormed(c.filters)
    requires |s.pending| > 0 && s.pending[|s.pending| - 1] == NotifyLost(r)
    ensures RunTask(c, s, |s.pending| - 1, now, [])
         == s.(pending := s.pending[..|s.pending| - 1],
               events := s.events + [OnScanResult(Settings.CALLBACK_TYPE_MATCH_LOST, r)])
  {
    assert Dequeue(s.pending, |s.pending| - 1) == s.pending[..|s.pending| - 1];
  }

  // ---------------------------------------------------------------------
  // Batching emulation.

  /**
   * The results of a list that `handleScanResult` buffers: the first one of
   * each device not yet in the batch.
   */
  function FirstSightings(results: seq<ScanResult>, seen: set<Address>): seq<ScanResult>
  {
    if results == [] then []
    else if results[0].device in seen then FirstSightings(results[1..], seen)
    else [results[0]] + FirstSightings(results[1..], seen + {results[0].device})
  }

  /**
   * The buffered results are results of the list, of new devices, one per
   * device; and the first result of every new device is among them.
   */
  lemma {:induction false} FirstSightingsAreFirst(results: seq<ScanResult>, seen: set<Address>)
    ensures var r := FirstSightings(results, seen);
      (forall i :: 0 <= i < |r| ==> r[i] in results && r[i].device !in seen)
      && DistinctDevices(r)
      && forall i :: 0 <= i < |results| && results[i].device !in seen && IsFirstOfDevice(results, i) ==> results[i] in r
    decreases |results|
  {
    if results != [] {
      var x := results[0];
      var tail := results[1..];
      assert forall i :: 1 <= i < |results| ==> results[i] == tail[i - 1];
      if x.device in seen {
        FirstSightingsAreFirst(tail, seen);
        forall i | 1 <= i < |results| && results[i].device !in seen && IsFirstOfDevice(results, i)
          ensures IsFirstOfDevice(tail, i - 1)
        {
          forall j | 0 <= j < i - 1 ensures tail[j].device != tail[i - 1].device {
            assert tail[j] == results[j + 1];
          }
        }
      } else {
        var seen' := seen + {x.device};
        FirstSightingsAreFirst(tail, seen');
        var rest := FirstSightings(tail, seen');
        assert FirstSightings(results, seen) == [x] + rest;
        forall i | 1 <= i < |results| && results[i].device !in seen && IsFirstOfDevice(results, i)
          ensures results[i] in rest
        {
          assert results[0].device != results[i].device;
          forall j | 0 <= j < i - 1 ensures tail[j].device != tail[i - 1].device {
            assert tail[j] == results[j + 1];
          }
          assert IsFirstOfDevice(tail, i - 1);
        }
      }
    }
  }

  /** No earlier result of the list is of the same device as result `i`. */
  predicate IsFirstOfDevice(results: seq<ScanResult>, i: nat)
    requires i < |results|
  {
    forall j :: 0 <= j < i ==> results[j].device != results[i].device
  }

  /** One result in batch mode: buffered when its device is new to the batch, dropped otherwise. */
  lemma BatchStep(c: Config, s: Session, callbackType: Int32, x: ScanResult)
    requires AllWellFormed(c.filters) && !s.stopped && Passes(c, x)
    requires c.emulateBatching && !c.emulateFoundOrLost
    ensures HandleResult(c, s, callbackType, x)
         == if x.device in s.devicesInBatch then s
            else s.(scanResults := s.scanResults + [x], devicesInBatch := s.devicesInBatch + {x.device})
  {
  }

  /** `handleScanResult` applied to each result in turn, with the same callback type. */
  function HandleAll(c: Config, s: Session, callbackType: Int32, results: seq<ScanResult>): Session
    requires AllWellFormed(c.filters)
    decreases |results|
  {
    if results == [] then s else HandleAll(c, HandleResult(c, s, callbackType, results[0]), callbackType, results[1..])
  }

  /**
   * With batching emulated (and all matches wanted), a stream of matching
   * results fills the buffer with the first sighting of each new device, in
   * arrival order, and delivers nothing.
   */
  lemma {:induction false} BatchKeepsFirstSightings(c: Config, s: Session, callbackType: Int32, results: seq<ScanResult>)
    requires AllWellFormed(c.filters) && !s.stopped
    requires c.emulateBatching && !c.emulateFoundOrLost
    requires forall i :: 0 <= i < |results| ==> Passes(c, results[i])
    ensures var t := HandleAll(c, s, callbackType, results);
      t.scanResults == s.scanResults + FirstSightings(results, s.devicesInBatch)
      && t.events == s.events && t.pending == s.pending && !t.stopped
    decreases |results|
  {
    if results != [] {
      var x := results[0];
      var tail := results[1..];
      var s1 := HandleResult(c, s, callbackType, x);
      BatchStep(c, s, callbackType, x);
      assert forall i :: 0 <= i < |tail| ==> tail[i] == results[i + 1];
      BatchKeepsFirstSightings(c, s1, callbackType, tail);
      assert HandleAll(c, s, callbackType, results) == HandleAll(c, s1, callbackType, tail);
      if x.device !in s.devicesInBatch {
        assert FirstSightings(results, s.devicesInBatch) == [x] + FirstSightings(tail, s1.devicesInBatch);
        assert s.scanResults + [x] + FirstSightings(tail, s1.devicesInBatch)
            == s.scanResults + ([x] + FirstSightings(tail, s1.devicesInBatch));
      } else {
        assert FirstSightings(results, s.devicesInBatch) == FirstSightings(tail, s.devicesInBatch);
      }
    }
  }

  /**
   * A flush delivers the whole buffer as one batch and empties it, so that
   * a device seen again afterwards starts a new batch; a flush of an empty
   * buffer still delivers an empty batch.
   */
  lemma FlushDeliversBuffer(c: Config, s: Session)
    requires c.emulateBatching && !s.stopped
    ensures var t := Flush(c, s);
      t.events == s.events + [OnBatchScanResults(s.scanResults)]
      && t.scanResults == [] && t.devicesInBatch == {} && t.pending == s.pending
      && Flush(c, t).events == t.events + [OnBatchScanResults([])]
  {
  }

  /** Without batching emulated, a flush does nothing. */
  lemma FlushWithoutBatchingIsNoop(c: Config, s: Session)
    requires !c.emulateBatching
    ensures Flush(c, s) == s
  {
  }

  /**
   * Lollipop's double-batch guard: after a batch accepted at `first`, a
   * batch at `second` is dropped exactly when it comes less than the report
   * delay minus 5 ms later (clock and delay far from overflow).
   */
  lemma SecondBatchDropped(c: Config, s: Session, b1: seq<ScanResult>, b2: seq<ScanResult>, first: int, second: int)
    requires AllWellFormed(c.filters) && !s.stopped
    requires 0 <= first <= second <= MAX_LONG / 4 && 0 <= c.reportDelayMillis <= MAX_LONG / 4
    requires s.lastBatchTimestamp <= first - c.reportDelayMillis + 5
    ensures var t := NativeBatchRun(c, s, b1, first);
      t.lastBatchTimestamp == first
      && |t.events| == |s.events| + 1
      && (NativeBatchRun(c, t, b2, second) == t <==> second - first < c.reportDelayMillis - 5)
  {
  }

  // ---------------------------------------------------------------------
  // The wrapper object.

  /**
   * A scanner's `wrappers` registry: every wrapper keeps its invariant and
   * is registered under its own callback (so no wrapper is registered twice).
   */
  ghost predicate RegistryValid(wrappers: map<CallbackId, ScanCallbackWrapper>)
    reads wrappers.Values
  {
    forall id :: id in wrappers ==> wrappers[id].Valid() && wrappers[id].callback == id
  }

  /** Removing a key and adding it again is overwriting it. */
  lemma Reregistered(m: map<CallbackId, ScanCallbackWrapper>, k: CallbackId, v: ScanCallbackWrapper)
    ensures (m - {k})[k := v] == m[k := v]
  {
  }

  /** Removing a key that is absent changes nothing. */
  lemma Unregistered(m: map<CallbackId, ScanCallbackWrapper>, k: CallbackId)
    requires k !in m
    ensures m - {k} == m
  {
  }

  /** A valid wrapper registered under its own callback keeps the registry valid. */
  lemma RegistryAdd(m: map<CallbackId, ScanCallbackWrapper>, k: CallbackId, w: ScanCallbackWrapper)
    requires RegistryValid(m) && w.Valid() && w.callback == k
    ensures RegistryValid(m[k := w])
  {
  }

  /** The keys of a map in some order, each once: the iteration order of a `HashMap` is not specified. */
  method KeysOf(m: map<Address, ScanResult>) returns (keys: seq<Address>)
    ensures forall a :: a in keys <==> a in m
    ensures forall i, j :: 0 <= i < j < |keys| ==> keys[i] != keys[j]
  {
    keys := [];
    var rest := m.Keys;
    while rest != {}
      invariant rest <= m.Keys
      invariant forall a :: a in keys <==> a in m && a !in rest
      invariant forall i, j :: 0 <= i < j < |keys| ==> keys[i] != keys[j]
      decreases |rest|
    {
      var a :| a in rest;
      keys := keys + [a];
      rest := rest - {a};
    }
  }

  /**
   * The iterator loop of the match-lost task: the devices visited in
   * `order`, each one seen before `threshold` removed and collected.
   */
  method SweepLoop(range0: map<Address, ScanResult>, order: seq<Address>, threshold: int)
    returns (range: map<Address, ScanResult>, lost: seq<ScanResult>)
    requires forall a :: a in order ==> a in range0
    requires forall i, j :: 0 <= i < j < |order| ==> order[i] != order[j]
    ensures SweepResult(range, lost) == Sweep(range0, order, threshold)
  {
    range := range0;
    lost := [];
    var i := 0;
    while i < |order|
      invariant 0 <= i <= |order|
      invariant forall j :: i <= j < |order| ==> order[j] in range
      invariant Sweep(range0, order, threshold)
             == SweepResult(Sweep(range, order[i..], threshold).kept, lost + Sweep(range, order[i..], threshold).lost)
    {
      var a := order[i];
      assert order[i..][1..] == order[i + 1..];
      var result := range[a];
      if result.timestampNanos < threshold {
        range := range - {a};
        lost := lost + [result];
      }
      i := i + 1;
    }
    assert order[i..] == [];
  }

  /**
   * `ScanCallbackWrapper`. Its handler is the queue `pending`, its
   * application callback the log `events`; `lastBatchTimestamp` is the
   * field of the Lollipop native callback that belongs to this wrapper.
   */
  class ScanCallbackWrapper {
    const config: Config
    /** The application callback the events go to. */
    const callback: CallbackId
    /** The settings object the wrapper was started with, shared with the application and the scanner. */
    const settings: Settings.ScanSettings
    var stopped: bool
    var scanResults: seq<ScanResult>
    var devicesInBatch: set<Address>
    var devicesInRange: map<Address, ScanResult>
    var pending: seq<Task>
    var events: seq<Event>
    var lastBatchTimestamp: int

    function State(): Session
      reads this
    {
      Session(stopped, scanResults, devicesInBatch, devicesInRange, pending, events, lastBatchTimestamp)
    }

    predicate Valid()
      reads this
    {
      AllWellFormed(config.filters) && Inv(config, State())
    }

    /** The constructor: the emulation flags, and the flush task armed when batching is emulated. */
    constructor (offloadedBatchingSupported: bool, offloadedFilteringSupported: bool, callbackTypesSupported: bool,
                 filters: seq<ScanFilters.ScanFilter>, settings: Settings.ScanSettings, callback: CallbackId)
      requires AllWellFormed(filters)
      ensures this.settings == settings && this.callback == callback
      ensures config == MakeConfig(offloadedBatchingSupported, offloadedFilteringSupported, callbackTypesSupported,
                                   filters, settings)
      ensures Valid() && State() == Initial(config)
    {
      var emulateFoundOrLost := settings.callbackType != Settings.CALLBACK_TYPE_ALL_MATCHES
        && (!callbackTypesSupported || !settings.useHardwareCallbackTypesIfSupported);
      var emulateFiltering := |filters| > 0
        && (!offloadedFilteringSupported || !settings.useHardwareFilteringIfSupported);
      var delay := settings.reportDelayMillis;
      var emulateBatching := delay > 0
        && (!offloadedBatchingSupported || !settings.useHardwareBatchingIfSupported);
      config := Config(filters, settings.callbackType, delay, settings.matchLostDeviceTimeout,
                       settings.matchLostTaskInterval, emulateFiltering, emulateBatching, emulateFoundOrLost);
      this.settings := settings;
      this.callback := callback;
      stopped := false;
      scanResults := [];
      devicesInBatch := {};
      devicesInRange := map[];
      events := [];
      lastBatchTimestamp := 0;
      pending := if emulateBatching then [FlushTask(delay)] else [];
      new;
      InitialInv(config);
    }

    /** The private `matches`: the filters tried in order until one matches. */
    method Matches(r: ScanResult) returns (b: bool)
      requires AllWellFormed(config.filters)
      ensures b == MatchesAny(config.filters, r)
    {
      var i := 0;
      while i < |config.filters|
        invariant 0 <= i <= |config.filters|
        invariant MatchesAny(config.filters, r) == MatchesAny(config.filters[i..], r)
      {
        assert config.filters[i..][1..] == config.filters[i + 1..];
        if ScanFilters.Matches(config.filters[i], Some(r)) {
          return true;
        }
        i := i + 1;
      }
      return false;
    }

    method HandleScanResult(callbackType: Int32, r: ScanResult)
      requires Valid()
      modifies this
      ensures Valid() && State() == HandleResult(config, old(State()), callbackType, r)
    {
      ghost var s0 := State();
      HandleResultInv(config, s0, callbackType, r);
      var passes := true;
      if !stopped && |config.filters| > 0 {
        passes := Matches(r);
      }
      if !stopped && passes {
        if config.emulateFoundOrLost {
          var firstResult := devicesInRange == map[];
          var previous := r.device in devicesInRange;
          devicesInRange := devicesInRange[r.device := r];
          if !previous && config.callbackType & Settings.CALLBACK_TYPE_FIRST_MATCH != 0 {
            events := events + [OnScanResult(Settings.CALLBACK_TYPE_FIRST_MATCH, r)];
          }
          if firstResult && config.callbackType & Settings.CALLBACK_TYPE_MATCH_LOST != 0 {
            pending := WithoutMatchLost(pending) + [MatchLostTask(config.matchLostTaskInterval)];
          }
        } else if config.emulateBatching {
          if r.device !in devicesInBatch {
            scanResults := scanResults + [r];
            devicesInBatch := devicesInBatch + {r.device};
          }
        } else {
          events := events + [OnScanResult(callbackType, r)];
        }
      }
      assert State() == HandleResult(config, s0, callbackType, r);
    }

    method HandleScanResults(results: seq<ScanResult>)
      requires Valid()
      modifies this
      ensures Valid() && State() == HandleResults(config, old(State()), results)
    {
      OtherEntryPointsInv(config, State(), results, 0);
      if stopped {
        return;
      }
      var filtered := results;
      if config.emulateFiltering {
        filtered := FilterMatching(results);
      }
      events := events + [OnBatchScanResults(filtered)];
    }

    /** The loop of `handleScanResults` that keeps the results some filter matches. */
    method FilterMatching(results: seq<ScanResult>) returns (filtered: seq<ScanResult>)
      requires AllWellFormed(config.filters)
      ensures filtered == FilterResults(config.filters, results)
    {
      filtered := [];
      var i := 0;
      while i < |results|
        invariant 0 <= i <= |results|
        invariant filtered + FilterResults(config.filters, results[i..]) == FilterResults(config.filters, results)
      {
        assert results[i..][1..] == results[i + 1..];
        var m := Matches(results[i]);
        if m {
          filtered := filtered + [results[i]];
        }
        i := i + 1;
      }
      assert results[i..] == [];
    }

    method FlushPendingScanResults()
      requires Valid()
      modifies this
      ensures Valid() && State() == Flush(config, old(State()))
    {
      OtherEntryPointsInv(config, State(), [], 0);
      if config.emulateBatching && !stopped {
        events := events + [OnBatchScanResults(scanResults)];
        scanResults := [];
        devicesInBatch := {};
      }
    }

    method Close()
      requires Valid()
      modifies this
      ensures Valid() && State() == Closed(old(State()))
    {
      CloseStops(config, State());
      stopped := true;
      pending := [];
      devicesInRange := map[];
      devicesInBatch := {};
      scanResults := [];
    }

    method HandleScanError(errorCode: int)
      requires Valid()
      modifies this
      ensures Valid() && State() == HandleError(old(State()), errorCode)
    {
      OtherEntryPointsInv(config, State(), [], errorCode);
      events := events + [OnScanFailed(errorCode)];
    }

    /** A scanner posts a runnable on the wrapper's handler: a native result or a native batch. */
    method Post(task: Task)
      requires Valid() && (task.Deliver? || task.NativeBatch?)
      modifies this
      ensures Valid() && State() == old(State()).(pending := old(pending) + [task])
    {
      pending := pending + [task];
    }

    /**
     * The body of the match-lost task, once it has left the queue: the
     * iterator loop over the map, in the order `KeysOf` gives, then the
     * task posted again while devices remain.
     */
    method MatchLostSweep(now: int) returns (order: seq<Address>)
      requires Valid()
      modifies this
      ensures Valid() && State() == MatchLostRun(config, old(State()), now, order)
      ensures forall a :: a in order <==> a in old(devicesInRange)
    {
      ghost var s0 := State();
      order := KeysOf(devicesInRange);
      MatchLostRunInv(config, s0, now, order);
      var lost;
      devicesInRange, lost := SweepLoop(devicesInRange, order, WrapLong(now - config.matchLostDeviceTimeout));
      pending := pending + Notifications(lost)
                 + if devicesInRange != map[] then [MatchLostTask(config.matchLostTaskInterval)] else [];
      assert State() == MatchLostRun(config, s0, now, order);
    }

    /**
     * The handler runs its `k`-th pending runnable at time `now`; `order`
     * is the order in which a match-lost sweep visited the devices. `now` is
     * in nanoseconds for a match-lost task and in milliseconds for a native batch.
     */
    method RunPending(k: nat, now: int) returns (order: seq<Address>)
      requires Valid() && k < |pending|
      modifies this
      ensures Valid() && State() == RunTask(config, old(State()), k, now, order)
      ensures old(pending)[k].MatchLostTask? ==> forall a :: a in order <==> a in old(devicesInRange)
    {
      ghost var s0 := State();
      var task := pending[k];
      pending := Dequeue(pending, k);
      assert State() == s0.(pending := Dequeue(s0.pending, k));
      order := Run(task, now);
    }

    /** One task taken off the queue, run: the flush, the match-lost sweep or a posted callback. */
    method Run(task: Task, now: int) returns (order: seq<Address>)
      requires AllWellFormed(config.filters) && Inv(config, State())
      modifies this
      ensures Valid() && State() == Execute(config, old(State()), task, now, order)
      ensures task.MatchLostTask? ==> forall a :: a in order <==> a in old(devicesInRange)
    {
      ghost var s0 := State();
      order := [];
      match task
      case FlushTask(_) =>
        RunFlushTask();
      case MatchLostTask(_) =>
        order := MatchLostSweep(now);
      case NotifyLost(r) =>
        events := events + [OnScanResult(Settings.CALLBACK_TYPE_MATCH_LOST, r)];
      case Deliver(callbackType, r) =>
        HandleScanResult(callbackType, r);
      case NativeBatch(results) =>
        RunNativeBatch(results, now);
      ExecuteInv(config, s0, task, now, order);
    }

    /** The flush task: unless stopped, the buffer is flushed and the task posted again. */
    method RunFlushTask()
      requires AllWellFormed(config.filters) && Inv(config, State())
      modifies this
      ensures State() == FlushTaskRun(config, old(State()))
    {
      ghost var s0 := State();
      if !stopped {
        FlushPendingScanResults();
        pending := pending + [FlushTask(config.reportDelayMillis)];
      }
      assert State() == FlushTaskRun(config, s0);
    }

    /**
     * `onBatchScanResults` on the handler: a batch that follows the previous
     * one by no more than the report delay less 5 ms is a duplicate and dropped.
     */
    method RunNativeBatch(results: seq<ScanResult>, now: int)
      requires AllWellFormed(config.filters) && Inv(config, State())
      modifies this
      ensures State() == NativeBatchRun(config, old(State()), results, now)
    {
      ghost var s0 := State();
      if lastBatchTimestamp <= WrapLong(WrapLong(now - config.reportDelayMillis) + 5) {
        lastBatchTimestamp := now;
        HandleScanResults(results);
      }
      assert State() == NativeBatchRun(config, s0, results, now);
    }
  }
}
