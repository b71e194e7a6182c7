/** TrackingFrame: the hidden tracking page and its dispatch engine. Events
    are queued in a RequestQueue and drained in batches by a timer while the
    page is loaded, tracking is enabled and the device may send. The page's
    navigation outcome, the timer ticks, connectivity changes and the
    application's suspend/resume are method calls here; the device's
    connectivity and power state are passed in with each call. */
module Tracking {
  import opened Wrappers
  import opened Text
  import opened Queue
  import opened Config

  /** WebViewStatus. */
  datatype WebViewStatus = Unknown | Loading | Loaded | Failure | Disabled

  datatype TrackingMode = Enabled | Deferred | Disabled

  /** What ConnectionUtility reports during one event. */
  datatype DeviceState = DeviceState(isOnline: bool, isOnWiFi: bool, isBatterySaver: bool)

  /** The result of evaluating the page's settings script: its text and the
      JSON object that text parses to. */
  datatype ScriptResult = ScriptResult(text: string, document: map<string, Json>)

  /** Everything a TrackingFrame holds that its rules depend on. A config
      of None is the null config before the page first loaded. */
  datatype FrameState = FrameState(status: WebViewStatus, config: Option<VersionConfig>, queue: QueueState, timerEnabled: bool)

  /** TrackingFrame.IsEnabled: no config yet, or an enabled one. */
  predicate IsFrameEnabled(config: Option<VersionConfig>) {
    config.None? || config.value.isEnabled
  }

  /** GetTrackingMode. Without a config, Wi-Fi-only sending is off and the
      battery saver is respected. */
  function GetTrackingMode(config: Option<VersionConfig>, d: DeviceState): (m: TrackingMode)
    ensures m == TrackingMode.Disabled <==> config.Some? && !config.value.isEnabled
    ensures m == TrackingMode.Enabled <==>
      && IsFrameEnabled(config)
      && d.isOnline
      && (config.None? || !config.value.wifiOnlySending || d.isOnWiFi)
      && !((config.None? || config.value.batterySaver) && d.isBatterySaver)
  {
    if !IsFrameEnabled(config) then TrackingMode.Disabled
    else
      var online := d.isOnline && (config.None? || !config.value.wifiOnlySending || d.isOnWiFi);
      var conserve := (config.None? || config.value.batterySaver) && d.isBatterySaver;
      if online && !conserve then TrackingMode.Enabled else TrackingMode.Deferred
  }

  /** What the frame looks like after ProcessRequestQueue: the timer starts
      only when the page is loaded, the mode is Enabled, the timer is not
      already running and the queue holds live entries; a failed page is
      reopened when the device is online. */
  function Processed(f: FrameState, d: DeviceState, now: int): FrameState {
    if f.status != Loaded || GetTrackingMode(f.config, d) != TrackingMode.Enabled || f.timerEnabled then
      if f.status == Failure && d.isOnline then f.(status := Loading) else f
    else
      var live := Purged(f.queue, now);
      if live.entries == [] then f.(queue := live) else f.(queue := live, timerEnabled := true)
  }

  /** TrackEvent: dropped when the config disables tracking; otherwise
      queued and then processed. */
  function AfterTrackEvent(f: FrameState, script: string, d: DeviceState, now: int): FrameState {
    if !IsFrameEnabled(f.config) then f
    else Processed(f.(queue := Enqueued(f.queue, script, now)), d, now)
  }

  /** What LoadVersionConfig reads: the parsed settings, the default when
      the script gave nothing or only white space, or MissingVersion when
      Parse throws. */
  function LoadedConfig(result: Option<ScriptResult>): ParseResult {
    if result.Some? && !IsBlank(result.value.text) then Parse(result.value.document) else Parsed(Default)
  }

  /** LoadVersionConfig once the config `c` is read: adopt it, then resize
      the queue to its offline dispatch limit and dispatch expiration. */
  function AfterLoadVersionConfig(f: FrameState, c: VersionConfig, now: int): FrameState {
    f.(config := Some(c), queue := AfterReset(f.queue, c.offlineDispatchLimit, c.dispatchExpiration, now))
  }

  /** NavigationCompleted: a failed navigation marks the page as failed; a
      successful one loads the config and then enables the page (and
      processes the queue) or disables it. When Parse throws, the exception
      leaves the handler before anything is assigned. */
  function AfterNavigation(f: FrameState, success: bool, result: Option<ScriptResult>, d: DeviceState, now: int): FrameState {
    if !success then f.(status := Failure)
    else match LoadedConfig(result)
      case MissingVersion => f
      case Parsed(c) =>
        var g := AfterLoadVersionConfig(f, c, now);
        if c.isEnabled then Processed(g.(status := Loaded), d, now)
        else g.(status := WebViewStatus.Disabled)
  }

  /** ConnectionStatusChanged: only while online, reopen a page that never
      loaded or failed, and process the queue of a loaded page. */
  function AfterConnectionChange(f: FrameState, d: DeviceState, now: int): FrameState {
    if !d.isOnline then f
    else if f.status == Unknown || f.status == Failure then f.(status := Loading)
    else if f.status == Loaded then Processed(f, d, now)
    else f
  }

  /** The queue after `k` successive TryDequeue calls, and the payloads they
      handed out, in order. */
  function Drain(q: QueueState, k: int, now: int): (QueueState, seq<string>)
    decreases if k < 0 then 0 else k
  {
    if k <= 0 then (q, [])
    else
      var step := Dequeued(q, now);
      var rest := Drain(step.0, k - 1, now);
      (rest.0, Taken(step.1) + rest.1)
  }

  /** The payload a TryDequeue handed out, if any. */
  function Taken(v: Option<string>): seq<string> {
    if v.Some? then [v.value] else []
  }

  /** The payloads joined into one script. */
  function Concat(ss: seq<string>): string {
    if ss == [] then "" else ss[0] + Concat(ss[1..])
  }

  /** One timer tick: the timer stops when the live queue is empty, holds
      fewer entries than a batch, or the device is offline; in every case
      up to a batch of payloads is dequeued and, unless blank, sent as one
      script (the second result). */
  function AfterTick(f: FrameState, d: DeviceState, now: int): (FrameState, Option<string>)
    requires f.config.Some?
  {
    var batchSize := f.config.value.eventBatchSize;
    var live := Purged(f.queue, now);
    var stop := live.entries == [] || |live.entries| < batchSize || !d.isOnline;
    var (q, taken) := Drain(live, batchSize, now);
    var batch := Concat(taken);
    (f.(queue := q, timerEnabled := f.timerEnabled && !stop), if IsBlank(batch) then None else Some(batch))
  }

  /** LoadPersistedQueue: the saved payloads, if any, enqueued in order. */
  function Restored(f: FrameState, saved: Option<seq<string>>, now: int): FrameState {
    if saved.Some? && |saved.value| > 0 then f.(queue := EnqueueAll(f.queue, saved.value, now)) else f
  }

  /** A new frame: status Unknown, no config, a default queue holding the
      saved payloads, and the page opened when the device is online. */
  function Initial(isOnline: bool, saved: Option<seq<string>>, now: int): FrameState {
    var g := Restored(FrameState(Unknown, None, QueueState([], 0, -1), false), saved, now);
    if isOnline then g.(status := Loading) else g
  }

  /** A running timer, a loaded page and a disabled page all come with a
      config, whose enablement matches the status. */
  predicate ValidState(f: FrameState) {
    && ((f.timerEnabled || f.status == Loaded || f.status == WebViewStatus.Disabled) ==> f.config.Some?)
    && (f.status == Loaded ==> f.config.value.isEnabled)
    && (f.status == WebViewStatus.Disabled ==> !f.config.value.isEnabled)
  }

  class TrackingFrame {
    var status: WebViewStatus
    var config: Option<VersionConfig>
    var timerEnabled: bool
    const queue: RequestQueue

    function State(): FrameState
      reads this, queue
    {
      FrameState(status, config, queue.State(), timerEnabled)
    }

    predicate Valid()
      reads this, queue
    {
      ValidState(State())
    }

    constructor (isOnline: bool, saved: Option<seq<string>>, now: int)
      ensures fresh(queue)
      ensures State() == Initial(isOnline, saved, now)
      ensures Valid()
    {
      queue := new RequestQueue();
      status := Unknown;
      config := None;
      timerEnabled := false;
      new;
      LoadPersistedQueue(saved, now);
      if isOnline {
        OpenTrackingPage();
      }
    }

    method TrackEvent(script: string, d: DeviceState, now: int)
      modifies this, queue
      ensures State() == AfterTrackEvent(old(State()), script, d, now)
    {
      if !IsFrameEnabled(config) {
        return;
      }
      QueueAndProcess(script, d, now);
    }

    method QueueAndProcess(script: string, d: DeviceState, now: int)
      modifies this, queue
      ensures State() == Processed(old(State()).(queue := Enqueued(old(queue.State()), script, now)), d, now)
    {
      queue.Enqueue(script, now);
      ProcessRequestQueue(d, now);
    }

    method ProcessRequestQueue(d: DeviceState, now: int)
      modifies this, queue
      ensures State() == Processed(old(State()), d, now)
    {
      var tm := GetTrackingMode(config, d);
      var skip := status != Loaded || tm != TrackingMode.Enabled || timerEnabled;
      if !skip {
        skip := queue.IsEmpty(now);
      }
      if skip {
        if status == Failure && d.isOnline {
          OpenTrackingPage();
        }
        return;
      }
      timerEnabled := true;
    }

    method OpenTrackingPage()
      modifies this
      ensures State() == old(State()).(status := Loading)
    {
      status := Loading;
    }

    /** LoadVersionConfig. Where Parse throws, `loaded` is false and
        nothing has changed. */
    method LoadVersionConfig(result: Option<ScriptResult>, now: int) returns (loaded: bool)
      modifies this, queue
      ensures loaded <==> LoadedConfig(result).Parsed?
      ensures loaded ==> State() == AfterLoadVersionConfig(old(State()), LoadedConfig(result).config, now)
      ensures !loaded ==> State() == old(State())
    {
      var parsed := Parsed(Default);
      if result.Some? && !IsBlank(result.value.text) {
        parsed := Parse(result.value.document);
      }
      if parsed.MissingVersion? {
        return false;
      }
      config := Some(parsed.config);
      queue.ResetQueueSize(config.value.offlineDispatchLimit, config.value.dispatchExpiration, now);
      loaded := true;
    }

    method FrameNavigationSuccess(result: Option<ScriptResult>, d: DeviceState, now: int)
      modifies this, queue
      ensures State() == AfterNavigation(old(State()), true, result, d, now)
    {
      var loaded := LoadVersionConfig(result, now);
      if !loaded {
        return;
      }
      if config.value.isEnabled {
        status := Loaded;
        ProcessRequestQueue(d, now);
      } else {
        status := WebViewStatus.Disabled;
      }
    }

    method NavigationCompleted(success: bool, result: Option<ScriptResult>, d: DeviceState, now: int)
      modifies this, queue
      ensures State() == AfterNavigation(old(State()), success, result, d, now)
    {
      if success {
        FrameNavigationSuccess(result, d, now);
      } else {
        status := Failure;
      }
    }

    method ConnectionStatusChanged(d: DeviceState, now: int)
      modifies this, queue
      ensures State() == AfterConnectionChange(old(State()), d, now)
    {
      if d.isOnline {
        if status == Unknown || status == Failure {
          OpenTrackingPage();
        } else if status == Loaded {
          ProcessRequestQueue(d, now);
        }
      }
    }

    /** The timer's Tick handler; the timer only ticks while it runs. */
    method QueueTimerTick(d: DeviceState, now: int) returns (sent: Option<string>)
      requires Valid() && timerEnabled
      modifies this, queue
      ensures (State(), sent) == AfterTick(old(State()), d, now)
    {
      var batchSize := config.value.eventBatchSize;
      var stop := queue.IsEmpty(now);
      if !stop {
        var size := queue.Size(now);
        PurgedIdempotent(old(queue.State()), now);
        stop := size < batchSize;
      }
      if !stop {
        stop := !d.isOnline;
      }
      if stop {
        timerEnabled := false;
      }
      var batch := DequeueBatch(batchSize, now);
      sent := if IsBlank(batch) then None else Some(batch);
    }

    /** The tick's loop: `batchSize` TryDequeue calls, the payloads joined. */
    method DequeueBatch(batchSize: int, now: int) returns (batch: string)
      modifies queue
      ensures queue.State() == Drain(old(queue.State()), batchSize, now).0
      ensures batch == Concat(Drain(old(queue.State()), batchSize, now).1)
    {
      batch := "";
      var i := 0;
      ghost var remaining := batchSize;
      ghost var drained := Drain(queue.State(), remaining, now);
      BatchStart(queue.State(), remaining, now);
      while i < batchSize
        invariant 0 <= i && (i <= batchSize || i == 0)
        invariant remaining == batchSize - i
        invariant DrainLeads(batch, queue.State(), remaining, now, drained)
      {
        ghost var before := queue.State();
        var ok, value := queue.TryDequeue(now);
        BatchStep(batch, before, remaining, now, queue.State(), value, drained);
        if ok {
          batch := batch + value.value;
        }
        i := i + 1;
        remaining := remaining - 1;
      }
      BatchDone(batch, queue.State(), remaining, now, drained);
    }

    method LoadPersistedQueue(saved: Option<seq<string>>, now: int)
      modifies queue
      ensures State() == Restored(old(State()), saved, now)
    {
      if saved.Some? && |saved.value| > 0 {
        var items := saved.value;
        var i := 0;
        while i < |items|
          invariant 0 <= i <= |items|
          invariant queue.State() == EnqueueAll(old(queue.State()), items[..i], now)
        {
          assert items[..i + 1][..i] == items[..i];
          queue.Enqueue(items[i], now);
          i := i + 1;
        }
        assert items[..|items|] == items;
      }
    }

    /** Suspending: the live payloads, in order, as saved to storage. */
    method Suspending(now: int) returns (saved: seq<string>)
      modifies queue
      ensures State() == old(State()).(queue := Purged(old(queue.State()), now))
      ensures saved == Payloads(queue.entries)
    {
      saved := queue.ToList(now);
    }

    /** Resuming: the saved payloads are loaded again, into the same queue. */
    method Resuming(saved: Option<seq<string>>, now: int)
      modifies queue
      ensures State() == Restored(old(State()), saved, now)
    {
      LoadPersistedQueue(saved, now);
    }
  }

  /** One TryDequeue of a drain of `k` entries. */
  lemma DrainStep(q: QueueState, k: int, now: int, q1: QueueState, v: Option<string>)
    requires k > 0 && (q1, v) == Dequeued(q, now)
    ensures Drain(q, k, now).0 == Drain(q1, k - 1, now).0
    ensures Drain(q, k, now).1 == Taken(v) + Drain(q1, k - 1, now).1
  {
  }

  /** `batch` followed by what a drain of `k` more entries from `q` hands out
      is the whole of `drained`, and that drain ends where `drained` does. */
  predicate DrainLeads(batch: string, q: QueueState, k: int, now: int, drained: (QueueState, seq<string>)) {
    Drain(q, k, now).0 == drained.0 && batch + Concat(Drain(q, k, now).1) == Concat(drained.1)
  }

  lemma BatchStart(q: QueueState, k: int, now: int)
    ensures DrainLeads("", q, k, now, Drain(q, k, now))
  {
    assert "" + Concat(Drain(q, k, now).1) == Concat(Drain(q, k, now).1);
  }

  /** One iteration of the tick's loop keeps the drain's outcome. */
  lemma BatchStep(batch: string, q: QueueState, k: int, now: int, q1: QueueState, v: Option<string>,
                  drained: (QueueState, seq<string>))
    requires k > 0 && (q1, v) == Dequeued(q, now)
    requires DrainLeads(batch, q, k, now, drained)
    ensures DrainLeads(if v.Some? then batch + v.value else batch, q1, k - 1, now, drained)
  {
    DrainStep(q, k, now, q1, v);
    var rest := Drain(q1, k - 1, now).1;
    if v.Some? {
      ConcatCons(v.value, rest);
      assert Taken(v) == [v.value];
      assert (batch + v.value) + Concat(rest) == batch + (v.value + Concat(rest));
    } else {
      assert Taken(v) + rest == rest;
    }
  }

  lemma BatchDone(batch: string, q: QueueState, k: int, now: int, drained: (QueueState, seq<string>))
    requires k <= 0 && DrainLeads(batch, q, k, now, drained)
    ensures q == drained.0 && batch == Concat(drained.1)
  {
    assert batch + Concat([]) == batch;
  }

  lemma ConcatCons(s: string, rest: seq<string>)
    ensures Concat([s] + rest) == s + Concat(rest)
  {
    assert ([s] + rest)[1..] == rest;
  }

  // -----------------------------------------------------------------------
  // Properties of the tracking mode

  /** Without a config an active battery saver defers sending. */
  lemma NoConfigRespectsBatterySaver(d: DeviceState)
    requires d.isBatterySaver
    ensures GetTrackingMode(None, d) == TrackingMode.Deferred
  {
  }

  /** A Wi-Fi-only config defers sending off Wi-Fi, whatever else holds. */
  lemma WifiOnlyDefersOffWifi(c: VersionConfig, d: DeviceState)
    requires c.isEnabled && c.wifiOnlySending && !d.isOnWiFi
    ensures GetTrackingMode(Some(c), d) == TrackingMode.Deferred
  {
  }

  /** A config that does not honour the battery saver sends whenever online
      (on Wi-Fi, if it asks for that). */
  lemma BatterySaverIgnoredWhenNotHonoured(c: VersionConfig, d: DeviceState)
    requires c.isEnabled && !c.batterySaver && d.isOnline && (!c.wifiOnlySending || d.isOnWiFi)
    ensures GetTrackingMode(Some(c), d) == TrackingMode.Enabled
  {
  }

  // -----------------------------------------------------------------------
  // Properties of the frame's state machine

  /** ProcessRequestQueue starts a stopped timer exactly when the page is
      loaded, the mode is Enabled and the queue holds live entries; it never
      stops a running one, and changes the queue only by purging it. */
  lemma ProcessStartsTimerIff(f: FrameState, d: DeviceState, now: int)
    ensures !f.timerEnabled ==>
      (Processed(f, d, now).timerEnabled <==>
        f.status == Loaded && GetTrackingMode(f.config, d) == TrackingMode.Enabled && Purged(f.queue, now).entries != [])
    ensures f.timerEnabled ==> Processed(f, d, now).timerEnabled
    ensures Processed(f, d, now).queue in {f.queue, Purged(f.queue, now)}
  {
  }

  /** A failed page is reopened by the next event while online. */
  lemma FailedPageReopens(f: FrameState, script: string, d: DeviceState, now: int)
    requires f.status == Failure && d.isOnline
    ensures Processed(f, d, now).status == Loading
    ensures AfterConnectionChange(f, d, now).status == Loading
    ensures IsFrameEnabled(f.config) ==> AfterTrackEvent(f, script, d, now).status == Loading
  {
  }

  /** Events tracked before the page has first loaded are queued, not sent
      and not lost; nothing else changes. */
  lemma EventsQueuedBeforeLoad(f: FrameState, script: string, d: DeviceState, now: int)
    requires f.config.None? && (f.status == Unknown || f.status == Loading)
    ensures AfterTrackEvent(f, script, d, now) == f.(queue := Enqueued(f.queue, script, now))
  {
  }

  /** Once the page is disabled by its config, tracking, processing and
      connectivity changes all leave the frame exactly as it is. */
  lemma DisabledFrameIsInert(f: FrameState, script: string, d: DeviceState, now: int)
    requires ValidState(f) && f.status == WebViewStatus.Disabled
    ensures AfterTrackEvent(f, script, d, now) == f
    ensures Processed(f, d, now) == f
    ensures AfterConnectionChange(f, d, now) == f
  {
  }

  /** A connectivity change never alters the config and never stops the
      timer; of the queue it removes only expired entries at the head. */
  lemma ConnectionChangeOnlyPurges(f: FrameState, d: DeviceState, now: int)
    ensures var g := AfterConnectionChange(f, d, now);
      && g.config == f.config
      && (f.timerEnabled ==> g.timerEnabled)
      && LeftOf(g.queue, f.queue)
      && forall i :: 0 <= i < |f.queue.entries| - |g.queue.entries| ==> IsExpired(f.queue.entries[i], f.queue.maxAgeInDays, now)
  {
    DropExpiredRemovesOnlyExpired(f.queue.entries, f.queue.maxAgeInDays, now);
  }

  /** Settings without a version entry make Parse throw, so a successful
      navigation leaves the frame as it was. A page that was loading then
      stays loading: connectivity changes and processing leave it alone,
      and events the config allows are only queued, never sent. */
  lemma MissingVersionStallsFrame(f: FrameState, text: string, root: map<string, Json>, script: string,
                                  d: DeviceState, d2: DeviceState, now: int, later: int)
    requires !IsBlank(text) && CurrentLibraryVersion !in root
    requires f.status == Loading
    ensures var g := AfterNavigation(f, true, Some(ScriptResult(text, root)), d, now);
      && g == f
      && AfterConnectionChange(g, d2, later) == g
      && Processed(g, d2, later) == g
      && AfterTrackEvent(g, script, d2, later) ==
           if IsFrameEnabled(g.config) then g.(queue := Enqueued(g.queue, script, later)) else g
  {
  }

  /** A page whose settings script gives nothing (or only white space) runs
      with the default config: loaded, with an unbounded, non-expiring queue
      that keeps every entry. */
  lemma BlankSettingsGiveDefault(f: FrameState, result: Option<ScriptResult>, d: DeviceState, now: int)
    requires result.None? || IsBlank(result.value.text)
    ensures var g := AfterNavigation(f, true, result, d, now);
      && g.status == Loaded
      && g.config == Some(Default)
      && g.queue == QueueState(f.queue.entries, -1, -1)
  {
    var q := QueueState(f.queue.entries, -1, -1);
    assert AfterReset(f.queue, -1, -1, now) == q;
    NeverExpires(q, now);
  }

  /** A settings script whose version object is present but empty disables
      the page: later events are dropped. */
  lemma EmptySettingsDisableFrame(f: FrameState, text: string, others: map<string, Json>, d: DeviceState, now: int)
    requires !IsBlank(text)
    ensures var g := AfterNavigation(f, true, Some(ScriptResult(text, others[CurrentLibraryVersion := JObject(map[])])), d, now);
      && g.status == WebViewStatus.Disabled
      && g.config == Some(Blank)
      && (forall script :: AfterTrackEvent(g, script, d, now) == g)
  {
    EmptySettingsObjectIsBlank(others);
  }

  /** Processing, tracking and connectivity changes keep a frame valid. */
  lemma EventsKeepValid(f: FrameState, script: string, d: DeviceState, now: int)
    requires ValidState(f)
    ensures ValidState(Processed(f, d, now))
    ensures ValidState(AfterTrackEvent(f, script, d, now))
    ensures ValidState(AfterConnectionChange(f, d, now))
  {
  }

  /** Navigation keeps a frame valid. */
  lemma NavigationKeepsValid(f: FrameState, success: bool, result: Option<ScriptResult>, d: DeviceState, now: int)
    requires ValidState(f)
    ensures ValidState(AfterNavigation(f, success, result, d, now))
  {
    if success {
      match LoadedConfig(result)
      case MissingVersion =>
      case Parsed(c) =>
        var g := AfterLoadVersionConfig(f, c, now);
        if c.isEnabled {
          EventsKeepValid(g.(status := Loaded), "", d, now);
        }
    }
  }

  /** Ticks and restoring keep a frame valid, and a new frame is valid. */
  lemma TickAndRestoreKeepValid(f: FrameState, saved: Option<seq<string>>, d: DeviceState, now: int)
    requires ValidState(f)
    ensures f.config.Some? ==> ValidState(AfterTick(f, d, now).0)
    ensures ValidState(Restored(f, saved, now))
    ensures ValidState(Initial(d.isOnline, saved, now))
  {
  }

  // -----------------------------------------------------------------------
  // Properties of the drain tick

  /** `r` is what is left of `q` after removing entries at its head, with
      the same limits. */
  predicate LeftOf(r: QueueState, q: QueueState) {
    IsSuffix(r.entries, q.entries) && r.maxSize == q.maxSize && r.maxAgeInDays == q.maxAgeInDays
  }

  lemma LeftOfTransitive(a: QueueState, b: QueueState, c: QueueState)
    requires LeftOf(a, b) && LeftOf(b, c)
    ensures LeftOf(a, c)
  {
    assert a.entries == c.entries[|c.entries| - |a.entries|..];
  }

  /** TryDequeue only removes entries at the head. */
  lemma DequeuedIsLeftOf(q: QueueState, now: int)
    ensures LeftOf(Dequeued(q, now).0, q)
  {
    var live := Purged(q, now);
    if live.entries != [] {
      assert live.entries[1..] == q.entries[|q.entries| - |live.entries| + 1..];
    }
  }

  /** Draining only removes entries at the head, and keeps the limits. */
  lemma {:induction false} DrainIsLeftOf(q: QueueState, k: int, now: int)
    ensures LeftOf(Drain(q, k, now).0, q)
    decreases if k < 0 then 0 else k
  {
    if k > 0 {
      var step := Dequeued(q, now);
      DrainIsLeftOf(step.0, k - 1, now);
      DrainLeftOfStep(q, k, now, step.0, step.1);
    }
  }

  /** One TryDequeue followed by a drain that removes only head entries
      removes only head entries. */
  lemma DrainLeftOfStep(q: QueueState, k: int, now: int, q1: QueueState, v: Option<string>)
    requires k > 0 && (q1, v) == Dequeued(q, now)
    requires LeftOf(Drain(q1, k - 1, now).0, q1)
    ensures LeftOf(Drain(q, k, now).0, q)
  {
    var r := Drain(q1, k - 1, now).0;
    DrainStep(q, k, now, q1, v);
    DequeuedIsLeftOf(q, now);
    LeftOfTransitive(r, q1, q);
  }

  /** A tick never puts anything back: the queue afterwards is what was left
      of it at the head. */
  lemma TickNeverRequeues(f: FrameState, d: DeviceState, now: int)
    requires f.config.Some?
    ensures IsSuffix(AfterTick(f, d, now).0.queue.entries, f.queue.entries)
  {
    var live := Purged(f.queue, now);
    DrainIsLeftOf(live, f.config.value.eventBatchSize, now);
    assert LeftOf(live, f.queue);
    LeftOfTransitive(Drain(live, f.config.value.eventBatchSize, now).0, live, f.queue);
  }

  function Min(a: int, b: int): int {
    if a < b then a else b
  }

  /** How many entries a drain of `k` takes from a queue of `count`. */
  function DrainCount(k: int, count: nat): (n: nat)
    ensures n <= count
  {
    if k <= 0 then 0 else Min(k, count)
  }

  /** `r` hands out the first `n` payloads of `q` and leaves the rest. */
  predicate TakesFirst(r: (QueueState, seq<string>), q: QueueState, n: nat)
    requires n <= |q.entries|
  {
    r.1 == Payloads(q.entries[..n]) && r.0 == q.(entries := q.entries[n..])
  }

  /** Without expiry, draining `k` entries hands out the first `k` payloads
      (all of them when there are fewer) in queue order and leaves the rest. */
  lemma {:induction false} DrainInFifoOrder(q: QueueState, k: int, now: int)
    requires q.maxAgeInDays < 0
    ensures TakesFirst(Drain(q, k, now), q, DrainCount(k, |q.entries|))
    decreases if k < 0 then 0 else k
  {
    if k > 0 {
      var q1 := Rest(q);
      DrainInFifoOrder(q1, k - 1, now);
      FifoDrainStep(q, k, now, q1);
    }
  }

  /** The queue without its first entry, if it has one. */
  function Rest(q: QueueState): QueueState {
    if q.entries == [] then q else q.(entries := q.entries[1..])
  }

  /** One step of a drain of a non-expiring queue. */
  lemma FifoDrainStep(q: QueueState, k: int, now: int, q1: QueueState)
    requires k > 0 && q.maxAgeInDays < 0 && q1 == Rest(q)
    requires TakesFirst(Drain(q1, k - 1, now), q1, DrainCount(k - 1, |q1.entries|))
    ensures TakesFirst(Drain(q, k, now), q, DrainCount(k, |q.entries|))
  {
    if q.entries == [] {
      FifoStepOnEmpty(q, k, now);
    } else {
      FifoStep(q, k, now, q1);
    }
  }

  /** Draining an empty, non-expiring queue hands out nothing. */
  lemma FifoStepOnEmpty(q: QueueState, k: int, now: int)
    requires k > 0 && q.maxAgeInDays < 0 && q.entries == []
    requires TakesFirst(Drain(q, k - 1, now), q, 0)
    ensures TakesFirst(Drain(q, k, now), q, 0)
  {
    NeverExpires(q, now);
    DrainStep(q, k, now, q, None);
  }

  /** One TryDequeue on a non-empty, non-expiring queue hands out its first
      payload ahead of what the rest of the drain hands out. */
  lemma FifoStep(q: QueueState, k: int, now: int, q1: QueueState)
    requires k > 0 && q.maxAgeInDays < 0 && q.entries != [] && q1 == q.(entries := q.entries[1..])
    requires TakesFirst(Drain(q1, k - 1, now), q1, DrainCount(k - 1, |q1.entries|))
    ensures TakesFirst(Drain(q, k, now), q, DrainCount(k, |q.entries|))
  {
    NeverExpires(q, now);
    DrainStep(q, k, now, q1, Some(q.entries[0].content));
    var n := DrainCount(k, |q.entries|);
    assert DrainCount(k - 1, |q1.entries|) == n - 1;
    assert q1.entries[..n - 1] == q.entries[1..n];
    assert q1.entries[n - 1..] == q.entries[n..];
    assert Payloads(q.entries[..n]) == [q.entries[0].content] + Payloads(q.entries[1..n]);
  }

  /** Without expiry, a tick sends the first batch of payloads, joined in
      queue order, and stops the timer when the queue was empty, shorter
      than a batch, or the device is offline. */
  lemma TickWithoutExpiry(f: FrameState, d: DeviceState, now: int)
    requires f.config.Some? && f.queue.maxAgeInDays < 0
    ensures var s := f.queue.entries;
      var b := f.config.value.eventBatchSize;
      var n := DrainCount(b, |s|);
      var batch := Concat(Payloads(s[..n]));
      AfterTick(f, d, now) ==
        (f.(queue := f.queue.(entries := s[n..]), timerEnabled := f.timerEnabled && !(s == [] || |s| < b || !d.isOnline)),
         if IsBlank(batch) then None else Some(batch))
  {
    NeverExpires(f.queue, now);
    DrainInFifoOrder(f.queue, f.config.value.eventBatchSize, now);
  }

  /** A blank string joined to another is blank only if both are. */
  lemma BlankJoin(a: string, b: string)
    ensures IsBlank(a + b) <==> IsBlank(a) && IsBlank(b)
  {
    if IsBlank(a + b) {
      forall i | 0 <= i < |a| ensures IsWhiteSpace(a[i]) {
        assert a[i] == (a + b)[i];
      }
      forall i | 0 <= i < |b| ensures IsWhiteSpace(b[i]) {
        assert b[i] == (a + b)[|a| + i];
      }
    }
    if IsBlank(a) && IsBlank(b) {
      forall i | 0 <= i < |a + b| ensures IsWhiteSpace((a + b)[i]) {
        if i < |a| { assert (a + b)[i] == a[i]; } else { assert (a + b)[i] == b[i - |a|]; }
      }
    }
  }

  /** Five queued payloads with a batch size of two are sent as two, two and
      one; the timer keeps running until the last, short batch. */
  lemma FiveEntriesDrainInBatchesOfTwo(f: FrameState, d: DeviceState, now: int, a: Entry, b: Entry, c: Entry, e1: Entry, e2: Entry)
    requires f.config.Some? && f.config.value.eventBatchSize == 2
    requires f.queue.maxAgeInDays < 0 && f.timerEnabled && d.isOnline
    requires f.queue.entries == [a, b, c, e1, e2]
    requires !IsBlank(a.content) && !IsBlank(c.content) && !IsBlank(e2.content)
    ensures var (f1, s1) := AfterTick(f, d, now);
      var (f2, s2) := AfterTick(f1, d, now);
      var (f3, s3) := AfterTick(f2, d, now);
      && s1 == Some(a.content + b.content) && f1.timerEnabled
      && s2 == Some(c.content + e1.content) && f2.timerEnabled
      && s3 == Some(e2.content) && !f3.timerEnabled
      && f3.queue.entries == []
  {
    var r1 := AfterTick(f, d, now);
    assert r1.0.config == f.config && r1.0.queue.maxAgeInDays < 0 && r1.0.timerEnabled
        && r1.0.queue.entries == [c, e1, e2] && r1.1 == Some(a.content + b.content) by {
      TickWithoutExpiry(f, d, now);
      assert f.queue.entries[..2] == [a, b] && f.queue.entries[2..] == [c, e1, e2];
      TwoPayloads(a, b);
    }
    var r2 := AfterTick(r1.0, d, now);
    assert r2.0.config == f.config && r2.0.queue.maxAgeInDays < 0 && r2.0.timerEnabled
        && r2.0.queue.entries == [e2] && r2.1 == Some(c.content + e1.content) by {
      TickWithoutExpiry(r1.0, d, now);
      assert r1.0.queue.entries[..2] == [c, e1] && r1.0.queue.entries[2..] == [e2];
      TwoPayloads(c, e1);
    }
    var r3 := AfterTick(r2.0, d, now);
    assert !r3.0.timerEnabled && r3.0.queue.entries == [] && r3.1 == Some(e2.content) by {
      TickWithoutExpiry(r2.0, d, now);
      assert r2.0.queue.entries[..1] == [e2] && r2.0.queue.entries[1..] == [];
      assert Payloads([e2]) == [e2.content] && [e2.content] == [e2.content] + [];
      ConcatCons(e2.content, []);
      assert e2.content + Concat([]) == e2.content;
    }
  }

  /** Two entries with a non-blank first payload are sent joined. */
  lemma TwoPayloads(x: Entry, y: Entry)
    requires !IsBlank(x.content)
    ensures Concat(Payloads([x, y])) == x.content + y.content
    ensures !IsBlank(x.content + y.content)
  {
    assert Payloads([x, y]) == [x.content] + [y.content];
    ConcatCons(x.content, [y.content]);
    ConcatCons(y.content, []);
    BlankJoin(x.content, y.content);
  }

  /** With a batch size of zero or less a running tick sends nothing and
      removes nothing beyond expiry, and while the device is online with
      live entries queued it never stops the timer: the queue stalls. */
  lemma NonPositiveBatchSizeStalls(f: FrameState, d: DeviceState, now: int)
    requires f.config.Some? && f.config.value.eventBatchSize <= 0 && f.timerEnabled
    requires d.isOnline && Purged(f.queue, now).entries != []
    ensures AfterTick(f, d, now) == (f.(queue := Purged(f.queue, now)), None)
  {
    assert IsBlank(Concat([]));
  }

  // -----------------------------------------------------------------------
  // Properties of persistence

  /** A new frame's queue holds exactly the saved payloads, in order. */
  lemma InitialRestoresSaved(isOnline: bool, saved: seq<string>, now: int)
    ensures var f := Initial(isOnline, Some(saved), now);
      && Payloads(f.queue.entries) == saved
      && f.status == (if isOnline then Loading else Unknown)
      && f.config.None? && !f.timerEnabled
  {
    var q := QueueState([], 0, -1);
    EnqueueAllUnboundedAppends(q, saved, now);
    assert Payloads(q.entries) + saved == saved;
  }

  /** Suspending and then resuming the same frame, with no limit on the
      queue, leaves every live payload queued twice. */
  lemma ResumeInPlaceDuplicates(f: FrameState, now: int)
    requires f.queue.maxSize <= 1
    ensures var suspended := f.(queue := Purged(f.queue, now));
      var saved := Payloads(suspended.queue.entries);
      Payloads(Restored(suspended, Some(saved), now).queue.entries) == saved + saved
  {
    var suspended := f.(queue := Purged(f.queue, now));
    var saved := Payloads(suspended.queue.entries);
    EnqueueAllUnboundedAppends(suspended.queue, saved, now);
  }
}
