/** TealiumTagger: the public tracking API. It keeps the persisted variables
    and, through its settings, the base variables; each tracking call merges
    them with the call's own variables into a JSON-like object, wraps that
    in a utag.track script and hands the script to its tracking frame. The
    device state and the clock the frame needs are parameters. */
module Tagger {
  import opened Wrappers
  import opened Text
  import opened Variables
  import opened Settings
  import opened Tracking

  // -----------------------------------------------------------------------
  // The environment name

  /** GetEnvironmentString: the URL segment of an environment; any value
      other than the three named ones falls back to "dev". */
  function EnvironmentString(e: TealiumEnvironment): (s: string)
    ensures s == "dev" || s == "qa" || s == "prod"
    ensures s == "qa" <==> e == TealiumTargetQA
    ensures s == "prod" <==> e == TealiumTargetProd
  {
    if e == TealiumTargetDev then "dev"
    else if e == TealiumTargetQA then "qa"
    else if e == TealiumTargetProd then "prod"
    else "dev"
  }

  /** The environment an URL segment names. */
  function EnvironmentOf(s: string): TealiumEnvironment {
    if s == "qa" then TealiumTargetQA
    else if s == "prod" then TealiumTargetProd
    else TealiumTargetDev
  }

  /** The segment names its environment back, except that an unnamed
      environment reads back as Dev. */
  lemma EnvironmentRoundTrip(e: TealiumEnvironment)
    ensures EnvironmentOf(EnvironmentString(e)) ==
      if e == TealiumTargetQA || e == TealiumTargetProd then e else TealiumTargetDev
  {
  }

  // -----------------------------------------------------------------------
  // The payload and the script

  /** One entry of the payload: key and value HTML-encoded, each in double quotes. */
  function EntryText(k: string, v: string): string {
    "\"" + HtmlEncode(k) + "\": \"" + HtmlEncode(v) + "\""
  }

  /** The entries of a dictionary, in its order. */
  function Entries(d: Dict<string>): (r: seq<string>)
    ensures |r| == |d|
  {
    if d == [] then [] else Entries(d[..|d| - 1]) + [EntryText(d[|d| - 1].0, d[|d| - 1].1)]
  }

  /** The strings joined with commas. */
  function Join(ss: seq<string>): string {
    if ss == [] then ""
    else if |ss| == 1 then ss[0]
    else Join(ss[..|ss| - 1]) + "," + ss[|ss| - 1]
  }

  /** What GetJson produces: "{ }" for an empty dictionary, otherwise the
      comma-joined entries between "{ " and " }". */
  function JsonText(d: Dict<string>): string {
    if d == [] then "{ }" else "{ " + Join(Entries(d)) + " }"
  }

  const ScriptHead: string := "utag.track('"
  const ScriptTail: string := ", function() {TealiumTaggerCallback.callback();});"

  /** The UTAG_INVOKE_SCRIPT format with the event name and the payload
      substituted; a null event name is substituted as the empty string. */
  function Script(eventName: Option<string>, json: string): string {
    ScriptHead + eventName.GetOr("") + "'," + json + ScriptTail
  }

  /** GetJson. The source also skips entries with a null key or value; the
      dictionary it is given holds neither. */
  method GetJson(vars: Dict<string>) returns (json: string)
    ensures json == JsonText(vars)
  {
    if |vars| == 0 {
      return "{ }";
    }
    var v := "";
    var i := 0;
    while i < |vars|
      invariant 0 <= i <= |vars|
      invariant v == Join(Entries(vars[..i]))
      invariant (v == "") == (i == 0)
    {
      JoinEntriesStep(vars, i);
      if v != "" {
        v := v + ",";
      }
      v := v + EntryText(vars[i].0, vars[i].1);
      i := i + 1;
    }
    assert vars[..|vars|] == vars;
    json := "{ " + v + " }";
  }

  /** The entries of one more variable: the first entry alone, or a comma
      and the new entry after the others. */
  lemma JoinEntriesStep(vars: Dict<string>, i: nat)
    requires i < |vars|
    ensures Join(Entries(vars[..i + 1])) ==
      if i == 0 then EntryText(vars[0].0, vars[0].1)
      else Join(Entries(vars[..i])) + "," + EntryText(vars[i].0, vars[i].1)
    ensures Join(Entries(vars[..i + 1])) != ""
  {
    var p := vars[..i + 1];
    assert p[..|p| - 1] == vars[..i];
    var es := Entries(p);
    assert es == Entries(vars[..i]) + [EntryText(vars[i].0, vars[i].1)];
    assert es[..|es| - 1] == Entries(vars[..i]);
    assert EntryText(vars[i].0, vars[i].1)[0] == '"';
  }

  /** The loop that assigns every entry of `src` into `d`. */
  method CopyEntries<V>(d: Dict<V>, src: Dict<V>) returns (r: Dict<V>)
    ensures r == PutAll(d, src)
  {
    r := d;
    var i := 0;
    while i < |src|
      invariant 0 <= i <= |src|
      invariant r == PutAll(d, src[..i])
    {
      assert src[..i + 1][..i] == src[..i];
      r := Put(r, src[i].0, src[i].1);
      i := i + 1;
    }
    assert src[..|src|] == src;
  }

  /** The loop that assigns every entry of `src` into `d` as a string, null
      values as the empty string. */
  method CopyAsTexts(d: Dict<string>, src: Dict<Value>) returns (r: Dict<string>)
    ensures r == PutAll(d, AsTexts(src))
  {
    r := d;
    var i := 0;
    while i < |src|
      invariant 0 <= i <= |src|
      invariant r == PutAll(d, AsTexts(src[..i]))
    {
      assert src[..i + 1][..i] == src[..i];
      var value := if src[i].1.Object? then src[i].1.text else "";
      r := Put(r, src[i].0, value);
      i := i + 1;
    }
    assert src[..|src|] == src;
  }

  class TealiumTagger {
    var settings: TealiumSettings
    /** The persisted variables; None is the null dictionary. */
    var providedVariables: Option<Dict<Value>>
    const frame: TrackingFrame

    /** A tagger with no persisted variables and a new tracking frame. */
    constructor (settings: TealiumSettings, isOnline: bool, saved: Option<seq<string>>, now: int)
      ensures this.settings == settings && providedVariables == None
      ensures fresh(frame) && fresh(frame.queue) && frame.Valid()
      ensures frame.State() == Initial(isOnline, saved, now)
    {
      this.settings := settings;
      providedVariables := None;
      frame := new TrackingFrame(isOnline, saved, now);
    }

    /** A null dictionary clears the persisted variables; any other replaces
        them with a copy. */
    method SetVariables(variables: Option<Dict<Value>>)
      modifies this
      ensures providedVariables == if variables.None? then None else Some(PutAll([], variables.value))
      ensures settings == old(settings)
    {
      if variables.None? {
        providedVariables := None;
        return;
      }
      var copy := CopyEntries([], variables.value);
      providedVariables := Some(copy);
    }

    /** Assigns one persisted variable, creating the dictionary if needed. */
    method SetVariable(name: string, value: Value)
      modifies this
      ensures providedVariables == Some(Put(old(providedVariables).GetOr([]), name, value))
      ensures settings == old(settings)
    {
      if providedVariables.None? {
        providedVariables := Some([]);
      }
      providedVariables := Some(Put(providedVariables.value, name, value));
    }

    /** A null dictionary changes nothing; any other replaces the base
        variables with a copy. */
    method SetGlobalVariables(variables: Option<Dict<Value>>)
      modifies this
      ensures settings == if variables.None? then old(settings)
        else old(settings).(baseVariables := Some(PutAll([], variables.value)))
      ensures providedVariables == old(providedVariables)
    {
      if variables.None? {
        return;
      }
      var copy := CopyEntries([], variables.value);
      settings := settings.(baseVariables := Some(copy));
    }

    /** Assigns one base variable, creating the dictionary if needed. */
    method SetGlobalVariable(name: string, value: Value)
      modifies this
      ensures settings == old(settings).(baseVariables := Some(Put(old(settings).baseVariables.GetOr([]), name, value)))
      ensures providedVariables == old(providedVariables)
    {
      var vars := settings.baseVariables.GetOr([]);
      settings := settings.(baseVariables := Some(Put(vars, name, value)));
    }

    /** The base variables as strings. */
    method CopyVarsFromBase() returns (baseVars: Dict<string>)
      ensures baseVars == PutAll([], AsTexts(settings.baseVariables.GetOr([])))
    {
      baseVars := [];
      if settings.baseVariables.Some? {
        baseVars := CopyAsTexts(baseVars, settings.baseVariables.value);
      }
    }

    /** Sends the merged variables as one script through the tracking frame. */
    method TrackCustomEvent(eventName: Option<string>, variables: Option<Dict<Value>>, d: DeviceState, now: int)
      modifies frame, frame.queue
      ensures frame.State() == AfterTrackEvent(old(frame.State()),
        Script(eventName, JsonText(Merged(settings.baseVariables, providedVariables, variables))), d, now)
    {
      var toSend := CopyVarsFromBase();
      if providedVariables.Some? {
        toSend := CopyAsTexts(toSend, providedVariables.value);
      }
      if variables.Some? {
        toSend := CopyAsTexts(toSend, variables.value);
      }
      var json := GetJson(toSend);
      SendEvent(eventName, json, d, now);
    }

    /** A click: the item name under the click id parameter, sent as the
        click event. */
    method TrackItemClicked(itemName: Value, variables: Option<Dict<Value>>, d: DeviceState, now: int)
      modifies frame, frame.queue
      ensures frame.State() == AfterTrackEvent(old(frame.State()),
        Script(settings.clickMetricEventName, JsonText(Merged(settings.baseVariables, providedVariables,
          Some(Put(variables.GetOr([]), settings.clickMetricIdParam, itemName))))), d, now)
    {
      var vars := variables.GetOr([]);
      vars := Put(vars, settings.clickMetricIdParam, itemName);
      TrackCustomEvent(settings.clickMetricEventName, Some(vars), d, now);
    }

    /** A screen view: the view name under the view id parameter, also
        persisted, sent as the view event. */
    method TrackScreenViewed(viewName: Value, variables: Option<Dict<Value>>, d: DeviceState, now: int)
      modifies this, frame, frame.queue
      ensures providedVariables == Some(Put(old(providedVariables).GetOr([]), settings.viewMetricIdParam, viewName))
      ensures settings == old(settings)
      ensures frame.State() == AfterTrackEvent(old(frame.State()),
        Script(settings.viewMetricEventName, JsonText(Merged(settings.baseVariables, providedVariables,
          Some(Put(variables.GetOr([]), settings.viewMetricIdParam, viewName))))), d, now)
    {
      var vars := variables.GetOr([]);
      vars := Put(vars, settings.viewMetricIdParam, viewName);
      SetVariable(settings.viewMetricIdParam, viewName);
      TrackCustomEvent(settings.viewMetricEventName, Some(vars), d, now);
    }

    method SendEvent(eventName: Option<string>, json: string, d: DeviceState, now: int)
      modifies frame, frame.queue
      ensures frame.State() == AfterTrackEvent(old(frame.State()), Script(eventName, json), d, now)
    {
      frame.TrackEvent(Script(eventName, json), d, now);
    }
  }

  // -----------------------------------------------------------------------
  // Properties of the merge, the payload and the script

  /** A click always sends its item name under the click id parameter,
      whatever the base and persisted variables hold. */
  lemma ClickCarriesItemName(base: Option<Dict<Value>>, provided: Option<Dict<Value>>,
                             call: Option<Dict<Value>>, param: string, item: Value)
    requires DistinctKeys(base.GetOr([])) && DistinctKeys(provided.GetOr([])) && DistinctKeys(call.GetOr([]))
    ensures Lookup(Merged(base, provided, Some(Put(call.GetOr([]), param, item))), param) == Some(AsText(item))
  {
    var c := Put(call.GetOr([]), param, item);
    PutKeepsDistinct(call.GetOr([]), param, item);
    PutLookup(call.GetOr([]), param, item, param);
    MergePrecedence(base, provided, Some(c), param);
  }

  /** After a screen view, later events that do not set the view id
      parameter themselves still send the view name. */
  lemma ViewNamePersists(base: Option<Dict<Value>>, provided: Option<Dict<Value>>,
                         call: Option<Dict<Value>>, param: string, view: Value)
    requires DistinctKeys(base.GetOr([])) && DistinctKeys(provided.GetOr([])) && DistinctKeys(call.GetOr([]))
    requires Lookup(call.GetOr([]), param).None?
    ensures Lookup(Merged(base, Some(Put(provided.GetOr([]), param, view)), call), param) == Some(AsText(view))
  {
    var p := Put(provided.GetOr([]), param, view);
    PutKeepsDistinct(provided.GetOr([]), param, view);
    PutLookup(provided.GetOr([]), param, view, param);
    MergePrecedence(base, Some(p), call, param);
  }

  /** The merged dictionary holds each key once, so the payload names each
      variable once. */
  lemma MergedKeysDistinct(base: Option<Dict<Value>>, provided: Option<Dict<Value>>, call: Option<Dict<Value>>)
    ensures DistinctKeys(Merged(base, provided, call))
  {
    var b := PutAll([], AsTexts(base.GetOr([])));
    var p := PutAll(b, AsTexts(provided.GetOr([])));
    PutAllKeepsDistinct([], AsTexts(base.GetOr([])));
    PutAllKeepsDistinct(b, AsTexts(provided.GetOr([])));
    PutAllKeepsDistinct(p, AsTexts(call.GetOr([])));
  }

  /** The number of occurrences of `c` in `s`. */
  function Count(c: char, s: string): nat {
    if s == [] then 0 else (if s[0] == c then 1 else 0) + Count(c, s[1..])
  }

  lemma {:induction false} CountAppend(c: char, a: string, b: string)
    ensures Count(c, a + b) == Count(c, a) + Count(c, b)
  {
    if a == [] {
      assert a + b == b;
    } else {
      assert (a + b)[0] == a[0] && (a + b)[1..] == a[1..] + b;
      CountAppend(c, a[1..], b);
    }
  }

  lemma {:induction false} CountAbsent(c: char, s: string)
    requires forall i :: 0 <= i < |s| ==> s[i] != c
    ensures Count(c, s) == 0
  {
    if s != [] {
      CountAbsent(c, s[1..]);
    }
  }

  /** HTML encoding leaves no double quote in a key or a value. */
  lemma EncodedHasNoQuote(s: string)
    ensures Count('"', HtmlEncode(s)) == 0
  {
    CountAbsent('"', HtmlEncode(s));
  }

  /** Each entry holds exactly four double quotes: those around its key and
      its value. */
  lemma EntryQuotes(k: string, v: string)
    ensures Count('"', EntryText(k, v)) == 4
  {
    var q := "\"";
    var mid := "\": \"";
    EncodedHasNoQuote(k);
    EncodedHasNoQuote(v);
    assert Count('"', mid) == 2 by {
      assert mid[1..] == ": \"" && mid[1..][1..] == " \"" && mid[1..][1..][1..] == q;
    }
    CountAppend('"', q, HtmlEncode(k));
    CountAppend('"', q + HtmlEncode(k), mid);
    CountAppend('"', q + HtmlEncode(k) + mid, HtmlEncode(v));
    CountAppend('"', q + HtmlEncode(k) + mid + HtmlEncode(v), q);
  }

  /** The entries of a dictionary hold four double quotes each and the
      commas none. */
  lemma {:induction false} JoinedEntriesQuotes(d: Dict<string>)
    ensures Count('"', Join(Entries(d))) == 4 * |d|
  {
    if d != [] {
      var init := d[..|d| - 1];
      var e := EntryText(d[|d| - 1].0, d[|d| - 1].1);
      EntryQuotes(d[|d| - 1].0, d[|d| - 1].1);
      var es := Entries(d);
      assert es == Entries(init) + [e];
      if |d| == 1 {
        assert Join(es) == e;
      } else {
        assert es[..|es| - 1] == Entries(init);
        JoinedEntriesQuotes(init);
        assert Join(es) == Join(Entries(init)) + "," + e;
        CountAppend('"', Join(Entries(init)), ",");
        CountAppend('"', Join(Entries(init)) + ",", e);
      }
    }
  }

  /** The payload holds exactly four double quotes per variable: no key or
      value can end its string literal early. */
  lemma JsonQuotes(d: Dict<string>)
    ensures Count('"', JsonText(d)) == 4 * |d|
  {
    if d == [] {
      assert Count('"', "{ }") == 0 by {
        CountAbsent('"', "{ }");
      }
    } else {
      JoinedEntriesQuotes(d);
      CountAbsent('"', "{ ");
      CountAbsent('"', " }");
      CountAppend('"', "{ ", Join(Entries(d)));
      CountAppend('"', "{ " + Join(Entries(d)), " }");
    }
  }

  /** An event name without an apostrophe and the payload can be read back
      from the script: different events or payloads give different scripts. */
  lemma ScriptDeterminesParts(e1: string, j1: string, e2: string, j2: string)
    requires '\'' !in e1 && '\'' !in e2
    requires Script(Some(e1), j1) == Script(Some(e2), j2)
    ensures e1 == e2 && j1 == j2
  {
    var s := Script(Some(e1), j1);
    var h := |ScriptHead|;
    EventNameEnds(e1, j1);
    EventNameEnds(e2, j2);
    assert |e1| == |e2|;
    assert e1 == s[h..h + |e1|] == e2;
    assert j1 == s[h + |e1| + 2..|s| - |ScriptTail|] == j2;
  }

  /** In a script, the event name is followed by the first apostrophe after
      the head. */
  lemma EventNameEnds(e: string, j: string)
    requires '\'' !in e
    ensures var s := Script(Some(e), j);
      && |s| == |ScriptHead| + |e| + 2 + |j| + |ScriptTail|
      && s[|ScriptHead| + |e|] == '\''
      && (forall i :: |ScriptHead| <= i < |ScriptHead| + |e| ==> s[i] != '\'')
      && s[|ScriptHead|..|ScriptHead| + |e|] == e
      && s[|ScriptHead| + |e| + 2..|s| - |ScriptTail|] == j
  {
    var s := Script(Some(e), j);
    assert s == ScriptHead + e + "'," + j + ScriptTail;
    forall i | |ScriptHead| <= i < |ScriptHead| + |e| ensures s[i] != '\'' {
      assert s[i] == e[i - |ScriptHead|];
    }
  }

  /** With default settings a screen view is sent with an empty event name. */
  lemma DefaultViewEventIsEmpty(account: string, profile: string, environment: TealiumEnvironment,
                                baseVariables: Option<Dict<Value>>, json: string)
    ensures Script(NewSettings(account, profile, environment, baseVariables).viewMetricEventName, json)
      == "utag.track(''," + json + ScriptTail
  {
  }
}
