/** VersionConfig: the tracking settings the mobile tracking page publishes
    for the current major version ("4") of the library, read from a JSON
    object with tolerant, defaulting conversions. */
module Config {
  import opened Wrappers
  import opened Text

  /** A JSON value. Numbers are whole numbers here (see README). */
  datatype Json =
    | JNull
    | JBool(b: bool)
    | JNumber(n: int)
    | JString(s: string)
    | JArray(items: seq<Json>)
    | JObject(fields: map<string, Json>)

  /** The major version whose settings the library reads. */
  const CurrentLibraryVersion: string := "4"

  const IsEnabledKey: string := "_is_enabled"
  const BatterySaverKey: string := "battery_saver"
  const DispatchExpirationKey: string := "dispatch_expiration"
  const EventBatchSizeKey: string := "event_batch_size"
  const OfflineDispatchLimitKey: string := "offline_dispatch_limit"
  const WifiOnlySendingKey: string := "wifi_only_sending"
  const IVarTrackingKey: string := "ivar_tracking"
  const MobileCompanionKey: string := "mobile_companion"
  const UIAutoTrackingKey: string := "ui_auto_tracking"

  datatype VersionConfig = VersionConfig(
    isEnabled: bool,
    batterySaver: bool,
    dispatchExpiration: int,
    eventBatchSize: int,
    offlineDispatchLimit: int,
    wifiOnlySending: bool,
    iVarTracking: bool,
    mobileCompanion: bool,
    uiAutoTracking: bool)

  /** What the protected parameterless constructor produces: every field at
      its CLR default. */
  const Blank: VersionConfig := VersionConfig(false, false, 0, 0, 0, false, false, false, false)

  /** The configuration used when none could be read. */
  const Default: VersionConfig := VersionConfig(true, true, -1, 1, -1, false, true, true, true)

  /** The (int) conversion of a JSON number, as the cast behaves on x86/x64:
      values outside 32 bits become Int32.MinValue. */
  function ToInt32(n: int): (r: int)
    ensures Int32Min <= r <= Int32Max
    ensures Int32Min <= n <= Int32Max ==> r == n
  {
    if Int32Min <= n <= Int32Max then n else Int32Min
  }

  /** ParseAsBoolean with its default of false. */
  function ParseAsBoolean(v: Json): bool {
    match v
    case JBool(b) => b
    case JString(s) => BoolTryParse(s).GetOr(false)
    case _ => false
  }

  /** ParseAsInt with its default of -1. */
  function ParseAsInt(v: Json): (r: int)
    ensures Int32Min <= r <= Int32Max
  {
    match v
    case JNumber(n) => ToInt32(n)
    case JString(s) => IntTryParse(s).GetOr(-1)
    case _ => -1
  }

  /** The field `key` of `obj` converted by `conv`, or `otherwise` when absent. */
  function Field<T>(obj: map<string, Json>, key: string, conv: Json -> T, otherwise: T): T {
    if key in obj then conv(obj[key]) else otherwise
  }

  /** What VersionConfig.Parse does with a root object: return a
      configuration, or throw because the root has no entry under the
      current version (the JsonObject indexer throws for a missing key). */
  datatype ParseResult = Parsed(config: VersionConfig) | MissingVersion

  /** VersionConfig.Parse applied to the parsed root object: a missing
      version entry throws; an entry that is not an object gives the
      default; an object gives a blank configuration with each present key
      converted into its field. */
  function Parse(root: map<string, Json>): (r: ParseResult)
    ensures r.MissingVersion? <==> CurrentLibraryVersion !in root
    ensures CurrentLibraryVersion in root && !root[CurrentLibraryVersion].JObject? ==> r == Parsed(Default)
    ensures CurrentLibraryVersion in root && root[CurrentLibraryVersion].JObject? ==>
      var o := root[CurrentLibraryVersion].fields;
      && r.Parsed?
      && (IsEnabledKey in o ==> r.config.isEnabled == ParseAsBoolean(o[IsEnabledKey]))
      && (IsEnabledKey !in o ==> !r.config.isEnabled)
      && (BatterySaverKey in o ==> r.config.batterySaver == ParseAsBoolean(o[BatterySaverKey]))
      && (BatterySaverKey !in o ==> !r.config.batterySaver)
      && (DispatchExpirationKey in o ==> r.config.dispatchExpiration == ParseAsInt(o[DispatchExpirationKey]))
      && (DispatchExpirationKey !in o ==> r.config.dispatchExpiration == 0)
      && (EventBatchSizeKey in o ==> r.config.eventBatchSize == ParseAsInt(o[EventBatchSizeKey]))
      && (EventBatchSizeKey !in o ==> r.config.eventBatchSize == 0)
      && (OfflineDispatchLimitKey in o ==> r.config.offlineDispatchLimit == ParseAsInt(o[OfflineDispatchLimitKey]))
      && (OfflineDispatchLimitKey !in o ==> r.config.offlineDispatchLimit == 0)
      && (WifiOnlySendingKey in o ==> r.config.wifiOnlySending == ParseAsBoolean(o[WifiOnlySendingKey]))
      && (WifiOnlySendingKey !in o ==> !r.config.wifiOnlySending)
      && (IVarTrackingKey in o ==> r.config.iVarTracking == ParseAsBoolean(o[IVarTrackingKey]))
      && (IVarTrackingKey !in o ==> !r.config.iVarTracking)
      && (MobileCompanionKey in o ==> r.config.mobileCompanion == ParseAsBoolean(o[MobileCompanionKey]))
      && (MobileCompanionKey !in o ==> !r.config.mobileCompanion)
      && (UIAutoTrackingKey in o ==> r.config.uiAutoTracking == ParseAsBoolean(o[UIAutoTrackingKey]))
      && (UIAutoTrackingKey !in o ==> !r.config.uiAutoTracking)
  {
    if CurrentLibraryVersion !in root then MissingVersion
    else if root[CurrentLibraryVersion].JObject? then
      var o := root[CurrentLibraryVersion].fields;
      Parsed(VersionConfig(
        Field(o, IsEnabledKey, ParseAsBoolean, Blank.isEnabled),
        Field(o, BatterySaverKey, ParseAsBoolean, Blank.batterySaver),
        Field(o, DispatchExpirationKey, ParseAsInt, Blank.dispatchExpiration),
        Field(o, EventBatchSizeKey, ParseAsInt, Blank.eventBatchSize),
        Field(o, OfflineDispatchLimitKey, ParseAsInt, Blank.offlineDispatchLimit),
        Field(o, WifiOnlySendingKey, ParseAsBoolean, Blank.wifiOnlySending),
        Field(o, IVarTrackingKey, ParseAsBoolean, Blank.iVarTracking),
        Field(o, MobileCompanionKey, ParseAsBoolean, Blank.mobileCompanion),
        Field(o, UIAutoTrackingKey, ParseAsBoolean, Blank.uiAutoTracking)))
    else Parsed(Default)
  }

  // -----------------------------------------------------------------------
  // A writer for the settings object, as the tracking page publishes it

  predicate InInt32Range(c: VersionConfig) {
    && Int32Min <= c.dispatchExpiration <= Int32Max
    && Int32Min <= c.eventBatchSize <= Int32Max
    && Int32Min <= c.offlineDispatchLimit <= Int32Max
  }

  /** A settings object holding the nine given values under their keys. */
  function SettingsObject(isEnabled: Json, batterySaver: Json, dispatchExpiration: Json,
                          eventBatchSize: Json, offlineDispatchLimit: Json, wifiOnlySending: Json,
                          iVarTracking: Json, mobileCompanion: Json, uiAutoTracking: Json): (o: map<string, Json>)
    ensures IsEnabledKey in o && o[IsEnabledKey] == isEnabled
    ensures BatterySaverKey in o && o[BatterySaverKey] == batterySaver
    ensures DispatchExpirationKey in o && o[DispatchExpirationKey] == dispatchExpiration
    ensures EventBatchSizeKey in o && o[EventBatchSizeKey] == eventBatchSize
    ensures OfflineDispatchLimitKey in o && o[OfflineDispatchLimitKey] == offlineDispatchLimit
    ensures WifiOnlySendingKey in o && o[WifiOnlySendingKey] == wifiOnlySending
    ensures IVarTrackingKey in o && o[IVarTrackingKey] == iVarTracking
    ensures MobileCompanionKey in o && o[MobileCompanionKey] == mobileCompanion
    ensures UIAutoTrackingKey in o && o[UIAutoTrackingKey] == uiAutoTracking
  {
    map[
      IsEnabledKey := isEnabled,
      BatterySaverKey := batterySaver,
      DispatchExpirationKey := dispatchExpiration,
      EventBatchSizeKey := eventBatchSize,
      OfflineDispatchLimitKey := offlineDispatchLimit,
      WifiOnlySendingKey := wifiOnlySending,
      IVarTrackingKey := iVarTracking,
      MobileCompanionKey := mobileCompanion,
      UIAutoTrackingKey := uiAutoTracking]
  }

  /** The settings object for `c`, with native JSON booleans and numbers. */
  function Published(c: VersionConfig): map<string, Json> {
    SettingsObject(
      JBool(c.isEnabled), JBool(c.batterySaver), JNumber(c.dispatchExpiration),
      JNumber(c.eventBatchSize), JNumber(c.offlineDispatchLimit), JBool(c.wifiOnlySending),
      JBool(c.iVarTracking), JBool(c.mobileCompanion), JBool(c.uiAutoTracking))
  }

  /** The same settings object with every value written as a string. */
  function PublishedAsStrings(c: VersionConfig): map<string, Json> {
    SettingsObject(
      JString(BoolToString(c.isEnabled)), JString(BoolToString(c.batterySaver)),
      JString(IntToString(c.dispatchExpiration)), JString(IntToString(c.eventBatchSize)),
      JString(IntToString(c.offlineDispatchLimit)), JString(BoolToString(c.wifiOnlySending)),
      JString(BoolToString(c.iVarTracking)), JString(BoolToString(c.mobileCompanion)),
      JString(BoolToString(c.uiAutoTracking)))
  }

  // -----------------------------------------------------------------------
  // Properties of the conversions and of Parse

  /** ParseAsBoolean reads native booleans and both spellings of boolean
      strings back, and is false for anything it cannot read. */
  lemma ParseAsBooleanReadsBack(b: bool)
    ensures ParseAsBoolean(JBool(b)) == b
    ensures ParseAsBoolean(JString(BoolToString(b))) == b
    ensures ParseAsBoolean(JString(if b then "true" else "false")) == b
  {
    BoolTryParseReadsBack(b);
    StringEntry(BoolToString(b));
    StringEntry(if b then "true" else "false");
  }

  lemma StringEntry(s: string)
    ensures ParseAsBoolean(JString(s)) == BoolTryParse(s).GetOr(false)
  {
  }

  /** ParseAsBoolean is true only for a true boolean or a string that
      Boolean.TryParse reads as true. */
  lemma ParseAsBooleanTrueOnlyFor(v: Json)
    ensures ParseAsBoolean(v) <==> v == JBool(true) || (v.JString? && BoolTryParse(v.s) == Some(true))
  {
  }

  /** ParseAsInt reads back every 32-bit number, native or written as a string. */
  lemma ParseAsIntReadsBack(n: int)
    requires Int32Min <= n <= Int32Max
    ensures ParseAsInt(JNumber(n)) == n
    ensures ParseAsInt(JString(IntToString(n))) == n
  {
    IntTryParseReadsBack(n);
  }

  /** Parse gives `c` for any settings object whose nine entries each
      convert to the matching field of `c`. */
  lemma ParseReads(o: map<string, Json>, c: VersionConfig, others: map<string, Json>)
    requires IsEnabledKey in o && ParseAsBoolean(o[IsEnabledKey]) == c.isEnabled
    requires BatterySaverKey in o && ParseAsBoolean(o[BatterySaverKey]) == c.batterySaver
    requires DispatchExpirationKey in o && ParseAsInt(o[DispatchExpirationKey]) == c.dispatchExpiration
    requires EventBatchSizeKey in o && ParseAsInt(o[EventBatchSizeKey]) == c.eventBatchSize
    requires OfflineDispatchLimitKey in o && ParseAsInt(o[OfflineDispatchLimitKey]) == c.offlineDispatchLimit
    requires WifiOnlySendingKey in o && ParseAsBoolean(o[WifiOnlySendingKey]) == c.wifiOnlySending
    requires IVarTrackingKey in o && ParseAsBoolean(o[IVarTrackingKey]) == c.iVarTracking
    requires MobileCompanionKey in o && ParseAsBoolean(o[MobileCompanionKey]) == c.mobileCompanion
    requires UIAutoTrackingKey in o && ParseAsBoolean(o[UIAutoTrackingKey]) == c.uiAutoTracking
    ensures Parse(others[CurrentLibraryVersion := JObject(o)]) == Parsed(c)
  {
  }

  /** Parse reads back every configuration the tracking page publishes with
      native JSON values. */
  lemma ParsePublished(c: VersionConfig, others: map<string, Json>)
    requires InInt32Range(c)
    ensures Parse(others[CurrentLibraryVersion := JObject(Published(c))]) == Parsed(c)
  {
    ParseReads(Published(c), c, others);
  }

  /** Parse also reads back every configuration published as strings. */
  lemma ParsePublishedAsStrings(c: VersionConfig, others: map<string, Json>)
    requires InInt32Range(c)
    ensures Parse(others[CurrentLibraryVersion := JObject(PublishedAsStrings(c))]) == Parsed(c)
  {
    var o := PublishedAsStrings(c);
    BooleanEntry(o, IsEnabledKey, c.isEnabled);
    BooleanEntry(o, BatterySaverKey, c.batterySaver);
    IntEntry(o, DispatchExpirationKey, c.dispatchExpiration);
    IntEntry(o, EventBatchSizeKey, c.eventBatchSize);
    IntEntry(o, OfflineDispatchLimitKey, c.offlineDispatchLimit);
    BooleanEntry(o, WifiOnlySendingKey, c.wifiOnlySending);
    BooleanEntry(o, IVarTrackingKey, c.iVarTracking);
    BooleanEntry(o, MobileCompanionKey, c.mobileCompanion);
    BooleanEntry(o, UIAutoTrackingKey, c.uiAutoTracking);
    ParseReads(o, c, others);
  }

  lemma BooleanEntry(o: map<string, Json>, key: string, b: bool)
    requires key in o && o[key] == JString(BoolToString(b))
    ensures ParseAsBoolean(o[key]) == b
  {
    ParseAsBooleanReadsBack(b);
  }

  lemma IntEntry(o: map<string, Json>, key: string, n: int)
    requires Int32Min <= n <= Int32Max
    requires key in o && o[key] == JString(IntToString(n))
    ensures ParseAsInt(o[key]) == n
  {
    ParseAsIntReadsBack(n);
  }

  /** A present but empty settings object does not give the default: it
      gives the blank configuration, which disables tracking and has a
      batch size of zero. */
  lemma EmptySettingsObjectIsBlank(others: map<string, Json>)
    ensures Parse(others[CurrentLibraryVersion := JObject(map[])]) == Parsed(Blank)
    ensures Blank != Default && !Blank.isEnabled && Blank.eventBatchSize == 0
  {
  }

  /** A settings object that is not a JSON object is ignored. */
  lemma NonObjectSettingsIgnored(others: map<string, Json>, v: Json)
    requires !v.JObject?
    ensures Parse(others[CurrentLibraryVersion := v]) == Parsed(Default)
  {
  }

  /** Each field is read from its own key alone: removing an unrelated key
      such as "ivar_tracking" does not change whether tracking is enabled,
      its batch size or its queue limits. */
  lemma FieldsAreIndependent(o: map<string, Json>, others: map<string, Json>)
    ensures var a := Parse(others[CurrentLibraryVersion := JObject(o)]).config;
      var b := Parse(others[CurrentLibraryVersion := JObject(o - {IVarTrackingKey})]).config;
      && a.isEnabled == b.isEnabled
      && a.eventBatchSize == b.eventBatchSize
      && a.offlineDispatchLimit == b.offlineDispatchLimit
      && a.dispatchExpiration == b.dispatchExpiration
      && !b.iVarTracking
  {
  }

  /** The settings object {"event_batch_size": "3", "_is_enabled": "true"}
      gives a batch size of three and tracking enabled; every other boolean
      is false and both queue limits are zero. */
  lemma PartialSettingsExample(others: map<string, Json>)
    ensures Parse(others[CurrentLibraryVersion := JObject(map[EventBatchSizeKey := JString("3"), IsEnabledKey := JString("true")])])
      == Parsed(VersionConfig(true, false, 0, 3, 0, false, false, false, false))
  {
    var o := map[EventBatchSizeKey := JString("3"), IsEnabledKey := JString("true")];
    ExampleFields(o);
  }

  lemma ExampleFields(o: map<string, Json>)
    requires o == map[EventBatchSizeKey := JString("3"), IsEnabledKey := JString("true")]
    ensures IsEnabledKey in o && ParseAsBoolean(o[IsEnabledKey])
    ensures EventBatchSizeKey in o && ParseAsInt(o[EventBatchSizeKey]) == 3
    ensures BatterySaverKey !in o && DispatchExpirationKey !in o && OfflineDispatchLimitKey !in o
    ensures WifiOnlySendingKey !in o && IVarTrackingKey !in o && MobileCompanionKey !in o && UIAutoTrackingKey !in o
  {
    ExampleEnabled(o);
    ExampleBatchSize(o);
    ExampleAbsentKeys(o);
  }

  lemma ExampleAbsentKeys(o: map<string, Json>)
    requires o.Keys == {EventBatchSizeKey, IsEnabledKey}
    ensures BatterySaverKey !in o && DispatchExpirationKey !in o && OfflineDispatchLimitKey !in o
    ensures WifiOnlySendingKey !in o && IVarTrackingKey !in o && MobileCompanionKey !in o && UIAutoTrackingKey !in o
  {
  }

  lemma ExampleEnabled(o: map<string, Json>)
    requires IsEnabledKey in o && o[IsEnabledKey] == JString("true")
    ensures ParseAsBoolean(o[IsEnabledKey])
  {
    ParseAsBooleanReadsBack(true);
  }

  lemma ExampleBatchSize(o: map<string, Json>)
    requires EventBatchSizeKey in o && o[EventBatchSizeKey] == JString("3")
    ensures ParseAsInt(o[EventBatchSizeKey]) == 3
  {
    ParseAsIntReadsBack(3);
    assert IntToString(3) == "3";
  }
}
