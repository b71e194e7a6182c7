/** TealiumSettings: the account, profile and environment a tagger reports
    to, its base (global) variables, and the fixed defaults its constructor
    assigns to everything else. */
module Settings {
  import opened Wrappers
  import opened Text
  import opened Variables

  /** TealiumEnvironment is an enum backed by an int; a cast can give it any
      other value. */
  type TealiumEnvironment = int

  const TealiumTargetDev: TealiumEnvironment := 0
  const TealiumTargetQA: TealiumEnvironment := 1
  const TealiumTargetProd: TealiumEnvironment := 2

  const DefaultClickEventName: string := "link"
  const DefaultClickIdParam: string := "link_id"
  /** Defined, but the constructor's assignment of it is commented out. */
  const DefaultViewEventName: string := "view"
  const DefaultViewIdParam: string := "screen_title"

  /** A null event name is None. */
  datatype TealiumSettings = TealiumSettings(
    account: string,
    profile: string,
    environment: TealiumEnvironment,
    enableOfflineMode: bool,
    useSSL: bool,
    autoTrackPageViews: bool,
    viewMetricEventName: Option<string>,
    viewMetricIdParam: string,
    clickMetricEventName: Option<string>,
    clickMetricIdParam: string,
    baseVariables: Option<Dict<Value>>)

  /** The condition under which the constructor logs that account and
      profile are required; it constructs the settings all the same. */
  predicate MissingAccountOrProfile(account: string, profile: string) {
    IsBlank(account) || IsBlank(profile)
  }

  /** The constructor: the four arguments are stored as given, offline mode
      and automatic page-view tracking are on, SSL is off, the click event
      and both id parameters get their defaults, and the view event name is
      left null. */
  function NewSettings(account: string, profile: string, environment: TealiumEnvironment,
                       baseVariables: Option<Dict<Value>>): (s: TealiumSettings)
    ensures s.account == account && s.profile == profile
    ensures s.environment == environment && s.baseVariables == baseVariables
    ensures s.enableOfflineMode && s.autoTrackPageViews && !s.useSSL
    ensures s.viewMetricEventName == None
    ensures s.clickMetricEventName == Some("link")
    ensures s.viewMetricIdParam == "screen_title" && s.clickMetricIdParam == "link_id"
  {
    TealiumSettings(account, profile, environment, true, false, true,
      None, DefaultViewIdParam, Some(DefaultClickEventName), DefaultClickIdParam, baseVariables)
  }

  /** A click's id parameter and a view's id parameter are different keys by
      default, so tracking a click never overwrites the persisted view name. */
  lemma DefaultIdParamsDiffer(account: string, profile: string, environment: TealiumEnvironment,
                              baseVariables: Option<Dict<Value>>)
    ensures var s := NewSettings(account, profile, environment, baseVariables);
      s.clickMetricIdParam != s.viewMetricIdParam
  {
  }
}
