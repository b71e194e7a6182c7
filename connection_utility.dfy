/** ConnectionUtility: the process-wide view of network connectivity. The
    online state is cached once it is known and refreshed only by the
    platform's network-status-changed event, which notifies every subscribed
    handler when the state changes. The platform's current internet
    connection profile is passed in as a value. */
module Connection {
  import opened Wrappers

  /** The platform enum; its `None` member is `NoConnectivity` here. */
  datatype NetworkConnectivityLevel = NoConnectivity | LocalAccess | ConstrainedInternetAccess | InternetAccess

  datatype NetworkCostType = Unknown | Unrestricted | Fixed | Variable

  /** The parts of a connection profile the library reads. */
  datatype ConnectionProfile = ConnectionProfile(level: NetworkConnectivityLevel, cost: NetworkCostType)

  /** The platform the library is built for: phone builds can read the
      power-saving mode, the others cannot. */
  datatype Build = Phone | Store

  /** A subscribed EventHandler<bool>, identified by its delegate identity. */
  datatype Handler = Handler(id: nat)

  /** The online state a profile gives: internet access through a profile. */
  predicate ProfileIsOnline(profile: Option<ConnectionProfile>) {
    profile.Some? && profile.value.level == InternetAccess
  }

  /** IsOnWiFi: an unrestricted-cost profile. Reading it without a profile
      throws, which is None here. */
  function IsOnWiFi(profile: Option<ConnectionProfile>): (r: Option<bool>)
    ensures r.Some? <==> profile.Some?
    ensures r == Some(true) <==> profile.Some? && profile.value.cost == Unrestricted
  {
    if profile.None? then None else Some(profile.value.cost == Unrestricted)
  }

  /** IsBatterySaver: whether the phone's power-saving mode is on; always
      false on other builds. */
  function IsBatterySaver(build: Build, powerSavingOn: bool): (r: bool)
    ensures r <==> build == Phone && powerSavingOn
  {
    match build
    case Phone => powerSavingOn
    case Store => false
  }

  predicate NoDuplicates(hs: seq<Handler>) {
    forall i, j :: 0 <= i < j < |hs| ==> hs[i] != hs[j]
  }

  /** The handler list after subscribing `h`: appended unless already present. */
  function Subscribed(hs: seq<Handler>, h: Handler): seq<Handler> {
    if h in hs then hs else hs + [h]
  }

  /** The position of the first occurrence of `h`. */
  function IndexOf(hs: seq<Handler>, h: Handler): (i: nat)
    requires h in hs
    ensures i < |hs| && hs[i] == h && h !in hs[..i]
  {
    if hs[0] == h then 0 else 1 + IndexOf(hs[1..], h)
  }

  /** The handler list after unsubscribing `h`: its first occurrence removed. */
  function Unsubscribed(hs: seq<Handler>, h: Handler): seq<Handler> {
    if h in hs then hs[..IndexOf(hs, h)] + hs[IndexOf(hs, h) + 1..] else hs
  }

  /** One handler invocation: who is called and with which online value. */
  datatype Invocation = Invocation(handler: Handler, isOnline: bool)

  class ConnectionUtility {
    var isOnline: Option<bool>
    var handlers: seq<Handler>

    /** The static state before anything has been read. */
    constructor ()
      ensures isOnline == None && handlers == []
    {
      isOnline := None;
      handlers := [];
    }

    /** IsOnline: the cached value when there is one; otherwise read from the
      profile, and cached only when there is a profile. */
    method IsOnline(profile: Option<ConnectionProfile>) returns (online: bool)
      modifies this
      ensures old(isOnline).Some? ==> online == old(isOnline).value && isOnline == old(isOnline)
      ensures old(isOnline).None? ==> online == ProfileIsOnline(profile)
      ensures old(isOnline).None? ==> isOnline == (if profile.Some? then Some(online) else None)
      ensures handlers == old(handlers)
    {
      if isOnline.Some? {
        return isOnline.value;
      }
      online := DetermineIsOnline(profile);
    }

    method DetermineIsOnline(profile: Option<ConnectionProfile>) returns (online: bool)
      modifies this
      ensures online == ProfileIsOnline(profile)
      ensures isOnline == (if profile.Some? then Some(online) else old(isOnline))
      ensures handlers == old(handlers)
    {
      if profile.None? {
        return false;
      }
      isOnline := Some(profile.value.level == InternetAccess);
      online := isOnline.value;
    }

    method SubscribeConnectionEvent(h: Handler)
      modifies this
      ensures handlers == Subscribed(old(handlers), h)
      ensures isOnline == old(isOnline)
    {
      if h !in handlers {
        handlers := handlers + [h];
      }
    }

    method UnsubscribeConnectionEvent(h: Handler)
      modifies this
      ensures handlers == Unsubscribed(old(handlers), h)
      ensures isOnline == old(isOnline)
    {
      if h in handlers {
        var i := IndexOf(handlers, h);
        handlers := handlers[..i] + handlers[i + 1..];
      }
    }

    /** The network-status-changed event: refreshes the cached state from the
        profile and, when it differs from the previous cached state (including
        when there was none) and someone is subscribed, invokes every handler
        in subscription order with the new state. */
    method NetworkStatusChanged(profile: Option<ConnectionProfile>) returns (calls: seq<Invocation>)
      modifies this
      ensures isOnline == Some(ProfileIsOnline(profile))
      ensures handlers == old(handlers)
      ensures calls == Notifications(old(isOnline), ProfileIsOnline(profile), handlers)
    {
      var previousState := isOnline;
      if profile.None? {
        isOnline := Some(false);
      } else {
        isOnline := Some(profile.value.level == InternetAccess);
      }
      calls := [];
      if previousState != isOnline && |handlers| > 0 {
        var i := 0;
        while i < |handlers|
          invariant 0 <= i <= |handlers|
          invariant |calls| == i
          invariant forall k :: 0 <= k < i ==> calls[k] == Invocation(handlers[k], isOnline.value)
        {
          calls := calls + [Invocation(handlers[i], isOnline.value)];
          i := i + 1;
        }
      }
    }
  }

  /** The invocations a status change from `previous` to `now` makes: every
      handler, in order, with the new state, when the state changed and
      someone is subscribed; none otherwise. */
  function Notifications(previous: Option<bool>, now: bool, hs: seq<Handler>): (calls: seq<Invocation>)
    ensures calls != [] <==> previous != Some(now) && hs != []
    ensures calls != [] ==> |calls| == |hs| && forall k :: 0 <= k < |hs| ==> calls[k] == Invocation(hs[k], now)
  {
    if previous != Some(now) && |hs| > 0 then seq(|hs|, k requires 0 <= k < |hs| => Invocation(hs[k], now))
    else []
  }

  // -----------------------------------------------------------------------
  // Properties of the handler list and of notification

  /** Subscribing twice is the same as subscribing once. */
  lemma SubscribeIdempotent(hs: seq<Handler>, h: Handler)
    ensures Subscribed(Subscribed(hs, h), h) == Subscribed(hs, h)
    ensures h in Subscribed(hs, h)
  {
  }

  /** Subscribing keeps the list free of duplicates. */
  lemma SubscribeKeepsNoDuplicates(hs: seq<Handler>, h: Handler)
    requires NoDuplicates(hs)
    ensures NoDuplicates(Subscribed(hs, h))
  {
  }

  /** Unsubscribing removes the handler entirely from a list without
      duplicates, keeps the others in order, and keeps the list free of
      duplicates. */
  lemma UnsubscribeRemoves(hs: seq<Handler>, h: Handler)
    requires NoDuplicates(hs)
    ensures h !in Unsubscribed(hs, h)
    ensures NoDuplicates(Unsubscribed(hs, h))
    ensures forall g :: g != h ==> (g in Unsubscribed(hs, h) <==> g in hs)
  {
    if h in hs {
      var i := IndexOf(hs, h);
      RemoveAtKeepsNoDuplicates(hs, i);
      RemoveAtMembers(hs, i);
    }
  }

  /** Removing one position from a list without duplicates leaves a list
      without duplicates. */
  lemma RemoveAtKeepsNoDuplicates(hs: seq<Handler>, i: nat)
    requires NoDuplicates(hs) && i < |hs|
    ensures NoDuplicates(hs[..i] + hs[i + 1..])
  {
    var r := hs[..i] + hs[i + 1..];
    forall a, b | 0 <= a < b < |r| ensures r[a] != r[b] {
      var a' := if a < i then a else a + 1;
      var b' := if b < i then b else b + 1;
      assert r[a] == hs[a'] && r[b] == hs[b'];
    }
  }

  /** Removing one position from a list without duplicates removes exactly
      the handler held there. */
  lemma RemoveAtMembers(hs: seq<Handler>, i: nat)
    requires NoDuplicates(hs) && i < |hs|
    ensures forall g :: g in hs[..i] + hs[i + 1..] <==> g in hs && g != hs[i]
  {
    var r := hs[..i] + hs[i + 1..];
    forall g ensures g in r <==> g in hs && g != hs[i] {
      if g in r {
        var k :| 0 <= k < |r| && r[k] == g;
        var k' := if k < i then k else k + 1;
        assert hs[k'] == g;
      }
      if g in hs && g != hs[i] {
        var k :| 0 <= k < |hs| && hs[k] == g;
        assert k != i;
        if k < i { assert r[k] == g; } else { assert r[k - 1] == g; }
      }
    }
  }

  /** Subscribing a new handler and then unsubscribing it restores the list. */
  lemma SubscribeThenUnsubscribe(hs: seq<Handler>, h: Handler)
    requires h !in hs
    ensures Unsubscribed(Subscribed(hs, h), h) == hs
  {
    var s := hs + [h];
    assert IndexOf(s, h) == |hs|;
    assert s[..|hs|] == hs;
  }

  /** A change to the handler list through the event's add or remove accessor. */
  datatype Subscription = Subscribe(h: Handler) | Unsubscribe(h: Handler)

  function ApplyAll(hs: seq<Handler>, ops: seq<Subscription>): seq<Handler>
    decreases |ops|
  {
    if ops == [] then hs
    else
      var next := match ops[0]
        case Subscribe(h) => Subscribed(hs, h)
        case Unsubscribe(h) => Unsubscribed(hs, h);
      ApplyAll(next, ops[1..])
  }

  /** Any sequence of subscriptions and unsubscriptions keeps the handler
      list free of duplicates, so each handler is notified at most once. */
  lemma {:induction false} ApplyAllKeepsNoDuplicates(hs: seq<Handler>, ops: seq<Subscription>)
    requires NoDuplicates(hs)
    ensures NoDuplicates(ApplyAll(hs, ops))
    decreases |ops|
  {
    if ops != [] {
      match ops[0]
      case Subscribe(h) =>
        SubscribeKeepsNoDuplicates(hs, h);
        ApplyAllKeepsNoDuplicates(Subscribed(hs, h), ops[1..]);
      case Unsubscribe(h) =>
        UnsubscribeRemoves(hs, h);
        ApplyAllKeepsNoDuplicates(Unsubscribed(hs, h), ops[1..]);
    }
  }

  /** Two successive events with the same outcome notify only once. */
  lemma RepeatedStatusNotifiesOnce(now: bool, hs: seq<Handler>)
    ensures Notifications(Some(now), now, hs) == []
  {
  }

  /** The first status event always notifies a non-empty list, even when an
      earlier uncached read without a profile had already answered false. */
  lemma FirstEventAlwaysNotifies(now: bool, hs: seq<Handler>)
    requires hs != []
    ensures |Notifications(None, now, hs)| == |hs|
  {
  }
}
