/**
 * The invariant every reachable activity state keeps, and its preservation by
 * every step. Its heart is that each Dart result object is answered at most
 * once, and each one-shot gate is won at most once.
 */
module ArbiterInvariant {
  import opened Wrappers
  import opened SsidCodec
  import LegacyConnector
  import opened RequestArbiter

  /** No result object appears twice in the reply log. */
  ghost predicate NoDuplicateResults(d: seq<Delivery>)
  {
    forall i, j :: 0 <= i < j < |d| ==> d[i].result != d[j].result
  }

  /** The pending result has not been answered yet. */
  ghost predicate PendingUnanswered(s: Activity)
  {
    s.pendingResult.Some? ==> forall i :: 0 <= i < |s.delivered| ==> s.delivered[i].result != s.pendingResult.value
  }

  /** Every identity in use was drawn before `nextId`, so the next one drawn is fresh. */
  ghost predicate IdsIssued(s: Activity)
  {
    (s.pendingResult.Some? ==> s.pendingResult.value < s.nextId)
    && (forall i :: 0 <= i < |s.delivered| ==> s.delivered[i].result < s.nextId)
    && (forall g :: g in s.gates ==> g < s.nextId)
    && (forall cb :: cb in s.callbacks ==> cb < s.nextId)
  }

  /** The references the activity keeps point at objects that exist. */
  ghost predicate WellLinked(s: Activity)
  {
    (s.pendingCallback.Some? ==> s.pendingCallback.value in s.callbacks)
    && (forall cb :: cb in s.callbacks ==> s.callbacks[cb].completion in s.gates)
    && (forall cb :: cb in s.specifierTimers ==> cb in s.callbacks)
    && (forall g :: g in s.suggestionTimers ==> g in s.gates)
    && (s.suggestionCompletion.Some? ==> s.suggestionCompletion.value in s.gates && s.suggestionTargetSsid.Some?)
  }

  /** A gate is closed exactly when it has been won, and no gate has been won twice. */
  ghost predicate GatesWonOnce(s: Activity)
  {
    (forall i, j :: 0 <= i < j < |s.acted| ==> s.acted[i] != s.acted[j])
    && (forall i :: 0 <= i < |s.acted| ==> s.acted[i] in s.gates)
    && (forall g :: g in s.gates ==> (s.gates[g] <==> g in s.acted))
  }

  /** The platform holds the suggestion receiver at most once, and exactly when the field says so. */
  ghost predicate ReceiverRegisteredOnce(s: Activity)
  {
    s.receiverRegistrations == s.receiverUnregistrations + (if s.suggestionReceiver then 1 else 0)
  }

  /** Every specifier callback was made with fallback allowed (the only call site passes true). */
  ghost predicate CallbacksAllowFallback(s: Activity)
  {
    forall cb :: cb in s.callbacks ==> s.callbacks[cb].allowFallback
  }

  ghost predicate Invariant(s: Activity)
  {
    NoDuplicateResults(s.delivered) && PendingUnanswered(s) && IdsIssued(s) && WellLinked(s)
    && GatesWonOnce(s) && ReceiverRegisteredOnce(s) && |s.activeSuggestions| <= 1
  }

  lemma InitSatisfiesInvariant(sdk: nat)
    ensures Invariant(Init(sdk))
  {
  }

  // ---------------------------------------------------------- building blocks

  lemma CancelPendingKeepsInvariant(s: Activity, success: bool)
    requires Invariant(s)
    ensures Invariant(CancelPending(s, success))
  {
    if s.pendingResult.Some? {
      var t := CancelPending(s, success);
      assert t.delivered == s.delivered + [Delivery(s.pendingResult.value, Answered(success))];
      assert NoDuplicateResults(t.delivered);
    }
  }

  lemma ResolveKeepsInvariant(s: Activity, success: bool, source: Option<CallbackId>)
    requires Invariant(s)
    ensures Invariant(Resolve(s, success, source))
  {
    CancelPendingKeepsInvariant(s, success);
  }

  lemma CloseGateKeepsInvariant(s: Activity, g: GateId)
    requires Invariant(s) && GateOpen(s, g)
    ensures Invariant(CloseGate(s, g))
  {
    var t := CloseGate(s, g);
    assert g !in s.acted;
    assert forall i :: 0 <= i < |s.acted| ==> t.acted[i] == s.acted[i];
    assert t.acted[|s.acted|] == g;
  }

  lemma ConnectUsingSuggestionKeepsInvariant(s: Activity, t: Target, status: int)
    requires Invariant(s)
    ensures Invariant(ConnectUsingSuggestion(s, t, status))
  {
    var s1 := ClearSuggestions(s).(activeSuggestions := [BuildSuggestion(t, s.sdk)]);
    assert Invariant(s1);
    if status != STATUS_NETWORK_SUGGESTIONS_SUCCESS {
      ResolveKeepsInvariant(s1, false, None);
    } else {
      var s2 := EnsureReceiverRegistered(s1).(suggestionTargetSsid := Some(t.ssid));
      assert Invariant(s2);
      var g := s2.nextId;
      assert g !in s2.gates;
      assert g !in s2.acted;
    }
  }

  lemma DisconnectKeepsInvariant(s: Activity)
    requires Invariant(s)
    ensures Invariant(Disconnect(s))
  {
  }

  lemma ClearSuggestionsKeepsInvariant(s: Activity)
    requires Invariant(s)
    ensures Invariant(ClearSuggestions(s))
  {
  }

  /** Drawing `count` fresh identities, the first of them as a new open gate. */
  lemma FreshGateKeepsInvariant(s: Activity, count: nat)
    requires Invariant(s) && count >= 1
    ensures Invariant(s.(gates := s.gates[s.nextId := false], nextId := s.nextId + count))
  {
    assert s.nextId !in s.gates && s.nextId !in s.acted;
  }

  /** A callback the platform accepted, made pending, with its timer posted. */
  lemma AcceptedCallbackKeepsInvariant(s: Activity, cb: CallbackId, c: SpecifierCallback)
    requires Invariant(s) && cb < s.nextId && c.completion in s.gates
    ensures Invariant(s.(pendingCallback := Some(cb), callbacks := s.callbacks[cb := c],
                         specifierTimers := s.specifierTimers + {cb}))
  {
  }

  /** A fresh result made pending where none was. */
  lemma NewPendingResultKeepsInvariant(s: Activity)
    requires Invariant(s) && s.pendingResult.None?
    ensures Invariant(s.(pendingResult := Some(s.nextId), nextId := s.nextId + 1))
  {
  }

  lemma ConnectUsingSpecifierKeepsInvariant(s: Activity, t: Target, allowFallback: bool, requestDenied: bool, status: int)
    requires Invariant(s)
    ensures Invariant(ConnectUsingSpecifier(s, t, allowFallback, requestDenied, status))
  {
    var s0 := s.(gates := s.gates[s.nextId := false], nextId := s.nextId + 2);
    FreshGateKeepsInvariant(s, 2);
    if requestDenied {
      DeniedSpecifierKeepsInvariant(s, s0, t, allowFallback, status);
    } else {
      AcceptedSpecifierKeepsInvariant(s, s0, t, allowFallback, status);
    }
  }

  /** A refused network request: the attempt torn down, then the fallback or the failure. */
  lemma DeniedSpecifierKeepsInvariant(s: Activity, s0: Activity, t: Target, allowFallback: bool, status: int)
    requires s0 == s.(gates := s.gates[s.nextId := false], nextId := s.nextId + 2) && Invariant(s0)
    ensures Invariant(ConnectUsingSpecifier(s, t, allowFallback, true, status))
  {
    var s1 := NewSpecifierAttempt(s);
    assert Disconnect(s1) == Disconnect(s0);
    DisconnectKeepsInvariant(s0);
    if allowFallback {
      ConnectUsingSuggestionKeepsInvariant(Disconnect(s0), t, status);
    } else {
      ResolveKeepsInvariant(Disconnect(s0), false, Some(s.nextId + 1));
    }
  }

  /** An accepted network request: the callback held by the platform, pending, with its timer posted. */
  lemma AcceptedSpecifierKeepsInvariant(s: Activity, s0: Activity, t: Target, allowFallback: bool, status: int)
    requires s0 == s.(gates := s.gates[s.nextId := false], nextId := s.nextId + 2) && Invariant(s0)
    ensures Invariant(ConnectUsingSpecifier(s, t, allowFallback, false, status))
  {
    var g, cb := s.nextId, s.nextId + 1;
    AcceptedCallbackKeepsInvariant(s0, cb, SpecifierCallback(t, allowFallback, g));
    assert ConnectUsingSpecifier(s, t, allowFallback, false, status)
        == s0.(pendingCallback := Some(cb), callbacks := s0.callbacks[cb := SpecifierCallback(t, allowFallback, g)],
               specifierTimers := s0.specifierTimers + {cb});
  }

  /** The start of `connectToWifi`: the previous result answered false, a fresh one pending, the old attempt torn down. */
  lemma BeginRequestKeepsInvariant(s: Activity)
    requires Invariant(s)
    ensures Invariant(BeginRequest(s))
  {
    CancelPendingKeepsInvariant(s, false);
    var s1 := CancelPending(s, false);
    NewPendingResultKeepsInvariant(s1);
    var s1a := s1.(pendingResult := Some(s1.nextId), nextId := s1.nextId + 1);
    DisconnectKeepsInvariant(s1a);
    ClearSuggestionsKeepsInvariant(Disconnect(s1a));
  }

  lemma ConnectToWifiKeepsInvariant(s: Activity, t: Target, requestDenied: bool, status: int,
                                    legacy: LegacyConnector.LegacyPlatform)
    requires Invariant(s)
    ensures Invariant(ConnectToWifi(s, t, requestDenied, status, legacy))
  {
    var s2 := BeginRequest(s);
    BeginRequestKeepsInvariant(s);
    if s.sdk >= SDK_Q {
      ConnectUsingSpecifierKeepsInvariant(s2, t, true, requestDenied, status);
    } else {
      ResolveKeepsInvariant(s2, LegacyConnector.LegacyConnect(legacy, t.ssid, t.password, t.hidden).success, None);
    }
  }

  lemma HandleConnectCallKeepsInvariant(s: Activity, ssid: Option<string>, password: Option<string>, hidden: Option<bool>,
                                        requestDenied: bool, status: int, legacy: LegacyConnector.LegacyPlatform)
    requires Invariant(s)
    ensures Invariant(HandleConnectCall(s, ssid, password, hidden, requestDenied, status, legacy))
  {
    if ssid.None? || IsBlank(ssid.value) {
      var t := HandleConnectCall(s, ssid, password, hidden, requestDenied, status, legacy);
      assert t.delivered == s.delivered + [Delivery(s.nextId, RejectedInvalidArgument)];
      assert NoDuplicateResults(t.delivered);
    } else {
      ConnectToWifiKeepsInvariant(s, Target(ssid.value, password.GetOr(""), hidden.GetOr(false)), requestDenied, status, legacy);
    }
  }

  // ------------------------------------------------------------------- events

  lemma OnAvailableKeepsInvariant(s: Activity, cb: CallbackId, network: NetworkId)
    requires Invariant(s) && cb in s.callbacks
    ensures Invariant(OnAvailable(s, cb, network))
  {
    var g := s.callbacks[cb].completion;
    if GateOpen(s, g) {
      CloseGateKeepsInvariant(s, g);
      ResolveKeepsInvariant(Bind(CloseGate(s, g), Some(network)), true, Some(cb));
    }
  }

  lemma OnUnavailableKeepsInvariant(s: Activity, cb: CallbackId)
    requires Invariant(s) && cb in s.callbacks
    ensures Invariant(OnUnavailable(s, cb))
  {
    var c := s.callbacks[cb];
    if GateOpen(s, c.completion) {
      CloseGateKeepsInvariant(s, c.completion);
      ResolveKeepsInvariant(Disconnect(CloseGate(s, c.completion)), false, Some(cb));
    }
  }

  lemma OnLostKeepsInvariant(s: Activity, cb: CallbackId, network: NetworkId)
    requires Invariant(s) && cb in s.callbacks
    ensures Invariant(OnLost(s, cb, network))
  {
    var c := s.callbacks[cb];
    var s1 := UnbindLost(s, network);
    assert Invariant(s1);
    if GateOpen(s1, c.completion) {
      CloseGateKeepsInvariant(s1, c.completion);
      ResolveKeepsInvariant(CloseGate(s1, c.completion), false, Some(cb));
    }
  }

  lemma OnSpecifierTimeoutKeepsInvariant(s: Activity, cb: CallbackId, status: int)
    requires Invariant(s) && cb in s.callbacks
    ensures Invariant(OnSpecifierTimeout(s, cb, status))
  {
    var c := s.callbacks[cb];
    var s1 := s.(specifierTimers := s.specifierTimers - {cb});
    assert Invariant(s1);
    if GateOpen(s1, c.completion) {
      CloseGateKeepsInvariant(s1, c.completion);
      var s2 := Disconnect(CloseGate(s1, c.completion));
      ConnectUsingSuggestionKeepsInvariant(s2, c.target, status);
      ResolveKeepsInvariant(s2, false, Some(cb));
    }
  }

  lemma RunPostedFallbackKeepsInvariant(s: Activity, status: int)
    requires Invariant(s) && |s.postedFallbacks| > 0
    ensures Invariant(RunPostedFallback(s, status))
  {
    ConnectUsingSuggestionKeepsInvariant(s.(postedFallbacks := s.postedFallbacks[1..]), s.postedFallbacks[0], status);
  }

  lemma OnSuggestionBroadcastKeepsInvariant(s: Activity, info: Option<ConnectionProbe.ConnectionInfo>)
    requires Invariant(s)
    ensures Invariant(OnSuggestionBroadcast(s, info))
  {
    if s.suggestionTargetSsid.Some? && s.suggestionCompletion.Some? {
      var g := s.suggestionCompletion.value;
      if GateOpen(s, g) {
        CloseGateKeepsInvariant(s, g);
        ResolveKeepsInvariant(ClearSuggestions(CloseGate(s, g)), ConnectedTo(info, s.suggestionTargetSsid.value), None);
      }
    }
  }

  lemma OnSuggestionTimeoutKeepsInvariant(s: Activity, g: GateId, info: Option<ConnectionProbe.ConnectionInfo>)
    requires Invariant(s) && g in s.suggestionTimers
    ensures Invariant(OnSuggestionTimeout(s, g, info))
  {
    var s1 := s.(suggestionTimers := s.suggestionTimers - {g});
    assert Invariant(s1);
    if GateOpen(s1, g) {
      CloseGateKeepsInvariant(s1, g);
      ResolveKeepsInvariant(ClearSuggestions(CloseGate(s1, g)), ConnectedTo(info, s.suggestionTimers[g]), None);
    }
  }

  lemma OnDestroyKeepsInvariant(s: Activity)
    requires Invariant(s)
    ensures Invariant(OnDestroy(s))
  {
    var s1 := ClearSuggestions(Disconnect(s));
    var s2 := if s1.suggestionReceiver
              then s1.(suggestionReceiver := false, receiverUnregistrations := s1.receiverUnregistrations + 1)
              else s1;
    assert Invariant(s2);
    CancelPendingKeepsInvariant(s2, false);
  }

  /** Every event keeps the invariant. */
  lemma StepKeepsInvariant(s: Activity, e: Event)
    requires Invariant(s)
    ensures Invariant(Step(s, e))
  {
    if Enabled(s, e) {
      match e
      case ConnectCall(ssid, password, hidden, denied, status, legacy) =>
        HandleConnectCallKeepsInvariant(s, ssid, password, hidden, denied, status, legacy);
      case DisconnectCall =>
      case NetworkAvailable(cb, n) => OnAvailableKeepsInvariant(s, cb, n);
      case NetworkUnavailable(cb) => OnUnavailableKeepsInvariant(s, cb);
      case NetworkLost(cb, n) => OnLostKeepsInvariant(s, cb, n);
      case SpecifierTimerFired(cb, status) => OnSpecifierTimeoutKeepsInvariant(s, cb, status);
      case PostedFallbackRan(status) => RunPostedFallbackKeepsInvariant(s, status);
      case SuggestionBroadcastReceived(info) => OnSuggestionBroadcastKeepsInvariant(s, info);
      case SuggestionTimerFired(g, info) => OnSuggestionTimeoutKeepsInvariant(s, g, info);
      case Destroyed => OnDestroyKeepsInvariant(s);
    }
  }

  /** Every sequence of events keeps the invariant. */
  lemma {:induction false} RunKeepsInvariant(s: Activity, events: seq<Event>)
    requires Invariant(s)
    ensures Invariant(Run(s, events))
    decreases |events|
  {
    if events != [] {
      StepKeepsInvariant(s, events[0]);
      RunKeepsInvariant(Step(s, events[0]), events[1..]);
    }
  }

  /** Only `connectToWifi` makes specifier callbacks, always with fallback allowed, so no event makes one without. */
  lemma StepKeepsCallbacksAllowFallback(s: Activity, e: Event)
    requires CallbacksAllowFallback(s)
    ensures CallbacksAllowFallback(Step(s, e))
  {
    if Enabled(s, e) {
      match e
      case ConnectCall(ssid, password, hidden, denied, status, legacy) =>
        ConnectCallKeepsCallbacksAllowFallback(s, ssid, password, hidden, denied, status, legacy);
      case DisconnectCall =>
      case NetworkAvailable(cb, n) => OnAvailableKeepsCallbacks(s, cb, n);
      case NetworkUnavailable(cb) => OnUnavailableKeepsCallbacks(s, cb);
      case NetworkLost(cb, n) => OnLostKeepsCallbacks(s, cb, n);
      case SpecifierTimerFired(cb, status) => OnSpecifierTimeoutKeepsCallbacks(s, cb, status);
      case PostedFallbackRan(status) =>
        SuggestionKeepsCallbacks(s.(postedFallbacks := s.postedFallbacks[1..]), s.postedFallbacks[0], status);
      case SuggestionBroadcastReceived(info) => OnSuggestionBroadcastKeepsCallbacks(s, info);
      case SuggestionTimerFired(g, info) => OnSuggestionTimeoutKeepsCallbacks(s, g, info);
      case Destroyed => OnDestroyKeepsCallbacks(s);
    }
  }

  // Events other than a connect call leave the platform's callbacks as they are.

  lemma OnAvailableKeepsCallbacks(s: Activity, cb: CallbackId, network: NetworkId)
    requires cb in s.callbacks
    ensures OnAvailable(s, cb, network).callbacks == s.callbacks
  {
  }

  lemma OnUnavailableKeepsCallbacks(s: Activity, cb: CallbackId)
    requires cb in s.callbacks
    ensures OnUnavailable(s, cb).callbacks == s.callbacks
  {
  }

  lemma OnLostKeepsCallbacks(s: Activity, cb: CallbackId, network: NetworkId)
    requires cb in s.callbacks
    ensures OnLost(s, cb, network).callbacks == s.callbacks
  {
  }

  lemma OnSpecifierTimeoutKeepsCallbacks(s: Activity, cb: CallbackId, status: int)
    requires cb in s.callbacks
    ensures OnSpecifierTimeout(s, cb, status).callbacks == s.callbacks
  {
    var c := s.callbacks[cb];
    var s1 := s.(specifierTimers := s.specifierTimers - {cb});
    if GateOpen(s1, c.completion) {
      SuggestionKeepsCallbacks(Disconnect(CloseGate(s1, c.completion)), c.target, status);
    }
  }

  lemma OnSuggestionBroadcastKeepsCallbacks(s: Activity, info: Option<ConnectionProbe.ConnectionInfo>)
    ensures OnSuggestionBroadcast(s, info).callbacks == s.callbacks
  {
  }

  lemma OnSuggestionTimeoutKeepsCallbacks(s: Activity, g: GateId, info: Option<ConnectionProbe.ConnectionInfo>)
    requires g in s.suggestionTimers
    ensures OnSuggestionTimeout(s, g, info).callbacks == s.callbacks
  {
  }

  lemma OnDestroyKeepsCallbacks(s: Activity)
    ensures OnDestroy(s).callbacks == s.callbacks
  {
  }

  lemma ConnectCallKeepsCallbacksAllowFallback(s: Activity, ssid: Option<string>, password: Option<string>, hidden: Option<bool>,
                                                requestDenied: bool, status: int, legacy: LegacyConnector.LegacyPlatform)
    requires CallbacksAllowFallback(s)
    ensures CallbacksAllowFallback(HandleConnectCall(s, ssid, password, hidden, requestDenied, status, legacy))
  {
    if !(ssid.None? || IsBlank(ssid.value)) {
      var t := Target(ssid.value, password.GetOr(""), hidden.GetOr(false));
      var s2 := BeginRequest(s);
      assert s2.callbacks == s.callbacks;
      if s.sdk >= SDK_Q {
        SpecifierCallbacksAllowFallback(s2, t, requestDenied, status);
      }
    }
  }

  lemma SuggestionKeepsCallbacks(s: Activity, t: Target, status: int)
    ensures ConnectUsingSuggestion(s, t, status).callbacks == s.callbacks
  {
  }

  lemma SpecifierCallbacksAllowFallback(s: Activity, t: Target, requestDenied: bool, status: int)
    requires CallbacksAllowFallback(s)
    ensures CallbacksAllowFallback(ConnectUsingSpecifier(s, t, true, requestDenied, status))
  {
    var s1 := s.(gates := s.gates[s.nextId := false], pendingCallback := Some(s.nextId + 1), nextId := s.nextId + 2);
    if requestDenied {
      SuggestionKeepsCallbacks(Disconnect(s1), t, status);
    }
  }

  lemma {:induction false} RunKeepsCallbacksAllowFallback(s: Activity, events: seq<Event>)
    requires CallbacksAllowFallback(s)
    ensures CallbacksAllowFallback(Run(s, events))
    decreases |events|
  {
    if events != [] {
      StepKeepsCallbacksAllowFallback(s, events[0]);
      RunKeepsCallbacksAllowFallback(Step(s, events[0]), events[1..]);
    }
  }

  /**
   * Whatever happens from a fresh activity, no Dart result object receives two
   * replies, and no one-shot gate is won twice: within one specifier attempt at
   * most one of available, unavailable, lost and the timer acts, and within one
   * suggestion attempt at most one of the broadcast and the timer.
   */
  lemma EachResultAnsweredAtMostOnce(sdk: nat, events: seq<Event>)
    ensures var s := Run(Init(sdk), events);
      (forall i, j :: 0 <= i < j < |s.delivered| ==> s.delivered[i].result != s.delivered[j].result)
      && (forall i, j :: 0 <= i < j < |s.acted| ==> s.acted[i] != s.acted[j])
  {
    InitSatisfiesInvariant(sdk);
    RunKeepsInvariant(Init(sdk), events);
  }
}
