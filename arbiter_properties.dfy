/**
 * What the arbitration promises, event by event: who gets answered and when,
 * what the one-shot gates let through, what the suggestion path leaves behind,
 * and the behaviours of the source that an idealised design would not have.
 */
module ArbiterProperties {
  import opened Wrappers
  import opened SsidCodec
  import opened ConnectionProbe
  import LegacyConnector
  import opened RequestArbiter
  import opened ArbiterInvariant

  /**
   * From `s` to `t` either nothing was answered and the pending result is the
   * same, or exactly one reply was posted, to the result that was pending, and
   * nothing is pending any more.
   */
  ghost predicate AnswersPendingAtMostOnce(s: Activity, t: Activity)
  {
    (t.delivered == s.delivered && t.pendingResult == s.pendingResult)
    || (s.pendingResult.Some? && t.pendingResult.None?
        && |t.delivered| == |s.delivered| + 1 && t.delivered[..|s.delivered|] == s.delivered
        && t.delivered[|s.delivered|].result == s.pendingResult.value
        && t.delivered[|s.delivered|].reply.Answered?)
  }

  // ------------------------------------------------------ resolve and cancel

  /**
   * `resolveResult` and `cancelPendingResult`: with nothing pending nothing is
   * posted and nothing changes; otherwise one reply, to the pending result,
   * after which neither a result nor a suggestion gate is pending.
   */
  lemma CancelPendingAnswersOnce(s: Activity, success: bool)
    ensures s.pendingResult.None? ==> CancelPending(s, success) == s
    ensures s.pendingResult.Some? ==>
      var t := CancelPending(s, success);
      t.delivered == s.delivered + [Delivery(s.pendingResult.value, Answered(success))]
      && t.pendingResult.None? && t.suggestionCompletion.None?
    ensures AnswersPendingAtMostOnce(s, CancelPending(s, success))
  {
  }

  /** `resolveResult` from a callback that is not the pending one changes nothing; otherwise it is `cancelPendingResult`. */
  lemma ResolveIgnoresStaleCallback(s: Activity, success: bool, source: Option<CallbackId>)
    ensures source.Some? && source != s.pendingCallback ==> Resolve(s, success, source) == s
    ensures source.None? || source == s.pendingCallback ==> Resolve(s, success, source) == CancelPending(s, success)
    ensures AnswersPendingAtMostOnce(s, Resolve(s, success, source))
  {
  }

  // --------------------------------------------------------------- connecting

  /**
   * A `connectToWifi` call with a usable name first answers false to the result
   * that was pending, if any; after it the fresh result is pending or has been
   * answered, and every reply it posted went to one of these two.
   */
  lemma ConnectSupersedesPendingRequest(s: Activity, t: Target, requestDenied: bool, status: int,
                                        legacy: LegacyConnector.LegacyPlatform)
    ensures SupersedesPending(s, ConnectToWifi(s, t, requestDenied, status, legacy))
  {
    var s1 := CancelPending(s, false);
    CancelPendingAnswersOnce(s, false);
    var r := s1.nextId;
    var s2 := ClearSuggestions(Disconnect(s1.(pendingResult := Some(r), nextId := r + 1)));
    var u := ConnectToWifi(s, t, requestDenied, status, legacy);
    if s.sdk >= SDK_Q {
      assert u == ConnectUsingSpecifier(s2, t, true, requestDenied, status);
      SpecifierAnswersPendingAtMostOnce(s2, t, true, requestDenied, status);
    } else {
      var ok := LegacyConnector.LegacyConnect(legacy, t.ssid, t.password, t.hidden).success;
      assert u == Resolve(s2, ok, None);
      ResolveIgnoresStaleCallback(s2, ok, None);
    }
    SupersedesPendingFromSteps(s, s1, s2, u);
  }

  /**
   * The replies after a connect call: the previous pending result answered
   * false first, if there was one; then the fresh result (numbered `s.nextId`)
   * is pending, or it has been answered by the one reply after that.
   */
  ghost predicate SupersedesPending(s: Activity, u: Activity)
  {
    var n := |s.delivered|;
    var k := if s.pendingResult.Some? then 1 else 0;
    |u.delivered| >= n + k && u.delivered[..n] == s.delivered
    && (s.pendingResult.Some? ==> u.delivered[n] == Delivery(s.pendingResult.value, Answered(false)))
    && (u.pendingResult == Some(s.nextId)
        || (|u.delivered| == n + k + 1 && u.delivered[n + k].result == s.nextId && u.pendingResult.None?))
    && (u.pendingResult == Some(s.nextId) ==> |u.delivered| == n + k)
  }

  lemma SupersedesPendingFromSteps(s: Activity, s1: Activity, s2: Activity, u: Activity)
    requires s1 == CancelPending(s, false)
    requires s2.delivered == s1.delivered && s2.pendingResult == Some(s.nextId)
    requires AnswersPendingAtMostOnce(s2, u)
    ensures SupersedesPending(s, u)
  {
    CancelPendingAnswersOnce(s, false);
    var n := |s.delivered|;
    if |u.delivered| > |s2.delivered| {
      assert u.delivered[..n] == u.delivered[..|s2.delivered|][..n];
    }
  }

  /** `connectUsingSpecifier` answers at most once, and only the result that was pending. */
  lemma SpecifierAnswersPendingAtMostOnce(s: Activity, t: Target, allowFallback: bool, requestDenied: bool, status: int)
    ensures AnswersPendingAtMostOnce(s, ConnectUsingSpecifier(s, t, allowFallback, requestDenied, status))
  {
    var cb := s.nextId + 1;
    var s1 := s.(gates := s.gates[s.nextId := false], pendingCallback := Some(cb), nextId := s.nextId + 2);
    if requestDenied {
      if allowFallback {
        ConnectUsingSuggestionAnswersPendingAtMostOnce(Disconnect(s1), t, status);
      } else {
        ResolveIgnoresStaleCallback(Disconnect(s1), false, Some(cb));
      }
    }
  }

  /** A missing or blank name is answered with the argument error at once, on the fresh result, and nothing else happens. */
  lemma BlankSsidIsRejected(s: Activity, ssid: Option<string>, password: Option<string>, hidden: Option<bool>,
                            requestDenied: bool, status: int, legacy: LegacyConnector.LegacyPlatform)
    requires ssid.None? || Trim(ssid.value) == []
    ensures HandleConnectCall(s, ssid, password, hidden, requestDenied, status, legacy)
         == s.(delivered := s.delivered + [Delivery(s.nextId, RejectedInvalidArgument)], nextId := s.nextId + 1)
  {
    if ssid.Some? {
      BlankIffTrimsToEmpty(ssid.value);
    }
  }

  /** A usable name starts the request with the password and hidden flag defaulted to empty and false. */
  lemma UsableSsidStartsRequest(s: Activity, ssid: string, requestDenied: bool, status: int,
                                legacy: LegacyConnector.LegacyPlatform)
    requires Trim(ssid) != []
    ensures HandleConnectCall(s, Some(ssid), None, None, requestDenied, status, legacy)
         == ConnectToWifi(s, Target(ssid, "", false), requestDenied, status, legacy)
  {
    BlankIffTrimsToEmpty(ssid);
  }

  // ------------------------------------------------------- specifier callbacks

  /**
   * Once the gate of a callback is closed, `onAvailable`, `onUnavailable` and
   * the timer change nothing (the timer only leaves the posted queue), and
   * `onLost` only does its unbinding.
   */
  lemma ClosedGateSilencesSpecifierEvents(s: Activity, cb: CallbackId, network: NetworkId, status: int)
    requires cb in s.callbacks && !GateOpen(s, s.callbacks[cb].completion)
    ensures OnAvailable(s, cb, network) == s
    ensures OnUnavailable(s, cb) == s
    ensures OnLost(s, cb, network) == UnbindLost(s, network)
    ensures OnSpecifierTimeout(s, cb, status) == s.(specifierTimers := s.specifierTimers - {cb})
  {
  }

  /**
   * While the gate is open, each of `onAvailable`, `onUnavailable`, `onLost`
   * and the timer closes it and records its one win; so after any of them has
   * acted, all four are silenced.
   */
  lemma OpenGateIsWonByTheFirstSpecifierEvent(s: Activity, cb: CallbackId, network: NetworkId, status: int)
    requires cb in s.callbacks && GateOpen(s, s.callbacks[cb].completion) && s.callbacks[cb].completion < s.nextId
    ensures var g := s.callbacks[cb].completion;
      var a := OnAvailable(s, cb, network);
      var u := OnUnavailable(s, cb);
      var l := OnLost(s, cb, network);
      var m := OnSpecifierTimeout(s, cb, status);
      a.acted == u.acted == l.acted == m.acted == s.acted + [g]
      && !GateOpen(a, g) && !GateOpen(u, g) && !GateOpen(l, g) && !GateOpen(m, g)
  {
    var g := s.callbacks[cb].completion;
    var s1 := Disconnect(CloseGate(s.(specifierTimers := s.specifierTimers - {cb}), g));
    ConnectUsingSuggestionPreservesGate(s1, s.callbacks[cb].target, status, g);
  }

  /** A suggestion attempt leaves every existing gate and the record of wins as they were. */
  lemma ConnectUsingSuggestionPreservesGate(s: Activity, t: Target, status: int, g: GateId)
    requires g in s.gates && g < s.nextId
    ensures var u := ConnectUsingSuggestion(s, t, status);
      u.acted == s.acted && g in u.gates && u.gates[g] == s.gates[g]
  {
  }

  /** `onAvailable`, winning the gate, binds the process to the network, and answers true if its callback is still the pending one. */
  lemma AvailableBindsThenAnswersTrue(s: Activity, cb: CallbackId, network: NetworkId)
    requires cb in s.callbacks && GateOpen(s, s.callbacks[cb].completion)
    ensures var t := OnAvailable(s, cb, network);
      t.boundNetwork == Some(network)
      && (s.pendingCallback == Some(cb) && s.pendingResult.Some?
          ==> t.delivered == s.delivered + [Delivery(s.pendingResult.value, Answered(true))])
      && (s.pendingCallback != Some(cb) ==> t.delivered == s.delivered)
  {
  }

  /**
   * `onLost` unbinds the process from the lost network whoever holds the gate:
   * always before Android 6, from then on only when that network is the bound one.
   */
  lemma LostUnbindsWhateverTheGate(s: Activity, cb: CallbackId, network: NetworkId)
    requires cb in s.callbacks
    ensures s.sdk < SDK_M || s.boundNetwork == Some(network) ==> OnLost(s, cb, network).boundNetwork.None?
    ensures s.sdk >= SDK_M && s.boundNetwork != Some(network) ==> OnLost(s, cb, network).boundNetwork == s.boundNetwork
  {
  }

  /**
   * With fallback not allowed, the failure `onUnavailable`, the timer and a
   * refused network request would resolve never reaches Dart: the teardown
   * before it has already forgotten the callback.
   */
  lemma FailureWithoutFallbackIsNeverPosted(s: Activity, cb: CallbackId, t: Target, status: int)
    requires cb in s.callbacks && !s.callbacks[cb].allowFallback
    ensures OnUnavailable(s, cb).delivered == s.delivered
    ensures OnSpecifierTimeout(s, cb, status).delivered == s.delivered
    ensures ConnectUsingSpecifier(s, t, false, true, status).delivered == s.delivered
  {
  }

  /** `onLost` without fallback, unlike the others, does answer false when its callback is the pending one: it does not tear down first. */
  lemma LostWithoutFallbackAnswersFalse(s: Activity, cb: CallbackId, network: NetworkId)
    requires cb in s.callbacks && !s.callbacks[cb].allowFallback && GateOpen(s, s.callbacks[cb].completion)
    requires s.pendingCallback == Some(cb) && s.pendingResult.Some?
    ensures OnLost(s, cb, network).delivered == s.delivered + [Delivery(s.pendingResult.value, Answered(false))]
  {
  }

  /** In every reachable state the callbacks allow fallback, so the branches above are never taken. */
  lemma ReachableCallbacksAllowFallback(sdk: nat, events: seq<Event>)
    ensures var s := Run(Init(sdk), events);
      forall cb :: cb in s.callbacks ==> s.callbacks[cb].allowFallback
  {
    RunKeepsCallbacksAllowFallback(Init(sdk), events);
  }

  // ------------------------------------------------------------- suggestions

  /** `clearNetworkSuggestions` empties the list and forgets target and gate; doing it twice is doing it once. */
  lemma ClearSuggestionsEmptiesOnce(s: Activity)
    ensures var t := ClearSuggestions(s);
      t.activeSuggestions == [] && t.suggestionTargetSsid.None? && t.suggestionCompletion.None?
      && ClearSuggestions(t) == t
  {
  }

  /** The `disconnectWifi` call leaves no suggestion, no pending callback and no binding, and a second call changes nothing. */
  lemma DisconnectWifiIsIdempotent(s: Activity)
    ensures var t := DisconnectWifi(s);
      t.activeSuggestions == [] && t.pendingCallback.None? && t.boundNetwork.None?
      && DisconnectWifi(t) == t && t.delivered == s.delivered
  {
  }

  /**
   * `connectUsingSuggestion` leaves exactly the one new suggestion in the list,
   * whatever the publish status; a failed publish answers false and keeps it
   * there, without target or gate.
   */
  lemma PublishLeavesOneSuggestion(s: Activity, t: Target, status: int)
    ensures ConnectUsingSuggestion(s, t, status).activeSuggestions == [BuildSuggestion(t, s.sdk)]
    ensures status != STATUS_NETWORK_SUGGESTIONS_SUCCESS ==>
      var u := ConnectUsingSuggestion(s, t, status);
      u.suggestionTargetSsid.None? && u.suggestionCompletion.None?
      && (s.pendingResult.Some? ==> u.delivered == s.delivered + [Delivery(s.pendingResult.value, Answered(false))])
  {
  }

  /**
   * A successful publish records the target and a fresh open gate, posts a
   * timer for that gate and target, and registers the receiver only if it
   * was not registered yet.
   */
  lemma SuccessfulPublishArmsFreshGate(s: Activity, t: Target, status: int)
    requires Invariant(s) && status == STATUS_NETWORK_SUGGESTIONS_SUCCESS
    ensures var u := ConnectUsingSuggestion(s, t, status);
      u.suggestionTargetSsid == Some(t.ssid) && u.suggestionCompletion == Some(s.nextId)
      && s.nextId !in s.gates && GateOpen(u, s.nextId)
      && s.nextId in u.suggestionTimers && u.suggestionTimers[s.nextId] == t.ssid
      && u.suggestionReceiver
      && u.receiverRegistrations == s.receiverRegistrations + (if s.suggestionReceiver then 0 else 1)
      && u.delivered == s.delivered && u.pendingResult == s.pendingResult
  {
  }

  /** A broadcast while no target or no gate is recorded does nothing. */
  lemma BroadcastWithoutTargetOrGateDoesNothing(s: Activity, info: Option<ConnectionInfo>)
    requires s.suggestionTargetSsid.None? || s.suggestionCompletion.None?
    ensures OnSuggestionBroadcast(s, info) == s
  {
  }

  /**
   * A broadcast that wins the recorded gate clears the suggestions and answers
   * the pending result with the probe's verdict: true exactly when a current
   * name exists and normalises to the normalised target.
   */
  lemma BroadcastAnswersWithProbeVerdict(s: Activity, info: Option<ConnectionInfo>)
    requires s.suggestionTargetSsid.Some? && s.suggestionCompletion.Some? && GateOpen(s, s.suggestionCompletion.value)
    requires s.pendingResult.Some?
    ensures var t := OnSuggestionBroadcast(s, info);
      var current := CurrentSsid(info);
      t.activeSuggestions == [] && t.pendingResult.None?
      && t.delivered == s.delivered + [Delivery(s.pendingResult.value, Answered(
           current.Some? && NormalizeSsid(current.value) == NormalizeSsid(s.suggestionTargetSsid.value)))]
  {
    var g := s.suggestionCompletion.value;
    var verdict := ConnectedTo(info, s.suggestionTargetSsid.value);
    var s1 := ClearSuggestions(CloseGate(s, g));
    assert OnSuggestionBroadcast(s, info) == Resolve(s1, verdict, None);
    assert s1.pendingResult == s.pendingResult && s1.delivered == s.delivered;
  }

  /**
   * The suggestion timer that wins its own gate clears the suggestions and
   * answers whatever result is pending with the probe's verdict for its own
   * target, the one it captured, not the one currently recorded.
   */
  lemma SuggestionTimerAnswersWithProbeVerdict(s: Activity, g: GateId, info: Option<ConnectionInfo>)
    requires g in s.suggestionTimers && GateOpen(s, g) && s.pendingResult.Some?
    ensures var t := OnSuggestionTimeout(s, g, info);
      var current := CurrentSsid(info);
      t.activeSuggestions == [] && t.pendingResult.None? && g !in t.suggestionTimers
      && t.delivered == s.delivered + [Delivery(s.pendingResult.value, Answered(
           current.Some? && NormalizeSsid(current.value) == NormalizeSsid(s.suggestionTimers[g])))]
  {
  }

  /**
   * When the platform reports the target in quotation marks, as it does for a
   * plain name, the probe's verdict is true.
   */
  lemma ReportedTargetIsConnected(x: string)
    requires QuoteFree(x)
    ensures ConnectedTo(Some(ConnectionInfo(Some(QuoteIfNeeded(x)))), x)
  {
    assert x != [] ==> x[0] != QUOTE;
    var q := QuoteIfNeeded(x);
    assert q == [QUOTE] + x + [QUOTE];
    assert FoldCase(q[0]) != UNKNOWN_SSID[0];
    RemoveQuotesUnwrapsQuoted(x);
    assert CurrentSsid(Some(ConnectionInfo(Some(q)))) == Some(x);
  }

  /** With no current name the verdict is false, whatever the target. */
  lemma NoCurrentNameIsNotConnected(info: Option<ConnectionInfo>, target: string)
    requires CurrentSsid(info).None?
    ensures !ConnectedTo(info, target)
  {
  }

  /** `ensureSuggestionReceiverRegistered` registers at most once: a second call changes nothing. */
  lemma ReceiverRegisteredAtMostOnce(s: Activity)
    ensures var t := EnsureReceiverRegistered(s);
      t.suggestionReceiver && EnsureReceiverRegistered(t) == t
      && t.receiverRegistrations == s.receiverRegistrations + (if s.suggestionReceiver then 0 else 1)
  {
  }

  /** `onDestroy` tears everything down, unregisters the receiver and answers the pending result false. */
  lemma DestroyLeavesNothingBehind(s: Activity)
    requires Invariant(s)
    ensures var t := OnDestroy(s);
      t.pendingResult.None? && t.pendingCallback.None? && t.boundNetwork.None?
      && t.activeSuggestions == [] && t.suggestionTargetSsid.None? && t.suggestionCompletion.None?
      && !t.suggestionReceiver && t.receiverRegistrations == t.receiverUnregistrations
      && (s.pendingResult.Some? ==> t.delivered == s.delivered + [Delivery(s.pendingResult.value, Answered(false))])
      && (s.pendingResult.None? ==> t.delivered == s.delivered)
  {
  }

  // ----------------------------------------------------- events other than connect

  lemma ConnectUsingSuggestionAnswersPendingAtMostOnce(s: Activity, t: Target, status: int)
    ensures AnswersPendingAtMostOnce(s, ConnectUsingSuggestion(s, t, status))
  {
    var s1 := ClearSuggestions(s).(activeSuggestions := [BuildSuggestion(t, s.sdk)]);
    ResolveIgnoresStaleCallback(s1, false, None);
  }

  /**
   * No event but a connect call makes a result pending, and each posts at most
   * one reply, to the result that was pending.
   */
  lemma OtherEventsAnswerOnlyThePendingResult(s: Activity, e: Event)
    requires !e.ConnectCall?
    ensures AnswersPendingAtMostOnce(s, Step(s, e))
  {
    if Enabled(s, e) {
      match e
      case DisconnectCall =>
      case NetworkAvailable(cb, n) =>
        var g := s.callbacks[cb].completion;
        if GateOpen(s, g) {
          ResolveIgnoresStaleCallback(Bind(CloseGate(s, g), Some(n)), true, Some(cb));
        }
      case NetworkUnavailable(cb) =>
        var c := s.callbacks[cb];
        if GateOpen(s, c.completion) {
          ResolveIgnoresStaleCallback(Disconnect(CloseGate(s, c.completion)), false, Some(cb));
        }
      case NetworkLost(cb, n) =>
        var c := s.callbacks[cb];
        var s1 := UnbindLost(s, n);
        if GateOpen(s1, c.completion) {
          ResolveIgnoresStaleCallback(CloseGate(s1, c.completion), false, Some(cb));
        }
      case SpecifierTimerFired(cb, status) =>
        var c := s.callbacks[cb];
        var s1 := s.(specifierTimers := s.specifierTimers - {cb});
        if GateOpen(s1, c.completion) {
          var s2 := Disconnect(CloseGate(s1, c.completion));
          ConnectUsingSuggestionAnswersPendingAtMostOnce(s2, c.target, status);
          ResolveIgnoresStaleCallback(s2, false, Some(cb));
        }
      case PostedFallbackRan(status) =>
        ConnectUsingSuggestionAnswersPendingAtMostOnce(s.(postedFallbacks := s.postedFallbacks[1..]), s.postedFallbacks[0], status);
      case SuggestionBroadcastReceived(info) =>
        if s.suggestionTargetSsid.Some? && s.suggestionCompletion.Some? && GateOpen(s, s.suggestionCompletion.value) {
          var s1 := ClearSuggestions(CloseGate(s, s.suggestionCompletion.value));
          ResolveIgnoresStaleCallback(s1, ConnectedTo(info, s.suggestionTargetSsid.value), None);
        }
      case SuggestionTimerFired(g, info) =>
        var s1 := s.(suggestionTimers := s.suggestionTimers - {g});
        if GateOpen(s1, g) {
          ResolveIgnoresStaleCallback(ClearSuggestions(CloseGate(s1, g)), ConnectedTo(info, s.suggestionTimers[g]), None);
        }
      case Destroyed =>
        var s1 := ClearSuggestions(Disconnect(s));
        var s2 := if s1.suggestionReceiver
                  then s1.(suggestionReceiver := false, receiverUnregistrations := s1.receiverUnregistrations + 1)
                  else s1;
        CancelPendingAnswersOnce(s2, false);
    }
  }
}
