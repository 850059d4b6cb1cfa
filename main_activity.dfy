/**
 * `MainActivity` as an object whose methods update its fields in place, one
 * method per source method and per platform callback. Each method is proved
 * to take the activity to the state the matching function of module
 * RequestArbiter gives, and the entry points (the method-channel calls and
 * the platform's callbacks) to keep the arbitration invariant, under which
 * every Dart result is answered at most once and every one-shot gate is won
 * at most once.
 */
module WifiActivity {
  import opened Wrappers
  import opened SsidCodec
  import opened ConnectionProbe
  import LegacyConnector
  import opened RequestArbiter
  import opened ArbiterInvariant

  class MainActivity {
    /** `Build.VERSION.SDK_INT` of the device. */
    const sdk: nat

    var pendingResult: Option<ResultId>
    var pendingCallback: Option<CallbackId>
    var activeSuggestions: seq<Suggestion>
    var suggestionReceiver: bool
    var suggestionTargetSsid: Option<string>
    var suggestionCompletion: Option<GateId>
    /** The network the process is bound to, as `bindProcessToNetwork` last set it. */
    var boundNetwork: Option<NetworkId>

    /** The `AtomicBoolean` gates created so far, by identity. */
    var gates: map<GateId, bool>
    /** The specifier callbacks the platform holds, with what each captured. */
    var callbacks: map<CallbackId, SpecifierCallback>
    /** Specifier timers posted and not yet run. */
    var specifierTimers: set<CallbackId>
    /** Suggestion timers posted and not yet run, with the gate and the name each captured. */
    var suggestionTimers: map<GateId, string>
    /** Suggestion attempts posted by `onUnavailable` and `onLost`, oldest first. */
    var postedFallbacks: seq<Target>
    /** The replies posted to Dart results, in order. */
    var delivered: seq<Delivery>
    var nextId: nat

    ghost var receiverRegistrations: nat
    ghost var receiverUnregistrations: nat
    /** The gates in the order they were won. */
    ghost var acted: seq<GateId>

    ghost function State(): Activity
      reads this
    {
      Activity(sdk, pendingResult, pendingCallback, activeSuggestions, suggestionReceiver,
               receiverRegistrations, receiverUnregistrations, suggestionTargetSsid, suggestionCompletion,
               boundNetwork, gates, callbacks, specifierTimers, suggestionTimers, postedFallbacks,
               delivered, acted, nextId)
    }

    ghost predicate Valid()
      reads this
    {
      Invariant(State())
    }

    constructor(sdk: nat)
      ensures Valid() && State() == Init(sdk)
    {
      this.sdk := sdk;
      pendingResult, pendingCallback, activeSuggestions := None, None, [];
      suggestionReceiver, suggestionTargetSsid, suggestionCompletion := false, None, None;
      boundNetwork, gates, callbacks, specifierTimers := None, map[], map[], {};
      suggestionTimers, postedFallbacks, delivered, nextId := map[], [], [], 0;
      receiverRegistrations, receiverUnregistrations, acted := 0, 0, [];
      InitSatisfiesInvariant(sdk);
    }

    // ------------------------------------------------------------ helpers

    /** `AtomicBoolean.compareAndSet(false, true)` on gate `g`: wins exactly when the gate is open, and closes it. */
    method CompareAndSet(g: GateId) returns (won: bool)
      modifies this
      ensures won == GateOpen(old(State()), g)
      ensures State() == if won then CloseGate(old(State()), g) else old(State())
    {
      won := g in gates && !gates[g];
      if won {
        gates := gates[g := true];
        acted := acted + [g];
      }
    }

    method BindProcessToNetwork(network: Option<NetworkId>)
      modifies this
      ensures State() == Bind(old(State()), network)
    {
      boundNetwork := network;
    }

    method DisconnectFromRequestedNetwork()
      modifies this
      ensures State() == Disconnect(old(State()))
    {
      pendingCallback := None;
      BindProcessToNetwork(None);
    }

    method ClearNetworkSuggestions()
      modifies this
      ensures State() == ClearSuggestions(old(State()))
    {
      activeSuggestions := [];
      suggestionTargetSsid := None;
      suggestionCompletion := None;
    }

    method CancelPendingResult(success: bool)
      modifies this
      ensures State() == CancelPending(old(State()), success)
    {
      match pendingResult
      case None =>
      case Some(result) =>
        pendingResult := None;
        suggestionCompletion := None;
        delivered := delivered + [Delivery(result, Answered(success))];
    }

    method ResolveResult(success: bool, sourceCallback: Option<CallbackId>)
      modifies this
      ensures State() == Resolve(old(State()), success, sourceCallback)
    {
      if sourceCallback.Some? && sourceCallback != pendingCallback {
        return;
      }
      CancelPendingResult(success);
    }

    method EnsureSuggestionReceiverRegistered()
      modifies this
      ensures State() == EnsureReceiverRegistered(old(State()))
    {
      if suggestionReceiver {
        return;
      }
      receiverRegistrations := receiverRegistrations + 1;
      suggestionReceiver := true;
    }

    // --------------------------------------------------------- strategies

    method ConnectUsingSuggestion(t: Target, status: int)
      modifies this
      ensures State() == RequestArbiter.ConnectUsingSuggestion(old(State()), t, status)
    {
      PublishSuggestion(t);
      if status != STATUS_NETWORK_SUGGESTIONS_SUCCESS {
        ResolveResult(false, None);
        return;
      }
      ArmSuggestion(t);
    }

    /** The suggestion list cleared and refilled with the one new suggestion. */
    method PublishSuggestion(t: Target)
      modifies this
      ensures State() == RequestArbiter.PublishSuggestion(old(State()), t)
    {
      ClearNetworkSuggestions();
      activeSuggestions := [BuildSuggestion(t, sdk)];
    }

    /** The receiver registered, the target and a fresh gate recorded, the suggestion timer posted. */
    method ArmSuggestion(t: Target)
      modifies this
      ensures State() == RequestArbiter.ArmSuggestion(old(State()), t)
    {
      EnsureSuggestionReceiverRegistered();
      suggestionTargetSsid := Some(t.ssid);
      var completion := nextId;
      gates := gates[completion := false];
      nextId := nextId + 1;
      suggestionCompletion := Some(completion);
      suggestionTimers := suggestionTimers[completion := t.ssid];
    }

    method ConnectUsingSpecifier(t: Target, allowFallback: bool, requestDenied: bool, status: int)
      modifies this
      ensures State() == RequestArbiter.ConnectUsingSpecifier(old(State()), t, allowFallback, requestDenied, status)
    {
      var completion, callback := NewSpecifierAttempt();
      if requestDenied {
        DisconnectFromRequestedNetwork();
        if allowFallback {
          ConnectUsingSuggestion(t, status);
        } else {
          ResolveResult(false, Some(callback));
        }
        return;
      }
      callbacks := callbacks[callback := SpecifierCallback(t, allowFallback, completion)];
      specifierTimers := specifierTimers + {callback};
    }

    /** A fresh gate and a fresh callback, which becomes the pending one. */
    method NewSpecifierAttempt() returns (completion: GateId, callback: CallbackId)
      modifies this
      ensures completion == old(nextId) && callback == old(nextId) + 1
      ensures State() == RequestArbiter.NewSpecifierAttempt(old(State()))
    {
      completion := nextId;
      callback := nextId + 1;
      gates := gates[completion := false];
      nextId := nextId + 2;
      pendingCallback := Some(callback);
    }

    /** `connectToWifi`; `result` is the identity of the Dart result object the call brings. */
    method ConnectToWifi(t: Target, requestDenied: bool, status: int, legacy: LegacyConnector.LegacyPlatform)
      returns (result: ResultId)
      requires Valid()
      modifies this
      ensures Valid()
      ensures result == old(nextId)
      ensures State() == RequestArbiter.ConnectToWifi(old(State()), t, requestDenied, status, legacy)
    {
      ConnectToWifiKeepsInvariant(State(), t, requestDenied, status, legacy);
      result := BeginRequest();
      if sdk >= SDK_Q {
        ConnectUsingSpecifier(t, true, requestDenied, status);
      } else {
        var outcome := LegacyConnector.ConnectLegacyInternal(legacy, t.ssid, t.password, t.hidden);
        ResolveResult(outcome.success, None);
      }
    }

    /** The previous result answered false, the new one pending, the earlier attempt torn down. */
    method BeginRequest() returns (result: ResultId)
      modifies this
      ensures result == old(nextId)
      ensures State() == RequestArbiter.BeginRequest(old(State()))
    {
      CancelPendingResult(false);
      result := nextId;
      nextId := nextId + 1;
      pendingResult := Some(result);
      DisconnectFromRequestedNetwork();
      ClearNetworkSuggestions();
    }

    // ------------------------------------------------- method-channel calls

    /** The `connectToWifi` call with its raw arguments. */
    method HandleConnectCall(ssid: Option<string>, password: Option<string>, hidden: Option<bool>,
                             requestDenied: bool, status: int, legacy: LegacyConnector.LegacyPlatform)
      requires Valid()
      modifies this
      ensures Valid()
      ensures State() == RequestArbiter.HandleConnectCall(old(State()), ssid, password, hidden, requestDenied, status, legacy)
    {
      if ssid.None? || IsBlank(ssid.value) {
        HandleConnectCallKeepsInvariant(State(), ssid, password, hidden, requestDenied, status, legacy);
        delivered := delivered + [Delivery(nextId, RejectedInvalidArgument)];
        nextId := nextId + 1;
        return;
      }
      var _ := ConnectToWifi(Target(ssid.value, password.GetOr(""), hidden.GetOr(false)), requestDenied, status, legacy);
    }

    /** The `disconnectWifi` call. */
    method DisconnectWifi()
      requires Valid()
      modifies this
      ensures Valid()
      ensures State() == RequestArbiter.DisconnectWifi(old(State()))
    {
      DisconnectFromRequestedNetwork();
      ClearNetworkSuggestions();
    }

    // -------------------------------------------------- platform callbacks

    method OnAvailable(cb: CallbackId, network: NetworkId)
      requires Valid() && cb in callbacks
      modifies this
      ensures Valid()
      ensures State() == RequestArbiter.OnAvailable(old(State()), cb, network)
    {
      OnAvailableKeepsInvariant(State(), cb, network);
      var won := CompareAndSet(callbacks[cb].completion);
      if !won {
        return;
      }
      BindProcessToNetwork(Some(network));
      ResolveResult(true, Some(cb));
    }

    method OnUnavailable(cb: CallbackId)
      requires Valid() && cb in callbacks
      modifies this
      ensures Valid()
      ensures State() == RequestArbiter.OnUnavailable(old(State()), cb)
    {
      OnUnavailableKeepsInvariant(State(), cb);
      var c := callbacks[cb];
      var won := CompareAndSet(c.completion);
      if !won {
        return;
      }
      DisconnectFromRequestedNetwork();
      if c.allowFallback {
        postedFallbacks := postedFallbacks + [c.target];
      } else {
        ResolveResult(false, Some(cb));
      }
    }

    method OnLost(cb: CallbackId, network: NetworkId)
      requires Valid() && cb in callbacks
      modifies this
      ensures Valid()
      ensures State() == RequestArbiter.OnLost(old(State()), cb, network)
    {
      OnLostKeepsInvariant(State(), cb, network);
      var c := callbacks[cb];
      if sdk >= SDK_M {
        if boundNetwork == Some(network) {
          BindProcessToNetwork(None);
        }
      } else {
        BindProcessToNetwork(None);
      }
      var won := CompareAndSet(c.completion);
      if won {
        if c.allowFallback {
          postedFallbacks := postedFallbacks + [c.target];
        } else {
          ResolveResult(false, Some(cb));
        }
      }
    }

    /** The specifier timer posted for callback `cb` runs. */
    method OnSpecifierTimeout(cb: CallbackId, status: int)
      requires Valid() && cb in specifierTimers && cb in callbacks
      modifies this
      ensures Valid()
      ensures State() == RequestArbiter.OnSpecifierTimeout(old(State()), cb, status)
    {
      OnSpecifierTimeoutKeepsInvariant(State(), cb, status);
      var c := callbacks[cb];
      specifierTimers := specifierTimers - {cb};
      var won := CompareAndSet(c.completion);
      if won {
        DisconnectFromRequestedNetwork();
        if c.allowFallback {
          ConnectUsingSuggestion(c.target, status);
        } else {
          ResolveResult(false, Some(cb));
        }
      }
    }

    /** The oldest fallback posted to the main looper runs. */
    method RunPostedFallback(status: int)
      requires Valid() && |postedFallbacks| > 0
      modifies this
      ensures Valid()
      ensures State() == RequestArbiter.RunPostedFallback(old(State()), status)
    {
      RunPostedFallbackKeepsInvariant(State(), status);
      var t := postedFallbacks[0];
      postedFallbacks := postedFallbacks[1..];
      ConnectUsingSuggestion(t, status);
    }

    /** The suggestion receiver's `onReceive`, with the connection information at that moment. */
    method OnSuggestionBroadcast(info: Option<ConnectionInfo>)
      requires Valid() && suggestionReceiver
      modifies this
      ensures Valid()
      ensures State() == RequestArbiter.OnSuggestionBroadcast(old(State()), info)
    {
      OnSuggestionBroadcastKeepsInvariant(State(), info);
      if suggestionTargetSsid.None? || suggestionCompletion.None? {
        return;
      }
      var target := suggestionTargetSsid.value;
      var won := CompareAndSet(suggestionCompletion.value);
      if !won {
        return;
      }
      var connected := ConnectedTo(info, target);
      ClearNetworkSuggestions();
      ResolveResult(connected, None);
    }

    /** The suggestion timer posted with gate `g` runs, with the connection information at that moment. */
    method OnSuggestionTimeout(g: GateId, info: Option<ConnectionInfo>)
      requires Valid() && g in suggestionTimers
      modifies this
      ensures Valid()
      ensures State() == RequestArbiter.OnSuggestionTimeout(old(State()), g, info)
    {
      OnSuggestionTimeoutKeepsInvariant(State(), g, info);
      var target := suggestionTimers[g];
      suggestionTimers := suggestionTimers - {g};
      var won := CompareAndSet(g);
      if won {
        var connected := ConnectedTo(info, target);
        ClearNetworkSuggestions();
        ResolveResult(connected, None);
      }
    }

    method OnDestroy()
      requires Valid()
      modifies this
      ensures Valid()
      ensures State() == RequestArbiter.OnDestroy(old(State()))
    {
      OnDestroyKeepsInvariant(State());
      DisconnectFromRequestedNetwork();
      ClearNetworkSuggestions();
      if suggestionReceiver {
        receiverUnregistrations := receiverUnregistrations + 1;
      }
      suggestionReceiver := false;
      CancelPendingResult(false);
    }
  }
}
