/**
 * The activity's request arbitration, as values: the state the activity keeps
 * (the pending Dart result, the pending network callback, the active
 * suggestions, the suggestion receiver, target and gate, the network the
 * process is bound to), the objects its closures capture (one-shot gates,
 * network callbacks, posted timers and posted fallbacks), and the log of
 * answers posted to Dart results. One function per source method and per
 * platform event gives the next state; `MainActivity` in module WifiActivity
 * is proved to follow them.
 */
module RequestArbiter {
  import opened Wrappers
  import opened SsidCodec
  import opened ConnectionProbe
  import LegacyConnector

  /** `Build.VERSION_CODES.M`, `Q` and `R`. */
  const SDK_M: nat := 23
  const SDK_Q: nat := 29
  const SDK_R: nat := 30

  /** `WifiManager.STATUS_NETWORK_SUGGESTIONS_SUCCESS`. */
  const STATUS_NETWORK_SUGGESTIONS_SUCCESS: int := 0

  /** Identities of the objects the source compares or captures. */
  type ResultId = nat
  type CallbackId = nat
  type GateId = nat
  type NetworkId = nat

  /** What a connect request asks for; the closures capture these three. */
  datatype Target = Target(ssid: string, password: string, hidden: bool)

  /** A `WifiNetworkSuggestion` as the builder makes it. */
  datatype Suggestion = Suggestion(ssid: string, isHiddenSsid: bool, wpa2Passphrase: Option<string>)

  /** A specifier `NetworkCallback`: what it captures, and its one-shot gate. */
  datatype SpecifierCallback = SpecifierCallback(target: Target, allowFallback: bool, completion: GateId)

  /** What a Dart result object receives. */
  datatype Reply = Answered(success: bool) | RejectedInvalidArgument

  /** One reply, to one result object. */
  datatype Delivery = Delivery(result: ResultId, reply: Reply)

  /**
   * The activity's state. `gates` holds the value of every `AtomicBoolean`
   * created; `callbacks` every callback whose network request the platform
   * accepted; `specifierTimers` and `suggestionTimers` the timers posted and
   * not yet run (the suggestion timer captures its gate and target name);
   * `postedFallbacks` the suggestion attempts posted by `onUnavailable` and
   * `onLost`; `delivered` the replies in the order they are posted; `acted`
   * the gates in the order they were won; `nextId` the next fresh identity.
   */
  datatype Activity = Activity(
    sdk: nat,
    pendingResult: Option<ResultId>,
    pendingCallback: Option<CallbackId>,
    activeSuggestions: seq<Suggestion>,
    suggestionReceiver: bool,
    receiverRegistrations: nat,
    receiverUnregistrations: nat,
    suggestionTargetSsid: Option<string>,
    suggestionCompletion: Option<GateId>,
    boundNetwork: Option<NetworkId>,
    gates: map<GateId, bool>,
    callbacks: map<CallbackId, SpecifierCallback>,
    specifierTimers: set<CallbackId>,
    suggestionTimers: map<GateId, string>,
    postedFallbacks: seq<Target>,
    delivered: seq<Delivery>,
    acted: seq<GateId>,
    nextId: nat)

  /** A fresh activity on a device with the given SDK level. */
  function Init(sdk: nat): Activity
  {
    Activity(sdk, None, None, [], false, 0, 0, None, None, None, map[], map[], {}, map[], [], [], [], 0)
  }

  // ---------------------------------------------------------------- helpers

  /** `bindProcessToNetworkCompat(network)`. */
  function Bind(s: Activity, network: Option<NetworkId>): Activity
  {
    s.(boundNetwork := network)
  }

  /** `disconnectFromRequestedNetwork`: the pending callback is unregistered and forgotten, the binding cleared. */
  function Disconnect(s: Activity): Activity
  {
    s.(pendingCallback := None, boundNetwork := None)
  }

  /** `clearNetworkSuggestions`: no active suggestion, no target, no gate. */
  function ClearSuggestions(s: Activity): Activity
  {
    s.(activeSuggestions := [], suggestionTargetSsid := None, suggestionCompletion := None)
  }

  /** `cancelPendingResult(success)`: the pending result, if any, is forgotten and answered. */
  function CancelPending(s: Activity, success: bool): Activity
  {
    match s.pendingResult
    case None => s
    case Some(r) =>
      s.(pendingResult := None, suggestionCompletion := None,
         delivered := s.delivered + [Delivery(r, Answered(success))])
  }

  /** `resolveResult(success, source)`: as `cancelPendingResult`, unless `source` is a callback other than the pending one. */
  function Resolve(s: Activity, success: bool, source: Option<CallbackId>): Activity
  {
    if source.Some? && source != s.pendingCallback then s
    else CancelPending(s, success)
  }

  /** The gate exists and `compareAndSet(false, true)` on it would succeed. */
  predicate GateOpen(s: Activity, g: GateId)
  {
    g in s.gates && !s.gates[g]
  }

  /** A successful `compareAndSet(false, true)`: the gate is closed and its win recorded. */
  function CloseGate(s: Activity, g: GateId): Activity
  {
    s.(gates := s.gates[g := true], acted := s.acted + [g])
  }

  /** `ensureSuggestionReceiverRegistered`: registers the receiver only when there is none. */
  function EnsureReceiverRegistered(s: Activity): Activity
  {
    if s.suggestionReceiver then s
    else s.(suggestionReceiver := true, receiverRegistrations := s.receiverRegistrations + 1)
  }

  /** The suggestion the builder makes: the hidden flag only from Android 11 on, a passphrase only when there is one. */
  function BuildSuggestion(t: Target, sdk: nat): Suggestion
  {
    Suggestion(t.ssid, t.hidden && sdk >= SDK_R, if t.password == [] then None else Some(t.password))
  }

  /** The broadcast's and the timer's test: a current name exists and normalises to the target's normal form. */
  predicate ConnectedTo(info: Option<ConnectionInfo>, target: string)
  {
    var current := CurrentSsid(info);
    current.Some? && NormalizeSsid(current.value) == NormalizeSsid(target)
  }

  // --------------------------------------------------------------- strategies

  /**
   * `connectUsingSuggestion(ssid, password, hidden)` with the platform's
   * publish status: the suggestion list is cleared and refilled with the one
   * new suggestion; a failed publish answers false (the suggestion stays in
   * the list); a successful one registers the receiver, records the target
   * and a fresh gate, and posts the suggestion timer.
   */
  function ConnectUsingSuggestion(s: Activity, t: Target, status: int): Activity
  {
    var s1 := PublishSuggestion(s, t);
    if status != STATUS_NETWORK_SUGGESTIONS_SUCCESS then Resolve(s1, false, None)
    else ArmSuggestion(s1, t)
  }

  /** The suggestion list cleared and refilled with the one new suggestion, before the platform's answer. */
  function PublishSuggestion(s: Activity, t: Target): Activity
  {
    ClearSuggestions(s).(activeSuggestions := [BuildSuggestion(t, s.sdk)])
  }

  /** After a successful publish: the receiver registered, the target recorded, a fresh gate recorded and its timer posted. */
  function ArmSuggestion(s: Activity, t: Target): Activity
  {
    var s1 := EnsureReceiverRegistered(s).(suggestionTargetSsid := Some(t.ssid));
    var g := s1.nextId;
    s1.(gates := s1.gates[g := false], suggestionCompletion := Some(g),
        suggestionTimers := s1.suggestionTimers[g := t.ssid], nextId := g + 1)
  }

  /**
   * `connectUsingSpecifier(ssid, password, hidden, allowFallback)`: a fresh
   * gate and callback; the callback becomes the pending one. If the network
   * request is refused with a `SecurityException` the attempt is torn down and
   * either falls back to suggestions at once or resolves false through the
   * callback; otherwise the platform holds the callback and a timer is posted.
   */
  function ConnectUsingSpecifier(s: Activity, t: Target, allowFallback: bool, requestDenied: bool, status: int): Activity
  {
    var g := s.nextId;
    var cb := s.nextId + 1;
    var s1 := NewSpecifierAttempt(s);
    if requestDenied then
      var s2 := Disconnect(s1);
      if allowFallback then ConnectUsingSuggestion(s2, t, status) else Resolve(s2, false, Some(cb))
    else
      s1.(callbacks := s1.callbacks[cb := SpecifierCallback(t, allowFallback, g)],
          specifierTimers := s1.specifierTimers + {cb})
  }

  /** A fresh gate (the next identity) and a fresh callback (the one after), which becomes the pending one. */
  function NewSpecifierAttempt(s: Activity): Activity
  {
    s.(gates := s.gates[s.nextId := false], pendingCallback := Some(s.nextId + 1), nextId := s.nextId + 2)
  }

  /**
   * `connectToWifi(ssid, password, hidden, result)` with a fresh result
   * object: the previous pending result is answered false, the new one
   * becomes pending, any earlier attempt is torn down, then the specifier
   * strategy runs (Android 10 and later, fallback allowed) or the legacy one,
   * whose boolean answers at once.
   */
  function ConnectToWifi(s: Activity, t: Target, requestDenied: bool, status: int, legacy: LegacyConnector.LegacyPlatform): Activity
  {
    var s2 := BeginRequest(s);
    if s.sdk >= SDK_Q then ConnectUsingSpecifier(s2, t, true, requestDenied, status)
    else Resolve(s2, LegacyConnector.LegacyConnect(legacy, t.ssid, t.password, t.hidden).success, None)
  }

  /** The start of `connectToWifi`: the previous result answered false, a fresh one pending, the earlier attempt torn down. */
  function BeginRequest(s: Activity): Activity
  {
    var s1 := CancelPending(s, false);
    ClearSuggestions(Disconnect(s1.(pendingResult := Some(s1.nextId), nextId := s1.nextId + 1)))
  }

  // ------------------------------------------------------------------ events

  /** `onAvailable(network)`: the winner of the gate binds the process to the network and resolves true through its callback. */
  function OnAvailable(s: Activity, cb: CallbackId, network: NetworkId): Activity
    requires cb in s.callbacks
  {
    var g := s.callbacks[cb].completion;
    if !GateOpen(s, g) then s
    else Resolve(Bind(CloseGate(s, g), Some(network)), true, Some(cb))
  }

  /** `onUnavailable()`: the winner tears down and posts the fallback, or resolves false through its callback. */
  function OnUnavailable(s: Activity, cb: CallbackId): Activity
    requires cb in s.callbacks
  {
    var c := s.callbacks[cb];
    if !GateOpen(s, c.completion) then s
    else
      var s1 := Disconnect(CloseGate(s, c.completion));
      if c.allowFallback then s1.(postedFallbacks := s1.postedFallbacks + [c.target])
      else Resolve(s1, false, Some(cb))
  }

  /** The first half of `onLost(network)`, which runs whoever holds the gate. */
  function UnbindLost(s: Activity, network: NetworkId): Activity
  {
    if s.sdk < SDK_M || s.boundNetwork == Some(network) then Bind(s, None) else s
  }

  /** `onLost(network)`: unbinds a lost bound network; the winner of the gate posts the fallback or resolves false (without tearing down). */
  function OnLost(s: Activity, cb: CallbackId, network: NetworkId): Activity
    requires cb in s.callbacks
  {
    var c := s.callbacks[cb];
    var s1 := UnbindLost(s, network);
    if !GateOpen(s1, c.completion) then s1
    else
      var s2 := CloseGate(s1, c.completion);
      if c.allowFallback then s2.(postedFallbacks := s2.postedFallbacks + [c.target])
      else Resolve(s2, false, Some(cb))
  }

  /** The specifier timer: runs once; the winner tears down and falls back at once, or resolves false through its callback. */
  function OnSpecifierTimeout(s: Activity, cb: CallbackId, status: int): Activity
    requires cb in s.callbacks
  {
    var c := s.callbacks[cb];
    var s1 := s.(specifierTimers := s.specifierTimers - {cb});
    if !GateOpen(s1, c.completion) then s1
    else
      var s2 := Disconnect(CloseGate(s1, c.completion));
      if c.allowFallback then ConnectUsingSuggestion(s2, c.target, status)
      else Resolve(s2, false, Some(cb))
  }

  /** The oldest posted fallback runs `connectUsingSuggestion`. */
  function RunPostedFallback(s: Activity, status: int): Activity
    requires |s.postedFallbacks| > 0
  {
    ConnectUsingSuggestion(s.(postedFallbacks := s.postedFallbacks[1..]), s.postedFallbacks[0], status)
  }

  /** The receiver's `onReceive`: with a target and a gate, the winner clears the suggestions and resolves with the probe's verdict. */
  function OnSuggestionBroadcast(s: Activity, info: Option<ConnectionInfo>): Activity
  {
    if s.suggestionTargetSsid.None? || s.suggestionCompletion.None? then s
    else
      var g := s.suggestionCompletion.value;
      if !GateOpen(s, g) then s
      else Resolve(ClearSuggestions(CloseGate(s, g)), ConnectedTo(info, s.suggestionTargetSsid.value), None)
  }

  /** The suggestion timer: runs once; the winner of its own gate clears the suggestions and resolves with the probe's verdict for its own target. */
  function OnSuggestionTimeout(s: Activity, g: GateId, info: Option<ConnectionInfo>): Activity
    requires g in s.suggestionTimers
  {
    var target := s.suggestionTimers[g];
    var s1 := s.(suggestionTimers := s.suggestionTimers - {g});
    if !GateOpen(s1, g) then s1
    else Resolve(ClearSuggestions(CloseGate(s1, g)), ConnectedTo(info, target), None)
  }

  /** The `disconnectWifi` method call: tear down the request and the suggestions. */
  function DisconnectWifi(s: Activity): Activity
  {
    ClearSuggestions(Disconnect(s))
  }

  /** `onDestroy`: tear down, unregister the receiver, answer the pending result false. */
  function OnDestroy(s: Activity): Activity
  {
    var s1 := ClearSuggestions(Disconnect(s));
    var s2 := if s1.suggestionReceiver
              then s1.(suggestionReceiver := false, receiverUnregistrations := s1.receiverUnregistrations + 1)
              else s1;
    CancelPending(s2, false)
  }

  /**
   * The `connectToWifi` method call with its raw arguments: a missing or blank
   * name is answered with the argument error at once, on a fresh result;
   * otherwise `connectToWifi` runs.
   */
  function HandleConnectCall(s: Activity, ssid: Option<string>, password: Option<string>, hidden: Option<bool>,
                             requestDenied: bool, status: int, legacy: LegacyConnector.LegacyPlatform): Activity
  {
    if ssid.None? || IsBlank(ssid.value) then
      s.(delivered := s.delivered + [Delivery(s.nextId, RejectedInvalidArgument)], nextId := s.nextId + 1)
    else
      ConnectToWifi(s, Target(ssid.value, password.GetOr(""), hidden.GetOr(false)), requestDenied, status, legacy)
  }

  // ------------------------------------------------------------------ traces

  /** Everything that can happen to the activity, with the platform's answers for that moment. */
  datatype Event =
    | ConnectCall(ssid: Option<string>, password: Option<string>, hidden: Option<bool>,
                  requestDenied: bool, publishStatus: int, legacy: LegacyConnector.LegacyPlatform)
    | DisconnectCall
    | NetworkAvailable(callback: CallbackId, network: NetworkId)
    | NetworkUnavailable(callback: CallbackId)
    | NetworkLost(callback: CallbackId, network: NetworkId)
    | SpecifierTimerFired(callback: CallbackId, publishStatus: int)
    | PostedFallbackRan(publishStatus: int)
    | SuggestionBroadcastReceived(info: Option<ConnectionInfo>)
    | SuggestionTimerFired(gate: GateId, info: Option<ConnectionInfo>)
    | Destroyed

  /** An event can happen: callbacks the platform holds, timers and fallbacks still posted, a registered receiver. */
  predicate Enabled(s: Activity, e: Event)
  {
    match e
    case NetworkAvailable(cb, _) => cb in s.callbacks
    case NetworkUnavailable(cb) => cb in s.callbacks
    case NetworkLost(cb, _) => cb in s.callbacks
    case SpecifierTimerFired(cb, _) => cb in s.specifierTimers && cb in s.callbacks
    case PostedFallbackRan(_) => |s.postedFallbacks| > 0
    case SuggestionBroadcastReceived(_) => s.suggestionReceiver
    case SuggestionTimerFired(g, _) => g in s.suggestionTimers
    case _ => true
  }

  /** The state after `e`; an event that cannot happen changes nothing. */
  function Step(s: Activity, e: Event): Activity
  {
    if !Enabled(s, e) then s
    else match e
      case ConnectCall(ssid, password, hidden, denied, status, legacy) =>
        HandleConnectCall(s, ssid, password, hidden, denied, status, legacy)
      case DisconnectCall => DisconnectWifi(s)
      case NetworkAvailable(cb, n) => OnAvailable(s, cb, n)
      case NetworkUnavailable(cb) => OnUnavailable(s, cb)
      case NetworkLost(cb, n) => OnLost(s, cb, n)
      case SpecifierTimerFired(cb, status) => OnSpecifierTimeout(s, cb, status)
      case PostedFallbackRan(status) => RunPostedFallback(s, status)
      case SuggestionBroadcastReceived(info) => OnSuggestionBroadcast(s, info)
      case SuggestionTimerFired(g, info) => OnSuggestionTimeout(s, g, info)
      case Destroyed => OnDestroy(s)
  }

  /** The state after a sequence of events. */
  function Run(s: Activity, events: seq<Event>): Activity
    decreases |events|
  {
    if events == [] then s else Run(Step(s, events[0]), events[1..])
  }
}
