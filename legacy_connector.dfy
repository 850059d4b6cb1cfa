/**
 * `connectLegacyInternal`, the strategy for platforms older than Android 10:
 * find or create a saved network profile for the quoted name, then ask the
 * Wi-Fi service to disconnect, enable that profile and reconnect. The service
 * is abstracted by its answers, and every call made to it is recorded in order.
 */
module LegacyConnector {
  import opened Wrappers
  import opened SsidCodec

  /** The `WifiConfiguration.Status` value the connector sets. */
  datatype ConfigStatus = Enabled

  /** The members of `WifiConfiguration.KeyMgmt` the connector sets. */
  datatype KeyManagement = NoKeyManagement | WpaPsk

  /** The `WifiConfiguration.AuthAlgorithm` member the connector sets. */
  datatype AuthAlgorithm = Open

  /** A saved network profile, as `WifiConfiguration` holds it. */
  datatype WifiConfiguration = WifiConfiguration(
    ssid: string,
    hiddenSsid: bool,
    status: ConfigStatus,
    priority: int,
    allowedKeyManagement: set<KeyManagement>,
    allowedAuthAlgorithms: set<AuthAlgorithm>,
    preSharedKey: Option<string>,
    networkId: int)

  /** `WifiConfiguration.INVALID_NETWORK_ID`, also `addNetwork`'s failure answer. */
  const INVALID_NETWORK_ID: int := -1

  /** The priority given to a profile this strategy creates. */
  const LEGACY_PRIORITY: int := 40

  /** The calls made to the Wi-Fi service, in the order they are made. */
  datatype WifiCall =
    | SetWifiEnabled(enabled: bool)
    | AddNetwork(configuration: WifiConfiguration)
    | Disconnect
    | EnableNetwork(networkId: int, attemptConnect: bool)
    | Reconnect

  /** What the Wi-Fi service answers to `addNetwork`, `disconnect`, `enableNetwork` and `reconnect`. */
  datatype ServiceAnswers = ServiceAnswers(addNetworkId: int, disconnected: bool, enabled: bool, reconnected: bool)

  /** The state of the Wi-Fi service the strategy reads, and its answers. */
  datatype LegacyPlatform = LegacyPlatform(
    wifiEnabled: bool,
    configuredNetworks: Option<seq<WifiConfiguration>>,
    answers: ServiceAnswers)

  /** The boolean the strategy returns, the calls it made and the profile object it ended with. */
  datatype LegacyOutcome = LegacyOutcome(success: bool, calls: seq<WifiCall>, configuration: WifiConfiguration)

  /** `firstOrNull { it.SSID == key }`: the index of the first profile saved under `key`. */
  function FirstMatch(profiles: seq<WifiConfiguration>, key: string): (r: Option<nat>)
    ensures r.Some? ==> r.value < |profiles| && profiles[r.value].ssid == key
    ensures r.Some? ==> forall j :: 0 <= j < r.value ==> profiles[j].ssid != key
    ensures r.None? ==> forall j :: 0 <= j < |profiles| ==> profiles[j].ssid != key
  {
    if profiles == [] then None
    else if profiles[0].ssid == key then Some(0)
    else match FirstMatch(profiles[1..], key)
      case None => None
      case Some(k) => Some(k + 1)
  }

  /** The first-match search over the saved profiles, as the loop `firstOrNull` runs. */
  method FindConfiguration(profiles: seq<WifiConfiguration>, key: string) returns (index: Option<nat>)
    ensures index == FirstMatch(profiles, key)
  {
    var i := 0;
    while i < |profiles|
      invariant 0 <= i <= |profiles|
      invariant forall j :: 0 <= j < i ==> profiles[j].ssid != key
    {
      if profiles[i].ssid == key {
        return Some(i);
      }
      i := i + 1;
    }
    return None;
  }

  /**
   * The profile built for a name with no saved profile: quoted name, the hidden
   * flag, enabled, priority 40, open authentication, and either no key
   * management (empty password) or WPA-PSK with the quoted password.
   */
  function NewConfiguration(quotedSsid: string, password: string, hidden: bool): WifiConfiguration
  {
    WifiConfiguration(
      quotedSsid, hidden, Enabled, LEGACY_PRIORITY,
      if password == [] then {NoKeyManagement} else {WpaPsk},
      {Open},
      if password == [] then None else Some(QuoteIfNeeded(password)),
      INVALID_NETWORK_ID)
  }

  /** Disconnect, enable the profile while disabling the others, reconnect: all three made, success only if all three succeed. */
  function Associate(calls: seq<WifiCall>, networkId: int, configuration: WifiConfiguration, answers: ServiceAnswers): LegacyOutcome
  {
    LegacyOutcome(
      answers.disconnected && answers.enabled && answers.reconnected,
      calls + [Disconnect, EnableNetwork(networkId, true), Reconnect],
      configuration)
  }

  /** What `connectLegacyInternal(ssid, password, hidden)` does against `platform`. */
  function LegacyConnect(platform: LegacyPlatform, ssid: string, password: string, hidden: bool): LegacyOutcome
  {
    var enabling := if platform.wifiEnabled then [] else [SetWifiEnabled(true)];
    var quotedSsid := QuoteIfNeeded(ssid);
    var found := if platform.configuredNetworks.Some? then FirstMatch(platform.configuredNetworks.value, quotedSsid) else None;
    if found.None? then
      var created := NewConfiguration(quotedSsid, password, hidden);
      var calls := enabling + [AddNetwork(created)];
      var networkId := platform.answers.addNetworkId;
      if networkId == INVALID_NETWORK_ID then LegacyOutcome(false, calls, created)
      else Associate(calls, networkId, created.(networkId := networkId), platform.answers)
    else
      var existing := platform.configuredNetworks.value[found.value].(hiddenSsid := hidden);
      if existing.networkId == INVALID_NETWORK_ID then LegacyOutcome(false, enabling, existing)
      else Associate(enabling, existing.networkId, existing, platform.answers)
  }

  /** `connectLegacyInternal`, step by step. */
  method ConnectLegacyInternal(platform: LegacyPlatform, ssid: string, password: string, hidden: bool)
    returns (outcome: LegacyOutcome)
    ensures outcome == LegacyConnect(platform, ssid, password, hidden)
  {
    var calls: seq<WifiCall> := [];
    if !platform.wifiEnabled {
      calls := calls + [SetWifiEnabled(true)];
    }
    var quotedSsid := QuoteIfNeeded(ssid);
    var found: Option<nat> := None;
    if platform.configuredNetworks.Some? {
      found := FindConfiguration(platform.configuredNetworks.value, quotedSsid);
    }
    var configuration: WifiConfiguration;
    if found.None? {
      configuration := NewConfiguration(quotedSsid, password, hidden);
      calls := calls + [AddNetwork(configuration)];
      var addedId := platform.answers.addNetworkId;
      if addedId == INVALID_NETWORK_ID {
        return LegacyOutcome(false, calls, configuration);
      }
      configuration := configuration.(networkId := addedId);
    } else {
      configuration := platform.configuredNetworks.value[found.value];
      configuration := configuration.(hiddenSsid := hidden);
    }
    var networkId := configuration.networkId;
    if networkId == INVALID_NETWORK_ID {
      return LegacyOutcome(false, calls, configuration);
    }
    calls := calls + [Disconnect];
    var disconnected := platform.answers.disconnected;
    calls := calls + [EnableNetwork(networkId, true)];
    var enabled := platform.answers.enabled;
    calls := calls + [Reconnect];
    var reconnected := platform.answers.reconnected;
    outcome := LegacyOutcome(disconnected && enabled && reconnected, calls, configuration);
  }

  /** The profile lookup is keyed by the quoted name. */
  predicate HasProfile(platform: LegacyPlatform, quotedSsid: string)
  {
    platform.configuredNetworks.Some? && FirstMatch(platform.configuredNetworks.value, quotedSsid).Some?
  }

  /** True when the call list holds an `addNetwork` call. */
  predicate AddsNetwork(calls: seq<WifiCall>)
  {
    exists i :: 0 <= i < |calls| && calls[i].AddNetwork?
  }

  /** True when the call list holds one of the three association calls. */
  predicate TouchesAssociation(calls: seq<WifiCall>)
  {
    exists i :: 0 <= i < |calls| && (calls[i].Disconnect? || calls[i].EnableNetwork? || calls[i].Reconnect?)
  }

  /** The radio is switched on first exactly when it was off. */
  lemma EnablesRadioFirstWhenOff(platform: LegacyPlatform, ssid: string, password: string, hidden: bool)
    ensures var o := LegacyConnect(platform, ssid, password, hidden);
      (|o.calls| > 0 && o.calls[0] == SetWifiEnabled(true)) <==> !platform.wifiEnabled
  {
  }

  /**
   * A profile already saved under the quoted name is the one used: the first
   * such profile, with only its hidden flag changed, and nothing is added.
   * The change stays on the copy: no call hands it back to the service.
   */
  lemma ExistingProfileOnlyHiddenFlagChanges(platform: LegacyPlatform, ssid: string, password: string, hidden: bool)
    requires HasProfile(platform, QuoteIfNeeded(ssid))
    ensures var o := LegacyConnect(platform, ssid, password, hidden);
      var k := FirstMatch(platform.configuredNetworks.value, QuoteIfNeeded(ssid)).value;
      o.configuration == platform.configuredNetworks.value[k].(hiddenSsid := hidden)
      && !AddsNetwork(o.calls)
  {
  }

  /**
   * A name with no saved profile gets a new one: quoted name, hidden flag,
   * priority 40, enabled, open authentication; no key management and no key
   * for an empty password, WPA-PSK with the quoted password otherwise. It is
   * handed to `addNetwork` right after the radio is switched on, if it was off.
   */
  lemma NewProfileForUnknownName(platform: LegacyPlatform, ssid: string, password: string, hidden: bool)
    requires !HasProfile(platform, QuoteIfNeeded(ssid))
    ensures var o := LegacyConnect(platform, ssid, password, hidden);
      var start := if platform.wifiEnabled then 0 else 1;
      var c := o.calls[start].configuration;
      |o.calls| > start && o.calls[start].AddNetwork?
      && c.ssid == QuoteIfNeeded(ssid) && c.hiddenSsid == hidden
      && c.priority == LEGACY_PRIORITY && c.status == Enabled
      && c.allowedAuthAlgorithms == {Open}
      && (password == [] ==> c.allowedKeyManagement == {NoKeyManagement} && c.preSharedKey == None)
      && (password != [] ==> c.allowedKeyManagement == {WpaPsk} && c.preSharedKey == Some(QuoteIfNeeded(password)))
  {
  }

  /**
   * An `addNetwork` refusal, or a saved profile without a valid id, fails the
   * attempt without any of the disconnect, enable and reconnect calls.
   */
  lemma InvalidNetworkIdFailsWithoutAssociating(platform: LegacyPlatform, ssid: string, password: string, hidden: bool)
    requires var q := QuoteIfNeeded(ssid);
      if HasProfile(platform, q)
      then platform.configuredNetworks.value[FirstMatch(platform.configuredNetworks.value, q).value].networkId == INVALID_NETWORK_ID
      else platform.answers.addNetworkId == INVALID_NETWORK_ID
    ensures var o := LegacyConnect(platform, ssid, password, hidden);
      !o.success && !TouchesAssociation(o.calls)
  {
    var o := LegacyConnect(platform, ssid, password, hidden);
    assert forall i :: 0 <= i < |o.calls| ==> o.calls[i].SetWifiEnabled? || o.calls[i].AddNetwork?;
  }

  /**
   * With a valid id, the attempt ends with disconnect, enable (disabling the
   * others) and reconnect, all three in that order whatever they answer, and
   * succeeds exactly when all three do.
   */
  lemma ValidNetworkIdAssociates(platform: LegacyPlatform, ssid: string, password: string, hidden: bool)
    requires var q := QuoteIfNeeded(ssid);
      if HasProfile(platform, q)
      then platform.configuredNetworks.value[FirstMatch(platform.configuredNetworks.value, q).value].networkId != INVALID_NETWORK_ID
      else platform.answers.addNetworkId != INVALID_NETWORK_ID
    ensures var o := LegacyConnect(platform, ssid, password, hidden);
      var q := QuoteIfNeeded(ssid);
      var id := o.configuration.networkId;
      |o.calls| >= 3 && o.calls[|o.calls| - 3..] == [Disconnect, EnableNetwork(id, true), Reconnect]
      && id != INVALID_NETWORK_ID
      && id == (if HasProfile(platform, q)
                then platform.configuredNetworks.value[FirstMatch(platform.configuredNetworks.value, q).value].networkId
                else platform.answers.addNetworkId)
      && o.success == (platform.answers.disconnected && platform.answers.enabled && platform.answers.reconnected)
  {
  }

  /**
   * An open, hidden network on a platform with no saved profiles: an open
   * hidden profile without a key is added, and the attempt succeeds exactly
   * when disconnect, enable and reconnect all succeed.
   */
  lemma OpenHiddenGuestNetwork(answers: ServiceAnswers)
    requires answers.addNetworkId == 7
    ensures var o := LegacyConnect(LegacyPlatform(true, Some([]), answers), "Guest", "", true);
      o.calls == [AddNetwork(NewConfiguration("\"Guest\"", "", true)), Disconnect, EnableNetwork(7, true), Reconnect]
      && o.configuration.hiddenSsid && o.configuration.preSharedKey == None
      && o.configuration.allowedKeyManagement == {NoKeyManagement}
      && o.success == (answers.disconnected && answers.enabled && answers.reconnected)
  {
    assert QuoteIfNeeded("Guest") == "\"Guest\"";
  }
}
