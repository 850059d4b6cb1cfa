/**
 * Whole conversations between Dart, the activity and the platform, on a
 * device with Android 10 (API level 29), followed event by event.
 *
 * Identifiers are drawn in order from one counter: the first connect call's
 * result is 0, its specifier gate 1 and its callback 2, and a suggestion
 * attempt made right after gets gate 3.
 */
module ArbiterScenarios {
  import opened Wrappers
  import opened SsidCodec
  import opened ConnectionProbe
  import LegacyConnector
  import opened RequestArbiter
  import ArbiterProperties

  const ANDROID_10: nat := 29

  /** The legacy platform is never consulted on Android 10; any value will do. */
  const NoLegacy: LegacyConnector.LegacyPlatform :=
    LegacyConnector.LegacyPlatform(true, None, LegacyConnector.ServiceAnswers(-1, false, false, false))

  function Connect(ssid: string, password: string, requestDenied: bool, status: int): Event
  {
    ConnectCall(Some(ssid), Some(password), Some(false), requestDenied, status, NoLegacy)
  }

  /** A name that begins with a capital letter is not blank. */
  lemma LetterNameIsNotBlank(ssid: string)
    requires |ssid| > 0 && 'A' <= ssid[0] <= 'Z'
    ensures !IsBlank(ssid)
  {
    BlankIffTrimsToEmpty(ssid);
    assert TrimStart(ssid) == ssid;
  }

  /**
   * The platform finds the network at once: the result is true and the
   * process is bound to it.
   */
  lemma NetworkFoundAtOnce(network: NetworkId)
    ensures var s := Run(Init(ANDROID_10), [Connect("HomeNet", "secret123", false, 0), NetworkAvailable(2, network)]);
      s.delivered == [Delivery(0, Answered(true))] && s.boundNetwork == Some(network)
      && s.pendingResult.None? && s.pendingCallback == Some(2)
  {
    var e1, e2 := Connect("HomeNet", "secret123", false, 0), NetworkAvailable(2, network);
    RunTwo(Init(ANDROID_10), e1, e2);
    FirstRequestWaits("HomeNet", "secret123", 0);
    var s1 := Step(Init(ANDROID_10), e1);
    AvailableStep(s1, 2, network);
    PendingCallbackWins(s1, 2, network);
  }

  lemma RunTwo(s: Activity, e1: Event, e2: Event)
    ensures Run(s, [e1, e2]) == Step(Step(s, e1), e2)
  {
    assert [e1, e2][1..] == [e2] && [e2][1..] == [];
    assert Run(s, [e1, e2]) == Run(Step(s, e1), [e2]);
    assert Run(Step(s, e1), [e2]) == Run(Step(Step(s, e1), e2), []);
  }

  /** A first request the platform accepts leaves result 0 pending on callback 2, whose gate 1 is open. */
  lemma FirstRequestWaits(ssid: string, password: string, status: int)
    requires |ssid| > 0 && 'A' <= ssid[0] <= 'Z'
    ensures var s1 := Step(Init(ANDROID_10), Connect(ssid, password, false, status));
      s1.sdk == ANDROID_10 && s1.delivered == [] && s1.pendingResult == Some(0) && s1.pendingCallback == Some(2)
      && s1.nextId == 3 && s1.postedFallbacks == [] && s1.specifierTimers == {2} && s1.suggestionTimers == map[]
      && 2 in s1.callbacks && s1.callbacks[2] == SpecifierCallback(Target(ssid, password, false), true, 1)
      && GateOpen(s1, 1)
  {
    LetterNameIsNotBlank(ssid);
  }

  lemma AvailableStep(s: Activity, cb: CallbackId, network: NetworkId)
    requires cb in s.callbacks
    ensures Step(s, NetworkAvailable(cb, network)) == OnAvailable(s, cb, network)
  {
  }

  /** The pending callback winning its gate with `onAvailable` answers the pending result true and keeps the process bound. */
  lemma PendingCallbackWins(s: Activity, cb: CallbackId, network: NetworkId)
    requires cb in s.callbacks && GateOpen(s, s.callbacks[cb].completion)
    requires s.pendingCallback == Some(cb) && s.pendingResult.Some?
    ensures var t := OnAvailable(s, cb, network);
      t.delivered == s.delivered + [Delivery(s.pendingResult.value, Answered(true))]
      && t.boundNetwork == Some(network) && t.pendingResult.None? && t.pendingCallback == Some(cb)
  {
    ArbiterProperties.AvailableBindsThenAnswersTrue(s, cb, network);
  }

  /**
   * The platform reports the network unavailable, the posted fallback runs and
   * the publish fails: the result is false, and the suggestion the failed
   * publish built stays in the list.
   */
  lemma UnavailableThenFailedPublish()
    ensures var s := Run(Init(ANDROID_10), [Connect("HomeNet", "secret123", false, 1), NetworkUnavailable(2), PostedFallbackRan(1)]);
      s.delivered == [Delivery(0, Answered(false))]
      && s.activeSuggestions == [Suggestion("HomeNet", false, Some("secret123"))]
      && s.pendingResult.None?
  {
    var s0 := Init(ANDROID_10);
    var e1, e2, e3 := Connect("HomeNet", "secret123", false, 1), NetworkUnavailable(2), PostedFallbackRan(1);
    RunThree(s0, e1, e2, e3);
    FirstRequestWaits("HomeNet", "secret123", 1);
    var s1 := Step(s0, e1);
    UnavailablePostsFallback(s1, Target("HomeNet", "secret123", false));
    var s2 := Step(s1, e2);
    FailedPublishAnswersFalse(s2, Target("HomeNet", "secret123", false), 1);
  }

  /** `onUnavailable` on the pending callback, winning its gate, posts the fallback for its target and answers nothing yet. */
  lemma UnavailablePostsFallback(s1: Activity, t: Target)
    requires s1.delivered == [] && s1.pendingResult == Some(0) && s1.postedFallbacks == []
    requires 2 in s1.callbacks && s1.callbacks[2] == SpecifierCallback(t, true, 1) && GateOpen(s1, 1)
    ensures var s2 := Step(s1, NetworkUnavailable(2));
      s2.delivered == [] && s2.pendingResult == Some(0) && s2.postedFallbacks == [t]
  {
    assert Step(s1, NetworkUnavailable(2)) == OnUnavailable(s1, 2);
  }

  /** The posted fallback runs and the publish fails: result 0 is answered false and the one suggestion stays. */
  lemma FailedPublishAnswersFalse(s2: Activity, t: Target, status: int)
    requires status != STATUS_NETWORK_SUGGESTIONS_SUCCESS
    requires s2.sdk == ANDROID_10 && s2.delivered == [] && s2.pendingResult == Some(0) && s2.postedFallbacks == [t]
    ensures var s3 := Step(s2, PostedFallbackRan(status));
      s3.delivered == [Delivery(0, Answered(false))] && s3.activeSuggestions == [BuildSuggestion(t, ANDROID_10)]
      && s3.pendingResult.None?
  {
    var r := s2.(postedFallbacks := []);
    assert Step(s2, PostedFallbackRan(status)) == ConnectUsingSuggestion(r, t, status);
    ArbiterProperties.PublishLeavesOneSuggestion(r, t, status);
    ArbiterProperties.ConnectUsingSuggestionAnswersPendingAtMostOnce(r, t, status);
  }

  /**
   * Nothing answers the network request before its timer; the fallback
   * publishes successfully, and no broadcast arrives before the suggestion
   * timer, when there is no connection: the result is false and the list is
   * empty.
   */
  lemma SuggestionTimesOut()
    ensures var s := Run(Init(ANDROID_10), [Connect("HomeNet", "secret123", false, 0), SpecifierTimerFired(2, 0),
                                             SuggestionTimerFired(3, None)]);
      s.delivered == [Delivery(0, Answered(false))] && s.activeSuggestions == [] && s.pendingResult.None?
  {
    var s0 := Init(ANDROID_10);
    var e1, e2, e3 := Connect("HomeNet", "secret123", false, 0), SpecifierTimerFired(2, 0), SuggestionTimerFired(3, None);
    RunThree(s0, e1, e2, e3);
    FirstRequestWaits("HomeNet", "secret123", 0);
    var s1 := Step(s0, e1);
    SpecifierTimerFallsBack(s1, Target("HomeNet", "secret123", false));
    var s2 := Step(s1, e2);
    TimerStep(s2, 3, None);
    NoConnectionAnswersFalse(s2, 3, "HomeNet");
  }

  /** The specifier timer wins gate 1, and the fallback's successful publish arms suggestion gate 3 for the target. */
  lemma SpecifierTimerFallsBack(s1: Activity, t: Target)
    requires s1.delivered == [] && s1.pendingResult == Some(0) && s1.nextId == 3
    requires 2 in s1.callbacks && s1.callbacks[2] == SpecifierCallback(t, true, 1) && GateOpen(s1, 1)
    requires 2 in s1.specifierTimers
    ensures var s2 := Step(s1, SpecifierTimerFired(2, 0));
      s2.delivered == [] && s2.pendingResult == Some(0)
      && 3 in s2.suggestionTimers && s2.suggestionTimers[3] == t.ssid && GateOpen(s2, 3)
  {
    assert Step(s1, SpecifierTimerFired(2, 0)) == OnSpecifierTimeout(s1, 2, 0);
  }

  /** With no connection, the suggestion timer winning gate `g` answers the pending result false and empties the list. */
  lemma NoConnectionAnswersFalse(s2: Activity, g: GateId, target: string)
    requires s2.delivered == [] && s2.pendingResult == Some(0)
    requires g in s2.suggestionTimers && s2.suggestionTimers[g] == target && GateOpen(s2, g)
    ensures var s3 := OnSuggestionTimeout(s2, g, None);
      s3.delivered == [Delivery(0, Answered(false))] && s3.activeSuggestions == [] && s3.pendingResult.None?
  {
    ArbiterProperties.SuggestionTimerAnswersWithProbeVerdict(s2, g, None);
    assert CurrentSsid(None).None?;
  }

  /**
   * A suggestion timer is not cancelled when a newer request starts: the first
   * request's timer still holds an open gate, so it answers the second
   * request, and with the verdict for the first request's network. Here the
   * device is on "CamA" while "CamB" was asked for, and the answer is true.
   */
  lemma StaleSuggestionTimerAnswersNewerRequest()
    ensures var s := Run(Init(ANDROID_10), [Connect("CamA", "", true, 0), Connect("CamB", "", true, 0),
                                             SuggestionTimerFired(3, Some(ConnectionInfo(Some("\"CamA\""))))]);
      s.delivered == [Delivery(0, Answered(false)), Delivery(4, Answered(true))]
  {
    var info := Some(ConnectionInfo(Some("\"CamA\"")));
    var s0 := Init(ANDROID_10);
    RunThree(s0, Connect("CamA", "", true, 0), Connect("CamB", "", true, 0), SuggestionTimerFired(3, info));
    FirstCameraArmsTimer();
    var s1 := Step(s0, Connect("CamA", "", true, 0));
    SecondCameraSupersedes(s1);
    var s2 := Step(s1, Connect("CamB", "", true, 0));
    DeviceOnCamA();
    StaleTimerFires(s2, info, "CamA");
    TimerStep(s2, 3, info);
  }

  lemma RunThree(s: Activity, e1: Event, e2: Event, e3: Event)
    ensures Run(s, [e1, e2, e3]) == Step(Step(Step(s, e1), e2), e3)
  {
    var s1, s2 := Step(s, e1), Step(Step(s, e1), e2);
    assert [e1, e2, e3][1..] == [e2, e3] && [e2, e3][1..] == [e3] && [e3][1..] == [];
    assert Run(s, [e1, e2, e3]) == Run(s1, [e2, e3]);
    assert Run(s1, [e2, e3]) == Run(s2, [e3]);
    assert Run(s2, [e3]) == Run(Step(s2, e3), []);
  }

  /** The first request is refused and falls back at once: result 0 pending, suggestion gate 3 open, its timer posted for "CamA". */
  lemma FirstCameraArmsTimer()
    ensures var s1 := Step(Init(ANDROID_10), Connect("CamA", "", true, 0));
      s1.sdk == ANDROID_10 && s1.delivered == [] && s1.pendingResult == Some(0) && s1.nextId == 4
      && 3 in s1.suggestionTimers && s1.suggestionTimers[3] == "CamA" && GateOpen(s1, 3)
  {
    LetterNameIsNotBlank("CamA");
  }

  /** The second request answers result 0 false and leaves result 4 pending; it does not touch gate 3 or its timer. */
  lemma SecondCameraSupersedes(s1: Activity)
    requires s1.sdk == ANDROID_10 && s1.delivered == [] && s1.pendingResult == Some(0) && s1.nextId == 4
    requires 3 in s1.suggestionTimers && s1.suggestionTimers[3] == "CamA" && GateOpen(s1, 3)
    ensures var s2 := Step(s1, Connect("CamB", "", true, 0));
      s2.delivered == [Delivery(0, Answered(false))] && s2.pendingResult == Some(4)
      && 3 in s2.suggestionTimers && s2.suggestionTimers[3] == "CamA" && GateOpen(s2, 3)
  {
    LetterNameIsNotBlank("CamB");
  }

  /** Gate 3 is still open, so its timer answers result 4 with the verdict for its own target. */
  lemma StaleTimerFires(s2: Activity, info: Option<ConnectionInfo>, target: string)
    requires ConnectedTo(info, target)
    requires s2.delivered == [Delivery(0, Answered(false))] && s2.pendingResult == Some(4)
    requires 3 in s2.suggestionTimers && s2.suggestionTimers[3] == target && GateOpen(s2, 3)
    ensures OnSuggestionTimeout(s2, 3, info).delivered == [Delivery(0, Answered(false)), Delivery(4, Answered(true))]
  {
    ArbiterProperties.SuggestionTimerAnswersWithProbeVerdict(s2, 3, info);
    var verdict := ConnectedTo(info, s2.suggestionTimers[3]);
    assert verdict;
    assert OnSuggestionTimeout(s2, 3, info).delivered == s2.delivered + [Delivery(4, Answered(verdict))];
  }

  lemma TimerStep(s: Activity, g: GateId, info: Option<ConnectionInfo>)
    requires g in s.suggestionTimers
    ensures Step(s, SuggestionTimerFired(g, info)) == OnSuggestionTimeout(s, g, info)
  {
  }

  /** The platform reports "CamA" in quotation marks: the verdict for "CamA" is true. */
  lemma DeviceOnCamA()
    ensures ConnectedTo(Some(ConnectionInfo(Some("\"CamA\""))), "CamA")
  {
    var x := "CamA";
    assert QuoteFree(x) && NoEdgeWhitespace(x);
    assert QuoteIfNeeded(x) == "\"CamA\"";
    assert !IsUnknownSsid("\"CamA\"");
    ArbiterProperties.ReportedTargetIsConnected(x);
  }

  /**
   * Callbacks are kept after `disconnectWifi` unregisters them (see
   * `RequestArbiter.Activity`), so the model admits this run: the request is
   * dropped by the Dart side's disconnect, the unregistered callback still
   * reports the network and wins the gate, but it is no longer the pending
   * callback and its answer is ignored; its timer then finds the gate closed.
   * Result 0 stays pending with nothing left that could answer it, which is
   * why exactly one answer per result is not a property of this model.
   */
  lemma UnregisteredCallbackLeavesRequestUnanswered(network: NetworkId)
    ensures var s := Run(Init(ANDROID_10), [Connect("CamA", "", false, 0), DisconnectCall,
                                             NetworkAvailable(2, network), SpecifierTimerFired(2, 0)]);
      s.pendingResult == Some(0) && s.delivered == [] && 1 in s.gates && !GateOpen(s, 1)
      && s.postedFallbacks == [] && s.specifierTimers == {} && s.suggestionTimers == map[]
  {
    var s0 := Init(ANDROID_10);
    var e1, e2, e3, e4 := Connect("CamA", "", false, 0), DisconnectCall, NetworkAvailable(2, network), SpecifierTimerFired(2, 0);
    RunFour(s0, e1, e2, e3, e4);
    FirstRequestWaits("CamA", "", 0);
    var s1 := Step(s0, e1);
    DisconnectForgetsCallback(s1);
    var s2 := Step(s1, e2);
    StaleAvailableIsIgnored(s2, 2, network);
    var s3 := Step(s2, e3);
    ClosedGateTimerOnlyLeaves(s3, 2, 0);
  }

  lemma RunFour(s: Activity, e1: Event, e2: Event, e3: Event, e4: Event)
    ensures Run(s, [e1, e2, e3, e4]) == Step(Step(Step(Step(s, e1), e2), e3), e4)
  {
    assert [e1, e2, e3, e4][1..] == [e2, e3, e4];
    assert Run(s, [e1, e2, e3, e4]) == Run(Step(s, e1), [e2, e3, e4]);
    RunThree(Step(s, e1), e2, e3, e4);
  }

  /** `disconnectWifi` forgets the pending callback but leaves the result, the callbacks, the gates and the timers. */
  lemma DisconnectForgetsCallback(s: Activity)
    ensures var t := Step(s, DisconnectCall);
      t.pendingCallback.None? && t.pendingResult == s.pendingResult && t.delivered == s.delivered
      && t.callbacks == s.callbacks && t.gates == s.gates && t.specifierTimers == s.specifierTimers
      && t.suggestionTimers == s.suggestionTimers && t.postedFallbacks == s.postedFallbacks
  {
    assert Step(s, DisconnectCall) == DisconnectWifi(s);
  }

  /** A callback that is not the pending one wins its gate with `onAvailable`: the gate closes and nothing is answered. */
  lemma StaleAvailableIsIgnored(s: Activity, cb: CallbackId, network: NetworkId)
    requires cb in s.callbacks && GateOpen(s, s.callbacks[cb].completion) && s.pendingCallback != Some(cb)
    ensures var t := Step(s, NetworkAvailable(cb, network));
      s.callbacks[cb].completion in t.gates && !GateOpen(t, s.callbacks[cb].completion)
      && t.pendingResult == s.pendingResult && t.delivered == s.delivered && t.callbacks == s.callbacks
      && t.specifierTimers == s.specifierTimers && t.suggestionTimers == s.suggestionTimers
      && t.postedFallbacks == s.postedFallbacks
  {
    assert Step(s, NetworkAvailable(cb, network)) == OnAvailable(s, cb, network);
  }

  /** A specifier timer whose gate is closed only removes itself. */
  lemma ClosedGateTimerOnlyLeaves(s: Activity, cb: CallbackId, status: int)
    requires cb in s.callbacks && cb in s.specifierTimers && !GateOpen(s, s.callbacks[cb].completion)
    ensures Step(s, SpecifierTimerFired(cb, status)) == s.(specifierTimers := s.specifierTimers - {cb})
  {
    assert Step(s, SpecifierTimerFired(cb, status)) == OnSpecifierTimeout(s, cb, status);
  }
}
