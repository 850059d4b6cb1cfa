# ImagingEdge-Next Wi-Fi activity, modelled in Dafny

The Android side of ImagingEdge-Next is one activity, `MainActivity`. It
joins a camera's Wi-Fi network on request from Dart and owes each request one
boolean answer. This project models its core:

- **SSID helpers** (module `SsidCodec`, `ssid_codec.dfy`): `quoteIfNeeded`,
  `normalizeSsid` with Kotlin's `trim`, and the blank-name check.
- **Connection probe** (module `ConnectionProbe`, `connection_probe.dfy`): the
  string part of `getCurrentSsid`. It covers the `<unknown ssid>` placeholder
  in any case and quotation-mark removal.
- **Legacy connector** (module `LegacyConnector`, `legacy_connector.dfy`):
  `connectLegacyInternal` for devices before Android 10. It switches the radio
  on, does a first-match lookup of the saved profile under the quoted name, and
  builds and adds a new profile when there is none. Then it makes the
  disconnect, enable and reconnect calls, whose answers are ANDed. The service
  is a value holding its state and answers. The method records the calls it
  makes, in order.
- **Request arbitration** (module `RequestArbiter`, `request_arbiter.dfy`):
  the activity state as a value (`Activity`), one function per source method
  and per platform event, and event traces (`Step`, `Run`). The state includes
  the pending Dart result, the pending network callback and the suggestion list.
  It also includes the suggestion receiver, target and gate, and the network
  the process is bound to. The closures capture further state, which is made
  explicit:
  - the one-shot `AtomicBoolean` gates, as a map from gate to value;
  - the callbacks the platform holds;
  - the posted timers and fallbacks;
  - a log of the replies posted to Dart results.

  Results, callbacks and gates are identified by numbers drawn from one counter.
- **Invariant** (module `ArbiterInvariant`, `arbiter_invariant.dfy`): the
  invariant every reachable state keeps, and its preservation by every event.
  It implies that no Dart result is answered twice and no gate is won twice.
- **Properties** (module `ArbiterProperties`, `arbiter_properties.dfy`): what
  each event answers, what the gates let through, what the suggestion path
  leaves behind, and the source's quirks.
- **Scenarios** (module `ArbiterScenarios`, `arbiter_scenarios.dfy`): whole
  conversations on an Android 10 device, followed event by event.
- **Activity** (module `WifiActivity`, `main_activity.dfy`): class
  `MainActivity`, whose fields the methods update in place, one method per
  source method and platform callback. Each method is proved to reach the state
  the matching `RequestArbiter` function gives. The entry points also keep the
  invariant.

The platform's answers are parameters of the events. These are:
- whether `requestNetwork` throws `SecurityException`;
- the suggestion publish status;
- the legacy service's state and answers;
- the connection information at the moment of a probe;
- the network a callback reports.

The SDK level is a field fixed at construction.

Four points differ from what a reader might expect. In the first, second and
fourth the model follows the code; the third is a limit of the model itself:
- **A failed suggestion publish keeps the new suggestion in the list.** One
  might expect the list to end empty. However, the new suggestion is added at
  MainActivity.kt:260-261, and the failure branch at MainActivity.kt:264-266
  only resolves false. `PublishLeavesOneSuggestion` and
  `UnavailableThenFailedPublish` state this.
- **A reply can carry the verdict for another request.** Timers are never
  cancelled, and the suggestion timer resolves without naming a callback
  (MainActivity.kt:282-288). A stale suggestion timer can therefore answer a
  newer request, with the verdict for the older target:
  `StaleSuggestionTimerAnswersNewerRequest`.
- **Only "at most one answer per result" is proved, not "exactly one".** The
  model lets a callback fire after `disconnectFromRequestedNetwork` has
  unregistered it (MainActivity.kt:356-363), because the platform's
  registration table is not modelled. That admits runs in which a request is
  never answered: connect to "CamA", `disconnectWifi`, callback 2 reports the
  network, then its timer fires. The callback wins gate 1 but is no longer the
  pending callback, so its answer is ignored, and the timer finds the gate
  closed. Result 0 stays pending with no timer, fallback or open gate left:
  `UnregisteredCallbackLeavesRequestUnanswered`. The property proved is
  `EachResultAnsweredAtMostOnce`.
- **Normalising a quoted name agrees with normalising the name itself only
  when the name has no whitespace at either end.** `quoteIfNeeded`
  (MainActivity.kt:385-391) wraps the name, and the quotes protect its edge
  whitespace from the `trim` in `normalizeSsid` (MainActivity.kt:393).
  Quoting `" abc"` and normalising keeps the space; normalising `" abc"`
  directly trims it to `"abc"`: `QuoteRoundTripNeedsTrimmedName`.

## Model

Every source cell points into the one core file, `MainActivity.kt`. Each class method is proved to reach exactly the state that the corresponding `RequestArbiter` function gives. Most share the method's name. The exceptions are listed here:

- `BindProcessToNetwork` corresponds to `Bind`;
- `DisconnectFromRequestedNetwork` corresponds to `Disconnect`;
- `ClearNetworkSuggestions` corresponds to `ClearSuggestions`;
- `CancelPendingResult` corresponds to `CancelPending`;
- `ResolveResult` corresponds to `Resolve`;
- `EnsureSuggestionReceiverRegistered` corresponds to `EnsureReceiverRegistered`;
- `CompareAndSet` corresponds to `GateOpen` and `CloseGate`.

The `ArbiterProperties` lemmas about each function state what its state means. Rows marked "proof step" are lemmas that other lemmas use as single steps.

| member | source | states |
|---|---|---|
| SsidCodec.TrimStart | android/app/src/main/kotlin/com/example/imagingedge_next/MainActivity.kt:393 | the result is a suffix of the input, everything removed is whitespace, and the result is empty or starts with a non-whitespace character |
| SsidCodec.TrimEnd | android/app/src/main/kotlin/com/example/imagingedge_next/MainActivity.kt:393 | the result is a prefix of the input, everything removed is whitespace, and the result is empty or ends with a non-whitespace character |
| SsidCodec.Trim | android/app/src/main/kotlin/com/example/imagingedge_next/MainActivity.kt:393 | `trim()` gives the infix of the input left after removing whitespace at both ends: everything before and after it is whitespace, no whitespace is left at either end, and a string without edge whitespace is unchanged |
| SsidCodec.QuoteIfNeeded | android/app/src/main/kotlin/com/example/imagingedge_next/MainActivity.kt:385-391 | the result is non-empty and starts and ends with `"` |
| SsidCodec.NormalizeSsid | android/app/src/main/kotlin/com/example/imagingedge_next/MainActivity.kt:393 | the result is the trimmed input less one leading quotation mark, if it starts with one, and then one trailing quotation mark, if what is left ends with one |
| SsidCodec.QuoteIfNeededIdempotent | android/app/src/main/kotlin/com/example/imagingedge_next/MainActivity.kt:385-391 | quoting twice is quoting once |
| SsidCodec.QuoteIfNeededWrapsUnquoted | android/app/src/main/kotlin/com/example/imagingedge_next/MainActivity.kt:385-391 | the value comes back unchanged exactly when it starts and ends with `"`; otherwise it is wrapped in one pair |
| SsidCodec.NormalizeUnwrapsQuotes | android/app/src/main/kotlin/com/example/imagingedge_next/MainActivity.kt:393 | normalising a name wrapped in one pair of quotation marks gives the name back, whatever it contains |
| SsidCodec.NormalizeKeepsPlainName | android/app/src/main/kotlin/com/example/imagingedge_next/MainActivity.kt:393 | a name without quotation marks or edge whitespace is its own normal form |
| SsidCodec.QuoteRoundTrip | android/app/src/main/kotlin/com/example/imagingedge_next/MainActivity.kt:385-393 | for a name without quotation marks or edge whitespace, normalising the quoted name gives the name's normal form, which is the name |
| SsidCodec.QuoteRoundTripNeedsTrimmedName | android/app/src/main/kotlin/com/example/imagingedge_next/MainActivity.kt:385-393 | for `" abc"` the two normal forms differ: the quoted name normalises to `" abc"`, the name itself to `"abc"` |
| SsidCodec.NormalizeSkipsLeadingWhitespace | android/app/src/main/kotlin/com/example/imagingedge_next/MainActivity.kt:393 | whitespace in front of a name is dropped by normalisation |
| SsidCodec.TrimEndOfSuffix | android/app/src/main/kotlin/com/example/imagingedge_next/MainActivity.kt:393 | proof step: whitespace trimmed from the end of a suffix of a string is trailing whitespace of the string |
| SsidCodec.LeadingSpaceIsTrimmed | android/app/src/main/kotlin/com/example/imagingedge_next/MainActivity.kt:393 | proof step: normalising `" abc"` gives `"abc"` |
| SsidCodec.AbcIsPlain | android/app/src/main/kotlin/com/example/imagingedge_next/MainActivity.kt:393 | proof step: `"abc"` has no quotation mark and no whitespace at its ends |
| SsidCodec.BlankIffTrimsToEmpty | android/app/src/main/kotlin/com/example/imagingedge_next/MainActivity.kt:60 | `isBlank` holds exactly when trimming leaves nothing |
| ConnectionProbe.RemoveQuotes | android/app/src/main/kotlin/com/example/imagingedge_next/MainActivity.kt:372 | `replace("\"", "")` leaves no quotation mark, never lengthens, and keeps the count of every other character |
| ConnectionProbe.CurrentSsid | android/app/src/main/kotlin/com/example/imagingedge_next/MainActivity.kt:366-373 | nothing exactly when the information or its name is missing or the name is `<unknown ssid>` in any case; otherwise the name with every quotation mark removed |
| ConnectionProbe.RemoveQuotesKeepsQuoteFree | android/app/src/main/kotlin/com/example/imagingedge_next/MainActivity.kt:372 | a string without quotation marks is unchanged |
| ConnectionProbe.RemoveQuotesIdempotent | android/app/src/main/kotlin/com/example/imagingedge_next/MainActivity.kt:372 | removing quotation marks twice is removing them once |
| ConnectionProbe.RemoveQuotesAppend | android/app/src/main/kotlin/com/example/imagingedge_next/MainActivity.kt:372 | the removal distributes over concatenation |
| ConnectionProbe.HomeNetIsQuoteFree | android/app/src/main/kotlin/com/example/imagingedge_next/MainActivity.kt:372 | proof step: `"HomeNet"` holds no quotation mark |
| ConnectionProbe.RemoveQuotesUnwrapsQuoted | android/app/src/main/kotlin/com/example/imagingedge_next/MainActivity.kt:372 | the quoted spelling of a name without quotation marks comes back as the name |
| ConnectionProbe.UnknownSsidInAnyCase | android/app/src/main/kotlin/com/example/imagingedge_next/MainActivity.kt:369-371 | the placeholder is recognised in lower, upper and mixed case, and not when quoted |
| ConnectionProbe.QuotedNameComesBackBare | android/app/src/main/kotlin/com/example/imagingedge_next/MainActivity.kt:366-373 | a reported `"HomeNet"` in quotation marks gives `HomeNet` |
| LegacyConnector.FirstMatch | android/app/src/main/kotlin/com/example/imagingedge_next/MainActivity.kt:105 | the index found holds the key and no earlier profile does; none is found only when no profile holds the key |
| LegacyConnector.FindConfiguration | android/app/src/main/kotlin/com/example/imagingedge_next/MainActivity.kt:105 | the loop returns the first-match index |
| LegacyConnector.ConnectLegacyInternal | android/app/src/main/kotlin/com/example/imagingedge_next/MainActivity.kt:97-142 | the step-by-step connector gives the outcome, calls and configuration of `LegacyConnect` |
| LegacyConnector.EnablesRadioFirstWhenOff | android/app/src/main/kotlin/com/example/imagingedge_next/MainActivity.kt:100-102 | the first call switches the radio on exactly when it was off |
| LegacyConnector.ExistingProfileOnlyHiddenFlagChanges | android/app/src/main/kotlin/com/example/imagingedge_next/MainActivity.kt:104-131 | with a profile saved under the quoted name, the first one is used with only its hidden flag changed, and nothing is added |
| LegacyConnector.NewProfileForUnknownName | android/app/src/main/kotlin/com/example/imagingedge_next/MainActivity.kt:107-124 | otherwise a new profile is added right after any radio switch-on. It has the quoted name, the hidden flag, priority 40, ENABLED and OPEN authentication; with no password it has key management NONE and no key, otherwise WPA_PSK with the quoted password |
| LegacyConnector.InvalidNetworkIdFailsWithoutAssociating | android/app/src/main/kotlin/com/example/imagingedge_next/MainActivity.kt:124-136 | an `addNetwork` answer of -1, or a saved profile with id -1, fails without disconnect, enable or reconnect |
| LegacyConnector.ValidNetworkIdAssociates | android/app/src/main/kotlin/com/example/imagingedge_next/MainActivity.kt:133-141 | with a valid id the calls end with disconnect, enable(id, true) and reconnect, all three always made in that order. The id is that of the saved profile, or else the one `addNetwork` returned. Success is the AND of the three answers |
| LegacyConnector.OpenHiddenGuestNetwork | android/app/src/main/kotlin/com/example/imagingedge_next/MainActivity.kt:97-142 | an open hidden network "Guest" with no saved profile: an open hidden profile with no key is added, and the answer is true exactly when all three calls succeed |
| ArbiterInvariant.InitSatisfiesInvariant | android/app/src/main/kotlin/com/example/imagingedge_next/MainActivity.kt:37-42 | a fresh activity satisfies the invariant |
| ArbiterInvariant.CancelPendingKeepsInvariant | android/app/src/main/kotlin/com/example/imagingedge_next/MainActivity.kt:346-354 | `cancelPendingResult` keeps the invariant |
| ArbiterInvariant.ResolveKeepsInvariant | android/app/src/main/kotlin/com/example/imagingedge_next/MainActivity.kt:332-344 | `resolveResult` keeps the invariant |
| ArbiterInvariant.CloseGateKeepsInvariant | android/app/src/main/kotlin/com/example/imagingedge_next/MainActivity.kt:175 | winning an open gate keeps the invariant: it is recorded once |
| ArbiterInvariant.DisconnectKeepsInvariant | android/app/src/main/kotlin/com/example/imagingedge_next/MainActivity.kt:356-363 | `disconnectFromRequestedNetwork` keeps the invariant |
| ArbiterInvariant.ClearSuggestionsKeepsInvariant | android/app/src/main/kotlin/com/example/imagingedge_next/MainActivity.kt:319-330 | `clearNetworkSuggestions` keeps the invariant |
| ArbiterInvariant.FreshGateKeepsInvariant | android/app/src/main/kotlin/com/example/imagingedge_next/MainActivity.kt:171 | a new `AtomicBoolean(false)` with a fresh identity keeps the invariant |
| ArbiterInvariant.AcceptedCallbackKeepsInvariant | android/app/src/main/kotlin/com/example/imagingedge_next/MainActivity.kt:217-219 | a callback the platform accepted, made pending, keeps the invariant |
| ArbiterInvariant.NewPendingResultKeepsInvariant | android/app/src/main/kotlin/com/example/imagingedge_next/MainActivity.kt:83 | a fresh result made pending where none was keeps the invariant |
| ArbiterInvariant.ConnectUsingSuggestionKeepsInvariant | android/app/src/main/kotlin/com/example/imagingedge_next/MainActivity.kt:243-289 | `connectUsingSuggestion` keeps the invariant |
| ArbiterInvariant.ConnectUsingSpecifierKeepsInvariant | android/app/src/main/kotlin/com/example/imagingedge_next/MainActivity.kt:145-240 | `connectUsingSpecifier` keeps the invariant, with or without fallback |
| ArbiterInvariant.DeniedSpecifierKeepsInvariant | android/app/src/main/kotlin/com/example/imagingedge_next/MainActivity.kt:220-228 | proof step: a refused network request, then its teardown and the fallback or the failure, keeps the invariant |
| ArbiterInvariant.AcceptedSpecifierKeepsInvariant | android/app/src/main/kotlin/com/example/imagingedge_next/MainActivity.kt:217-239 | proof step: an accepted network request, with its callback pending and its timer posted, keeps the invariant |
| ArbiterInvariant.BeginRequestKeepsInvariant | android/app/src/main/kotlin/com/example/imagingedge_next/MainActivity.kt:82-86 | the start of `connectToWifi` keeps the invariant |
| ArbiterInvariant.ConnectToWifiKeepsInvariant | android/app/src/main/kotlin/com/example/imagingedge_next/MainActivity.kt:76-94 | `connectToWifi` keeps the invariant on every SDK level |
| ArbiterInvariant.HandleConnectCallKeepsInvariant | android/app/src/main/kotlin/com/example/imagingedge_next/MainActivity.kt:56-65 | the `connectToWifi` call keeps the invariant, including the argument-error reply |
| ArbiterInvariant.OnAvailableKeepsInvariant | android/app/src/main/kotlin/com/example/imagingedge_next/MainActivity.kt:174-180 | `onAvailable` keeps the invariant |
| ArbiterInvariant.OnUnavailableKeepsInvariant | android/app/src/main/kotlin/com/example/imagingedge_next/MainActivity.kt:182-194 | `onUnavailable` keeps the invariant |
| ArbiterInvariant.OnLostKeepsInvariant | android/app/src/main/kotlin/com/example/imagingedge_next/MainActivity.kt:196-214 | `onLost` keeps the invariant |
| ArbiterInvariant.OnSpecifierTimeoutKeepsInvariant | android/app/src/main/kotlin/com/example/imagingedge_next/MainActivity.kt:230-239 | the specifier timer keeps the invariant |
| ArbiterInvariant.RunPostedFallbackKeepsInvariant | android/app/src/main/kotlin/com/example/imagingedge_next/MainActivity.kt:188-190 | a posted fallback keeps the invariant |
| ArbiterInvariant.OnSuggestionBroadcastKeepsInvariant | android/app/src/main/kotlin/com/example/imagingedge_next/MainActivity.kt:297-307 | the receiver's `onReceive` keeps the invariant |
| ArbiterInvariant.OnSuggestionTimeoutKeepsInvariant | android/app/src/main/kotlin/com/example/imagingedge_next/MainActivity.kt:282-288 | the suggestion timer keeps the invariant |
| ArbiterInvariant.OnDestroyKeepsInvariant | android/app/src/main/kotlin/com/example/imagingedge_next/MainActivity.kt:395-404 | `onDestroy` keeps the invariant |
| ArbiterInvariant.StepKeepsInvariant | android/app/src/main/kotlin/com/example/imagingedge_next/MainActivity.kt:54-404 | every event keeps the invariant |
| ArbiterInvariant.RunKeepsInvariant | android/app/src/main/kotlin/com/example/imagingedge_next/MainActivity.kt:54-404 | every sequence of events keeps the invariant |
| ArbiterInvariant.EachResultAnsweredAtMostOnce | android/app/src/main/kotlin/com/example/imagingedge_next/MainActivity.kt:332-354 | from a fresh activity, whatever happens, no result receives two replies and no gate is won twice |
| ArbiterInvariant.SuggestionKeepsCallbacks | android/app/src/main/kotlin/com/example/imagingedge_next/MainActivity.kt:243-289 | the suggestion strategy registers no network callback |
| ArbiterInvariant.SpecifierCallbacksAllowFallback | android/app/src/main/kotlin/com/example/imagingedge_next/MainActivity.kt:145-228 | the specifier strategy run with fallback allowed only adds callbacks that allow it |
| ArbiterInvariant.ConnectCallKeepsCallbacksAllowFallback | android/app/src/main/kotlin/com/example/imagingedge_next/MainActivity.kt:88-90 | the connect call makes only callbacks that allow fallback |
| ArbiterInvariant.StepKeepsCallbacksAllowFallback | android/app/src/main/kotlin/com/example/imagingedge_next/MainActivity.kt:89 | no event makes a callback without fallback |
| ArbiterInvariant.OnAvailableKeepsCallbacks | android/app/src/main/kotlin/com/example/imagingedge_next/MainActivity.kt:174-180 | proof step: `onAvailable` leaves the platform's callbacks unchanged |
| ArbiterInvariant.OnUnavailableKeepsCallbacks | android/app/src/main/kotlin/com/example/imagingedge_next/MainActivity.kt:182-194 | proof step: `onUnavailable` leaves the platform's callbacks unchanged |
| ArbiterInvariant.OnLostKeepsCallbacks | android/app/src/main/kotlin/com/example/imagingedge_next/MainActivity.kt:196-214 | proof step: `onLost` leaves the platform's callbacks unchanged |
| ArbiterInvariant.OnSpecifierTimeoutKeepsCallbacks | android/app/src/main/kotlin/com/example/imagingedge_next/MainActivity.kt:230-239 | proof step: the specifier timer, including its fallback leaves the platform's callbacks unchanged |
| ArbiterInvariant.OnSuggestionBroadcastKeepsCallbacks | android/app/src/main/kotlin/com/example/imagingedge_next/MainActivity.kt:297-307 | proof step: the receiver's `onReceive` leaves the platform's callbacks unchanged |
| ArbiterInvariant.OnSuggestionTimeoutKeepsCallbacks | android/app/src/main/kotlin/com/example/imagingedge_next/MainActivity.kt:282-288 | proof step: the suggestion timer leaves the platform's callbacks unchanged |
| ArbiterInvariant.OnDestroyKeepsCallbacks | android/app/src/main/kotlin/com/example/imagingedge_next/MainActivity.kt:395-404 | proof step: `onDestroy` leaves the platform's callbacks unchanged |
| ArbiterInvariant.RunKeepsCallbacksAllowFallback | android/app/src/main/kotlin/com/example/imagingedge_next/MainActivity.kt:89 | no sequence of events makes one |
| ArbiterProperties.CancelPendingAnswersOnce | android/app/src/main/kotlin/com/example/imagingedge_next/MainActivity.kt:346-354 | with nothing pending nothing changes; otherwise exactly one reply, to the pending result, and neither a result nor a suggestion gate is left pending |
| ArbiterProperties.ResolveIgnoresStaleCallback | android/app/src/main/kotlin/com/example/imagingedge_next/MainActivity.kt:332-344 | a source callback other than the pending one changes nothing; otherwise it is `cancelPendingResult`; at most one reply, to the pending result |
| ArbiterProperties.ConnectSupersedesPendingRequest | android/app/src/main/kotlin/com/example/imagingedge_next/MainActivity.kt:82-94 | the previous pending result is answered false first. Afterwards the new result is pending with nothing more posted, or it has been answered by the one reply that follows |
| ArbiterProperties.SupersedesPendingFromSteps | android/app/src/main/kotlin/com/example/imagingedge_next/MainActivity.kt:82-83 | the reply log after cancelling and then answering the new result at most once has that shape |
| ArbiterProperties.SpecifierAnswersPendingAtMostOnce | android/app/src/main/kotlin/com/example/imagingedge_next/MainActivity.kt:145-240 | `connectUsingSpecifier` answers at most once, and only the pending result |
| ArbiterProperties.ConnectUsingSuggestionAnswersPendingAtMostOnce | android/app/src/main/kotlin/com/example/imagingedge_next/MainActivity.kt:243-289 | `connectUsingSuggestion` answers at most once, and only the pending result |
| ArbiterProperties.OtherEventsAnswerOnlyThePendingResult | android/app/src/main/kotlin/com/example/imagingedge_next/MainActivity.kt:83 | no event other than a connect call makes a result pending; each posts at most one reply, to the result that was pending |
| ArbiterProperties.BlankSsidIsRejected | android/app/src/main/kotlin/com/example/imagingedge_next/MainActivity.kt:57-63 | a missing or blank name gets the argument error on its own result, and nothing else changes |
| ArbiterProperties.UsableSsidStartsRequest | android/app/src/main/kotlin/com/example/imagingedge_next/MainActivity.kt:57-64 | a usable name starts `connectToWifi` with the password defaulting to empty and the hidden flag to false |
| ArbiterProperties.ClosedGateSilencesSpecifierEvents | android/app/src/main/kotlin/com/example/imagingedge_next/MainActivity.kt:174-239 | once the gate is closed, `onAvailable` and `onUnavailable` change nothing, the timer only leaves the posted queue, and `onLost` only unbinds |
| ArbiterProperties.OpenGateIsWonByTheFirstSpecifierEvent | android/app/src/main/kotlin/com/example/imagingedge_next/MainActivity.kt:171-239 | while the gate is open, whichever of the four events comes first closes it and records its one win |
| ArbiterProperties.ConnectUsingSuggestionPreservesGate | android/app/src/main/kotlin/com/example/imagingedge_next/MainActivity.kt:279-280 | a suggestion attempt leaves existing gates and the record of wins untouched |
| ArbiterProperties.AvailableBindsThenAnswersTrue | android/app/src/main/kotlin/com/example/imagingedge_next/MainActivity.kt:174-180 | the winning `onAvailable` binds the process to the network, and answers true only if its callback is the pending one |
| ArbiterProperties.LostUnbindsWhateverTheGate | android/app/src/main/kotlin/com/example/imagingedge_next/MainActivity.kt:196-204 | `onLost` unbinds regardless of the gate: always before Android 6, from then on only when the lost network is the bound one |
| ArbiterProperties.FailureWithoutFallbackIsNeverPosted | android/app/src/main/kotlin/com/example/imagingedge_next/MainActivity.kt:182-239 | without fallback, the failure from `onUnavailable`, the timer and a refused request is never posted, because the teardown has already cleared the pending callback |
| ArbiterProperties.LostWithoutFallbackAnswersFalse | android/app/src/main/kotlin/com/example/imagingedge_next/MainActivity.kt:205-213 | without fallback, `onLost` does answer false when its callback is pending, since it does not tear down first |
| ArbiterProperties.ReachableCallbacksAllowFallback | android/app/src/main/kotlin/com/example/imagingedge_next/MainActivity.kt:89 | in every reachable state all callbacks allow fallback, so the branches without it are never taken |
| ArbiterProperties.ClearSuggestionsEmptiesOnce | android/app/src/main/kotlin/com/example/imagingedge_next/MainActivity.kt:319-330 | the list ends empty with target and gate cleared, and a second call changes nothing |
| ArbiterProperties.DisconnectWifiIsIdempotent | android/app/src/main/kotlin/com/example/imagingedge_next/MainActivity.kt:67-71 | `disconnectWifi` leaves no suggestion, pending callback or binding, posts nothing, and a second call changes nothing |
| ArbiterProperties.PublishLeavesOneSuggestion | android/app/src/main/kotlin/com/example/imagingedge_next/MainActivity.kt:259-267 | exactly the new suggestion is left in the list; a failed publish answers false and keeps it, without target or gate |
| ArbiterProperties.SuccessfulPublishArmsFreshGate | android/app/src/main/kotlin/com/example/imagingedge_next/MainActivity.kt:269-288 | a successful publish records the target and a fresh open gate, posts the timer for both, registers the receiver only if absent, and posts nothing |
| ArbiterProperties.ReceiverRegisteredAtMostOnce | android/app/src/main/kotlin/com/example/imagingedge_next/MainActivity.kt:291-317 | the receiver is registered only when absent, and a second call changes nothing |
| ArbiterProperties.BroadcastWithoutTargetOrGateDoesNothing | android/app/src/main/kotlin/com/example/imagingedge_next/MainActivity.kt:298-299 | a broadcast without a recorded target or gate changes nothing |
| ArbiterProperties.BroadcastAnswersWithProbeVerdict | android/app/src/main/kotlin/com/example/imagingedge_next/MainActivity.kt:297-307 | the winning broadcast clears the list and answers true exactly when a current name exists whose normal form equals the target's |
| ArbiterProperties.SuggestionTimerAnswersWithProbeVerdict | android/app/src/main/kotlin/com/example/imagingedge_next/MainActivity.kt:282-288 | the winning timer does the same for the target it captured |
| ArbiterProperties.ReportedTargetIsConnected | android/app/src/main/kotlin/com/example/imagingedge_next/MainActivity.kt:284 | any quotation-mark-free target, reported by the platform in quotation marks, gives the verdict true |
| ArbiterProperties.NoCurrentNameIsNotConnected | android/app/src/main/kotlin/com/example/imagingedge_next/MainActivity.kt:284 | with no current name the verdict is false |
| ArbiterProperties.DestroyLeavesNothingBehind | android/app/src/main/kotlin/com/example/imagingedge_next/MainActivity.kt:395-404 | `onDestroy` leaves nothing pending, bound or suggested, unregisters the receiver and answers the pending result false |
| ArbiterScenarios.NetworkFoundAtOnce | android/app/src/main/kotlin/com/example/imagingedge_next/MainActivity.kt:174-180 | "HomeNet" found at once on Android 10: the answer is true and the process is bound |
| ArbiterScenarios.UnavailableThenFailedPublish | android/app/src/main/kotlin/com/example/imagingedge_next/MainActivity.kt:182-267 | unavailable, then a failed publish: the answer is false and the suggestion stays in the list |
| ArbiterScenarios.SuggestionTimesOut | android/app/src/main/kotlin/com/example/imagingedge_next/MainActivity.kt:230-288 | nothing answers before either timer: the answer is false and the list is empty |
| ArbiterScenarios.StaleSuggestionTimerAnswersNewerRequest | android/app/src/main/kotlin/com/example/imagingedge_next/MainActivity.kt:282-288 | the first request's suggestion timer answers the second request, with true for the first target |
| ArbiterScenarios.UnregisteredCallbackLeavesRequestUnanswered | android/app/src/main/kotlin/com/example/imagingedge_next/MainActivity.kt:356-363 | connect, `disconnectWifi`, the unregistered callback reports the network, its timer fires: result 0 stays pending and nothing posted or open is left to answer it |
| ArbiterScenarios.FirstCameraArmsTimer | android/app/src/main/kotlin/com/example/imagingedge_next/MainActivity.kt:217-288 | a refused request falls back at once and arms suggestion gate 3 for "CamA" |
| ArbiterScenarios.SecondCameraSupersedes | android/app/src/main/kotlin/com/example/imagingedge_next/MainActivity.kt:76-94 | the second request answers the first false and leaves gate 3 and its timer in place |
| ArbiterScenarios.StaleTimerFires | android/app/src/main/kotlin/com/example/imagingedge_next/MainActivity.kt:282-288 | gate 3's timer answers the newer pending result |
| ArbiterScenarios.LetterNameIsNotBlank | android/app/src/main/kotlin/com/example/imagingedge_next/MainActivity.kt:57-63 | proof step: a name beginning with a capital letter is not blank |
| ArbiterScenarios.RunTwo | android/app/src/main/kotlin/com/example/imagingedge_next/MainActivity.kt:54-404 | proof step: running two events is stepping twice |
| ArbiterScenarios.RunThree | android/app/src/main/kotlin/com/example/imagingedge_next/MainActivity.kt:54-404 | proof step: running three events is stepping three times |
| ArbiterScenarios.RunFour | android/app/src/main/kotlin/com/example/imagingedge_next/MainActivity.kt:54-404 | proof step: running four events is stepping four times |
| ArbiterScenarios.DisconnectForgetsCallback | android/app/src/main/kotlin/com/example/imagingedge_next/MainActivity.kt:356-363 | proof step: `disconnectWifi` forgets the pending callback and keeps the result, callbacks, gates and timers |
| ArbiterScenarios.StaleAvailableIsIgnored | android/app/src/main/kotlin/com/example/imagingedge_next/MainActivity.kt:174-180 | proof step: a callback that is not the pending one closes its gate with `onAvailable` and answers nothing |
| ArbiterScenarios.ClosedGateTimerOnlyLeaves | android/app/src/main/kotlin/com/example/imagingedge_next/MainActivity.kt:230-239 | proof step: a specifier timer whose gate is closed only removes itself |
| ArbiterScenarios.FirstRequestWaits | android/app/src/main/kotlin/com/example/imagingedge_next/MainActivity.kt:76-94 | proof step: a first accepted request on Android 10 leaves result 0 pending on callback 2 with gate 1 open and its timer posted |
| ArbiterScenarios.AvailableStep | android/app/src/main/kotlin/com/example/imagingedge_next/MainActivity.kt:174-180 | proof step: a network-available event for a known callback runs `onAvailable` |
| ArbiterScenarios.PendingCallbackWins | android/app/src/main/kotlin/com/example/imagingedge_next/MainActivity.kt:174-180 | proof step: the pending callback winning with `onAvailable` answers true, binds the network and clears the pending result |
| ArbiterScenarios.UnavailablePostsFallback | android/app/src/main/kotlin/com/example/imagingedge_next/MainActivity.kt:182-194 | proof step: `onUnavailable` winning the gate posts the fallback and answers nothing yet |
| ArbiterScenarios.FailedPublishAnswersFalse | android/app/src/main/kotlin/com/example/imagingedge_next/MainActivity.kt:243-267 | proof step: the posted fallback with a failed publish answers false and keeps the one suggestion |
| ArbiterScenarios.SpecifierTimerFallsBack | android/app/src/main/kotlin/com/example/imagingedge_next/MainActivity.kt:230-288 | proof step: the specifier timer wins gate 1, and the successful publish arms suggestion gate 3 for the target |
| ArbiterScenarios.NoConnectionAnswersFalse | android/app/src/main/kotlin/com/example/imagingedge_next/MainActivity.kt:282-288 | proof step: with no connection the suggestion timer answers false and empties the list |
| ArbiterScenarios.TimerStep | android/app/src/main/kotlin/com/example/imagingedge_next/MainActivity.kt:282-288 | proof step: a suggestion-timer event for a posted timer runs the timer |
| ArbiterScenarios.DeviceOnCamA | android/app/src/main/kotlin/com/example/imagingedge_next/MainActivity.kt:366-373 | proof step: the platform reporting `"CamA"` in quotation marks gives the verdict true for `CamA` |
| WifiActivity.MainActivity.constructor | android/app/src/main/kotlin/com/example/imagingedge_next/MainActivity.kt:37-42 | a fresh activity is the initial state and satisfies the invariant |
| WifiActivity.MainActivity.CompareAndSet | android/app/src/main/kotlin/com/example/imagingedge_next/MainActivity.kt:175 | `compareAndSet(false, true)` wins exactly when the gate is open, and then closes it |
| WifiActivity.MainActivity.BindProcessToNetwork | android/app/src/main/kotlin/com/example/imagingedge_next/MainActivity.kt:375-383 | the new state is `Bind` of the old: only the bound network changes |
| WifiActivity.MainActivity.DisconnectFromRequestedNetwork | android/app/src/main/kotlin/com/example/imagingedge_next/MainActivity.kt:356-363 | the new state is `Disconnect` of the old: the pending callback and the binding are cleared |
| WifiActivity.MainActivity.ClearNetworkSuggestions | android/app/src/main/kotlin/com/example/imagingedge_next/MainActivity.kt:319-330 | the new state is `ClearSuggestions` of the old: list, target and gate cleared (`ClearSuggestionsEmptiesOnce`) |
| WifiActivity.MainActivity.CancelPendingResult | android/app/src/main/kotlin/com/example/imagingedge_next/MainActivity.kt:346-354 | the new state is `CancelPending` of the old: at most one reply, to the pending result (`CancelPendingAnswersOnce`) |
| WifiActivity.MainActivity.ResolveResult | android/app/src/main/kotlin/com/example/imagingedge_next/MainActivity.kt:332-344 | the new state is `Resolve` of the old: a stale source callback is ignored (`ResolveIgnoresStaleCallback`) |
| WifiActivity.MainActivity.EnsureSuggestionReceiverRegistered | android/app/src/main/kotlin/com/example/imagingedge_next/MainActivity.kt:291-317 | the new state is `EnsureReceiverRegistered` of the old: registers only when none is registered (`ReceiverRegisteredAtMostOnce`) |
| WifiActivity.MainActivity.ConnectUsingSuggestion | android/app/src/main/kotlin/com/example/imagingedge_next/MainActivity.kt:243-289 | the new state is `ConnectUsingSuggestion` of the old |
| WifiActivity.MainActivity.PublishSuggestion | android/app/src/main/kotlin/com/example/imagingedge_next/MainActivity.kt:249-263 | the new state is `PublishSuggestion` of the old: the list cleared and refilled with the one new suggestion |
| WifiActivity.MainActivity.ArmSuggestion | android/app/src/main/kotlin/com/example/imagingedge_next/MainActivity.kt:269-288 | the new state is `ArmSuggestion` of the old: receiver registered, target and fresh gate recorded, timer posted |
| WifiActivity.MainActivity.ConnectUsingSpecifier | android/app/src/main/kotlin/com/example/imagingedge_next/MainActivity.kt:145-240 | the new state is `ConnectUsingSpecifier` of the old |
| WifiActivity.MainActivity.NewSpecifierAttempt | android/app/src/main/kotlin/com/example/imagingedge_next/MainActivity.kt:171-217 | returns the two next identities, a fresh gate and a fresh callback; the new state is `NewSpecifierAttempt` of the old, with the callback pending |
| WifiActivity.MainActivity.ConnectToWifi | android/app/src/main/kotlin/com/example/imagingedge_next/MainActivity.kt:76-94 | the new state is `ConnectToWifi` of the old, the result identity is fresh, and the invariant is kept |
| WifiActivity.MainActivity.BeginRequest | android/app/src/main/kotlin/com/example/imagingedge_next/MainActivity.kt:82-86 | returns the next identity; the new state is `BeginRequest` of the old: the previous result answered false, the new one pending, the earlier attempt torn down |
| WifiActivity.MainActivity.HandleConnectCall | android/app/src/main/kotlin/com/example/imagingedge_next/MainActivity.kt:56-65 | the argument check, then `connectToWifi`; the invariant is kept |
| WifiActivity.MainActivity.DisconnectWifi | android/app/src/main/kotlin/com/example/imagingedge_next/MainActivity.kt:67-71 | the teardown of the `disconnectWifi` call; the invariant is kept |
| WifiActivity.MainActivity.OnAvailable | android/app/src/main/kotlin/com/example/imagingedge_next/MainActivity.kt:174-180 | the new state is `OnAvailable` of the old; the invariant is kept |
| WifiActivity.MainActivity.OnUnavailable | android/app/src/main/kotlin/com/example/imagingedge_next/MainActivity.kt:182-194 | the new state is `OnUnavailable` of the old; the invariant is kept |
| WifiActivity.MainActivity.OnLost | android/app/src/main/kotlin/com/example/imagingedge_next/MainActivity.kt:196-214 | the new state is `OnLost` of the old; the invariant is kept |
| WifiActivity.MainActivity.OnSpecifierTimeout | android/app/src/main/kotlin/com/example/imagingedge_next/MainActivity.kt:230-239 | the new state is `OnSpecifierTimeout` of the old; the invariant is kept |
| WifiActivity.MainActivity.RunPostedFallback | android/app/src/main/kotlin/com/example/imagingedge_next/MainActivity.kt:188-190 | the oldest posted fallback runs `connectUsingSuggestion`; the invariant is kept |
| WifiActivity.MainActivity.OnSuggestionBroadcast | android/app/src/main/kotlin/com/example/imagingedge_next/MainActivity.kt:297-307 | the new state is `OnSuggestionBroadcast` of the old; the invariant is kept |
| WifiActivity.MainActivity.OnSuggestionTimeout | android/app/src/main/kotlin/com/example/imagingedge_next/MainActivity.kt:282-288 | the new state is `OnSuggestionTimeout` of the old; the invariant is kept |
| WifiActivity.MainActivity.OnDestroy | android/app/src/main/kotlin/com/example/imagingedge_next/MainActivity.kt:395-404 | the new state is `OnDestroy` of the old; the invariant is kept |

## Left out

- Flutter engine and method-channel wiring (lines 44-52, 72) is plumbing. Reply encoding is left out too. The `getCurrentSsid` call's reply and the `disconnectWifi` acknowledgement are not logged; only the replies to connect requests are.
- The Android services are foreign calls. Their answers are event parameters; their internal state is not modelled.
  - The builders of the network request, specifier and suggestion are not modelled. `BuildSuggestion` keeps only the name, the hidden flag and the passphrase.
  - `bindProcessToNetwork` and `setProcessDefaultNetwork` both become one field.
- `wifiManager` and `connectivityManager` are assumed set, as `configureFlutterEngine` sets them before any call arrives. So the `?: return` / `resolveResult(false)` branches for null managers are left out.
- The platform's callback registration table is over-approximated. A callback accepted once may fire any time later, even after `unregisterNetworkCallback`. The at-most-once properties hold for this larger set of behaviours.
- The Settings Wi-Fi panel intent and the receiver-registration API variants (lines 272-277, 310-315) are UI and platform detail.
- Threads, real timer durations (15 s and 30 s), and `AtomicBoolean` atomicity are concurrency. Each callback, timer or posted task is one event, run one at a time. Each gate is a plain boolean.
- The `runCatching` clean-up calls are treated as succeeding. The suggestions the platform holds are not modelled apart from the activity's own list.
- Case-insensitive comparison with `<unknown ssid>` folds ASCII letters and the four other characters that fold onto ASCII letters (U+0130, U+0131, U+017F, U+212A). Other case mappings do not matter for an ASCII placeholder.
- `EachResultAnsweredAtMostOnce`: states at most one answer per result, not exactly one. The over-approximated callbacks admit runs in which a result is never answered (`UnregisteredCallbackLeavesRequestUnanswered`), so exactly-once does not hold of the model. Separately, a reply may carry the verdict for an older request's target, because nothing cancels timers.
- `ConnectUsingSpecifier`: the argument `allowFallback` is a parameter of the method and function, but the only caller passes true. The other branches are modelled and proved but never reached (`ReachableCallbacksAllowFallback`).
- `ConnectUsingSpecifier`, `ConnectUsingSuggestion`: the builders (MainActivity.kt:156-169 and 251-259) are assumed to accept every name and passphrase. Android documents `setSsid` and `setWpa2Passphrase` as throwing `IllegalArgumentException` for values they reject, such as a passphrase that is not ASCII. The source does not catch that exception. The exception would leave the method while the result stored at MainActivity.kt:83 is still pending in the activity. That path is not modelled.
