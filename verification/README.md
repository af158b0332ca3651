# Zwift controller plugin: latch machine and dispatch, in Dafny

This project models the core of a macOS plugin. The plugin turns an Xbox gamepad into key presses for the Zwift application. It has four parts, one module each, plus a small `Options` module (`options.dfy`) for the optional values they share.

- `Buttons` (`buttons.dfy`) holds `XboxButton`: its nine cases, `allCases` in declaration order, and `hasAnalogInput`. That predicate holds for the four directions only.
- `Presses` (`presses.dfy`) holds `XboxButtonPress`, an immutable button plus pressed state. The datatype constructor is the memberwise `init`. It also holds `mappedKey`, a bijection from buttons to keys that ignores the pressed state, and `description`. `description` is proved injective through a parser that reads it back.
- `Publisher` (`publisher.dfy`) holds the gamepad subscription, as a class with fields. Its digital-button handlers forward each state change unchanged. Its left-thumbstick handler runs the latch machine, `handleThumbstickInput`:
  - four latches are compared with the four direction predicates of each sample;
  - an event is sent for every predicate that differs from its latch;
  - each such latch is then updated.

  The method is proved against `ThumbstickEvents` and `SampleLatches`, which specify it; lemmas state what those promise.
- `Listener` (`listener.dfy`) holds `ControllerListener`:
  - `start` is guarded on the stored cancellables and `stop` clears them;
  - on each connect or disconnect notification, a subscription is made for the current Xbox gamepad and replaces the previous one (`switchToLatest`);
  - the pipeline filters out releases, and `handleButtonPress` sends the mapped key of every press to `ZwiftAppSilicon`.

Two behaviours of the latch machine are modelled as written, and lemmas show their consequences.

- **All four latches start set.** So the first centred sample of a new subscription sends a left release and a right release. A first push to the left sends no left press (`FirstCentredSample`, `FirstLeftPushSuppressed`, `XAxisScenario`).
- **Up is `y < 0.5` and down is `y > -0.5`.** These are not the mirror image of left (`x < -0.5`) and right (`x > 0.5`). So "up" counts as pressed whenever the stick is not pushed past the threshold towards positive y, and "down" likewise in the other direction. Pushing towards positive y sends an up release. Coming back sends the up press, which is when the up-arrow key goes out (`UpPressOnReturn`, `UpKeySentOnReturn`).

Inputs from outside are parameters:
- a thumbstick sample;
- a button's new state;
- the current controller reported with a notification.

The key-sending library is a log of attempted sends, each a (key, target) pair. A send's outcome is discarded by the plugin (`try?`), so nothing in the model depends on it.

## Model

| member | source | states |
|---|---|---|
| Buttons.XboxButton.HasAnalogInput | ZwiftControllerPlugin/XboxButton.swift:21-26 | `hasAnalogInput`; its properties are stated by `AnalogCases`: true exactly for left, up, right and down |
| Buttons.CaseIndex | ZwiftControllerPlugin/XboxButton.swift:10-19 | every button occurs in `allCases` |
| Buttons.AllCasesDistinct | ZwiftControllerPlugin/XboxButton.swift:10-19 | `allCases` has exactly nine entries and no case twice |
| Buttons.AnalogCases | ZwiftControllerPlugin/XboxButton.swift:21-26 | exactly four cases are analog: positions 3 to 6 of `allCases` (left, up, right, down); a, b, y and both bumpers are not |
| Presses.XboxButtonPress.MappedKey | ZwiftControllerPlugin/XboxButtonPress.swift:18-30 | the key determines the button back (`ButtonForKey` inverts the table) |
| Presses.MappedKeyBijective | ZwiftControllerPlugin/XboxButtonPress.swift:18-30 | two events get the same key iff they are for the same button, whatever `isPressed`; every key is some button's key |
| Presses.Label | ZwiftControllerPlugin/XboxButtonPress.swift:33-41 | the label part of each description; `LabelRoundTrip` states that no two buttons share a label |
| Presses.XboxButtonPress.Description | ZwiftControllerPlugin/XboxButtonPress.swift:31-43 | "<label> - Pressed" or "<label> - Unpressed"; `DescriptionRoundTrip` and `DescriptionInjective` state that it reads back to the event and that distinct events never share one |
| Presses.ButtonForLabel | ZwiftControllerPlugin/XboxButtonPress.swift:31-43 | a label read back names a button whose label it is |
| Presses.LabelRoundTrip | ZwiftControllerPlugin/XboxButtonPress.swift:31-43 | every button's label reads back as that button |
| Presses.ParseDescription | ZwiftControllerPlugin/XboxButtonPress.swift:31-43 | whatever a string parses to has that string as its description |
| Presses.SuffixesDisjoint | ZwiftControllerPlugin/XboxButtonPress.swift:31-43 | a released event's description never ends in " - Pressed" |
| Presses.DescriptionRoundTrip | ZwiftControllerPlugin/XboxButtonPress.swift:31-43 | every description parses back to the event it describes |
| Presses.DescriptionInjective | ZwiftControllerPlugin/XboxButtonPress.swift:32-42 | two events have the same description iff they are equal |
| Publisher.SampleLatches | ZwiftControllerPlugin/XboxGamepadButtonPressPublisher.swift:115-148 | the four direction predicates of a sample never set left and right together and always set up or down; inside the dead zone on x neither left nor right is set; inside it on y both up and down are |
| Publisher.Edge | ZwiftControllerPlugin/XboxGamepadButtonPressPublisher.swift:116-123 | one direction's step sends at most one event, one exactly when the new state differs from the latch, and that event carries the new state |
| Publisher.ThumbstickEvents | ZwiftControllerPlugin/XboxGamepadButtonPressPublisher.swift:111-157 | the events of one sample, specifying `HandleThumbstickInput`; `ThumbstickEventsBound`, `ThumbstickEventsOrdered` and `ThumbstickEventPerDirection` state that they are exactly the changed directions, in the order left, right, up, down, each carrying its new predicate |
| Publisher.ThumbstickEventsBound | ZwiftControllerPlugin/XboxGamepadButtonPressPublisher.swift:114-156 | one sample sends at most four events, all for directions |
| Publisher.ThumbstickEventsOrdered | ZwiftControllerPlugin/XboxGamepadButtonPressPublisher.swift:114-156 | the events of one sample are in the order left, right, up, down, so at most one per direction |
| Publisher.ThumbstickEventPerDirection | ZwiftControllerPlugin/XboxGamepadButtonPressPublisher.swift:116-155 | an event for a direction is sent iff its new predicate differs from its latch, and it carries the new predicate, never the old |
| Publisher.SameSampleIdempotent | ZwiftControllerPlugin/XboxGamepadButtonPressPublisher.swift:116-149 | the same sample a second time sends nothing |
| Publisher.FirstCentredSample | ZwiftControllerPlugin/XboxGamepadButtonPressPublisher.swift:48-157 | from the initial all-set latches, sample (0, 0) sends exactly [left released, right released] |
| Publisher.FirstLeftPushSuppressed | ZwiftControllerPlugin/XboxGamepadButtonPressPublisher.swift:48-134 | from the initial latches, a push straight to the left (y in the dead zone) sends only a right release and no left press |
| Publisher.UpPressOnReturn | ZwiftControllerPlugin/XboxGamepadButtonPressPublisher.swift:137-145 | leaving the centre towards positive y sends an up release; coming back sends the up press |
| Publisher.RunEvents | ZwiftControllerPlugin/XboxGamepadButtonPressPublisher.swift:111-157 | a run of n samples sends at most 4n events |
| Publisher.RunEndsAtLastSample | ZwiftControllerPlugin/XboxGamepadButtonPressPublisher.swift:115-155 | after at least one sample the latches are the last sample's predicates alone: never left and right together, never neither up nor down |
| Publisher.XAxisScenario | ZwiftControllerPlugin/XboxGamepadButtonPressPublisher.swift:111-157 | the x-axis run 0, -0.8, -0.8, 0, 0.8 from a new subscription sends left and right releases, a left press, a left release, a right press |
| Publisher.XboxGamepadButtonPressSubscription.constructor | ZwiftControllerPlugin/XboxGamepadButtonPressPublisher.swift:48-58 | a new subscription has all four latches set, has sent nothing and has no handler installed |
| Publisher.XboxGamepadButtonPressSubscription.Request | ZwiftControllerPlugin/XboxGamepadButtonPressPublisher.swift:64-66 | afterwards every button forwards its own events and the thumbstick is handled; latches and sent events unchanged |
| Publisher.XboxGamepadButtonPressSubscription.Cancel | ZwiftControllerPlugin/XboxGamepadButtonPressPublisher.swift:68-70 | afterwards no handler is installed; latches and sent events unchanged |
| Publisher.XboxGamepadButtonPressSubscription.ApplyButtonValueChangesHandler | ZwiftControllerPlugin/XboxGamepadButtonPressPublisher.swift:76-89 | sets or clears exactly the one button's slot, nothing else |
| Publisher.XboxGamepadButtonPressSubscription.SetupHandlers | ZwiftControllerPlugin/XboxGamepadButtonPressPublisher.swift:95-104 | after the loop over `allCases` every button has its forwarding handler and the thumbstick has one |
| Publisher.XboxGamepadButtonPressSubscription.DestroyHandlers | ZwiftControllerPlugin/XboxGamepadButtonPressPublisher.swift:106-109 | after the loop over `allCases` no button and not the thumbstick has a handler |
| Publisher.XboxGamepadButtonPressSubscription.ButtonValueChanged | ZwiftControllerPlugin/XboxGamepadButtonPressPublisher.swift:91-93 | an installed handler forwards the event with the state unchanged; no latch and no handler changes |
| Publisher.XboxGamepadButtonPressSubscription.ThumbstickValueChanged | ZwiftControllerPlugin/XboxGamepadButtonPressPublisher.swift:101-103 | with the handler installed the sample goes through the latch machine; without it nothing happens |
| Publisher.XboxGamepadButtonPressSubscription.HandleThumbstickInput | ZwiftControllerPlugin/XboxGamepadButtonPressPublisher.swift:111-157 | appends exactly `ThumbstickEvents` of the old latches and the sample, and leaves the latches equal to that sample's predicates |
| Publisher.XboxGamepadButtonPressSubscription.CheckDirection | ZwiftControllerPlugin/XboxGamepadButtonPressPublisher.swift:115-123 | one direction: sends the new state iff it differs from the latch; the latch then holds the new state |
| Publisher.XboxGamepadButtonPressSubscription.SendPress | ZwiftControllerPlugin/XboxGamepadButtonPressPublisher.swift:159-161 | the event is appended to what the subscriber received |
| Listener.HandleButtonPress | ZwiftControllerPlugin/ControllerListener.swift:73-77 | a send happens iff the event is a press, and it sends the button's key to "ZwiftAppSilicon" |
| Listener.PressedOnly | ZwiftControllerPlugin/ControllerListener.swift:67 | an event is in the result iff it is a press of the input; the result is no longer than the input |
| Listener.PressedOnlyCounts | ZwiftControllerPlugin/ControllerListener.swift:67 | every press is kept as many times as it occurs and no release is kept: no de-duplication |
| Listener.PressedOnlyAppend | ZwiftControllerPlugin/ControllerListener.swift:67 | the filter works event by event: filtering a concatenation is concatenating the filtered parts, so order is kept |
| Listener.Dispatch | ZwiftControllerPlugin/ControllerListener.swift:69-77 | the sink makes at most one send per event; `DispatchPresses` and `DispatchAppend` state that each press sends its key in order, and `DispatchReleases` that releases send nothing |
| Listener.DispatchReleases | ZwiftControllerPlugin/ControllerListener.swift:73-74 | the guard in `handleButtonPress` alone makes a stream of releases send nothing, even without the filter |
| Listener.KeySendsFor | ZwiftControllerPlugin/ControllerListener.swift:67-69 | the filter followed by the sink; `KeySendsArePresses`, `KeySendsAppend` and `ReleasesSendNothing` state its sends |
| Listener.DispatchPresses | ZwiftControllerPlugin/ControllerListener.swift:69-76 | a stream of presses makes one send per press, in order, each the press's mapped key to "ZwiftAppSilicon" |
| Listener.FilterThenGuard | ZwiftControllerPlugin/ControllerListener.swift:67-74 | the guard in `handleButtonPress` and the filter remove the same events, so filtering first changes no send |
| Listener.DispatchAppend | ZwiftControllerPlugin/ControllerListener.swift:69-76 | the sink handles events one at a time: the sends for two stretches concatenate |
| Listener.KeySendsAppend | ZwiftControllerPlugin/ControllerListener.swift:67-76 | filter and sink together also handle the stream piecewise; a send's outcome never affects the next event |
| Listener.KeySendsArePresses | ZwiftControllerPlugin/ControllerListener.swift:67-76 | exactly one send per press, in order, each the press's mapped key to "ZwiftAppSilicon" |
| Listener.ReleasesSendNothing | ZwiftControllerPlugin/ControllerListener.swift:67-74 | a stream of releases causes no send |
| Listener.RepeatedPressesAllSent | ZwiftControllerPlugin/ControllerListener.swift:67-76 | A pressed twice then released sends Return twice: digital presses are not de-duplicated |
| Listener.UpKeySentOnReturn | ZwiftControllerPlugin/ControllerListener.swift:67-76 | on the thumbstick the up-arrow key goes out when the stick returns from positive y, not when it gets there |
| Listener.ControllerListener.constructor | ZwiftControllerPlugin/ControllerListener.swift:23 | a new listener stores no pipeline, has no subscription and has sent nothing |
| Listener.ControllerListener.Start | ZwiftControllerPlugin/ControllerListener.swift:38-41 | with a pipeline stored nothing changes; otherwise exactly one new pipeline is stored |
| Listener.ControllerListener.Stop | ZwiftControllerPlugin/ControllerListener.swift:43-45 | no pipeline is stored afterwards and the subscription is cancelled, its handlers removed, so a later start builds again |
| Listener.ControllerListener.SetupPublishers | ZwiftControllerPlugin/ControllerListener.swift:51-71 | stores one new pipeline; no subscription is made yet |
| Listener.ControllerListener.ControllerNotification | ZwiftControllerPlugin/ControllerListener.swift:55-66 | with a pipeline stored and an Xbox gamepad current, a fresh subscription with all latches set replaces the old one, which is cancelled; otherwise the subscription is left as it was |
| Listener.ControllerListener.ButtonValueChanged | ZwiftControllerPlugin/ControllerListener.swift:64-69 | only the latest subscription's gamepad is heard; the subscription's inbox gains exactly that event, and it is sent as a key iff it is a press; latches unchanged |
| Listener.ControllerListener.ThumbstickValueChanged | ZwiftControllerPlugin/ControllerListener.swift:64-69 | only the latest subscription's gamepad is heard; the subscription's inbox gains exactly its thumbstick events, the presses among them are sent, and its latches become the sample's predicates |

## Left out

- GameController objects are not modelled: `GCController`, `GCXboxGamepad`, the handler properties and `shouldMonitorBackgroundEvents`. A gamepad is a number. Its handler slots are a map and a flag held by the subscription that installs them.
- Combine mechanics are not modelled: the `Publisher` and `Subscription` protocols, `Merge`, `AnyCancellable` and scheduling. Only their observable effect is kept: the filter, the sink, and the latest subscription winning.
- `request` ignores its `Subscribers.Demand` argument, so `Request` takes none.
- `switchToLatest` cancels the previous subscription before the new one is requested. The model does the same and does not model Combine's internal ordering beyond that.
- NotificationCenter delivery is a method call, `ControllerNotification`, that takes the current controller as a parameter. `NSWorkspace` is unused by the code.
- `start` makes no subscription until the first connect or disconnect notification, as the code does. A controller already connected at `start` is not picked up until then.
- `KeySender` is not modelled: key injection is an operating-system call. Each attempted send is appended to `keySends`. Its success or failure is discarded by `try?` and affects nothing.
- `NSLog` output is not modelled: it is logging only.
- `[weak self]` and `[unowned self]` captures and callback threads are not modelled: they concern memory management and concurrency.
- Axis values are `real`, not `Float`. Only comparisons with 0.5 and -0.5 occur, and 0.5 is exact. A `Float` NaN is not modelled: for NaN all four comparisons are false, so up and down would both be clear. `SampleLatches`'s "up or down" guarantee and `RunEndsAtLastSample` rest on the game-controller framework reporting thumbstick axes as numbers in [-1, 1].
- `Key` has only the nine keys the plugin uses, not the key-sending library's whole key set.
- Publisher.XboxGamepadButtonPressSubscription.HandleThumbstickInput: the four identical direction blocks share one step, `CheckDirection`. It returns the new latch, which the caller assigns even when it is unchanged; this is the same state as the Swift code's conditional assignment.
