/** The controller listener (ZwiftControllerPlugin/ControllerListener.swift): it follows the
    current controller, subscribes to the latest Xbox gamepad's events, keeps the presses and
    sends each one's key to the Zwift application. */
module Listener {
  import opened Options
  import opened Buttons
  import opened Presses
  import opened Publisher

  /** `Constant.zwiftApplicationName`. */
  const ZwiftApplicationName: string := "ZwiftAppSilicon"

  /** One call into the key-sending library: the key, and the application it is sent to. */
  datatype KeySend = KeySend(key: Key, target: string)

  /** `handleButtonPress`: the send it makes for one event. A release is turned away by the
      guard; a press sends its button's key to the Zwift application. */
  function HandleButtonPress(press: XboxButtonPress): (r: Option<KeySend>)
    ensures r.Some? <==> press.isPressed
    ensures r.Some? ==> r.value.target == ZwiftApplicationName && ButtonForKey(r.value.key) == press.button
  {
    if !press.isPressed then None
    else Some(KeySend(press.MappedKey(), ZwiftApplicationName))
  }

  /** The `filter { $0.isPressed }` stage: the presses, in order, without the releases.
      Every press is kept as often as it occurs and no release is kept. */
  function PressedOnly(events: seq<XboxButtonPress>): (r: seq<XboxButtonPress>)
    ensures |r| <= |events|
    ensures forall e :: e in r <==> e in events && e.isPressed
  {
    if events == [] then []
    else (if events[0].isPressed then [events[0]] else []) + PressedOnly(events[1..])
  }

  /** The filter removes no duplicates: every press is kept as often as it occurs, and no
      release is kept. */
  lemma {:induction false} PressedOnlyCounts(events: seq<XboxButtonPress>, e: XboxButtonPress)
    ensures multiset(PressedOnly(events))[e] == if e.isPressed then multiset(events)[e] else 0
  {
    if events != [] {
      PressedOnlyCounts(events[1..], e);
      assert events == [events[0]] + events[1..];
    }
  }

  /** The filter works event by event, so it keeps the order of the presses: filtering two
      stretches of the stream one after the other is filtering the whole. */
  lemma {:induction false} PressedOnlyAppend(a: seq<XboxButtonPress>, b: seq<XboxButtonPress>)
    ensures PressedOnly(a + b) == PressedOnly(a) + PressedOnly(b)
  {
    if a == [] {
      assert a + b == b;
    } else {
      assert (a + b)[1..] == a[1..] + b;
      PressedOnlyAppend(a[1..], b);
    }
  }

  /** The sink: `handleButtonPress` on each event that reaches it, in order. The send's
      outcome is discarded (`try?`), so one event's send never affects the next. */
  function Dispatch(events: seq<XboxButtonPress>): (r: seq<KeySend>)
    ensures |r| <= |events|
  {
    if events == [] then []
    else
      (match HandleButtonPress(events[0])
       case Some(send) => [send]
       case None => [])
      + Dispatch(events[1..])
  }

  /** The stages after `switchToLatest`: the filter, then the sink. */
  function KeySendsFor(events: seq<XboxButtonPress>): seq<KeySend>
  {
    Dispatch(PressedOnly(events))
  }

  /** Each press that passes the filter makes exactly one send, in order: its button's key,
      to the Zwift application. */
  lemma {:induction false} DispatchPresses(presses: seq<XboxButtonPress>)
    requires forall i :: 0 <= i < |presses| ==> presses[i].isPressed
    ensures |Dispatch(presses)| == |presses|
    ensures forall i :: 0 <= i < |presses| ==>
      Dispatch(presses)[i] == KeySend(presses[i].MappedKey(), ZwiftApplicationName)
  {
    if presses != [] {
      DispatchPresses(presses[1..]);
    }
  }

  /** The guard in `handleButtonPress` turns away exactly what the filter already removed,
      so the filter changes nothing about what is sent. */
  lemma {:induction false} FilterThenGuard(events: seq<XboxButtonPress>)
    ensures KeySendsFor(events) == Dispatch(events)
  {
    if events != [] {
      FilterThenGuard(events[1..]);
      var rest := PressedOnly(events[1..]);
      if events[0].isPressed {
        var kept := [events[0]] + rest;
        assert PressedOnly(events) == kept;
        assert kept[0] == events[0] && kept[1..] == rest;
        assert Dispatch(kept) == [KeySend(events[0].MappedKey(), ZwiftApplicationName)] + Dispatch(rest);
      } else {
        assert PressedOnly(events) == rest;
      }
    }
  }

  /** The guard in `handleButtonPress` alone already turns every release away. */
  lemma DispatchReleases(events: seq<XboxButtonPress>)
    requires forall i :: 0 <= i < |events| ==> !events[i].isPressed
    ensures Dispatch(events) == []
  {
    FilterThenGuard(events);
    ReleasesSendNothing(events);
  }

  lemma {:induction false} DispatchAppend(a: seq<XboxButtonPress>, b: seq<XboxButtonPress>)
    ensures Dispatch(a + b) == Dispatch(a) + Dispatch(b)
  {
    if a == [] {
      assert a + b == b;
    } else {
      assert (a + b)[1..] == a[1..] + b;
      DispatchAppend(a[1..], b);
    }
  }

  /** Events are handled one at a time and independently: the sends for two stretches of
      the stream are the sends for the first followed by the sends for the second. */
  lemma KeySendsAppend(a: seq<XboxButtonPress>, b: seq<XboxButtonPress>)
    ensures KeySendsFor(a + b) == KeySendsFor(a) + KeySendsFor(b)
  {
    FilterThenGuard(a + b);
    FilterThenGuard(a);
    FilterThenGuard(b);
    DispatchAppend(a, b);
  }

  /** Exactly one send per press, in order, each the press's mapped key to the Zwift
      application; releases contribute nothing. */
  lemma KeySendsArePresses(events: seq<XboxButtonPress>)
    ensures |KeySendsFor(events)| == |PressedOnly(events)|
    ensures forall i :: 0 <= i < |PressedOnly(events)| ==>
      KeySendsFor(events)[i] == KeySend(PressedOnly(events)[i].MappedKey(), ZwiftApplicationName)
  {
    var presses := PressedOnly(events);
    forall i | 0 <= i < |presses|
      ensures presses[i].isPressed
    {
      assert presses[i] in presses;
    }
    DispatchPresses(presses);
  }

  /** A stream of releases never causes a send: the filter already leaves nothing. */
  lemma ReleasesSendNothing(events: seq<XboxButtonPress>)
    requires forall i :: 0 <= i < |events| ==> !events[i].isPressed
    ensures KeySendsFor(events) == []
  {
  }

  /** Digital buttons are passed through without de-duplication: two pressed reports for A
      in a row, then a release, send the Return key twice. */
  lemma RepeatedPressesAllSent()
    ensures KeySendsFor([XboxButtonPress(A, true), XboxButtonPress(A, true), XboxButtonPress(A, false)])
         == [KeySend(Return, ZwiftApplicationName), KeySend(Return, ZwiftApplicationName)]
  {
    var press, release := XboxButtonPress(A, true), XboxButtonPress(A, false);
    var events := [press, press, release];
    FilterThenGuard(events);
    assert events[1..] == [press, release] && events[1..][1..] == [release];
    assert Dispatch([release]) == [];
    assert Dispatch(events) == [KeySend(Return, ZwiftApplicationName)] + Dispatch([press, release]);
  }

  /** On the thumbstick, the up key is sent when the stick comes back from beyond the
      threshold towards positive y, not when it gets there. */
  lemma UpKeySentOnReturn(x: real, y: real)
    requires y > AnalogThreshold && -AnalogThreshold <= x <= AnalogThreshold
    ensures KeySendsFor(ThumbstickEvents(SampleLatches(0.0, 0.0), x, y)) == []
    ensures KeySendsFor(ThumbstickEvents(SampleLatches(x, y), 0.0, 0.0)) == [KeySend(UpArrow, ZwiftApplicationName)]
  {
    UpPressOnReturn(x, y);
    ReleasesSendNothing([XboxButtonPress(Up, false)]);
    DispatchPresses([XboxButtonPress(Up, true)]);
  }

  /** What the host reports as the current controller: which physical gamepad it is and
      whether its extended gamepad is an Xbox gamepad. */
  datatype Controller = Controller(gamepad: nat, isXboxGamepad: bool)

  /** One stored `AnyCancellable`: the pipeline built by the `setupPublishers` call with that
      number. */
  datatype Cancellable = Pipeline(id: nat)

  /** `ControllerListener`. */
  class ControllerListener {
    var cancellables: set<Cancellable>
    /** How many times `setupPublishers` has run. */
    var pipelinesBuilt: nat
    /** The inner subscription `switchToLatest` currently forwards, if any. */
    var session: XboxGamepadButtonPressSubscription?
    /** Every call made into the key-sending library, oldest first. */
    var keySends: seq<KeySend>

    /** At most one pipeline is stored, the latest built; a session exists only while the
        pipeline does, and its handlers are installed. */
    ghost predicate Valid()
      reads this, session
    {
      && (cancellables == {} || (pipelinesBuilt > 0 && cancellables == {Pipeline(pipelinesBuilt - 1)}))
      && (session != null ==> cancellables != {} && session.Wired())
    }

    constructor ()
      ensures Valid()
      ensures cancellables == {} && pipelinesBuilt == 0 && session == null && keySends == []
    {
      cancellables := {};
      pipelinesBuilt := 0;
      session := null;
      keySends := [];
    }

    /** `start`: builds the pipeline unless one is already stored. */
    method Start()
      requires Valid()
      modifies this
      ensures Valid()
      ensures old(cancellables) != {} ==> cancellables == old(cancellables) && pipelinesBuilt == old(pipelinesBuilt)
      ensures old(cancellables) == {} ==>
        cancellables == {Pipeline(old(pipelinesBuilt))} && pipelinesBuilt == old(pipelinesBuilt) + 1
      ensures session == old(session) && keySends == old(keySends)
    {
      if cancellables != {} {
        return;
      }
      SetupPublishers();
    }

    /** `stop`: drops the stored pipeline, which cancels the current subscription and
        removes its handlers. */
    method Stop()
      requires Valid()
      modifies this, session
      ensures Valid()
      ensures cancellables == {} && session == null
      ensures old(session) != null ==> old(session).Unwired() && old(session).received == old(session.received)
      ensures pipelinesBuilt == old(pipelinesBuilt) && keySends == old(keySends)
    {
      if session != null {
        session.Cancel();
      }
      cancellables := {};
      session := null;
    }

    /** `setupPublishers`: stores one new pipeline; no subscription exists until the first
        connect or disconnect notification. */
    method SetupPublishers()
      modifies this
      ensures cancellables == old(cancellables) + {Pipeline(old(pipelinesBuilt))}
      ensures pipelinesBuilt == old(pipelinesBuilt) + 1
      ensures session == old(session) && keySends == old(keySends)
    {
      cancellables := cancellables + {Pipeline(pipelinesBuilt)};
      pipelinesBuilt := pipelinesBuilt + 1;
    }

    /** A connect or disconnect notification, with the host's current controller at that
        moment. While the pipeline is stored and that controller has an Xbox extended
        gamepad, a new publisher is made for it and `switchToLatest` moves to it: the old
        subscription is cancelled and the new one starts with fresh latches. Otherwise the
        previous subscription stays as it is. */
    method ControllerNotification(current: Option<Controller>)
      requires Valid()
      modifies this, session
      ensures Valid()
      ensures cancellables == old(cancellables) && pipelinesBuilt == old(pipelinesBuilt) && keySends == old(keySends)
      ensures if old(cancellables) != {} && current.Some? && current.value.isXboxGamepad then
          && session != null && fresh(session)
          && session.gamepad == current.value.gamepad
          && session.Latches() == InitialLatches && session.received == []
          && (old(session) != null ==> old(session).Unwired())
        else
          session == old(session) && (session != null ==> unchanged(session))
    {
      if cancellables != {} && current.Some? && current.value.isXboxGamepad {
        if session != null {
          session.Cancel();
        }
        var next := new XboxGamepadButtonPressSubscription(current.value.gamepad);
        next.Request();
        session := next;
      }
    }

    /** A digital button of gamepad `gamepad` changing state. Only the current
        subscription's gamepad has handlers; the event is passed through unchanged, and
        sent as a key if it is a press. */
    method ButtonValueChanged(gamepad: nat, button: XboxButton, isPressed: bool)
      requires Valid()
      modifies this, session
      ensures Valid()
      ensures session == old(session) && cancellables == old(cancellables) && pipelinesBuilt == old(pipelinesBuilt)
      ensures keySends == old(keySends) +
        if old(session) != null && old(session).gamepad == gamepad
        then KeySendsFor([XboxButtonPress(button, isPressed)]) else []
      ensures session != null ==> session.Latches() == old(session.Latches())
      ensures session != null ==>
        session.received == old(session.received) +
          if session.gamepad == gamepad then [XboxButtonPress(button, isPressed)] else []
    {
      if session != null && session.gamepad == gamepad {
        var before := |session.received|;
        session.ButtonValueChanged(button, isPressed);
        assert session.received[before..] == [XboxButtonPress(button, isPressed)];
        keySends := keySends + KeySendsFor(session.received[before..]);
      }
    }

    /** The left thumbstick of gamepad `gamepad` moving to (x, y): the current subscription's
        latches produce the direction events, and the presses among them are sent. */
    method ThumbstickValueChanged(gamepad: nat, x: real, y: real)
      requires Valid()
      modifies this, session
      ensures Valid()
      ensures session == old(session) && cancellables == old(cancellables) && pipelinesBuilt == old(pipelinesBuilt)
      ensures keySends == old(keySends) +
        if old(session) != null && old(session).gamepad == gamepad
        then KeySendsFor(ThumbstickEvents(old(session.Latches()), x, y)) else []
      ensures session != null && session.gamepad == gamepad ==> session.Latches() == SampleLatches(x, y)
      ensures session != null && session.gamepad != gamepad ==> session.Latches() == old(session.Latches())
      ensures session != null ==>
        session.received == old(session.received) +
          if session.gamepad == gamepad then ThumbstickEvents(old(session.Latches()), x, y) else []
    {
      if session != null && session.gamepad == gamepad {
        var before := |session.received|;
        ghost var prev := session.Latches();
        session.ThumbstickValueChanged(x, y);
        assert session.received[before..] == ThumbstickEvents(prev, x, y);
        keySends := keySends + KeySendsFor(session.received[before..]);
      }
    }
  }
}
