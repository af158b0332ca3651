/** The per-gamepad event source (ZwiftControllerPlugin/XboxGamepadButtonPressPublisher.swift):
    digital buttons are passed through, and the left thumbstick is turned into direction
    presses and releases by four latches. */
module Publisher {
  import opened Options
  import opened Buttons
  import opened Presses

  /** `analogThreshold`. Axis values are `Float` in the plugin; only comparisons with this
      constant and its negation happen, and 0.5 is exact, so they are modelled as reals. */
  const AnalogThreshold: real := 0.5

  /** The four latches `wasLeftPressed`, `wasRightPressed`, `wasUpPressed`, `wasDownPressed`. */
  datatype LatchState = LatchState(left: bool, right: bool, up: bool, down: bool)

  /** A new subscription starts with every latch set, as the plugin declares them. */
  const InitialLatches: LatchState := LatchState(true, true, true, true)

  /** The four direction predicates of one thumbstick sample, exactly as the plugin writes
      them: up is `y < threshold` and down is `y > -threshold`, which is not the mirror
      image of left and right. */
  function SampleLatches(x: real, y: real): (l: LatchState)
    ensures !(l.left && l.right)
    ensures l.up || l.down
    ensures -AnalogThreshold <= x <= AnalogThreshold ==> !l.left && !l.right
    ensures -AnalogThreshold < y < AnalogThreshold ==> l.up && l.down
  {
    LatchState(x < -AnalogThreshold, x > AnalogThreshold, y < AnalogThreshold, y > -AnalogThreshold)
  }

  /** The latch that belongs to a direction button. */
  function LatchOf(l: LatchState, b: XboxButton): bool
    requires b.HasAnalogInput()
  {
    match b
    case Left => l.left
    case Right => l.right
    case Up => l.up
    case Down => l.down
  }

  /** The position in which the thumbstick handler checks a direction. */
  function CheckOrder(b: XboxButton): nat
    requires b.HasAnalogInput()
  {
    match b
    case Left => 0
    case Right => 1
    case Up => 2
    case Down => 3
  }

  /** One direction's step: an event only when the new state differs from the latch. */
  function Edge(b: XboxButton, was: bool, now: bool): (r: seq<XboxButtonPress>)
    ensures |r| <= 1
    ensures r != [] <==> now != was
    ensures forall i :: 0 <= i < |r| ==> r[i] == XboxButtonPress(b, now)
  {
    if now != was then [XboxButtonPress(b, now)] else []
  }

  /** The events one thumbstick sample sends, given the latches before it. */
  function ThumbstickEvents(prev: LatchState, x: real, y: real): seq<XboxButtonPress>
  {
    var now := SampleLatches(x, y);
    Edge(Left, prev.left, now.left) + Edge(Right, prev.right, now.right)
      + Edge(Up, prev.up, now.up) + Edge(Down, prev.down, now.down)
  }

  /** One sample sends at most four events, all of them for directions. */
  lemma ThumbstickEventsBound(prev: LatchState, x: real, y: real)
    ensures |ThumbstickEvents(prev, x, y)| <= 4
    ensures forall i :: 0 <= i < |ThumbstickEvents(prev, x, y)| ==>
      ThumbstickEvents(prev, x, y)[i].button.HasAnalogInput()
  {
  }

  /** The events of one sample come in the order left, right, up, down: an earlier event
      is always for a direction checked earlier, so no direction appears twice. */
  lemma ThumbstickEventsOrdered(prev: LatchState, x: real, y: real, i: nat, j: nat)
    requires i < j < |ThumbstickEvents(prev, x, y)|
    ensures ThumbstickEvents(prev, x, y)[i].button.HasAnalogInput()
    ensures ThumbstickEvents(prev, x, y)[j].button.HasAnalogInput()
    ensures CheckOrder(ThumbstickEvents(prev, x, y)[i].button) < CheckOrder(ThumbstickEvents(prev, x, y)[j].button)
  {
  }

  /** For each direction, a sample sends an event for it exactly when its predicate differs
      from the latch, and that event's `isPressed` is the new predicate, never the old one. */
  lemma ThumbstickEventPerDirection(prev: LatchState, x: real, y: real, b: XboxButton)
    requires b.HasAnalogInput()
    ensures var now := LatchOf(SampleLatches(x, y), b);
      && (XboxButtonPress(b, now) in ThumbstickEvents(prev, x, y) <==> now != LatchOf(prev, b))
      && XboxButtonPress(b, !now) !in ThumbstickEvents(prev, x, y)
  {
  }

  /** Feeding the same sample twice: once the latches hold a sample's predicates, the same
      sample again sends nothing (and sets the latches to what they already are). */
  lemma SameSampleIdempotent(x: real, y: real)
    ensures ThumbstickEvents(SampleLatches(x, y), x, y) == []
  {
  }

  /** From a new subscription, a centred stick (0, 0) releases left and right and sends
      nothing for up and down. */
  lemma FirstCentredSample()
    ensures ThumbstickEvents(InitialLatches, 0.0, 0.0)
         == [XboxButtonPress(Left, false), XboxButtonPress(Right, false)]
  {
  }

  /** Because every latch starts set, pushing the stick left straight from a new
      subscription sends no left press: only a right release comes out. */
  lemma FirstLeftPushSuppressed(x: real, y: real)
    requires x < -AnalogThreshold && -AnalogThreshold < y < AnalogThreshold
    ensures ThumbstickEvents(InitialLatches, x, y) == [XboxButtonPress(Right, false)]
  {
  }

  /** With up as `y < threshold`, the up direction is "pressed" whenever the stick is not
      pushed past the threshold towards positive y: leaving the centre that way sends an up
      release, and coming back sends the up press. */
  lemma UpPressOnReturn(x: real, y: real)
    requires y > AnalogThreshold && -AnalogThreshold <= x <= AnalogThreshold
    ensures ThumbstickEvents(SampleLatches(0.0, 0.0), x, y) == [XboxButtonPress(Up, false)]
    ensures ThumbstickEvents(SampleLatches(x, y), 0.0, 0.0) == [XboxButtonPress(Up, true)]
  {
  }

  lemma AppendFour<T>(r: seq<T>, a: seq<T>, b: seq<T>, c: seq<T>, d: seq<T>)
    ensures r + a + b + c + d == r + (a + b + c + d)
  {
  }

  /** One thumbstick sample (the `xAxis`, `yAxis` of the value-changed callback). */
  datatype Sample = Sample(x: real, y: real)

  /** The latches after a run of samples. */
  function RunLatches(l: LatchState, samples: seq<Sample>): LatchState
    decreases |samples|
  {
    if samples == [] then l
    else RunLatches(SampleLatches(samples[0].x, samples[0].y), samples[1..])
  }

  /** The events a run of samples sends, in order. */
  function RunEvents(l: LatchState, samples: seq<Sample>): (r: seq<XboxButtonPress>)
    ensures |r| <= 4 * |samples|
    decreases |samples|
  {
    if samples == [] then []
    else
      ThumbstickEvents(l, samples[0].x, samples[0].y)
      + RunEvents(SampleLatches(samples[0].x, samples[0].y), samples[1..])
  }

  /** After at least one sample the latches hold that last sample's predicates alone, so
      left and right are never both set and up and down never both clear. */
  lemma {:induction false} RunEndsAtLastSample(l: LatchState, samples: seq<Sample>)
    requires |samples| > 0
    decreases |samples|
    ensures RunLatches(l, samples) == SampleLatches(samples[|samples| - 1].x, samples[|samples| - 1].y)
    ensures !(RunLatches(l, samples).left && RunLatches(l, samples).right)
    ensures RunLatches(l, samples).up || RunLatches(l, samples).down
  {
    if |samples| > 1 {
      RunEndsAtLastSample(SampleLatches(samples[0].x, samples[0].y), samples[1..]);
    }
  }

  /** The x-axis run 0, -0.8, -0.8, 0, 0.8 with y at rest, from a new subscription:
      the first sample releases both left and right (the latches start set), then come a
      left press, nothing, a left release and a right press. */
  lemma {:induction false} XAxisScenario()
    ensures RunEvents(InitialLatches,
              [Sample(0.0, 0.0), Sample(-0.8, 0.0), Sample(-0.8, 0.0), Sample(0.0, 0.0), Sample(0.8, 0.0)])
         == [XboxButtonPress(Left, false), XboxButtonPress(Right, false),
             XboxButtonPress(Left, true), XboxButtonPress(Left, false), XboxButtonPress(Right, true)]
  {
    var rest := SampleLatches(0.0, 0.0);
    var left := SampleLatches(-0.8, 0.0);
    var s := [Sample(0.0, 0.0), Sample(-0.8, 0.0), Sample(-0.8, 0.0), Sample(0.0, 0.0), Sample(0.8, 0.0)];
    assert RunEvents(SampleLatches(0.8, 0.0), s[5..]) == [];
    assert RunEvents(rest, s[4..]) == [XboxButtonPress(Right, true)];
    assert RunEvents(left, s[3..]) == [XboxButtonPress(Left, false), XboxButtonPress(Right, true)];
    assert RunEvents(left, s[2..]) == [XboxButtonPress(Left, false), XboxButtonPress(Right, true)];
    assert RunEvents(rest, s[1..])
        == [XboxButtonPress(Left, true), XboxButtonPress(Left, false), XboxButtonPress(Right, true)];
  }

  /** The handler installed on a digital button: the closure of `getButtonValueChangedHandler`,
      which forwards the new state of the button it was made for. */
  datatype ButtonHandler = ForwardPress(button: XboxButton)

  /** `XboxGamepadButtonPressSubscription`: the latches, the subscriber's inbox and the
      handler slots this subscription installs on its gamepad. */
  class XboxGamepadButtonPressSubscription {
    /** Which gamepad the subscription serves (`xboxGampead`). */
    const gamepad: nat

    var wasLeftPressed: bool
    var wasRightPressed: bool
    var wasUpPressed: bool
    var wasDownPressed: bool

    /** Everything `sendPress` has handed to the subscriber, oldest first. */
    var received: seq<XboxButtonPress>

    /** The gamepad's digital-button handler slots; a button missing from the map has none. */
    var buttonHandlers: map<XboxButton, ButtonHandler>
    /** Whether the left thumbstick's value-changed handler is installed. */
    var thumbstickHandlerSet: bool

    function Latches(): LatchState
      reads this
    {
      LatchState(wasLeftPressed, wasRightPressed, wasUpPressed, wasDownPressed)
    }

    /** Every button forwards its own presses and the thumbstick is handled. */
    predicate Wired()
      reads this
    {
      thumbstickHandlerSet && forall b: XboxButton :: b in buttonHandlers && buttonHandlers[b] == ForwardPress(b)
    }

    /** No handler is installed. */
    predicate Unwired()
      reads this
    {
      !thumbstickHandlerSet && buttonHandlers == map[]
    }

    constructor (gamepad: nat)
      ensures this.gamepad == gamepad
      ensures Latches() == InitialLatches && received == [] && Unwired()
    {
      this.gamepad := gamepad;
      wasLeftPressed, wasRightPressed, wasUpPressed, wasDownPressed := true, true, true, true;
      received := [];
      buttonHandlers := map[];
      thumbstickHandlerSet := false;
    }

    /** `request`: the demand is ignored; the handlers are installed. */
    method Request()
      modifies this
      ensures Wired()
      ensures Latches() == old(Latches()) && received == old(received)
    {
      SetupHandlers();
    }

    /** `cancel`: the handlers are removed. */
    method Cancel()
      modifies this
      ensures Unwired()
      ensures Latches() == old(Latches()) && received == old(received)
    {
      DestroyHandlers();
    }

    /** `applyButtonValueChangesHandler`: sets (or, with `None`, clears) one button's slot. */
    method ApplyButtonValueChangesHandler(handler: Option<ButtonHandler>, button: XboxButton)
      modifies this
      ensures buttonHandlers == if handler.Some? then old(buttonHandlers)[button := handler.value]
                                else old(buttonHandlers) - {button}
      ensures thumbstickHandlerSet == old(thumbstickHandlerSet)
      ensures Latches() == old(Latches()) && received == old(received)
    {
      match handler
      case Some(h) => buttonHandlers := buttonHandlers[button := h];
      case None => buttonHandlers := buttonHandlers - {button};
    }

    /** `setupHandlers`: every case of `allCases`, then the thumbstick. */
    method SetupHandlers()
      modifies this
      ensures Wired()
      ensures Latches() == old(Latches()) && received == old(received)
    {
      for i := 0 to |AllCases|
        invariant forall k :: 0 <= k < i ==>
          AllCases[k] in buttonHandlers && buttonHandlers[AllCases[k]] == ForwardPress(AllCases[k])
        invariant Latches() == old(Latches()) && received == old(received)
      {
        var button := AllCases[i];
        ApplyButtonValueChangesHandler(Some(ForwardPress(button)), button);
      }
      thumbstickHandlerSet := true;
      forall b: XboxButton
        ensures b in buttonHandlers && buttonHandlers[b] == ForwardPress(b)
      {
        var k := CaseIndex(b);
      }
    }

    /** `destroyHandlers`: clears every case of `allCases`, then the thumbstick. */
    method DestroyHandlers()
      modifies this
      ensures Unwired()
      ensures Latches() == old(Latches()) && received == old(received)
    {
      for i := 0 to |AllCases|
        invariant forall k :: 0 <= k < i ==> AllCases[k] !in buttonHandlers
        invariant Latches() == old(Latches()) && received == old(received)
      {
        ApplyButtonValueChangesHandler(None, AllCases[i]);
      }
      thumbstickHandlerSet := false;
      forall b: XboxButton
        ensures b !in buttonHandlers
      {
        var k := CaseIndex(b);
      }
      assert buttonHandlers.Keys == {};
    }

    /** The gamepad reporting a new state for a digital button: the installed handler, if
        any, forwards it unchanged; the latches are never touched. */
    method ButtonValueChanged(button: XboxButton, isPressed: bool)
      modifies this
      ensures received == old(received) +
        if button in old(buttonHandlers)
        then [XboxButtonPress(old(buttonHandlers)[button].button, isPressed)] else []
      ensures Latches() == old(Latches())
      ensures buttonHandlers == old(buttonHandlers) && thumbstickHandlerSet == old(thumbstickHandlerSet)
    {
      if button in buttonHandlers {
        SendPress(XboxButtonPress(buttonHandlers[button].button, isPressed));
      }
    }

    /** The gamepad reporting a new thumbstick position: handled only while the handler
        is installed. */
    method ThumbstickValueChanged(x: real, y: real)
      modifies this
      ensures received == old(received) +
        if old(thumbstickHandlerSet) then ThumbstickEvents(old(Latches()), x, y) else []
      ensures Latches() == if old(thumbstickHandlerSet) then SampleLatches(x, y) else old(Latches())
      ensures buttonHandlers == old(buttonHandlers) && thumbstickHandlerSet == old(thumbstickHandlerSet)
    {
      if thumbstickHandlerSet {
        HandleThumbstickInput(x, y);
      }
    }

    /** `handleThumbstickInput`: each direction in turn, left, right, up, down, through the
        step that the Swift code writes out four times. */
    method HandleThumbstickInput(x: real, y: real)
      modifies this`wasLeftPressed, this`wasRightPressed, this`wasUpPressed, this`wasDownPressed, this`received
      ensures received == old(received) + ThumbstickEvents(old(Latches()), x, y)
      ensures Latches() == SampleLatches(x, y)
    {
      ghost var prev := Latches();
      var isLeftPressed := x < -AnalogThreshold;
      wasLeftPressed := CheckDirection(Left, wasLeftPressed, isLeftPressed);
      var isRightPressed := x > AnalogThreshold;
      wasRightPressed := CheckDirection(Right, wasRightPressed, isRightPressed);
      var isUpPressed := y < AnalogThreshold;
      wasUpPressed := CheckDirection(Up, wasUpPressed, isUpPressed);
      var isDownPressed := y > -AnalogThreshold;
      wasDownPressed := CheckDirection(Down, wasDownPressed, isDownPressed);
      assert Latches() == SampleLatches(x, y);
      AppendFour(old(received), Edge(Left, prev.left, isLeftPressed), Edge(Right, prev.right, isRightPressed),
                 Edge(Up, prev.up, isUpPressed), Edge(Down, prev.down, isDownPressed));
    }

    /** One direction of `handleThumbstickInput`: when the new state differs from the latch,
        send it; the latch then holds the new state (unchanged when they agree). */
    method CheckDirection(button: XboxButton, wasPressed: bool, isPressed: bool) returns (latch: bool)
      modifies this`received
      ensures received == old(received) + Edge(button, wasPressed, isPressed)
      ensures latch == isPressed
    {
      latch := wasPressed;
      if isPressed != wasPressed {
        if isPressed {
          SendPress(XboxButtonPress(button, true));
        } else {
          SendPress(XboxButtonPress(button, false));
        }
        latch := isPressed;
      }
    }

    /** `sendPress`: hands one event to the subscriber. */
    method SendPress(press: XboxButtonPress)
      modifies this`received
      ensures received == old(received) + [press]
    {
      received := received + [press];
    }
  }
}
