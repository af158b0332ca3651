/** One button event and what it maps to (ZwiftControllerPlugin/XboxButtonPress.swift). */
module Presses {
  import opened Options
  import opened Buttons

  /** The keys of the key-sending library that the plugin uses. */
  datatype Key = Return | Escape | Tab | LeftArrow | UpArrow | RightArrow | DownArrow | PageDown | PageUp

  /** The button a key stands for: the inverse of the `mappedKey` table. */
  function ButtonForKey(k: Key): XboxButton
  {
    match k
    case Return => A
    case Escape => B
    case Tab => Y
    case LeftArrow => Left
    case UpArrow => Up
    case RightArrow => Right
    case DownArrow => Down
    case PageDown => LeftBumper
    case PageUp => RightBumper
  }

  /** The text that `description` puts before the state. */
  function Label(b: XboxButton): string
  {
    match b
    case A => "A"
    case B => "B"
    case Y => "Y"
    case Left => "Left"
    case Up => "Up"
    case Right => "Right"
    case Down => "Down"
    case LeftBumper => "Left Bumper"
    case RightBumper => "Right Bumper"
  }

  const PressedSuffix: string := " - Pressed"
  const UnpressedSuffix: string := " - Unpressed"

  /** An immutable event: a button and whether it is now down. The datatype constructor is
      Swift struct's memberwise `init`, which stores both fields unchanged. */
  datatype XboxButtonPress = XboxButtonPress(button: XboxButton, isPressed: bool)
  {
    /** `mappedKey`: the key sent for this button; it is determined by `button` alone and
        the key identifies the button back. */
    function MappedKey(): (k: Key)
      ensures ButtonForKey(k) == button
    {
      match button
      case A => Return
      case B => Escape
      case Y => Tab
      case Left => LeftArrow
      case Up => UpArrow
      case Right => RightArrow
      case Down => DownArrow
      case LeftBumper => PageDown
      case RightBumper => PageUp
    }

    /** `description`: "<label> - Pressed" or "<label> - Unpressed". */
    function Description(): string
    {
      Label(button) + if isPressed then PressedSuffix else UnpressedSuffix
    }
  }

  /** `mappedKey` is a bijection between the nine buttons and the nine keys: it is onto,
      and two events map to the same key exactly when they are for the same button,
      whatever their `isPressed`. */
  lemma MappedKeyBijective(p: XboxButtonPress, q: XboxButtonPress, k: Key)
    ensures p.MappedKey() == q.MappedKey() <==> p.button == q.button
    ensures XboxButtonPress(ButtonForKey(k), p.isPressed).MappedKey() == k
  {
    match k
    case Return =>
    case Escape =>
    case Tab =>
    case LeftArrow =>
    case UpArrow =>
    case RightArrow =>
    case DownArrow =>
    case PageDown =>
    case PageUp =>
  }

  /** The button whose label is `name`, if any. */
  function ButtonForLabel(name: string): (r: Option<XboxButton>)
    ensures r.Some? ==> Label(r.value) == name
  {
    if name == "A" then Some(A)
    else if name == "B" then Some(B)
    else if name == "Y" then Some(Y)
    else if name == "Left" then Some(Left)
    else if name == "Up" then Some(Up)
    else if name == "Right" then Some(Right)
    else if name == "Down" then Some(Down)
    else if name == "Left Bumper" then Some(LeftBumper)
    else if name == "Right Bumper" then Some(RightBumper)
    else None
  }

  lemma LabelRoundTrip(b: XboxButton)
    ensures ButtonForLabel(Label(b)) == Some(b)
  {
  }

  /** Reads a description back into the event it describes. */
  function ParseDescription(s: string): (r: Option<XboxButtonPress>)
    ensures r.Some? ==> r.value.Description() == s
  {
    var n := |s|;
    if n >= |PressedSuffix| && s[n - |PressedSuffix|..] == PressedSuffix then
      match ButtonForLabel(s[..n - |PressedSuffix|])
      case Some(b) =>
        assert s == s[..n - |PressedSuffix|] + s[n - |PressedSuffix|..];
        Some(XboxButtonPress(b, true))
      case None => None
    else if n >= |UnpressedSuffix| && s[n - |UnpressedSuffix|..] == UnpressedSuffix then
      match ButtonForLabel(s[..n - |UnpressedSuffix|])
      case Some(b) =>
        assert s == s[..n - |UnpressedSuffix|] + s[n - |UnpressedSuffix|..];
        Some(XboxButtonPress(b, false))
      case None => None
    else None
  }

  /** A description never ends in the other state's suffix. */
  lemma SuffixesDisjoint(name: string)
    ensures var s := name + UnpressedSuffix; s[|s| - |PressedSuffix|..] != PressedSuffix
  {
    var s := name + UnpressedSuffix;
    assert s[|s| - |PressedSuffix|..][1] == UnpressedSuffix[3];
  }

  /** Every description reads back as the event it describes. */
  lemma {:induction false} DescriptionRoundTrip(p: XboxButtonPress)
    ensures ParseDescription(p.Description()) == Some(p)
  {
    var s := p.Description();
    var name := Label(p.button);
    LabelRoundTrip(p.button);
    if p.isPressed {
      assert s[|s| - |PressedSuffix|..] == PressedSuffix;
      assert s[..|s| - |PressedSuffix|] == name;
    } else {
      SuffixesDisjoint(name);
      assert s[|s| - |UnpressedSuffix|..] == UnpressedSuffix;
      assert s[..|s| - |UnpressedSuffix|] == name;
    }
  }

  /** Distinct events have distinct descriptions. */
  lemma {:induction false} DescriptionInjective(p: XboxButtonPress, q: XboxButtonPress)
    ensures p.Description() == q.Description() <==> p == q
  {
    DescriptionRoundTrip(p);
    DescriptionRoundTrip(q);
  }
}
