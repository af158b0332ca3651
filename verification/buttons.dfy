/** The button identities the plugin recognises (ZwiftControllerPlugin/XboxButton.swift). */
module Buttons {

  /** The nine buttons, in declaration order. */
  datatype XboxButton = A | B | Y | Left | Up | Right | Down | LeftBumper | RightBumper
  {
    /** True for the directions, which the left thumbstick can also produce. */
    predicate HasAnalogInput() {
      match this
      case Left | Right | Up | Down => true
      case _ => false
    }
  }

  /** `XboxButton.allCases`: every case once, in declaration order. */
  const AllCases: seq<XboxButton> := [A, B, Y, Left, Up, Right, Down, LeftBumper, RightBumper]

  /** Where a button stands in `AllCases`; it is there for every button. */
  function CaseIndex(b: XboxButton): (k: nat)
    ensures k < |AllCases| && AllCases[k] == b
  {
    match b
    case A => 0
    case B => 1
    case Y => 2
    case Left => 3
    case Up => 4
    case Right => 5
    case Down => 6
    case LeftBumper => 7
    case RightBumper => 8
  }

  /** No case is listed twice, so `CaseIndex` is the only position of a button. */
  lemma AllCasesDistinct()
    ensures |AllCases| == 9
    ensures forall i, j :: 0 <= i < j < |AllCases| ==> AllCases[i] != AllCases[j]
  {
  }

  /** Exactly four cases are analog: positions 3 to 6 of `allCases`, which hold left, up,
      right and down; a, b, y and the two bumpers are not analog. */
  lemma AnalogCases()
    ensures (set k | 0 <= k < |AllCases| && AllCases[k].HasAnalogInput()) == {3, 4, 5, 6}
    ensures |set k | 0 <= k < |AllCases| && AllCases[k].HasAnalogInput()| == 4
    ensures AllCases[3..7] == [Left, Up, Right, Down]
  {
  }
}
