/** The four-slot code entry of src/screens/VerificationScreen.tsx. Focus
    is the index of the input that holds it (None before any moved it). */
module VerificationScreen {
  import opened Wrappers

  const Slots := 4

  /** `/^\d$/.test(text)`: exactly one ASCII digit. */
  predicate IsSingleDigit(text: string) {
    |text| == 1 && '0' <= text[0] <= '9'
  }

  /** The code `handleChange` leaves: a digit or the empty text is written
      into slot `index`; any other text leaves the code as it was. */
  function CodeAfterChange(code: seq<string>, text: string, index: nat): (r: seq<string>)
    requires index < |code|
    ensures |r| == |code|
    ensures forall j :: 0 <= j < |code| && j != index ==> r[j] == code[j]
    ensures r[index] == if IsSingleDigit(text) || text == "" then text else code[index]
  {
    if IsSingleDigit(text) then code[index := text]
    else if text == "" then code[index := ""]
    else code
  }

  /** Where focus goes after `handleChange`: to the next slot after a digit
      in any but the last slot, otherwise it stays. */
  function FocusAfterChange(focus: Option<nat>, text: string, index: nat): (r: Option<nat>)
    requires index < Slots
    ensures r != focus ==> IsSingleDigit(text) && r == Some(index + 1) && index + 1 < Slots
    ensures IsSingleDigit(text) && index < Slots - 1 ==> r == Some(index + 1)
  {
    if IsSingleDigit(text) && index < Slots - 1 then Some(index + 1) else focus
  }

  /** Where focus goes after `handleKeyPress`: Backspace on an empty slot
      other than the first moves back one; nothing else moves it. */
  function FocusAfterKey(code: seq<string>, focus: Option<nat>, key: string, index: nat): (r: Option<nat>)
    requires index < |code|
    ensures r != focus ==> key == "Backspace" && code[index] == "" && index > 0 && r == Some(index - 1)
    ensures key == "Backspace" && code[index] == "" && index > 0 ==> r == Some(index - 1)
  {
    if key == "Backspace" && code[index] == "" && index > 0 then Some(index - 1) else focus
  }

  /** Typing one digit into each of the four slots in turn fills the code
      with those digits and leaves focus on the last slot. */
  lemma TypingFourDigitsFillsCode(d0: string, d1: string, d2: string, d3: string, focus: Option<nat>)
    requires IsSingleDigit(d0) && IsSingleDigit(d1) && IsSingleDigit(d2) && IsSingleDigit(d3)
    ensures
      var c1 := CodeAfterChange(["", "", "", ""], d0, 0);
      var c2 := CodeAfterChange(c1, d1, 1);
      var c3 := CodeAfterChange(c2, d2, 2);
      var c4 := CodeAfterChange(c3, d3, 3);
      var f := FocusAfterChange(FocusAfterChange(FocusAfterChange(FocusAfterChange(focus, d0, 0), d1, 1), d2, 2), d3, 3);
      c4 == [d0, d1, d2, d3] && f == Some(3)
  {
  }

  class CodeEntry {
    var code: seq<string>
    var focus: Option<nat>

    ghost predicate Valid()
      reads this
    {
      |code| == Slots && (focus.Some? ==> focus.value < Slots)
    }

    /** The code starts as four empty slots. */
    constructor ()
      ensures Valid() && code == ["", "", "", ""] && focus == None
    {
      code := ["", "", "", ""];
      focus := None;
    }

    /** `handleChange` for the input at `index`. */
    method HandleChange(text: string, index: nat)
      requires Valid() && index < Slots
      modifies this
      ensures Valid()
      ensures code == CodeAfterChange(old(code), text, index)
      ensures focus == FocusAfterChange(old(focus), text, index)
    {
      if IsSingleDigit(text) {
        code := code[index := text];
        if index < Slots - 1 {
          focus := Some(index + 1);
        }
      } else if text == "" {
        code := code[index := ""];
      }
    }

    /** `handleKeyPress` for the input at `index`. */
    method HandleKeyPress(key: string, index: nat)
      requires Valid() && index < Slots
      modifies this`focus
      ensures Valid()
      ensures focus == FocusAfterKey(code, old(focus), key, index)
    {
      if key == "Backspace" && code[index] == "" {
        if index > 0 {
          focus := Some(index - 1);
        }
      }
    }
  }
}
