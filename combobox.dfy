/** The `Combobox` input: a popover list of options with an `open` flag and
    a selected `value`, both local state. Choosing the selected option again
    clears the selection. The `onChange` the caller passes in is never
    called, so a selection never leaves the component. */
module Combobox {
  import opened Common

  const DefaultPlaceholder: string := "Select a value"

  /** The value after an option is chosen: the same option again clears it. */
  function Toggle(value: string, picked: string): string {
    if picked == value then "" else picked
  }

  /** Choosing the same option twice returns to where a fresh selection of it
      would leave off: the option when it was already selected, nothing
      otherwise. From an empty selection that is always the empty value. */
  lemma ToggleTwice(value: string, picked: string)
    ensures Toggle(Toggle(value, picked), picked) == (if value == picked then picked else "")
    ensures Toggle(Toggle("", picked), picked) == ""
  {
  }

  /** The trigger's text: the value when there is one, else the placeholder. */
  function TriggerLabel(value: string, placeholder: Option<string>): string {
    if value != "" then value else placeholder.GetOr(DefaultPlaceholder)
  }

  /** After a choice the trigger shows the chosen option, or the placeholder
      when the choice cleared the selection. */
  lemma SelectionLabel(value: string, picked: string, placeholder: Option<string>)
    ensures picked != value && picked != ""
            ==> TriggerLabel(Toggle(value, picked), placeholder) == picked
    ensures picked == value
            ==> TriggerLabel(Toggle(value, picked), placeholder) == placeholder.GetOr(DefaultPlaceholder)
  {
  }

  /** Which options are highlighted and checked: those whose text is the value. */
  function Highlights(options: seq<string>, value: string): seq<bool> {
    seq(|options|, i requires 0 <= i < |options| => options[i] == value)
  }

  function CountMarked(hs: seq<bool>): nat {
    if hs == [] then 0 else (if hs[0] then 1 else 0) + CountMarked(hs[1..])
  }

  predicate Distinct(options: seq<string>) {
    forall i, j :: 0 <= i < j < |options| ==> options[i] != options[j]
  }

  /** With distinct option texts, exactly one option is highlighted when the
      value is one of them, and none otherwise. */
  lemma {:induction false} OneHighlight(options: seq<string>, value: string)
    requires Distinct(options)
    ensures CountMarked(Highlights(options, value)) == (if value in options then 1 else 0)
  {
    if options != [] {
      var hs := Highlights(options, value);
      OneHighlight(options[1..], value);
      assert hs[1..] == Highlights(options[1..], value);
      if options[0] == value {
        assert value !in options[1..] by {
          forall j | 0 <= j < |options[1..]| ensures options[1..][j] != value {
            assert options[0] != options[j + 1];
          }
        }
      }
      assert options == [options[0]] + options[1..];
    }
  }

  class Combobox {
    const options: seq<string>   // each option's `toString()`
    const placeholder: Option<string>
    var open: bool
    var value: string

    /** Mounting: the value starts as the caller's value in string form, or
        empty; the popover starts closed. */
    constructor (options: seq<string>, placeholder: Option<string>, propsValue: Option<string>)
      ensures this.options == options && this.placeholder == placeholder
      ensures value == propsValue.GetOr("") && !open
    {
      this.options := options;
      this.placeholder := placeholder;
      open := false;
      value := propsValue.GetOr("");
    }

    /** The popover asking to open or close. */
    method OnOpenChange(o: bool)
      modifies this`open
      ensures open == o
    {
      open := o;
    }

    /** An option chosen in the list: toggle the value and close. */
    method OnSelect(currentValue: string)
      modifies this
      ensures value == Toggle(old(value), currentValue)
      ensures !open
    {
      value := if currentValue == value then "" else currentValue;
      open := false;
    }
  }
}
