/**
 * The two-state text colour of a tab: a colour state list whose first entry applies to
 * selected views and whose second, empty, entry applies to every other view. A colour
 * state list is read front to back and the first entry whose state spec matches the
 * view's drawable state gives the colour.
 */
module ColorStates {
  import opened JavaLang

  /** `android.R.attr.state_selected`. */
  const STATE_SELECTED: int32 := 0x0101_00a1

  /** `View.SELECTED_STATE_SET` and `View.EMPTY_STATE_SET`. */
  const SELECTED_STATE_SET: seq<int32> := [STATE_SELECTED]
  const EMPTY_STATE_SET: seq<int32> := []

  /**
   * Whether a state spec matches a view's drawable state: a positive entry must be in
   * the state, a negative entry `-s` must not be, and a 0 entry ends the spec.
   */
  predicate Matches(spec: seq<int32>, state: set<int32>)
  {
    if spec == [] || spec[0] == 0 then true
    else
      (if spec[0] > 0 then spec[0] in state else Negate(spec[0]) !in state)
      && Matches(spec[1..], state)
  }

  /** A colour state list: parallel sequences of state specs and colours. */
  datatype ColorStateList = ColorStateList(stateSpecs: seq<seq<int32>>, colors: seq<int32>) {
    predicate Valid() {
      |stateSpecs| == |colors|
    }
  }

  /** The colour of the first spec, from the front, that matches `state`; `fallback` when none does. */
  function FirstMatchColor(specs: seq<seq<int32>>, colors: seq<int32>, state: set<int32>, fallback: int32): int32
    requires |specs| == |colors|
    decreases |specs|
  {
    if specs == [] then fallback
    else if Matches(specs[0], state) then colors[0]
    else FirstMatchColor(specs[1..], colors[1..], state, fallback)
  }

  /** `ColorStateList.getColorForState(state, fallback)`. */
  function ColorForState(list: ColorStateList, state: set<int32>, fallback: int32): int32
    requires list.Valid()
  {
    FirstMatchColor(list.stateSpecs, list.colors, state, fallback)
  }

  /** The lookup yields the colour of entry `i` when `i` is the first entry that matches. */
  lemma {:induction false} FirstMatchAt(specs: seq<seq<int32>>, colors: seq<int32>, state: set<int32>, fallback: int32, i: nat)
    requires |specs| == |colors| && i < |specs|
    requires Matches(specs[i], state)
    requires forall j :: 0 <= j < i ==> !Matches(specs[j], state)
    ensures FirstMatchColor(specs, colors, state, fallback) == colors[i]
  {
    if i > 0 {
      assert !Matches(specs[0], state);
      FirstMatchAt(specs[1..], colors[1..], state, fallback, i - 1);
    }
  }

  /** The lookup yields the fallback when no entry matches. */
  lemma {:induction false} NoMatchGivesFallback(specs: seq<seq<int32>>, colors: seq<int32>, state: set<int32>, fallback: int32)
    requires |specs| == |colors|
    requires forall j :: 0 <= j < |specs| ==> !Matches(specs[j], state)
    ensures FirstMatchColor(specs, colors, state, fallback) == fallback
  {
    if specs != [] {
      assert !Matches(specs[0], state);
      NoMatchGivesFallback(specs[1..], colors[1..], state, fallback);
    }
  }

  /** The empty spec matches every state; `[s]` for a positive `s` matches exactly the states holding `s`. */
  lemma SpecsOfTwoStateList(state: set<int32>)
    ensures Matches(EMPTY_STATE_SET, state)
    ensures Matches(SELECTED_STATE_SET, state) <==> STATE_SELECTED in state
  {
    assert SELECTED_STATE_SET[1..] == [];
  }

  /**
   * The list `createColorStateList(defaultColor, selectedColor)` builds gives
   * `selectedColor` to every selected view and `defaultColor` to every other view;
   * the lookup's own fallback is never used.
   */
  lemma TwoStateLookup(defaultColor: int32, selectedColor: int32, state: set<int32>, fallback: int32)
    ensures var list := ColorStateList([SELECTED_STATE_SET, EMPTY_STATE_SET], [selectedColor, defaultColor]);
      list.Valid() &&
      ColorForState(list, state, fallback) == if STATE_SELECTED in state then selectedColor else defaultColor
  {
    var specs := [SELECTED_STATE_SET, EMPTY_STATE_SET];
    var colors := [selectedColor, defaultColor];
    SpecsOfTwoStateList(state);
    if STATE_SELECTED in state {
      FirstMatchAt(specs, colors, state, fallback, 0);
    } else {
      FirstMatchAt(specs, colors, state, fallback, 1);
    }
  }

  /**
   * `TabTextView.createColorStateList`: fills a two-entry array of state specs and a
   * parallel two-entry array of colours, selected state first and the empty (default)
   * state second, and wraps them in a colour state list.
   */
  method CreateColorStateList(defaultColor: int32, selectedColor: int32) returns (list: ColorStateList)
    ensures list.Valid()
    ensures list.stateSpecs == [SELECTED_STATE_SET, EMPTY_STATE_SET]
    ensures list.colors == [selectedColor, defaultColor]
    ensures forall state: set<int32> ::
      ColorForState(list, state, 0) == (if STATE_SELECTED in state then selectedColor else defaultColor)
  {
    var states := new seq<int32>[2];
    var colors := new int32[2];
    states[0] := SELECTED_STATE_SET;
    colors[0] := selectedColor;
    states[1] := EMPTY_STATE_SET;
    colors[1] := defaultColor;
    list := ColorStateList(states[..], colors[..]);
    assert list.stateSpecs == [SELECTED_STATE_SET, EMPTY_STATE_SET];
    assert list.colors == [selectedColor, defaultColor];
    forall state: set<int32>
      ensures ColorForState(list, state, 0) == if STATE_SELECTED in state then selectedColor else defaultColor
    {
      TwoStateLookup(defaultColor, selectedColor, state, 0);
    }
  }
}
