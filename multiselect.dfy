/**
 * The multi-select control: toggling an option in the selection list, removing one through its
 * badge, and the cap that disables further unselected options.
 */
module MultiSelect {
  import opened Wrappers

  /** An option of the control: its value and its label `text`. */
  datatype SelectOption = SelectOption(value: string, text: string)

  /** `selected.some(s => s.value === value)`. */
  predicate Contains(selected: seq<SelectOption>, value: string) {
    exists k :: 0 <= k < |selected| && selected[k].value == value
  }

  /** `selected.filter(s => s.value !== value)`. */
  function Remove(selected: seq<SelectOption>, value: string): (r: seq<SelectOption>)
    ensures |r| <= |selected|
    ensures !Contains(r, value)
    ensures forall k :: 0 <= k < |r| ==> r[k] in selected
    ensures !Contains(selected, value) ==> r == selected
    decreases |selected|
  {
    if |selected| == 0 then []
    else
      var rest := Remove(selected[1..], value);
      if selected[0].value == value then rest else [selected[0]] + rest
  }

  /** A value is selected exactly when the first entry has it or the rest of the list does. */
  lemma ContainsFirstOrRest(selected: seq<SelectOption>, value: string)
    requires |selected| > 0
    ensures Contains(selected, value) <==> selected[0].value == value || Contains(selected[1..], value)
  {
    if Contains(selected, value) && selected[0].value != value {
      var k :| 0 <= k < |selected| && selected[k].value == value;
      assert selected[1..][k - 1].value == value;
    }
    if Contains(selected[1..], value) {
      var k :| 0 <= k < |selected[1..]| && selected[1..][k].value == value;
      assert selected[k + 1].value == value;
    }
  }

  /** Removing one value keeps every other value that was selected. */
  lemma {:induction false} RemoveKeepsOthers(selected: seq<SelectOption>, value: string, other: string)
    requires other != value
    ensures Contains(Remove(selected, value), other) <==> Contains(selected, other)
    decreases |selected|
  {
    if |selected| > 0 {
      var rest := Remove(selected[1..], value);
      RemoveKeepsOthers(selected[1..], value, other);
      ContainsFirstOrRest(selected, other);
      if selected[0].value != value {
        var r := [selected[0]] + rest;
        assert r[1..] == rest;
        ContainsFirstOrRest(r, other);
      }
    }
  }

  /** `handleSelect`: a selected value is removed, an unselected option is appended. */
  function HandleSelect(selected: seq<SelectOption>, option: SelectOption): (r: seq<SelectOption>)
    ensures Contains(r, option.value) <==> !Contains(selected, option.value)
    ensures forall v :: v != option.value ==> (Contains(r, v) <==> Contains(selected, v))
  {
    assert (selected + [option])[|selected|] == option;
    assert forall k :: 0 <= k < |selected| ==> (selected + [option])[k] == selected[k];
    forall v | v != option.value
      ensures Contains(Remove(selected, option.value), v) <==> Contains(selected, v)
    {
      RemoveKeepsOthers(selected, option.value, v);
    }
    if Contains(selected, option.value) then Remove(selected, option.value) else selected + [option]
  }

  /** `handleRemove`. */
  function HandleRemove(selected: seq<SelectOption>, option: SelectOption): (r: seq<SelectOption>)
    ensures !Contains(r, option.value)
    ensures forall v :: v != option.value ==> (Contains(r, v) <==> Contains(selected, v))
  {
    forall v | v != option.value
      ensures Contains(Remove(selected, option.value), v) <==> Contains(selected, v)
    {
      RemoveKeepsOthers(selected, option.value, v);
    }
    Remove(selected, option.value)
  }

  /** `isMaxReached`: a cap is given and the selection has reached it. */
  predicate IsMaxReached(selected: seq<SelectOption>, max: Option<int>) {
    max.Some? && |selected| >= max.value
  }

  /** The item-disabled rule: an unselected option is disabled once the cap is reached. */
  predicate ItemDisabled(selected: seq<SelectOption>, option: SelectOption, max: Option<int>) {
    !Contains(selected, option.value) && IsMaxReached(selected, max)
  }

  /** A click on an item of the list: a disabled item does nothing, any other toggles. */
  function UiSelect(selected: seq<SelectOption>, option: SelectOption, max: Option<int>): seq<SelectOption> {
    if ItemDisabled(selected, option, max) then selected else HandleSelect(selected, option)
  }

  /** Removing over a concatenation removes from each part: the kept entries stay in order. */
  lemma {:induction false} RemoveAppend(a: seq<SelectOption>, b: seq<SelectOption>, value: string)
    ensures Remove(a + b, value) == Remove(a, value) + Remove(b, value)
    decreases |a|
  {
    if |a| == 0 {
      assert a + b == b;
    } else {
      assert (a + b)[0] == a[0];
      assert (a + b)[1..] == a[1..] + b;
      RemoveAppend(a[1..], b, value);
    }
  }

  /** One entry is kept exactly when its value differs. */
  lemma RemoveSingleton(o: SelectOption, value: string)
    ensures Remove([o], value) == if o.value == value then [] else [o]
  {
    assert [o][1..] == [];
  }

  /** `handleRemove` is idempotent. */
  lemma RemoveIsIdempotent(selected: seq<SelectOption>, value: string)
    ensures Remove(Remove(selected, value), value) == Remove(selected, value)
  {
  }

  /** Selecting an unselected option appends it; selecting a selected one removes it and keeps the rest. */
  lemma SelectToggles(selected: seq<SelectOption>, option: SelectOption)
    ensures !Contains(selected, option.value) ==> HandleSelect(selected, option) == selected + [option]
    ensures Contains(selected, option.value) ==>
              var r := HandleSelect(selected, option);
              !Contains(r, option.value) && |r| < |selected| && (forall k :: 0 <= k < |r| ==> r[k] in selected)
  {
    if Contains(selected, option.value) {
      RemoveShrinks(selected, option.value);
    }
  }

  /** Removing a value that is present shortens the list. */
  lemma {:induction false} RemoveShrinks(selected: seq<SelectOption>, value: string)
    requires Contains(selected, value)
    ensures |Remove(selected, value)| < |selected|
    decreases |selected|
  {
    if selected[0].value != value {
      var k :| 0 <= k < |selected| && selected[k].value == value;
      assert selected[1..][k - 1].value == value;
      RemoveShrinks(selected[1..], value);
    }
  }

  /** Selecting an unselected option twice gives back the original selection. */
  lemma SelectTwiceIsIdentity(selected: seq<SelectOption>, option: SelectOption)
    requires !Contains(selected, option.value)
    ensures HandleSelect(HandleSelect(selected, option), option) == selected
  {
    var once := selected + [option];
    assert once[|selected|].value == option.value;
    RemoveAppend(selected, [option], option.value);
    RemoveSingleton(option, option.value);
  }

  /** Clicks through the list never take the selection past the cap. */
  lemma UiSelectKeepsCap(selected: seq<SelectOption>, option: SelectOption, max: int)
    requires |selected| <= max
    ensures |UiSelect(selected, option, Some(max))| <= max
  {
  }
}
