/**
 * Path parameters as the context stores them: two parallel sequences of
 * names and values, looked up by a linear scan rather than a map.
 */
module Params {

  /** `i` is the first slot holding `name` that also has a value. */
  ghost predicate FirstMatch(names: seq<string>, values: seq<string>, name: string, i: int)
  {
    0 <= i < |names| && i < |values| && names[i] == name &&
    forall j :: 0 <= j < i ==> names[j] != name
  }

  /**
   * The value bound to `name`: the value at the first slot whose name is
   * `name`, or "" when no slot that has a value carries that name.
   */
  function Lookup(names: seq<string>, values: seq<string>, name: string): (v: string)
    ensures forall i :: FirstMatch(names, values, name, i) ==> v == values[i]
    ensures (forall i :: 0 <= i < |names| && i < |values| ==> names[i] != name) ==> v == ""
  {
    if names == [] || values == [] then ""
    else if names[0] == name then values[0]
    else
      var v := Lookup(names[1..], values[1..], name);
      assert forall i :: FirstMatch(names, values, name, i) ==>
        i > 0 && FirstMatch(names[1..], values[1..], name, i - 1);
      v
  }
}
