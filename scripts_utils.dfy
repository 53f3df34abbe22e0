/** The dictionary builder and the optional-to-array helper of the batch loader. */
module ScriptsUtils {
  import opened Wrappers

  /**
   * The dictionary `buildLookup(values, key)` produces: every value stored
   * under its key, a later value overwriting an earlier one with the same key.
   * Keys are the numeric ids the callers map to; the stringified key of the
   * source is modelled by the integer itself, which stringifies injectively.
   */
  function Lookup<T>(values: seq<T>, key: T -> int): (d: map<int, T>)
    ensures d.Keys == set i | 0 <= i < |values| :: key(values[i])
    ensures forall k :: k in d ==> key(d[k]) == k
  {
    if values == [] then map[]
    else
      var init := values[..|values| - 1];
      var last := values[|values| - 1];
      var d := Lookup(init, key)[key(last) := last];
      assert d.Keys == set i | 0 <= i < |values| :: key(values[i]) by {
        forall k | k in d.Keys ensures exists i :: 0 <= i < |values| && key(values[i]) == k {
          if k != key(last) {
            var i :| 0 <= i < |init| && key(init[i]) == k;
            assert key(values[i]) == k;
          }
        }
        forall i | 0 <= i < |values| ensures key(values[i]) in d.Keys {
          if i < |init| { assert values[i] == init[i]; }
        }
      }
      d
  }

  /** When several values share a key, the dictionary holds the last of them. */
  lemma {:induction false} LookupLastWins<T>(values: seq<T>, key: T -> int, i: nat)
    requires i < |values|
    requires forall j :: i < j < |values| ==> key(values[j]) != key(values[i])
    ensures key(values[i]) in Lookup(values, key)
    ensures Lookup(values, key)[key(values[i])] == values[i]
  {
    if i < |values| - 1 {
      var init := values[..|values| - 1];
      assert forall j :: i < j < |init| ==> init[j] == values[j];
      LookupLastWins(init, key, i);
      assert init[i] == values[i];
    }
  }

  /** The dictionary of an empty list is empty. */
  lemma LookupEmpty<T>(key: T -> int)
    ensures Lookup([], key) == map[]
  {
  }

  /** `buildLookup`: fills a dictionary in one pass over the values. */
  method BuildLookup<T>(values: seq<T>, key: T -> int) returns (d: map<int, T>)
    ensures d == Lookup(values, key)
  {
    d := map[];
    var i := 0;
    while i < |values|
      invariant 0 <= i <= |values|
      invariant d == Lookup(values[..i], key)
    {
      assert values[..i + 1][..i] == values[..i];
      d := d[key(values[i]) := values[i]];
      i := i + 1;
    }
    assert values[..i] == values;
  }

  /** `asArray`: no element for `null`/`undefined`, otherwise exactly the element (even a falsy one). */
  function AsArray<T>(element: Option<T>): (r: seq<T>)
    ensures element.None? ==> r == []
    ensures element.Some? ==> r == [element.value]
  {
    match element
    case None => []
    case Some(e) => [e]
  }
}
