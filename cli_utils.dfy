/**
 * The small helpers of the interactive editor: array coercion, integer
 * parsing, membership, the null check, clamping, wrapping and the top-group
 * slice used to pick the newest games.
 */
module CliUtils {
  import opened Wrappers
  import opened Js
  import opened Collections

  // ---------------------------------------------------------------------------
  // toArray

  /** A value that may be missing, a single item or an array of them. */
  datatype ItemOrList<T> = Missing | Item(item: T) | List(items: seq<T>)

  /**
   * `toArray`: a falsy value (missing, or an item `falsy` holds of) gives
   * `[]`, an array is returned as it is, and any other item is wrapped.
   */
  function ToArray<T>(value: ItemOrList<T>, falsy: T -> bool): (r: seq<T>)
    ensures value.Missing? ==> r == []
    ensures value.Item? ==> r == if falsy(value.item) then [] else [value.item]
    ensures value.List? ==> r == value.items
  {
    match value
    case Missing => []
    case Item(x) => if falsy(x) then [] else [x]
    case List(xs) => xs
  }

  /** Coercing the result again changes nothing, and no truthy item is lost. */
  lemma ToArrayIdempotent<T>(value: ItemOrList<T>, falsy: T -> bool)
    ensures ToArray(List(ToArray(value, falsy)), falsy) == ToArray(value, falsy)
    ensures value.Item? && !falsy(value.item) ==> value.item in ToArray(value, falsy)
    ensures |ToArray(value, falsy)| <= 1 || value.List?
  {
  }

  // ---------------------------------------------------------------------------
  // asInt, valueIn, getSet

  /**
   * `asInt`: the base-10 `parseInt` of the text, which is always an integer
   * when it is a number at all; `None` for `NaN`.
   */
  function AsInt(value: string): (r: Option<int>)
    ensures r.Some? <==> ParseInt(value).Some?
    ensures r.Some? ==> r == ParseInt(value)
  {
    ParseInt(value)
  }

  /** Every rendered integer reads back, and digit strings read as the number they denote. */
  lemma AsIntReadsBack(n: int, digits: string)
    requires |digits| > 0 && AllDigits(digits)
    ensures AsInt(IntToString(n)) == Some(n)
    ensures AsInt(digits) == Some(DigitsValue(digits))
  {
    ParseIntOfIntToString(n);
    ParseIntOfDigits(digits);
  }

  /** Text that starts with a character other than whitespace, a sign or a digit is not a number. */
  lemma AsIntRejects(value: string)
    requires |value| > 0 && !IsWhitespace(value[0]) && !IsDigit(value[0]) && value[0] != '-' && value[0] != '+'
    ensures AsInt(value) == None
  {
    assert TrimStart(value) == value;
  }

  /** `valueIn`: the needle is one of the haystack's elements. */
  function ValueIn<T(==)>(needle: T, haystack: seq<T>): (r: bool)
    ensures r <==> exists i :: 0 <= i < |haystack| && haystack[i] == needle
  {
    needle in haystack
  }

  /** `getSet`: a present value is returned, a missing one is an error. */
  function GetSet<T>(value: Option<T>): (r: Result<T, string>)
    ensures r.Ok? <==> value.Some?
    ensures r.Ok? ==> r.value == value.value
    ensures r.Err? ==> r.error == "Value is expected to be non null"
  {
    match value
    case None => Err("Value is expected to be non null")
    case Some(v) => Ok(v)
  }

  // ---------------------------------------------------------------------------
  // clamp and wrap

  /** `clamp`: `Math.min(max, Math.max(min, value))`. */
  function Clamp(value: int, min: int, max: int): (r: int)
    ensures r <= max
    ensures min <= max ==> min <= r
    ensures min <= value <= max ==> r == value
    ensures value < min && min <= max ==> r == min
    ensures max < value ==> r == max
  {
    var low := if min > value then min else value;
    if max < low then max else low
  }

  /** Clamping twice is clamping once. */
  lemma ClampIdempotent(value: int, min: int, max: int)
    ensures Clamp(Clamp(value, min, max), min, max) == Clamp(value, min, max)
  {
  }

  lemma {:induction false} MulAtLeast(d: int, top: int)
    requires d >= 1 && top > 0
    ensures d * top >= top
  {
    if d > 1 {
      MulAtLeast(d - 1, top);
      assert d * top == (d - 1) * top + top;
    }
  }

  /** Adding the period does not change the remainder. */
  lemma AddPeriod(v: int, top: int)
    requires top > 0
    ensures (v + top) % top == v % top
  {
    var q, r := v / top, v % top;
    var q2, r2 := (v + top) / top, (v + top) % top;
    assert v == q * top + r && v + top == q2 * top + r2;
    var d := q + 1 - q2;
    assert d * top == r2 - r by {
      assert d * top == q * top + top - q2 * top;
    }
    if d >= 1 {
      MulAtLeast(d, top);
    } else if d <= -1 {
      MulAtLeast(-d, top);
    }
  }

  /**
   * `wrap`: the period is added while the value is negative, then the
   * remainder taken; the result is the value modulo `top`.
   */
  method Wrap(value: int, top: int) returns (r: int)
    requires top > 0
    ensures 0 <= r < top
    ensures r == value % top
  {
    var v := value;
    while v < 0
      invariant v % top == value % top
      decreases -v
    {
      AddPeriod(v, top);
      v := v + top;
    }
    r := v % top;
  }

  // ---------------------------------------------------------------------------
  // sliceTopGroup

  /** The order `comparer(a, b) = key(a) - key(b)` sorts by. */
  function KeyLe<T>(key: T -> int): (T, T) -> bool {
    (a: T, b: T) => key(a) <= key(b)
  }

  lemma KeyLeIsPreorder<T(!new)>(key: T -> int)
    ensures Total(KeyLe(key)) && Transitive(KeyLe(key))
  {
  }

  /** The loop stops before position `t`: the count is reached and `t` starts a new group. */
  predicate StopsAt<T>(s: seq<T>, count: int, key: T -> int, t: nat)
    requires t < |s|
  {
    t >= count && (t == 0 || key(s[t - 1]) != key(s[t]))
  }

  /** The first position from `i` on where the loop stops, or the length when it never does. */
  function TopGroupEnd<T>(s: seq<T>, count: int, key: T -> int, i: nat): (j: nat)
    requires i <= |s|
    ensures i <= j <= |s|
    ensures j < |s| ==> StopsAt(s, count, key, j)
    ensures forall t :: i <= t < j ==> !StopsAt(s, count, key, t)
    decreases |s| - i
  {
    if i == |s| then |s|
    else if StopsAt(s, count, key, i) then i
    else TopGroupEnd(s, count, key, i + 1)
  }

  /** What the loop of `sliceTopGroup` returns for the sorted items `s`. */
  function TopGroup<T>(s: seq<T>, count: int, key: T -> int): seq<T> {
    s[..TopGroupEnd(s, count, key, 0)]
  }

  /**
   * The slice is empty for no items or a count of zero, holds everything
   * when the count covers the items, and otherwise holds at least `count`
   * items; every item past the count ties with the one before it, and the
   * first item left out differs from the last one kept.
   */
  lemma TopGroupShape<T>(s: seq<T>, count: int, key: T -> int)
    ensures var g := TopGroup(s, count, key);
      && (s == [] || count <= 0 ==> g == [])
      && (count >= |s| ==> g == s)
      && (0 <= count <= |s| ==> count <= |g|)
      && (forall t :: count <= t < |g| && t > 0 ==> key(s[t - 1]) == key(s[t]))
      && (0 < |g| < |s| ==> key(s[|g| - 1]) != key(s[|g|]))
  {
    var j := TopGroupEnd(s, count, key, 0);
    if s != [] && count <= 0 {
      assert StopsAt(s, count, key, 0);
    }
    forall t | count <= t < j && t > 0 ensures key(s[t - 1]) == key(s[t]) {
      assert !StopsAt(s, count, key, t);
    }
    assert s[..|s|] == s;
  }

  /** The number of items of `s` whose key is below `k`. */
  function CountBelow<T>(s: seq<T>, k: int, key: T -> int): (n: nat)
    ensures n <= |s|
  {
    if s == [] then 0 else (if key(s[0]) < k then 1 else 0) + CountBelow(s[1..], k, key)
  }

  /** When the items below `k` are exactly the first `p`, there are `p` of them. */
  lemma {:induction false} CountBelowSplit<T>(s: seq<T>, k: int, key: T -> int, p: nat)
    requires p <= |s|
    requires forall t :: 0 <= t < p ==> key(s[t]) < k
    requires forall t :: p <= t < |s| ==> key(s[t]) >= k
    ensures CountBelow(s, k, key) == p
  {
    if s != [] {
      CountBelowSplit(s[1..], k, key, if p > 0 then p - 1 else 0);
    }
  }

  lemma {:induction false} CountBelowAppend<T>(a: seq<T>, b: seq<T>, k: int, key: T -> int)
    ensures CountBelow(a + b, k, key) == CountBelow(a, k, key) + CountBelow(b, k, key)
  {
    if a == [] {
      assert a + b == b;
    } else {
      assert (a + b)[0] == a[0];
      assert (a + b)[1..] == a[1..] + b;
      CountBelowAppend(a[1..], b, k, key);
    }
  }

  lemma {:induction false} CountBelowInsert<T>(x: T, s: seq<T>, k: int, key: T -> int)
    ensures CountBelow(InsertSorted(x, s, KeyLe(key)), k, key) == CountBelow(s, k, key) + CountBelow([x], k, key)
  {
    if s != [] && KeyLe(key)(s[0], x) {
      CountBelowInsert(x, s[1..], k, key);
      assert ([s[0]] + InsertSorted(x, s[1..], KeyLe(key)))[1..] == InsertSorted(x, s[1..], KeyLe(key));
    } else {
      CountBelowAppend([x], s, k, key);
    }
  }

  /** Sorting does not change how many items are below a key. */
  lemma {:induction false} CountBelowSortBy<T>(s: seq<T>, k: int, key: T -> int)
    ensures CountBelow(SortBy(s, KeyLe(key)), k, key) == CountBelow(s, k, key)
  {
    if s != [] {
      var init := s[..|s| - 1];
      var x := s[|s| - 1];
      CountBelowSortBy(init, k, key);
      CountBelowInsert(x, SortBy(init, KeyLe(key)), k, key);
      assert s == init + [x];
      CountBelowAppend(init, [x], k, key);
    }
  }

  /** The first index of a sorted sequence whose key is at least `k`. */
  function FirstAtLeast<T>(s: seq<T>, k: int, key: T -> int, i: nat): (f: nat)
    requires i <= |s|
    ensures i <= f <= |s|
    ensures forall t :: i <= t < f ==> key(s[t]) < k
    ensures f < |s| ==> key(s[f]) >= k
    decreases |s| - i
  {
    if i == |s| || key(s[i]) >= k then i else FirstAtLeast(s, k, key, i + 1)
  }

  /**
   * Of sorted items, the top group holds exactly the items that fewer than
   * `count` items sort strictly before: which items are kept does not depend
   * on how ties are ordered.
   */
  lemma TopGroupMembers<T>(s: seq<T>, count: int, key: T -> int, x: T)
    requires SortedBy(s, KeyLe(key))
    ensures x in TopGroup(s, count, key) <==> x in s && CountBelow(s, key(x), key) < count
  {
    var j := TopGroupEnd(s, count, key, 0);
    if x in s {
      var p :| 0 <= p < |s| && s[p] == x;
      var f := FirstAtLeast(s, key(x), key, 0);
      assert f <= p;
      forall t | f <= t < |s| ensures key(s[t]) >= key(x) {
        if t > f {
          assert KeyLe(key)(s[f], s[t]);
        }
      }
      CountBelowSplit(s, key(x), key, f);
      // Inside the group of `x` the loop never stops.
      forall t | f < t <= p ensures key(s[t - 1]) == key(s[t]) {
        assert KeyLe(key)(s[t - 1], s[t]);
        if t < p {
          assert KeyLe(key)(s[t], s[p]);
        }
      }
      assert f >= count ==> StopsAt(s, count, key, f);
      if f < count {
        assert p < j;
        assert s[..j][p] == x;
      } else {
        assert j <= f;
        forall q | 0 <= q < j ensures s[q] != x {
          assert key(s[q]) < key(x);
        }
      }
    }
  }

  /** `items.sort(comparer)`: the array is reordered in place by a stable sort on the key. */
  method SortInPlace<T>(items: array<T>, key: T -> int)
    modifies items
    ensures items[..] == SortBy(old(items[..]), KeyLe(key))
  {
    var sorted := SortBy(items[..], KeyLe(key));
    assert |sorted| == items.Length;
    for k := 0 to items.Length
      invariant forall i :: 0 <= i < k ==> items[i] == sorted[i]
    {
      items[k] := sorted[k];
    }
    assert items[..] == sorted;
  }

  /**
   * `sliceTopGroup`: sorts the array in place by the comparer (modelled by a
   * stable sort) and returns its first items up to where the count is reached
   * and the next item starts a new group.
   */
  method SliceTopGroup<T>(items: array<T>, count: int, key: T -> int) returns (r: seq<T>)
    modifies items
    ensures items[..] == SortBy(old(items[..]), KeyLe(key))
    ensures r == TopGroup(items[..], count, key)
  {
    SortInPlace(items, key);
    ghost var sorted := items[..];
    var results: seq<T> := [];
    var index := 0;
    while index < items.Length
      invariant 0 <= index <= items.Length == |sorted|
      invariant results == sorted[..index]
      invariant forall t :: 0 <= t < index ==> !StopsAt(sorted, count, key, t)
      invariant items[..] == sorted
    {
      var item := items[index];
      assert item == sorted[index] && (index > 0 ==> items[index - 1] == sorted[index - 1]);
      if index >= count && (index == 0 || key(items[index - 1]) - key(item) != 0) {
        assert StopsAt(sorted, count, key, index);
        TopGroupEndIs(sorted, count, key, index);
        return results;
      }
      assert !StopsAt(sorted, count, key, index);
      index := index + 1;
      results := results + [item];
      assert sorted[..index] == sorted[..index - 1] + [item];
    }
    TopGroupEndIs(sorted, count, key, items.Length);
    r := items[..];
  }

  /** The loop stops at the first stopping position, or runs to the end. */
  lemma TopGroupEndIs<T>(s: seq<T>, count: int, key: T -> int, j: nat)
    requires j <= |s|
    requires forall t :: 0 <= t < j ==> !StopsAt(s, count, key, t)
    requires j < |s| ==> StopsAt(s, count, key, j)
    ensures TopGroup(s, count, key) == s[..j]
  {
    var e := TopGroupEnd(s, count, key, 0);
    assert e == j;
    assert s[..|s|] == s;
  }

  /**
   * Whatever order the items came in, the slice holds exactly the items that
   * fewer than `count` items have a key below.
   */
  lemma SliceTopGroupMembers<T(!new)>(items: seq<T>, count: int, key: T -> int, x: T)
    ensures x in TopGroup(SortBy(items, KeyLe(key)), count, key) <==> x in items && CountBelow(items, key(x), key) < count
  {
    var sorted := SortBy(items, KeyLe(key));
    KeyLeIsPreorder(key);
    SortBySorted(items, KeyLe(key));
    TopGroupMembers(sorted, count, key, x);
    CountBelowSortBy(items, key(x), key);
    assert x in sorted <==> x in items by {
      assert x in sorted <==> x in multiset(sorted);
      assert x in items <==> x in multiset(items);
    }
  }
}
