/**
 * The site's zero padding of a number to a minimum width, as used for
 * dates and counters: the number's decimal text, with '0's put in front
 * until it is as long as asked.
 */
module Number {
  import opened Wrappers
  import opened Js

  /** `n` zeros. */
  function Zeros(n: nat): (z: string)
    ensures |z| == n && forall i :: 0 <= i < n ==> z[i] == '0'
  {
    if n == 0 then "" else "0" + Zeros(n - 1)
  }

  /**
   * `pad`: the decimal text of `number` with zeros in front, so that it is
   * at least `size` long; a text already that long comes back unchanged.
   */
  method Pad(number: int, size: int) returns (val: string)
    ensures var text := IntToString(number);
      && |val| == (if size > |text| then size else |text|)
      && val == Zeros(|val| - |text|) + text
  {
    val := IntToString(number);
    ghost var text := val;
    while |val| < size
      invariant |val| >= |text| && val == Zeros(|val| - |text|) + text
      invariant |val| > |text| ==> |val| <= size
      decreases size - |val|
    {
      val := "0" + val;
    }
  }

  /** Leading zeros do not change the number a string of digits denotes. */
  lemma {:induction false} ZerosAddNothing(n: nat, ds: string)
    requires AllDigits(ds)
    ensures AllDigits(Zeros(n) + ds) && DigitsValue(Zeros(n) + ds) == DigitsValue(ds)
    decreases |ds|
  {
    var s := Zeros(n) + ds;
    if ds == [] {
      assert s == Zeros(n);
      ZerosValue(n);
    } else {
      var init := ds[..|ds| - 1];
      assert s[..|s| - 1] == Zeros(n) + init;
      assert s[|s| - 1] == ds[|ds| - 1];
      ZerosAddNothing(n, init);
    }
  }

  lemma {:induction false} ZerosValue(n: nat)
    ensures AllDigits(Zeros(n)) && DigitsValue(Zeros(n)) == 0
  {
    if n > 0 {
      var z := Zeros(n);
      assert z[..n - 1] == Zeros(n - 1);
      ZerosValue(n - 1);
    }
  }

  /** A padded natural number reads back as itself. */
  lemma PaddedReadsBack(number: nat, n: nat)
    ensures ParseInt(Zeros(n) + NatToString(number)) == Some(number)
  {
    var ds := NatToString(number);
    ZerosAddNothing(n, ds);
    ParseIntOfDigits(Zeros(n) + ds);
  }
}
