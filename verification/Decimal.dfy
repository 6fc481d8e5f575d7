/** Decimal notation of the natural numbers, most significant digit first. */
module Decimal {
  newtype Digit = d: int | 0 <= d < 10

  function Value(ds: seq<Digit>): nat {
    if ds == [] then 0 else 10 * Value(ds[..|ds| - 1]) + ds[|ds| - 1] as nat
  }

  /** The shortest notation of n: no leading zero except for 0 itself. */
  function Digits(n: nat): (ds: seq<Digit>)
    ensures |ds| > 0 && Value(ds) == n
    ensures |ds| > 1 ==> ds[0] != 0
  {
    if n < 10 then
      var d := n as Digit;
      assert [d][..0] == [];
      [d]
    else
      var d := (n % 10) as Digit;
      var hi := Digits(n / 10);
      assert (hi + [d])[..|hi|] == hi;
      hi + [d]
  }

  function Zeros(k: nat): (ds: seq<Digit>)
    ensures |ds| == k
  {
    if k == 0 then [] else Zeros(k - 1) + [0]
  }
}
