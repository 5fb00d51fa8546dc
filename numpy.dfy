/** The few NumPy reductions the simulator relies on: `np.sum`, `np.argmin`
    and `np.argmax` over a one-dimensional vector of reals. */
module Numpy {

  /** `np.sum` of a vector (exact, over the reals). */
  function Sum(s: seq<real>): real
  {
    if s == [] then 0.0 else s[0] + Sum(s[1..])
  }

  /** Appending one element adds it to the sum. */
  lemma {:induction false} SumAppend(s: seq<real>, x: real)
    ensures Sum(s + [x]) == Sum(s) + x
  {
    if s != [] {
      assert (s + [x])[1..] == s[1..] + [x];
      SumAppend(s[1..], x);
    }
  }

  /** `np.argmin`: the FIRST index holding the smallest element. */
  function ArgMin(s: seq<real>): (k: nat)
    requires |s| > 0
    ensures k < |s|
    ensures forall j :: 0 <= j < |s| ==> s[k] <= s[j]
    ensures forall j :: 0 <= j < k ==> s[k] < s[j]
  {
    if |s| == 1 then 0
    else
      var k' := ArgMin(s[1..]);
      if s[0] <= s[1..][k'] then 0 else k' + 1
  }

  /** `np.argmax`: the FIRST index holding the largest element. */
  function ArgMax(s: seq<real>): (k: nat)
    requires |s| > 0
    ensures k < |s|
    ensures forall j :: 0 <= j < |s| ==> s[j] <= s[k]
    ensures forall j :: 0 <= j < k ==> s[j] < s[k]
  {
    if |s| == 1 then 0
    else
      var k' := ArgMax(s[1..]);
      if s[0] >= s[1..][k'] then 0 else k' + 1
  }
}
