// Small shared vocabulary: optional values and finite sums.
module Common {

  datatype Option<+T> = None | Some(value: T)

  function Min(a: real, b: real): real {
    if a <= b then a else b
  }

  function Abs(x: real): real {
    if x < 0.0 then -x else x
  }

  /** The running total a Python `sum` builds: left to right, the last element added last. */
  function Sum(s: seq<real>): real {
    if s == [] then 0.0 else Sum(s[..|s| - 1]) + s[|s| - 1]
  }

  function SumInt(s: seq<int>): int {
    if s == [] then 0 else SumInt(s[..|s| - 1]) + s[|s| - 1]
  }

  lemma {:induction false} SumSnoc(s: seq<real>, x: real)
    ensures Sum(s + [x]) == Sum(s) + x
  {
    assert (s + [x])[..|s|] == s;
  }

  lemma {:induction false} SumIntSnoc(s: seq<int>, x: int)
    ensures SumInt(s + [x]) == SumInt(s) + x
  {
    assert (s + [x])[..|s|] == s;
  }

  lemma {:induction false} SumIntAppend(s: seq<int>, t: seq<int>)
    ensures SumInt(s + t) == SumInt(s) + SumInt(t)
  {
    if t == [] {
      assert s + t == s;
    } else {
      var u := t[..|t| - 1];
      assert s + t == (s + u) + [t[|t| - 1]];
      SumIntSnoc(s + u, t[|t| - 1]);
      SumIntAppend(s, u);
    }
  }

  /** Changing one summand changes the sum by the same amount. */
  lemma {:induction false} SumUpdate(s: seq<real>, i: nat, x: real)
    requires i < |s|
    ensures Sum(s[i := x]) == Sum(s) - s[i] + x
  {
    var n := |s| - 1;
    if i == n {
      assert s[i := x][..n] == s[..n];
    } else {
      assert s[i := x][..n] == s[..n][i := x];
      SumUpdate(s[..n], i, x);
    }
  }

  lemma {:induction false} SumIntUpdate(s: seq<int>, i: nat, x: int)
    requires i < |s|
    ensures SumInt(s[i := x]) == SumInt(s) - s[i] + x
  {
    var n := |s| - 1;
    if i == n {
      assert s[i := x][..n] == s[..n];
    } else {
      assert s[i := x][..n] == s[..n][i := x];
      SumIntUpdate(s[..n], i, x);
    }
  }

  /** The sum of pointwise linear combinations. */
  lemma {:induction false} SumLinear(a: seq<real>, b: seq<real>, c: real, r: seq<real>)
    requires |a| == |b| == |r|
    requires forall i :: 0 <= i < |r| ==> r[i] == a[i] + c * b[i]
    ensures Sum(r) == Sum(a) + c * Sum(b)
  {
    if r != [] {
      var n := |r| - 1;
      SumLinear(a[..n], b[..n], c, r[..n]);
    }
  }

  lemma {:induction false} SumScaled(a: seq<real>, c: real, r: seq<real>)
    requires |a| == |r|
    requires forall i :: 0 <= i < |r| ==> r[i] == a[i] * c
    ensures Sum(r) == Sum(a) * c
  {
    if r != [] {
      var n := |r| - 1;
      SumScaled(a[..n], c, r[..n]);
    }
  }

  lemma {:induction false} SumConstant(s: seq<real>, c: real)
    requires forall i :: 0 <= i < |s| ==> s[i] == c
    ensures Sum(s) == |s| as real * c
  {
    if s != [] {
      SumConstant(s[..|s| - 1], c);
    }
  }

  lemma {:induction false} SumNonNegative(s: seq<real>)
    requires forall i :: 0 <= i < |s| ==> s[i] >= 0.0
    ensures Sum(s) >= 0.0
    ensures forall i :: 0 <= i < |s| ==> s[i] <= Sum(s)
  {
    if s != [] {
      SumNonNegative(s[..|s| - 1]);
      forall i | 0 <= i < |s| ensures s[i] <= Sum(s) {
        if i < |s| - 1 { assert s[..|s| - 1][i] == s[i]; }
      }
    }
  }

  /** Whatever the sum is, some summand reaches the mean. */
  lemma {:induction false} SumAtMost(s: seq<real>, bound: real)
    requires forall i :: 0 <= i < |s| ==> s[i] <= bound
    ensures Sum(s) <= |s| as real * bound
  {
    if s != [] {
      SumAtMost(s[..|s| - 1], bound);
    }
  }
}
