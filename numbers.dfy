/** Values shared by the three demos of the statistics page: JavaScript numbers
    abstracted as exact reals, an optional value for inputs that may fail to
    parse, and the left-to-right sum that `reduce((a, b) => a + b, 0)` computes. */
module Numbers {

  /** The outcome of parsing a form field: `None` where parseInt/parseFloat give NaN. */
  datatype Option<+T> = None | Some(value: T)

  /** A JavaScript number as the demos produce it: a finite value, taken exactly, or NaN. */
  datatype Number = Finite(value: real) | NaN

  /** Sum of `s`, accumulated from the left starting at 0. */
  function Sum(s: seq<real>): real
  {
    if s == [] then 0.0 else Sum(s[..|s| - 1]) + s[|s| - 1]
  }

  /** Summing a constant sequence multiplies the constant by the length. */
  lemma {:induction false} SumConstant(s: seq<real>, c: real)
    requires forall i :: 0 <= i < |s| ==> s[i] == c
    ensures Sum(s) == |s| as real * c
  {
    if s != [] {
      var m := |s| - 1;
      SumConstant(s[..m], c);
    }
  }

  /** The elementwise sum u + v. */
  function Add(u: seq<real>, v: seq<real>): (w: seq<real>)
    requires |u| == |v|
    ensures |w| == |u|
    ensures forall i :: 0 <= i < |u| ==> w[i] == u[i] + v[i]
  {
    seq(|u|, i requires 0 <= i < |u| => u[i] + v[i])
  }

  /** The elementwise multiple k·v. */
  function Scale(k: real, v: seq<real>): (w: seq<real>)
    ensures |w| == |v|
    ensures forall i :: 0 <= i < |v| ==> w[i] == k * v[i]
  {
    seq(|v|, i requires 0 <= i < |v| => k * v[i])
  }

  lemma AddPrefix(u: seq<real>, v: seq<real>, m: nat)
    requires |u| == |v| && m <= |u|
    ensures Add(u, v)[..m] == Add(u[..m], v[..m])
  {
    forall i | 0 <= i < m ensures Add(u, v)[..m][i] == Add(u[..m], v[..m])[i] {
      assert u[..m][i] == u[i] && v[..m][i] == v[i];
    }
  }

  lemma ScalePrefix(k: real, v: seq<real>, m: nat)
    requires m <= |v|
    ensures Scale(k, v)[..m] == Scale(k, v[..m])
  {
    forall i | 0 <= i < m ensures Scale(k, v)[..m][i] == Scale(k, v[..m])[i] {
      assert v[..m][i] == v[i];
    }
  }

  /** The arithmetic of one step of SumAdd, over plain reals. */
  lemma AddStep(s: real, sp: real, wm: real, t: real, tp: real, vm: real, r: real, rp: real, um: real)
    requires s == sp + wm && t == tp + vm && r == rp + um && wm == um + vm && sp == rp + tp
    ensures s == r + t
  {
  }

  /** Summation is additive. */
  lemma {:induction false} SumAdd(u: seq<real>, v: seq<real>)
    requires |u| == |v|
    ensures Sum(Add(u, v)) == Sum(u) + Sum(v)
  {
    if v != [] {
      var m := |v| - 1;
      var w := Add(u, v);
      AddPrefix(u, v, m);
      SumAdd(u[..m], v[..m]);
      AddStep(Sum(w), Sum(w[..m]), w[m], Sum(v), Sum(v[..m]), v[m], Sum(u), Sum(u[..m]), u[m]);
    } else {
      assert Add(u, v) == [];
    }
  }

  /** The arithmetic of one step of SumScale, over plain reals. */
  lemma ScaleStep(s: real, sp: real, wm: real, t: real, tp: real, vm: real, k: real)
    requires s == sp + wm && t == tp + vm && wm == k * vm && sp == k * tp
    ensures s == k * t
  {
  }

  /** Summation is homogeneous. */
  lemma {:induction false} SumScale(k: real, v: seq<real>)
    ensures Sum(Scale(k, v)) == k * Sum(v)
  {
    if v != [] {
      var m := |v| - 1;
      var w := Scale(k, v);
      ScalePrefix(k, v, m);
      SumScale(k, v[..m]);
      ScaleStep(Sum(w), Sum(w[..m]), w[m], Sum(v), Sum(v[..m]), v[m], k);
    } else {
      assert Scale(k, v) == [];
    }
  }

  /** A sum of non-negative terms is non-negative, and zero only when every term is. */
  lemma {:induction false} SumNonNegative(s: seq<real>)
    requires forall i :: 0 <= i < |s| ==> s[i] >= 0.0
    ensures Sum(s) >= 0.0
    ensures Sum(s) == 0.0 ==> forall i :: 0 <= i < |s| ==> s[i] == 0.0
  {
    if s != [] {
      var m := |s| - 1;
      assert forall i :: 0 <= i < m ==> s[..m][i] == s[i];
      SumNonNegative(s[..m]);
    }
  }

  /** Summation of a concatenation adds the two sums. */
  lemma {:induction false} SumConcat(a: seq<real>, b: seq<real>)
    ensures Sum(a + b) == Sum(a) + Sum(b)
  {
    if b == [] {
      assert a + b == a;
    } else {
      var m := |b| - 1;
      assert (a + b)[..|a + b| - 1] == a + b[..m];
      SumConcat(a, b[..m]);
    }
  }

  /** Over non-negative terms, a prefix sums to at most the whole, and each term is at most the whole. */
  lemma PrefixAtMostSum(s: seq<real>, j: nat)
    requires j <= |s|
    requires forall i :: 0 <= i < |s| ==> s[i] >= 0.0
    ensures Sum(s[..j]) <= Sum(s)
    ensures forall i :: 0 <= i < |s| ==> s[i] <= Sum(s)
  {
    assert s == s[..j] + s[j..];
    SumConcat(s[..j], s[j..]);
    SumNonNegative(s[j..]);
    forall i | 0 <= i < |s| ensures s[i] <= Sum(s) {
      TermAtMostSum(s, i);
    }
  }

  lemma TermAtMostSum(s: seq<real>, i: nat)
    requires i < |s|
    requires forall i :: 0 <= i < |s| ==> s[i] >= 0.0
    ensures s[i] <= Sum(s)
  {
    assert s == s[..i + 1] + s[i + 1..];
    SumConcat(s[..i + 1], s[i + 1..]);
    SumNonNegative(s[i + 1..]);
    assert s[..i + 1][..i] == s[..i];
    SumNonNegative(s[..i]);
  }
}
