/** itertools.product of two axes, the building block of both sweeps: every
    pair, in lexicographic order, the second axis varying fastest. A product of
    more axes is a nested Cross. */
module Product {

  function Cross<A, B>(xs: seq<A>, ys: seq<B>): (r: seq<(A, B)>)
    ensures |r| == |xs| * |ys|
  {
    if |xs| == 0 then []
    else
      var row := seq(|ys|, j requires 0 <= j < |ys| => (xs[0], ys[j]));
      var rest := Cross(xs[1..], ys);
      assert |row + rest| == |ys| + (|xs| - 1) * |ys| == |xs| * |ys|;
      row + rest
  }

  /** The pair of xs[i] and ys[j] sits at position i * |ys| + j. */
  lemma {:induction false} CrossAt<A, B>(xs: seq<A>, ys: seq<B>, i: nat, j: nat)
    requires i < |xs| && j < |ys|
    ensures i * |ys| + j < |Cross(xs, ys)|
    ensures Cross(xs, ys)[i * |ys| + j] == (xs[i], ys[j])
  {
    var n := |ys|;
    if i > 0 {
      CrossAt(xs[1..], ys, i - 1, j);
      MulPred(i, n);
      MulPred(|xs|, n);
      var row := seq(n, j requires 0 <= j < n => (xs[0], ys[j]));
      assert Cross(xs, ys) == row + Cross(xs[1..], ys);
    } else {
      assert i * n == 0;
    }
  }

  lemma MulPred(i: nat, n: nat)
    requires i > 0
    ensures i * n == n + (i - 1) * n
  {
  }

  /** Three axes nested to the right: the mixed-radix position of (i, j, l). */
  lemma CrossAt3<A, B, C>(xs: seq<A>, ys: seq<B>, zs: seq<C>, i: nat, j: nat, l: nat) returns (k: nat)
    requires i < |xs| && j < |ys| && l < |zs|
    ensures k == i * (|ys| * |zs|) + (j * |zs| + l)
    ensures k < |Cross(xs, Cross(ys, zs))|
    ensures Cross(xs, Cross(ys, zs))[k] == (xs[i], (ys[j], zs[l]))
  {
    var c := Cross(ys, zs);
    CrossAt(ys, zs, j, l);
    var m := j * |zs| + l;
    CrossAt(xs, c, i, m);
    k := i * |c| + m;
  }

  /** Four axes nested to the right: the mixed-radix position of (h, i, j, l). */
  lemma CrossAt4<A, B, C, D>(ws: seq<D>, xs: seq<A>, ys: seq<B>, zs: seq<C>, h: nat, i: nat, j: nat, l: nat)
    returns (k: nat)
    requires h < |ws| && i < |xs| && j < |ys| && l < |zs|
    ensures k == h * (|xs| * (|ys| * |zs|)) + (i * (|ys| * |zs|) + (j * |zs| + l))
    ensures k < |Cross(ws, Cross(xs, Cross(ys, zs)))|
    ensures Cross(ws, Cross(xs, Cross(ys, zs)))[k] == (ws[h], (xs[i], (ys[j], zs[l])))
  {
    var m := CrossAt3(xs, ys, zs, i, j, l);
    var c := Cross(xs, Cross(ys, zs));
    assert |c| == |xs| * (|ys| * |zs|);
    assert m < |c|;
    CrossAt(ws, c, h, m);
    k := h * |c| + m;
  }

  /** Conversely, position k holds the pair of xs[k / |ys|] and ys[k % |ys|]:
      the enumeration is exactly the lexicographic one. */
  lemma CrossIndex<A, B>(xs: seq<A>, ys: seq<B>, k: nat)
    requires k < |xs| * |ys|
    ensures |ys| > 0 && k / |ys| < |xs|
    ensures Cross(xs, ys)[k] == (xs[k / |ys|], ys[k % |ys|])
  {
    var n := |ys|;
    PositiveFactor(|xs|, n, k);
    var i, j := k / n, k % n;
    assert k == i * n + j;
    QuotientBound(|xs|, n, k);
    CrossAt(xs, ys, i, j);
  }

  lemma PositiveFactor(m: nat, n: nat, k: nat)
    requires k < m * n
    ensures n > 0
  {
    assert m * 0 == 0;
  }

  lemma MulMonotone(a: nat, b: nat, n: nat)
    requires a <= b
    ensures a * n <= b * n
  {
  }

  lemma QuotientBound(m: nat, n: nat, k: nat)
    requires n > 0 && k < m * n
    ensures k / n < m
  {
    var i := k / n;
    assert i * n <= k;
    if m <= i {
      MulMonotone(m, i, n);
    }
  }

  /** A pair is enumerated exactly when each component is on its axis. */
  lemma CrossMembership<A, B>(xs: seq<A>, ys: seq<B>, p: (A, B))
    ensures p in Cross(xs, ys) <==> p.0 in xs && p.1 in ys
  {
    if p in Cross(xs, ys) {
      var k :| 0 <= k < |Cross(xs, ys)| && Cross(xs, ys)[k] == p;
      CrossIndex(xs, ys, k);
    }
    if p.0 in xs && p.1 in ys {
      var i :| 0 <= i < |xs| && xs[i] == p.0;
      var j :| 0 <= j < |ys| && ys[j] == p.1;
      CrossAt(xs, ys, i, j);
    }
  }
}
