/**
 * A JavaScript `Record<string, V>` as the source uses it: string keys in
 * insertion order (the order `Object.entries` and `Object.values` report),
 * where assigning to a present key replaces its value in place and assigning
 * to an absent key appends it.
 */
module Records {
  import opened Wrappers

  type Record<V> = seq<(string, V)>

  function Keys<V>(r: Record<V>): (ks: seq<string>)
    ensures |ks| == |r|
    ensures forall i :: 0 <= i < |r| ==> ks[i] == r[i].0
  {
    seq(|r|, i requires 0 <= i < |r| => r[i].0)
  }

  function Values<V>(r: Record<V>): (vs: seq<V>)
    ensures |vs| == |r|
    ensures forall i :: 0 <= i < |r| ==> vs[i] == r[i].1
  {
    seq(|r|, i requires 0 <= i < |r| => r[i].1)
  }

  /** No key occurs twice, as in every JavaScript object. */
  predicate UniqueKeys<V>(r: Record<V>) {
    forall i, j :: 0 <= i < j < |r| ==> r[i].0 != r[j].0
  }

  /** `r[k]`, or None when `k in r` is false. */
  function Get<V>(r: Record<V>, k: string): (v: Option<V>)
    ensures v.None? <==> k !in Keys(r)
    ensures v.Some? ==> exists i :: 0 <= i < |r| && r[i] == (k, v.value)
  {
    if |r| == 0 then None
    else if r[0].0 == k then Some(r[0].1)
    else
      assert Keys(r) == [r[0].0] + Keys(r[1..]);
      var v := Get(r[1..], k);
      assert v.Some? ==> exists i :: 0 <= i < |r| && r[i] == (k, v.value) by {
        if v.Some? {
          var i :| 0 <= i < |r[1..]| && r[1..][i] == (k, v.value);
          assert r[i + 1] == (k, v.value);
        }
      }
      v
  }

  /** The assignment `r[k] = v`. */
  function Put<V>(r: Record<V>, k: string, v: V): (r': Record<V>)
    ensures k in Keys(r) ==> |r'| == |r|
    ensures k !in Keys(r) ==> r' == r + [(k, v)]
  {
    if k in Keys(r) then seq(|r|, i requires 0 <= i < |r| => if r[i].0 == k then (k, v) else r[i])
    else r + [(k, v)]
  }

  /** `if (!(k in r)) r[k] = []; r[k].push(x)`: the grouping idiom of the source. */
  function Append<X>(r: Record<seq<X>>, k: string, x: X): (r': Record<seq<X>>)
  {
    Put(r, k, Get(r, k).GetOr([]) + [x])
  }

  /** The values of a record of lists, concatenated (`Object.values(r).flatMap(v => v)`). */
  function Flatten<X>(vs: seq<seq<X>>): seq<X>
  {
    if |vs| == 0 then [] else Flatten(vs[..|vs| - 1]) + vs[|vs| - 1]
  }

  lemma GetUnique<V>(r: Record<V>, i: nat)
    requires UniqueKeys(r) && i < |r|
    ensures Get(r, r[i].0) == Some(r[i].1)
  {
    if i > 0 {
      assert r[1..][i - 1] == r[i];
      GetUnique(r[1..], i - 1);
    }
  }

  /** After `r[k] = v`, reading `k` yields `v` and every other key reads as before. */
  lemma {:induction false} PutGet<V>(r: Record<V>, k: string, v: V, k': string)
    requires UniqueKeys(r)
    ensures UniqueKeys(Put(r, k, v))
    ensures Get(Put(r, k, v), k') == if k' == k then Some(v) else Get(r, k')
    ensures Keys(Put(r, k, v)) == if k in Keys(r) then Keys(r) else Keys(r) + [k]
  {
    if k in Keys(r) {
      PutPresent(r, k, v, k');
    } else {
      PutFresh(r, k, v, k');
    }
  }

  lemma PutPresent<V>(r: Record<V>, k: string, v: V, k': string)
    requires UniqueKeys(r) && k in Keys(r)
    ensures UniqueKeys(Put(r, k, v))
    ensures Get(Put(r, k, v), k') == if k' == k then Some(v) else Get(r, k')
    ensures Keys(Put(r, k, v)) == Keys(r)
  {
    var r' := Put(r, k, v);
    SameKeys(r, r');
    var i :| 0 <= i < |r| && r[i].0 == k;
    assert r'[i] == (k, v);
    GetUnique(r', i);
    if k' != k && k' in Keys(r) {
      var j :| 0 <= j < |r| && r[j].0 == k';
      assert r'[j] == r[j];
      GetUnique(r, j);
      GetUnique(r', j);
    }
  }

  lemma SameKeys<V>(r: Record<V>, r': Record<V>)
    requires |r'| == |r| && forall i :: 0 <= i < |r| ==> r'[i].0 == r[i].0
    ensures Keys(r') == Keys(r)
    ensures UniqueKeys(r) ==> UniqueKeys(r')
  {
  }

  lemma PutFresh<V>(r: Record<V>, k: string, v: V, k': string)
    requires UniqueKeys(r) && k !in Keys(r)
    ensures UniqueKeys(Put(r, k, v))
    ensures Get(Put(r, k, v), k') == if k' == k then Some(v) else Get(r, k')
    ensures Keys(Put(r, k, v)) == Keys(r) + [k]
  {
    var r' := r + [(k, v)];
    assert Put(r, k, v) == r';
    assert forall i :: 0 <= i < |r| ==> r[i].0 != k by {
      forall i | 0 <= i < |r| ensures r[i].0 != k { assert Keys(r)[i] == r[i].0; }
    }
    assert Keys(r') == Keys(r) + [k];
    GetUnique(r', |r|);
    if k' != k && k' in Keys(r) {
      var j :| 0 <= j < |r| && r[j].0 == k';
      assert r'[j] == r[j];
      GetUnique(r, j);
      GetUnique(r', j);
    }
  }

  lemma FlattenAppend<X>(vs: seq<seq<X>>, w: seq<X>)
    ensures Flatten(vs + [w]) == Flatten(vs) + w
  {
    assert (vs + [w])[..|vs|] == vs;
  }

  lemma AddBoth<X>(a: multiset<X>, b: multiset<X>, c: multiset<X>, d: multiset<X>, e: multiset<X>)
    requires a + b == c + d
    ensures a + e + b == c + e + d
  {
    forall x ensures (a + e + b)[x] == (c + e + d)[x] {
      assert (a + b)[x] == (c + d)[x];
    }
  }

  lemma Cancel<X>(a: multiset<X>, p: multiset<X>, b: multiset<X>)
    requires a + p == b + p
    ensures a == b
  {
    forall x ensures a[x] == b[x] {
      assert (a + p)[x] == (b + p)[x];
    }
  }

  lemma {:induction false} FlattenMultiset<X>(vs: seq<seq<X>>, i: nat, w: seq<X>)
    requires i < |vs|
    ensures multiset(Flatten(vs[i := w])) + multiset(vs[i]) == multiset(Flatten(vs)) + multiset(w)
  {
    var n := |vs| - 1;
    var vs' := vs[i := w];
    assert Flatten(vs) == Flatten(vs[..n]) + vs[n];
    assert Flatten(vs') == Flatten(vs'[..n]) + vs'[n];
    if i == n {
      assert vs'[..n] == vs[..n];
    } else {
      assert vs'[..n] == vs[..n][i := w];
      FlattenMultiset(vs[..n], i, w);
      var a2, a, b, c := multiset(Flatten(vs'[..n])), multiset(Flatten(vs[..n])), multiset(vs[i]), multiset(vs[n]);
      assert a2 + b == a + multiset(w);
      assert multiset(Flatten(vs')) == a2 + c;
      assert multiset(Flatten(vs)) == a + c;
      AddBoth(a2, b, a, multiset(w), c);
    }
  }

  /**
   * Grouping keeps every element: appending `x` under any key adds exactly `x`
   * to the concatenation of the groups, and keys stay unique.
   */
  lemma PutValues<V>(r: Record<V>, k: string, v: V, i: nat)
    requires UniqueKeys(r) && i < |r| && r[i].0 == k
    ensures Values(Put(r, k, v)) == Values(r)[i := v]
  {
    assert k in Keys(r);
    var r' := Put(r, k, v);
    forall j | 0 <= j < |r| ensures Values(r')[j] == Values(r)[i := v][j] {
      if j != i {
        assert r[j].0 != k;
      }
    }
  }

  lemma ValuesSnoc<V>(r: Record<V>, e: (string, V))
    ensures Values(r + [e]) == Values(r) + [e.1]
  {
    var a, b := Values(r + [e]), Values(r) + [e.1];
    assert |a| == |b|;
    forall j | 0 <= j < |a| ensures a[j] == b[j] {
      assert (r + [e])[j] == if j < |r| then r[j] else e;
    }
  }

  lemma AppendMultiset<X>(r: Record<seq<X>>, k: string, x: X)
    requires UniqueKeys(r)
    ensures UniqueKeys(Append(r, k, x))
    ensures multiset(Flatten(Values(Append(r, k, x)))) == multiset(Flatten(Values(r))) + multiset{x}
  {
    PutGet(r, k, Get(r, k).GetOr([]) + [x], k);
    if k in Keys(r) {
      var i :| 0 <= i < |r| && r[i].0 == k;
      AppendExisting(r, k, x, i);
    } else {
      AppendFresh(r, k, x);
    }
  }

  lemma AppendExisting<X>(r: Record<seq<X>>, k: string, x: X, i: nat)
    requires UniqueKeys(r) && i < |r| && r[i].0 == k
    ensures multiset(Flatten(Values(Append(r, k, x)))) == multiset(Flatten(Values(r))) + multiset{x}
  {
    GetUnique(r, i);
    var prev := r[i].1;
    var w := prev + [x];
    assert Append(r, k, x) == Put(r, k, w);
    PutValues(r, k, w, i);
    FlattenMultiset(Values(r), i, w);
    assert multiset(w) == multiset(prev) + multiset{x};
    Cancel(multiset(Flatten(Values(Append(r, k, x)))), multiset(prev), multiset(Flatten(Values(r))) + multiset{x});
  }

  lemma AppendFresh<X>(r: Record<seq<X>>, k: string, x: X)
    requires k !in Keys(r)
    ensures multiset(Flatten(Values(Append(r, k, x)))) == multiset(Flatten(Values(r))) + multiset{x}
  {
    assert Get(r, k).GetOr([]) + [x] == [x];
    assert Append(r, k, x) == r + [(k, [x])];
    ValuesSnoc(r, (k, [x]));
    FlattenAppend(Values(r), [x]);
  }

  /** `xs.map(f)`. */
  function MapSeq<X, Y>(f: X --> Y, xs: seq<X>): (ys: seq<Y>)
    requires forall x :: x in xs ==> f.requires(x)
    ensures |ys| == |xs|
    ensures forall i :: 0 <= i < |xs| ==> ys[i] == f(xs[i])
  {
    seq(|xs|, i requires 0 <= i < |xs| => f(xs[i]))
  }

  lemma MapConcat<X, Y>(f: X --> Y, xs: seq<X>, ys: seq<X>)
    requires forall x :: x in xs + ys ==> f.requires(x)
    ensures MapSeq(f, xs + ys) == MapSeq(f, xs) + MapSeq(f, ys)
  {
    var a, b := MapSeq(f, xs + ys), MapSeq(f, xs) + MapSeq(f, ys);
    forall i | 0 <= i < |a| ensures a[i] == b[i] {
      if i >= |xs| { assert (xs + ys)[i] == ys[i - |xs|]; }
    }
  }

  /** Reordering a list reorders its image the same way. */
  lemma {:induction false} MapMultiset<X, Y>(f: X --> Y, xs: seq<X>, ys: seq<X>)
    requires multiset(xs) == multiset(ys)
    requires forall x :: x in xs ==> f.requires(x)
    requires forall y :: y in ys ==> f.requires(y)
    ensures multiset(MapSeq(f, xs)) == multiset(MapSeq(f, ys))
    decreases |xs|
  {
    if |xs| == 0 {
      assert |multiset(ys)| == 0;
    } else {
      var n := |xs| - 1;
      var x := xs[n];
      assert xs == xs[..n] + [x];
      assert x in multiset(ys);
      var j :| 0 <= j < |ys| && ys[j] == x;
      var l, r := ys[..j], ys[j + 1..];
      assert ys == l + [x] + r;
      assert multiset(xs[..n]) + multiset{x} == multiset(l + r) + multiset{x};
      Cancel(multiset(xs[..n]), multiset{x}, multiset(l + r));
      MapMultiset(f, xs[..n], l + r);
      MapConcat(f, xs[..n], [x]);
      MapConcat(f, l, r);
      MapConcat(f, l + [x], r);
      MapConcat(f, l, [x]);
      assert MapSeq(f, [x]) == [f(x)];
      AddBoth(multiset(MapSeq(f, l)), multiset(MapSeq(f, r)), multiset(MapSeq(f, l)), multiset(MapSeq(f, r)),
              multiset{f(x)});
    }
  }
}
