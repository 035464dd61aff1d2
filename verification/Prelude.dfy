// Small datatypes and sequence facts shared by every module.

module Prelude {

  datatype Option<+T> = None | Some(value: T) {
    function GetOr(default: T): T {
      match this
      case Some(v) => v
      case None => default
    }

    // The `a ?? b` of the source.
    function OrElse(other: Option<T>): Option<T> {
      if Some? then this else other
    }
  }

  datatype Result<+T, +E> = Ok(value: T) | Err(error: E)

  ghost predicate NoDup<T>(s: seq<T>) {
    forall i, j :: 0 <= i < j < |s| ==> s[i] != s[j]
  }

  function Min(a: int, b: int): int { if a < b then a else b }

  // The last `n` elements of `s`, or all of them when there are fewer.
  function LastN<T>(s: seq<T>, n: nat): seq<T> {
    if |s| <= n then s else s[|s| - n..]
  }

  lemma SplitLast<T>(a: seq<T>, b: seq<T>)
    requires b != []
    ensures b == b[..|b| - 1] + [b[|b| - 1]]
    ensures a + b == (a + b[..|b| - 1]) + [b[|b| - 1]]
  {}

  lemma TakeSnoc<T>(s: seq<T>, n: nat)
    requires n < |s|
    ensures s[..n + 1] == s[..n] + [s[n]]
  {}

  lemma Associates<T>(a: seq<T>, b: seq<T>, c: seq<T>)
    ensures (a + b) + c == a + (b + c)
  {}

  // `s` without the elements equal to `x`.
  function Without<T(==,!new)>(s: seq<T>, x: T): (r: seq<T>)
    ensures forall y :: y in r <==> y in s && y != x
    ensures x !in s ==> r == s
    ensures |r| <= |s|
  {
    if s == [] then []
    else if s[|s| - 1] == x then Without(s[..|s| - 1], x)
    else Without(s[..|s| - 1], x) + [s[|s| - 1]]
  }

  lemma {:induction false} WithoutNoDup<T(!new)>(s: seq<T>, x: T)
    requires NoDup(s)
    ensures NoDup(Without(s, x))
    ensures x in s ==> |Without(s, x)| == |s| - 1
  {
    if s != [] {
      WithoutNoDup(s[..|s| - 1], x);
      assert s[|s| - 1] !in s[..|s| - 1];
      assert s == s[..|s| - 1] + [s[|s| - 1]];
    }
  }

  lemma WithoutSnoc<T(!new)>(s: seq<T>, e: T, x: T)
    ensures Without(s + [e], x) == if e == x then Without(s, x) else Without(s, x) + [e]
  {
    assert (s + [e])[..|s|] == s;
  }

  lemma {:induction false} WithoutAppend<T(!new)>(a: seq<T>, b: seq<T>, x: T)
    ensures Without(a + b, x) == Without(a, x) + Without(b, x)
  {
    if b == [] {
      assert a + b == a;
    } else {
      hide Without;
      var p, e := b[..|b| - 1], b[|b| - 1];
      SplitLast(a, b);
      WithoutAppend(a, p, x);
      WithoutSnoc(a + p, e, x);
      WithoutSnoc(p, e, x);
      Associates(Without(a, x), Without(p, x), [e]);
    }
  }

  function Filter<T(!new)>(p: T -> bool, s: seq<T>): (r: seq<T>)
    ensures forall y :: y in r <==> y in s && p(y)
    ensures |r| <= |s|
  {
    if s == [] then []
    else if p(s[|s| - 1]) then Filter(p, s[..|s| - 1]) + [s[|s| - 1]]
    else Filter(p, s[..|s| - 1])
  }

  lemma {:induction false} FilterNoDup<T(!new)>(p: T -> bool, s: seq<T>)
    requires NoDup(s)
    ensures NoDup(Filter(p, s))
  {
    if s != [] {
      FilterNoDup(p, s[..|s| - 1]);
      assert s[|s| - 1] !in s[..|s| - 1];
      assert s == s[..|s| - 1] + [s[|s| - 1]];
    }
  }

  lemma FilterTake<T(!new)>(p: T -> bool, s: seq<T>, k: nat)
    requires k < |s|
    ensures Filter(p, s[..k + 1]) == if p(s[k]) then Filter(p, s[..k]) + [s[k]] else Filter(p, s[..k])
  {
    assert s[..k + 1][..k] == s[..k];
  }

  lemma FilterSnoc<T(!new)>(p: T -> bool, s: seq<T>, e: T)
    ensures Filter(p, s + [e]) == if p(e) then Filter(p, s) + [e] else Filter(p, s)
  {
    assert (s + [e])[..|s|] == s;
  }

  lemma {:induction false} FilterAppend<T(!new)>(p: T -> bool, a: seq<T>, b: seq<T>)
    ensures Filter(p, a + b) == Filter(p, a) + Filter(p, b)
  {
    if b == [] {
      assert a + b == a;
    } else {
      hide Filter;
      var q, e := b[..|b| - 1], b[|b| - 1];
      SplitLast(a, b);
      FilterAppend(p, a, q);
      FilterSnoc(p, a + q, e);
      FilterSnoc(p, q, e);
      Associates(Filter(p, a), Filter(p, q), [e]);
    }
  }

  // What is filtered stands in the order it had.
  lemma {:induction false} FilterKeepsOrder<T(!new)>(p: T -> bool, s: seq<T>, i: nat, j: nat) returns (k: nat, l: nat)
    requires i < j < |Filter(p, s)|
    ensures k < l < |s| && s[k] == Filter(p, s)[i] && s[l] == Filter(p, s)[j]
  {
    var q, x := s[..|s| - 1], s[|s| - 1];
    SplitLast([], s);
    FilterSnoc(p, q, x);
    if j < |Filter(p, q)| {
      k, l := FilterKeepsOrder(p, q, i, j);
    } else {
      var y := Filter(p, q)[i];
      assert y in Filter(p, q) && y in q;
      k :| 0 <= k < |q| && q[k] == y;
      l := |q|;
    }
  }

  predicate NoColon(s: string) { forall i :: 0 <= i < |s| ==> s[i] != ':' }

  lemma {:induction false} FirstColon(a: string, x: string, b: string, y: string)
    requires NoColon(a) && NoColon(b) && a + ":" + x == b + ":" + y
    ensures a == b && x == y
  {
    var s := a + ":" + x;
    assert s[|a|] == ':' && s[|b|] == ':';
    assert forall i :: 0 <= i < |a| ==> s[i] == a[i];
    assert forall i :: 0 <= i < |b| ==> s[i] == b[i];
    assert |a| == |b|;
    assert a == s[..|a|] == b;
    assert x == s[|a| + 1..] == y;
  }

  lemma {:induction false} LastColon(x: string, a: string, y: string, b: string)
    requires NoColon(a) && NoColon(b) && x + ":" + a == y + ":" + b
    ensures x == y && a == b
  {
    var s := x + ":" + a;
    assert s[|x|] == ':' && s[|y|] == ':';
    assert forall i :: |x| < i < |s| ==> s[i] == a[i - |x| - 1];
    assert forall i :: |y| < i < |s| ==> s[i] == b[i - |y| - 1];
    assert |x| == |y|;
    assert x == s[..|x|] == y;
    assert a == s[|x| + 1..] == b;
  }
}

// The insertion-ordered `Map` of JavaScript: setting a present key keeps its
// place, setting a new one appends it, deleting closes the gap.
module OrderedMaps {
  import opened Prelude

  datatype RawMap<K(!new), V> = RawMap(keys: seq<K>, at: map<K, V>) {
    ghost predicate Valid() {
      NoDup(keys) && forall k :: k in keys <==> k in at
    }
  }

  type OrderedMap<K(!new), V> = m: RawMap<K, V> | m.Valid() witness RawMap([], map[])

  function Empty<K(==,!new), V>(): OrderedMap<K, V> { RawMap([], map[]) }

  function Set<K(==,!new), V>(m: OrderedMap<K, V>, k: K, v: V): (r: OrderedMap<K, V>)
    ensures r.at == m.at[k := v]
    ensures r.keys == if k in m.at then m.keys else m.keys + [k]
  {
    if k in m.at then RawMap(m.keys, m.at[k := v]) else RawMap(m.keys + [k], m.at[k := v])
  }

  function Delete<K(==,!new), V>(m: OrderedMap<K, V>, k: K): (r: OrderedMap<K, V>)
    ensures r.at == m.at - {k}
    ensures r.keys == Without(m.keys, k)
  {
    WithoutNoDup(m.keys, k);
    RawMap(Without(m.keys, k), m.at - {k})
  }

  function Find<K(==,!new), V>(m: OrderedMap<K, V>, k: K): Option<V> {
    if k in m.at then Some(m.at[k]) else None
  }

  function Values<K(==,!new), V>(m: OrderedMap<K, V>): (r: seq<V>)
    ensures |r| == |m.keys|
    ensures forall i :: 0 <= i < |r| ==> r[i] == m.at[m.keys[i]]
  {
    seq(|m.keys|, i requires 0 <= i < |m.keys| => m.at[m.keys[i]])
  }
}

// The two engines a session can run on.
module Engines {
  datatype Engine = Claude | Codex

  function EngineText(e: Engine): string { if e == Claude then "claude" else "codex" }
}
