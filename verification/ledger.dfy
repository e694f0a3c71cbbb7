/** The dictionaries the analytics build. A Python dict keeps its keys in first-insertion
    order, so a report keyed by category or month is an association list of (key, amount)
    pairs with distinct keys: `defaultdict(float)` updated with `d[k] += v` is Add,
    `d.get(k, 0)` is Get, `sum(d.values())` is Sum(Values(d)), and
    `sorted(d.items(), key=lambda x: x[1], reverse=True)` (a stable sort) is SortDesc. */
module Ledger {

  function Keys<K>(m: seq<(K, real)>): (ks: seq<K>)
    ensures |ks| == |m| && forall i :: 0 <= i < |m| ==> ks[i] == m[i].0
  {
    seq(|m|, i requires 0 <= i < |m| => m[i].0)
  }

  function Values<K>(m: seq<(K, real)>): (vs: seq<real>)
    ensures |vs| == |m| && forall i :: 0 <= i < |m| ==> vs[i] == m[i].1
  {
    seq(|m|, i requires 0 <= i < |m| => m[i].1)
  }

  lemma ValuesCons<K>(x: (K, real), m: seq<(K, real)>)
    ensures Values([x] + m) == [x.1] + Values(m)
  {
  }

  lemma KeysCons<K>(x: (K, real), m: seq<(K, real)>)
    ensures Keys([x] + m) == [x.0] + Keys(m)
  {
  }

  lemma ValuesSnoc<K>(m: seq<(K, real)>, x: (K, real))
    ensures Values(m + [x]) == Values(m) + [x.1]
    ensures Values(m + [x])[..|m|] == Values(m)
  {
  }

  lemma KeysConcat<K>(a: seq<(K, real)>, b: seq<(K, real)>)
    ensures Keys(a + b) == Keys(a) + Keys(b)
  {
  }

  lemma ValuesConcat<K>(a: seq<(K, real)>, b: seq<(K, real)>)
    ensures Values(a + b) == Values(a) + Values(b)
  {
  }

  predicate Distinct<K(==)>(ks: seq<K>) {
    forall i, j :: 0 <= i < j < |ks| ==> ks[i] != ks[j]
  }

  predicate AllPositive<K>(m: seq<(K, real)>) {
    forall i :: 0 <= i < |m| ==> m[i].1 > 0.0
  }

  predicate AllNonNegative(xs: seq<real>) {
    forall i :: 0 <= i < |xs| ==> xs[i] >= 0.0
  }

  /** `sum(xs)`, added left to right. */
  function Sum(xs: seq<real>): real {
    if xs == [] then 0.0 else Sum(xs[..|xs| - 1]) + xs[|xs| - 1]
  }

  lemma {:induction false} SumConcat(a: seq<real>, b: seq<real>)
    ensures Sum(a + b) == Sum(a) + Sum(b)
  {
    if b == [] {
      assert a + b == a;
    } else {
      var c := a + b;
      assert c[..|c| - 1] == a + b[..|b| - 1];
      assert c[|c| - 1] == b[|b| - 1];
      SumConcat(a, b[..|b| - 1]);
    }
  }

  lemma SumCons(x: real, xs: seq<real>)
    ensures Sum([x] + xs) == x + Sum(xs)
  {
    SumConcat([x], xs);
    assert [x][..0] == [];
  }

  /** A sum of non-negative numbers is non-negative, and it is positive as soon as one
      of them is. */
  lemma {:induction false} SumNonNegative(xs: seq<real>)
    requires AllNonNegative(xs)
    ensures Sum(xs) >= 0.0
    ensures (exists i :: 0 <= i < |xs| && xs[i] > 0.0) ==> Sum(xs) > 0.0
  {
    if xs != [] {
      var p := xs[..|xs| - 1];
      SumNonNegative(p);
      if exists i :: 0 <= i < |xs| && xs[i] > 0.0 {
        var i :| 0 <= i < |xs| && xs[i] > 0.0;
        if i < |xs| - 1 { assert p[i] > 0.0; }
      }
    }
  }

  /** The mean of the values, 0 when there are none. */
  function MeanValue<K>(m: seq<(K, real)>): real {
    if |m| > 0 then Sum(Values(m)) / (|m| as real) else 0.0
  }

  /** The mean times the number of entries is the total; the mean is positive exactly when
      the total is, and non-negative when the total is. */
  lemma MeanValueSpec<K>(m: seq<(K, real)>)
    ensures MeanValue(m) * (|m| as real) == Sum(Values(m))
    ensures MeanValue(m) > 0.0 <==> Sum(Values(m)) > 0.0
    ensures MeanValue(m) >= 0.0 <==> Sum(Values(m)) >= 0.0
  {
    if |m| > 0 {
      var n := |m| as real;
      var total := Sum(Values(m));
      assert (total / n) * n == total;
    } else {
      assert Values(m) == [];
    }
  }

  /** `d.get(k, default)`. */
  function Get<K(==)>(m: seq<(K, real)>, k: K, default: real := 0.0): real {
    if m == [] then default
    else if m[0].0 == k then m[0].1
    else Get(m[1..], k, default)
  }

  /** With distinct keys, Get finds the value stored beside each key. */
  lemma {:induction false} GetAt<K>(m: seq<(K, real)>, i: nat)
    requires Distinct(Keys(m)) && i < |m|
    ensures Get(m, m[i].0) == m[i].1
  {
    if i > 0 {
      assert Keys(m)[0] != Keys(m)[i];
      assert Distinct(Keys(m[1..])) by {
        forall a, b | 0 <= a < b < |m| - 1 ensures Keys(m[1..])[a] != Keys(m[1..])[b] {
          assert Keys(m)[a + 1] != Keys(m)[b + 1];
        }
      }
      GetAt(m[1..], i - 1);
    }
  }

  /** k is a key exactly when some entry stores it. */
  lemma KeyMember<K>(m: seq<(K, real)>, k: K)
    ensures k in Keys(m) <==> exists v :: (k, v) in m
  {
    if k in Keys(m) {
      var i :| 0 <= i < |m| && Keys(m)[i] == k;
      assert (k, m[i].1) == m[i];
      assert (k, m[i].1) in m;
    }
    if exists v :: (k, v) in m {
      var v :| (k, v) in m;
      var i :| 0 <= i < |m| && m[i] == (k, v);
      assert Keys(m)[i] == k;
    }
  }

  /** With distinct keys, an entry (k, v) is stored exactly when k is a key and v is what
      Get finds for it. */
  lemma MemberGet<K>(m: seq<(K, real)>, k: K, v: real)
    requires Distinct(Keys(m))
    ensures (k, v) in m <==> k in Keys(m) && v == Get(m, k)
  {
    if (k, v) in m {
      var i :| 0 <= i < |m| && m[i] == (k, v);
      GetAt(m, i);
      assert Keys(m)[i] == k;
    }
    if k in Keys(m) {
      var i :| 0 <= i < |m| && Keys(m)[i] == k;
      GetAt(m, i);
      assert m[i] in m;
    }
  }

  lemma {:induction false} GetAbsent<K>(m: seq<(K, real)>, k: K, default: real)
    requires k !in Keys(m)
    ensures Get(m, k, default) == default
  {
    if m != [] {
      assert Keys(m)[0] == m[0].0;
      assert k !in Keys(m[1..]) by {
        forall i | 0 <= i < |m| - 1 ensures Keys(m[1..])[i] != k { assert Keys(m)[i + 1] != k; }
      }
      GetAbsent(m[1..], k, default);
    }
  }

  /** `d[k] += v` on a `defaultdict(float)`: the value of an existing key grows by v in
      place; a new key is appended with value v. */
  function Add<K(==)>(m: seq<(K, real)>, k: K, v: real): seq<(K, real)> {
    if m == [] then [(k, v)]
    else if m[0].0 == k then [(k, m[0].1 + v)] + m[1..]
    else [m[0]] + Add(m[1..], k, v)
  }

  lemma {:induction false} AddKeys<K>(m: seq<(K, real)>, k: K, v: real)
    ensures Keys(Add(m, k, v)) == if k in Keys(m) then Keys(m) else Keys(m) + [k]
  {
    if m != [] {
      var rest := m[1..];
      assert m == [m[0]] + rest;
      KeysCons(m[0], rest);
      assert k in Keys(m) <==> m[0].0 == k || k in Keys(rest);
      if m[0].0 != k {
        AddKeys(rest, k, v);
        KeysCons(m[0], Add(rest, k, v));
      } else {
        KeysCons((k, m[0].1 + v), rest);
      }
    }
  }

  /** The values of an entry followed by a list add up to its value plus theirs. */
  lemma SumValuesCons<K>(x: (K, real), m: seq<(K, real)>)
    ensures Sum(Values([x] + m)) == x.1 + Sum(Values(m))
  {
    ValuesCons(x, m);
    SumCons(x.1, Values(m));
  }

  lemma {:induction false} AddSum<K>(m: seq<(K, real)>, k: K, v: real)
    ensures Sum(Values(Add(m, k, v))) == Sum(Values(m)) + v
  {
    var added := Add(m, k, v);
    if m == [] {
      SumValuesCons((k, v), []);
      assert added == [(k, v)] + [];
    } else {
      var rest := m[1..];
      assert m == [m[0]] + rest;
      SumValuesCons(m[0], rest);
      var before := Sum(Values(rest));
      assert Sum(Values(m)) == m[0].1 + before;
      if m[0].0 == k {
        assert added == [(k, m[0].1 + v)] + rest;
        SumValuesCons((k, m[0].1 + v), rest);
        assert Sum(Values(added)) == m[0].1 + v + before;
      } else {
        var r := Add(rest, k, v);
        AddSum(rest, k, v);
        assert added == [m[0]] + r;
        SumValuesCons(m[0], r);
        assert Sum(Values(added)) == m[0].1 + (before + v);
      }
    }
  }

  lemma {:induction false} AddGet<K>(m: seq<(K, real)>, k: K, v: real, j: K)
    ensures Get(Add(m, k, v), j) == Get(m, j) + (if j == k then v else 0.0)
  {
    if m != [] && m[0].0 != k {
      AddGet(m[1..], k, v, j);
    }
  }

  lemma {:induction false} AddPositive<K>(m: seq<(K, real)>, k: K, v: real)
    requires AllPositive(m) && v > 0.0
    ensures AllPositive(Add(m, k, v))
  {
    if m != [] && m[0].0 != k {
      AddPositive(m[1..], k, v);
    }
  }

  /** The keys of s without repetitions, each where it first occurs. */
  function FirstSeen<K(==)>(s: seq<K>): seq<K> {
    if s == [] then []
    else
      var p := FirstSeen(s[..|s| - 1]);
      if s[|s| - 1] in p then p else p + [s[|s| - 1]]
  }

  lemma {:induction false} FirstSeenSpec<K>(s: seq<K>)
    ensures Distinct(FirstSeen(s))
    ensures forall x :: x in FirstSeen(s) <==> x in s
  {
    if s != [] {
      var p := s[..|s| - 1];
      FirstSeenSpec(p);
      assert s == p + [s[|s| - 1]];
    }
  }

  /** The grouped sums of a list of (key, amount) contributions: the dictionary built by a
      loop that does `d[key] += amount` for each contribution in turn. */
  function Grouped<K(==)>(e: seq<(K, real)>): seq<(K, real)> {
    if e == [] then [] else Add(Grouped(e[..|e| - 1]), e[|e| - 1].0, e[|e| - 1].1)
  }

  lemma GroupedSnoc<K>(e: seq<(K, real)>, x: (K, real))
    ensures Grouped(e + [x]) == Add(Grouped(e), x.0, x.1)
  {
    assert (e + [x])[..|e|] == e;
  }

  /** The sum of the amounts contributed under key k. */
  function KeyTotal<K(==)>(e: seq<(K, real)>, k: K): real {
    if e == [] then 0.0
    else KeyTotal(e[..|e| - 1], k) + (if e[|e| - 1].0 == k then e[|e| - 1].1 else 0.0)
  }

  lemma {:induction false} GroupedKeys<K>(e: seq<(K, real)>)
    ensures Keys(Grouped(e)) == FirstSeen(Keys(e))
  {
    if e != [] {
      var p := e[..|e| - 1];
      var x := e[|e| - 1];
      GroupedKeys(p);
      FirstSeenSpec(Keys(p));
      AddKeys(Grouped(p), x.0, x.1);
      assert Keys(e) == Keys(p) + [x.0];
      assert Keys(e)[..|Keys(e)| - 1] == Keys(p);
    }
  }

  lemma {:induction false} GroupedGet<K>(e: seq<(K, real)>, k: K)
    ensures Get(Grouped(e), k) == KeyTotal(e, k)
  {
    if e != [] {
      var p := e[..|e| - 1];
      GroupedGet(p, k);
      AddGet(Grouped(p), e[|e| - 1].0, e[|e| - 1].1, k);
    }
  }

  lemma {:induction false} GroupedSum<K>(e: seq<(K, real)>)
    ensures Sum(Values(Grouped(e))) == Sum(Values(e))
  {
    if e != [] {
      var p := e[..|e| - 1];
      GroupedSum(p);
      AddSum(Grouped(p), e[|e| - 1].0, e[|e| - 1].1);
      assert Values(e)[..|e| - 1] == Values(p);
    }
  }

  /** What the grouping loop builds: one entry per distinct key, in first-seen order, whose
      value is the total contributed under that key; the grand total is unchanged. */
  lemma GroupedSpec<K>(e: seq<(K, real)>)
    ensures Keys(Grouped(e)) == FirstSeen(Keys(e))
    ensures Distinct(Keys(Grouped(e)))
    ensures forall k :: k in Keys(Grouped(e)) <==> k in Keys(e)
    ensures forall k :: Get(Grouped(e), k) == KeyTotal(e, k)
    ensures Sum(Values(Grouped(e))) == Sum(Values(e))
    ensures forall i :: 0 <= i < |Grouped(e)| ==> Grouped(e)[i].1 == KeyTotal(e, Grouped(e)[i].0)
  {
    GroupedKeys(e);
    FirstSeenSpec(Keys(e));
    GroupedSum(e);
    forall k ensures Get(Grouped(e), k) == KeyTotal(e, k) {
      GroupedGet(e, k);
    }
    forall i | 0 <= i < |Grouped(e)| ensures Grouped(e)[i].1 == KeyTotal(e, Grouped(e)[i].0) {
      GetAt(Grouped(e), i);
      GroupedGet(e, Grouped(e)[i].0);
    }
  }

  lemma {:induction false} GroupedPositive<K>(e: seq<(K, real)>)
    requires AllPositive(e)
    ensures AllPositive(Grouped(e))
  {
    if e != [] {
      GroupedPositive(e[..|e| - 1]);
      AddPositive(Grouped(e[..|e| - 1]), e[|e| - 1].0, e[|e| - 1].1);
    }
  }

  /** Places x in front of the first entry whose value is not larger than x's. */
  function InsertDesc<K>(x: (K, real), s: seq<(K, real)>): seq<(K, real)> {
    if s == [] then [x]
    else if s[0].1 > x.1 then [s[0]] + InsertDesc(x, s[1..])
    else [x] + s
  }

  /** `sorted(items, key=value, reverse=True)`. */
  function SortDesc<K>(s: seq<(K, real)>): seq<(K, real)> {
    if s == [] then [] else InsertDesc(s[0], SortDesc(s[1..]))
  }

  predicate NonIncreasing<K>(s: seq<(K, real)>) {
    forall i, j :: 0 <= i < j < |s| ==> s[i].1 >= s[j].1
  }

  /** The entries whose value is v, in their order in s. */
  function WithValue<K>(s: seq<(K, real)>, v: real): seq<(K, real)> {
    if s == [] then []
    else (if s[0].1 == v then [s[0]] else []) + WithValue(s[1..], v)
  }

  lemma {:induction false} InsertDescMultiset<K>(x: (K, real), s: seq<(K, real)>)
    ensures multiset(InsertDesc(x, s)) == multiset(s) + multiset{x}
  {
    if s != [] && s[0].1 > x.1 {
      InsertDescMultiset(x, s[1..]);
      assert s == [s[0]] + s[1..];
    }
  }

  lemma {:induction false} InsertDescBounded<K>(x: (K, real), s: seq<(K, real)>, b: real)
    requires x.1 <= b && forall i :: 0 <= i < |s| ==> s[i].1 <= b
    ensures forall i :: 0 <= i < |InsertDesc(x, s)| ==> InsertDesc(x, s)[i].1 <= b
  {
    if s != [] && s[0].1 > x.1 {
      InsertDescBounded(x, s[1..], b);
    }
  }

  lemma {:induction false} InsertDescSorted<K>(x: (K, real), s: seq<(K, real)>)
    requires NonIncreasing(s)
    ensures NonIncreasing(InsertDesc(x, s))
  {
    if s != [] && s[0].1 > x.1 {
      var r := InsertDesc(x, s[1..]);
      InsertDescSorted(x, s[1..]);
      InsertDescBounded(x, s[1..], s[0].1);
      assert InsertDesc(x, s) == [s[0]] + r;
    }
  }

  lemma WithValueCons<K>(x: (K, real), s: seq<(K, real)>, v: real)
    ensures WithValue([x] + s, v) == (if x.1 == v then [x] else []) + WithValue(s, v)
  {
    assert ([x] + s)[1..] == s;
  }

  lemma {:induction false} InsertDescWithValue<K>(x: (K, real), s: seq<(K, real)>, v: real)
    ensures WithValue(InsertDesc(x, s), v) == (if x.1 == v then [x] else []) + WithValue(s, v)
  {
    if s == [] {
      WithValueCons(x, [], v);
      assert [x] + [] == [x];
    } else if s[0].1 > x.1 {
      var rest := s[1..];
      var r := InsertDesc(x, rest);
      InsertDescWithValue(x, rest, v);
      assert s == [s[0]] + rest;
      WithValueCons(s[0], rest, v);
      WithValueCons(s[0], r, v);
    } else {
      WithValueCons(x, s, v);
    }
  }


  lemma {:induction false} InsertDescSum<K>(x: (K, real), s: seq<(K, real)>)
    ensures Sum(Values(InsertDesc(x, s))) == x.1 + Sum(Values(s))
  {
    if s == [] {
      ValuesCons(x, []);
      SumCons(x.1, []);
    } else if s[0].1 > x.1 {
      var r := InsertDesc(x, s[1..]);
      InsertDescSum(x, s[1..]);
      assert s == [s[0]] + s[1..];
      ValuesCons(s[0], r);
      ValuesCons(s[0], s[1..]);
      SumCons(s[0].1, Values(r));
      SumCons(s[0].1, Values(s[1..]));
    } else {
      ValuesCons(x, s);
      SumCons(x.1, Values(s));
    }
  }

  /** The stable descending sort: a permutation, non-increasing, with entries of equal
      value kept in their original relative order, and the same total. */
  lemma {:induction false} SortDescPermutes<K>(s: seq<(K, real)>)
    ensures multiset(SortDesc(s)) == multiset(s)
  {
    if s != [] {
      SortDescPermutes(s[1..]);
      InsertDescMultiset(s[0], SortDesc(s[1..]));
      assert s == [s[0]] + s[1..];
    }
  }

  lemma {:induction false} SortDescSorted<K>(s: seq<(K, real)>)
    ensures NonIncreasing(SortDesc(s))
  {
    if s != [] {
      SortDescSorted(s[1..]);
      InsertDescSorted(s[0], SortDesc(s[1..]));
    }
  }

  lemma {:induction false} SortDescStable<K>(s: seq<(K, real)>, v: real)
    ensures WithValue(SortDesc(s), v) == WithValue(s, v)
  {
    if s != [] {
      SortDescStable(s[1..], v);
      InsertDescWithValue(s[0], SortDesc(s[1..]), v);
    }
  }

  lemma {:induction false} SortDescSum<K>(s: seq<(K, real)>)
    ensures Sum(Values(SortDesc(s))) == Sum(Values(s))
  {
    if s != [] {
      SortDescSum(s[1..]);
      InsertDescSum(s[0], SortDesc(s[1..]));
      assert s == [s[0]] + s[1..];
      ValuesCons(s[0], s[1..]);
      SumCons(s[0].1, Values(s[1..]));
    }
  }

  /** The stable descending sort: a permutation, non-increasing, with entries of equal
      value kept in their original relative order, and the same total. */
  lemma SortDescSpec<K>(s: seq<(K, real)>)
    ensures multiset(SortDesc(s)) == multiset(s) && |SortDesc(s)| == |s|
    ensures NonIncreasing(SortDesc(s))
    ensures forall v :: WithValue(SortDesc(s), v) == WithValue(s, v)
    ensures Sum(Values(SortDesc(s))) == Sum(Values(s))
  {
    SortDescPermutes(s);
    assert |SortDesc(s)| == |multiset(SortDesc(s))|;
    SortDescSorted(s);
    forall v ensures WithValue(SortDesc(s), v) == WithValue(s, v) {
      SortDescStable(s, v);
    }
    SortDescSum(s);
  }

  /** The share of each value in total, in percent: `amount / total * 100`. */
  function Shares<K>(s: seq<(K, real)>, total: real): (r: seq<real>)
    requires total > 0.0
    ensures |r| == |s|
    ensures forall i :: 0 <= i < |s| ==> r[i] == s[i].1 / total * 100.0
  {
    if s == [] then [] else Shares(s[..|s| - 1], total) + [s[|s| - 1].1 / total * 100.0]
  }

  /** Shares of a list measured against its own total add up to 100 percent. */
  lemma {:induction false} SharesSum<K>(s: seq<(K, real)>, total: real)
    requires total > 0.0
    ensures Sum(Shares(s, total)) == Sum(Values(s)) / total * 100.0
  {
    if s != [] {
      var p := s[..|s| - 1];
      SharesSum(p, total);
      assert Shares(s, total)[..|s| - 1] == Shares(p, total);
      assert Values(s)[..|s| - 1] == Values(p);
    }
  }
}
