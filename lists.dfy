/** The array operations the state hooks apply to their lists, keyed by a field of the element:
    `map(x => key(x) === k ? y : x)`, `filter(x => key(x) !== k)`, `findIndex` and `find`. */
module Lists {
  import opened Outcomes

  /** How many elements carry key `k`. */
  function CountKey<T, K(==)>(s: seq<T>, key: T -> K, k: K): nat {
    if s == [] then 0 else (if key(s[0]) == k then 1 else 0) + CountKey(s[1..], key, k)
  }

  /** `s.map(x => key(x) === k ? y : x)`: every element with key `k` becomes `y`. */
  function ReplaceWhere<T, K(==)>(s: seq<T>, key: T -> K, k: K, y: T): (r: seq<T>)
    ensures |r| == |s|
    ensures forall i :: 0 <= i < |s| && key(s[i]) == k ==> r[i] == y
    ensures forall i :: 0 <= i < |s| && key(s[i]) != k ==> r[i] == s[i]
  {
    if s == [] then [] else [if key(s[0]) == k then y else s[0]] + ReplaceWhere(s[1..], key, k, y)
  }

  /** `s.filter(p)`: the elements that satisfy `p`, in their order (see FilterAppend). */
  function Filter<T>(s: seq<T>, p: T -> bool): (r: seq<T>)
    ensures |r| <= |s|
    ensures forall i :: 0 <= i < |r| ==> p(r[i]) && r[i] in s
    ensures forall i :: 0 <= i < |s| && p(s[i]) ==> s[i] in r
  {
    if s == [] then []
    else if p(s[0]) then [s[0]] + Filter(s[1..], p)
    else Filter(s[1..], p)
  }

  /** `s.findIndex(x => key(x) === k)`: the first position holding key `k`, or -1. */
  function FindIndex<T, K(==)>(s: seq<T>, key: T -> K, k: K): (i: int)
    ensures -1 <= i < |s|
    ensures i >= 0 ==> key(s[i]) == k
    ensures forall j :: 0 <= j < |s| && (i == -1 || j < i) ==> key(s[j]) != k
  {
    if s == [] then -1
    else if key(s[0]) == k then 0
    else
      var j := FindIndex(s[1..], key, k);
      if j == -1 then -1 else j + 1
  }

  /** `s.find(x => key(x) === k)`: the first element holding key `k`, if any. */
  function Find<T, K(==)>(s: seq<T>, key: T -> K, k: K): Option<T> {
    var i := FindIndex(s, key, k);
    if i == -1 then None else Some(s[i])
  }

  /** Appending one element adds one to the count of its key and nothing to the others. */
  lemma {:induction false} CountKeyAppend<T, K>(s: seq<T>, key: T -> K, x: T, k: K)
    ensures CountKey(s + [x], key, k) == CountKey(s, key, k) + (if key(x) == k then 1 else 0)
  {
    if s != [] {
      assert (s + [x])[1..] == s[1..] + [x];
      CountKeyAppend(s[1..], key, x, k);
    }
  }

  /** Filtering distributes over concatenation: the kept elements stay in their order. */
  lemma {:induction false} FilterAppend<T>(a: seq<T>, b: seq<T>, p: T -> bool)
    ensures Filter(a + b, p) == Filter(a, p) + Filter(b, p)
  {
    if a == [] {
      assert a + b == b;
    } else {
      assert (a + b)[1..] == a[1..] + b;
      FilterAppend(a[1..], b, p);
    }
  }

  /** When every element satisfies `p`, filtering keeps the list as it is. */
  lemma {:induction false} FilterAll<T>(s: seq<T>, p: T -> bool)
    requires forall i :: 0 <= i < |s| ==> p(s[i])
    ensures Filter(s, p) == s
  {
    if s != [] {
      FilterAll(s[1..], p);
    }
  }

  /** Filtering out the one element that fails `p` removes exactly that element. */
  lemma FilterDropsOne<T>(a: seq<T>, x: T, b: seq<T>, p: T -> bool)
    requires forall i :: 0 <= i < |a| ==> p(a[i])
    requires forall i :: 0 <= i < |b| ==> p(b[i])
    requires !p(x)
    ensures Filter(a + [x] + b, p) == a + b
  {
    FilterAll(a, p);
    FilterAll(b, p);
    FilterNone([x], p);
    FilterAppend(a, [x], p);
    assert Filter(a + [x], p) == a;
    FilterAppend(a + [x], b, p);
  }

  /** An element that satisfies `p` stays where it was, between the kept parts of its
      neighbours. */
  lemma FilterKeepsOne<T>(a: seq<T>, x: T, b: seq<T>, p: T -> bool)
    requires p(x)
    ensures Filter(a + [x] + b, p) == Filter(a, p) + [x] + Filter(b, p)
  {
    FilterAll([x], p);
    FilterAppend(a, [x], p);
    assert Filter(a + [x], p) == Filter(a, p) + [x];
    FilterAppend(a + [x], b, p);
  }

  /** Replacing by key with an element that carries that key a second time changes nothing more. */
  lemma {:induction false} ReplaceWhereIdempotent<T, K>(s: seq<T>, key: T -> K, k: K, y: T)
    requires key(y) == k
    ensures ReplaceWhere(ReplaceWhere(s, key, k, y), key, k, y) == ReplaceWhere(s, key, k, y)
  {
    if s != [] {
      ReplaceWhereIdempotent(s[1..], key, k, y);
    }
  }

  /** Replacing by key with an element that carries that key keeps the count of every key. */
  lemma {:induction false} ReplaceWhereKeepsCount<T, K>(s: seq<T>, key: T -> K, k: K, y: T, k2: K)
    requires key(y) == k
    ensures CountKey(ReplaceWhere(s, key, k, y), key, k2) == CountKey(s, key, k2)
  {
    if s != [] {
      ReplaceWhereKeepsCount(s[1..], key, k, y, k2);
      assert ReplaceWhere(s, key, k, y)[1..] == ReplaceWhere(s[1..], key, k, y);
    }
  }

  /** Filtering twice by the same predicate is filtering once. */
  lemma FilterIdempotent<T>(s: seq<T>, p: T -> bool)
    ensures Filter(Filter(s, p), p) == Filter(s, p)
  {
    FilterAll(Filter(s, p), p);
  }

  /** Filtering by a predicate that holds for no element gives the empty list. */
  lemma {:induction false} FilterNone<T>(s: seq<T>, p: T -> bool)
    requires forall i :: 0 <= i < |s| ==> !p(s[i])
    ensures Filter(s, p) == []
  {
    if s != [] {
      FilterNone(s[1..], p);
    }
  }

  /** `find` gives the element at `findIndex`: the first one with the key. */
  lemma FindIsFirst<T, K>(s: seq<T>, key: T -> K, k: K, i: int)
    requires 0 <= i < |s| && key(s[i]) == k
    requires forall j :: 0 <= j < i ==> key(s[j]) != k
    ensures Find(s, key, k) == Some(s[i])
  {
    var f := FindIndex(s, key, k);
    assert f != -1;
  }
}
