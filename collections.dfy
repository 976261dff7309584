/** The collection operations the Python code takes from its runtime: `set(column)`,
    `min`/`max`, the cross-product comprehension, `dict(zip(keys, values))` and
    pandas' ascending sort on ('Packing ID', 'Period ID'). */
module Collections {
  import opened Types

  predicate NoDups<T(==)>(s: seq<T>)
  {
    forall j, k :: 0 <= j < k < |s| ==> s[j] != s[k]
  }

  /** `set(column)`, enumerated in first-occurrence order (DistinctSpec: the same
      elements, each once). */
  function Distinct<T(==)>(s: seq<T>): seq<T>
  {
    if s == [] then []
    else
      var rest := Distinct(s[..|s| - 1]);
      if s[|s| - 1] in rest then rest else rest + [s[|s| - 1]]
  }

  lemma {:induction false} DistinctSpec<T>(s: seq<T>)
    ensures NoDups(Distinct(s))
    ensures forall x :: x in Distinct(s) <==> x in s
  {
    if s != [] {
      var front, last := s[..|s| - 1], s[|s| - 1];
      DistinctSpec(front);
      assert s == front + [last];
    }
  }

  /** `min` of a nonempty collection (Python raises ValueError on an empty one). */
  function Min(s: seq<int>): (m: int)
    requires |s| > 0
    ensures m in s
    ensures forall x :: x in s ==> m <= x
  {
    if |s| == 1 then s[0]
    else
      var r := Min(s[1..]);
      assert forall x :: x in s ==> x == s[0] || x in s[1..];
      if s[0] <= r then s[0] else r
  }

  /** `max` of a nonempty collection. */
  function Max(s: seq<int>): (m: int)
    requires |s| > 0
    ensures m in s
    ensures forall x :: x in s ==> x <= m
  {
    if |s| == 1 then s[0]
    else
      var r := Max(s[1..]);
      assert forall x :: x in s ==> x == s[0] || x in s[1..];
      if s[0] >= r then s[0] else r
  }

  /** The row `[(x, y) for y in b]` of a cross product. */
  function With<A, B>(x: A, b: seq<B>): (r: seq<(A, B)>)
    ensures |r| == |b|
    ensures forall k :: 0 <= k < |b| ==> r[k] == (x, b[k])
  {
    if b == [] then [] else [(x, b[0])] + With(x, b[1..])
  }

  /** `[(x, y) for x in a for y in b]`; PairsSpec states what it holds. */
  function Pairs<A, B>(a: seq<A>, b: seq<B>): seq<(A, B)>
  {
    if a == [] then [] else Pairs(a[..|a| - 1], b) + With(a[|a| - 1], b)
  }

  lemma {:induction false} PairsLength<A, B>(a: seq<A>, b: seq<B>)
    ensures |Pairs(a, b)| == |a| * |b|
  {
    if a != [] {
      PairsLength(a[..|a| - 1], b);
      assert |a| * |b| == (|a| - 1) * |b| + |b|;
    }
  }

  lemma {:induction false} PairsMembers<A, B>(a: seq<A>, b: seq<B>)
    ensures forall p :: p in Pairs(a, b) <==> p.0 in a && p.1 in b
  {
    if a != [] {
      var front, x := a[..|a| - 1], a[|a| - 1];
      PairsMembers(front, b);
      assert a == front + [x];
    }
  }

  lemma {:induction false} PairsNoDups<A, B>(a: seq<A>, b: seq<B>)
    requires NoDups(a) && NoDups(b)
    ensures NoDups(Pairs(a, b))
  {
    if a != [] {
      var front, x := a[..|a| - 1], a[|a| - 1];
      var prefix: seq<(A, B)> := Pairs(front, b);
      var row: seq<(A, B)> := With(x, b);
      PairsNoDups(front, b);
      PairsMembers(front, b);
      assert x !in front by {
        forall k | 0 <= k < |front| ensures front[k] != x {
          assert front[k] == a[k];
        }
      }
      forall j, k | 0 <= j < k < |prefix + row|
        ensures (prefix + row)[j] != (prefix + row)[k]
      {
        if j < |prefix| <= k {
          assert (prefix + row)[j] in prefix;
          assert (prefix + row)[k].0 == x;
        }
      }
    }
  }

  /** Every pair of the cross product once, when a and b have no duplicates. */
  lemma PairsSpec<A, B>(a: seq<A>, b: seq<B>)
    ensures |Pairs(a, b)| == |a| * |b|
    ensures forall p :: p in Pairs(a, b) <==> p.0 in a && p.1 in b
    ensures NoDups(a) && NoDups(b) ==> NoDups(Pairs(a, b))
  {
    PairsLength(a, b);
    PairsMembers(a, b);
    if NoDups(a) && NoDups(b) {
      PairsNoDups(a, b);
    }
  }

  /** `dict(zip(keys, values))`: one entry per distinct key; a later position with the
      same key overwrites an earlier one (ToMapDomain and ToMapLastWins). */
  function ToMap<K, V>(keys: seq<K>, vals: seq<V>): map<K, V>
    requires |keys| == |vals|
  {
    if keys == [] then map[]
    else ToMap(keys[..|keys| - 1], vals[..|vals| - 1])[keys[|keys| - 1] := vals[|vals| - 1]]
  }

  /** The dictionary's keys are exactly the listed keys. */
  lemma {:induction false} ToMapDomain<K, V>(keys: seq<K>, vals: seq<V>, k: K)
    requires |keys| == |vals|
    ensures k in ToMap(keys, vals) <==> k in keys
  {
    if keys != [] {
      var front := keys[..|keys| - 1];
      ToMapDomain(front, vals[..|vals| - 1], k);
      assert keys == front + [keys[|keys| - 1]];
    }
  }

  /** A key listed at no later position takes the value listed with it. */
  lemma {:induction false} ToMapLastWins<K, V>(keys: seq<K>, vals: seq<V>, j: int)
    requires |keys| == |vals| && 0 <= j < |keys|
    requires forall j' :: j < j' < |keys| ==> keys[j'] != keys[j]
    ensures keys[j] in ToMap(keys, vals) && ToMap(keys, vals)[keys[j]] == vals[j]
  {
    if j < |keys| - 1 {
      var front := keys[..|keys| - 1];
      assert keys[|keys| - 1] != keys[j];
      ToMapLastWins(front, vals[..|vals| - 1], j);
    }
  }

  /** Lexicographic order on strings by character code: pandas' ascending string sort. */
  predicate StrLe(a: string, b: string)
    decreases |a|
  {
    a == [] || (b != [] && (a[0] < b[0] || (a[0] == b[0] && StrLe(a[1..], b[1..]))))
  }

  lemma {:induction false} StrLeTotal(a: string, b: string)
    ensures StrLe(a, b) || StrLe(b, a)
    decreases |a|
  {
    if a != [] && b != [] && a[0] == b[0] {
      StrLeTotal(a[1..], b[1..]);
    }
  }

  lemma {:induction false} StrLeTrans(a: string, b: string, c: string)
    requires StrLe(a, b) && StrLe(b, c)
    ensures StrLe(a, c)
    decreases |a|
  {
    if a != [] && a[0] == b[0] && b[0] == c[0] {
      StrLeTrans(a[1..], b[1..], c[1..]);
    }
  }

  lemma {:induction false} StrLeAntisym(a: string, b: string)
    requires StrLe(a, b) && StrLe(b, a)
    ensures a == b
    decreases |a|
  {
    if a != [] {
      StrLeAntisym(a[1..], b[1..]);
      assert a == [a[0]] + a[1..] && b == [b[0]] + b[1..];
    }
  }

  /** Ascending order on ('Packing ID', 'Period ID'). */
  predicate KeyLe(p: Key, q: Key)
  {
    (p.0 != q.0 && StrLe(p.0, q.0)) || (p.0 == q.0 && p.1 <= q.1)
  }

  lemma KeyLeTotal(p: Key, q: Key)
    ensures KeyLe(p, q) || KeyLe(q, p)
  {
    StrLeTotal(p.0, q.0);
  }

  lemma KeyLeTrans(p: Key, q: Key, r: Key)
    requires KeyLe(p, q) && KeyLe(q, r)
    ensures KeyLe(p, r)
  {
    if p.0 != q.0 && q.0 != r.0 {
      StrLeTrans(p.0, q.0, r.0);
      if p.0 == r.0 {
        StrLeAntisym(p.0, q.0);
      }
    }
  }

  predicate SortedBy<R>(s: seq<R>, key: R -> Key)
  {
    forall j, k :: 0 <= j < k < |s| ==> KeyLe(key(s[j]), key(s[k]))
  }

  /** A sorted sequence stays sorted under a new head that no element is below. */
  lemma ConsSorted<R>(y: R, s: seq<R>, key: R -> Key)
    requires SortedBy(s, key)
    requires forall k :: 0 <= k < |s| ==> KeyLe(key(y), key(s[k]))
    ensures SortedBy([y] + s, key)
  {
    assert forall k :: 0 < k <= |s| ==> ([y] + s)[k] == s[k - 1];
  }

  /** In a sorted sequence, nothing is below the head. */
  lemma HeadLeast<R>(s: seq<R>, key: R -> Key)
    requires SortedBy(s, key) && s != []
    ensures forall e :: e in s[1..] ==> KeyLe(key(s[0]), key(e))
  {
    forall e | e in s[1..] ensures KeyLe(key(s[0]), key(e)) {
      var j :| 0 <= j < |s[1..]| && s[1..][j] == e;
      assert s[j + 1] == e;
    }
  }

  /** A bound on every element of `t` and on `x` bounds every element of `r`,
      when `r` holds exactly the elements of `t` and `x`. */
  lemma BoundsMerge<R>(y: R, x: R, t: seq<R>, r: seq<R>, key: R -> Key)
    requires forall e :: e in t ==> KeyLe(key(y), key(e))
    requires KeyLe(key(y), key(x))
    requires multiset(r) == multiset(t) + multiset{x}
    ensures forall k :: 0 <= k < |r| ==> KeyLe(key(y), key(r[k]))
  {
    forall k | 0 <= k < |r| ensures KeyLe(key(y), key(r[k])) {
      assert r[k] in multiset(r);
      if r[k] != x {
        assert r[k] in multiset(t);
      }
    }
  }

  function InsertBy<R(==)>(x: R, s: seq<R>, key: R -> Key): (r: seq<R>)
    requires SortedBy(s, key)
    ensures multiset(r) == multiset(s) + multiset{x}
    ensures SortedBy(r, key)
    decreases |s|
  {
    if s == [] then [x]
    else if KeyLe(key(x), key(s[0])) then
      assert forall k | 0 <= k < |s| :: KeyLe(key(x), key(s[k])) by {
        forall k | 0 < k < |s| ensures KeyLe(key(x), key(s[k])) {
          KeyLeTrans(key(x), key(s[0]), key(s[k]));
        }
      }
      ConsSorted(x, s, key);
      [x] + s
    else
      var rest := InsertBy(x, s[1..], key);
      KeyLeTotal(key(x), key(s[0]));
      HeadLeast(s, key);
      BoundsMerge(s[0], x, s[1..], rest, key);
      ConsSorted(s[0], rest, key);
      assert s == [s[0]] + s[1..];
      [s[0]] + rest
  }

  /** `sort_values(by=['Packing ID', 'Period ID'], ascending=[True, True])`. */
  function SortBy<R(==)>(s: seq<R>, key: R -> Key): (r: seq<R>)
    ensures multiset(r) == multiset(s)
    ensures SortedBy(r, key)
  {
    if s == [] then []
    else
      assert s == s[..|s| - 1] + [s[|s| - 1]];
      InsertBy(s[|s| - 1], SortBy(s[..|s| - 1], key), key)
  }
}
