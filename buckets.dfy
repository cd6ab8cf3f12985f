/** Objects used as dictionaries of running totals (`obj[key] = (obj[key] ||
    0) + amount`), read back with `Object.entries(obj)` in insertion order,
    and the "largest first, keep five" ranking built on them with the
    comparator `(a, b) => b - a`. */
module Buckets {

  /** One `[key, total]` pair of `Object.entries`. */
  type Entry<K> = (K, int)

  /** An object of totals, as its entries in insertion order. */
  type Totals<K> = seq<Entry<K>>

  /** The total stored under `key`, 0 when the key is absent. */
  function Lookup<K(==)>(b: Totals<K>, key: K): int {
    if b == [] then 0 else if b[0].0 == key then b[0].1 else Lookup(b[1..], key)
  }

  /** The keys of the object. */
  function Keys<K(==)>(b: Totals<K>): set<K> {
    if b == [] then {} else {b[0].0} + Keys(b[1..])
  }

  /** No key occurs in two entries. */
  predicate DistinctKeys<K(==)>(b: Totals<K>) {
    b == [] || (b[0].0 !in Keys(b[1..]) && DistinctKeys(b[1..]))
  }

  /** The sum of all totals. */
  function SumValues<K(==)>(b: Totals<K>): int {
    if b == [] then 0 else b[0].1 + SumValues(b[1..])
  }

  /** `obj[key] = (obj[key] || 0) + amount`: an existing key keeps its place
      and grows by `amount`; a new key is appended. */
  function Bump<K(==,!new)>(b: Totals<K>, key: K, amount: int): (r: Totals<K>)
    ensures |r| == if key in Keys(b) then |b| else |b| + 1
    ensures Keys(r) == Keys(b) + {key}
    ensures Lookup(r, key) == Lookup(b, key) + amount
    ensures forall k: K :: k != key ==> Lookup(r, k) == Lookup(b, k)
    ensures SumValues(r) == SumValues(b) + amount
    ensures DistinctKeys(b) ==> DistinctKeys(r)
  {
    if b == [] then [(key, amount)]
    else if b[0].0 == key then [(key, b[0].1 + amount)] + b[1..]
    else
      var rest := Bump(b[1..], key, amount);
      assert ([b[0]] + rest)[1..] == rest;
      [b[0]] + rest
  }

  /** Entries in non-increasing order of their totals. */
  predicate SortedDesc<K(==)>(s: Totals<K>) {
    forall i, j :: 0 <= i < j < |s| ==> s[i].1 >= s[j].1
  }

  /** Places `x` after every entry whose total is at least its own. */
  function Insert<K(==)>(x: Entry<K>, s: Totals<K>): (r: Totals<K>)
    ensures multiset(r) == multiset(s) + multiset{x}
    ensures |r| == |s| + 1
  {
    if s == [] then [x]
    else if x.1 > s[0].1 then [x] + s
    else
      assert s == [s[0]] + s[1..];
      [s[0]] + Insert(x, s[1..])
  }

  /** The first entry after an insertion is `x` or the old first entry. */
  lemma InsertHead<K>(x: Entry<K>, s: Totals<K>)
    ensures Insert(x, s)[0] == x || (s != [] && Insert(x, s)[0] == s[0])
  {
  }

  /** Inserting into a sorted sequence keeps it sorted. */
  lemma {:induction false} InsertKeepsSorted<K>(x: Entry<K>, s: Totals<K>)
    requires SortedDesc(s)
    ensures SortedDesc(Insert(x, s))
  {
    if s != [] && x.1 <= s[0].1 {
      InsertKeepsSorted(x, s[1..]);
      InsertHead(x, s[1..]);
      var rest := Insert(x, s[1..]);
      var r := [s[0]] + rest;
      assert r == Insert(x, s);
      assert rest[0].1 <= s[0].1 by {
        if rest[0] != x {
          assert rest[0] == s[1];
        }
      }
      forall i, j | 0 <= i < j < |r| ensures r[i].1 >= r[j].1 {
        assert r[j] == rest[j - 1];
        if i > 0 {
          assert r[i] == rest[i - 1];
        } else if j > 1 {
          assert rest[0].1 >= rest[j - 1].1;
        }
      }
    }
  }

  /** `entries.sort(([, a], [, b]) => b - a)`: a stable sort, largest total
      first, that keeps entries with equal totals in their original order. */
  function SortDesc<K(==)>(s: Totals<K>): (r: Totals<K>)
    ensures SortedDesc(r)
    ensures multiset(r) == multiset(s)
    ensures |r| == |s|
  {
    if s == [] then []
    else
      assert s == s[..|s| - 1] + [s[|s| - 1]];
      InsertKeepsSorted(s[|s| - 1], SortDesc(s[..|s| - 1]));
      Insert(s[|s| - 1], SortDesc(s[..|s| - 1]))
  }

  // ---------------------------------------------------------------------
  // Stability: equal totals keep their first-seen order

  /** The entries whose total is `v`, in order. */
  function WithTotal<K>(s: Totals<K>, v: int): Totals<K> {
    if s == [] then [] else (if s[0].1 == v then [s[0]] else []) + WithTotal(s[1..], v)
  }

  lemma {:induction false} WithTotalAppend<K>(a: Totals<K>, b: Totals<K>, v: int)
    ensures WithTotal(a + b, v) == WithTotal(a, v) + WithTotal(b, v)
  {
    if a == [] {
      assert a + b == b;
    } else {
      var head := if a[0].1 == v then [a[0]] else [];
      assert (a + b)[0] == a[0];
      assert (a + b)[1..] == a[1..] + b;
      assert WithTotal(a + b, v) == head + WithTotal(a[1..] + b, v);
      WithTotalAppend(a[1..], b, v);
      assert head + (WithTotal(a[1..], v) + WithTotal(b, v)) == (head + WithTotal(a[1..], v)) + WithTotal(b, v);
    }
  }

  lemma {:induction false} WithTotalAbsent<K>(s: Totals<K>, v: int)
    requires forall i :: 0 <= i < |s| ==> s[i].1 != v
    ensures WithTotal(s, v) == []
  {
    if s != [] {
      WithTotalAbsent(s[1..], v);
    }
  }

  /** Inserting into a descending list puts `x` after every entry with the
      same total. */
  lemma {:induction false} InsertStable<K>(x: Entry<K>, s: Totals<K>, v: int)
    requires SortedDesc(s)
    ensures WithTotal(Insert(x, s), v) == WithTotal(s, v) + (if x.1 == v then [x] else [])
  {
    if s == [] {
      assert Insert(x, s) == [x];
      assert [x][1..] == [];
    } else if x.1 > s[0].1 {
      InsertAhead(x, s, v);
    } else {
      var rest := Insert(x, s[1..]);
      assert Insert(x, s) == [s[0]] + rest;
      assert SortedDesc(s[1..]);
      InsertStable(x, s[1..], v);
      InsertBehind(x, s, rest, v);
    }
  }

  /** `x` goes in front of a list whose entries are all smaller. */
  lemma InsertAhead<K>(x: Entry<K>, s: Totals<K>, v: int)
    requires SortedDesc(s) && s != [] && x.1 > s[0].1
    ensures WithTotal(Insert(x, s), v) == WithTotal(s, v) + (if x.1 == v then [x] else [])
  {
    var r := [x] + s;
    assert Insert(x, s) == r;
    assert r[0] == x && r[1..] == s;
    if x.1 == v {
      WithTotalAbsent(s, v);
    }
  }

  /** `x` goes behind the first entry, into the rest. */
  lemma InsertBehind<K>(x: Entry<K>, s: Totals<K>, rest: Totals<K>, v: int)
    requires s != []
    requires WithTotal(rest, v) == WithTotal(s[1..], v) + (if x.1 == v then [x] else [])
    ensures WithTotal([s[0]] + rest, v) == WithTotal(s, v) + (if x.1 == v then [x] else [])
  {
    var head := if s[0].1 == v then [s[0]] else [];
    var last := if x.1 == v then [x] else [];
    var r := [s[0]] + rest;
    assert r[0] == s[0] && r[1..] == rest;
    assert head + (WithTotal(s[1..], v) + last) == (head + WithTotal(s[1..], v)) + last;
  }

  /** The sort is stable: for every total, the entries with that total
      appear in the sorted list in the order they had in the input. */
  lemma {:induction false} SortDescStable<K>(s: Totals<K>, v: int)
    ensures WithTotal(SortDesc(s), v) == WithTotal(s, v)
  {
    if s != [] {
      var prefix, last := s[..|s| - 1], s[|s| - 1];
      assert s == prefix + [last];
      var sorted := SortDesc(prefix);
      assert SortDesc(s) == Insert(last, sorted);
      SortDescStable(prefix, v);
      InsertStable(last, sorted, v);
      WithTotalAppend(prefix, [last], v);
      assert WithTotal([last], v) == (if last.1 == v then [last] else []);
    }
  }

  /** `.slice(0, 5)` of the sorted entries. */
  function Top5<K(==)>(b: Totals<K>): (r: Totals<K>)
    ensures |r| == if |b| < 5 then |b| else 5
    ensures r == SortDesc(b)[..|r|]
  {
    var sorted := SortDesc(b);
    if |sorted| <= 5 then sorted else sorted[..5]
  }

  /** The ranking keeps at most five entries of the object, largest first,
      and every entry it leaves out is no larger than the smallest it keeps. */
  lemma Top5Properties<K>(b: Totals<K>)
    ensures |Top5(b)| <= 5
    ensures SortedDesc(Top5(b))
    ensures forall i :: 0 <= i < |Top5(b)| ==> Top5(b)[i] in b
    ensures |b| > 5 ==> forall e :: e in b && e !in Top5(b) ==> e.1 <= Top5(b)[4].1
    ensures forall v :: WithTotal(Top5(b), v) <= WithTotal(b, v)
  {
    Top5Entries(b);
    if |b| > 5 {
      Top5Threshold(b);
    }
    forall v ensures WithTotal(Top5(b), v) <= WithTotal(b, v) {
      Top5Stable(b, v);
    }
  }

  /** Among entries with equal totals, the ones kept are the first seen:
      for every total, the kept entries with that total are a prefix of the
      object's entries with that total. */
  lemma Top5Stable<K>(b: Totals<K>, v: int)
    ensures WithTotal(Top5(b), v) <= WithTotal(b, v)
  {
    var sorted := SortDesc(b);
    var top := Top5(b);
    assert sorted == top + sorted[|top|..];
    WithTotalAppend(top, sorted[|top|..], v);
    SortDescStable(b, v);
  }

  /** Every kept entry is an entry of the object. */
  lemma Top5Entries<K>(b: Totals<K>)
    ensures forall i :: 0 <= i < |Top5(b)| ==> Top5(b)[i] in b
  {
    var sorted := SortDesc(b);
    var top := Top5(b);
    forall i | 0 <= i < |top| ensures top[i] in b {
      assert top[i] == sorted[i];
      assert top[i] in multiset(sorted);
    }
  }

  /** Every entry left out is no larger than the fifth kept one. */
  lemma Top5Threshold<K>(b: Totals<K>)
    requires |b| > 5
    ensures forall e :: e in b && e !in Top5(b) ==> e.1 <= Top5(b)[4].1
  {
    var sorted := SortDesc(b);
    var top := Top5(b);
    assert top == sorted[..5];
    forall e | e in b && e !in top ensures e.1 <= top[4].1 {
      assert e in multiset(b);
      assert e in multiset(sorted);
      var j :| 0 <= j < |sorted| && sorted[j] == e;
      assert sorted[4] == top[4];
    }
  }
}
