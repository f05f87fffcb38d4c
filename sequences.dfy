/** The list operations the dashboard builds its views from: JavaScript's `filter`,
    `slice(0, n)` and a stable `sort` by a numeric key, and the "group into an object of
    arrays" idiom of `reduce`. Filters and groups are defined from the end of the list, the
    way a loop over the list extends them one element at a time. */
module Sequences {

  /** `s.filter(p)`. */
  function Filter<T>(s: seq<T>, p: T -> bool): (r: seq<T>)
    ensures |r| <= |s|
    ensures forall i :: 0 <= i < |r| ==> p(r[i])
  {
    if s == [] then []
    else Filter(s[..|s| - 1], p) + (if p(s[|s| - 1]) then [s[|s| - 1]] else [])
  }

  /** `s.filter(p).length`. */
  function Count<T>(s: seq<T>, p: T -> bool): nat
  {
    |Filter(s, p)|
  }

  /** `a` is `b` with some elements left out, the rest in their order. */
  predicate IsSubsequence<T(==)>(a: seq<T>, b: seq<T>)
  {
    if a == [] then true
    else if b == [] then false
    else if a[|a| - 1] == b[|b| - 1] then IsSubsequence(a[..|a| - 1], b[..|b| - 1])
    else IsSubsequence(a, b[..|b| - 1])
  }

  lemma {:induction false} FilterIsSubsequence<T>(s: seq<T>, p: T -> bool)
    ensures IsSubsequence(Filter(s, p), s)
  {
    if s != [] {
      var init := s[..|s| - 1];
      FilterIsSubsequence(init, p);
      if p(s[|s| - 1]) {
        assert Filter(s, p)[..|Filter(s, p)| - 1] == Filter(init, p);
      } else {
        assert Filter(s, p) == Filter(init, p);
        SubsequenceOfInit(Filter(s, p), s);
      }
    }
  }

  lemma SubsequenceOfInit<T>(a: seq<T>, s: seq<T>)
    requires s != [] && IsSubsequence(a, s[..|s| - 1])
    ensures IsSubsequence(a, s)
  {
    if a != [] && a[|a| - 1] == s[|s| - 1] {
      SubsequenceDropLast(a, s[..|s| - 1]);
    }
  }

  lemma {:induction false} SubsequenceDropLast<T>(a: seq<T>, b: seq<T>)
    requires a != [] && IsSubsequence(a, b)
    ensures IsSubsequence(a[..|a| - 1], b)
  {
    var a' := a[..|a| - 1];
    if a' != [] {
      if a[|a| - 1] == b[|b| - 1] {
        SubsequenceOfInit(a', b);
      } else {
        SubsequenceDropLast(a, b[..|b| - 1]);
        SubsequenceOfInit(a', b);
      }
    }
  }

  /** A filter keeps exactly the elements that satisfy the predicate. */
  lemma {:induction false} FilterMembers<T>(s: seq<T>, p: T -> bool, x: T)
    ensures x in Filter(s, p) <==> x in s && p(x)
  {
    if s != [] {
      FilterMembers(s[..|s| - 1], p, x);
      assert s == s[..|s| - 1] + [s[|s| - 1]];
    }
  }

  /** Filters with predicates that agree everywhere are equal. */
  lemma {:induction false} FilterExt<T>(s: seq<T>, p: T -> bool, q: T -> bool)
    requires forall x :: p(x) == q(x)
    ensures Filter(s, p) == Filter(s, q)
    decreases |s|
  {
    if s != [] {
      FilterExt(s[..|s| - 1], p, q);
    }
  }

  /** A filter and the opposite filter split the list between them. */
  lemma {:induction false} FilterPartition<T>(s: seq<T>, p: T -> bool, q: T -> bool)
    requires forall x :: q(x) == !p(x)
    ensures multiset(Filter(s, p)) + multiset(Filter(s, q)) == multiset(s)
    decreases |s|
  {
    if s != [] {
      var init := s[..|s| - 1];
      var x := s[|s| - 1];
      FilterPartition(init, p, q);
      assert multiset(s) == multiset(init) + multiset{x} by { assert s == init + [x]; }
      if p(x) {
        assert Filter(s, p) == Filter(init, p) + [x];
        assert Filter(s, q) == Filter(init, q);
      } else {
        assert Filter(s, p) == Filter(init, p);
        assert Filter(s, q) == Filter(init, q) + [x];
      }
    }
  }

  /** A predicate every element satisfies filters nothing out. */
  lemma {:induction false} FilterAll<T>(s: seq<T>, p: T -> bool)
    requires forall i :: 0 <= i < |s| ==> p(s[i])
    ensures Filter(s, p) == s
  {
    if s != [] {
      FilterAll(s[..|s| - 1], p);
    }
  }

  /** A predicate no element satisfies filters everything out. */
  lemma {:induction false} FilterNone<T>(s: seq<T>, p: T -> bool)
    requires forall i :: 0 <= i < |s| ==> !p(s[i])
    ensures Filter(s, p) == []
  {
    if s != [] {
      FilterNone(s[..|s| - 1], p);
    }
  }

  /** Counting with a predicate that implies another counts no more. */
  lemma {:induction false} CountMono<T>(s: seq<T>, p: T -> bool, q: T -> bool)
    requires forall x :: p(x) ==> q(x)
    ensures Count(s, p) <= Count(s, q)
  {
    if s != [] {
      CountMono(s[..|s| - 1], p, q);
    }
  }

  /** Counts under pairwise exclusive predicates add up to at most the length. */
  lemma {:induction false} CountDisjoint3<T>(s: seq<T>, p: T -> bool, q: T -> bool, r: T -> bool)
    requires forall x :: !(p(x) && q(x)) && !(p(x) && r(x)) && !(q(x) && r(x))
    ensures Count(s, p) + Count(s, q) + Count(s, r) <= |s|
  {
    if s != [] {
      CountDisjoint3(s[..|s| - 1], p, q, r);
    }
  }

  /** `s.slice(0, n)`. */
  function Take<T>(s: seq<T>, n: nat): (r: seq<T>)
    ensures |r| == if n < |s| then n else |s|
    ensures forall i :: 0 <= i < |r| ==> r[i] == s[i]
  {
    if n < |s| then s[..n] else s
  }

  /** `s.reverse()` (on a fresh copy). */
  function Reverse<T>(s: seq<T>): (r: seq<T>)
    ensures |r| == |s|
    ensures forall i :: 0 <= i < |s| ==> r[i] == s[|s| - 1 - i]
  {
    if s == [] then [] else [s[|s| - 1]] + Reverse(s[..|s| - 1])
  }

  /** `Math.min(...s)` on a non-empty list, 0 on an empty one (the dashboard's
      `levels.length > 0 ? Math.min(...levels) : 0`). */
  function MinOr0(s: seq<int>): (m: int)
    ensures s != [] ==> m in s && forall i :: 0 <= i < |s| ==> m <= s[i]
    ensures s == [] ==> m == 0
  {
    if s == [] then 0
    else if |s| == 1 then s[0]
    else
      var m := MinOr0(s[1..]);
      if s[0] <= m then s[0] else m
  }

  /** `Math.max(...s)` on a non-empty list, 0 on an empty one. */
  function MaxOr0(s: seq<int>): (m: int)
    ensures s != [] ==> m in s && forall i :: 0 <= i < |s| ==> s[i] <= m
    ensures s == [] ==> m == 0
  {
    if s == [] then 0
    else if |s| == 1 then s[0]
    else
      var m := MaxOr0(s[1..]);
      if s[0] >= m then s[0] else m
  }

  // ---------------------------------------------------------------------------------------
  // Sorting by a numeric key, as `Array.prototype.sort` does with the comparator
  // `(a, b) => key(a) - key(b)`; that sort is stable.

  predicate Ascending<T>(s: seq<T>, key: T -> int)
  {
    forall i, j :: 0 <= i < j < |s| ==> key(s[i]) <= key(s[j])
  }

  /** Puts `x` before the first element whose key is not smaller, so that elements with
      equal keys keep their relative order. */
  function Insert<T>(x: T, s: seq<T>, key: T -> int): (r: seq<T>)
    ensures multiset(r) == multiset(s) + multiset{x}
    ensures |r| == |s| + 1
  {
    if s == [] || key(x) <= key(s[0]) then [x] + s
    else
      assert s == [s[0]] + s[1..];
      [s[0]] + Insert(x, s[1..], key)
  }

  lemma {:induction false} InsertAscending<T>(x: T, s: seq<T>, key: T -> int)
    requires Ascending(s, key)
    ensures Ascending(Insert(x, s, key), key)
  {
    if s != [] && key(x) > key(s[0]) {
      var rest := s[1..];
      var t := Insert(x, rest, key);
      InsertAscending(x, rest, key);
      forall j | 0 <= j < |t| ensures key(s[0]) <= key(t[j]) {
        assert t[j] in multiset(rest) + multiset{x};
        if t[j] != x {
          var m :| 0 <= m < |rest| && rest[m] == t[j];
          assert rest[m] == s[m + 1];
        }
      }
      assert Insert(x, s, key) == [s[0]] + t;
    }
  }

  function SortBy<T>(s: seq<T>, key: T -> int): (r: seq<T>)
    ensures multiset(r) == multiset(s) && |r| == |s|
  {
    if s == [] then []
    else
      assert s == [s[0]] + s[1..];
      Insert(s[0], SortBy(s[1..], key), key)
  }

  /** The sort returns the same elements, ordered by key. */
  lemma {:induction false} SortByAscending<T>(s: seq<T>, key: T -> int)
    ensures Ascending(SortBy(s, key), key)
  {
    if s != [] {
      SortByAscending(s[1..], key);
      InsertAscending(s[0], SortBy(s[1..], key), key);
    }
  }

  /** Filtering distributes over concatenation. */
  lemma {:induction false} FilterConcat<T>(a: seq<T>, b: seq<T>, p: T -> bool)
    ensures Filter(a + b, p) == Filter(a, p) + Filter(b, p)
    decreases |b|
  {
    if b == [] {
      assert a + b == a;
    } else {
      var b', x := b[..|b| - 1], b[|b| - 1];
      var last := if p(x) then [x] else [];
      FilterConcat(a, b', p);
      assert (a + b)[..|a + b| - 1] == a + b' && (a + b)[|a + b| - 1] == x;
      calc {
        Filter(a + b, p);
        Filter(a + b', p) + last;
        (Filter(a, p) + Filter(b', p)) + last;
        Filter(a, p) + (Filter(b', p) + last);
        Filter(a, p) + Filter(b, p);
      }
    }
  }

  /** The elements with key `k` of a list with `x` in front: `x` itself if its key is `k`,
      then those of the rest. */
  lemma MembersCons<K, V>(x: V, xs: seq<V>, key: V -> K, k: K)
    ensures Members([x] + xs, key, k) == (if key(x) == k then [x] else []) + Members(xs, key, k)
  {
    var p := y => key(y) == k;
    assert Members([x] + xs, key, k) == Filter([x] + xs, p);
    assert Members(xs, key, k) == Filter(xs, p);
    FilterConcat([x], xs, p);
    assert [x][..0] == [];
  }

  /** Inserting `x` adds it in front of the elements with its own key and changes the
      elements of any other key not at all. */
  lemma {:induction false} InsertMembers<T>(x: T, s: seq<T>, key: T -> int, v: int)
    ensures Members(Insert(x, s, key), key, v) == (if key(x) == v then [x] else []) + Members(s, key, v)
  {
    if s == [] || key(x) <= key(s[0]) {
      MembersCons(x, s, key, v);
    } else {
      var t := Insert(x, s[1..], key);
      InsertMembers(x, s[1..], key, v);
      MembersCons(s[0], t, key, v);
      MembersCons(s[0], s[1..], key, v);
      assert [s[0]] + s[1..] == s;
      if key(s[0]) == v {
        assert (if key(x) == v then [x] else []) == [];
      }
    }
  }

  /** The sort is stable: for every key, the elements with that key come out in the order
      they went in. */
  lemma {:induction false} SortByStable<T>(s: seq<T>, key: T -> int, v: int)
    ensures Members(SortBy(s, key), key, v) == Members(s, key, v)
  {
    if s != [] {
      SortByStable(s[1..], key, v);
      InsertMembers(s[0], SortBy(s[1..], key), key, v);
      MembersCons(s[0], s[1..], key, v);
      assert [s[0]] + s[1..] == s;
    }
  }

  /** The first `n` elements after sorting are elements of the list, and every element
      left out has a key no smaller than any kept. */
  lemma TakeSorted<T>(s: seq<T>, key: T -> int, n: nat)
    ensures var t := Take(SortBy(s, key), n);
            && (forall i :: 0 <= i < |t| ==> t[i] in s)
            && forall x :: x in s ==> x in t || forall i :: 0 <= i < |t| ==> key(t[i]) <= key(x)
  {
    var sorted := SortBy(s, key);
    var t := Take(sorted, n);
    SortByAscending(s, key);
    forall i | 0 <= i < |t| ensures t[i] in s {
      assert t[i] == sorted[i] && sorted[i] in multiset(sorted);
    }
    forall x | x in s ensures x in t || forall i :: 0 <= i < |t| ==> key(t[i]) <= key(x) {
      assert x in multiset(sorted);
      var m :| 0 <= m < |sorted| && sorted[m] == x;
      if m < |t| {
        assert t[m] == x;
      } else {
        forall i | 0 <= i < |t| ensures key(t[i]) <= key(x) {
          assert t[i] == sorted[i];
        }
      }
    }
  }

  // ---------------------------------------------------------------------------------------
  // Grouping: `xs.reduce((acc, x) => { (acc[key(x)] ||= []).push(x); return acc }, {})`.

  /** The distinct keys, in order of first appearance. */
  function Keys<K(==), V>(xs: seq<V>, key: V -> K): (ks: seq<K>)
    ensures forall k :: k in ks ==> exists i :: 0 <= i < |xs| && key(xs[i]) == k
  {
    if xs == [] then []
    else
      var ks := Keys(xs[..|xs| - 1], key);
      var k := key(xs[|xs| - 1]);
      if k in ks then ks else ks + [k]
  }

  /** The elements with key `k`, in order. */
  function Members<K(==), V>(xs: seq<V>, key: V -> K, k: K): seq<V>
  {
    Filter(xs, x => key(x) == k)
  }

  /** The group of `k` holds exactly the elements whose key is `k`. */
  lemma MembersExact<K, V>(xs: seq<V>, key: V -> K, k: K, x: V)
    ensures x in Members(xs, key, k) <==> x in xs && key(x) == k
  {
    FilterMembers(xs, y => key(y) == k, x);
  }

  /** A group keeps the order of the list. */
  lemma MembersIsSubsequence<K, V>(xs: seq<V>, key: V -> K, k: K)
    ensures IsSubsequence(Members(xs, key, k), xs)
  {
    FilterIsSubsequence(xs, y => key(y) == k);
  }

  /** A key that occurs has a group, and the group starts with the first element that has
      the key. */
  lemma {:induction false} MembersFirst<K, V>(xs: seq<V>, key: V -> K, k: K)
    requires k in Keys(xs, key)
    ensures var ms := Members(xs, key, k);
            ms != [] && exists m :: 0 <= m < |xs| && xs[m] == ms[0] && key(xs[m]) == k
                                   && forall j :: 0 <= j < m ==> key(xs[j]) != k
    decreases |xs|
  {
    var init := xs[..|xs| - 1];
    var x := xs[|xs| - 1];
    var ms := Members(xs, key, k);
    if k in Keys(init, key) {
      MembersFirst(init, key, k);
      var m :| 0 <= m < |init| && init[m] == Members(init, key, k)[0] && key(init[m]) == k
               && forall j :: 0 <= j < m ==> key(init[j]) != k;
      assert ms[0] == Members(init, key, k)[0];
      assert xs[m] == init[m] && forall j :: 0 <= j < m ==> xs[j] == init[j];
    } else {
      KeysExact(init, key);
      FilterNone(init, y => key(y) == k);
      assert ms == [x];
      assert forall j :: 0 <= j < |xs| - 1 ==> xs[j] == init[j];
    }
  }

  predicate Distinct<T(==)>(s: seq<T>)
  {
    forall i, j :: 0 <= i < j < |s| ==> s[i] != s[j]
  }

  /** A list without repetitions holds each value at most once. */
  lemma {:induction false} DistinctCount<T>(s: seq<T>, x: T)
    requires Distinct(s)
    ensures multiset(s)[x] <= 1
    decreases |s|
  {
    if s != [] {
      DistinctCount(s[1..], x);
      assert s == [s[0]] + s[1..];
      assert x == s[0] ==> x !in s[1..];
    }
  }

  /** A reordering of a list without repetitions has none either. */
  lemma DistinctPerm<T>(a: seq<T>, b: seq<T>)
    requires Distinct(a) && multiset(a) == multiset(b)
    ensures Distinct(b)
  {
    forall i, j | 0 <= i < j < |b| ensures b[i] != b[j] {
      var x := b[i];
      assert b == b[..j] + b[j..];
      assert multiset(b)[x] == multiset(b[..j])[x] + multiset(b[j..])[x];
      assert b[..j][i] == x;
      DistinctCount(a, x);
      assert b[j..][0] == b[j];
    }
  }

  /** Every key occurs once, and every element's key occurs. */
  lemma {:induction false} KeysExact<K, V>(xs: seq<V>, key: V -> K)
    ensures Distinct(Keys(xs, key))
    ensures forall i :: 0 <= i < |xs| ==> key(xs[i]) in Keys(xs, key)
  {
    if xs != [] {
      var init := xs[..|xs| - 1];
      var ks := Keys(init, key);
      var k := key(xs[|xs| - 1]);
      KeysExact(init, key);
      assert forall i :: 0 <= i < |init| ==> xs[i] == init[i];
      if k !in ks {
        DistinctAppend(ks, k);
      }
    }
  }

  lemma DistinctAppend<T>(s: seq<T>, x: T)
    requires Distinct(s) && x !in s
    ensures Distinct(s + [x])
  {
  }

  /** Sum of the group sizes for the keys `ks`. */
  function GroupSizes<K(==), V>(xs: seq<V>, key: V -> K, ks: seq<K>): nat
  {
    if ks == [] then 0 else |Members(xs, key, ks[0])| + GroupSizes(xs, key, ks[1..])
  }

  lemma {:induction false} GroupSizesExtend<K, V>(xs: seq<V>, key: V -> K, ks: seq<K>)
    requires xs != [] && Distinct(ks)
    ensures var x := xs[|xs| - 1];
            GroupSizes(xs, key, ks)
              == GroupSizes(xs[..|xs| - 1], key, ks) + (if key(x) in ks then 1 else 0)
  {
    if ks != [] {
      GroupSizesExtend(xs, key, ks[1..]);
    }
  }

  lemma GroupSizesAppendUnseen<K, V>(xs: seq<V>, key: V -> K, ks: seq<K>, k: K)
    requires forall i :: 0 <= i < |xs| ==> key(xs[i]) != k
    ensures GroupSizes(xs, key, ks + [k]) == GroupSizes(xs, key, ks)
    decreases ks
  {
    FilterNone(xs, x => key(x) == k);
    if ks != [] {
      assert (ks + [k])[1..] == ks[1..] + [k];
      GroupSizesAppendUnseen(xs, key, ks[1..], k);
    }
  }

  /** The groups partition the list: their sizes add up to its length. */
  lemma {:induction false} GroupsCoverAll<K, V>(xs: seq<V>, key: V -> K)
    ensures GroupSizes(xs, key, Keys(xs, key)) == |xs|
  {
    if xs != [] {
      var init := xs[..|xs| - 1];
      var ks := Keys(init, key);
      var k := key(xs[|xs| - 1]);
      GroupsCoverAll(init, key);
      KeysExact(init, key);
      KeysExact(xs, key);
      if k in ks {
        GroupSizesExtend(xs, key, ks);
      } else {
        assert forall i :: 0 <= i < |init| ==> key(init[i]) != k;
        GroupSizesAppendUnseen(init, key, ks, k);
        GroupSizesExtend(xs, key, ks + [k]);
      }
    }
  }

  /** The `reduce` that builds the groups, as the loop it is: `groups[k]` is the array
      pushed to for key `k`, `order` the order in which keys were first met. */
  method GroupBy<K(==,!new), V>(xs: seq<V>, key: V -> K) returns (order: seq<K>, groups: map<K, seq<V>>)
    ensures order == Keys(xs, key)
    ensures forall k :: k in groups <==> k in order
    ensures forall k :: k in groups ==> groups[k] == Members(xs, key, k)
  {
    order, groups := [], map[];
    var i := 0;
    while i < |xs|
      invariant 0 <= i <= |xs|
      invariant Grouped(xs, key, i, order, groups)
    {
      var k := key(xs[i]);
      GroupedStep(xs, key, i, order, groups);
      if k !in groups {
        order := order + [k];
        groups := groups[k := [xs[i]]];
      } else {
        groups := groups[k := groups[k] + [xs[i]]];
      }
      i := i + 1;
    }
    assert xs[..i] == xs;
  }

  /** `order` and `groups` hold the keys and the groups of the first `i` elements. */
  ghost predicate Grouped<K(!new), V>(xs: seq<V>, key: V -> K, i: nat, order: seq<K>, groups: map<K, seq<V>>)
    requires i <= |xs|
  {
    && order == Keys(xs[..i], key)
    && (forall k :: k in groups <==> k in order)
    && (forall k :: k in groups ==> groups[k] == Members(xs[..i], key, k))
  }

  /** Adding element `i` to its group, a new group at the end of the order when its key is
      new, keeps the groups up to date. */
  lemma GroupedStep<K(!new), V>(xs: seq<V>, key: V -> K, i: nat, order: seq<K>, groups: map<K, seq<V>>)
    requires i < |xs| && Grouped(xs, key, i, order, groups)
    ensures var k := key(xs[i]);
            Grouped(xs, key, i + 1,
                    if k in groups then order else order + [k],
                    if k in groups then groups[k := groups[k] + [xs[i]]] else groups[k := [xs[i]]])
  {
    var k := key(xs[i]);
    GroupStep(xs, key, i);
    var groups' := if k in groups then groups[k := groups[k] + [xs[i]]] else groups[k := [xs[i]]];
    forall k' | k' in groups' ensures groups'[k'] == Members(xs[..i + 1], key, k') {
      MembersStep(xs, key, i, k');
    }
  }

  /** How the keys and the groups change when element `i` is added. */
  lemma GroupStep<K, V>(xs: seq<V>, key: V -> K, i: nat)
    requires i < |xs|
    ensures var k := key(xs[i]);
            var ks := Keys(xs[..i], key);
            Keys(xs[..i + 1], key) == (if k in ks then ks else ks + [k])
    ensures key(xs[i]) !in Keys(xs[..i], key) ==> Members(xs[..i], key, key(xs[i])) == []
  {
    assert xs[..i + 1][..i] == xs[..i];
    var k := key(xs[i]);
    if k !in Keys(xs[..i], key) {
      KeysExact(xs[..i], key);
      FilterNone(xs[..i], y => key(y) == k);
    }
  }

  lemma MembersStep<K, V>(xs: seq<V>, key: V -> K, i: nat, k: K)
    requires i < |xs|
    ensures Members(xs[..i + 1], key, k)
         == Members(xs[..i], key, k) + (if key(xs[i]) == k then [xs[i]] else [])
  {
    assert xs[..i + 1][..i] == xs[..i];
  }
}
