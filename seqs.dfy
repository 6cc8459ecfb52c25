/**
 * The array pipeline steps the generators use (`filter`, `map`, the
 * first-occurrence de-duplication of `[...new Set(xs)]`), an occurrence
 * count, and the "one entry per line, comma after all but the last" layout
 * of `join(",\n")`.
 */
module Seqs {

  function Last<T>(s: seq<T>): T
    requires |s| > 0
  {
    s[|s| - 1]
  }

  function DropLast<T>(s: seq<T>): seq<T>
    requires |s| > 0
  {
    s[..|s| - 1]
  }

  /** `s.filter(p)`: exactly the elements of `s` that satisfy `p`, in order. */
  function Filter<T(!new)>(p: T -> bool, s: seq<T>): (r: seq<T>)
    ensures |r| <= |s|
    ensures forall x :: x in r <==> x in s && p(x)
    decreases |s|
  {
    if s == [] then []
    else
      assert s == DropLast(s) + [Last(s)];
      Filter(p, DropLast(s)) + (if p(Last(s)) then [Last(s)] else [])
  }

  lemma {:induction false} FilterAppend<T(!new)>(p: T -> bool, a: seq<T>, b: seq<T>)
    ensures Filter(p, a + b) == Filter(p, a) + Filter(p, b)
    decreases |b|
  {
    if b != [] {
      FilterAppend(p, a, DropLast(b));
      assert DropLast(a + b) == a + DropLast(b) && Last(a + b) == Last(b);
    } else {
      assert a + b == a;
    }
  }

  /** A filter that every element passes changes nothing. */
  lemma {:induction false} FilterKeepsAll<T(!new)>(p: T -> bool, s: seq<T>)
    requires forall x :: x in s ==> p(x)
    ensures Filter(p, s) == s
    decreases |s|
  {
    if s != [] {
      assert s == DropLast(s) + [Last(s)];
      FilterKeepsAll(p, DropLast(s));
    }
  }

  /** Filtering the prefix of one more element adds that element when it
      passes, and nothing otherwise. */
  lemma FilterStep<T(!new)>(p: T -> bool, s: seq<T>, i: nat)
    requires i < |s|
    ensures Filter(p, s[..i + 1]) == Filter(p, s[..i]) + (if p(s[i]) then [s[i]] else [])
  {
    assert DropLast(s[..i + 1]) == s[..i];
  }

  /** `s.map(f)`. */
  function Map<A, B>(f: A -> B, s: seq<A>): (r: seq<B>)
    ensures |r| == |s|
    ensures forall i :: 0 <= i < |s| ==> r[i] == f(s[i])
  {
    seq(|s|, i requires 0 <= i < |s| => f(s[i]))
  }

  lemma MapAppend<A, B>(f: A -> B, a: seq<A>, b: seq<A>)
    ensures Map(f, a + b) == Map(f, a) + Map(f, b)
  {
    assert forall i :: 0 <= i < |a| + |b| ==> Map(f, a + b)[i] == (Map(f, a) + Map(f, b))[i];
  }

  /** Extending a sequence that agrees pointwise with `g` over `DropLast(s)`
      by `g(Last(s))` gives one that agrees with `g` over all of `s`. */
  lemma SnocPointwise<A, B>(g: A -> B, s: seq<A>, prev: seq<B>)
    requires s != [] && |prev| == |s| - 1
    requires forall j :: 0 <= j < |prev| ==> prev[j] == g(s[j])
    ensures |prev + [g(Last(s))]| == |s|
    ensures forall j :: 0 <= j < |s| ==> (prev + [g(Last(s))])[j] == g(s[j])
  {
  }

  /** The map of a non-empty sequence ends with the image of its last
      element. */
  lemma MapSnoc<A, B>(f: A -> B, s: seq<A>)
    requires s != []
    ensures Map(f, s) == Map(f, DropLast(s)) + [f(Last(s))]
  {
    assert s == DropLast(s) + [Last(s)];
    MapAppend(f, DropLast(s), [Last(s)]);
  }

  lemma MapMember<A, B>(f: A -> B, s: seq<A>, x: A)
    requires x in s
    ensures f(x) in Map(f, s)
  {
    var i :| 0 <= i < |s| && s[i] == x;
    assert Map(f, s)[i] == f(x);
  }

  /** Every element of a map is the image of some element of its input. */
  lemma MapOrigin<A, B>(f: A -> B, s: seq<A>, y: B)
    requires y in Map(f, s)
    ensures exists x :: x in s && y == f(x)
  {
    var i :| 0 <= i < |s| && Map(f, s)[i] == y;
    assert s[i] in s;
  }

  /** The number of times `x` occurs in `s`. */
  function Count<T(==)>(s: seq<T>, x: T): nat
    decreases |s|
  {
    if s == [] then 0 else Count(DropLast(s), x) + (if Last(s) == x then 1 else 0)
  }

  lemma {:induction false} CountAppend<T>(a: seq<T>, b: seq<T>, x: T)
    ensures Count(a + b, x) == Count(a, x) + Count(b, x)
    decreases |b|
  {
    if b != [] {
      CountAppend(a, DropLast(b), x);
      assert DropLast(a + b) == a + DropLast(b) && Last(a + b) == Last(b);
    } else {
      assert a + b == a;
    }
  }

  lemma {:induction false} CountAbsent<T>(s: seq<T>, x: T)
    requires x !in s
    ensures Count(s, x) == 0
    decreases |s|
  {
    if s != [] {
      assert DropLast(s) + [Last(s)] == s;
      CountAbsent(DropLast(s), x);
    }
  }

  /** The position of the first occurrence of `x` in `s`. */
  function IndexOf<T(==)>(s: seq<T>, x: T): (k: nat)
    requires x in s
    ensures k < |s| && s[k] == x
    ensures forall j :: 0 <= j < k ==> s[j] != x
    decreases |s|
  {
    if s[0] == x then 0 else 1 + IndexOf(s[1..], x)
  }

  lemma IndexOfPrefix<T>(s: seq<T>, n: nat, x: T)
    requires n <= |s| && x in s[..n]
    ensures x in s && IndexOf(s, x) == IndexOf(s[..n], x)
  {
    var k := IndexOf(s[..n], x);
    assert s[k] == x;
    var m := IndexOf(s, x);
    assert m < n ==> s[..n][m] == s[m];
  }

  /** `[...new Set(s)]`: each distinct element once, in the order of its
      first occurrence. */
  function Dedup<T(==,!new)>(s: seq<T>): (r: seq<T>)
    ensures forall x :: x in r <==> x in s
    ensures forall i, j :: 0 <= i < j < |r| ==> r[i] != r[j]
    decreases |s|
  {
    if s == [] then []
    else
      var d := Dedup(DropLast(s));
      assert s == DropLast(s) + [Last(s)];
      if Last(s) in d then d else d + [Last(s)]
  }

  /** The entries of a de-duplicated list keep the order in which they first
      occur in the input. */
  lemma {:induction false} DedupFirstOccurrenceOrder<T(!new)>(s: seq<T>)
    ensures forall i, j :: 0 <= i < j < |Dedup(s)| ==>
              IndexOf(s, Dedup(s)[i]) < IndexOf(s, Dedup(s)[j])
    decreases |s|
  {
    if s != [] {
      var init := DropLast(s);
      DedupFirstOccurrenceOrder(init);
      var d := Dedup(init);
      var r := Dedup(s);
      assert init == s[..|s| - 1];
      forall x | x in d
        ensures IndexOf(s, x) == IndexOf(init, x) && IndexOf(s, x) < |init|
      {
        IndexOfPrefix(s, |s| - 1, x);
      }
      forall i, j | 0 <= i < j < |r|
        ensures IndexOf(s, r[i]) < IndexOf(s, r[j])
      {
        if j == |d| {
          assert r[i] == d[i];
          assert r[j] == Last(s) && Last(s) !in init;
          assert IndexOf(s, r[j]) == |s| - 1;
        } else {
          assert r[i] == d[i] && r[j] == d[j];
        }
      }
    }
  }

  /** Mapping a one-to-one function over a list without repeats gives
      each image once. */
  lemma {:induction false} CountMapInjective<A, B>(f: A -> B, s: seq<A>, x: A)
    requires forall i, j :: 0 <= i < j < |s| ==> s[i] != s[j]
    requires forall a, b :: f(a) == f(b) ==> a == b
    ensures Count(Map(f, s), f(x)) == if x in s then 1 else 0
  {
    if s != [] {
      var init := DropLast(s);
      assert forall i :: 0 <= i < |init| ==> init[i] == s[i];
      CountMapInjective(f, init, x);
      MapSnoc(f, s);
      CountAppend(Map(f, init), [f(Last(s))], f(x));
      assert DropLast([f(Last(s))]) == [];
      assert s == init + [Last(s)];
    }
  }

  /** The lines of `items.join(",\n")`: a comma after every item but the
      last. */
  function CommaSeparated(items: seq<string>): (r: seq<string>)
    ensures |r| == |items|
    ensures forall i :: 0 <= i < |items| - 1 ==> r[i] == items[i] + ","
    ensures |items| > 0 ==> r[|items| - 1] == items[|items| - 1]
  {
    seq(|items|, i requires 0 <= i < |items| => if i < |items| - 1 then items[i] + "," else items[i])
  }

  /** `block` appears in `s` starting at position `p`. */
  predicate BlockAt<T(==)>(s: seq<T>, p: int, block: seq<T>)
  {
    0 <= p && p + |block| <= |s| && s[p..p + |block|] == block
  }

  /** The element at offset `k` of a block found at `p`. */
  lemma BlockElement<T>(s: seq<T>, p: int, block: seq<T>, k: int)
    requires BlockAt(s, p, block) && 0 <= k < |block|
    ensures s[p + k] == block[k]
  {
    assert s[p..p + |block|][k] == block[k];
  }

  /** `block` appears somewhere in `s`, as consecutive elements. */
  ghost predicate Occurs<T>(s: seq<T>, block: seq<T>)
  {
    exists p :: BlockAt(s, p, block)
  }

  lemma BlockInMiddle<T>(pre: seq<T>, block: seq<T>, post: seq<T>)
    ensures BlockAt(pre + block + post, |pre|, block)
  {
    assert (pre + block + post)[|pre|..|pre| + |block|] == block;
  }

  lemma OccursInMiddle<T>(pre: seq<T>, block: seq<T>, post: seq<T>)
    ensures Occurs(pre + block + post, block)
  {
    BlockInMiddle(pre, block, post);
  }

  lemma BlockAppend<T>(a: seq<T>, b: seq<T>, p: int, block: seq<T>)
    requires BlockAt(a, p, block)
    ensures BlockAt(a + b, p, block)
  {
    assert (a + b)[p..p + |block|] == a[p..p + |block|];
  }

  lemma AppendAssoc<T>(a: seq<T>, b: seq<T>, c: seq<T>)
    ensures a + (b + c) == a + b + c
  {
  }

  /** Where the items of a bracketed list sit. */
  lemma Bracketed<T>(open: T, items: seq<T>, close: T)
    ensures var s := [open] + items + [close];
            && |s| == |items| + 2 && s[0] == open && s[|s| - 1] == close
            && forall i :: 0 <= i < |items| ==> s[1 + i] == items[i]
  {
  }

  /** The elements a scan keeps when it remembers the keys of the keyed
      elements it has kept and drops a keyed element whose key it has seen:
      unkeyed elements are always kept, a keyed one only when it is the
      first with its key. */
  function KeepFirstByKey<T, K(==)>(keyed: T -> bool, key: T -> K, s: seq<T>): seq<T>
  {
    if s == [] then []
    else
      KeepFirstByKey(keyed, key, DropLast(s))
      + (if keyed(Last(s)) && key(Last(s)) in SeenKeys(keyed, key, DropLast(s)) then [] else [Last(s)])
  }

  /** The keys of the keyed elements of `s`. */
  function SeenKeys<T, K(==)>(keyed: T -> bool, key: T -> K, s: seq<T>): set<K>
  {
    if s == [] then {}
    else SeenKeys(keyed, key, DropLast(s)) + (if keyed(Last(s)) then {key(Last(s))} else {})
  }

  lemma {:induction false} SeenKeysAreKeys<T(!new), K>(keyed: T -> bool, key: T -> K, s: seq<T>)
    ensures forall k :: k in SeenKeys(keyed, key, s) <==> k in Map(key, Filter(keyed, s))
  {
    if s != [] {
      SeenKeysAreKeys(keyed, key, DropLast(s));
      var last := if keyed(Last(s)) then [Last(s)] else [];
      MapAppend(key, Filter(keyed, DropLast(s)), last);
    }
  }

  /** The keyed elements kept carry each key once, in the order the keys
      first occur. */
  lemma {:induction false} KeepFirstByKeyDedup<T(!new), K(!new)>(keyed: T -> bool, key: T -> K, s: seq<T>)
    ensures Map(key, Filter(keyed, KeepFirstByKey(keyed, key, s))) == Dedup(Map(key, Filter(keyed, s)))
  {
    if s != [] {
      var init := DropLast(s);
      var x := Last(s);
      var kept := KeepFirstByKey(keyed, key, init);
      var m0 := Map(key, Filter(keyed, init));
      KeepFirstByKeyDedup(keyed, key, init);
      SeenKeysAreKeys(keyed, key, init);
      var ks := Map(key, Filter(keyed, s));
      var last := if keyed(x) then [x] else [];
      MapAppend(key, Filter(keyed, init), last);
      if keyed(x) {
        assert ks == m0 + [key(x)];
        assert DropLast(ks) == m0 && Last(ks) == key(x);
        if key(x) in SeenKeys(keyed, key, init) {
          assert KeepFirstByKey(keyed, key, s) == kept + [];
          assert kept + [] == kept;
          assert key(x) in Dedup(m0);
          assert Dedup(ks) == Dedup(m0);
        } else {
          assert KeepFirstByKey(keyed, key, s) == kept + [x];
          FilterSnoc(keyed, kept, x);
          MapAppend(key, Filter(keyed, kept), [x]);
          assert key(x) !in Dedup(m0);
          assert Dedup(ks) == Dedup(m0) + [key(x)];
        }
      } else {
        assert ks == m0 + [] == m0;
        assert KeepFirstByKey(keyed, key, s) == kept + [x];
        FilterSnoc(keyed, kept, x);
        assert Filter(keyed, kept) + [] == Filter(keyed, kept);
      }
    }
  }

  /** Every unkeyed element is kept, in order. */
  lemma {:induction false} KeepFirstByKeyUnkeyed<T(!new), K>(keyed: T -> bool, unkeyed: T -> bool, key: T -> K, s: seq<T>)
    requires forall x :: unkeyed(x) == !keyed(x)
    ensures Filter(unkeyed, KeepFirstByKey(keyed, key, s)) == Filter(unkeyed, s)
  {
    if s != [] {
      var init := DropLast(s);
      var kept := KeepFirstByKey(keyed, key, init);
      KeepFirstByKeyUnkeyed(keyed, unkeyed, key, init);
      FilterSnoc(unkeyed, kept, Last(s));
      if keyed(Last(s)) && key(Last(s)) in SeenKeys(keyed, key, init) {
        assert kept + [] == kept;
      }
    }
  }

  lemma FilterSnoc<T(!new)>(p: T -> bool, s: seq<T>, x: T)
    ensures Filter(p, s + [x]) == Filter(p, s) + (if p(x) then [x] else [])
  {
    assert DropLast(s + [x]) == s;
  }

  /** The keys seen are those of the keyed elements, by position. */
  lemma {:induction false} SeenKeysAt<T, K>(keyed: T -> bool, key: T -> K, s: seq<T>)
    ensures forall k :: k in SeenKeys(keyed, key, s) <==>
              exists j :: 0 <= j < |s| && keyed(s[j]) && key(s[j]) == k
  {
    if s != [] {
      SeenKeysAt(keyed, key, DropLast(s));
      assert forall j :: 0 <= j < |s| - 1 ==> DropLast(s)[j] == s[j];
    }
  }

  /** The scan of a prefix keeps a prefix of what the whole scan keeps. */
  lemma {:induction false} KeepFirstByKeyGrows<T, K>(keyed: T -> bool, key: T -> K, s: seq<T>, n: nat)
    requires n <= |s|
    ensures KeepFirstByKey(keyed, key, s[..n]) <= KeepFirstByKey(keyed, key, s)
    decreases |s| - n
  {
    if n < |s| {
      KeepFirstByKeyGrows(keyed, key, s, n + 1);
      assert DropLast(s[..n + 1]) == s[..n];
    } else {
      assert s[..n] == s;
    }
  }

  /** A key no keyed element of `s[..n]` carries has not been seen there. */
  lemma {:induction false} FreshKey<T, K>(keyed: T -> bool, key: T -> K, s: seq<T>, k: K, n: nat)
    requires n <= |s|
    requires forall j :: 0 <= j < n && keyed(s[j]) ==> key(s[j]) != k
    ensures k !in SeenKeys(keyed, key, s[..n])
  {
    if n > 0 {
      FreshKey(keyed, key, s, k, n - 1);
      assert DropLast(s[..n]) == s[..n - 1] && Last(s[..n]) == s[n - 1];
    }
  }

  /** The first keyed element with its key is kept. */
  lemma KeepFirstByKeyFirstWins<T, K>(keyed: T -> bool, key: T -> K, s: seq<T>, i: nat)
    requires i < |s| && keyed(s[i])
    requires forall j :: 0 <= j < i && keyed(s[j]) ==> key(s[j]) != key(s[i])
    ensures s[i] in KeepFirstByKey(keyed, key, s)
  {
    FreshKey(keyed, key, s, key(s[i]), i);
    var pre := s[..i];
    var pre1 := s[..i + 1];
    assert DropLast(pre1) == pre && Last(pre1) == s[i];
    var r := KeepFirstByKey(keyed, key, pre1);
    assert r == KeepFirstByKey(keyed, key, pre) + [s[i]];
    KeepFirstByKeyGrows(keyed, key, s, i + 1);
    assert KeepFirstByKey(keyed, key, s)[|r| - 1] == r[|r| - 1];
  }

  /** One step of a filter-then-map built from the back: the result for
      `DropLast(s)` extended by the image of `Last(s)` when it passes. */
  lemma MapFilterSnoc<A(!new), B>(g: A -> B, p: A -> bool, s: seq<A>)
    requires s != []
    ensures Map(g, Filter(p, DropLast(s))) + (if p(Last(s)) then [g(Last(s))] else [])
            == Map(g, Filter(p, s))
  {
    var last := if p(Last(s)) then [Last(s)] else [];
    MapAppend(g, Filter(p, DropLast(s)), last);
  }

  /** Filtering the images is mapping the filtered elements, when the
      filter on images matches a filter on elements. */
  lemma {:induction false} FilterMap<A(!new), B(!new)>(q: B -> bool, f: A -> B, p: A -> bool, s: seq<A>)
    requires forall x :: q(f(x)) == p(x)
    ensures Filter(q, Map(f, s)) == Map(f, Filter(p, s))
    decreases |s|
  {
    if s != [] {
      var init, x := DropLast(s), Last(s);
      FilterMap(q, f, p, init);
      MapSnoc(f, s);
      FilterSnoc(q, Map(f, init), f(x));
      assert q(f(x)) == p(x);
      MapFilterSnoc(f, p, s);
    }
  }

  lemma MapCompose<A, B, C>(g: B -> C, f: A -> B, h: A -> C, s: seq<A>)
    requires forall x :: x in s ==> g(f(x)) == h(x)
    ensures Map(g, Map(f, s)) == Map(h, s)
  {
  }
}
