/** Sequence helpers shared by the reconciliation engine: first-occurrence
    de-duplication (the iteration order of a JavaScript `Set` or of the keys
    of a `Map` or plain object filled by insertion) and occurrence counting. */
module Seqs {

  ghost predicate Distinct<T>(s: seq<T>) {
    forall i, j :: 0 <= i < j < |s| ==> s[i] != s[j]
  }

  function ToSet<T>(s: seq<T>): set<T> {
    set x | x in s
  }

  /** The distinct elements of `s`, each at the position of its first occurrence. */
  function Dedupe<T(==,!new)>(s: seq<T>): (r: seq<T>)
    ensures Distinct(r)
    ensures forall x :: x in r <==> x in s
    decreases |s|
  {
    if s == [] then []
    else
      var d := Dedupe(s[..|s| - 1]);
      var x := s[|s| - 1];
      assert s == s[..|s| - 1] + [x];
      if x in d then d else d + [x]
  }

  /** Number of positions of `s` that hold `x`. */
  function Occ<T(==)>(s: seq<T>, x: T): nat
    decreases |s|
  {
    if s == [] then 0
    else Occ(s[..|s| - 1], x) + (if s[|s| - 1] == x then 1 else 0)
  }

  /** Sum of `Occ(s, k)` over the keys `k`. */
  function SumOcc<T(==)>(keys: seq<T>, s: seq<T>): nat
    decreases |keys|
  {
    if keys == [] then 0
    else SumOcc(keys[..|keys| - 1], s) + Occ(s, keys[|keys| - 1])
  }

  /** Number of positions of `s` whose element lies in `S`. */
  function CountIn<T>(s: seq<T>, S: set<T>): nat
    decreases |s|
  {
    if s == [] then 0
    else CountIn(s[..|s| - 1], S) + (if s[|s| - 1] in S then 1 else 0)
  }

  lemma OccSnoc<T>(s: seq<T>, y: T, x: T)
    ensures Occ(s + [y], x) == Occ(s, x) + (if y == x then 1 else 0)
  {
    assert (s + [y])[..|s|] == s;
  }

  lemma {:induction false} OccAbsent<T>(s: seq<T>, x: T)
    requires x !in s
    ensures Occ(s, x) == 0
  {
    if s != [] {
      assert x !in s[..|s| - 1];
      OccAbsent(s[..|s| - 1], x);
    }
  }

  lemma {:induction false} OccDistinctMember<T>(keys: seq<T>, x: T)
    requires Distinct(keys) && x in keys
    ensures Occ(keys, x) == 1
  {
    var p := keys[..|keys| - 1];
    if keys[|keys| - 1] == x {
      assert x !in p;
      OccAbsent(p, x);
    } else {
      assert keys == p + [keys[|keys| - 1]];
      assert x in p;
      OccDistinctMember(p, x);
    }
  }

  lemma {:induction false} SumOccSnoc<T>(keys: seq<T>, s: seq<T>, x: T)
    ensures SumOcc(keys, s + [x]) == SumOcc(keys, s) + Occ(keys, x)
    decreases |keys|
  {
    if keys != [] {
      var p := keys[..|keys| - 1];
      SumOccSnoc(p, s, x);
      OccSnoc(s, x, keys[|keys| - 1]);
    }
  }

  /** Counting every element of `s` against a list of distinct keys that covers
      `s` accounts for each position exactly once. */
  lemma {:induction false} SumOccCovers<T>(keys: seq<T>, s: seq<T>)
    requires Distinct(keys)
    requires forall x :: x in s ==> x in keys
    ensures SumOcc(keys, s) == |s|
    decreases |s|
  {
    if s == [] {
      SumOccEmpty(keys);
    } else {
      var p := s[..|s| - 1];
      var x := s[|s| - 1];
      assert s == p + [x];
      SumOccCovers(keys, p);
      SumOccSnoc(keys, p, x);
      OccDistinctMember(keys, x);
    }
  }

  lemma {:induction false} SumOccEmpty<T>(keys: seq<T>)
    ensures SumOcc(keys, []) == 0
    decreases |keys|
  {
    if keys != [] {
      SumOccEmpty(keys[..|keys| - 1]);
    }
  }

  /** The occurrence counts of the distinct elements of `s` add up to `|s|`. */
  lemma SumOccDedupe<T(!new)>(s: seq<T>)
    ensures SumOcc(Dedupe(s), s) == |s|
  {
    SumOccCovers(Dedupe(s), s);
  }

  /** On a duplicate-free sequence, counting positions in `S` is the size of the
      part of `S` the sequence covers. */
  lemma {:induction false} CountInDistinct<T>(s: seq<T>, S: set<T>)
    requires Distinct(s)
    ensures CountIn(s, S) == |ToSet(s) * S|
    decreases |s|
  {
    if s != [] {
      var p := s[..|s| - 1];
      var x := s[|s| - 1];
      DistinctLast(s);
      CountInDistinct(p, S);
      CoveredSnoc(s, S);
    }
  }

  /** Dropping the last element keeps a sequence duplicate-free, and that
      element does not occur before it. */
  lemma DistinctLast<T>(s: seq<T>)
    requires Distinct(s) && s != []
    ensures Distinct(s[..|s| - 1]) && s[|s| - 1] !in s[..|s| - 1]
  {
  }

  /** The covered part of `S` grows by the last element when it is new and in `S`. */
  lemma CoveredSnoc<T>(s: seq<T>, S: set<T>)
    requires s != [] && s[|s| - 1] !in s[..|s| - 1]
    ensures |ToSet(s) * S|
            == |ToSet(s[..|s| - 1]) * S| + (if s[|s| - 1] in S then 1 else 0)
  {
    var p := s[..|s| - 1];
    var x := s[|s| - 1];
    assert s == p + [x];
    assert ToSet(s) == ToSet(p) + {x};
    if x in S {
      assert ToSet(s) * S == ToSet(p) * S + {x};
    } else {
      assert ToSet(s) * S == ToSet(p) * S;
    }
  }

  lemma DistinctCard<T>(s: seq<T>)
    requires Distinct(s)
    ensures |ToSet(s)| == |s|
  {
    CountInDistinct(s, ToSet(s));
    CountInAll(s, ToSet(s));
    assert ToSet(s) * ToSet(s) == ToSet(s);
  }

  lemma {:induction false} CountInAll<T>(s: seq<T>, S: set<T>)
    requires forall x :: x in s ==> x in S
    ensures CountIn(s, S) == |s|
    decreases |s|
  {
    if s != [] {
      CountInAll(s[..|s| - 1], S);
    }
  }

  lemma DedupeSnoc<T(!new)>(s: seq<T>, x: T)
    ensures Dedupe(s + [x]) == if x in Dedupe(s) then Dedupe(s) else Dedupe(s) + [x]
  {
    assert (s + [x])[..|s|] == s;
  }

  /** The position of the first occurrence of `x` in `s`. */
  function FirstIndex<T(==)>(s: seq<T>, x: T): (i: nat)
    requires x in s
    ensures i < |s| && s[i] == x && x !in s[..i]
  {
    if s[0] == x then 0
    else
      var j := FirstIndex(s[1..], x);
      assert s[..j + 1] == [s[0]] + s[1..][..j];
      j + 1
  }

  /** The first occurrence is the only position holding `x` with no `x` before it. */
  lemma FirstIndexUnique<T>(s: seq<T>, x: T, k: nat)
    requires k < |s| && s[k] == x && x !in s[..k]
    ensures FirstIndex(s, x) == k
  {
  }

  /** Appending does not move a first occurrence. */
  lemma FirstIndexSnoc<T>(s: seq<T>, x: T, y: T)
    requires y in s
    ensures FirstIndex(s + [x], y) == FirstIndex(s, y)
  {
    var f := FirstIndex(s, y);
    assert (s + [x])[..f] == s[..f];
    FirstIndexUnique(s + [x], y, f);
  }

  /** `Dedupe` lists the elements in the order of their first occurrences. */
  lemma {:induction false} DedupeFirstOccurrence<T(!new)>(s: seq<T>, i: nat, j: nat)
    requires i < j < |Dedupe(s)|
    ensures FirstIndex(s, Dedupe(s)[i]) < FirstIndex(s, Dedupe(s)[j])
    decreases |s|
  {
    var p := s[..|s| - 1];
    var x := s[|s| - 1];
    assert s == p + [x];
    DedupeSnoc(p, x);
    var d := Dedupe(p);
    assert d[i] in d;
    FirstIndexSnoc(p, x, d[i]);
    if j < |d| {
      assert d[j] in d;
      FirstIndexSnoc(p, x, d[j]);
      DedupeFirstOccurrence(p, i, j);
    } else {
      assert x !in p;
      assert s[..|p|] == p;
      FirstIndexUnique(s, x, |p|);
    }
  }

  /** Occurrences of three distinct values that fill `s` add up to `|s|`. */
  lemma {:induction false} OccOfThree<T>(s: seq<T>, a: T, b: T, c: T)
    requires a != b && b != c && a != c
    requires forall i :: 0 <= i < |s| ==> s[i] == a || s[i] == b || s[i] == c
    ensures Occ(s, a) + Occ(s, b) + Occ(s, c) == |s|
    decreases |s|
  {
    if s != [] {
      OccOfThree(s[..|s| - 1], a, b, c);
    }
  }

  lemma {:induction false} OccPositive<T>(s: seq<T>, x: T)
    requires x in s
    ensures Occ(s, x) > 0
    decreases |s|
  {
    if s[|s| - 1] != x {
      assert x in s[..|s| - 1] by {
        var i :| 0 <= i < |s| && s[i] == x;
        assert s[..|s| - 1][i] == x;
      }
      OccPositive(s[..|s| - 1], x);
    }
  }

  /** `m` holds, under each of its keys, the number of occurrences of that key
      in `s`. */
  ghost predicate Counts<T>(m: map<T, nat>, s: seq<T>) {
    forall k :: k in m ==> m[k] == Occ(s, k)
  }

  /** A counter whose keys are exactly the elements of `s`. */
  ghost predicate Tallies<T(!new)>(m: map<T, nat>, s: seq<T>) {
    (forall k :: k in m <==> k in s) && Counts(m, s)
  }

  /** Counting one more occurrence of a key already present. */
  lemma CountsSnoc<T>(m: map<T, nat>, s: seq<T>, x: T)
    requires Counts(m, s) && x in m
    ensures Counts(m[x := m[x] + 1], s + [x])
  {
    forall k | k in m[x := m[x] + 1]
      ensures m[x := m[x] + 1][k] == Occ(s + [x], k)
    {
      OccSnoc(s, x, k);
    }
  }

  /** Counting one more occurrence of `k`: `m[k] = (m[k] || 0) + 1`. */
  function Bump<T>(m: map<T, nat>, k: T): map<T, nat> {
    m[k := (if k in m then m[k] else 0) + 1]
  }

  /** The counter `init` after counting every element of `ks`, in order. */
  function CountAll<T>(ks: seq<T>, init: map<T, nat>): map<T, nat>
    decreases |ks|
  {
    if ks == [] then init else Bump(CountAll(ks[..|ks| - 1], init), ks[|ks| - 1])
  }

  lemma CountAllSnoc<T>(ks: seq<T>, x: T, init: map<T, nat>)
    ensures CountAll(ks + [x], init) == Bump(CountAll(ks, init), x)
  {
    assert (ks + [x])[..|ks|] == ks;
  }

  /** Counting one more element, and keeping the order of first occurrence. */
  lemma CountAllDedupeSnoc<T(!new)>(ks: seq<T>, x: T)
    ensures var m := CountAll(ks, map[]);
            && CountAll(ks + [x], map[]) == m[x := (if x in m then m[x] else 0) + 1]
            && Dedupe(ks + [x]) == if x in m then Dedupe(ks) else Dedupe(ks) + [x]
  {
    CountAllSnoc(ks, x, map[]);
    CountAllKeys(ks, map[], x);
    DedupeSnoc(ks, x);
  }

  /** The keys of a counter are its initial keys and the elements counted. */
  lemma {:induction false} CountAllKeys<T>(ks: seq<T>, init: map<T, nat>, x: T)
    ensures x in CountAll(ks, init) <==> x in init || x in ks
    decreases |ks|
  {
    if ks != [] {
      var p := ks[..|ks| - 1];
      CountAllKeys(p, init, x);
      assert ks == p + [ks[|ks| - 1]];
    }
  }

  /** Starting from zeros, a counter holds the number of occurrences of each of
      its keys. */
  lemma {:induction false} CountAllCounts<T>(ks: seq<T>, init: map<T, nat>)
    requires forall k :: k in init ==> init[k] == 0
    ensures Counts(CountAll(ks, init), ks)
    decreases |ks|
  {
    if ks != [] {
      var p := ks[..|ks| - 1];
      var x := ks[|ks| - 1];
      CountAllCounts(p, init);
      assert ks == p + [x];
      var m := CountAll(p, init);
      forall k | k in Bump(m, x)
        ensures Bump(m, x)[k] == Occ(ks, k)
      {
        OccSnoc(p, x, k);
        if k == x && x !in m {
          CountAllKeys(p, init, x);
          OccAbsent(p, x);
        }
      }
    }
  }

  /** Starting from an empty map, a counter has a key for each element and
      holds its number of occurrences. */
  lemma CountAllTallies<T(!new)>(ks: seq<T>)
    ensures Tallies(CountAll(ks, map[]), ks)
  {
    CountAllCounts(ks, map[]);
    forall k ensures k in CountAll(ks, map[]) <==> k in ks {
      CountAllKeys(ks, map[], k);
    }
  }

  /** The concatenation of `f(x)` over the elements `x` of `xs`, in order. */
  function FlatMap<A, B>(xs: seq<A>, f: A -> seq<B>): seq<B>
    decreases |xs|
  {
    if xs == [] then [] else FlatMap(xs[..|xs| - 1], f) + f(xs[|xs| - 1])
  }

  lemma FlatMapSnoc<A, B>(xs: seq<A>, x: A, f: A -> seq<B>)
    ensures FlatMap(xs + [x], f) == FlatMap(xs, f) + f(x)
  {
    assert (xs + [x])[..|xs|] == xs;
  }

  lemma {:induction false} FlatMapAppend<A, B>(xs: seq<A>, ys: seq<A>, f: A -> seq<B>)
    ensures FlatMap(xs + ys, f) == FlatMap(xs, f) + FlatMap(ys, f)
    decreases |ys|
  {
    if ys == [] {
      assert xs + ys == xs;
    } else {
      var p := ys[..|ys| - 1];
      var y := ys[|ys| - 1];
      assert xs + ys == (xs + p) + [y];
      assert ys == p + [y];
      FlatMapSnoc(xs + p, y, f);
      FlatMapSnoc(p, y, f);
      FlatMapAppend(xs, p, f);
    }
  }

  /** Every element of the result comes from one of the elements of `xs`. */
  lemma {:induction false} FlatMapMember<A, B>(xs: seq<A>, f: A -> seq<B>, y: B)
    requires y in FlatMap(xs, f)
    ensures exists i :: 0 <= i < |xs| && y in f(xs[i])
    decreases |xs|
  {
    var p := xs[..|xs| - 1];
    if y in FlatMap(p, f) {
      FlatMapMember(p, f, y);
      var i :| 0 <= i < |p| && y in f(p[i]);
      assert xs[i] == p[i];
    } else {
      assert y in f(xs[|xs| - 1]);
    }
  }

  /** When each element gives at most one result, there are at most as many
      results as elements. */
  lemma {:induction false} FlatMapLength<A, B>(xs: seq<A>, f: A -> seq<B>)
    requires forall i :: 0 <= i < |xs| ==> |f(xs[i])| <= 1
    ensures |FlatMap(xs, f)| <= |xs|
    decreases |xs|
  {
    if xs != [] {
      var p := xs[..|xs| - 1];
      assert forall i :: 0 <= i < |p| ==> p[i] == xs[i];
      FlatMapLength(p, f);
      assert |f(xs[|xs| - 1])| <= 1;
    }
  }
}
