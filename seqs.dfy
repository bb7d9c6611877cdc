/** Sequence utilities: first-seen deduplication (the key order of an insertion-ordered dict),
    fixed-size chunking (`range(0, len(ids), 50)` with `ids[i:i+50]`) and occurrence counting. */
module Seqs {

  ghost predicate NoDuplicates<T>(s: seq<T>) {
    forall i, j :: 0 <= i < j < |s| ==> s[i] != s[j]
  }

  /** The distinct elements of `s`, each kept at the position of its first occurrence. */
  function Dedup<T(==)>(s: seq<T>): seq<T> {
    if s == [] then []
    else
      var d := Dedup(s[..|s| - 1]);
      if s[|s| - 1] in d then d else d + [s[|s| - 1]]
  }

  /** Deduplication keeps every element once and nothing else. */
  lemma {:induction false} DedupSpec<T(!new)>(s: seq<T>)
    ensures NoDuplicates(Dedup(s))
    ensures forall x :: x in Dedup(s) <==> x in s
    ensures |Dedup(s)| <= |s|
  {
    if s != [] {
      var init, last := s[..|s| - 1], s[|s| - 1];
      DedupSpec(init);
      assert forall x :: x in s <==> x in init || x == last;
      var d := Dedup(init);
      if last !in d {
        var r := d + [last];
        forall i, j | 0 <= i < j < |r| ensures r[i] != r[j] {
          if j == |d| {
            assert r[i] == d[i] && d[i] in d;
          }
        }
      }
    }
  }

  /** Index of the first occurrence of `x` in `s`. */
  function FirstIndex<T(==)>(s: seq<T>, x: T): (i: nat)
    requires x in s
    ensures i < |s| && s[i] == x && x !in s[..i]
  {
    if s[0] == x then 0 else 1 + FirstIndex(s[1..], x)
  }

  lemma {:induction false} FirstIndexOfPrefix<T(!new)>(s: seq<T>, k: nat, x: T)
    requires k <= |s| && x in s[..k]
    ensures x in s && FirstIndex(s, x) == FirstIndex(s[..k], x)
  {
    if s[0] != x {
      assert s[..k][1..] == s[1..][..k - 1];
      FirstIndexOfPrefix(s[1..], k - 1, x);
    }
  }

  lemma {:induction false} FirstIndexOfNew<T(!new)>(s: seq<T>, n: nat)
    requires n < |s| && s[n] !in s[..n]
    ensures FirstIndex(s, s[n]) == n
  {
    if n > 0 {
      assert s[..n][0] == s[0];
      assert s[1..][n - 1] == s[n];
      assert s[1..][..n - 1] == s[..n][1..];
      FirstIndexOfNew(s[1..], n - 1);
    }
  }

  /** Dedup keeps the order of first occurrences: an element placed earlier in the result
      was first seen earlier in the input. */
  lemma {:induction false} DedupFirstSeenOrder<T(!new)>(s: seq<T>, i: nat, j: nat)
    requires i < j < |Dedup(s)|
    ensures Dedup(s)[i] in s && Dedup(s)[j] in s && FirstIndex(s, Dedup(s)[i]) < FirstIndex(s, Dedup(s)[j])
  {
    var n := |s| - 1;
    var p := s[..n];
    var d := Dedup(p);
    DedupSpec(s);
    DedupSpec(p);
    assert Dedup(s) == if s[n] in d then d else d + [s[n]];
    if j < |d| {
      DedupFirstSeenOrder(p, i, j);
      FirstIndexOfPrefix(s, n, d[i]);
      FirstIndexOfPrefix(s, n, d[j]);
    } else {
      // the last element of Dedup(s) is s[n], first seen only at n
      assert Dedup(s)[j] == s[n] && s[n] !in p;
      assert Dedup(s)[i] == d[i] && d[i] in p;
      FirstIndexOfPrefix(s, n, d[i]);
      assert s[..n] == p;
      FirstIndexOfNew(s, n);
    }
  }

  /** Concatenation of a sequence of sequences. */
  function Flatten<T>(ss: seq<seq<T>>): seq<T> {
    if ss == [] then [] else ss[0] + Flatten(ss[1..])
  }

  /** The consecutive slices `s[i:i+n]` for `i` in `range(0, len(s), n)`. */
  function Chunks<T>(s: seq<T>, n: nat): seq<seq<T>>
    requires n > 0
    decreases |s|
  {
    if |s| == 0 then []
    else if |s| <= n then [s]
    else [s[..n]] + Chunks(s[n..], n)
  }

  /** The chunks cover `s` exactly once, in order; none is empty, none is longer than `n`, and
      all but the last have exactly `n` elements. */
  lemma {:induction false} ChunksPartition<T>(s: seq<T>, n: nat)
    requires n > 0
    ensures Flatten(Chunks(s, n)) == s
    ensures forall k :: 0 <= k < |Chunks(s, n)| ==> 0 < |Chunks(s, n)[k]| <= n
    ensures forall k :: 0 <= k < |Chunks(s, n)| - 1 ==> |Chunks(s, n)[k]| == n
    decreases |s|
  {
    if |s| > n {
      var rest := Chunks(s[n..], n);
      ChunksPartition(s[n..], n);
      assert Chunks(s, n) == [s[..n]] + rest;
      assert ([s[..n]] + rest)[1..] == rest;
      assert s[..n] + s[n..] == s;
    }
  }

  /** Number of occurrences of `x` in `s`. */
  function Count<T(==,!new)>(s: seq<T>, x: T): (c: nat)
    ensures c <= |s|
    ensures c > 0 <==> x in s
  {
    if s == [] then 0
    else
      assert forall y :: y in s <==> y in s[..|s| - 1] || y == s[|s| - 1];
      Count(s[..|s| - 1], x) + (if s[|s| - 1] == x then 1 else 0)
  }
}
