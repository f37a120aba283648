/** Emotion Stabilizer of the focus tracker: the displayed emotion is the most frequent
    entry of the emotion buffer. Counts are gathered into a dictionary whose keys are in
    first-occurrence order, and `reduce((a, b) => counts[a] > counts[b] ? a : b)` keeps the
    LATER key on a tie. */
module Stabilizer {
  import Seqs

  /** `d` occurs in `buf` with maximal count, and among the entries with that count it is the
      one whose first occurrence comes last. */
  ghost predicate IsStableMode<T>(buf: seq<T>, d: T) {
    && d in buf
    && (forall e :: e in buf ==> multiset(buf)[e] <= multiset(buf)[d])
    && (forall e :: e in buf && multiset(buf)[e] == multiset(buf)[d] ==> Seqs.IndexOf(buf, e) <= Seqs.IndexOf(buf, d))
  }

  /** At most one value is the stable mode of a buffer. */
  lemma StableModeUnique<T>(buf: seq<T>, d1: T, d2: T)
    requires IsStableMode(buf, d1) && IsStableMode(buf, d2)
    ensures d1 == d2
  {
    assert multiset(buf)[d1] == multiset(buf)[d2];
    var i1, i2 := Seqs.IndexOf(buf, d1), Seqs.IndexOf(buf, d2);
    assert i1 == i2;
    assert buf[i1] == d1 && buf[i2] == d2;
  }

  /** `[acc] + keys` reduced with `(a, b) => m[a] > m[b] ? a : b`. */
  function LastMax<T>(keys: seq<T>, m: multiset<T>, acc: T): T
    decreases |keys|
  {
    if keys == [] then acc
    else LastMax(keys[1..], m, if m[acc] > m[keys[0]] then acc else keys[0])
  }

  /** Reducing `all` returns the element at some position `p` of maximal count, and every
      element after it has a strictly smaller count: on a tie the later element wins. */
  lemma {:induction false} LastMaxPosition<T>(all: seq<T>, m: multiset<T>) returns (p: nat)
    requires |all| > 0
    ensures p < |all| && all[p] == LastMax(all[1..], m, all[0])
    ensures forall i :: 0 <= i < |all| ==> m[all[i]] <= m[all[p]]
    ensures forall i :: p < i < |all| ==> m[all[i]] < m[all[p]]
    decreases |all|
  {
    if |all| == 1 {
      p := 0;
    } else {
      var acc' := if m[all[0]] > m[all[1]] then all[0] else all[1];
      var all' := [acc'] + all[2..];
      assert all'[1..] == all[1..][1..];
      var p' := LastMaxPosition(all', m);
      assert forall i :: 1 < i < |all| ==> all[i] == all'[i - 1];
      if p' > 0 {
        p := p' + 1;
      } else if m[all[0]] > m[all[1]] {
        p := 0;
      } else {
        p := 1;
      }
    }
  }

  /** Reference definition of the displayed emotion: the dictionary keys reduced as the
      tracker reduces them. */
  function Mode<T(==)>(buf: seq<T>): T
    requires |buf| > 0
  {
    var keys := Seqs.Keys(buf, |buf|);
    LastMax(keys[1..], multiset(buf), keys[0])
  }

  /** A key with maximal count whose later keys all count less is the stable mode. */
  lemma LastMaximumIsStable<T>(buf: seq<T>, keys: seq<T>, p: nat)
    requires Seqs.KeyOrder(keys, buf, |buf|) && p < |keys|
    requires forall i :: 0 <= i < |keys| ==> multiset(buf)[keys[i]] <= multiset(buf)[keys[p]]
    requires forall i :: p < i < |keys| ==> multiset(buf)[keys[i]] < multiset(buf)[keys[p]]
    ensures IsStableMode(buf, keys[p])
  {
    var d := keys[p];
    assert buf[..|buf|] == buf;
    assert d in buf;
    forall e | e in buf
      ensures multiset(buf)[e] <= multiset(buf)[d]
      ensures multiset(buf)[e] == multiset(buf)[d] ==> Seqs.IndexOf(buf, e) <= Seqs.IndexOf(buf, d)
    {
      var i :| 0 <= i < |buf| && buf[i] == e;
      var q :| 0 <= q < |keys| && keys[q] == e;
      if multiset(buf)[e] == multiset(buf)[d] && q != p {
        assert q < p;
      }
    }
  }

  /** The reference mode is the stable mode: maximal count, last first occurrence on a tie. */
  lemma ModeIsStable<T>(buf: seq<T>)
    requires |buf| > 0
    ensures IsStableMode(buf, Mode(buf))
  {
    var keys := Seqs.Keys(buf, |buf|);
    var m := multiset(buf);
    Seqs.KeysInOrder(buf, |buf|);
    var p := LastMaxPosition(keys, m);
    LastMaximumIsStable(buf, keys, p);
  }

  /** After reading `buffer[..n]`: `keys` are its distinct entries in first-occurrence order
      and `counts` maps each of them to its number of occurrences. */
  ghost predicate Counted<T>(counts: map<T, nat>, keys: seq<T>, buffer: seq<T>, n: nat)
    requires n <= |buffer|
  {
    && keys == Seqs.Keys(buffer, n)
    && (forall e :: e in counts ==> e in buffer[..n])
    && (forall i :: 0 <= i < n ==> buffer[i] in counts)
    && (forall e :: e in counts ==> counts[e] == multiset(buffer[..n])[e])
  }

  /** Reading one more entry adds one to its count, and adds it as a key when it is new. */
  lemma CountedStep<T>(counts: map<T, nat>, keys: seq<T>, buffer: seq<T>, n: nat)
    requires n < |buffer| && Counted(counts, keys, buffer, n)
    ensures Counted(counts[buffer[n] := (if buffer[n] in counts then counts[buffer[n]] else 0) + 1],
                    if buffer[n] in counts then keys else keys + [buffer[n]], buffer, n + 1)
  {
    var e := buffer[n];
    var pre, post := buffer[..n], buffer[..n + 1];
    var counts' := counts[e := (if e in counts then counts[e] else 0) + 1];
    assert post == pre + [e];
    assert multiset(post) == multiset(pre) + multiset{e};
    Seqs.KeysArePrefix(buffer, n);
    assert e in counts <==> e in keys;
    assert forall x :: x in counts' ==> x in post;
    assert forall i :: 0 <= i < n + 1 ==> buffer[i] in counts';
    forall x | x in counts'
      ensures counts'[x] == multiset(post)[x]
    {
      if x != e {
        assert counts'[x] == counts[x];
      } else if e !in counts {
        assert e !in pre;
      }
    }
  }

  /** Once the whole buffer is read, the keys are its distinct entries and each is mapped to
      its number of occurrences. */
  lemma CountedAll<T>(counts: map<T, nat>, keys: seq<T>, buffer: seq<T>)
    requires Counted(counts, keys, buffer, |buffer|)
    ensures keys == Seqs.Keys(buffer, |buffer|)
    ensures forall k :: 0 <= k < |keys| ==> keys[k] in counts && counts[keys[k]] == multiset(buffer)[keys[k]]
  {
    assert buffer[..|buffer|] == buffer;
    Seqs.KeysArePrefix(buffer, |buffer|);
    forall k | 0 <= k < |keys|
      ensures keys[k] in counts && counts[keys[k]] == multiset(buffer)[keys[k]]
    {
      assert keys[k] in buffer[..|buffer|];
      var i := Seqs.IndexOf(buffer, keys[k]);
      assert buffer[i] in counts;
    }
  }

  /** The `forEach` that fills the `counts` dictionary: its keys are the distinct entries in
      order of first occurrence, each mapped to its number of occurrences. */
  method CountEntries<T(==)>(buffer: seq<T>) returns (counts: map<T, nat>, keys: seq<T>)
    ensures keys == Seqs.Keys(buffer, |buffer|)
    ensures forall k :: 0 <= k < |keys| ==> keys[k] in counts && counts[keys[k]] == multiset(buffer)[keys[k]]
  {
    counts, keys := map[], [];
    var i := 0;
    while i < |buffer|
      invariant 0 <= i <= |buffer|
      invariant Counted(counts, keys, buffer, i)
    {
      var e := buffer[i];
      CountedStep(counts, keys, buffer, i);
      keys := if e in counts then keys else keys + [e];
      counts := counts[e := (if e in counts then counts[e] else 0) + 1];
      i := i + 1;
    }
    CountedAll(counts, keys, buffer);
  }

  /** `keys.reduce((a, b) => counts[a] > counts[b] ? a : b)`, as a position in `keys`. */
  method ReduceToMax<T(==)>(keys: seq<T>, counts: map<T, nat>, ghost m: multiset<T>) returns (di: nat)
    requires |keys| > 0
    requires forall k :: 0 <= k < |keys| ==> keys[k] in counts && counts[keys[k]] == m[keys[k]]
    ensures di < |keys| && keys[di] == LastMax(keys[1..], m, keys[0])
  {
    di := 0;
    var j := 1;
    while j < |keys|
      invariant 1 <= j <= |keys|
      invariant 0 <= di < j
      invariant LastMax(keys[j..], m, keys[di]) == LastMax(keys[1..], m, keys[0])
    {
      assert keys[j..][1..] == keys[j + 1..];
      if !(counts[keys[di]] > counts[keys[j]]) {
        di := j;
      }
      j := j + 1;
    }
  }

  /** The mode of a non-empty buffer, computed as the tracker does: it is the reference mode,
      which `ModeIsStable` shows to be the stable mode. */
  method Dominant<T(==)>(buffer: seq<T>) returns (d: T)
    requires |buffer| > 0
    ensures d == Mode(buffer)
  {
    var counts, keys := CountEntries(buffer);
    var di := ReduceToMax(keys, counts, multiset(buffer));
    d := keys[di];
  }

  /** Two emotions tied at two entries each: the one first seen later wins. */
  lemma TieGoesToLaterKey<T>(a: T, b: T)
    requires a != b
    ensures IsStableMode([a, b, a, b], b)
    ensures !IsStableMode([a, b, a, b], a)
  {
    var buf := [a, b, a, b];
    assert multiset(buf)[a] == 2 && multiset(buf)[b] == 2;
    assert Seqs.IndexOf(buf, a) == 0;
    assert Seqs.IndexOf(buf, b) == 1;
    forall e | e in buf
      ensures multiset(buf)[e] <= multiset(buf)[b]
      ensures multiset(buf)[e] == multiset(buf)[b] ==> Seqs.IndexOf(buf, e) <= Seqs.IndexOf(buf, b)
    {
      assert e == a || e == b;
    }
  }
}
