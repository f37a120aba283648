/** Sequence helpers: first occurrence, first-occurrence key order (the order of a
    JavaScript object's or Python dict's keys filled from a list), and bounded windows. */
module Seqs {

  /** Position of the first occurrence of `x` in `s`. */
  function IndexOf<T(==)>(s: seq<T>, x: T): (i: nat)
    requires x in s
    ensures i < |s| && s[i] == x && x !in s[..i]
  {
    if s[0] == x then 0
    else
      var j := IndexOf(s[1..], x);
      assert s[1..][..j] == s[1..j + 1];
      assert s[..j + 1] == [s[0]] + s[1..j + 1];
      j + 1
  }

  lemma IndexOfPrefix<T>(s: seq<T>, x: T, i: nat)
    requires i <= |s| && x in s
    ensures x in s[..i] <==> IndexOf(s, x) < i
  {
    var k := IndexOf(s, x);
    if k < i {
      assert s[..i][k] == x;
    } else {
      assert forall m :: 0 <= m < i ==> s[..i][m] == s[..k][m];
    }
  }

  /** `keys` lists the distinct elements of `s[..n]` in order of first occurrence. */
  ghost predicate KeyOrder<T>(keys: seq<T>, s: seq<T>, n: nat)
    requires n <= |s|
  {
    && (forall j :: 0 <= j < |keys| ==> keys[j] in s[..n])
    && (forall i :: 0 <= i < n ==> s[i] in keys)
    && (forall j, k :: 0 <= j < k < |keys| ==> keys[j] in s && keys[k] in s && IndexOf(s, keys[j]) < IndexOf(s, keys[k]))
  }

  lemma KeyOrderDistinct<T>(keys: seq<T>, s: seq<T>, n: nat)
    requires n <= |s| && KeyOrder(keys, s, n)
    ensures forall j, k :: 0 <= j < k < |keys| ==> keys[j] != keys[k]
  {
  }

  /** The distinct entries of `s[..n]` in order of first occurrence: the keys of a
      dictionary filled from `s[..n]`. */
  function Keys<T(==)>(s: seq<T>, n: nat): (keys: seq<T>)
    requires n <= |s|
    ensures |keys| <= n && (n > 0 ==> |keys| > 0)
  {
    if n == 0 then []
    else
      var keys := Keys(s, n - 1);
      if s[n - 1] in keys then keys else keys + [s[n - 1]]
  }

  lemma {:induction false} KeysInOrder<T>(s: seq<T>, n: nat)
    requires n <= |s|
    ensures KeyOrder(Keys(s, n), s, n)
  {
    if n > 0 {
      KeysInOrder(s, n - 1);
      KeysStep(s, n - 1);
    }
  }

  /** Reading one more element of `s` keeps the key order, adding the element when it is new. */
  lemma KeysStep<T>(s: seq<T>, n: nat)
    requires n < |s| && KeyOrder(Keys(s, n), s, n)
    ensures KeyOrder(Keys(s, n + 1), s, n + 1)
  {
    var keys, next := Keys(s, n), Keys(s, n + 1);
    assert s[..n + 1] == s[..n] + [s[n]];
    if s[n] in keys {
      assert next == keys;
    } else {
      assert next == keys + [s[n]];
      IndexOfPrefix(s, s[n], n);
      IndexOfPrefix(s, s[n], n + 1);
      forall j, k | 0 <= j < k < |next|
        ensures next[j] in s && next[k] in s && IndexOf(s, next[j]) < IndexOf(s, next[k])
      {
        if k == |keys| {
          IndexOfPrefix(s, keys[j], n);
        }
      }
    }
    assert forall j :: 0 <= j < |next| ==> next[j] in s[..n + 1];
    assert forall i :: 0 <= i < n + 1 ==> s[i] in next;
  }

  /** The keys are exactly the elements read so far. */
  lemma {:induction false} KeysArePrefix<T>(s: seq<T>, n: nat)
    requires n <= |s|
    ensures forall x :: x in Keys(s, n) <==> x in s[..n]
  {
    if n > 0 {
      KeysArePrefix(s, n - 1);
      assert s[..n] == s[..n - 1] + [s[n - 1]];
    }
  }

  /** The last `cap` elements of `s` (all of it when it is shorter). */
  function Window<T>(s: seq<T>, cap: nat): (r: seq<T>)
    ensures |r| == if |s| <= cap then |s| else cap
    ensures r == s[|s| - |r|..]
  {
    if |s| <= cap then s else s[|s| - cap..]
  }

  /** Pushing onto a full window drops exactly its oldest element; the newest is last. */
  lemma WindowPush<T>(buf: seq<T>, x: T, cap: nat)
    requires 0 < cap && |buf| <= cap
    ensures |Window(buf + [x], cap)| <= cap
    ensures Window(buf + [x], cap)[|Window(buf + [x], cap)| - 1] == x
    ensures |buf| < cap ==> Window(buf + [x], cap) == buf + [x]
    ensures |buf| == cap ==> Window(buf + [x], cap) == buf[1..] + [x]
  {
    if |buf| == cap {
      assert (buf + [x])[1..] == buf[1..] + [x];
    }
  }

  /** Appends `x`, then drops the oldest element once if that overflows `cap`. */
  function Push<T>(buf: seq<T>, x: T, cap: nat): seq<T> {
    if |buf + [x]| > cap then (buf + [x])[1..] else buf + [x]
  }

  /** `push(x)` followed by `shift()` when the length went past `cap`. */
  method PushShift<T>(buf: seq<T>, x: T, cap: nat) returns (r: seq<T>)
    ensures r == Push(buf, x, cap)
  {
    r := buf + [x];
    if |r| > cap {
      r := r[1..];
    }
  }

  /** Within capacity, pushing keeps exactly the window of the last `cap` elements. */
  lemma PushIsWindow<T>(buf: seq<T>, x: T, cap: nat)
    requires 0 < cap && |buf| <= cap
    ensures Push(buf, x, cap) == Window(buf + [x], cap)
  {
  }
}
