/** Splitting a sample stream into consecutive slices of a fixed size, as both
    `slice::chunks` and the push-and-flush loop of the transcriber do. */
module Chunking {

  /** The slices that `chunks(n)` yields: consecutive pieces of `n` elements,
      the last one possibly shorter, and none at all for an empty input. */
  function Chunks<T>(s: seq<T>, n: nat): seq<seq<T>>
    requires n > 0
    decreases |s|
  {
    if |s| == 0 then []
    else if |s| <= n then [s]
    else [s[..n]] + Chunks(s[n..], n)
  }

  /** Concatenation of a sequence of slices, in order. */
  function Flatten<T>(ss: seq<seq<T>>): seq<T>
  {
    if ss == [] then [] else ss[0] + Flatten(ss[1..])
  }

  /** Total number of elements held by a sequence of slices. */
  function TotalLength<T>(ss: seq<seq<T>>): nat
  {
    if ss == [] then 0 else |ss[0]| + TotalLength(ss[1..])
  }

  lemma {:induction false} FlattenLength<T>(ss: seq<seq<T>>)
    ensures |Flatten(ss)| == TotalLength(ss)
  {
    if ss != [] {
      FlattenLength(ss[1..]);
    }
  }

  /** Nothing is lost or duplicated: the chunks, concatenated in order, give back the input. */
  lemma {:induction false} ChunksFlatten<T>(s: seq<T>, n: nat)
    requires n > 0
    ensures Flatten(Chunks(s, n)) == s
    decreases |s|
  {
    if |s| == 0 {
    } else if |s| <= n {
      assert Flatten([s]) == s + Flatten([s][1..]);
    } else {
      var rest := Chunks(s[n..], n);
      assert ([s[..n]] + rest)[1..] == rest;
      ChunksFlatten(s[n..], n);
      assert s == s[..n] + s[n..];
    }
  }

  /** Every element of every chunk is an element of the input. */
  lemma {:induction false} ChunksElements<T>(s: seq<T>, n: nat)
    requires n > 0
    ensures forall c, x :: c in Chunks(s, n) && x in c ==> x in s
    decreases |s|
  {
    if |s| > n {
      ChunksElements(s[n..], n);
      assert forall x :: x in s[..n] ==> x in s;
      assert forall x :: x in s[n..] ==> x in s;
    }
  }

  /** Every chunk but the last is exactly `n` long; the last is between 1 and `n` and holds
      what the full ones leave over; there are ceil(|s| / n) of them, and none exactly when
      the input is empty. */
  lemma ChunksShape<T>(s: seq<T>, n: nat)
    requires n > 0
    ensures var c := Chunks(s, n);
      && (forall i :: 0 <= i < |c| - 1 ==> |c[i]| == n)
      && (forall i :: 0 <= i < |c| ==> 1 <= |c[i]| <= n)
      && (c == [] <==> s == [])
      && (c != [] ==> |c[|c| - 1]| == |s| - (|c| - 1) * n)
      && |c| == (|s| + n - 1) / n
  {
    ChunksSizes(s, n);
    ChunksCount(s, n);
    if s != [] {
      ChunksLast(s, n);
    }
  }

  lemma {:induction false} ChunksSizes<T>(s: seq<T>, n: nat)
    requires n > 0
    ensures var c := Chunks(s, n);
      && (forall i :: 0 <= i < |c| - 1 ==> |c[i]| == n)
      && (forall i :: 0 <= i < |c| ==> 1 <= |c[i]| <= n)
      && (c == [] <==> s == [])
    decreases |s|
  {
    if |s| > n {
      var rest := Chunks(s[n..], n);
      ChunksSizes(s[n..], n);
      assert forall i :: 1 <= i < |rest| + 1 ==> ([s[..n]] + rest)[i] == rest[i - 1];
    }
  }

  lemma {:induction false} ChunksCount<T>(s: seq<T>, n: nat)
    requires n > 0
    ensures |Chunks(s, n)| == (|s| + n - 1) / n
    decreases |s|
  {
    if |s| == 0 {
    } else if |s| <= n {
      DivUnique(|s| + n - 1, n, 1, |s| - 1);
    } else {
      var rest := s[n..];
      assert |Chunks(s, n)| == 1 + |Chunks(rest, n)|;
      ChunksCount(rest, n);
      DivShift(|rest| + n - 1, n);
      assert |rest| + n - 1 + n == |s| + n - 1;
    }
  }

  lemma {:induction false} ChunksLast<T>(s: seq<T>, n: nat)
    requires n > 0 && s != []
    ensures |Chunks(s, n)| > 0
    ensures |Chunks(s, n)[|Chunks(s, n)| - 1]| + (|Chunks(s, n)| - 1) * n == |s|
    decreases |s|
  {
    if |s| > n {
      var rest := Chunks(s[n..], n);
      ChunksLast(s[n..], n);
      var c := Chunks(s, n);
      assert c == [s[..n]] + rest;
      assert c[|c| - 1] == rest[|rest| - 1];
      MulSucc(|rest| - 1, n);
    }
  }

  lemma MulSucc(k: nat, n: nat)
    ensures (k + 1) * n == k * n + n
  {
  }

  lemma DivShift(a: nat, n: nat)
    requires n > 0
    ensures (a + n) / n == a / n + 1
  {
    var q, r := a / n, a % n;
    assert a == q * n + r && 0 <= r < n;
    assert a + n == (q + 1) * n + r;
    DivUnique(a + n, n, q + 1, r);
  }

  /** Euclidean division has a single quotient. */
  lemma DivUnique(a: nat, n: nat, q: int, r: int)
    requires n > 0 && a == q * n + r && 0 <= r < n
    ensures a / n == q
  {
    var q', r' := a / n, a % n;
    var d := q' - q;
    assert d * n == r - r';
    if d >= 1 {
      MulAtLeast(d, n);
    } else if d <= -1 {
      MulAtLeast(-d, n);
    }
  }

  lemma MulAtLeast(d: int, n: nat)
    requires d >= 1
    ensures d * n >= n
  {
    assert d * n == n + (d - 1) * n;
  }

  /** Appending one more piece of at most `n` elements to a whole number of chunks adds
      exactly that piece as the last chunk: this is what a flush of the streaming loop does. */
  lemma {:induction false} ChunksAppend<T>(s: seq<T>, w: seq<T>, n: nat)
    requires n > 0 && |s| % n == 0 && 1 <= |w| <= n
    ensures Chunks(s + w, n) == Chunks(s, n) + [w]
    decreases |s|
  {
    if |s| == 0 {
      assert s + w == w;
    } else {
      ModStep(|s|, n);
      assert (s + w)[..n] == s[..n];
      assert (s + w)[n..] == s[n..] + w;
      ChunksAppend(s[n..], w, n);
      if |s| == n {
        assert s[n..] == [];
      }
    }
  }

  lemma ModStep(a: nat, n: nat)
    requires n > 0 && a > 0 && a % n == 0
    ensures a >= n && (a - n) % n == 0
  {
    var q := a / n;
    assert a == q * n;
    assert q >= 1;
    MulAtLeast(q, n);
    assert a - n == (q - 1) * n;
    DivUnique(a - n, n, q - 1, 0);
  }

  lemma MultipleMod(k: nat, n: nat)
    requires n > 0
    ensures (k * n) % n == 0
  {
    DivUnique(k * n, n, k, 0);
  }
}
