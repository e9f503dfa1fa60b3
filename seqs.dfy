/** Sequence helpers shared by the two batching loops: concatenation of
    batches and cutting a stream into fixed-size batches. */
module Seqs {

  /** The concatenation of a list of batches, in order. */
  function Flatten<T>(batches: seq<seq<T>>): (r: seq<T>)
  {
    if batches == [] then [] else Flatten(batches[..|batches| - 1]) + batches[|batches| - 1]
  }

  lemma {:induction false} FlattenAppend<T>(a: seq<seq<T>>, b: seq<seq<T>>)
    ensures Flatten(a + b) == Flatten(a) + Flatten(b)
    decreases |b|
  {
    if b == [] {
      assert a + b == a;
    } else {
      var b' := b[..|b| - 1];
      var last := b[|b| - 1];
      assert (a + b)[..|a + b| - 1] == a + b';
      assert (a + b)[|a + b| - 1] == last;
      assert Flatten(a + b) == Flatten(a + b') + last;
      assert Flatten(b) == Flatten(b') + last;
      FlattenAppend(a, b');
    }
  }

  /** `s` cut into consecutive batches of `k` elements; the last batch holds
      the remainder and is present only when the remainder is not empty. */
  function Chunks<T>(s: seq<T>, k: nat): (r: seq<seq<T>>)
    requires k >= 1
    decreases |s|
  {
    if s == [] then []
    else if |s| <= k then [s]
    else [s[..k]] + Chunks(s[k..], k)
  }

  /** Putting the batches back together gives the stream. */
  lemma {:induction false} FlattenChunks<T>(s: seq<T>, k: nat)
    requires k >= 1
    ensures Flatten(Chunks(s, k)) == s
    decreases |s|
  {
    if s == [] {
    } else if |s| <= k {
      assert [s] == [] + [s];
      assert Flatten([s]) == Flatten([]) + s;
    } else {
      FlattenChunks(s[k..], k);
      FlattenAppend([s[..k]], Chunks(s[k..], k));
      assert [s[..k]] == [] + [s[..k]];
      assert Flatten([s[..k]]) == Flatten([]) + s[..k];
      assert s[..k] + s[k..] == s;
    }
  }

  /** Every batch but the last holds exactly `k` elements; the last one holds
      between 1 and `k`. */
  lemma {:induction false} ChunkSizes<T>(s: seq<T>, k: nat)
    requires k >= 1
    ensures forall i :: 0 <= i < |Chunks(s, k)| - 1 ==> |Chunks(s, k)[i]| == k
    ensures Chunks(s, k) != [] ==> 0 < |Chunks(s, k)[|Chunks(s, k)| - 1]| <= k
    decreases |s|
  {
    if s == [] || |s| <= k {
    } else {
      ChunkSizes(s[k..], k);
      var rest := Chunks(s[k..], k);
      assert Chunks(s, k) == [s[..k]] + rest;
      forall i | 0 <= i < |Chunks(s, k)| - 1
        ensures |Chunks(s, k)[i]| == k
      {
        if i > 0 { assert Chunks(s, k)[i] == rest[i - 1]; }
      }
    }
  }

  /** `s` is made of whole batches of `k` elements. */
  predicate IsWhole<T>(s: seq<T>, k: nat)
    requires k >= 1
    decreases |s|
  {
    s == [] || (|s| >= k && IsWhole(s[k..], k))
  }

  /** A stream of whole batches followed by one more batch of `k` elements
      is a stream of whole batches. */
  lemma {:induction false} WholeAppend<T>(s: seq<T>, t: seq<T>, k: nat)
    requires k >= 1 && IsWhole(s, k) && |t| == k
    ensures IsWhole(s + t, k)
    decreases |s|
  {
    if s == [] {
      assert s + t == t;
      assert t[k..] == [];
    } else {
      assert (s + t)[k..] == s[k..] + t;
      WholeAppend(s[k..], t, k);
    }
  }

  /** Appending a batch of at most `k` elements to a stream of whole batches
      appends that batch to the chunking. */
  lemma {:induction false} ChunksAppend<T>(s: seq<T>, t: seq<T>, k: nat)
    requires k >= 1
    requires IsWhole(s, k)
    requires 0 < |t| <= k
    ensures Chunks(s + t, k) == Chunks(s, k) + [t]
    decreases |s|
  {
    if s == [] {
      assert s + t == t;
    } else {
      assert |s| >= k;
      assert (s + t)[..k] == s[..k];
      assert (s + t)[k..] == s[k..] + t;
      ChunksAppend(s[k..], t, k);
      if |s| == k {
        assert s[k..] == [];
        assert Chunks(s, k) == [s];
      } else {
        assert Chunks(s, k) == [s[..k]] + Chunks(s[k..], k);
      }
    }
  }

  /** Appending two sequences one after another appends their concatenation. */
  lemma AppendTwo<T>(s: seq<T>, a: seq<T>, b: seq<T>)
    ensures s + a + b == s + (a + b)
  {
  }

  /** Appending three sequences one after another appends their concatenation. */
  lemma AppendThree<T>(s: seq<T>, a: seq<T>, b: seq<T>, d: seq<T>)
    ensures s + a + b + d == s + (a + b + d)
  {
  }
}
