/** Sequence helpers shared by the pagination driver and the batching steps. */
module Seqs {

  /** Concatenation of a sequence of sequences, in order. */
  function Flatten<T>(ss: seq<seq<T>>): seq<T>
  {
    if ss == [] then [] else ss[0] + Flatten(ss[1..])
  }

  lemma {:induction false} FlattenSnoc<T>(ss: seq<seq<T>>, s: seq<T>)
    ensures Flatten(ss + [s]) == Flatten(ss) + s
  {
    if ss == [] {
      assert ss + [s] == [s];
      assert Flatten([s]) == s + Flatten([s][1..]);
    } else {
      assert (ss + [s])[1..] == ss[1..] + [s];
      FlattenSnoc(ss[1..], s);
    }
  }

  /** The reference definition of "send in batches of n": consecutive pieces of
      s, every one of them n long except a shorter, non-empty last one. */
  function Chunks<T>(s: seq<T>, n: nat): (r: seq<seq<T>>)
    requires n > 0
    ensures Flatten(r) == s
    ensures forall i :: 0 <= i < |r| ==> 0 < |r[i]| <= n
    ensures forall i :: 0 <= i < |r| - 1 ==> |r[i]| == n
    decreases |s|
  {
    if s == [] then []
    else if |s| <= n then
      assert Flatten([s]) == s + Flatten([s][1..]);
      [s]
    else
      var rest := Chunks(s[n..], n);
      assert ([s[..n]] + rest)[1..] == rest;
      assert s == s[..n] + s[n..];
      [s[..n]] + rest
  }

  lemma ChunksOfShort<T>(s: seq<T>, n: nat)
    requires 0 < |s| <= n
    ensures Chunks(s, n) == [s]
  {
  }

  /** A full first batch followed by more elements is chunked as that batch
      followed by the chunks of the rest. */
  lemma ChunksOfFullHead<T>(b: seq<T>, rest: seq<T>, n: nat)
    requires n > 0 && |b| == n && rest != []
    ensures Chunks(b + rest, n) == [b] + Chunks(rest, n)
  {
    var all := b + rest;
    assert all[..n] == b;
    assert all[n..] == rest;
  }

  /** The final flush: a non-empty remainder is one last batch. */
  function LastBatch<T>(tail: seq<T>): seq<seq<T>>
  {
    if tail == [] then [] else [tail]
  }

  /** One full batch in front keeps "chunks of what was pushed" equal to the
      batches sent. */
  lemma FullBatchInFront<T>(b: seq<T>, more: seq<seq<T>>, tail: seq<T>, n: nat)
    requires n > 0 && |b| == n && |tail| < n
    requires Chunks(Flatten(more) + tail, n) == more + LastBatch(tail)
    ensures Chunks(Flatten([b] + more) + tail, n) == [b] + more + LastBatch(tail)
  {
    var rest := Flatten(more) + tail;
    assert Flatten([b] + more) + tail == b + rest by {
      assert ([b] + more)[1..] == more;
      AppendAssoc(b, Flatten(more), tail);
    }
    if rest == [] {
      assert more + LastBatch(tail) == [];
      ChunksOfShort(b, n);
    } else {
      ChunksOfFullHead(b, rest, n);
      AppendAssoc([b], more, LastBatch(tail));
    }
  }

  /** A buffer that is flushed whenever it holds n elements, plus a final flush
      of a non-empty remainder, sends exactly Chunks of what was pushed. */
  lemma {:induction false} FullBatchesAreChunks<T>(bs: seq<seq<T>>, tail: seq<T>, n: nat)
    requires n > 0
    requires forall i :: 0 <= i < |bs| ==> |bs[i]| == n
    requires |tail| < n
    ensures Chunks(Flatten(bs) + tail, n) == bs + LastBatch(tail)
  {
    if bs == [] {
      assert Flatten(bs) + tail == tail;
      if tail != [] {
        ChunksOfShort(tail, n);
      }
    } else {
      FullBatchesAreChunks(bs[1..], tail, n);
      assert bs == [bs[0]] + bs[1..];
      FullBatchInFront(bs[0], bs[1..], tail, n);
    }
  }

  /** f applied to every element, in order. */
  function Map<A, B>(s: seq<A>, f: A -> B): (r: seq<B>)
    ensures |r| == |s|
    ensures forall i :: 0 <= i < |s| ==> r[i] == f(s[i])
  {
    if s == [] then [] else Map(s[..|s| - 1], f) + [f(s[|s| - 1])]
  }

  /** Every element in a batch of its own, as one call per element sends them. */
  function Singletons<T>(s: seq<T>): (r: seq<seq<T>>)
    ensures |r| == |s|
    ensures forall i :: 0 <= i < |s| ==> r[i] == [s[i]]
  {
    if s == [] then [] else Singletons(s[..|s| - 1]) + [[s[|s| - 1]]]
  }

  lemma MapSnoc<A, B>(s: seq<A>, x: A, f: A -> B)
    ensures Map(s + [x], f) == Map(s, f) + [f(x)]
  {
    assert (s + [x])[..|s|] == s;
  }

  lemma SingletonsSnoc<T>(s: seq<T>, x: T)
    ensures Singletons(s + [x]) == Singletons(s) + [[x]]
  {
    assert (s + [x])[..|s|] == s;
  }

  /** Growing a prefix of s by one element. */
  lemma PrefixSnoc<T>(s: seq<T>, i: nat)
    requires i < |s|
    ensures s[..i + 1] == s[..i] + [s[i]]
  {
  }

  lemma AppendSnoc<T>(a: seq<T>, b: seq<T>, x: T)
    ensures a + (b + [x]) == a + b + [x]
  {
  }

  lemma {:induction false} FlattenAppend<T>(a: seq<seq<T>>, b: seq<seq<T>>)
    ensures Flatten(a + b) == Flatten(a) + Flatten(b)
  {
    if a == [] {
      assert a + b == b;
    } else {
      assert (a + b)[1..] == a[1..] + b;
      FlattenAppend(a[1..], b);
    }
  }

  /** Pushing `more` through a buffer that sends only full batches of n keeps
      "what was sent, followed by the buffer" equal to everything pushed so
      far, and every batch sent full. */
  lemma BufferStep<T>(full: seq<seq<T>>, buf: seq<T>, flushed: seq<seq<T>>, rest: seq<T>,
                      pushed: seq<T>, more: seq<T>, n: nat)
    requires Flatten(full) + buf == pushed
    requires Flatten(flushed) + rest == buf + more
    requires forall i :: 0 <= i < |full| ==> |full[i]| == n
    requires forall i :: 0 <= i < |flushed| ==> |flushed[i]| == n
    ensures Flatten(full + flushed) + rest == pushed + more
    ensures forall i :: 0 <= i < |full + flushed| ==> |(full + flushed)[i]| == n
  {
    FlattenAppend(full, flushed);
    calc {
      Flatten(full + flushed) + rest;
      Flatten(full) + Flatten(flushed) + rest;
      { AppendAssoc(Flatten(full), Flatten(flushed), rest); }
      Flatten(full) + (Flatten(flushed) + rest);
      Flatten(full) + (buf + more);
      { AppendAssoc(Flatten(full), buf, more); }
      Flatten(full) + buf + more;
    }
    forall i | 0 <= i < |full + flushed|
      ensures |(full + flushed)[i]| == n
    {
      if i < |full| {
        assert (full + flushed)[i] == full[i];
      } else {
        assert (full + flushed)[i] == flushed[i - |full|];
      }
    }
  }

  lemma AppendAssoc<T>(a: seq<T>, b: seq<T>, c: seq<T>)
    ensures a + (b + c) == a + b + c
  {
  }

  /** The indices below n at which p holds, in increasing order: the
      positions a filter keeps, each once. */
  function IndicesWhere(n: nat, p: nat -> bool): seq<nat>
  {
    if n == 0 then [] else IndicesWhere(n - 1, p) + (if p(n - 1) then [n - 1] else [])
  }

  /** idx lists, in increasing order and so each once, exactly the indices
      below n at which p holds. */
  ghost predicate Selects(idx: seq<nat>, n: nat, p: nat -> bool)
  {
    && (forall j :: 0 <= j < |idx| ==> idx[j] < n && p(idx[j]))
    && (forall j, k :: 0 <= j < k < |idx| ==> idx[j] < idx[k])
    && (forall i :: 0 <= i < n && p(i) ==> i in idx)
  }

  lemma {:induction false} IndicesWhereSelects(n: nat, p: nat -> bool)
    ensures Selects(IndicesWhere(n, p), n, p)
  {
    if n > 0 {
      IndicesWhereSelects(n - 1, p);
    }
  }
}
