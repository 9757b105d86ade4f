/**
 * Concatenation of a sequence of blocks, the shape of every "for each item,
 * paint its commands" loop in the renderer, with the few facts about it the
 * renderer's proofs use.
 */
module Seqs {

  /** The blocks of s, one after another. */
  function Concat<T>(s: seq<seq<T>>): seq<T>
  {
    if s == [] then [] else Concat(s[..|s| - 1]) + s[|s| - 1]
  }

  lemma AppendAssoc<T>(a: seq<T>, b: seq<T>, c: seq<T>)
    ensures (a + b) + c == a + (b + c)
  {
  }

  /** Taking one more block appends that block. */
  lemma ConcatSnoc<T>(s: seq<seq<T>>, i: nat)
    requires i < |s|
    ensures Concat(s[..i + 1]) == Concat(s[..i]) + s[i]
  {
    assert s[..i + 1][..i] == s[..i];
  }

  /** Concatenation distributes over appending block lists. */
  lemma {:induction false} ConcatAppend<T>(a: seq<seq<T>>, b: seq<seq<T>>)
    ensures Concat(a + b) == Concat(a) + Concat(b)
    decreases |b|
  {
    if b == [] {
      assert a + b == a;
    } else {
      var b' := b[..|b| - 1];
      var last := b[|b| - 1];
      assert (a + b)[..|a + b| - 1] == a + b';
      assert (a + b)[|a + b| - 1] == last;
      ConcatAppend(a, b');
      AppendAssoc(Concat(a), Concat(b'), last);
    }
  }

  /** The first element of block i sits right after the blocks before it. */
  lemma ConcatAt<T>(s: seq<seq<T>>, i: nat)
    requires i < |s| && |s[i]| > 0
    ensures |Concat(s[..i])| < |Concat(s)|
    ensures Concat(s)[|Concat(s[..i])|] == s[i][0]
  {
    assert s == s[..i] + s[i..];
    ConcatAppend(s[..i], s[i..]);
    assert s[i..] == [s[i]] + s[i + 1..];
    ConcatAppend([s[i]], s[i + 1..]);
    assert [s[i]] == [] + [s[i]];
    assert Concat([s[i]]) == s[i];
  }

  /** An element property that holds in every block holds throughout the concatenation. */
  lemma {:induction false} ConcatAll<T>(s: seq<seq<T>>, P: T -> bool)
    requires forall j, l :: 0 <= j < |s| && 0 <= l < |s[j]| ==> P(s[j][l])
    ensures forall k :: 0 <= k < |Concat(s)| ==> P(Concat(s)[k])
    decreases |s|
  {
    if s != [] {
      var init := s[..|s| - 1];
      assert forall j, l :: 0 <= j < |init| && 0 <= l < |init[j]| ==> init[j][l] == s[j][l];
      ConcatAll(init, P);
      var c := Concat(s);
      forall k | 0 <= k < |c| ensures P(c[k]) {
        if k < |Concat(init)| {
          assert c[k] == Concat(init)[k];
        } else {
          assert c[k] == s[|s| - 1][k - |Concat(init)|];
        }
      }
    }
  }
}
