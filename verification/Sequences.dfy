/** What several modules need of sequences. */
module Sequences {
  import opened Wrappers

  /** What an optional message adds to what was sent. */
  function Post<T>(out: Option<T>): seq<T> {
    if out.Some? then [out.value] else []
  }

  lemma Regroup<T>(a: seq<T>, b: seq<T>, c: seq<T>)
    ensures a + (b + c) == a + b + c
  {
  }

  /** To every element of `xs` belongs one of `ys`, each its own, in the same order. */
  predicate Embeds<A, B>(belongs: (A, B) -> bool, xs: seq<A>, ys: seq<B>)
    decreases |ys|
  {
    xs == [] ||
    (ys != [] && ((belongs(xs[0], ys[0]) && Embeds(belongs, xs[1..], ys[1..])) || Embeds(belongs, xs, ys[1..])))
  }

  /** What belongs to the first of `ys`, if anything, and before what belongs to the rest. */
  lemma EmbedsMore<A, B>(belongs: (A, B) -> bool, first: seq<A>, rest: seq<A>, ys: seq<B>)
    requires ys != [] && |first| <= 1 && forall x | x in first :: belongs(x, ys[0])
    requires Embeds(belongs, rest, ys[1..])
    ensures Embeds(belongs, first + rest, ys)
  {
    if first == [] {
      assert first + rest == rest;
    } else {
      assert first[0] in first && (first + rest)[0] == first[0] && (first + rest)[1..] == rest;
    }
  }

  /** Where the elements of `ys` are that belong to those of `xs`. */
  lemma {:induction false} Embedding<A, B>(belongs: (A, B) -> bool, xs: seq<A>, ys: seq<B>) returns (places: seq<nat>)
    requires Embeds(belongs, xs, ys)
    ensures |places| == |xs|
    ensures forall i | 0 <= i < |xs| :: places[i] < |ys| && belongs(xs[i], ys[places[i]])
    ensures forall i, j | 0 <= i < j < |xs| :: places[i] < places[j]
    decreases |ys|
  {
    if xs == [] {
      places := [];
    } else if belongs(xs[0], ys[0]) && Embeds(belongs, xs[1..], ys[1..]) {
      var rest := Embedding(belongs, xs[1..], ys[1..]);
      places := [0] + seq(|rest|, i requires 0 <= i < |rest| => rest[i] + 1);
    } else {
      var rest := Embedding(belongs, xs, ys[1..]);
      places := seq(|rest|, i requires 0 <= i < |rest| => rest[i] + 1);
    }
  }
}
