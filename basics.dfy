/** Value wrappers and the few Swift collection operations the sources rely on. */
module Basics {

  /** Swift's `Optional`. */
  datatype Option<+T> = None | Some(value: T)

  /** Swift's `Result<Success, Failure>`. */
  datatype Result<+T, +E> = Success(value: T) | Failure(error: E)

  /** `xs.compactMap { $0 }`: the present elements of `xs`, in their order. */
  function CompactMap<T>(xs: seq<Option<T>>): (r: seq<T>)
    ensures |r| <= |xs|
    ensures forall i :: 0 <= i < |r| ==> Some(r[i]) in xs
    ensures forall i :: 0 <= i < |xs| && xs[i].Some? ==> xs[i].value in r
  {
    if xs == [] then []
    else (match xs[0] case Some(x) => [x] case None => []) + CompactMap(xs[1..])
  }

  /** The elements a two-element `compactMap` keeps. */
  lemma CompactMapPair<T>(a: Option<T>, b: Option<T>)
    ensures CompactMap([a, b]) == (if a.Some? then [a.value] else []) + (if b.Some? then [b.value] else [])
  {
    assert [a, b][1..] == [b];
    assert [b][1..] == [];
  }

  /** `xs.first`. */
  function First<T>(xs: seq<T>): (r: Option<T>)
    ensures r.Some? <==> |xs| > 0
    ensures r.Some? ==> r.value == xs[0]
  {
    if |xs| == 0 then None else Some(xs[0])
  }

  /** `parts.joined(separator: sep)`. */
  function Joined(parts: seq<string>, sep: string): string
  {
    if |parts| == 0 then ""
    else if |parts| == 1 then parts[0]
    else parts[0] + sep + Joined(parts[1..], sep)
  }

  /** Joining one part gives it back; joining two puts the separator between them. */
  lemma JoinedShort(a: string, b: string, sep: string)
    ensures Joined([a], sep) == a
    ensures Joined([a, b], sep) == a + sep + b
  {
    assert [a, b][1..] == [b];
  }
}
