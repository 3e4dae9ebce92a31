/**
 * The two folds the streaming code applies to chunk sequences:
 * appending text pieces into an optional running total
 * (`*acc.get_or_insert_default() += piece`) and keeping the last present value
 * (`if let Some(u) = x { acc = Some(u) }`).
 */
module Accumulation {
  import opened Wrappers

  /** The sequence of `f` applied to each element, in order. */
  function Map<T, U>(xs: seq<T>, f: T -> U): (ys: seq<U>)
    ensures |ys| == |xs|
    ensures forall i :: 0 <= i < |xs| ==> ys[i] == f(xs[i])
  {
    seq(|xs|, i requires 0 <= i < |xs| => f(xs[i]))
  }

  lemma MapSnoc<T, U>(xs: seq<T>, x: T, f: T -> U)
    ensures Map(xs + [x], f) == Map(xs, f) + [f(x)]
  {
  }

  /** One accumulation step: a present piece is appended, creating the total if needed. */
  function Append(acc: Option<string>, piece: Option<string>): Option<string>
  {
    match piece
    case None => acc
    case Some(p) => Some(acc.GetOr("") + p)
  }

  /** The running total after folding every piece, in arrival order. */
  function ConcatSome(pieces: seq<Option<string>>): Option<string>
    decreases |pieces|
  {
    if pieces == [] then None
    else Append(ConcatSome(pieces[..|pieces| - 1]), pieces[|pieces| - 1])
  }

  lemma ConcatSomeSnoc(pieces: seq<Option<string>>, p: Option<string>)
    ensures ConcatSome(pieces + [p]) == Append(ConcatSome(pieces), p)
  {
    assert (pieces + [p])[..|pieces|] == pieces;
  }

  /** The present pieces, in order: a value is among them exactly when some element holds it. */
  function Somes<T>(xs: seq<Option<T>>): (ys: seq<T>)
    ensures forall i :: 0 <= i < |xs| && xs[i].Some? ==> xs[i].value in ys
    ensures forall j :: 0 <= j < |ys| ==> Some(ys[j]) in xs
    decreases |xs|
  {
    if xs == [] then []
    else Somes(xs[..|xs| - 1]) + (match xs[|xs| - 1] case Some(v) => [v] case None => [])
  }

  /** The concatenation of strings, in order. */
  function Concat(ss: seq<string>): string
    decreases |ss|
  {
    if ss == [] then "" else Concat(ss[..|ss| - 1]) + ss[|ss| - 1]
  }

  /**
   * The fold creates a total exactly when some piece is present, and the total
   * is then the in-order concatenation of the present pieces.
   */
  lemma {:induction false} ConcatSomeIsConcatOfSomes(pieces: seq<Option<string>>)
    ensures ConcatSome(pieces) == if Somes(pieces) == [] then None else Some(Concat(Somes(pieces)))
    decreases |pieces|
  {
    if pieces != [] {
      var init := pieces[..|pieces| - 1];
      ConcatSomeIsConcatOfSomes(init);
      match pieces[|pieces| - 1]
      case None =>
        assert Somes(pieces) == Somes(init) + [] == Somes(init);
        assert ConcatSome(pieces) == ConcatSome(init);
      case Some(p) =>
        var ss := Somes(init) + [p];
        assert Somes(pieces) == ss;
        assert ss[..|ss| - 1] == Somes(init);
        if Somes(init) == [] {
          assert Concat(ss) == Concat([]) + p;
        }
    }
  }

  /** No present piece leaves the total absent; any present piece, even "", creates it. */
  lemma {:induction false} ConcatSomePresentIff(pieces: seq<Option<string>>)
    ensures ConcatSome(pieces).Some? <==> exists i :: 0 <= i < |pieces| && pieces[i].Some?
    decreases |pieces|
  {
    if pieces != [] {
      var init := pieces[..|pieces| - 1];
      ConcatSomePresentIff(init);
      if exists i :: 0 <= i < |init| && init[i].Some? {
        var i :| 0 <= i < |init| && init[i].Some?;
        assert pieces[i] == init[i];
      }
      if exists i :: 0 <= i < |pieces| && pieces[i].Some? {
        var i :| 0 <= i < |pieces| && pieces[i].Some?;
        if i < |init| { assert init[i] == pieces[i]; }
      }
    }
  }

  /** The last present value (last write wins). */
  function LastSome<T>(xs: seq<Option<T>>): Option<T>
    decreases |xs|
  {
    if xs == [] then None
    else if xs[|xs| - 1].Some? then xs[|xs| - 1]
    else LastSome(xs[..|xs| - 1])
  }

  lemma LastSomeSnoc<T>(xs: seq<Option<T>>, x: Option<T>)
    ensures LastSome(xs + [x]) == if x.Some? then x else LastSome(xs)
  {
    assert (xs + [x])[..|xs|] == xs;
  }

  /**
   * The result is absent exactly when every value is absent; otherwise it is
   * the value at some position after which every value is absent.
   */
  lemma {:induction false} LastSomeIsLastWrite<T>(xs: seq<Option<T>>)
    ensures LastSome(xs).None? <==> forall i :: 0 <= i < |xs| ==> xs[i].None?
    ensures LastSome(xs).Some? ==>
      exists i :: 0 <= i < |xs| && xs[i] == LastSome(xs) && forall j :: i < j < |xs| ==> xs[j].None?
    decreases |xs|
  {
    if xs != [] {
      var init := xs[..|xs| - 1];
      LastSomeIsLastWrite(init);
      if xs[|xs| - 1].None? {
        if LastSome(init).Some? {
          var i :| 0 <= i < |init| && init[i] == LastSome(init) && forall j :: i < j < |init| ==> init[j].None?;
          assert xs[i] == init[i];
        }
        if !(forall i :: 0 <= i < |xs| ==> xs[i].None?) {
          var i :| 0 <= i < |xs| && xs[i].Some?;
          assert init[i] == xs[i];
        }
      } else {
        assert xs[|xs| - 1] == LastSome(xs);
      }
    }
  }
}
