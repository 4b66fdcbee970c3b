/**
 * Optional values and error results: `None` stands for Python's `None`
 * (or pandas' NaN where a number is undefined), `Err` for a raised exception.
 */
module Maybe {

  datatype Option<+T> = None | Some(value: T) {
    function GetOr(default: T): T {
      match this
      case Some(v) => v
      case None => default
    }
  }

  datatype Result<+T> = Ok(value: T) | Err(msg: string)

  /** The present values of `xs`, in order. */
  function Somes<T>(xs: seq<Option<T>>): (r: seq<T>)
    ensures |r| <= |xs|
    decreases |xs|
  {
    if xs == [] then []
    else
      var prior := Somes(xs[..|xs| - 1]);
      if xs[|xs| - 1].Some? then prior + [xs[|xs| - 1].value] else prior
  }

  /** The step of `Somes`: the last value is kept exactly when it is present. */
  lemma {:induction false} SomesNext<T>(xs: seq<Option<T>>)
    requires xs != []
    ensures Somes(xs) == Somes(xs[..|xs| - 1]) + (if xs[|xs| - 1].Some? then [xs[|xs| - 1].value] else [])
  {
  }

  /** When every value is present, all of them are kept, in order. */
  lemma {:induction false} SomesAll<T>(xs: seq<Option<T>>)
    requires forall i :: 0 <= i < |xs| ==> xs[i].Some?
    ensures |Somes(xs)| == |xs|
    ensures forall i :: 0 <= i < |xs| ==> Somes(xs)[i] == xs[i].value
    decreases |xs|
  {
    if xs != [] {
      SomesAll(xs[..|xs| - 1]);
    }
  }

  /** The present values of a concatenation are those of each part, in order. */
  lemma {:induction false} SomesAppend<T>(xs: seq<Option<T>>, ys: seq<Option<T>>)
    ensures Somes(xs + ys) == Somes(xs) + Somes(ys)
    decreases |ys|
  {
    if ys == [] {
      assert xs + ys == xs;
    } else {
      var init := ys[..|ys| - 1];
      assert (xs + ys)[..|xs + ys| - 1] == xs + init;
      assert (xs + ys)[|xs + ys| - 1] == ys[|ys| - 1];
      SomesAppend(xs, init);
      SomesNext(xs + ys);
      SomesNext(ys);
      var tail := if ys[|ys| - 1].Some? then [ys[|ys| - 1].value] else [];
      assert Somes(xs + ys) == (Somes(xs) + Somes(init)) + tail;
      assert (Somes(xs) + Somes(init)) + tail == Somes(xs) + (Somes(init) + tail);
    }
  }

  /** `[f(x) for x in xs]`. */
  function MapSeq<A, B>(f: A -> B, xs: seq<A>): (r: seq<B>)
    ensures |r| == |xs| && forall i :: 0 <= i < |xs| ==> r[i] == f(xs[i])
  {
    seq(|xs|, i requires 0 <= i < |xs| => f(xs[i]))
  }

  /** Mapping distributes over concatenation. */
  lemma {:induction false} MapSeqAppend<A, B>(f: A -> B, xs: seq<A>, ys: seq<A>)
    ensures MapSeq(f, xs + ys) == MapSeq(f, xs) + MapSeq(f, ys)
  {
  }

  /** The present results of mapping, step by step: the last element adds its result, if it has one. */
  lemma {:induction false} SomesMapNext<A, B>(f: A -> Option<B>, xs: seq<A>)
    requires xs != []
    ensures Somes(MapSeq(f, xs)) == Somes(MapSeq(f, xs[..|xs| - 1]))
                                    + (if f(xs[|xs| - 1]).Some? then [f(xs[|xs| - 1]).value] else [])
  {
    var ys := MapSeq(f, xs);
    assert ys[..|xs| - 1] == MapSeq(f, xs[..|xs| - 1]);
    SomesNext(ys);
  }
}
