/** Values shared by the classifier and the pipeline: the exceptions the core
    raises or routes, a failure-compatible result type, and row-major real
    matrices standing for two-dimensional numpy arrays. */
module Common {

  datatype Option<+T> = None | Some(value: T)

  /** The Python exceptions that the modelled code raises, catches or lets through. */
  datatype Error =
    | NotFitted                   // ReferenceError: predict called before fit
    | IndexError                  // numpy indexing past the end of an axis
    | ValueError                  // np.concatenate of nothing or of mismatched widths; a degenerate metric
    | RuntimeError(message: string)
    | AttributeError              // a method called on a module that was looked up as None
    | NameError(name: string)     // a local variable read before it was bound

  /** A value or the exception that replaced it; usable with `:-`. */
  datatype Result<+T> = Success(value: T) | Failure(error: Error) {
    predicate IsFailure() { Failure? }

    function PropagateFailure<U>(): Result<U>
      requires Failure?
    {
      Failure(error)
    }

    function Extract(): T
      requires Success?
    {
      value
    }
  }

  /** The outcome of an operation that returns nothing but may raise. */
  datatype Outcome = Pass | Fail(error: Error)

  /** A matrix of `|rows|` samples by `width` features. */
  datatype RawMatrix = RawMatrix(width: nat, rows: seq<seq<real>>)

  predicate Rectangular(m: RawMatrix) {
    forall i :: 0 <= i < |m.rows| ==> |m.rows[i]| == m.width
  }

  /** What numpy guarantees of a two-dimensional array: every row has the same width. */
  type Matrix = m: RawMatrix | Rectangular(m) witness RawMatrix(0, [])

  /** Row-wise concatenation, in order. */
  function Flatten<T>(ss: seq<seq<T>>): seq<T>
  {
    if |ss| == 0 then [] else Flatten(ss[..|ss| - 1]) + ss[|ss| - 1]
  }

  /** The sum of the lengths of the parts. */
  function TotalLength<T>(ss: seq<seq<T>>): nat
  {
    if |ss| == 0 then 0 else TotalLength(ss[..|ss| - 1]) + |ss[|ss| - 1]|
  }

  lemma {:induction false} FlattenLength<T>(ss: seq<seq<T>>)
    ensures |Flatten(ss)| == TotalLength(ss)
  {
    if |ss| > 0 {
      FlattenLength(ss[..|ss| - 1]);
    }
  }

  /** Element `k` of part `f` sits in the flattened sequence right after the
      elements of the parts before `f`. */
  lemma {:induction false} FlattenAt<T>(ss: seq<seq<T>>, f: nat, k: nat)
    requires f < |ss| && k < |ss[f]|
    ensures TotalLength(ss[..f]) + k < |Flatten(ss)|
    ensures Flatten(ss)[TotalLength(ss[..f]) + k] == ss[f][k]
  {
    var n := |ss| - 1;
    FlattenLength(ss[..n]);
    FlattenLength(ss);
    if f == n {
      assert ss[..f] == ss[..n];
    } else {
      FlattenAt(ss[..n], f, k);
      assert ss[..n][..f] == ss[..f];
    }
  }

  /** Part `f` of `parts` occupies `whole` right after the parts before it. */
  ghost predicate PartAt<T>(whole: seq<T>, parts: seq<seq<T>>, f: nat)
    requires f < |parts|
  {
    forall k :: 0 <= k < |parts[f]| ==>
      TotalLength(parts[..f]) + k < |whole| && whole[TotalLength(parts[..f]) + k] == parts[f][k]
  }

  lemma FlattenPartAt<T>(ss: seq<seq<T>>, f: nat)
    requires f < |ss|
    ensures PartAt(Flatten(ss), ss, f)
  {
    forall k | 0 <= k < |ss[f]|
      ensures TotalLength(ss[..f]) + k < |Flatten(ss)| && Flatten(ss)[TotalLength(ss[..f]) + k] == ss[f][k]
    {
      FlattenAt(ss, f, k);
    }
  }

  /** Every element of the flattened sequence comes from some part. */
  lemma {:induction false} FlattenMembers<T>(ss: seq<seq<T>>, j: nat)
    requires j < |Flatten(ss)|
    ensures exists f, k :: 0 <= f < |ss| && 0 <= k < |ss[f]| && Flatten(ss)[j] == ss[f][k]
  {
    var n := |ss| - 1;
    FlattenLength(ss[..n]);
    if j < |Flatten(ss[..n])| {
      FlattenMembers(ss[..n], j);
      var f, k :| 0 <= f < |ss[..n]| && 0 <= k < |ss[..n][f]| && Flatten(ss[..n])[j] == ss[..n][f][k];
      assert Flatten(ss)[j] == ss[f][k];
    } else {
      var k := j - |Flatten(ss[..n])|;
      assert Flatten(ss)[j] == ss[n][k];
    }
  }
}
