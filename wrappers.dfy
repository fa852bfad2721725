/** Optional values, outcomes of calls that may throw, and the two list
    combinators the client uses on response arrays (`filter` and
    `map(...).filter(Boolean)`). */
module Wrappers {

  /** `T | null | undefined` in the client. */
  datatype Option<+T> = None | Some(value: T)

  /** What a thrown JavaScript exception carries. `Failure` is an `Error`
      built with a message; `MalformedJson` is the rejection of
      `response.json()` on a body that is not JSON; `TypeError` is raised by
      the runtime itself (for instance `'k' in 42`). */
  datatype Error = Failure(message: string) | MalformedJson | TypeError

  /** A settled promise: fulfilled with a value or rejected with an error. */
  datatype Result<+T> = Ok(value: T) | Err(error: Error)

  /** `xs.map(f)`: one result per element, in order. */
  function MapSeq<A, B>(xs: seq<A>, f: A -> B): (r: seq<B>)
    ensures |r| == |xs|
    ensures forall i :: 0 <= i < |xs| ==> r[i] == f(xs[i])
  {
    if xs == [] then [] else [f(xs[0])] + MapSeq(xs[1..], f)
  }

  /** Mapping distributes over concatenation. */
  lemma MapSeqAppend<A, B>(a: seq<A>, b: seq<A>, f: A -> B)
    ensures MapSeq(a + b, f) == MapSeq(a, f) + MapSeq(b, f)
  {
  }

  /** `xs.filter(Boolean)` on a list of objects or nulls: the present values, in order. */
  function Compact<T>(xs: seq<Option<T>>): (r: seq<T>)
    ensures |r| <= |xs|
  {
    if xs == [] then []
    else (if xs[0].Some? then [xs[0].value] else []) + Compact(xs[1..])
  }

  /** Compacting distributes over concatenation, so the survivors keep the
      relative order they had in the input. */
  lemma {:induction false} CompactAppend<T>(a: seq<Option<T>>, b: seq<Option<T>>)
    ensures Compact(a + b) == Compact(a) + Compact(b)
  {
    if a == [] {
      assert a + b == b;
    } else {
      var head := if a[0].Some? then [a[0].value] else [];
      assert (a + b)[0] == a[0];
      assert (a + b)[1..] == a[1..] + b;
      calc {
        Compact(a + b);
        head + Compact(a[1..] + b);
        { CompactAppend(a[1..], b); }
        head + (Compact(a[1..]) + Compact(b));
        (head + Compact(a[1..])) + Compact(b);
      }
    }
  }

  /** Every present value of the input survives. */
  lemma {:induction false} CompactKeeps<T>(xs: seq<Option<T>>, i: nat)
    requires i < |xs| && xs[i].Some?
    ensures xs[i].value in Compact(xs)
  {
    if i > 0 {
      CompactKeeps(xs[1..], i - 1);
    }
  }

  /** Only present values of the input survive. */
  lemma {:induction false} CompactOnlyPresent<T>(xs: seq<Option<T>>)
    ensures forall x :: x in Compact(xs) ==> Some(x) in xs
  {
    if xs != [] {
      CompactOnlyPresent(xs[1..]);
      assert forall x :: Some(x) in xs[1..] ==> Some(x) in xs;
    }
  }

  /** With no missing value nothing is dropped and positions are kept. */
  lemma {:induction false} CompactAllPresent<T>(xs: seq<Option<T>>)
    requires forall i :: 0 <= i < |xs| ==> xs[i].Some?
    ensures |Compact(xs)| == |xs|
    ensures forall i :: 0 <= i < |xs| ==> Compact(xs)[i] == xs[i].value
  {
    if xs != [] {
      CompactAllPresent(xs[1..]);
    }
  }

  /** `xs.filter(keep)`. */
  function Filter<T>(xs: seq<T>, keep: T -> bool): (r: seq<T>)
    ensures |r| <= |xs|
  {
    if xs == [] then []
    else (if keep(xs[0]) then [xs[0]] else []) + Filter(xs[1..], keep)
  }

  /** Every element that passes the test survives the filter. */
  lemma {:induction false} FilterKeeps<T>(xs: seq<T>, keep: T -> bool, i: nat)
    requires i < |xs| && keep(xs[i])
    ensures xs[i] in Filter(xs, keep)
  {
    if i > 0 {
      FilterKeeps(xs[1..], keep, i - 1);
    }
  }

  /** Only elements of the input that pass the test survive the filter. */
  lemma {:induction false} FilterOnlyKept<T>(xs: seq<T>, keep: T -> bool)
    ensures forall x :: x in Filter(xs, keep) ==> x in xs && keep(x)
  {
    if xs != [] {
      FilterOnlyKept(xs[1..], keep);
    }
  }

  /** Filtering distributes over concatenation (the order is kept). */
  lemma {:induction false} FilterAppend<T>(a: seq<T>, b: seq<T>, keep: T -> bool)
    ensures Filter(a + b, keep) == Filter(a, keep) + Filter(b, keep)
  {
    if a == [] {
      assert a + b == b;
    } else {
      var head := if keep(a[0]) then [a[0]] else [];
      assert (a + b)[0] == a[0];
      assert (a + b)[1..] == a[1..] + b;
      calc {
        Filter(a + b, keep);
        head + Filter(a[1..] + b, keep);
        { FilterAppend(a[1..], b, keep); }
        head + (Filter(a[1..], keep) + Filter(b, keep));
        (head + Filter(a[1..], keep)) + Filter(b, keep);
      }
    }
  }
}
