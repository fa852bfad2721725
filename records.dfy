/** A JavaScript plain object with string values (`Record<string, string>`),
    as the ordered list of its entries that `Object.entries` returns, and the
    query list of a URL. Assigning `obj[k] = v` overwrites the value in place
    when `k` is already a key and appends the pair otherwise; the URL
    Standard's `URLSearchParams.set(k, v)` does the same and also drops any
    later pairs named `k`. `Assign` below is both. */
module Records {
  import opened Wrappers

  type Record = seq<(string, string)>

  /** `obj[k]`: the value of the first entry named `k`. */
  function Lookup(r: Record, k: string): Option<string>
  {
    if r == [] then None else if r[0].0 == k then Some(r[0].1) else Lookup(r[1..], k)
  }

  lemma {:induction false} LookupNone(r: Record, k: string)
    ensures Lookup(r, k).None? <==> forall i :: 0 <= i < |r| ==> r[i].0 != k
  {
    if r != [] {
      LookupNone(r[1..], k);
      assert forall i :: 1 <= i < |r| ==> r[i] == r[1..][i - 1];
    }
  }

  /** In an object, the entry at position `i` is the one `Lookup` finds. */
  lemma {:induction false} LookupAt(r: Record, i: nat)
    requires i < |r| && DistinctKeys(r)
    ensures Lookup(r, r[i].0) == Some(r[i].1)
  {
    if i > 0 {
      assert DistinctKeys(r[1..]);
      LookupAt(r[1..], i - 1);
    }
  }

  /** No two entries share a key, as in any JavaScript object. */
  predicate DistinctKeys(r: Record) {
    forall i, j :: 0 <= i < j < |r| ==> r[i].0 != r[j].0
  }

  /** The entries not named `k`. */
  function Without(r: Record, k: string): (r': Record)
    ensures Lookup(r', k) == None
    ensures forall k' :: k' != k ==> Lookup(r', k') == Lookup(r, k')
    ensures forall i :: 0 <= i < |r'| ==> r'[i] in r
  {
    if r == [] then []
    else if r[0].0 == k then Without(r[1..], k)
    else [r[0]] + Without(r[1..], k)
  }

  /** `obj[k] = v`, or `searchParams.set(k, v)`. */
  function Assign(r: Record, k: string, v: string): (r': Record)
    ensures Lookup(r', k) == Some(v)
    ensures forall k' :: k' != k ==> Lookup(r', k') == Lookup(r, k')
    ensures Lookup(r, k).None? ==> r' == r + [(k, v)]
  {
    if r == [] then [(k, v)]
    else if r[0].0 == k then [(k, v)] + Without(r[1..], k)
    else
      var rest := Assign(r[1..], k, v);
      assert Lookup(r, k).None? ==> [r[0]] + rest == r + [(k, v)] by {
        if Lookup(r, k).None? {
          assert r == [r[0]] + r[1..];
        }
      }
      [r[0]] + rest
  }

  /** On an object, assigning a key it already has keeps its position and size. */
  lemma {:induction false} AssignInPlace(r: Record, k: string, v: string)
    requires DistinctKeys(r) && Lookup(r, k).Some?
    ensures |Assign(r, k, v)| == |r|
    ensures forall i :: 0 <= i < |r| ==> Assign(r, k, v)[i] == (if r[i].0 == k then (k, v) else r[i])
  {
    if r[0].0 == k {
      LookupNone(r[1..], k);
      WithoutAbsent(r[1..], k);
    } else {
      AssignInPlace(r[1..], k, v);
    }
  }

  /** Assignment keeps an object's keys distinct. */
  lemma AssignKeepsDistinct(r: Record, k: string, v: string)
    requires DistinctKeys(r)
    ensures DistinctKeys(Assign(r, k, v))
  {
    if Lookup(r, k).Some? {
      AssignInPlace(r, k, v);
    } else {
      LookupNone(r, k);
    }
  }

  lemma {:induction false} WithoutAbsent(r: Record, k: string)
    requires forall i :: 0 <= i < |r| ==> r[i].0 != k
    ensures Without(r, k) == r
  {
    if r != [] {
      WithoutAbsent(r[1..], k);
    }
  }

  /** The value the last entry named `k` of `ps` gives it, if any. */
  function LastValue(ps: Record, k: string): Option<string>
  {
    if ps == [] then None
    else if ps[|ps| - 1].0 == k then Some(ps[|ps| - 1].1)
    else LastValue(ps[..|ps| - 1], k)
  }

  /** `Object.entries(ps).forEach(([k, v]) => acc.set(k, v))`. */
  function AssignAll(acc: Record, ps: Record): Record
  {
    if ps == [] then acc
    else Assign(AssignAll(acc, ps[..|ps| - 1]), ps[|ps| - 1].0, ps[|ps| - 1].1)
  }

  /** Setting entries one by one: the last value given to a key wins, and
      keys that were never given keep their old value. */
  lemma {:induction false} AssignAllLookup(acc: Record, ps: Record, k: string)
    ensures Lookup(AssignAll(acc, ps), k) ==
            (if LastValue(ps, k).Some? then LastValue(ps, k) else Lookup(acc, k))
  {
    if ps != [] {
      AssignAllLookup(acc, ps[..|ps| - 1], k);
    }
  }

  /** When the entries come from an object (distinct keys), setting them all
      on an empty list reproduces them exactly, in order. */
  lemma {:induction false} AssignAllDistinct(ps: Record)
    requires DistinctKeys(ps)
    ensures AssignAll([], ps) == ps
  {
    if ps != [] {
      var init := ps[..|ps| - 1];
      var last := ps[|ps| - 1];
      assert DistinctKeys(init);
      AssignAllDistinct(init);
      LookupNone(init, last.0);
      assert init + [last] == ps;
    }
  }
}
