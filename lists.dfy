/**
 * The sequence operations the state updaters are built from: `Array.prototype.filter`, the
 * first-occurrence order of a JavaScript `Set` built from an array, and "append unless
 * present".
 */
module Lists {

  /** `s.filter(keep)`: the elements that pass, in their original order. */
  function Filter<T(!new)>(s: seq<T>, keep: T -> bool): (r: seq<T>)
    ensures |r| <= |s|
    ensures forall y :: y in r <==> y in s && keep(y)
  {
    if s == [] then [] else (if keep(s[0]) then [s[0]] else []) + Filter(s[1..], keep)
  }

  /** Filtering distributes over concatenation: the kept elements stay in their order. */
  lemma {:induction false} FilterAppend<T(!new)>(a: seq<T>, b: seq<T>, keep: T -> bool)
    ensures Filter(a + b, keep) == Filter(a, keep) + Filter(b, keep)
  {
    if a == [] {
      assert a + b == b;
    } else {
      assert (a + b)[1..] == a[1..] + b;
      FilterAppend(a[1..], b, keep);
    }
  }

  /** A filter that every element passes changes nothing. */
  lemma {:induction false} FilterKeepsAll<T(!new)>(s: seq<T>, keep: T -> bool)
    requires forall i :: 0 <= i < |s| ==> keep(s[i])
    ensures Filter(s, keep) == s
  {
    if s != [] {
      FilterKeepsAll(s[1..], keep);
    }
  }

  /** `s.filter(v => v !== x)`: every occurrence of x removed. */
  function Without<T(==,!new)>(s: seq<T>, x: T): (r: seq<T>)
    ensures forall y :: y in r <==> y in s && y != x
    ensures x in s <==> |r| < |s|
  {
    WithoutShrinks(s, x);
    Filter(s, y => y != x)
  }

  lemma {:induction false} WithoutShrinks<T(!new)>(s: seq<T>, x: T)
    ensures x in s <==> |Filter(s, y => y != x)| < |s|
  {
    if s != [] {
      WithoutShrinks(s[1..], x);
      assert s == [s[0]] + s[1..];
    }
  }

  /** Removing an element keeps the others in order: it distributes over concatenation. */
  lemma WithoutAppend<T(!new)>(a: seq<T>, b: seq<T>, x: T)
    ensures Without(a + b, x) == Without(a, x) + Without(b, x)
  {
    FilterAppend(a, b, y => y != x);
  }

  /** No value occurs twice. */
  predicate NoDup<T(==,!new)>(s: seq<T>)
  {
    forall i, j :: 0 <= i < j < |s| ==> s[i] != s[j]
  }

  /**
   * Walks s in order and appends each element that is not yet present: the insertion
   * order of a `Set` that already holds `acc` when the elements of s are added.
   */
  function AppendNew<T(==,!new)>(acc: seq<T>, s: seq<T>): (r: seq<T>)
    ensures |acc| <= |r| && r[..|acc|] == acc
    ensures forall y :: y in r <==> y in acc || y in s
    ensures NoDup(acc) ==> NoDup(r)
    decreases |s|
  {
    if s == [] then acc
    else AppendNew(if s[0] in acc then acc else acc + [s[0]], s[1..])
  }

  /** `Array.from(new Set(s))`: the first occurrence of every value, in order. */
  function Dedupe<T(==,!new)>(s: seq<T>): (r: seq<T>)
    ensures NoDup(r)
    ensures forall y :: y in r <==> y in s
  {
    AppendNew([], s)
  }

  /** Adding the elements of a + b one by one is adding those of a, then those of b. */
  lemma {:induction false} AppendNewConcat<T(!new)>(acc: seq<T>, a: seq<T>, b: seq<T>)
    ensures AppendNew(acc, a + b) == AppendNew(AppendNew(acc, a), b)
    decreases |a|
  {
    if a == [] {
      assert a + b == b;
    } else {
      assert (a + b)[0] == a[0] && (a + b)[1..] == a[1..] + b;
      AppendNewConcat(if a[0] in acc then acc else acc + [a[0]], a[1..], b);
    }
  }

  /** A duplicate-free sequence is its own insertion order. */
  lemma {:induction false} AppendNewOfNoDup<T(!new)>(acc: seq<T>, s: seq<T>)
    requires NoDup(acc + s)
    ensures AppendNew(acc, s) == acc + s
    decreases |s|
  {
    if s != [] {
      assert (acc + s)[|acc|] == s[0];
      assert s[0] !in acc by {
        forall i | 0 <= i < |acc|
          ensures acc[i] != s[0]
        {
          assert (acc + s)[i] == acc[i];
        }
      }
      assert acc + s == (acc + [s[0]]) + s[1..];
      AppendNewOfNoDup(acc + [s[0]], s[1..]);
    }
  }

  /**
   * Deduplicating prior + added, where prior has no duplicates, keeps prior as it is and appends
   * the added values that are new, each once, in first-occurrence order.
   */
  lemma DedupeExtends<T(!new)>(prior: seq<T>, added: seq<T>)
    ensures NoDup(prior) ==> Dedupe(prior + added) == AppendNew(prior, added)
    ensures NoDup(prior) ==> |prior| <= |Dedupe(prior + added)| && Dedupe(prior + added)[..|prior|] == prior
  {
    if NoDup(prior) {
      AppendNewConcat([], prior, added);
      assert [] + prior == prior;
      AppendNewOfNoDup([], prior);
    }
  }

  /** Appending one value unless it is already present. */
  lemma AppendOne<T(!new)>(s: seq<T>, x: T)
    ensures AppendNew(s, [x]) == if x in s then s else s + [x]
  {
  }
}
