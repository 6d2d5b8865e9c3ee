/** The stream `filter(...).toList()` passes over employee lists, with the
    predicates they use written as data so that several of them can be
    combined and compared. */
module Filtering {
  import opened Ascii
  import opened Model

  /** One predicate of a filter pass. */
  datatype Criterion =
    | DepartmentIs(department: string)         // department equals ignoring case
    | SalaryAtLeast(min: real)                 // salary >= min
    | SalaryAtMost(max: real)                  // salary <= max
    | SalaryBetween(low: real, high: real)     // low <= salary <= high

  predicate Matches(e: Employee, c: Criterion) {
    match c
    case DepartmentIs(d) => EqualsIgnoreCase(e.department, d)
    case SalaryAtLeast(min) => e.salary >= min
    case SalaryAtMost(max) => e.salary <= max
    case SalaryBetween(low, high) => e.salary >= low && e.salary <= high
  }

  /** The conjunction of a list of criteria; the empty list accepts everything. */
  predicate MatchesAll(e: Employee, cs: seq<Criterion>) {
    forall c :: c in cs ==> Matches(e, c)
  }

  /** `a` is `b` with some elements removed and the rest kept in order. */
  predicate IsSubsequence<T(==)>(a: seq<T>, b: seq<T>)
    decreases |b|
  {
    if a == [] then true
    else if b == [] then false
    else (a[0] == b[0] && IsSubsequence(a[1..], b[1..])) || IsSubsequence(a, b[1..])
  }

  /** Every sequence is a subsequence of itself. */
  lemma {:induction false} SubsequenceOfItself<T>(s: seq<T>)
    ensures IsSubsequence(s, s)
  {
    if s != [] {
      SubsequenceOfItself(s[1..]);
    }
  }

  /** One filtering pass of `s` by the conjunction of `cs`: the matching
      elements, in their original order. */
  function Where(s: seq<Employee>, cs: seq<Criterion>): (r: seq<Employee>)
    ensures |r| <= |s|
  {
    if s == [] then []
    else if MatchesAll(s[0], cs) then [s[0]] + Where(s[1..], cs)
    else Where(s[1..], cs)
  }

  /** A pass keeps the order of what it keeps. */
  lemma {:induction false} WhereIsSubsequence(s: seq<Employee>, cs: seq<Criterion>)
    ensures IsSubsequence(Where(s, cs), s)
  {
    if s != [] {
      WhereIsSubsequence(s[1..], cs);
      var r := Where(s, cs);
      if MatchesAll(s[0], cs) {
        assert r[0] == s[0] && r[1..] == Where(s[1..], cs);
      } else if r != [] {
        assert r == Where(s[1..], cs);
      }
    }
  }

  /** A pass keeps every occurrence of a matching element and no occurrence
      of any other element. */
  lemma {:induction false} WhereCount(s: seq<Employee>, cs: seq<Criterion>)
    ensures forall e :: multiset(Where(s, cs))[e] == if MatchesAll(e, cs) then multiset(s)[e] else 0
  {
    if s != [] {
      WhereCount(s[1..], cs);
      assert s == [s[0]] + s[1..];
      assert multiset(s) == multiset{s[0]} + multiset(s[1..]);
      if MatchesAll(s[0], cs) {
        assert multiset(Where(s, cs)) == multiset{s[0]} + multiset(Where(s[1..], cs));
      }
    }
  }

  /** An element is in the result of a pass exactly when it is in the input
      and matches. */
  lemma WhereMembers(s: seq<Employee>, cs: seq<Criterion>)
    ensures forall e :: e in Where(s, cs) <==> e in s && MatchesAll(e, cs)
  {
    WhereCount(s, cs);
    forall e ensures e in Where(s, cs) <==> e in s && MatchesAll(e, cs) {
      assert e in Where(s, cs) <==> multiset(Where(s, cs))[e] > 0;
      assert e in s <==> multiset(s)[e] > 0;
    }
  }

  /** A pass by a single criterion keeps exactly the elements that meet it. */
  lemma WhereSingle(s: seq<Employee>, c: Criterion)
    ensures forall e :: e in Where(s, [c]) <==> e in s && Matches(e, c)
  {
    WhereMembers(s, [c]);
    assert forall e :: MatchesAll(e, [c]) <==> Matches(e, c);
  }

  /** A pass over a concatenation is the concatenation of the passes. */
  lemma {:induction false} WhereAppend(a: seq<Employee>, b: seq<Employee>, cs: seq<Criterion>)
    ensures Where(a + b, cs) == Where(a, cs) + Where(b, cs)
  {
    if a == [] {
      assert a + b == b;
    } else {
      var ab := a + b;
      assert ab[0] == a[0];
      assert ab[1..] == a[1..] + b;
      WhereAppend(a[1..], b, cs);
      var head := if MatchesAll(a[0], cs) then [a[0]] else [];
      assert Where(ab, cs) == head + Where(ab[1..], cs);
      assert Where(a, cs) == head + Where(a[1..], cs);
    }
  }

  /** The elements of `s` at positions `idx`, in the order of `idx`. */
  function Pick(s: seq<Employee>, idx: seq<int>): (r: seq<Employee>)
    requires forall j :: 0 <= j < |idx| ==> 0 <= idx[j] < |s|
  {
    seq(|idx|, j requires 0 <= j < |idx| => s[idx[j]])
  }

  /** Picking positions that all lie before `n` sees only the first `n` elements. */
  lemma PickPrefix(s: seq<Employee>, n: nat, idx: seq<int>)
    requires n <= |s|
    requires forall j :: 0 <= j < |idx| ==> 0 <= idx[j] < n
    ensures Pick(s, idx) == Pick(s[..n], idx)
  {
  }

  /** Picking a non-empty index list is picking all but its last index, then that one. */
  lemma PickLast(s: seq<Employee>, idx: seq<int>)
    requires idx != []
    requires forall j :: 0 <= j < |idx| ==> 0 <= idx[j] < |s|
    ensures Pick(s, idx) == Pick(s, idx[..|idx| - 1]) + [s[idx[|idx| - 1]]]
  {
  }

  /** In an increasing index list bounded by `n`, an occurrence of `n` is the
      last entry, and the entries before it are the others. */
  lemma LastIndex(idx: seq<int>, n: int)
    requires forall j :: 0 <= j < |idx| ==> idx[j] <= n
    requires forall j, j' :: 0 <= j < j' < |idx| ==> idx[j] < idx[j']
    requires n in idx
    ensures idx[|idx| - 1] == n
    ensures forall k :: k in idx[..|idx| - 1] <==> k in idx && k != n
  {
    var m := |idx| - 1;
    var p :| 0 <= p < |idx| && idx[p] == n;
    assert idx[p] <= idx[m];
  }

  /** If exactly the positions listed in the increasing sequence `idx` hold
      matching elements, the pass returns the elements at those positions. */
  lemma {:induction false} WhereAt(s: seq<Employee>, cs: seq<Criterion>, idx: seq<int>)
    requires forall j :: 0 <= j < |idx| ==> 0 <= idx[j] < |s|
    requires forall j, j' :: 0 <= j < j' < |idx| ==> idx[j] < idx[j']
    requires forall k :: 0 <= k < |s| ==> (MatchesAll(s[k], cs) <==> k in idx)
    ensures Where(s, cs) == Pick(s, idx)
    decreases |s|
  {
    if idx == [] {
      WhereDropsAll(s, cs);
    } else {
      assert idx[0] < |s|;
      var n := |s| - 1;
      var init := s[..n];
      assert s == init + [s[n]];
      WhereAppend(init, [s[n]], cs);
      assert [s[n]][1..] == [];
      if n in idx {
        LastIndex(idx, n);
        var rest := idx[..|idx| - 1];
        WhereAt(init, cs, rest);
        PickLast(s, idx);
        PickPrefix(s, n, rest);
      } else {
        forall j | 0 <= j < |idx| ensures idx[j] < n {
          assert idx[j] != n;
        }
        WhereAt(init, cs, idx);
        PickPrefix(s, n, idx);
      }
    }
  }

  /** A pass in which every element matches returns the list unchanged. */
  lemma {:induction false} WhereKeepsAll(s: seq<Employee>, cs: seq<Criterion>)
    requires forall e :: e in s ==> MatchesAll(e, cs)
    ensures Where(s, cs) == s
  {
    if s != [] {
      WhereKeepsAll(s[1..], cs);
    }
  }

  /** A pass in which no element matches returns the empty list. */
  lemma {:induction false} WhereDropsAll(s: seq<Employee>, cs: seq<Criterion>)
    requires forall k :: 0 <= k < |s| ==> !MatchesAll(s[k], cs)
    ensures Where(s, cs) == []
  {
    if s != [] {
      WhereDropsAll(s[1..], cs);
    }
  }

  /** A pass with no criteria is the identity. */
  lemma WhereNothing(s: seq<Employee>)
    ensures Where(s, []) == s
  {
    WhereKeepsAll(s, []);
  }

  /** Two passes in sequence equal one pass by the conjunction of both lists. */
  lemma {:induction false} WhereThen(s: seq<Employee>, cs: seq<Criterion>, ds: seq<Criterion>)
    ensures Where(Where(s, cs), ds) == Where(s, cs + ds)
  {
    if s != [] {
      WhereThen(s[1..], cs, ds);
      assert MatchesAll(s[0], cs + ds) <==> MatchesAll(s[0], cs) && MatchesAll(s[0], ds);
      if MatchesAll(s[0], cs) {
        var w := Where(s, cs);
        assert w == [s[0]] + Where(s[1..], cs);
        assert w[1..] == Where(s[1..], cs);
      }
    }
  }

  /** Two criteria lists that accept the same employees select the same list. */
  lemma {:induction false} WhereSameCriteria(s: seq<Employee>, cs: seq<Criterion>, ds: seq<Criterion>)
    requires forall e :: MatchesAll(e, cs) <==> MatchesAll(e, ds)
    ensures Where(s, cs) == Where(s, ds)
  {
    if s != [] {
      WhereSameCriteria(s[1..], cs, ds);
    }
  }

  /** The order of criteria in a conjunction does not matter. */
  lemma {:induction false} WhereCommutes(s: seq<Employee>, cs: seq<Criterion>, ds: seq<Criterion>)
    ensures Where(s, cs + ds) == Where(s, ds + cs)
  {
    if s != [] {
      WhereCommutes(s[1..], cs, ds);
      assert MatchesAll(s[0], cs + ds) <==> MatchesAll(s[0], ds + cs);
    }
  }
}
