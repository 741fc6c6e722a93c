/** Sorted string lists used as sets (util/stringset.go). Strings compare byte by byte. */
module StringSets {

  /** Go's `a <= b` on strings. */
  predicate Le(a: string, b: string) {
    a == [] || (b != [] && (a[0] < b[0] || (a[0] == b[0] && Le(a[1..], b[1..]))))
  }

  predicate Lt(a: string, b: string) {
    !Le(b, a)
  }

  lemma {:induction false} LeTotal(a: string, b: string)
    ensures Le(a, b) || Le(b, a)
  {
    if a != [] && b != [] && a[0] == b[0] {
      LeTotal(a[1..], b[1..]);
    }
  }

  lemma {:induction false} LeAntisymmetric(a: string, b: string)
    requires Le(a, b) && Le(b, a)
    ensures a == b
  {
    if a != [] {
      LeAntisymmetric(a[1..], b[1..]);
      assert a == [a[0]] + a[1..] && b == [b[0]] + b[1..];
    }
  }

  lemma {:induction false} LeTransitive(a: string, b: string, c: string)
    requires Le(a, b) && Le(b, c)
    ensures Le(a, c)
  {
    if a != [] && a[0] == b[0] == c[0] {
      LeTransitive(a[1..], b[1..], c[1..]);
    }
  }

  lemma {:induction false} LeReflexive(a: string)
    ensures Le(a, a)
  {
    if a != [] {
      LeReflexive(a[1..]);
    }
  }

  predicate Sorted(s: seq<string>) {
    forall i, j :: 0 <= i < j < |s| ==> Le(s[i], s[j])
  }

  // Sorting. `sort.Strings` is Go's library: any sorted permutation is this one.

  function Insert(s: seq<string>, x: string): seq<string> {
    if s == [] || Le(x, s[0]) then [x] + s else [s[0]] + Insert(s[1..], x)
  }

  function SortStrings(s: seq<string>): seq<string> {
    if s == [] then [] else Insert(SortStrings(s[..|s| - 1]), s[|s| - 1])
  }

  lemma {:induction false} InsertKeeps(s: seq<string>, x: string)
    ensures multiset(Insert(s, x)) == multiset(s) + multiset{x}
  {
    if s != [] && !Le(x, s[0]) {
      InsertKeeps(s[1..], x);
      assert s == [s[0]] + s[1..];
    }
  }

  lemma {:induction false} InsertSorted(s: seq<string>, x: string)
    requires Sorted(s)
    ensures Sorted(Insert(s, x))
  {
    var r := Insert(s, x);
    if s == [] {
    } else if Le(x, s[0]) {
      forall j | 0 <= j < |s|
        ensures Le(x, s[j])
      {
        if j > 0 {
          LeTransitive(x, s[0], s[j]);
        }
      }
    } else {
      var t := Insert(s[1..], x);
      InsertSorted(s[1..], x);
      InsertKeeps(s[1..], x);
      LeTotal(x, s[0]);
      forall j | 0 <= j < |t|
        ensures Le(s[0], t[j])
      {
        assert t[j] in multiset(t);
        if t[j] != x {
          assert t[j] in multiset(s[1..]);
          var k :| 0 <= k < |s[1..]| && s[1..][k] == t[j];
          assert s[k + 1] == t[j];
        }
      }
    }
  }

  lemma {:induction false} SortedPermutation(s: seq<string>)
    ensures Sorted(SortStrings(s)) && multiset(SortStrings(s)) == multiset(s)
  {
    if s != [] {
      var n := |s| - 1;
      var rest, t := s[..n], SortStrings(s[..n]);
      SortedPermutation(rest);
      InsertSorted(t, s[n]);
      InsertKeeps(t, s[n]);
      assert SortStrings(s) == Insert(t, s[n]);
      assert s == rest + [s[n]];
      assert multiset(s) == multiset(rest) + multiset{s[n]};
    }
  }

  lemma LeastFirst(a: seq<string>, x: string)
    requires Sorted(a) && x in multiset(a)
    ensures a != [] && Le(a[0], x)
  {
    LeReflexive(a[0]);
  }

  lemma Uncons(a: seq<string>)
    requires a != []
    ensures multiset(a) == multiset{a[0]} + multiset(a[1..])
  {
    assert a == [a[0]] + a[1..];
  }

  lemma SortedTail(s: seq<string>)
    requires Sorted(s) && s != []
    ensures Sorted(s[1..]) && s == [s[0]] + s[1..]
    ensures forall x :: x in s ==> Le(s[0], x)
  {
    LeReflexive(s[0]);
  }

  lemma SameTails(a: seq<string>, b: seq<string>)
    requires a != [] && b != [] && a[0] == b[0] && multiset(a) == multiset(b)
    ensures multiset(a[1..]) == multiset(b[1..])
  {
    Uncons(a);
    Uncons(b);
    assert multiset(a[1..]) == multiset(a) - multiset{a[0]} == multiset(b[1..]);
  }

  lemma SameHeads(a: seq<string>, b: seq<string>)
    requires Sorted(a) && Sorted(b) && a != [] && multiset(a) == multiset(b)
    ensures b != [] && a[0] == b[0]
  {
    assert |a| == |multiset(a)| == |multiset(b)| == |b|;
    LeastFirst(a, b[0]);
    LeastFirst(b, a[0]);
    LeAntisymmetric(a[0], b[0]);
  }

  /** A multiset of strings has one sorted list. */
  lemma {:induction false} SortedIsUnique(a: seq<string>, b: seq<string>)
    requires Sorted(a) && Sorted(b) && multiset(a) == multiset(b)
    ensures a == b
  {
    if a == [] {
      assert |b| == |multiset(b)| == 0;
    } else {
      SameHeads(a, b);
      SameTails(a, b);
      SortedTail(a);
      SortedTail(b);
      SortedIsUnique(a[1..], b[1..]);
    }
  }

  // The subset test.

  /** The merge loop of `Subset`, from the current positions on. */
  predicate Scan(a: seq<string>, b: seq<string>)
    decreases |a| + |b|
  {
    if a == [] || b == [] then true
    else if Lt(b[0], a[0]) then Scan(a, b[1..])
    else if Lt(a[0], b[0]) then false
    else Scan(a[1..], b[1..])
  }

  predicate IsSubset(a: seq<string>, b: seq<string>) {
    |a| <= |b| && Scan(a, b)
  }

  /** The elements of `a` strictly below `m`. */
  function Below(a: seq<string>, m: string): multiset<string> {
    if a == [] then multiset{} else (if Lt(a[0], m) then multiset{a[0]} else multiset{}) + Below(a[1..], m)
  }

  lemma {:induction false} BelowCount(a: seq<string>, m: string, x: string)
    ensures Below(a, m)[x] == if Lt(x, m) then multiset(a)[x] else 0
  {
    if a != [] {
      BelowCount(a[1..], m, x);
      assert a == [a[0]] + a[1..];
    }
  }

  lemma NoneBelow(a: seq<string>, m: string)
    requires Sorted(a) && (a == [] || Le(m, a[0]))
    ensures Below(a, m) == multiset{}
  {
    if a != [] {
      SortedTail(a);
      forall x
        ensures Below(a, m)[x] == 0
      {
        BelowCount(a, m, x);
        if x in multiset(a) {
          assert x in a;
          LeTransitive(m, a[0], x);
        }
      }
    }
  }

  /** One larger element at the front of `b` changes nothing. */
  lemma SkipFront(a: seq<string>, b: seq<string>, m: string)
    requires Sorted(a) && b != [] && a != [] && Lt(b[0], a[0])
    ensures Below(a, m) <= multiset(b) <==> Below(a, m) <= multiset(b[1..])
  {
    SortedTail(a);
    assert b == [b[0]] + b[1..];
    BelowCount(a, m, b[0]);
    assert b[0] !in a;
    assert multiset(b) == multiset(b[1..]) + multiset{b[0]};
  }

  lemma ScanStep(a: seq<string>, b: seq<string>)
    requires a != [] && b != []
    ensures Lt(b[0], a[0]) ==> Scan(a, b) == Scan(a, b[1..])
    ensures !Lt(b[0], a[0]) && Lt(a[0], b[0]) ==> !Scan(a, b)
    ensures !Lt(b[0], a[0]) && !Lt(a[0], b[0]) ==> a[0] == b[0] && Scan(a, b) == Scan(a[1..], b[1..])
  {
    if !Lt(b[0], a[0]) && !Lt(a[0], b[0]) {
      LeAntisymmetric(a[0], b[0]);
    }
  }

  lemma ScanLast(a: seq<string>, m: string)
    requires Sorted(a)
    ensures Scan(a, [m]) <==> Below(a, m) <= multiset([m])
  {
    if a != [] {
      LeTotal(a[0], m);
      if Lt(a[0], m) {
        LeReflexive(m);
        RejectedFront(a, [m]);
      } else {
        NoneBelow(a, m);
        if !Lt(m, a[0]) {
          assert [m][1..] == [];
        }
      }
    }
  }

  /** The loop accepts exactly if what lies strictly below the last element of `b` is included. */
  lemma {:induction false} ScanAccepts(a: seq<string>, b: seq<string>)
    requires Sorted(a) && Sorted(b) && b != []
    ensures Scan(a, b) <==> Below(a, b[|b| - 1]) <= multiset(b)
    decreases |a| + |b|
  {
    var m := b[|b| - 1];
    if a == [] {
    } else if |b| == 1 {
      ScanLast(a, m);
      assert b == [m];
    } else {
      var x, y, rest := a[0], b[0], b[1..];
      SortedTail(b);
      ScanStep(a, b);
      assert rest[|rest| - 1] == m;
      if Lt(y, x) {
        ScanAccepts(a, rest);
        SkipFront(a, b, m);
      } else if Lt(x, y) {
        RejectedFront(a, b);
      } else {
        SortedTail(a);
        ScanAccepts(a[1..], b[1..]);
        MatchedFront(a, b, m);
      }
    }
  }

  lemma RejectedFront(a: seq<string>, b: seq<string>)
    requires Sorted(b) && b != [] && a != [] && Lt(a[0], b[0])
    ensures !(Below(a, b[|b| - 1]) <= multiset(b))
  {
    var m := b[|b| - 1];
    SortedTail(b);
    LeTotal(a[0], b[0]);
    if Le(m, a[0]) {
      LeTransitive(b[0], m, a[0]);
    }
    BelowCount(a, m, a[0]);
    assert a[0] !in multiset(b);
    assert a[0] in a;
    assert Below(a, m)[a[0]] > 0;
  }

  lemma AddBoth(x: multiset<string>, y: multiset<string>, e: string)
    ensures x + multiset{e} <= y + multiset{e} <==> x <= y
  {
    if x + multiset{e} <= y + multiset{e} {
      forall s
        ensures x[s] <= y[s]
      {
        assert (x + multiset{e})[s] <= (y + multiset{e})[s];
      }
    }
  }

  lemma MatchedFront(a: seq<string>, b: seq<string>, m: string)
    requires Sorted(a) && Sorted(b) && a != [] && |b| > 1 && a[0] == b[0] && m == b[|b| - 1]
    ensures Below(a, m) <= multiset(b) <==> Below(a[1..], m) <= multiset(b[1..])
  {
    SortedTail(a);
    if Lt(a[0], m) {
      Uncons(b);
      assert Below(a, m) == Below(a[1..], m) + multiset{a[0]};
      assert multiset(b) == multiset(b[1..]) + multiset{a[0]};
      AddBoth(Below(a[1..], m), multiset(b[1..]), a[0]);
    } else {
      NoneBelow(a, m);
      if a[1..] != [] {
        LeTransitive(m, a[0], a[1]);
      }
      NoneBelow(a[1..], m);
    }
  }

  /** Elements of `a` that the loop never compares: above everything in `b`, or more copies of its
      last element than it has. */
  predicate Overhangs(a: seq<string>, b: seq<string>) {
    if b == [] then a != []
    else
      var m := b[|b| - 1];
      multiset(a)[m] > multiset(b)[m] || (a != [] && Lt(m, a[|a| - 1]))
  }

  lemma IncludedNoOverhang(a: seq<string>, b: seq<string>)
    requires Sorted(a) && Sorted(b) && b != [] && multiset(a) <= multiset(b)
    ensures Below(a, b[|b| - 1]) <= multiset(b) && !Overhangs(a, b)
  {
    var m := b[|b| - 1];
    forall x
      ensures Below(a, m)[x] <= multiset(b)[x]
    {
      BelowCount(a, m, x);
    }
    if a != [] {
      assert a[|a| - 1] in multiset(b);
      var k :| 0 <= k < |b| && b[k] == a[|a| - 1];
      LeReflexive(m);
    }
  }

  lemma NoOverhangIncluded(a: seq<string>, b: seq<string>, x: string)
    requires Sorted(a) && b != []
    requires Below(a, b[|b| - 1]) <= multiset(b) && !Overhangs(a, b)
    ensures multiset(a)[x] <= multiset(b)[x]
  {
    var m := b[|b| - 1];
    BelowCount(a, m, x);
    if x in multiset(a) && !Lt(x, m) {
      var k :| 0 <= k < |a| && a[k] == x;
      LeReflexive(x);
      LeTransitive(x, a[|a| - 1], m);
      LeAntisymmetric(x, m);
    } else {
      assert Below(a, m)[x] <= multiset(b)[x];
    }
  }

  lemma IncludedIff(a: seq<string>, b: seq<string>)
    requires Sorted(a) && Sorted(b) && b != []
    ensures multiset(a) <= multiset(b) <==> Below(a, b[|b| - 1]) <= multiset(b) && !Overhangs(a, b)
  {
    if multiset(a) <= multiset(b) {
      IncludedNoOverhang(a, b);
    }
    if Below(a, b[|b| - 1]) <= multiset(b) && !Overhangs(a, b) {
      forall x
        ensures multiset(a)[x] <= multiset(b)[x]
      {
        NoOverhangIncluded(a, b, x);
      }
    }
  }

  /** What `Subset` accepts, against what it is documented to: true inclusion, up to an overhang. A
      true sub-multiset is always accepted. */
  lemma SubsetExact(a: seq<string>, b: seq<string>)
    requires Sorted(a) && Sorted(b)
    ensures IsSubset(a, b) <==> |a| <= |b| && (b == [] || Below(a, b[|b| - 1]) <= multiset(b))
    ensures multiset(a) <= multiset(b) <==> IsSubset(a, b) && !Overhangs(a, b)
  {
    if multiset(a) <= multiset(b) {
      SizesFollow(a, b);
    }
    if b != [] {
      ScanAccepts(a, b);
      IncludedIff(a, b);
    } else {
      assert a != [] ==> a[0] in multiset(a);
    }
  }

  lemma SizesFollow(a: seq<string>, b: seq<string>)
    requires multiset(a) <= multiset(b)
    ensures |a| <= |b|
  {
    assert multiset(b) == multiset(a) + (multiset(b) - multiset(a));
    assert |multiset(b)| == |multiset(a)| + |multiset(b) - multiset(a)|;
  }

  /** The loop stops when `b` is exhausted, so a missing variable can go unnoticed. */
  lemma SubsetAcceptsMissing()
    ensures var a, b := ["REDIS_URL=x"], ["PATH=/bin"];
      Sorted(a) && Sorted(b) && IsSubset(a, b) && !(multiset(a) <= multiset(b))
  {
    var a, b := ["REDIS_URL=x"], ["PATH=/bin"];
    assert Lt(b[0], a[0]);
    assert b[1..] == [];
    assert "REDIS_URL=x"[0] == 'R' && "PATH=/bin"[0] == 'P';
    assert multiset(a)["REDIS_URL=x"] == 1;
  }

  class StringSet {
    var items: seq<string>

    /** `MakeStringSet`: a sorted copy. */
    constructor (values: seq<string>)
      ensures Sorted(items) && multiset(items) == multiset(values)
    {
      items := SortStrings(values);
      SortedPermutation(values);
    }

    /** `Set`: replaces the contents. */
    method Set(values: seq<string>)
      modifies this
      ensures Sorted(items) && multiset(items) == multiset(values)
    {
      items := values;
      SortedPermutation(items);
      items := SortStrings(items);
    }

    method Add(value: string)
      modifies this
      ensures Sorted(items) && multiset(items) == multiset(old(items)) + multiset{value}
    {
      items := items + [value];
      SortedPermutation(items);
      items := SortStrings(items);
    }

    method AddEnv(name: string, value: string)
      modifies this
      ensures Sorted(items) && multiset(items) == multiset(old(items)) + multiset{name + "=" + value}
    {
      Add(name + "=" + value);
    }
  }

  method Equals(a: seq<string>, b: seq<string>) returns (same: bool)
    ensures same <==> a == b
  {
    if |a| != |b| {
      return false;
    }
    for i := 0 to |a|
      invariant a[..i] == b[..i]
    {
      if a[i] != b[i] {
        return false;
      }
    }
    return true;
  }

  /** `StringSet.Subset`, of any two lists. */
  method Subset(a: seq<string>, b: seq<string>) returns (ok: bool)
    ensures ok == IsSubset(a, b)
  {
    if |a| > |b| {
      return false;
    }
    var i, j := 0, 0;
    while i < |a| && j < |b|
      invariant i <= |a| && j <= |b|
      invariant Scan(a[i..], b[j..]) == Scan(a, b)
      decreases |b| - j
    {
      if Lt(b[j], a[i]) {
      } else if Lt(a[i], b[j]) {
        return false;
      } else {
        i := i + 1;
      }
      j := j + 1;
    }
    return true;
  }
}
