/** The order JavaScript gives strings when none is supplied: by UTF-16 code unit. */
module StringOrder {
  predicate Before(a: string, b: string) {
    b != [] && (a == [] || a[0] < b[0] || (a[0] == b[0] && Before(a[1..], b[1..])))
  }

  lemma {:induction false} BeforeTransitive(a: string, b: string, c: string)
    ensures Before(a, b) && Before(b, c) ==> Before(a, c)
    ensures Before(a, c) ==> Before(a, b) || Before(b, c)
  {
    if a != [] && b != [] && c != [] {
      BeforeTransitive(a[1..], b[1..], c[1..]);
    }
  }

  lemma {:induction false} NotBeforeItself(a: string)
    ensures !Before(a, a)
  {
    if a != [] { NotBeforeItself(a[1..]); }
  }

  /** Different strings are always ordered one way or the other. */
  lemma {:induction false} BeforeTotal(a: string, b: string)
    ensures a == b || Before(a, b) || Before(b, a)
  {
    if a != [] && b != [] {
      BeforeTotal(a[1..], b[1..]);
      assert a == [a[0]] + a[1..] && b == [b[0]] + b[1..];
    }
  }

  // ---- sorting, as `sort` without a comparator does it ----

  function Insert(name: string, sorted: seq<string>): seq<string> {
    if sorted == [] || Before(name, sorted[0]) then [name] + sorted
    else [sorted[0]] + Insert(name, sorted[1..])
  }

  function Sort(names: seq<string>): seq<string> {
    if names == [] then [] else Insert(names[0], Sort(names[1..]))
  }

  /** In order; equal strings may repeat. */
  ghost predicate Ascending(s: seq<string>) {
    forall i, j :: 0 <= i < j < |s| ==> !Before(s[j], s[i])
  }

  lemma {:induction false} InsertKeeps(name: string, sorted: seq<string>)
    requires Ascending(sorted)
    ensures Ascending(Insert(name, sorted))
    ensures multiset(Insert(name, sorted)) == multiset(sorted) + multiset{name}
  {
    if sorted == [] {
    } else if Before(name, sorted[0]) {
      forall j | 0 <= j < |sorted| ensures !Before(sorted[j], name) {
        BeforeTransitive(sorted[j], name, sorted[0]);
        NotBeforeItself(sorted[0]);
      }
    } else {
      InsertKeeps(name, sorted[1..]);
      var rest := Insert(name, sorted[1..]);
      assert sorted == [sorted[0]] + sorted[1..];
      forall j | 0 <= j < |rest| ensures !Before(rest[j], sorted[0]) {
        assert rest[j] in multiset(rest);
        assert rest[j] == name || rest[j] in sorted[1..];
      }
    }
  }

  lemma {:induction false} SortSorts(names: seq<string>)
    ensures Ascending(Sort(names)) && multiset(Sort(names)) == multiset(names)
  {
    if names != [] {
      SortSorts(names[1..]);
      InsertKeeps(names[0], Sort(names[1..]));
      assert names == [names[0]] + names[1..];
    }
  }

  /** The members of a set that a list names, sorted and each once. */
  function SortedSubset(names: seq<string>, keep: set<string>): (r: seq<string>)
    ensures forall x :: x in r <==> x in names && x in keep
    ensures Ascending(r)
    ensures forall i, j :: 0 <= i < j < |r| ==> r[i] != r[j]
  {
    if names == [] then []
    else
      var rest := SortedSubset(names[1..], keep);
      if names[0] in keep && names[0] !in rest then
        InsertKeeps(names[0], rest);
        InsertOnce(names[0], rest);
        Insert(names[0], rest)
      else rest
  }

  lemma {:induction false} InsertOnce(name: string, sorted: seq<string>)
    requires name !in sorted && forall i, j :: 0 <= i < j < |sorted| ==> sorted[i] != sorted[j]
    ensures forall x :: x in Insert(name, sorted) <==> x == name || x in sorted
    ensures forall i, j :: 0 <= i < j < |Insert(name, sorted)| ==> Insert(name, sorted)[i] != Insert(name, sorted)[j]
  {
    if sorted != [] && !Before(name, sorted[0]) {
      InsertOnce(name, sorted[1..]);
      var rest := Insert(name, sorted[1..]);
      assert Insert(name, sorted) == [sorted[0]] + rest;
      assert sorted[0] !in sorted[1..] && sorted[0] !in rest;
    }
  }
}
