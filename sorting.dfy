/** Python's `sorted` of the distinct strings of a column. Strings compare
    lexicographically by code point, as Python's `<` on `str` does. */
module Sorting {

  /** `a < b` on strings. */
  predicate Below(a: string, b: string)
    decreases |a|
  {
    if a == [] then b != []
    else b != [] && (a[0] < b[0] || (a[0] == b[0] && Below(a[1..], b[1..])))
  }

  lemma {:induction false} BelowIrreflexive(a: string)
    ensures !Below(a, a)
  {
    if a != [] {
      BelowIrreflexive(a[1..]);
    }
  }

  lemma {:induction false} BelowTransitive(a: string, b: string, c: string)
    requires Below(a, b) && Below(b, c)
    ensures Below(a, c)
  {
    if a != [] && a[0] == b[0] && b[0] == c[0] {
      BelowTransitive(a[1..], b[1..], c[1..]);
    }
  }

  lemma {:induction false} BelowTotal(a: string, b: string)
    requires a != b
    ensures Below(a, b) || Below(b, a)
  {
    if a != [] && b != [] && a[0] == b[0] {
      assert a == [a[0]] + a[1..] && b == [b[0]] + b[1..];
      BelowTotal(a[1..], b[1..]);
    }
  }

  /** Every element is below every later one: ascending, with no repeats. */
  predicate StrictlyAscending(s: seq<string>)
  {
    forall i, j :: 0 <= i < j < |s| ==> Below(s[i], s[j])
  }

  lemma AscendingHasNoDuplicates(s: seq<string>)
    requires StrictlyAscending(s)
    ensures forall i, j :: 0 <= i < j < |s| ==> s[i] != s[j]
  {
    forall i, j | 0 <= i < j < |s| ensures s[i] != s[j] {
      BelowIrreflexive(s[i]);
    }
  }

  /** Inserts `x` into an ascending list, unless it is already there. */
  function Insert(x: string, s: seq<string>): seq<string>
  {
    if s == [] then [x]
    else if x == s[0] then s
    else if Below(x, s[0]) then [x] + s
    else [s[0]] + Insert(x, s[1..])
  }

  lemma {:induction false} InsertSpec(x: string, s: seq<string>)
    requires StrictlyAscending(s)
    ensures StrictlyAscending(Insert(x, s))
    ensures forall y :: y in Insert(x, s) <==> y == x || y in s
  {
    if s != [] && x != s[0] {
      if Below(x, s[0]) {
        forall j | 0 <= j < |s| ensures Below(x, s[j]) {
          if j > 0 { BelowTransitive(x, s[0], s[j]); }
        }
      } else {
        BelowTotal(x, s[0]);
        InsertSpec(x, s[1..]);
        var r := Insert(x, s[1..]);
        assert s == [s[0]] + s[1..];
        forall y | y in r ensures Below(s[0], y) {
          if y != x {
            var j :| 0 <= j < |s[1..]| && s[1..][j] == y;
            assert s[j + 1] == y;
          }
        }
      }
    }
  }

  /** `sorted(set(xs))` as a list. */
  function SortedUnique(xs: seq<string>): seq<string>
  {
    if xs == [] then [] else Insert(xs[0], SortedUnique(xs[1..]))
  }

  /** The result is strictly ascending and holds exactly the values of `xs`. */
  lemma {:induction false} SortedUniqueSpec(xs: seq<string>)
    ensures StrictlyAscending(SortedUnique(xs))
    ensures forall y :: y in SortedUnique(xs) <==> y in xs
  {
    if xs != [] {
      SortedUniqueSpec(xs[1..]);
      InsertSpec(xs[0], SortedUnique(xs[1..]));
      assert xs == [xs[0]] + xs[1..];
    }
  }
}
