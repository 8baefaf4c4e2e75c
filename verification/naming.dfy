/**
 * Names and messages of `BasicSimulation`: the decimal text of an integer
 * (Java string concatenation of an `int`), the sanitised type name and the
 * unique building name `generateUniqueBuildingName` picks for a new
 * building.
 */
module Naming {
  import opened Wrappers

  // ------------------------------------------------------- decimal numbers

  function Digit(d: nat): (c: char)
    requires d < 10
    ensures '0' <= c <= '9'
  {
    (48 + d) as char
  }

  /** The value of a digit character. */
  function DigitValue(c: char): int
  {
    c as int - 48
  }

  /** The decimal text of a natural number, without leading zeros. */
  function Decimal(n: nat): (s: string)
    ensures |s| >= 1 && forall i :: 0 <= i < |s| ==> '0' <= s[i] <= '9'
    ensures |s| > 1 ==> s[0] != '0'
    decreases n
  {
    if n < 10 then [Digit(n)] else Decimal(n / 10) + [Digit(n % 10)]
  }

  /** Reading a digit string back as a number. */
  function Value(s: string): int
  {
    if s == [] then 0 else 10 * Value(s[..|s| - 1]) + DigitValue(s[|s| - 1])
  }

  /** Reading the decimal text of `n` gives `n` back. */
  lemma {:induction false} ValueOfDecimal(n: nat)
    ensures Value(Decimal(n)) == n
    decreases n
  {
    if n >= 10 {
      var s := Decimal(n);
      assert s[..|s| - 1] == Decimal(n / 10);
      ValueOfDecimal(n / 10);
    }
  }

  /** Different numbers have different decimal texts. */
  lemma DecimalInjective(j: nat, k: nat)
    requires Decimal(j) == Decimal(k)
    ensures j == k
  {
    ValueOfDecimal(j);
    ValueOfDecimal(k);
  }

  /** Java's `"" + n` for an `int`: a minus sign before the digits of a negative number. */
  function IntText(n: int): (s: string)
    ensures n >= 0 ==> s == Decimal(n)
    ensures n < 0 ==> s == "-" + Decimal(-n)
  {
    if n < 0 then "-" + Decimal(-n) else Decimal(n)
  }

  // ------------------------------------------------------------ type names

  /** A character the pattern `[a-zA-Z0-9]` matches. */
  predicate IsAlnum(c: char)
  {
    'a' <= c <= 'z' || 'A' <= c <= 'Z' || '0' <= c <= '9'
  }

  /** `replaceAll("[^a-zA-Z0-9]", "_")`: each other character becomes an underscore. */
  function Sanitize(s: string): (r: string)
    ensures |r| == |s|
    ensures forall i :: 0 <= i < |s| && IsAlnum(s[i]) ==> r[i] == s[i]
    ensures forall i :: 0 <= i < |s| && !IsAlnum(s[i]) ==> r[i] == '_'
  {
    if s == [] then []
    else Sanitize(s[..|s| - 1]) + [if IsAlnum(s[|s| - 1]) then s[|s| - 1] else '_']
  }

  /** Sanitising leaves only letters, digits and underscores, and doing it twice changes nothing more. */
  lemma SanitizeIdempotent(s: string)
    ensures forall i :: 0 <= i < |s| ==> IsAlnum(Sanitize(s)[i]) || Sanitize(s)[i] == '_'
    ensures Sanitize(Sanitize(s)) == Sanitize(s)
  {
    var r := Sanitize(s);
    var r2 := Sanitize(r);
    forall i | 0 <= i < |r|
      ensures r2[i] == r[i]
    {
      if !IsAlnum(r[i]) {
        assert !IsAlnum(s[i]);
      }
    }
  }

  /** The `count`-th name tried for a new building of a type with sanitised name `base`. */
  function Candidate(base: string, count: nat): string
  {
    base + "_" + Decimal(count)
  }

  /** Candidates for different counts are different names. */
  lemma CandidateInjective(base: string, j: nat, k: nat)
    requires Candidate(base, j) == Candidate(base, k)
    ensures j == k
  {
    var n := |base| + 1;
    assert Candidate(base, j)[n..] == Decimal(j);
    assert Candidate(base, k)[n..] == Decimal(k);
    DecimalInjective(j, k);
  }

  /**
   * `generateUniqueBuildingName`: counting from 1, the first candidate that
   * is not yet a building name. The counter only passes names in use, and
   * different counts give different names, so the search ends.
   */
  method UniqueName(taken: set<string>, typeName: string) returns (name: string, ghost k: nat)
    ensures k >= 1 && name == Candidate(Sanitize(typeName), k)
    ensures name !in taken
    ensures forall j :: 1 <= j < k ==> Candidate(Sanitize(typeName), j) in taken
  {
    var base := Sanitize(typeName);
    var count := 1;
    name := Candidate(base, count);
    ghost var tried: seq<string> := [];
    while name in taken
      invariant count >= 1 && name == Candidate(base, count)
      invariant |tried| == count - 1
      invariant forall j :: 1 <= j < count ==> tried[j - 1] == Candidate(base, j)
      invariant forall s :: s in tried ==> s in taken
      invariant NoDup(tried)
      decreases |taken| - |tried|
    {
      forall i | 0 <= i < |tried|
        ensures tried[i] != name
      {
        if tried[i] == name {
          CandidateInjective(base, i + 1, count);
        }
      }
      NoDupAppend(tried, [name]);
      DistinctBound(tried + [name], taken);
      tried := tried + [name];
      count := count + 1;
      name := Candidate(base, count);
    }
    k := count;
  }
}
