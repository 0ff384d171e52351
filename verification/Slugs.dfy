/** Slug candidates: base, base-2, base-3, ... and the first one that is free. */
module Slugs {

  function Digit(d: nat): char
    requires d < 10
  {
    '0' + d as char
  }

  /** Decimal notation, as an f-string prints a number. */
  function Decimal(n: nat): (text: string)
    ensures text != []
  {
    if n < 10 then [Digit(n)] else Decimal(n / 10) + [Digit(n % 10)]
  }

  /** Two numbers never print alike. */
  lemma {:induction false} DecimalInjective(m: nat, n: nat)
    requires Decimal(m) == Decimal(n)
    ensures m == n
  {
    var s, t := Decimal(m), Decimal(n);
    assert s[|s| - 1] == Digit(m % 10) && t[|t| - 1] == Digit(n % 10);
    if m >= 10 && n >= 10 {
      assert s[..|s| - 1] == Decimal(m / 10) && t[..|t| - 1] == Decimal(n / 10);
      DecimalInjective(m / 10, n / 10);
    }
  }

  /** The n-th candidate for a base slug, counting from zero. */
  function Candidate(base: string, n: nat): string {
    if n == 0 then base else base + "-" + Decimal(n + 1)
  }

  lemma CandidateInjective(base: string, m: nat, n: nat)
    requires Candidate(base, m) == Candidate(base, n)
    ensures m == n
  {
    var s, t := Candidate(base, m), Candidate(base, n);
    if m > 0 && n > 0 {
      assert s[|base| + 1..] == Decimal(m + 1) && t[|base| + 1..] == Decimal(n + 1);
      DecimalInjective(m + 1, n + 1);
    }
  }

  predicate AllTaken(base: string, n: nat, taken: set<string>) {
    forall i: nat :: i < n ==> Candidate(base, i) in taken
  }

  /** One more candidate is taken, and taken slugs stay taken. */
  lemma AllTakenNext(base: string, n: nat, before: set<string>, after: set<string>)
    requires AllTaken(base, n, before) && Candidate(base, n) in before && before <= after
    ensures AllTaken(base, n + 1, after)
  {
    forall i: nat | i < n + 1
      ensures Candidate(base, i) in after
    {
      if i < n {
        assert Candidate(base, i) in before;
      }
    }
  }

  /** Pigeonhole: n distinct candidates fit in `taken` only if it has that many members. */
  lemma {:induction false} Pigeonhole(base: string, n: nat, taken: set<string>)
    requires AllTaken(base, n, taken)
    ensures n <= |taken|
  {
    if n > 0 {
      var last := Candidate(base, n - 1);
      forall i: nat | i < n - 1
        ensures Candidate(base, i) in taken - {last}
      {
        if Candidate(base, i) == last {
          CandidateInjective(base, i, n - 1);
        }
      }
      Pigeonhole(base, n - 1, taken - {last});
    }
  }

  /** The index of the first free candidate from the n-th on. */
  function FirstFreeFrom(base: string, n: nat, taken: set<string>): (index: nat)
    requires AllTaken(base, n, taken)
    ensures n <= index <= |taken|
    ensures Candidate(base, index) !in taken
    ensures AllTaken(base, index, taken)
    decreases |taken| - n
  {
    Pigeonhole(base, n, taken);
    if Candidate(base, n) !in taken then n
    else
      Pigeonhole(base, n + 1, taken);
      FirstFreeFrom(base, n + 1, taken)
  }

  function FreeSlug(base: string, taken: set<string>): (slug: string)
    ensures slug !in taken
  {
    Candidate(base, FirstFreeFrom(base, 0, taken))
  }

  /** A free candidate whose predecessors are all taken is the one FreeSlug picks. */
  lemma FreeSlugUnique(base: string, n: nat, taken: set<string>)
    requires AllTaken(base, n, taken) && Candidate(base, n) !in taken
    ensures FreeSlug(base, taken) == Candidate(base, n)
  {
    var m := FirstFreeFrom(base, 0, taken);
    assert !(m < n);
    assert !(n < m);
  }

  /** The number that a string of digits stands for. */
  function Value(text: string): int {
    if text == [] then 0 else 10 * Value(text[..|text| - 1]) + (text[|text| - 1] as int - '0' as int)
  }

  /** Decimal notation reads back as the number, and has digits only, the first not zero but for 0. */
  lemma {:induction false} DecimalReads(n: nat)
    ensures Value(Decimal(n)) == n
    ensures forall i :: 0 <= i < |Decimal(n)| ==> '0' <= Decimal(n)[i] <= '9'
    ensures n > 0 ==> Decimal(n)[0] != '0'
  {
    if n < 10 {
      assert Decimal(n)[..0] == [];
    } else {
      DecimalReads(n / 10);
      assert Decimal(n)[..|Decimal(n)| - 1] == Decimal(n / 10);
    }
  }

  /** Candidates are the base itself, then the base, a hyphen and a number from 2 on. */
  lemma CandidateReads(base: string, n: nat)
    ensures Candidate(base, 0) == base
    ensures n > 0 ==> var c := Candidate(base, n);
                      && |base| < |c| && c[..|base|] == base && c[|base|] == '-'
                      && Value(c[|base| + 1..]) == n + 1
                      && forall i :: |base| < i < |c| ==> '0' <= c[i] <= '9'
  {
    DecimalReads(n + 1);
    if n > 0 {
      assert Candidate(base, n)[|base| + 1..] == Decimal(n + 1);
      assert Candidate(base, n)[..|base|] == base;
    }
  }
}
