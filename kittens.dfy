/**
 * The litter listing page: the props built at build time (the litters, newest
 * first, and the distinct birth years), and the page's two pieces of state --
 * the litters on display and the current filter text -- which the year filter
 * replaces.
 */
module Kittens {
  import opened Wrappers
  import opened Decimal

  /** A litter as the page receives it; `bornYear` is the calendar year of its birth date. */
  datatype Litter = Litter(id: int, name: string, slug: string, bornYear: int,
                           postImage: string, tags: seq<string>)

  /** A row of `SELECT DISTINCT YEAR(born) AS year FROM Litter ORDER BY year ASC`. */
  datatype YearRow = YearRow(year: int)

  /** The argument of `filterByYear`: the sentinel `'All'` or a year number. */
  datatype Selection = All | Year(year: int)

  /**
   * `year.toString()`, the text stored as the current filter: the sentinel
   * keeps its own text and a year's text reads back as that year.
   */
  function SelectionText(sel: Selection): (s: string)
    ensures sel.All? <==> s == "All"
    ensures sel.Year? ==> ParseInt(s) == sel.year
  {
    match sel
    case All => "All"
    case Year(y) =>
      IntToStringRoundTrip(y);
      IntToString(y)
  }

  /** Different selections leave different filter texts. */
  lemma SelectionTextInjective(a: Selection, b: Selection)
    ensures SelectionText(a) == SelectionText(b) <==> a == b
  {
    if a.Year? && b.Year? {
      IntToStringInjective(a.year, b.year);
    }
  }

  /** `distinctYears.map((year) => year.year)`. */
  function YearsArray(rows: seq<YearRow>): (years: seq<int>)
    ensures |years| == |rows|
    ensures forall i :: 0 <= i < |rows| ==> years[i] == rows[i].year
  {
    seq(|rows|, i requires 0 <= i < |rows| => rows[i].year)
  }

  /**
   * `litters.filter(...)` as written: a litter is kept when the text of its
   * birth year equals the text of the selected year.
   */
  function FilterByBornYear(litters: seq<Litter>, year: int): (r: seq<Litter>)
    ensures |r| <= |litters|
    ensures forall l :: l in r ==> l in litters
  {
    if litters == [] then []
    else
      var rest := FilterByBornYear(litters[1..], year);
      if IntToString(litters[0].bornYear) == IntToString(year) then [litters[0]] + rest else rest
  }

  /** Reference definition: the litters born in `year`, in their original order. */
  function BornIn(litters: seq<Litter>, year: int): seq<Litter> {
    if litters == [] then []
    else if litters[0].bornYear == year then [litters[0]] + BornIn(litters[1..], year)
    else BornIn(litters[1..], year)
  }

  /** `a` is `b` with some elements left out, the rest in the same order. */
  predicate IsSubsequence<T(==)>(a: seq<T>, b: seq<T>)
    decreases |b|
  {
    if a == [] then true
    else if b == [] then false
    else (a[0] == b[0] && IsSubsequence(a[1..], b[1..])) || IsSubsequence(a, b[1..])
  }

  /** What the page displays after the filter is set to `sel`. */
  function Shown(litters: seq<Litter>, sel: Selection): seq<Litter> {
    match sel
    case All => litters
    case Year(y) => FilterByBornYear(litters, y)
  }

  /** Comparing the years as text, as the page does, is comparing them as numbers. */
  lemma {:induction false} FilterByBornYearIsBornIn(litters: seq<Litter>, year: int)
    ensures FilterByBornYear(litters, year) == BornIn(litters, year)
    decreases |litters|
  {
    if litters != [] {
      IntToStringInjective(litters[0].bornYear, year);
      FilterByBornYearIsBornIn(litters[1..], year);
    }
  }

  /** A litter is shown exactly when it is one of the litters and was born in the selected year. */
  lemma {:induction false} FilterByBornYearMembership(litters: seq<Litter>, year: int, l: Litter)
    ensures l in FilterByBornYear(litters, year) <==> l in litters && l.bornYear == year
    decreases |litters|
  {
    if litters != [] {
      IntToStringInjective(litters[0].bornYear, year);
      FilterByBornYearMembership(litters[1..], year, l);
      assert litters == [litters[0]] + litters[1..];
    }
  }

  /** Every litter born in the year is kept, as often as it occurs. */
  lemma {:induction false} FilterByBornYearCount(litters: seq<Litter>, year: int, l: Litter)
    ensures multiset(FilterByBornYear(litters, year))[l]
            == (if l.bornYear == year then multiset(litters)[l] else 0)
    decreases |litters|
  {
    if litters != [] {
      IntToStringInjective(litters[0].bornYear, year);
      FilterByBornYearCount(litters[1..], year, l);
      assert litters == [litters[0]] + litters[1..];
    }
  }

  /** The filtered litters keep their original relative order. */
  lemma {:induction false} FilterByBornYearIsSubsequence(litters: seq<Litter>, year: int)
    ensures IsSubsequence(FilterByBornYear(litters, year), litters)
    decreases |litters|
  {
    if litters != [] {
      FilterByBornYearIsSubsequence(litters[1..], year);
      var rest := FilterByBornYear(litters[1..], year);
      if IntToString(litters[0].bornYear) == IntToString(year) {
        assert ([litters[0]] + rest)[1..] == rest;
      } else if rest != [] {
        assert IsSubsequence(rest, litters);
      }
    }
  }

  /** A subsequence is never longer than the sequence it is taken from. */
  lemma {:induction false} SubsequenceLength<T>(a: seq<T>, b: seq<T>)
    requires IsSubsequence(a, b)
    ensures |a| <= |b|
    decreases |b|
  {
    if a != [] {
      if a[0] == b[0] && IsSubsequence(a[1..], b[1..]) {
        SubsequenceLength(a[1..], b[1..]);
      } else {
        SubsequenceLength(a, b[1..]);
      }
    }
  }

  /** Filtering the filtered list by the same year changes nothing. */
  lemma {:induction false} FilterByBornYearIdempotent(litters: seq<Litter>, year: int)
    ensures FilterByBornYear(FilterByBornYear(litters, year), year) == FilterByBornYear(litters, year)
    decreases |litters|
  {
    if litters != [] {
      FilterByBornYearIdempotent(litters[1..], year);
      var rest := FilterByBornYear(litters[1..], year);
      if IntToString(litters[0].bornYear) == IntToString(year) {
        assert ([litters[0]] + rest)[1..] == rest;
      }
    }
  }

  /** Litters born in 2021, 2022 and 2022: "2022" shows the last two, "All" all three. */
  lemma YearFilterExample(a: Litter, b: Litter, c: Litter)
    requires a.bornYear == 2021 && b.bornYear == 2022 && c.bornYear == 2022
    ensures Shown([a, b, c], Year(2022)) == [b, c]
    ensures Shown([a, b, c], All) == [a, b, c]
  {
    FilterByBornYearIsBornIn([a, b, c], 2022);
    assert [a, b, c][1..] == [b, c];
    assert [b, c][1..] == [c];
    assert BornIn([c], 2022) == [c];
    assert BornIn([b, c], 2022) == [b, c];
  }

  /** The `Litters` page component and its two state cells. */
  class LittersPage {
    const litters: seq<Litter>
    /** The `yearsArray` prop, built from the distinct-years rows. */
    const yearsArray: seq<int>
    var littersArray: seq<Litter>
    var currentFilter: Option<string>

    /**
     * The page as `getStaticProps` hands it its props, then `useState(litters)`
     * and `useState<string | null>(null)`.
     */
    constructor (litters: seq<Litter>, rows: seq<YearRow>)
      ensures this.litters == litters && yearsArray == YearsArray(rows)
      ensures |yearsArray| == |rows|
      ensures littersArray == litters
      ensures currentFilter == None
    {
      this.litters := litters;
      yearsArray := YearsArray(rows);
      littersArray := litters;
      currentFilter := None;
    }

    /**
     * `filterByYear`: the filter text becomes the selection's text, and the
     * display is recomputed from the full `litters`, never from what is
     * currently shown, so it depends on the latest selection alone.
     */
    method FilterByYear(sel: Selection)
      modifies this
      ensures currentFilter == Some(SelectionText(sel))
      ensures littersArray == Shown(litters, sel)
      ensures sel.All? ==> littersArray == litters
      ensures sel.Year? ==> littersArray == BornIn(litters, sel.year)
      ensures IsSubsequence(littersArray, litters) && |littersArray| <= |litters|
      ensures sel.Year? ==> forall l :: l in littersArray <==> l in litters && l.bornYear == sel.year
    {
      currentFilter := Some(SelectionText(sel));
      match sel {
        case All =>
          littersArray := litters;
          AllIsSubsequence(litters);
        case Year(y) =>
          littersArray := FilterByBornYear(litters, y);
          FilterByBornYearIsBornIn(litters, y);
          FilterByBornYearIsSubsequence(litters, y);
          forall l ensures l in littersArray <==> l in litters && l.bornYear == y {
            FilterByBornYearMembership(litters, y, l);
          }
      }
    }
  }

  /** Every sequence is a subsequence of itself. */
  lemma {:induction false} AllIsSubsequence<T>(s: seq<T>)
    ensures IsSubsequence(s, s)
    decreases |s|
  {
    if s != [] {
      AllIsSubsequence(s[1..]);
    }
  }
}
