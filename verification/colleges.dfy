/**
 * The colleges page: the search and district filters over the loaded
 * colleges, the list of districts offered by the district selector, and
 * the label that counts the results.
 */
module Colleges {
  import opened Wrappers
  import opened Text
  import opened Seqs

  /** A college as the page and its cards read it; optional fields may be missing. */
  datatype College = College(
    name: string,
    description: Option<string>,
    district: string,
    location: string,
    tuition: Option<nat>,
    programs: Option<seq<string>>)

  // ---------------------------------------------------------------------
  // Filtering

  /** The name, or the description when there is one, holds the search term, ignoring case. */
  predicate MatchesSearch(c: College, term: string)
  {
    Contains(Lower(c.name), Lower(term)) ||
    (c.description.Some? && Contains(Lower(c.description.value), Lower(term)))
  }

  /** The college lies in the district, ignoring case. */
  predicate InDistrict(c: College, district: string)
  {
    Lower(c.district) == Lower(district)
  }

  /** Whether a college survives both filters; an empty filter value switches that filter off. */
  predicate Kept(c: College, searchTerm: string, selectedDistrict: string)
  {
    (searchTerm == "" || MatchesSearch(c, searchTerm)) &&
    (selectedDistrict == "" || InDistrict(c, selectedDistrict))
  }

  /** `filterColleges`: the search filter when a term is given, then the district filter when one is chosen. */
  function FilterColleges(colleges: seq<College>, searchTerm: string, selectedDistrict: string): (r: seq<College>)
    ensures |r| <= |colleges|
    ensures forall k :: 0 <= k < |r| ==> r[k] in colleges && Kept(r[k], searchTerm, selectedDistrict)
  {
    var bySearch := if searchTerm != "" then Filter(colleges, c => MatchesSearch(c, searchTerm)) else colleges;
    if selectedDistrict != "" then Filter(bySearch, c => InDistrict(c, selectedDistrict)) else bySearch
  }

  /** The two chained filters amount to one filter by `Kept`. */
  lemma FilterCollegesIsKept(colleges: seq<College>, searchTerm: string, selectedDistrict: string)
    ensures FilterColleges(colleges, searchTerm, selectedDistrict) == Filter(colleges, c => Kept(c, searchTerm, selectedDistrict))
  {
    var kept := c => Kept(c, searchTerm, selectedDistrict);
    var search := c => MatchesSearch(c, searchTerm);
    var district := c => InDistrict(c, selectedDistrict);
    if searchTerm != "" && selectedDistrict != "" {
      FilterFilter(colleges, search, district, kept);
    } else if searchTerm != "" {
      FilterFilter(colleges, search, c => true, kept);
      FilterAll(Filter(colleges, search), c => true);
    } else if selectedDistrict != "" {
      FilterFilter(colleges, c => true, district, kept);
      FilterAll(colleges, c => true);
    } else {
      FilterAll(colleges, kept);
    }
  }

  /**
   * The filtered list keeps the colleges' order, holds only colleges that
   * pass both active filters, and holds every copy of each college that
   * passes them.
   */
  lemma FilterCollegesProps(colleges: seq<College>, searchTerm: string, selectedDistrict: string)
    ensures var r := FilterColleges(colleges, searchTerm, selectedDistrict);
      IsSubsequence(r, colleges) &&
      (forall c | c in r :: Kept(c, searchTerm, selectedDistrict)) &&
      (forall c | c in colleges && Kept(c, searchTerm, selectedDistrict) :: c in r) &&
      (forall c :: multiset(r)[c] == if Kept(c, searchTerm, selectedDistrict) then multiset(colleges)[c] else 0)
  {
    var kept := c => Kept(c, searchTerm, selectedDistrict);
    FilterCollegesIsKept(colleges, searchTerm, selectedDistrict);
    var r := Filter(colleges, kept);
    FilterIsSubsequence(colleges, kept);
    forall c
      ensures multiset(r)[c] == if Kept(c, searchTerm, selectedDistrict) then multiset(colleges)[c] else 0
    {
      FilterCounts(colleges, kept, c);
    }
  }

  /** With no search term and no district, every college is shown, in order. */
  lemma NoFilterShowsAll(colleges: seq<College>)
    ensures FilterColleges(colleges, "", "") == colleges
  {
  }

  // ---------------------------------------------------------------------
  // Districts offered by the selector

  /** `colleges.map(college => college.district)`. */
  function DistrictColumn(colleges: seq<College>): (ds: seq<string>)
  {
    seq(|colleges|, i requires 0 <= i < |colleges| => colleges[i].district)
  }

  /** `[...new Set(colleges.map(college => college.district))]`. */
  function Districts(colleges: seq<College>): (r: seq<string>)
    ensures NoDuplicates(r)
    ensures forall d :: d in r <==> d in DistrictColumn(colleges)
    ensures InFirstOccurrenceOrder(r, DistrictColumn(colleges))
  {
    DistinctProps(DistrictColumn(colleges));
    Distinct(DistrictColumn(colleges))
  }

  /**
   * Every district of a college is offered exactly once, nothing else is
   * offered, and the districts come in the order the colleges first name them.
   */
  lemma DistrictsProps(colleges: seq<College>)
    ensures var r := Districts(colleges);
      NoDuplicates(r) &&
      (forall d :: d in r <==> exists i :: 0 <= i < |colleges| && colleges[i].district == d) &&
      InFirstOccurrenceOrder(r, DistrictColumn(colleges))
  {
    var ds := DistrictColumn(colleges);
    DistinctProps(ds);
    forall d
      ensures d in ds <==> exists i :: 0 <= i < |colleges| && colleges[i].district == d
    {
      if d in ds {
        var i :| 0 <= i < |ds| && ds[i] == d;
        assert colleges[i].district == d;
      }
      if exists i :: 0 <= i < |colleges| && colleges[i].district == d {
        var i :| 0 <= i < |colleges| && colleges[i].district == d;
        assert ds[i] == d;
      }
    }
  }

  // ---------------------------------------------------------------------
  // Result count

  /** The results line: the count, then "college" with an "s" unless exactly one was found. */
  function CountLabel(n: nat): (shown: string)
    ensures StartsWith(shown, NatToString(n) + " ")
  {
    var suffix := CountSuffix(n);
    assert suffix[0] == ' ';
    assert (NatToString(n) + suffix)[..|NatToString(n)| + 1] == NatToString(n) + [suffix[0]];
    NatToString(n) + suffix
  }

  /** The words after the count. */
  function CountSuffix(n: nat): string
  {
    " college" + (if n != 1 then "s" else "") + " found"
  }

  /** The words after the count are " colleges found", or " college found" for one. */
  lemma CountSuffixValues(n: nat)
    ensures CountSuffix(n) == if n != 1 then " colleges found" else " college found"
  {
  }

  /**
   * The label reads back as the count, and uses the singular "college"
   * exactly when one college is found.
   */
  lemma CountLabelProps(n: nat)
    ensures var shown := CountLabel(n);
      var digits := NatToString(n);
      StartsWith(shown, digits + " ") && ParseNat(digits) == n &&
      (EndsWith(shown, " colleges found") <==> n != 1) &&
      (EndsWith(shown, " college found") <==> n == 1)
  {
    var digits := NatToString(n);
    ParseNatToString(n);
    var plural := " colleges found";
    var single := " college found";
    Endings(digits, plural, single);
    Endings(digits, single, plural);
    CountSuffixValues(n);
  }

  /** A text ending in `suffix` does not end in `other`, which differs seven characters from the end. */
  lemma Endings(digits: string, suffix: string, other: string)
    requires suffix in {" colleges found", " college found"} && other in {" colleges found", " college found"}
    requires suffix != other
    ensures EndsWith(digits + suffix, suffix) && !EndsWith(digits + suffix, other)
  {
    var s := digits + suffix;
    assert s[|s| - |suffix|..] == suffix;
    assert s[|s| - 7] == suffix[|suffix| - 7];
    assert other[|other| - 7] != suffix[|suffix| - 7];
  }
}
