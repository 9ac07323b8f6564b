/**
 * What a college card shows: the programme badges, the description cut to
 * 100 characters with an ellipsis, and the tuition with thousands
 * separators or "N/A" when it is missing.
 */
module CollegeCard {
  import opened Wrappers
  import opened Text
  import opened Colleges

  /** Longest description shown whole. */
  const DescriptionLimit: nat := 100

  /**
   * The description as the card shows it: one longer than the limit is cut
   * to its first 100 characters and "..." is added; a missing description
   * shows nothing.
   */
  function ShownDescription(description: Option<string>): (shown: Option<string>)
    ensures shown.None? <==> description.None?
    ensures shown.Some? ==> |shown.value| <= DescriptionLimit + 3
  {
    match description
    case None => None
    case Some(s) => if |s| > DescriptionLimit then Some(s[..DescriptionLimit] + "...") else Some(s)
  }

  /**
   * A short description is shown as it is; a long one as exactly its first
   * 100 characters and "...", 103 characters in all; either way the shown
   * text begins with the original's first 100 characters.
   */
  lemma ShownDescriptionProps(description: Option<string>)
    ensures description.None? <==> ShownDescription(description).None?
    ensures description.Some? && |description.value| <= DescriptionLimit ==>
      ShownDescription(description) == description
    ensures description.Some? && |description.value| > DescriptionLimit ==>
      var shown := ShownDescription(description).value;
      |shown| == DescriptionLimit + 3 && shown[..DescriptionLimit] == description.value[..DescriptionLimit] &&
      EndsWith(shown, "...")
    ensures description.Some? ==>
      var s := description.value;
      StartsWith(ShownDescription(description).value, s[..if |s| < DescriptionLimit then |s| else DescriptionLimit])
  {
    if description.Some? {
      var s := description.value;
      if |s| > DescriptionLimit {
        var shown := s[..DescriptionLimit] + "...";
        assert shown[..DescriptionLimit] == s[..DescriptionLimit];
        assert shown[|shown| - 3..] == "...";
      } else {
        assert s[..|s|] == s;
      }
    }
  }

  /** Cutting a shown description again changes nothing. */
  lemma ShownDescriptionIdempotent(description: Option<string>)
    ensures ShownDescription(ShownDescription(description)) == ShownDescription(description)
  {
    if description.Some? && |description.value| > DescriptionLimit {
      var s := description.value;
      var shown := s[..DescriptionLimit] + "...";
      assert shown[..DescriptionLimit] == s[..DescriptionLimit];
    }
  }

  /** The programme badges, in order; missing programmes give no badges. */
  function Badges(programs: Option<seq<string>>): (badges: seq<string>)
  {
    match programs
    case None => []
    case Some(ps) => ps
  }

  // ---------------------------------------------------------------------
  // Tuition

  /** Decimal digits with a comma before each group of three counted from the right. */
  function GroupDigits(digits: string): string
    decreases |digits|
  {
    if |digits| <= 3 then digits
    else GroupDigits(digits[..|digits| - 3]) + "," + digits[|digits| - 3..]
  }

  /** `n.toLocaleString()` in an English locale: the decimal digits grouped by thousands. */
  function Grouped(n: nat): string
  {
    GroupDigits(NatToString(n))
  }

  /** `s` with its commas taken out. */
  function DropCommas(s: string): (r: string)
    ensures |r| <= |s|
  {
    if s == [] then []
    else (if s[0] == ',' then [] else [s[0]]) + DropCommas(s[1..])
  }

  /** Commas are dropped piece by piece. */
  lemma {:induction false} DropCommasAppend(a: string, b: string)
    ensures DropCommas(a + b) == DropCommas(a) + DropCommas(b)
    decreases |a|
  {
    if a == [] {
      assert a + b == b;
    } else {
      assert (a + b)[0] == a[0];
      assert (a + b)[1..] == a[1..] + b;
      DropCommasAppend(a[1..], b);
    }
  }

  /** A string without commas loses nothing. */
  lemma {:induction false} DropCommasNone(s: string)
    requires ',' !in s
    ensures DropCommas(s) == s
    decreases |s|
  {
    if s != [] {
      assert s[0] in s;
      assert forall k :: 0 <= k < |s[1..]| ==> s[1..][k] == s[k + 1];
      DropCommasNone(s[1..]);
      assert s == [s[0]] + s[1..];
    }
  }

  /** Grouping only inserts commas: taking them out gives the digits back. */
  lemma {:induction false} GroupDigitsRoundTrip(digits: string)
    requires ',' !in digits
    ensures DropCommas(GroupDigits(digits)) == digits
    ensures |digits| >= 1 ==> |GroupDigits(digits)| >= 1
    decreases |digits|
  {
    if |digits| <= 3 {
      DropCommasNone(digits);
    } else {
      var head := digits[..|digits| - 3];
      var tail := digits[|digits| - 3..];
      assert digits == head + tail;
      assert ',' !in head && ',' !in tail;
      GroupDigitsRoundTrip(head);
      DropSeparator(GroupDigits(head), tail);
    }
  }

  /** Dropping the commas around one separator joins the two sides. */
  lemma DropSeparator(g: string, tail: string)
    requires ',' !in tail
    ensures DropCommas(g + "," + tail) == DropCommas(g) + tail
  {
    var comma: string := [','];
    var a := g + comma;
    DropCommasAppend(g, comma);
    DropComma();
    assert DropCommas(a) == DropCommas(g);
    DropCommasAppend(a, tail);
    DropCommasNone(tail);
  }

  lemma DropComma()
    ensures DropCommas([',']) == []
  {
    var comma: string := [','];
    assert comma[1..] == [];
  }

  /**
   * The tuition as the card shows it after the label: a dollar sign, then
   * the grouped amount, or "N/A" when the tuition is missing.
   */
  function TuitionText(tuition: Option<nat>): (shown: string)
    ensures StartsWith(shown, "$")
  {
    "$" + match tuition
      case None => "N/A"
      case Some(n) => Grouped(n)
  }

  /**
   * A present tuition, zero included, shows its amount, which reads back as
   * the amount's digits once the separators are taken out, with a separator
   * before every group of three digits counted from the right; only a
   * missing one shows "N/A".
   */
  lemma TuitionTextProps(tuition: Option<nat>)
    ensures tuition.None? ==> TuitionText(tuition) == "$N/A"
    ensures tuition.Some? ==>
      StartsWith(TuitionText(tuition), "$") &&
      DropCommas(TuitionText(tuition)[1..]) == NatToString(tuition.value) &&
      ParseNat(NatToString(tuition.value)) == tuition.value
    ensures tuition.Some? ==>
      var groups := Split(TuitionText(tuition)[1..], ',');
      1 <= |groups[0]| <= 3 && forall k :: 1 <= k < |groups| ==> |groups[k]| == 3
    ensures tuition.Some? && tuition.value < 1000 ==> TuitionText(tuition) == "$" + NatToString(tuition.value)
  {
    if tuition.Some? {
      var n := tuition.value;
      var ds := NatToString(n);
      assert forall k :: 0 <= k < |ds| ==> IsDigit(ds[k]);
      assert ',' !in ds;
      GroupDigitsRoundTrip(ds);
      GroupDigitsPieces(ds);
      ParseNatToString(n);
      assert TuitionText(tuition)[1..] == Grouped(n);
      if n < 1000 {
        NatToStringShort(n);
      }
    }
  }

  /**
   * Where the separators go: the grouped digits split at the commas into a
   * leading group of one to three digits and then groups of exactly three.
   */
  lemma {:induction false} GroupDigitsPieces(digits: string)
    requires ',' !in digits && |digits| >= 1
    ensures var groups := Split(GroupDigits(digits), ',');
      1 <= |groups[0]| <= 3 && forall k :: 1 <= k < |groups| ==> |groups[k]| == 3
    decreases |digits|
  {
    if |digits| <= 3 {
      assert FirstIndex(digits, ',') == |digits|;
    } else {
      var head := digits[..|digits| - 3];
      var tail := digits[|digits| - 3..];
      assert ',' !in head && ',' !in tail;
      GroupDigitsPieces(head);
      SplitSnoc(GroupDigits(head), ',', tail);
    }
  }

  /** Amounts below a thousand have at most three digits. */
  lemma {:induction false} NatToStringShort(n: nat)
    requires n < 1000
    ensures |NatToString(n)| <= 3
  {
    if n >= 10 {
      NatToStringShort(n / 10);
      if n >= 100 {
        assert n / 10 >= 10;
      } else {
        assert n / 10 < 10;
      }
    }
  }

  /** The parts of a card that depend on the college's data. */
  datatype CardView = CardView(
    title: string,
    subtitle: string,
    badges: seq<string>,
    text: Option<string>,
    tuition: string)

  /** The card for one college. */
  function Card(c: College): (card: CardView)
    ensures card.title == c.name && card.subtitle == c.location
    ensures card.badges == [] <==> c.programs.None? || c.programs.value == []
    ensures c.programs.Some? ==>
      |card.badges| == |c.programs.value| &&
      (forall i :: 0 <= i < |card.badges| ==> card.badges[i] == c.programs.value[i])
    ensures card.text.None? <==> c.description.None?
    ensures StartsWith(card.tuition, "$")
  {
    CardView(c.name, c.location, Badges(c.programs), ShownDescription(c.description), TuitionText(c.tuition))
  }
}
