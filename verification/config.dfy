/**
 * The settings validator for the allowed CORS origins: a comma-separated
 * string becomes a list of trimmed origins, a list or a JSON-looking string
 * passes through, and anything else is rejected.
 */
module Config {
  import opened Wrappers
  import opened Text

  /** The raw setting: a string, a list of strings, or a value of any other type. */
  datatype CorsValue = Str(s: string) | StrList(items: seq<string>) | Other

  /** The error the validator raises, carrying the rejected value. */
  datatype ValidationError = ValueError(value: CorsValue)

  /** The default origins of the development front ends. */
  const DefaultCorsOrigins: seq<string> := ["http://localhost:3000", "http://localhost:3001"]

  /** The trimmed comma-separated pieces of `s`. */
  function SplitOrigins(s: string): (origins: seq<string>)
    ensures |origins| == |Split(s, ',')|
  {
    var parts := Split(s, ',');
    seq(|parts|, k requires 0 <= k < |parts| => Strip(parts[k]))
  }

  /** `assemble_cors_origins`. */
  function AssembleCorsOrigins(v: CorsValue): (r: Result<CorsValue, ValidationError>)
    ensures r.Err? <==> v.Other?
    ensures r.Err? ==> r.error == ValueError(v)
    ensures r.Ok? ==> r.value == v || (v.Str? && r.value.StrList? && |r.value.items| == CountChar(v.s, ',') + 1)
  {
    SplitLength(if v.Str? then v.s else "", ',');
    match v
    case Str(s) => if !StartsWith(s, "[") then Ok(StrList(SplitOrigins(s))) else Ok(v)
    case StrList(_) => Ok(v)
    case Other => Err(ValueError(v))
  }

  /** A piece of text holds no comma when the text it was cut from holds none. */
  lemma StripsToNoComma(s: string, r: string, i: int)
    requires StripsTo(s, r, i) && ',' !in s
    ensures ',' !in r
  {
    assert forall k :: 0 <= k < |r| ==> r[k] == s[i + k];
  }

  /**
   * A plain string gives one origin per comma plus one, each being its
   * comma-separated piece with only the whitespace around it removed, so
   * free of commas and of whitespace at both ends; a JSON-looking string and a
   * list pass through unchanged; any other value is rejected with itself.
   */
  lemma {:induction false} AssembleCorsOriginsProps(v: CorsValue)
    ensures v.Str? && !StartsWith(v.s, "[") ==>
      AssembleCorsOrigins(v).Ok? && AssembleCorsOrigins(v).value.StrList? &&
      var origins := AssembleCorsOrigins(v).value.items;
      |origins| == CountChar(v.s, ',') + 1 &&
      forall k :: 0 <= k < |origins| ==>
        StripsTo(Split(v.s, ',')[k], origins[k], LeadingSpaces(Split(v.s, ',')[k])) &&
        ',' !in origins[k] &&
        (origins[k] == [] || (!IsSpace(origins[k][0]) && !IsSpace(origins[k][|origins[k]| - 1])))
    ensures v.Str? && StartsWith(v.s, "[") ==> AssembleCorsOrigins(v) == Ok(v)
    ensures v.StrList? ==> AssembleCorsOrigins(v) == Ok(v)
    ensures v.Other? <==> AssembleCorsOrigins(v) == Err(ValueError(v))
  {
    if v.Str? && !StartsWith(v.s, "[") {
      var parts := Split(v.s, ',');
      SplitLength(v.s, ',');
      var origins := SplitOrigins(v.s);
      forall k | 0 <= k < |origins|
        ensures StripsTo(parts[k], origins[k], LeadingSpaces(parts[k]))
        ensures ',' !in origins[k]
        ensures origins[k] == [] || (!IsSpace(origins[k][0]) && !IsSpace(origins[k][|origins[k]| - 1]))
      {
        assert origins[k] == Strip(parts[k]);
        StripProps(parts[k]);
        StripsToNoComma(parts[k], origins[k], LeadingSpaces(parts[k]));
      }
    }
  }

  /** The empty setting gives a single empty origin. */
  lemma EmptyGivesOneEmptyOrigin()
    ensures AssembleCorsOrigins(Str("")) == Ok(StrList([""]))
  {
    var empty: string := [];
    assert !StartsWith(empty, "[");
    assert Split(empty, ',') == [empty];
    var origins := SplitOrigins(empty);
    StripUnchanged(empty);
    assert origins == [empty];
  }

  /**
   * Origins that are already trimmed and hold no commas survive being
   * joined with commas and read back, unless the joined text would start
   * with "[".
   */
  lemma JoinedOriginsRoundTrip(origins: seq<string>)
    requires |origins| >= 1
    requires forall k :: 0 <= k < |origins| ==> ',' !in origins[k]
    requires forall k :: 0 <= k < |origins| ==>
      origins[k] == [] || (!IsSpace(origins[k][0]) && !IsSpace(origins[k][|origins[k]| - 1]))
    requires !StartsWith(Join(origins, ','), "[")
    ensures AssembleCorsOrigins(Str(Join(origins, ','))) == Ok(StrList(origins))
  {
    var joined := Join(origins, ',');
    SplitJoin(origins, ',');
    var got := SplitOrigins(joined);
    assert |got| == |origins|;
    forall k | 0 <= k < |origins|
      ensures got[k] == origins[k]
    {
      assert got[k] == Strip(origins[k]);
      StripUnchanged(origins[k]);
    }
    assert got == origins;
  }
}
