/** The zod schemas for the rental listing query and the property id.
    The query arrives as a map from parameter name to text; `z.coerce.number`
    reads integer text (`Number(text)`, with "" read as 0), and text it
    cannot read is NaN, which zod rejects. Unknown keys are dropped. */
module Validators {
  import opened Wrappers
  import opened Text

  /** One zod issue: the path of the offending field and its message. */
  datatype Issue = Issue(path: seq<string>, message: string)

  type Issues = seq<Issue>

  datatype PropertyQuery = PropertyQuery(
    city: Option<string>,
    minPrice: Option<int>,
    maxPrice: Option<int>,
    propertyType: Option<string>,
    limit: int,
    offset: int)

  /** `Number(text)` on integer text; `None` stands for NaN. */
  function CoerceNumber(s: string): Option<int> {
    if s == "" then Some(0)
    else if s[0] == '-' && IsDigits(s[1..]) then Some(0 - DigitsValue(s[1..]))
    else if s[0] == '+' && IsDigits(s[1..]) then Some(DigitsValue(s[1..]))
    else if IsDigits(s) then Some(DigitsValue(s))
    else None
  }

  /** The decimal text of a natural coerces back to it. */
  lemma CoerceNumberOfText(n: nat)
    ensures CoerceNumber(NatToText(n)) == Some(n)
  {
    NatToTextRoundTrip(n);
  }

  /** A sign before the decimal text of a natural gives that natural, or its
      negation for `-`; a sign alone is NaN. */
  lemma CoerceSignedText(n: nat)
    ensures CoerceNumber("+" + NatToText(n)) == Some(n)
    ensures CoerceNumber("-" + NatToText(n)) == Some(-(n as int))
    ensures CoerceNumber("+") == None && CoerceNumber("-") == None
  {
    NatToTextRoundTrip(n);
    assert ("+" + NatToText(n))[1..] == NatToText(n);
    assert ("-" + NatToText(n))[1..] == NatToText(n);
  }

  /** `z.coerce.number()` on field `key`, when present. */
  function NumberField(input: map<string, string>, key: string): Result<Option<int>, Issues> {
    if key !in input then Ok(None)
    else match CoerceNumber(input[key])
      case None => Err([Issue([key], NaNMessage)])
      case Some(n) => Ok(Some(n))
  }

  const NaNMessage := "Expected number, received nan"

  /** The issue `.positive()` raises for a value that is not above 0. */
  function PositiveIssues(key: string, v: Option<int>): Issues {
    if v.Some? && v.value <= 0 then [Issue([key], "Number must be greater than 0")] else []
  }

  /** The issues `.min(lo)` and `.max(hi)` raise; `hi` is `None` without `.max`. */
  function BoundIssues(key: string, n: int, lo: nat, hi: Option<nat>): Issues {
    if n < lo then [Issue([key], "Number must be greater than or equal to " + NatToText(lo))]
    else if hi.Some? && n > hi.value then [Issue([key], "Number must be less than or equal to " + NatToText(hi.value))]
    else []
  }

  /** The issues the checks of the numeric field `key` raise on a value it read. */
  function CheckIssues(key: string, n: int): Issues {
    if key == "limit" then BoundIssues("limit", n, 1, Some(50))
    else if key == "offset" then BoundIssues("offset", n, 0, None)
    else PositiveIssues(key, Some(n))
  }

  /** The issues of the numeric field `key`: its NaN issue when its text does
      not read (its checks then do not run), else those its checks raise. An
      absent field raises none; the default of `limit` and `offset` passes
      their checks. */
  function FieldIssues(input: map<string, string>, key: string): Issues {
    match NumberField(input, key)
    case Err(issues) => issues
    case Ok(v) => if v.Some? then CheckIssues(key, v.value) else []
  }

  /** The issues of the object's fields, in the schema's key order: zod
      parses every key, even after one has failed. */
  function ObjectIssues(input: map<string, string>): Issues {
    FieldIssues(input, "minPrice") + FieldIssues(input, "maxPrice")
    + FieldIssues(input, "limit") + FieldIssues(input, "offset")
  }

  const PriceOrderMessage := "minPrice must be less than or equal to maxPrice"

  /** JavaScript truthiness of an optional number. */
  predicate Truthy(v: Option<int>) {
    v.Some? && v.value != 0
  }

  function FieldValue(input: map<string, string>, key: string): Option<int> {
    if key in input then CoerceNumber(input[key]) else None
  }

  /** Every numeric field that is present reads as a number. */
  predicate AllNumbersRead(input: map<string, string>) {
    Reads(input, "minPrice") && Reads(input, "maxPrice") && Reads(input, "limit") && Reads(input, "offset")
  }

  predicate Reads(input: map<string, string>, key: string) {
    key in input ==> CoerceNumber(input[key]).Some?
  }

  predicate PricesInOrder(input: map<string, string>) {
    var lo, hi := FieldValue(input, "minPrice"), FieldValue(input, "maxPrice");
    Truthy(lo) && Truthy(hi) ==> lo.value <= hi.value
  }

  /** When the raw parameters are acceptable: each number reads and is in
      bounds, and two given price bounds are ordered. */
  predicate AcceptablePropertyQuery(input: map<string, string>) {
    && AllNumbersRead(input)
    && ("minPrice" in input ==> FieldValue(input, "minPrice").value > 0)
    && ("maxPrice" in input ==> FieldValue(input, "maxPrice").value > 0)
    && ("limit" in input ==> 1 <= FieldValue(input, "limit").value <= 50)
    && ("offset" in input ==> FieldValue(input, "offset").value >= 0)
    && PricesInOrder(input)
  }

  /** `propertyQuerySchema.safeParse(input)`. Every field is parsed and
      reports its issues. A field that does not read as a number aborts the
      object, so the price-order refinement only runs when every field read;
      a failed check only marks the object dirty, so the refinement still
      runs and adds its issue after the field issues. */
  function ParsePropertyQuery(input: map<string, string>): (r: Result<PropertyQuery, Issues>)
    ensures r.Ok? <==> AcceptablePropertyQuery(input)
    ensures r.Err? ==> r.error != []
    ensures r.Err? ==> |ObjectIssues(input)| <= |r.error| && r.error[..|ObjectIssues(input)|] == ObjectIssues(input)
    ensures AllNumbersRead(input) && !PricesInOrder(input) ==>
              r.Err? && r.error[|r.error| - 1] == Issue(["minPrice"], PriceOrderMessage)
    ensures !AllNumbersRead(input) ==> r == Err(ObjectIssues(input))
    ensures !AllNumbersRead(input) ==> Issue(["minPrice"], PriceOrderMessage) !in r.error
  {
    var issues := ObjectIssues(input);
    if !AllNumbersRead(input) then
      NoRefinementIssue(input);
      Err(issues)
    else
      var minPrice, maxPrice := FieldValue(input, "minPrice"), FieldValue(input, "maxPrice");
      var limit := if "limit" in input then FieldValue(input, "limit").value else 10;
      var offset := if "offset" in input then FieldValue(input, "offset").value else 0;
      var refinement := if Truthy(minPrice) && Truthy(maxPrice) && minPrice.value > maxPrice.value
                        then [Issue(["minPrice"], PriceOrderMessage)] else [];
      FieldIssuesWhenRead(input);
      assert (issues + refinement)[..|issues|] == issues;
      if issues + refinement != [] then Err(issues + refinement)
      else Ok(PropertyQuery(
        if "city" in input then Some(input["city"]) else None,
        minPrice, maxPrice,
        if "propertyType" in input then Some(input["propertyType"]) else None,
        limit, offset))
  }

  /** When every number reads, a field raises an issue exactly when its
      value is out of its bounds. */
  lemma FieldIssuesWhenRead(input: map<string, string>)
    requires AllNumbersRead(input)
    ensures ObjectIssues(input) == [] <==>
              && ("minPrice" in input ==> FieldValue(input, "minPrice").value > 0)
              && ("maxPrice" in input ==> FieldValue(input, "maxPrice").value > 0)
              && ("limit" in input ==> 1 <= FieldValue(input, "limit").value <= 50)
              && ("offset" in input ==> FieldValue(input, "offset").value >= 0)
  {
  }

  /** The field issues never include the refinement's issue. */
  lemma NoRefinementIssue(input: map<string, string>)
    ensures Issue(["minPrice"], PriceOrderMessage) !in ObjectIssues(input)
  {
    FieldRaisesNoRefinementIssue(input, "minPrice");
    FieldRaisesNoRefinementIssue(input, "maxPrice");
    FieldRaisesNoRefinementIssue(input, "limit");
    FieldRaisesNoRefinementIssue(input, "offset");
  }

  lemma FieldRaisesNoRefinementIssue(input: map<string, string>, key: string)
    ensures Issue(["minPrice"], PriceOrderMessage) !in FieldIssues(input, key)
  {
    assert PriceOrderMessage != NaNMessage;
    assert PriceOrderMessage != "Number must be greater than 0";
  }

  /** `minPrice=+5` reads as a minimum price of 5, as `Number("+5")` does. */
  lemma PlusSignedPriceRead()
    ensures ParsePropertyQuery(map["minPrice" := "+5"]) == Ok(PropertyQuery(None, Some(5), None, None, 10, 0))
  {
    CoerceSignedText(5);
    assert "+" + NatToText(5) == "+5";
  }

  /** `minPrice=abc&limit=100`: the unreadable price and the limit out of
      bounds are both reported, in the schema's key order. */
  lemma EveryFieldReported()
    ensures ParsePropertyQuery(map["minPrice" := "abc", "limit" := "100"])
              == Err([Issue(["minPrice"], NaNMessage), Issue(["limit"], "Number must be less than or equal to 50")])
  {
    var input := map["minPrice" := "abc", "limit" := "100"];
    assert !IsDigit('a');
    assert CoerceNumber("abc") == None;
    assert DigitsValue("100") == 100 by {
      assert "100"[..2] == "10" && "10"[..1] == "1" && "1"[..0] == "";
    }
    assert NatToText(50) == "50" by {
      assert DigitChar(5) == '5' && DigitChar(0) == '0';
      assert NatToText(5) == "5";
      assert NatToText(50) == NatToText(5) + [DigitChar(0)];
    }
    assert "Number must be less than or equal to " + NatToText(50) == "Number must be less than or equal to 50";
    assert IsDigits("100");
    assert CoerceNumber("100") == Some(100);
    assert BoundIssues("limit", 100, 1, Some(50)) == [Issue(["limit"], "Number must be less than or equal to 50")];
    assert FieldIssues(input, "minPrice") == [Issue(["minPrice"], NaNMessage)];
    assert FieldIssues(input, "limit") == [Issue(["limit"], "Number must be less than or equal to 50")];
    assert FieldIssues(input, "maxPrice") == [] && FieldIssues(input, "offset") == [];
    assert ObjectIssues(input) == [Issue(["minPrice"], NaNMessage), Issue(["limit"], "Number must be less than or equal to 50")];
    assert !AllNumbersRead(input);
  }

  /** A parsed query carries the given values or the defaults, within bounds. */
  lemma ParsedQueryFields(input: map<string, string>)
    requires ParsePropertyQuery(input).Ok?
    ensures var q := ParsePropertyQuery(input).value;
              && 1 <= q.limit <= 50 && q.offset >= 0
              && q.limit == (if "limit" in input then FieldValue(input, "limit").value else 10)
              && q.offset == (if "offset" in input then FieldValue(input, "offset").value else 0)
              && q.minPrice == FieldValue(input, "minPrice") && q.maxPrice == FieldValue(input, "maxPrice")
              && (q.minPrice.Some? ==> q.minPrice.value > 0)
              && (q.maxPrice.Some? ==> q.maxPrice.value > 0)
              && (q.minPrice.Some? && q.maxPrice.Some? ==> q.minPrice.value <= q.maxPrice.value)
              && q.city == (if "city" in input then Some(input["city"]) else None)
              && q.propertyType == (if "propertyType" in input then Some(input["propertyType"]) else None)
  {
  }

  predicate IsHexDigit(c: char) {
    '0' <= c <= '9' || 'a' <= c <= 'f' || 'A' <= c <= 'F'
  }

  predicate IsHexRun(s: string, n: nat) {
    |s| == n && forall i :: 0 <= i < |s| ==> IsHexDigit(s[i])
  }

  /** The textual UUID form of section 3 of RFC 4122, character by
      character: hex digits everywhere except '-' at 8, 13, 18 and 23. */
  predicate IsUuid(s: string) {
    |s| == 36 && forall i :: 0 <= i < 36 ==>
      if i == 8 || i == 13 || i == 18 || i == 23 then s[i] == '-' else IsHexDigit(s[i])
  }

  /** zod's UUID pattern: groups of 8, 4, 4, 4 and 12 hex digits joined by '-'. */
  predicate MatchesUuidPattern(s: string) {
    |s| == 36 &&
    IsHexRun(s[0..8], 8) && s[8] == '-' && IsHexRun(s[9..13], 4) && s[13] == '-' &&
    IsHexRun(s[14..18], 4) && s[18] == '-' && IsHexRun(s[19..23], 4) && s[23] == '-' &&
    IsHexRun(s[24..36], 12)
  }

  /** The grouped pattern and the character-by-character form accept the same texts. */
  lemma UuidPatternIsUuidForm(s: string)
    ensures MatchesUuidPattern(s) <==> IsUuid(s)
  {
    if IsUuid(s) {
      assert forall i :: 0 <= i < 8 ==> s[0..8][i] == s[i];
      assert forall i :: 0 <= i < 4 ==> s[9..13][i] == s[9 + i] && s[14..18][i] == s[14 + i] && s[19..23][i] == s[19 + i];
      assert forall i :: 0 <= i < 12 ==> s[24..36][i] == s[24 + i];
    }
    if MatchesUuidPattern(s) {
      forall i | 0 <= i < 36 && i != 8 && i != 13 && i != 18 && i != 23 ensures IsHexDigit(s[i]) {
        if i < 8 { assert s[0..8][i] == s[i]; }
        else if i < 13 { assert s[9..13][i - 9] == s[i]; }
        else if i < 18 { assert s[14..18][i - 14] == s[i]; }
        else if i < 23 { assert s[19..23][i - 19] == s[i]; }
        else { assert s[24..36][i - 24] == s[i]; }
      }
    }
  }

  const InvalidIdMessage := "Invalid property ID format"

  /** `propertyIdSchema.safeParse(s)`. */
  function ParsePropertyId(s: string): (r: Result<string, Issues>)
    ensures r.Ok? <==> IsUuid(s)
    ensures r.Ok? ==> r.value == s
    ensures r.Err? ==> r.error == [Issue([], InvalidIdMessage)]
  {
    UuidPatternIsUuidForm(s);
    if MatchesUuidPattern(s) then Ok(s) else Err([Issue([], InvalidIdMessage)])
  }

  /** "not-a-uuid" is refused. */
  lemma NotAUuidRefused()
    ensures ParsePropertyId("not-a-uuid").Err?
  {
  }
}
