/** `validateQuery` and `validateParams`: run a zod schema over the request's
    query or path parameters, and throw a 400 `VALIDATION_ERROR` carrying the
    flattened issues when it fails. */
module Validate {
  import opened Wrappers
  import opened SearchParams
  import opened ApiTypes
  import opened Handler
  import opened Validators

  /** The field names the issues point at. */
  function Heads(issues: Issues): set<string> {
    set i | 0 <= i < |issues| && |issues[i].path| > 0 :: issues[i].path[0]
  }

  /** The messages of the issues whose path starts at `key`, in order. */
  function FieldMessages(issues: Issues, key: string): seq<string> {
    if issues == [] then []
    else
      var last := issues[|issues| - 1];
      FieldMessages(issues[..|issues| - 1], key) + (if |last.path| > 0 && last.path[0] == key then [last.message] else [])
  }

  /** The messages of the issues about the whole object (empty path), in order. */
  function FormMessages(issues: Issues): seq<string> {
    if issues == [] then []
    else
      var last := issues[|issues| - 1];
      FormMessages(issues[..|issues| - 1]) + (if |last.path| == 0 then [last.message] else [])
  }

  /** The field errors keyed by first path element. */
  function FieldErrors(issues: Issues): map<string, seq<string>> {
    map k | k in Heads(issues) :: FieldMessages(issues, k)
  }

  /** `error.flatten()`: walks the issues in order, appending each message to
      the form errors or to the list of its first path element. */
  function Flatten(issues: Issues): (d: Details)
    ensures d == Flattened(FormMessages(issues), FieldErrors(issues))
  {
    if issues == [] then Flattened([], map[])
    else
      var init, last := issues[..|issues| - 1], issues[|issues| - 1];
      var d := Flatten(init);
      FieldErrorsSnoc(issues);
      if |last.path| > 0 then
        var k := last.path[0];
        assert FormMessages(issues) == FormMessages(init) + [];
        assert d.formErrors == FormMessages(issues);
        assert d.fieldErrors == FieldErrors(init);
        assert d.fieldErrors[k := (if k in d.fieldErrors then d.fieldErrors[k] else []) + [last.message]] == FieldErrors(issues);
        Flattened(d.formErrors, d.fieldErrors[k := (if k in d.fieldErrors then d.fieldErrors[k] else []) + [last.message]])
      else
        Flattened(d.formErrors + [last.message], d.fieldErrors)
  }

  /** Adding one issue appends its message to its field's list, or leaves the field errors alone. */
  lemma FieldErrorsSnoc(issues: Issues)
    requires issues != []
    ensures var init, last := issues[..|issues| - 1], issues[|issues| - 1];
            var f := FieldErrors(init);
            FieldErrors(issues) ==
              if |last.path| > 0 then f[last.path[0] := (if last.path[0] in f then f[last.path[0]] else []) + [last.message]]
              else f
  {
    var init, last := issues[..|issues| - 1], issues[|issues| - 1];
    HeadsSnoc(issues);
    if |last.path| > 0 {
      var k := last.path[0];
      if k !in Heads(init) { NoHeadNoMessages(init, k); }
      var f := FieldErrors(init);
      var g := f[k := (if k in f then f[k] else []) + [last.message]];
      assert FieldErrors(issues).Keys == g.Keys;
      forall j | j in Heads(issues) ensures FieldErrors(issues)[j] == g[j] {
        assert FieldMessages(issues, j) == FieldMessages(init, j) + (if j == k then [last.message] else []);
      }
    } else {
      forall j | j in Heads(issues) ensures FieldErrors(issues)[j] == FieldMessages(init, j) {
        assert FieldMessages(issues, j) == FieldMessages(init, j) + [];
      }
    }
  }

  lemma {:induction false} NoHeadNoMessages(issues: Issues, key: string)
    requires key !in Heads(issues)
    ensures FieldMessages(issues, key) == []
  {
    if issues != [] {
      var init := issues[..|issues| - 1];
      HeadsSnoc(issues);
      NoHeadNoMessages(init, key);
      assert |issues[|issues| - 1].path| > 0 ==> issues[|issues| - 1].path[0] != key;
    }
  }

  lemma HeadsSnoc(issues: Issues)
    requires issues != []
    ensures var init, last := issues[..|issues| - 1], issues[|issues| - 1];
            Heads(issues) == Heads(init) + (if |last.path| > 0 then {last.path[0]} else {})
  {
    var init, last := issues[..|issues| - 1], issues[|issues| - 1];
    forall k | k in Heads(issues) ensures k in Heads(init) + (if |last.path| > 0 then {last.path[0]} else {}) {
      var i :| 0 <= i < |issues| && |issues[i].path| > 0 && issues[i].path[0] == k;
      if i < |init| { assert init[i] == issues[i]; }
    }
    forall k | k in Heads(init) ensures k in Heads(issues) {
      var i :| 0 <= i < |init| && |init[i].path| > 0 && init[i].path[0] == k;
      assert issues[i] == init[i];
    }
  }

  /** The failure `validateQuery` and `validateParams` throw. */
  function ValidationFailure(message: string, issues: Issues): (e: Exception)
    ensures e.ApiException? && e.e.status == 400 && e.e.code == "VALIDATION_ERROR" && e.e.message == message
    ensures e.e.details.Flattened? && e.e.details.fieldErrors.Keys == Heads(issues)
  {
    ErrorResponse("VALIDATION_ERROR", message, Some(400), Flatten(issues))
  }

  /** `validateQuery(schema)(request)`: the schema sees `Object.fromEntries`
      of the query, so a repeated key contributes its last value. */
  function ValidateQuery<T>(schema: map<string, string> -> Result<T, Issues>, query: Pairs): (r: Result<T, Exception>)
    ensures var parsed := schema(FromEntries(query));
            && (r.Ok? <==> parsed.Ok?)
            && (r.Ok? ==> r.value == parsed.value)
            && (r.Err? ==> r.error == ValidationFailure("Invalid query parameters", parsed.error))
  {
    match schema(FromEntries(query))
    case Ok(v) => Ok(v)
    case Err(issues) => Err(ValidationFailure("Invalid query parameters", issues))
  }

  /** `validateParams(schema)(params)`. */
  function ValidateParams<T>(schema: map<string, string> -> Result<T, Issues>, params: map<string, string>): (r: Result<T, Exception>)
    ensures (r.Ok? <==> schema(params).Ok?)
    ensures r.Ok? ==> r.value == schema(params).value
    ensures r.Err? ==> r.error == ValidationFailure("Invalid parameters", schema(params).error)
  {
    match schema(params)
    case Ok(v) => Ok(v)
    case Err(issues) => Err(ValidationFailure("Invalid parameters", issues))
  }
}
