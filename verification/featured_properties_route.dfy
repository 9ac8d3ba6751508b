/** `GET /api/featured-properties`: an optional `limit` between 1 and 10
    (4 when absent), the newest listings, and metadata holding only the limit. */
module FeaturedPropertiesRoute {
  import opened Wrappers
  import opened Text
  import opened SearchParams
  import opened DatabaseTypes
  import opened Store
  import opened ApiTypes
  import opened Handler
  import opened Validators
  import opened Validate
  import opened PropertyService

  /** `featuredQuerySchema.safeParse(input)`: `z.coerce.number().min(1).max(10).default(4)`. */
  function ParseFeaturedQuery(input: map<string, string>): (r: Result<int, Issues>)
    ensures r.Ok? <==> "limit" !in input || (CoerceNumber(input["limit"]).Some? && 1 <= CoerceNumber(input["limit"]).value <= 10)
    ensures r.Ok? ==> 1 <= r.value <= 10
    ensures "limit" !in input ==> r == Ok(4)
    ensures "limit" in input && r.Ok? ==> r == Ok(CoerceNumber(input["limit"]).value)
  {
    match NumberField(input, "limit")
    case Err(issues) => Err(issues)
    case Ok(None) => Ok(4)
    case Ok(Some(n)) =>
      var issues := BoundIssues("limit", n, 1, Some(10));
      if issues != [] then Err(issues) else Ok(n)
  }

  /** The response for `query` against the table `db`. */
  function Get(db: Table<RentalListing>, query: Pairs, env: NodeEnv): (r: Response<ApiResponse<seq<RentalListing>>>)
    ensures var parsed := ParseFeaturedQuery(FromEntries(query));
            && (parsed.Err? ==>
                  r.status == 400 && r.body.data.None? &&
                  r.body.error == Some(ApiError("VALIDATION_ERROR", "Invalid query parameters", Flatten(parsed.error))))
            && (parsed.Ok? && db.outage.Some? ==>
                  r.status == 500 && r.body.data.None? &&
                  r.body.error == Some(ApiError("DATABASE_ERROR", "Failed to fetch featured properties",
                                                StoreErrorDetails(db.outage.value.code, db.outage.value.message))))
            && (parsed.Ok? && db.outage.None? ==>
                  r.status == 200 && r.body.error.None? &&
                  r.body.data == Some(AllNewestFirst(db.rows)[..Clamp(parsed.value, |db.rows|)]) &&
                  r.body.metadata == Some(Metadata(None, Some(parsed.value), None)))
  {
    match ValidateQuery(ParseFeaturedQuery, query)
    case Err(e) => CreateHandler(Threw(e), env)
    case Ok(limit) =>
      match GetFeaturedProperties(db, limit)
      case Err(e) => CreateHandler(Threw(ApiException(e)), env)
      case Ok(listings) => CreateHandler(Returned(SuccessResponse(listings, Some(Metadata(None, Some(limit), None)))), env)
  }

  /** A 200 answers the newest `limit` listings for a valid `limit`. */
  lemma FeaturedSuccess(db: Table<RentalListing>, query: Pairs, env: NodeEnv)
    requires Get(db, query, env).status == 200
    ensures ParseFeaturedQuery(FromEntries(query)).Ok? && db.outage.None?
    ensures Get(db, query, env).body.data ==
              Some(AllNewestFirst(db.rows)[..Clamp(ParseFeaturedQuery(FromEntries(query)).value, |db.rows|)])
  {
  }

  /** A successful answer holds at most `limit` listings, and at most 10,
      newest first, all from the table. */
  lemma FeaturedAnswer(db: Table<RentalListing>, query: Pairs, env: NodeEnv)
    requires Get(db, query, env).status == 200
    ensures var r := Get(db, query, env);
            var limit := ParseFeaturedQuery(FromEntries(query)).value;
            && r.body.data.Some? && |r.body.data.value| <= limit <= 10
            && ListingsNewestFirst(r.body.data.value)
            && multiset(r.body.data.value) <= multiset(db.rows)
  {
    FeaturedSuccess(db, query, env);
    var limit := ParseFeaturedQuery(FromEntries(query)).value;
    FeaturedAreNewest(db, limit);
  }

  /** `?limit=100` is refused with a 400. */
  lemma LimitAboveTenRefused(db: Table<RentalListing>, env: NodeEnv)
    ensures Get(db, [("limit", "100")], env).status == 400
    ensures Get(db, [("limit", "100")], env).body.error.value.code == "VALIDATION_ERROR"
  {
    var query := [("limit", "100")];
    assert query[..0] == [];
    assert FromEntries(query) == map["limit" := "100"];
    assert NatToText(100) == NatToText(10) + "0" == "100";
    CoerceNumberOfText(100);
  }

  /** `?limit=+5` is read as a limit of 5. */
  lemma PlusSignedLimitAccepted()
    ensures ParseFeaturedQuery(map["limit" := "+5"]) == Ok(5)
  {
    CoerceSignedText(5);
    assert "+" + NatToText(5) == "+5";
  }
}
