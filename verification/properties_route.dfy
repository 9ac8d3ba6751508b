/** `GET /api/properties`: validate the query, run `queryProperties`, and
    answer the page of listings with its `page`, `limit` and `total`, all
    inside `createHandler`. */
module PropertiesRoute {
  import opened Wrappers
  import opened SearchParams
  import opened DatabaseTypes
  import opened Store
  import opened ApiTypes
  import opened Handler
  import opened Validators
  import opened Validate
  import opened PropertyService

  /** The parsed query handed to the service. */
  function ToFilters(q: PropertyQuery): PropertyFilters {
    PropertyFilters(q.city, q.minPrice, q.maxPrice, q.propertyType, Some(q.limit), Some(q.offset))
  }

  /** For an accepted query the service pages with the query's own limit
      and offset, so the reported page is `offset / limit + 1`. */
  lemma AcceptedQueryPage(input: map<string, string>)
    requires ParsePropertyQuery(input).Ok?
    ensures var q := ParsePropertyQuery(input).value;
            && EffectiveLimit(ToFilters(q)) == q.limit
            && EffectiveOffset(ToFilters(q)) == q.offset
            && PageNumber(ToFilters(q)) == q.offset / q.limit + 1
  {
    ParsedQueryFields(input);
  }

  /** The response for `query` against the table `db`. */
  method Get(db: Table<RentalListing>, query: Pairs, env: NodeEnv) returns (r: Response<ApiResponse<seq<RentalListing>>>)
    ensures var parsed := ParsePropertyQuery(FromEntries(query));
            && (parsed.Err? ==>
                  r.status == 400 && r.body.data.None? && r.body.metadata.None? &&
                  r.body.error == Some(ApiError("VALIDATION_ERROR", "Invalid query parameters", Flatten(parsed.error))))
            && (parsed.Ok? && db.outage.Some? ==>
                  r.status == 500 && r.body.data.None? &&
                  r.body.error == Some(ApiError("DATABASE_ERROR", "Failed to query properties",
                                                StoreErrorDetails(db.outage.value.code, db.outage.value.message))))
            && (parsed.Ok? && db.outage.None? ==>
                  var e := Expected(db.rows, ToFilters(parsed.value));
                  r.status == 200 && r.body.error.None? && r.body.data == Some(e.data) &&
                  r.body.metadata == Some(Metadata(Some(e.page), Some(e.limit), Some(e.total))))
  {
    var validated := ValidateQuery(ParsePropertyQuery, query);
    if validated.Err? {
      r := CreateHandler(Threw(validated.error), env);
      return;
    }
    var result := QueryProperties(db, ToFilters(validated.value));
    if result.Err? {
      r := CreateHandler(Threw(ApiException(result.error)), env);
      return;
    }
    var page := result.value;
    r := CreateHandler(Returned(SuccessResponse(page.data, Some(Metadata(Some(page.page), Some(page.limit), Some(page.total))))), env);
  }
}
