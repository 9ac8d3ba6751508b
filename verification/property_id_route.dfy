/** `GET /api/properties/[id]`: validate the route parameter as a UUID,
    fetch that listing with `getPropertyById`, and answer it, all inside
    `createHandler`. */
module PropertyIdRoute {
  import opened Wrappers
  import opened DatabaseTypes
  import opened Store
  import opened ApiTypes
  import opened Handler
  import opened Validators
  import opened Validate
  import opened PropertyService

  /** `z.object({ id: propertyIdSchema }).safeParse(params)`: a missing `id`
      is "Required"; an issue of the id schema is reported under `id`. */
  function ParseIdParams(params: map<string, string>): (r: Result<string, Issues>)
    ensures r.Ok? <==> "id" in params && IsUuid(params["id"])
    ensures r.Ok? ==> r.value == params["id"]
    ensures r.Err? ==> r.error != [] && forall i :: 0 <= i < |r.error| ==> r.error[i].path == ["id"]
  {
    if "id" !in params then Err([Issue(["id"], "Required")])
    else match ParsePropertyId(params["id"])
      case Ok(id) => Ok(id)
      case Err(issues) => Err([Issue(["id"], issues[0].message)])
  }

  /** The response for the route parameters `params` against the table `db`. */
  function Get(db: Table<RentalListing>, params: map<string, string>, env: NodeEnv): (r: Response<ApiResponse<RentalListing>>)
    ensures var parsed := ParseIdParams(params);
            && (parsed.Err? ==>
                  r.status == 400 && r.body.data.None? &&
                  r.body.error == Some(ApiError("VALIDATION_ERROR", "Invalid parameters", Flatten(parsed.error))))
            && (parsed.Ok? && db.outage.None? ==>
                  && (r.status == 200 <==> |Where(db.rows, HasId(parsed.value))| == 1)
                  && (r.status == 200 ==>
                        r.body.data.Some? && r.body.data.value in db.rows &&
                        r.body.data.value.id == parsed.value && r.body.error.None?)
                  && (r.status != 200 ==>
                        r.status == 404 && r.body.data.None? &&
                        r.body.error.Some? && r.body.error.value.code == "NOT_FOUND"))
            && (parsed.Ok? && db.outage.Some? && db.outage.value.code != "PGRST116" ==>
                  r.status == 500 && r.body.data.None? &&
                  r.body.error == Some(ApiError("DATABASE_ERROR", "Failed to fetch property",
                                                StoreErrorDetails(db.outage.value.code, db.outage.value.message))))
  {
    match ValidateParams(ParseIdParams, params)
    case Err(e) => CreateHandler(Threw(e), env)
    case Ok(id) =>
      match GetPropertyById(db, id)
      case Err(e) => CreateHandler(Threw(ApiException(e)), env)
      case Ok(property) => CreateHandler(Returned(SuccessResponse(property)), env)
  }

  /** A text that is not a UUID never reaches the store. */
  lemma MalformedIdRefused(db: Table<RentalListing>, env: NodeEnv)
    ensures Get(db, map["id" := "not-a-uuid"], env).status == 400
  {
    NotAUuidRefused();
  }
}
