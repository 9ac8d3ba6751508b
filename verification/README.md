# Trulia clone: listing request pipeline and client state, in Dafny

This project models the request pipeline and client-side state logic of a
rental and office listing site. The site is built on Next.js over a hosted
Postgres store (Supabase, queried through PostgREST). It covers:

- **Request validation**: the zod schemas for the rental listing query, the
  featured limit and the property id, and the wrappers that turn a failed
  parse into a 400 `VALIDATION_ERROR`.
- **Envelope and error layer**: `ApiErrorResponse`, `createApiResponse`, and
  `createHandler`, which maps thrown errors to `{data, error, metadata}`
  bodies and HTTP statuses.
- **Listing queries**: the rental service (`queryProperties`,
  `getFeaturedProperties`, `getPropertyById`), the rental listing, listing-by-id,
  office listing and two featured routes. A table is an in-memory sequence of records plus
  an optional outage. Each query-builder call (`eq`, `gte`, `lte`, `ilike`,
  `order`, `range`, `limit`, `single`) has its plain meaning over that
  sequence (module `Store`). A filter on a column the table lacks fails the
  query, as PostgREST does (error 42703).
- **Route guard**: the middleware's redirect to `/login`.
- **Client state**:
  - the `useApi` hook: URL building, and loading, error and data;
  - the office-spaces page: request parameters, filter and page handlers,
    response handling;
  - the rental `FilterSidebar`.
- **Small mappings**: office listing to card props (the seven-day "new"
  rule and the badges), and the admin display name.

One Dafny module per source file, plus helper modules:
- `Wrappers`: `Option` and `Result`.
- `Text`: digits, ASCII case, prefix, substring and `split`.
- `SearchParams`: `URLSearchParams` and `Object.fromEntries`.
- `DatabaseTypes`: the two listing records and their row views.
- `Store`: the query builder.

Code that changes state step by step takes the same form here:
- `queryProperties` and the office route are methods that reassign a local
  query, one `if` at a time.
- The office-spaces page, the filter sidebar and the `useApi` state are
  classes whose methods update their fields.

Each of these is proved against a specification function (`Expected`,
`BuiltQuery`, `RequestParams`, `WithPrice` and so on). Throwing is an `Err`
result or a `Handler.Exception`, and a route answers a `Response` value.

## Model

| member | source | states |
|---|---|---|
| Validators.ParsePropertyQuery | src/lib/api/validators/properties.ts:3-18 | Parsing succeeds exactly when every present number reads, both prices are positive, limit is in 1..50, offset is at least 0, and two truthy prices are ordered. A failure always carries an issue, and its issues begin with every field's own issues in schema order (`minPrice`, `maxPrice`, `limit`, `offset`). When every number reads, an out-of-order price pair adds the `minPrice` refinement issue last. When a number does not read, the failure is exactly the field issues: the refinement is skipped, but the other fields are still reported. |
| Validators.FieldIssuesWhenRead | src/lib/api/validators/properties.ts:5-9 | When every number reads, there are no field issues exactly when both present prices are positive, a present limit lies in 1..50 and a present offset is at least 0. |
| Validators.NoRefinementIssue | src/lib/api/validators/properties.ts:10-18 | Without the refinement, no issue is the `minPrice` ordering issue. |
| Validators.EveryFieldReported | src/lib/api/validators/properties.ts:3-18 | For `minPrice=abc&limit=100` the failure holds both the unreadable-number issue for `minPrice` and the at-most-50 issue for `limit`, in that order. |
| Validators.ParsedQueryFields | src/lib/api/validators/properties.ts:3-18 | An accepted query has limit in 1..50 and offset at least 0. Each equals its field or its default (10, 0). Given prices are positive and ordered. `city` and `propertyType` pass through unchanged. |
| Validators.CoerceNumberOfText | src/lib/api/validators/properties.ts:5-9 | `z.coerce.number` reads the decimal text of a natural back as that natural. |
| Validators.CoerceSignedText | src/lib/api/validators/properties.ts:5-9 | A leading `+` before a natural's decimal text gives that natural, a leading `-` its negation, and a sign alone is NaN. |
| Validators.PlusSignedPriceRead | src/lib/api/validators/properties.ts:3-18 | `minPrice=+5` is accepted as a minimum price of 5, with the default limit 10 and offset 0. |
| Validators.UuidPatternIsUuidForm | src/lib/api/validators/properties.ts:20-22 | The 8-4-4-4-12 hex group pattern accepts exactly the texts that have hex digits everywhere except `-` at positions 8, 13, 18 and 23. |
| Validators.ParsePropertyId | src/lib/api/validators/properties.ts:20-22 | An id is accepted exactly when it has the UUID text form of section 3 of RFC 4122, and it is then returned unchanged. Otherwise the one issue is "Invalid property ID format". |
| Validators.NotAUuidRefused | src/lib/api/validators/properties.ts:20-22 | "not-a-uuid" is refused. |
| Validate.Flatten | src/lib/api/middleware/validate.ts:15 | The details of a validation error are the issues' form messages and their per-field messages. |
| Validate.ValidationFailure | src/lib/api/middleware/validate.ts:10-17 | A failed parse becomes an `ApiErrorResponse` with status 400, code `VALIDATION_ERROR` and the given message. Its field errors are keyed by exactly the fields the issues name. |
| Validate.ValidateQuery | src/lib/api/middleware/validate.ts:5-21 | The query pairs are flattened with `Object.fromEntries`, so the last value of a repeated key wins. The result is the schema's value exactly when parsing succeeds; otherwise it is the 400 "Invalid query parameters" failure. |
| Validate.ValidateParams | src/lib/api/middleware/validate.ts:23-38 | The same for route parameters, with the message "Invalid parameters". |
| SearchParams.FromEntriesLastWins | src/lib/api/middleware/validate.ts:7 | `Object.fromEntries` has a key exactly when some pair names it, and keeps the value of the last such pair. |
| SearchParams.RepeatedKey | src/lib/api/middleware/validate.ts:7 | For a repeated key, `get` sees the first value and `fromEntries` the last. |
| SearchParams.Get | src/app/api/office-properties/route.ts:12-25 | `searchParams.get(key)` is present exactly when some pair has the key, and is the value of the first such pair. |
| SearchParams.Serialize | src/lib/hooks/useApi.ts:27-28 | The query string is empty exactly when there are no pairs. |
| ApiTypes.NewApiErrorResponse | src/lib/api/types.ts:17-27 | The error keeps code, message and details as given. Its status is 500 unless one is given, and its name is "ApiErrorResponse". |
| ApiTypes.CreateApiResponse | src/lib/api/types.ts:29-37 | The envelope's data, error and metadata are its arguments, with nothing added or changed. |
| ApiTypes.EmptyEnvelope | src/lib/api/types.ts:29-37 | With no arguments, data and error are null and metadata is undefined. |
| Handler.CreateHandler | src/lib/api/utils/handler.ts:13-42 | A returned response passes unchanged. A thrown `ApiErrorResponse` becomes `{data: null, error: {code, message, details}}` with the error's own status. Anything else becomes a 500 `INTERNAL_SERVER_ERROR` "An unexpected error occurred", whose details are present only in development. |
| Handler.ThrownBecomesErrorEnvelope | src/lib/api/utils/handler.ts:17-39 | Any thrown value with a status of at least 400 becomes an error envelope without data and with an error status. Outside development, an unknown error's details are undefined. |
| Handler.ErrorResponse | src/lib/api/utils/handler.ts:44-51 | `errorResponse` always throws an `ApiErrorResponse` with the given code, message and details; the status is 500 unless given. |
| Handler.SuccessResponse | src/lib/api/utils/handler.ts:53-62 | A 200 whose body is `{data, error: null, metadata}`. |
| DatabaseTypes.RentalRow | src/types/database.types.ts:1-42 | A rental listing seen as a row of `rental_listings` has exactly the table's columns, and each holds the listing's field. |
| DatabaseTypes.OfficeRow | src/types/database.types.ts:44-74 | The same for an office listing and `office_listings`. |
| DatabaseTypes.RentalCells | src/types/database.types.ts:1-42 | A rental row holds the listing's id, city, monthly rent, type and creation time, and has no `price` column. |
| DatabaseTypes.OfficeCells | src/types/database.types.ts:44-74 | An office row holds the listing's desks, meeting rooms (NULL when unknown), type, reception, internet speed, city, state, rent and creation time. |
| Store.Where | src/lib/services/properties/service.ts:33-44 | Filtering keeps a sub-multiset of the rows, no longer than the table. |
| Store.WhereMembers | src/lib/services/properties/service.ts:33-44 | A row is kept exactly when it is in the table and satisfies the predicate. |
| Store.FilterStepNarrows | src/lib/services/properties/service.ts:33-44 | An optional filter step narrows the matching rows by exactly its condition; an absent step changes nothing. |
| Store.ChainMatches | src/app/api/office-properties/route.ts:34-72 | A chain of optional filter steps matches a row exactly when the row meets every step's condition. |
| Store.MatchesEveryFilter | src/lib/services/properties/service.ts:33-44 | Chained filters match a row exactly when every filter holds on it. |
| Store.SortNewestFirst | src/lib/services/properties/service.ts:12 | `order('created_at', {ascending: false})` is a permutation of the rows, newest first. |
| Store.InsertByAge | src/lib/services/properties/service.ts:12 | Inserting one row into a newest-first sequence keeps it newest first and adds exactly that row. |
| Store.RangeWindow | src/lib/services/properties/service.ts:51-53 | `range(from, to)` from a non-negative `from` gives at most `to - from + 1` rows. Its length is exactly what remains of the sequence after `from`, up to `to`. The k-th row is the (from + k)-th of the sequence. |
| Store.PageOfSelected | src/lib/services/properties/service.ts:51-55 | Any window of the filtered, newest-first rows holds only table rows that pass the filter, newest first. |
| Store.WindowKeepsOrder | src/lib/services/properties/service.ts:51-53 | A window of a newest-first sequence is newest first. |
| Store.UnknownColumn | src/lib/services/properties/service.ts:28-53 | A query names an unknown column exactly when one of its filters or its ordering names a column outside the table. |
| Store.Ordered | src/lib/services/properties/service.ts:51-52 | The ordered matches are a permutation of the matching rows, newest first when an ordering was asked for. |
| Store.Execute | src/lib/services/properties/service.ts:55 | A query fails exactly on an outage or an unknown column, and an outage is reported as itself. |
| Store.ExecuteAnswer | src/lib/services/properties/service.ts:55 | A successful answer counts exactly the matching rows when asked to, returns only matching table rows, and keeps them newest first when ordered. |
| Store.ExecuteShape | src/lib/services/properties/service.ts:55 | A successful answer is the window of the ordered matching rows, with their count when asked. |
| Store.ExecuteSingle | src/lib/services/properties/service.ts:74-79 | `single()` answers a matching table row. Without an outage or an unknown column, its failure is PGRST116, and the query then had other than one row. |
| Store.Latest | src/lib/services/properties/service.ts:9-13 | `order(column desc).limit(n)` fails only on an outage, and otherwise answers the first n rows of the newest-first order, without a count. |
| Store.LatestBounds | src/lib/services/properties/service.ts:9-13 | Those rows number n (0 for a negative n, all rows when fewer), come newest first, and come from the table. |
| Store.PrefixIsNewest | src/lib/services/properties/service.ts:9-13 | No row left out of a newest-first prefix is newer than a row in it. |
| PropertyService.FloorDivBounds | src/lib/services/properties/service.ts:49 | `Math.floor(a / b)` rounds toward negative infinity for either sign of `b`. |
| PropertyService.CityStepAgrees | src/lib/services/properties/service.ts:33-35 | The city step keeps a listing exactly when its city contains the text, regardless of case. An empty city adds no step. |
| PropertyService.LowerStepAgrees | src/lib/services/properties/service.ts:36-38 | A truthy minimum price keeps a listing only when the bound is on a column the row has and the rent is at least the bound. 0 or absent adds no step. |
| PropertyService.UpperStepAgrees | src/lib/services/properties/service.ts:39-41 | The same for a truthy maximum price: the rent is at most the bound. |
| PropertyService.TypeStepAgrees | src/lib/services/properties/service.ts:42-44 | The type step keeps exactly the listings of that type. |
| PropertyService.BuiltFiltersSelect | src/lib/services/properties/service.ts:32-44 | The four optional steps together keep exactly the listings `SelectedOn` describes. |
| PropertyService.BuiltQueryFails | src/lib/services/properties/service.ts:28-55 | The built query fails exactly on an outage, or when a truthy price bound names a column `rental_listings` lacks. |
| PropertyService.BuiltMatching | src/lib/services/properties/service.ts:32-44 | Without a bound on a missing column, the built filters select exactly the listings `Selected` describes. |
| PropertyService.BuiltQueryAnswers | src/lib/services/properties/service.ts:51-55 | A successful built query answers `Expected`'s rows and the count of all selected listings. |
| PropertyService.DatabaseError | src/lib/services/properties/service.ts:57-64 | A store error becomes a 500 `DATABASE_ERROR` carrying the given message and the store error as details. |
| PropertyService.ApplyRentalFilters | src/lib/services/properties/service.ts:32-44 | The four `if`s build exactly the filter list of the query `queryProperties` runs. |
| PropertyService.QueryRentals | src/lib/services/properties/service.ts:27-72 | Stated for a price column passed in. The query fails exactly on an outage, or on a price bound over a missing column, always as a 500 `DATABASE_ERROR` "Failed to query properties". On success the result is `Expected`: the window offset..offset+limit-1 of the selected listings newest first, the count of all selected listings, page = floor(offset/limit)+1, and limit. |
| PropertyService.QueryProperties | src/lib/services/properties/service.ts:27-72 | With the bounds on `monthly_rent`, the query fails exactly on an outage, with that error. Otherwise it answers `Expected`. |
| PropertyService.QueryPropertiesAsWritten | src/lib/services/properties/service.ts:36-41 | With the bounds on `price`, as written: any truthy price bound gives a 500 `DATABASE_ERROR`. Without one, it behaves like `QueryProperties`. |
| PropertyService.ExpectedRows | src/lib/services/properties/service.ts:27-72 | Every listing answered is a table listing the filters select. They come newest first, and the total counts all selected listings, at most the table's size. |
| PropertyService.PageHoldsOffset | src/lib/services/properties/service.ts:47-49 | The effective limit is never 0. For a positive limit, the reported page is the one that holds `offset`. |
| PropertyService.ExpectedWindow | src/lib/services/properties/service.ts:51-53 | Stated for any sequence cut by the page window; `Expected.data` is the selected listings newest first, cut so. From a non-negative offset, it holds at most `limit` listings, the k-th being the (offset+k)-th. |
| PropertyService.GetFeaturedProperties | src/lib/services/properties/service.ts:8-25 | It fails exactly on an outage, as a 500 "Failed to fetch featured properties". Otherwise it answers the first `limit` listings of the newest-first order. |
| PropertyService.FeaturedAreNewest | src/lib/services/properties/service.ts:8-13 | The featured listings number `limit` (all listings when there are fewer), come newest first and from the table. No listing left out is newer than one shown. |
| PropertyService.ByIdRows | src/lib/services/properties/service.ts:75-78 | `eq('id', id)` keeps exactly the listings with that id. |
| PropertyService.ByIdSingle | src/lib/services/properties/service.ts:75-79 | `single()` on it answers a table listing with that id. Without an outage, it answers exactly when one listing has the id, and otherwise fails with PGRST116. |
| PropertyService.GetPropertyById | src/lib/services/properties/service.ts:74-99 | The answer is a table listing with that id. Without an outage, there is an answer exactly when one listing has the id, and otherwise a 404 `NOT_FOUND` "Property not found". Any other store error is a 500 "Failed to fetch property". |
| PropertyService.RentalNewestFirst | src/lib/services/properties/service.ts:12 | Rows ordered newest first on the `created_at` column have non-increasing `created_at`. |
| PropertiesRoute.AcceptedQueryPage | src/app/api/properties/route.ts:8-9 | For an accepted query, the service uses the parsed limit and offset as they are, and reports page offset/limit + 1. |
| PropertiesRoute.Get | src/app/api/properties/route.ts:7-16 | Composes the corrected `QueryProperties` (see Findings), so `?minPrice=1000` answers 200 here where the code as written answers 500. An invalid query is a 400 `VALIDATION_ERROR` with the flattened issues, before any store access. A store failure is a 500 `DATABASE_ERROR` envelope. Otherwise the response is a 200 whose data is the service's rows and whose metadata is its page, limit and total. |
| PropertyIdRoute.ParseIdParams | src/lib/api/validators/properties.ts:20-22 | The `[id]` route's parameter object: the parameters are accepted exactly when `id` is present and has the UUID form, and the id is then returned. Otherwise every issue is reported under `id`. |
| PropertyIdRoute.Get | src/lib/services/properties/service.ts:74-99 | `GET /api/properties/[id]`, validating with the id schema and fetching with `getPropertyById`: a malformed id is a 400 `VALIDATION_ERROR` "Invalid parameters". Without an outage, the response is a 200 with the listing of that id exactly when one listing has it, and otherwise a 404 `NOT_FOUND`. A store error other than PGRST116 is a 500 `DATABASE_ERROR` "Failed to fetch property". |
| PropertyIdRoute.MalformedIdRefused | src/lib/api/validators/properties.ts:20-22 | `/api/properties/not-a-uuid` is answered 400. |
| FeaturedPropertiesRoute.ParseFeaturedQuery | src/app/api/featured-properties/route.ts:8-10 | `limit` is accepted exactly when absent or reading as a number in 1..10. It defaults to 4 and is otherwise the given number. |
| FeaturedPropertiesRoute.Get | src/app/api/featured-properties/route.ts:12-16 | An invalid limit is a 400 `VALIDATION_ERROR`, and an outage a 500 `DATABASE_ERROR`. Otherwise the response is a 200 with the `limit` newest listings, and metadata holding only the limit. |
| FeaturedPropertiesRoute.FeaturedAnswer | src/app/api/featured-properties/route.ts:13-15 | A 200 holds at most `limit` listings, and so at most 10, newest first, all from the table. |
| FeaturedPropertiesRoute.LimitAboveTenRefused | src/app/api/featured-properties/route.ts:8-13 | `?limit=100` is refused with a 400 `VALIDATION_ERROR`. |
| FeaturedPropertiesRoute.PlusSignedLimitAccepted | src/app/api/featured-properties/route.ts:8-10 | `?limit=+5` is accepted as a limit of 5. |
| OfficePropertiesRoute.IntParam | src/app/api/office-properties/route.ts:12-25 | A numeric parameter has a value exactly when it is present and non-empty, and that value is the number its digits spell, so at least 0. Otherwise there is no value, and so no bound. |
| OfficePropertiesRoute.IntParamOfText | src/app/api/office-properties/route.ts:12-25 | `parseInt` reads the decimal text of a natural back as that natural. |
| OfficePropertiesRoute.ParseParams | src/app/api/office-properties/route.ts:12-25 | Page and limit are the numbers their non-empty parameters spell, defaulting to 1 and 10, and are at least 1. `hasReception` is true exactly for the text "true". Each of the desk bounds, the meeting-room minimum and the price bounds is present exactly when its parameter is non-empty, and is then that parameter's number. Office type, internet speed, city and state are the parameters' texts, or absent. |
| OfficePropertiesRoute.Reception | src/app/api/office-properties/route.ts:16 | The corrected reception parameter: absent when the parameter is absent, and otherwise true exactly for "true". |
| OfficePropertiesRoute.TotalPages | src/app/api/office-properties/route.ts:88 | `totalPages` is 0 for a count of 0. |
| OfficePropertiesRoute.TotalPagesBounds | src/app/api/office-properties/route.ts:88 | For a positive count, `totalPages` is `ceil(count / limit)`: the fewest pages of `limit` that hold `count` rows. |
| OfficePropertiesRoute.HasMoreIffRowsBeyond | src/app/api/office-properties/route.ts:88-89 | `hasMore = page < totalPages` holds exactly when rows exist beyond the current page (page * limit < count). |
| OfficePropertiesRoute.TwentyInPagesOfEight | src/app/api/office-properties/route.ts:88-89 | 20 matches in pages of 8 make 3 pages, so page 2 has more. |
| OfficePropertiesRoute.Applied | src/app/api/office-properties/route.ts:101-114 | `filters.applied` echoes exactly the parsed parameter values. |
| OfficePropertiesRoute.StepFilterHolds | src/app/api/office-properties/route.ts:34-72 | Each of the ten optional steps keeps exactly the listings meeting its condition. Desk, room and rent bounds are inclusive. Type, city and state use exact equality. Internet speed is a case-insensitive substring match. |
| OfficePropertiesRoute.CapacityStepAgrees | src/app/api/office-properties/route.ts:34-44 | The desk and meeting-room steps agree with their inclusive bounds. A missing meeting-room count fails a meeting-room bound. |
| OfficePropertiesRoute.FeatureStepAgrees | src/app/api/office-properties/route.ts:46-56 | The office type, reception and internet-speed steps agree with their conditions. |
| OfficePropertiesRoute.PlaceAndPriceStepAgrees | src/app/api/office-properties/route.ts:58-72 | The city, state and rent steps agree with their conditions. |
| OfficePropertiesRoute.BuiltFiltersSelect | src/app/api/office-properties/route.ts:34-72 | After k steps, a listing matches exactly when it meets the first k conditions. |
| OfficePropertiesRoute.EveryStepIsSelected | src/app/api/office-properties/route.ts:34-72 | The ten conditions together are `OfficeSelected`. |
| OfficePropertiesRoute.BuiltQueryColumns | src/app/api/office-properties/route.ts:29-78 | Every column the built query names exists in `office_listings`, so only an outage can fail it. |
| OfficePropertiesRoute.BuiltMatching | src/app/api/office-properties/route.ts:34-72 | The built filters select exactly the listings `OfficeSelected` describes. |
| OfficePropertiesRoute.BuiltQueryAnswers | src/app/api/office-properties/route.ts:75-81 | Without an outage, the built query succeeds. It answers the page of selected listings newest first, with the count of all selected listings. |
| OfficePropertiesRoute.ApplyCapacityFilters | src/app/api/office-properties/route.ts:34-44 | The three capacity `if`s append exactly steps 0 to 2. |
| OfficePropertiesRoute.ApplyFeatureFilters | src/app/api/office-properties/route.ts:46-56 | The next three `if`s append exactly steps 3 to 5. |
| OfficePropertiesRoute.ApplyPlaceAndPriceFilters | src/app/api/office-properties/route.ts:58-72 | The last four `if`s append exactly steps 6 to 9. |
| OfficePropertiesRoute.BuildQuery | src/app/api/office-properties/route.ts:29-78 | The reassigned `query` ends as the route's query: ten steps, window offset..offset+limit-1, newest first, with a count. |
| OfficePropertiesRoute.Respond | src/app/api/office-properties/route.ts:81-127 | A store error is a 500 `{error: "DATABASE_ERROR", message}`, whose message is the error's text when the thrown value is an `Error` and "Unknown error occurred" otherwise. Otherwise the response is a 200 with the page of rows, the total, page, limit, totalPages and hasMore, and the applied filters. |
| OfficePropertiesRoute.GetOfficesAsWritten | src/app/api/office-properties/route.ts:7-129 | The route as written: the reception filter always applies, absent meaning false. An outage is a 500 `DATABASE_ERROR` whose message is the error's text, or "Unknown error occurred" for a non-`Error`. |
| OfficePropertiesRoute.GetOffices | src/app/api/office-properties/route.ts:7-129 | The route with the reception filter applied only when the parameter is present. An outage is a 500 `DATABASE_ERROR` whose message is the error's text, or "Unknown error occurred" for a non-`Error`. |
| OfficePropertiesRoute.OffsetNotNegative | src/app/api/office-properties/route.ts:26 | For page and limit of at least 1, offset = (page-1)·limit is non-negative. |
| OfficePropertiesRoute.PageRows | src/app/api/office-properties/route.ts:75-93 | Every listing answered is a table listing that meets the filters, and they come newest first. |
| OfficePropertiesRoute.PagePositions | src/app/api/office-properties/route.ts:24-26 | The page holds at most `limit` listings, the k-th being the (offset+k)-th selected listing newest first. |
| OfficePropertiesRoute.OfficeNewestFirst | src/app/api/office-properties/route.ts:78 | Rows ordered newest first have non-increasing `created_at`. |
| OfficePropertiesRoute.AbsentReceptionKeepsOnlyFalse | src/app/api/office-properties/route.ts:50-52 | As written, a request without `hasReception` answers only listings whose `has_reception` is false. |
| OfficePropertiesRoute.AbsentReceptionIgnored | src/app/api/office-properties/route.ts:50-52 | Corrected, a request without `hasReception` selects a listing whatever its `has_reception`. |
| OfficeFeaturedRoute.GetFeatured | src/app/api/office-properties/featured/route.ts:7-26 | A 200 exactly without an outage, with a bare array of the four newest listings. A failure is a 500 `{error}` holding the error's message, or "Unknown error occurred" when the thrown value is not an `Error`. |
| OfficeFeaturedRoute.FeaturedOfficesAreNewest | src/app/api/office-properties/featured/route.ts:10-20 | The answer holds four listings (all when fewer), newest first, from the table. None left out is newer than one shown. |
| Middleware.HandleRequest | src/middleware.ts:19-33 | A redirect happens exactly when no user is signed in and the path starts with /saved-homes, /saved-searches or /account. It differs from the request URL only in its pathname, which becomes /login. Otherwise the session response passes unchanged. |
| Middleware.SignInPagesAreNotGuarded | src/middleware.ts:19-26 | Paths under /login and /auth are never guarded, so their exclusion never changes the outcome. |
| Middleware.RedirectDoesNotLoop | src/middleware.ts:27-30 | Following the redirect does not redirect again. |
| Middleware.AccountingIsGuarded | src/middleware.ts:19-26 | Matching is by prefix, so /accounting is guarded too. |
| Middleware.DashboardAndAdminPass | src/middleware.ts:19-26 | /dashboard and /admin pass through even without a user. |
| UseApi.Present | src/lib/hooks/useApi.ts:22-26 | Skipping valueless entries never adds pairs. |
| UseApi.PresentKeepsValued | src/lib/hooks/useApi.ts:22-26 | A pair is appended exactly when an entry gives that key that value. |
| UseApi.PresentEmptyIff | src/lib/hooks/useApi.ts:22-28 | Nothing is appended exactly when every entry is undefined or null. |
| UseApi.PresentKeepsOrder | src/lib/hooks/useApi.ts:22-26 | Appended pairs keep the entries' order. |
| UseApi.BuildUrl | src/lib/hooks/useApi.ts:19-29 | Without params, or with every value absent, the URL is the base URL. Otherwise it is `url?query` over the present entries in order. |
| UseApi.FetchError | src/lib/hooks/useApi.ts:41-48 | There is no error exactly when the response is ok and carries no error. When the server answered, the error text is never empty: the server message when non-empty, or a default. When the request threw, the error is the thrown `Error`'s message as it is, even empty, or "An unknown error occurred" for a non-`Error`. |
| UseApi.ApiState.constructor | src/lib/hooks/useApi.ts:14-17 | Data is the initial data when given and truthy, else null; loading equals `immediate`; error is null. |
| UseApi.ApiState.BeginFetch | src/lib/hooks/useApi.ts:34-35 | A fetch starts with loading true and error cleared, leaving the data. |
| UseApi.ApiState.FinishFetch | src/lib/hooks/useApi.ts:37-52 | On success, data becomes the result's data and the error stays as it was. On failure, the error is set and data cleared. Loading is false either way. |
| UseApi.ApiState.Fetch | src/lib/hooks/useApi.ts:33-53 | After `fetchData`, loading is false. Either the error is null and data is the result's data, or the error is set and data is null. An error from a server answer is never empty; a thrown error keeps its message. |
| OfficeSpacesPage.WithChange | src/app/office-spaces/page.tsx:69-72 | A filter change sets the named key and leaves every other filter as it was. |
| OfficeSpacesPage.OptionalGet | src/app/office-spaces/page.tsx:40-46 | An optional parameter is read back under its own key, and under no other. |
| OfficeSpacesPage.RequestReadsBack | src/app/office-spaces/page.tsx:35-46 | Reading the built parameters under any key gives what the page meant to send. Page and limit 8 are always sent. Numbers are sent only when truthy, so 0 never is. Type and city are sent only when non-empty, and reception whenever it is defined, including false. |
| OfficeSpacesPage.RequestHoldsSent | src/app/office-spaces/page.tsx:35-46 | The built parameters hold each value the page sends. |
| OfficeSpacesPage.SentNumbersRead | src/app/office-spaces/page.tsx:35-48 | The office route reads the page's numbers back as sent: page, limit 8, and each truthy desk and price bound. |
| OfficeSpacesPage.RouteReadsSent | src/app/office-spaces/page.tsx:35-48 | For parameters holding what the page sends, the office route parses exactly the page's filters. With the corrected reception reading, it sees the page's reception choice. |
| OfficeSpacesPage.RouteReadsRequest | src/app/office-spaces/page.tsx:35-48 | The page's request for any page of at least 1 is well formed for the route, and the route parses exactly the page's filters, page and limit. |
| OfficeSpacesPage.FailureText | src/app/office-spaces/page.tsx:50-60 | There is no error exactly on a 2xx answer. A non-2xx answer shows a non-empty error: the body's `error`, else its `message`, else "Failed to fetch office listings". A thrown `Error` shows its own message, even an empty one, and a non-`Error` shows "An unknown error occurred". |
| OfficeSpacesPage.StoreFailureShowsCode | src/app/office-spaces/page.tsx:50-53 | A store failure of the office route shows "DATABASE_ERROR", not the store's message. |
| OfficeSpacesPage.OfficeSpaces.constructor | src/app/office-spaces/page.tsx:12-26 | The page starts with no listings, loading, no error, page 1 of 1, and every filter undefined. |
| OfficeSpacesPage.OfficeSpaces.BuildRequestParams | src/app/office-spaces/page.tsx:35-46 | The successive appends build `RequestParams(currentPage, filters)`. |
| OfficeSpacesPage.OfficeSpaces.AppendNumberFilters | src/app/office-spaces/page.tsx:40-43 | Each truthy desk or price filter is appended in order. |
| OfficeSpacesPage.OfficeSpaces.AppendTextFilters | src/app/office-spaces/page.tsx:44-46 | A non-empty type, a defined reception and a non-empty city are appended in order. |
| OfficeSpacesPage.OfficeSpaces.BeginFetch | src/app/office-spaces/page.tsx:30-31 | A fetch starts loading with the error cleared; nothing else changes. |
| OfficeSpacesPage.OfficeSpaces.ApplyResponse | src/app/office-spaces/page.tsx:50-63 | On failure, the error becomes the failure text (a thrown `Error`'s own message, even empty) and listings and total pages stay. On success, listings and total pages come from the body. Loading ends either way, and the page and filters stay. |
| OfficeSpacesPage.OfficeSpaces.HandleFilterChange | src/app/office-spaces/page.tsx:69-72 | Only the named filter changes, and the page resets to 1. |
| OfficeSpacesPage.OfficeSpaces.HandlePageChange | src/app/office-spaces/page.tsx:74-79 | Only a page in 1..totalPages is accepted; otherwise nothing changes. |
| OfficeSpacesPage.OfficeSpaces.ResetFilters | src/app/office-spaces/page.tsx:120-128 | Reset (and Clear All, lines 204-212) makes every filter undefined and leaves the page as it was. |
| FilterSidebar.WithPrice | src/components/rental-listings/FilterSidebar.tsx:41-47 | The price bounds become the range; every other field stays. |
| FilterSidebar.WithBeds | src/components/rental-listings/FilterSidebar.tsx:49-54 | Only `minBeds` changes. |
| FilterSidebar.WithBaths | src/components/rental-listings/FilterSidebar.tsx:56-61 | Only `minBaths` changes. |
| FilterSidebar.PetToggled | src/components/rental-listings/FilterSidebar.tsx:63-68 | Only `petFriendly` changes, to its negation. |
| FilterSidebar.PetToggleTwice | src/components/rental-listings/FilterSidebar.tsx:63-68 | Toggling the pet filter twice gives the filters back. |
| FilterSidebar.Toggled | src/components/rental-listings/FilterSidebar.tsx:81-86 | Exactly the named section's flag flips, an undefined one becoming open; every other section stays. |
| FilterSidebar.ToggleTwice | src/components/rental-listings/FilterSidebar.tsx:81-86 | Toggling a drawn section twice gives the flags back. |
| FilterSidebar.ToggleUndefinedTwice | src/components/rental-listings/FilterSidebar.tsx:81-86 | A section with no entry opens and then closes: two toggles do not give the flags back. |
| FilterSidebar.Sidebar.constructor | src/components/rental-listings/FilterSidebar.tsx:29-35 | The range starts at the incoming price bounds, and every section is open. |
| FilterSidebar.Sidebar.HandlePriceChange | src/components/rental-listings/FilterSidebar.tsx:37-39 | The slider moves only the local range, never the filters. |
| FilterSidebar.Sidebar.ApplyPriceFilter | src/components/rental-listings/FilterSidebar.tsx:41-47 | The range becomes the price bounds; the range and sections stay. |
| FilterSidebar.Sidebar.HandleBedChange | src/components/rental-listings/FilterSidebar.tsx:49-54 | Only `minBeds` changes. |
| FilterSidebar.Sidebar.HandleBathChange | src/components/rental-listings/FilterSidebar.tsx:56-61 | Only `minBaths` changes. |
| FilterSidebar.Sidebar.TogglePetFriendly | src/components/rental-listings/FilterSidebar.tsx:63-68 | Only `petFriendly` flips. |
| FilterSidebar.Sidebar.ResetFilters | src/components/rental-listings/FilterSidebar.tsx:70-79 | The filters become {0, 5000, 0, 0, false} and the range [0, 5000], agreeing with the filters; the sections stay. |
| FilterSidebar.Sidebar.ToggleSection | src/components/rental-listings/FilterSidebar.tsx:81-86 | Only the sections change, by `Toggled`. |
| OfficePropertyCard.MapListing | src/components/rental-listings/OfficePropertyCard.tsx:159-181 | Each prop copies its listing field (street_address to address, zip_code to zip, monthly_rent to price). The image is the placeholder argument, defaulting to "/images/office-placeholder.jpg". Amenities are always empty. `isNew` holds exactly when the listing was created within seven days before now. |
| OfficePropertyCard.AmenityBadges | src/components/rental-listings/OfficePropertyCard.tsx:137-145 | At most two amenity badges: the first amenities, upper-cased, in order. |
| OfficePropertyCard.Badges | src/components/rental-listings/OfficePropertyCard.tsx:130-152 | There are no badges without amenities. Otherwise the badges are RECEPTION first when the office has one, then the amenity badges, then "+N MORE" with N = count - 2 only when there are more than two. |
| OfficePropertyCard.ReceptionBadgeIff | src/components/rental-listings/OfficePropertyCard.tsx:130-136 | RECEPTION is shown exactly when the card has amenities and a reception. |
| OfficePropertyCard.MappedCardHasNoBadges | src/components/rental-listings/OfficePropertyCard.tsx:130-136 | A mapped listing shows no badge at all, RECEPTION included, because its amenities are empty (line 178). |
| OfficePropertyCard.NewnessByAge | src/components/rental-listings/OfficePropertyCard.tsx:179 | A listing is new exactly when `created_at` is strictly later than now minus seven days. |
| AdminSidebar.UserName | src/components/admin/AdminSidebar.tsx:13 | The name is never empty. It is the non-empty `full_name`; otherwise the email text before its first '@' when that text is non-empty; otherwise "Home Buyer". |
| AdminSidebar.NameFromEmail | src/components/admin/AdminSidebar.tsx:13 | Without a full name, the name is the longest '@'-free prefix of the email. |
| AdminSidebar.EmailWithoutAt | src/components/admin/AdminSidebar.tsx:13 | An email with no '@' is shown whole. |
| Text.NatToTextRoundTrip | src/app/office-spaces/page.tsx:36-43 | The decimal text `toString` writes for a natural reads back as that natural. |
| Text.IsSubstringIffOccurs | src/lib/services/properties/service.ts:34 | The substring scan finds the text exactly when it occurs at some position. |
| Text.OccurrenceMatches | src/lib/services/properties/service.ts:34 | A city that contains the text verbatim always matches `ilike`. |
| Text.BeforeFirst | src/components/admin/AdminSidebar.tsx:13 | `split('@')[0]` is a prefix of the text holding no '@', and ends where the first '@' stands. |
| Text.ContainsIgnoringCaseIsCaseBlind | src/lib/services/properties/service.ts:34 | Whether `ilike '%text%'` matches never depends on the case of either text. |

## Left out

- The hosted store and auth service are not modelled. A table is a sequence of records with an optional outage, and the signed-in user is a parameter of the middleware.
- Supabase client creation, `console.error`, `window.scrollTo`, effect scheduling and the race between overlapping fetches (the last response to arrive wins in the source) are left out. They are I/O and concurrency. Each fetch is modelled as one begin step and one completion step.
- `ilike` is a case-insensitive ASCII substring test. `%` and `_` typed by the user are not treated as wildcards, and collation is not modelled.
- OfficePropertyCard.AmenityBadges: `toUpperCase` is modelled on ASCII letters only; JavaScript also maps other letters ("é" to "É"), which the model leaves unchanged.
- The exact-count mechanism is not modelled: `count` is the number of filtered rows.
- Percent-encoding in `URLSearchParams.toString` is abstract. `Serialize` joins `key=value` pairs with `&` and does not escape.
- `Date.now`, date parsing and `toLocaleString` are left out: "now" and `created_at` are integers in milliseconds, and the price text is not formatted.
- `z.coerce.number` and `parseInt` are modelled on integer text only. Fractions, exponents, surrounding blanks and `parseInt`'s reading of a leading digit prefix are not; the empty text is 0, digits with one leading `+` or `-` are that integer, and any other text is NaN, so hex literals and `Infinity`, which `Number` reads, are NaN here.
- ParsePropertyQuery: numeric text is read as an exact integer, while JavaScript's `Number` gives the nearest double. Past 2^53 neighbouring values coincide, so `minPrice=9007199254740993&maxPrice=9007199254740992` is accepted by the code and refused here. Text of about 309 digits or more becomes `Infinity`, which `.positive()` and `.min(0)` accept; here it stays a large integer. Double-precision rounding is not modelled.
- ParseFeaturedQuery: reads the limit as an exact integer in the same way; no text outside 1..10 reads inside it after rounding, so only the double representation is not modelled.
- CoerceNumberOfText: holds for every natural here, but in JavaScript only up to 2^53, beyond which `Number` rounds.
- IntParamOfText: likewise, `parseInt` returns the exact value only up to 2^53.
- OfficePropertiesRoute.IntParam: digit text is read exactly, with no double rounding past 2^53.
- DatabaseTypes: every numeric column (`monthly_rent`, `bathrooms`, `latitude`, `desk_capacity`, …) is an integer, where the source's `number` is a double; fractional values are not modelled.
- OfficePropertiesRoute.IntParam: requires the parameter, when non-empty, to be decimal digits, because `parseInt` on other text (NaN, a negative page) is not modelled.
- OfficePropertiesRoute.GetOffices: requires `WellFormedParams`, which means digit-only numeric parameters, page of at least 1 and limit of at least 1. The source does not check page ≤ 0 or limit 0; they would give a negative offset or `Infinity` pages.
- OfficePropertiesRoute.GetOfficesAsWritten: requires `WellFormedParams`, for the same reason.
- OfficePropertiesRoute.Respond: requires a limit of at least 1, for the same reason.
- OfficeFeaturedRoute.GetFeatured: whether the thrown store error is an `Error` instance is a parameter, since the source cannot be seen deciding it.
- OfficePropertiesRoute.GetOffices: the same `Error`-instance parameter, for the same reason; `GetOfficesAsWritten` and `Respond` take it too.
- PropertyService.QueryRentals: `data || []` and `count || 0` are not modelled as separate cases. A successful modelled query always has rows and a count, so the fallbacks never apply.
- PropertyService.QueryRentals: the grouping of the steps into helper methods (`ApplyRentalFilters`, `AnswerRentalQuery`) is the model's, not the source's.
- OfficePropertiesRoute.BuildQuery: likewise for the office route's helper methods.
- OfficeSpacesPage.OfficeSpaces.ApplyResponse: requires a 2xx answer to carry the listing body, because the source reads `data.data` and `data.metadata.totalPages` without checking.
- OfficeSpacesPage.OfficeSpaces: the page's numeric filters are naturals, matching the select options the page offers.
- FilterSidebar.Sidebar.HandlePriceChange: requires at least two slider values, as the slider always gives.
- FilterSidebar.Sidebar: the handlers read the filters as last set. Stale closures between the parent's re-renders are not modelled.
- The inline card mappings in the home and rent pages, the view templates, the middleware matcher pattern and next.config.js are left out. They are presentation or framework configuration.

## Findings

| source | as written | input that shows it | evidently intended | confidence | as-written member | corrected member |
|---|---|---|---|---|---|---|
| src/app/api/office-properties/route.ts:16 | `hasReception` is always a boolean, so `hasReception !== undefined` always holds. Every request filters `has_reception = false` unless it sends `hasReception=true`. | `GET /api/office-properties` with no parameters, over a table whose only office has a reception: the page is empty. | An absent parameter applies no reception filter. This is also what the office-spaces page assumes when it omits an undefined reception. | high (not executed) | OfficePropertiesRoute.AbsentReceptionKeepsOnlyFalse | OfficePropertiesRoute.AbsentReceptionIgnored |
| src/lib/services/properties/service.ts:36-41 | The price bounds filter a column `price`, which `rental_listings` does not have (its rent is `monthly_rent`, src/types/database.types.ts:9). Any truthy price bound fails the query. | `GET /api/properties?minPrice=1000`: a 500 `DATABASE_ERROR` instead of the listings renting for at least 1000. | The bounds apply to `monthly_rent`. | high (not executed) | PropertyService.QueryPropertiesAsWritten | PropertyService.QueryProperties |

The rest of the model uses the corrected members: `PropertiesRoute.Get` calls `QueryProperties`, and the office-spaces page's reading of its own request uses `Reception`. The corrected route matches the page, which sends `hasReception` only when the filter is set (src/app/office-spaces/page.tsx:45), so an unset filter is meant to impose nothing.
