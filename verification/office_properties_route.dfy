/** `GET /api/office-properties`: read the filters and the page from the
    search parameters, build the query on `office_listings` one filter at a
    time, and answer the page with its pagination metadata and the filters
    as read, or a 500 with the store error's text. */
module OfficePropertiesRoute {
  import opened Wrappers
  import opened Text
  import opened SearchParams
  import opened DatabaseTypes
  import opened Store
  import opened Handler

  /** The parameters as the route reads them. */
  datatype OfficeParams = OfficeParams(
    minDesks: Option<int>,
    maxDesks: Option<int>,
    minMeetingRooms: Option<int>,
    officeType: Option<string>,
    hasReception: bool,
    internetSpeed: Option<string>,
    city: Option<string>,
    state: Option<string>,
    minPrice: Option<int>,
    maxPrice: Option<int>,
    page: int,
    limit: int)

  datatype OfficeMetadata = OfficeMetadata(total: int, page: int, limit: int, totalPages: int, hasMore: bool)

  /** `filters.applied`: the parameters echoed back. */
  datatype AppliedFilters = AppliedFilters(
    minDesks: Option<int>,
    maxDesks: Option<int>,
    minMeetingRooms: Option<int>,
    officeType: Option<string>,
    hasReception: bool,
    internetSpeed: Option<string>,
    city: Option<string>,
    state: Option<string>,
    minPrice: Option<int>,
    maxPrice: Option<int>)

  /** The JSON body: the page of listings, or `{error, message}`. */
  datatype OfficeBody =
    | Listing(data: seq<OfficeListing>, metadata: OfficeMetadata, filters: AppliedFilters)
    | Failure(error: string, message: string)

  const OfficeSchema: Schema<OfficeListing> := Schema(OfficeColumns, OfficeRow)

  /** JavaScript truthiness of a parameter: present and not empty. */
  predicate NonEmpty(o: Option<string>) {
    o.Some? && o.value != ""
  }

  /** A numeric parameter the model reads: absent, empty, or decimal digits. */
  predicate NumericParam(ps: Pairs, key: string) {
    NonEmpty(Get(ps, key)) ==> IsDigits(Get(ps, key).value)
  }

  /** `n` is what the parameter `key` says: the value of its digits when it
      is non-empty, and nothing otherwise. */
  predicate ReadsNumber(n: Option<int>, ps: Pairs, key: string) {
    && (n.Some? <==> NonEmpty(Get(ps, key)))
    && (n.Some? ==> IsDigits(Get(ps, key).value) && n.value == DigitsValue(Get(ps, key).value))
  }

  /** `get(key) ? parseInt(get(key)) : undefined`. */
  function IntParam(ps: Pairs, key: string): (n: Option<int>)
    requires NumericParam(ps, key)
    ensures ReadsNumber(n, ps, key)
    ensures n.Some? ==> n.value >= 0
  {
    if NonEmpty(Get(ps, key)) then Some(DigitsValue(Get(ps, key).value)) else None
  }

  /** A parameter holding the decimal text of `n` reads as `n`. */
  lemma IntParamOfText(ps: Pairs, key: string, n: nat)
    requires Get(ps, key) == Some(NatToText(n))
    ensures NumericParam(ps, key) && IntParam(ps, key) == Some(n)
  {
    NatToTextRoundTrip(n);
  }

  /** The parameters the model reads: every numeric one absent, empty or
      decimal digits, and a given page and limit at least 1 (`parseInt` on
      other text and a page or limit of 0 are outside the model). */
  predicate WellFormedParams(ps: Pairs) {
    && NumericParam(ps, "minDesks") && NumericParam(ps, "maxDesks") && NumericParam(ps, "minMeetingRooms")
    && NumericParam(ps, "minPrice") && NumericParam(ps, "maxPrice")
    && NumericParam(ps, "page") && NumericParam(ps, "limit")
    && (NonEmpty(Get(ps, "page")) ==> DigitsValue(Get(ps, "page").value) >= 1)
    && (NonEmpty(Get(ps, "limit")) ==> DigitsValue(Get(ps, "limit").value) >= 1)
  }

  /** Reading the parameters: numbers only when present and non-empty,
      `hasReception` true only for the text "true", page 1 and limit 10 by
      default. */
  function ParseParams(ps: Pairs): (p: OfficeParams)
    requires WellFormedParams(ps)
    ensures p.page >= 1 && p.limit >= 1
    ensures p.hasReception <==> Get(ps, "hasReception") == Some("true")
    ensures ReadsNumber(p.minDesks, ps, "minDesks") && ReadsNumber(p.maxDesks, ps, "maxDesks")
    ensures ReadsNumber(p.minMeetingRooms, ps, "minMeetingRooms")
    ensures ReadsNumber(p.minPrice, ps, "minPrice") && ReadsNumber(p.maxPrice, ps, "maxPrice")
    ensures p.officeType == Get(ps, "officeType") && p.internetSpeed == Get(ps, "internetSpeed")
    ensures p.city == Get(ps, "city") && p.state == Get(ps, "state")
    ensures p.page == if NonEmpty(Get(ps, "page")) then DigitsValue(Get(ps, "page").value) else 1
    ensures p.limit == if NonEmpty(Get(ps, "limit")) then DigitsValue(Get(ps, "limit").value) else 10
  {
    var page := IntParam(ps, "page");
    var limit := IntParam(ps, "limit");
    OfficeParams(
      IntParam(ps, "minDesks"), IntParam(ps, "maxDesks"), IntParam(ps, "minMeetingRooms"),
      Get(ps, "officeType"), Get(ps, "hasReception") == Some("true"), Get(ps, "internetSpeed"),
      Get(ps, "city"), Get(ps, "state"), IntParam(ps, "minPrice"), IntParam(ps, "maxPrice"),
      if page.Some? then page.value else 1,
      if limit.Some? then limit.value else 10)
  }

  function Offset(p: OfficeParams): int {
    (p.page - 1) * p.limit
  }

  /** The listings the parameters select, with the reception filter
      `reception` (none when `None`): bounds are inclusive, a NULL
      `meeting_rooms` or `internet_speed` fails its filter, texts compare
      exactly except the internet speed, matched as a substring regardless
      of case. */
  predicate OfficeSelected(o: OfficeListing, p: OfficeParams, reception: Option<bool>) {
    && (p.minDesks.Some? ==> o.desk_capacity >= p.minDesks.value)
    && (p.maxDesks.Some? ==> o.desk_capacity <= p.maxDesks.value)
    && (p.minMeetingRooms.Some? ==> o.meeting_rooms.Some? && o.meeting_rooms.value >= p.minMeetingRooms.value)
    && (NonEmpty(p.officeType) ==> o.office_type == p.officeType.value)
    && (reception.Some? ==> o.has_reception == Some(reception.value))
    && (NonEmpty(p.internetSpeed) ==>
          o.internet_speed.Some? && ContainsIgnoringCase(o.internet_speed.value, p.internetSpeed.value))
    && (NonEmpty(p.city) ==> o.city == p.city.value)
    && (NonEmpty(p.state) ==> o.state == p.state.value)
    && (p.minPrice.Some? ==> o.monthly_rent >= p.minPrice.value)
    && (p.maxPrice.Some? ==> o.monthly_rent <= p.maxPrice.value)
  }

  function OfficeSelector(p: OfficeParams, reception: Option<bool>): OfficeListing -> bool {
    o => OfficeSelected(o, p, reception)
  }

  /** The selected listings, newest first. */
  function OfficesNewestFirst(rows: seq<OfficeListing>, p: OfficeParams, reception: Option<bool>): seq<OfficeListing> {
    SortNewestFirst(OfficeRow, "created_at", Where(rows, OfficeSelector(p, reception)))
  }

  /** `range(offset, offset + limit - 1)`. */
  function PageWindow(p: OfficeParams): Window {
    Between(Offset(p), Offset(p) + p.limit - 1)
  }

  /** The listings of the requested page. */
  function OfficePage(rows: seq<OfficeListing>, p: OfficeParams, reception: Option<bool>): seq<OfficeListing> {
    ApplyWindow(OfficesNewestFirst(rows, p, reception), PageWindow(p))
  }

  /** `count ? Math.ceil(count / limit) : 0`. */
  function TotalPages(count: int, limit: int): (t: int)
    requires count >= 0 && limit >= 1
    ensures count == 0 ==> t == 0
  {
    if count == 0 then 0 else (count + limit - 1) / limit
  }

  /** The pages hold every match, and the last page is not empty. */
  lemma TotalPagesBounds(count: int, limit: int)
    requires count > 0 && limit >= 1
    ensures (TotalPages(count, limit) - 1) * limit < count <= TotalPages(count, limit) * limit
  {
    var t := TotalPages(count, limit);
    assert t == (count + limit - 1) / limit;
    assert t * limit + (count + limit - 1) % limit == count + limit - 1;
  }

  /** `hasMore` holds exactly when some selected listing lies beyond the
      requested page. */
  lemma HasMoreIffRowsBeyond(count: int, page: int, limit: int)
    requires count >= 0 && page >= 1 && limit >= 1
    ensures page < TotalPages(count, limit) <==> page * limit < count
  {
    var t := TotalPages(count, limit);
    if count > 0 {
      TotalPagesBounds(count, limit);
      if page < t {
        ScaleMonotone(page, t - 1, limit);
      } else {
        ScaleMonotone(t, page, limit);
      }
    } else {
      ScaleMonotone(1, page, limit);
    }
  }

  lemma ScaleMonotone(a: int, b: int, c: int)
    requires a <= b && c >= 0
    ensures a * c <= b * c
  {
    assert b * c - a * c == (b - a) * c;
  }

  /** 20 matches in pages of 8 make 3 pages, so page 2 has more after it. */
  lemma TwentyInPagesOfEight()
    ensures TotalPages(20, 8) == 3 && 2 < TotalPages(20, 8)
  {
  }

  function Applied(p: OfficeParams): (a: AppliedFilters)
    ensures a.minDesks == p.minDesks && a.maxDesks == p.maxDesks && a.minMeetingRooms == p.minMeetingRooms
    ensures a.officeType == p.officeType && a.hasReception == p.hasReception && a.internetSpeed == p.internetSpeed
    ensures a.city == p.city && a.state == p.state && a.minPrice == p.minPrice && a.maxPrice == p.maxPrice
  {
    AppliedFilters(p.minDesks, p.maxDesks, p.minMeetingRooms, p.officeType, p.hasReception,
                   p.internetSpeed, p.city, p.state, p.minPrice, p.maxPrice)
  }

  /** What a successful request answers. */
  function Expected(rows: seq<OfficeListing>, p: OfficeParams, reception: Option<bool>): OfficeBody
    requires p.limit >= 1
  {
    Listing(
      OfficePage(rows, p, reception),
      OfficeMetadata(|Where(rows, OfficeSelector(p, reception))|, p.page, p.limit,
                     TotalPages(|Where(rows, OfficeSelector(p, reception))|, p.limit),
                     p.page < TotalPages(|Where(rows, OfficeSelector(p, reception))|, p.limit)),
      Applied(p))
  }

  /** The number of filter steps. */
  const StepCount: nat := 10

  /** The k-th filter step of the route (k from 0 to 9), as a filter list
      of length 0 or 1. */
  function StepFilter(p: OfficeParams, reception: Option<bool>, k: nat): seq<Filter> {
    if k == 0 then (if p.minDesks.Some? then [AtLeast("desk_capacity", p.minDesks.value)] else [])
    else if k == 1 then (if p.maxDesks.Some? then [AtMost("desk_capacity", p.maxDesks.value)] else [])
    else if k == 2 then (if p.minMeetingRooms.Some? then [AtLeast("meeting_rooms", p.minMeetingRooms.value)] else [])
    else if k == 3 then (if NonEmpty(p.officeType) then [Equals("office_type", Str(p.officeType.value))] else [])
    else if k == 4 then (if reception.Some? then [Equals("has_reception", Flag(reception.value))] else [])
    else if k == 5 then (if NonEmpty(p.internetSpeed) then [ContainsText("internet_speed", p.internetSpeed.value)] else [])
    else if k == 6 then (if NonEmpty(p.city) then [Equals("city", Str(p.city.value))] else [])
    else if k == 7 then (if NonEmpty(p.state) then [Equals("state", Str(p.state.value))] else [])
    else if k == 8 then (if p.minPrice.Some? then [AtLeast("monthly_rent", p.minPrice.value)] else [])
    else (if p.maxPrice.Some? then [AtMost("monthly_rent", p.maxPrice.value)] else [])
  }

  /** The condition of the k-th step on a listing. */
  predicate StepHolds(o: OfficeListing, p: OfficeParams, reception: Option<bool>, k: nat) {
    if k == 0 then p.minDesks.Some? ==> o.desk_capacity >= p.minDesks.value
    else if k == 1 then p.maxDesks.Some? ==> o.desk_capacity <= p.maxDesks.value
    else if k == 2 then p.minMeetingRooms.Some? ==> o.meeting_rooms.Some? && o.meeting_rooms.value >= p.minMeetingRooms.value
    else if k == 3 then NonEmpty(p.officeType) ==> o.office_type == p.officeType.value
    else if k == 4 then reception.Some? ==> o.has_reception == Some(reception.value)
    else if k == 5 then NonEmpty(p.internetSpeed) ==>
                          o.internet_speed.Some? && ContainsIgnoringCase(o.internet_speed.value, p.internetSpeed.value)
    else if k == 6 then NonEmpty(p.city) ==> o.city == p.city.value
    else if k == 7 then NonEmpty(p.state) ==> o.state == p.state.value
    else if k == 8 then p.minPrice.Some? ==> o.monthly_rent >= p.minPrice.value
    else p.maxPrice.Some? ==> o.monthly_rent <= p.maxPrice.value
  }

  /** The filters after the first `k` steps. */
  ghost function BuiltFilters(p: OfficeParams, reception: Option<bool>, k: nat): seq<Filter> {
    Chain((j: nat) => StepFilter(p, reception, j), k)
  }

  /** A row that holds, under the columns the route filters on, the cells of `o`. */
  predicate CarriesOfficeCells(row: Row, o: OfficeListing) {
    && "desk_capacity" in row && row["desk_capacity"] == Num(o.desk_capacity)
    && "meeting_rooms" in row && row["meeting_rooms"] == OptNum(o.meeting_rooms)
    && "office_type" in row && row["office_type"] == Str(o.office_type)
    && "has_reception" in row && row["has_reception"] == OptFlag(o.has_reception)
    && "internet_speed" in row && row["internet_speed"] == OptStr(o.internet_speed)
    && "city" in row && row["city"] == Str(o.city)
    && "state" in row && row["state"] == Str(o.state)
    && "monthly_rent" in row && row["monthly_rent"] == Num(o.monthly_rent)
  }

  /** Each step's filter agrees on an office row with its condition. */
  lemma StepFilterHolds(o: OfficeListing, p: OfficeParams, reception: Option<bool>, k: nat)
    ensures StepAgrees(OfficeRow(o), StepFilter(p, reception, k), StepHolds(o, p, reception, k))
  {
    OfficeCells(o);
    var row := OfficeRow(o);
    assert CarriesOfficeCells(row, o);
    if k < 3 {
      CapacityStepAgrees(row, o, p, reception, k);
    } else if k < 6 {
      FeatureStepAgrees(row, o, p, reception, k);
    } else {
      PlaceAndPriceStepAgrees(row, o, p, reception, k);
    }
  }

  /** The desk and meeting-room steps (0 to 2). */
  lemma CapacityStepAgrees(row: Row, o: OfficeListing, p: OfficeParams, reception: Option<bool>, k: nat)
    requires CarriesOfficeCells(row, o) && k < 3
    ensures StepAgrees(row, StepFilter(p, reception, k), StepHolds(o, p, reception, k))
  {
  }

  /** The office type, reception and internet speed steps (3 to 5). */
  lemma FeatureStepAgrees(row: Row, o: OfficeListing, p: OfficeParams, reception: Option<bool>, k: nat)
    requires CarriesOfficeCells(row, o) && 3 <= k < 6
    ensures StepAgrees(row, StepFilter(p, reception, k), StepHolds(o, p, reception, k))
  {
  }

  /** The city, state and rent steps (6 to 9). */
  lemma PlaceAndPriceStepAgrees(row: Row, o: OfficeListing, p: OfficeParams, reception: Option<bool>, k: nat)
    requires CarriesOfficeCells(row, o) && k >= 6
    ensures StepAgrees(row, StepFilter(p, reception, k), StepHolds(o, p, reception, k))
  {
  }

  /** The first `k` step conditions hold. */
  ghost predicate FirstSteps(o: OfficeListing, p: OfficeParams, reception: Option<bool>, k: nat) {
    AllBefore((j: nat) => StepHolds(o, p, reception, j), k)
  }

  /** After `k` steps, a row matches exactly when it meets the first `k` conditions. */
  lemma BuiltFiltersSelect(o: OfficeListing, p: OfficeParams, reception: Option<bool>, k: nat)
    ensures Matches(OfficeRow(o), BuiltFilters(p, reception, k)) <==> FirstSteps(o, p, reception, k)
  {
    forall j: nat | j < k ensures StepAgrees(OfficeRow(o), StepFilter(p, reception, j), StepHolds(o, p, reception, j)) {
      StepFilterHolds(o, p, reception, j);
    }
    ChainMatches(OfficeRow(o), (j: nat) => StepFilter(p, reception, j), (j: nat) => StepHolds(o, p, reception, j), k);
  }

  /** The ten steps together are `OfficeSelected`. */
  lemma EveryStepIsSelected(o: OfficeListing, p: OfficeParams, reception: Option<bool>)
    ensures FirstSteps(o, p, reception, 10) <==> OfficeSelected(o, p, reception)
  {
    assert FirstSteps(o, p, reception, 10) <==> FirstSteps(o, p, reception, 9) && StepHolds(o, p, reception, 9);
    assert FirstSteps(o, p, reception, 9) <==> FirstSteps(o, p, reception, 8) && StepHolds(o, p, reception, 8);
    assert FirstSteps(o, p, reception, 8) <==> FirstSteps(o, p, reception, 7) && StepHolds(o, p, reception, 7);
    assert FirstSteps(o, p, reception, 7) <==> FirstSteps(o, p, reception, 6) && StepHolds(o, p, reception, 6);
    assert FirstSteps(o, p, reception, 6) <==> FirstSteps(o, p, reception, 5) && StepHolds(o, p, reception, 5);
    assert FirstSteps(o, p, reception, 5) <==> FirstSteps(o, p, reception, 4) && StepHolds(o, p, reception, 4);
    assert FirstSteps(o, p, reception, 4) <==> FirstSteps(o, p, reception, 3) && StepHolds(o, p, reception, 3);
    assert FirstSteps(o, p, reception, 3) <==> FirstSteps(o, p, reception, 2) && StepHolds(o, p, reception, 2);
    assert FirstSteps(o, p, reception, 2) <==> FirstSteps(o, p, reception, 1) && StepHolds(o, p, reception, 1);
    assert FirstSteps(o, p, reception, 1) <==> StepHolds(o, p, reception, 0);
  }

  /** The query the route runs. */
  ghost function BuiltQuery(p: OfficeParams, reception: Option<bool>): Query {
    Query(BuiltFilters(p, reception, StepCount), Some("created_at"), PageWindow(p), true)
  }

  /** The built query names only columns of `office_listings`. */
  lemma BuiltQueryColumns(p: OfficeParams, reception: Option<bool>)
    ensures UnknownColumn(OfficeColumns, BuiltQuery(p, reception)).None?
  {
    OfficeColumnFacts();
    forall k: nat | k < 10 ensures forall f :: f in StepFilter(p, reception, k) ==> f.column in OfficeColumns {
    }
    StepColumns(p, reception, StepCount);
  }

  lemma {:induction false} StepColumns(p: OfficeParams, reception: Option<bool>, k: nat)
    requires forall j: nat :: j < k ==> forall f :: f in StepFilter(p, reception, j) ==> f.column in OfficeColumns
    ensures forall f :: f in BuiltFilters(p, reception, k) ==> f.column in OfficeColumns
    decreases k
  {
    if k > 0 {
      StepColumns(p, reception, k - 1);
    }
  }

  /** The built query's matches are the selected listings. */
  lemma BuiltMatching(rows: seq<OfficeListing>, p: OfficeParams, reception: Option<bool>)
    ensures Matching(OfficeSchema, rows, BuiltQuery(p, reception).filters) == Where(rows, OfficeSelector(p, reception))
  {
    var filters := BuiltQuery(p, reception).filters;
    forall x | x in rows ensures Matches(OfficeSchema.view(x), filters) <==> OfficeSelector(p, reception)(x) {
      BuiltFiltersSelect(x, p, reception, StepCount);
      EveryStepIsSelected(x, p, reception);
    }
    MatchingIs(OfficeSchema, rows, filters, OfficeSelector(p, reception));
  }

  /** Without an outage the built query answers the requested page of the
      selected listings, with the count of all of them. */
  lemma BuiltQueryAnswers(db: Table<OfficeListing>, p: OfficeParams, reception: Option<bool>)
    requires db.outage.None?
    ensures Execute(OfficeSchema, db, BuiltQuery(p, reception)).Ok?
    ensures Execute(OfficeSchema, db, BuiltQuery(p, reception)).value.rows == OfficePage(db.rows, p, reception)
    ensures Execute(OfficeSchema, db, BuiltQuery(p, reception)).value.count == Some(|Where(db.rows, OfficeSelector(p, reception))|)
  {
    var q := BuiltQuery(p, reception);
    BuiltQueryColumns(p, reception);
    BuiltMatching(db.rows, p, reception);
    ExecuteShape(OfficeSchema, db, q);
    assert Ordered(OfficeSchema, db.rows, q) == OfficesNewestFirst(db.rows, p, reception);
  }

  /** The desk and meeting-room bounds (steps 0 to 2). */
  method ApplyCapacityFilters(query: Query, p: OfficeParams, reception: Option<bool>) returns (q: Query)
    requires query == Query(BuiltFilters(p, reception, 0), None, Unbounded, true)
    ensures q == Query(BuiltFilters(p, reception, 3), None, Unbounded, true)
  {
    q := query;
    if p.minDesks.Some? {
      q := q.Gte("desk_capacity", p.minDesks.value);
    }
    assert q == Query(BuiltFilters(p, reception, 1), None, Unbounded, true);
    if p.maxDesks.Some? {
      q := q.Lte("desk_capacity", p.maxDesks.value);
    }
    assert q == Query(BuiltFilters(p, reception, 2), None, Unbounded, true);
    if p.minMeetingRooms.Some? {
      q := q.Gte("meeting_rooms", p.minMeetingRooms.value);
    }
  }

  /** The office type, reception and internet speed filters (steps 3 to 5). */
  method ApplyFeatureFilters(query: Query, p: OfficeParams, reception: Option<bool>) returns (q: Query)
    requires query == Query(BuiltFilters(p, reception, 3), None, Unbounded, true)
    ensures q == Query(BuiltFilters(p, reception, 6), None, Unbounded, true)
  {
    q := query;
    if NonEmpty(p.officeType) {
      q := q.Eq("office_type", Str(p.officeType.value));
    }
    assert q == Query(BuiltFilters(p, reception, 4), None, Unbounded, true);
    if reception.Some? {
      q := q.Eq("has_reception", Flag(reception.value));
    }
    assert q == Query(BuiltFilters(p, reception, 5), None, Unbounded, true);
    if NonEmpty(p.internetSpeed) {
      q := q.ILike("internet_speed", p.internetSpeed.value);
    }
  }

  /** The city, state and rent filters (steps 6 to 9). */
  method ApplyPlaceAndPriceFilters(query: Query, p: OfficeParams, reception: Option<bool>) returns (q: Query)
    requires query == Query(BuiltFilters(p, reception, 6), None, Unbounded, true)
    ensures q == Query(BuiltFilters(p, reception, 10), None, Unbounded, true)
  {
    q := query;
    if NonEmpty(p.city) {
      q := q.Eq("city", Str(p.city.value));
    }
    assert q == Query(BuiltFilters(p, reception, 7), None, Unbounded, true);
    if NonEmpty(p.state) {
      q := q.Eq("state", Str(p.state.value));
    }
    assert q == Query(BuiltFilters(p, reception, 8), None, Unbounded, true);
    if p.minPrice.Some? {
      q := q.Gte("monthly_rent", p.minPrice.value);
    }
    assert q == Query(BuiltFilters(p, reception, 9), None, Unbounded, true);
    if p.maxPrice.Some? {
      q := q.Lte("monthly_rent", p.maxPrice.value);
    }
  }

  /** The query the route builds: the ten filter steps, the page window,
      newest first, with the total count. */
  method BuildQuery(p: OfficeParams, reception: Option<bool>) returns (query: Query)
    ensures query == BuiltQuery(p, reception)
  {
    query := Select(true);
    query := ApplyCapacityFilters(query, p, reception);
    query := ApplyFeatureFilters(query, p, reception);
    query := ApplyPlaceAndPriceFilters(query, p, reception);
    var offset := (p.page - 1) * p.limit;
    query := query.Range(offset, offset + p.limit - 1);
    query := query.OrderDesc("created_at");
  }

  /** The text a failure reports: the error's message when the thrown value
      is an `Error`, and a fixed text otherwise. */
  function ErrorText(e: StoreError, isErrorInstance: bool): string {
    if isErrorInstance then e.message else "Unknown error occurred"
  }

  /** The route for parameters already read, with the reception filter
      `reception` (none when `None`): run the built query, then answer the
      page with its metadata, or the failure. `isErrorInstance` says whether
      the store's error value is an `Error` object. */
  method Respond(db: Table<OfficeListing>, p: OfficeParams, reception: Option<bool>, isErrorInstance: bool)
    returns (r: Response<OfficeBody>)
    requires p.limit >= 1
    ensures db.outage.Some? ==> r == Response(500, Failure("DATABASE_ERROR", ErrorText(db.outage.value, isErrorInstance)))
    ensures db.outage.None? ==> r == Response(200, Expected(db.rows, p, reception))
  {
    var query := BuildQuery(p, reception);

    var result := Execute(OfficeSchema, db, query);
    match result {
      case Err(e) =>
        BuiltQueryColumns(p, reception);
        assert db.outage.Some? && e == db.outage.value;
        r := Response(500, Failure("DATABASE_ERROR", ErrorText(e, isErrorInstance)));
        assert db.outage.Some?;
      case Ok(answer) =>
        assert db.outage.None?;
        BuiltQueryAnswers(db, p, reception);
        assert answer.rows == OfficePage(db.rows, p, reception);
        assert answer.count == Some(|Where(db.rows, OfficeSelector(p, reception))|);
        var count := if answer.count.Some? then answer.count.value else 0;
        var totalPages := if count != 0 then TotalPages(count, p.limit) else 0;
        var hasMore := p.page < totalPages;
        r := Response(200, Listing(answer.rows, OfficeMetadata(count, p.page, p.limit, totalPages, hasMore), Applied(p)));
        assert totalPages == TotalPages(|Where(db.rows, OfficeSelector(p, reception))|, p.limit);
        assert r.body.metadata == Expected(db.rows, p, reception).metadata;
        assert r.body == Expected(db.rows, p, reception);
    }
  }

  /** The reception filter the route applies: as written, always, and for
      an absent parameter on `false`. */
  function ReceptionAsWritten(ps: Pairs): Option<bool> {
    Some(Get(ps, "hasReception") == Some("true"))
  }

  /** The reception filter, applied only when the parameter is given. */
  function Reception(ps: Pairs): (r: Option<bool>)
    ensures r.Some? <==> Get(ps, "hasReception").Some?
    ensures r.Some? ==> (r.value <==> Get(ps, "hasReception") == Some("true"))
  {
    if Get(ps, "hasReception").Some? then Some(Get(ps, "hasReception") == Some("true")) else None
  }

  /** `GET(request)` as written. */
  method GetOfficesAsWritten(db: Table<OfficeListing>, ps: Pairs, isErrorInstance: bool) returns (r: Response<OfficeBody>)
    requires WellFormedParams(ps)
    ensures db.outage.Some? ==> r == Response(500, Failure("DATABASE_ERROR", ErrorText(db.outage.value, isErrorInstance)))
    ensures db.outage.None? ==> r == Response(200, Expected(db.rows, ParseParams(ps), ReceptionAsWritten(ps)))
  {
    var p := ParseParams(ps);
    r := Respond(db, p, ReceptionAsWritten(ps), isErrorInstance);
  }

  /** `GET(request)`, filtering on reception only when asked to. */
  method GetOffices(db: Table<OfficeListing>, ps: Pairs, isErrorInstance: bool) returns (r: Response<OfficeBody>)
    requires WellFormedParams(ps)
    ensures db.outage.Some? ==> r == Response(500, Failure("DATABASE_ERROR", ErrorText(db.outage.value, isErrorInstance)))
    ensures db.outage.None? ==> r == Response(200, Expected(db.rows, ParseParams(ps), Reception(ps)))
  {
    var p := ParseParams(ps);
    r := Respond(db, p, Reception(ps), isErrorInstance);
  }

  /** Listings in order of `created_at`, newest first. */
  predicate ListingsNewestFirst(s: seq<OfficeListing>) {
    forall i, j :: 0 <= i < j < |s| ==> s[i].created_at >= s[j].created_at
  }

  lemma OfficeNewestFirst(s: seq<OfficeListing>)
    requires NewestFirst(OfficeRow, "created_at", s)
    ensures ListingsNewestFirst(s)
  {
    forall i, j | 0 <= i < j < |s| ensures s[i].created_at >= s[j].created_at {
      OfficeCells(s[i]);
      OfficeCells(s[j]);
      assert NotOlder(Key(OfficeRow(s[i]), "created_at"), Key(OfficeRow(s[j]), "created_at"));
    }
  }

  /** The offset of a page from 1 on is not negative. */
  lemma OffsetNotNegative(p: OfficeParams)
    requires p.page >= 1 && p.limit >= 1
    ensures Offset(p) >= 0
  {
    assert (p.page - 1) * p.limit >= 0 * p.limit;
  }

  /** A page holds only selected listings of the table, newest first. */
  lemma PageRows(rows: seq<OfficeListing>, p: OfficeParams, reception: Option<bool>)
    ensures var page := OfficePage(rows, p, reception);
            && (forall o :: o in page ==> o in rows && OfficeSelected(o, p, reception))
            && ListingsNewestFirst(page)
  {
    var page := OfficePage(rows, p, reception);
    PageOfSelected(OfficeRow, "created_at", rows, OfficeSelector(p, reception), PageWindow(p));
    forall o | o in page ensures o in rows && OfficeSelected(o, p, reception) {
      assert OfficeSelector(p, reception)(o);
    }
    OfficeNewestFirst(page);
  }

  /** `w` is at most `limit` rows of `s`, the k-th being the (offset+k)-th. */
  predicate WindowOf<T(==)>(w: seq<T>, s: seq<T>, offset: int, limit: int) {
    && |w| <= limit
    && forall k :: 0 <= k < |w| ==> 0 <= offset + k < |s| && w[k] == s[offset + k]
  }

  /** A page holds at most `limit` listings, the k-th being the
      (offset+k)-th selected one. */
  lemma PagePositions(rows: seq<OfficeListing>, p: OfficeParams, reception: Option<bool>)
    requires p.page >= 1 && p.limit >= 1
    ensures Offset(p) >= 0
    ensures WindowOf(OfficePage(rows, p, reception), OfficesNewestFirst(rows, p, reception), Offset(p), p.limit)
  {
    OffsetNotNegative(p);
    var sorted := OfficesNewestFirst(rows, p, reception);
    assert OfficePage(rows, p, reception) == ApplyWindow(sorted, PageWindow(p));
    LimitWindow(sorted, PageWindow(p), Offset(p), p.limit);
  }

  /** A window of `limit` rows from `offset` is a `WindowOf` the sequence. */
  lemma LimitWindow<T>(s: seq<T>, w: Window, offset: int, limit: int)
    requires offset >= 0 && limit >= 1 && w == Between(offset, offset + limit - 1)
    ensures WindowOf(ApplyWindow(s, w), s, offset, limit)
  {
    RangeWindow(s, offset, offset + limit - 1);
  }

  /** As written, a request without `hasReception` keeps only listings whose
      `has_reception` is `false`: one with reception, or with none recorded,
      is never shown. */
  lemma AbsentReceptionKeepsOnlyFalse(rows: seq<OfficeListing>, ps: Pairs)
    requires WellFormedParams(ps) && Get(ps, "hasReception").None?
    ensures forall o :: o in OfficePage(rows, ParseParams(ps), ReceptionAsWritten(ps)) ==> o.has_reception == Some(false)
  {
    PageRows(rows, ParseParams(ps), ReceptionAsWritten(ps));
  }

  /** With the reception filter applied only when asked for, a request
      without `hasReception` selects regardless of `has_reception`. */
  lemma AbsentReceptionIgnored(o: OfficeListing, ps: Pairs, b: Option<bool>)
    requires WellFormedParams(ps) && Get(ps, "hasReception").None?
    ensures OfficeSelected(o, ParseParams(ps), Reception(ps)) <==>
              OfficeSelected(o.(has_reception := b), ParseParams(ps), Reception(ps))
  {
  }
}
