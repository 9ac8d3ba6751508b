/** `PropertyService`: the rental listing queries over `rental_listings`.
    The store is the table passed in; a thrown `ApiErrorResponse` is the
    `Err` of the result. */
module PropertyService {
  import opened Wrappers
  import opened Text
  import opened DatabaseTypes
  import opened Store
  import opened ApiTypes

  datatype PropertyFilters = PropertyFilters(
    city: Option<string>,
    minPrice: Option<int>,
    maxPrice: Option<int>,
    propertyType: Option<string>,
    limit: Option<int>,
    offset: Option<int>)

  datatype PropertyQueryResult = PropertyQueryResult(data: seq<RentalListing>, total: int, page: int, limit: int)

  const RentalSchema: Schema<RentalListing> := Schema(RentalColumns, RentalRow)

  /** JavaScript truthiness of an optional text and an optional number. */
  predicate TruthyText(o: Option<string>) {
    o.Some? && o.value != ""
  }

  predicate TruthyNum(o: Option<int>) {
    o.Some? && o.value != 0
  }

  /** `Math.floor(a / b)`; Dafny's `/` is Euclidean, which differs for a negative divisor. */
  function FloorDiv(a: int, b: int): int
    requires b != 0
  {
    if b > 0 then a / b else (-a) / (-b)
  }

  /** The quotient rounds toward negative infinity, whatever the signs. */
  lemma FloorDivBounds(a: int, b: int)
    requires b != 0
    ensures b > 0 ==> FloorDiv(a, b) * b <= a < (FloorDiv(a, b) + 1) * b
    ensures b < 0 ==> FloorDiv(a, b) * b >= a > (FloorDiv(a, b) + 1) * b
  {
  }

  /** `filters.limit || 10` and `filters.offset || 0`. */
  function EffectiveLimit(f: PropertyFilters): int {
    if TruthyNum(f.limit) then f.limit.value else 10
  }

  function EffectiveOffset(f: PropertyFilters): int {
    if TruthyNum(f.offset) then f.offset.value else 0
  }

  /** A listing the filters select: the city contains the text regardless of
      case, the monthly rent lies within the inclusive bounds, the type is the
      one asked for; a falsy filter (absent, empty, 0) selects everything. */
  predicate Selected(l: RentalListing, f: PropertyFilters) {
    && (TruthyText(f.city) ==> ContainsIgnoringCase(l.city, f.city.value))
    && (TruthyNum(f.minPrice) ==> l.monthly_rent >= f.minPrice.value)
    && (TruthyNum(f.maxPrice) ==> l.monthly_rent <= f.maxPrice.value)
    && (TruthyText(f.propertyType) ==> l.property_type == f.propertyType.value)
  }

  function Selector(f: PropertyFilters): RentalListing -> bool {
    l => Selected(l, f)
  }

  /** What a successful `queryProperties(f)` answers: positions
      offset..offset+limit-1 of the selected listings, newest first, with the
      number of all selected listings. */
  function Expected(rows: seq<RentalListing>, f: PropertyFilters): PropertyQueryResult {
    PropertyQueryResult(PageRows(rows, f), |Where(rows, Selector(f))|, PageNumber(f), EffectiveLimit(f))
  }

  /** The listings of the requested window. */
  function PageRows(rows: seq<RentalListing>, f: PropertyFilters): seq<RentalListing> {
    ApplyWindow(SelectedNewestFirst(rows, f), PageWindow(f))
  }

  /** `Math.floor(offset / limit) + 1`. */
  function PageNumber(f: PropertyFilters): int {
    FloorDiv(EffectiveOffset(f), EffectiveLimit(f)) + 1
  }

  /** The listings the filters select, newest first. */
  function SelectedNewestFirst(rows: seq<RentalListing>, f: PropertyFilters): seq<RentalListing> {
    SortNewestFirst(RentalRow, "created_at", Where(rows, Selector(f)))
  }

  /** `range(offset, offset + limit - 1)`. */
  function PageWindow(f: PropertyFilters): Window {
    Between(EffectiveOffset(f), EffectiveOffset(f) + EffectiveLimit(f) - 1)
  }

  /** What the built query selects when the price bounds sit on `priceColumn`:
      a bound on a column the table lacks selects nothing. */
  ghost predicate SelectedOn(l: RentalListing, f: PropertyFilters, priceColumn: string) {
    && (TruthyText(f.city) ==> ContainsIgnoringCase(l.city, f.city.value))
    && (TruthyNum(f.minPrice) ==> priceColumn == "monthly_rent" && l.monthly_rent >= f.minPrice.value)
    && (TruthyNum(f.maxPrice) ==> priceColumn == "monthly_rent" && l.monthly_rent <= f.maxPrice.value)
    && (TruthyText(f.propertyType) ==> l.property_type == f.propertyType.value)
  }

  /** The optional steps of `queryProperties`: the filter each adds (none
      when its parameter is falsy), with the price bounds on `priceColumn`. */
  function CityStep(f: PropertyFilters): seq<Filter> {
    if TruthyText(f.city) then [ContainsText("city", f.city.value)] else []
  }

  function LowerStep(f: PropertyFilters, priceColumn: string): seq<Filter> {
    if TruthyNum(f.minPrice) then [AtLeast(priceColumn, f.minPrice.value)] else []
  }

  function UpperStep(f: PropertyFilters, priceColumn: string): seq<Filter> {
    if TruthyNum(f.maxPrice) then [AtMost(priceColumn, f.maxPrice.value)] else []
  }

  function TypeStep(f: PropertyFilters): seq<Filter> {
    if TruthyText(f.propertyType) then [Equals("property_type", Str(f.propertyType.value))] else []
  }

  /** The city step keeps the rows whose city contains the text, regardless of case. */
  lemma CityStepAgrees(row: Row, l: RentalListing, f: PropertyFilters)
    requires "city" in row && row["city"] == Str(l.city)
    ensures StepAgrees(row, CityStep(f), TruthyText(f.city) ==> ContainsIgnoringCase(l.city, f.city.value))
  {
  }

  /** A lower price bound keeps rows only when it is on `monthly_rent`, a
      column the row has; `price` it lacks. */
  lemma LowerStepAgrees(row: Row, l: RentalListing, f: PropertyFilters, priceColumn: string)
    requires priceColumn == "price" || priceColumn == "monthly_rent"
    requires "monthly_rent" in row && row["monthly_rent"] == Num(l.monthly_rent) && "price" !in row
    ensures StepAgrees(row, LowerStep(f, priceColumn),
                       TruthyNum(f.minPrice) ==> priceColumn == "monthly_rent" && l.monthly_rent >= f.minPrice.value)
  {
  }

  /** An upper price bound keeps rows only when it is on `monthly_rent`. */
  lemma UpperStepAgrees(row: Row, l: RentalListing, f: PropertyFilters, priceColumn: string)
    requires priceColumn == "price" || priceColumn == "monthly_rent"
    requires "monthly_rent" in row && row["monthly_rent"] == Num(l.monthly_rent) && "price" !in row
    ensures StepAgrees(row, UpperStep(f, priceColumn),
                       TruthyNum(f.maxPrice) ==> priceColumn == "monthly_rent" && l.monthly_rent <= f.maxPrice.value)
  {
  }

  /** The type step keeps the rows of exactly that type. */
  lemma TypeStepAgrees(row: Row, l: RentalListing, f: PropertyFilters)
    requires "property_type" in row && row["property_type"] == Str(l.property_type)
    ensures StepAgrees(row, TypeStep(f), TruthyText(f.propertyType) ==> l.property_type == f.propertyType.value)
  {
  }

  /** The filters `queryProperties` builds from `f`, with the bounds on `priceColumn`. */
  ghost function BuiltFilters(f: PropertyFilters, priceColumn: string): seq<Filter> {
    [] + CityStep(f) + LowerStep(f, priceColumn) + UpperStep(f, priceColumn) + TypeStep(f)
  }

  /** The built filters keep exactly the rows of listings `SelectedOn`
      describes, for any row holding the listing's city, rent and type and no
      `price` (a rental row is one: `RentalCells`). */
  lemma BuiltFiltersSelect(row: Row, l: RentalListing, f: PropertyFilters, priceColumn: string)
    requires priceColumn == "price" || priceColumn == "monthly_rent"
    requires "city" in row && row["city"] == Str(l.city)
    requires "monthly_rent" in row && row["monthly_rent"] == Num(l.monthly_rent) && "price" !in row
    requires "property_type" in row && row["property_type"] == Str(l.property_type)
    ensures Matches(row, BuiltFilters(f, priceColumn)) <==> SelectedOn(l, f, priceColumn)
  {
    CityStepAgrees(row, l, f);
    LowerStepAgrees(row, l, f, priceColumn);
    UpperStepAgrees(row, l, f, priceColumn);
    TypeStepAgrees(row, l, f);
    FilterStepNarrows(row, [], CityStep(f), TruthyText(f.city) ==> ContainsIgnoringCase(l.city, f.city.value));
    FilterStepNarrows(row, [] + CityStep(f), LowerStep(f, priceColumn),
                      TruthyNum(f.minPrice) ==> priceColumn == "monthly_rent" && l.monthly_rent >= f.minPrice.value);
    FilterStepNarrows(row, [] + CityStep(f) + LowerStep(f, priceColumn), UpperStep(f, priceColumn),
                      TruthyNum(f.maxPrice) ==> priceColumn == "monthly_rent" && l.monthly_rent <= f.maxPrice.value);
    FilterStepNarrows(row, [] + CityStep(f) + LowerStep(f, priceColumn) + UpperStep(f, priceColumn), TypeStep(f),
                      TruthyText(f.propertyType) ==> l.property_type == f.propertyType.value);
  }

  /** The query `queryProperties` runs, with its price bounds on `priceColumn`. */
  ghost function BuiltQuery(f: PropertyFilters, priceColumn: string): Query {
    Query(BuiltFilters(f, priceColumn), Some("created_at"), PageWindow(f), true)
  }

  /** The built query fails exactly on an outage or on a price bound on a
      column the table lacks. */
  lemma BuiltQueryFails(db: Table<RentalListing>, f: PropertyFilters, priceColumn: string)
    requires priceColumn == "price" || priceColumn == "monthly_rent"
    ensures Execute(RentalSchema, db, BuiltQuery(f, priceColumn)).Err? <==>
              db.outage.Some? || (priceColumn !in RentalColumns && (TruthyNum(f.minPrice) || TruthyNum(f.maxPrice)))
  {
    var q := BuiltQuery(f, priceColumn);
    RentalColumnFacts();
    assert forall c :: c in q.filters ==> c.column in {"city", "property_type", priceColumn};
    assert (exists c :: c in q.filters && c.column == priceColumn) <==> TruthyNum(f.minPrice) || TruthyNum(f.maxPrice) by {
      if TruthyNum(f.minPrice) {
        assert AtLeast(priceColumn, f.minPrice.value) in q.filters;
      } else if TruthyNum(f.maxPrice) {
        assert AtMost(priceColumn, f.maxPrice.value) in q.filters;
      }
    }
  }

  /** Without a price bound on a missing column, the built filters select what `Selected` selects. */
  lemma BuiltMatching(rows: seq<RentalListing>, f: PropertyFilters, priceColumn: string)
    requires priceColumn == "price" || priceColumn == "monthly_rent"
    requires priceColumn in RentalColumns || !(TruthyNum(f.minPrice) || TruthyNum(f.maxPrice))
    ensures Matching(RentalSchema, rows, BuiltQuery(f, priceColumn).filters) == Where(rows, Selector(f))
  {
    var filters := BuiltQuery(f, priceColumn).filters;
    RentalColumnFacts();
    forall x | x in rows ensures Matches(RentalSchema.view(x), filters) <==> Selector(f)(x) {
      RentalCells(x);
      BuiltFiltersSelect(RentalRow(x), x, f, priceColumn);
    }
    MatchingIs(RentalSchema, rows, filters, Selector(f));
  }

  /** When it succeeds, the built query answers positions offset..offset+limit-1
      of the selected listings, newest first, with the count of all of them. */
  lemma BuiltQueryAnswers(db: Table<RentalListing>, f: PropertyFilters, priceColumn: string)
    requires priceColumn == "price" || priceColumn == "monthly_rent"
    requires Execute(RentalSchema, db, BuiltQuery(f, priceColumn)).Ok?
    requires priceColumn in RentalColumns || !(TruthyNum(f.minPrice) || TruthyNum(f.maxPrice))
    ensures Execute(RentalSchema, db, BuiltQuery(f, priceColumn)).value.rows == Expected(db.rows, f).data
    ensures Execute(RentalSchema, db, BuiltQuery(f, priceColumn)).value.count == Some(Expected(db.rows, f).total)
  {
    var q := BuiltQuery(f, priceColumn);
    var selected := Where(db.rows, Selector(f));
    BuiltMatching(db.rows, f, priceColumn);
    ExecuteShape(RentalSchema, db, q);
    assert Ordered(RentalSchema, db.rows, q) == SortNewestFirst(RentalRow, "created_at", selected);
  }

  function DatabaseError(message: string, e: StoreError): (r: ApiErrorResponse)
    ensures r.code == "DATABASE_ERROR" && r.status == 500 && r.message == message
    ensures r.details == StoreErrorDetails(e.code, e.message)
  {
    NewApiErrorResponse("DATABASE_ERROR", message, Some(500), StoreErrorDetails(e.code, e.message))
  }

  /** The four optional filters of `queryProperties`, added in order. */
  method ApplyRentalFilters(start: Query, f: PropertyFilters, priceColumn: string) returns (query: Query)
    requires start == Select(true)
    ensures query == Query(BuiltFilters(f, priceColumn), None, Unbounded, true)
  {
    query := start;
    if TruthyText(f.city) {
      query := query.ILike("city", f.city.value);
    }
    assert query.filters == [] + CityStep(f);
    if TruthyNum(f.minPrice) {
      query := query.Gte(priceColumn, f.minPrice.value);
    }
    assert query.filters == [] + CityStep(f) + LowerStep(f, priceColumn);
    if TruthyNum(f.maxPrice) {
      query := query.Lte(priceColumn, f.maxPrice.value);
    }
    if TruthyText(f.propertyType) {
      query := query.Eq("property_type", Str(f.propertyType.value));
    }
  }

  /** `queryProperties(filters)` with the price bounds on `priceColumn`. The
      query is built as the source builds it, one `if` at a time. */
  method QueryRentals(db: Table<RentalListing>, f: PropertyFilters, priceColumn: string)
    returns (r: Result<PropertyQueryResult, ApiErrorResponse>)
    requires priceColumn == "price" || priceColumn == "monthly_rent"
    ensures r.Err? <==> db.outage.Some? ||
                        (priceColumn !in RentalColumns && (TruthyNum(f.minPrice) || TruthyNum(f.maxPrice)))
    ensures r.Err? ==> r.error.code == "DATABASE_ERROR" && r.error.status == 500 &&
                       r.error.message == "Failed to query properties"
    ensures db.outage.Some? ==> r == Err(DatabaseError("Failed to query properties", db.outage.value))
    ensures r.Ok? ==> r.value == Expected(db.rows, f)
  {
    var query := Select(true);
    query := ApplyRentalFilters(query, f, priceColumn);
    var limit := EffectiveLimit(f);
    var offset := EffectiveOffset(f);
    var page := FloorDiv(offset, limit) + 1;
    query := query.OrderDesc("created_at").Range(offset, offset + limit - 1);
    assert query == BuiltQuery(f, priceColumn);
    r := AnswerRentalQuery(db, f, priceColumn, query, page, limit);
  }

  /** Running the built query and shaping its answer into the result. */
  method AnswerRentalQuery(db: Table<RentalListing>, f: PropertyFilters, priceColumn: string, query: Query, page: int, limit: int)
    returns (r: Result<PropertyQueryResult, ApiErrorResponse>)
    requires priceColumn == "price" || priceColumn == "monthly_rent"
    requires query == BuiltQuery(f, priceColumn)
    requires page == PageNumber(f) && limit == EffectiveLimit(f)
    ensures r.Err? <==> db.outage.Some? ||
                        (priceColumn !in RentalColumns && (TruthyNum(f.minPrice) || TruthyNum(f.maxPrice)))
    ensures r.Err? ==> r.error.code == "DATABASE_ERROR" && r.error.status == 500 &&
                       r.error.message == "Failed to query properties"
    ensures db.outage.Some? ==> r == Err(DatabaseError("Failed to query properties", db.outage.value))
    ensures r.Ok? ==> r.value == Expected(db.rows, f)
  {
    BuiltQueryFails(db, f, priceColumn);
    var result := Execute(RentalSchema, db, query);
    match result {
      case Err(e) =>
        r := Err(DatabaseError("Failed to query properties", e));
      case Ok(answer) =>
        BuiltQueryAnswers(db, f, priceColumn);
        assert answer.rows == Expected(db.rows, f).data;
        assert answer.count == Some(Expected(db.rows, f).total);
        r := Ok(PropertyQueryResult(answer.rows, if answer.count.Some? then answer.count.value else 0, page, limit));
    }
  }

  /** `queryProperties(filters)`, filtering the price bounds on `monthly_rent`. */
  method QueryProperties(db: Table<RentalListing>, f: PropertyFilters) returns (r: Result<PropertyQueryResult, ApiErrorResponse>)
    ensures r.Err? <==> db.outage.Some?
    ensures r.Err? ==> r.error == DatabaseError("Failed to query properties", db.outage.value)
    ensures r.Ok? ==> r.value == Expected(db.rows, f)
  {
    RentalColumnFacts();
    r := QueryRentals(db, f, "monthly_rent");
  }

  /** `queryProperties(filters)` as written: the price bounds name a column
      `price`, which `rental_listings` does not have, so any price bound
      fails the query. */
  method QueryPropertiesAsWritten(db: Table<RentalListing>, f: PropertyFilters) returns (r: Result<PropertyQueryResult, ApiErrorResponse>)
    ensures TruthyNum(f.minPrice) || TruthyNum(f.maxPrice) ==>
              r.Err? && r.error.code == "DATABASE_ERROR" && r.error.status == 500
    ensures !(TruthyNum(f.minPrice) || TruthyNum(f.maxPrice)) ==> (r.Err? <==> db.outage.Some?)
    ensures r.Ok? ==> r.value == Expected(db.rows, f)
  {
    RentalColumnFacts();
    r := QueryRentals(db, f, "price");
  }

  /** All listings, newest first. */
  function AllNewestFirst(rows: seq<RentalListing>): seq<RentalListing> {
    SortNewestFirst(RentalRow, "created_at", rows)
  }

  /** `getFeaturedProperties(limit)`: the `limit` newest listings. */
  function GetFeaturedProperties(db: Table<RentalListing>, limit: int := 4): (r: Result<seq<RentalListing>, ApiErrorResponse>)
    ensures r.Err? <==> db.outage.Some?
    ensures r.Err? ==> r.error == DatabaseError("Failed to fetch featured properties", db.outage.value)
    ensures r.Ok? ==> r.value == AllNewestFirst(db.rows)[..Clamp(limit, |db.rows|)]
  {
    RentalColumnFacts();
    Latest(RentalSchema, db, "created_at", limit);
    match Execute(RentalSchema, db, Select(false).OrderDesc("created_at").Limit(limit))
    case Err(e) => Err(DatabaseError("Failed to fetch featured properties", e))
    case Ok(answer) => Ok(answer.rows)
  }

  /** The featured listings: `limit` of them (or every listing when there
      are fewer), newest first, each from the table, and no listing left out
      is newer than one shown. */
  lemma FeaturedAreNewest(db: Table<RentalListing>, limit: int)
    requires GetFeaturedProperties(db, limit).Ok?
    ensures var shown := GetFeaturedProperties(db, limit).value;
            && |shown| == (if limit < 0 then 0 else if limit < |db.rows| then limit else |db.rows|)
            && ListingsNewestFirst(shown)
            && multiset(shown) <= multiset(db.rows)
            && forall x, y :: x in db.rows && x !in shown && y in shown ==> y.created_at >= x.created_at
  {
    var sorted := AllNewestFirst(db.rows);
    var n := Clamp(limit, |db.rows|);
    var shown := sorted[..n];
    assert GetFeaturedProperties(db, limit).value == shown;
    LatestBounds(RentalRow, "created_at", db.rows, limit);
    RentalNewestFirst(shown);
    RentalNewestFirst(sorted);
    var createdAt := (l: RentalListing) => l.created_at;
    PrefixIsNewest(createdAt, db.rows, sorted, n);
    forall x, y | x in db.rows && x !in shown && y in shown ensures y.created_at >= x.created_at {
      assert createdAt(y) >= createdAt(x);
    }
  }

  /** The listing has the given id. */
  function HasId(id: string): RentalListing -> bool {
    (l: RentalListing) => l.id == id
  }

  /** `select('*').eq('id', id)` answers exactly the listings with that id. */
  lemma ByIdRows(db: Table<RentalListing>, id: string)
    ensures forall x :: Matches(RentalRow(x), Select(false).Eq("id", Str(id)).filters) <==> x.id == id
    ensures db.outage.None? ==>
              Execute(RentalSchema, db, Select(false).Eq("id", Str(id))).Ok? &&
              Execute(RentalSchema, db, Select(false).Eq("id", Str(id))).value.rows == Where(db.rows, HasId(id))
  {
    var q := Select(false).Eq("id", Str(id));
    RentalColumnFacts();
    forall x ensures Matches(RentalRow(x), q.filters) <==> x.id == id {
      MatchesSnoc(RentalRow(x), [], Equals("id", Str(id)));
      assert q.filters == [] + [Equals("id", Str(id))];
      RentalCells(x);
    }
    if db.outage.None? {
      assert UnknownColumn(RentalColumns, q).None?;
      MatchingIs(RentalSchema, db.rows, q.filters, HasId(id));
      ExecuteShape(RentalSchema, db, q);
    }
  }

  /** `.single()` on the id query: a listing of the table with that id, and
      without an outage, one exactly when a single listing has the id, the
      failure otherwise being PGRST116. */
  lemma ByIdSingle(db: Table<RentalListing>, id: string)
    ensures var r := ExecuteSingle(RentalSchema, db, Select(false).Eq("id", Str(id)));
            && (r.Ok? ==> r.value in db.rows && r.value.id == id)
            && (db.outage.None? ==> (r.Ok? <==> |Where(db.rows, HasId(id))| == 1))
            && (db.outage.None? && r.Err? ==> r.error.code == "PGRST116")
            && (db.outage.Some? ==> r == Err(db.outage.value))
  {
    var q := Select(false).Eq("id", Str(id));
    ByIdRows(db, id);
    RentalColumnFacts();
    assert UnknownColumn(RentalColumns, q).None?;
  }

  /** `getPropertyById(id)`: the one listing with that id. No such listing
      (or several) is PostgREST's PGRST116, reported as 404 NOT_FOUND; any
      other failure is a 500 DATABASE_ERROR. */
  function GetPropertyById(db: Table<RentalListing>, id: string): (r: Result<RentalListing, ApiErrorResponse>)
    ensures r.Ok? ==> r.value in db.rows && r.value.id == id
    ensures db.outage.None? ==> (r.Ok? <==> |Where(db.rows, HasId(id))| == 1)
    ensures db.outage.None? && r.Err? ==>
              r.error.code == "NOT_FOUND" && r.error.status == 404 && r.error.message == "Property not found"
    ensures db.outage.Some? && db.outage.value.code != "PGRST116" ==>
              r == Err(DatabaseError("Failed to fetch property", db.outage.value))
  {
    var q := Select(false).Eq("id", Str(id));
    ByIdSingle(db, id);
    match ExecuteSingle(RentalSchema, db, q)
    case Err(e) =>
      if e.code == "PGRST116" then
        Err(NewApiErrorResponse("NOT_FOUND", "Property not found", Some(404), StoreErrorDetails(e.code, e.message)))
      else
        Err(DatabaseError("Failed to fetch property", e))
    case Ok(listing) => Ok(listing)
  }

  /** Listings in order of `created_at`, newest first. */
  predicate ListingsNewestFirst(s: seq<RentalListing>) {
    forall i, j :: 0 <= i < j < |s| ==> s[i].created_at >= s[j].created_at
  }

  lemma RentalNewestFirst(s: seq<RentalListing>)
    requires NewestFirst(RentalRow, "created_at", s)
    ensures ListingsNewestFirst(s)
  {
    forall i, j | 0 <= i < j < |s| ensures s[i].created_at >= s[j].created_at {
      RentalCells(s[i]);
      RentalCells(s[j]);
      RentalColumnFacts();
      assert NotOlder(Key(RentalRow(s[i]), "created_at"), Key(RentalRow(s[j]), "created_at"));
    }
  }

  /** Every listing `queryProperties` answers is a selected listing of the
      table, they come newest first, and the total counts all selected
      listings. */
  lemma ExpectedRows(rows: seq<RentalListing>, f: PropertyFilters)
    ensures var e := Expected(rows, f);
            && (forall l :: l in e.data ==> l in rows && Selected(l, f))
            && ListingsNewestFirst(e.data)
            && e.total == |Where(rows, Selector(f))| <= |rows|
  {
    var w := PageWindow(f);
    var data := ApplyWindow(SortNewestFirst(RentalRow, "created_at", Where(rows, Selector(f))), w);
    assert Expected(rows, f).data == data;
    assert Expected(rows, f).total == |Where(rows, Selector(f))|;
    PageOfSelected(RentalRow, "created_at", rows, Selector(f), w);
    forall l | l in data ensures l in rows && Selected(l, f) {
      assert Selector(f)(l);
    }
    RentalNewestFirst(data);
  }

  /** The page `queryProperties` reports: the limit is never 0, and for a
      positive limit the reported page is the one that holds `offset`. */
  lemma PageHoldsOffset(f: PropertyFilters)
    ensures EffectiveLimit(f) != 0
    ensures EffectiveLimit(f) > 0 ==>
              (PageNumber(f) - 1) * EffectiveLimit(f) <= EffectiveOffset(f) < PageNumber(f) * EffectiveLimit(f)
  {
    FloorDivBounds(EffectiveOffset(f), EffectiveLimit(f));
  }

  /** The window of `queryProperties` cut from any sequence `s` (the
      selected listings newest first, for `Expected`): from a non-negative
      offset, at most `limit` listings, the k-th being the (offset+k)-th of `s`. */
  lemma ExpectedWindow(s: seq<RentalListing>, f: PropertyFilters)
    requires EffectiveOffset(f) >= 0
    ensures |ApplyWindow(s, PageWindow(f))| <= (if EffectiveLimit(f) < 0 then 0 else EffectiveLimit(f))
    ensures forall k :: 0 <= k < |ApplyWindow(s, PageWindow(f))| ==>
              && EffectiveOffset(f) + k < |s|
              && ApplyWindow(s, PageWindow(f))[k] == s[EffectiveOffset(f) + k]
  {
    RangeWindow(s, EffectiveOffset(f), EffectiveOffset(f) + EffectiveLimit(f) - 1);
  }
}
