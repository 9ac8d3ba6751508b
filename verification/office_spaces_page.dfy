/** The office-spaces page: its filters and page number, the search
    parameters it sends to `/api/office-properties`, and how it takes the
    answer. */
module OfficeSpacesPage {
  import opened Wrappers
  import opened Text
  import opened SearchParams
  import opened DatabaseTypes
  import opened OfficePropertiesRoute

  /** The filter state; `None` is `undefined`. The number filters come from
      select options, which are whole numbers. */
  datatype PageFilters = PageFilters(
    minDesks: Option<nat>,
    maxDesks: Option<nat>,
    minPrice: Option<nat>,
    maxPrice: Option<nat>,
    officeType: Option<string>,
    hasReception: Option<bool>,
    city: Option<string>)

  const NoFilters: PageFilters := PageFilters(None, None, None, None, None, None, None)

  /** The results shown per page. */
  const PageSize: nat := 8

  /** One call of `handleFilterChange(key, value)`. */
  datatype FilterChange =
    | SetMinDesks(n: Option<nat>)
    | SetMaxDesks(n: Option<nat>)
    | SetMinPrice(n: Option<nat>)
    | SetMaxPrice(n: Option<nat>)
    | SetOfficeType(s: Option<string>)
    | SetHasReception(b: Option<bool>)
    | SetCity(s: Option<string>)

  /** `{ ...prev, [key]: value }`: the named filter takes the value and the
      six others stay as they were. */
  function WithChange(f: PageFilters, c: FilterChange): (g: PageFilters)
    ensures c.SetMinDesks? ==> g.minDesks == c.n
    ensures c.SetMaxDesks? ==> g.maxDesks == c.n
    ensures c.SetMinPrice? ==> g.minPrice == c.n
    ensures c.SetMaxPrice? ==> g.maxPrice == c.n
    ensures c.SetOfficeType? ==> g.officeType == c.s
    ensures c.SetHasReception? ==> g.hasReception == c.b
    ensures c.SetCity? ==> g.city == c.s
    ensures !c.SetMinDesks? ==> g.minDesks == f.minDesks
    ensures !c.SetMaxDesks? ==> g.maxDesks == f.maxDesks
    ensures !c.SetMinPrice? ==> g.minPrice == f.minPrice
    ensures !c.SetMaxPrice? ==> g.maxPrice == f.maxPrice
    ensures !c.SetOfficeType? ==> g.officeType == f.officeType
    ensures !c.SetHasReception? ==> g.hasReception == f.hasReception
    ensures !c.SetCity? ==> g.city == f.city
  {
    match c
    case SetMinDesks(n) => f.(minDesks := n)
    case SetMaxDesks(n) => f.(maxDesks := n)
    case SetMinPrice(n) => f.(minPrice := n)
    case SetMaxPrice(n) => f.(maxPrice := n)
    case SetOfficeType(s) => f.(officeType := s)
    case SetHasReception(b) => f.(hasReception := b)
    case SetCity(s) => f.(city := s)
  }

  /** A parameter appended only when it has a value. */
  function Optional(key: string, value: Option<string>): Pairs {
    if value.Some? then [(key, value.value)] else []
  }

  /** `get` on an optional parameter. */
  lemma OptionalGet(key: string, value: Option<string>, k: string)
    ensures Get(Optional(key, value), k) == if k == key then value else None
  {
    if value.Some? {
      assert Optional(key, value)[1..] == [];
    }
  }

  /** A number filter is sent when it is truthy, that is, not 0. */
  function NumberText(n: Option<nat>): Option<string> {
    if n.Some? && n.value != 0 then Some(NatToText(n.value)) else None
  }

  /** A text filter is sent when it is not empty. */
  function Sent(s: Option<string>): Option<string> {
    if s.Some? && s.value != "" then s else None
  }

  /** `hasReception` is sent whenever it is defined, `false` included. */
  function FlagText(b: Option<bool>): Option<string> {
    if b.Some? then Some(if b.value then "true" else "false") else None
  }

  /** The first two parameters: the page and the page size. */
  function PageParams(page: nat): Pairs {
    [("page", NatToText(page)), ("limit", NatToText(PageSize))]
  }

  /** The search parameters of the request for page `page` under `f`. */
  function RequestParams(page: nat, f: PageFilters): Pairs {
    PageParams(page)
    + Optional("minDesks", NumberText(f.minDesks)) + Optional("maxDesks", NumberText(f.maxDesks))
    + Optional("minPrice", NumberText(f.minPrice)) + Optional("maxPrice", NumberText(f.maxPrice))
    + Optional("officeType", Sent(f.officeType)) + Optional("hasReception", FlagText(f.hasReception))
    + Optional("city", Sent(f.city))
  }

  /** What the request holds under `key`. */
  function SentValue(page: nat, f: PageFilters, key: string): Option<string> {
    if key == "page" then Some(NatToText(page))
    else if key == "limit" then Some(NatToText(PageSize))
    else if key == "minDesks" then NumberText(f.minDesks)
    else if key == "maxDesks" then NumberText(f.maxDesks)
    else if key == "minPrice" then NumberText(f.minPrice)
    else if key == "maxPrice" then NumberText(f.maxPrice)
    else if key == "officeType" then Sent(f.officeType)
    else if key == "hasReception" then FlagText(f.hasReception)
    else if key == "city" then Sent(f.city)
    else None
  }

  /** Every key of the request reads back as sent: the page, the limit 8,
      the truthy numbers, the non-empty texts and a defined reception flag;
      any other key is absent. */
  lemma RequestReadsBack(page: nat, f: PageFilters, key: string)
    ensures Get(RequestParams(page, f), key) == SentValue(page, f, key)
  {
    var p1 := PageParams(page) + Optional("minDesks", NumberText(f.minDesks));
    var p2 := p1 + Optional("maxDesks", NumberText(f.maxDesks));
    var p3 := p2 + Optional("minPrice", NumberText(f.minPrice));
    var p4 := p3 + Optional("maxPrice", NumberText(f.maxPrice));
    var p5 := p4 + Optional("officeType", Sent(f.officeType));
    var p6 := p5 + Optional("hasReception", FlagText(f.hasReception));
    assert Get(PageParams(page), key) == (if key == "page" then Some(NatToText(page))
                                          else if key == "limit" then Some(NatToText(PageSize)) else None) by {
      assert PageParams(page)[1..][1..] == [];
    }
    GetAppend(PageParams(page), Optional("minDesks", NumberText(f.minDesks)), key);
    OptionalGet("minDesks", NumberText(f.minDesks), key);
    GetAppend(p1, Optional("maxDesks", NumberText(f.maxDesks)), key);
    OptionalGet("maxDesks", NumberText(f.maxDesks), key);
    GetAppend(p2, Optional("minPrice", NumberText(f.minPrice)), key);
    OptionalGet("minPrice", NumberText(f.minPrice), key);
    GetAppend(p3, Optional("maxPrice", NumberText(f.maxPrice)), key);
    OptionalGet("maxPrice", NumberText(f.maxPrice), key);
    GetAppend(p4, Optional("officeType", Sent(f.officeType)), key);
    OptionalGet("officeType", Sent(f.officeType), key);
    GetAppend(p5, Optional("hasReception", FlagText(f.hasReception)), key);
    OptionalGet("hasReception", FlagText(f.hasReception), key);
    GetAppend(p6, Optional("city", Sent(f.city)), key);
    OptionalGet("city", Sent(f.city), key);
  }

  /** A sent number, as the route reads it. */
  function Truthy(n: Option<nat>): Option<int> {
    if n.Some? && n.value != 0 then Some(n.value) else None
  }

  /** Parameters holding the page, the page size and the filters as the
      page sends them, and none of the filters the page does not offer. */
  predicate HoldsSent(ps: Pairs, page: nat, f: PageFilters) {
    && Get(ps, "page") == Some(NatToText(page)) && Get(ps, "limit") == Some(NatToText(PageSize))
    && Get(ps, "minDesks") == NumberText(f.minDesks) && Get(ps, "maxDesks") == NumberText(f.maxDesks)
    && Get(ps, "minPrice") == NumberText(f.minPrice) && Get(ps, "maxPrice") == NumberText(f.maxPrice)
    && Get(ps, "officeType") == Sent(f.officeType) && Get(ps, "city") == Sent(f.city)
    && Get(ps, "hasReception") == FlagText(f.hasReception)
    && Get(ps, "minMeetingRooms") == None && Get(ps, "internetSpeed") == None && Get(ps, "state") == None
  }

  /** The request holds what the page sends. */
  lemma RequestHoldsSent(page: nat, f: PageFilters)
    ensures HoldsSent(RequestParams(page, f), page, f)
  {
    var ps := RequestParams(page, f);
    RequestReadsBack(page, f, "page");
    assert Get(ps, "page") == Some(NatToText(page));
    RequestReadsBack(page, f, "limit");
    assert Get(ps, "limit") == Some(NatToText(PageSize));
    RequestReadsBack(page, f, "minDesks");
    assert Get(ps, "minDesks") == NumberText(f.minDesks);
    RequestReadsBack(page, f, "maxDesks");
    assert Get(ps, "maxDesks") == NumberText(f.maxDesks);
    RequestReadsBack(page, f, "minPrice");
    assert Get(ps, "minPrice") == NumberText(f.minPrice);
    RequestReadsBack(page, f, "maxPrice");
    assert Get(ps, "maxPrice") == NumberText(f.maxPrice);
    RequestReadsBack(page, f, "officeType");
    assert Get(ps, "officeType") == Sent(f.officeType);
    RequestReadsBack(page, f, "city");
    assert Get(ps, "city") == Sent(f.city);
    RequestReadsBack(page, f, "hasReception");
    assert Get(ps, "hasReception") == FlagText(f.hasReception);
    RequestReadsBack(page, f, "minMeetingRooms");
    assert Get(ps, "minMeetingRooms") == None;
    RequestReadsBack(page, f, "internetSpeed");
    assert Get(ps, "internetSpeed") == None;
    RequestReadsBack(page, f, "state");
    assert Get(ps, "state") == None;
  }

  /** The numbers the page sends read back as the numbers it meant. */
  lemma SentNumbersRead(ps: Pairs, page: nat, f: PageFilters)
    requires page >= 1 && HoldsSent(ps, page, f)
    ensures WellFormedParams(ps)
    ensures IntParam(ps, "page") == Some(page as int) && IntParam(ps, "limit") == Some(PageSize as int)
    ensures IntParam(ps, "minDesks") == Truthy(f.minDesks) && IntParam(ps, "maxDesks") == Truthy(f.maxDesks)
    ensures IntParam(ps, "minPrice") == Truthy(f.minPrice) && IntParam(ps, "maxPrice") == Truthy(f.maxPrice)
  {
    IntParamOfText(ps, "page", page);
    IntParamOfText(ps, "limit", PageSize);
    if Truthy(f.minDesks).Some? { IntParamOfText(ps, "minDesks", f.minDesks.value); }
    if Truthy(f.maxDesks).Some? { IntParamOfText(ps, "maxDesks", f.maxDesks.value); }
    if Truthy(f.minPrice).Some? { IntParamOfText(ps, "minPrice", f.minPrice.value); }
    if Truthy(f.maxPrice).Some? { IntParamOfText(ps, "maxPrice", f.maxPrice.value); }
  }

  /** Parameters holding what the page sends are read by the route as the
      page meant them. */
  lemma RouteReadsSent(ps: Pairs, page: nat, f: PageFilters)
    requires page >= 1 && HoldsSent(ps, page, f)
    ensures WellFormedParams(ps)
    ensures ParseParams(ps)
              == OfficeParams(Truthy(f.minDesks), Truthy(f.maxDesks), None, Sent(f.officeType),
                              f.hasReception == Some(true), None, Sent(f.city), None,
                              Truthy(f.minPrice), Truthy(f.maxPrice), page, PageSize)
    ensures Reception(ps) == f.hasReception
  {
    SentNumbersRead(ps, page, f);
    assert "false" != "true" by { assert "false"[0] != "true"[0]; }
    var p := ParseParams(ps);
    assert p.hasReception == (f.hasReception == Some(true));
    assert p.minMeetingRooms == None;
  }

  /** The route reads the page's request as the page meant it: the page,
      8 per page, the truthy numbers, the non-empty texts, reception as
      chosen, and none of the filters the page does not offer. */
  lemma RouteReadsRequest(page: nat, f: PageFilters)
    requires page >= 1
    ensures WellFormedParams(RequestParams(page, f))
    ensures ParseParams(RequestParams(page, f))
              == OfficeParams(Truthy(f.minDesks), Truthy(f.maxDesks), None, Sent(f.officeType),
                              f.hasReception == Some(true), None, Sent(f.city), None,
                              Truthy(f.minPrice), Truthy(f.maxPrice), page, PageSize)
    ensures Reception(RequestParams(page, f)) == f.hasReception
  {
    RequestHoldsSent(page, f);
    RouteReadsSent(RequestParams(page, f), page, f);
  }

  /** How a fetch ended: the route's answer with its status, or a thrown
      value (its message when it is an `Error`). */
  datatype PageFetch = Answered(status: int, body: OfficeBody) | Threw(message: Option<string>)

  /** The error text the page keeps for a failed fetch: for an error
      answer, the body's `error`, else its `message`, else a fixed text; for
      a thrown `Error`, its message as it is (an empty one leaves nothing to
      show); for any other thrown value, a fixed text. */
  function FailureText(fetch: PageFetch): (t: Option<string>)
    ensures t.None? <==> fetch.Answered? && 200 <= fetch.status < 300
    ensures fetch.Answered? && t.Some? ==> t.value != ""
    ensures fetch.Answered? && t.Some? && fetch.body.Failure? ==>
              t.value == (if fetch.body.error != "" then fetch.body.error
                          else if fetch.body.message != "" then fetch.body.message
                          else "Failed to fetch office listings")
    ensures fetch.Threw? ==> t == Some(if fetch.message.Some? then fetch.message.value else "An unknown error occurred")
  {
    match fetch
    case Answered(status, body) =>
      if 200 <= status < 300 then None
      else if body.Failure? && body.error != "" then Some(body.error)
      else if body.Failure? && body.message != "" then Some(body.message)
      else Some("Failed to fetch office listings")
    case Threw(message) =>
      Some(if message.None? then "An unknown error occurred" else message.value)
  }

  /** A store failure in the route shows its code, `DATABASE_ERROR`, and not
      the text the route reports with it. */
  lemma StoreFailureShowsCode(db: Store.Table<OfficeListing>, p: OfficeParams, reception: Option<bool>,
                              isErrorInstance: bool, r: Handler.Response<OfficeBody>)
    requires db.outage.Some?
    requires r == Handler.Response(500, Failure("DATABASE_ERROR", ErrorText(db.outage.value, isErrorInstance)))
    ensures FailureText(Answered(r.status, r.body)) == Some("DATABASE_ERROR")
  {
  }

  /** The page's state cells. */
  class OfficeSpaces {
    var officeListings: seq<OfficeListing>
    var loading: bool
    var error: Option<string>
    var currentPage: nat
    var totalPages: int
    var filters: PageFilters

    /** The first render: no listings, loading, page 1 of 1, no filters. */
    constructor()
      ensures officeListings == [] && loading && error.None?
      ensures currentPage == 1 && totalPages == 1 && filters == NoFilters
    {
      officeListings := [];
      loading := true;
      error := None;
      currentPage := 1;
      totalPages := 1;
      filters := NoFilters;
    }

    /** The search parameters of the next request, appended one by one. */
    method BuildRequestParams() returns (params: Pairs)
      ensures params == RequestParams(currentPage, filters)
    {
      params := [("page", NatToText(currentPage))];
      params := params + [("limit", NatToText(PageSize))];
      assert params == PageParams(currentPage);
      params := AppendNumberFilters(params);
      params := AppendTextFilters(params);
    }

    /** The desk and price bounds, each appended when it is truthy. */
    method AppendNumberFilters(start: Pairs) returns (params: Pairs)
      ensures params == start + Optional("minDesks", NumberText(filters.minDesks))
                              + Optional("maxDesks", NumberText(filters.maxDesks))
                              + Optional("minPrice", NumberText(filters.minPrice))
                              + Optional("maxPrice", NumberText(filters.maxPrice))
    {
      params := start;
      if filters.minDesks.Some? && filters.minDesks.value != 0 {
        params := params + [("minDesks", NatToText(filters.minDesks.value))];
      }
      ghost var expected := start + Optional("minDesks", NumberText(filters.minDesks));
      assert params == expected;
      if filters.maxDesks.Some? && filters.maxDesks.value != 0 {
        params := params + [("maxDesks", NatToText(filters.maxDesks.value))];
      }
      expected := expected + Optional("maxDesks", NumberText(filters.maxDesks));
      assert params == expected;
      if filters.minPrice.Some? && filters.minPrice.value != 0 {
        params := params + [("minPrice", NatToText(filters.minPrice.value))];
      }
      expected := expected + Optional("minPrice", NumberText(filters.minPrice));
      assert params == expected;
      if filters.maxPrice.Some? && filters.maxPrice.value != 0 {
        params := params + [("maxPrice", NatToText(filters.maxPrice.value))];
      }
    }

    /** The office type and city when not empty, reception when chosen. */
    method AppendTextFilters(start: Pairs) returns (params: Pairs)
      ensures params == start + Optional("officeType", Sent(filters.officeType))
                              + Optional("hasReception", FlagText(filters.hasReception))
                              + Optional("city", Sent(filters.city))
    {
      params := start;
      if filters.officeType.Some? && filters.officeType.value != "" {
        params := params + [("officeType", filters.officeType.value)];
      }
      ghost var expected := start + Optional("officeType", Sent(filters.officeType));
      assert params == expected;
      if filters.hasReception.Some? {
        params := params + [("hasReception", if filters.hasReception.value then "true" else "false")];
      }
      expected := expected + Optional("hasReception", FlagText(filters.hasReception));
      assert params == expected;
      if filters.city.Some? && filters.city.value != "" {
        params := params + [("city", filters.city.value)];
      }
    }

    /** The start of a fetch: loading, with the error cleared. */
    method BeginFetch()
      modifies this
      ensures loading && error.None?
      ensures officeListings == old(officeListings) && currentPage == old(currentPage)
      ensures totalPages == old(totalPages) && filters == old(filters)
    {
      loading := true;
      error := None;
    }

    /** The end of a fetch: a success replaces the listings and the page
        count; a failure keeps them and shows its text. The route answers a
        success with a listing body. */
    method ApplyResponse(fetch: PageFetch)
      requires fetch.Answered? && 200 <= fetch.status < 300 ==> fetch.body.Listing?
      modifies this
      ensures !loading
      ensures FailureText(fetch).Some? ==> error == FailureText(fetch) && officeListings == old(officeListings)
                                           && totalPages == old(totalPages)
      ensures FailureText(fetch).None? ==> error == old(error) && officeListings == fetch.body.data
                                           && totalPages == fetch.body.metadata.totalPages
      ensures currentPage == old(currentPage) && filters == old(filters)
    {
      match fetch {
        case Answered(status, body) =>
          if !(200 <= status < 300) {
            var message := if body.Failure? && body.error != "" then body.error
                           else if body.Failure? && body.message != "" then body.message
                           else "Failed to fetch office listings";
            error := Some(message);
          } else {
            officeListings := body.data;
            totalPages := body.metadata.totalPages;
          }
        case Threw(message) =>
          error := Some(if message.None? then "An unknown error occurred" else message.value);
      }
      loading := false;
    }

    /** `handleFilterChange`: one filter changes and the page goes back to 1. */
    method HandleFilterChange(c: FilterChange)
      modifies this
      ensures filters == WithChange(old(filters), c) && currentPage == 1
      ensures officeListings == old(officeListings) && totalPages == old(totalPages)
      ensures loading == old(loading) && error == old(error)
    {
      filters := WithChange(filters, c);
      currentPage := 1;
    }

    /** `handlePageChange`: only a page from 1 to `totalPages` is taken. */
    method HandlePageChange(newPage: int)
      modifies this
      ensures 0 < newPage <= old(totalPages) ==> currentPage == newPage
      ensures !(0 < newPage <= old(totalPages)) ==> currentPage == old(currentPage)
      ensures filters == old(filters) && officeListings == old(officeListings) && totalPages == old(totalPages)
      ensures loading == old(loading) && error == old(error)
    {
      if newPage > 0 && newPage <= totalPages {
        currentPage := newPage;
      }
    }

    /** "Reset Filters" and "Clear All Filters": every filter undefined, the
        page left where it is. */
    method ResetFilters()
      modifies this
      ensures filters == NoFilters
      ensures currentPage == old(currentPage) && officeListings == old(officeListings)
      ensures totalPages == old(totalPages) && loading == old(loading) && error == old(error)
    {
      filters := PageFilters(None, None, None, None, None, None, None);
    }
  }
}
