/** `GET /api/office-properties/featured`: the four most recent office
    listings as a bare array, or a 500 whose body holds only the error text. */
module OfficeFeaturedRoute {
  import opened Wrappers
  import opened DatabaseTypes
  import opened Store
  import opened Handler
  import opened OfficePropertiesRoute

  /** How many listings the route shows. */
  const FeaturedCount: int := 4

  /** The body: the listings themselves, without an envelope, or `{ error }`. */
  datatype FeaturedBody = Offices(listings: seq<OfficeListing>) | ErrorBody(error: string)

  /** All office listings, newest first. */
  function OfficesByAge(rows: seq<OfficeListing>): seq<OfficeListing> {
    SortNewestFirst(OfficeRow, "created_at", rows)
  }

  /** The response against the table `db`; `isErrorInstance` says whether
      the store's error value is an `Error` object. */
  function GetFeatured(db: Table<OfficeListing>, isErrorInstance: bool): (r: Response<FeaturedBody>)
    ensures r.status == 200 <==> db.outage.None?
    ensures db.outage.None? ==> r.body == Offices(OfficesByAge(db.rows)[..Clamp(FeaturedCount, |db.rows|)])
    ensures db.outage.Some? ==> r == Response(500, ErrorBody(ErrorText(db.outage.value, isErrorInstance)))
  {
    OfficeColumnFacts();
    Latest(OfficeSchema, db, "created_at", FeaturedCount);
    match Execute(OfficeSchema, db, Select(false).OrderDesc("created_at").Limit(FeaturedCount))
    case Err(e) => Response(500, ErrorBody(ErrorText(e, isErrorInstance)))
    case Ok(answer) => Response(200, Offices(answer.rows))
  }

  /** A successful answer holds the four newest listings (all of them when
      there are fewer), newest first: no listing left out is newer than one
      shown. */
  lemma FeaturedOfficesAreNewest(db: Table<OfficeListing>, isErrorInstance: bool)
    requires db.outage.None?
    ensures var shown := GetFeatured(db, isErrorInstance).body.listings;
            && |shown| == (if |db.rows| < FeaturedCount then |db.rows| else FeaturedCount)
            && ListingsNewestFirst(shown)
            && multiset(shown) <= multiset(db.rows)
            && forall x, y :: x in db.rows && x !in shown && y in shown ==> y.created_at >= x.created_at
  {
    var sorted := OfficesByAge(db.rows);
    var n := Clamp(FeaturedCount, |db.rows|);
    var shown := sorted[..n];
    assert GetFeatured(db, isErrorInstance).body.listings == shown;
    LatestBounds(OfficeRow, "created_at", db.rows, FeaturedCount);
    OfficeNewestFirst(shown);
    OfficeNewestFirst(sorted);
    var createdAt := (o: OfficeListing) => o.created_at;
    PrefixIsNewest(createdAt, db.rows, sorted, n);
    forall x, y | x in db.rows && x !in shown && y in shown ensures y.created_at >= x.created_at {
      assert createdAt(y) >= createdAt(x);
    }
  }
}
