/** The two listing tables of the hosted store. Each record has the columns
    of its table; `?` columns are `Option`s, numbers are integers, and
    `created_at` is a time in milliseconds. `RentalRow` and `OfficeRow` give
    the column-name view the query builder filters on (what `select('*')`
    returns), with SQL NULL for an absent optional column. */
module DatabaseTypes {
  import opened Wrappers

  /** One cell of a row. */
  datatype Value = Null | Str(s: string) | Num(n: int) | Flag(b: bool) | Texts(items: seq<string>)

  type Row = map<string, Value>

  datatype RentalListing = RentalListing(
    id: string,
    property_type: string,
    street_address: string,
    city: string,
    state: string,
    zip_code: string,
    neighborhood: Option<string>,
    monthly_rent: int,
    security_deposit: int,
    utilities: Option<seq<string>>,
    utilities_cost: Option<int>,
    bedrooms: int,
    bathrooms: int,
    square_feet: int,
    parking: Option<bool>,
    parking_fee: Option<int>,
    pet_friendly: Option<bool>,
    pet_deposit: Option<int>,
    amenities: Option<seq<string>>,
    minimum_lease: Option<int>,
    available_date: string,
    application_fee: Option<int>,
    property_management: Option<string>,
    contact_phone: Option<string>,
    contact_email: Option<string>,
    latitude: Option<int>,
    longitude: Option<int>,
    nearby_transportation: Option<seq<string>>,
    created_at: int,
    user_id: Option<string>,
    property_category: Option<string>,
    office_type: Option<string>,
    desk_capacity: Option<int>,
    meeting_rooms: Option<int>,
    has_reception: Option<bool>,
    internet_speed: Option<string>,
    office_amenities: Option<seq<string>>,
    available_hours: Option<string>)

  datatype OfficeListing = OfficeListing(
    id: string,
    property_type: string,
    office_type: string,
    street_address: string,
    city: string,
    state: string,
    zip_code: string,
    neighborhood: Option<string>,
    monthly_rent: int,
    security_deposit: int,
    utilities_cost: Option<int>,
    square_feet: int,
    desk_capacity: int,
    meeting_rooms: Option<int>,
    has_reception: Option<bool>,
    internet_speed: Option<string>,
    parking: Option<bool>,
    parking_fee: Option<int>,
    minimum_lease: Option<int>,
    available_date: string,
    available_hours: Option<string>,
    application_fee: Option<int>,
    property_management: Option<string>,
    contact_phone: Option<string>,
    contact_email: Option<string>,
    latitude: Option<int>,
    longitude: Option<int>,
    created_at: int,
    user_id: Option<string>)

  function OptStr(o: Option<string>): Value {
    if o.Some? then Str(o.value) else Null
  }

  function OptNum(o: Option<int>): Value {
    if o.Some? then Num(o.value) else Null
  }

  function OptFlag(o: Option<bool>): Value {
    if o.Some? then Flag(o.value) else Null
  }

  function OptTexts(o: Option<seq<string>>): Value {
    if o.Some? then Texts(o.value) else Null
  }

  const RentalColumns: set<string> := {
    "id", "property_type", "street_address", "city", "state", "zip_code", "neighborhood",
    "monthly_rent", "security_deposit", "utilities", "utilities_cost", "bedrooms", "bathrooms",
    "square_feet", "parking", "parking_fee", "pet_friendly", "pet_deposit", "amenities",
    "minimum_lease", "available_date", "application_fee", "property_management", "contact_phone",
    "contact_email", "latitude", "longitude", "nearby_transportation", "created_at", "user_id",
    "property_category", "office_type", "desk_capacity", "meeting_rooms", "has_reception",
    "internet_speed", "office_amenities", "available_hours"
  }

  const OfficeColumns: set<string> := {
    "id", "property_type", "office_type", "street_address", "city", "state", "zip_code",
    "neighborhood", "monthly_rent", "security_deposit", "utilities_cost", "square_feet",
    "desk_capacity", "meeting_rooms", "has_reception", "internet_speed", "parking", "parking_fee",
    "minimum_lease", "available_date", "available_hours", "application_fee", "property_management",
    "contact_phone", "contact_email", "latitude", "longitude", "created_at", "user_id"
  }

  /** The rental columns the listing queries name, and the one they name wrongly. */
  lemma RentalColumnFacts()
    ensures "id" in RentalColumns && "city" in RentalColumns && "monthly_rent" in RentalColumns
    ensures "property_type" in RentalColumns && "created_at" in RentalColumns
    ensures "price" !in RentalColumns
  {
  }

  /** The columns the office listing route names. */
  lemma OfficeColumnFacts()
    ensures "office_type" in OfficeColumns && "city" in OfficeColumns && "state" in OfficeColumns
    ensures "desk_capacity" in OfficeColumns && "meeting_rooms" in OfficeColumns
    ensures "monthly_rent" in OfficeColumns && "has_reception" in OfficeColumns
    ensures "internet_speed" in OfficeColumns && "created_at" in OfficeColumns
  {
  }

  /** The cell of column `c` of a rental listing (the columns the queries
      look at come first). */
  function RentalCell(l: RentalListing, c: string): Value {
    if c == "id" then Str(l.id)
    else if c == "city" then Str(l.city)
    else if c == "monthly_rent" then Num(l.monthly_rent)
    else if c == "property_type" then Str(l.property_type)
    else if c == "created_at" then Num(l.created_at)
    else if c == "street_address" then Str(l.street_address)
    else if c == "state" then Str(l.state)
    else if c == "zip_code" then Str(l.zip_code)
    else if c == "neighborhood" then OptStr(l.neighborhood)
    else if c == "security_deposit" then Num(l.security_deposit)
    else if c == "utilities" then OptTexts(l.utilities)
    else if c == "utilities_cost" then OptNum(l.utilities_cost)
    else if c == "bedrooms" then Num(l.bedrooms)
    else if c == "bathrooms" then Num(l.bathrooms)
    else if c == "square_feet" then Num(l.square_feet)
    else if c == "parking" then OptFlag(l.parking)
    else if c == "parking_fee" then OptNum(l.parking_fee)
    else if c == "pet_friendly" then OptFlag(l.pet_friendly)
    else if c == "pet_deposit" then OptNum(l.pet_deposit)
    else if c == "amenities" then OptTexts(l.amenities)
    else if c == "minimum_lease" then OptNum(l.minimum_lease)
    else if c == "available_date" then Str(l.available_date)
    else if c == "application_fee" then OptNum(l.application_fee)
    else if c == "property_management" then OptStr(l.property_management)
    else if c == "contact_phone" then OptStr(l.contact_phone)
    else if c == "contact_email" then OptStr(l.contact_email)
    else if c == "latitude" then OptNum(l.latitude)
    else if c == "longitude" then OptNum(l.longitude)
    else if c == "nearby_transportation" then OptTexts(l.nearby_transportation)
    else if c == "user_id" then OptStr(l.user_id)
    else if c == "property_category" then OptStr(l.property_category)
    else if c == "office_type" then OptStr(l.office_type)
    else if c == "desk_capacity" then OptNum(l.desk_capacity)
    else if c == "meeting_rooms" then OptNum(l.meeting_rooms)
    else if c == "has_reception" then OptFlag(l.has_reception)
    else if c == "internet_speed" then OptStr(l.internet_speed)
    else if c == "office_amenities" then OptTexts(l.office_amenities)
    else OptStr(l.available_hours)
  }

  /** A rental listing as a row of `rental_listings`: every column and nothing else. */
  function RentalRow(l: RentalListing): (row: Row)
    ensures row.Keys == RentalColumns
    ensures forall c :: c in row ==> row[c] == RentalCell(l, c)
  {
    map c | c in RentalColumns :: RentalCell(l, c)
  }

  /** The cell of column `c` of an office listing (the columns the route
      looks at come first). */
  function OfficeCell(o: OfficeListing, c: string): Value {
    if c == "office_type" then Str(o.office_type)
    else if c == "city" then Str(o.city)
    else if c == "state" then Str(o.state)
    else if c == "desk_capacity" then Num(o.desk_capacity)
    else if c == "meeting_rooms" then OptNum(o.meeting_rooms)
    else if c == "monthly_rent" then Num(o.monthly_rent)
    else if c == "has_reception" then OptFlag(o.has_reception)
    else if c == "internet_speed" then OptStr(o.internet_speed)
    else if c == "created_at" then Num(o.created_at)
    else if c == "id" then Str(o.id)
    else if c == "property_type" then Str(o.property_type)
    else if c == "street_address" then Str(o.street_address)
    else if c == "zip_code" then Str(o.zip_code)
    else if c == "neighborhood" then OptStr(o.neighborhood)
    else if c == "security_deposit" then Num(o.security_deposit)
    else if c == "utilities_cost" then OptNum(o.utilities_cost)
    else if c == "square_feet" then Num(o.square_feet)
    else if c == "parking" then OptFlag(o.parking)
    else if c == "parking_fee" then OptNum(o.parking_fee)
    else if c == "minimum_lease" then OptNum(o.minimum_lease)
    else if c == "available_date" then Str(o.available_date)
    else if c == "available_hours" then OptStr(o.available_hours)
    else if c == "application_fee" then OptNum(o.application_fee)
    else if c == "property_management" then OptStr(o.property_management)
    else if c == "contact_phone" then OptStr(o.contact_phone)
    else if c == "contact_email" then OptStr(o.contact_email)
    else if c == "latitude" then OptNum(o.latitude)
    else if c == "longitude" then OptNum(o.longitude)
    else OptStr(o.user_id)
  }

  /** An office listing as a row of `office_listings`: every column and nothing else. */
  function OfficeRow(o: OfficeListing): (row: Row)
    ensures row.Keys == OfficeColumns
    ensures forall c :: c in row ==> row[c] == OfficeCell(o, c)
  {
    map c | c in OfficeColumns :: OfficeCell(o, c)
  }

  /** The cells of a rental row the listing queries look at. */
  lemma RentalCells(l: RentalListing)
    ensures RentalRow(l)["id"] == Str(l.id) && RentalRow(l)["city"] == Str(l.city)
    ensures RentalRow(l)["monthly_rent"] == Num(l.monthly_rent)
    ensures RentalRow(l)["property_type"] == Str(l.property_type)
    ensures RentalRow(l)["created_at"] == Num(l.created_at)
    ensures "price" !in RentalRow(l)
  {
    RentalColumnFacts();
  }

  /** The cells of an office row the listing route looks at. */
  lemma OfficeCells(o: OfficeListing)
    ensures OfficeRow(o)["desk_capacity"] == Num(o.desk_capacity)
    ensures OfficeRow(o)["meeting_rooms"] == OptNum(o.meeting_rooms)
    ensures OfficeRow(o)["office_type"] == Str(o.office_type)
    ensures OfficeRow(o)["has_reception"] == OptFlag(o.has_reception)
    ensures OfficeRow(o)["internet_speed"] == OptStr(o.internet_speed)
    ensures OfficeRow(o)["city"] == Str(o.city) && OfficeRow(o)["state"] == Str(o.state)
    ensures OfficeRow(o)["monthly_rent"] == Num(o.monthly_rent)
    ensures OfficeRow(o)["created_at"] == Num(o.created_at)
  {
    OfficeColumnFacts();
  }
}
