/** The office listing card: the props a stored listing maps to, and the
    feature badges the card draws from its props. */
module OfficePropertyCard {
  import opened Wrappers
  import opened Text
  import opened DatabaseTypes

  /** The card's props; `None` is a prop left `undefined`. */
  datatype OfficeCardProps = OfficeCardProps(
    id: string,
    imageUrl: string,
    price: int,
    squareFeet: int,
    address: string,
    city: string,
    state: string,
    zip: string,
    officeType: string,
    deskCapacity: Option<int>,
    meetingRooms: Option<int>,
    hasReception: Option<bool>,
    internetSpeed: Option<string>,
    availableHours: Option<string>,
    amenities: Option<seq<string>>,
    isNew: Option<bool>)

  /** The image a mapped card shows unless the caller passes another. */
  const OfficePlaceholder: string := "/images/office-placeholder.jpg"

  /** Seven days in milliseconds. */
  const NewWindow: int := 7 * 24 * 60 * 60 * 1000

  /** `mapDbOfficeListingToProps(listing, placeholderImage)`; `now` is
      `Date.now()` and `placeholderImage` is `None` when not passed. */
  function MapListing(listing: OfficeListing, placeholderImage: Option<string>, now: int): (props: OfficeCardProps)
    ensures props.id == listing.id && props.address == listing.street_address
    ensures props.city == listing.city && props.state == listing.state && props.zip == listing.zip_code
    ensures props.officeType == listing.office_type && props.deskCapacity == Some(listing.desk_capacity)
    ensures props.meetingRooms == listing.meeting_rooms && props.hasReception == listing.has_reception
    ensures props.internetSpeed == listing.internet_speed && props.availableHours == listing.available_hours
    ensures props.price == listing.monthly_rent && props.squareFeet == listing.square_feet
    ensures props.imageUrl == if placeholderImage.Some? then placeholderImage.value else OfficePlaceholder
    ensures props.amenities == Some([])
    ensures props.isNew.Some? && (props.isNew.value <==> now - listing.created_at < NewWindow)
  {
    OfficeCardProps(
      listing.id,
      if placeholderImage.Some? then placeholderImage.value else OfficePlaceholder,
      listing.monthly_rent,
      listing.square_feet,
      listing.street_address,
      listing.city,
      listing.state,
      listing.zip_code,
      listing.office_type,
      Some(listing.desk_capacity),
      listing.meeting_rooms,
      listing.has_reception,
      listing.internet_speed,
      listing.available_hours,
      Some([]),
      Some(listing.created_at > now - NewWindow))
  }

  /** One feature badge. */
  datatype Badge = Reception | Amenity(text: string) | More(count: nat)

  /** The text a badge shows. */
  function BadgeText(b: Badge): string {
    match b
    case Reception => "RECEPTION"
    case Amenity(text) => text
    case More(count) => "+" + NatToText(count) + " MORE"
  }

  /** The amenity badges: the first two amenities, upper-cased. */
  function AmenityBadges(amenities: seq<string>): (bs: seq<Badge>)
    ensures |bs| == if |amenities| < 2 then |amenities| else 2
    ensures forall i :: 0 <= i < |bs| ==> bs[i] == Amenity(Upper(amenities[i]))
  {
    if amenities == [] then []
    else [Amenity(Upper(amenities[0]))] + (if |amenities| == 1 then [] else [Amenity(Upper(amenities[1]))])
  }

  /** The feature badges of a card, in order: none without amenities;
      otherwise RECEPTION when the office has one, two amenities at most,
      and a count of the others. */
  function Badges(props: OfficeCardProps): (bs: seq<Badge>)
    ensures var amenities := if props.amenities.Some? then props.amenities.value else [];
            && (amenities == [] ==> bs == [])
            && (amenities != [] ==>
                  var head := if props.hasReception == Some(true) then [Reception] else [];
                  && |bs| == |head| + |AmenityBadges(amenities)| + (if |amenities| > 2 then 1 else 0)
                  && bs[..|head|] == head
                  && bs[|head|..|head| + |AmenityBadges(amenities)|] == AmenityBadges(amenities)
                  && (|amenities| > 2 ==> bs[|bs| - 1] == More(|amenities| - 2)))
  {
    var amenities := if props.amenities.Some? then props.amenities.value else [];
    if amenities == [] then []
    else
      (if props.hasReception == Some(true) then [Reception] else [])
      + AmenityBadges(amenities)
      + (if |amenities| > 2 then [More(|amenities| - 2)] else [])
  }

  /** A card shows RECEPTION exactly when it has amenities and a reception. */
  lemma ReceptionBadgeIff(props: OfficeCardProps)
    ensures Reception in Badges(props) <==>
              props.amenities.Some? && props.amenities.value != [] && props.hasReception == Some(true)
  {
    var amenities := if props.amenities.Some? then props.amenities.value else [];
    if amenities != [] {
      var head := if props.hasReception == Some(true) then [Reception] else [];
      var middle := AmenityBadges(amenities);
      var tail := if |amenities| > 2 then [More(|amenities| - 2)] else [];
      assert Badges(props) == head + middle + tail;
      assert Reception !in middle by {
        forall i | 0 <= i < |middle| ensures middle[i] != Reception {
        }
      }
      assert Reception !in tail;
      assert Reception in head + middle + tail <==> Reception in head;
    }
  }

  /** A mapped listing has no amenities, so its card shows no badge at all,
      RECEPTION included, whatever the office offers. */
  lemma MappedCardHasNoBadges(listing: OfficeListing, placeholderImage: Option<string>, now: int)
    ensures Badges(MapListing(listing, placeholderImage, now)) == []
    ensures Reception !in Badges(MapListing(listing, placeholderImage, now))
  {
  }

  /** A listing created more than seven days ago is not new, and one created
      in the last seven days (or later than `now`) is. */
  lemma NewnessByAge(listing: OfficeListing, now: int)
    ensures MapListing(listing, None, now).isNew == Some(listing.created_at + NewWindow > now)
  {
  }
}
