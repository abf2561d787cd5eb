/** The listing creator: a list of room listings, an add form, and the listing cards. */
module ListingCreator {
  import opened Wrappers
  import opened Lists

  datatype Listing = Listing(
    id: string,
    title: string,
    location: string,
    rent: int,
    listingType: string,
    availableFrom: string,
    description: string,
    amenities: seq<string>,
    roommates: int,
    photos: seq<string>)

  /** The photo every new listing gets. */
  const DefaultPhoto: string := "photo-1721322800607-8c38375eef04"

  const MockListings: seq<Listing> := [
    Listing("1", "Cozy Room in Downtown Apartment", "Downtown, Seattle", 1200, "Room", "2024-07-01",
            "Beautiful room in a modern 2BR apartment with great city views. Perfect for young professionals.",
            ["WiFi", "Laundry", "Kitchen", "Parking", "Gym"], 1, [DefaultPhoto])
  ]

  /** The add-listing form; rent and roommates are still the text typed in. */
  datatype ListingForm = ListingForm(
    title: string,
    location: string,
    rent: string,
    listingType: string,
    availableFrom: string,
    description: string,
    amenities: seq<string>,
    roommates: string)

  /** The form as first shown and as reset after a submission. */
  const EmptyForm: ListingForm := ListingForm("", "", "", "room", "", "", [], "1")

  /** One text or select input of the form changed. */
  datatype FormEdit =
    | EditTitle(title: string)
    | EditLocation(location: string)
    | EditRent(rent: string)
    | EditType(listingType: string)
    | EditAvailableFrom(availableFrom: string)
    | EditRoommates(roommates: string)
    | EditDescription(description: string)

  function ApplyEdit(f: ListingForm, e: FormEdit): (r: ListingForm)
    ensures r.amenities == f.amenities
    ensures r.title == (if e.EditTitle? then e.title else f.title)
    ensures r.location == (if e.EditLocation? then e.location else f.location)
    ensures r.rent == (if e.EditRent? then e.rent else f.rent)
    ensures r.listingType == (if e.EditType? then e.listingType else f.listingType)
    ensures r.availableFrom == (if e.EditAvailableFrom? then e.availableFrom else f.availableFrom)
    ensures r.roommates == (if e.EditRoommates? then e.roommates else f.roommates)
    ensures r.description == (if e.EditDescription? then e.description else f.description)
  {
    match e
    case EditTitle(t) => f.(title := t)
    case EditLocation(l) => f.(location := l)
    case EditRent(x) => f.(rent := x)
    case EditType(t) => f.(listingType := t)
    case EditAvailableFrom(d) => f.(availableFrom := d)
    case EditRoommates(x) => f.(roommates := x)
    case EditDescription(d) => f.(description := d)
  }

  /**
   * The amenity list after `handleAmenityChange(amenity, checked)`:
   * checking appends without looking for an existing copy, unchecking
   * filters out every copy.
   */
  function AmenityChange(amenities: seq<string>, amenity: string, checked: bool): (r: seq<string>)
    ensures checked ==> |r| == |amenities| + 1 && r[..|amenities|] == amenities && r[|amenities|] == amenity
    ensures checked ==> multiset(r)[amenity] == multiset(amenities)[amenity] + 1
    ensures !checked ==> amenity !in r
    ensures forall a :: a != amenity ==> multiset(r)[a] == multiset(amenities)[a]
  {
    if checked then amenities + [amenity] else Remove(amenities, amenity)
  }

  /** Unchecking an amenity that is not listed changes nothing. */
  lemma UncheckAbsent(amenities: seq<string>, amenity: string)
    requires amenity !in amenities
    ensures AmenityChange(amenities, amenity, false) == amenities
  {
    RemoveAbsent(amenities, amenity);
  }

  /** Unchecking keeps the other amenities in their order: it distributes over any split. */
  lemma UncheckKeepsOrder(a: seq<string>, b: seq<string>, amenity: string)
    ensures AmenityChange(a + b, amenity, false) ==
            AmenityChange(a, amenity, false) + AmenityChange(b, amenity, false)
  {
    RemoveAppend(a, b, amenity);
  }

  /** There is no duplicate guard: checking twice lists the amenity twice more. */
  lemma CheckTwiceDuplicates(amenities: seq<string>, amenity: string)
    ensures multiset(AmenityChange(AmenityChange(amenities, amenity, true), amenity, true))[amenity]
            == multiset(amenities)[amenity] + 2
  {
  }

  /**
   * The listing a submission adds: the form's text fields, the parsed rent
   * and roommate count (supplied by the caller), a fresh id and the one
   * default photo.
   */
  function NewListing(f: ListingForm, id: string, rent: int, roommates: int): (l: Listing)
    ensures l.photos == [DefaultPhoto]
    ensures l.id == id && l.rent == rent && l.roommates == roommates
    ensures l.title == f.title && l.location == f.location && l.listingType == f.listingType
    ensures l.availableFrom == f.availableFrom && l.description == f.description
    ensures l.amenities == f.amenities
  {
    Listing(id, f.title, f.location, rent, f.listingType, f.availableFrom, f.description,
            f.amenities, roommates, [DefaultPhoto])
  }

  // ---------------------------------------------------------------------------
  // The listing card

  /** `amenities.slice(0, 3)`: the amenity badges shown on a card. */
  function VisibleAmenities(amenities: seq<string>): (r: seq<string>)
    ensures |r| == if |amenities| < 3 then |amenities| else 3
    ensures r == amenities[..|r|]
  {
    if |amenities| <= 3 then amenities else amenities[..3]
  }

  /** The "+n more" badge: present exactly when more than three amenities are listed. */
  function MoreBadge(amenities: seq<string>): (r: Option<int>)
    ensures r.Some? <==> |amenities| > 3
    ensures r.Some? ==> r.value == |amenities| - 3 && r.value > 0
  {
    if |amenities| > 3 then Some(|amenities| - 3) else None
  }

  /** The badges account for every amenity: those shown plus the number in "+n more". */
  lemma BadgesCoverAll(amenities: seq<string>)
    ensures |VisibleAmenities(amenities)| + MoreBadge(amenities).GetOr(0) == |amenities|
  {
  }

  /** `roommate{roommates > 1 ? 's' : ''}`. */
  function RoommateNoun(roommates: int): (noun: string)
    ensures noun == "roommates" <==> roommates > 1
    ensures noun == "roommate" <==> roommates <= 1
  {
    "roommate" + (if roommates > 1 then "s" else "")
  }

  /** The component's state. */
  class Creator {
    var showForm: bool
    var listings: seq<Listing>
    var formData: ListingForm

    constructor ()
      ensures !showForm && listings == MockListings && formData == EmptyForm
    {
      showForm := false;
      listings := MockListings;
      formData := EmptyForm;
    }

    /** The "Create Listing" button. */
    method OpenForm()
      modifies this
      ensures showForm && listings == old(listings) && formData == old(formData)
    {
      showForm := true;
    }

    /** The form's "Cancel" button. */
    method CancelForm()
      modifies this
      ensures !showForm && listings == old(listings) && formData == old(formData)
    {
      showForm := false;
    }

    /** One text or select input changed. */
    method Edit(e: FormEdit)
      modifies this
      ensures formData == ApplyEdit(old(formData), e)
      ensures listings == old(listings) && showForm == old(showForm)
    {
      formData := ApplyEdit(formData, e);
    }

    /** `handleAmenityChange`: only the form's amenity list changes. */
    method HandleAmenityChange(amenity: string, checked: bool)
      modifies this
      ensures formData == old(formData).(amenities := AmenityChange(old(formData).amenities, amenity, checked))
      ensures listings == old(listings) && showForm == old(showForm)
    {
      formData := formData.(amenities := AmenityChange(formData.amenities, amenity, checked));
    }

    /**
     * `handleSubmit`: prepend the new listing, hide the form and reset it.
     * `id` (from the clock), `rent` and `roommates` (the form's text, parsed)
     * are supplied by the caller.
     */
    method Submit(id: string, rent: int, roommates: int)
      modifies this
      ensures listings == [NewListing(old(formData), id, rent, roommates)] + old(listings)
      ensures |listings| == |old(listings)| + 1 && listings[1..] == old(listings)
      ensures listings[0].photos == [DefaultPhoto]
      ensures !showForm && formData == EmptyForm
      ensures formData.amenities == [] && formData.roommates == "1" && formData.listingType == "room"
    {
      var newListing := NewListing(formData, id, rent, roommates);
      listings := [newListing] + listings;
      assert listings[1..] == old(listings);
      showForm := false;
      formData := EmptyForm;
    }
  }
}
