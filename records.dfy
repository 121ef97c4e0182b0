/** The data model of the addon: the rows of `house.location` (a property
    listing) and `house.location.offer` (a bid on one), with their selection
    fields. Partners, users, tags and types are referred to by opaque ids;
    dates are day numbers. */
module Records {
  import opened Common

  type PartnerId = nat
  type UserId = nat
  /** A record id: the position of the record in its table. */
  type RecordId = nat

  /** The `state` selection of a property. */
  datatype State = New | OfferReceived | OfferAccepted | Sold | Canceled

  /** The stored value of each `state` selection entry. */
  function StateName(s: State): string
  {
    match s
    case New => "new"
    case OfferReceived => "offer received"
    case OfferAccepted => "offer accepted"
    case Sold => "sold"
    case Canceled => "canceled"
  }

  /** Reads a stored `state` value back; anything else is not a state. */
  function ParseState(name: string): Option<State>
  {
    if name == "new" then Some(New)
    else if name == "offer received" then Some(OfferReceived)
    else if name == "offer accepted" then Some(OfferAccepted)
    else if name == "sold" then Some(Sold)
    else if name == "canceled" then Some(Canceled)
    else None
  }

  /** The stored names identify the states: parsing undoes naming and
      a parsed name is the name of what it parses to. */
  lemma StateNameRoundTrip(s: State, name: string)
    ensures ParseState(StateName(s)) == Some(s)
    ensures ParseState(name) == Some(s) ==> StateName(s) == name
  {
  }

  datatype Orientation = North | South | East | West

  /** The `status` selection of an offer; an offer starts with none. */
  datatype OfferStatus = Accepted | Refused

  /** One `house.location` row. A selling price of 0 is the unset value of
      the float field. */
  datatype Property = Property(
    name: string,
    description: string,
    postcode: string,
    dateAvailability: int,
    expectedPrice: int,
    sellingPrice: int,
    bedrooms: int,
    livingArea: int,
    facades: int,
    garage: bool,
    garden: bool,
    gardenArea: int,
    gardenOrientation: Option<Orientation>,
    active: bool,
    state: State,
    totalArea: int,
    bestPrice: int,
    propertyTypeId: Option<RecordId>,
    tagIds: set<RecordId>,
    salesperson: UserId,
    buyer: Option<PartnerId>)

  /** The writable fields a caller passes when creating a property; `state`,
      `selling_price`, `buyer` and the computed fields are not among them. */
  datatype PropertyVals = PropertyVals(
    name: string,
    description: string,
    postcode: string,
    dateAvailability: int,
    expectedPrice: int,
    bedrooms: int,
    livingArea: int,
    facades: int,
    garage: bool,
    garden: bool,
    gardenArea: int,
    gardenOrientation: Option<Orientation>,
    active: bool,
    propertyTypeId: Option<RecordId>,
    tagIds: set<RecordId>,
    salesperson: UserId)

  /** One `house.location.offer` row; `propertyId` is the parent listing. */
  datatype Offer = Offer(
    price: int,
    status: Option<OfferStatus>,
    partner: PartnerId,
    propertyId: RecordId,
    createDate: int,
    validity: int,
    deadline: int)

  /** The fields a caller passes when creating an offer. */
  datatype OfferVals = OfferVals(
    price: int,
    partner: PartnerId,
    propertyId: RecordId,
    validity: int)

  /** Every offer's parent listing exists. */
  predicate Linked(offers: seq<Offer>, properties: seq<Property>)
  {
    forall k :: 0 <= k < |offers| ==> offers[k].propertyId < |properties|
  }
}
