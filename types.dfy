/**
 * The shared record types of the app: users, services with their optional
 * bargaining fields, bargaining offers, reviews, bookings and onboarding slides.
 * Date-valued fields are not modelled.
 */
module Types {
  import opened Wrappers

  /** `userType` of a user or an offer: exactly provider or seeker. */
  datatype Role = Provider | Seeker

  /** `bargainingStatus` of a service; the field itself is optional. */
  datatype BargainingStatus = StatusNone | StatusPending | StatusInProgress | StatusAccepted | StatusRejected

  /** `status` of a bargaining offer. */
  datatype OfferStatus = OfferPending | OfferAccepted | OfferRejected

  datatype User = User(
    id: string,
    name: string,
    email: string,
    phone: string,
    userType: Role,
    profileImage: Option<string>,
    location: Option<string>,
    rating: Option<real>)

  datatype Review = Review(id: string, userId: string, userName: string, rating: real, comment: string)

  datatype BargainingOffer = BargainingOffer(
    id: string,
    userId: string,
    userName: string,
    userType: Role,
    price: real,
    message: Option<string>,
    status: OfferStatus)

  /** An offer before its caller assigns `id` and `timestamp`. */
  datatype OfferDraft = OfferDraft(
    userId: string,
    userName: string,
    userType: Role,
    price: real,
    message: Option<string>,
    status: OfferStatus)

  datatype Service = Service(
    id: string,
    title: string,
    description: string,
    category: string,
    price: real,
    provider: User,
    images: seq<string>,
    location: string,
    rating: real,
    reviews: seq<Review>,
    availability: seq<string>,
    initialPrice: Option<real>,
    currentPrice: Option<real>,
    bargainingStatus: Option<BargainingStatus>,
    employerId: Option<string>,
    bargainingHistory: Option<seq<BargainingOffer>>)

  datatype BookingStatus = BookingPending | BookingConfirmed | BookingCompleted | BookingCancelled

  datatype Booking = Booking(
    id: string,
    serviceId: string,
    seekerId: string,
    providerId: string,
    time: string,
    status: BookingStatus,
    totalAmount: real,
    notes: Option<string>)

  datatype OnboardingSlide = OnboardingSlide(id: int, title: string, description: string, image: string)

  /** JavaScript truthiness of an optional number: present and not zero. */
  predicate Truthy(x: Option<real>) {
    x.Some? && x.value != 0.0
  }

  /** `x || fallback` for an optional number. */
  function Or(x: Option<real>, fallback: real): (r: real)
    ensures Truthy(x) ==> r == x.value
    ensures !Truthy(x) ==> r == fallback
  {
    if Truthy(x) then x.value else fallback
  }

  /** The result of `x || fallback` is the fallback or a non-zero value of `x`. */
  lemma OrChoices(x: Option<real>, fallback: real)
    ensures Or(x, fallback) == fallback || (x == Some(Or(x, fallback)) && Or(x, fallback) != 0.0)
    ensures Or(x, fallback) == 0.0 ==> fallback == 0.0
  {
  }

  /** A status that is present and not `none`: bargaining has begun. */
  predicate IsBargaining(status: Option<BargainingStatus>) {
    status.Some? && status.value != StatusNone
  }

  /** Treats an absent status as `none`. */
  function StatusOrNone(status: Option<BargainingStatus>): (s: BargainingStatus)
    ensures s == StatusNone <==> !IsBargaining(status)
    ensures IsBargaining(status) ==> status == Some(s)
  {
    status.GetOr(StatusNone)
  }
}
