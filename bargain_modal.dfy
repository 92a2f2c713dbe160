/**
 * The price-negotiation modal: who may make an offer in which status, how a
 * typed price and message become a pending offer, which offers show
 * Accept/Reject, and which prices and labels are displayed.
 */
module BargainModal {
  import opened Wrappers
  import opened Types
  import Text
  import JsNumbers

  /** The status banner's text; anything other than the four active statuses reads "No Bargaining". */
  function StatusText(status: Option<BargainingStatus>): (text: string)
    ensures text == "No Bargaining" <==> !IsBargaining(status)
  {
    match status
    case Some(StatusPending) => "Bargaining Request Pending"
    case Some(StatusInProgress) => "Bargaining in Progress"
    case Some(StatusAccepted) => "Price Agreed"
    case Some(StatusRejected) => "Bargaining Rejected"
    case _ => "No Bargaining"
  }

  /** The status banner's colour, grey for anything but the four active statuses. */
  function StatusColor(status: Option<BargainingStatus>): (color: string)
    ensures color == "#9E9E9E" <==> !IsBargaining(status)
  {
    match status
    case Some(StatusPending) => "#FFA500"
    case Some(StatusInProgress) => "#2196F3"
    case Some(StatusAccepted) => "#4CAF50"
    case Some(StatusRejected) => "#F44336"
    case _ => "#9E9E9E"
  }

  /** Every active status has a banner text of its own. */
  lemma StatusTextInjective(a: Option<BargainingStatus>, b: Option<BargainingStatus>)
    requires IsBargaining(a) && IsBargaining(b)
    requires StatusText(a) == StatusText(b)
    ensures a == b
  {
  }

  /**
   * The offer-section guard exactly as the modal writes it: an absent status is not
   * compared with `none`, so a seeker cannot start bargaining on such a service.
   */
  predicate CanMakeOfferAsWritten(status: Option<BargainingStatus>, role: Role) {
    status == Some(StatusInProgress) || (status == Some(StatusNone) && role == Seeker)
  }

  /**
   * The offer-section guard with an absent status read as `none`, the reading the
   * detail screen's button applies.
   */
  predicate CanMakeOffer(status: Option<BargainingStatus>, role: Role) {
    CanMakeOfferAsWritten(Some(StatusOrNone(status)), role)
  }

  /** Offers can be made while negotiating, or by a seeker before bargaining has begun. */
  lemma CanMakeOfferCases(status: Option<BargainingStatus>, role: Role)
    ensures CanMakeOffer(status, role) <==>
      status == Some(StatusInProgress) || (!IsBargaining(status) && role == Seeker)
    ensures status.Some? ==> (CanMakeOffer(status, role) <==> CanMakeOfferAsWritten(status, role))
  {
  }

  /** A pending, accepted or rejected negotiation takes no new offer, whoever asks. */
  lemma NoOfferWhenSettledOrPending(status: Option<BargainingStatus>, role: Role)
    requires status in {Some(StatusPending), Some(StatusAccepted), Some(StatusRejected)}
    ensures !CanMakeOffer(status, role) && !CanMakeOfferAsWritten(status, role)
  {
  }

  /** A provider never opens a negotiation. */
  lemma ProviderCannotOpen(status: Option<BargainingStatus>)
    requires !IsBargaining(status)
    ensures !CanMakeOffer(status, Provider)
  {
  }

  /** The as-written guard refuses a seeker on a service whose status is absent. */
  lemma AbsentStatusRefusedAsWritten()
    ensures !CanMakeOfferAsWritten(None, Seeker)
    ensures CanMakeOffer(None, Seeker)
  {
  }

  /** `parseFloat` result accepted by `isNaN(price) || price <= 0`, exactly as written. */
  predicate ValidPriceAsWritten(price: JsNumbers.Number) {
    match price
    case NaN => false
    case Finite(v) => v > 0.0
    case PositiveInfinity => true
    case NegativeInfinity => false
  }

  /** A price the alert calls valid: a finite positive amount. */
  predicate ValidOfferPrice(price: JsNumbers.Number) {
    price.Finite? && price.value > 0.0
  }

  /** The word "Infinity" passes the written check although it is no price amount. */
  lemma InfinityPassesAsWritten()
    ensures ValidPriceAsWritten(JsNumbers.ParseFloat("Infinity"))
    ensures !ValidOfferPrice(JsNumbers.ParseFloat("Infinity"))
  {
    JsNumbers.ParseFloatInfinity();
  }

  /** The two checks agree on every finite number and on NaN. */
  lemma ValidPriceChecksAgree(price: JsNumbers.Number)
    requires !price.PositiveInfinity?
    ensures ValidPriceAsWritten(price) <==> ValidOfferPrice(price)
  {
  }

  /** The sender name an offer carries. */
  function SenderName(role: Role): string {
    if role == Provider then "Service Provider" else "You"
  }

  /** `offerMessage.trim() || undefined`. */
  function OfferMessage(text: string): (m: Option<string>)
    ensures m == None <==> Text.IsBlank(text)
    ensures m.Some? ==> m.value == Text.Trim(text) && m.value != []
  {
    Text.TrimEmptyIffBlank(text);
    var t := Text.Trim(text);
    if t == [] then None else Some(t)
  }

  /**
   * The offer sent for the typed price and message: none when the price is not a
   * finite positive number, otherwise a pending offer from the current user.
   */
  function BuildOffer(priceText: string, messageText: string, userId: string, role: Role): (r: Option<OfferDraft>)
    ensures r.Some? <==> ValidOfferPrice(JsNumbers.ParseFloat(priceText))
    ensures r.Some? ==>
      r.value.status == OfferPending && r.value.userId == userId && r.value.userType == role &&
      r.value.price == JsNumbers.ParseFloat(priceText).value && r.value.price > 0.0 &&
      r.value.userName == SenderName(role)
    ensures r.Some? ==> (r.value.message == None <==> Text.IsBlank(messageText))
    ensures r.Some? && r.value.message.Some? ==> r.value.message.value == Text.Trim(messageText)
  {
    var price := JsNumbers.ParseFloat(priceText);
    if !ValidOfferPrice(price) then None
    else Some(OfferDraft(userId, SenderName(role), role, price.value, OfferMessage(messageText), OfferPending))
  }

  /** Typing the decimal form of a positive whole amount sends an offer of exactly that amount. */
  lemma WholeAmountOffer(amount: nat, messageText: string, userId: string, role: Role)
    requires amount > 0
    ensures BuildOffer(JsNumbers.NumberToString(amount), messageText, userId, role).Some?
    ensures BuildOffer(JsNumbers.NumberToString(amount), messageText, userId, role).value.price == amount as real
  {
    JsNumbers.ParseFloatOfNumberToString(amount);
  }

  /** Accept and Reject are shown for a pending offer made by someone else. */
  predicate ShowsResponseActions(offer: BargainingOffer, currentUserId: string) {
    offer.status == OfferPending && offer.userId != currentUserId
  }

  /** Nobody is offered Accept or Reject on their own offer, nor on a settled one. */
  lemma NoSelfAcceptance(offer: BargainingOffer, currentUserId: string)
    ensures offer.userId == currentUserId ==> !ShowsResponseActions(offer, currentUserId)
    ensures offer.status != OfferPending ==> !ShowsResponseActions(offer, currentUserId)
  {
  }

  /** The price shown as "Original". */
  function OriginalPrice(service: Service): (p: real)
    ensures Types.Truthy(service.initialPrice) ==> p == service.initialPrice.value
    ensures !Types.Truthy(service.initialPrice) ==> p == service.price
  {
    Or(service.initialPrice, service.price)
  }

  /** The price shown as "Current". */
  function CurrentPrice(service: Service): (p: real)
    ensures Types.Truthy(service.currentPrice) ==> p == service.currentPrice.value
    ensures !Types.Truthy(service.currentPrice) ==> p == service.price
  {
    Or(service.currentPrice, service.price)
  }

  /** The history section is shown when there is at least one offer in it. */
  predicate ShowsHistory(service: Service) {
    service.bargainingHistory.Some? && |service.bargainingHistory.value| > 0
  }

  /** The offer section's heading. */
  function OfferSectionTitle(status: Option<BargainingStatus>): (title: string)
    ensures title == "Set Your Price" <==> status == Some(StatusNone)
  {
    if status == Some(StatusNone) then "Set Your Price" else "Make an Offer"
  }

  /** The send button's text. */
  function SendButtonText(status: Option<BargainingStatus>): (text: string)
    ensures text == "Set Price & Start Bargaining" <==> status == Some(StatusNone)
  {
    if status == Some(StatusNone) then "Set Price & Start Bargaining" else "Send Offer"
  }

  /** The price and message inputs of the modal. */
  class OfferForm {
    var offerPrice: string
    var offerMessage: string

    constructor ()
      ensures offerPrice == [] && offerMessage == []
    {
      offerPrice := [];
      offerMessage := [];
    }

    method SetOfferPrice(text: string)
      modifies this
      ensures offerPrice == text && offerMessage == old(offerMessage)
    {
      offerPrice := text;
    }

    method SetOfferMessage(text: string)
      modifies this
      ensures offerMessage == text && offerPrice == old(offerPrice)
    {
      offerMessage := text;
    }

    /**
     * Send pressed: an invalid price sends nothing and keeps both inputs; a valid one
     * sends the offer built from them and clears both inputs.
     */
    method SendOffer(userId: string, role: Role) returns (sent: Option<OfferDraft>)
      modifies this
      ensures sent == BuildOffer(old(offerPrice), old(offerMessage), userId, role)
      ensures sent.None? ==> offerPrice == old(offerPrice) && offerMessage == old(offerMessage)
      ensures sent.Some? ==> offerPrice == [] && offerMessage == []
    {
      sent := BuildOffer(offerPrice, offerMessage, userId, role);
      if sent.Some? {
        offerPrice := [];
        offerMessage := [];
      }
    }
  }
}
