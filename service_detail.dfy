/**
 * The service detail screen: the bargaining button's guard and text, the price
 * block, the action buttons for owners and customers, and the forwarding of the
 * modal's offer, accept and reject events to optional handlers.
 */
module ServiceDetail {
  import opened Wrappers
  import opened Types
  import BargainModal

  /** The bargain button is offered before bargaining to a seeker, and while pending or negotiating to anyone. */
  predicate CanBargain(status: Option<BargainingStatus>, role: Role) {
    (StatusOrNone(status) == StatusNone && role == Seeker) ||
    status == Some(StatusInProgress) || status == Some(StatusPending)
  }

  /** `canBargain` holds exactly in these cases and never once the price is agreed or bargaining rejected. */
  lemma CanBargainCases(status: Option<BargainingStatus>, role: Role)
    ensures CanBargain(status, role) <==>
      (!IsBargaining(status) && role == Seeker) || status == Some(StatusPending) || status == Some(StatusInProgress)
    ensures status == Some(StatusAccepted) || status == Some(StatusRejected) ==> !CanBargain(status, role)
  {
  }

  /** The bargain button's text; an absent status reads as `none`. */
  function BargainButtonText(status: Option<BargainingStatus>, role: Role): (text: string)
    ensures !IsBargaining(status) ==>
      text == (if role == Seeker then "Set Price & Bargain" else "Bargaining Not Available")
    ensures IsBargaining(status) ==> text != "Set Price & Bargain" && text != "Bargaining Not Available"
  {
    if StatusOrNone(status) == StatusNone then
      (if role == Seeker then "Set Price & Bargain" else "Bargaining Not Available")
    else if status == Some(StatusPending) then "Bargaining Pending"
    else if status == Some(StatusInProgress) then "Continue Bargaining"
    else if status == Some(StatusAccepted) then "Price Agreed"
    else "Bargaining Rejected"
  }

  /** Each active status has a button text of its own, so the text determines the status. */
  lemma BargainButtonTextInjective(a: Option<BargainingStatus>, b: Option<BargainingStatus>, role: Role)
    requires IsBargaining(a) && IsBargaining(b)
    requires BargainButtonText(a, role) == BargainButtonText(b, role)
    ensures a == b
  {
  }

  /**
   * The modal's offer form is a stricter guard than the button: whenever an offer can
   * be made, the button is shown, and the button without the form means a pending status.
   */
  lemma OfferGuardWithinButtonGuard(status: Option<BargainingStatus>, role: Role)
    ensures BargainModal.CanMakeOffer(status, role) ==> CanBargain(status, role)
    ensures CanBargain(status, role) && !BargainModal.CanMakeOffer(status, role) <==> status == Some(StatusPending)
  {
  }

  /** As the modal writes its guard, the button also opens an empty form for a seeker on an absent status. */
  lemma ButtonWithoutFormAsWritten()
    ensures CanBargain(None, Seeker) && !BargainModal.CanMakeOfferAsWritten(None, Seeker)
  {
  }

  /** The price label reads "Current Price" once bargaining has begun. */
  function PriceLabel(status: Option<BargainingStatus>): (caption: string)
    ensures caption == "Current Price" <==> IsBargaining(status)
  {
    if IsBargaining(status) then "Current Price" else "Price"
  }

  /** The "Original" price line appears once bargaining has begun and an initial price is set. */
  predicate ShowsOriginalPrice(service: Service) {
    IsBargaining(service.bargainingStatus) && Truthy(service.initialPrice)
  }

  /** The price displayed and quoted in the booking prompt is the one the modal calls current. */
  function DisplayedPrice(service: Service): (p: real)
    ensures p == BargainModal.CurrentPrice(service)
    ensures p == service.price || (service.currentPrice == Some(p) && p != 0.0)
  {
    Or(service.currentPrice, service.price)
  }

  datatype Action = Contact | Bargain | BookNow | EditService | DeleteService

  /** The action buttons, in screen order. */
  function Actions(isOwnService: bool, status: Option<BargainingStatus>, role: Role): (actions: seq<Action>)
    ensures isOwnService ==> actions == [EditService, DeleteService]
    ensures !isOwnService ==> |actions| >= 2 && actions[0] == Contact && actions[|actions| - 1] == BookNow
    ensures Bargain in actions <==> !isOwnService && CanBargain(status, role)
  {
    if isOwnService then [EditService, DeleteService]
    else if CanBargain(status, role) then [Contact, Bargain, BookNow]
    else [Contact, BookNow]
  }

  /** Owners never see customer actions and customers never see owner actions. */
  lemma ActionsSeparateRoles(isOwnService: bool, status: Option<BargainingStatus>, role: Role)
    ensures isOwnService <==> EditService in Actions(isOwnService, status, role)
    ensures isOwnService <==> Contact !in Actions(isOwnService, status, role)
    ensures isOwnService <==> BookNow !in Actions(isOwnService, status, role)
  {
  }

  /** A call made to one of the screen's optional callbacks. */
  datatype Forwarded =
    | BargainPressed(service: Service)
    | OfferSent(serviceId: string, offer: OfferDraft)
    | AcceptForwarded(serviceId: string, offerId: string)
    | RejectForwarded(serviceId: string, offerId: string)

  /** Accept pressed on an offer: forwarded with the service id only when a handler is supplied. */
  function AcceptOffer(service: Service, offerId: string, hasHandler: bool): (call: Option<Forwarded>)
    ensures call.Some? <==> hasHandler
    ensures call.Some? ==> call.value.AcceptForwarded? && call.value.serviceId == service.id && call.value.offerId == offerId
  {
    if hasHandler then Some(AcceptForwarded(service.id, offerId)) else None
  }

  /** Reject pressed on an offer: forwarded with the service id only when a handler is supplied. */
  function RejectOffer(service: Service, offerId: string, hasHandler: bool): (call: Option<Forwarded>)
    ensures call.Some? <==> hasHandler
    ensures call.Some? ==> call.value.RejectForwarded? && call.value.serviceId == service.id && call.value.offerId == offerId
  {
    if hasHandler then Some(RejectForwarded(service.id, offerId)) else None
  }

  /** The screen's own state: whether the bargaining modal is open. */
  class DetailScreen {
    var showBargainModal: bool

    constructor ()
      ensures !showBargainModal
    {
      showBargainModal := false;
    }

    /** The bargain button: hands the service to the handler when there is one, else opens the modal. */
    method HandleBargainPress(service: Service, hasHandler: bool) returns (call: Option<Forwarded>)
      modifies this
      ensures hasHandler ==> call == Some(BargainPressed(service)) && showBargainModal == old(showBargainModal)
      ensures !hasHandler ==> call == None && showBargainModal
    {
      if hasHandler {
        call := Some(BargainPressed(service));
      } else {
        call := None;
        showBargainModal := true;
      }
    }

    /** An offer from the modal: forwarded with the service id when a handler is supplied; the modal closes either way. */
    method HandleSendOffer(service: Service, offer: OfferDraft, hasHandler: bool) returns (call: Option<Forwarded>)
      modifies this
      ensures call.Some? <==> hasHandler
      ensures call.Some? ==> call.value == OfferSent(service.id, offer)
      ensures !showBargainModal
    {
      call := if hasHandler then Some(OfferSent(service.id, offer)) else None;
      showBargainModal := false;
    }

    /** The modal's close button. */
    method HandleClose()
      modifies this
      ensures !showBargainModal
    {
      showBargainModal := false;
    }
  }
}
