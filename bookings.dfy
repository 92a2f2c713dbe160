/**
 * The bookings screen: the built-in bookings split into an upcoming and a
 * past tab, the status badge's colour and icon, and the extra action a
 * booking card offers.
 */
module Bookings {
  import opened Wrappers
  import Seqs

  datatype Status = Pending | Confirmed | InProgress | Completed | Cancelled

  /** The status as the booking record spells it. */
  function StatusName(st: Status): string {
    match st
    case Pending => "pending"
    case Confirmed => "confirmed"
    case InProgress => "in-progress"
    case Completed => "completed"
    case Cancelled => "cancelled"
  }

  datatype Booking = Booking(
    id: string,
    serviceTitle: string,
    providerName: string,
    date: string,
    time: string,
    status: Status,
    price: string,
    location: string,
    description: string)

  const MockBookings: seq<Booking> := [
    Booking("1", "House Cleaning", "Sarah Johnson", "2024-01-15", "10:00 AM", Confirmed, "$50",
      "Lagos, Nigeria", "Deep cleaning of 3-bedroom apartment"),
    Booking("2", "Plumbing Repair", "Mike Wilson", "2024-01-16", "2:00 PM", Pending, "$75",
      "Lagos, Nigeria", "Fix kitchen sink leak"),
    Booking("3", "Electrical Work", "David Brown", "2024-01-10", "9:00 AM", Completed, "$120",
      "Lagos, Nigeria", "Install new light fixtures")
  ]

  /** Reads a status back from its spelling; `None` for any other string. */
  function ParseStatus(status: string): (r: Option<Status>)
    ensures r.Some? ==> StatusName(r.value) == status
    ensures r.None? ==> forall st :: StatusName(st) != status
  {
    if status == "pending" then Some(Pending)
    else if status == "confirmed" then Some(Confirmed)
    else if status == "in-progress" then Some(InProgress)
    else if status == "completed" then Some(Completed)
    else if status == "cancelled" then Some(Cancelled)
    else None
  }

  /** Every status reads back from its spelling. */
  lemma ParseStatusName(st: Status)
    ensures ParseStatus(StatusName(st)) == Some(st)
  {
  }

  const DefaultColor := "#666"
  const DefaultIcon := "help-circle-outline"

  /** `getStatusColor`, which takes any string and falls back to grey. */
  function StatusColor(status: string): (color: string)
    ensures color == DefaultColor <==> ParseStatus(status) == None
  {
    if status == "pending" then "#FFA500"
    else if status == "confirmed" then "#4CAF50"
    else if status == "in-progress" then "#2196F3"
    else if status == "completed" then "#9C27B0"
    else if status == "cancelled" then "#F44336"
    else DefaultColor
  }

  /** `getStatusIcon`, which takes any string and falls back to a question mark. */
  function StatusIcon(status: string): (icon: string)
    ensures icon == DefaultIcon <==> ParseStatus(status) == None
  {
    if status == "pending" then "time-outline"
    else if status == "confirmed" then "checkmark-circle-outline"
    else if status == "in-progress" then "play-circle-outline"
    else if status == "completed" then "checkmark-done-outline"
    else if status == "cancelled" then "close-circle-outline"
    else DefaultIcon
  }

  /** Different statuses get different badges: colour and icon each tell the status apart. */
  lemma BadgesDistinct(a: Status, b: Status)
    requires a != b
    ensures StatusColor(StatusName(a)) != StatusColor(StatusName(b))
    ensures StatusIcon(StatusName(a)) != StatusIcon(StatusName(b))
  {
  }

  /** The extra button a card shows beside "View Details". */
  function ExtraAction(st: Status): (action: Option<string>)
    ensures action.Some? <==> st in {Pending, Confirmed, Completed}
  {
    match st
    case Pending => Some("Cancel")
    case Confirmed => Some("Reschedule")
    case Completed => Some("Rate & Review")
    case InProgress => None
    case Cancelled => None
  }

  predicate IsUpcoming(b: Booking) {
    b.status == Pending || b.status == Confirmed || b.status == InProgress
  }

  predicate IsPast(b: Booking) {
    b.status == Completed || b.status == Cancelled
  }

  /** `upcomingBookings`. */
  function Upcoming(bs: seq<Booking>): (r: seq<Booking>)
    ensures forall i :: 0 <= i < |r| ==> r[i].status in {Pending, Confirmed, InProgress} && r[i] in bs
    ensures forall i :: 0 <= i < |bs| && bs[i].status in {Pending, Confirmed, InProgress} ==> bs[i] in r
    ensures Seqs.IsSubsequence(r, bs)
  {
    Seqs.Filter(bs, IsUpcoming)
  }

  /** `pastBookings`. */
  function Past(bs: seq<Booking>): (r: seq<Booking>)
    ensures forall i :: 0 <= i < |r| ==> r[i].status in {Completed, Cancelled} && r[i] in bs
    ensures forall i :: 0 <= i < |bs| && bs[i].status in {Completed, Cancelled} ==> bs[i] in r
    ensures Seqs.IsSubsequence(r, bs)
  {
    Seqs.Filter(bs, IsPast)
  }

  /** Every booking is in exactly one tab, and the two tab counts add up to all bookings. */
  lemma TabsPartition(bs: seq<Booking>)
    ensures forall b :: b in Upcoming(bs) ==> b !in Past(bs)
    ensures forall b :: b in bs ==> b in Upcoming(bs) || b in Past(bs)
    ensures |Upcoming(bs)| + |Past(bs)| == |bs|
  {
    InListPasses(Upcoming(bs), IsUpcoming);
    InListPasses(Past(bs), IsPast);
    forall b | b in bs
      ensures b in Upcoming(bs) || b in Past(bs)
    {
      var i :| 0 <= i < |bs| && bs[i] == b;
    }
    Seqs.FilterComplement(bs, IsUpcoming, IsPast);
  }

  lemma InListPasses(r: seq<Booking>, p: Booking -> bool)
    requires forall i :: 0 <= i < |r| ==> p(r[i])
    ensures forall b :: b in r ==> p(b)
  {
    forall b | b in r
      ensures p(b)
    {
      var i :| 0 <= i < |r| && r[i] == b;
    }
  }

  datatype Tab = UpcomingTab | PastTab

  /** The list the selected tab shows. */
  function Listed(tab: Tab, bs: seq<Booking>): (r: seq<Booking>)
    ensures forall b :: b in r ==> (b in Upcoming(bs) <==> tab == UpcomingTab)
  {
    TabsPartition(bs);
    match tab
    case UpcomingTab => Upcoming(bs)
    case PastTab => Past(bs)
  }

  /** The tabs on the built-in bookings read "Upcoming (2)" and "Past (1)". */
  lemma MockTabCounts()
    ensures |Upcoming(MockBookings)| == 2
    ensures |Past(MockBookings)| == 1
  {
    var bs := MockBookings;
    assert bs[1..][1..] == bs[2..];
    assert bs[2..][1..] == [];
  }
}
