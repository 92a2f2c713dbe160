/**
 * The provider's own services screen: status filter, activate/deactivate,
 * delete, status counts, booking and view totals, and the bargaining badge.
 */
module MyServices {
  import opened Wrappers
  import opened Types
  import Seqs

  /** `status` of a listed service. */
  datatype ServiceStatus = Active | Inactive | Pending

  /** The filter buttons: all services, or those of one status. */
  datatype StatusFilter = All | Only(status: ServiceStatus)

  datatype MyService = MyService(
    id: string,
    title: string,
    description: string,
    price: string,
    category: string,
    status: ServiceStatus,
    views: nat,
    bookings: nat,
    rating: real,
    reviews: nat,
    createdAt: string,
    bargainingStatus: Option<BargainingStatus>)

  function Passes(f: StatusFilter): MyService -> bool {
    (s: MyService) => f.All? || s.status == f.status
  }

  /** `filteredServices`: every service for `All`, else exactly those with the chosen status, in order. */
  function Filtered(ss: seq<MyService>, f: StatusFilter): (r: seq<MyService>)
    ensures f.All? ==> r == ss
    ensures f.Only? ==> forall i :: 0 <= i < |r| ==> r[i].status == f.status && r[i] in ss
    ensures f.Only? ==> forall i :: 0 <= i < |ss| && ss[i].status == f.status ==> ss[i] in r
    ensures Seqs.IsSubsequence(r, ss)
  {
    var r := Seqs.Filter(ss, Passes(f));
    assert f.All? ==> r == ss by {
      if f.All? {
        Seqs.FilterKeepsAll(ss, Passes(f));
      }
    }
    r
  }

  /** The number of services with status `st`. */
  function CountStatus(ss: seq<MyService>, st: ServiceStatus): nat {
    |Filtered(ss, Only(st))|
  }

  /** Active, pending and inactive counts add up to the total, since every service has exactly one of the three statuses. */
  lemma {:induction false} CountsCoverAll(ss: seq<MyService>)
    ensures CountStatus(ss, Active) + CountStatus(ss, Pending) + CountStatus(ss, Inactive) == |ss|
  {
    if ss != [] {
      CountsCoverAll(ss[1..]);
    }
  }

  /** What the Activate/Deactivate item does to a status: active becomes inactive and anything else active. */
  function Toggled(st: ServiceStatus): (r: ServiceStatus)
    ensures r != st
    ensures (r == Inactive) <==> (st == Active)
  {
    if st == Active then Inactive else Active
  }

  /** Toggling twice restores an active or inactive service but leaves a pending one inactive. */
  lemma ToggleTwice(st: ServiceStatus)
    ensures Toggled(Toggled(st)) == if st == Pending then Inactive else st
  {
  }

  /** The menu item's caption, which says what toggling will do. */
  function ToggleCaption(st: ServiceStatus): (caption: string)
    ensures caption == "Deactivate" <==> Toggled(st) == Inactive
  {
    if st == Active then "Deactivate" else "Activate"
  }

  /** `toggleServiceStatus(id)`: the services with that id have their status toggled; nothing else changes. */
  function ToggleStatus(ss: seq<MyService>, id: string): (r: seq<MyService>)
    ensures |r| == |ss|
    ensures forall i :: 0 <= i < |ss| && ss[i].id != id ==> r[i] == ss[i]
    ensures forall i :: 0 <= i < |ss| && ss[i].id == id ==>
      r[i].status == Toggled(ss[i].status) && r[i].(status := ss[i].status) == ss[i]
  {
    if ss == [] then []
    else
      var s := ss[0];
      [if s.id == id then s.(status := Toggled(s.status)) else s] + ToggleStatus(ss[1..], id)
  }

  /** Toggling the same service twice restores the list unless that service was pending. */
  lemma ToggleTwiceRestores(ss: seq<MyService>, id: string)
    requires forall i :: 0 <= i < |ss| && ss[i].id == id ==> ss[i].status != Pending
    ensures ToggleStatus(ToggleStatus(ss, id), id) == ss
  {
    var r := ToggleStatus(ToggleStatus(ss, id), id);
    forall i | 0 <= i < |ss|
      ensures r[i] == ss[i]
    {
      if ss[i].id == id {
        ToggleTwice(ss[i].status);
      }
    }
  }

  /** `deleteService(id)`: the services with that id are removed and the rest keep their order. */
  function Delete(ss: seq<MyService>, id: string): (r: seq<MyService>)
    ensures forall i :: 0 <= i < |r| ==> r[i].id != id && r[i] in ss
    ensures forall i :: 0 <= i < |ss| && ss[i].id != id ==> ss[i] in r
    ensures Seqs.IsSubsequence(r, ss)
  {
    Seqs.Filter(ss, (s: MyService) => s.id != id)
  }

  function Bookings(s: MyService): int {
    s.bookings
  }

  function Views(s: MyService): int {
    s.views
  }

  /** The "Total Bookings" figure. */
  function TotalBookings(ss: seq<MyService>): int {
    Seqs.Sum(ss, Bookings)
  }

  /** The "Total Views" figure. */
  function TotalViews(ss: seq<MyService>): int {
    Seqs.Sum(ss, Views)
  }

  /** Activating or deactivating a service changes neither total. */
  lemma {:induction false} ToggleKeepsTotals(ss: seq<MyService>, id: string)
    ensures TotalBookings(ToggleStatus(ss, id)) == TotalBookings(ss)
    ensures TotalViews(ToggleStatus(ss, id)) == TotalViews(ss)
  {
    if ss != [] {
      var r := ToggleStatus(ss, id);
      assert r[1..] == ToggleStatus(ss[1..], id);
      ToggleKeepsTotals(ss[1..], id);
    }
  }

  /** Both totals are sums of non-negative counts, and deleting a service never raises them. */
  lemma {:induction false} DeleteLowersTotals(ss: seq<MyService>, id: string)
    ensures 0 <= TotalBookings(Delete(ss, id)) <= TotalBookings(ss)
    ensures 0 <= TotalViews(Delete(ss, id)) <= TotalViews(ss)
  {
    if ss != [] {
      DeleteLowersTotals(ss[1..], id);
      if ss[0].id != id {
        var rest := Delete(ss[1..], id);
        assert Delete(ss, id) == [ss[0]] + rest;
        assert ([ss[0]] + rest)[1..] == rest;
      }
    }
  }

  /** The colour of a status badge; an unknown status name is grey. */
  function StatusColor(statusName: string): (color: string)
    ensures color == "#9E9E9E" <==> statusName !in {"active", "inactive", "pending"}
  {
    match statusName
    case "active" => "#4CAF50"
    case "inactive" => "#FF9800"
    case "pending" => "#2196F3"
    case _ => "#9E9E9E"
  }

  /** The bargaining badge: shown once bargaining has begun, with "Bargaining Rejected" as the fall-through. */
  function BadgeLabel(status: Option<BargainingStatus>): (badge: Option<string>)
    ensures badge.Some? <==> IsBargaining(status)
    ensures badge == Some("Bargaining Rejected") <==> status == Some(StatusRejected)
  {
    match status
    case Some(StatusPending) => Some("Bargaining Pending")
    case Some(StatusInProgress) => Some("Negotiating")
    case Some(StatusAccepted) => Some("Price Agreed")
    case Some(StatusRejected) => Some("Bargaining Rejected")
    case _ => None
  }

  /** The screen's three initial services. */
  const InitialServices: seq<MyService> := [
    MyService("1", "Professional House Cleaning",
      "Thorough cleaning of all rooms, kitchen, and bathrooms. Eco-friendly products used.",
      "$50/hr", "Cleaning", Active, 124, 8, 4.8, 12, "2024-01-15", None),
    MyService("2", "Deep Carpet Cleaning", "Professional carpet cleaning with steam extraction method.",
      "$75/job", "Cleaning", Active, 89, 5, 4.6, 8, "2024-01-20", None),
    MyService("3", "Plumbing Repair Service", "Fix leaks, unclog drains, and general plumbing maintenance.",
      "$40/hr", "Plumbing", Pending, 45, 0, 0.0, 0, "2024-02-01", None)
  ]

  /** The initial figures: 13 bookings, 258 views, two active and one pending service. */
  lemma InitialFigures()
    ensures TotalBookings(InitialServices) == 13 && TotalViews(InitialServices) == 258
    ensures CountStatus(InitialServices, Active) == 2 && CountStatus(InitialServices, Pending) == 1
    ensures CountStatus(InitialServices, Inactive) == 0
  {
    assert InitialServices[1..][1..][1..] == [];
  }

  /** The screen's state: the services and the selected filter. */
  class MyServicesScreen {
    var services: seq<MyService>
    var filter: StatusFilter

    constructor ()
      ensures services == InitialServices && filter == All
    {
      services := InitialServices;
      filter := All;
    }

    /** The services listed under the current filter. */
    function Shown(): seq<MyService>
      reads this
    {
      Filtered(services, filter)
    }

    method SetFilter(f: StatusFilter)
      modifies this
      ensures filter == f && services == old(services)
    {
      filter := f;
    }

    method ToggleServiceStatus(id: string)
      modifies this
      ensures services == ToggleStatus(old(services), id) && filter == old(filter)
      ensures TotalBookings(services) == TotalBookings(old(services))
      ensures TotalViews(services) == TotalViews(old(services))
    {
      ToggleKeepsTotals(services, id);
      services := ToggleStatus(services, id);
    }

    /** Delete confirmed in the alert. */
    method DeleteService(id: string)
      modifies this
      ensures services == Delete(old(services), id) && filter == old(filter)
    {
      services := Delete(services, id);
    }
  }
}
