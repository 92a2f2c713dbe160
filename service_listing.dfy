/**
 * The service listing screen: the search over the built-in services and the
 * sort by rating, price or number of reviews.
 */
module ServiceListing {
  import Seqs
  import Text
  import JsNumbers
  import Sorting

  datatype ListedService = ListedService(
    id: string,
    title: string,
    provider: string,
    rating: real,
    reviews: nat,
    price: string,
    location: string,
    description: string)

  const MockServices: seq<ListedService> := [
    ListedService("1", "Professional House Cleaning", "Sarah Johnson", 4.8, 24, "$50/hr", "Lagos, Nigeria",
      "Thorough cleaning of all rooms, kitchen, and bathrooms. Eco-friendly products used."),
    ListedService("2", "Deep Carpet Cleaning", "Mike Wilson", 4.6, 18, "$75/job", "Lagos, Nigeria",
      "Professional carpet cleaning with steam extraction. Removes tough stains and odors."),
    ListedService("3", "Office Cleaning Service", "Emma Davis", 4.9, 32, "$40/hr", "Lagos, Nigeria",
      "Regular office cleaning including desks, floors, and restrooms. Flexible scheduling."),
    ListedService("4", "Window Cleaning", "David Brown", 4.7, 15, "$30/hr", "Lagos, Nigeria",
      "Interior and exterior window cleaning. Streak-free results guaranteed.")
  ]

  /** A service matches when its title or its provider contains the query, ignoring case. */
  predicate ServiceMatches(s: ListedService, query: string) {
    Text.Matches(s.title, query) || Text.Matches(s.provider, query)
  }

  function MatchesQuery(query: string): ListedService -> bool {
    (s: ListedService) => ServiceMatches(s, query)
  }

  /** `filteredServices`: exactly the matching services, in their original order. */
  function Filtered(query: string): (r: seq<ListedService>)
    ensures forall i :: 0 <= i < |r| ==> ServiceMatches(r[i], query) && r[i] in MockServices
    ensures forall i :: 0 <= i < |MockServices| && ServiceMatches(MockServices[i], query) ==> MockServices[i] in r
    ensures Seqs.IsSubsequence(r, MockServices)
  {
    Seqs.Filter(MockServices, MatchesQuery(query))
  }

  /** An empty query keeps every service. */
  lemma EmptyQueryKeepsAll()
    ensures Filtered("") == MockServices
  {
    forall s | s in MockServices
      ensures MatchesQuery("")(s)
    {
      Text.EmptyQueryMatches(s.title);
    }
    Seqs.FilterKeepsAll(MockServices, MatchesQuery(""));
  }

  /** The sort buttons. */
  datatype SortBy = ByRating | ByPrice | ByReviews

  predicate IsPriceChar(c: char) {
    JsNumbers.IsDigit(c) || c == '.'
  }

  /** `price.replace(/[^0-9.]/g, '')`: the digits and points of the price, in order. */
  function PriceDigits(price: string): (r: string)
    ensures forall i :: 0 <= i < |r| ==> IsPriceChar(r[i])
    ensures Seqs.IsSubsequence(r, price)
  {
    Seqs.Filter(price, IsPriceChar)
  }

  /** The number the price comparator reads from a price; a price with no digit counts as 0. */
  function PriceKey(s: ListedService): real {
    match JsNumbers.ParseFloat(PriceDigits(s.price))
    case Finite(v) => v
    case _ => 0.0
  }

  /**
   * The ascending key the comparator orders by: `b.rating - a.rating` and
   * `b.reviews - a.reviews` sort descending, the price comparator ascending.
   */
  function SortKey(order: SortBy): ListedService -> real {
    match order
    case ByRating => (s: ListedService) => -s.rating
    case ByPrice => PriceKey
    case ByReviews => (s: ListedService) => -(s.reviews as real)
  }

  /** `sortedServices`: a sorted copy of the filtered list. */
  function Sorted(query: string, order: SortBy): (r: seq<ListedService>)
    ensures multiset(r) == multiset(Filtered(query))
    ensures order == ByRating ==> forall i, j :: 0 <= i < j < |r| ==> r[i].rating >= r[j].rating
    ensures order == ByReviews ==> forall i, j :: 0 <= i < j < |r| ==> r[i].reviews >= r[j].reviews
    ensures order == ByPrice ==> forall i, j :: 0 <= i < j < |r| ==> PriceKey(r[i]) <= PriceKey(r[j])
  {
    var r := Sorting.SortByKey(Filtered(query), SortKey(order));
    assert forall i, j :: 0 <= i < j < |r| ==> SortKey(order)(r[i]) <= SortKey(order)(r[j]);
    r
  }

  /** A price whose digits spell `n` reads as `n`. */
  lemma PriceKeyOf(s: ListedService, n: nat)
    requires PriceDigits(s.price) == JsNumbers.NumberToString(n)
    ensures PriceKey(s) == n as real
  {
    JsNumbers.ParseFloatOfNumberToString(n);
  }

  /** The dollar amounts the built-in prices are written with. */
  const MockAmounts: seq<real> := [50.0, 75.0, 40.0, 30.0]

  /** Every built-in price reads as its dollar amount. */
  lemma MockPricesParse()
    ensures forall i :: 0 <= i < |MockServices| ==> PriceKey(MockServices[i]) == MockAmounts[i]
  {
    forall i | 0 <= i < |MockServices|
      ensures PriceKey(MockServices[i]) == MockAmounts[i]
    {
      var s := MockServices[i];
      if i == 0 {
        MockPrice(s, '5', '0', "/hr", 50);
      } else if i == 1 {
        MockPrice(s, '7', '5', "/job", 75);
      } else if i == 2 {
        MockPrice(s, '4', '0', "/hr", 40);
      } else {
        MockPrice(s, '3', '0', "/hr", 30);
      }
    }
  }

  lemma MockPrice(s: ListedService, d1: char, d2: char, unit: string, n: nat)
    requires s.price == ['$', d1, d2] + unit
    requires JsNumbers.IsDigit(d1) && JsNumbers.IsDigit(d2) && d1 != '0'
    requires forall i :: 0 <= i < |unit| ==> !IsPriceChar(unit[i])
    requires n == 10 * JsNumbers.DigitValue(d1) + JsNumbers.DigitValue(d2)
    ensures PriceKey(s) == n as real
  {
    DollarPrice(d1, d2, unit, n);
    PriceKeyOf(s, n);
  }

  /** A price written `$`, two digits and a unit keeps just the two digits. */
  lemma DollarPrice(d1: char, d2: char, unit: string, n: nat)
    requires JsNumbers.IsDigit(d1) && JsNumbers.IsDigit(d2) && d1 != '0'
    requires forall i :: 0 <= i < |unit| ==> !IsPriceChar(unit[i])
    requires n == 10 * JsNumbers.DigitValue(d1) + JsNumbers.DigitValue(d2)
    ensures PriceDigits(['$', d1, d2] + unit) == [d1, d2] == JsNumbers.NumberToString(n)
  {
    var s := ['$', d1, d2] + unit;
    assert Seqs.Filter(unit, IsPriceChar) == [] by {
      UnitDropped(unit);
    }
    assert s[1..] == [d1, d2] + unit && s[1..][1..] == [d2] + unit && s[1..][1..][1..] == unit;
    assert !IsPriceChar('$') && IsPriceChar(d1) && IsPriceChar(d2);
    assert Seqs.Filter(s[1..][1..], IsPriceChar) == [d2] + [];
    assert Seqs.Filter(s[1..], IsPriceChar) == [d1] + [d2];
    assert Seqs.Filter(s, IsPriceChar) == [d1, d2];
    assert n / 10 == JsNumbers.DigitValue(d1) && n % 10 == JsNumbers.DigitValue(d2);
    assert JsNumbers.DigitChar(n / 10) == d1 && JsNumbers.DigitChar(n % 10) == d2;
    assert JsNumbers.NumberToString(n / 10) == [d1];
    assert JsNumbers.NumberToString(n) == JsNumbers.NumberToString(n / 10) + [JsNumbers.DigitChar(n % 10)];
  }

  lemma {:induction false} UnitDropped(unit: string)
    requires forall i :: 0 <= i < |unit| ==> !IsPriceChar(unit[i])
    ensures Seqs.Filter(unit, IsPriceChar) == []
  {
    if unit != [] {
      UnitDropped(unit[1..]);
    }
  }
}
