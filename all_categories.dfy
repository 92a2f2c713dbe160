/**
 * The all-categories screen: the search over the sixteen built-in categories
 * and the two statistics above them.
 */
module AllCategories {
  import Seqs
  import Text

  datatype ServiceCategory = ServiceCategory(
    id: string,
    name: string,
    icon: string,
    color: string,
    description: string,
    serviceCount: nat)

  const AllCategoriesList: seq<ServiceCategory> := [
    ServiceCategory("1", "Cleaning Services", "", "#4A90E2", "Professional cleaning for homes and offices", 24),
    ServiceCategory("2", "Laundry Services", "", "#4A90E2", "Wash, dry, and fold laundry services", 12),
    ServiceCategory("3", "Plumbing Services", "", "#4A90E2", "Repairs, installations, and maintenance", 18),
    ServiceCategory("4", "Electrical Services", "", "#4A90E2", "Electrical repairs and installations", 15),
    ServiceCategory("5", "Carpentry Services", "", "#4A90E2", "Custom woodwork and furniture repair", 8),
    ServiceCategory("6", "Delivery Services", "", "#4A90E2", "Package and food delivery", 32),
    ServiceCategory("7", "Painting Services", "", "#4A90E2", "Interior and exterior painting", 14),
    ServiceCategory("8", "Gardening Services", "", "#4A90E2", "Landscaping and garden maintenance", 9),
    ServiceCategory("9", "Cooking Services", "", "#4A90E2", "Personal chef and catering", 16),
    ServiceCategory("10", "Tutoring Services", "", "#4A90E2", "Academic and skill tutoring", 21),
    ServiceCategory("11", "Photography Services", "", "#4A90E2", "Professional photography and videography", 13),
    ServiceCategory("12", "Pet Care Services", "", "#4A90E2", "Pet walking, grooming, and sitting", 7),
    ServiceCategory("13", "Beauty Services", "", "#4A90E2", "Hair, makeup, and beauty treatments", 19),
    ServiceCategory("14", "Fitness Services", "", "#4A90E2", "Personal training and fitness coaching", 11),
    ServiceCategory("15", "IT Services", "", "#4A90E2", "Computer repair and tech support", 6),
    ServiceCategory("16", "Moving Services", "", "#4A90E2", "Moving and relocation assistance", 10)
  ]

  /** A category matches when its name or its description contains the query, ignoring case. */
  predicate CategoryMatches(c: ServiceCategory, query: string) {
    Text.Matches(c.name, query) || Text.Matches(c.description, query)
  }

  function MatchesQuery(query: string): ServiceCategory -> bool {
    (c: ServiceCategory) => CategoryMatches(c, query)
  }

  /** `filteredCategories`: exactly the matching categories, in their original order. */
  function Filtered(query: string): (r: seq<ServiceCategory>)
    ensures forall i :: 0 <= i < |r| ==> CategoryMatches(r[i], query) && r[i] in AllCategoriesList
    ensures forall i :: 0 <= i < |AllCategoriesList| && CategoryMatches(AllCategoriesList[i], query) ==>
      AllCategoriesList[i] in r
    ensures Seqs.IsSubsequence(r, AllCategoriesList)
  {
    Seqs.Filter(AllCategoriesList, MatchesQuery(query))
  }

  /** An empty query keeps every category, in order. */
  lemma EmptyQueryKeepsAll()
    ensures Filtered("") == AllCategoriesList
  {
    forall c | c in AllCategoriesList
      ensures MatchesQuery("")(c)
    {
      Text.EmptyQueryMatches(c.name);
    }
    Seqs.FilterKeepsAll(AllCategoriesList, MatchesQuery(""));
  }

  function ServiceCount(c: ServiceCategory): int {
    c.serviceCount
  }

  /** The "Total Services" statistic. */
  function TotalServices(cs: seq<ServiceCategory>): int {
    Seqs.Sum(cs, ServiceCount)
  }

  /** The service counts of the built-in categories, in list order. */
  const Counts: seq<int> := [24, 12, 18, 15, 8, 32, 14, 9, 16, 21, 13, 7, 19, 11, 6, 10]

  /** A number as its own summand. */
  function Value(x: int): int {
    x
  }

  /** The statistics read 16 categories and 235 services. */
  lemma Statistics()
    ensures |AllCategoriesList| == 16
    ensures TotalServices(AllCategoriesList) == 235
  {
    ListCounts();
    TotalIsCountSum(AllCategoriesList, Counts);
    CountsTotal();
  }

  lemma ListCounts()
    ensures |AllCategoriesList| == |Counts|
    ensures forall i :: 0 <= i < |Counts| ==> AllCategoriesList[i].serviceCount == Counts[i]
  {
  }

  lemma CountsTotal()
    ensures Seqs.Sum(Counts, Value) == 235
  {
    var a, b, c, d := [24, 12, 18, 15], [8, 32, 14, 9], [16, 21, 13, 7], [19, 11, 6, 10];
    SumOfFour(24, 12, 18, 15);
    SumOfFour(8, 32, 14, 9);
    SumOfFour(16, 21, 13, 7);
    SumOfFour(19, 11, 6, 10);
    assert Counts == a + b + c + d;
    Seqs.SumAppend(a, b, Value);
    Seqs.SumAppend(a + b, c, Value);
    Seqs.SumAppend(a + b + c, d, Value);
  }

  lemma SumOfFour(w: int, x: int, y: int, z: int)
    ensures Seqs.Sum([w, x, y, z], Value) == w + x + y + z
  {
    assert [z][1..] == [];
    assert Seqs.Sum([z], Value) == z;
    assert [y, z][1..] == [z];
    assert Seqs.Sum([y, z], Value) == y + z;
    assert [x, y, z][1..] == [y, z];
    assert Seqs.Sum([x, y, z], Value) == x + y + z;
    assert [w, x, y, z][1..] == [x, y, z];
  }

  /** Summing the categories' counts is summing their count column. */
  lemma {:induction false} TotalIsCountSum(cs: seq<ServiceCategory>, xs: seq<int>)
    requires |cs| == |xs|
    requires forall i :: 0 <= i < |xs| ==> cs[i].serviceCount == xs[i]
    ensures TotalServices(cs) == Seqs.Sum(xs, Value)
  {
    if cs != [] {
      TotalIsCountSum(cs[1..], xs[1..]);
    }
  }
}
