/**
 * The offer-skills screen: the category search and the add-service form that
 * appends to the provider's list of services.
 */
module OfferSkills {
  import Seqs
  import Text
  import JsNumbers

  datatype SkillCategory = SkillCategory(id: string, name: string, icon: string, color: string)

  /** A service the provider adds; prices are kept as typed. */
  datatype SkillService = SkillService(
    id: string,
    title: string,
    description: string,
    price: string,
    category: string,
    images: seq<string>)

  const SkillCategories: seq<SkillCategory> := [
    SkillCategory("1", "Cleaning", "", "#4A90E2"),
    SkillCategory("2", "Plumbing", "", "#4A90E2"),
    SkillCategory("3", "Electrical", "", "#4A90E2"),
    SkillCategory("4", "Carpentry", "", "#4A90E2"),
    SkillCategory("5", "Painting", "", "#4A90E2"),
    SkillCategory("6", "Gardening", "", "#4A90E2"),
    SkillCategory("7", "Cooking", "", "#4A90E2"),
    SkillCategory("8", "Tutoring", "", "#4A90E2"),
    SkillCategory("9", "Photography", "", "#4A90E2"),
    SkillCategory("10", "Delivery", "", "#4A90E2"),
    SkillCategory("11", "Pet Care", "", "#4A90E2"),
    SkillCategory("12", "Other", "", "#4A90E2")
  ]

  function NameMatches(query: string): SkillCategory -> bool {
    (c: SkillCategory) => Text.Matches(c.name, query)
  }

  /** `filteredCategories`: exactly the categories whose name contains the query, ignoring case, in order. */
  function FilteredCategories(query: string): (r: seq<SkillCategory>)
    ensures forall i :: 0 <= i < |r| ==> Text.Matches(r[i].name, query) && r[i] in SkillCategories
    ensures forall i :: 0 <= i < |SkillCategories| && Text.Matches(SkillCategories[i].name, query) ==>
      SkillCategories[i] in r
    ensures Seqs.IsSubsequence(r, SkillCategories)
  {
    Seqs.Filter(SkillCategories, NameMatches(query))
  }

  /** An empty query lists all twelve categories in order. */
  lemma EmptyQueryListsAll()
    ensures FilteredCategories("") == SkillCategories && |SkillCategories| == 12
  {
    forall c | c in SkillCategories
      ensures NameMatches("")(c)
    {
      Text.EmptyQueryMatches(c.name);
    }
    Seqs.FilterKeepsAll(SkillCategories, NameMatches(""));
  }

  /** The add form's fields. */
  datatype ServiceForm = ServiceForm(title: string, description: string, price: string, category: string)

  const EmptyForm := ServiceForm([], [], [], [])

  /** The form passes `handleAddService`'s check: no field is empty. */
  predicate FormComplete(f: ServiceForm) {
    f.title != [] && f.description != [] && f.price != [] && f.category != []
  }

  /** The service a complete form becomes, with the id the clock gives and no images. */
  function NewService(f: ServiceForm, id: string): (s: SkillService)
    ensures s.title == f.title && s.description == f.description && s.price == f.price
    ensures s.category == f.category && s.images == [] && s.id == id
  {
    SkillService(id, f.title, f.description, f.price, f.category, [])
  }

  /** The screen's state. */
  class OfferSkillsScreen {
    var selectedCategory: string
    var searchQuery: string
    var userServices: seq<SkillService>
    var showAddService: bool
    var newService: ServiceForm

    constructor ()
      ensures selectedCategory == [] && searchQuery == [] && userServices == []
      ensures !showAddService && newService == EmptyForm
    {
      selectedCategory := [];
      searchQuery := [];
      userServices := [];
      showAddService := false;
      newService := EmptyForm;
    }

    /** The "Services Offered" stat. */
    function ServicesOffered(): nat
      reads this
    {
      |userServices|
    }

    method SetSearchQuery(query: string)
      modifies this
      ensures searchQuery == query
      ensures userServices == old(userServices) && newService == old(newService)
      ensures showAddService == old(showAddService) && selectedCategory == old(selectedCategory)
    {
      searchQuery := query;
    }

    /** The quick-add and header buttons open the form; its close and cancel buttons hide it. */
    method SetShowAddService(show: bool)
      modifies this
      ensures showAddService == show
      ensures userServices == old(userServices) && newService == old(newService)
      ensures searchQuery == old(searchQuery) && selectedCategory == old(selectedCategory)
    {
      showAddService := show;
    }

    method SetForm(f: ServiceForm)
      modifies this
      ensures newService == f
      ensures userServices == old(userServices) && showAddService == old(showAddService)
      ensures searchQuery == old(searchQuery) && selectedCategory == old(selectedCategory)
    {
      newService := f;
    }

    /**
     * The add button at clock reading `now` (milliseconds): an incomplete form changes
     * nothing; a complete one appends one service, clears the form and hides it.
     */
    method HandleAddService(now: nat) returns (added: bool)
      modifies this
      ensures added <==> FormComplete(old(newService))
      ensures !added ==>
        userServices == old(userServices) && newService == old(newService) && showAddService == old(showAddService)
      ensures added ==> userServices == old(userServices) + [NewService(old(newService), JsNumbers.NumberToString(now))]
      ensures added ==> newService == EmptyForm && !showAddService
      ensures ServicesOffered() == old(ServicesOffered()) + (if added then 1 else 0)
      ensures searchQuery == old(searchQuery) && selectedCategory == old(selectedCategory)
    {
      if !FormComplete(newService) {
        return false;
      }
      var service := NewService(newService, JsNumbers.NumberToString(now));
      userServices := userServices + [service];
      newService := EmptyForm;
      showAddService := false;
      added := true;
    }
  }
}
