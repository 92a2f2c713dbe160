/**
 * The help and support screen: the frequently asked questions, filtered by
 * category and by a search, and the accordion that expands one answer.
 */
module HelpSupport {
  import opened Wrappers
  import Seqs
  import Text
  import JsNumbers

  datatype FaqItem = FaqItem(id: string, question: string, answer: string, category: string)

  const FaqData: seq<FaqItem> := [
    FaqItem("1", "How do I create a service listing?",
      "To create a service listing, go to the \"Offer Skills\" section from the main screen, tap the \"+\" button, and fill in your service details including title, description, price, and category.",
      "Getting Started"),
    FaqItem("2", "How do I book a service?",
      "Browse services in the \"Find Services\" section, select a category, choose a service provider, and tap \"Book Now\" to send a booking request.",
      "Booking"),
    FaqItem("3", "How do I contact a service provider?",
      "You can contact service providers by tapping the \"Contact\" button on their service details page. This will open a chat conversation.",
      "Communication"),
    FaqItem("4", "How do I get paid for my services?",
      "Set up your payment methods in the Profile section under \"Payment Methods\". You can add bank accounts, cards, or mobile money options.",
      "Payments"),
    FaqItem("5", "How do I cancel a booking?",
      "Go to your Bookings section, find the booking you want to cancel, and tap the \"Cancel\" button. Note that cancellation policies may apply.",
      "Booking"),
    FaqItem("6", "How do I rate and review a service?",
      "After completing a service, you can rate and review it in your Bookings section. Tap on the completed booking and select \"Rate & Review\".",
      "Reviews"),
    FaqItem("7", "What if I have a dispute with a service provider?",
      "Contact our support team immediately. We have a dispute resolution process to help resolve conflicts between users and service providers.",
      "Support"),
    FaqItem("8", "How do I update my profile information?",
      "Go to Profile > Edit Profile to update your personal information, bio, specialties, and other profile details.",
      "Profile")
  ]

  /** The category buttons; `all` selects every category. */
  const Categories: seq<string> :=
    ["all", "Getting Started", "Booking", "Communication", "Payments", "Reviews", "Support", "Profile"]

  predicate InCategory(faq: FaqItem, category: string) {
    category == "all" || faq.category == category
  }

  predicate SearchMatches(faq: FaqItem, query: string) {
    Text.Matches(faq.question, query) || Text.Matches(faq.answer, query)
  }

  predicate Shown(faq: FaqItem, category: string, query: string) {
    InCategory(faq, category) && SearchMatches(faq, query)
  }

  function ShownBy(category: string, query: string): FaqItem -> bool {
    (faq: FaqItem) => Shown(faq, category, query)
  }

  /** `filteredFAQs`: the questions in the selected category that match the search, in order. */
  function Filtered(category: string, query: string): (r: seq<FaqItem>)
    ensures forall i :: 0 <= i < |r| ==> InCategory(r[i], category) && SearchMatches(r[i], query) && r[i] in FaqData
    ensures forall i :: 0 <= i < |FaqData| && InCategory(FaqData[i], category) && SearchMatches(FaqData[i], query) ==>
      FaqData[i] in r
    ensures Seqs.IsSubsequence(r, FaqData)
  {
    Seqs.Filter(FaqData, ShownBy(category, query))
  }

  /** The `all` category with an empty search shows every question, in order. */
  lemma AllCategoriesEmptyQuery()
    ensures Filtered("all", "") == FaqData
    ensures |Filtered("all", "")| == 8
  {
    KeepsEvery(FaqData);
  }

  lemma KeepsEvery(faqs: seq<FaqItem>)
    ensures Seqs.Filter(faqs, ShownBy("all", "")) == faqs
  {
    forall faq | faq in faqs
      ensures ShownBy("all", "")(faq)
    {
      Text.EmptyQueryMatches(faq.question);
    }
    Seqs.FilterKeepsAll(faqs, ShownBy("all", ""));
  }

  const HeaderPrefix := "Frequently Asked Questions ("

  /** The section title, which shows the number of questions listed. */
  function FaqHeader(category: string, query: string): (title: string)
    ensures |title| > |HeaderPrefix| + 1 && title[..|HeaderPrefix|] == HeaderPrefix && title[|title| - 1] == ')'
  {
    HeaderPrefix + JsNumbers.NumberToString(|Filtered(category, query)|) + ")"
  }

  /** The digits in the section title read back as the length of the list below it. */
  lemma HeaderCountsList(category: string, query: string)
    ensures var title := FaqHeader(category, query);
      JsNumbers.AllDigits(title[|HeaderPrefix|..|title| - 1]) &&
      JsNumbers.DigitsValue(title[|HeaderPrefix|..|title| - 1]) == |Filtered(category, query)|
  {
    var n := |Filtered(category, query)|;
    var title := FaqHeader(category, query);
    assert title[|HeaderPrefix|..|title| - 1] == JsNumbers.NumberToString(n);
    JsNumbers.NumberToStringRoundTrip(n);
  }

  /** `toggleFAQ`: pressing the expanded question collapses it; pressing any other expands that one. */
  function ToggleFaq(expanded: Option<string>, id: string): (r: Option<string>)
    ensures r == None <==> expanded == Some(id)
    ensures r.Some? ==> r.value == id
  {
    if expanded == Some(id) then None else Some(id)
  }

  /** Pressing the same question twice returns the accordion to where it was. */
  lemma ToggleTwice(expanded: Option<string>, id: string)
    requires expanded == None || expanded == Some(id)
    ensures ToggleFaq(ToggleFaq(expanded, id), id) == expanded
  {
  }

  /** An answer is open exactly when its id is the expanded one. */
  predicate IsExpanded(expanded: Option<string>, faq: FaqItem) {
    expanded == Some(faq.id)
  }

  /** The built-in questions have distinct ids. */
  lemma FaqIdsDistinct()
    ensures forall i, j :: 0 <= i < j < |FaqData| ==> FaqData[i].id != FaqData[j].id
  {
    forall i, j | 0 <= i < j < |FaqData|
      ensures FaqData[i].id != FaqData[j].id
    {
      assert FaqData[i].id == ["12345678"[i]];
      assert FaqData[j].id == ["12345678"[j]];
    }
  }

  /** However the questions are pressed, at most one built-in answer is open. */
  lemma AtMostOneExpanded(expanded: Option<string>, i: nat, j: nat)
    requires i < |FaqData| && j < |FaqData|
    requires IsExpanded(expanded, FaqData[i]) && IsExpanded(expanded, FaqData[j])
    ensures i == j
  {
    FaqIdsDistinct();
  }

  class HelpSupportScreen {
    var searchQuery: string
    var selectedCategory: string
    var expandedFaq: Option<string>

    constructor ()
      ensures searchQuery == "" && selectedCategory == "all" && expandedFaq == None
    {
      searchQuery := "";
      selectedCategory := "all";
      expandedFaq := None;
    }

    function Listed(): (r: seq<FaqItem>)
      reads this
      ensures Seqs.IsSubsequence(r, FaqData)
    {
      Filtered(selectedCategory, searchQuery)
    }

    method SetSearchQuery(query: string)
      modifies this
      ensures searchQuery == query
      ensures selectedCategory == old(selectedCategory) && expandedFaq == old(expandedFaq)
    {
      searchQuery := query;
    }

    method SelectCategory(category: string)
      modifies this
      ensures selectedCategory == category
      ensures searchQuery == old(searchQuery) && expandedFaq == old(expandedFaq)
    {
      selectedCategory := category;
    }

    /** The press handler of a question. */
    method ToggleFaqItem(id: string)
      modifies this
      ensures expandedFaq == ToggleFaq(old(expandedFaq), id)
      ensures searchQuery == old(searchQuery) && selectedCategory == old(selectedCategory)
    {
      expandedFaq := if expandedFaq == Some(id) then None else Some(id);
    }
  }
}
