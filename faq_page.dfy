/**
 * The FAQ page (src/app/faq/page.tsx): the list filtered by category and
 * search text, the set of expanded answers, and the clear-filters reset.
 */
module FaqPage {
  import opened Common

  datatype FaqItem = FaqItem(id: int, question: string, answer: string, category: string)

  const AllCategories: string := "All"

  /** The page's state cells. */
  datatype FaqView = FaqView(activeCategory: string, openItems: seq<int>, searchQuery: string)

  const InitialView: FaqView := FaqView(AllCategories, [], "")

  predicate MatchesCategory(active: string, faq: FaqItem) {
    active == AllCategories || faq.category == active
  }

  /** The empty query matches everything; otherwise a case-insensitive substring of the question or answer. */
  predicate MatchesSearch(query: string, faq: FaqItem) {
    query == "" || Includes(Lower(faq.question), Lower(query)) || Includes(Lower(faq.answer), Lower(query))
  }

  predicate Shown(v: FaqView, faq: FaqItem) {
    MatchesCategory(v.activeCategory, faq) && MatchesSearch(v.searchQuery, faq)
  }

  /** `filteredFAQs`: the shown items, in the order of the list. */
  function FilteredFaqs(faqs: seq<FaqItem>, v: FaqView): (r: seq<FaqItem>)
    ensures Subsequence(r, faqs)
    ensures forall x :: multiset(r)[x] == if Shown(v, x) then multiset(faqs)[x] else 0
  {
    Filter(faqs, (x: FaqItem) => Shown(v, x))
  }

  /** Every category and the empty search show the whole list in its order. */
  lemma AllAndEmptyShowEverything(faqs: seq<FaqItem>, v: FaqView)
    requires v.activeCategory == AllCategories && v.searchQuery == ""
    ensures FilteredFaqs(faqs, v) == faqs
  {
    FilterAll(faqs, (x: FaqItem) => Shown(v, x));
  }

  /** A category other than "All" shows only its own items. */
  lemma CategoryShowsOwnItems(faqs: seq<FaqItem>, v: FaqView, x: FaqItem)
    requires v.activeCategory != AllCategories && x in FilteredFaqs(faqs, v)
    ensures x.category == v.activeCategory && x in faqs
  {
    assert multiset(FilteredFaqs(faqs, v))[x] > 0;
  }

  /** The `toggleItem` updater on the expanded ids. */
  function ToggleItem(v: FaqView, id: int): (r: FaqView)
    ensures id in r.openItems <==> id !in v.openItems
    ensures forall y :: y != id ==> (y in r.openItems <==> y in v.openItems)
    ensures r.activeCategory == v.activeCategory && r.searchQuery == v.searchQuery
  {
    v.(openItems := Toggle(v.openItems, id))
  }

  /** Toggling an item twice restores whether every item is expanded. */
  lemma ToggleItemTwice(v: FaqView, id: int, y: int)
    ensures y in ToggleItem(ToggleItem(v, id), id).openItems <==> y in v.openItems
  {
  }

  /** The "Clear Filters" button: empty search, every category, expanded items kept. */
  function ClearFilters(v: FaqView): (r: FaqView)
    ensures r.openItems == v.openItems
    ensures forall faqs :: FilteredFaqs(faqs, r) == faqs
  {
    var r := v.(searchQuery := "", activeCategory := AllCategories);
    forall faqs: seq<FaqItem> ensures FilteredFaqs(faqs, r) == faqs {
      AllAndEmptyShowEverything(faqs, r);
    }
    r
  }
}
