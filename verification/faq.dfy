/** The FAQ page: one search term shared by every category, a per-category
    substring filter, a per-category set of open answers, and the page-wide
    "No results" note. The question and answer copy itself is not modelled;
    categories are parameters. */
module Faq {
  import opened Seqs
  import opened Text

  datatype FaqItem = FaqItem(id: string, question: string, answer: string, category: string)

  /** One entry of `faqData`, in the order the page lists them. */
  datatype Category = Category(key: string, title: string, description: string, faqs: seq<FaqItem>)

  /** The test inside `FAQCategory`'s filter. */
  predicate MatchesSearch(term: string, faq: FaqItem)
  {
    Includes(Lower(faq.question), Lower(term)) || Includes(Lower(faq.answer), Lower(term))
  }

  /** `filteredFAQs` of one category. */
  function FilterFaqs(faqs: seq<FaqItem>, term: string): (r: seq<FaqItem>)
    ensures IsSubsequence(r, faqs)
    ensures forall faq :: faq in r <==> faq in faqs && MatchesSearch(term, faq)
  {
    Filter(faq => MatchesSearch(term, faq), faqs)
  }

  /** The lowered term occurs somewhere in the lowered question or answer. */
  ghost predicate Mentions(term: string, faq: FaqItem)
  {
    || (exists i :: OccursAt(Lower(faq.question), Lower(term), i))
    || (exists i :: OccursAt(Lower(faq.answer), Lower(term), i))
  }

  /** The filter keeps exactly the FAQs that mention the term, in their original order. */
  lemma FilterFaqsExactly(faqs: seq<FaqItem>, term: string, faq: FaqItem)
    ensures IsSubsequence(FilterFaqs(faqs, term), faqs)
    ensures faq in FilterFaqs(faqs, term) <==> faq in faqs && Mentions(term, faq)
  {
    IncludesIffOccurs(Lower(faq.question), Lower(term));
    IncludesIffOccurs(Lower(faq.answer), Lower(term));
  }

  /** An empty search term keeps every FAQ. */
  lemma EmptySearchKeepsAll(faqs: seq<FaqItem>)
    ensures FilterFaqs(faqs, "") == faqs
  {
    assert Lower("") == "";
    FilterKeepsAll(faq => MatchesSearch("", faq), faqs);
  }

  // ---------------------------------------------------------------------
  // Accordion

  /** `toggleFAQ`: closes an open answer, opens a closed one. */
  function ToggleFaq(open: set<string>, id: string): (r: set<string>)
    ensures id in r <==> id !in open
    ensures forall other :: other != id ==> (other in r <==> other in open)
  {
    if id in open then open - {id} else open + {id}
  }

  /** Toggling the same answer twice restores the open set. */
  lemma ToggleTwiceRestores(open: set<string>, id: string)
    ensures ToggleFaq(ToggleFaq(open, id), id) == open
  {
  }

  // ---------------------------------------------------------------------
  // Categories and the "No results" note

  /** A category renders its section only when its filtered list is non-empty. */
  predicate CategoryRenders(c: Category, term: string)
  {
    |FilterFaqs(c.faqs, term)| != 0
  }

  /** `allFAQs`: every category's FAQs, category after category. */
  function AllFaqs(categories: seq<Category>): seq<FaqItem>
  {
    Flatten(seq(|categories|, i requires 0 <= i < |categories| => categories[i].faqs))
  }

  /** `allFAQs` is the concatenation of the categories' lists in order. */
  lemma AllFaqsIsConcatenation(categories: seq<Category>)
    ensures |categories| == 0 ==> AllFaqs(categories) == []
    ensures |categories| > 0 ==> AllFaqs(categories) == categories[0].faqs + AllFaqs(categories[1..])
  {
    if |categories| > 0 {
      var lists := seq(|categories|, i requires 0 <= i < |categories| => categories[i].faqs);
      assert lists[1..] == seq(|categories[1..]|, i requires 0 <= i < |categories[1..]| => categories[1..][i].faqs);
    }
  }

  /** An FAQ is in `allFAQs` exactly when some category lists it. */
  lemma AllFaqsMembers(categories: seq<Category>, x: FaqItem)
    ensures x in AllFaqs(categories) <==> exists i :: 0 <= i < |categories| && x in categories[i].faqs
  {
    var lists := seq(|categories|, i requires 0 <= i < |categories| => categories[i].faqs);
    FlattenMembers(lists, x);
    if exists i :: 0 <= i < |categories| && x in categories[i].faqs {
      var i :| 0 <= i < |categories| && x in categories[i].faqs;
      assert x in lists[i];
    }
  }

  /** How many FAQs the categories hold together. */
  function FaqCount(categories: seq<Category>): nat
  {
    if |categories| == 0 then 0 else |categories[0].faqs| + FaqCount(categories[1..])
  }

  /** `allFAQs` holds as many entries as the categories together, so no FAQ
      is dropped or repeated by the flattening. */
  lemma {:induction false} AllFaqsLength(categories: seq<Category>)
    ensures |AllFaqs(categories)| == FaqCount(categories)
  {
    AllFaqsIsConcatenation(categories);
    if |categories| > 0 {
      AllFaqsLength(categories[1..]);
    }
  }

  /** The note under "Showing results for": a non-empty term that matches no FAQ at all. */
  predicate NoResultsShown(categories: seq<Category>, term: string)
  {
    term != "" && |FilterFaqs(AllFaqs(categories), term)| == 0
  }

  /** The note appears exactly when the term is non-empty and every category renders nothing. */
  lemma NoResultsIffNothingRenders(categories: seq<Category>, term: string)
    ensures NoResultsShown(categories, term) <==>
              term != "" && forall i :: 0 <= i < |categories| ==> !CategoryRenders(categories[i], term)
  {
    var p := faq => MatchesSearch(term, faq);
    var lists := seq(|categories|, i requires 0 <= i < |categories| => categories[i].faqs);
    var filtered := seq(|lists|, i requires 0 <= i < |lists| => Filter(p, lists[i]));
    FilterFlatten(p, lists);
    assert FilterFaqs(AllFaqs(categories), term) == Flatten(filtered);
    if |Flatten(filtered)| != 0 {
      var x := Flatten(filtered)[0];
      FlattenMembers(filtered, x);
      var i :| 0 <= i < |filtered| && x in filtered[i];
      assert CategoryRenders(categories[i], term);
    }
    forall i | 0 <= i < |categories|
      ensures CategoryRenders(categories[i], term) ==> |Flatten(filtered)| != 0
    {
      assert |filtered[i]| <= |Flatten(filtered)|;
    }
  }
}
