/** The help page: the search over the questions and answers, and the
    accordion that opens one answer at a time. */
module HelpPage {
  import opened Util
  import opened Text

  datatype Faq = Faq(id: int, question: string, answer: string)

  /** The search test: the lower-cased query occurs in the lower-cased
      question or in the lower-cased answer. */
  predicate Matches(faq: Faq, query: string) {
    Contains(ToLower(faq.question), ToLower(query)) || Contains(ToLower(faq.answer), ToLower(query))
  }

  /** `filteredFaqs`. */
  function FilterFaqs(faqs: seq<Faq>, query: string): seq<Faq> {
    Filter(faqs, (f: Faq) => Matches(f, query))
  }

  /** An entry is shown exactly when it matches; the shown entries keep
      their order and multiplicity; searching the result again with the same
      query changes nothing. */
  lemma FilterFaqsSpec(faqs: seq<Faq>, query: string)
    ensures forall f :: f in FilterFaqs(faqs, query) <==> f in faqs && Matches(f, query)
    ensures IsSubsequence(FilterFaqs(faqs, query), faqs)
    ensures FilterFaqs(FilterFaqs(faqs, query), query) == FilterFaqs(faqs, query)
  {
    FilterIsSubsequence(faqs, (f: Faq) => Matches(f, query));
    FilterIdempotent(faqs, (f: Faq) => Matches(f, query));
  }

  /** An empty query shows every entry. */
  lemma EmptyQueryShowsAll(faqs: seq<Faq>)
    ensures FilterFaqs(faqs, "") == faqs
  {
    forall f | f in faqs ensures Matches(f, "") {
      assert IsPrefix(ToLower(""), ToLower(f.question));
    }
    FilterKeepsAll(faqs, (f: Faq) => Matches(f, ""));
  }

  /** A query occurring, up to ASCII case, in an entry's question shows that
      entry. */
  lemma QuestionHitIsShown(faqs: seq<Faq>, f: Faq, query: string, k: nat)
    requires f in faqs && OccursAt(ToLower(f.question), ToLower(query), k)
    ensures f in FilterFaqs(faqs, query)
  {
    ContainsAt(ToLower(f.question), ToLower(query), k);
  }

  /** `toggleFaq(id)`: the open entry (at most one, as an option) closes
      when it is `id`; otherwise `id` becomes the open one. */
  function ToggleFaq(open: Option<int>, id: int): Option<int> {
    if open == Some(id) then None else Some(id)
  }

  /** After a toggle either nothing or `id` is open, and nothing exactly
      when `id` was open; toggling an entry that was not open twice closes
      the accordion. */
  lemma ToggleFaqSpec(open: Option<int>, id: int)
    ensures ToggleFaq(open, id) == None || ToggleFaq(open, id) == Some(id)
    ensures ToggleFaq(open, id).None? <==> open == Some(id)
    ensures open != Some(id) ==> ToggleFaq(ToggleFaq(open, id), id) == None
  {
  }
}
