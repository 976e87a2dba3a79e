/** The help centre: FAQs filtered by a query and grouped by category, each an accordion entry. */
module HelpCenterScreen {
  import opened Wrappers
  import opened Text
  import opened Seqs
  import Accordion

  datatype Faq = Faq(id: string, question: string, answer: string, category: string)

  const Faqs: seq<Faq> := [
    Faq("1", "How do I reset my password?", "To reset your password, go to the login screen and tap \"Forgot Password\". Follow the instructions sent to your email to create a new password.", "Account"),
    Faq("2", "How do I change my email address?", "You can change your email address in the Profile Settings. Go to Profile > Edit Profile and update your email. Verification may be required.", "Account"),
    Faq("3", "How do I track my order?", "You can track your order in the Order History section. Select the order you want to track and you'll see its current status and location.", "Orders"),
    Faq("4", "What is your return policy?", "We accept returns within 30 days of delivery. Items must be unused and in original packaging. Contact support to initiate a return.", "Orders"),
    Faq("5", "What payment methods do you accept?", "We accept credit/debit cards (Visa, MasterCard, American Express), PayPal, and Apple Pay.", "Payment"),
    Faq("6", "Is my payment information secure?", "Yes, we use industry-standard encryption to protect your payment information. We never store your full card details.", "Payment")
  ]

  predicate FaqMatches(f: Faq, query: string) {
    Contains(Lower(f.question), Lower(query)) || Contains(Lower(f.answer), Lower(query))
  }

  /** `filteredFAQs`: no trimming and no special case for the empty query. */
  function FilteredFaqs(faqs: seq<Faq>, query: string): (r: seq<Faq>)
    ensures forall i :: 0 <= i < |r| ==> r[i] in faqs && FaqMatches(r[i], query)
    ensures forall i :: 0 <= i < |faqs| && FaqMatches(faqs[i], query) ==> faqs[i] in r
    ensures IsSubsequence(r, faqs)
  {
    Filter(faqs, (f: Faq) => FaqMatches(f, query))
  }

  /** Every string contains the empty string, so the empty query keeps every FAQ, in order. */
  lemma EmptyQueryKeepsAll(faqs: seq<Faq>)
    ensures FilteredFaqs(faqs, "") == faqs
  {
    forall i | 0 <= i < |faqs|
      ensures FaqMatches(faqs[i], "")
    {
      ContainsEmpty(Lower(faqs[i].question));
    }
    FilterAll(faqs, (f: Faq) => FaqMatches(f, ""));
  }

  /** The FAQs of one category, in their filtered order. */
  function InCategory(faqs: seq<Faq>, c: string): seq<Faq> {
    Filter(faqs, (f: Faq) => f.category == c)
  }

  predicate HasCategory(faqs: seq<Faq>, c: string) {
    exists k | 0 <= k < |faqs| :: faqs[k].category == c
  }

  lemma HasCategorySnoc(s: seq<Faq>, x: Faq, c: string)
    ensures HasCategory(s + [x], c) <==> HasCategory(s, c) || x.category == c
  {
    if HasCategory(s + [x], c) && !(x.category == c) {
      var k :| 0 <= k < |s| + 1 && (s + [x])[k].category == c;
      assert s[k] == (s + [x])[k];
    }
    if HasCategory(s, c) {
      var k :| 0 <= k < |s| && s[k].category == c;
      assert (s + [x])[k] == s[k];
    }
    if x.category == c {
      assert (s + [x])[|s|] == x;
    }
  }

  /**
   * `groupedFAQs`: the `reduce` that creates a category's array on first
   * sight and pushes each FAQ onto it. Returns the groups and the categories
   * in the order they were created.
   */
  method GroupByCategory(filtered: seq<Faq>) returns (groups: map<string, seq<Faq>>, order: seq<string>)
    ensures forall c :: c in groups <==> HasCategory(filtered, c)
    ensures forall c :: c in groups ==> groups[c] == InCategory(filtered, c)
    ensures forall c :: c in order <==> c in groups
    ensures forall i, j :: 0 <= i < j < |order| ==> order[i] != order[j]
  {
    groups := map[];
    order := [];
    var n := 0;
    while n < |filtered|
      invariant 0 <= n <= |filtered|
      invariant forall c :: c in groups <==> HasCategory(filtered[..n], c)
      invariant forall c :: c in groups ==> groups[c] == InCategory(filtered[..n], c)
      invariant forall c :: c in order <==> c in groups
      invariant forall i, j :: 0 <= i < j < |order| ==> order[i] != order[j]
    {
      var faq := filtered[n];
      assert filtered[..n + 1] == filtered[..n] + [faq];
      forall c | c in groups || c == faq.category
        ensures InCategory(filtered[..n + 1], c) == InCategory(filtered[..n], c) + (if faq.category == c then [faq] else [])
      {
        FilterSnoc(filtered[..n], faq, (f: Faq) => f.category == c);
      }
      if faq.category !in groups {
        assert InCategory(filtered[..n], faq.category) == [];
        groups := groups[faq.category := []];
        order := order + [faq.category];
      }
      groups := groups[faq.category := groups[faq.category] + [faq]];
      n := n + 1;
      forall c
        ensures HasCategory(filtered[..n], c) <==> HasCategory(filtered[..n - 1], c) || c == faq.category
      {
        HasCategorySnoc(filtered[..n - 1], faq, c);
      }
    }
    assert filtered[..n] == filtered;
  }

  /**
   * Each FAQ lands in the group of its own category, as many times as it was
   * in the filtered list, and in no other group.
   */
  lemma GroupsPartition(filtered: seq<Faq>, x: Faq, c: string)
    ensures Count(InCategory(filtered, c), x) == if x.category == c then Count(filtered, x) else 0
  {
    FilterCount(filtered, (f: Faq) => f.category == c, x);
  }

  /** Pressing an FAQ toggles the help centre's single expanded id. */
  function PressFaq(expandedId: Option<string>, faq: Faq): (r: Option<string>)
    ensures Accordion.IsExpanded(r, faq.id) <==> !Accordion.IsExpanded(expandedId, faq.id)
    ensures forall other :: other != faq.id ==> !Accordion.IsExpanded(r, other)
  {
    Accordion.Toggle(expandedId, faq.id)
  }
}
