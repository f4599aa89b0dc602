/**
 * The search box of the public university and organisation directories
 * (src/app/universities/page.tsx, src/app/organizations/page.tsx): an entry
 * is kept when the lower-cased term occurs in its lower-cased name or, when
 * it has a non-empty code, in its lower-cased code. The term is used as
 * typed, without trimming.
 */
module Listings {
  import opened Wrappers
  import opened Strings
  import opened Lists

  /** A university or an organisation as the directory lists it. */
  datatype Listing = Listing(id: string, name: string, code: Option<string>)

  /** The filter callback. */
  predicate Matches(l: Listing, term: string) {
    Contains(Lower(l.name), Lower(term))
    || (Truthy(l.code) && Contains(Lower(l.code.value), Lower(term)))
  }

  function MatchesTerm(term: string): Listing -> bool {
    (l: Listing) => Matches(l, term)
  }

  /** `listings.filter(...)`: the shown entries. */
  function Search(listings: seq<Listing>, term: string): (shown: seq<Listing>)
    ensures |shown| <= |listings|
    ensures forall i :: 0 <= i < |shown| ==> shown[i] in listings && Matches(shown[i], term)
    ensures forall i :: 0 <= i < |listings| && Matches(listings[i], term) ==> listings[i] in shown
  {
    Filter(listings, MatchesTerm(term))
  }

  /** The shown entries keep their order: they are a subsequence of the list. */
  lemma SearchIsSubsequence(listings: seq<Listing>, term: string)
    ensures IsSubsequence(Search(listings, term), listings)
  {
    FilterIsSubsequence(listings, MatchesTerm(term));
  }

  /** The empty term keeps every entry, in order. */
  lemma EmptyTermKeepsAll(listings: seq<Listing>)
    ensures Search(listings, "") == listings
  {
    forall i | 0 <= i < |listings| ensures MatchesTerm("")(listings[i]) {
      ContainsEmpty(Lower(listings[i].name));
    }
    FilterKeepsAll(listings, MatchesTerm(""));
  }

  /** An entry without a code (or with an empty one) can only match on its name. */
  lemma CodelessMatchesOnName(l: Listing, term: string)
    requires !Truthy(l.code)
    ensures Matches(l, term) <==> Contains(Lower(l.name), Lower(term))
  {
  }

  /**
   * The term is applied literally: every character of the lower-cased term,
   * spaces included, appears in the lower-cased name or code of each shown
   * entry. So a term of spaces hides every entry whose name and code have
   * no space.
   */
  lemma TermAppliedLiterally(listings: seq<Listing>, term: string)
    ensures forall i, k :: 0 <= i < |Search(listings, term)| && 0 <= k < |term| ==>
      var l := Search(listings, term)[i];
      Lower(term)[k] in Lower(l.name) || (l.code.Some? && Lower(term)[k] in Lower(l.code.value))
  {
    var shown := Search(listings, term);
    forall i, k | 0 <= i < |shown| && 0 <= k < |term|
      ensures Lower(term)[k] in Lower(shown[i].name) || (shown[i].code.Some? && Lower(term)[k] in Lower(shown[i].code.value))
    {
      var l := shown[i];
      if Contains(Lower(l.name), Lower(term)) {
        ContainedCharsOccur(Lower(l.name), Lower(term));
      } else {
        ContainedCharsOccur(Lower(l.code.value), Lower(term));
      }
    }
  }
}
