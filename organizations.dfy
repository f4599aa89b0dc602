/**
 * The public organisation directory (src/app/organizations/page.tsx): a
 * fixed sample list, the shared name-or-code search, and the empty state.
 */
module Organizations {
  import opened Wrappers
  import opened Listings

  const LoadFailedMessage := "Failed to load organizations."
  const AdjustSearchMessage := "Try adjusting your search terms."
  const NoneAvailableMessage := "No organizations are available at the moment."

  /** The sample data the page loads in place of a query. */
  const SampleOrganizations: seq<Listing> := [Listing("test-org-1", "Test Organization", Some("test-org"))]

  /**
   * The "No organizations found" panel: shown when nothing passes the search
   * once loading is over, with a hint that depends on whether a term was typed.
   */
  function EmptyState(shown: seq<Listing>, loading: bool, searchTerm: string): (message: Option<string>)
    ensures message.Some? <==> shown == [] && !loading
    ensures message.Some? ==> message.value == (if searchTerm != "" then AdjustSearchMessage else NoneAvailableMessage)
  {
    if |shown| == 0 && !loading then
      Some(if searchTerm != "" then AdjustSearchMessage else NoneAvailableMessage)
    else None
  }

  class OrganizationsPage {
    var organizations: seq<Listing>
    var error: string
    var loading: bool
    var searchTerm: string

    constructor ()
      ensures organizations == [] && error == "" && loading && searchTerm == ""
    {
      organizations := [];
      error := "";
      loading := true;
      searchTerm := "";
    }

    /** `loadOrganizations`: installs the sample list; nothing in it can fail. */
    method LoadOrganizations()
      modifies this`organizations, this`error, this`loading
      ensures organizations == SampleOrganizations && error == "" && !loading
    {
      loading := true;
      error := "";
      organizations := SampleOrganizations;
      loading := false;
    }

    /** The search box. */
    method SetSearchTerm(term: string)
      modifies this`searchTerm
      ensures searchTerm == term
    {
      searchTerm := term;
    }

    /** `filteredOrganizations`. */
    function Shown(): seq<Listing>
      reads this
    {
      Search(organizations, searchTerm)
    }
  }

  /** With the sample loaded and no term, the one organisation shows and the empty state does not. */
  lemma SampleShownWithoutTerm()
    ensures Search(SampleOrganizations, "") == SampleOrganizations
    ensures EmptyState(Search(SampleOrganizations, ""), false, "").None?
  {
    EmptyTermKeepsAll(SampleOrganizations);
  }

  /** A term that matches neither the sample's name nor its code leaves the panel with the search hint. */
  lemma UnmatchedTermShowsHint(term: string)
    requires !Matches(SampleOrganizations[0], term)
    ensures term != ""
    ensures EmptyState(Search(SampleOrganizations, term), false, term) == Some(AdjustSearchMessage)
  {
    EmptyTermKeepsAll(SampleOrganizations);
  }
}
