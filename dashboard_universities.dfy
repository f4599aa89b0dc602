/**
 * The dashboard's university management list
 * (src/app/dashboard/universities/page.tsx): a university admin's view is
 * scoped to their own university, the search box filters the full loaded
 * list, and a failed delete leaves the list as it was.
 */
module DashboardUniversities {
  import opened Wrappers
  import opened Strings
  import opened Lists
  import opened Auth
  import opened Listings

  const DeleteFailedMessage := "Failed to delete university. Please try again."

  /** The admin-scoping condition: `user?.user_role === 'university_admin' && user?.university_id`. */
  predicate ScopedToOwn(user: Option<User>) {
    IsUniversityAdmin(user) && Truthy(user.value.universityId)
  }

  function HasId(id: string): Listing -> bool {
    (u: Listing) => u.id == id
  }

  /** The list `loadUniversities` keeps from what it fetched. */
  function Scoped(user: Option<User>, fetched: seq<Listing>): (r: seq<Listing>)
    ensures ScopedToOwn(user) ==>
      && (forall i :: 0 <= i < |r| ==> r[i] in fetched && r[i].id == user.value.universityId.value)
      && (forall i :: 0 <= i < |fetched| && fetched[i].id == user.value.universityId.value ==> fetched[i] in r)
    ensures !ScopedToOwn(user) ==> r == fetched
  {
    if ScopedToOwn(user) then Filter(fetched, HasId(user.value.universityId.value)) else fetched
  }

  /** A scoped list keeps the fetched order. */
  lemma ScopedIsSubsequence(user: Option<User>, fetched: seq<Listing>)
    ensures IsSubsequence(Scoped(user, fetched), fetched)
  {
    if ScopedToOwn(user) {
      FilterIsSubsequence(fetched, HasId(user.value.universityId.value));
    } else {
      FilterKeepsAll(fetched, (u: Listing) => true);
      FilterIsSubsequence(fetched, (u: Listing) => true);
    }
  }

  /** Only a university admin with a university is scoped; a platform admin, or an admin without one, sees everything. */
  lemma OnlyAssignedAdminsAreScoped(user: User, fetched: seq<Listing>)
    ensures user.role == Some(PlatformAdmin) ==> Scoped(Some(user), fetched) == fetched
    ensures user.role == Some(UniversityAdmin) && !Truthy(user.universityId) ==> Scoped(Some(user), fetched) == fetched
    ensures Scoped(None, fetched) == fetched
  {
  }

  /** What `handleSearch` shows: the full list for a blank term, otherwise the untrimmed term's matches. */
  function SearchResult(universities: seq<Listing>, term: string): (shown: seq<Listing>)
    ensures IsBlank(term) ==> shown == universities
    ensures !IsBlank(term) ==>
      && (forall i :: 0 <= i < |shown| ==> shown[i] in universities && Matches(shown[i], term))
      && (forall i :: 0 <= i < |universities| && Matches(universities[i], term) ==> universities[i] in shown)
  {
    BlankIffTrimEmpty(term);
    if Trim(term) == "" then universities else Search(universities, term)
  }

  /** Either way the shown list is an order-preserving subsequence of the loaded one. */
  lemma SearchResultIsSubsequence(universities: seq<Listing>, term: string)
    ensures IsSubsequence(SearchResult(universities, term), universities)
  {
    BlankIffTrimEmpty(term);
    if Trim(term) == "" {
      FilterKeepsAll(universities, (u: Listing) => true);
      FilterIsSubsequence(universities, (u: Listing) => true);
    } else {
      SearchIsSubsequence(universities, term);
    }
  }

  class UniversitiesAdminPage {
    var universities: seq<Listing>
    var filteredUniversities: seq<Listing>
    var searchTerm: string
    var loading: bool
    var error: Option<string>

    constructor ()
      ensures universities == [] && filteredUniversities == [] && searchTerm == "" && loading && error.None?
    {
      universities := [];
      filteredUniversities := [];
      searchTerm := "";
      loading := true;
      error := None;
    }

    /**
     * `loadUniversities`: `fetched` is what `getUniversities` returned (it
     * yields `[]` on a query error rather than throwing). The shown list
     * is reset to the whole loaded list.
     */
    method LoadUniversities(user: Option<User>, fetched: seq<Listing>)
      modifies this`universities, this`filteredUniversities, this`loading, this`error
      ensures universities == Scoped(user, fetched)
      ensures filteredUniversities == universities
      ensures error.None? && !loading
    {
      loading := true;
      error := None;
      var data := fetched;
      if user.Some? && user.value.role == Some(UniversityAdmin) && Truthy(user.value.universityId) {
        data := Filter(data, HasId(user.value.universityId.value));
      }
      universities := data;
      filteredUniversities := data;
      loading := false;
    }

    /**
     * `handleSearch`: records the term and filters the loaded list, never
     * the previous result, so the outcome depends on the last term alone.
     */
    method HandleSearch(term: string)
      modifies this`searchTerm, this`filteredUniversities
      ensures searchTerm == term
      ensures filteredUniversities == SearchResult(universities, term)
    {
      searchTerm := term;
      ghost var shown := SearchResult(universities, term);
      if Trim(term) == "" {
        filteredUniversities := universities;
      } else {
        filteredUniversities := Search(universities, term);
      }
    }

    /**
     * `handleDeleteUniversity`: nothing happens unless the user confirms;
     * a delete that reports success reloads the list (`reloaded` is what
     * the reload fetches), a failed one sets the error and leaves the lists.
     */
    method HandleDeleteUniversity(confirmed: bool, deleted: bool, user: Option<User>, reloaded: seq<Listing>)
      modifies this`universities, this`filteredUniversities, this`loading, this`error
      ensures !confirmed ==>
        && universities == old(universities) && filteredUniversities == old(filteredUniversities)
        && error == old(error) && loading == old(loading)
      ensures confirmed && deleted ==>
        universities == Scoped(user, reloaded) && filteredUniversities == universities && error.None? && !loading
      ensures confirmed && !deleted ==>
        && universities == old(universities) && filteredUniversities == old(filteredUniversities)
        && error == Some(DeleteFailedMessage) && loading == old(loading)
    {
      if !confirmed {
        return;
      }
      if deleted {
        LoadUniversities(user, reloaded);
      } else {
        error := Some(DeleteFailedMessage);
      }
    }
  }
}
