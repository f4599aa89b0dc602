/**
 * The dashboard's profile list (src/app/dashboard/profiles/page.tsx): the
 * three-part filter, the university choices offered in its drop-down, the
 * status badges, and the archive button, which only reloads the list.
 */
module DashboardProfiles {
  import opened Wrappers
  import opened Strings
  import opened Lists
  import opened Backend

  const LoadFailedMessage := "Failed to load profiles. Please try again."

  /** A row of the list: a profile with the name of its university, if the join found one. */
  datatype ListedProfile = ListedProfile(id: string, name: string, status: ProfileStatus, universityName: Option<string>)

  /** The term occurs, case-insensitively, in the name or in the university name (`''` when absent). */
  predicate MatchesSearch(p: ListedProfile, term: string) {
    Contains(Lower(p.name), Lower(term)) || Contains(Lower(p.universityName.GetOr("")), Lower(term))
  }

  predicate MatchesStatus(p: ListedProfile, statusFilter: string) {
    statusFilter == "all" || StatusName(p.status) == statusFilter
  }

  /** `profile.universities?.name === universityFilter`: an absent university equals no filter string. */
  predicate MatchesUniversity(p: ListedProfile, universityFilter: string) {
    universityFilter == "all" || p.universityName == Some(universityFilter)
  }

  predicate Matches(p: ListedProfile, term: string, statusFilter: string, universityFilter: string) {
    MatchesSearch(p, term) && MatchesStatus(p, statusFilter) && MatchesUniversity(p, universityFilter)
  }

  function Keeps(term: string, statusFilter: string, universityFilter: string): ListedProfile -> bool {
    (p: ListedProfile) => Matches(p, term, statusFilter, universityFilter)
  }

  /** `filteredProfiles`: a row is shown exactly when it passes all three tests. */
  function FilteredProfiles(profiles: seq<ListedProfile>, term: string, statusFilter: string, universityFilter: string): (shown: seq<ListedProfile>)
    ensures |shown| <= |profiles|
    ensures forall i :: 0 <= i < |shown| ==>
      shown[i] in profiles && MatchesSearch(shown[i], term) && MatchesStatus(shown[i], statusFilter) && MatchesUniversity(shown[i], universityFilter)
    ensures forall i :: 0 <= i < |profiles| && Matches(profiles[i], term, statusFilter, universityFilter) ==> profiles[i] in shown
  {
    Filter(profiles, Keeps(term, statusFilter, universityFilter))
  }

  /** The shown rows keep the list's order. */
  lemma FilteredIsSubsequence(profiles: seq<ListedProfile>, term: string, statusFilter: string, universityFilter: string)
    ensures IsSubsequence(FilteredProfiles(profiles, term, statusFilter, universityFilter), profiles)
  {
    FilterIsSubsequence(profiles, Keeps(term, statusFilter, universityFilter));
  }

  /** With no term and both drop-downs on 'all', every row is shown. */
  lemma NoFiltersKeepAll(profiles: seq<ListedProfile>)
    ensures FilteredProfiles(profiles, "", "all", "all") == profiles
  {
    forall i | 0 <= i < |profiles| ensures Keeps("", "all", "all")(profiles[i]) {
      ContainsEmpty(Lower(profiles[i].name));
    }
    FilterKeepsAll(profiles, Keeps("", "all", "all"));
  }

  /** A profile without a university is hidden by every specific university filter. */
  lemma NoUniversityNeverMatchesSpecific(profiles: seq<ListedProfile>, term: string, statusFilter: string, universityFilter: string)
    requires universityFilter != "all"
    ensures forall i :: 0 <= i < |FilteredProfiles(profiles, term, statusFilter, universityFilter)| ==>
      FilteredProfiles(profiles, term, statusFilter, universityFilter)[i].universityName == Some(universityFilter)
  {
  }

  /** A status filter other than 'all' shows only that status; one that names no status shows nothing. */
  lemma StatusFilterIsExact(profiles: seq<ListedProfile>, term: string, statusFilter: string, universityFilter: string)
    requires statusFilter != "all"
    ensures forall i :: 0 <= i < |FilteredProfiles(profiles, term, statusFilter, universityFilter)| ==>
      StatusName(FilteredProfiles(profiles, term, statusFilter, universityFilter)[i].status) == statusFilter
    ensures statusFilter !in {"draft", "pending_review", "published", "archived"} ==>
      FilteredProfiles(profiles, term, statusFilter, universityFilter) == []
  {
    var shown := FilteredProfiles(profiles, term, statusFilter, universityFilter);
    assert |shown| > 0 ==> StatusName(shown[0].status) == statusFilter;
  }

  /** `profiles.map(p => p.universities?.name).filter(Boolean)`: the non-empty university names, one per row that has one. */
  function UniversityNames(profiles: seq<ListedProfile>): (names: seq<string>)
    ensures forall i :: 0 <= i < |names| ==> names[i] != "" && exists j :: 0 <= j < |profiles| && profiles[j].universityName == Some(names[i])
    ensures forall j :: 0 <= j < |profiles| && Truthy(profiles[j].universityName) ==> profiles[j].universityName.value in names
  {
    if profiles == [] then []
    else
      (if Truthy(profiles[0].universityName) then [profiles[0].universityName.value] else [])
      + UniversityNames(profiles[1..])
  }

  /**
   * `getUniversities`: the choices of the university drop-down, each
   * non-empty university name once.
   */
  function GetUniversities(profiles: seq<ListedProfile>): (names: seq<string>)
    ensures Distinct(names)
    ensures forall i :: 0 <= i < |names| ==> names[i] != "" && exists j :: 0 <= j < |profiles| && profiles[j].universityName == Some(names[i])
    ensures forall j :: 0 <= j < |profiles| && Truthy(profiles[j].universityName) ==> profiles[j].universityName.value in names
  {
    Dedup(UniversityNames(profiles))
  }

  /** The choices come in the order in which each name first appears in the list. */
  lemma UniversitiesInFirstOccurrenceOrder(profiles: seq<ListedProfile>)
    ensures forall i, j :: 0 <= i < j < |GetUniversities(profiles)| ==>
      FirstIndex(UniversityNames(profiles), GetUniversities(profiles)[i]) < FirstIndex(UniversityNames(profiles), GetUniversities(profiles)[j])
  {
    DedupKeepsFirstOccurrenceOrder(UniversityNames(profiles));
  }

  /** Every offered university, chosen with no term and status 'all', shows at least one row. */
  lemma OfferedUniversityShowsSomething(profiles: seq<ListedProfile>, u: string)
    requires u in GetUniversities(profiles)
    ensures FilteredProfiles(profiles, "", "all", u) != []
  {
    var k :| 0 <= k < |GetUniversities(profiles)| && GetUniversities(profiles)[k] == u;
    var j :| 0 <= j < |profiles| && profiles[j].universityName == Some(u);
    ContainsEmpty(Lower(profiles[j].name));
    assert Matches(profiles[j], "", "all", u);
  }

  /** `statusColors`. */
  function StatusColor(s: ProfileStatus): string {
    match s
    case Draft => "bg-gray-100 text-gray-800"
    case PendingReview => "bg-yellow-100 text-yellow-800"
    case Published => "bg-green-100 text-green-800"
    case Archived => "bg-red-100 text-red-800"
  }

  /** `statusLabels`. */
  function StatusLabel(s: ProfileStatus): string {
    match s
    case Draft => "Draft"
    case PendingReview => "Pending Review"
    case Published => "Published"
    case Archived => "Archived"
  }

  /** Each status has a badge colour and label of its own. */
  lemma StatusBadgesDistinct(s: ProfileStatus, t: ProfileStatus)
    requires s != t
    ensures StatusColor(s) != StatusColor(t)
    ensures StatusLabel(s) != StatusLabel(t)
  {
  }

  class ProfilesPage {
    var profiles: seq<ListedProfile>
    var error: Option<string>
    var loading: bool

    constructor ()
      ensures profiles == [] && error.None? && loading
    {
      profiles := [];
      error := None;
      loading := true;
    }

    /**
     * `loadProfiles`: the fetch either yields the rows, which replace the
     * list, or throws, which keeps the old list and sets the error.
     */
    method LoadProfiles(fetched: Result<seq<ListedProfile>, string>)
      modifies this`profiles, this`error, this`loading
      ensures !loading
      ensures fetched.Ok? ==> profiles == fetched.value && error.None?
      ensures fetched.Err? ==> profiles == old(profiles) && error == Some(LoadFailedMessage)
    {
      loading := true;
      error := None;
      if fetched.Ok? {
        profiles := fetched.value;
      } else {
        error := Some(LoadFailedMessage);
      }
      loading := false;
    }

    /**
     * `handleArchiveProfile`: the status update is commented out in the
     * page, so archiving only reloads the list. Nothing is written to the
     * store; `loadProfiles` handles its own failure, so the page's archive
     * error is never set.
     */
    method HandleArchiveProfile(store: Store, id: string, fetched: Result<seq<ListedProfile>, string>)
      modifies this`profiles, this`error, this`loading
      ensures store.db == old(store.db) && store.log == old(store.log) && store.calls == old(store.calls)
      ensures !loading
      ensures fetched.Ok? ==> profiles == fetched.value && error.None?
      ensures fetched.Err? ==> profiles == old(profiles) && error == Some(LoadFailedMessage)
    {
      LoadProfiles(fetched);
    }
  }
}
