/**
 * The role-request page (src/app/role-requests/page.tsx): a signed-in user
 * asks to become a university admin, to be verified as the alumnus of an
 * existing profile, or to get a new alumni profile; admins approve or
 * reject the requests.
 */
module RoleRequests {
  import opened Wrappers
  import opened Strings
  import opened Auth
  import opened Backend

  const NoUniversityMessage := "Please select a university."
  const NoProfileSelectedMessage := "Please select an existing alumni profile."
  const NoNameMessage := "Please enter a name for the new profile."
  const NotViewerMessage := "Only viewers can request role changes."
  const SubmitFailedMessage := "Failed to submit request. Please try again."
  const RequestNotFoundMessage := "Request not found."
  const ProfileFailedMessage := "Failed to create profile."
  const ApproveFailedMessage := "Failed to approve request."
  const StatusFailedMessage := "Failed to update request status."
  const RejectFailedMessage := "Failed to reject request."
  const DefaultProfileName := "Alumni Profile"
  const UserIdMissingMessage := "User ID not found. Please try logging in again."
  const RequestsLoadFailedMessage := "Failed to load role requests."
  const OwnRequestsLoadFailedMessage := "Failed to load your role requests."
  const LoadFailedMessage := "Failed to load data. Please try again."

  /** The request form: the chosen university, request type, existing profile and new profile name. */
  datatype RequestForm = RequestForm(university: string, requestType: RequestType, selectedProfile: string, newProfileName: string)

  /** The form as it is after a successful submission. */
  const ResetForm := RequestForm("", RoleChange, "", "")

  /**
   * The guards of `handleSubmitRequest`, in order; a failure carries the
   * message of the first guard that fails. A user without a role fails the
   * viewer guard.
   */
  function SubmitGuard(form: RequestForm, role: Option<Role>): (failure: Option<string>)
    ensures failure.None? <==>
      && form.university != ""
      && (form.requestType == AlumniVerification ==> form.selectedProfile != "")
      && (form.requestType == NewProfile ==> Trim(form.newProfileName) != "")
      && (form.requestType == RoleChange ==> role == Some(Viewer))
  {
    BlankIffTrimEmpty(form.newProfileName);
    if form.university == "" then Some(NoUniversityMessage)
    else if form.requestType == AlumniVerification && form.selectedProfile == "" then Some(NoProfileSelectedMessage)
    else if form.requestType == NewProfile && IsBlank(form.newProfileName) then Some(NoNameMessage)
    else if form.requestType == RoleChange && role != Some(Viewer) then Some(NotViewerMessage)
    else None
  }

  /**
   * The guard order: a missing university is reported whatever else is
   * wrong, and each later guard speaks only for its own request type.
   */
  lemma SubmitGuardOrder(form: RequestForm, role: Option<Role>)
    ensures form.university == "" ==> SubmitGuard(form, role) == Some(NoUniversityMessage)
    ensures SubmitGuard(form, role) == Some(NoProfileSelectedMessage) <==>
      form.university != "" && form.requestType == AlumniVerification && form.selectedProfile == ""
    ensures SubmitGuard(form, role) == Some(NoNameMessage) <==>
      form.university != "" && form.requestType == NewProfile && Trim(form.newProfileName) == ""
    ensures SubmitGuard(form, role) == Some(NotViewerMessage) <==>
      form.university != "" && form.requestType == RoleChange && role != Some(Viewer)
  {
    BlankIffTrimEmpty(form.newProfileName);
  }

  /** `profiles.find(p => p.id === id)?.name`: the name of the first profile with that id. */
  function FindProfileName(profiles: seq<(string, string)>, id: string): (name: Option<string>)
    ensures name.None? <==> forall i :: 0 <= i < |profiles| ==> profiles[i].0 != id
    ensures name.Some? ==> exists i :: (0 <= i < |profiles| && profiles[i] == (id, name.value) &&
                                        forall j :: 0 <= j < i ==> profiles[j].0 != id)
  {
    if profiles == [] then None
    else if profiles[0].0 == id then Some(profiles[0].1)
    else
      var name := FindProfileName(profiles[1..], id);
      if name.Some? then FirstMatchShifts(profiles, id, name.value); name else name
  }

  lemma FirstMatchShifts(profiles: seq<(string, string)>, id: string, name: string)
    requires profiles != [] && profiles[0].0 != id
    requires exists i :: (0 <= i < |profiles[1..]| && profiles[1..][i] == (id, name) &&
                          forall j :: 0 <= j < i ==> profiles[1..][j].0 != id)
    ensures exists i :: (0 <= i < |profiles| && profiles[i] == (id, name) &&
                         forall j :: 0 <= j < i ==> profiles[j].0 != id)
  {
    var i :| 0 <= i < |profiles[1..]| && profiles[1..][i] == (id, name) &&
      forall j :: 0 <= j < i ==> profiles[1..][j].0 != id;
    assert profiles[i + 1] == (id, name);
    assert forall j :: 0 < j < i + 1 ==> profiles[j] == profiles[1..][j - 1];
  }

  /** The row `handleSubmitRequest` inserts for a form that passed the guards. */
  function BuildRequest(userId: string, form: RequestForm, profiles: seq<(string, string)>): (r: RoleRequest)
    ensures r.userId == userId && r.universityId == form.university && r.requestType == form.requestType
    ensures r.status == Pending
    ensures r.requestedRole == (if form.requestType == RoleChange then UniversityAdmin else Alumni)
    ensures r.profileId.Some? <==> form.requestType == AlumniVerification
    ensures r.newProfileName.Some? <==> form.requestType == NewProfile
    ensures r.existingProfileName.Some? ==> form.requestType == AlumniVerification
  {
    var base := RoleRequest(userId, form.university, form.requestType, Pending, UniversityAdmin, None, None, None);
    match form.requestType
    case RoleChange => base
    case AlumniVerification =>
      base.(requestedRole := Alumni, profileId := Some(form.selectedProfile),
            existingProfileName := FindProfileName(profiles, form.selectedProfile))
    case NewProfile => base.(requestedRole := Alumni, newProfileName := Some(Trim(form.newProfileName)))
  }

  /** The name of the profile approving an alumni request creates. */
  function ApprovalProfileName(r: RoleRequest): (name: string)
    ensures name != ""
    ensures r.requestType == NewProfile && Truthy(r.newProfileName) ==> name == r.newProfileName.value
    ensures r.requestType == AlumniVerification && Truthy(r.existingProfileName) ==> name == r.existingProfileName.value
    ensures r.requestType == RoleChange ==> name == DefaultProfileName
  {
    if r.requestType == NewProfile && Truthy(r.newProfileName) then r.newProfileName.value
    else if r.requestType == AlumniVerification && Truthy(r.existingProfileName) then r.existingProfileName.value
    else DefaultProfileName
  }

  /** The profile approving an alumni request creates: published, owned by the requester. */
  function ApprovalProfile(r: RoleRequest): ProfileRow {
    ProfileRow(ApprovalProfileName(r), None, None, Some(r.universityId), Published, Some(r.userId), None, None, None)
  }

  /** The user update of an approval: the requested role, and the university for a university-admin request naming one. */
  function ApprovalUserWrite(r: RoleRequest): Write {
    var university := if r.requestedRole == UniversityAdmin && r.universityId != "" then Some(r.universityId) else None;
    UpdateUserRow(r.userId, r.requestedRole, university, false)
  }

  /** Everything approving a request sends, in order: the alumni profile, the user, the request status. */
  function ApprovalPlan(requestId: string, r: RoleRequest): seq<Write> {
    (if r.requestedRole == Alumni then [InsertProfile(ApprovalProfile(r))] else [])
    + [ApprovalUserWrite(r), UpdateRequestStatus(requestId, Approved)]
  }

  /**
   * The order of an approval's writes: a profile first exactly for an alumni
   * request, then the user's new role, and the 'approved' status last and
   * only there.
   */
  lemma ApprovalOrder(requestId: string, r: RoleRequest)
    ensures var plan := ApprovalPlan(requestId, r);
      && |plan| == (if r.requestedRole == Alumni then 3 else 2)
      && (r.requestedRole == Alumni <==> plan[0].InsertProfile?)
      && plan[|plan| - 2].UpdateUserRow? && plan[|plan| - 2].id == r.userId && plan[|plan| - 2].role == r.requestedRole
      && plan[|plan| - 1] == UpdateRequestStatus(requestId, Approved)
      && forall i :: 0 <= i < |plan| - 1 ==> !plan[i].UpdateRequestStatus?
  {
  }

  /**
   * 'approved' is written only once everything before it succeeded: a
   * prefix of the plan that holds the status update is the whole plan.
   */
  lemma ApprovedOnlyAfterUserUpdate(requestId: string, r: RoleRequest, done: seq<Write>)
    requires done <= ApprovalPlan(requestId, r)
    requires UpdateRequestStatus(requestId, Approved) in done
    ensures done == ApprovalPlan(requestId, r)
    ensures ApprovalUserWrite(r) in done
  {
    var plan := ApprovalPlan(requestId, r);
    ApprovalOrder(requestId, r);
    var k :| 0 <= k < |done| && done[k] == UpdateRequestStatus(requestId, Approved);
    assert plan[k] == done[k];
    assert done[|plan| - 2] == plan[|plan| - 2];
  }

  /**
   * Nothing stops a second approval: the plan does not depend on the
   * request's status, so approving an approved alumni request creates
   * another profile.
   */
  lemma ApprovalIgnoresStatus(requestId: string, r: RoleRequest, s: RequestStatus)
    ensures ApprovalPlan(requestId, r.(status := s)) == ApprovalPlan(requestId, r)
    ensures r.requestedRole == Alumni ==> ApprovalPlan(requestId, r.(status := Approved))[0] == InsertProfile(ApprovalProfile(r))
  {
  }

  /**
   * Submitting and then approving: a role-change request makes the user a
   * university admin of the chosen university; a new-profile request
   * creates a published profile under the trimmed name; a verification
   * request creates one under the selected profile's name when it was
   * found and not empty, else under 'Alumni Profile'.
   */
  lemma SubmitThenApprove(userId: string, form: RequestForm, profiles: seq<(string, string)>, role: Option<Role>, requestId: string)
    requires SubmitGuard(form, role).None?
    ensures var r := BuildRequest(userId, form, profiles);
      && (form.requestType == RoleChange ==>
            ApprovalPlan(requestId, r) == [UpdateUserRow(userId, UniversityAdmin, Some(form.university), false), UpdateRequestStatus(requestId, Approved)])
      && (form.requestType != RoleChange ==>
            && ApprovalPlan(requestId, r)[0].InsertProfile?
            && ApprovalPlan(requestId, r)[0].profile.createdBy == Some(userId)
            && ApprovalPlan(requestId, r)[0].profile.status == Published
            && ApprovalPlan(requestId, r)[0].profile.universityId == Some(form.university))
      && (form.requestType == NewProfile ==> ApprovalProfileName(r) == Trim(form.newProfileName))
      && (form.requestType == AlumniVerification ==>
            ApprovalProfileName(r) == if Truthy(FindProfileName(profiles, form.selectedProfile))
                                      then FindProfileName(profiles, form.selectedProfile).value
                                      else DefaultProfileName)
  {
  }

  /** The message shown when the given write of an approval fails. */
  function ApprovalFailureMessage(w: Write): (message: string)
    ensures w.InsertProfile? ==> message == ProfileFailedMessage
    ensures w.UpdateUserRow? ==> message == ApproveFailedMessage
    ensures w.UpdateRequestStatus? ==> message == StatusFailedMessage
  {
    match w
    case InsertProfile(_) => ProfileFailedMessage
    case UpdateUserRow(_, _, _, _) => ApproveFailedMessage
    case _ => StatusFailedMessage
  }

  /** Rejecting changes the status of that one request and nothing else in the database. */
  lemma RejectionTouchesOnlyStatus(db: Db, requestId: string)
    ensures var db' := Apply(db, UpdateRequestStatus(requestId, Rejected), []);
      && db'.profiles == db.profiles && db'.events == db.events && db'.stories == db.stories
      && db'.users == db.users && db'.photos == db.photos
      && db'.requests.Keys == db.requests.Keys
      && (forall id :: id in db.requests && id != requestId ==> db'.requests[id] == db.requests[id])
      && (requestId in db.requests ==> db'.requests[requestId] == db.requests[requestId].(status := Rejected))
  {
  }

  /** `getStatusColor`. */
  function StatusColor(status: string): string {
    if status == "pending" then "bg-yellow-100 text-yellow-800"
    else if status == "approved" then "bg-green-100 text-green-800"
    else if status == "rejected" then "bg-red-100 text-red-800"
    else "bg-gray-100 text-gray-800"
  }

  /** Each request status has its own colour, and every other string is gray. */
  lemma StatusColors(s1: RequestStatus, s2: RequestStatus, other: string)
    requires other != "pending" && other != "approved" && other != "rejected"
    ensures s1 != s2 ==> StatusColor(RequestStatusName(s1)) != StatusColor(RequestStatusName(s2))
    ensures StatusColor(RequestStatusName(s1)) != StatusColor(other)
    ensures StatusColor(other) == "bg-gray-100 text-gray-800"
  {
  }

  /**
   * What the reads of one `loadData` call returned. The universities and the
   * request lists it fetches are only displayed and are not modelled; the
   * profiles of the selected university are, since the form reads them.
   * `universityProfiles` holds the rows of that read (`[]` for a `null`
   * answer). A read that throws may come before or after it: `profilesRead`
   * is `None` when the profile read had not completed.
   */
  datatype DataLoad =
    | DataLoaded(universityProfiles: seq<(string, string)>)
    | RequestsFailed(universityProfiles: seq<(string, string)>)
    | LoadThrew(profilesRead: Option<seq<(string, string)>>)

  /** The profile list and the error as `loadData` leaves them. */
  datatype LoadEffect = LoadEffect(profiles: seq<(string, string)>, error: string)

  /** Whether `loadData` reads the admins' request lists rather than the user's own. */
  predicate SeesAdminRequests(user: User) {
    user.role == Some(PlatformAdmin) || (user.role == Some(UniversityAdmin) && Truthy(user.universityId))
  }

  /**
   * `loadData`'s effect, for the `selectedUniversity` the calling render
   * captured: without a user id only its message; otherwise the profiles of
   * that university when one was selected and the read completed, and an
   * error that is cleared only when every read succeeded.
   */
  function AfterLoad(user: User, selectedUniversity: string, profiles: seq<(string, string)>, outcome: DataLoad): LoadEffect {
    if user.id == "" then LoadEffect(profiles, UserIdMissingMessage)
    else
      var refetched :=
        if selectedUniversity == "" then profiles
        else match outcome
          case DataLoaded(rows) => rows
          case RequestsFailed(rows) => rows
          case LoadThrew(read) => if read.Some? then read.value else profiles;
      var error :=
        match outcome
        case DataLoaded(_) => ""
        case RequestsFailed(_) => if SeesAdminRequests(user) then RequestsLoadFailedMessage else OwnRequestsLoadFailedMessage
        case LoadThrew(_) => LoadFailedMessage;
      LoadEffect(refetched, error)
  }

  /**
   * The reload's error: cleared exactly when the user has an id and every
   * read succeeded; otherwise the message of the step that failed, the
   * request-list message depending on which list the user reads.
   */
  lemma LoadErrorByOutcome(user: User, selectedUniversity: string, profiles: seq<(string, string)>, outcome: DataLoad)
    ensures var e := AfterLoad(user, selectedUniversity, profiles, outcome).error;
      && (e == "" <==> user.id != "" && outcome.DataLoaded?)
      && (user.id == "" ==> e == UserIdMissingMessage)
      && (user.id != "" && outcome.RequestsFailed? ==>
            e == (if SeesAdminRequests(user) then RequestsLoadFailedMessage else OwnRequestsLoadFailedMessage))
      && (user.id != "" && outcome.LoadThrew? ==> e == LoadFailedMessage)
  {
  }

  /** Without a selected university, or without a user id, the reload leaves the profile list alone. */
  lemma LoadKeepsProfilesWithoutUniversity(user: User, selectedUniversity: string, profiles: seq<(string, string)>, outcome: DataLoad)
    requires selectedUniversity == "" || user.id == ""
    ensures AfterLoad(user, selectedUniversity, profiles, outcome).profiles == profiles
  {
  }

  /**
   * A submission that passes the guards always had a university selected, so
   * its reload, which still sees that university, refills the list that the
   * reset emptied with that university's profiles.
   */
  lemma SubmitReloadRefetchesProfiles(user: User, form: RequestForm, rows: seq<(string, string)>)
    requires SubmitGuard(form, user.role).None? && user.id != ""
    ensures AfterLoad(user, form.university, [], DataLoaded(rows)) == LoadEffect(rows, "")
    ensures AfterLoad(user, ResetForm.university, [], DataLoaded(rows)) == LoadEffect([], "")
  {
  }

  class RoleRequestsPage {
    /** The signed-in user; the page renders nothing without one. */
    const user: User
    var selectedUniversity: string
    var requestType: RequestType
    var selectedProfile: string
    var newProfileName: string
    /** The profiles of the selected university, as (id, name). */
    var profiles: seq<(string, string)>
    var error: string
    var submitting: bool
    var loading: bool

    constructor (signedIn: User)
      ensures user == signedIn && Form() == ResetForm && profiles == [] && error == "" && !submitting && loading
    {
      user := signedIn;
      selectedUniversity := "";
      requestType := RoleChange;
      selectedProfile := "";
      newProfileName := "";
      profiles := [];
      error := "";
      submitting := false;
      loading := true;
    }

    function Form(): RequestForm
      reads this
    {
      RequestForm(selectedUniversity, requestType, selectedProfile, newProfileName)
    }

    /**
     * `loadData`, for the `selectedUniversity` the calling render captured:
     * the error is cleared, then set by the first read that fails; the
     * profiles of that university are refetched; loading ends.
     */
    method LoadData(capturedUniversity: string, outcome: DataLoad)
      modifies this`profiles, this`error, this`loading
      ensures LoadEffect(profiles, error) == AfterLoad(user, capturedUniversity, old(profiles), outcome)
      ensures !loading
    {
      loading := true;
      error := "";
      if user.id == "" {
        error := UserIdMissingMessage;
        loading := false;
        return;
      }
      if capturedUniversity != "" {
        match outcome {
          case DataLoaded(rows) => profiles := rows;
          case RequestsFailed(rows) => profiles := rows;
          case LoadThrew(read) => if read.Some? { profiles := read.value; }
        }
      }
      match outcome {
        case DataLoaded(_) =>
        case RequestsFailed(_) =>
          error := if SeesAdminRequests(user) then RequestsLoadFailedMessage else OwnRequestsLoadFailedMessage;
        case LoadThrew(_) => error := LoadFailedMessage;
      }
      loading := false;
    }

    /**
     * `handleSubmitRequest`: a failing guard only sets its message; otherwise
     * one insert of the built request. On success the form is reset and
     * `loadData` runs with the university the handler's render captured, so
     * its outcome `reload` decides the error and refills the profile list;
     * on failure the form is kept.
     */
    method HandleSubmitRequest(store: Store, reload: DataLoad)
      modifies this`selectedUniversity, this`requestType, this`selectedProfile, this`newProfileName,
               this`profiles, this`error, this`submitting, this`loading, store
      ensures SubmitGuard(old(Form()), user.role).Some? ==>
        && error == SubmitGuard(old(Form()), user.role).value
        && Form() == old(Form()) && profiles == old(profiles) && submitting == old(submitting) && loading == old(loading)
        && store.log == old(store.log) && store.calls == old(store.calls)
      ensures SubmitGuard(old(Form()), user.role).None? ==>
        && !submitting && store.calls == old(store.calls) + 1
        && (old(store.calls) !in store.faults ==>
              && store.log == old(store.log) + [InsertRequest(BuildRequest(user.id, old(Form()), old(profiles)))]
              && Form() == ResetForm && !loading
              && LoadEffect(profiles, error) == AfterLoad(user, old(selectedUniversity), [], reload))
        && (old(store.calls) in store.faults ==>
              && store.log == old(store.log) && loading == old(loading)
              && Form() == old(Form()) && profiles == old(profiles) && error == SubmitFailedMessage)
    {
      var failure := SubmitGuard(Form(), user.role);
      if failure.Some? {
        error := failure.value;
        return;
      }
      submitting := true;
      error := "";
      var request := BuildRequest(user.id, Form(), profiles);
      var ok, _, _ := store.Issue(InsertRequest(request));
      if !ok {
        error := SubmitFailedMessage;
      } else {
        var captured := selectedUniversity;
        selectedUniversity := "";
        requestType := RoleChange;
        selectedProfile := "";
        newProfileName := "";
        profiles := [];
        LoadData(captured, reload);
      }
      submitting := false;
    }

    /**
     * `handleApproveRequest`: reads the request, then sends the approval
     * plan in order, stopping at the first failure with that step's message.
     * A completed approval ends with `loadData`, whose outcome `reload`
     * decides the error and the profile list.
     */
    method HandleApproveRequest(store: Store, requestId: string, reload: DataLoad) returns (ghost completed: bool)
      modifies this`error, this`profiles, this`loading, store
      ensures requestId !in old(store.db.requests) ==>
        && error == RequestNotFoundMessage && profiles == old(profiles) && loading == old(loading)
        && store.log == old(store.log) && store.calls == old(store.calls)
      ensures requestId in old(store.db.requests) ==>
        var plan := ApprovalPlan(requestId, old(store.db.requests[requestId]));
        && Ran(old(store.log), old(store.calls), store.log, store.calls, plan, completed)
        && (completed ==> !loading && LoadEffect(profiles, error) == AfterLoad(user, selectedUniversity, old(profiles), reload))
        && (!completed ==> error == ApprovalFailureMessage(plan[|store.log| - |old(store.log)|])
                           && profiles == old(profiles) && loading == old(loading))
    {
      completed := false;
      if requestId !in store.db.requests {
        error := RequestNotFoundMessage;
        return;
      }
      var request := store.db.requests[requestId];
      ghost var log0, calls0 := store.log, store.calls;
      ghost var plan := ApprovalPlan(requestId, request);
      ghost var head: seq<Write> := [];
      RanNothing(log0, calls0);
      if request.requestedRole == Alumni {
        var ok, _, _ := store.Issue(InsertProfile(ApprovalProfile(request)));
        RanStep(log0, calls0, log0, calls0, store.log, store.calls, [], InsertProfile(ApprovalProfile(request)), ok);
        head := [InsertProfile(ApprovalProfile(request))];
        if !ok {
          RanStoppedWithin(log0, calls0, store.log, store.calls, head, plan);
          error := ProfileFailedMessage;
          return;
        }
      }
      ghost var log1, calls1 := store.log, store.calls;
      var userOk, _, _ := store.Issue(ApprovalUserWrite(request));
      RanStep(log0, calls0, log1, calls1, store.log, store.calls, head, ApprovalUserWrite(request), userOk);
      if !userOk {
        RanStoppedWithin(log0, calls0, store.log, store.calls, head + [ApprovalUserWrite(request)], plan);
        error := ApproveFailedMessage;
        return;
      }
      ghost var log2, calls2 := store.log, store.calls;
      var statusOk, _, _ := store.Issue(UpdateRequestStatus(requestId, Approved));
      RanStep(log0, calls0, log2, calls2, store.log, store.calls, head + [ApprovalUserWrite(request)],
              UpdateRequestStatus(requestId, Approved), statusOk);
      if !statusOk {
        error := StatusFailedMessage;
        return;
      }
      LoadData(selectedUniversity, reload);
      completed := true;
    }

    /**
     * `handleRejectRequest`: one status update; a failure sets its message,
     * success ends with `loadData`, whose outcome `reload` decides the error
     * and the profile list.
     */
    method HandleRejectRequest(store: Store, requestId: string, reload: DataLoad)
      modifies this`error, this`profiles, this`loading, store
      ensures store.calls == old(store.calls) + 1
      ensures old(store.calls) !in store.faults ==>
        && store.log == old(store.log) + [UpdateRequestStatus(requestId, Rejected)] && !loading
        && LoadEffect(profiles, error) == AfterLoad(user, selectedUniversity, old(profiles), reload)
      ensures old(store.calls) in store.faults ==>
        store.log == old(store.log) && error == RejectFailedMessage && profiles == old(profiles) && loading == old(loading)
    {
      var ok, _, _ := store.Issue(UpdateRequestStatus(requestId, Rejected));
      if ok {
        LoadData(selectedUniversity, reload);
      } else {
        error := RejectFailedMessage;
      }
    }
  }
}
