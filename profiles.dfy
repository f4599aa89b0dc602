/**
 * Profile creation, profile update and photo upload of src/lib/profiles.ts,
 * over the abstract store. The clock (`Date.now()`, `new Date().toISOString()`)
 * is a parameter.
 */
module Profiles {
  import opened Wrappers
  import opened Strings
  import opened Lists
  import opened Auth
  import opened Backend

  /** Why an awaited call threw: the backend reported an error, or the code threw its own. */
  datatype Failure = BackendError | Thrown(message: string)

  const NoProfileUpdatedMessage := "No profile updated. Check Row Level Security permissions or profile ID."

  /** The `user` of `CreateProfileData`: an id and the stored role string, if any. */
  datatype Creator = Creator(id: string, userRole: Option<string>)

  /** A timeline event supplied with a new profile (no id, no profile id yet). */
  datatype NewEvent = NewEvent(
    title: string,
    description: Option<string>,
    eventType: EventType,
    startDate: string,
    endDate: Option<string>,
    institution: string)

  datatype NewStory = NewStory(question: string, answer: string)

  datatype CreateProfileData = CreateProfileData(
    name: string,
    birthDate: Option<string>,
    passedDate: Option<string>,
    universityId: Option<string>,
    timelineEvents: Option<seq<NewEvent>>,
    stories: Option<seq<NewStory>>,
    user: Option<Creator>)

  /** The status a new profile starts in, chosen from the creator's role. */
  function InitialStatus(user: Option<Creator>): (s: ProfileStatus)
    ensures s != Archived
    ensures s == Published <==>
      user.Some? && (user.value.userRole == Some("platform_admin") || user.value.userRole == Some("university_admin"))
    ensures s == PendingReview <==> user.Some? && user.value.userRole == Some("alumni")
  {
    var role := if user.Some? then user.value.userRole else None;
    if role == Some("platform_admin") || role == Some("university_admin") then Published
    else if role == Some("alumni") then PendingReview
    else Draft
  }

  /** The creator record a signed-in user supplies. */
  function CreatorOf(u: User): Creator {
    Creator(u.id, if u.role.Some? then Some(RoleName(u.role.value)) else None)
  }

  /**
   * For a signed-in user the initial status follows the permission algebra:
   * published for those who may approve profiles, pending review for alumni,
   * draft for everyone who may not create profiles at all.
   */
  lemma InitialStatusFollowsPermissions(u: User)
    ensures InitialStatus(Some(CreatorOf(u))) == Published <==> CanApproveProfiles(Some(u))
    ensures InitialStatus(Some(CreatorOf(u))) == PendingReview <==> IsAlumni(Some(u))
    ensures InitialStatus(Some(CreatorOf(u))) == Draft <==> !CanCreateProfiles(Some(u))
  {
    if u.role.Some? {
      ParseRoleName(u.role.value);
    }
  }

  /** The `profiles` row `createProfile` inserts. */
  function NewProfileRow(data: CreateProfileData): ProfileRow {
    ProfileRow(
      data.name, data.birthDate, data.passedDate, data.universityId,
      InitialStatus(data.user),
      if data.user.Some? then Some(data.user.value.id) else None,
      None, None, None)
  }

  /** `event.start_date && event.start_date.trim() !== ''`. */
  predicate HasStartDate(e: NewEvent) {
    !IsBlank(e.startDate)
  }

  /** An optional date kept only when it is present and not blank, else `undefined`. */
  function NonBlank(d: Option<string>): (r: Option<string>)
    ensures r.Some? <==> d.Some? && !IsBlank(d.value)
    ensures r.Some? ==> r == d
  {
    if d.Some? && !IsBlank(d.value) then d else None
  }

  /** The row of one supplied event, tagged with the new profile's id. */
  function EventRowFor(profileId: string, e: NewEvent): EventRow {
    EventRow(profileId, e.title, e.description, e.eventType, e.startDate, NonBlank(e.endDate), e.institution)
  }

  /** The timeline rows inserted for a new profile: events without a start date dropped, the rest tagged. */
  function PrepareEvents(events: seq<NewEvent>, profileId: string): seq<EventRow> {
    var kept := Filter(events, HasStartDate);
    seq(|kept|, i requires 0 <= i < |kept| => EventRowFor(profileId, kept[i]))
  }

  /** Every inserted timeline row carries the new profile's id, a start date, and no blank end date. */
  lemma PrepareEventsRows(events: seq<NewEvent>, profileId: string)
    ensures |PrepareEvents(events, profileId)| <= |events|
    ensures forall row :: row in PrepareEvents(events, profileId) ==>
      row.profileId == profileId && !IsBlank(row.startDate) && (row.endDate.Some? ==> !IsBlank(row.endDate.value))
  {
    var kept := Filter(events, HasStartDate);
    forall row | row in PrepareEvents(events, profileId)
      ensures !IsBlank(row.startDate)
    {
      var k :| 0 <= k < |kept| && row == EventRowFor(profileId, kept[k]);
      assert HasStartDate(kept[k]);
    }
  }

  /** Every supplied event, tagged, before filtering. */
  function AllEventRows(events: seq<NewEvent>, profileId: string): seq<EventRow> {
    seq(|events|, i requires 0 <= i < |events| => EventRowFor(profileId, events[i]))
  }

  /** The inserted timeline rows keep the order of the supplied events. */
  lemma PrepareEventsKeepsOrder(events: seq<NewEvent>, profileId: string)
    ensures IsSubsequence(PrepareEvents(events, profileId), AllEventRows(events, profileId))
  {
    var idx := FilterEmbedding(events, HasStartDate);
    assert IsEmbedding(idx, PrepareEvents(events, profileId), AllEventRows(events, profileId));
  }

  /** Every supplied event with a start date has its row inserted. */
  lemma PrepareEventsKeepsDated(events: seq<NewEvent>, profileId: string, i: nat)
    requires i < |events| && HasStartDate(events[i])
    ensures EventRowFor(profileId, events[i]) in PrepareEvents(events, profileId)
  {
    var kept := Filter(events, HasStartDate);
    var k :| 0 <= k < |kept| && kept[k] == events[i];
    assert PrepareEvents(events, profileId)[k] == EventRowFor(profileId, events[i]);
  }

  /** No timeline row is left exactly when no supplied event has a start date. */
  lemma PrepareEventsEmpty(events: seq<NewEvent>, profileId: string)
    ensures PrepareEvents(events, profileId) == [] <==> forall i :: 0 <= i < |events| ==> !HasStartDate(events[i])
  {
    if PrepareEvents(events, profileId) != [] {
      var row := PrepareEvents(events, profileId)[0];
      var kept := Filter(events, HasStartDate);
      var k :| 0 <= k < |events| && events[k] == kept[0];
      assert HasStartDate(events[k]);
    }
  }

  /** The story rows inserted for a new profile, unfiltered. */
  function PrepareStories(stories: seq<NewStory>, profileId: string): seq<StoryRow> {
    seq(|stories|, i requires 0 <= i < |stories| => StoryRow(profileId, stories[i].question, stories[i].answer))
  }

  /** Story rows carry the new profile's id and give back the supplied stories, in count and order. */
  lemma PrepareStoriesKeepsStories(stories: seq<NewStory>, profileId: string)
    ensures forall row :: row in PrepareStories(stories, profileId) ==> row.profileId == profileId
    ensures seq(|PrepareStories(stories, profileId)|, i requires 0 <= i < |PrepareStories(stories, profileId)| =>
              NewStory(PrepareStories(stories, profileId)[i].question, PrepareStories(stories, profileId)[i].answer)) == stories
  {
  }

  /** The timeline insert of a new profile: skipped without events or when none has a start date. */
  function EventWrites(data: CreateProfileData, profileId: string): seq<Write> {
    if data.timelineEvents.Some? && |data.timelineEvents.value| > 0 && |PrepareEvents(data.timelineEvents.value, profileId)| > 0
    then [InsertEvents(PrepareEvents(data.timelineEvents.value, profileId))]
    else []
  }

  /** The story insert of a new profile: skipped without stories. */
  function StoryWrites(data: CreateProfileData, profileId: string): seq<Write> {
    if data.stories.Some? && |data.stories.value| > 0
    then [InsertStories(PrepareStories(data.stories.value, profileId))]
    else []
  }

  /**
   * The timeline insert is one request, never empty, and it is issued
   * exactly when some supplied event has a start date.
   */
  lemma EventWritesShape(data: CreateProfileData, profileId: string)
    ensures |EventWrites(data, profileId)| <= 1
    ensures EventWrites(data, profileId) != [] ==>
      EventWrites(data, profileId)[0].InsertEvents? && EventWrites(data, profileId)[0].eventRows != []
    ensures EventWrites(data, profileId) != [] <==>
      data.timelineEvents.Some? && exists i :: 0 <= i < |data.timelineEvents.value| && HasStartDate(data.timelineEvents.value[i])
  {
    if data.timelineEvents.Some? {
      PrepareEventsEmpty(data.timelineEvents.value, profileId);
    }
  }

  /**
   * `createProfile`: inserts the profile row, then the dated timeline events,
   * then the stories; the first failing call throws and stops the rest.
   * `profileId` is the id the store gave the new row.
   */
  method CreateProfile(store: Store, data: CreateProfileData) returns (r: Result<(string, ProfileRow), Failure>, ghost profileId: string)
    modifies store
    ensures Ran(old(store.log), old(store.calls), store.log, store.calls,
                [InsertProfile(NewProfileRow(data))] + (EventWrites(data, profileId) + StoryWrites(data, profileId)), r.Ok?)
    ensures r.Ok? ==> r.value == (profileId, NewProfileRow(data))
    ensures r.Ok? ==> profileId !in old(store.db.profiles) && store.db.profiles == old(store.db.profiles)[profileId := r.value.1]
    ensures r.Ok? ==> r.value.1.status == InitialStatus(data.user) && r.value.1.status != Archived
    ensures r.Ok? ==> r.value.1.createdBy == (if data.user.Some? then Some(data.user.value.id) else None)
    ensures r.Err? ==> r.error == BackendError
  {
    var row := NewProfileRow(data);
    ghost var log0, calls0 := store.log, store.calls;
    var ok, _, keys := store.Issue(InsertProfile(row));
    if !ok {
      profileId := "";
      RanStopped(log0, calls0, store.log, store.calls, [InsertProfile(row)], EventWrites(data, "") + StoryWrites(data, ""));
      return Err(BackendError), profileId;
    }
    var id := keys[0];
    profileId := id;
    ghost var log1, calls1 := store.log, store.calls;
    var inserted := InsertChildren(store, data, id);
    RanThen(log0, calls0, log1, calls1, store.log, store.calls,
            [InsertProfile(row)], EventWrites(data, id) + StoryWrites(data, id), inserted);
    if !inserted {
      return Err(BackendError), profileId;
    }
    r := Ok((id, row));
  }

  /** The timeline and story inserts of `createProfile`, for the new profile `id`; profiles are untouched. */
  method InsertChildren(store: Store, data: CreateProfileData, id: string) returns (ok: bool)
    modifies store
    ensures Ran(old(store.log), old(store.calls), store.log, store.calls, EventWrites(data, id) + StoryWrites(data, id), ok)
    ensures store.db.profiles == old(store.db.profiles)
  {
    ghost var log0, calls0 := store.log, store.calls;
    ok := InsertTimelineRows(store, data, id);
    if !ok {
      RanStopped(log0, calls0, store.log, store.calls, EventWrites(data, id), StoryWrites(data, id));
      return;
    }
    ghost var log1, calls1 := store.log, store.calls;
    ok := InsertStoryRows(store, data, id);
    RanThen(log0, calls0, log1, calls1, store.log, store.calls, EventWrites(data, id), StoryWrites(data, id), ok);
  }

  /** The timeline insert of `createProfile`. */
  method InsertTimelineRows(store: Store, data: CreateProfileData, id: string) returns (ok: bool)
    modifies store
    ensures Ran(old(store.log), old(store.calls), store.log, store.calls, EventWrites(data, id), ok)
    ensures store.db.profiles == old(store.db.profiles)
  {
    ok := true;
    if data.timelineEvents.Some? && |data.timelineEvents.value| > 0 {
      var validEvents := PrepareEvents(data.timelineEvents.value, id);
      if |validEvents| > 0 {
        var inserted, _, _ := store.Issue(InsertEvents(validEvents));
        ok := inserted;
      }
    }
  }

  /** The story insert of `createProfile`. */
  method InsertStoryRows(store: Store, data: CreateProfileData, id: string) returns (ok: bool)
    modifies store
    ensures Ran(old(store.log), old(store.calls), store.log, store.calls, StoryWrites(data, id), ok)
    ensures store.db.profiles == old(store.db.profiles)
  {
    ok := true;
    if data.stories.Some? && |data.stories.value| > 0 {
      var inserted, _, _ := store.Issue(InsertStories(PrepareStories(data.stories.value, id)));
      ok := inserted;
    }
  }

  /** The payload `updateProfile` sends: the caller's fields plus `updated_at`. */
  function Stamped(patch: ProfilePatch, nowIso: string): (p: ProfilePatch)
    ensures p.updatedAt == Some(nowIso)
    ensures p.(updatedAt := patch.updatedAt) == patch
  {
    patch.(updatedAt := Some(nowIso))
  }

  /**
   * `updateProfile`: one update that asks for the row back. A backend error
   * is rethrown; no row back (a missing row, or one the row-level policies
   * hide) throws `NoProfileUpdatedMessage`.
   */
  method UpdateProfile(store: Store, id: string, patch: ProfilePatch, nowIso: string) returns (r: Result<ProfileRow, Failure>)
    modifies store
    ensures Ran(old(store.log), old(store.calls), store.log, store.calls, [UpdateProfileRow(id, Stamped(patch, nowIso), true)], r.Ok?)
    ensures r.Ok? <==> old(store.calls) !in store.faults && id in old(store.db.profiles)
    ensures r.Ok? ==> r.value == ApplyProfilePatch(old(store.db.profiles[id]), Stamped(patch, nowIso))
    ensures r.Ok? ==> r.value.updatedAt == Some(nowIso) && store.db.profiles == old(store.db.profiles)[id := r.value]
    ensures r.Err? ==> (r.error == Thrown(NoProfileUpdatedMessage) <==> old(store.calls) !in store.faults)
    ensures r.Err? ==> r.error == BackendError || r.error == Thrown(NoProfileUpdatedMessage)
    ensures r.Err? ==> store.db == old(store.db)
  {
    var w := UpdateProfileRow(id, Stamped(patch, nowIso), true);
    var ok, rejected, _ := store.Issue(w);
    if !ok && !rejected {
      return Err(BackendError);
    }
    if !ok {
      return Err(Thrown(NoProfileUpdatedMessage));
    }
    r := Ok(store.db.profiles[id]);
  }

  const ProfileBucket := "profile-photos"
  const CoverBucket := "cover-photos"

  /** `name.split('.').pop()`: the text after the last '.', or the whole name. */
  function Extension(fileName: string): (ext: string)
    ensures '.' !in ext
  {
    var parts := Split(fileName, '.');
    SplitPartsOmitSeparator(fileName, '.');
    assert parts[|parts| - 1] in parts;
    parts[|parts| - 1]
  }

  /** The extension is a suffix of the name: all of it without a '.', else what follows the last '.'. */
  lemma ExtensionIsLastSegment(fileName: string)
    ensures |Extension(fileName)| <= |fileName|
    ensures Extension(fileName) == fileName[|fileName| - |Extension(fileName)|..]
    ensures '.' !in fileName ==> Extension(fileName) == fileName
    ensures '.' in fileName ==> |Extension(fileName)| < |fileName| && fileName[|fileName| - |Extension(fileName)| - 1] == '.'
  {
    var parts := Split(fileName, '.');
    var ext := parts[|parts| - 1];
    if '.' !in fileName {
      SplitWithoutSeparator(fileName, '.');
    } else {
      JoinSplit(fileName, '.');
      SplitPartsOmitSeparator(fileName, '.');
      assert parts[0] in parts;
      JoinLast(parts, '.');
      var front := Join(parts[..|parts| - 1], '.');
      assert fileName == front + ['.'] + ext;
      assert fileName[|fileName| - |ext|..] == ext;
      assert fileName[|fileName| - |ext| - 1] == '.';
    }
  }

  /** A name built as `<stem>.<ext>`, with no '.' in `ext`, has extension `ext`. */
  lemma ExtensionOfDotted(stem: string, ext: string)
    requires '.' !in ext
    ensures Extension(stem + "." + ext) == ext
  {
    SplitAppend(stem, '.', ext);
  }

  /** `${profileId}-profile-${Date.now()}.${fileExt}`. */
  function ProfilePhotoFileName(profileId: string, now: nat, fileName: string): string {
    profileId + "-profile-" + DecimalString(now) + "." + Extension(fileName)
  }

  /** `${profileId}-cover-${Date.now()}.${fileExt}`. */
  function CoverPhotoFileName(profileId: string, now: nat, fileName: string): string {
    profileId + "-cover-" + DecimalString(now) + "." + Extension(fileName)
  }

  /**
   * Stored photo names start with the profile id and the photo kind, keep
   * the uploaded file's extension, and a profile photo and a cover photo
   * never share a name.
   */
  lemma PhotoFileNames(profileId: string, now: nat, fileName: string)
    ensures StartsWith(ProfilePhotoFileName(profileId, now, fileName), profileId + "-profile-")
    ensures StartsWith(CoverPhotoFileName(profileId, now, fileName), profileId + "-cover-")
    ensures Extension(ProfilePhotoFileName(profileId, now, fileName)) == Extension(fileName)
    ensures Extension(CoverPhotoFileName(profileId, now, fileName)) == Extension(fileName)
    ensures ProfilePhotoFileName(profileId, now, fileName) != CoverPhotoFileName(profileId, now, fileName)
  {
    var ext := Extension(fileName);
    ExtensionOfDotted(profileId + "-profile-" + DecimalString(now), ext);
    ExtensionOfDotted(profileId + "-cover-" + DecimalString(now), ext);
    assert ProfilePhotoFileName(profileId, now, fileName)[|profileId| + 1] == 'p';
    assert CoverPhotoFileName(profileId, now, fileName)[|profileId| + 1] == 'c';
  }

  /** The public URL of a stored object; only its dependence on bucket and name is modelled. */
  function PublicUrl(bucket: string, objectName: string): string {
    bucket + "/" + objectName
  }

  /** What `uploadProfilePhoto` asks of the backend: store the object, then record its URL on the profile. */
  function ProfilePhotoWrites(fileName: string, profileId: string, now: nat, nowIso: string): seq<Write> {
    var name := ProfilePhotoFileName(profileId, now, fileName);
    [UploadPhoto(ProfileBucket, name),
     UpdateProfileRow(profileId, Stamped(EmptyProfilePatch.(profilePhotoUrl := Some(PublicUrl(ProfileBucket, name))), nowIso), true)]
  }

  /** What `uploadCoverPhoto` asks of the backend. */
  function CoverPhotoWrites(fileName: string, profileId: string, now: nat, nowIso: string): seq<Write> {
    var name := CoverPhotoFileName(profileId, now, fileName);
    [UploadPhoto(CoverBucket, name),
     UpdateProfileRow(profileId, Stamped(EmptyProfilePatch.(coverPhotoUrl := Some(PublicUrl(CoverBucket, name))), nowIso), true)]
  }

  /** `uploadProfilePhoto`: returns the public URL it recorded on the profile. */
  method UploadProfilePhoto(store: Store, fileName: string, profileId: string, now: nat, nowIso: string)
    returns (r: Result<string, Failure>)
    modifies store
    ensures Ran(old(store.log), old(store.calls), store.log, store.calls, ProfilePhotoWrites(fileName, profileId, now, nowIso), r.Ok?)
    ensures r.Ok? ==> r.value == PublicUrl(ProfileBucket, ProfilePhotoFileName(profileId, now, fileName))
    ensures r.Ok? ==> profileId in store.db.profiles && store.db.profiles[profileId].profilePhotoUrl == Some(r.value)
  {
    var name := ProfilePhotoFileName(profileId, now, fileName);
    var log0, calls0 := store.log, store.calls;
    var ok, _, _ := store.Issue(UploadPhoto(ProfileBucket, name));
    if !ok {
      return Err(BackendError);
    }
    var url := PublicUrl(ProfileBucket, name);
    var log1, calls1 := store.log, store.calls;
    var updated := UpdateProfile(store, profileId, EmptyProfilePatch.(profilePhotoUrl := Some(url)), nowIso);
    RanThen(log0, calls0, log1, calls1, store.log, store.calls,
            [UploadPhoto(ProfileBucket, name)], [UpdateProfileRow(profileId, Stamped(EmptyProfilePatch.(profilePhotoUrl := Some(url)), nowIso), true)],
            updated.Ok?);
    if updated.Err? {
      return Err(updated.error);
    }
    r := Ok(url);
  }

  /** `uploadCoverPhoto`: returns the public URL it recorded on the profile. */
  method UploadCoverPhoto(store: Store, fileName: string, profileId: string, now: nat, nowIso: string)
    returns (r: Result<string, Failure>)
    modifies store
    ensures Ran(old(store.log), old(store.calls), store.log, store.calls, CoverPhotoWrites(fileName, profileId, now, nowIso), r.Ok?)
    ensures r.Ok? ==> r.value == PublicUrl(CoverBucket, CoverPhotoFileName(profileId, now, fileName))
    ensures r.Ok? ==> profileId in store.db.profiles && store.db.profiles[profileId].coverPhotoUrl == Some(r.value)
  {
    var name := CoverPhotoFileName(profileId, now, fileName);
    var log0, calls0 := store.log, store.calls;
    var ok, _, _ := store.Issue(UploadPhoto(CoverBucket, name));
    if !ok {
      return Err(BackendError);
    }
    var url := PublicUrl(CoverBucket, name);
    var log1, calls1 := store.log, store.calls;
    var updated := UpdateProfile(store, profileId, EmptyProfilePatch.(coverPhotoUrl := Some(url)), nowIso);
    RanThen(log0, calls0, log1, calls1, store.log, store.calls,
            [UploadPhoto(CoverBucket, name)], [UpdateProfileRow(profileId, Stamped(EmptyProfilePatch.(coverPhotoUrl := Some(url)), nowIso), true)],
            updated.Ok?);
    if updated.Err? {
      return Err(updated.error);
    }
    r := Ok(url);
  }
}
