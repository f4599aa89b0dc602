/**
 * The alumni profile editor (src/app/alumni/profile/page.tsx): the form's
 * local list editors, and the save handler, which updates the profile row
 * and then synchronises the timeline events and stories against the ids
 * captured at load time (update what was there, create what is new, delete
 * what disappeared) before uploading any chosen photos and reloading the
 * profile (`loadProfile`, modelled by `Reloaded`).
 *
 * What a save asks of the backend is given by pure plans (`TimelinePlan`,
 * `StoryPlan`, `PhotoPlan`); the handler is proved to issue, in order, a
 * prefix of each plan, all of it unless a call fails.
 */
module AlumniEditor {
  import opened Wrappers
  import opened Strings
  import opened Lists
  import opened Backend
  import opened Profiles

  /** A timeline event as the form holds it; absent dates and descriptions are empty strings. */
  datatype TimelineEventData = TimelineEventData(
    id: string,
    kind: EventType,
    title: string,
    institution: string,
    startDate: string,
    endDate: string,
    description: string)

  datatype StoryData = StoryData(id: string, question: string, answer: string)

  /** The eight prompts offered when a profile has no stories yet. */
  const StoryQuestions: seq<string> := [
    "What was your proudest moment?",
    "What inspired you to pursue your career?",
    "What advice would you give to current students?",
    "What was your favorite memory from university?",
    "What legacy do you hope to leave behind?",
    "What challenges did you overcome?",
    "What would you like to be remembered for?",
    "What was your biggest achievement?"
  ]

  function Ids(timeline: seq<TimelineEventData>): seq<string> {
    seq(|timeline|, i requires 0 <= i < |timeline| => timeline[i].id)
  }

  function StoryIds(stories: seq<StoryData>): seq<string> {
    seq(|stories|, i requires 0 <= i < |stories| => stories[i].id)
  }

  // ---------------------------------------------------------------------
  // Local list editors

  /** One form input of a timeline event, with its new value (`{ ...e, [field]: value }`). */
  datatype TimelineEdit =
    | SetId(id: string)
    | SetType(kind: EventType)
    | SetTitle(title: string)
    | SetInstitution(institution: string)
    | SetStartDate(startDate: string)
    | SetEndDate(endDate: string)
    | SetDescription(description: string)

  function WithEdit(e: TimelineEventData, edit: TimelineEdit): TimelineEventData {
    match edit
    case SetId(v) => e.(id := v)
    case SetType(v) => e.(kind := v)
    case SetTitle(v) => e.(title := v)
    case SetInstitution(v) => e.(institution := v)
    case SetStartDate(v) => e.(startDate := v)
    case SetEndDate(v) => e.(endDate := v)
    case SetDescription(v) => e.(description := v)
  }

  /** `prev.map(e => e.id === id ? { ...e, [field]: value } : e)`. */
  function EditedTimeline(timeline: seq<TimelineEventData>, id: string, edit: TimelineEdit): (r: seq<TimelineEventData>)
    ensures |r| == |timeline|
  {
    seq(|timeline|, i requires 0 <= i < |timeline| => if timeline[i].id == id then WithEdit(timeline[i], edit) else timeline[i])
  }

  /** The filter predicate `e => e.id !== id`. */
  function NotWithId(id: string): TimelineEventData -> bool {
    (e: TimelineEventData) => e.id != id
  }

  /** `prev.filter(e => e.id !== id)`. */
  function RemovedFromTimeline(timeline: seq<TimelineEventData>, id: string): seq<TimelineEventData> {
    Filter(timeline, NotWithId(id))
  }

  /**
   * An edit changes only the items with the given id, and in them only the
   * edited input; ids stay the same unless the id itself is edited.
   */
  lemma EditTouchesOnlyMatching(timeline: seq<TimelineEventData>, id: string, edit: TimelineEdit)
    ensures forall i :: 0 <= i < |timeline| && timeline[i].id != id ==> EditedTimeline(timeline, id, edit)[i] == timeline[i]
    ensures forall i :: 0 <= i < |timeline| && timeline[i].id == id ==>
      EditedTimeline(timeline, id, edit)[i] == WithEdit(timeline[i], edit)
    ensures !edit.SetId? ==> Ids(EditedTimeline(timeline, id, edit)) == Ids(timeline)
  {
  }

  /** Applying the same edit twice is applying it once. */
  lemma EditIdempotent(timeline: seq<TimelineEventData>, id: string, edit: TimelineEdit)
    ensures EditedTimeline(EditedTimeline(timeline, id, edit), id, edit) == EditedTimeline(timeline, id, edit)
  {
  }

  /**
   * Removal drops exactly the items with the id and keeps the rest in order;
   * editing an item and then removing it is the same as removing it.
   */
  lemma RemoveDropsExactlyMatching(timeline: seq<TimelineEventData>, id: string, edit: TimelineEdit)
    ensures id !in Ids(RemovedFromTimeline(timeline, id))
    ensures forall i :: 0 <= i < |timeline| && timeline[i].id != id ==> timeline[i] in RemovedFromTimeline(timeline, id)
    ensures IsSubsequence(RemovedFromTimeline(timeline, id), timeline)
    ensures !edit.SetId? ==> RemovedFromTimeline(EditedTimeline(timeline, id, edit), id) == RemovedFromTimeline(timeline, id)
  {
    var r := RemovedFromTimeline(timeline, id);
    FilterIsSubsequence(timeline, NotWithId(id));
    if !edit.SetId? {
      RemoveAfterEdit(timeline, id, edit);
    }
  }

  lemma {:induction false} RemoveAfterEdit(timeline: seq<TimelineEventData>, id: string, edit: TimelineEdit)
    requires !edit.SetId?
    ensures RemovedFromTimeline(EditedTimeline(timeline, id, edit), id) == RemovedFromTimeline(timeline, id)
  {
    if timeline != [] {
      RemoveAfterEdit(timeline[1..], id, edit);
      assert EditedTimeline(timeline, id, edit)[1..] == EditedTimeline(timeline[1..], id, edit);
    }
  }

  /** The blank event `addTimelineEventLocal` and `addPredefinedTimelineEvent` append. */
  function BlankEvent(id: string): TimelineEventData {
    TimelineEventData(id, Education, "", "", "", "", "")
  }

  /** `addTimelineEventLocal`: a blank event whose id is the clock reading. */
  function WithNewEvent(timeline: seq<TimelineEventData>, now: nat): seq<TimelineEventData> {
    timeline + [BlankEvent(DecimalString(now))]
  }

  /** `addPredefinedTimelineEvent`: a blank event with a `predefined-` id. */
  function WithPredefinedEvent(timeline: seq<TimelineEventData>, now: nat): seq<TimelineEventData> {
    timeline + [BlankEvent("predefined-" + DecimalString(now))]
  }

  /** One form input of a story, with its new value. */
  datatype StoryEdit = SetStoryId(id: string) | SetQuestion(question: string) | SetAnswer(answer: string)

  function WithStoryEdit(s: StoryData, edit: StoryEdit): StoryData {
    match edit
    case SetStoryId(v) => s.(id := v)
    case SetQuestion(v) => s.(question := v)
    case SetAnswer(v) => s.(answer := v)
  }

  function EditedStories(stories: seq<StoryData>, id: string, edit: StoryEdit): (r: seq<StoryData>)
    ensures |r| == |stories|
  {
    seq(|stories|, i requires 0 <= i < |stories| => if stories[i].id == id then WithStoryEdit(stories[i], edit) else stories[i])
  }

  /** The filter predicate `s => s.id !== id`. */
  function NotStoryWithId(id: string): StoryData -> bool {
    (s: StoryData) => s.id != id
  }

  function RemovedFromStories(stories: seq<StoryData>, id: string): seq<StoryData> {
    Filter(stories, NotStoryWithId(id))
  }

  /** Story edits change only the stories with the id; removal drops exactly those, keeping order. */
  lemma StoryEditorsTouchOnlyMatching(stories: seq<StoryData>, id: string, edit: StoryEdit)
    ensures forall i :: 0 <= i < |stories| && stories[i].id != id ==> EditedStories(stories, id, edit)[i] == stories[i]
    ensures forall i :: 0 <= i < |stories| && stories[i].id == id ==>
      EditedStories(stories, id, edit)[i] == WithStoryEdit(stories[i], edit)
    ensures !edit.SetStoryId? ==> StoryIds(EditedStories(stories, id, edit)) == StoryIds(stories)
    ensures id !in StoryIds(RemovedFromStories(stories, id))
    ensures forall i :: 0 <= i < |stories| && stories[i].id != id ==> stories[i] in RemovedFromStories(stories, id)
    ensures IsSubsequence(RemovedFromStories(stories, id), stories)
  {
    var r := RemovedFromStories(stories, id);
    FilterIsSubsequence(stories, NotStoryWithId(id));
  }

  /** `addStoryLocal`. */
  function WithNewStory(stories: seq<StoryData>, now: nat): seq<StoryData> {
    stories + [StoryData(DecimalString(now), "Tell us a story...", "")]
  }

  /** `addPredefinedStories`: one story per prompt, id `predefined-<now>-<index>`. */
  function WithPredefinedStories(stories: seq<StoryData>, now: nat): seq<StoryData> {
    stories + seq(|StoryQuestions|, i requires 0 <= i < |StoryQuestions| =>
      StoryData("predefined-" + DecimalString(now) + "-" + DecimalString(i), StoryQuestions[i], ""))
  }

  /** The predefined stories are appended after the existing ones: the eight prompts in order, unanswered. */
  lemma PredefinedStoriesAppended(stories: seq<StoryData>, now: nat)
    ensures |WithPredefinedStories(stories, now)| == |stories| + 8
    ensures WithPredefinedStories(stories, now)[..|stories|] == stories
    ensures forall i :: 0 <= i < 8 ==>
      WithPredefinedStories(stories, now)[|stories| + i].question == StoryQuestions[i] &&
      WithPredefinedStories(stories, now)[|stories| + i].answer == ""
  {
  }

  // ---------------------------------------------------------------------
  // What a save sends

  /** `event.startDate && event.startDate.trim() !== ''`. */
  predicate HasStart(e: TimelineEventData) {
    !IsBlank(e.startDate)
  }

  /** The events a save creates or updates. */
  function ValidEvents(timeline: seq<TimelineEventData>): seq<TimelineEventData> {
    Filter(timeline, HasStart)
  }

  /**
   * The fields a save sends for an event: an empty description and a blank
   * end date are sent as `undefined`, i.e. left out of the payload.
   */
  function EventPayload(e: TimelineEventData): (p: EventPatch)
    ensures p.description.None? <==> e.description == ""
    ensures p.endDate.None? <==> IsBlank(e.endDate)
    ensures p.title == e.title && p.eventType == e.kind && p.startDate == e.startDate && p.institution == e.institution
  {
    EventPatch(
      e.title,
      if e.description == "" then None else Some(e.description),
      e.kind,
      e.startDate,
      if IsBlank(e.endDate) then None else Some(e.endDate),
      e.institution)
  }

  /** The row a save creates for a new event of profile `profileId`. */
  function NewEventRow(profileId: string, e: TimelineEventData): EventRow {
    var p := EventPayload(e);
    EventRow(profileId, p.title, p.description, p.eventType, p.startDate, p.endDate, p.institution)
  }

  /** Update an event that was loaded, create one that was not. */
  function EventUpsert(e: TimelineEventData, originalIds: seq<string>, profileId: string): Write {
    if e.id in originalIds then UpdateEventRow(e.id, EventPayload(e)) else InsertEvents([NewEventRow(profileId, e)])
  }

  function EventUpserts(events: seq<TimelineEventData>, originalIds: seq<string>, profileId: string): seq<Write> {
    seq(|events|, i requires 0 <= i < |events| => EventUpsert(events[i], originalIds, profileId))
  }

  /** The original ids missing from `current`, in their original order. */
  function RemovedIds(originalIds: seq<string>, current: seq<string>): seq<string>
    decreases |originalIds|
  {
    if originalIds == [] then []
    else
      var last := originalIds[|originalIds| - 1];
      RemovedIds(originalIds[..|originalIds| - 1], current) + (if last in current then [] else [last])
  }

  function EventDeletes(ids: seq<string>): seq<Write> {
    seq(|ids|, i requires 0 <= i < |ids| => DeleteEvent(ids[i]))
  }

  /** Everything the timeline part of a save sends: creates and updates first, then deletes. */
  function TimelinePlan(timeline: seq<TimelineEventData>, originalIds: seq<string>, profileId: string): seq<Write> {
    EventUpserts(ValidEvents(timeline), originalIds, profileId) + EventDeletes(RemovedIds(originalIds, Ids(timeline)))
  }

  function StoryUpsert(s: StoryData, originalIds: seq<string>, profileId: string): Write {
    if s.id in originalIds then UpdateStoryRow(s.id, s.question, s.answer) else InsertStories([StoryRow(profileId, s.question, s.answer)])
  }

  function StoryUpserts(stories: seq<StoryData>, originalIds: seq<string>, profileId: string): seq<Write> {
    seq(|stories|, i requires 0 <= i < |stories| => StoryUpsert(stories[i], originalIds, profileId))
  }

  function StoryDeletes(ids: seq<string>): seq<Write> {
    seq(|ids|, i requires 0 <= i < |ids| => DeleteStory(ids[i]))
  }

  /** Everything the story part of a save sends; stories are not filtered. */
  function StoryPlan(stories: seq<StoryData>, originalIds: seq<string>, profileId: string): seq<Write> {
    StoryUpserts(stories, originalIds, profileId) + StoryDeletes(RemovedIds(originalIds, StoryIds(stories)))
  }

  /** The photo part of a save: the profile photo, then the cover photo, each when one was chosen. */
  function PhotoPlan(profilePhoto: Option<string>, coverPhoto: Option<string>, profileId: string, now: nat, nowIso: string): seq<Write> {
    (if profilePhoto.Some? then ProfilePhotoWrites(profilePhoto.value, profileId, now, nowIso) else []) +
    (if coverPhoto.Some? then CoverPhotoWrites(coverPhoto.value, profileId, now, nowIso) else [])
  }

  /** The profile update that starts a save: trimmed name, blank birth date sent as `null`, new `updated_at`. */
  function ProfileWrite(profileId: string, formName: string, formBirthDate: string, nowIso: string): Write {
    UpdateProfileRow(
      profileId,
      EmptyProfilePatch.(
        name := Some(Trim(formName)),
        birthDate := Some(if IsBlank(formBirthDate) then None else Some(formBirthDate)),
        updatedAt := Some(nowIso)),
      false)
  }

  /** The profile update asks for no row back, so the database never rejects it. */
  lemma ProfileWriteAccepted(db: Db, w: Write)
    requires w.UpdateProfileRow? && !w.returning
    ensures Accepts(db, w)
  {
  }

  // ---------------------------------------------------------------------
  // Properties of the plans

  /** An id is removed exactly when it was loaded and is no longer present. */
  lemma {:induction false} RemovedIdsExactly(originalIds: seq<string>, current: seq<string>)
    ensures forall id :: id in RemovedIds(originalIds, current) <==> id in originalIds && id !in current
    decreases |originalIds|
  {
    if originalIds != [] {
      var init := originalIds[..|originalIds| - 1];
      RemovedIdsExactly(init, current);
      assert originalIds == init + [originalIds[|originalIds| - 1]];
    }
  }

  /** Without repeated loaded ids, no id is removed twice. */
  lemma {:induction false} RemovedIdsDistinct(originalIds: seq<string>, current: seq<string>)
    requires Distinct(originalIds)
    ensures Distinct(RemovedIds(originalIds, current))
    decreases |originalIds|
  {
    if originalIds != [] {
      var init := originalIds[..|originalIds| - 1];
      var last := originalIds[|originalIds| - 1];
      RemovedIdsDistinct(init, current);
      RemovedIdsExactly(init, current);
      assert last !in init;
    }
  }

  /** Removing from a prefix of the loaded ids gives a prefix of the removal from all of them. */
  lemma {:induction false} RemovedIdsPrefix(originalIds: seq<string>, current: seq<string>, j: nat)
    requires j <= |originalIds|
    ensures RemovedIds(originalIds[..j], current) <= RemovedIds(originalIds, current)
    decreases |originalIds|
  {
    if j < |originalIds| {
      var init := originalIds[..|originalIds| - 1];
      assert init[..j] == originalIds[..j];
      RemovedIdsPrefix(init, current, j);
    } else {
      assert originalIds[..j] == originalIds;
    }
  }
  /** When every loaded id is still shown, nothing is removed. */
  lemma {:induction false} RemovedIdsAllShown(originalIds: seq<string>, current: seq<string>)
    requires forall id :: id in originalIds ==> id in current
    ensures RemovedIds(originalIds, current) == []
    decreases |originalIds|
  {
    if originalIds != [] {
      RemovedIdsAllShown(originalIds[..|originalIds| - 1], current);
    }
  }

  /** Deleting a prefix of the ids is a prefix of deleting them all. */
  lemma EventDeletesPrefix(part: seq<string>, ids: seq<string>)
    requires part <= ids
    ensures EventDeletes(part) <= EventDeletes(ids)
  {
    assert EventDeletes(ids)[..|part|] == EventDeletes(part);
  }

  lemma StoryDeletesPrefix(part: seq<string>, ids: seq<string>)
    requires part <= ids
    ensures StoryDeletes(part) <= StoryDeletes(ids)
  {
    assert StoryDeletes(ids)[..|part|] == StoryDeletes(part);
  }


  /** Deletes appended after writes that delete nothing: the deletes are exactly `ids`, all at the end. */
  lemma DeletesAfterUpserts(upserts: seq<Write>, ids: seq<string>)
    requires forall k :: 0 <= k < |upserts| ==> !upserts[k].DeleteEvent?
    ensures forall id :: DeleteEvent(id) in upserts + EventDeletes(ids) <==> id in ids
    ensures forall i, j ::
      (0 <= i < j < |upserts + EventDeletes(ids)| && (upserts + EventDeletes(ids))[i].DeleteEvent?)
      ==> (upserts + EventDeletes(ids))[j].DeleteEvent?
    ensures Distinct(ids) ==> forall i, j ::
      (0 <= i < j < |upserts + EventDeletes(ids)| && (upserts + EventDeletes(ids))[i].DeleteEvent?)
      ==> (upserts + EventDeletes(ids))[i] != (upserts + EventDeletes(ids))[j]
  {
    var plan := upserts + EventDeletes(ids);
    forall id ensures DeleteEvent(id) in plan <==> id in ids {
      if DeleteEvent(id) in plan {
        var k :| 0 <= k < |plan| && plan[k] == DeleteEvent(id);
        assert ids[k - |upserts|] == id;
      }
      if id in ids {
        var k :| 0 <= k < |ids| && ids[k] == id;
        assert plan[|upserts| + k] == DeleteEvent(id);
      }
    }
    if Distinct(ids) {
      forall i, j | 0 <= i < j < |plan| && plan[i].DeleteEvent? ensures plan[i] != plan[j] {
        assert ids[i - |upserts|] != ids[j - |upserts|];
      }
    }
  }

  /**
   * The timeline deletes come after all creates and updates, and they are
   * exactly the loaded ids no longer in the timeline, blank-dated events
   * included, each once when the loaded ids are distinct.
   */
  lemma TimelineDeletesExactly(timeline: seq<TimelineEventData>, originalIds: seq<string>, profileId: string)
    ensures forall id :: DeleteEvent(id) in TimelinePlan(timeline, originalIds, profileId) <==>
      id in originalIds && id !in Ids(timeline)
    ensures forall i, j ::
      (0 <= i < j < |TimelinePlan(timeline, originalIds, profileId)| && TimelinePlan(timeline, originalIds, profileId)[i].DeleteEvent?)
      ==> TimelinePlan(timeline, originalIds, profileId)[j].DeleteEvent?
    ensures Distinct(originalIds) ==> forall i, j ::
      (0 <= i < j < |TimelinePlan(timeline, originalIds, profileId)| && TimelinePlan(timeline, originalIds, profileId)[i].DeleteEvent?)
      ==> TimelinePlan(timeline, originalIds, profileId)[i] != TimelinePlan(timeline, originalIds, profileId)[j]
  {
    var upserts := EventUpserts(ValidEvents(timeline), originalIds, profileId);
    var removed := RemovedIds(originalIds, Ids(timeline));
    RemovedIdsExactly(originalIds, Ids(timeline));
    DeletesAfterUpserts(upserts, removed);
    if Distinct(originalIds) {
      RemovedIdsDistinct(originalIds, Ids(timeline));
    }
  }

  /**
   * Every event with a start date is sent: updated when its id was loaded,
   * otherwise created for the profile.
   */
  lemma ValidEventsAreSent(timeline: seq<TimelineEventData>, originalIds: seq<string>, profileId: string, k: nat)
    requires k < |timeline| && HasStart(timeline[k])
    ensures timeline[k].id in originalIds ==>
      UpdateEventRow(timeline[k].id, EventPayload(timeline[k])) in TimelinePlan(timeline, originalIds, profileId)
    ensures timeline[k].id !in originalIds ==>
      InsertEvents([NewEventRow(profileId, timeline[k])]) in TimelinePlan(timeline, originalIds, profileId)
  {
    var valid := ValidEvents(timeline);
    assert timeline[k] in valid;
    var m :| 0 <= m < |valid| && valid[m] == timeline[k];
    assert TimelinePlan(timeline, originalIds, profileId)[m] == EventUpsert(timeline[k], originalIds, profileId);
  }

  /**
   * What the timeline part sends about events: updates only of loaded ids,
   * creates only of new ones, one row each, for this profile; and nothing it
   * sends carries a blank start date, so an event with a blank start date is
   * neither created nor updated.
   */
  lemma TimelineWritesCarryStartDates(timeline: seq<TimelineEventData>, originalIds: seq<string>, profileId: string)
    ensures forall w :: w in TimelinePlan(timeline, originalIds, profileId) && w.UpdateEventRow? ==>
      w.id in originalIds && !IsBlank(w.eventPatch.startDate)
    ensures forall w :: w in TimelinePlan(timeline, originalIds, profileId) && w.InsertEvents? ==>
      |w.eventRows| == 1 && w.eventRows[0].profileId == profileId && !IsBlank(w.eventRows[0].startDate)
    ensures forall w :: w in TimelinePlan(timeline, originalIds, profileId) ==>
      w.UpdateEventRow? || w.InsertEvents? || w.DeleteEvent?
  {
    var valid := ValidEvents(timeline);
    var upserts := EventUpserts(valid, originalIds, profileId);
    var plan := TimelinePlan(timeline, originalIds, profileId);
    forall w | w in plan
      ensures w.UpdateEventRow? ==> w.id in originalIds && !IsBlank(w.eventPatch.startDate)
      ensures w.InsertEvents? ==> |w.eventRows| == 1 && w.eventRows[0].profileId == profileId && !IsBlank(w.eventRows[0].startDate)
      ensures w.UpdateEventRow? || w.InsertEvents? || w.DeleteEvent?
    {
      var k :| 0 <= k < |plan| && plan[k] == w;
      if k < |upserts| {
        assert HasStart(valid[k]);
      }
    }
  }

  /** An event whose id is on screen is never deleted, whatever its start date. */
  lemma ShownEventsAreNotDeleted(timeline: seq<TimelineEventData>, originalIds: seq<string>, profileId: string, k: nat)
    requires k < |timeline|
    ensures DeleteEvent(timeline[k].id) !in TimelinePlan(timeline, originalIds, profileId)
  {
    TimelineDeletesExactly(timeline, originalIds, profileId);
    assert Ids(timeline)[k] == timeline[k].id;
  }

  /** Adding an id that was never loaded to the ids on screen removes nothing more and nothing less. */
  lemma {:induction false} RemovedIdsIgnoresNewIds(originalIds: seq<string>, current: seq<string>, extra: string)
    requires extra !in originalIds
    ensures RemovedIds(originalIds, current + [extra]) == RemovedIds(originalIds, current)
    decreases |originalIds|
  {
    if originalIds != [] {
      var init := originalIds[..|originalIds| - 1];
      assert originalIds == init + [originalIds[|originalIds| - 1]];
      RemovedIdsIgnoresNewIds(init, current, extra);
    }
  }

  /**
   * Appending an event without a start date, under an id that was not
   * loaded (as `addTimelineEventLocal` does), leaves the timeline part of a
   * save unchanged.
   */
  lemma UndatedNewEventChangesNothing(timeline: seq<TimelineEventData>, e: TimelineEventData, originalIds: seq<string>, profileId: string)
    requires !HasStart(e) && e.id !in originalIds
    ensures TimelinePlan(timeline + [e], originalIds, profileId) == TimelinePlan(timeline, originalIds, profileId)
  {
    FilterSnoc(timeline, e, HasStart);
    assert Ids(timeline + [e]) == Ids(timeline) + [e.id];
    RemovedIdsIgnoresNewIds(originalIds, Ids(timeline), e.id);
  }

  /** The form's view of a loaded timeline row: absent end date and description become ''. */
  function LoadedEvent(id: string, row: EventRow): TimelineEventData {
    TimelineEventData(id, row.eventType, row.title, row.institution, row.startDate, row.endDate.GetOr(""), row.description.GetOr(""))
  }

  /** The timeline `loadProfile` shows for the rows it read, in their order. */
  function LoadedTimeline(rows: seq<(string, EventRow)>): (timeline: seq<TimelineEventData>)
    ensures |timeline| == |rows|
    ensures forall i :: 0 <= i < |rows| ==> timeline[i].id == rows[i].0 && timeline[i].startDate == rows[i].1.startDate
  {
    seq(|rows|, i requires 0 <= i < |rows| => LoadedEvent(rows[i].0, rows[i].1))
  }

  function LoadedStories(rows: seq<(string, StoryRow)>): (stories: seq<StoryData>)
    ensures |stories| == |rows|
    ensures forall i :: 0 <= i < |rows| ==> stories[i].id == rows[i].0
  {
    seq(|rows|, i requires 0 <= i < |rows| => StoryData(rows[i].0, rows[i].1.question, rows[i].1.answer))
  }

  /** Saving a loaded event without touching it leaves its row exactly as it was. */
  lemma UntouchedEventSavesUnchanged(id: string, row: EventRow)
    ensures ApplyEventPatch(row, EventPayload(LoadedEvent(id, row))) == row
  {
  }

  /**
   * Saving right after a load deletes nothing and creates nothing: each
   * write updates a loaded row with values that leave it as it was.
   */
  lemma LoadThenSaveKeepsTimeline(rows: seq<(string, EventRow)>, profileId: string)
    requires rows != []
    ensures forall w :: w in TimelinePlan(LoadedTimeline(rows), Ids(LoadedTimeline(rows)), profileId) ==>
      && w.UpdateEventRow?
      && exists k :: 0 <= k < |rows| && rows[k].0 == w.id && ApplyEventPatch(rows[k].1, w.eventPatch) == rows[k].1
  {
    var t := LoadedTimeline(rows);
    var valid := ValidEvents(t);
    var upserts := EventUpserts(valid, Ids(t), profileId);
    RemovedIdsAllShown(Ids(t), Ids(t));
    var plan := TimelinePlan(t, Ids(t), profileId);
    assert plan == upserts;
    forall w | w in plan
      ensures w.UpdateEventRow?
      ensures exists k :: 0 <= k < |rows| && rows[k].0 == w.id && ApplyEventPatch(rows[k].1, w.eventPatch) == rows[k].1
    {
      var m :| 0 <= m < |plan| && plan[m] == w;
      assert valid[m] in t;
      var k :| 0 <= k < |t| && t[k] == valid[m];
      assert Ids(t)[k] == t[k].id;
      UntouchedEventSavesUnchanged(rows[k].0, rows[k].1);
    }
  }

  /**
   * Clearing an event's end date or description in the form does not clear
   * it in the database: the blank value is left out of the update, so the
   * stored value stays.
   */
  lemma ClearedFieldsKeepStoredValues(row: EventRow, e: TimelineEventData)
    ensures IsBlank(e.endDate) ==> ApplyEventPatch(row, EventPayload(e)).endDate == row.endDate
    ensures e.description == "" ==> ApplyEventPatch(row, EventPayload(e)).description == row.description
    ensures !IsBlank(e.endDate) ==> ApplyEventPatch(row, EventPayload(e)).endDate == Some(e.endDate)
  {
  }

  /**
   * Every story is sent, updated when its id was loaded and created for the
   * profile otherwise; the story deletes come last and are exactly the
   * loaded ids no longer shown, each once when the loaded ids are distinct.
   */
  lemma StoryPlanExactly(stories: seq<StoryData>, originalIds: seq<string>, profileId: string)
    ensures forall k :: 0 <= k < |stories| ==>
      (StoryPlan(stories, originalIds, profileId)[k] ==
       if stories[k].id in originalIds then UpdateStoryRow(stories[k].id, stories[k].question, stories[k].answer)
       else InsertStories([StoryRow(profileId, stories[k].question, stories[k].answer)]))
    ensures forall id :: DeleteStory(id) in StoryPlan(stories, originalIds, profileId) <==>
      id in originalIds && id !in StoryIds(stories)
    ensures forall i :: |stories| <= i < |StoryPlan(stories, originalIds, profileId)| ==> StoryPlan(stories, originalIds, profileId)[i].DeleteStory?
    ensures Distinct(originalIds) ==> forall i, j ::
      (|stories| <= i < j < |StoryPlan(stories, originalIds, profileId)|)
      ==> StoryPlan(stories, originalIds, profileId)[i] != StoryPlan(stories, originalIds, profileId)[j]
  {
    var upserts := StoryUpserts(stories, originalIds, profileId);
    var removed := RemovedIds(originalIds, StoryIds(stories));
    var plan := StoryPlan(stories, originalIds, profileId);
    RemovedIdsExactly(originalIds, StoryIds(stories));
    forall id ensures DeleteStory(id) in plan <==> id in removed {
      if DeleteStory(id) in plan {
        var k :| 0 <= k < |plan| && plan[k] == DeleteStory(id);
        assert removed[k - |upserts|] == id;
      }
      if id in removed {
        var k :| 0 <= k < |removed| && removed[k] == id;
        assert plan[|upserts| + k] == DeleteStory(id);
      }
    }
    if Distinct(originalIds) {
      RemovedIdsDistinct(originalIds, StoryIds(stories));
      forall i, j | |stories| <= i < j < |plan| ensures plan[i] != plan[j] {
        assert removed[i - |upserts|] != removed[j - |upserts|];
      }
    }
  }

  // ---------------------------------------------------------------------
  // Loading the profile

  /** The timeline and story rows `loadProfile` read for the profile, in the order returned. */
  datatype LoadedChildren = LoadedChildren(eventRows: seq<(string, EventRow)>, storyRows: seq<(string, StoryRow)>)

  /**
   * What `loadProfile` got back from the database: a failed profile query;
   * no profile created by the user; or the most recent one, with its
   * timeline and stories, or `None` when reading those failed.
   */
  datatype LoadOutcome =
    | LoadFailed
    | NoProfileFound
    | ProfileFound(id: string, name: string, birthDate: Option<string>, children: Option<LoadedChildren>)

  /** The part of the editor's state that `loadProfile` sets. */
  datatype EditorView = EditorView(
    profileId: Option<string>,
    formName: string,
    formBirthDate: string,
    timeline: seq<TimelineEventData>,
    stories: seq<StoryData>,
    originalTimelineIds: seq<string>,
    originalStoryIds: seq<string>)

  /**
   * The editor after `loadProfile`: a failed or empty query changes nothing;
   * a found profile fills the form and, when its rows were read, shows them
   * and captures their ids, with a blank event or the predefined stories in
   * place of an empty list; when the rows could not be read, the blank event
   * and the predefined stories are appended to what was shown before.
   */
  function Reloaded(v: EditorView, outcome: LoadOutcome, now: nat): EditorView {
    match outcome
    case LoadFailed => v
    case NoProfileFound => v
    case ProfileFound(id, name, birthDate, children) =>
      var form := v.(profileId := Some(id), formName := name, formBirthDate := birthDate.GetOr(""));
      match children
      case None =>
        form.(timeline := WithPredefinedEvent(v.timeline, now), stories := WithPredefinedStories(v.stories, now))
      case Some(c) =>
        var events := LoadedTimeline(c.eventRows);
        var loadedStories := LoadedStories(c.storyRows);
        form.(
          timeline := if events == [] then WithPredefinedEvent([], now) else events,
          stories := if loadedStories == [] then WithPredefinedStories([], now) else loadedStories,
          originalTimelineIds := Ids(events),
          originalStoryIds := StoryIds(loadedStories))
  }

  /**
   * A load that read the rows remembers exactly their ids, in order, and
   * every remembered id is on screen.
   */
  lemma ReloadCapturesLoadedIds(v: EditorView, outcome: LoadOutcome, now: nat)
    requires outcome.ProfileFound? && outcome.children.Some?
    ensures var r := Reloaded(v, outcome, now); var c := outcome.children.value;
      && r.originalTimelineIds == seq(|c.eventRows|, i requires 0 <= i < |c.eventRows| => c.eventRows[i].0)
      && r.originalStoryIds == seq(|c.storyRows|, i requires 0 <= i < |c.storyRows| => c.storyRows[i].0)
      && (forall id :: id in r.originalTimelineIds ==> id in Ids(r.timeline))
      && (forall id :: id in r.originalStoryIds ==> id in StoryIds(r.stories))
  {
    var r := Reloaded(v, outcome, now);
    var c := outcome.children.value;
    forall id | id in r.originalTimelineIds ensures id in Ids(r.timeline) {
      var k :| 0 <= k < |r.originalTimelineIds| && r.originalTimelineIds[k] == id;
      assert Ids(r.timeline)[k] == id;
    }
    forall id | id in r.originalStoryIds ensures id in StoryIds(r.stories) {
      var k :| 0 <= k < |r.originalStoryIds| && r.originalStoryIds[k] == id;
      assert StoryIds(r.stories)[k] == id;
    }
  }

  /**
   * Saving again right after a load that read the rows creates and deletes
   * no timeline event: every write updates a loaded row.
   */
  lemma SaveAfterReloadOnlyUpdatesEvents(v: EditorView, outcome: LoadOutcome, now: nat, pid: string)
    requires outcome.ProfileFound? && outcome.children.Some?
    ensures var r := Reloaded(v, outcome, now);
      forall w :: w in TimelinePlan(r.timeline, r.originalTimelineIds, pid) ==> w.UpdateEventRow? && w.id in r.originalTimelineIds
  {
    var r := Reloaded(v, outcome, now);
    var rows := outcome.children.value.eventRows;
    if rows == [] {
      var blank := BlankEvent("predefined-" + DecimalString(now));
      assert r.timeline == [] + [blank] && r.originalTimelineIds == [];
      UndatedNewEventChangesNothing([], blank, [], pid);
      assert ValidEvents([]) == [];
      assert TimelinePlan(r.timeline, r.originalTimelineIds, pid) == [];
    } else {
      var t := LoadedTimeline(rows);
      LoadThenSaveKeepsTimeline(rows, pid);
      forall w | w in TimelinePlan(t, Ids(t), pid) ensures w.id in Ids(t) {
        var k :| 0 <= k < |rows| && rows[k].0 == w.id && ApplyEventPatch(rows[k].1, w.eventPatch) == rows[k].1;
        assert Ids(t)[k] == w.id;
      }
    }
  }

  /**
   * Saving again right after a load that read at least one story creates and
   * deletes no story: every write updates a loaded story.
   */
  lemma SaveAfterReloadOnlyUpdatesStories(v: EditorView, outcome: LoadOutcome, now: nat, pid: string)
    requires outcome.ProfileFound? && outcome.children.Some? && outcome.children.value.storyRows != []
    ensures var r := Reloaded(v, outcome, now);
      forall w :: w in StoryPlan(r.stories, r.originalStoryIds, pid) ==> w.UpdateStoryRow? && w.id in r.originalStoryIds
  {
    var r := Reloaded(v, outcome, now);
    var stories := r.stories;
    var ids := StoryIds(stories);
    assert r.originalStoryIds == ids;
    RemovedIdsAllShown(ids, ids);
    var plan := StoryPlan(stories, ids, pid);
    assert plan == StoryUpserts(stories, ids, pid);
    forall w | w in plan ensures w.UpdateStoryRow? && w.id in ids {
      var k :| 0 <= k < |plan| && plan[k] == w;
      assert ids[k] == stories[k].id;
    }
  }

  /**
   * When the rows could not be read, the blank event appended to the stale
   * timeline changes nothing the next save sends for the timeline.
   */
  lemma FailedChildLoadKeepsTimelinePlan(v: EditorView, outcome: LoadOutcome, now: nat, pid: string)
    requires outcome.ProfileFound? && outcome.children.None?
    requires "predefined-" + DecimalString(now) !in v.originalTimelineIds
    ensures var r := Reloaded(v, outcome, now);
      && r.originalTimelineIds == v.originalTimelineIds
      && TimelinePlan(r.timeline, r.originalTimelineIds, pid) == TimelinePlan(v.timeline, v.originalTimelineIds, pid)
  {
    UndatedNewEventChangesNothing(v.timeline, BlankEvent("predefined-" + DecimalString(now)), v.originalTimelineIds, pid);
  }

  // ---------------------------------------------------------------------
  // The editor's state and its handlers

  /** Where a part of a save left the store: its log, its call count, and whether the part completed. */
  datatype Checkpoint = Checkpoint(log: seq<Write>, calls: nat, completed: bool)

  /**
   * Three parts of a save ran one after another from (`log0`, `calls0`):
   * the timeline part up to `afterTimeline`, the story part up to
   * `afterStories`, and the photo part up to (`log1`, `calls1`).
   */
  ghost predicate RanParts(log0: seq<Write>, calls0: nat, afterTimeline: Checkpoint, afterStories: Checkpoint,
                           log1: seq<Write>, calls1: nat,
                           timelinePlan: seq<Write>, storyPlan: seq<Write>, photoPlan: seq<Write>, photosCompleted: bool)
  {
    && Ran(log0, calls0, afterTimeline.log, afterTimeline.calls, timelinePlan, afterTimeline.completed)
    && Ran(afterTimeline.log, afterTimeline.calls, afterStories.log, afterStories.calls, storyPlan, afterStories.completed)
    && Ran(afterStories.log, afterStories.calls, log1, calls1, photoPlan, photosCompleted)
  }

  class Editor {
    /** The loaded profile, by id; `None` until one is loaded. */
    var profileId: Option<string>
    var formName: string
    var formBirthDate: string
    /** The names of the chosen photo files. */
    var profilePhoto: Option<string>
    var coverPhoto: Option<string>
    var timeline: seq<TimelineEventData>
    var stories: seq<StoryData>
    var originalTimelineIds: seq<string>
    var originalStoryIds: seq<string>
    var loading: bool
    var saving: bool
    var error: string
    var success: string

    constructor ()
      ensures profileId.None? && formName == "" && formBirthDate == ""
      ensures profilePhoto.None? && coverPhoto.None?
      ensures timeline == [] && stories == [] && originalTimelineIds == [] && originalStoryIds == []
      ensures loading && !saving && error == "" && success == ""
    {
      profileId := None;
      formName := "";
      formBirthDate := "";
      profilePhoto := None;
      coverPhoto := None;
      timeline := [];
      stories := [];
      originalTimelineIds := [];
      originalStoryIds := [];
      loading := true;
      saving := false;
      error := "";
      success := "";
    }

    /** The fields `loadProfile` sets. */
    function View(): EditorView
      reads this`profileId, this`formName, this`formBirthDate, this`timeline, this`stories,
            this`originalTimelineIds, this`originalStoryIds
    {
      EditorView(profileId, formName, formBirthDate, timeline, stories, originalTimelineIds, originalStoryIds)
    }

    /**
     * `loadProfile`, given what the database returned and the clock: clears
     * the error, applies `Reloaded`, reports a failed profile query, and
     * ends not loading.
     */
    method LoadProfile(outcome: LoadOutcome, now: nat)
      modifies this`profileId, this`formName, this`formBirthDate, this`timeline, this`stories,
               this`originalTimelineIds, this`originalStoryIds, this`error, this`loading
      ensures View() == Reloaded(old(View()), outcome, now)
      ensures error == (if outcome.LoadFailed? then LoadFailedMessage else "")
      ensures !loading
    {
      loading := true;
      error := "";
      match outcome {
        case LoadFailed =>
          error := LoadFailedMessage;
        case NoProfileFound =>
        case ProfileFound(id, name, birthDate, children) =>
          profileId := Some(id);
          formName := name;
          formBirthDate := birthDate.GetOr("");
          match children
          case None =>
            timeline := WithPredefinedEvent(timeline, now);
            stories := WithPredefinedStories(stories, now);
          case Some(c) =>
            var mappedEvents := LoadedTimeline(c.eventRows);
            var mappedStories := LoadedStories(c.storyRows);
            timeline := mappedEvents;
            stories := mappedStories;
            originalTimelineIds := Ids(mappedEvents);
            originalStoryIds := StoryIds(mappedStories);
            if |mappedEvents| == 0 {
              timeline := WithPredefinedEvent(timeline, now);
            }
            if |mappedStories| == 0 {
              stories := WithPredefinedStories(stories, now);
            }
      }
      loading := false;
    }

    method UpdateTimelineEventLocal(id: string, edit: TimelineEdit)
      modifies this`timeline
      ensures timeline == EditedTimeline(old(timeline), id, edit)
    {
      timeline := EditedTimeline(timeline, id, edit);
    }

    method RemoveTimelineEventLocal(id: string)
      modifies this`timeline
      ensures timeline == RemovedFromTimeline(old(timeline), id)
    {
      timeline := RemovedFromTimeline(timeline, id);
    }

    method AddTimelineEventLocal(now: nat)
      modifies this`timeline
      ensures timeline == WithNewEvent(old(timeline), now)
    {
      timeline := WithNewEvent(timeline, now);
    }

    method UpdateStoryLocal(id: string, edit: StoryEdit)
      modifies this`stories
      ensures stories == EditedStories(old(stories), id, edit)
    {
      stories := EditedStories(stories, id, edit);
    }

    method RemoveStoryLocal(id: string)
      modifies this`stories
      ensures stories == RemovedFromStories(old(stories), id)
    {
      stories := RemovedFromStories(stories, id);
    }

    method AddStoryLocal(now: nat)
      modifies this`stories
      ensures stories == WithNewStory(old(stories), now)
    {
      stories := WithNewStory(stories, now);
    }

    /** `handleFileUpload`: remembers the chosen file for the next save. */
    method HandleFileUpload(cover: bool, fileName: string)
      modifies this`profilePhoto, this`coverPhoto
      ensures !cover ==> profilePhoto == Some(fileName) && coverPhoto == old(coverPhoto)
      ensures cover ==> coverPhoto == Some(fileName) && profilePhoto == old(profilePhoto)
    {
      if !cover {
        profilePhoto := Some(fileName);
      } else {
        coverPhoto := Some(fileName);
      }
    }

    /**
     * The timeline part of `handleSubmit`: creates or updates each event with
     * a start date, then deletes each loaded id no longer on screen. The first
     * failing call ends the part.
     */
    method SyncTimeline(store: Store, pid: string) returns (completed: bool)
      modifies store
      ensures Ran(old(store.log), old(store.calls), store.log, store.calls, TimelinePlan(timeline, originalTimelineIds, pid), completed)
    {
      ghost var log0, calls0 := store.log, store.calls;
      var validEvents := Filter(timeline, HasStart);
      ghost var upserts := EventUpserts(validEvents, originalTimelineIds, pid);
      ghost var deletes := EventDeletes(RemovedIds(originalTimelineIds, Ids(timeline)));
      completed := SyncEventUpserts(store, validEvents, pid);
      if !completed {
        RanStopped(log0, calls0, store.log, store.calls, upserts, deletes);
        return;
      }
      ghost var log1, calls1 := store.log, store.calls;
      completed := SyncEventDeletes(store, Ids(timeline));
      RanThen(log0, calls0, log1, calls1, store.log, store.calls, upserts, deletes, completed);
    }

    /** The first loop of the timeline part: one update or create per event. */
    method SyncEventUpserts(store: Store, validEvents: seq<TimelineEventData>, pid: string) returns (completed: bool)
      modifies store
      ensures Ran(old(store.log), old(store.calls), store.log, store.calls, EventUpserts(validEvents, originalTimelineIds, pid), completed)
    {
      ghost var log0, calls0 := store.log, store.calls;
      ghost var upserts := EventUpserts(validEvents, originalTimelineIds, pid);
      RanNothing(log0, calls0);
      var i := 0;
      while i < |validEvents|
        invariant 0 <= i <= |validEvents|
        invariant Ran(log0, calls0, store.log, store.calls, upserts[..i], true)
      {
        var event := validEvents[i];
        ghost var log1, calls1 := store.log, store.calls;
        var ok: bool;
        if event.id in originalTimelineIds {
          var updated, _, _ := store.Issue(UpdateEventRow(event.id, EventPayload(event)));
          ok := updated;
        } else {
          var inserted, _, _ := store.Issue(InsertEvents([NewEventRow(pid, event)]));
          ok := inserted;
        }
        RanStep(log0, calls0, log1, calls1, store.log, store.calls, upserts[..i], upserts[i], ok);
        assert upserts[..i] + [upserts[i]] == upserts[..i + 1];
        if !ok {
          RanStoppedWithin(log0, calls0, store.log, store.calls, upserts[..i + 1], upserts);
          return false;
        }
        i := i + 1;
      }
      assert upserts[..i] == upserts;
      return true;
    }

    /** The second loop of the timeline part: one delete per loaded id that is no longer shown. */
    method SyncEventDeletes(store: Store, currentIds: seq<string>) returns (completed: bool)
      modifies store
      ensures Ran(old(store.log), old(store.calls), store.log, store.calls, EventDeletes(RemovedIds(originalTimelineIds, currentIds)), completed)
    {
      ghost var log0, calls0 := store.log, store.calls;
      ghost var deletes := EventDeletes(RemovedIds(originalTimelineIds, currentIds));
      RanNothing(log0, calls0);
      var j := 0;
      while j < |originalTimelineIds|
        invariant 0 <= j <= |originalTimelineIds|
        invariant Ran(log0, calls0, store.log, store.calls, EventDeletes(RemovedIds(originalTimelineIds[..j], currentIds)), true)
      {
        var originalId := originalTimelineIds[j];
        assert originalTimelineIds[..j + 1][..j] == originalTimelineIds[..j];
        ghost var done := EventDeletes(RemovedIds(originalTimelineIds[..j], currentIds));
        if originalId !in currentIds {
          ghost var log1, calls1 := store.log, store.calls;
          var ok, _, _ := store.Issue(DeleteEvent(originalId));
          RanStep(log0, calls0, log1, calls1, store.log, store.calls, done, DeleteEvent(originalId), ok);
          assert done + [DeleteEvent(originalId)] == EventDeletes(RemovedIds(originalTimelineIds[..j + 1], currentIds));
          if !ok {
            RemovedIdsPrefix(originalTimelineIds, currentIds, j + 1);
            EventDeletesPrefix(RemovedIds(originalTimelineIds[..j + 1], currentIds), RemovedIds(originalTimelineIds, currentIds));
            RanStoppedWithin(log0, calls0, store.log, store.calls,
                             EventDeletes(RemovedIds(originalTimelineIds[..j + 1], currentIds)), deletes);
            return false;
          }
        }
        j := j + 1;
      }
      assert originalTimelineIds[..j] == originalTimelineIds;
      return true;
    }
  
    /**
     * The story part of `handleSubmit`: creates or updates every story, then
     * deletes each loaded id no longer on screen; the first failing call ends
     * the part.
     */
    method SyncStories(store: Store, pid: string) returns (completed: bool)
      modifies store
      ensures Ran(old(store.log), old(store.calls), store.log, store.calls, StoryPlan(stories, originalStoryIds, pid), completed)
    {
      ghost var log0, calls0 := store.log, store.calls;
      ghost var upserts := StoryUpserts(stories, originalStoryIds, pid);
      ghost var deletes := StoryDeletes(RemovedIds(originalStoryIds, StoryIds(stories)));
      completed := SyncStoryUpserts(store, pid);
      if !completed {
        RanStopped(log0, calls0, store.log, store.calls, upserts, deletes);
        return;
      }
      ghost var log1, calls1 := store.log, store.calls;
      completed := SyncStoryDeletes(store, StoryIds(stories));
      RanThen(log0, calls0, log1, calls1, store.log, store.calls, upserts, deletes, completed);
    }

    method SyncStoryUpserts(store: Store, pid: string) returns (completed: bool)
      modifies store
      ensures Ran(old(store.log), old(store.calls), store.log, store.calls, StoryUpserts(stories, originalStoryIds, pid), completed)
    {
      ghost var log0, calls0 := store.log, store.calls;
      ghost var upserts := StoryUpserts(stories, originalStoryIds, pid);
      RanNothing(log0, calls0);
      var i := 0;
      while i < |stories|
        invariant 0 <= i <= |stories|
        invariant Ran(log0, calls0, store.log, store.calls, upserts[..i], true)
      {
        var story := stories[i];
        ghost var log1, calls1 := store.log, store.calls;
        var ok: bool;
        if story.id in originalStoryIds {
          var updated, _, _ := store.Issue(UpdateStoryRow(story.id, story.question, story.answer));
          ok := updated;
        } else {
          var inserted, _, _ := store.Issue(InsertStories([StoryRow(pid, story.question, story.answer)]));
          ok := inserted;
        }
        RanStep(log0, calls0, log1, calls1, store.log, store.calls, upserts[..i], upserts[i], ok);
        assert upserts[..i] + [upserts[i]] == upserts[..i + 1];
        if !ok {
          RanStoppedWithin(log0, calls0, store.log, store.calls, upserts[..i + 1], upserts);
          return false;
        }
        i := i + 1;
      }
      assert upserts[..i] == upserts;
      return true;
    }

    method SyncStoryDeletes(store: Store, currentIds: seq<string>) returns (completed: bool)
      modifies store
      ensures Ran(old(store.log), old(store.calls), store.log, store.calls, StoryDeletes(RemovedIds(originalStoryIds, currentIds)), completed)
    {
      ghost var log0, calls0 := store.log, store.calls;
      ghost var deletes := StoryDeletes(RemovedIds(originalStoryIds, currentIds));
      RanNothing(log0, calls0);
      var j := 0;
      while j < |originalStoryIds|
        invariant 0 <= j <= |originalStoryIds|
        invariant Ran(log0, calls0, store.log, store.calls, StoryDeletes(RemovedIds(originalStoryIds[..j], currentIds)), true)
      {
        var originalId := originalStoryIds[j];
        assert originalStoryIds[..j + 1][..j] == originalStoryIds[..j];
        ghost var done := StoryDeletes(RemovedIds(originalStoryIds[..j], currentIds));
        if originalId !in currentIds {
          ghost var log1, calls1 := store.log, store.calls;
          var ok, _, _ := store.Issue(DeleteStory(originalId));
          RanStep(log0, calls0, log1, calls1, store.log, store.calls, done, DeleteStory(originalId), ok);
          assert done + [DeleteStory(originalId)] == StoryDeletes(RemovedIds(originalStoryIds[..j + 1], currentIds));
          if !ok {
            RemovedIdsPrefix(originalStoryIds, currentIds, j + 1);
            StoryDeletesPrefix(RemovedIds(originalStoryIds[..j + 1], currentIds), RemovedIds(originalStoryIds, currentIds));
            RanStoppedWithin(log0, calls0, store.log, store.calls,
                             StoryDeletes(RemovedIds(originalStoryIds[..j + 1], currentIds)), deletes);
            return false;
          }
        }
        j := j + 1;
      }
      assert originalStoryIds[..j] == originalStoryIds;
      return true;
    }

    /**
     * The photo part of `handleSubmit`: uploads the chosen profile photo, then
     * the chosen cover photo; a failed profile photo upload skips the cover.
     */
    method SyncPhotos(store: Store, pid: string, now: nat, nowIso: string) returns (completed: bool)
      modifies store
      ensures Ran(old(store.log), old(store.calls), store.log, store.calls, PhotoPlan(profilePhoto, coverPhoto, pid, now, nowIso), completed)
    {
      ghost var log0, calls0 := store.log, store.calls;
      ghost var first := if profilePhoto.Some? then ProfilePhotoWrites(profilePhoto.value, pid, now, nowIso) else [];
      ghost var second := if coverPhoto.Some? then CoverPhotoWrites(coverPhoto.value, pid, now, nowIso) else [];
      if profilePhoto.Some? {
        var r := UploadProfilePhoto(store, profilePhoto.value, pid, now, nowIso);
        if r.Err? {
          RanStopped(log0, calls0, store.log, store.calls, first, second);
          return false;
        }
      } else {
        RanNothing(log0, calls0);
      }
      ghost var log1, calls1 := store.log, store.calls;
      completed := true;
      if coverPhoto.Some? {
        var r := UploadCoverPhoto(store, coverPhoto.value, pid, now, nowIso);
        completed := r.Ok?;
      } else {
        RanNothing(log1, calls1);
      }
      RanThen(log0, calls0, log1, calls1, store.log, store.calls, first, second, completed);
    }

    /** The three parts that follow a successful profile update, in order. */
    method SyncAfterProfile(store: Store, pid: string, now: nat, nowIso: string)
      returns (ghost afterTimeline: Checkpoint, ghost afterStories: Checkpoint, ghost photosCompleted: bool)
      modifies store
      ensures RanParts(old(store.log), old(store.calls), afterTimeline, afterStories, store.log, store.calls,
                       TimelinePlan(timeline, originalTimelineIds, pid), StoryPlan(stories, originalStoryIds, pid),
                       PhotoPlan(profilePhoto, coverPhoto, pid, now, nowIso), photosCompleted)
    {
      var timelineDone := SyncTimeline(store, pid);
      afterTimeline := Checkpoint(store.log, store.calls, timelineDone);
      var storiesDone := SyncStories(store, pid);
      afterStories := Checkpoint(store.log, store.calls, storiesDone);
      photosCompleted := SyncPhotos(store, pid, now, nowIso);
    }

    /** The profile update that starts a save; it is never rejected, so only a fault fails it. */
    method SaveProfileRow(store: Store, pid: string, nowIso: string) returns (ok: bool)
      modifies store
      ensures ok <==> old(store.calls) !in store.faults
      ensures store.calls == old(store.calls) + 1
      ensures store.log == if ok then old(store.log) + [ProfileWrite(pid, formName, formBirthDate, nowIso)] else old(store.log)
    {
      var w := ProfileWrite(pid, formName, formBirthDate, nowIso);
      ProfileWriteAccepted(store.db, w);
      var rejected, keys;
      ok, rejected, keys := store.Issue(w);
    }

    /**
     * `handleSubmit`. Without a loaded profile it only reports an error. A
     * failed profile update reports an error and sends nothing more.
     * Otherwise the timeline, story and photo parts run in turn; each
     * stops at its first failing call, which is swallowed, and the next
     * part still runs; the save then reports success and reloads the
     * profile, with `reload` what that load reads and `reloadNow` its clock.
     * The returned checkpoints say where each part left the store.
     */
    method HandleSubmit(store: Store, now: nat, nowIso: string, reload: LoadOutcome, reloadNow: nat)
      returns (ghost profileSaved: bool, ghost afterTimeline: Checkpoint, ghost afterStories: Checkpoint, ghost photosCompleted: bool)
      modifies this`saving, this`error, this`success, this`loading, store,
               this`profileId, this`formName, this`formBirthDate, this`timeline, this`stories,
               this`originalTimelineIds, this`originalStoryIds
      ensures old(profileId).None? ==>
        && error == NoProfileMessage && saving == old(saving) && success == old(success) && loading == old(loading)
        && View() == old(View()) && store.log == old(store.log) && store.calls == old(store.calls)
      ensures old(profileId).Some? ==> !saving
      ensures old(profileId).Some? ==> (profileSaved <==> old(store.calls) !in store.faults)
      ensures old(profileId).Some? && !profileSaved ==>
        && error == UpdateFailedMessage && success == "" && loading == old(loading) && View() == old(View())
        && store.log == old(store.log) && store.calls == old(store.calls) + 1
      ensures old(profileId).Some? && profileSaved ==>
        && RanParts(old(store.log) + [ProfileWrite(old(profileId).value, old(formName), old(formBirthDate), nowIso)], old(store.calls) + 1,
                    afterTimeline, afterStories, store.log, store.calls,
                    TimelinePlan(old(timeline), old(originalTimelineIds), old(profileId).value),
                    StoryPlan(old(stories), old(originalStoryIds), old(profileId).value),
                    PhotoPlan(old(profilePhoto), old(coverPhoto), old(profileId).value, now, nowIso), photosCompleted)
        && success == SavedMessage && error == (if reload.LoadFailed? then LoadFailedMessage else "") && !loading
        && View() == Reloaded(old(View()), reload, reloadNow)
    {
      profileSaved, photosCompleted := false, false;
      afterTimeline := Checkpoint(store.log, store.calls, false);
      afterStories := afterTimeline;
      if profileId.None? {
        error := NoProfileMessage;
        return;
      }
      var pid := profileId.value;
      saving := true;
      error := "";
      success := "";
      var ok := SaveProfileRow(store, pid, nowIso);
      if !ok {
        error := UpdateFailedMessage;
        saving := false;
        return;
      }
      profileSaved := true;
      afterTimeline, afterStories, photosCompleted := SyncAfterProfile(store, pid, now, nowIso);
      success := SavedMessage;
      LoadProfile(reload, reloadNow);
      saving := false;
    }
  }

  const NoProfileMessage := "No profile found to update."
  const UpdateFailedMessage := "Failed to update profile."
  const SavedMessage := "Profile updated successfully!"
  const LoadFailedMessage := "Failed to load profile."
}
