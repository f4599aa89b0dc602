/**
 * The hosted database, reduced to what the application observes of it: one
 * map from row id to row per table, the set of stored photo objects, and a
 * log of the write requests it accepted, in order.
 *
 * Every request is one call. A call fails when the environment's fault
 * schedule (`faults`, a set of call numbers) says so, or when the request
 * itself is rejected: an update that asks for the updated row back
 * (`.select().single()` / `.maybeSingle()` followed by a not-found check)
 * fails on a missing row, and a storage upload fails when the object already
 * exists. Row ids of inserted rows are chosen by the store.
 */
module Backend {
  import opened Wrappers
  import opened Auth
  import opened Lists

  /** `ProfileStatus` of src/types/index.ts. */
  datatype ProfileStatus = Draft | PendingReview | Published | Archived

  function StatusName(s: ProfileStatus): string {
    match s
    case Draft => "draft"
    case PendingReview => "pending_review"
    case Published => "published"
    case Archived => "archived"
  }

  /** `EventType` of src/types/index.ts. */
  datatype EventType = Education | Job | Event

  datatype RequestType = RoleChange | AlumniVerification | NewProfile

  datatype RequestStatus = Pending | Approved | Rejected

  function RequestStatusName(s: RequestStatus): string {
    match s
    case Pending => "pending"
    case Approved => "approved"
    case Rejected => "rejected"
  }

  datatype ProfileRow = ProfileRow(
    name: string,
    birthDate: Option<string>,
    passedDate: Option<string>,
    universityId: Option<string>,
    status: ProfileStatus,
    createdBy: Option<string>,
    profilePhotoUrl: Option<string>,
    coverPhotoUrl: Option<string>,
    updatedAt: Option<string>)

  /**
   * An update payload for `profiles`. `None` is a key that is absent from the
   * payload (the column keeps its value); for the nullable dates,
   * `Some(None)` sends `null`.
   */
  datatype ProfilePatch = ProfilePatch(
    name: Option<string>,
    birthDate: Option<Option<string>>,
    passedDate: Option<Option<string>>,
    universityId: Option<string>,
    status: Option<ProfileStatus>,
    profilePhotoUrl: Option<string>,
    coverPhotoUrl: Option<string>,
    updatedAt: Option<string>)

  const EmptyProfilePatch := ProfilePatch(None, None, None, None, None, None, None, None)

  datatype EventRow = EventRow(
    profileId: string,
    title: string,
    description: Option<string>,
    eventType: EventType,
    startDate: string,
    endDate: Option<string>,
    institution: string)

  /** An update payload for `timeline_events`; `None` marks a key sent as `undefined`, i.e. left out. */
  datatype EventPatch = EventPatch(
    title: string,
    description: Option<string>,
    eventType: EventType,
    startDate: string,
    endDate: Option<string>,
    institution: string)

  datatype StoryRow = StoryRow(profileId: string, question: string, answer: string)

  datatype UserRow = UserRow(email: string, displayName: Option<string>, role: Option<Role>, universityId: Option<string>)

  datatype RoleRequest = RoleRequest(
    userId: string,
    universityId: string,
    requestType: RequestType,
    status: RequestStatus,
    requestedRole: Role,
    profileId: Option<string>,
    existingProfileName: Option<string>,
    newProfileName: Option<string>)

  datatype Db = Db(
    profiles: map<string, ProfileRow>,
    events: map<string, EventRow>,
    stories: map<string, StoryRow>,
    users: map<string, UserRow>,
    requests: map<string, RoleRequest>,
    photos: set<(string, string)>)

  /** The write requests the application issues. `returning` marks an update that asks for the row back and fails without one. */
  datatype Write =
    | InsertProfile(profile: ProfileRow)
    | UpdateProfileRow(id: string, patch: ProfilePatch, returning: bool)
    | InsertEvents(eventRows: seq<EventRow>)
    | UpdateEventRow(id: string, eventPatch: EventPatch)
    | DeleteEvent(id: string)
    | InsertStories(storyRows: seq<StoryRow>)
    | UpdateStoryRow(id: string, question: string, answer: string)
    | DeleteStory(id: string)
    | UpdateUserRow(id: string, role: Role, universityId: Option<string>, returning: bool)
    | InsertRequest(request: RoleRequest)
    | UpdateRequestStatus(id: string, status: RequestStatus)
    | UploadPhoto(bucket: string, fileName: string)

  /** How many new row ids a request needs. */
  function KeysNeeded(w: Write): nat {
    match w
    case InsertProfile(_) => 1
    case InsertEvents(rows) => |rows|
    case InsertStories(rows) => |rows|
    case InsertRequest(_) => 1
    case _ => 0
  }

  /** The ids already taken in the table a request inserts into. */
  function TakenKeys(db: Db, w: Write): set<string> {
    match w
    case InsertProfile(_) => db.profiles.Keys
    case InsertEvents(_) => db.events.Keys
    case InsertStories(_) => db.stories.Keys
    case InsertRequest(_) => db.requests.Keys
    case _ => {}
  }

  /** Whether the database accepts a request, faults aside. */
  predicate Accepts(db: Db, w: Write) {
    match w
    case UpdateProfileRow(id, _, returning) => returning ==> id in db.profiles
    case UpdateEventRow(id, _) => id in db.events
    case UpdateStoryRow(id, _, _) => id in db.stories
    case UpdateUserRow(id, _, _, returning) => returning ==> id in db.users
    case UploadPhoto(bucket, name) => (bucket, name) !in db.photos
    case _ => true
  }

  function PatchOr<T>(patch: Option<T>, current: T): T {
    if patch.Some? then patch.value else current
  }

  function ApplyProfilePatch(row: ProfileRow, p: ProfilePatch): ProfileRow {
    ProfileRow(
      PatchOr(p.name, row.name),
      PatchOr(p.birthDate, row.birthDate),
      PatchOr(p.passedDate, row.passedDate),
      if p.universityId.Some? then p.universityId else row.universityId,
      PatchOr(p.status, row.status),
      row.createdBy,
      if p.profilePhotoUrl.Some? then p.profilePhotoUrl else row.profilePhotoUrl,
      if p.coverPhotoUrl.Some? then p.coverPhotoUrl else row.coverPhotoUrl,
      if p.updatedAt.Some? then p.updatedAt else row.updatedAt)
  }

  function ApplyEventPatch(row: EventRow, p: EventPatch): EventRow {
    EventRow(
      row.profileId,
      p.title,
      if p.description.Some? then p.description else row.description,
      p.eventType,
      p.startDate,
      if p.endDate.Some? then p.endDate else row.endDate,
      p.institution)
  }

  /** Adds `rows` under `keys`, pairwise. */
  function InsertAll<R>(m: map<string, R>, keys: seq<string>, rows: seq<R>): (m': map<string, R>)
    requires |keys| == |rows|
    decreases |rows|
  {
    if rows == [] then m else InsertAll(m[keys[0] := rows[0]], keys[1..], rows[1..])
  }

  /** Inserting rows under fresh, distinct keys adds exactly those keys and keeps every old row. */
  lemma {:induction false} InsertAllFresh<R>(m: map<string, R>, keys: seq<string>, rows: seq<R>)
    requires |keys| == |rows| && Distinct(keys)
    requires forall i :: 0 <= i < |keys| ==> keys[i] !in m
    ensures forall k :: k in m ==> k in InsertAll(m, keys, rows) && InsertAll(m, keys, rows)[k] == m[k]
    ensures forall i :: 0 <= i < |keys| ==> keys[i] in InsertAll(m, keys, rows) && InsertAll(m, keys, rows)[keys[i]] == rows[i]
    ensures forall k :: k in InsertAll(m, keys, rows) ==> k in m || k in keys
    decreases |rows|
  {
    if rows != [] {
      var m1 := m[keys[0] := rows[0]];
      var ks := keys[1..];
      assert forall i :: 0 <= i < |ks| ==> ks[i] == keys[i + 1];
      InsertAllFresh(m1, ks, rows[1..]);
    }
  }

  /** The database after it performs an accepted request. */
  function Apply(db: Db, w: Write, keys: seq<string>): Db
    requires |keys| == KeysNeeded(w)
  {
    match w
    case InsertProfile(row) => db.(profiles := db.profiles[keys[0] := row])
    case UpdateProfileRow(id, patch, _) =>
      if id in db.profiles then db.(profiles := db.profiles[id := ApplyProfilePatch(db.profiles[id], patch)]) else db
    case InsertEvents(rows) => db.(events := InsertAll(db.events, keys, rows))
    case UpdateEventRow(id, patch) =>
      if id in db.events then db.(events := db.events[id := ApplyEventPatch(db.events[id], patch)]) else db
    case DeleteEvent(id) => db.(events := db.events - {id})
    case InsertStories(rows) => db.(stories := InsertAll(db.stories, keys, rows))
    case UpdateStoryRow(id, q, a) =>
      if id in db.stories then db.(stories := db.stories[id := db.stories[id].(question := q, answer := a)]) else db
    case DeleteStory(id) => db.(stories := db.stories - {id})
    case UpdateUserRow(id, role, univ, _) =>
      if id in db.users
      then db.(users := db.users[id := db.users[id].(role := Some(role), universityId := if univ.Some? then univ else db.users[id].universityId)])
      else db
    case InsertRequest(r) => db.(requests := db.requests[keys[0] := r])
    case UpdateRequestStatus(id, status) =>
      if id in db.requests then db.(requests := db.requests[id := db.requests[id].(status := status)]) else db
    case UploadPhoto(bucket, name) => db.(photos := db.photos + {(bucket, name)})
  }

  /** A bound on the length of every string in a finite set. */
  ghost function MaxLength(s: set<string>): (m: nat)
    ensures forall x :: x in s ==> |x| <= m
    decreases s
  {
    if s == {} then 0
    else
      var x :| x in s;
      var m := MaxLength(s - {x});
      if |x| > m then |x| else m
  }

  /** Some string is not in a given finite set. */
  lemma FreshKeyExists(used: set<string>)
    ensures exists k :: k !in used
  {
    var k := seq(MaxLength(used) + 1, _ => 'k');
    assert k !in used;
  }

  /** Picks `n` distinct ids outside `used`, as the database does for new rows. */
  method FreshKeys(n: nat, used: set<string>) returns (keys: seq<string>)
    ensures |keys| == n && Distinct(keys)
    ensures forall i :: 0 <= i < n ==> keys[i] !in used
  {
    keys := [];
    while |keys| < n
      invariant |keys| <= n && Distinct(keys)
      invariant forall i :: 0 <= i < |keys| ==> keys[i] !in used
    {
      var taken := used + set k | k in keys;
      FreshKeyExists(taken);
      var k :| k !in taken;
      keys := keys + [k];
    }
  }

  /**
   * Between a state with log `log0` and call count `calls0` and one with
   * `log1` and `calls1`, the store accepted a prefix of `plan`, in order, and
   * all of it exactly when `completed`; every accepted request took one call,
   * and an incomplete run took one more, the call that failed.
   */
  ghost predicate Ran(log0: seq<Write>, calls0: nat, log1: seq<Write>, calls1: nat, plan: seq<Write>, completed: bool) {
    && log0 <= log1
    && log1[|log0|..] <= plan
    && (completed <==> log1[|log0|..] == plan)
    && calls1 == calls0 + |log1| - |log0| + (if completed then 0 else 1)
  }

  /** A run that completed one plan, followed by a run of a second, is a run of both plans in turn. */
  lemma RanThen(log0: seq<Write>, calls0: nat, log1: seq<Write>, calls1: nat, log2: seq<Write>, calls2: nat,
                first: seq<Write>, second: seq<Write>, completed: bool)
    requires Ran(log0, calls0, log1, calls1, first, true)
    requires Ran(log1, calls1, log2, calls2, second, completed)
    ensures Ran(log0, calls0, log2, calls2, first + second, completed)
  {
    assert log2[|log0|..] == log1[|log0|..] + log2[|log1|..];
  }

  /** A run that stopped part-way through a plan is also a stopped run of any longer plan. */
  lemma RanStopped(log0: seq<Write>, calls0: nat, log1: seq<Write>, calls1: nat, first: seq<Write>, second: seq<Write>)
    requires Ran(log0, calls0, log1, calls1, first, false)
    ensures Ran(log0, calls0, log1, calls1, first + second, false)
  {
    var done := log1[|log0|..];
    assert |done| < |first|;
    assert done <= first + second by {
      assert (first + second)[..|done|] == first[..|done|];
    }
    assert done != first + second;
  }

  /** The same, for a plan given as any extension of the stopped one. */
  lemma RanStoppedWithin(log0: seq<Write>, calls0: nat, log1: seq<Write>, calls1: nat, part: seq<Write>, plan: seq<Write>)
    requires Ran(log0, calls0, log1, calls1, part, false) && part <= plan
    ensures Ran(log0, calls0, log1, calls1, plan, false)
  {
    assert plan == part + plan[|part|..];
    RanStopped(log0, calls0, log1, calls1, part, plan[|part|..]);
  }

  /** A completed run followed by one more call is a run of the plan extended by that request. */
  lemma RanStep(log0: seq<Write>, calls0: nat, log1: seq<Write>, calls1: nat, log2: seq<Write>, calls2: nat,
                done: seq<Write>, w: Write, ok: bool)
    requires Ran(log0, calls0, log1, calls1, done, true)
    requires calls2 == calls1 + 1 && log2 == (if ok then log1 + [w] else log1)
    ensures Ran(log0, calls0, log2, calls2, done + [w], ok)
  {
    if ok {
      assert log2[|log0|..] == done + [w];
    } else {
      assert log2[|log0|..] == done;
      assert done <= done + [w];
    }
  }

  /** Nothing issued is a completed run of the empty plan. */
  lemma RanNothing(log0: seq<Write>, calls0: nat)
    ensures Ran(log0, calls0, log0, calls0, [], true)
  {
  }

  class Store {
    var db: Db
    var log: seq<Write>
    var calls: nat
    const faults: set<nat>

    constructor (initial: Db, faultSchedule: set<nat>)
      ensures db == initial && log == [] && calls == 0 && faults == faultSchedule
    {
      db := initial;
      log := [];
      calls := 0;
      faults := faultSchedule;
    }

    /**
     * Sends one request; `ok` is false when it failed, and then nothing
     * changed but the call count. `rejected` tells a rejection by the
     * database (a missing row) apart from a fault.
     */
    method Issue(w: Write) returns (ok: bool, rejected: bool, keys: seq<string>)
      modifies this
      ensures calls == old(calls) + 1
      ensures ok == (old(calls) !in faults && Accepts(old(db), w))
      ensures rejected == (old(calls) !in faults && !Accepts(old(db), w))
      ensures |keys| == KeysNeeded(w) && Distinct(keys)
      ensures forall i :: 0 <= i < |keys| ==> keys[i] !in TakenKeys(old(db), w)
      ensures db == (if ok then Apply(old(db), w, keys) else old(db))
      ensures log == (if ok then old(log) + [w] else old(log))
    {
      keys := FreshKeys(KeysNeeded(w), TakenKeys(db, w));
      ok := calls !in faults && Accepts(db, w);
      rejected := calls !in faults && !Accepts(db, w);
      if ok {
        db := Apply(db, w, keys);
        log := log + [w];
      }
      calls := calls + 1;
    }
  }
}
