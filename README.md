# Storiats decision logic in Dafny

Storiats is a web app for alumni memorial profiles. It is built on a hosted
database. Universities, alumni and visitors sign in with one of six roles.
Alumni write a profile with a timeline and stories. Admins review profiles,
manage users and approve role requests. Nearly every behaviour is a page
handler that sends queries to the database. This project models the
decisions those handlers make and proves what they promise.

What is modelled, module by module:

- `Auth` (`src/lib/auth.ts`): the role and permission predicates and the rank
  table behind `hasHigherOrEqualRole`. A user is `Option<User>`, where `None`
  stands for `null`. A user's role is `Option<Role>`.
- `Backend`: the database as an in-memory value. It holds one map from id to
  row per table. A `Store` object holds that value, the log of accepted
  writes, a call counter and a fault schedule, which is the set of call
  numbers at which the backend fails. `Store.Issue` performs one write. The
  predicate `Ran` says that a handler sent a prefix of its planned writes in
  order. It sent the whole plan exactly when no call failed, and it stopped
  right after the first failed call. The handlers' contracts are stated
  with `Ran`.
- `Profiles` (`src/lib/profiles.ts`): `createProfile`, `updateProfile` and the
  photo uploads, on the store.
- `AlumniEditor` (`src/app/alumni/profile/page.tsx`): the editor's state as a
  class, `loadProfile`, the local list editors, and `handleSubmit`'s
  synchronisation of timeline events and stories against the ids captured
  at load time, followed by its reload.
- `RoleRequests` (`src/app/role-requests/page.tsx`): submission guards, the
  request record, approval and rejection, and the `loadData` reload that
  follows each of them.
- `ProtectedRoute` (`src/components/ProtectedRoute.tsx`): the redirect effect
  and the render decision.
- `Dashboard`, `DashboardUsers`, `DashboardProfiles` and
  `DashboardUniversities` (`src/app/dashboard/...`): the dashboard home's
  `ProtectedRoute` gate, the effective role, the cards and banners, the user-role update, the profile filters, and the
  university scoping and search.
- `Listings`: the search shared by `src/app/universities/page.tsx` and
  `src/app/organizations/page.tsx`. `Organizations` adds the sample list and
  the empty-state message.
- `Navigation` and `DashboardNavbar` (`src/components/...`): initials,
  display names, breadcrumb, role label, dropdown and sign-out flags. The
  two components' `getInitials` are identical, so it is modelled once, as
  `Navigation.GetInitials`.
- `Utils` (`src/lib/utils.ts`): `getUserRoleDisplayName`.
- `Strings`, `Lists` and `Wrappers` are supporting modules. They give the
  JavaScript string and array operations the source uses: `trim`,
  ASCII `toLowerCase`/`toUpperCase`, `includes`, `split`, `replace` of the
  first match, `filter`, de-duplication through a `Set`, and truthiness.

Inputs the source takes from the environment become parameters:

- the clock: `now` in milliseconds and `nowIso` as a string;
- `confirm` answers;
- the outcome of a sign-out;
- rows that a page reads and displays.

Writes go through the `Store`, except the university delete of
`DashboardUniversities.UniversitiesAdminPage.HandleDeleteUniversity`, whose
outcome is a parameter.

## Model

| member | source | states |
|---|---|---|
| Auth.ParseRole | src/app/dashboard/page.tsx:91 | the `as UserRole` cast: the role a string names, when it names one, so a string that names no role yields no role |
| Auth.ParseRoleName | src/app/dashboard/page.tsx:91 | every role's name parses back to that role |
| Auth.HasRole | src/lib/auth.ts:14-16 | `hasRole`: the user is present and carries that role; characterised by `HasRoleExactly` |
| Auth.HasAnyRole | src/lib/auth.ts:18-20 | `hasAnyRole`: false without a role, else membership of the role in the list; characterised by `HasAnyRoleIsMembership` |
| Auth.IsPlatformAdmin | src/lib/auth.ts:22-24 | `isPlatformAdmin`: `hasRole` with platform_admin |
| Auth.IsUniversityAdmin | src/lib/auth.ts:26-28 | `isUniversityAdmin`: `hasRole` with university_admin |
| Auth.IsAlumni | src/lib/auth.ts:30-32 | `isAlumni`: `hasRole` with alumni |
| Auth.IsViewer | src/lib/auth.ts:34-36 | `isViewer`: `hasRole` with viewer |
| Auth.CanManageAllUsers | src/lib/auth.ts:39-41 | platform admins only; see `PermissionsNest` |
| Auth.CanManageUniversityUsers | src/lib/auth.ts:43-45 | either admin role; see `PermissionsNest` |
| Auth.CanEditProfile | src/lib/auth.ts:47-51 | either admin role, or alumni who created the profile; see `CanEditProfileByRole` |
| Auth.CanViewProfile | src/lib/auth.ts:53-67 | the early-return chain: admins, the alumni creator, or a published profile; see `PublishedIsPublic` and `UnpublishedVisibility` |
| Auth.CanAccessDashboard | src/lib/auth.ts:69-71 | either admin role or alumni; see `DashboardAccessIsCreateProfiles` |
| Auth.CanCreateProfiles | src/lib/auth.ts:82-84 | either admin role or alumni; see `DashboardAccessIsCreateProfiles` |
| Auth.CanApproveProfiles | src/lib/auth.ts:86-88 | either admin role; see `PermissionsNest` |
| Auth.CanManageUniversities | src/lib/auth.ts:90-92 | platform admins only; see `PermissionsNest` |
| Auth.HasHigherOrEqualRole | src/lib/auth.ts:107-110 | false without a role, else the user's rank is at least the required one; see `HigherOrEqualIsReflexive`, `HigherOrEqualIsMonotone` and `HigherOrEqualExtremes` |
| Auth.HasRoleExactly | src/lib/auth.ts:14-36 | hasRole holds iff the user is present and has exactly that role; such a user has no other role |
| Auth.RolelessUserHasNoPermissions | src/lib/auth.ts:14-110 | a null or role-less user passes no role test, no permission and no rank check |
| Auth.HasAnyRoleIsMembership | src/lib/auth.ts:18-20 | hasAnyRole holds iff some role in the list is the user's role |
| Auth.RoleRank | src/lib/auth.ts:95-105 | every rank is between 1 and 4; 4 only for platform_admin, 3 only for university_admin, 1 exactly for viewer and contributor |
| Auth.RankOrder | src/lib/auth.ts:95-105 | platform_admin > university_admin > alumni = editor > viewer = contributor |
| Auth.HigherOrEqualIsReflexive | src/lib/auth.ts:107-110 | a user with a role passes the check for their own role |
| Auth.HigherOrEqualIsMonotone | src/lib/auth.ts:107-110 | passing the check for r1 implies passing it for every role ranked at or below r1 |
| Auth.HigherOrEqualExtremes | src/lib/auth.ts:107-110 | the check for platform_admin is isPlatformAdmin; for viewer it means having any role; for university_admin it is canApproveProfiles |
| Auth.CanEditProfileByRole | src/lib/auth.ts:47-51 | both admin roles may edit; alumni may edit iff they created the profile; viewer, editor and contributor never may |
| Auth.PublishedIsPublic | src/lib/auth.ts:53-56 | a published profile is visible to everyone, including a null user |
| Auth.UnpublishedVisibility | src/lib/auth.ts:53-67 | an unpublished profile is visible iff the user may approve profiles or may edit this one |
| Auth.DashboardAccessIsCreateProfiles | src/lib/auth.ts:69-84 | canAccessDashboard and canCreateProfiles coincide: admin or alumni |
| Auth.PermissionsNest | src/lib/auth.ts:39-92 | managing universities = managing all users = platform admin, which implies approving profiles (= managing university users), which implies creating profiles |
| Utils.UserRoleDisplayName | src/lib/utils.ts:16-33 | a string that names no role is returned unchanged |
| Utils.ViewerIsStudent | src/lib/utils.ts:18-19 | 'viewer' is shown as 'Student' |
| Utils.KnownRoleLabelsAreDistinct | src/lib/utils.ts:16-30 | each known role's label differs from the raw role string and from every other role's label |
| Profiles.InitialStatus | src/lib/profiles.ts:110-120 | published iff the creator is a platform or university admin, pending_review iff alumni, otherwise draft; never archived |
| Profiles.InitialStatusFollowsPermissions | src/lib/profiles.ts:110-120 | published exactly for users who may approve profiles, pending_review exactly for alumni, draft exactly for users who may not create profiles |
| Profiles.NewProfileRow | src/lib/profiles.ts:122-131 | the inserted profile row: the supplied fields, the initial status, and created_by the supplied user's id |
| Profiles.NonBlank | src/lib/profiles.ts:149 | an end date is kept iff it is present and not blank, and it is then unchanged |
| Profiles.PrepareEvents | src/lib/profiles.ts:141-150 | the events with a non-blank start date, in order, each as a row of the new profile; see `PrepareEventsRows`, `PrepareEventsKeepsOrder`, `PrepareEventsKeepsDated` |
| Profiles.PrepareEventsRows | src/lib/profiles.ts:141-150 | no more rows than events; every row carries the new profile's id and a non-blank start date |
| Profiles.PrepareEventsKeepsOrder | src/lib/profiles.ts:143-150 | the kept rows are an order-preserving subsequence of all events' rows |
| Profiles.PrepareEventsKeepsDated | src/lib/profiles.ts:143-150 | every event with a non-blank start date is kept |
| Profiles.PrepareEventsEmpty | src/lib/profiles.ts:152 | nothing is kept iff no event has a non-blank start date |
| Profiles.PrepareStories | src/lib/profiles.ts:165-169 | one row per story, in order, tagged with the new profile's id; see `PrepareStoriesKeepsStories` |
| Profiles.EventWrites | src/lib/profiles.ts:141-162 | the timeline insert, sent only when some event survives the filter; see `EventWritesShape` |
| Profiles.StoryWrites | src/lib/profiles.ts:164-179 | the story insert, sent only when stories were supplied |
| Profiles.PrepareStoriesKeepsStories | src/lib/profiles.ts:165-169 | every story is kept, in order, tagged with the new profile's id |
| Profiles.EventWritesShape | src/lib/profiles.ts:141-162 | at most one timeline insert, carrying exactly the kept rows, and it is sent iff some event survives the filter |
| Profiles.CreateProfile | src/lib/profiles.ts:109-182 | sends the profile insert, then the timeline insert, then the story insert, stopping at the first failure; on success the new row has the initial status and created_by is the creator's id |
| Profiles.InsertChildren | src/lib/profiles.ts:140-179 | the timeline writes, then the story writes, stopping at the first failure; profiles are untouched |
| Profiles.InsertTimelineRows | src/lib/profiles.ts:141-162 | sends exactly the planned timeline insert, if any |
| Profiles.InsertStoryRows | src/lib/profiles.ts:164-179 | sends exactly the planned story insert, if any |
| Profiles.Stamped | src/lib/profiles.ts:187-190 | the patch gets updated_at set to now; nothing else changes |
| Profiles.UpdateProfile | src/lib/profiles.ts:184-206 | one stamped update; it succeeds iff the call does not fail and the row exists; otherwise it raises the no-profile error for a missing row and leaves the database unchanged |
| Profiles.Extension | src/lib/profiles.ts:340 | the extension contains no '.' |
| Profiles.ExtensionIsLastSegment | src/lib/profiles.ts:340 | the extension is the text after the last '.', or the whole name when there is no '.' |
| Profiles.ExtensionOfDotted | src/lib/profiles.ts:340 | the extension of `stem.ext` is `ext` |
| Profiles.PhotoFileNames | src/lib/profiles.ts:341-364 | names start with `<id>-profile-` or `<id>-cover-`, keep the upload's extension, and never coincide |
| Profiles.UploadProfilePhoto | src/lib/profiles.ts:339-360 | after the upload, updates the profile's photo URL to the public URL of the built name, and returns that URL |
| Profiles.UploadCoverPhoto | src/lib/profiles.ts:362-383 | the same for the cover photo |
| AlumniEditor.EditedTimeline | src/app/alumni/profile/page.tsx:358-360 | the edited timeline has the same length |
| AlumniEditor.EditTouchesOnlyMatching | src/app/alumni/profile/page.tsx:358-360 | only events with the id change, and only the edited field; the ids are kept unless the id itself is edited |
| AlumniEditor.EditIdempotent | src/app/alumni/profile/page.tsx:358-360 | applying the same edit twice equals applying it once |
| AlumniEditor.RemovedFromTimeline | src/app/alumni/profile/page.tsx:362-364 | `filter(e => e.id !== id)`; see `RemoveDropsExactlyMatching` |
| AlumniEditor.WithNewEvent | src/app/alumni/profile/page.tsx:345-356 | appends one blank event whose id is the clock reading |
| AlumniEditor.WithPredefinedEvent | src/app/alumni/profile/page.tsx:384-395 | appends one blank event with id `predefined-<now>` |
| AlumniEditor.RemoveDropsExactlyMatching | src/app/alumni/profile/page.tsx:362-364 | removal drops exactly the events with that id, keeps the others in order, and cancels any earlier edit of them |
| AlumniEditor.RemoveAfterEdit | src/app/alumni/profile/page.tsx:358-364 | removing after an edit is the same as removing without it |
| AlumniEditor.EditedStories | src/app/alumni/profile/page.tsx:397-399 | the edited story list has the same length |
| AlumniEditor.StoryEditorsTouchOnlyMatching | src/app/alumni/profile/page.tsx:397-403 | a story edit changes only matching stories; removal drops exactly the matching ones, keeping order |
| AlumniEditor.RemovedFromStories | src/app/alumni/profile/page.tsx:401-403 | `filter(s => s.id !== id)`; see `StoryEditorsTouchOnlyMatching` |
| AlumniEditor.WithNewStory | src/app/alumni/profile/page.tsx:366-373 | appends one story 'Tell us a story...' with an empty answer and the clock reading as id |
| AlumniEditor.WithPredefinedStories | src/app/alumni/profile/page.tsx:375-382 | appends the eight prompts with ids `predefined-<now>-<index>`; see `PredefinedStoriesAppended` |
| AlumniEditor.PredefinedStoriesAppended | src/app/alumni/profile/page.tsx:375-382 | the eight questions are appended in order, with empty answers, after the existing stories |
| AlumniEditor.EventPayload | src/app/alumni/profile/page.tsx:244-260 | an event's update sends its fields; an empty description and a blank end date are sent as absent |
| AlumniEditor.ProfileWrite | src/app/alumni/profile/page.tsx:218-227 | the profile update of a save: trimmed name, a blank birth date as null, updated_at now |
| AlumniEditor.TimelinePlan | src/app/alumni/profile/page.tsx:236-271 | the timeline writes of a save, creates and updates of dated events, then deletes; see `TimelineDeletesExactly`, `ValidEventsAreSent`, `TimelineWritesCarryStartDates` |
| AlumniEditor.StoryPlan | src/app/alumni/profile/page.tsx:277-300 | the story writes of a save; see `StoryPlanExactly` |
| AlumniEditor.PhotoPlan | src/app/alumni/profile/page.tsx:306-315 | the profile photo's writes, then the cover photo's, each when one was chosen |
| AlumniEditor.RemovedIdsExactly | src/app/alumni/profile/page.tsx:266-271 | an id is deleted iff it was original and is no longer present |
| AlumniEditor.RemovedIdsDistinct | src/app/alumni/profile/page.tsx:267-271 | with distinct original ids, each id is deleted once |
| AlumniEditor.RemovedIdsPrefix | src/app/alumni/profile/page.tsx:267-271 | the deletions for a prefix of the original ids are a prefix of all deletions |
| AlumniEditor.RemovedIdsAllShown | src/app/alumni/profile/page.tsx:266-271 | nothing is deleted when every original id is still present |
| AlumniEditor.EventDeletesPrefix | src/app/alumni/profile/page.tsx:267-271 | event deletes for a prefix of the ids are a prefix of the deletes |
| AlumniEditor.StoryDeletesPrefix | src/app/alumni/profile/page.tsx:296-300 | story deletes for a prefix of the ids are a prefix of the deletes |
| AlumniEditor.TimelineDeletesExactly | src/app/alumni/profile/page.tsx:238-271 | the timeline plan deletes exactly the vanished original ids, after all creates and updates, each once when the ids are distinct |
| AlumniEditor.ValidEventsAreSent | src/app/alumni/profile/page.tsx:241-262 | each event with a start date is updated if its id is original, else created with the profile's id |
| AlumniEditor.TimelineWritesCarryStartDates | src/app/alumni/profile/page.tsx:238-271 | every update is of an original id with a non-blank start date; every create is one row for this profile with a non-blank start date |
| AlumniEditor.ShownEventsAreNotDeleted | src/app/alumni/profile/page.tsx:266-271 | no event still on the timeline is deleted, even one without a start date |
| AlumniEditor.RemovedIdsIgnoresNewIds | src/app/alumni/profile/page.tsx:266-271 | adding a non-original id to the timeline does not change the deletions |
| AlumniEditor.UndatedNewEventChangesNothing | src/app/alumni/profile/page.tsx:238-271 | a new event without a start date changes nothing in the plan |
| AlumniEditor.LoadedTimeline | src/app/alumni/profile/page.tsx:158-166 | one event per loaded row, with the row's id and start date |
| AlumniEditor.LoadedStories | src/app/alumni/profile/page.tsx:167-171 | one story per loaded row, with the row's id |
| AlumniEditor.UntouchedEventSavesUnchanged | src/app/alumni/profile/page.tsx:158-260 | saving an event exactly as loaded leaves its row unchanged |
| AlumniEditor.LoadThenSaveKeepsTimeline | src/app/alumni/profile/page.tsx:173-271 | saving right after a load sends only updates, each of which leaves its row unchanged |
| AlumniEditor.ClearedFieldsKeepStoredValues | src/app/alumni/profile/page.tsx:244-260 | a cleared end date or description keeps the stored value; a non-blank end date replaces it |
| AlumniEditor.StoryPlanExactly | src/app/alumni/profile/page.tsx:278-300 | every story is updated if original, else created; then exactly the vanished original story ids are deleted, each once |
| AlumniEditor.Reloaded | src/app/alumni/profile/page.tsx:96-200 | the editor after `loadProfile`: unchanged on a failed or empty query; a found profile fills the form, shows its rows and captures their ids, or, when the rows cannot be read, appends the blank event and the predefined stories to what was shown |
| AlumniEditor.ReloadCapturesLoadedIds | src/app/alumni/profile/page.tsx:173-176 | a load that read the rows remembers exactly their ids, in order, and every remembered id is on screen |
| AlumniEditor.SaveAfterReloadOnlyUpdatesEvents | src/app/alumni/profile/page.tsx:173-271 | a save right after such a load creates and deletes no event: every timeline write updates a loaded row |
| AlumniEditor.SaveAfterReloadOnlyUpdatesStories | src/app/alumni/profile/page.tsx:173-300 | the same for stories when at least one was loaded |
| AlumniEditor.FailedChildLoadKeepsTimelinePlan | src/app/alumni/profile/page.tsx:187-191 | when the rows cannot be read, the remembered ids stay and the appended blank event changes nothing the next save sends |
| AlumniEditor.Editor.constructor | src/app/alumni/profile/page.tsx:55-89 | an empty editor, loading |
| AlumniEditor.Editor.LoadProfile | src/app/alumni/profile/page.tsx:96-200 | clears the error, leaves the editor as `Reloaded` says, reports 'Failed to load profile.' for a failed query, and ends not loading |
| AlumniEditor.Editor.UpdateTimelineEventLocal | src/app/alumni/profile/page.tsx:358-360 | the timeline becomes the edited timeline |
| AlumniEditor.Editor.RemoveTimelineEventLocal | src/app/alumni/profile/page.tsx:362-364 | the timeline loses the events with that id |
| AlumniEditor.Editor.AddTimelineEventLocal | src/app/alumni/profile/page.tsx:345-356 | one blank event is appended |
| AlumniEditor.Editor.UpdateStoryLocal | src/app/alumni/profile/page.tsx:397-399 | the stories become the edited stories |
| AlumniEditor.Editor.RemoveStoryLocal | src/app/alumni/profile/page.tsx:401-403 | the stories lose those with that id |
| AlumniEditor.Editor.AddStoryLocal | src/app/alumni/profile/page.tsx:366-373 | one empty story is appended |
| AlumniEditor.Editor.HandleFileUpload | src/app/alumni/profile/page.tsx:337-343 | only the chosen photo slot changes |
| AlumniEditor.Editor.SyncTimeline | src/app/alumni/profile/page.tsx:236-275 | sends the timeline plan in order, stopping at the first failure |
| AlumniEditor.Editor.SyncEventUpserts | src/app/alumni/profile/page.tsx:241-263 | the creates and updates, in timeline order |
| AlumniEditor.Editor.SyncEventDeletes | src/app/alumni/profile/page.tsx:266-273 | the deletes of the vanished ids, in original order |
| AlumniEditor.Editor.SyncStories | src/app/alumni/profile/page.tsx:277-304 | sends the story plan in order, stopping at the first failure |
| AlumniEditor.Editor.SyncStoryUpserts | src/app/alumni/profile/page.tsx:278-293 | the story creates and updates, in order |
| AlumniEditor.Editor.SyncStoryDeletes | src/app/alumni/profile/page.tsx:295-302 | the deletes of the vanished story ids |
| AlumniEditor.Editor.SyncPhotos | src/app/alumni/profile/page.tsx:306-315 | uploads the chosen profile photo, then the cover photo |
| AlumniEditor.Editor.SyncAfterProfile | src/app/alumni/profile/page.tsx:236-315 | the timeline, story and photo parts each run in turn, each whether or not the one before it completed |
| AlumniEditor.Editor.HandleSubmit | src/app/alumni/profile/page.tsx:202-327 | without a profile: the no-profile error and no writes; a failed profile update: its error and nothing more; otherwise the profile update, then the three parts, the success message, and the reload, after which the editor is `Reloaded` and the error is the reload's |
| RoleRequests.SubmitGuard | src/app/role-requests/page.tsx:181-200 | passes iff a university is chosen, a verification names a profile, a new profile has a non-blank name, and a role change comes from a viewer |
| RoleRequests.SubmitGuardOrder | src/app/role-requests/page.tsx:181-200 | the first failing guard decides the message, in the source's order |
| RoleRequests.FindProfileName | src/app/role-requests/page.tsx:231 | the name of the first loaded profile with the id, or none when no profile has it |
| RoleRequests.FirstMatchShifts | src/app/role-requests/page.tsx:231 | a first match in the tail is a first match in the whole list |
| RoleRequests.BuildRequest | src/app/role-requests/page.tsx:209-235 | pending, with the chosen university and type; requests university_admin for a role change and alumni otherwise; a profile id only for a verification, a new name only for a new profile |
| RoleRequests.ApprovalProfileName | src/app/role-requests/page.tsx:289-298 | the new name, the existing name, or 'Alumni Profile', by type; never empty |
| RoleRequests.ApprovalProfile | src/app/role-requests/page.tsx:300-308 | the profile an alumni approval inserts: the chosen name, the request's university, published, created_by the requester |
| RoleRequests.ApprovalUserWrite | src/app/role-requests/page.tsx:280-286 | the user update: the requested role, and the university only for a university_admin request naming one |
| RoleRequests.ApprovalPlan | src/app/role-requests/page.tsx:280-342 | the profile insert for alumni requests, then the user update, then the status update; see `ApprovalOrder` |
| RoleRequests.ApprovalOrder | src/app/role-requests/page.tsx:280-342 | for alumni: profile insert, user update, status update; otherwise the last two; the user update sets the requested role and a university only for a university_admin request |
| RoleRequests.ApprovedOnlyAfterUserUpdate | src/app/role-requests/page.tsx:312-342 | if 'approved' was written, the whole plan was, including the user update |
| RoleRequests.ApprovalIgnoresStatus | src/app/role-requests/page.tsx:262-310 | the plan does not depend on the request's status, so a second approval inserts another profile |
| RoleRequests.SubmitThenApprove | src/app/role-requests/page.tsx:178-349 | approving a submitted request grants the requested role, and for alumni creates a published profile owned by the requester |
| RoleRequests.ApprovalFailureMessage | src/app/role-requests/page.tsx:314-340 | each failing step has its own message |
| RoleRequests.RejectionTouchesOnlyStatus | src/app/role-requests/page.tsx:351-372 | a rejection changes only the request's status, to rejected |
| RoleRequests.StatusColor | src/app/role-requests/page.tsx:374-385 | `getStatusColor`; see `StatusColors` |
| RoleRequests.StatusColors | src/app/role-requests/page.tsx:374-385 | the three statuses get distinct colours, and every other string is gray |
| RoleRequests.AfterLoad | src/app/role-requests/page.tsx:30-155 | `loadData`'s effect on the form's state: the user-id message without an id; otherwise the captured university's profiles when one was selected and the read completed, and the error of the first failing read; see `LoadErrorByOutcome` and `LoadKeepsProfilesWithoutUniversity` |
| RoleRequests.LoadErrorByOutcome | src/app/role-requests/page.tsx:30-155 | the error is cleared iff the user has an id and every read succeeded; otherwise 'User ID not found…', 'Failed to load role requests.' for the admins' lists, 'Failed to load your role requests.' for the user's own, or 'Failed to load data. Please try again.' |
| RoleRequests.LoadKeepsProfilesWithoutUniversity | src/app/role-requests/page.tsx:56-63 | without a selected university, or without a user id, the profile list is left as it was |
| RoleRequests.SubmitReloadRefetchesProfiles | src/app/role-requests/page.tsx:56-63 | after a submission that passed the guards, the reload sees the university chosen before the reset and refills the emptied list with its profiles, not with the empty list the reset form would give |
| RoleRequests.RoleRequestsPage.constructor | src/app/role-requests/page.tsx:11-22 | an empty form for the signed-in user, loading |
| RoleRequests.RoleRequestsPage.LoadData | src/app/role-requests/page.tsx:30-155 | the profile list and the error become `AfterLoad` for the captured university, and loading ends |
| RoleRequests.RoleRequestsPage.HandleSubmitRequest | src/app/role-requests/page.tsx:178-260 | a failing guard sets its message and writes nothing; otherwise one insert of the built request; success resets the form and ends with the reload for the university selected before the reset, whose outcome gives the error and the profile list; failure keeps the form and sets the error |
| RoleRequests.RoleRequestsPage.HandleApproveRequest | src/app/role-requests/page.tsx:262-349 | a missing request reports 'Request not found.'; otherwise the approval plan in order, stopping at the first failure with that step's message; a completed plan ends with the reload, whose outcome gives the error and the profile list |
| RoleRequests.RoleRequestsPage.HandleRejectRequest | src/app/role-requests/page.tsx:351-372 | one status update; a failure sets the rejection error; success ends with the reload, whose outcome gives the error and the profile list |
| ProtectedRoute.DefaultProps | src/components/ProtectedRoute.tsx:17-23 | requireAuth defaults to true, requireDashboardAccess to false |
| ProtectedRoute.Spread | src/components/ProtectedRoute.tsx:48 | the spread user the checks are given, with email and id defaulting to ''; see `SpreadDecidesLikeUser` |
| ProtectedRoute.RoleDeniedMessage | src/components/ProtectedRoute.tsx:115 | the role-denied text, with the first '_' of the role replaced by a space |
| ProtectedRoute.Render | src/components/ProtectedRoute.tsx:64-129 | a spinner while loading, else the first denial's panel or the fallback, else the children; see `ChildrenIffAllChecksPass` |
| ProtectedRoute.Redirect | src/components/ProtectedRoute.tsx:28-59 | no redirect while loading, else the first denial's target; see `RenderAgreesWithRedirect` |
| ProtectedRoute.SpreadDecidesLikeUser | src/components/ProtectedRoute.tsx:48-55 | checking the spread object decides exactly as checking the user |
| ProtectedRoute.FirstDenial | src/components/ProtectedRoute.tsx:41-59 | no denial iff every enabled check passes |
| ProtectedRoute.FirstFailureWins | src/components/ProtectedRoute.tsx:41-59 | the checks run in order and the first failure decides |
| ProtectedRoute.LoadingShowsSpinner | src/components/ProtectedRoute.tsx:28-70 | while loading: a spinner and no redirect |
| ProtectedRoute.ChildrenIffAllChecksPass | src/components/ProtectedRoute.tsx:73-129 | once loaded, the children render iff every enabled check passes |
| ProtectedRoute.RenderAgreesWithRedirect | src/components/ProtectedRoute.tsx:41-126 | children render iff nothing redirects; the sign-in panel comes with the sign-in redirect and the other panels with '/' |
| ProtectedRoute.DefaultPropsDecisions | src/components/ProtectedRoute.tsx:20-45 | with default props a signed-out visitor goes to sign in, and a signed-in user passes when no role is required |
| ProtectedRoute.Router.constructor | src/components/ProtectedRoute.tsx:25 | nothing pushed yet |
| ProtectedRoute.Router.Push | src/components/ProtectedRoute.tsx:43 | appends the path |
| ProtectedRoute.CheckAccess | src/components/ProtectedRoute.tsx:27-61 | pushes the redirect target, if any, and nothing else; nothing when the children render |
| Dashboard.EffectiveRole | src/app/dashboard/page.tsx:56 | the fetched role if truthy, else the context role, else 'viewer'; never empty |
| Dashboard.Cards | src/app/dashboard/page.tsx:84-172 | the cards shown for the effective role; see `AdminOnlyCards` and `RoleDependentCards` |
| Dashboard.Banners | src/app/dashboard/page.tsx:174-214 | the banners shown for the effective role; see `AtMostOneBanner` |
| Dashboard.RoleBadge | src/app/dashboard/page.tsx:72 | the effective role with its first '_' replaced by a space, upper-cased |
| Dashboard.ProfilesCardText | src/app/dashboard/page.tsx:91-93 | the admin wording for either admin role, the editing wording otherwise |
| Dashboard.Render | src/app/dashboard/page.tsx:51-217 | nothing without a user; otherwise ProtectedRoute's view under the page's gate, and the cards, banners, badge and text for the effective role only when the gate shows its children; see `ContentIffDashboardAccess`, `LowRoleIsTurnedAway` and `NoUserRendersNothing` |
| Dashboard.ContentIffDashboardAccess | src/app/dashboard/page.tsx:59 | the content shows iff the session has loaded and the context user may access the dashboard; a spinner while loading, the dashboard-denied panel otherwise, whatever role was fetched |
| Dashboard.LowRoleIsTurnedAway | src/components/ProtectedRoute.tsx:48-52 | a user without a role, or with viewer, editor or contributor, gets the dashboard-denied panel and the redirect to '/', even with a fetched admin role |
| Dashboard.AdminOnlyCards | src/app/dashboard/page.tsx:115-130 | the users and universities cards show iff the effective role is platform_admin |
| Dashboard.RoleDependentCards | src/app/dashboard/page.tsx:87-172 | create card iff admin or alumni, analytics iff admin; profiles and settings always |
| Dashboard.AtMostOneBanner | src/app/dashboard/page.tsx:174-214 | at most one banner, none unless admin or alumni |
| Dashboard.FetchedRoleDecides | src/app/dashboard/page.tsx:56 | a fetched role overrides the context role |
| Dashboard.FetchedViewerSeesViewerPage | src/app/dashboard/page.tsx:56-214 | a user the gate lets through whose fetched role is viewer sees two cards, no banner, badge VIEWER |
| Dashboard.NoUserRendersNothing | src/app/dashboard/page.tsx:51-53 | without a user nothing renders |
| Dashboard.DashboardPage.constructor | src/app/dashboard/page.tsx:16-17 | no fetched role, not loading |
| Dashboard.DashboardPage.StartRoleFetch | src/app/dashboard/page.tsx:28-30 | a fetch starts iff there is a user with an id |
| Dashboard.DashboardPage.RoleFetchSettled | src/app/dashboard/page.tsx:31-47 | a truthy role is kept, and a refresh is requested iff it differs from the context role |
| Dashboard.RefreshOnlyOnMismatch | src/app/dashboard/page.tsx:33-39 | no refresh when the fetched role equals the context role; always one for a role-less context |
| DashboardUsers.WithRole | src/app/dashboard/users/page.tsx:58-62 | the list keeps its length |
| DashboardUsers.WithRoleTouchesOnlyMatching | src/app/dashboard/users/page.tsx:58-62 | only users with the id change, and only their role; ids and order are kept |
| DashboardUsers.WithRoleIdempotent | src/app/dashboard/users/page.tsx:58-62 | setting the same role twice is setting it once |
| DashboardUsers.DisplayedRole | src/app/dashboard/users/page.tsx:147-161 | a role-less user is shown as viewer |
| DashboardUsers.RoleBadgeColor | src/app/dashboard/users/page.tsx:86-99 | `getRoleBadgeColor`; see `BadgeColors` |
| DashboardUsers.IconFor | src/app/dashboard/users/page.tsx:71-84 | `getRoleIcon`; see `RolelessShownAsViewer` |
| DashboardUsers.BadgeText | src/app/dashboard/users/page.tsx:149 | the role with its first '_' replaced by a space, upper-cased, or 'VIEWER' without a role |
| DashboardUsers.BadgeColors | src/app/dashboard/users/page.tsx:86-99 | red, blue and green mark the three elevated roles, each uniquely; every other role is gray |
| DashboardUsers.RolelessShownAsViewer | src/app/dashboard/users/page.tsx:147-161 | a role-less user gets the viewer's badge text, colour, icon and selected option |
| DashboardUsers.UsersPage.constructor | src/app/dashboard/users/page.tsx:20-23 | the loaded list, no error, nothing in flight |
| DashboardUsers.UsersPage.HandleRoleUpdate | src/app/dashboard/users/page.tsx:52-69 | on success the list gets the new role; on failure it is unchanged and the error is set; the in-flight marker holds the id during the call and is cleared after |
| DashboardProfiles.FilteredProfiles | src/app/dashboard/profiles/page.tsx:71-78 | kept iff the search, status and university tests all hold |
| DashboardProfiles.MatchesSearch | src/app/dashboard/profiles/page.tsx:72-73 | the lower-cased term occurs in the lower-cased name or university name; see `FilteredProfiles` |
| DashboardProfiles.FilteredIsSubsequence | src/app/dashboard/profiles/page.tsx:71-78 | the result is an order-preserving subsequence |
| DashboardProfiles.NoFiltersKeepAll | src/app/dashboard/profiles/page.tsx:71-78 | an empty term with both filters at 'all' keeps everything |
| DashboardProfiles.NoUniversityNeverMatchesSpecific | src/app/dashboard/profiles/page.tsx:75 | a profile without a university never matches a specific university filter |
| DashboardProfiles.StatusFilterIsExact | src/app/dashboard/profiles/page.tsx:74 | a specific status filter keeps only that status; an unknown one keeps nothing |
| DashboardProfiles.UniversityNames | src/app/dashboard/profiles/page.tsx:117 | the non-empty university names of the profiles, all of them |
| DashboardProfiles.GetUniversities | src/app/dashboard/profiles/page.tsx:116-119 | distinct, non-empty, exactly the profiles' university names |
| DashboardProfiles.UniversitiesInFirstOccurrenceOrder | src/app/dashboard/profiles/page.tsx:117 | names appear in the order of their first occurrence |
| DashboardProfiles.OfferedUniversityShowsSomething | src/app/dashboard/profiles/page.tsx:75-119 | choosing an offered university leaves at least one profile |
| DashboardProfiles.StatusBadgesDistinct | src/app/dashboard/profiles/page.tsx:30-42 | each status has its own colour and label |
| DashboardProfiles.StatusColor | src/app/dashboard/profiles/page.tsx:30-35 | the `statusColors` table; see `StatusBadgesDistinct` |
| DashboardProfiles.StatusLabel | src/app/dashboard/profiles/page.tsx:37-42 | the `statusLabels` table; see `StatusBadgesDistinct` |
| DashboardProfiles.ProfilesPage.constructor | src/app/dashboard/profiles/page.tsx:46-51 | no profiles, no error, loading |
| DashboardProfiles.ProfilesPage.LoadProfiles | src/app/dashboard/profiles/page.tsx:57-69 | the fetched list, or the old list and the load error |
| DashboardProfiles.ProfilesPage.HandleArchiveProfile | src/app/dashboard/profiles/page.tsx:92-101 | writes nothing; it only reloads |
| DashboardUniversities.Scoped | src/app/dashboard/universities/page.tsx:33-36 | a university admin with a university sees only that one; others see all |
| DashboardUniversities.ScopedIsSubsequence | src/app/dashboard/universities/page.tsx:35 | scoping keeps order |
| DashboardUniversities.OnlyAssignedAdminsAreScoped | src/app/dashboard/universities/page.tsx:34 | platform admins, unassigned university admins and no user see all |
| DashboardUniversities.SearchResult | src/app/dashboard/universities/page.tsx:76-87 | a blank term shows the full list; otherwise the untrimmed term's search |
| DashboardUniversities.SearchResultIsSubsequence | src/app/dashboard/universities/page.tsx:76-87 | the result keeps order |
| DashboardUniversities.UniversitiesAdminPage.constructor | src/app/dashboard/universities/page.tsx:15-19 | empty lists, loading |
| DashboardUniversities.UniversitiesAdminPage.LoadUniversities | src/app/dashboard/universities/page.tsx:25-46 | the scoped list, and the filtered list equals it |
| DashboardUniversities.UniversitiesAdminPage.HandleSearch | src/app/dashboard/universities/page.tsx:76-87 | the filtered list is the search of the full list, never of the previous result |
| DashboardUniversities.UniversitiesAdminPage.HandleDeleteUniversity | src/app/dashboard/universities/page.tsx:56-74 | no change unless confirmed; a failed delete sets the error without reloading; a successful one reloads |
| Listings.Search | src/app/universities/page.tsx:54-57 | kept iff the lower-cased term occurs in the lower-cased name or, when present, code |
| Listings.SearchIsSubsequence | src/app/universities/page.tsx:54-57 | the result keeps order |
| Listings.EmptyTermKeepsAll | src/app/universities/page.tsx:54-57 | an empty term keeps everything |
| Listings.CodelessMatchesOnName | src/app/universities/page.tsx:56 | without a code only the name can match |
| Listings.TermAppliedLiterally | src/app/universities/page.tsx:54-57 | the term is not trimmed: every character of it, spaces included, occurs in a kept entry's name or code |
| Organizations.EmptyState | src/app/organizations/page.tsx:135-143 | the message shows iff nothing is shown and loading is over; its text depends on whether a term is set |
| Organizations.OrganizationsPage.constructor | src/app/organizations/page.tsx:17-20 | empty, loading |
| Organizations.OrganizationsPage.LoadOrganizations | src/app/organizations/page.tsx:26-47 | exactly the one sample organisation, 'test-org-1' |
| Organizations.OrganizationsPage.SetSearchTerm | src/app/organizations/page.tsx:20 | sets the term |
| Organizations.OrganizationsPage.Shown | src/app/organizations/page.tsx:49-52 | `filteredOrganizations`: the search over the loaded list; see `Listings.Search` |
| Organizations.SampleShownWithoutTerm | src/app/organizations/page.tsx:49-135 | without a term the sample shows and no empty state does |
| Organizations.UnmatchedTermShowsHint | src/app/organizations/page.tsx:49-141 | a term that misses the sample is non-empty and shows the adjust-search hint |
| Navigation.FirstChars | src/components/Navigation.tsx:14 | one character per non-empty word: its first |
| Navigation.FirstCharsAppend | src/components/Navigation.tsx:14 | first characters distribute over concatenation |
| Navigation.GetInitials | src/components/Navigation.tsx:13-15 | as many initials as non-empty space-separated words, each the upper-cased first character |
| Navigation.InitialsOfOneWord | src/components/Navigation.tsx:13-15 | one word gives its upper-cased first character; '' gives '' |
| Navigation.InitialsAppendWord | src/components/Navigation.tsx:13-15 | appending a word appends its initial |
| Navigation.DisplayName | src/components/Navigation.tsx:17-20 | '' iff no user; else metadata name, then email, then 'User' |
| Navigation.DisplayNameIgnoresProfileName | src/components/Navigation.tsx:19 | the profile display name is never read |
| Navigation.RenderCorner | src/components/Navigation.tsx:57-98 | the sign-in links show iff there is no user; the menu shows the name and its initials |
| Navigation.NavigationBar.constructor | src/components/Navigation.tsx:11 | the dropdown starts closed |
| Navigation.NavigationBar.ToggleDropdown | src/components/Navigation.tsx:22-24 | flips the dropdown |
| DashboardNavbar.DisplayName | src/components/DashboardNavbar.tsx:27-30 | '' iff no user; the profile display name comes first |
| DashboardNavbar.DisplayNameExtendsPublicBar | src/components/DashboardNavbar.tsx:27-30 | without a profile display name it agrees with the public bar's name |
| DashboardNavbar.FirstSection | src/components/DashboardNavbar.tsx:68-72 | the label of the first section the path contains, if any |
| DashboardNavbar.Breadcrumb | src/components/DashboardNavbar.tsx:66-74 | `getBreadcrumb`; see `BreadcrumbIsFirstSection` |
| DashboardNavbar.BreadcrumbIsFirstSection | src/components/DashboardNavbar.tsx:66-74 | 'Dashboard' for '/dashboard'; else the first contained section's label, defaulting to 'Dashboard' |
| DashboardNavbar.EarlierSectionWins | src/components/DashboardNavbar.tsx:68 | a path containing '/profiles' shows 'Alumni Profiles' whatever else it contains |
| DashboardNavbar.LabelRole | src/components/DashboardNavbar.tsx:189 | never empty |
| DashboardNavbar.RoleLabel | src/components/DashboardNavbar.tsx:189 | the role label; see `LabelAgreesWithDashboard` and `RolelessLabel` |
| DashboardNavbar.LabelAgreesWithDashboard | src/components/DashboardNavbar.tsx:189 | the role label is the dashboard's effective role and badge |
| DashboardNavbar.RolelessLabel | src/components/DashboardNavbar.tsx:189 | without a role the label is VIEWER |
| DashboardNavbar.NavbarState.constructor | src/components/DashboardNavbar.tsx:19-21 | closed, not signing out, no fetched role |
| DashboardNavbar.NavbarState.ToggleDropdown | src/components/DashboardNavbar.tsx:32-34 | flips the dropdown |
| DashboardNavbar.NavbarState.HandleSignOut | src/components/DashboardNavbar.tsx:36-48 | signing out during the call and not after; home iff it succeeds, an alert iff it fails; the dropdown closes only on success |
| DashboardNavbar.NavbarState.RoleFetchSettled | src/components/DashboardNavbar.tsx:51-63 | a truthy fetched role is kept |

## Left out

- Network and database I/O: the vendor SDK, storage buckets, `src/lib/universities.ts`, `src/lib/userRoles.ts` and `src/lib/supabase.ts`. The database is the `Backend` store. Each call may fail by the fault schedule. An update that must return its row fails when the row is missing.
- Reads that pages make are not modelled as calls to the store. The rows they return are parameters, or the method reads the store's value directly. This covers `loadData`, the request fetch in approval, and the university list. `loadProfile`'s outcome is a `LoadOutcome` parameter that can also say the read failed; `HandleSubmit` takes the outcome of its closing reload the same way, so the rows it shows are not tied to what the save wrote.
- Reloads after a successful write (`loadData`, `loadUniversities`, `loadProfiles`) are modelled by their effect on the state that is modelled: the error each sets, including its own read failures, and the lists the page keeps. The rows they fetch and whether their reads fail are parameters. `loadData`'s universities and request lists are only displayed and are not modelled; its profile list is. The effect that runs `loadData` when the page mounts is not modelled as a step of its own; `LoadData` is that call.
- `Promise.all`, the concurrent effects, `AuthContext` (its timeout race and background role fetch) and the ordering of React state updates are left out. Each handler runs to completion on its own.
- Case mapping is ASCII only. `trim` removes ASCII whitespace only. Unicode case folding is not modelled.
- The storage upload itself, the bucket names taken from environment variables, and the public-URL format are left out. `PublicUrl` has a stand-in body, the bucket and the name joined by '/'; no contract depends on its form.
- `router.push`, `alert`, `confirm` and the sign-out call: `ProtectedRoute`'s pushes are recorded by `Router`. The other pages' navigations and alerts are returned as results or left out. `confirm` answers and the sign-out outcome are parameters.
- `DashboardProfiles.ProfilesPage.HandleArchiveProfile`: its catch branch, which sets 'Failed to archive profile.', is not modelled. The reload it calls handles its own errors, so that branch cannot be reached.
- `DashboardNavbar.RoleLabel`: it is stated through `LabelAgreesWithDashboard` and `RolelessLabel`. No lemma evaluates the label for a specific named role such as `UNIVERSITY ADMIN`.
- Analytics mock numbers, static pages, `cn` and `formatDate`: these are markup or library wrappers.
- One save reads the clock once: the same `now` and `nowIso` serve the profile update's updated_at, both photo names and both photo URL updates, which the source reads separately. The closing reload has its own clock, `reloadNow`. `WithPredefinedStories` gives all eight stories the one reading `now`, where the source reads the clock once per story, and `Reloaded` passes that same `now` to both `WithPredefinedEvent` and `WithPredefinedStories`, where the source reads it again in each. The story ids stay distinct through their index; no property depends on the readings being equal.
- Ids are chosen by the store as fresh keys. Ids built from `Date.now()` in the editor take `now` as a parameter.
