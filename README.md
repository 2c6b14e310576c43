# Pesantren attendance front end — a Dafny model

This project models the decision logic of a React front end for a boarding-school
(pesantren) attendance app. Students (santri) submit a daily attendance form. Teachers
(ustadz) search the student roster. Administrators add, edit and delete users. Everyone
goes through a sign-in and a first-login profile setup.

What is modelled, one Dafny module per source file:

- `UstadzDashboard` (`pages/UstadzDashboard.tsx`): the case-insensitive roster search,
  the badge, the empty-state message and the class cell.
- `App` (`App.tsx`): the choice between loading screen, login page and main view; the
  effect that raises the profile-setup dialog; the dashboard picked by role.
- `Queries` (`hooks/useQueries.ts`): the query cache as a map from query key to a stale
  flag, the invalidation each mutation's `onSuccess` performs, the "Actor not available"
  paths, and the `enabled` / `isLoading` / `isFetched` derivations.
- `AddUser`, `EditUser`, `ProfileSetup` (the three dialogs): one class each, holding the
  form state and the open flag, with a `Submit` that runs the required-field guard, the
  mutation and the success/failure transitions.
- `Attendance` (`pages/SantriDashboard.tsx`): the attendance form, `isSubmitting`, and the
  partial reset after a send. The send is split at its `await` into `BeginSubmit` and
  `FinishSubmit`.
- `Layout` (`components/DashboardLayout.tsx`): role label, avatar initial, logout.
- Shared modules: `Types` (profile, role, principal, option, result), `Text` (ASCII case
  mapping and `includes`), `Forms` (the profile form, the `kelas` text mapping, the
  required-field guard, notifications).

External things are parameters:

- the backend's reply to a call (`reply: Result<...>`);
- whether the backend client exists (`Queries.Actor`);
- `Principal.fromText` (`parse: string -> Result<Principal>`);
- the outcome of the attendance POST (`FetchOutcome`);
- today's date (`today: string`).

The backend's side of the mutations is a log, `QueryClient.calls`. "No backend call" means
the log is unchanged. For the query functions, which are pure, it means the result does not
depend on the reply.

Behaviours of the code worth knowing, each stated by a member below:

- A dashboard is rendered only when the profile is present. A signed-in user whose profile
  is not loaded and not loading sees the main view with neither dialog nor dashboard
  (`Main(false, [])`). This happens, for example, after a failed profile fetch, which is
  never retried.
- The setup flag is recomputed only when one of the effect's four dependencies changes.
  `onClose` lowers it without changing any of them, so while the profile stays `null` the
  dialog stays closed and the user sees `Main(false, [])` (`App.CloseThenRerender`). After
  a successful profile save the profile query refetches in the background; a failed
  refetch is not retried, and the user stays on that empty main view.
- Once the effect has run for the current dependencies, the dialog and a dashboard are
  never both shown (`App.Root.Settle`, `App.SettledScreen`). Between a render and its
  effect the flag can lag, and one frame can show both (`App.StaleFlagRendersBoth`).
- After a successful attendance send, `setFormData({...formData, ...})` uses the form
  captured when the submit started. Edits made while the request was in flight are
  overwritten (`Attendance.SantriDashboard.FinishSubmit`).

## Model

| member | source | states |
|---|---|---|
| `Text.Lower` | frontend/src/pages/UstadzDashboard.tsx:20-24 | `toLowerCase` keeps the length and lower-cases each ASCII letter in place |
| `Text.LowerChar` | frontend/src/pages/UstadzDashboard.tsx:20-24 | an upper-case ASCII letter becomes its own lower case (code point plus 32); every other character is kept |
| `Text.UpperChar` | frontend/src/components/DashboardLayout.tsx:57 | a lower-case ASCII letter becomes its own upper case (code point minus 32); every other character is kept |
| `Text.LowerIdempotent` | frontend/src/pages/UstadzDashboard.tsx:20-22 | lower-casing an already lower-cased term changes nothing |
| `Text.Contains` | frontend/src/pages/UstadzDashboard.tsx:22-24 | `includes` is true exactly when the needle occurs at some position of the haystack |
| `Text.ContainsEmpty` | frontend/src/pages/UstadzDashboard.tsx:22 | every string includes the empty string |
| `UstadzDashboard.SearchFields` | frontend/src/pages/UstadzDashboard.tsx:22-24 | a search looks at the name, the ID, and the class exactly when it is present and non-empty |
| `UstadzDashboard.Matches` | frontend/src/pages/UstadzDashboard.tsx:20-25 | the filter callback holds iff the lower-cased term occurs in the lower-cased form of one of the searched fields |
| `UstadzDashboard.Filter` | frontend/src/pages/UstadzDashboard.tsx:19-26 | the filtered list is no longer than the roster and holds only roster entries that match |
| `UstadzDashboard.FilterIsSubsequence` | frontend/src/pages/UstadzDashboard.tsx:19-26 | the filtered list is a subsequence of the roster: order kept, nothing added |
| `UstadzDashboard.FilterMembership` | frontend/src/pages/UstadzDashboard.tsx:19-26 | an entry is kept iff it is in the roster and its name, ID or present non-empty class contains the lower-cased term (sound and complete) |
| `UstadzDashboard.FilterMultiplicity` | frontend/src/pages/UstadzDashboard.tsx:19-26 | every copy of a matching entry is kept and no copy of a non-matching one |
| `UstadzDashboard.FilterEmptyTerm` | frontend/src/pages/UstadzDashboard.tsx:20-25 | an empty search term keeps the whole roster |
| `UstadzDashboard.FilterIdempotent` | frontend/src/pages/UstadzDashboard.tsx:19-26 | filtering twice with one term equals filtering once |
| `UstadzDashboard.NoKelasMatchesByNameOrId` | frontend/src/pages/UstadzDashboard.tsx:24 | an entry with absent or empty class matches only through its name or ID |
| `UstadzDashboard.SearchByKelasExample` | frontend/src/pages/UstadzDashboard.tsx:19-26 | searching "1A" over Ali (class 1A) and Budi (class 2B) keeps only Ali |
| `UstadzDashboard.KelasCell` | frontend/src/pages/UstadzDashboard.tsx:79 | a present non-empty class is shown as is; an absent or empty one as '-' |
| `UstadzDashboard.RowOf` | frontend/src/pages/UstadzDashboard.tsx:75-79 | a row is keyed by the principal, shows name and ID as stored, and its class cell is the stored class, or '-' when absent or empty |
| `UstadzDashboard.EmptyMessage` | frontend/src/pages/UstadzDashboard.tsx:92 | the no-match text is chosen iff a search term is typed, the no-data text iff not |
| `UstadzDashboard.RosterBody` | frontend/src/pages/UstadzDashboard.tsx:59-94 | spinner iff loading; otherwise a row per filtered entry, in order, when some entry matches; otherwise the empty-state message for the term |
| `UstadzDashboard.Badge` | frontend/src/pages/UstadzDashboard.tsx:42-46 | the badge appears once the roster is loaded and shows its full length |
| `UstadzDashboard.BadgeIgnoresSearch` | frontend/src/pages/UstadzDashboard.tsx:42-46 | the badge counts the unfiltered roster, which is at least the number of filtered rows |
| `UstadzDashboard.EmptySearchShowsAll` | frontend/src/pages/UstadzDashboard.tsx:63-93 | with no term typed, every loaded entry has a row, or the no-data message shows for an empty roster |
| `Queries.InvalidatedBy` | frontend/src/hooks/useQueries.ts:35-111 | a profile save invalidates only `currentUserProfile`; add, edit and delete invalidate `allUsers` and `allSantri` |
| `Queries.Invalidate` | frontend/src/hooks/useQueries.ts:77-78 | invalidation marks the cached queries under the given keys stale, adds no entry and leaves every other entry as it was |
| `Queries.DirectoryWriteKeepsOwnEntries` | frontend/src/hooks/useQueries.ts:76-111 | after a successful add, edit or delete, `allUsers` and `allSantri` are stale and `currentUserProfile` and `verifySantriAccess` are unchanged |
| `Queries.ProfileSaveTouchesOnlyProfile` | frontend/src/hooks/useQueries.ts:35-37 | after a successful profile save the cache differs only in `currentUserProfile` being stale |
| `Queries.InvalidateIdempotent` | frontend/src/hooks/useQueries.ts:76-79 | running the same invalidation twice equals running it once |
| `Queries.QueryClient.Fetched` | frontend/src/hooks/useQueries.ts:9-17 | a query that has fetched is cached under its key and fresh; the backend log is untouched |
| `Queries.QueryClient.Mutate` | frontend/src/hooks/useQueries.ts:26-113 | without an actor: fails with "Actor not available", no backend call. Otherwise the backend receives the call and its reply is returned. The cache is invalidated only on success, so a failure leaves it unchanged |
| `Queries.QueryClient.Clear` | frontend/src/components/DashboardLayout.tsx:21 | `queryClient.clear()` empties the cache |
| `Queries.Options` | frontend/src/hooks/useQueries.ts:15-16 | a query is enabled iff an actor exists and is not being fetched; only the profile query turns retries off |
| `Queries.ProfileHookFlags` | frontend/src/hooks/useQueries.ts:19-23 | the profile hook is loading whenever the actor is being fetched, and is never fetched without an actor |
| `Queries.CallerProfileQuery` | frontend/src/hooks/useQueries.ts:11-14 | the profile query function fails with "Actor not available" without an actor, and returns the backend's answer otherwise |
| `Queries.DirectoryQuery` | frontend/src/hooks/useQueries.ts:46-49 | the user and student list query functions return the empty list without an actor, and the backend's answer otherwise |
| `Queries.VerifyAccessQuery` | frontend/src/hooks/useQueries.ts:120-123 | the access query function returns false without an actor, and the backend's answer otherwise |
| `Queries.NoActorIgnoresBackend` | frontend/src/hooks/useQueries.ts:11-123 | without an actor no query result depends on the backend's answer; the profile query fails and the list and access queries succeed |
| `Forms.ApplyEdit` | frontend/src/components/EditUserModal.tsx:79-110 | each control's change replaces exactly its own field of the form |
| `Forms.KelasValue` | frontend/src/components/AddUserModal.tsx:43 | an empty class is sent as absent; a non-empty one is sent as typed |
| `Forms.KelasText` | frontend/src/components/EditUserModal.tsx:22 | an absent class is shown as an empty text box; a present one as stored |
| `Forms.KelasTextValue` | frontend/src/components/EditUserModal.tsx:22 | showing a class that was sent from a text box gives back that text |
| `Forms.KelasValueText` | frontend/src/components/EditUserModal.tsx:51 | sending a shown class gives back the stored class, except that an empty one becomes absent |
| `Forms.ProfileOf` | frontend/src/components/EditUserModal.tsx:48-53 | the submitted profile carries name, ID and role as entered and the class through `KelasValue` |
| `Forms.FormOf` | frontend/src/components/EditUserModal.tsx:19-24 | the form copies name, ID and role from the profile and shows the class through `KelasText` |
| `Forms.ProfileOfFormOf` | frontend/src/components/EditUserModal.tsx:19-53 | submitting an unedited form sends the stored profile, except a stored empty class, which becomes absent |
| `Forms.FormOfProfileOf` | frontend/src/components/EditUserModal.tsx:19-53 | loading the profile a form submits gives back the same form |
| `Forms.HasRequired` | frontend/src/components/EditUserModal.tsx:40 | the edit and setup guard passes iff neither name nor ID is empty, and then the submitted profile has both |
| `Forms.ErrorDescription` | frontend/src/components/AddUserModal.tsx:58 | the error description is the error message, or "Silakan coba lagi" when the message is empty; never empty |
| `Forms.FailureToast` | frontend/src/components/AddUserModal.tsx:57-59 | a failed write shows an error notification with the dialog's title and the error description |
| `AddUser.AddUserModal.constructor` | frontend/src/components/AddUserModal.tsx:18-24 | the form starts with all text empty and role santri |
| `AddUser.Complete` | frontend/src/components/AddUserModal.tsx:31 | the add guard passes iff none of principal, name and ID is empty, and then the submitted profile has name and ID |
| `AddUser.AddUserModal.Edit` | frontend/src/components/AddUserModal.tsx:78-123 | a control change replaces its own field and leaves the dialog open state alone |
| `AddUser.AddUserModal.Cancel` | frontend/src/components/AddUserModal.tsx:64 | dismissing the dialog calls `onClose` and keeps the form |
| `AddUser.AddUserModal.Submit` | frontend/src/components/AddUserModal.tsx:28-61 | an empty principal, name or ID reports an error and changes and calls nothing. An unparseable principal fails with its message and calls nothing. Otherwise the add mutation is sent. On success the form is reset, the dialog closed and both lists invalidated. On failure the form, open flag and cache are kept. |
| `EditUser.EditUserModal.constructor` | frontend/src/components/EditUserModal.tsx:18-24 | the form starts from the user's profile, an absent class shown empty |
| `EditUser.EditUserModal.UserChanged` | frontend/src/components/EditUserModal.tsx:28-35 | a new user refills the form from its profile, discarding edits |
| `EditUser.EditUserModal.Edit` | frontend/src/components/EditUserModal.tsx:79-110 | a control change replaces its own field; the user and the open flag are kept |
| `EditUser.EditUserModal.Cancel` | frontend/src/components/EditUserModal.tsx:65 | dismissing the dialog calls `onClose` and keeps the form |
| `EditUser.EditUserModal.Submit` | frontend/src/components/EditUserModal.tsx:37-62 | an empty name or ID calls nothing. Otherwise the edit is sent under the user's own principal with the form's profile. Success closes the dialog and invalidates both lists. Failure keeps it open and the cache as it was |
| `EditUser.EditUnchanged` | frontend/src/components/EditUserModal.tsx:19-56 | opening the dialog and saving at once sends the stored profile (an empty class becomes absent) under the same principal |
| `ProfileSetup.ProfileSetupModal.constructor` | frontend/src/components/ProfileSetupModal.tsx:17-22 | the form starts blank with role santri, which is selectable |
| `ProfileSetup.ProfileSetupModal.Edit` | frontend/src/components/ProfileSetupModal.tsx:94-104 | the role select offers only santri and ustadz, so the form's role never becomes admin |
| `ProfileSetup.ProfileSetupModal.Dismiss` | frontend/src/components/ProfileSetupModal.tsx:51-52 | the dialog's open-change and outside clicks change nothing; the dialog stays open |
| `ProfileSetup.ProfileSetupModal.Submit` | frontend/src/components/ProfileSetupModal.tsx:26-48 | an empty name or ID saves nothing. Otherwise the caller's profile is saved, with a non-admin role and an empty class as absent. Success closes the dialog and invalidates only the profile query. Failure keeps it open |
| `Attendance.StatusLabel` | frontend/src/pages/SantriDashboard.tsx:134-137 | each status item is sent as its own string: Hadir, Tidak Hadir, Izin, Sakit, each iff that status |
| `Attendance.StatusLabelInjective` | frontend/src/pages/SantriDashboard.tsx:134-137 | distinct statuses are sent as distinct strings |
| `Attendance.SubmissionOf` | frontend/src/pages/SantriDashboard.tsx:39 | the POST body carries the form's fields, with the form's own status as its label |
| `Attendance.ApplyAttendanceEdit` | frontend/src/pages/SantriDashboard.tsx:102-128 | only class, date and status can be changed; name and ID stay |
| `Attendance.InitialForm` | frontend/src/pages/SantriDashboard.tsx:18-24 | the form copies name and ID from the profile, shows an absent class as empty, and starts on today with status Hadir |
| `Attendance.AfterSuccess` | frontend/src/pages/SantriDashboard.tsx:47-51 | after a send, date and status are reset (status Hadir) and name, ID and class are kept |
| `Attendance.SuccessToast` | frontend/src/pages/SantriDashboard.tsx:43-45 | a send shows the success notification |
| `Attendance.SantriDashboard.constructor` | frontend/src/pages/SantriDashboard.tsx:17-24 | the page starts idle with the initial form |
| `Attendance.SantriDashboard.Edit` | frontend/src/pages/SantriDashboard.tsx:102-128 | a control change keeps name and ID equal to the profile's |
| `Attendance.SantriDashboard.BeginSubmit` | frontend/src/pages/SantriDashboard.tsx:26-41 | an idle page raises `isSubmitting` and sends the current form; while a send is pending the disabled button starts nothing |
| `Attendance.SantriDashboard.FinishSubmit` | frontend/src/pages/SantriDashboard.tsx:43-58 | any resolved response counts as success and resets date and status of the captured form. A rejection keeps the form. Both end with `isSubmitting` false |
| `Attendance.SendOnce` | frontend/src/pages/SantriDashboard.tsx:26-59 | a send from an idle page posts exactly the current form, whatever response arrives, and ends idle |
| `Layout.RoleLabel` | frontend/src/components/DashboardLayout.tsx:24-33 | admin, ustadz and santri are labelled 'Admin', 'Ustadz' and 'Santri', each label iff its role |
| `Layout.RoleLabelInjective` | frontend/src/components/DashboardLayout.tsx:25-32 | the three labels are pairwise distinct |
| `Layout.AvatarInitial` | frontend/src/components/DashboardLayout.tsx:57 | the initial is the upper-cased first character of the name, and empty for an empty name |
| `Layout.Logout` | frontend/src/components/DashboardLayout.tsx:19-22 | once the provider's `clear()` resolves, the identity is gone and the whole query cache is emptied; a rejection propagates and leaves identity and cache as they were |
| `App.Dashboards` | frontend/src/App.tsx:58-63 | at most one dashboard is rendered: the one of the profile's role when a profile is present, none otherwise |
| `App.DepsOf` | frontend/src/App.tsx:26 | the effect depends on exactly signed-in, profile loading, fetched and the profile data |
| `App.SetupNeeded` | frontend/src/App.tsx:21 | the effect's condition holds only for a signed-in user whose profile is `null`, never for one not loaded or present |
| `App.Render` | frontend/src/App.tsx:28-63 | loading iff initialising or signed in with the profile loading; otherwise login iff signed out; otherwise the main view with the setup flag and the role's dashboard |
| `App.Root.constructor` | frontend/src/App.tsx:16 | the setup flag starts false and the effect has not run yet |
| `App.Root.RunEffect` | frontend/src/App.tsx:20-26 | the effect sets the flag exactly when signed in, not loading, fetched and the profile is `null`, and records the dependencies it ran with |
| `App.Root.CloseProfileSetup` | frontend/src/App.tsx:55 | the dialog's `onClose` lowers the flag and changes no dependency of the effect |
| `App.Root.Settle` | frontend/src/App.tsx:20-63 | a render runs the effect only when its dependencies changed since it last ran, otherwise the flag is kept (also one lowered by `onClose`); the screen is the render with that flag and never shows the dialog together with a dashboard |
| `App.SettledScreen` | frontend/src/App.tsx:20-63 | with the flag as the effect left it, possibly lowered by `onClose` since: never both dialog and dashboard; the dialog iff the profile was fetched as `null` and not closed; a present profile shows its role's dashboard |
| `App.SetupOnlyForNullProfile` | frontend/src/App.tsx:20-26 | a signed-in user with a fetched `null` profile sees the dialog and no dashboard until it is closed, then neither; a profile that is not `null` (also one not loaded yet) never raises it |
| `App.CloseThenRerender` | frontend/src/App.tsx:20-58 | with a fetched `null` profile the first render shows the dialog; after `onClose`, a re-render with the same inputs shows neither dialog nor dashboard |
| `App.StaleFlagRendersBoth` | frontend/src/App.tsx:52-63 | a raised flag with a present profile renders both dialog and dashboard until the effect runs |
| `App.HookInputs` | frontend/src/App.tsx:14-18 | `isInitializing` and the profile data are passed through; signed in iff an identity is present; loading iff the actor is being fetched or the query is loading; fetched iff there is an actor and the query has fetched |
| `App.ActorGatesRoot` | frontend/src/hooks/useQueries.ts:21-22 | a signed-in user sees the loading screen while the actor is fetched, and no setup dialog is raised without an actor |

## Left out

- JSX markup, styling, icons, theming and how notifications are displayed. The notification
  texts are modelled; their display is not.
- The attendance POST to its fixed endpoint (`pages/SantriDashboard.tsx:31-41`) is network
  I/O. It is a `FetchOutcome` parameter, and the URL is not modelled.
- `Principal.fromText` is a foreign parser. It is the `parse` parameter.
- The Internet Identity provider, `useActor` and the backend actor are external. They
  appear as the `Actor` state, the `Session` identity and the reply parameters.
- React Query internals: deduplication, refetching of stale entries, scheduling, and the
  mutation cache that `clear()` also empties. Overlapping mutations are not modelled. The
  dialogs' buttons are disabled while a mutation is pending (`isPending`), and the model
  runs each `Submit` to completion instead.
- `new Date().toISOString()` is wall-clock time. It is the `today` parameter.
- `toLowerCase` / `toUpperCase` are modelled over ASCII letters only. Unicode case mapping,
  which can change a string's length, is not modelled.
- The browser's own validation of `required` inputs is not modelled. It would stop the
  submit event before `handleSubmit` runs: empty principal, name or ID in the dialogs, and
  empty class or date on the attendance page. Only `handleSubmit`'s own guard is modelled.
- Layout.AvatarInitial: strings are modelled as sequences of Unicode code points, while
  `charAt(0)` takes the first UTF-16 code unit. For a name that starts outside the Basic
  Multilingual Plane the source shows a lone high surrogate and the model shows the whole
  character; that case is not captured.
- Layout.Logout: states the final state only, not that the identity is cleared before the
  cache. A rejected `clear()` is modelled as leaving the session's identity as it was; what
  the identity provider does on failure is not visible.
- A change of the `profile` prop after the attendance page has mounted is not modelled. The
  form's initial state is taken once, and `profile` is a constant of the page.
- `components/DeleteUserDialog.tsx` only forwards a principal to the delete mutation, whose
  invalidation is modelled in `Queries`. `pages/LoginPage.tsx` is presentational.
  `pages/AdminDashboard.tsx` is not part of this model.
