# TATS admin panel — a Dafny model

TATS is a technical-service management panel written in TypeScript on Next.js, with
Supabase behind it. This project models its client-side logic and proves properties of the
model:

- the route guard that decides per page whether to render, show a spinner or redirect;
- the background session sweep that signs out sessions older than five minutes;
- the toast notification hub, with its global counter and its per-container lists;
- the confirmation dialog, whose open dialog holds the resolver of a pending promise;
- the admin list pages for services, customers and users, with their search and status
  filters, status and role badges, and delete handling;
- the dashboard status badges and counters;
- the settings page's dotted-path update of a nested settings record.

Every backend answer is a parameter of the model: `auth.getUser`, the profile lookup,
`getSession`, the counts and the delete results. A lookup that throws is the `Threw` case
of `AuthGuard.Outcome`, and a delete that reports an error is `deleteFailed`. React state
is modelled by classes whose fields are the `useState` slots. A `ghost predicate Valid()`
states what the page's effects keep: each filtered list equals a specification function
of the rows and the inputs. After every state change, the effect runs again inside the
same method.

Modules:

- `Seqs` (`common.dfy`): `Array.prototype.filter` as `Filter`, order-preserving
  subsequences, and delete-by-id.
- `Text` (`text.dfy`): JavaScript truthiness and `x || fallback`, `toLowerCase`,
  `includes`, decimal rendering, and `split` with `join`.
- One module per source component:
  - `AuthGuard`
  - `SessionManager`
  - `Toasts`
  - `ConfirmDialog`
  - `ServicesPage`
  - `AdminDashboard`
  - `SettingsPage`
  - `CustomersPage`
  - `UsersPage`

The confirmation dialog provider never renders its context provider: it returns its children
with or without the dialog, but not inside `ConfirmDialogContext.Provider`
(src/components/confirm-dialog.tsx:43-89). So `useConfirmDialog` always throws, and no child
can reach `showDialog`, `handleConfirm` or `handleCancel`; the root layout mounts the
provider (src/app/layout.tsx:40) and nothing calls the hook. `ConfirmDialog` models the
provider's own state transitions as the code defines them.

Where the code and the written specification of the system disagree, the model follows the
code:

- An admin-only guard that does not also require authentication pushes no redirect when
  nobody is signed in. It then renders nothing, so the visitor is left on an empty page.
  The specification has every failed admin check redirect to the dashboard
  (`AuthGuard.HiddenWithoutRedirect`).
- A guard without requirements, with a signed-in user on `/login`, still renders the login
  page while it pushes the redirect away from it. The specification says nothing is
  rendered while redirecting (`AuthGuard.LoginPageStillRenderedWhileRedirecting`). On
  protected pages the specification's rule does hold
  (`AuthGuard.ProtectedPageHiddenWhileRedirecting`).
- When the profile lookup throws, the code treats the visitor as not signed in: user and
  role are cleared, and the login rule applies. The specification also says the resolved
  role becomes `"user"` in that case, which the code does not do
  (`AuthGuard.ThrownLookupIsNoUser`).
- The guard sets `loading` back to `false` after each check but never to `true` again, so
  after the first check a change of path keeps the previous decision on screen until the
  next check finishes. The specification re-enters the loading state, with its spinner, on
  every change of path. The model
  follows the code: `AuthGuard.Guard.CheckAuth` and `AuthGuard.CheckAuthTwice` only ever
  clear `loading`.

## Model

| member | source | states |
|---|---|---|
| Seqs.Filter | src/app/admin/services/page.tsx:31-35 | the result holds each element the predicate keeps, as many times as the input does, and no other element; it is never longer than the input |
| Seqs.FilterIsSubsequence | src/app/admin/services/page.tsx:27-52 | a filtered list is an order-preserving subsequence of its input |
| Seqs.FilterExtensional | src/app/admin/services/page.tsx:40-49 | two predicates that agree on every element filter every list alike |
| Seqs.FilterKeepsAll | src/app/admin/services/page.tsx:27 | a predicate that holds for every element returns the input unchanged |
| Seqs.FilterFilter | src/app/admin/services/page.tsx:27-52 | filtering by one predicate and then by another equals one filter by their conjunction |
| Seqs.FilterKeepsUniqueBy | src/components/toast.tsx:42 | filtering keeps keys distinct when they were distinct |
| Seqs.RemoveByKey | src/app/admin/services/page.tsx:87 | exactly the rows whose id equals the deleted id go; every other row stays, in order and with its multiplicity |
| Text.OrDefault | src/components/auth-guard.tsx:39 | `x \|\| fallback` is the value when it is a non-empty string and the fallback when it is empty, null or undefined |
| Text.Lower | src/app/admin/services/page.tsx:32 | same length, each character lowered, and no upper-case letter is left |
| Text.LowerIdempotent | src/app/admin/services/page.tsx:32 | lower-casing twice equals lower-casing once |
| Text.Contains | src/app/admin/services/page.tsx:32 | `includes` holds for the empty needle, and only for a needle no longer than the text |
| Text.ContainsAt | src/app/admin/services/page.tsx:32 | an occurrence of the needle at a position makes `includes` true |
| Text.ContainsHasPosition | src/app/admin/services/page.tsx:32 | when `includes` is true, the needle occurs at some position |
| Text.FieldMatchesIgnoresTermCase | src/app/admin/users/page.tsx:30-32 | the case-insensitive field test ignores the case of the term |
| Text.FieldMatches | src/app/admin/services/page.tsx:32 | an absent field never matches; the empty term matches every present field; a term whose lowered form starts the lowered field matches; a match needs a term no longer than the field |
| Text.FieldMatchesExactly | src/app/admin/customers/page.tsx:31 | the same test without lower-casing: an absent field never matches, the empty term matches any present field, and a prefix of the field matches |
| Text.DecimalString | src/components/toast.tsx:18 | the numeral is made only of digits, and it has two or more digits exactly when n is at least 10 |
| Text.DecimalStringInjective | src/components/toast.tsx:18 | different counters render as different numerals |
| Text.Split | src/app/admin/settings/page.tsx:44 | `split` yields at least one segment, and no segment contains the separator |
| Text.JoinSplit | src/app/admin/settings/page.tsx:44 | joining the segments of a path gives the path back |
| Text.SplitJoin | src/app/admin/settings/page.tsx:44 | splitting joined separator-free segments gives the segments back |
| Text.SplitAfterWord | src/app/admin/settings/page.tsx:44 | a separator-free prefix fuses with the first segment of what follows |
| AuthGuard.IsAdmin | src/components/auth-guard.tsx:42 | the admin check passes iff a profile was found and its role is exactly `admin` |
| AuthGuard.StoredRole | src/components/auth-guard.tsx:39 | the stored role is the profile's role when it is non-empty and `user` otherwise; it is `admin` exactly when the profile role is `admin` |
| AuthGuard.Resolve | src/components/auth-guard.tsx:26-37 | the visitor is identified iff `getUser` returned a user and the profile lookup did not throw; the user and the profile are those two answers |
| AuthGuard.Evaluate | src/components/auth-guard.tsx:25-77 | user and role are set together, and a redirect only ever targets `/login`, `/dashboard` or `/admin` |
| AuthGuard.Render | src/components/auth-guard.tsx:79-101 | the spinner shows exactly while loading; the children show iff loading is over, auth is not required or a user exists, and admin is not required or the role is `admin` |
| AuthGuard.RedirectList | src/components/auth-guard.tsx:43-44 | each evaluation pushes at most one route: the decided redirect or nothing |
| AuthGuard.Guard.constructor | src/components/auth-guard.tsx:15-17 | a new guard is loading, with no user, no role and nothing pushed |
| AuthGuard.Guard.View | src/components/auth-guard.tsx:79-101 | the guard shows the spinner exactly while loading, and shows its children only when the auth and admin requirements are met |
| AuthGuard.Guard.Push | src/components/auth-guard.tsx:43 | `router.push` appends its route to the push log and changes nothing else |
| AuthGuard.Guard.CheckAuth | src/components/auth-guard.tsx:25-77 | step-by-step check with early returns; it ends with loading cleared, user and role set as the decision table says, and the push log extended by exactly the decided redirect |
| AuthGuard.CheckAuthTwice | src/components/auth-guard.tsx:21-23 | evaluating twice with unchanged answers leaves the same state and repeats the same single redirect |
| AuthGuard.NonAdminBouncedToDashboard | src/components/auth-guard.tsx:42-45 | a signed-in non-admin on an admin page goes to `/dashboard`, whatever the path |
| AuthGuard.SignedInUserLeavesLogin | src/components/auth-guard.tsx:48-55 | a signed-in user on `/login` who passes the admin check goes to `/admin` if admin, else to `/dashboard` |
| AuthGuard.AnonymousRule | src/components/auth-guard.tsx:56-64 | without an identity, user and role are cleared; the only redirect is to `/login`, and it happens iff auth is required and the path is not `/login` |
| AuthGuard.ThrownLookupIsNoUser | src/components/auth-guard.tsx:66-73 | a throwing user lookup, or a throwing profile lookup, decides exactly as a missing user |
| AuthGuard.AdminContentOnlyForAdmins | src/components/auth-guard.tsx:92-101 | an admin-only page renders only after a profile lookup that returned the `admin` role |
| AuthGuard.HiddenWithoutRedirect | src/components/auth-guard.tsx:56-64 | admin-only without auth, and no user: no redirect, and the page renders nothing |
| AuthGuard.LoginPageStillRenderedWhileRedirecting | src/components/auth-guard.tsx:48-55 | a guard without requirements, with a signed-in user on `/login`, both redirects and renders its children |
| AuthGuard.ProtectedPageHiddenWhileRedirecting | src/components/auth-guard.tsx:92-98 | on a protected page other than `/login`, every evaluation that redirects renders nothing |
| AuthGuard.AllowedVisitorStays | src/components/auth-guard.tsx:29-55 | a signed-in visitor gets no redirect iff the admin check passes and the path is not `/login`; then user and role are stored and the page renders |
| AuthGuard.LayoutScenarios | src/components/auth-guard.tsx:25-77 | the layouts' configurations on concrete paths and identities give the expected redirects and the default role |
| SessionManager.CreatedAtOrNow | src/app/session-manager.tsx:23 | a missing or zero creation time falls back to the clock reading |
| SessionManager.Expired | src/app/session-manager.tsx:26 | a session has expired iff the clock is strictly past its creation time plus 300000 ms |
| SessionManager.CheckSession | src/app/session-manager.tsx:12-31 | no session only removes the stored token; an existing session is signed out and sent to `/login` iff more than 300000 ms have elapsed, and otherwise nothing happens |
| SessionManager.CheckSessionEffects | src/app/session-manager.tsx:15-29 | sign-out occurs iff the redirect does, never without a session, and always before the redirect |
| SessionManager.ExpiryIsStrict | src/app/session-manager.tsx:26 | exactly the timeout elapsed does nothing, and one millisecond more expires the session |
| SessionManager.MissingCreationTimeNeverExpires | src/app/session-manager.tsx:23-26 | a missing or zero creation time never expires, unless the clock moved by more than the timeout between its two readings |
| SessionManager.SweepScenarios | src/app/session-manager.tsx:21-30 | a session six minutes old is signed out and redirected; one four minutes old is left alone |
| SessionManager.Monitor.constructor | src/app/session-manager.tsx:7-10 | before the effect runs, no interval is registered and no check has happened |
| SessionManager.Monitor.Start | src/app/session-manager.tsx:33-36 | one check runs immediately, and then the interval is registered |
| SessionManager.Monitor.Tick | src/app/session-manager.tsx:36 | a firing adds one check's effects while the interval is registered, and nothing after teardown |
| SessionManager.Monitor.Teardown | src/app/session-manager.tsx:38 | the interval is cleared |
| SessionManager.TickOffset | src/app/session-manager.tsx:36 | the checks happen at non-negative multiples of 60000 ms after mount |
| SessionManager.TickOffsetStep | src/app/session-manager.tsx:33-36 | the first check is at mount, and each firing comes exactly 60000 ms after the previous check |
| SessionManager.ExpiryNoticedWithinOneInterval | src/app/session-manager.tsx:33-36 | some check finds the session expired no later than one interval after its expiry moment, or at mount if it had already expired |
| Toasts.ToastId | src/components/toast.tsx:18 | the id is `toast-` followed by the counter's numeral |
| Toasts.ToastIdInjective | src/components/toast.tsx:18 | different counter values give different ids |
| Toasts.HasId | src/components/toast.tsx:45 | `find` by id succeeds iff some position of the list holds that id |
| Toasts.HandleToast | src/components/toast.tsx:40-50 | an empty message removes every entry with that id and keeps the rest in order; a present id leaves the list unchanged; otherwise the toast is appended |
| Toasts.HandleToastKeepsIdsUnique | src/components/toast.tsx:40-50 | every event keeps the ids of a list distinct |
| Toasts.AddIsIdempotent | src/components/toast.tsx:45-46 | delivering the same non-empty toast twice is delivering it once |
| Toasts.ReplayKeepsIdsUnique | src/components/toast.tsx:40-50 | ids stay distinct across any sequence of events |
| Toasts.NextIdIsFresh | src/components/toast.tsx:14-18 | the pre-incremented counter gives an id not handed out before |
| Toasts.Broadcast | src/components/toast.tsx:21 | every mounted container receives the event, and their set does not change |
| Toasts.DeliverFreshToast | src/components/toast.tsx:40-50 | a never-issued id is appended to a list of issued ids, or, with an empty message, leaves the list as it is |
| Toasts.BroadcastFresh | src/components/toast.tsx:17-21 | a fresh toast is appended to every container, and each container stays within the issued ids |
| Toasts.ShowKeepsInvariant | src/components/toast.tsx:17-21 | numbering a toast with the next counter value gives a fresh id, and broadcasting it appends it to every list (or, with an empty message, changes nothing) and keeps every list within the issued ids |
| Toasts.BroadcastRemoval | src/components/toast.tsx:32-34 | a removal keeps every container within the issued ids, with distinct ids |
| Toasts.ToastHub.constructor | src/components/toast.tsx:14-15 | the counter starts at 0, with no listener, no timer and no id handed out, and the hub invariant holds |
| Toasts.ToastHub.Mount | src/components/toast.tsx:52 | a new container is registered with an empty list |
| Toasts.ToastHub.Unmount | src/components/toast.tsx:53-55 | the container is unregistered |
| Toasts.ToastHub.ShowToast | src/components/toast.tsx:14-30 | the counter is pre-incremented, and the returned id is fresh; a non-empty toast is appended to every container; a removal is scheduled iff the duration is positive |
| Toasts.ToastHub.ShowToastWithDefaults | src/components/toast.tsx:17-29 | an omitted kind is `info` and an omitted duration is 4000 ms, so the removal is then always scheduled; otherwise as `showToast` |
| Toasts.ToastHub.RemoveToast | src/components/toast.tsx:32-34 | an empty `info` event with that id reaches every container |
| Toasts.IssuedIdsDistinct | src/components/toast.tsx:14-29 | all ids handed out are pairwise distinct |
| ConfirmDialog.Render | src/components/confirm-dialog.tsx:43-89 | with no dialog, only the children render; otherwise title and message are shown, the buttons default to `İptal` and `Onayla`, and the dialog is dangerous iff `isDangerous` is true |
| ConfirmDialog.Provider.constructor | src/components/confirm-dialog.tsx:21-22 | no dialog and no stored resolver; no promise created or settled yet |
| ConfirmDialog.Provider.ShowDialog | src/components/confirm-dialog.tsx:24-29 | the options are stored together with the resolver of a new promise |
| ConfirmDialog.Provider.Resolve | src/components/confirm-dialog.tsx:31-41 | the stored resolver, if any, is called once with the value; then dialog and resolver are cleared |
| ConfirmDialog.Provider.HandleConfirm | src/components/confirm-dialog.tsx:31-35 | resolves with `true`, then clears both fields |
| ConfirmDialog.Provider.HandleCancel | src/components/confirm-dialog.tsx:37-41 | resolves with `false`, then clears both fields |
| ConfirmDialog.ShowTwiceThenConfirm | src/components/confirm-dialog.tsx:24-35 | a second dialog opened over a pending one takes its resolver: the confirmation settles only the second promise, and the first is never settled |
| ServicesPage.MatchesSearch | src/app/admin/services/page.tsx:31-35 | a match needs a customer, type or package name; for the empty term, any present name matches |
| ServicesPage.KeepsStatus | src/app/admin/services/page.tsx:40-49 | `completed` keeps rows with a non-empty completion time, `cancelled` the cancelled rows, `active` the rest; any other value keeps every row |
| ServicesPage.ShownBy | src/app/admin/services/page.tsx:30-50 | a shown row passes the search unless the term is empty, and the status choice unless it is `all`; with neither, every row is shown |
| ServicesPage.Visible | src/app/admin/services/page.tsx:26-53 | the visible list never has more rows than the fetched list, nor any row it does not have |
| ServicesPage.VisibleIsOrderedSelection | src/app/admin/services/page.tsx:26-52 | the visible rows are an ordered subsequence, holding exactly the services that pass both the search and the status choice |
| ServicesPage.NoFilterShowsAll | src/app/admin/services/page.tsx:30-39 | an empty term with `all` shows exactly the services |
| ServicesPage.UnknownStatusKeepsAll | src/app/admin/services/page.tsx:40-49 | an unrecognised status value filters like `all` |
| ServicesPage.ActiveIsDisjoint | src/app/admin/services/page.tsx:40-49 | `active` excludes `completed` and `cancelled`, and every service falls under one of the three |
| ServicesPage.StatusText | src/app/admin/services/page.tsx:112-116 | the label is never empty: cancelled comes before completed, and otherwise the stage name or `Kayıt` is shown |
| ServicesPage.StageTone | src/app/admin/services/page.tsx:104-109 | it is yellow iff the stage is `Tespit`, green iff it is `Kapanış`, and blue for `Kayıt`, unknown or missing stages |
| ServicesPage.StatusColor | src/app/admin/services/page.tsx:97-110 | red iff the service is cancelled; teal iff not cancelled and completed; otherwise the stage colour |
| ServicesPage.StatusTextAgreesWithFilter | src/app/admin/services/page.tsx:40-49 | label and colour agree with the status choice that keeps the row |
| ServicesPage.Page.constructor | src/app/admin/services/page.tsx:11-20 | no rows, an empty term, status `all` and a closed modal, with the filtered list in step |
| ServicesPage.Page.RunFilterEffect | src/app/admin/services/page.tsx:26-53 | the staged filter (search, then status) produces exactly the visible rows |
| ServicesPage.Page.SetServices | src/app/admin/services/page.tsx:69 | new rows, with the filter effect re-run |
| ServicesPage.Page.SetSearchTerm | src/app/admin/services/page.tsx:26-53 | a new term, with the filter effect re-run |
| ServicesPage.Page.SetStatusFilter | src/app/admin/services/page.tsx:39-53 | a new status choice, with the filter effect re-run |
| ServicesPage.Page.RequestDelete | src/app/admin/services/page.tsx:235-239 | the modal opens for the service and its customer name |
| ServicesPage.Page.HandleDelete | src/app/admin/services/page.tsx:78-95 | a successful delete removes exactly that id's rows; a failed one keeps the rows; the matching toast is raised, and the modal is reset either way |
| AdminDashboard.StatOrZero | src/app/admin/page.tsx:36-39 | a reported count is kept, zero included, and a missing count is 0 |
| AdminDashboard.StatsOf | src/app/admin/page.tsx:35-40 | each stat is its count or 0 |
| AdminDashboard.InitialStats | src/app/admin/page.tsx:8-13 | all four counters start at zero |
| AdminDashboard.NothingReportedIsInitial | src/app/admin/page.tsx:8-40 | no reported count equals the initial zero stats |
| AdminDashboard.StatusText | src/app/admin/page.tsx:110-119 | `İptal` when cancelled; for `Kapanış`, `Tamamlandı` if completed and else `Kapanış`; any other stage unchanged, with no `Kayıt` fallback |
| AdminDashboard.StatusColor | src/app/admin/page.tsx:92-108 | red iff cancelled; teal or green for `Kapanış`, by completion; yellow iff `Tespit`; the `Kayıt` blue otherwise |
| AdminDashboard.TextOf | src/app/admin/page.tsx:176 | a row has no label exactly when it is live and has no stage; otherwise the label is the cancellation text, the completion text or the stage name |
| AdminDashboard.ColorOf | src/app/admin/page.tsx:175 | red exactly for cancelled rows; teal only for completed rows in the closing stage |
| AdminDashboard.AgreesWithServicesPage | src/app/admin/page.tsx:92-119 | for cancelled or closing-stage services both pages give the same label and colour |
| AdminDashboard.CompletionOutsideClosingIgnored | src/app/admin/page.tsx:115-118 | outside the closing stage the dashboard ignores completion, while the services page shows completed rows as `Tamamlandı` |
| AdminDashboard.PagesDisagree | src/app/admin/page.tsx:110-119 | a completed `Tespit` service and a stage-less service get different labels on the two pages |
| SettingsPage.Put | src/app/admin/settings/page.tsx:44-53 | the top level gains the first segment and keeps every other key as it was; a one-segment path stores the value there, a longer one stores a record |
| SettingsPage.Get | src/app/admin/settings/page.tsx:44-53 | a read finds something only when the first segment is present; a one-segment read gives that key's setting |
| SettingsPage.CopyOf | src/app/admin/settings/page.tsx:49 | spreading a record copies its fields, and spreading anything else gives an empty record |
| SettingsPage.GetAfterPut | src/app/admin/settings/page.tsx:44-53 | after the update, the path reads back the written value |
| SettingsPage.PutLeavesDivergingPaths | src/app/admin/settings/page.tsx:45-53 | every path that parts from the written one still reads as before |
| SettingsPage.PutLeavesOtherTopLevelKeys | src/app/admin/settings/page.tsx:45 | top-level keys other than the first segment are unchanged |
| SettingsPage.TwoSegmentKeepsSiblings | src/app/admin/settings/page.tsx:48-50 | for a two-segment path, the parent keeps its other fields and gains at most the written key |
| SettingsPage.PutIdempotent | src/app/admin/settings/page.tsx:42-56 | the same update applied twice equals the update applied once |
| SettingsPage.UpdateSetting | src/app/admin/settings/page.tsx:42-56 | the copy-descend-and-write loops return the path update of the previous record, which is left as it was |
| SettingsPage.InitialSettings | src/app/admin/settings/page.tsx:10-25 | `notifications` and `maintenance` are records, no other setting is, and every setting inside them is a plain value |
| SettingsPage.SmsPathSegments | src/app/admin/settings/page.tsx:44 | the SMS toggle's path splits into `notifications` and `smsNotifications` |
| SettingsPage.SmsToggleScenario | src/app/admin/settings/page.tsx:10-56 | on the initial settings, the SMS toggle turns on and the other flags and the site name are kept |
| SettingsPage.Page.constructor | src/app/admin/settings/page.tsx:10-25 | the page starts from the initial settings |
| SettingsPage.Page.Update | src/app/admin/settings/page.tsx:43 | the state becomes the path update of the previous state |
| CustomersPage.MatchesSearch | src/app/admin/customers/page.tsx:29-34 | a match needs a name, phone, email or company; for the empty term, any present field matches |
| CustomersPage.Search | src/app/admin/customers/page.tsx:25-38 | an empty term shows every customer; otherwise the list is no longer than the rows and holds only rows from them |
| CustomersPage.SearchIsOrderedSelection | src/app/admin/customers/page.tsx:25-38 | the list is an ordered subsequence holding exactly the customers that pass; an empty term keeps all of them |
| CustomersPage.SearchIgnoresCaseOutsidePhone | src/app/admin/customers/page.tsx:30-33 | the term's case changes the result only through the phone test: whenever that test agrees for the lowered term, so does the whole search, and always when there is no phone |
| CustomersPage.AbsentFieldsNeverMatch | src/app/admin/customers/page.tsx:30-33 | a customer with all four fields absent never matches a non-empty term |
| CustomersPage.PhoneIsCaseSensitive | src/app/admin/customers/page.tsx:31-32 | the same text matches in the email field but not in the phone field when the case differs |
| CustomersPage.Page.constructor | src/app/admin/customers/page.tsx:11-19 | no rows, an empty term and a closed modal, with the filtered list in step |
| CustomersPage.Page.RunSearchEffect | src/app/admin/customers/page.tsx:25-38 | the filtered list is the search of the current rows |
| CustomersPage.Page.SetCustomers | src/app/admin/customers/page.tsx:48 | new rows, with the search effect re-run |
| CustomersPage.Page.SetSearchTerm | src/app/admin/customers/page.tsx:25-38 | a new term, with the search effect re-run |
| CustomersPage.Page.HandleDelete | src/app/admin/customers/page.tsx:57-74 | a successful delete removes exactly that id's rows; a failed one keeps them; the matching toast is raised; the modal is reset either way |
| UsersPage.MatchesSearch | src/app/admin/users/page.tsx:29-33 | a match needs an email, name or role; for the empty term, any present field matches |
| UsersPage.Search | src/app/admin/users/page.tsx:25-37 | an empty term shows every user; otherwise the list is no longer than the rows and holds only rows from them |
| UsersPage.SearchIsOrderedSelection | src/app/admin/users/page.tsx:25-37 | the list is an ordered subsequence holding exactly the users whose email, name or role matches; an empty term keeps all of them |
| UsersPage.SearchIgnoresCase | src/app/admin/users/page.tsx:29-33 | the term's case does not change the result |
| UsersPage.RoleSearchFindsAdmins | src/app/admin/users/page.tsx:32 | searching `ADMIN` finds every administrator |
| UsersPage.RoleColor | src/app/admin/users/page.tsx:75-81 | the admin colour iff the role is `admin`, and the `user` colour for every other or missing role |
| UsersPage.IconOf | src/app/admin/users/page.tsx:83-85 | `ShieldAlert` iff the role is `admin` |
| UsersPage.RoleLabel | src/app/admin/users/page.tsx:176 | `Admin` iff the role is `admin`, else `Kullanıcı` |
| UsersPage.BadgeIsConsistent | src/app/admin/users/page.tsx:174-176 | colour, icon and label pick the same side |
| UsersPage.Page.constructor | src/app/admin/users/page.tsx:11-19 | no rows, an empty term and a closed modal, with the filtered list in step |
| UsersPage.Page.RunSearchEffect | src/app/admin/users/page.tsx:25-37 | the filtered list is the search of the current rows |
| UsersPage.Page.SetUsers | src/app/admin/users/page.tsx:47 | new rows, with the search effect re-run |
| UsersPage.Page.SetSearchTerm | src/app/admin/users/page.tsx:25-37 | a new term, with the search effect re-run |
| UsersPage.Page.HandleDelete | src/app/admin/users/page.tsx:56-73 | a successful delete removes exactly that id's rows; a failed one keeps them; the matching toast is raised; the modal is reset either way |

## Left out

- Backend calls (`supabase.auth.*`, `from(...).select/delete`, `signOut`) are not modelled as behaviour. Their answers are parameters, and the delete's error is the flag `deleteFailed`.
- Fetch handlers are not modelled: `fetchServices`, `fetchCustomers`, `fetchUsers`, `fetchData` and their error toasts, and the settings page's `handleSave` (a simulated one-second save). They only chain backend answers into the setters that are modelled.
- Asynchrony and concurrency are not modelled. Two evaluations of the guard in flight at once, a check racing a navigation, and timers firing are all outside the model. Each modelled call runs to completion from its inputs.
- `setTimeout` and `setInterval` are not executed. Pending toast removals are recorded as `Timer` values. The sweep's firings are the calls a caller makes to `Monitor.Tick`.
- `Date.now()` is a clock parameter, read twice per check.
- `createdAt` holding NaN or a non-numeric string is not modelled. Only integers are, and a missing value is `None`.
- Toasts.ToastHub.ShowToast: the counter is an unbounded `nat`. In the source it is a JavaScript number, which stops advancing at 2^53, after which `toast-N` ids would repeat. `Toasts.IssuedIdsDistinct` and `Toasts.NextIdIsFresh` rely on the unbounded counter.
- Text.Lower: lowers the ASCII letters A to Z only. JavaScript's Unicode `toLowerCase` (including the Turkish dotted and dotless I) is not modelled.
- CSS class strings are modelled as the enumerations `ServicesPage.Tone` and `UsersPage.RoleTone`, and the lucide icons as `UsersPage.RoleIcon`.
- Indexing the colour tables with a name inherited from `Object.prototype` (such as `constructor`) is not modelled. JavaScript returns a truthy function value there, and the model gives the fallback colour.
- SettingsPage.CopyOf: spreading a string leaf gives an empty record in the model. JavaScript gives a record of its characters indexed by position. No form field writes below a string leaf.
- SettingsPage.UpdateSetting: in the source, each copied record is stored in its parent before the descent continues, so the final write is seen through that alias. The model keeps the copies in a sequence and stores each back into its parent after the write, which yields the same record.
- Key names such as `__proto__` in a settings path are not modelled.
- React's rendering is not modelled beyond the view functions. Markup, layouts, the login page's own redirect after sign-in and the `new/*` form pages are left out.
- The node scripts (`create-admin.js`, `test-db.js`, `test-login.js`) and the mock backend client are not part of this model.
