# ChatBot-Admin core, modelled in Dafny

ChatBot-Admin is an administration dashboard for a messaging bot. Its data lives in a hosted document store. The collections are bot configuration, keyword statistics, messages, contacts, broadcasts, consultations, system logs and user profiles. Around them sit an access-control layer and a handful of pages and hooks. This project models the part of the dashboard that computes or decides something, and proves what each part promises.

- **Access control.**
  - `Auth`: the closed role set and the role → capability matrix.
  - `AuthContext`: the session cell (`AuthProvider`) with its profile defaulting, sign-in, sign-up and sign-out effects and its fail-closed queries.
  - `RouteGate`: the route guard and the pending-approval redirect.
  - `UserManagement`: approving, rejecting and re-roling accounts over the `user_profiles` table.
- **Bot configuration editing.**
  - `ConfigValue`: the configuration document as a JSON-like value, the dotted-path lookup `getNestedValue` (a loop, proved against a recursive walk) and the field-path update.
  - `MessagesConfiguration`, `MessagesTemplate` and `MessagesEditor`: the three edit / preview / save state machines, which differ in detail; plus the working-hours form.
- **Analytics reducers.**
  - `Analytics`: the daily, hourly and funnel aggregates, each a loop proved equal to a definition by groups and counts; plus growth and the keyword ranking.
  - `HourlyActivityHook`: the 24-bucket histogram over an array.
  - `Grouping`, `KeywordAggregate`, `KeywordStatsHook` and `MessageStatHook`: the two differing per-keyword merges.
- **List views.**
  - `KeywordsPage`, `AllMessages`, `LogsPage`, `UsersPage` and `Consultations`: filters, counters and sort orders.
  - `Csv`: the hand-built exports with their three different quoting rules, and whether a cell reads back.
- **Broadcast.**
  - `BroadcastPage`: audience selection and send validation.
  - `BroadcastHook`: the record's `sending → sent | failed` lifecycle.
  - `BroadcastRoute`: the server route's validation and tally.
- **Retry.**
  - `Api`: `fetchWithRetry` over the sequence of outcomes its attempts meet, `checkBotHealth` and `formatErrorMessage`. A thrown Error is kept as how its message is made (a client error, a server error, or a message carried over), and `ErrorText` renders that message.

Shared vocabulary lives in:

- `Common`: an optional value, and counting, filtering and summing over sequences.
- `Text`: ASCII case folding, substring search, split and join, decimal rendering and the default string order.
- `Sorting`: the stable sort `Array.prototype.sort` performs.
- `Records`: the record shapes of `src/types/index.ts`.

The document store, the identity provider, the router, `confirm`, the clock and the network are outside the model:

- A read is a parameter, and a store is a `map` field that the methods update.
- The outcome of each call is an input: `Step` is done or failed, and a fetch outcome is an answer with a status or a thrown value.
- A redirect is the path returned.
- Dates are integers (milliseconds), and date formatting is a function parameter.

JavaScript details the code depends on are written out:

- `||` tests truthiness, so an empty string is falsy.
- A template literal renders `undefined` as `"undefined"`, while `Array.join` renders it as `""`.
- `Array.sort` without a comparator compares decimal strings.
- `Math.round` rounds halves up.
- An object's keys iterate in insertion order.

Where the code and its own comments or headings disagree, the model follows the code. Each such case is listed under "## Findings".

## Model

| member | source | states |
|---|---|---|
| Auth.ParseRole | src/types/auth.ts:2 | a stored name denotes a role exactly when it is one of admin, editor, viewer, pending, and the role's name is that string |
| Auth.RoleNameRoundTrip | src/types/auth.ts:2 | every role's stored name parses back to the same role |
| Auth.Permissions | src/types/auth.ts:30-79 | admin holds every capability, pending none; the dashboard is granted to every role but pending; logs, config editing, user management and deletion imply admin |
| Auth.Monotone | src/types/auth.ts:43-66 | each capability of viewer is held by editor, and each of editor by admin |
| Auth.AdminOnly | src/types/auth.ts:30-79 | viewing logs, editing config, managing users and deleting data are granted exactly to admin |
| Auth.EditorViewerDiffer | src/types/auth.ts:43-66 | editor and viewer differ exactly in viewing users and sending broadcasts |
| AuthContext.ErrorText | src/contexts/AuthContext.tsx:128-130 | the provider's message when it is non-empty, else the fallback text |
| AuthContext.DecodeProfile | src/contexts/AuthContext.tsx:70-81 | a missing or empty role becomes pending, a present one is kept; approved holds only for a stored true; a missing creation date becomes the current time; identity fields are copied |
| AuthContext.PermissionsFor | src/contexts/AuthContext.tsx:84 | a permission record exists exactly for the four known role names, and it is that role's matrix row |
| AuthContext.HasPermission | src/contexts/AuthContext.tsx:183-186 | false without a loaded record, otherwise the record's flag for the capability |
| AuthContext.IsAdmin | src/contexts/AuthContext.tsx:188-190 | true exactly when a profile is loaded whose role is admin and which is approved |
| AuthContext.IsApproved | src/contexts/AuthContext.tsx:192-194 | true exactly when a profile is loaded and it is approved |
| AuthContext.GrantingRoles | src/contexts/AuthContext.tsx:183-186 | a role that grants any capability is admin, editor or viewer |
| AuthContext.HasPermissionIgnoresApproval | src/contexts/AuthContext.tsx:183-194 | an unapproved stored admin is granted every capability although it is neither admin nor approved for the session |
| AuthContext.SignupDocument | src/contexts/AuthContext.tsx:144-152 | the document written at signup is pending and unapproved |
| AuthContext.SignupGrantsNothing | src/contexts/AuthContext.tsx:144-155 | a freshly signed-up account, once loaded, is unapproved and holds no capability |
| AuthContext.AuthProvider.constructor | src/contexts/AuthContext.tsx:58-61 | no session, no profile, no permissions, loading |
| AuthContext.AuthProvider.FetchUserProfile | src/contexts/AuthContext.tsx:65-100 | an existing document read and stamped becomes the profile and its lastLogin is set; a missing document, a failed read or a failed stamp leaves no profile and no permissions; the permissions always belong to the profile's role |
| AuthContext.AuthProvider.OnAuthStateChanged | src/contexts/AuthContext.tsx:102-117 | the session becomes the given user, its profile is fetched and its lastLogin stamped, or the profile cleared and the store untouched, and loading ends |
| AuthContext.AuthProvider.Login | src/contexts/AuthContext.tsx:119-131 | a refused sign-in throws the message or 'Failed to login' and changes nothing; a successful one sets the user, loads the profile and stamps its lastLogin (or, when reading or stamping fails, clears the profile and leaves the store untouched) and navigates to / |
| AuthContext.AuthProvider.Signup | src/contexts/AuthContext.tsx:133-161 | the first failing step throws its message or 'Failed to create account' and changes nothing; otherwise a pending unapproved profile is stored and the app goes to /pending-approval; the profile is loaded and its lastLogin stamped when reading and stamping succeed, and otherwise no profile or permissions are loaded and the stored document stays unstamped |
| AuthContext.AuthProvider.Logout | src/contexts/AuthContext.tsx:163-173 | a successful sign-out clears user, profile and permissions and goes to /login; a failed one throws and keeps the session |
| RouteGate.Redirect | src/components/ProtectedRoute.tsx:14-34 | no redirect while loading; a missing user goes to /login; an unapproved user off the pending page goes there; an approved user on it goes to / ; both directions of each |
| RouteGate.Render | src/components/ProtectedRoute.tsx:37-62 | the loading screen exactly while loading; the children exactly for a signed-in user who is approved or on the pending page |
| RouteGate.RedirectSettles | src/components/ProtectedRoute.tsx:14-34 | following a signed-in user's redirect leads to a path with no further redirect |
| RouteGate.ApprovedPassesThrough | src/components/ProtectedRoute.tsx:14-62 | an approved user on any page but the pending one sees it without a redirect |
| RouteGate.ChildrenWithRedirect | src/components/ProtectedRoute.tsx:23-62 | children are drawn during a pending redirect exactly for an approved user on the pending page |
| RouteGate.PendingRedirect | src/app/pending-approval/page.tsx:13-21 | no redirect while loading or for a signed-in unapproved user; /login without a user; / for an approved user |
| RouteGate.PendingRender | src/app/pending-approval/page.tsx:23-29 | the spinner exactly while loading |
| RouteGate.PendingAgreesWithGate | src/app/pending-approval/page.tsx:13-21 | the pending page's redirect equals the guard's redirect for the pending path |
| UserManagement.ToRow | src/app/user-management/page.tsx:49-60 | a listed row takes role, approval and uid raw from the document and a missing creation date as the current time |
| UserManagement.NewerFirstIsPreorder | src/app/user-management/page.tsx:62 | the newest-first comparison is a total preorder, so sorting by it is meaningful |
| UserManagement.Rows | src/app/user-management/page.tsx:47-61 | one row per enumerated document, in the store's order, each the document's row |
| UserManagement.ListIsNewestFirst | src/app/user-management/page.tsx:62 | the listed rows are sorted newest first and are a permutation of the fetched rows |
| UserManagement.RewriteKeepsSnapshot | src/app/user-management/page.tsx:47 | after a document is rewritten the same enumeration still lists every stored document once |
| UserManagement.SnapshotRows | src/app/user-management/page.tsx:47-61 | a snapshot gives as many rows as there are stored documents, each document's row among them |
| UserManagement.SnapshotListed | src/app/user-management/page.tsx:47-62 | the sorted list of a snapshot holds one row per stored document, each document's row among them |
| UserManagement.ComputeStats | src/app/user-management/page.tsx:141-146 | total is the number of rows and each of pending, admins, approved is at most the total |
| UserManagement.PendingPlusApproved | src/app/user-management/page.tsx:143-145 | every row counts as exactly one of pending and approved, so the two add up to the total |
| UserManagement.PageFor | src/app/user-management/page.tsx:29-41 | the manager view is shown exactly when the session may manage users |
| UserManagement.ManagerIsAdminOnly | src/app/user-management/page.tsx:29-41 | only a session whose role is admin reaches the manager view |
| UserManagement.WithRole | src/app/user-management/page.tsx:76-80 | the role changes to the chosen one with the audit stamp and actor; every other field, approval included, stays |
| UserManagement.Approved | src/app/user-management/page.tsx:97-103 | the document becomes approved as a viewer with the approver and time stamped; every other field stays |
| UserManagement.ApprovedSignsInAsViewer | src/app/user-management/page.tsx:97-103 | an approved document loads as an approved session holding the viewer's permissions |
| UserManagement.UserManagementPage.constructor | src/app/user-management/page.tsx:21-23 | an empty list, loading, and nothing being updated |
| UserManagement.UserManagementPage.FetchUsers | src/app/user-management/page.tsx:44-69 | over a snapshot listing every stored document once, a successful read lists their rows newest first, one per document and every document's row among them; a failed read keeps the old list; loading ends and the store is untouched |
| UserManagement.UserManagementPage.UpdateUserRole | src/app/user-management/page.tsx:71-90 | declined changes nothing; a successful write on an existing document changes its role and refetches, the list showing the refetch or, when it fails, staying, and loading ends; otherwise the store, list and loading are unchanged; updating is cleared |
| UserManagement.UserManagementPage.ApproveUser | src/app/user-management/page.tsx:92-113 | declined changes nothing; a successful write approves the document and refetches, the list showing the refetch or, when it fails, staying, and loading ends; otherwise the store, list and loading are unchanged; updating is cleared |
| UserManagement.UserManagementPage.RejectUser | src/app/user-management/page.tsx:115-129 | declined changes nothing; a successful delete removes exactly that document and refetches, the list showing the refetch or, when it fails, staying, and loading ends; a failed delete changes neither store, list nor loading |
| ConfigValue.Child | src/app/messages-configuration/page.tsx:139-143 | a value that is neither an object nor an array has no member; an object has exactly its own keys |
| ConfigValue.AsText | src/app/messages-configuration/page.tsx:145 | the walk's end as text when it is a string, otherwise the empty string |
| ConfigValue.GetNestedValue | src/app/messages-configuration/page.tsx:135-146 | the loop over the path's segments returns the lookup the dotted path denotes: the string at its end, or '' at the first missing step |
| ConfigValue.SetPath | src/app/messages-configuration/page.tsx:194-203 | writing at a non-empty field path leaves an object at the top |
| ConfigValue.ReadBack | src/app/messages-configuration/page.tsx:194-203 | after a write at a field path, walking that path finds the value written |
| ConfigValue.SetPathElsewhere | src/app/messages-configuration/page.tsx:194-203 | a write at one path leaves every path that diverges from it as it was |
| ConfigValue.ApplyUpdateAppend | src/app/messages-configuration/page.tsx:239-247 | applying two runs of dotted keys is applying the first, then the second |
| ConfigValue.EditReadsBack | src/app/messages-configuration/page.tsx:135-203 | a saved edit is what the page's lookup then shows at that path |
| ConfigValue.EditUpdate | src/app/messages-configuration/page.tsx:194-202 | the update holds the edited value under its full dotted path, the time stamp and the 'admin-dashboard' signature, and nothing else; the edit wins a clash of names |
| ConfigValue.EditKey | src/app/messages-configuration/page.tsx:193-202 | the key computed from the split segments is the original path, whatever the number of segments |
| MessagesConfiguration.Without | src/app/messages-configuration/page.tsx:260 | removing a day drops all its occurrences and keeps the others with their counts |
| MessagesConfiguration.DayLeIsPreorder | src/app/messages-configuration/page.tsx:260 | the default sort's order on numbers, by decimal rendering, is a total preorder |
| MessagesConfiguration.ToggleDay | src/app/messages-configuration/page.tsx:259-261 | a selected day is removed entirely; an unselected one is added once to the same days |
| MessagesConfiguration.ToggleDayMembership | src/app/messages-configuration/page.tsx:259-261 | the toggled day's membership flips, every other day's stays, and no duplicate arises |
| MessagesConfiguration.ToggleDayAscending | src/app/messages-configuration/page.tsx:21-29 | for week days 0 to 6 the text order of the default sort is numeric order, so an added day leaves the days ascending |
| MessagesConfiguration.WithinHours | src/app/messages-configuration/page.tsx:274-287 | always inside when working hours are off; otherwise inside exactly when the zone converts, the day is selected and the hour is in [start, end) |
| MessagesConfiguration.EmptyWindow | src/app/messages-configuration/page.tsx:282 | a start hour not before the end hour leaves every moment outside working hours |
| MessagesConfiguration.HoursField | src/app/messages-configuration/page.tsx:165-170 | a field that the nullish test lets through is never null |
| MessagesConfiguration.NumsOf | src/app/messages-configuration/page.tsx:170 | a stored list of numbers reads as those numbers, element by element |
| MessagesConfiguration.DaysValue | src/app/messages-configuration/page.tsx:244 | the stored list of days reads back as the same days |
| MessagesConfiguration.Prefill | src/app/messages-configuration/page.tsx:163-172 | without a truthy working_hours the form is untouched; with one, each stored non-null field of the right type is copied into the form, and an empty working_hours sets every field to its default |
| MessagesConfiguration.EnabledOf | src/app/messages-configuration/page.tsx:166 | a stored boolean `enabled` is taken, anything else gives true |
| MessagesConfiguration.HourOf | src/app/messages-configuration/page.tsx:167-168 | a stored number is taken, anything else gives the default hour |
| MessagesConfiguration.TimezoneOf | src/app/messages-configuration/page.tsx:169 | a stored string is taken, anything else gives 'Asia/Jakarta' |
| MessagesConfiguration.DaysOf | src/app/messages-configuration/page.tsx:170 | a stored list of numbers is taken, anything else gives Monday to Friday |
| MessagesConfiguration.HoursUpdate | src/app/messages-configuration/page.tsx:239-247 | the update names exactly the five working-hours fields and the two stamps |
| MessagesConfiguration.FieldWrites | src/app/messages-configuration/page.tsx:239-244 | writing working_hours.<name> keys sets those fields of working_hours in turn, making it a map if it was not one |
| MessagesConfiguration.OtherWrites | src/app/messages-configuration/page.tsx:245-246 | writing top-level keys other than working_hours leaves working_hours as it was |
| MessagesConfiguration.SaveWritesFields | src/app/messages-configuration/page.tsx:239-247 | after a save the stored working_hours holds the form's five values over the fields it had, the stamps beside it |
| MessagesConfiguration.PrefillSaved | src/app/messages-configuration/page.tsx:163-172 | prefilling from a working_hours holding a form's five values gives that form |
| MessagesConfiguration.HoursSaveReadsBack | src/app/messages-configuration/page.tsx:163-247 | for every stored configuration and every form, saving the form and prefilling from what was stored gives the form back |
| MessagesConfiguration.HoursError | src/app/messages-configuration/page.tsx:225-234 | a form is accepted exactly when its start hour is before its end hour and some day is selected |
| MessagesConfiguration.ConfigurationPage.constructor | src/app/messages-configuration/page.tsx:150-161 | the funnel tab, no edit, no preview, not saving, the default working-hours form, no messages |
| MessagesConfiguration.ConfigurationPage.HandleEdit | src/app/messages-configuration/page.tsx:183-187 | editing starts at the path with the shown value and the preview closes; the rest stays |
| MessagesConfiguration.ConfigurationPage.EditValueChange | src/app/messages-configuration/page.tsx:372 | only the edit text changes |
| MessagesConfiguration.ConfigurationPage.PreviewToggle | src/app/messages-configuration/page.tsx:102 | the preview of the path closes when shown and opens otherwise; the rest stays |
| MessagesConfiguration.ConfigurationPage.PrefillEdit | src/app/messages-configuration/page.tsx:174-181 | an empty edit of a non-empty key takes the stored value when that is non-empty, and nothing else changes |
| MessagesConfiguration.ConfigurationPage.HandleSave | src/app/messages-configuration/page.tsx:189-216 | the update sent is the edit under its path with the stamps; success clears the edit and shows 'Saved'; failure keeps the edit and shows the error; saving ends |
| MessagesConfiguration.ConfigurationPage.HandleCancel | src/app/messages-configuration/page.tsx:218-222 | edit, edit text and preview are cleared; the rest stays |
| MessagesConfiguration.ConfigurationPage.SwitchTab | src/app/messages-configuration/page.tsx:352 | the tab changes and the edit and preview are cleared |
| MessagesConfiguration.ConfigurationPage.PrefillHours | src/app/messages-configuration/page.tsx:163-172 | the form becomes the prefilled form; nothing else changes |
| MessagesConfiguration.ConfigurationPage.ToggleFormDay | src/app/messages-configuration/page.tsx:259-261 | only the form's days change, to the toggled days |
| MessagesConfiguration.ConfigurationPage.SaveWorkingHours | src/app/messages-configuration/page.tsx:224-257 | a refused form sends nothing and shows its reason; a valid one sends the working-hours update and shows success or the failure text; the form stays |
| MessagesTemplate.ScreenFor | src/app/messages-template/page.tsx:227-246 | the editor is shown exactly when loading is over and system_messages is present and truthy |
| MessagesTemplate.TemplatePage.constructor | src/app/messages-template/page.tsx:153-158 | the offline tab, no edit, no preview, not saving, no message |
| MessagesTemplate.TemplatePage.HandleEdit | src/app/messages-template/page.tsx:170-174 | editing starts at the path with the shown value and the preview closes |
| MessagesTemplate.TemplatePage.EditValueChange | src/app/messages-template/page.tsx:219-221 | only the edit text changes |
| MessagesTemplate.TemplatePage.PreviewToggle | src/app/messages-template/page.tsx:95 | the preview of the path closes when shown and opens otherwise |
| MessagesTemplate.TemplatePage.PrefillEdit | src/app/messages-template/page.tsx:160-168 | an empty edit of a non-empty key takes the stored non-empty value; nothing else changes |
| MessagesTemplate.TemplatePage.HandleSave | src/app/messages-template/page.tsx:176-211 | the edit is sent under its full path; success clears the edit and shows the page's saved text; failure keeps everything; saving ends |
| MessagesTemplate.TemplatePage.HandleCancel | src/app/messages-template/page.tsx:213-217 | edit, edit text and preview are cleared |
| MessagesTemplate.TemplatePage.SwitchTab | src/app/messages-template/page.tsx:284-290 | the tab changes and the edit and preview are cleared |
| MessagesEditor.EditorUpdate | src/app/messages/page.tsx:24-42 | paths of up to three segments are sent under their own name with the stamps signed 'admin'; longer paths send only the stamps |
| MessagesEditor.LongPathDropped | src/app/messages/page.tsx:31-41 | a four-segment path sends no content key at all |
| MessagesEditor.EditorPage.constructor | src/app/messages/page.tsx:12-17 | the funnel tab, no edit, no preview, not saving, no message |
| MessagesEditor.EditorPage.HandleEdit | src/app/messages/page.tsx:19-22 | editing starts at the path with the shown value; the preview stays |
| MessagesEditor.EditorPage.EditValueChange | src/app/messages/page.tsx:108 | only the edit text changes |
| MessagesEditor.EditorPage.PreviewToggle | src/app/messages/page.tsx:139 | the preview of the path closes when shown and opens otherwise |
| MessagesEditor.EditorPage.HandleSave | src/app/messages/page.tsx:24-54 | the update sent is the segment-count update; success ends the edit but keeps its text and preview; failure changes nothing; saving ends |
| MessagesEditor.EditorPage.HandleCancel | src/app/messages/page.tsx:56-59 | the edit and its text are cleared; the preview stays |
| MessagesEditor.EditorPage.SwitchTab | src/app/messages/page.tsx:199 | only the tab changes |
| Analytics.RangeDays | src/app/analytics/page.tsx:41 | '7d' is seven days, '30d' thirty, any other range one |
| Analytics.Days | src/app/analytics/page.tsx:57-64 | one row per listed date, in order, each holding that date's figures |
| Analytics.TallySnoc | src/app/analytics/page.tsx:44-55 | a dated message bumps its own date's tally by one message, its sender and a possible consultation, and no other date's |
| Analytics.AdvanceTallies | src/app/analytics/page.tsx:44-55 | one step of the loop keeps the invariant: dates in the order first met, each with the tally of the messages seen so far |
| Analytics.TallyDates | src/app/analytics/page.tsx:42-55 | the loop ends with the dates in the order first met, each mapped to its message count, distinct senders and consultations |
| Analytics.GetDailyData | src/app/analytics/page.tsx:40-65 | the daily rows are those of the last range-many dates first met, each with its messages, distinct senders and consultations |
| Analytics.DayBounds | src/app/analytics/page.tsx:57-64 | on each listed day the consultations and the senders are at most the messages, and there is at least one message and one sender |
| Analytics.DailyTotal | src/app/analytics/page.tsx:40-65 | when the range covers every date met, the daily message counts add up to the number of dated messages |
| Analytics.RowsSum | src/app/analytics/page.tsx:57-64 | the rows' message counts add up to the sizes of the dates' groups |
| Analytics.SumOne | src/app/analytics/page.tsx:49 | counting one per message gives the number of messages |
| Analytics.Histogram | src/app/analytics/page.tsx:77-80 | 24 buckets labelled '0:00' to '23:00' |
| Analytics.GetHourlyData | src/app/analytics/page.tsx:68-81 | the loop's buckets are, for each hour of the day, the number of messages sent in that hour |
| Analytics.BucketSumCounts | src/app/analytics/page.tsx:77-80 | the first n buckets together count the messages whose hour is below n |
| Analytics.CountSplit | src/app/analytics/page.tsx:77-80 | the messages below hour n are those below n - 1 and those at hour n - 1 |
| Analytics.HistogramTotal | src/app/analytics/page.tsx:68-81 | the 24 buckets together hold exactly the messages whose hour lies in the day |
| Analytics.Funnel | src/app/analytics/page.tsx:95-102 | six stages, Welcome to Konsultasi, in that order |
| Analytics.TickCounts | src/app/analytics/page.tsx:87-91 | one step of the keyword loop keeps every truthy keyword's count equal to its number of messages so far |
| Analytics.CountKeywords | src/app/analytics/page.tsx:85-91 | the loop ends with each truthy keyword's number of messages |
| Analytics.GetFunnelData | src/app/analytics/page.tsx:84-103 | each stage counts the messages carrying its keyword |
| Analytics.FunnelFromCounts | src/app/analytics/page.tsx:95-102 | reading the stages off correct keyword counts, missing ones as 0, gives the funnel |
| Analytics.FunnelConsultations | src/app/analytics/page.tsx:51-52 | the consultation stage counts exactly the messages the daily chart counts as consultations |
| Analytics.CountSame | src/app/analytics/page.tsx:51 | two tests that agree everywhere count the same messages |
| Analytics.SafePercent | src/app/analytics/page.tsx:113-116 | no change exactly when the earlier figure is zero; otherwise the change of latest over previous |
| Analytics.CalculateGrowth | src/app/analytics/page.tsx:106-123 | fewer than two days give no change anywhere; otherwise each figure compares the last day with the one before |
| Analytics.UsersGrowthDefined | src/app/analytics/page.tsx:106-123 | with two listed days the message and user growth are always defined, since no listed day is empty |
| Analytics.ListedDaysActive | src/app/analytics/page.tsx:57-64 | every day the chart lists has at least one message and one sender |
| Analytics.GrowthOfActiveDays | src/app/analytics/page.tsx:113-122 | over two or more days that each have a message and a sender, both the user and the message change are defined |
| Analytics.TopKeywordsRanked | src/app/analytics/page.tsx:361-362 | the keyword table is the stats sorted most used first, and a permutation of them |
| Grouping.FirstSeen | src/app/analytics/page.tsx:46-48 | the keys met, each listed once |
| Grouping.GroupSnoc | src/app/analytics/page.tsx:44-55 | one more element joins its own key's group and no other |
| Grouping.FirstSeenSnoc | src/app/analytics/page.tsx:46-48 | one more element lists its key at the end, unless it has none or it is already listed |
| Grouping.FirstSeenSpec | src/app/analytics/page.tsx:46-48 | a key is listed exactly when some element carries it |
| Grouping.SumGroupsSnocKey | src/lib/hooks/useKeywordStats.ts:51 | listing one more key adds that key's group sum |
| Grouping.SumGroupsSnoc | src/lib/hooks/useKeywordStats.ts:38-49 | one more element adds its value once to the group sums when its key is listed |
| Grouping.NewKeyGroup | src/lib/hooks/useKeywordStats.ts:40-46 | a key met for the first time opens a group holding just that element |
| Grouping.KeyedSnoc | src/lib/hooks/useKeywordStats.ts:38-49 | the keyed elements grow by the new element exactly when it has a key |
| Grouping.GroupTotals | src/lib/hooks/useKeywordStats.ts:36-51 | the groups of the listed keys together hold every keyed element, so nothing is lost or counted twice |
| KeywordAggregate.Entries | src/lib/hooks/useKeywordStats.ts:51 | one entry per key, in order, each the merged entry of its key |
| KeywordAggregate.EntrySnoc | src/lib/hooks/useKeywordStats.ts:47-48 | a document adds its count and conversions, missing ones as 0, to its key's entry and to no other |
| KeywordAggregate.FoldMerges | src/lib/hooks/useKeywordStats.ts:38-49 | one step of the loop keeps the invariant: keys in the order first met, each with the merge of the documents so far |
| KeywordAggregate.FoldHit | src/lib/hooks/useKeywordStats.ts:40-48 | after a step the document's key holds the merge including that document |
| KeywordAggregate.Accumulate | src/lib/hooks/useKeywordStats.ts:36-49 | the loop ends with the keys in the order first met, each with the sums of its documents |
| KeywordAggregate.Collect | src/lib/hooks/useKeywordStats.ts:51 | one value per listed key |
| KeywordAggregate.ReadOff | src/lib/hooks/useKeywordStats.ts:51 | the values read off the loop's state are the merge by definition |
| KeywordAggregate.CollectEntries | src/lib/hooks/useKeywordStats.ts:51 | reading correct entries off the map gives the keys' merged entries |
| KeywordAggregate.EntriesSum | src/lib/hooks/useKeywordStats.ts:47-48 | the entries' counts and conversions are the sums over the keys' groups |
| KeywordAggregate.MergeTotals | src/lib/hooks/useKeywordStats.ts:36-51 | merging loses and invents nothing: the entries' counts and conversions sum to those of the keyed documents |
| KeywordAggregate.MergeKeys | src/lib/hooks/useKeywordStats.ts:40-46 | the i-th entry belongs to the i-th key met and carries the keyword of its first document |
| KeywordAggregate.MoreUsedIsPreorder | src/lib/hooks/useMessageStat.ts:44 | the most-used-first comparison is a total preorder |
| KeywordAggregate.SumInsert | src/lib/hooks/useMessageStat.ts:44 | inserting an entry adds its value to the sum |
| KeywordAggregate.SumSort | src/lib/hooks/useMessageStat.ts:44 | ranking keeps every sum over the entries |
| KeywordStatsHook.Stamped | src/lib/hooks/useKeywordStats.ts:51-54 | the same entries, each dated with the range's end date |
| KeywordStatsHook.KeywordStatsDistinct | src/lib/hooks/useKeywordStats.ts:40-46 | no two entries share a property key; a missing keyword is merged under 'undefined' |
| KeywordStatsHook.StampedSum | src/lib/hooks/useKeywordStats.ts:51-54 | dating the entries keeps their sums |
| KeywordStatsHook.KeywordStatsTotals | src/lib/hooks/useKeywordStats.ts:29-54 | the entries' counts and conversions add up to those of the documents in the date range |
| KeywordStatsHook.AllKeyed | src/lib/hooks/useKeywordStats.ts:40 | every document has a property key, so none is skipped |
| KeywordStatsHook.KeywordStatsState.constructor | src/lib/hooks/useKeywordStats.ts:19-20 | no stats, loading |
| KeywordStatsHook.KeywordStatsState.FetchStats | src/lib/hooks/useKeywordStats.ts:23-62 | a successful read sets the merged, dated entries of the range; a failed one keeps the list; loading ends |
| MessageStatHook.MergedKeywords | src/lib/hooks/useMessageStat.ts:35-42 | each merged entry carries the truthy keyword of its key |
| MessageStatHook.MessageStatsRanked | src/lib/hooks/useMessageStat.ts:44 | the result is ranked most used first and is a permutation of the merge |
| MessageStatHook.MessageStatsDistinct | src/lib/hooks/useMessageStat.ts:35-44 | no keyword is listed twice and none is empty |
| MessageStatHook.MessageStatsTotals | src/lib/hooks/useMessageStat.ts:32-44 | the ranking's counts add up to those of the documents in range that have a truthy keyword |
| MessageStatHook.StatsRun.constructor | src/lib/hooks/useMessageStat.ts:11 | a run starts mounted |
| MessageStatHook.StatsRun.Cleanup | src/lib/hooks/useMessageStat.ts:57-59 | the cleanup unmounts the run |
| MessageStatHook.MessageStatState.constructor | src/lib/hooks/useMessageStat.ts:7-8 | no stats, loading |
| MessageStatHook.MessageStatState.Complete | src/lib/hooks/useMessageStat.ts:13-54 | a result arriving after cleanup changes nothing; a mounted success sets the ranking and ends loading; a failure keeps the list |
| HourlyActivityHook.HourlyTotal | src/lib/hooks/useHourlyActivity.ts:22-34 | the 24 buckets count exactly the date's messages whose hour lies in the day |
| HourlyActivityHook.BucketStep | src/lib/hooks/useHourlyActivity.ts:24-29 | a message with an hour in the day adds one to its bucket; any other leaves the buckets |
| HourlyActivityHook.CountHours | src/lib/hooks/useHourlyActivity.ts:22-29 | the array loop ends with each hour's number of messages |
| HourlyActivityHook.HourlyActivityState.constructor | src/lib/hooks/useHourlyActivity.ts:10-11 | no chart, loading |
| HourlyActivityHook.HourlyActivityState.FetchHourly | src/lib/hooks/useHourlyActivity.ts:14-42 | a successful read lists the 24 hourly buckets of the date's messages; a failed one keeps the chart; loading ends |
| KeywordsPage.RangeDays | src/app/keywords/page.tsx:36 | '7d' is seven days, '30d' thirty, the remaining choice ninety |
| KeywordsPage.ParseSortBy | src/app/keywords/page.tsx:46-53 | 'count' and 'conversions' select their own orders and anything else the rate order |
| KeywordsPage.RateDen | src/app/keywords/page.tsx:50-51 | the rate's denominator is positive, so a keyword without usage has rate 0 |
| KeywordsPage.CrossTransitive | src/app/keywords/page.tsx:50-52 | comparing fractions by cross-multiplication is transitive for positive denominators |
| KeywordsPage.OrdersArePreorders | src/app/keywords/page.tsx:46-53 | the count, conversions and exact rate comparisons are total preorders |
| KeywordsPage.FilteredKeywords | src/app/keywords/page.tsx:40-56 | the search fails exactly when some entry lacks a keyword, where the page's toLowerCase throws |
| KeywordsPage.FilteredKeywordsSpec | src/app/keywords/page.tsx:40-56 | the list is sorted by the chosen order, a permutation of the matching stats, and every element is a stat whose keyword contains the query ignoring case |
| KeywordsPage.EmptyQueryKeepsAll | src/app/keywords/page.tsx:41-43 | the empty query keeps every stat |
| KeywordsPage.ComputeTotals | src/app/keywords/page.tsx:59-70 | the keyword count is the number of stats; the average rate is undefined exactly when usage is not positive and is conversions over usage otherwise |
| KeywordsPage.TotalsAdd | src/app/keywords/page.tsx:60-61 | usage and conversions are sums, so they add over concatenated lists |
| KeywordsPage.Tenths | src/app/keywords/page.tsx:76 | the number of tenths is the percentage rounded to the nearest tenth, ties up |
| KeywordsPage.RateText | src/app/keywords/page.tsx:76 | a keyword without usage exports '0.0' |
| KeywordsPage.FixedTextReadsBack | src/app/keywords/page.tsx:76 | the rendered rate is integer part, '.', one digit, and reads back as the tenths it stands for |
| KeywordsPage.ExportRows | src/app/keywords/page.tsx:75-78 | one row per listed keyword, in order: keyword, count, conversions, rate |
| KeywordsPage.TablePlain | src/app/keywords/page.tsx:73-80 | when no keyword holds ',' or a line break, neither the header nor any exported row does |
| KeywordsPage.ExportReadsBack | src/app/keywords/page.tsx:73-80 | when no keyword holds ',' or a line break, the export splits back into the header and exactly the rows |
| KeywordsPage.RatePlain | src/app/keywords/page.tsx:76 | a rendered rate holds no ',' and no line break |
| Common.Count | src/app/all-messages/page.tsx:48-49 | the length of a filter: at most the whole list, all of it exactly when every element passes, none exactly when none does |
| Common.CountAppend | src/app/logs/page.tsx:56-64 | counts add over concatenation |
| Common.CountSnoc | src/lib/hooks/useHourlyActivity.ts:24-29 | one more element adds one to the count exactly when it passes |
| Common.CountComplement | src/app/user-management/page.tsx:143-145 | the elements passing a test and those failing it partition the list |
| Common.CountBy | src/app/logs/page.tsx:56-64 | the number of elements with a given field value is at most the whole list |
| Common.HitsDistinct | src/app/logs/page.tsx:56-64 | a value occurs at most once in a list of distinct values, and once exactly when it is listed |
| Common.SumCountsStep | src/app/logs/page.tsx:56-64 | one more element adds the number of listed values it carries |
| Common.SumCountsBound | src/app/logs/page.tsx:56-64 | counts of distinct values never add up to more than the whole list |
| Common.SumCountsEmpty | src/app/logs/page.tsx:56-64 | an empty list counts nothing |
| Common.Image | src/app/all-messages/page.tsx:50 | the set of values taken: each element's value is in it and each member comes from some element |
| Common.ImageBound | src/app/all-messages/page.tsx:50 | the number of distinct values is at most the number of elements |
| Common.Filter | src/app/all-messages/page.tsx:33-43 | Array.filter: as many elements as pass, each passing and from the input, every passing input element kept, the order preserved |
| Common.FilterAll | src/app/logs/page.tsx:36-53 | a filter that everything passes keeps the list as it is |
| Common.SumAppend | src/app/keywords/page.tsx:60-61 | a reduce-sum adds over concatenation |
| Common.FilterAppend | src/app/logs/page.tsx:36-53 | filtering distributes over concatenation |
| Common.ImageAppend | src/app/analytics/page.tsx:50 | the set of values of a concatenation is the union of the sets |
| Common.DistinctOnce | src/lib/hooks/useMessageStat.ts:44 | in a list without repeats each value occurs at most once |
| Common.Twice | src/lib/hooks/useMessageStat.ts:44 | a value at two positions occurs at least twice |
| Common.FilterFilter | src/app/logs/page.tsx:36-53 | filtering twice keeps exactly what passes both tests |
| Common.FilterSame | src/app/logs/page.tsx:36-53 | two tests that agree on every element filter alike |
| Common.EnumerationSize | src/app/user-management/page.tsx:47 | a repeat-free list naming exactly the members of a set is as long as the set is large |
| Common.FilterDistinct | src/app/broadcast/page.tsx:66-70 | filtering keeps a list free of repeats |
| Text.Lower | src/app/all-messages/page.tsx:35-37 | toLowerCase over ASCII keeps the length and lowers each character |
| Text.LowerIdempotent | src/app/all-messages/page.tsx:35-37 | lowering twice is lowering once |
| Text.EmptyQueryMatches | src/app/all-messages/page.tsx:35-37 | the empty query occurs in every string |
| Text.QueryCaseIrrelevant | src/app/all-messages/page.tsx:35-37 | the search does not depend on the case of the query |
| Text.Split | src/app/messages-configuration/page.tsx:136 | split gives at least one part and no part holds the separator |
| Text.JoinSplit | src/app/messages-configuration/page.tsx:193-202 | joining the parts of a split gives the string back |
| Text.SplitJoin | src/app/keywords/page.tsx:80 | splitting a join of separator-free parts gives the parts back |
| Text.SplitNoSep | src/app/keywords/page.tsx:76 | a string without the separator splits into itself |
| Text.SplitPrefix | src/app/keywords/page.tsx:76 | splitting a separator-free head, the separator and a tail gives the head before the tail's parts |
| Text.NatToString | src/app/keywords/page.tsx:77 | toString of a natural number is a non-empty string of digits |
| Text.NatToStringRoundTrip | src/app/keywords/page.tsx:77 | the decimal rendering reads back as the number |
| Text.NatToStringInjective | src/app/keywords/page.tsx:77 | different numbers render differently |
| Text.LexLeTotal | src/app/all-messages/page.tsx:28 | the default sort's string order relates every pair |
| Text.LexLeTransitive | src/app/all-messages/page.tsx:28 | the default sort's string order is transitive |
| Text.LexLeAntisymmetric | src/app/all-messages/page.tsx:28 | two strings each ordered before the other are equal |
| Text.DigitOrderIsNumeric | src/app/messages-configuration/page.tsx:260 | for single digits, the text order is the numeric order |
| Sorting.Insert | src/app/user-management/page.tsx:62 | inserting adds exactly the one element |
| Sorting.Sort | src/app/user-management/page.tsx:62 | sorting keeps the length and the elements, each as often |
| Sorting.InsertSorted | src/app/user-management/page.tsx:62 | inserting into an ordered list under a total preorder keeps it ordered |
| Sorting.SortSorted | src/app/user-management/page.tsx:62 | the sort's result is ordered under any total preorder |
| Sorting.SortOfSorted | src/app/user-management/page.tsx:62 | sorting an ordered list leaves it as it is |
| Sorting.InsertKeepsTies | src/app/user-management/page.tsx:62 | the inserted element goes in front of every element it ties with, which keep their order |
| Sorting.SortStable | src/app/user-management/page.tsx:62 | the sort is stable: for every element, those tied with it come out in the order they went in |
| Sorting.Take | src/lib/hooks/useBroadcast.tsx:17 | slice(0, n): the first n elements, or all when fewer |
| Sorting.TakeLast | src/app/analytics/page.tsx:58 | slice(-n): the last n elements, or all when fewer |
| Csv.Lines | src/app/keywords/page.tsx:80 | one line per row, each the row's cells joined by ',' |
| Csv.NoNewline | src/app/keywords/page.tsx:80 | a line of cells without line breaks has none |
| Csv.DocumentReadsBack | src/app/keywords/page.tsx:80 | an unquoted export of separator-free cells splits back into its lines and each line into its cells |
| Csv.IntPlain | src/app/keywords/page.tsx:77 | a rendered integer holds no separator |
| Csv.Escape | src/app/all-messages/page.tsx:67 | doubling the quotes never shortens a cell |
| Csv.EscapedReadsBack | src/app/all-messages/page.tsx:67-73 | an escaped, quoted cell reads back as the original text whatever quotes it holds |
| Csv.BodyReadsBack | src/app/all-messages/page.tsx:67-73 | an escaped body followed by the closing quote reads back as the original text |
| Csv.QuoteReadsBack | src/app/logs/page.tsx:99-101 | a quote-free cell quoted as is reads back as itself |
| Csv.NoQuoteEscape | src/app/all-messages/page.tsx:67 | escaping a quote-free cell changes nothing |
| Csv.BareQuoteCutsShort | src/app/logs/page.tsx:99-101 | a cell holding a quote, quoted as is, reads back cut short at that quote |
| Csv.ReadBodyShrinks | src/app/all-messages/page.tsx:73 | reading a body consumes at least its closing quote |
| Csv.BodyWithQuoteBreaks | src/app/logs/page.tsx:99-101 | a body that reads back as itself holds no quote |
| Csv.QuoteReadsBackIff | src/app/logs/page.tsx:99-101 | a cell quoted as is reads back exactly when it holds no quote |
| Csv.QuoteAll | src/app/all-messages/page.tsx:73 | every cell wrapped in quotes, in order |
| AllMessages.Wrap | src/app/all-messages/page.tsx:27-28 | each keyword as a defined value, in order |
| AllMessages.LexLeIsPreorder | src/app/all-messages/page.tsx:28 | the default string order is a total preorder |
| AllMessages.SortKeepsDistinct | src/app/all-messages/page.tsx:28 | sorting a repeat-free list keeps it repeat-free |
| AllMessages.KeywordPresent | src/app/all-messages/page.tsx:27 | a keyword is in the set exactly when some message carries it |
| AllMessages.KeywordIsKeyMeans | src/app/all-messages/page.tsx:27 | a message is in a keyword's group exactly when it carries that keyword |
| AllMessages.WrapMember | src/app/all-messages/page.tsx:27-28 | a keyword is offered exactly when listed, and undefined is not among the wrapped ones |
| AllMessages.WrapDistinct | src/app/all-messages/page.tsx:27-28 | wrapping keeps the choices distinct |
| AllMessages.UniqueKeywordsDistinct | src/app/all-messages/page.tsx:26-29 | each keyword is offered once |
| AllMessages.UniqueKeywordsComplete | src/app/all-messages/page.tsx:26-29 | a keyword is offered exactly when some message carries it, and undefined exactly when some message lacks one |
| AllMessages.UniqueKeywordsOrdered | src/app/all-messages/page.tsx:28 | defined keywords come before undefined and in ascending order |
| AllMessages.FilteredMessages | src/app/all-messages/page.tsx:32-44 | the list keeps order and holds exactly the messages matching the search in sender, text or id and passing the keyword and type filters, each as often as listed |
| AllMessages.ClearedKeepsAll | src/app/all-messages/page.tsx:84-88 | with the filters cleared every message is listed |
| AllMessages.ComputeStats | src/app/all-messages/page.tsx:47-58 | total is the number of messages; distinct senders and text plus interactive messages are at most the total |
| AllMessages.TypesDisjoint | src/app/all-messages/page.tsx:48-49 | no message counts both as text and as interactive |
| AllMessages.ExportRows | src/app/all-messages/page.tsx:63-73 | one quoted row per listed message, in order |
| AllMessages.TextCellReadsBack | src/app/all-messages/page.tsx:67-73 | the message-text cell reads back as the message text whatever quotes it holds |
| AllMessages.OtherCellsReadBack | src/app/all-messages/page.tsx:64-73 | the other cells read back when they hold no quote |
| AllMessages.ExportLines | src/app/all-messages/page.tsx:72-74 | when no cell holds a separator the export has the header line and one line per listed message |
| AllMessages.LineBreakFree | src/app/all-messages/page.tsx:73 | cells without line breaks make a line without one |
| AllMessages.MessageFilters.constructor | src/app/all-messages/page.tsx:18-20 | no search, no keyword filter, no type filter |
| AllMessages.MessageFilters.ClearFilters | src/app/all-messages/page.tsx:84-88 | search, keyword filter and type filter are all cleared |
| LogsPage.FilteredLogsSpec | src/app/logs/page.tsx:36-53 | the level stage then the search stage keep, in order, exactly the logs of the chosen level whose lowered message, data or level holds the lowered query |
| LogsPage.UnfilteredKeepsAll | src/app/logs/page.tsx:36-53 | with no level and no query every log is listed |
| LogsPage.ComputeStats | src/app/logs/page.tsx:56-64 | total is the number of logs, and the five level counters never add up to more |
| LogsPage.LevelCountsBound | src/app/logs/page.tsx:59-63 | the counts of the five distinct levels add up to at most the number of logs |
| LogsPage.Toggled | src/app/logs/page.tsx:260 | a click clears the level exactly when it was the active one, and otherwise sets it |
| LogsPage.ToggleHighlights | src/app/logs/page.tsx:260 | after a click no other level is active, and two clicks from none leave none |
| LogsPage.ExportCells | src/app/logs/page.tsx:91-97 | five cells per log |
| LogsPage.ExportRows | src/app/logs/page.tsx:91-100 | one quoted row per filtered log, in order |
| LogsPage.ExportCellReadsBack | src/app/logs/page.tsx:99-101 | with the cell quoted but not escaped, it reads back exactly when it holds no quote |
| LogsPage.Description | src/app/logs/page.tsx:141 | the confirmation names the level if one is set, else the search, else 'semua' |
| LogsPage.Ids | src/app/logs/page.tsx:147 | one delete target per filtered log, its id, in order |
| LogsPage.LogsView.constructor | src/app/logs/page.tsx:25-26 | no level filter and an empty search |
| LogsPage.LogsView.ClickLevel | src/app/logs/page.tsx:260 | the level filter is toggled and the search kept |
| LogsPage.LogsView.SetSearch | src/app/logs/page.tsx:244 | the search is replaced and the level filter kept |
| LogsPage.LogsView.ClearFilters | src/app/logs/page.tsx:111-114 | the level filter and the search are cleared |
| LogsPage.LogsView.ClearFilteredLogs | src/app/logs/page.tsx:135-156 | nothing is asked or deleted when no log is listed; otherwise the confirmation names the filter, a confirmed call targets exactly the listed ids, and a successful batch removes exactly those from the store |
| UsersPage.FilteredUsers | src/app/users/page.tsx:14-18 | an order-keeping sublist holding exactly the contacts whose id holds the query in any case and whose status passes the filter, each as often as listed |
| UsersPage.InitialFiltersKeepAll | src/app/users/page.tsx:10-11 | the initial empty query and 'all' status list every contact |
| UsersPage.RoundedMean | src/app/users/page.tsx:24 | Math.round of the mean: within half of it, halves up; an empty list gives 0 |
| UsersPage.RoundedMeanHalfUp | src/app/users/page.tsx:24 | a whole mean m is given exactly, and a mean of m plus a half gives m + 1, negative m included |
| UsersPage.RoundedMeanUnique | src/app/users/page.tsx:24 | the rounded mean is the only integer within half of the mean |
| UsersPage.ComputeStats | src/app/users/page.tsx:20-25 | total is the number of contacts, active plus converted at most that, and the average is the rounded mean message count or 0 |
| UsersPage.ExportRowAsWritten | src/app/users/page.tsx:38-45 | six cells, the first being the display name |
| UsersPage.ExportFirstColumnIsName | src/app/users/page.tsx:37-39 | a contact whose name differs from its id is exported with the name under 'User ID' |
| UsersPage.ExportRow | src/app/users/page.tsx:37-45 | six cells, the first being the contact's id |
| UsersPage.ExportRowCorrectsFirstCell | src/app/users/page.tsx:38-45 | the corrected row differs from the written one in the first cell only |
| UsersPage.ExportRows | src/app/users/page.tsx:38-45 | one row per listed contact, in order, each the row as written with the name first |
| UsersPage.RowPlain | src/app/users/page.tsx:38-45 | a contact whose name, dates, status and last keyword hold no separator gives a written row with none, the count included |
| UsersPage.HeaderPlain | src/app/users/page.tsx:37 | no heading holds a separator |
| UsersPage.TablePlain | src/app/users/page.tsx:36-47 | for such contacts the header and the written rows together hold no separator |
| UsersPage.ExportReadsBack | src/app/users/page.tsx:36-47 | for such contacts the unquoted export splits back into the header and one line per contact, each splitting into the cells the page wrote for it, the name first |
| BroadcastRoute.AttemptOf | src/app/api/broadcast/route.ts:20-38 | a send is fulfilled exactly when the bot answered ok; a non-ok answer rejects with 'Failed to send to' and the recipient |
| BroadcastRoute.Attempts | src/app/api/broadcast/route.ts:19-39 | one settled attempt per recipient, in order |
| BroadcastRoute.ErrorsAsWritten | src/app/api/broadcast/route.ts:43-48 | one error per rejection; the i-th carries the message of the i-th rejected send and names userIds[i], the i-th recipient of the whole request |
| BroadcastRoute.ErrorsMisIndexed | src/app/api/broadcast/route.ts:45-47 | with the first recipient delivered and the second rejected, the one error names the first recipient |
| BroadcastRoute.Errors | src/app/api/broadcast/route.ts:43-48 | one error per rejection, each naming the recipient whose send was rejected, and every rejected recipient listed |
| BroadcastRoute.ErrorsFollowRejections | src/app/api/broadcast/route.ts:43-47 | the intended list's i-th message is the reason of the i-th rejected send |
| BroadcastRoute.AsWrittenKeepsMessages | src/app/api/broadcast/route.ts:43-48 | the written list has the intended list's length and the same message at every position; only the named recipient can differ |
| BroadcastRoute.AsWrittenRightWhenFailuresLead | src/app/api/broadcast/route.ts:43-48 | when all failures come before all successes the written pairing equals the intended one |
| BroadcastRoute.LeadingErrors | src/app/api/broadcast/route.ts:43-48 | with the first n sends rejected, the errors are those n recipients in order |
| BroadcastRoute.RejectedPrefix | src/app/api/broadcast/route.ts:44 | with the first n sends rejected, the rejections are exactly those n |
| BroadcastRoute.Tally | src/app/api/broadcast/route.ts:41-55 | success and failed count the fulfilled and rejected sends and add up to the total; errors are present exactly when something failed, and are then the written list pairing the i-th rejection with userIds[i] |
| BroadcastRoute.Post | src/app/api/broadcast/route.ts:4-63 | an unparsable body gives 500; a falsy message or a missing recipient array gives 400 and sends nothing; otherwise the reply is the tally over every recipient; a parsed body whose reply is not 400 is always a sent tally |
| BroadcastRoute.AllDelivered | src/app/api/broadcast/route.ts:41-54 | when every send is delivered, all succeed, none fail and no errors are listed |
| BroadcastHook.NewRecord | src/lib/hooks/useBroadcast.tsx:53-63 | the record starts as sending for the custom audience, addressed to every recipient, with nothing counted and no send time |
| BroadcastHook.Settled | src/lib/hooks/useBroadcast.tsx:82-87 | the record becomes failed when any send failed and sent otherwise, takes the tallied counts and a send time, and keeps every other field |
| BroadcastHook.SettledCountsAddUp | src/lib/hooks/useBroadcast.tsx:53-87 | for a valid request the settled record's sent and failed counts add up to its recipients, and it is sent exactly when the route listed no errors |
| BroadcastHook.History | src/lib/hooks/useBroadcast.tsx:14-18 | newest first, at most fifty records, all from the store, and all of them when there are no more than fifty |
| BroadcastHook.HistoryIsNewest | src/lib/hooks/useBroadcast.tsx:16-17 | no record left out of the history is newer than one shown |
| BroadcastHook.Broadcasts.constructor | src/lib/hooks/useBroadcast.tsx:8-10 | the given store and the flag down |
| BroadcastHook.Broadcasts.SendBroadcast | src/lib/hooks/useBroadcast.tsx:46-97 | a failed write stores nothing; a stored record stays sending when the route gives no tally, and is settled from the tally, which is returned, otherwise; the flag is down afterwards |
| BroadcastHook.StuckExactlyWhenUnanswered | src/lib/hooks/useBroadcast.tsx:53-87 | a stored record is left sending exactly when the route gave no tally, and then it has counted nothing and has no send time |
| BroadcastPage.Audience | src/app/broadcast/page.tsx:29-35 | the contacts in the audience, in order and each as often as listed (the filter of the list): everyone for 'all', the selected ids for 'custom', else the contacts of that status |
| BroadcastPage.UserIds | src/app/broadcast/page.tsx:59 | the contacts' ids, one per contact, in order |
| BroadcastPage.RecipientCountMatches | src/app/broadcast/page.tsx:37-40 | the count in the confirmation equals the number of ids sent to, and outside custom mode every id sent to is a contact of the audience |
| BroadcastPage.Toggle | src/app/broadcast/page.tsx:77-83 | the box's id flips in or out of the selection, no other id changes, and a selection stays free of repeats |
| BroadcastPage.DropKeepsDistinct | src/app/broadcast/page.tsx:80 | unticking keeps a repeat-free selection repeat-free |
| BroadcastPage.ToggleTwice | src/app/broadcast/page.tsx:77-83 | ticking and unticking a box restores the selection |
| BroadcastPage.SelectAllAddsNobody | src/app/broadcast/page.tsx:85-87 | in custom mode, where the button is shown, the written 'select all' selects no one not already selected |
| BroadcastPage.SelectAllFromNothing | src/app/broadcast/page.tsx:85-87 | from an empty selection the written 'select all' selects no one |
| BroadcastPage.SelectAll | src/app/broadcast/page.tsx:85-87 | every contact listed in the panel becomes selected, and nothing else |
| BroadcastPage.BroadcastForm.constructor | src/app/broadcast/page.tsx:22-26 | empty message, audience 'all', nothing selected, no result |
| BroadcastPage.BroadcastForm.ToggleUserSelection | src/app/broadcast/page.tsx:77-83 | the selection becomes its toggle and nothing else changes |
| BroadcastPage.BroadcastForm.SelectAllUsers | src/app/broadcast/page.tsx:85-87 | the selection becomes the ids of the audience shown, as written; in custom mode no contact not already selected becomes selected |
| BroadcastPage.BroadcastForm.DeselectAll | src/app/broadcast/page.tsx:89-91 | the selection is emptied and nothing else changes |
| BroadcastPage.BroadcastForm.HandleSendBroadcast | src/app/broadcast/page.tsx:42-75 | nothing is sent exactly when the message is blank, there is no recipient or the confirmation is declined; otherwise the recipients are sent to, the result shown, and message and selection cleared only when nothing failed |
| Consultations.FilterFor | src/app/consultations/page.tsx:115 | 'All' sets no filter and every other label sets its lowered name |
| Consultations.LowerCapitalised | src/app/consultations/page.tsx:115 | lowering a capitalised word lowers its first letter only |
| Consultations.LowerInjective | src/app/consultations/page.tsx:118 | two capitalised words that lower alike are the same |
| Consultations.LabelsCapitalised | src/app/consultations/page.tsx:112 | every filter label is a capitalised word |
| Consultations.ClickHighlightsOne | src/app/consultations/page.tsx:112-118 | after a click on a label, exactly that label's button is highlighted |
| Consultations.FiltersAreStatuses | src/app/consultations/page.tsx:112-115 | the filters the labels set are none and the five row statuses, in order |
| Consultations.LowerPending | src/app/consultations/page.tsx:115 | 'Pending' lowers to 'pending' |
| Consultations.LowerContacted | src/app/consultations/page.tsx:115 | 'Contacted' lowers to 'contacted' |
| Consultations.LowerWon | src/app/consultations/page.tsx:115 | 'Won' lowers to 'won' |
| Consultations.LowerLost | src/app/consultations/page.tsx:115 | 'Lost' lowers to 'lost' |
| Consultations.LowerClosed | src/app/consultations/page.tsx:115 | 'Closed' lowers to 'closed' |
| Consultations.ComputeStats | src/app/consultations/page.tsx:28-33 | total is the number of consultations, and pending, contacted and won add up to at most that |
| Consultations.ConsultationsPage.constructor | src/app/consultations/page.tsx:11-13 | no filter and no row being updated |
| Consultations.ConsultationsPage.ClickFilter | src/app/consultations/page.tsx:115 | the filter becomes the label's filter and the store is unchanged |
| Consultations.ConsultationsPage.UpdateStatus | src/app/consultations/page.tsx:15-26 | a successful write changes exactly that document's status; a failed one or a missing document changes nothing; no row is being updated afterwards |
| Consultations.DisabledExactlyWhenNoChange | src/app/consultations/page.tsx:195 | while its row is not being updated, a status button is disabled exactly when its write would leave the store as it is |
| Api.Pow2 | src/lib/utils/api.ts:44 | Math.pow(2, i) is at least one |
| Api.RetryAsWritten | src/lib/utils/api.ts:16-48 | the loop makes at least one and at most maxRetries attempts, and at its bound throws the last error or 'Max retries reached' |
| Api.WrittenUnfold | src/lib/utils/api.ts:29-44 | an attempt that is not ok, other than a caught error on the last attempt, records its error, waits its backoff (none after a server error) and goes on with the next attempt |
| Api.WrittenEnds | src/lib/utils/api.ts:24-40 | an ok answer, or a 4xx answer or failure on the last attempt, ends the call at that attempt with no further wait |
| Api.ClientErrorRetriedAt | src/lib/utils/api.ts:28-44 | a 4xx answer before the last attempt is waited on for retryDelay times 2 to the attempt's index and retried with the client error recorded; on the last attempt it is thrown |
| Api.ClientErrorRetried | src/lib/utils/api.ts:28-41 | a 404 answer is caught, waited on and retried, and a following ok answer is returned after two attempts |
| Api.FetchWithRetry | src/lib/utils/api.ts:8-49 | the loop's result, number of fetches and waits are those of the written retry from the first attempt |
| Api.NoAttempts | src/lib/utils/api.ts:16-48 | with no attempt allowed nothing is fetched and 'Max retries reached' is thrown |
| Api.FirstOkReturned | src/lib/utils/api.ts:24-26 | the first ok answer is returned after exactly that attempt, whatever failed before it |
| Api.NoOkThrows | src/lib/utils/api.ts:16-48 | without an ok answer within the allowed attempts the call throws |
| Api.WaitsBackoff | src/lib/utils/api.ts:35-44 | the call waits retryDelay times 2 to the attempt's index after each failed fetch or 4xx answer except the last attempt made, and never after a server error |
| Api.LastServerErrorThrown | src/lib/utils/api.ts:33-48 | when every attempt gets a server error, the last one's 'Server error' text is thrown after maxRetries attempts with no wait |
| Api.Retry | src/lib/utils/api.ts:16-48 | the loop with client errors not retried makes at least one and at most maxRetries attempts, and at its bound throws the last error or 'Max retries reached' |
| Api.RetryUnfold | src/lib/utils/api.ts:34-44 | in the intended loop a server error, or a failure before the last attempt, records its error, waits its backoff and goes on with the next attempt |
| Api.RetryEnds | src/lib/utils/api.ts:24-40 | in the intended loop an ok answer, a 4xx answer, or a failure on the last attempt ends the call at that attempt |
| Api.SameEndAsNext | src/lib/utils/api.ts:34-44 | in the intended loop an attempt that meets a server error, or fails before the last attempt, leaves the call's end and its number of fetches to the attempts after it |
| Api.ClientErrorStops | src/lib/utils/api.ts:28-31 | in the intended loop the first 4xx answer, with only server errors or failures before it, is thrown as 'Client error' after exactly that attempt |
| Api.AgreesWithoutClientErrors | src/lib/utils/api.ts:16-48 | where no 4xx answer comes the intended loop and the written one give the same result, attempts and waits |
| Api.CheckBotHealth | src/lib/utils/api.ts:54-70 | online exactly when the two-attempt fetch returns a response whose body reports 'healthy'; the body comes back exactly when a response came and parsed |
| Api.HealthOfflineWhenUnreachable | src/lib/utils/api.ts:59-68 | two network failures leave the bot offline after one one-second wait |
| Api.HealthOnlineWhenOkWithinTwo | src/lib/utils/api.ts:59-65 | an ok answer on either of the two attempts, a 4xx answer before it or not, with a healthy body reads online |
| Api.FormatErrorMessage | src/lib/utils/api.ts:86-94 | an Error gives its message, a string itself, anything else 'An unknown error occurred' |
| Api.FormatsRetryError | src/lib/utils/api.ts:86-89 | what the retrying fetch throws formats to its own message |

## Left out

- The document store's subscriptions and queries (`onSnapshot`, `getDocs`, the `limit` and `where` clauses of useMessages, useUsers, useConsultations, useSystemLogs, useStats and useBotConfig): their result arrives as a parameter. useBroadcast's `orderBy` and `limit(50)` query is the one kept, as `BroadcastHook.History`.
- Listener set-up and tear-down: foreign subscription primitives with no logic of their own.
- Server timestamps: `serverTimestamp()` becomes an integer `now` parameter. A pending timestamp that reads back as null is modelled as `createdAt` defaulting to the read time (`UserManagement.ToRow`).
- The identity provider's sign-in, sign-up and sign-out calls, and `resetPassword`: foreign calls. Each becomes a done / failed outcome parameter.
- `router.push`: a navigation is the path returned.
- `fetch`, the bot's `/api/send-message` endpoint, `BOT_URL` and the authorisation header: network I/O. Each attempt's outcome is an input sequence.
- The `Promise.allSettled` and `Promise.all` fan-out: concurrency. The route's sends are tallied in recipient order.
- `LogsPage.LogsView.ClearFilteredLogs`: a batch whose deletes partly succeed before one fails is modelled as deleting nothing, because the model has one outcome per batch.
- `clearLogs` on the logs page: it deletes the whole collection through foreign calls after a `confirm`, and has no logic beyond `ClearFilteredLogs`.
- `BroadcastHook.Broadcasts.SendBroadcast`: the `updateDoc` the hook issues without awaiting is modelled as applied before the hook returns.
- `BroadcastHook.Broadcasts.SendBroadcast`: the `sending` flag is raised during the call. The model states only that the flag is down after every path, since nothing observes the intermediate state.
- `setTimeout` waits: the retry delays are returned as values (`Api.Run.waits`) rather than elapsed time.
- `JSON.parse`, `safeJsonParse` (src/lib/utils/api.ts:75-81) and `response.json()`: foreign parsing. A body is given already parsed or as unparsable.
- `Api.CheckBotHealth`: a null or non-object body is folded into `Unparsable`.
- `BroadcastRoute.Post`: a message that is a truthy non-string JSON value is not distinguished from a non-empty string.
- Clock and time zones: `new Date()`, `toLocaleString` with `timeZone`, the date-range arithmetic of the keyword hooks, `toISOString` and `toLocaleDateString`. The current hour, day and date strings, and the date formatters, are parameters.
- `Analytics.GetDailyData`: rows keep the stored `date` string rather than a locale-formatted one.
- Floating-point rates and percentages (`toFixed`, `parseFloat`, the analytics growth and conversion percentages and their display thresholds, the keywords page's average rate): the model keeps zero cases and integer cross-multiplied comparisons.
- `KeywordsPage.RateText`: the export's one-decimal rate is the exactly rounded tenth, not binary floating-point `toFixed`.
- `UsersPage.RoundedMean`: the mean is exact, ignoring floating-point error in the division for very large sums.
- Unicode `toLowerCase` and `trim`: case folding and whitespace are modelled for ASCII only.
- `Text.LexLe`, `AllMessages.UniqueKeywords`: strings are compared by Unicode scalar value. JavaScript's `<` and the default `sort` compare UTF-16 code units. The two orders differ only where the first difference sets a character above U+FFFF against one in U+E000 to U+FFFF.
- `ConfigValue.ApplyUpdate`: the dotted keys of an update are written one after another in a listed order. The store applies them together; the two agree when no key's path runs through another's, as holds for the working-hours save.
- `Grouping`: object keys always iterate in insertion order here. JavaScript lists integer-like keys first, in ascending order; a keyword such as "2024" would be listed earlier in the source. Inherited properties of plain objects are not modelled either.
- `HourlyActivityHook.HourlyActivityState.FetchHourly`: a stored hour outside 0..23 is ignored. In the source an integer hour past 23 writes NaN past the end of the array and lengthens the chart; a negative or fractional hour adds a property that `map` skips.
- `MessagesConfiguration.Prefill`, `MessagesConfiguration.EnabledOf`, `MessagesConfiguration.HourOf`, `MessagesConfiguration.TimezoneOf`, `MessagesConfiguration.DaysOf`: a stored working-hours field of the wrong type takes the default; in the source `??` keeps any non-null value, whatever its type.
- `MessagesConfiguration.HoursForm`, `MessagesConfiguration.HoursError`, `MessagesConfiguration.ConfigurationPage.SaveWorkingHours`: the hours are integers. In the source an hour input is `parseInt` of the field's text (src/app/messages-configuration/page.tsx:476-481), so a cleared field gives NaN; `NaN >= end` is false, the validation passes, and NaN is written as the hour. The model does not capture that path.
- The keywords page's in-place re-sort while rendering its table (src/app/keywords/page.tsx:329): a React render effect.
- Rendering, JSX, charts, CSS, icons and colour pickers (`getStatusColor`, `getLevelIcon`, `getLevelColor`, `getStatusIcon`), `alert`, Blob downloads and `window.location.reload`. `confirm` is a boolean parameter.
- Pages and components without logic: the layout, sidebar, stat card, settings, privacy and landing pages, and the constants file. Of `src/types/index.ts` only the record shapes are used.

## Findings

| source | as written | input that shows it | evidently intended | confidence | as-written member | corrected member |
|---|---|---|---|---|---|---|
| src/lib/utils/api.ts:28-41 | a 4xx answer is thrown inside the `try`, caught by its own `catch` and retried like a network failure | outcomes 404, 200, 200 with `maxRetries` 3: the 404 is waited on for 1000 ms and the call returns the 200 after two attempts | "For 4xx errors, don't retry": the client error is thrown after the attempt that met it | not executed | Api.ClientErrorRetried | Api.ClientErrorStops |
| src/app/api/broadcast/route.ts:43-48 | the i-th rejected send is reported with `userIds[i]`, the i-th recipient of the whole request | recipients "6281" (delivered) and "6282" (not ok): the one error names "6281" with the message "Failed to send to 6282" | each error names the recipient whose send was rejected | not executed | BroadcastRoute.ErrorsMisIndexed | BroadcastRoute.Errors |
| src/app/broadcast/page.tsx:85-87 | "Select All" sets the selection to `filteredUsers`, which in custom mode (the only mode showing the button) are the users already selected | custom mode with no user selected: "Select All" selects no one | every user listed in the selection panel becomes selected | not executed | BroadcastPage.SelectAllAddsNobody | BroadcastPage.SelectAll |
| src/app/users/page.tsx:37-39 | the export's first column, headed "User ID", holds `user.name` | a contact with id "u1" and name "Budi" is exported as "Budi" under "User ID" | the column holds the contact's id | not executed | UsersPage.ExportFirstColumnIsName | UsersPage.ExportRow |

The operations follow the code as written; each corrected member stands beside them with its intended property proved:

- `Api.FetchWithRetry` and `Api.CheckBotHealth` run on `Api.RetryAsWritten`; `Api.Retry` is the loop that stops at a 4xx answer.
- `BroadcastRoute.Tally` lists `BroadcastRoute.ErrorsAsWritten`; `BroadcastRoute.Errors` pairs each rejection with its own recipient.
- `BroadcastPage.BroadcastForm.SelectAllUsers` applies `BroadcastPage.SelectAllAsWritten`; `BroadcastPage.SelectAll` selects every listed contact.
- `UsersPage.ExportRows` builds rows with `UsersPage.ExportRowAsWritten`; `UsersPage.ExportRow` puts the id first.

`Api.AgreesWithoutClientErrors`, `BroadcastRoute.AsWrittenRightWhenFailuresLead` and `UsersPage.ExportRowCorrectsFirstCell` show that each correction changes nothing beyond the case at fault, and `BroadcastRoute.AsWrittenKeepsMessages` that the written error list has the right messages in the right order.

Two more behaviours are faithful to the code but easy to miss, so the model states them as lemmas:

- `MessagesEditor.LongPathDropped`: the message editor silently drops an edit whose path has more than three segments.
- `AuthContext.HasPermissionIgnoresApproval`: `hasPermission` ignores approval.
