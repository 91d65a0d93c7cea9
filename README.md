# GLINT report dashboard, modelled in Dafny

GLINT is a web client that talks to a remote reporting API. Signed-in staff write reports with
content blocks and attachments. Managers move the reports through a two-stage approval: a deputy
general manager (DGM) reviews first, then a general manager (GM). An admin manages users. The
client never decides a report's next status: it sends a decision (approve, request changes,
needs revision) and the server applies it.

This project models the logic of that client:

- `api.dfy` (module `Api`), for `lib/api.ts`: the wire types, role names, and `handleResponse`.
  It covers the fetch `ok` range, the 204 case, the server's `error` message, the
  `Request failed with status N` fallback, and the TypeError raised when the error body is JSON
  `null`.
- `update_report_status_modal.dfy` (module `StatusModal`): the decision modal.
  - The ordered validation: first the missing comment, then the DGM status gate, then the GM
    status gate.
  - The payload, with its trimmed optional comment.
  - The form state `handleSubmit` leaves behind.
- `reports_page.dfy` (module `ReportsPage`): the reports page.
  - The role-dependent filter of the fetched list.
  - Loading the user.
  - The effect that fetches reports once a role is known.
  - The dispatch of a decision to the GM or DGM endpoint, followed by a re-fetch, kept as a log
    of API calls.
- `report_form.dfy` (module `ReportForm`): the report draft editor.
  - It appends and removes attachments and content blocks by index.
  - `handleChange` on the two named inputs.
  - Submission.
- `auth_guard.dfy` (module `AuthGuard`): the route guard, that is, the redirect effect and the
  render rule.
- `sidebar.dfy` (module `Sidebar`): the navigation links by role, the active-link rule, the role
  fetch, and logout.
- `subsidiary_colors.dfy` (module `SubsidiaryColors`): the theme table and the subsidiary list.
- `theme_provider.dfy` (module `ThemeProvider`): normalising a subsidiary name to a theme key,
  the CSS variables, and the provider's state.
- `user_list.dfy` (module `UserList`): the role label and the choice between the loading view,
  the empty view and the table.
- Helper modules:
  - `Wrappers`: `Option`.
  - `Seqs`: JavaScript `filter`, with the index filter used for removal, and subsequences.
  - `Text`: ECMAScript `trim` and `\s`, ASCII `toLowerCase`/`toUpperCase`, and the decimal
    rendering of a number.
  - `Session`: `sessionStorage` as a map.

Components that keep React state are classes. Each `useState` value is a field, and each
handler is a method with a `modifies` clause whose `ensures` states the whole new state. An
`await` of a remote call, and the way it settles, becomes a method parameter; such parameters
include the `RemoteOutcome`, the `FetchResult` and the `StoredUser`. The rules the handlers apply
are pure functions. Lemmas about those functions state what the screens promise.

JavaScript truthiness is written out where the source relies on it: the empty string is falsy
for tokens, user ids, subsidiary names, comments and attachment fields.

Two facts about the code decide what the model gates and what it leaves out:

- The modal gates only the DGM and the GM by report status. An admin, a developer and a missing
  role pass `Validate` from any status (app/dashboard/_components/UpdateReportStatusModal.tsx:41-49).
- `ReportList` declares neither `userRole` nor `onStatusUpdate`
  (app/dashboard/_components/ReportList.tsx:17-23), although the page passes both
  (app/dashboard/reports/page.tsx:123-129). So no per-row action rule exists to model, and the
  report list never opens the decision modal.

## Model

| member | source | states |
|---|---|---|
| `Api.ParseRole` | lib/api.ts:1 | a wire string denotes a role exactly when it is one of the four role names, and then names that role |
| `Api.RoleNameRoundTrip` | lib/api.ts:1 | every role's wire name is one of the four names and parses back to that role |
| `Api.HandleResponse` | lib/api.ts:87-97 | only a 2xx response resolves; a non-2xx response rejects with an Error unless its body is JSON `null` (then the property read throws); 204 resolves with `{}` and reads no body; otherwise the parsed body, or a parse failure |
| `Api.NoContentIgnoresBody` | lib/api.ts:93-95 | two 204 responses resolve identically, whatever their bodies |
| `Api.ServerMessageWins` | lib/api.ts:88-90 | a non-2xx response whose body has a non-empty string `error` rejects with exactly that message |
| `Api.FallbackNamesStatus` | lib/api.ts:90 | without a server message, the Error's message is `Request failed with status ` followed by digits that read back as the status |
| `Text.TrimEmptyIff` | app/dashboard/_components/UpdateReportStatusModal.tsx:35 | `comment.trim()` is empty exactly when the comment is all ECMAScript whitespace |
| `Text.TrimIsCore` | app/dashboard/_components/UpdateReportStatusModal.tsx:56 | the trimmed comment is a contiguous slice of the input, with only whitespace before and after it and no whitespace at either of its ends |
| `Text.TrimIdempotent` | app/dashboard/_components/UpdateReportStatusModal.tsx:56 | trimming a trimmed string changes nothing |
| `Text.NormaliseIgnoresWhitespace` | components/ThemeProvider.tsx:31 | inserting a run of whitespace anywhere in a name does not change its lower-cased, whitespace-free key |
| `Text.DecimalRoundTrip` | lib/api.ts:90 | the decimal rendering of a status reads back as that status |
| `Seqs.FilterIsSubsequence` | app/dashboard/reports/page.tsx:37 | a filtered list keeps elements of the original in their original order |
| `Seqs.FilterCounts` | app/dashboard/reports/page.tsx:41 | a filter keeps each element that satisfies the predicate exactly as often as it occurs, and drops every other |
| `Seqs.DropIndexSplices` | app/dashboard/_components/ReportForm.tsx:59 | the index filter removes exactly the element at an in-range index and leaves any other list unchanged |
| `StatusModal.Validate` | app/dashboard/_components/UpdateReportStatusModal.tsx:35-49 | the comment check fails exactly for a change or revision request with a blank comment; a DGM fails exactly on a status other than submitted or needs_revision, and a GM exactly on one other than dgm_approved or gm_approved, once the comment check passes; no other role is gated; approval never needs a comment |
| `StatusModal.BuildPayload` | app/dashboard/_components/UpdateReportStatusModal.tsx:54-57 | the payload keeps the action; it carries a comment exactly when the typed comment is not blank, and then the trimmed comment |
| `StatusModal.ValidDecisionCarriesComment` | app/dashboard/_components/UpdateReportStatusModal.tsx:35-57 | a request for changes or revision that passes validation always sends a comment |
| `StatusModal.PayloadCommentIsTrimmed` | app/dashboard/_components/UpdateReportStatusModal.tsx:56 | a sent comment is non-empty, has no whitespace at its ends, and is the typed comment with only its surrounding whitespace removed |
| `StatusModal.PayloadCommentStable` | app/dashboard/_components/UpdateReportStatusModal.tsx:56 | building the payload again from the sent comment gives the same payload |
| `StatusModal.UpdateReportStatusModal.constructor` | app/dashboard/_components/UpdateReportStatusModal.tsx:22-25 | the form starts on approve, an empty comment, not submitting and no error |
| `StatusModal.UpdateReportStatusModal.SetAction` | app/dashboard/_components/UpdateReportStatusModal.tsx:99 | the selector sets the action and nothing else |
| `StatusModal.UpdateReportStatusModal.SetComment` | app/dashboard/_components/UpdateReportStatusModal.tsx:116 | the text area sets the comment and nothing else |
| `StatusModal.UpdateReportStatusModal.HandleSubmit` | app/dashboard/_components/UpdateReportStatusModal.tsx:30-68 | without a report, nothing happens; a failed check shows its exact message and sends nothing; a valid decision is sent once with the built payload and isGM; on success the modal closes and the form resets, on failure the rejection's message (or the generic one) is shown and the form is kept; submitting ends false |
| `ReportsPage.ReportsAfterFetch` | app/dashboard/reports/page.tsx:31-51 | a failed call or a non-array answer leaves an empty list |
| `ReportsPage.GeneralManagerSees` | app/dashboard/reports/page.tsx:36-38 | a GM sees exactly the dgm_approved and gm_approved reports, each as often as fetched |
| `ReportsPage.DeveloperSeesOwn` | app/dashboard/reports/page.tsx:39-42 | a developer with an id sees exactly the reports whose developer_id is theirs, each as often as fetched |
| `ReportsPage.DeveloperWithoutIdSeesNothing` | app/dashboard/reports/page.tsx:43-45 | a developer without an id sees no report |
| `ReportsPage.OtherRolesSeeAll` | app/dashboard/reports/page.tsx:46-48 | admins, DGMs and users with no role see the fetched list unchanged |
| `ReportsPage.VisibleIsSubsequence` | app/dashboard/reports/page.tsx:36-48 | for every role, the shown list is the fetched list with some reports left out and the order kept |
| `ReportsPage.GeneralManagerFilterStable` | app/dashboard/reports/page.tsx:37 | a list of GM-stage reports is shown to a GM whole |
| `ReportsPage.ReportsPage.constructor` | app/dashboard/reports/page.tsx:17-24 | the page starts with no reports, loading, with no role, no id and no call made |
| `ReportsPage.ReportsPage.FetchReports` | app/dashboard/reports/page.tsx:26-55 | one list call is made, the shown list becomes the role-filtered result, or empty on any failure, and loading ends |
| `ReportsPage.ReportsPage.LoadUser` | app/dashboard/reports/page.tsx:58-70 | with a non-empty token, one `me` call is made, and on success the role and id are taken from it; otherwise the role and id are kept |
| `ReportsPage.ReportsPage.OnUserChanged` | app/dashboard/reports/page.tsx:73-77 | reports are fetched exactly when a role is known |
| `ReportsPage.ReportsPage.HandleSubmitStatusUpdate` | app/dashboard/reports/page.tsx:94-101 | the GM endpoint is called exactly when isGM, the DGM endpoint otherwise; the list is re-fetched only after the call succeeds; the call's outcome is passed back |
| `ReportForm.WithField` | app/dashboard/_components/ReportForm.tsx:38-41 | the named input's field takes the value; the other field, the content and the attachments are unchanged |
| `ReportForm.RemoveByIndex` | app/dashboard/_components/ReportForm.tsx:59 | removal by an in-range index shortens the list by one and shifts the later elements down in order; an index out of range changes nothing |
| `ReportForm.ReportForm.constructor` | app/dashboard/_components/ReportForm.tsx:27-36 | the draft starts as the initial data, with no error, an empty block text and a blank document draft |
| `ReportForm.ReportForm.Default` | app/dashboard/_components/ReportForm.tsx:20-27 | a form given no initial data starts from the empty draft (empty title and body, no blocks, no attachments), with no error, an empty block text and a blank document draft |
| `ReportForm.ReportForm.HandleChange` | app/dashboard/_components/ReportForm.tsx:38-41 | the draft becomes the old draft with only the named field replaced |
| `ReportForm.ReportForm.SetNewAttachment` | app/dashboard/_components/ReportForm.tsx:188-213 | the attachment draft takes the edited value |
| `ReportForm.ReportForm.SetNewContentText` | app/dashboard/_components/ReportForm.tsx:147 | the block text takes the edited value |
| `ReportForm.ReportForm.AddAttachment` | app/dashboard/_components/ReportForm.tsx:43-54 | a draft with an empty name or url only sets the required-fields error; otherwise a copy is appended, the draft is reset to a blank document and the error is cleared |
| `ReportForm.ReportForm.RemoveAttachment` | app/dashboard/_components/ReportForm.tsx:56-61 | only the attachment at the index is removed; title, body and content are unchanged |
| `ReportForm.ReportForm.AddContentBlock` | app/dashboard/_components/ReportForm.tsx:63-75 | empty text changes nothing; otherwise one "Section" text block with that markdown is appended and the text is cleared |
| `ReportForm.ReportForm.RemoveContentBlock` | app/dashboard/_components/ReportForm.tsx:77-82 | only the block at the index is removed; title, body and attachments are unchanged |
| `ReportForm.ReportForm.HandleSubmit` | app/dashboard/_components/ReportForm.tsx:84-95 | the draft is sent as it stands; a rejection shows its message, or the generic one; submitting ends false |
| `Session.GetItem` | components/AuthGuard.tsx:14 | models the browser's `sessionStorage.getItem`, which this call relies on: a key yields its stored value exactly when it is stored, and null otherwise |
| `Session.SessionStore.constructor` | components/AuthGuard.tsx:14 | the store holds the given entries |
| `Session.SessionStore.RemoveItem` | app/dashboard/_components/Sidebar.tsx:35 | the key is removed and every other entry is kept |
| `AuthGuard.EffectDecision` | components/AuthGuard.tsx:13-22 | the effect redirects exactly when there is no token and the path is not public, and then to the login page |
| `AuthGuard.AuthorizedAfter` | components/AuthGuard.tsx:17-21 | after the effect, the guard is authorized exactly when it already was, or a token is present, or the path is public |
| `AuthGuard.ShowsChildren` | components/AuthGuard.tsx:25-29 | children are shown on a public path or once authorized, and hidden on a protected path while unauthorized |
| `AuthGuard.PublicPathsExact` | components/AuthGuard.tsx:6 | the public paths are exactly `/` and `/signup` |
| `AuthGuard.RedirectTargetIsPublic` | components/AuthGuard.tsx:18 | the redirect target is public, so it neither redirects again nor hides its content |
| `AuthGuard.FirstRender` | components/AuthGuard.tsx:11-27 | on the first render the guard shows a path exactly when the path is public |
| `AuthGuard.LoggedOutIsRedirected` | components/AuthGuard.tsx:14-18 | once the token is removed, every protected path redirects to the login page |
| `AuthGuard.AuthorizationIsSticky` | components/AuthGuard.tsx:20 | a guard once authorized stays authorized after the token is removed, so it keeps showing protected content while its effect asks for the redirect |
| `AuthGuard.AuthGuard.constructor` | components/AuthGuard.tsx:11 | the guard starts unauthorized |
| `AuthGuard.AuthGuard.RunEffect` | components/AuthGuard.tsx:13-22 | the effect reads the stored token, asks for the redirect exactly when the decision is a redirect, and updates the authorization as `AuthorizedAfter` says |
| `AuthGuard.AuthGuard.Render` | components/AuthGuard.tsx:25-29 | the children render exactly as `ShowsChildren` says |
| `Sidebar.LinksByRole` | app/dashboard/_components/Sidebar.tsx:39-57 | an admin gets five links and anyone else four; the base links come first and Profile last; User Management appears exactly for an admin |
| `Sidebar.HrefsDistinct` | app/dashboard/_components/Sidebar.tsx:39-57 | no two links share an href |
| `Sidebar.AtMostOneActive` | app/dashboard/_components/Sidebar.tsx:71 | at most one link is highlighted for any pathname |
| `Sidebar.Sidebar.constructor` | app/dashboard/_components/Sidebar.tsx:17 | the sidebar starts with no role |
| `Sidebar.Sidebar.FetchUserRole` | app/dashboard/_components/Sidebar.tsx:19-32 | the server is asked exactly when a non-empty token is stored; its role is kept when the call succeeds, and otherwise the role is unchanged |
| `Sidebar.Sidebar.HandleLogout` | app/dashboard/_components/Sidebar.tsx:34-37 | the token is removed from the session, every other entry is kept, and the browser goes to `/` |
| `SubsidiaryColors.ThemeKeys` | lib/subsidiaryColors.ts:10-49 | the themed keys are exactly default, techcorp, greenenergy and redsteel, and the default theme is the one stored under default |
| `SubsidiaryColors.SubsidiariesHaveThemes` | lib/subsidiaryColors.ts:57-78 | every listed subsidiary id has a theme, and no id is listed twice |
| `SubsidiaryColors.KeysAreNormalised` | lib/subsidiaryColors.ts:10-47 | every theme key is already in normal form (lower case, no whitespace) |
| `ThemeProvider.ThemeFor` | components/ThemeProvider.tsx:28-35 | the corrected theme choice always yields a theme of the table: the default for an absent or empty name or a key the table lacks, and otherwise the table entry for the name's key |
| `ThemeProvider.SubsidiaryKeyIdempotent` | components/ThemeProvider.tsx:31 | normalising a key again changes nothing |
| `ThemeProvider.KeySelectsItsTheme` | components/ThemeProvider.tsx:31-32 | each table key given as a name selects its own theme |
| `ThemeProvider.SubsidiaryIdSelectsItsTheme` | components/ThemeProvider.tsx:31-32 | each listed subsidiary id selects the theme stored under it |
| `ThemeProvider.SubsidiaryNameSelectsItsTheme` | components/ThemeProvider.tsx:31-32 | each listed subsidiary's display name ("EIB Group", "TechCorp", "GreenEnergy", "RedSteel") selects the theme stored under its id |
| `ThemeProvider.ThemeIgnoresCase` | components/ThemeProvider.tsx:31 | a name typed in upper case selects the same theme |
| `ThemeProvider.ThemeIgnoresWhitespace` | components/ThemeProvider.tsx:31 | a run of whitespace inserted anywhere in a name does not change the theme |
| `ThemeProvider.SameKeySameTheme` | components/ThemeProvider.tsx:29-32 | any two names with the same key select the same theme; the empty name and an all-whitespace name both reach the default |
| `ThemeProvider.InheritedAreNotKeys` | components/ThemeProvider.tsx:32 | the inherited members reachable by a normalised key, `constructor` and `__proto__`, are not keys of the table |
| `ThemeProvider.InheritedMemberIsNotATheme` | components/ThemeProvider.tsx:32 | a name whose key is an inherited member makes the code as written apply that member, and makes the corrected choice apply the default |
| `ThemeProvider.ConstructorIsNotATheme` | components/ThemeProvider.tsx:32 | for the name "constructor", the lookup as written applies something that is not a theme |
| `ThemeProvider.CorrectedAgreesOnThemes` | components/ThemeProvider.tsx:32 | wherever the lookup as written yields a theme, the corrected one yields the same theme |
| `ThemeProvider.ThemeProvider.constructor` | components/ThemeProvider.tsx:14-15 | the provider starts on the default theme, not mounted, with the style untouched |
| `ThemeProvider.ThemeProvider.ApplyTheme` | components/ThemeProvider.tsx:17-26 | the six CSS variables take the theme's colours, other style properties are kept, and the theme becomes the state |
| `ThemeProvider.ThemeProvider.SetTheme` | components/ThemeProvider.tsx:28-35 | the theme the corrected choice `ThemeFor` selects is applied, with the CSS variables set to its colours |
| `ThemeProvider.ThemeProvider.Mount` | components/ThemeProvider.tsx:37-52 | the provider is mounted and applies the corrected choice for the stored user's subsidiary, or the default when no user is stored or it cannot be read |
| `UserList.UnderscoresToSpaces` | app/dashboard/_components/UserList.tsx:59 | every underscore becomes a space and every other character is kept |
| `UserList.RoleLabelShape` | app/dashboard/_components/UserList.tsx:59 | the label has one character per role character, a space for each underscore and the upper-case form of every other, so no underscore is left |
| `UserList.RoleLabelsDistinct` | app/dashboard/_components/UserList.tsx:59 | the four roles get four different labels |
| `UserList.Rows` | app/dashboard/_components/UserList.tsx:52-77 | one row per user, in order |
| `UserList.SelectView` | app/dashboard/_components/UserList.tsx:26-36 | loading wins; otherwise an empty list shows the empty view, and any other list shows a table with one row per user |

## Left out

- Rendering: JSX, CSS classes, icons, modal titles and the role captions shown in the modal are
  not modelled, because they are markup with no logic to prove.
- Network, time and concurrency: `fetch`, the base URL, headers and the `async` interleaving of
  React effects are not modelled. Each remote call becomes a parameter giving how it settles.
  The order of state updates within one handler is kept, but batching and re-renders are left
  out.
- `gmDecision`, `dgmDecision` and the `DgmDecisionPayload` type are not part of this model. The
  page calls the two functions (app/dashboard/reports/page.tsx:96-98). The page and the modal
  import the type (page.tsx:5, UpdateReportStatusModal.tsx:4). Nothing in the source defines any
  of the three. Decisions are kept as entries of the page's call log, and the payload as
  `StatusModal.DecisionPayload`.
- `auth.me` (lib/api.ts:146-153) answers with an untyped `Record<string, unknown>`. Only the
  `role` and `id` members that its callers read are modelled.
- The API wrappers other than `handleResponse` (users, auth, reports.list/create) only build
  requests. They are not modelled beyond the call log.
- Api.HandleResponse: an `error` member that is truthy but not a string (a number, an object)
  is treated as no message. The source would throw with that value as the message.
- ReportsPage.ReportsPage.LoadUser: the `as UserRole` cast is taken at its word. The `me`
  result carries a role of the enum, so a server role outside the four names is not modelled.
- Sidebar.Sidebar.FetchUserRole: the role field of the `me` answer is a parameter. A missing
  role field, which the source would store as `undefined`, is modelled as a failed call.
- Text.ToLower, Text.ToUpper: only ASCII letters are case-mapped. Unicode case mapping is
  not modelled.
- Date formatting (`toLocaleDateString`) in the user table is not modelled, because it depends
  on the locale. Rows keep the raw timestamp.
- `ReportForm`: the `initialData` prop with missing `content` or `attachments` lists is not
  modelled. Its only supplier is the default draft, where both lists are present. Of a content
  block's free-form `value`, only `markdown` is represented, and `items` is left out.
- The page's `handleCreateReport`, `handleViewReport` and `handleStatusUpdate` only set the
  selected report and modal flags, or call `reports.create` and `fetchReports`. The report list
  never calls `onStatusUpdate`, so the selected-report state is left out.
- `useTheme` only raises an error outside the provider. It is a context lookup, not modelled.
- Exceptions thrown by `JSON.parse` in the theme provider are folded into `UnreadableUser`.
- ThemeProvider.ThemeProvider.SetTheme, ThemeProvider.ThemeProvider.Mount: the class applies the
  corrected choice `ThemeProvider.ThemeFor`. For a name whose key is `constructor` or `__proto__`
  (such as "Con structor"), the code as written applies the inherited `Object.prototype` member
  to the CSS variables and the theme state (components/ThemeProvider.tsx:32-34). The class
  applies the default theme instead. `ThemeProvider.SetThemeAsWritten` states what the code as
  written applies (see Findings).

## Findings

| source | as written | input that shows it | evidently intended | confidence | as-written member | corrected member |
|---|---|---|---|---|---|---|
| components/ThemeProvider.tsx:32 | `SUBSIDIARY_THEMES[subsidiaryKey]`, with a logical-or fallback to `DEFAULT_THEME`, indexes a plain object literal, so a key naming an inherited `Object.prototype` member finds that member; it is truthy, so the fallback does not apply and a non-theme is passed to `applyTheme` | subsidiary `"constructor"` (also `"Constructor"`, `"con structor"`, `"__proto__"`) | only the table's own keys select a theme, and every other name falls back to the default theme | high; not executed | `ThemeProvider.ConstructorIsNotATheme` | `ThemeProvider.ThemeFor` |
