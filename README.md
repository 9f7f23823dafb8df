# Bullet Journal Companion — a Dafny model of its client core

This project models the local logic of the Bullet Journal Companion, an
Angular application for keeping a bullet journal (tasks, notes, events,
habits and emotions). It proves properties of that model.

- **The entry store (`JournalService`).** An in-memory list of journal
  entries, mirrored as JSON under the browser-storage key `bjc:entries`.
  The model covers adding, updating, removing, toggling completion, lookup
  by id, the newest-first listing, and loading with its three-entry
  demonstration seed.
- **The session rules of `AuthService`.** The local signup checks, the
  messages shown for failed logins and signups, and the user and token keys
  in browser storage (`bjc:user`, `bjc:token`, `bjc:refreshToken`). Also
  saving a user, logging out, the token-keeping step of a refresh, the
  token-expiry test, `isAuthenticated` and the display name.
- **The journal page.** The entry form and the payload it submits, the
  type filter and text search, the statistics panel, and the icon and
  colour of each type.
- **The shared navigation bar.** The two menu flags, logging out and the
  user's initials.
- **The dashboard.** The entry counts, the five most recent entries, the
  next three events and the greeting.
- **The image upload page.** The type and size checks on a chosen image,
  and the preview, scan and clear flags.
- **The export page.** The one-format and all-formats downloads: their
  file names and contents.

Each service or component that changes its own fields is a Dafny `class`.
Its methods carry `modifies` frames and state the complete new state. The
expression-level logic (filtering, counting, payload building, message
mapping, initials, file names) is written as functions. Lemmas relate those
functions to one another and to the methods.

Some things are parameters rather than part of the model:

- the current time, as an ISO-8601 string, milliseconds, or an hour of the
  day;
- the generated entry id;
- the JSON codec;
- the JWT payload decoder;
- the user's answer to a confirmation;
- the outcome of an HTTP request.

`JournalService` and `AuthService` each hold a `storage` map, but both maps
stand for the one browser `localStorage`. Keeping them apart is sound
because the two services use disjoint keys and neither clears storage.

Module layout, one file each:

- `Base`: options, results, the codec and storage lookup.
- `Text`: the JavaScript string operations used.
- `Seqs`: filter, count and take.
- `Ordering`: the string order and the stable sort by key.
- `Journal`: the entry record and its pure operations.
- `JournalStore`: `JournalService`.
- `Auth`, `JournalPage`, `Navbar`, `Dashboard`, `OcrUpload` and
  `ConversionEngine`: one per core file.

## Model

| member | source | states |
|---|---|---|
| Journal.Create | src/app/core/services/journal.service.ts:66-68 | the new entry carries every field of the draft, the generated id and `createdAt` = now, and no `updatedAt` |
| Journal.Merge | src/app/core/services/journal.service.ts:78 | a merged entry's `updatedAt` is always the update time |
| Journal.MergeFields | src/app/core/services/journal.service.ts:78 | each key the patch carries overrides the old field, every other field keeps its value, and `updatedAt` is the update time even if the patch has one |
| Journal.MergeIdempotent | src/app/core/services/journal.service.ts:78 | applying the same patch at the same time twice equals applying it once |
| Journal.MergeEmpty | src/app/core/services/journal.service.ts:78 | a patch without keys changes only `updatedAt` |
| Journal.IndexOf | src/app/core/services/journal.service.ts:75 | the result is -1 iff no entry has the id, else the first index holding it |
| Journal.Updated | src/app/core/services/journal.service.ts:74-81 | same length; only the first entry with the id changes, to the merge; all others are unchanged |
| Journal.RemoveSpec | src/app/core/services/journal.service.ts:83-89 | after filtering no entry has the id; the list shrinks iff some entry had it; survivors keep their order |
| Journal.ToggleFlips | src/app/core/services/journal.service.ts:99-103 | toggling sets `completed` to the negation of the old flag (absent = false) and changes nothing else but `updatedAt`; toggling twice restores the flag |
| Journal.AddKeepsUnique | src/app/core/services/journal.service.ts:66-72 | prepending an entry with a fresh id keeps ids unique |
| Journal.UpdateKeepsUnique | src/app/core/services/journal.service.ts:74-81 | a patch without an id keeps ids unique |
| Journal.FilterKeepsUnique | src/app/core/services/journal.service.ts:85 | filtering, and so `remove`, keeps ids unique |
| Journal.SeedDemo | src/app/core/services/journal.service.ts:41-48 | the seed holds three entries with distinct ids, all created now and never updated |
| Journal.RestoreSaved | src/app/core/services/journal.service.ts:24-39 | with a faithful codec, loading what `save` wrote restores the saved list |
| Journal.RestoreUnparsable | src/app/core/services/journal.service.ts:29-34 | stored text that does not parse restores to the empty list |
| JournalStore.JournalService.constructor | src/app/core/services/journal.service.ts:12-15 | on the server the list is empty and storage untouched; in the browser the list is what `load` restores, and the seed is written back when nothing was stored |
| JournalStore.JournalService.Save | src/app/core/services/journal.service.ts:17-22 | in the browser the key holds the serialised list afterwards; on the server storage is unchanged |
| JournalStore.JournalService.Load | src/app/core/services/journal.service.ts:24-39 | parsed text becomes the list, unparsable text gives the empty list, no or empty text gives the seed (then saved); nothing happens on the server |
| JournalStore.JournalService.GetAll | src/app/core/services/journal.service.ts:50-52 | the result is a permutation of the list, ordered by `createdAt` newest first; the list itself is not changed |
| JournalStore.JournalService.GetById | src/app/core/services/journal.service.ts:54-56 | an entry is found iff one has the id, and it is the first such entry |
| JournalStore.JournalService.Add | src/app/core/services/journal.service.ts:66-72 | returns the new entry and places it in front of the unchanged old list; storage mirrors the list; a fresh id keeps ids unique |
| JournalStore.JournalService.Update | src/app/core/services/journal.service.ts:74-81 | an unknown id returns null and changes nothing; otherwise only that entry is merged, it is returned, and storage mirrors the list |
| JournalStore.JournalService.Remove | src/app/core/services/journal.service.ts:83-89 | returns true iff some entry had the id; afterwards none has it; when none had it, list and storage are unchanged; storage is written only when the list changed |
| JournalStore.JournalService.ToggleComplete | src/app/core/services/journal.service.ts:99-103 | an unknown id returns null with no change; otherwise the entry's flag is negated through `update`, the toggled entry returned, and in the browser the key holds the new list (storage unchanged on the server) |
| JournalStore.MirrorRestores | src/app/core/services/journal.service.ts:17-39 | storage that mirrors the list restores to that same list |
| Ordering.SortByKey | src/app/core/services/journal.service.ts:51 | the sorted copy is a permutation, ordered by the key in the given direction |
| Ordering.SortStable | src/app/core/services/journal.service.ts:51 | entries with equal keys keep their relative order, as the stable array sort keeps them |
| Ordering.SortSortedIsIdentity | src/app/pages/dashboard/dashboard.component.ts:51-53 | sorting an already sorted list gives it back unchanged |
| Auth.ValidateSignup | src/app/core/services/auth.service.ts:63-80 | signup proceeds iff the passwords match and have at least 6 UTF-16 code units; a mismatch is reported before the length; the request carries the form fields |
| Auth.LoginServerMessage | src/app/core/services/auth.service.ts:186-194 | a non-empty `message`, else a non-empty `error`, of an object body; nothing otherwise |
| Auth.SignupServerMessage | src/app/core/services/auth.service.ts:119-129 | as for login, and also a non-empty plain-text body |
| Auth.LoginErrorMessage | src/app/core/services/auth.service.ts:185-203 | 401 or 403 give the invalid-credentials text, 0 the cannot-connect text, others the server's message or the generic one; never empty |
| Auth.SignupErrorMessageAsWritten | src/app/core/services/auth.service.ts:118-140 | the signup mapping as written; never empty |
| Auth.SignupInvalidDataUnreachable | src/app/core/services/auth.service.ts:131-132 | as written, a 400 without a server message reports the generic failure, and the invalid-data text appears only if the server sent it |
| Auth.SignupErrorMessage | src/app/core/services/auth.service.ts:118-140 | 400 gives the server message or the invalid-data text, 409 the email-taken text, 0 the cannot-connect text, others the server message or the generic one |
| Auth.SignupMessagesAgree | src/app/core/services/auth.service.ts:131-137 | the corrected and as-written mappings differ exactly for a 400 without a server message |
| Auth.KeptRefreshToken | src/app/core/services/auth.service.ts:249-256 | the refresh token after a refresh is the old one unless a different, non-empty one was issued; never empty |
| Auth.Written | src/app/core/services/auth.service.ts:44-49 | a guarded `setItem` changes only that key, and only when the value is non-empty |
| Auth.AuthService.constructor | src/app/core/services/auth.service.ts:28-39 | in the browser the current user is the stored user if its text is non-empty and parses, else none; storage is only read |
| Auth.AuthService.GetToken | src/app/core/services/auth.service.ts:53-56 | the stored access token in the browser; none on the server |
| Auth.AuthService.GetRefreshToken | src/app/core/services/auth.service.ts:58-61 | the stored refresh token in the browser; none on the server |
| Auth.AuthService.IsAuthenticated | src/app/core/services/auth.service.ts:295-297 | true iff a user is set and a token is stored (in the browser) |
| Auth.AuthService.SaveUser | src/app/core/services/auth.service.ts:41-51 | in the browser the user is stored and set, and each token key is overwritten only when that token is non-empty; on the server nothing changes |
| Auth.AuthService.Logout | src/app/core/services/auth.service.ts:207-214 | in the browser the three keys are removed and the user cleared; on the server nothing changes; never authenticated afterwards |
| Auth.AuthService.RefreshToken | src/app/core/services/auth.service.ts:216-276 | no stored refresh token fails with no change; a failed request logs out; a success writes the access token only if present and the refresh token only if a different one came back |
| Auth.AuthService.IsTokenExpired | src/app/core/services/auth.service.ts:278-293 | expired without a token or with one that does not decode; otherwise expired iff now ≥ exp·1000 − 300000, with `exp` a possibly fractional number of seconds (not expired when the payload has no `exp`) |
| Auth.ExpiryMonotone | src/app/core/services/auth.service.ts:278-293 | a token expired at some time stays expired later |
| Auth.ExpiryMargin | src/app/core/services/auth.service.ts:285-289 | for an `exp` on a whole millisecond, expiry starts exactly five minutes before it, not a millisecond earlier |
| Auth.FractionalExpiry | src/app/core/services/auth.service.ts:285-289 | a fractional `exp` of 1700000000.5 seconds expires at millisecond 1699999700500 and not one millisecond earlier |
| Auth.AuthService.GetUserDisplayName | src/app/core/services/auth.service.ts:299-312 | "User" without a user, else the name, else first and last name, else first name, email or "User"; never empty |
| JournalPage.TagsOf | src/app/pages/journal/journal-page.component.ts:63 | every tag is non-empty, trimmed and comma-free, and there are no more tags than comma-separated pieces |
| JournalPage.CleanPieces | src/app/pages/journal/journal-page.component.ts:63 | trimming comma-free pieces and dropping empty ones leaves clean tags |
| JournalPage.TagsRoundTrip | src/app/pages/journal/journal-page.component.ts:103 | splitting the `join(', ')` text that `edit` puts in the form gives back the original clean tags |
| JournalPage.TrimmedOrNone | src/app/pages/journal/journal-page.component.ts:60 | the trimmed text when it is non-blank, else absent |
| JournalPage.BuildPayload | src/app/pages/journal/journal-page.component.ts:56-64 | title trimmed; notes trimmed or absent when blank; `completed` false; date absent when empty; tags split, trimmed and non-empty, or absent when the field is empty |
| JournalPage.PatchOf | src/app/pages/journal/journal-page.component.ts:68 | the update payload never carries `id`, `createdAt` or `updatedAt` |
| JournalPage.PatchOfSetsDraft | src/app/pages/journal/journal-page.component.ts:68 | updating with the payload sets exactly the draft's fields and keeps id and creation time |
| JournalPage.EditRoundTrip | src/app/pages/journal/journal-page.component.ts:99-103 | for a tidy entry (a non-empty type, a trimmed title of at least two characters, notes trimmed and non-empty when present, a non-empty date when present, a non-empty list of clean tags when present), the form that `edit` fills is valid and submits the entry's own fields, except `completed` reset to false |
| JournalPage.PaddedShortTitleBlocksResave | src/app/pages/journal/journal-page.component.ts:26-29 | a title "  a" passes the length check, is stored as "a", and the form `edit` then fills for that entry is invalid, so it cannot be saved again unchanged |
| JournalPage.SeparatorOnlyTagsDropped | src/app/pages/journal/journal-page.component.ts:63 | a tags field ", " stores an empty tag list, which `edit` shows as an empty field, and saving that drops the tags key altogether |
| JournalPage.EditSubmitResetsCompletion | src/app/pages/journal/journal-page.component.ts:56-68 | saving an unchanged edit marks a completed entry not completed and changes nothing else but `updatedAt` |
| JournalPage.StagesAreShown | src/app/pages/journal/journal-page.component.ts:150-167 | the type filter followed by the search keeps exactly the entries passing both tests |
| JournalPage.FilterEntries | src/app/pages/journal/journal-page.component.ts:146-171 | the result is the entries of the list that pass the combined test, in list order |
| JournalPage.FilteredSpec | src/app/pages/journal/journal-page.component.ts:146-171 | with filter "all" and a blank search the list is unchanged; the result is always an order-preserving subsequence; an entry is shown iff it is in the list and its lower-cased type equals the lower-cased filter (unless "all") and the trimmed lower-cased query occurs in its title, notes or a tag (unless blank) |
| JournalPage.StatsOf | src/app/pages/journal/journal-page.component.ts:173-185 | total = number of entries; the five type counts sum to at most total; pending ≤ tasks; completed + pending ≤ total |
| JournalPage.TypeIcon | src/app/pages/journal/journal-page.component.ts:187-196 | the fallback bullet is returned iff the type is not one of the five known ones |
| JournalPage.TypeColor | src/app/pages/journal/journal-page.component.ts:198-207 | always a `#rrggbb` code; grey iff the type is not one of the five known ones |
| JournalPage.TypeLooksDistinct | src/app/pages/journal/journal-page.component.ts:187-207 | different known types get different icons and colours |
| JournalPage.JournalPageComponent.constructor | src/app/pages/journal/journal-page.component.ts:22-30 | the form starts with type "task" and empty controls, nothing edited, filter "all", empty search, form hidden |
| JournalPage.JournalPageComponent.Load | src/app/pages/journal/journal-page.component.ts:43-48 | the page's list is the service's newest-first listing |
| JournalPage.JournalPageComponent.Filtered | src/app/pages/journal/journal-page.component.ts:146-171 | an order-preserving subsequence of the page's list holding exactly the entries that pass both tests |
| JournalPage.JournalPageComponent.GetStats | src/app/pages/journal/journal-page.component.ts:173-185 | the statistics of the page's list; pending ≤ tasks ≤ total |
| JournalPage.JournalPageComponent.Submit | src/app/pages/journal/journal-page.component.ts:50-97 | an invalid form changes nothing; otherwise the payload updates the edited entry or is added as a new one, in the browser the key alone is rewritten with the new list (no storage change on the server), then the list is reloaded, the form reset and hidden, and nothing is edited; an edited entry that is no longer stored leaves the service's list and storage unchanged |
| JournalPage.JournalPageComponent.Edit | src/app/pages/journal/journal-page.component.ts:99-113 | the entry is being edited, the form shows its fields (tags joined by ", ") and is visible |
| JournalPage.JournalPageComponent.Remove | src/app/pages/journal/journal-page.component.ts:115-129 | declined, nothing changes; confirmed, the service drops every entry with the id, rewrites only its key and only when an entry went and in the browser, and the reloaded list holds none |
| JournalPage.JournalPageComponent.Toggle | src/app/pages/journal/journal-page.component.ts:131-144 | the service toggles the entry and, in the browser, rewrites only its key with the new list; an unknown id leaves the service's list and storage unchanged; the list is reloaded |
| JournalPage.JournalPageComponent.ToggleForm | src/app/pages/journal/journal-page.component.ts:209-224 | the form's visibility flips; either way nothing is edited and the form is reset |
| JournalPage.JournalPageComponent.CancelEdit | src/app/pages/journal/journal-page.component.ts:226-230 | nothing edited, form reset and hidden |
| JournalPage.JournalPageComponent.ClearSearch | src/app/pages/journal/journal-page.component.ts:232-234 | the search is empty, so only the type filter applies |
| Navbar.InitialsSource | src/app/shared/shared-navbar.component.ts:553 | the name the initials come from: name, first name, email or "User"; never empty |
| Navbar.InitialsAsWritten | src/app/shared/shared-navbar.component.ts:545-559 | `getInitials` as written: "U" without a user; it throws exactly when the first two space-separated parts of the name are both empty |
| Navbar.InitialsDoubledSpace | src/app/shared/shared-navbar.component.ts:553-556 | the name "A  B" gives "AUNDEFINED" as written, "AB" corrected |
| Navbar.SplitDoubledSpace | src/app/shared/shared-navbar.component.ts:554 | "A  B" splits at spaces into "A", "" and "B" |
| Navbar.InitialsLeadingSpaces | src/app/shared/shared-navbar.component.ts:553-556 | the name "  Ann" makes the written code throw; corrected it gives "AN" |
| Navbar.SplitLeadingSpaces | src/app/shared/shared-navbar.component.ts:554 | "  Ann" splits at spaces into "", "" and "Ann" |
| Navbar.Words | src/app/shared/shared-navbar.component.ts:554 | the words of a name are non-empty and hold no space |
| Navbar.NameInitials | src/app/shared/shared-navbar.component.ts:553-558 | initials of the first two words, else the first two letters of the only word, else "U"; one or two characters, never a space |
| Navbar.Initials | src/app/shared/shared-navbar.component.ts:545-559 | "U" without a user; the upper-cased initials of first and last name when both are present; otherwise the name's initials; always one or two characters |
| Navbar.InitialsAgree | src/app/shared/shared-navbar.component.ts:553-558 | when no space-separated part of the name is empty, the written and corrected initials are the same |
| Navbar.NavbarComponent.constructor | src/app/shared/shared-navbar.component.ts:523-527 | both menus start closed |
| Navbar.NavbarComponent.ToggleMenu | src/app/shared/shared-navbar.component.ts:529-534 | the main menu flips; opening it closes the user menu; closing it leaves the user menu alone |
| Navbar.NavbarComponent.CloseMenu | src/app/shared/shared-navbar.component.ts:536-539 | both menus closed, whatever they were |
| Navbar.NavbarComponent.ToggleUserMenu | src/app/shared/shared-navbar.component.ts:541-543 | only the user menu flips |
| Navbar.NavbarComponent.Logout | src/app/shared/shared-navbar.component.ts:561-564 | the service logs out (keys removed, user cleared in the browser) and both menus end closed |
| Navbar.NavbarComponent.GetInitials | src/app/shared/shared-navbar.component.ts:545-559 | the initials as written for the signed-in user: "U" without a user, an error exactly where the call throws, and the corrected one-or-two-character initials whenever the name has no empty space-separated part |
| Dashboard.CountsOf | src/app/pages/dashboard/dashboard.component.ts:18-29 | total = number of entries; the four exact-type counts sum to at most total; pending ≤ tasks; completed + pending ≤ total |
| Dashboard.RecentSpec | src/app/pages/dashboard/dashboard.component.ts:51-53 | the recent entries are min(5, n) entries of the list, newest first |
| Dashboard.RecentOfSorted | src/app/pages/dashboard/dashboard.component.ts:51-53 | for a list already newest first, the recent entries are its first five |
| Dashboard.UpcomingSpec | src/app/pages/dashboard/dashboard.component.ts:55-63 | the upcoming events are min(3, number of dated events not before now), each one such an event from the list, earliest first |
| Dashboard.TodayIsNotUpcoming | src/app/pages/dashboard/dashboard.component.ts:55-61 | an event dated with today's date-only string is already past at any instant of today after midnight |
| Dashboard.Greeting | src/app/pages/dashboard/dashboard.component.ts:66-71 | Morning before 12, Afternoon from 12 to before 18, Evening from 18 |
| Dashboard.GreetingMonotone | src/app/pages/dashboard/dashboard.component.ts:66-71 | a later hour never gets an earlier greeting |
| Dashboard.EntryTypeIcon | src/app/pages/dashboard/dashboard.component.ts:73-81 | the fallback iff the type is not one of the four declared ones |
| Dashboard.EntryTypeColor | src/app/pages/dashboard/dashboard.component.ts:83-91 | always a `#rrggbb` code; grey iff the type is not one of the four declared ones |
| Dashboard.ColorsAgree | src/app/pages/dashboard/dashboard.component.ts:83-91 | the dashboard colours every type as the journal page does, except "emotion" |
| Dashboard.EntryTypesLookDistinct | src/app/pages/dashboard/dashboard.component.ts:73-91 | distinct declared types get distinct icons and colours |
| Dashboard.DashboardComponent.constructor | src/app/pages/dashboard/dashboard.component.ts:16-37 | all lists start empty |
| Dashboard.DashboardComponent.Stats | src/app/pages/dashboard/dashboard.component.ts:18-29 | the counts of the loaded entries; total = their number |
| Dashboard.DashboardComponent.LoadEntries | src/app/pages/dashboard/dashboard.component.ts:47-64 | entries are the service's listing; the recent ones are its first five; the upcoming ones are the next three events |
| OcrUpload.Check | src/app/pages/ocr-upload/ocr-upload.ts:25-45 | no file gives no verdict; a disallowed type gives the type message (even if also too large); an allowed type above 5 MiB gives the size message; otherwise the file is accepted |
| OcrUpload.SizeLimitInclusive | src/app/pages/ocr-upload/ocr-upload.ts:42-45 | exactly 5 MiB is accepted, one byte more is refused with the size message |
| OcrUpload.OcrUploadComponent.constructor | src/app/pages/ocr-upload/ocr-upload.ts:12-18 | no preview, not validated, not scanning, no text, no error, no file |
| OcrUpload.OcrUploadComponent.OnFile | src/app/pages/ocr-upload/ocr-upload.ts:25-56 | error, preview, validation and text are reset first; a rejected file sets its one message and stays unvalidated; only an accepted file is kept |
| OcrUpload.OcrUploadComponent.PreviewLoaded | src/app/pages/ocr-upload/ocr-upload.ts:51-54 | the preview is shown and the file counts as validated |
| OcrUpload.OcrUploadComponent.Scan | src/app/pages/ocr-upload/ocr-upload.ts:61-65 | nothing happens unless validated; otherwise scanning starts and the error is cleared |
| OcrUpload.OcrUploadComponent.ClearAll | src/app/pages/ocr-upload/ocr-upload.ts:83-89 | preview, error, validation, scanning and text are reset; the kept file is untouched |
| ConversionEngine.Extension | src/app/pages/features/conversion-engine/conversion-engine.ts:46-49 | a format's extension starts with a dot |
| ConversionEngine.ExportFileName | src/app/pages/features/conversion-engine/conversion-engine.ts:46-49 | the selected profile, or "report" when none or empty, followed by ".taskpaper" or ".md" |
| ConversionEngine.ExportNamesDiffer | src/app/pages/features/conversion-engine/conversion-engine.ts:46-49 | the two formats never share a file name |
| ConversionEngine.CombinedFileName | src/app/pages/features/conversion-engine/conversion-engine.ts:68 | the selected profile, or "complete" when none or empty, followed by "-report.txt" |
| ConversionEngine.CombinedNameDistinct | src/app/pages/features/conversion-engine/conversion-engine.ts:46-68 | the all-formats file never takes a one-format file's name |
| ConversionEngine.CombinedReport | src/app/pages/features/conversion-engine/conversion-engine.ts:60-62 | a TaskPaper header and its text, a blank line, a Markdown header and its text, each at its position; a missing text shows as "undefined" and a `null` one as "null" |
| ConversionEngine.CombinedHoldsExports | src/app/pages/features/conversion-engine/conversion-engine.ts:41-62 | whatever a one-format download would hold also appears in the all-formats download |
| ConversionEngine.MissingSectionShowsUndefined | src/app/pages/features/conversion-engine/conversion-engine.ts:42-62 | a missing or `null` TaskPaper text downloads nothing on its own, and shows as "undefined" or "null" in the combined file |
| ConversionEngine.ConversionEngineComponent.constructor | src/app/pages/features/conversion-engine/conversion-engine.ts:12-17 | loading, empty report, no profile, options hidden, nothing downloaded |
| ConversionEngine.ConversionEngineComponent.ReportLoaded | src/app/pages/features/conversion-engine/conversion-engine.ts:19-24 | the report is stored and loading ends |
| ConversionEngine.ConversionEngineComponent.OnProfileClick | src/app/pages/features/conversion-engine/conversion-engine.ts:27-30 | the profile is selected and the options shown |
| ConversionEngine.ConversionEngineComponent.CloseExportOptions | src/app/pages/features/conversion-engine/conversion-engine.ts:33-36 | options hidden, no profile |
| ConversionEngine.ConversionEngineComponent.DownloadAs | src/app/pages/features/conversion-engine/conversion-engine.ts:41-54 | empty or missing content changes nothing; otherwise exactly one file is downloaded, named for the profile selected before, and the options close |
| ConversionEngine.ConversionEngineComponent.DownloadAll | src/app/pages/features/conversion-engine/conversion-engine.ts:59-70 | one file with the combined report is downloaded, named for the profile selected before, and the options close |

## Left out

- HTTP requests are not modelled: the login and signup requests, the refresh request with its fallback endpoint, the export service and the OCR service. Only their local steps are modelled, and a request's outcome is a parameter.
- The user record built from a login or signup response is not modelled. `SaveUser` takes the user and tokens as given.
- The token interceptor is not part of this model. It coordinates concurrent requests.
- Router navigation, console logging, templates and the form's touched markers are not modelled.
- The journal page's delayed reloads are not modelled. They call `js.list()`, which `JournalService` does not define, so that part of the page cannot run as written.
- Scrolling, and the browser's file download (Blob and object URL), are not modelled. A download is recorded as a name and a content.
- Reading the chosen image and the timer that produces the placeholder scan text are not modelled. The reader's completion is the `PreviewLoaded` event.
- Case mapping (`toLowerCase`, `toUpperCase`) is modelled for ASCII letters only.
- Lengths, indexing and `substring` count characters, not UTF-16 code units. The exception is the two minimum-length validators, which use `Utf16Length`.
- `localeCompare` and `Date` comparisons are modelled as lexicographic order on ISO-8601 strings. Invalid dates (NaN comparisons) and time zones are not modelled.
- The lexicographic order differs from `Date` at exactly UTC midnight. There, an event's date-only string such as `2024-05-01` and the current time `2024-05-01T00:00:00.000Z` name the same instant, so the source counts the event as upcoming, but the model puts the date first and does not.
- JSON parsing and serialising are an abstract codec. Parsed values are assumed to have the record's shape.
- The icon and colour lookups in object literals ignore inherited keys such as "constructor".
- The server-rendering switch is kept only where it turns an operation into a no-op.
- Auth.AuthService.IsTokenExpired: the JWT split and base64 decoding are a parameter, so the model does not say which strings decode. `exp` is an exact real number, so double rounding of `exp * 1000` and values beyond double range are not modelled.

## Findings

| source | as written | input that shows it | evidently intended | confidence | as-written member | corrected member |
|---|---|---|---|---|---|---|
| src/app/shared/shared-navbar.component.ts:553-556 | the initials use the first characters of the first two space-separated parts, even when a part is empty; an empty part contributes the text "undefined", and two empty parts make `toUpperCase` throw | name "A  B" (doubled space) gives "AUNDEFINED"; name "  Ann" throws a TypeError | the initials of the first two non-empty words ("AB", "AN") | not executed | Navbar.InitialsAsWritten | Navbar.Initials |
| src/app/core/services/auth.service.ts:119-132 | for status 400 the fallback `errorMessage \|\| 'Invalid data…'` never applies, because `errorMessage` starts as the generic signup text and is never empty | status 400 with no body reports "Signup failed. Please try again." | status 400 without a server message reports "Invalid data. Please check your input." | not executed | Auth.SignupErrorMessageAsWritten | Auth.SignupErrorMessage |

The first finding is shown by `Navbar.InitialsDoubledSpace` and
`Navbar.InitialsLeadingSpaces`. `Navbar.InitialsAgree` shows that the
corrected form changes nothing for names without empty parts. The second is
shown by `Auth.SignupInvalidDataUnreachable`. `Auth.SignupMessagesAgree`
shows that the two mappings differ only in that case.

Some behaviour that looks surprising is modelled as written and is not
claimed as a defect:

- Saving an unchanged edit of a completed entry marks it not completed
  (`JournalPage.EditSubmitResetsCompletion`).
- A title padded to pass the length check, such as "  a", is stored
  trimmed, and the entry can then not be saved again unchanged
  (`JournalPage.PaddedShortTitleBlocksResave`).
- A tags field holding only separators stores an empty tag list, which
  the next unchanged save drops (`JournalPage.SeparatorOnlyTagsDropped`).
- A token payload without `exp` counts as not expired.
- An event dated today is not among the upcoming events once the day has
  begun (`Dashboard.TodayIsNotUpcoming`).
- The dashboard's icon texts are stored mis-encoded and are modelled as
  stored.
