# Patrol check-in: a Dafny model

This project models the core of a patrol check-in web application. Guards
check in at fixed checkpoints, and a check-in counts only when the guard's
reported position is within 50 metres of the checkpoint. Supervisors manage
guards and checkpoints and review a day's patrols.

The model covers:

- the in-memory store (`lib/data.ts`), as the class `Data.Store`;
- the HTTP routes for patrols, guards, locations and login, as functions and
  methods over the store. A route that can refuse a request returns a
  `Result<…, ApiError>`; the listings and the guard and location creation
  return their value directly;
- the guard's check-in page, as the class `GuardPage.GuardDashboard`. Each
  asynchronous answer (a position, a position failure, the server's reply to
  a submit) is a method parameter;
- the supervisor's page: daily statistics, the checkpoint form and its
  checklist row editor, and the CSV export (`AdminPage`).

Helper modules:

- `Wrappers`: Option and Result.
- `Seqs`: filter, find, findIndex, key de-duplication, join and split.
- `Text`: decimal rendering of numbers, `Math.round`, `startsWith`, the date
  part of an ISO timestamp, and JavaScript `trim`.
- `ChecklistMap`: a `{ [item]: boolean }` object, kept as an
  insertion-ordered list of entries.

## Model

| member | source | states |
|---|---|---|
| Data.Store.constructor | lib/data.ts:32-94 | the store starts with the three seeded users, the five seeded checkpoints and no patrol records |
| Data.Store.GetUser | lib/data.ts:114 | `None` exactly when no user has the id; otherwise the first user with that id |
| Data.Store.GetUserByUsername | lib/data.ts:115 | `None` exactly when no user has the username; otherwise the first such user |
| Data.Store.AddUser | lib/data.ts:116-120 | the user is appended once, with its id replaced by the clock-derived id, and the appended user is returned |
| Data.Store.UpdateUser | lib/data.ts:121-128 | `None` exactly when the id is unknown, and then nothing changes; otherwise only the first user with the id is replaced by the merge, and that user is returned |
| Data.Store.DeleteUser | lib/data.ts:129-131 | exactly the users with other ids remain, in order; deleting an unknown id changes nothing |
| Data.Store.GetLocation | lib/data.ts:134 | `None` exactly when no checkpoint has the id; otherwise the first one |
| Data.Store.AddLocation | lib/data.ts:135-139 | the checkpoint is appended once under the clock-derived id and returned |
| Data.Store.UpdateLocation | lib/data.ts:140-147 | `None` exactly when the id is unknown, with nothing changed; otherwise only the first match is merged, and it is returned |
| Data.Store.DeleteLocation | lib/data.ts:148-150 | exactly the checkpoints with other ids remain, in order; patrol records are untouched |
| Data.Store.GetPatrolRecordsByGuard | lib/data.ts:153-154 | a record is listed exactly when it is stored and has that guard id |
| Data.Store.GetPatrolRecordsByDate | lib/data.ts:155-156 | a record is listed exactly when it is stored and its timestamp starts with the date |
| Data.Store.GetGuardPatrolsToday | lib/data.ts:163-168 | a record is listed exactly when it has the guard id and its timestamp starts with the date part of the server's current ISO time |
| Data.Store.AddPatrolRecord | lib/data.ts:157-161 | the record is appended once under the clock-derived id and returned |
| Data.GuardPatrolsTodayIsBothFilters | lib/data.ts:163-168 | today's list is the guard's list narrowed to today's date |
| Data.AppendedRecordIsLast | lib/data.ts:157-161 | an appended record comes last in every filtered list it matches, and earlier results are unchanged |
| Data.SameClockShadowsLaterUser | lib/data.ts:114-120 | ids are not checked for uniqueness: two users added on the same clock reading share an id, and `getUser` only finds the earlier one |
| Data.DeleteUserIdempotent | lib/data.ts:129-131 | deleting a user id twice equals deleting it once |
| Data.DeleteLocationIdempotent | lib/data.ts:148-150 | deleting a checkpoint id twice equals deleting it once |
| Text.ParseNatToString | lib/data.ts:117 | a clock-derived id reads back as the clock value it came from |
| Text.NatToStringInjective | lib/data.ts:117 | different clock readings give different ids, and equal ones give equal ids |
| Text.NatToString | lib/data.ts:117 | `toString` of a clock value is a non-empty run of decimal digits with no leading zero |
| Text.IntToString | app/api/patrols/route.ts:48 | the rendering starts with `-` exactly when the number is negative |
| Text.Round | app/api/patrols/route.ts:48 | `Math.round` gives the integer nearest to x, with halves rounding up |
| Text.DatePart | lib/data.ts:164 | `split('T')[0]` is a prefix of the timestamp with no `T` in it, and the timestamp continues with `T` after it if at all |
| Text.TrimEmptyIff | app/admin/page.tsx:166 | a string trims to empty exactly when every character is JavaScript white space |
| Seqs.Filter | lib/data.ts:130 | `filter` keeps exactly the elements that satisfy the test, and never more than it was given |
| Seqs.FilterFilter | app/api/patrols/route.ts:11-17 | two filters in sequence equal one filter by the conjunction |
| Seqs.IndexOfFirst | lib/data.ts:122 | `findIndex` has no result exactly when nothing matches; a result is the first matching position |
| Seqs.First | lib/data.ts:114 | `find` has no result exactly when nothing matches; otherwise it returns the element at the first match |
| Seqs.Dedup | app/guard/page.tsx:118-120 | assigning keys keeps each value exactly once and loses none |
| Seqs.Split | lib/data.ts:164 | every part is free of the separator, and the first part is the prefix before the first separator |
| Seqs.SplitJoin | app/admin/page.tsx:211 | splitting a join of separator-free parts at the separator gives back the parts |
| ChecklistMap.Get | app/guard/page.tsx:154 | reading an item is `undefined` exactly when it is not a key; otherwise it is the value stored with that item |
| ChecklistMap.Set | app/guard/page.tsx:152-155 | assigning an item keeps the key order and adds a new key at the end; no other entry is made up |
| ChecklistMap.SetThenGet | app/guard/page.tsx:152-155 | after assigning an item, reading it gives the assigned value |
| ChecklistMap.SetKeepsOthers | app/guard/page.tsx:152-155 | assigning one item leaves every other item's reading unchanged |
| ChecklistMap.SetValid | app/guard/page.tsx:117-121 | assignment keeps the keys distinct |
| PatrolsRoute.Get | app/api/patrols/route.ts:4-20 | a record is listed exactly when it is stored and matches each query parameter that is present and non-empty |
| PatrolsRoute.GetIsOneFilter | app/api/patrols/route.ts:9-19 | the filter chain is one order-preserving filter by the given conditions; with no parameters it returns the whole table |
| PatrolsRoute.TodayQueryIsGuardPatrolsToday | app/guard/page.tsx:69-70 | the guard page's progress query returns what `getGuardPatrolsToday` would on the same clock |
| PatrolsRoute.Admit | app/api/patrols/route.ts:27-64 | an unknown checkpoint or user gives 400 "Invalid location or guard"; otherwise it is accepted exactly when the server's distance is at most 50 (inclusive), and a rejection carries the rounded distance. An accepted record has the store's names, the server distance and timestamp, and the body's position and checklist |
| PatrolsRoute.Post | app/api/patrols/route.ts:22-66 | a rejection leaves the records unchanged; an acceptance appends exactly the admitted record under the clock id and returns it; "every stored record is within 50 m" is preserved (for numeric coordinates; see "## Left out") |
| PatrolsRoute.ChecklistNotInspected | app/api/patrols/route.ts:53-64 | acceptance does not depend on the checklist, so false items or an empty map are stored as well |
| PatrolsRoute.AdmittedRecordCountsToday | app/api/patrols/route.ts:53-66 | an accepted record becomes the last entry of its guard's list for that day |
| PatrolsRoute.RejectionCanReportFifty | app/api/patrols/route.ts:46-48 | 50.4 m is rejected, yet the message rounds it to "50m" |
| PatrolsRoute.AdminCanCheckIn | app/api/patrols/route.ts:28-30 | the actor check accepts any user: the seeded admin is checked in at the seeded main entrance |
| GuardsRoute.Get | app/api/guards/route.ts:4-7 | exactly the guard-role users are listed; an admin never is |
| GuardsRoute.Post | app/api/guards/route.ts:9-13 | the new user is always a guard, whatever role the body gave, and is appended under the clock id |
| GuardsRoute.Put | app/api/guards/route.ts:22-32 | a missing or unknown id gives 404 "Guard not found" with nothing changed; otherwise the first user with the id is merged with the rest of the body, so the id never changes, and users of any role can be updated |
| GuardsRoute.Delete | app/api/guards/route.ts:41-52 | a missing or empty id gives 400 "Guard ID required" with nothing changed; otherwise exactly the users of other ids remain, in order (users of any role with the id are removed), and success is reported even if none matched |
| LocationsRoute.Get | app/api/locations/route.ts:4-7 | every checkpoint is listed, in store order |
| LocationsRoute.Post | app/api/locations/route.ts:9-13 | exactly one checkpoint is appended under the clock id and returned |
| LocationsRoute.Put | app/api/locations/route.ts:22-32 | a missing or unknown id gives 404 "Location not found" with nothing changed; otherwise the first match is merged and keeps its id |
| LocationsRoute.Delete | app/api/locations/route.ts:41-52 | a missing or empty id gives 400 "Location ID required" with nothing changed; otherwise exactly the checkpoints with other ids remain, in order, and success is reported even if none matched |
| LoginRoute.Post | app/api/auth/login/route.ts:4-24 | an unknown username and a wrong password both give 401 "Invalid username or password"; only the first user with the username is checked; success returns id, username, role and name only |
| LoginRoute.SeedLogins | app/api/auth/login/route.ts:8-14 | with the seeded users, the admin logs in, and a wrong password is refused like an unknown user |
| GuardPage.GuardDashboard.constructor | app/guard/page.tsx:28-36 | the page starts with nothing selected, an empty checklist, no messages and no loading |
| GuardPage.GuardDashboard.StartPatrol | app/guard/page.tsx:83-92 | messages are cleared and loading starts; without geolocation the "not supported" error is set and loading ends |
| GuardPage.GuardDashboard.PositionFound | app/guard/page.tsx:95-122 | the position is always stored. Beyond 50 m the error carries the rounded distance and nothing is selected. Otherwise the checkpoint is selected with one false entry per distinct item |
| GuardPage.GuardDashboard.PositionFailed | app/guard/page.tsx:124-127 | a position failure sets "Unable to get your location…" and ends loading |
| GuardPage.GuardDashboard.ToggleItem | app/guard/page.tsx:151-156 | only the toggled item flips (an absent item becomes true), and every other item reads as before |
| GuardPage.GuardDashboard.SubmitEnabled | app/guard/page.tsx:295 | submit is enabled exactly when nothing is loading and every item is checked |
| GuardPage.GuardDashboard.SubmitPatrol | app/guard/page.tsx:158-193 | nothing happens without a selection, a position and a user. Otherwise the body carries the checklist as it stood. On success the selection and checklist are cleared; on failure the server's message (or the default) is shown and the session is kept. Loading ends in every case. A submit the button allows carries only checked items |
| GuardPage.GuardDashboard.Cancel | app/guard/page.tsx:301 | cancelling only clears the selection |
| GuardPage.GuardDashboard.PatrolsLoaded | app/guard/page.tsx:67-76 | the progress panel shows the loaded records |
| GuardPage.InitialChecklist | app/guard/page.tsx:117-121 | the keys are the checkpoint's items with repeats collapsed, and all are false |
| GuardPage.SeededChecklistBlocksSubmit | app/guard/page.tsx:295 | a freshly seeded checklist blocks submit exactly when the checkpoint has at least one item |
| GuardPage.PageAndGateAgree | app/guard/page.tsx:103-114 | for the same distance function and coordinates, the page's own test (`PageOpens`, which `PositionFound` uses to decide) opens the checklist exactly when the server would accept |
| GuardPage.RejectionText | app/guard/page.tsx:186 | the shown error is the server's message when that message is non-empty, and "Failed to submit patrol" otherwise |
| GuardPage.GateRejectionShownVerbatim | app/guard/page.tsx:186 | every rejection from the check-in gate reaches the guard in the gate's own words |
| GuardPage.ProgressFullIffNoneRemaining | app/guard/page.tsx:199-201 | the bar reaches 100 percent exactly when no patrols remain, and each patrol adds 20 percent |
| AdminPage.ExpectedPatrols | app/admin/page.tsx:225 | exactly five expected patrols per listed guard: the count is a multiple of five, and dividing by five gives the number of guards |
| AdminPage.CompletionRate | app/admin/page.tsx:226 | 0 when nothing is expected; otherwise the nearest whole percentage of done to expected, with no cap |
| AdminPage.MissedPatrols | app/admin/page.tsx:227 | zero once the expected count is reached; otherwise exactly the shortfall |
| AdminPage.RateCanExceedHundred | app/admin/page.tsx:226 | six patrols by one guard show as 120 percent |
| AdminPage.RateFullIff | app/admin/page.tsx:226 | the rate reaches 100 exactly when 200·done ≥ 199·expected |
| AdminPage.FullRateDoesNotMeanNoneMissed | app/admin/page.tsx:226-227 | when nothing is missed the rate is at least 100, but 399 of 400 shows 100 percent with one missed |
| AdminPage.SavedChecklist | app/admin/page.tsx:166 | saving keeps exactly the rows that are not blank after trimming, untrimmed |
| AdminPage.SavedChecklistDropsOnlyWhitespace | app/admin/page.tsx:166 | a row is dropped exactly when it is entirely white space |
| AdminPage.SaveRequest | app/admin/page.tsx:162-181 | a form with an id sends a PUT for that id, and one without sends a POST; both carry the filtered checklist |
| AdminPage.EditThenSaveIsIdentity | app/admin/page.tsx:552-558 | editing a checkpoint and saving it untouched gives the checkpoint back unchanged, provided its items are not blank and its coordinates survive the text round trip |
| AdminPage.AdminDashboard.constructor | app/admin/page.tsx:54-60 | the form starts empty, with a single empty checklist row |
| AdminPage.AdminDashboard.GuardsLoaded | app/admin/page.tsx:91-99 | the listed guards are the loaded ones |
| AdminPage.AdminDashboard.PatrolsLoaded | app/admin/page.tsx:111-119 | the listed patrols are the loaded ones |
| AdminPage.AdminDashboard.EditItem | app/admin/page.tsx:484-488 | typing replaces only the row at its index; the length and the other fields are kept |
| AdminPage.AdminDashboard.AddItem | app/admin/page.tsx:495-498 | "+" appends exactly one empty row |
| AdminPage.AdminDashboard.RemoveItem | app/admin/page.tsx:506-509 | "-" removes exactly the row at its index, and the rest keep their order; the last row is never removed, so at least one row remains |
| AdminPage.AdminDashboard.EditLocation | app/admin/page.tsx:552-558 | the form is filled from the checkpoint, with one empty row after its items |
| AdminPage.AdminDashboard.CancelEdit | app/admin/page.tsx:524 | the form returns to its empty state |
| AdminPage.AdminDashboard.SaveLocation | app/admin/page.tsx:159-187 | the request is built from the form as it stood; once the request resolves (any HTTP answer) the form is reset to one empty row, and a rejected request keeps the form as typed |
| AdminPage.AdminDashboard.Rate | app/admin/page.tsx:224-226 | the page's rate over the loaded guards and patrols is 0 with no guards, and at least 100 when guards are listed and none of their patrols was missed |
| AdminPage.AdminDashboard.Missed | app/admin/page.tsx:225-227 | nothing is shown as missed exactly when the loaded patrols reach five per loaded guard |
| AdminPage.AdminDashboard.Export | app/admin/page.tsx:199-211 | when no cell holds a line break, the exported text of the loaded patrols has one line per patrol after the header |
| AdminPage.RowCells | app/admin/page.tsx:201-209 | each patrol gives one cell per header column |
| AdminPage.ChecklistCellShape | app/admin/page.tsx:208 | for every checklist, the cell is built entry by entry: empty for no entries, the entry's `item: Yes`/`item: No` text for one, and each further entry appends `; ` and its text |
| AdminPage.CsvLineSingleLine | app/admin/page.tsx:211 | a line contains no line break when none of its cells does |
| AdminPage.CsvHasOneLinePerPatrol | app/admin/page.tsx:199-211 | when no cell has a line break, the export splits into the header line and then one line per patrol, in order |
| AdminPage.QuotesAreNotEscaped | app/admin/page.tsx:211 | quotes are not escaped, so the single cell `a","b` exports the same as the two cells `a` and `b` |

## Left out

- The haversine formula (lib/data.ts:97-110 and app/guard/page.tsx:136-149) and floating point. Distance is an opaque non-negative function passed in, so only the 50 m threshold decision is modelled. The model does not capture that the client's and server's copies compute the same value, or NaN from bad input.
- Numbers are exact reals. `Math.round`, `toFixed(6)`, `toLocaleString`, `toString` and `parseFloat` are exact operations or function parameters. A `parseFloat` that yields NaN is not modelled.
- Request bodies that are not JSON, and a JSON `null` body on a route that destructures it (the check-in, both PUTs and login), reach the routes' 500 answers; neither is modelled. The two creation POSTs spread a `null` body into an empty object, which is not modelled either, and extra keys are not modelled. A check-in body's `photoUrl` is kept, but the guard page never sends one.
- Missing or non-numeric coordinates in a check-in raise nothing. The distance becomes NaN (lib/data.ts:99-109), and since `NaN > 50` is false the check-in passes the 50 m test. It is then stored with a NaN distance and answered with 200 (app/api/patrols/route.ts:46-66). The model's distance function always yields a number, so this bypass is not captured.
- Missing fields in a guard or location creation are stored as sent, and a missing username or password at login gets the 401 answer; the model's bodies always carry every field.
- PatrolsRoute.Post: the preserved "every stored record is within 50 m" holds only for check-ins with numeric coordinates; a non-numeric one is stored with a NaN distance, as described above.
- JavaScript object key order: integer-like keys come first in `Object.entries`. `ChecklistMap` keeps insertion order.
- The session held in `localStorage`, the role redirects, logout and routing on both pages. The guard page's `user` is a constructor input.
- `confirm` dialogs, the Blob/anchor download and its file name, the map component, tab switching, and everything about rendering.
- The `setTimeout` that clears the success message, and the ordering of late or concurrent asynchronous results. Each result is one deterministic transition method.
- The admin page's guard form (`handleGuardSubmit`, the guard Edit button) and the two delete handlers. The requests they send are those of `GuardsRoute` and `LocationsRoute`; their form state is not modelled.
- The text inputs for a checkpoint's name, latitude and longitude: plain field assignments.
- The guard page's list of checkpoints (`loadLocations`).
- `getUsers`, `getLocations` and `getPatrolRecords` (lib/data.ts:113, 133, 152) return the store's fields, which the model reads directly.
- Clock values (`Date.now()`, `new Date().toISOString()`) are parameters: `now` is any natural number and `nowIso` any string.
- GuardPage.GuardDashboard.SubmitPatrol: the refresh of today's patrols after a success is `PatrolsLoaded`, a separate transition, and the timed clearing of the success message is not modelled.
- The check-in route never inspects `checklistResults`, so a check-in with unchecked items is stored if it reaches the server. Only the disabled submit button on the guard page keeps such a check-in from being sent. A store that refused it is not modelled; the model follows the code (`PatrolsRoute.ChecklistNotInspected`).
- An unknown checkpoint and an unknown guard get one combined answer, "Invalid location or guard", so a caller cannot tell which one was unknown. Separate answers are not modelled; the model follows the code.
- Checklist labels are not checked for distinctness when a checkpoint is saved. Repeated labels collapse to one key in the guard's checklist (`GuardPage.InitialChecklist`), so one tick covers both.
