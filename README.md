# E-Ligtas incident reporting: a Dafny model

E-Ligtas is a web application for a municipal social-welfare office. A
citizen reports a child at risk through a public form. The report then
moves through a fixed pipeline of statuses:

- a barangay (village) officer reviews it;
- a supervisor assigns it to an officer;
- the officer moves it across a kanban board from "assigned" through
  "Under Investigation" and "In Progress" to "Completed".

This project models the pages and the one server route that carry that
logic, and proves what they promise.

- Public client pages:
  - the landing page, with its tutorial, news feed and image viewer
    (`ClientHome`);
  - the report form (`ReportIncident`);
  - the reference-code sign-in (`ViewMyReport`);
  - the reporter's case page, with masking, progress bar and chat
    (`MyReport`), and the header (`Topbar`).
- Staff pages:
  - the barangay review (`Barangay`);
  - the supervisor's assignment page (`AssignIncident`), active board
    (`ActiveIncidents`), case profiling (`CaseProfiling`), assigned list
    (`AssignedPage`) and account management (`CreateAdmin`);
  - the officer's dashboard (`AdminDashboard`), kanban board
    (`AssignedIncidents`) and news editor (`CreateNews`);
  - the shared validated input (`InputField`) and the staff login
    (`AdminLogin`).
- The `/api/users` route (`UsersApi`).

Shared modules:

- `Js` states the JavaScript built-ins the pages use on Dafny sequences.
- `StableSort` is `Array.prototype.sort` with a key comparator.
- `Paging` is the page arithmetic the lists share.
- `CaseStatus` holds the status pipeline with each page's own spelling.
- `Firestore` is the document store.
- `Session` holds the stored sessions.
- `Files` holds picked files and uploads.

A page whose handlers update React state becomes a `class`:

- the state variables are its fields;
- each handler is a method that states the whole new state;
- where a page only computes, it is a set of functions and lemmas.

Everything outside the program is a parameter of the operation that
uses it:

- the database and the authentication service;
- file storage and the clock;
- number parsing;
- whether a call fails.

## Model

| member | source | states |
|---|---|---|
| AssignedIncidents.ColumnOf | src/pages/adminmodule/admin/assigned_incidents.tsx:123-138 | a status is placed in the column filtering on exactly that spelling, and in no column when no column has it |
| AssignedIncidents.DefaultFormData | src/pages/adminmodule/admin/assigned_incidents.tsx:72-90 | the default intake has exactly the seventeen keys, each "" |
| AssignedIncidents.MergeFormData | src/pages/adminmodule/admin/assigned_incidents.tsx:119 | the merged intake has every default key, keeps every stored field's value, is "" exactly on the defaults the document lacks, and has no other keys |
| AssignedIncidents.GuardAdmits | src/pages/adminmodule/admin/assigned_incidents.tsx:179-188 | a drop passes the guard exactly for the six moves between neighbouring columns |
| AssignedIncidents.DropRejected | src/pages/adminmodule/admin/assigned_incidents.tsx:181-188 | the drop handler's early-return test, one disjunct per source column; GuardAdmits and NoSkip state which moves it lets through |
| AssignedIncidents.IsValidTarget | src/pages/adminmodule/admin/assigned_incidents.tsx:289-296 | the column highlight: false without a drag, otherwise the same four source cases as the guard; ValidTargetMatchesGuard proves the two agree |
| AssignedIncidents.ValidTargetMatchesGuard | src/pages/adminmodule/admin/assigned_incidents.tsx:289-296 | the highlight test admits exactly the drops that pass the guard, which are exactly the drops that do something; with no drag in progress nothing is a target |
| AssignedIncidents.SameColumnDoesNothing | src/pages/adminmodule/admin/assigned_incidents.tsx:179 | dropping a card on its own column does nothing |
| AssignedIncidents.EffectTable | src/pages/adminmodule/admin/assigned_incidents.tsx:190-248 | each forward move opens its own form (referral for To Do to Investigation, report for Investigation to In Progress, completion for In Progress to Completed), and exactly the three backward moves write the status directly |
| AssignedIncidents.EffectOf | src/pages/adminmodule/admin/assigned_incidents.tsx:179-213 | the branch a drop takes, tested in the handler's order: same column, guard, first form, second form, completion form, revert; EffectTable lists its values |
| AssignedIncidents.MovesArePipelineSteps | src/pages/adminmodule/admin/assigned_incidents.tsx:181-248 | every drop that does something is a step of the case pipeline |
| AssignedIncidents.WithoutId | src/pages/adminmodule/admin/assigned_incidents.tsx:219-228 | the filtered column keeps exactly the cards with another id, in order |
| AssignedIncidents.LoadAll | src/pages/adminmodule/admin/assigned_incidents.tsx:114-120 | one incident per fetched document, in query order, each with its merged intake |
| AssignedIncidents.Load | src/pages/adminmodule/admin/assigned_incidents.tsx:117-120 | one fetched document as a card: its id, its fields and the merged intake (MergeFormData); LoadAll states the list |
| AssignedIncidents.NaNSortKeepsOrder | src/pages/adminmodule/admin/assigned_incidents.tsx:142-153 | the comparator reads a field no document has, so every comparison is NaN, treated as equal, and the stable sort keeps query order |
| AssignedIncidents.BucketsPartition | src/pages/adminmodule/admin/assigned_incidents.tsx:123-138 | a fetched incident lands in a column exactly when its status is that column's |
| AssignedIncidents.AllStatusWithout | src/pages/adminmodule/admin/assigned_incidents.tsx:219-228 | removing a card keeps a column's cards all of its status |
| AssignedIncidents.BucketAppend | src/pages/adminmodule/admin/assigned_incidents.tsx:123-138 | one more document adds itself to exactly its own column |
| AssignedIncidents.BucketStatus | src/pages/adminmodule/admin/assigned_incidents.tsx:123-138 | every card of a column has the column's status |
| AssignedIncidents.Write | src/pages/adminmodule/admin/assigned_incidents.tsx:242-248 | a write keeps the same documents and changes no other document |
| AssignedIncidents.RevertKeepsForms | src/pages/adminmodule/admin/assigned_incidents.tsx:244 | a backward move writes only the status: stored forms and intake survive it, and a failed write keeps the old status |
| AssignedIncidents.SortByTimestamp | src/pages/adminmodule/admin/assigned_incidents.tsx:150-153 | each column's sort leaves it in query order |
| AssignedIncidents.SplitByStatus | src/pages/adminmodule/admin/assigned_incidents.tsx:109-139 | the four lists are the fetched incidents whose status is exactly the list's, in query order |
| AssignedIncidents.Board.constructor | src/pages/adminmodule/admin/assigned_incidents.tsx:34-70 | the opening board: four empty columns, no drag, no modal, the blank forms |
| AssignedIncidents.Board.SetList | src/pages/adminmodule/admin/assigned_incidents.tsx:150-153 | exactly one column is replaced |
| AssignedIncidents.Board.Fetch | src/pages/adminmodule/admin/assigned_incidents.tsx:96-160 | with no signed-in user or a failed query the board is unchanged; otherwise each column holds exactly the fetched incidents of its status, in query order |
| AssignedIncidents.Board.DragStart | src/pages/adminmodule/admin/assigned_incidents.tsx:163-167 | the drag's source and the current incident are recorded, nothing else changes |
| AssignedIncidents.Board.DragEnd | src/pages/adminmodule/admin/assigned_incidents.tsx:285 | no drag is in progress |
| AssignedIncidents.Board.Move | src/pages/adminmodule/admin/assigned_incidents.tsx:216-239 | the card leaves its source column and is appended to the destination, every other column unchanged, every column still all of its status |
| AssignedIncidents.Board.OpenReferral | src/pages/adminmodule/admin/assigned_incidents.tsx:190-200 | the referral form takes the child's name, address and contact and the referral date, and its modal opens |
| AssignedIncidents.Board.MoveBack | src/pages/adminmodule/admin/assigned_incidents.tsx:215-250 | the card moves to the destination column with the new status, the status is written (a failed write is ignored) and the drag ends |
| AssignedIncidents.Board.Drop | src/pages/adminmodule/admin/assigned_incidents.tsx:169-251 | a drop that does nothing changes nothing; a forward move opens exactly its form, the referral form filled from the card; a backward move moves the card, writes the status and ends the drag |
| AssignedIncidents.Board.SaveCompleteForm | src/pages/adminmodule/admin/assigned_incidents.tsx:253-283 | with a current incident and a successful write the document gets the completion form and status "Completed", the card leaves its old column and joins Completed, and the modal closes; otherwise nothing changes |
| AssignedIncidents.Board.SaveFirstForm | src/pages/adminmodule/admin/assigned_incidents.tsx:336-356 | with a current incident and a successful write the document gets the referral form and status "Under Investigation", the card moves from To Do to Investigation, and the modal closes; otherwise nothing changes |
| AssignedIncidents.Board.SaveSecondForm | src/pages/adminmodule/admin/assigned_incidents.tsx:362-382 | with a current incident and a successful write the document gets the report form and status "In Progress", the card moves from Investigation to In Progress, and the modal closes; otherwise nothing changes |
| AssignedIncidents.Board.EditForm | src/pages/adminmodule/admin/assigned_incidents.tsx:303-326 | the typed value goes to the first open form in the order referral, report, completion, and to no other |
| AssignedIncidents.Board.CancelForms | src/pages/adminmodule/admin/assigned_incidents.tsx:299-360 | each cancel closes only its own modal |
| AssignIncident.Tier | src/pages/adminmodule/superadmin/assign_incident.tsx:103-107 | Physical Abuse is exactly tier 0, Neglect exactly tier 2, every other type tier 1 |
| AssignIncident.Compare | src/pages/adminmodule/superadmin/assign_incident.tsx:102-112 | the comparator of the triage sort, test for test; CompareIsKeyOrder proves it is the order of the (Tier, newest-first) keys |
| AssignIncident.CompareIsKeyOrder | src/pages/adminmodule/superadmin/assign_incident.tsx:102-112 | the comparator is negative, zero or antisymmetric exactly as the (tier, newest-first time) keys compare, so it is a consistent comparator |
| AssignIncident.SortClients | src/pages/adminmodule/superadmin/assign_incident.tsx:101-113 | the sorted list is a permutation of the query result |
| AssignIncident.TriageOrder | src/pages/adminmodule/superadmin/assign_incident.tsx:101-113 | in the sorted list no Physical Abuse case follows another type, no other type follows Neglect, and within a tier newer cases come first |
| AssignIncident.SortKeepsTriaged | src/pages/adminmodule/superadmin/assign_incident.tsx:101-113 | sorting a list already in triage order leaves it unchanged (the sort is stable) |
| AssignIncident.Search | src/pages/adminmodule/superadmin/assign_incident.tsx:127-136 | every result's name contains the term ignoring case, and there are no more results than clients |
| AssignIncident.SearchMembers | src/pages/adminmodule/superadmin/assign_incident.tsx:127-136 | the search keeps exactly the clients whose name contains the term, in their list order |
| AssignIncident.EmptySearchShowsAll | src/pages/adminmodule/superadmin/assign_incident.tsx:127-136 | an empty term shows every client |
| AssignIncident.Without | src/pages/adminmodule/superadmin/assign_incident.tsx:153-154 | no remaining row has the removed id |
| AssignIncident.WithoutCommutesWithSearch | src/pages/adminmodule/superadmin/assign_incident.tsx:153-154 | dropping a case from the shown list gives the search over the full list without it, so the two lists stay consistent |
| AssignIncident.AssignPage.constructor | src/pages/adminmodule/superadmin/assign_incident.tsx:27-36 | the initial state: empty lists, nobody assigning, page 1 of 10 rows, no error |
| AssignIncident.AssignPage.TotalPages | src/pages/adminmodule/superadmin/assign_incident.tsx:179 | the pages cover every shown row |
| AssignIncident.AssignPage.Displayed | src/pages/adminmodule/superadmin/assign_incident.tsx:180-183 | a page holds at most itemsPerPage rows |
| AssignIncident.AssignPage.Fetch | src/pages/adminmodule/superadmin/assign_incident.tsx:64-125 | both lists become the cases in triage order; a failed query keeps the lists and sets its message, the team-member failure's message being the one left when both fail |
| AssignIncident.AssignPage.SearchFor | src/pages/adminmodule/superadmin/assign_incident.tsx:127-136 | the shown list is the search of the full list by the new term, and the page is not reset |
| AssignIncident.AssignPage.AssignClick | src/pages/adminmodule/superadmin/assign_incident.tsx:138-141 | the picker opens on that row with nobody selected |
| AssignIncident.AssignPage.SelectTeamMember | src/pages/adminmodule/superadmin/assign_incident.tsx:246 | the selection becomes the picked officer |
| AssignIncident.AssignPage.CancelAssign | src/pages/adminmodule/superadmin/assign_incident.tsx:162-165 | the picker closes and the selection is cleared |
| AssignIncident.AssignPage.SaveAssign | src/pages/adminmodule/superadmin/assign_incident.tsx:143-160 | with no officer only the warning toast; otherwise the case gets the officer and status "assigned", and only a successful write removes it from both lists and closes the picker; a failed write shows the failure toast and changes nothing else; from any state, a shown list that was the search over the full list stays so |
| AssignIncident.AssignPage.Remove | src/pages/adminmodule/superadmin/assign_incident.tsx:167-177 | the status becomes "removed" and only then does the case leave both lists; a failed write sets the page error and keeps the lists; a shown list that was the search over the full list stays so |
| AssignIncident.AssignPage.SetItemsPerPage | src/pages/adminmodule/superadmin/assign_incident.tsx:303-308 | the page size becomes the picked size and the page goes back to 1 |
| AssignIncident.AssignPage.PrevPage | src/pages/adminmodule/superadmin/assign_incident.tsx:321 | the page becomes Paging.Prev of the old page, never below 1 |
| AssignIncident.AssignPage.NextPage | src/pages/adminmodule/superadmin/assign_incident.tsx:328 | Next as written: never past the last page, and page 0 from a real page when the list is empty (see Findings) |
| Barangay.FieldOrNA | src/pages/adminmodule/barangay/index.tsx:122-126 | a present non-empty field is kept; a missing record, a missing field or "" shows "N/A", so the value is never empty |
| Barangay.MappingDefaults | src/pages/adminmodule/barangay/index.tsx:118-130 | without intake data every text field is "N/A", a missing creation time is 0, missing uploads are [], and the id is the document's |
| Barangay.Rank | src/pages/adminmodule/barangay/index.tsx:133-134 | the rank is the type's position in [Physical Abuse, Rape, Neglect], and -1 exactly for a type outside that list |
| Barangay.ComparatorIsKeyOrder | src/pages/adminmodule/barangay/index.tsx:132-135 | the comparator says "not after" exactly when the keys are in order |
| Barangay.SortByIncident | src/pages/adminmodule/barangay/index.tsx:132-135 | the sorted list is a permutation of the fetched records |
| Barangay.IncidentOrderHolds | src/pages/adminmodule/barangay/index.tsx:132-135 | ranks never decrease along the sorted list; unlisted types come first and Neglect last |
| Barangay.UnlistedBeforePhysicalAbuse | src/pages/adminmodule/barangay/index.tsx:133-134 | an unlisted type such as the "N/A" default sorts before Physical Abuse |
| Barangay.Search | src/pages/adminmodule/barangay/index.tsx:164-175 | every result's name, address or incident type contains the term, ignoring case |
| Barangay.SearchMembers | src/pages/adminmodule/barangay/index.tsx:164-175 | the search keeps every matching client, in list order |
| Barangay.EmptySearchShowsAll | src/pages/adminmodule/barangay/index.tsx:164-175 | an empty term shows every client |
| Barangay.ToLowerIdempotent | src/pages/adminmodule/barangay/index.tsx:165 | lowering the stored, already lowered term changes nothing |
| Barangay.Without | src/pages/adminmodule/barangay/index.tsx:183-184 | no remaining row has the removed id |
| Barangay.WithoutKeepsOthers | src/pages/adminmodule/barangay/index.tsx:183-184 | every other row stays, in order |
| Barangay.WithoutCommutesWithSearch | src/pages/adminmodule/barangay/index.tsx:183-201 | removing a client from the shown list gives the search over the full list without it |
| Barangay.MapAll | src/pages/adminmodule/barangay/index.tsx:118-130 | one display record per fetched document, in query order |
| Barangay.ReviewPage.constructor | src/pages/adminmodule/barangay/index.tsx:84-95 | the initial state: empty lists, loading, no modal, no error |
| Barangay.ReviewPage.Fetch | src/pages/adminmodule/barangay/index.tsx:109-146 | both lists become the mapped, sorted records and the error is cleared, or the fetch error is set; loading ends false |
| Barangay.ReviewPage.SearchFor | src/pages/adminmodule/barangay/index.tsx:164-175 | the stored term is lowered and the shown list is the search of the full list by it |
| Barangay.ReviewPage.AskDelete | src/pages/adminmodule/barangay/index.tsx:278-279 | that client is chosen and the delete modal opens |
| Barangay.ReviewPage.View | src/pages/adminmodule/barangay/index.tsx:269-270 | that client is chosen and the view modal opens |
| Barangay.ReviewPage.Delete | src/pages/adminmodule/barangay/index.tsx:177-192 | with no chosen client nothing changes; a successful delete removes the document and the client from both lists and closes the modal; a failure only sets the error; works from any state, and a shown list that was the search over the full list stays so |
| Barangay.ReviewPage.Validate | src/pages/adminmodule/barangay/index.tsx:194-209 | with no viewed client nothing changes; otherwise the status becomes "unassigned", and only a successful write removes the client from both lists and closes the modal; works from any state, and a shown list that was the search over the full list stays so |
| Barangay.ValidationIsFirstStep | src/pages/adminmodule/barangay/index.tsx:199 | validation is the pipeline's step from "review" to "unassigned" |
| ReportIncident.InitialForm | src/components/ReportIncidentModal.tsx:18-39 | the opening form has exactly the twenty intake keys, each "" |
| ReportIncident.EmptyRow | src/components/ReportIncidentModal.tsx:44-86 | a fresh family or household row has exactly the nine columns, each "" |
| ReportIncident.FormOkIsEveryRule | src/components/ReportIncidentModal.tsx:98-114 | the form passes exactly when each of the seven rules passes |
| ReportIncident.RuleOk | src/components/ReportIncidentModal.tsx:102-110 | when one of the seven checks passes: a non-empty field, an eleven-character contact, an age from 1 to 18; ValidateForm flags exactly the rules where it fails |
| ReportIncident.FormOk | src/components/ReportIncidentModal.tsx:98-114 | the whole form passes: the seven checks together; FormOkIsEveryRule proves it is every RuleOk |
| ReportIncident.Order | src/components/ReportIncidentModal.tsx:102-110 | each rule has a position among the seven checks |
| ReportIncident.Flag | src/components/ReportIncidentModal.tsx:102-110 | one check records its rule's message exactly when that rule fails, keeping the earlier rules accounted for |
| ReportIncident.ValidateForm | src/components/ReportIncidentModal.tsx:98-114 | the error object names exactly the failing rules, each with its own message, and is empty exactly when the form passes |
| ReportIncident.AllChecked | src/components/ReportIncidentModal.tsx:98-114 | after all seven checks the errors name exactly the failing rules |
| ReportIncident.ContactWantsElevenCharacters | src/components/ReportIncidentModal.tsx:103 | a 10-digit contact number, which the message asks for, is refused |
| ReportIncident.UncheckedFields | src/components/ReportIncidentModal.tsx:100-110 | civil status and school attended are read but never decide the verdict |
| ReportIncident.NonNumericAgePasses | src/components/ReportIncidentModal.tsx:107 | a non-empty age that is not a number passes the age rule |
| ReportIncident.OpeningFormHasSevenErrors | src/components/ReportIncidentModal.tsx:98-114 | the opening form cannot be submitted |
| ReportIncident.NewCase | src/components/ReportIncidentModal.tsx:145-156 | the written record holds the reporter's uid, status "review", no assignee, type "client", the clock, the three tables as typed, the upload addresses and the first-login flag |
| ReportIncident.NewCaseIsUnderReview | src/components/ReportIncidentModal.tsx:147 | a new case enters the pipeline at its first status |
| ReportIncident.TransactionId | src/components/ReportIncidentModal.tsx:159-161 | for a uid of six or more characters the code is its first three and last three characters; a shorter uid repeats as the slices overlap |
| ReportIncident.ReportModal.constructor | src/components/ReportIncidentModal.tsx:18-48 | the opening state: the blank form, one empty row per table, no files, no errors |
| ReportIncident.ReportModal.Change | src/components/ReportIncidentModal.tsx:65-76 | only the named field takes the value |
| ReportIncident.ReportModal.TableChange | src/components/ReportIncidentModal.tsx:78-83 | one column of one row changes; every other row, column and table keeps its value |
| ReportIncident.ReportModal.AddRow | src/components/ReportIncidentModal.tsx:85-87 | one empty row is appended to that table only |
| ReportIncident.ReportModal.AddFiles | src/components/ReportIncidentModal.tsx:89-92 | the selected files follow the earlier ones, in order |
| ReportIncident.ReportModal.RemoveFile | src/components/ReportIncidentModal.tsx:94-96 | exactly the file at that position is dropped, the rest keep their order; an index outside the list changes nothing |
| ReportIncident.ReportModal.Submit | src/components/ReportIncidentModal.tsx:116-176 | the errors name exactly the failing rules, each with its message; the user type becomes "client" exactly when the form passes and the sign-in and uploads succeed, even if the write then fails; a record is written, the session stored, the router sent to the report page and the modal closed exactly when the write succeeds too; loading ends false |
| ReportIncident.ReportModal.Publish | src/components/ReportIncidentModal.tsx:124-169 | after validation: the user type once sign-in and uploads succeed, then the record, the session, the redirect and the close only when the write succeeds |
| ViewMyReport.Lookup | src/components/ViewMyReportModal.tsx:24-74 | a code shorter than six characters is refused, a failed read gives the generic error, no matching id gives "No matching transaction found.", and otherwise the session opens a listed case whose id starts with the code's first three and ends with its last three characters, storing the typed code |
| ViewMyReport.MiddleIgnored | src/components/ViewMyReportModal.tsx:36-48 | two codes that share their first and last three characters open the same case |
| ViewMyReport.FirstMatchWins | src/components/ViewMyReportModal.tsx:50-52 | the case opened is the first matching document in collection order |
| ViewMyReport.RoundTrip | src/components/ReportIncidentModal.tsx:159-161 | the code handed out at submission for an id of six or more characters matches that case, so the lookup always signs someone in when the case exists |
| ViewMyReport.AmbiguousCode | src/components/ViewMyReportModal.tsx:45-52 | the code "abcdef" opens the earlier-listed case "abcXYZdef" instead of "abcdef": the code does not identify a case |
| MyReport.MaskPart | src/pages/client/myreport.tsx:75-81 | a part keeps its length; a part of two characters or fewer stays as it is, a longer one keeps its first and last characters and shows '*' in between |
| MyReport.MaskParts | src/pages/client/myreport.tsx:74-81 | each part is masked on its own, in order |
| MyReport.MaskName | src/pages/client/myreport.tsx:71-83 | a missing or empty name masks to "" |
| MyReport.MaskPartKeepsSpaces | src/pages/client/myreport.tsx:75-81 | masking a part never introduces a space |
| MyReport.MaskPartIdempotent | src/pages/client/myreport.tsx:75-81 | masking a masked part changes nothing |
| MyReport.MaskNameShape | src/pages/client/myreport.tsx:71-83 | the masked name splits into the masked parts of the original and has its length |
| MyReport.MaskNameIdempotent | src/pages/client/myreport.tsx:71-83 | masking a masked name changes nothing |
| MyReport.MaskNumber | src/pages/client/myreport.tsx:85-90 | a missing number shows "", one under seven characters shows as it is, a longer one shows its first two characters, eight '*' and its last character |
| MyReport.MaskNumberHidesMiddle | src/pages/client/myreport.tsx:85-90 | two long numbers sharing their first two and last characters mask alike |
| MyReport.Progress | src/pages/client/myreport.tsx:269-282 | the bar lies within 0..100, is full exactly when the case is completed, and is empty exactly for a status outside the four assigned-onwards statuses |
| MyReport.ProgressAlongPipeline | src/pages/client/myreport.tsx:269-282 | the bar never goes back as a case moves forward along the pipeline |
| MyReport.NoProgressBeforeAssignment | src/pages/client/myreport.tsx:269-282 | exactly review, unassigned and removed cases show no progress |
| MyReport.RemovedBannerNeverShown | src/pages/client/myreport.tsx:482 | as written, the "Report Removed" banner shows for no status any page writes (see Findings) |
| MyReport.ShowsRemovedAsWritten | src/pages/client/myreport.tsx:482 | the banner test as written, `status == 'Removed'`; RemovedBannerNeverShown proves no written status meets it |
| MyReport.RemovedBannerShownWhenRemoved | src/pages/adminmodule/superadmin/assign_incident.tsx:170 | the corrected banner shows exactly for a removed case |
| MyReport.ShowsRemoved | src/pages/client/myreport.tsx:482 | the corrected banner test, against the spelling the Remove button writes; RemovedBannerShownWhenRemoved proves it holds exactly for removed cases |
| MyReport.Compose | src/pages/client/myreport.tsx:230-235 | a message with images is a "file" message, otherwise a "chat" message, sent by the case with the clock's time |
| MyReport.FileMessageAddresses | src/pages/client/myreport.tsx:232 | a file message's text splits back, at the commas, into the uploaded addresses |
| MyReport.ChatMessageIsText | src/pages/client/myreport.tsx:230-235 | a message without images carries exactly the typed text |
| MyReport.ChatBox.constructor | src/pages/client/myreport.tsx:213-214 | the chat box opens empty and not sending |
| MyReport.ChatBox.FileChange | src/pages/client/myreport.tsx:192-207 | no selection changes nothing; otherwise the png and jpeg images of the selection follow the earlier ones, in order |
| MyReport.ChatBox.RemoveImage | src/pages/client/myreport.tsx:209-211 | exactly the image at that position is dropped |
| MyReport.ChatBox.SendMessage | src/pages/client/myreport.tsx:213-247 | nothing happens without a case id or with neither text nor images; otherwise a message is appended exactly when every upload and the write succeed, and only then are the text and images cleared; sending ends false |
| Topbar.MaskName | src/components/Topbar.tsx:66-78 | a missing or empty name masks to "" |
| Topbar.SameAsClientPage | src/components/Topbar.tsx:66-78 | the header's copy of the mask computes the same as the report page's |
| Topbar.Greeting | src/components/Topbar.tsx:82-100 | before the document is read the header shows "Loading..." |
| Topbar.ClientGreetingIsMasked | src/components/Topbar.tsx:86 | a client is greeted with the reporter's masked name, which masking again leaves as it is |
| CaseStatus.Parse | src/pages/adminmodule/superadmin/assign_incident.tsx:152-170 | a status read back is one some page writes, under its own spelling |
| CaseStatus.ParseName | src/pages/adminmodule/admin/assigned_incidents.tsx:123-138 | every written status reads back as itself, so the spellings are pairwise distinct |
| CaseStatus.RemovedBannerNeverWritten | src/pages/client/myreport.tsx:482 | no page writes the spelling the report page's banner tests |
| CaseStatus.StepIsAdjacent | src/pages/adminmodule/admin/assigned_incidents.tsx:169-248 | every status change a page performs moves one place along the pipeline or leaves it for removal, and nothing moves back to review |
| CaseStatus.Step | src/pages/adminmodule/admin/assigned_incidents.tsx:169-248 | the nine status changes the pages perform (validation, assignment, removal, the three form saves, the three reverts); StepIsAdjacent, NoSkip and RemovedIsFinal are about it |
| CaseStatus.NoSkip | src/pages/adminmodule/admin/assigned_incidents.tsx:181-188 | no status change skips a status of the pipeline |
| CaseStatus.RemovedIsFinal | src/pages/adminmodule/superadmin/assign_incident.tsx:167-177 | nothing leaves "removed", and only an unassigned case can be removed |
| Paging.TotalPages | src/pages/adminmodule/superadmin/assign_incident.tsx:179 | the page count is the least number of pages of per rows that hold n rows |
| Paging.PageSlice | src/pages/adminmodule/superadmin/assign_incident.tsx:180-183 | a page holds at most per rows |
| Paging.Prev | src/pages/adminmodule/superadmin/assign_incident.tsx:321 | Prev goes back one page and never below page 1 |
| Paging.NextAsWritten | src/pages/adminmodule/superadmin/assign_incident.tsx:328 | as written, Next goes forward one page or to the last page, never past the page count |
| Paging.NextAsWrittenOnEmptyList | src/pages/adminmodule/superadmin/assign_incident.tsx:328 | with no rows there are no pages and Next moves from page 1 to page 0 (see Findings) |
| Paging.Next | src/pages/adminmodule/superadmin/assign_incident.tsx:328 | the corrected Next stays on a page that exists: it goes forward one page up to the last page and never below page 1 |
| Paging.NextDiffersOnlyWithoutPages | src/pages/adminmodule/superadmin/assign_incident.tsx:328 | from a real page, Next as written and the corrected Next differ exactly when there are no pages |
| Paging.PageZeroIsEmpty | src/pages/adminmodule/superadmin/assign_incident.tsx:180-183 | page 0 shows no rows however long the list |
| Paging.PageContents | src/pages/adminmodule/superadmin/assign_incident.tsx:180-183 | page p shows the rows (p-1)*per up to p*per of the list, cut at its end |
| Paging.PagesPartition | src/pages/adminmodule/superadmin/assign_incident.tsx:179-183 | the pages from 1 to the page count, laid end to end, give back the whole list: no row is lost or shown twice |
| CaseProfiling.Search | src/pages/adminmodule/superadmin/case_profilling.tsx:128-135 | every result's name or incident type contains the term, ignoring case |
| CaseProfiling.SearchMembers | src/pages/adminmodule/superadmin/case_profilling.tsx:128-135 | the search keeps every matching case, in list order |
| CaseProfiling.SameOrderAsAssignPage | src/pages/adminmodule/superadmin/case_profilling.tsx:148-168 | the comparator, with its extra Physical Abuse branch, computes exactly the assignment page's triage comparator |
| CaseProfiling.Compare | src/pages/adminmodule/superadmin/case_profilling.tsx:148-168 | the comparator of the profiling sort with its extra Physical Abuse branch; SameOrderAsAssignPage proves it equals AssignIncident.Compare |
| CaseProfiling.CompareIsKeyOrder | src/pages/adminmodule/superadmin/case_profilling.tsx:148-168 | the comparator is negative or zero exactly as the (tier, newest-first time) keys compare |
| CaseProfiling.SortCases | src/pages/adminmodule/superadmin/case_profilling.tsx:148 | the sorted copy is a permutation of the shown cases |
| CaseProfiling.TriageOrder | src/pages/adminmodule/superadmin/case_profilling.tsx:148-168 | Physical Abuse first, Neglect last, and newer cases first within a tier |
| CaseProfiling.PageOf | src/pages/adminmodule/superadmin/case_profilling.tsx:170-172 | a page holds at most five cases |
| CaseProfiling.PagesShowEveryCase | src/pages/adminmodule/superadmin/case_profilling.tsx:147-174 | the pages from 1 to the page count show every case exactly once, in triage order |
| CaseProfiling.PrintModalFor | src/pages/adminmodule/superadmin/case_profilling.tsx:139 | the completed-case report is chosen exactly for a "Completed" case |
| CaseProfiling.ExcelRow | src/pages/adminmodule/superadmin/case_profilling.tsx:178-199 | a spreadsheet row has the twenty columns |
| CaseProfiling.ExcelRows | src/pages/adminmodule/superadmin/case_profilling.tsx:178-199 | one row per shown case, in order |
| CaseProfiling.WidthIsLongestCell | src/pages/adminmodule/superadmin/case_profilling.tsx:204-211 | a column's width is the length of its longest cell: no cell is longer and some cell is that long |
| CaseProfiling.Width | src/pages/adminmodule/superadmin/case_profilling.tsx:204-210 | the accumulator's value for one column after the rows, folded by Math.max; WidthIsLongestCell proves it is the longest cell |
| CaseProfiling.ColumnWidths | src/pages/adminmodule/superadmin/case_profilling.tsx:204-214 | no rows give no widths; otherwise each of the twenty columns is two wider than its longest cell |
| CaseProfiling.ProfilingPage.constructor | src/pages/adminmodule/superadmin/case_profilling.tsx:77-84 | the opening state: no cases, no search, page 1, no modal |
| CaseProfiling.ProfilingPage.TotalPages | src/pages/adminmodule/superadmin/case_profilling.tsx:174 | enough pages of five for every case, and none exactly when there are no cases |
| CaseProfiling.ProfilingPage.Fetch | src/pages/adminmodule/superadmin/case_profilling.tsx:103-135 | a failed read changes nothing; otherwise the cases become the fetched ones filtered by the current search, from page 1 |
| CaseProfiling.ProfilingPage.SearchChange | src/pages/adminmodule/superadmin/case_profilling.tsx:124-135 | the shown cases are the search of all cases by the new term, from page 1 |
| CaseProfiling.ProfilingPage.PrintReport | src/pages/adminmodule/superadmin/case_profilling.tsx:137-140 | that case's report opens, completed or in progress by its status |
| CaseProfiling.ProfilingPage.CloseModal | src/pages/adminmodule/superadmin/case_profilling.tsx:142-145 | no case and no modal is selected |
| CaseProfiling.ProfilingPage.PrevPage | src/pages/adminmodule/superadmin/case_profilling.tsx:296 | back one page, never below page 1 |
| CaseProfiling.ProfilingPage.NextPage | src/pages/adminmodule/superadmin/case_profilling.tsx:303 | Next as written: never past the last page, and page 0 from a real page when there are no cases (see Findings) |
| AdminDashboard.CountType | src/pages/adminmodule/admin/index.tsx:147-158 | no count exceeds the number of cases |
| AdminDashboard.CountOther | src/pages/adminmodule/admin/index.tsx:147-158 | the cases no counter counts are at most all of them |
| AdminDashboard.CountIncidents | src/pages/adminmodule/admin/index.tsx:143-158 | the three counters are the numbers of cases whose incident type is exactly Rape, Physical Abuse and Neglect |
| AdminDashboard.CountsAddUp | src/pages/adminmodule/admin/index.tsx:147-158 | each case is counted by exactly one counter or by none |
| AdminDashboard.NoOtherIffAllKnown | src/pages/adminmodule/admin/index.tsx:147-158 | no case is left uncounted exactly when every case has one of the three types |
| AdminDashboard.DisplayedTotal | src/pages/adminmodule/admin/index.tsx:263 | the "Monthly Incidents" figure is at most the number of cases, and equal exactly when every case has a counted type |
| AdminDashboard.CountAddress | src/pages/adminmodule/admin/index.tsx:204-211 | no address count exceeds the number of cases |
| AdminDashboard.CountNonEmpty | src/pages/adminmodule/admin/index.tsx:208 | the cases with an address are at most all of them |
| AdminDashboard.TallyCounts | src/pages/adminmodule/admin/index.tsx:202-211 | the tally lists each non-empty address once and counts each exactly, and its counts add up to the cases with an address |
| AdminDashboard.Tally | src/pages/adminmodule/admin/index.tsx:202-211 | the address tally, case by case, with its keys in first-appearance order; TallyCounts states what it counts and TallyAddresses that the loop computes it |
| AdminDashboard.TallyAddresses | src/pages/adminmodule/admin/index.tsx:202-211 | the tally is made exactly when every case has intake data, and is then the reference tally |
| AdminDashboard.Chart | src/pages/adminmodule/admin/index.tsx:217-220 | the chart's two arrays line up: the i-th address with its count |
| AdminDashboard.Dashboard.constructor | src/pages/adminmodule/admin/index.tsx:143-145 | every count starts at 0, with no chart data and no error |
| AdminDashboard.Dashboard.FetchMonthlyIncidents | src/pages/adminmodule/admin/index.tsx:114-167 | a failed query sets the error and keeps the counts; otherwise the counts are the incident counts and their total is at most the number of cases |
| AdminDashboard.Dashboard.FetchUsersAndIncidents | src/pages/adminmodule/admin/index.tsx:174-227 | a failed query, or a case without intake data, sets the error and keeps the chart; otherwise the chart lists each non-empty address once with its exact count |
| AssignedPage.QueryNeedsClientEmail | src/pages/adminmodule/admin/assigned.tsx:60-66 | the query's two conditions on the type field can only both hold when the signed-in email is "client" |
| AssignedPage.View | src/pages/adminmodule/admin/assigned.tsx:82-85 | every listed case's name contains the search, ignoring case, and has the chosen incident type unless none is chosen |
| AssignedPage.ViewMembers | src/pages/adminmodule/admin/assigned.tsx:82-85 | the filter keeps every case passing both conditions, in list order |
| AssignedPage.ViewIsTwoFilters | src/pages/adminmodule/admin/assigned.tsx:82-85 | the combined filter is the name filter followed by the type filter |
| AssignedPage.EmptyFiltersShowAll | src/pages/adminmodule/admin/assigned.tsx:82-85 | with no search and no type chosen every case is listed |
| AssignedPage.Initial | src/pages/adminmodule/admin/assigned.tsx:25-32 | the opening state is consistent: no cases, page 1 of 10 rows |
| AssignedPage.Refilter | src/pages/adminmodule/admin/assigned.tsx:80-88 | the shown list is refiltered and the page reset to 1, which is consistent exactly when the page size is an offered one |
| AssignedPage.Fetch | src/pages/adminmodule/admin/assigned.tsx:57-78 | a failed read sets only the error; otherwise the cases are replaced and the filter re-run from page 1; consistency is kept |
| AssignedPage.SetSearch | src/pages/adminmodule/admin/assigned.tsx:113 | the search is replaced and the page reset to 1; consistency is kept |
| AssignedPage.SetIncident | src/pages/adminmodule/admin/assigned.tsx:122 | the type filter is replaced and the page reset to 1; consistency is kept |
| AssignedPage.SetItemsPerPage | src/pages/adminmodule/admin/assigned.tsx:184-187 | the page size is replaced and the page reset to 1; consistency is kept |
| AssignedPage.Displayed | src/pages/adminmodule/admin/assigned.tsx:91-94 | a page holds at most itemsPerPage cases |
| AssignedPage.TotalPages | src/pages/adminmodule/admin/assigned.tsx:90 | enough pages for every listed case, and none exactly when the list is empty |
| AssignedPage.Prev | src/pages/adminmodule/admin/assigned.tsx:200 | back one page, never below 1, nothing else changed |
| AssignedPage.Next | src/pages/adminmodule/admin/assigned.tsx:207 | Next as written: never past the last page, page 0 from a real page when the list is empty (see Findings), nothing else changed |
| ActiveIncidents.Shown | src/pages/adminmodule/superadmin/active_incidents.tsx:66-68 | the search shows no more cases than there are |
| ActiveIncidents.Cards | src/pages/adminmodule/superadmin/active_incidents.tsx:99-159 | a column holds no more cards than there are cases |
| ActiveIncidents.CardMembers | src/pages/adminmodule/superadmin/active_incidents.tsx:66-99 | a card is exactly a listed case with a non-empty name containing the search and exactly the column's status |
| ActiveIncidents.NamelessNeverShown | src/pages/adminmodule/superadmin/active_incidents.tsx:67 | a case without a name is never on the board |
| ActiveIncidents.AtMostOneColumn | src/pages/adminmodule/superadmin/active_incidents.tsx:99-159 | a card sits in at most one column |
| ActiveIncidents.PipelineStatusesHidden | src/pages/adminmodule/superadmin/active_incidents.tsx:139-159 | the statuses the officer's board writes match no column, so those cases drop off the board |
| ActiveIncidents.TwoColumnsNeverFilled | src/pages/adminmodule/superadmin/active_incidents.tsx:139-159 | no status a page writes reaches the "under review" or "completed" column |
| ActiveIncidents.DateFilterIgnored | src/pages/adminmodule/superadmin/active_incidents.tsx:28-68 | the date picker changes no column |
| ClientHome.StepNext | src/pages/client/index.tsx:120-124 | Next stays within the five steps: one step on, and no change at the last step |
| ClientHome.StepPrev | src/pages/client/index.tsx:126-130 | Prev stays within the five steps: one step back, and no change at the first step |
| ClientHome.StepPrevNext | src/pages/client/index.tsx:120-130 | away from the ends, Prev undoes Next and Next undoes Prev |
| ClientHome.ProgressGrows | src/pages/client/index.tsx:442 | the progress width strictly grows with the step, stays within 0..100, and is 100 exactly at the last step |
| ClientHome.ProgressWidth | src/pages/client/index.tsx:442 | the bar's width in percent; within a tutorial step it is above 0 and at most 100, and ProgressGrows orders it |
| ClientHome.Navigate | src/pages/client/index.tsx:150-162 | the index stays within the images, moving one on with a wrap to the first or one back with a wrap to the last |
| ClientHome.NavigateInverse | src/pages/client/index.tsx:155-157 | next then prev, or prev then next, returns to the same image |
| ClientHome.ForwardIsShift | src/pages/client/index.tsx:155 | k nexts (k at most the image count) move k places along, wrapping once |
| ClientHome.Forward | src/pages/client/index.tsx:155 | k presses of the next arrow; ForwardIsShift and FullCircle state where they land |
| ClientHome.FullCircle | src/pages/client/index.tsx:155 | as many nexts as there are images return to the starting image |
| ClientHome.GridColumns | src/pages/client/index.tsx:270-278 | one, two or three images give that many columns; any other count gives two |
| ClientHome.Thumbnails | src/pages/client/index.tsx:280 | the tiles are the first images, at most four |
| ClientHome.Overlay | src/pages/client/index.tsx:293-297 | an overlay appears only on the fourth tile and only when there are more than four images |
| ClientHome.OverlayCountsHidden | src/pages/client/index.tsx:280-297 | with more than four images the fourth tile, and only it, shows the number of images not shown |
| ClientHome.NoOverlayWhenAllShown | src/pages/client/index.tsx:280-297 | with at most four images every image is a tile and there is no overlay |
| ClientHome.FeedNewestFirst | src/pages/client/index.tsx:230-232 | the feed is a permutation of the news, newest first |
| ClientHome.Feed | src/pages/client/index.tsx:230-232 | the rendered feed, a sorted copy of the news by creation time; FeedNewestFirst proves it a newest-first permutation |
| ClientHome.Home.constructor | src/pages/client/index.tsx:24-33 | the opening state: step 0, tutorial closed, no news, viewer closed at index 0 |
| ClientHome.Home.FetchNews | src/pages/client/index.tsx:90-99 | the news become the fetched documents, in collection order: the feed sorts a copy |
| ClientHome.Home.HandleClose | src/pages/client/index.tsx:115-118 | the tutorial closes |
| ClientHome.Home.HandleNext | src/pages/client/index.tsx:120-124 | the step takes its Next, staying within the steps |
| ClientHome.Home.HandlePrev | src/pages/client/index.tsx:126-130 | the step takes its Prev, staying within the steps |
| ClientHome.Home.OpenFullScreen | src/pages/client/index.tsx:132-139 | the viewer opens on that post's images at the tapped tile |
| ClientHome.Home.CloseFullScreen | src/pages/client/index.tsx:143-147 | the viewer closes with no images and index 0 |
| ClientHome.Home.NavigateImage | src/pages/client/index.tsx:150-162 | the index takes its wrapped step, staying within the images |
| CreateAdmin.RequestFor | src/pages/adminmodule/superadmin/create_admin.tsx:58-68 | PUT to the user's address exactly when an id is being edited, otherwise POST to the route; a password exactly in add mode; fullName and name both the entered name |
| CreateAdmin.BodyOf | src/pages/adminmodule/superadmin/create_admin.tsx:61-74 | the JSON body has the five fields, and "password" exactly when one is sent |
| CreateAdmin.AddFormAccepted | src/pages/adminmodule/superadmin/create_admin.tsx:51-68 | an add-mode form that passes the form's guard (with a type) is never refused by the route with 400 |
| CreateAdmin.FilterUsers | src/pages/adminmodule/superadmin/create_admin.tsx:109-111 | every listed user has a non-empty name containing the term, ignoring case |
| CreateAdmin.ListedUsers | src/pages/adminmodule/superadmin/create_admin.tsx:109-115 | the list holds exactly the named users matching the term, and a page at most itemsPerPage of them |
| CreateAdmin.AddAfterEditSkipsPassword | src/pages/adminmodule/superadmin/create_admin.tsx:101-103 | as written, after an edit the add form passes the form's guard without a password and the route refuses the POST with 400 (see Findings) |
| CreateAdmin.AddAfterCancelledEditUpdates | src/pages/adminmodule/superadmin/create_admin.tsx:58-63 | as written, after a cancelled edit the add form sends a PUT to the edited user's address, without a password |
| CreateAdmin.AddModeDemandsPassword | src/pages/adminmodule/superadmin/create_admin.tsx:51-63 | in add mode the form's guard refuses an empty password and the request carries the password |
| CreateAdmin.AdminPage.constructor | src/pages/adminmodule/superadmin/create_admin.tsx:12-24 | the opening state: no users, blank form, add mode, page 1 of 5 rows |
| CreateAdmin.AdminPage.FetchUsers | src/pages/adminmodule/superadmin/create_admin.tsx:26-30 | the list becomes the route's answer |
| CreateAdmin.AdminPage.HandleSearchChange | src/pages/adminmodule/superadmin/create_admin.tsx:43-45 | the term is replaced |
| CreateAdmin.AdminPage.DisplayedUsers | src/pages/adminmodule/superadmin/create_admin.tsx:115 | a page holds at most itemsPerPage users |
| CreateAdmin.AdminPage.TotalPages | src/pages/adminmodule/superadmin/create_admin.tsx:114 | enough pages for every listed user, and none exactly when no user is listed |
| CreateAdmin.AdminPage.HandleSubmit | src/pages/adminmodule/superadmin/create_admin.tsx:47-87 | an incomplete form sets the error and sends nothing; otherwise the error is cleared and the request sent; a refused request keeps the form, an accepted one clears it and closes the modal; the mode is never changed |
| CreateAdmin.AdminPage.HandleEdit | src/pages/adminmodule/superadmin/create_admin.tsx:89-94 | the form takes the row's fields, the id is recorded, and the modal opens in edit mode |
| CreateAdmin.AdminPage.OpenModal | src/pages/adminmodule/superadmin/create_admin.tsx:101-103 | as written, only the modal opens: the mode and the edited id stay |
| CreateAdmin.AdminPage.OpenAddModal | src/pages/adminmodule/superadmin/create_admin.tsx:128 | the corrected "Add User" button opens a fresh add: add mode, no edited id |
| CreateAdmin.AdminPage.CloseModal | src/pages/adminmodule/superadmin/create_admin.tsx:105-107 | the modal closes |
| CreateNews.Accepted | src/pages/adminmodule/admin/create_news.tsx:38-73 | a batch is refused exactly when it has no png or jpeg image, and otherwise adds exactly its images, in order |
| CreateNews.NewsEditor.constructor | src/pages/adminmodule/admin/create_news.tsx:12-17 | the opening state: empty texts and images, no messages |
| CreateNews.NewsEditor.AddFiles | src/pages/adminmodule/admin/create_news.tsx:34-77 | the alert shows exactly for a batch with no image; only then, or with no batch, are the images unchanged; otherwise the batch's images follow the earlier ones |
| CreateNews.NewsEditor.RemoveImage | src/pages/adminmodule/admin/create_news.tsx:54-56 | exactly the image at that position is dropped, and every image is still of an accepted type |
| CreateNews.NewsEditor.ValidateForm | src/pages/adminmodule/admin/create_news.tsx:84-102 | the form is valid exactly when title and caption are both non-empty, and each message is set from its own field |
| CreateNews.NewsEditor.Submit | src/pages/adminmodule/admin/create_news.tsx:104-140 | each field's message is set from its own field; an invalid form changes nothing else and shows no alert; otherwise the success alert shows exactly when the document is written and the error alert otherwise; a a document with the texts, the addresses in image order and the clock is written exactly when every upload and the write succeed, and only then are the fields cleared; loading ends false |
| Files.IsImageExactly | src/pages/adminmodule/admin/create_news.tsx:38-42 | a file is accepted exactly when its type is png, jpeg or jpg |
| Files.Urls | src/pages/adminmodule/admin/create_news.tsx:114-121 | one address per uploaded image, in image order |
| InputField.EmailTestIsPattern | src/components/inputs/InputField.tsx:34 | the local check holds exactly when some substring has the form non-spaces '@' non-spaces '.' non-spaces |
| InputField.EmailTest | src/components/inputs/InputField.tsx:34 | the email check: an '@' and a later '.', with non-spaces around both and between them; EmailTestIsPattern proves it is the pattern's semantics |
| InputField.ShortPasswordWins | src/components/inputs/InputField.tsx:29-46 | a password field under six characters always ends with the password message, even when empty and required |
| InputField.ErrorFor | src/components/inputs/InputField.tsx:25-49 | the message validate leaves, the last applicable rule winning; ShortPasswordWins, EmptyRequired, EmailRule and NoErrorIffAllPass are about it |
| InputField.EmptyRequired | src/components/inputs/InputField.tsx:29-41 | an empty required field reports "<title> is required", except a password field, whose rule overrides it |
| InputField.EmailRule | src/components/inputs/InputField.tsx:29-36 | the email rule ignores an empty value and otherwise fails exactly when the pattern does not match |
| InputField.NoErrorIffAllPass | src/components/inputs/InputField.tsx:25-49 | no message exactly when every applicable rule passes |
| InputField.Field.constructor | src/components/inputs/InputField.tsx:21-22 | a new field is untouched with no message |
| InputField.Field.Validate | src/components/inputs/InputField.tsx:25-49 | the message is the one of the last applicable rule |
| InputField.Field.HandleBlur | src/components/inputs/InputField.tsx:51-54 | the field becomes touched and takes the validated message |
| InputField.Field.HandleChange | src/components/inputs/InputField.tsx:56-61 | an untouched field keeps its message; a touched one revalidates the new value |
| InputField.Field.Shown | src/components/inputs/InputField.tsx:79-81 | a message shows only once the field is touched, and it is then the current non-empty message |
| UsersApi.Run | src/pages/api/users.ts:50-71 | the calls run in order until one throws, which answers 500; otherwise the handler's success status |
| UsersApi.GetUsers | src/pages/api/users.ts:31-41 | one query; 200 with the admin and barangay documents exactly when it succeeds, else 500 with no users |
| UsersApi.IsStaff | src/pages/api/users.ts:34 | the query's condition: type admin or barangay; ListingIsStaff states the listing |
| UsersApi.ListingIsStaff | src/pages/api/users.ts:34 | the listing holds exactly the documents whose type is admin or barangay, in query order |
| UsersApi.AddUser | src/pages/api/users.ts:43-72 | 400 with no call exactly when a field is falsy; otherwise the account is created first, and 201 exactly when both calls succeed, else 500 |
| UsersApi.AddComplete | src/pages/api/users.ts:46-48 | the POST guard: all six fields truthy; AddUser answers 400 exactly when it fails |
| UsersApi.CreatedDocument | src/pages/api/users.ts:52-66 | a created document is keyed by the new account's uid, records it, and never stores the password |
| UsersApi.EditUser | src/pages/api/users.ts:75-103 | 400 with no call exactly when the id is not one string or a field is falsy; 200 exactly when both updates succeed, else 500 |
| UsersApi.EditComplete | src/pages/api/users.ts:79-81 | the PUT guard: the five fields truthy, the password not among them; EditUser answers 400 when it fails |
| UsersApi.EditIgnoresPassword | src/pages/api/users.ts:77 | an update neither needs nor reads a password |
| UsersApi.Find | src/pages/api/users.ts:114-118 | the document with that id, and None exactly when there is none |
| UsersApi.DeleteUser | src/pages/api/users.ts:105-135 | 400 with no call exactly when the id is not one string; 404 exactly when the document is missing; otherwise 204 or 500 |
| UsersApi.DeleteTouchesRecordedAccount | src/pages/api/users.ts:120-131 | an account is deleted only when the document records a uid, and it is that account; a 204 deleted the document and any recorded account |
| UsersApi.Handler | src/pages/api/users.ts:13-29 | a method other than the four is refused with 405, no call, and Allow listing the four |
| UsersApi.MethodNotAllowedExactly | src/pages/api/users.ts:16-28 | 405 is answered exactly to the other methods, always with the Allow list |
| UsersApi.RefusedRequestsWriteNothing | src/pages/api/users.ts:46-118 | a request refused with 400, 404 or 405 makes no write |
| AdminLogin.RouteFor | src/pages/adminmodule/login.tsx:45-53 | admin, superadmin and barangay each land on their own page, and no other type lands anywhere |
| AdminLogin.RoutesDistinct | src/pages/adminmodule/login.tsx:45-53 | distinct types land on distinct pages |
| AdminLogin.LoginPage.constructor | src/pages/adminmodule/login.tsx:10-14 | the opening state: empty form and messages, the login view, no session |
| AdminLogin.LoginPage.HandleChange | src/pages/adminmodule/login.tsx:18-23 | only the named input takes the value |
| AdminLogin.LoginPage.Login | src/pages/adminmodule/login.tsx:25-62 | a failed sign-in or read reports the credentials, a missing document that the user does not exist, neither storing a session; otherwise the type and session are stored before the type is examined, and only the three staff types are routed, any other reporting "Unauthorized user type"; loading ends false |
| AdminLogin.LoginPage.ShowForgotPassword | src/pages/adminmodule/login.tsx:149 | the forgot-password view opens |
| AdminLogin.LoginPage.ForgotPassword | src/pages/adminmodule/login.tsx:64-82 | a reset is requested exactly when an email is entered; without one only the error is set; success clears the error, failure clears the success message |
| AdminLogin.LoginPage.BackToLogin | src/pages/adminmodule/login.tsx:84-89 | the login view with no messages and an empty form |

## Left out

- Rendering: the JSX layout, styling, colours and modal visuals are not modelled. They are presentation.
- The print templates, PDF output and XLSX workbook writing are not modelled. Only the column-width fold that sizes the workbook is (`CaseProfiling`).
- The database, authentication and storage SDK calls are parameters. A write's failure is a flag, or for the API route the index of the call that throws (`failAt`). The query operators `where`, `orderBy` and `limit` are taken as given: the pages receive the documents a query returns.
- `Promise.all` uploads are modelled as a list of per-image outcomes. The order in which uploads complete, and uploads still running after one fails, are concurrency and are not modelled. Races between browsers writing the same case are not modelled either.
- CreateNews.NewsEditor.Submit: requires one upload outcome per picked image, because that is how the outcomes are represented. It also keeps the addresses in image order, while the page pushes them in completion order.
- Clock and locale: `Date.now()`, `new Date(...)`, `toLocaleString` and `toISOString` are parameters. This covers the referral date of `assigned_incidents.tsx:191` and the month window of the dashboard. Timestamps are integers.
- `Number(...)` is a parameter that returns a number or NaN.
- The kanban fetch sorts by `a.timestamp`, a field no document has. The comparator is therefore always NaN, which `Array.prototype.sort` treats as equal, so the board keeps query order. The model states this rather than sorting by an abstract key.
- Lengths and slices count Dafny characters, while JavaScript's `.length` and `slice` count UTF-16 code units. The two differ only on characters outside the Basic Multilingual Plane, such as emoji in a name. This affects `MyReport.MaskPart`, `MyReport.MaskNumber`, `ReportIncident.TransactionId`, the contact rule (`ReportIncidentModal.tsx:103`) and the password rule (`InputField.tsx:39`).
- AdminDashboard.Tally: keeps the addresses in first-appearance order. `Object.keys` (`admin/index.tsx:218`) lists integer-like keys first, in ascending order. Barangay names are not integer-like, so the chart's order agrees for them.
- `toLowerCase` is modelled for ASCII letters only. The search terms and names the pages compare are taken to be ASCII.
- The regular expression class `\s` is the fixed list of ECMAScript whitespace and line-terminator characters.
- ClientHome.ProgressWidth: computed in exact reals, not binary floating point. The strict growth and the 100% end point hold for both at five steps.
- The staff login (`AdminLogin.LoginPage`) and the report form (`ReportIncident.ReportModal`) keep the published user type, the stored session and the redirect target as fields of their classes.
- The code sign-in (`ViewMyReport.Lookup`) returns the session it stores. Its redirect to the report page (`ViewMyReportModal.tsx:64`) is not modelled.
- The other pages' session checks and redirects are not modelled. These include the login guards of the officer pages (for example `create_news.tsx:20-30`), the report page's session check (`myreport.tsx:49-67`), the landing page's sign-in listener and anonymous sign-in (`client/index.tsx:79-113`), the logout of the header (`Topbar.tsx:55-60`) and the kanban's chat link (`assigned_incidents.tsx:329`). All of them are browser navigation.
- The `tutorialSeen` flag in local storage (`client/index.tsx:66-77,117`), the clipboard and window resizing are not modelled.
- Undefined document fields are read as "". Where a page substitutes a default, the model uses the same default.
- CreateAdmin handleDelete (`create_admin.tsx:96-99`) is not modelled as a page method. It sends a DELETE and refetches the list: the route's side is `UsersApi.DeleteUser` and the refetch is `CreateAdmin.AdminPage.FetchUsers`.
- CreateAdmin.AdminPage.HandleSubmit: does not state the refetch of the list after an accepted request (`create_admin.tsx:85`). The caller follows it with `CreateAdmin.AdminPage.FetchUsers`, as for a delete.
- The barangay names the account form offers (`create_admin.tsx:32-36`) are not modelled: they only fill a dropdown.
- The barangay officer's address lookup (`barangay/index.tsx:97-105`) is not modelled. The page's fetch receives the documents that the query on that address returns.
- The "Show More" toggle of a news card (`client/index.tsx:34,258`) is not modelled: it only changes the layout.
- Topbar.Greeting: its ensures only covers the case where the user document has not been read yet ("Loading..."). The client greeting is stated by the lemma `Topbar.ClientGreetingIsMasked`.
- The profile pages are not modelled. They re-authenticate and change passwords through the authentication SDK.
- The layout, sidebar, dropdown, date and generic modal components are not part of this model: they hold no logic beyond rendering.

## Findings

| source | as written | input that shows it | evidently intended | confidence | as-written member | corrected member |
|---|---|---|---|---|---|---|
| src/pages/adminmodule/superadmin/assign_incident.tsx:328 | Next is `Math.min(page + 1, totalPages)`; the same line is at `case_profilling.tsx:303` and `assigned.tsx:207` | an empty list (totalPages 0) on page 1: Next goes to page 0 | Next never leaves page 1 on an empty list, and stays within 1..totalPages otherwise | not executed | Paging.NextAsWrittenOnEmptyList | Paging.Next |
| src/pages/client/myreport.tsx:482 | the banner tests `status == 'Removed'`, but the supervisor's Remove writes `'removed'` (`assign_incident.tsx:170`) | a case removed by the supervisor: status "removed" | the "Report Removed" banner shows for a removed case | not executed | MyReport.RemovedBannerNeverShown | MyReport.RemovedBannerShownWhenRemoved |
| src/pages/adminmodule/superadmin/create_admin.tsx:101-103 | `openModal` only opens the modal; `modalType` is set to 'edit' by handleEdit (line 92) and never back to 'add' | edit and save a user, then press "Add User" (line 128) and submit with no password: the form's guard passes, a POST without a password is sent and the route answers 400 (after a cancelled edit the same button instead sends a PUT that updates the edited user) | "Add User" opens a fresh add form that demands a password | not executed | CreateAdmin.AddAfterEditSkipsPassword | CreateAdmin.AddModeDemandsPassword |
