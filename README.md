# Job tracker: schema, service and list state in Dafny

This project models the core of a student job-application tracker. It covers three parts:

- the `Job` document schema: three required strings, a `status` enum that defaults to `Applied`, a defaulted `dateApplied`, and automatic timestamps;
- the REST service's four handlers (list, create, update, delete) over the job collection;
- the state of the single-page UI component (`applications`, `statusFilter`, `showForm`, `formData`) and its four handlers.

Modules: one for the schema, one for the service, two for the UI component (its list expressions and its state), and two shared ones:

- `Wrappers` (wrappers.dfy): `Option`, `Result`, `Outcome`.
- `JobModel` (job_model.dfy): the schema. `NewJob` applies the defaults, runs every validator, stamps `createdAt`/`updatedAt`, and reports exactly the failing paths.
- `JobController` (job_controller.dfy): class `JobService`. It holds the collection as a `map<JobId, Job>` and keeps a counter that issues fresh ids. Each handler returns a `Response` (status code and JSON body). The clock (`now`) is a parameter. So is any failure the store raises (`fault`: a lost connection, an id that does not cast).
- `AppLists` (app_lists.dfy): the component's list expressions (`filter`, `find`, `map`, the status-filter projection) as functions, with lemmas on order and multiplicity.
- `AppState` (app_state.dfy): class `App` with the component's state as fields and one method per handler. The server's reply, or the failure of the call, is a parameter. What the handler sends is its result.
- `EndToEnd` (end_to_end.dfy): what a form post and a status change give once they pass through the service.

Points of the code worth knowing:

- The stored `status` is a string, not the enum. Only creation runs the enum check. `findByIdAndUpdate` runs no validators, so an update can store a status outside the four values or an empty `company` (`PatchSkipsValidation`). Only create and delete keep `AllConforming`.
- `link` is `required: true` in the schema (backend/models/jobModel.js:17-20), so creation without it is rejected.
- `createJob` forwards four keys only. The `dateApplied` the form sends is dropped, and every created document is dated at its creation (`SubmittedDateIsDropped`). A later update may still set `dateApplied`, because `updateJob` passes the whole body.

## Model

| member | source | states |
|---|---|---|
| `JobModel.ParseStatus` | backend/models/jobModel.js:12-14 | a string is admitted by the enum exactly when it names one of Applied, Interview, Offer, Rejected, and it maps to that status |
| `JobModel.StatusNameParses` | backend/models/jobModel.js:12-15 | each of the four statuses, including the default, passes the enum check as itself |
| `JobModel.NewJob` | backend/models/jobModel.js:3-25 | creation succeeds iff company, position and link are present and non-empty and status is absent or in the enum; on failure the error lists exactly the failing paths; an accepted document conforms, keeps every supplied value, has status Applied when none is given, dateApplied = now when none is given, and createdAt = updatedAt = now |
| `JobController.SortNewestFirst` | backend/controllers/jobController.js:6 | the sort returns a permutation of its input ordered by createdAt descending |
| `JobController.InsertNewestFirst` | backend/controllers/jobController.js:6 | inserting into a newest-first list keeps it newest-first and adds exactly that one document |
| `JobController.Scan` | backend/controllers/jobController.js:6 | a collection scan yields every stored document exactly once |
| `JobController.NewestLeads` | backend/controllers/jobController.js:6 | in the newest-first listing of a store, a document strictly newer than every other stored document is first |
| `JobController.JobService.Listing` | backend/controllers/jobController.js:6 | the list query returns every stored document exactly once, newest first |
| `JobController.JobService.GetAllJobs` | backend/controllers/jobController.js:4-11 | answers 200 with every stored document exactly once, newest first, or 500 with the store's error; the store is not modified |
| `JobController.Whitelist` | backend/controllers/jobController.js:15-17 | forwarding only four keys never changes whether creation is accepted, and a document created from the forwarded keys is always dated at creation |
| `JobController.JobService.CreateJob` | backend/controllers/jobController.js:14-22 | Create answers 201 exactly when the four forwarded keys validate and the store does not fail, and then stores the validated document under a fresh id (changing nothing else, advancing the id counter by one, dating it now, and putting it first in the next listing when it is the newest); otherwise it answers 400 with the validation errors or the store's error and leaves the store and the id counter unchanged. |
| `JobController.Patch` | backend/controllers/jobController.js:27-29 | an update keeps id and createdAt and sets updatedAt to now |
| `JobController.PatchSkipsValidation` | backend/controllers/jobController.js:27-29 | an update can store a status outside the enum or an empty required field |
| `JobModel.FieldsOf` | frontend/src/App.tsx:74-77 | A whole document sent back as a request body is accepted as a creation body exactly when the document satisfies the schema. |
| `JobController.WholeDocumentUpdate` | backend/controllers/jobController.js:27-29 | a whole document sent as the update body is stored as sent, with the stored createdAt and a new updatedAt |
| `JobController.JobService.UpdateJob` | backend/controllers/jobController.js:25-34 | a store failure answers 400 and changes nothing; an unknown id answers 200 with null and changes nothing; otherwise exactly that document is patched with the whole body and the patched document is answered with 200 |
| `JobController.JobService.DeleteJob` | backend/controllers/jobController.js:37-44 | without a store failure the id is removed, every other document is unchanged and the answer is 200 "Job deleted" whether or not the id existed; a failure answers 400 and changes nothing |
| `JobController.DeleteTwice` | backend/controllers/jobController.js:37-44 | deleting the same id twice gives the same answer twice and the state of a single delete |
| `AppLists.Keep` | frontend/src/App.tsx:85-87 | filtering returns only entries of the list that satisfy the predicate |
| `AppLists.KeepCounts` | frontend/src/App.tsx:85-87 | filtering keeps every satisfying entry with its multiplicity and drops all others |
| `AppLists.KeepIsSubsequence` | frontend/src/App.tsx:85-87 | filtering preserves relative order |
| `AppLists.KeepEverything` | frontend/src/App.tsx:85-87 | a filter every entry passes returns the list itself |
| `AppLists.Visible` | frontend/src/App.tsx:85-87 | `filteredApplications` holds only entries of applications that pass the filter, and is applications itself at All |
| `AppState.App.View` | frontend/src/App.tsx:85-87 | the cards on screen are entries of applications that pass the current filter, and all of applications when the filter is All |
| `AppLists.VisibleAll` | frontend/src/App.tsx:85-87 | with the filter at All the view equals applications, in the same order |
| `AppLists.VisibleOnly` | frontend/src/App.tsx:85-87 | with one status chosen the view holds exactly the entries of that status, each as often as in applications, in their original order |
| `AppLists.WithoutId` | frontend/src/App.tsx:63 | the delete filter keeps only entries of the list without that id, and returns the list itself when no entry has it |
| `AppLists.WithoutIdSpec` | frontend/src/App.tsx:63 | after the delete filter no entry has the id, every other entry keeps its multiplicity, and the order is kept |
| `AppLists.FindById` | frontend/src/App.tsx:71-72 | the lookup finds nothing iff no entry has the id; otherwise it returns the first entry with that id |
| `AppLists.ReplaceById` | frontend/src/App.tsx:79 | the update map keeps the length and puts the record at exactly the positions whose id matches, leaving the rest unchanged |
| `AppLists.ReplaceWithReply` | frontend/src/App.tsx:79 | the map as written, with a reply that may be null, keeps the length and puts the reply at exactly the positions whose id matches; for a record reply it agrees entry by entry with `ReplaceById`, so it differs only when the reply is null |
| `AppLists.NullReplyLeavesHole` | frontend/src/App.tsx:74-79 | a null reply for an id in the list puts a null entry into applications |
| `AppState.DefaultForm` | frontend/src/App.tsx:21-27 | the form as it opens would be rejected by creation, with exactly company, position and link reported missing |
| `AppState.FormBody` | frontend/src/App.tsx:45 | the posted status always passes the enum check as the status chosen, and each required key is supplied iff its form field is non-empty |
| `AppState.App.constructor` | frontend/src/App.tsx:18-27 | the component starts with no applications, filter All, the form hidden and the default form |
| `AppState.App.FetchJobs` | frontend/src/App.tsx:30-40 | a successful load replaces applications with the server's list; a failed one leaves it unchanged |
| `AppState.App.HandleSubmit` | frontend/src/App.tsx:42-58 | the form is sent as it stands; on success the server's record is prepended (length + 1, tail unchanged), the form is hidden and reset; on failure applications, showForm and formData are unchanged |
| `AppState.App.HandleDelete` | frontend/src/App.tsx:60-67 | on success applications becomes the delete filter of the old list, with no entry left with that id; on failure it is unchanged |
| `AppState.App.HandleStatusUpdate` | frontend/src/App.tsx:69-83 | an id not in the list sends nothing and changes nothing; otherwise the found entry is sent with only its status replaced; a record in the reply replaces exactly the matching entries; a failed call or a null reply changes nothing; the length is always kept |
| `EndToEnd.SubmittedDateIsDropped` | backend/controllers/jobController.js:15-17 | a document created from the form is dated at creation, whatever date the form held |
| `EndToEnd.FilledFormIsAccepted` | backend/controllers/jobController.js:14-18 | a form with non-empty company, position and link is accepted with the status the user chose |
| `EndToEnd.StatusChangeRoundTrip` | frontend/src/App.tsx:74-77 | the body sent for a status change, applied by the update, changes only status and updatedAt, and keeps a conforming document conforming |

## Findings

| source | as written | input that shows it | evidently intended | confidence | as-written member | corrected member |
|---|---|---|---|---|---|---|
| frontend/src/App.tsx:79 | the reply body replaces the matching entry even when the update answered `null`, which happens when the document no longer exists | an entry with id k is in `applications`, its document was deleted elsewhere, and the user changes its status: the update answers 200 with `null` and the list then holds `null`, which the render dereferences (`application._id`, frontend/src/App.tsx:200-201) | a `null` reply leaves the list as it was, because the record has vanished | not executed; high (the update answers `null` for an unknown id, and `.map` inserts it unchanged) | `AppLists.ReplaceWithReply` | `AppState.App.HandleStatusUpdate` |

## Left out

- backend/app.js (bootstrap, database connection, CORS, JSON parsing, the root liveness route) is not part of this model.
- backend/routes/jobRoute.js (the four-entry route table) is not part of this model. Each route becomes one handler method.
- frontend/src/https/index.js (an axios wrapper the component never uses) is not part of this model.
- Identifiers: ObjectIds are naturals issued by a counter. Casting a malformed id, or any other value, is part of the `fault` parameter.
- JSON `null` values and unknown keys in request bodies are not modelled. Update bodies carry only the five schema paths. The `_id`, `createdAt`, `updatedAt` and `__v` keys a client sends are not applied (Mongoose keeps `createdAt` immutable).
- Dates are a natural-number clock. ISO formatting, `toLocaleDateString` and time zones are not modelled.
- The order among documents with equal `createdAt` is whatever the sort gives; only the descending order is stated.
- Asynchrony: each handler is one atomic step. Interleavings and the stale `applications` closure across concurrent handlers are not modelled.
- The server's reply to a UI call is a parameter of the handler. The model does not tie it to what the service would answer, except through the lemmas in `EndToEnd`.
- The inline JSX setters (`setStatusFilter`, `setShowForm`, per-field `setFormData`) only assign one state field and are not modelled as methods. Rendering, `statusColors`, icons and `console.error` logging are left out too.
- A front-end variant that keeps applications only in local memory is not part of this model.
