# Job-application portal: view and session state machine

A Dafny model of the client-side logic of a small job-application portal
(`index.js`). One global state record holds the current screen (applicant
form, admin login, admin dashboard), whether the administrator is logged in,
and the list of submitted applications. Event handlers change that record in
place. They also toggle the visibility of the page's panels, links and submit
control, and read and write two browser stores:

- the session store keeps the `isAdminLoggedIn` marker;
- the durable store keeps the whole application list under `applications`.

Layout:

- `wrappers.dfy` (`Wrappers`): `Option` and `Result`.
- `applications.dfy` (`Applications`): the application record, the three
  file slots and how they are read, and loading and saving the list.
- `views.dfy` (`Views`): the observable page as a value (`Page`: state
  record, element flags, stores). It has one specification function per
  handler (`AfterNavigate`, `AfterLogin`, `AfterLogout`, `AfterSubmit`,
  `AfterInitialize`), and each states in its `ensures` what the source
  promises. It also defines the dashboard projection and the page invariant
  `Consistent`.
- `portal.dfy` (`Portal`): class `PortalState`, whose fields are the state
  record, the element flags and the two stores. Its methods follow the
  handlers step by step, including the mutual recursion between
  `navigateTo` and `updateView`. Each method is proved to leave exactly the
  page given by a function of the old page: the handlers' `Views` functions,
  or, for the storage helpers and the dashboard renderer, `LoadedList`,
  `SavedValue` or `RenderDashboard` applied to one field.
- `traces.dfy` (`Traces`): runs of any sequence of events. These lemmas show
  what every run keeps and how the list grows.

Abstractions:

- Screen names are the datatype `View`. The source passes only the three
  literals `'applicant'`, `'login'` and `'admin'`.
- The file readers' outcomes come in with the form: each slot is either no
  file, or a chosen file that loads to a data URL or fails to read.
- `Date.now()` and `new Date().toISOString()` are the parameters `id` and
  `submittedAt`.
- `JSON.parse` is the parameter `parse: string -> Option<seq<Application>>`,
  where `None` is a parse failure. `JSON.stringify` is `serialize`.
- Whether `localStorage.setItem` goes through is the parameter `writeOk`.
- The page's initial flags come from the markup and are a constructor
  parameter.

Two details of the code that the model keeps:

- A stored empty string skips parsing and gives the empty list, the same as a
  missing key (`index.js:54`).
- A failed save is caught inside `saveApplications` (`index.js:64-70`). It
  therefore never aborts a submission: the record stays in memory, and the
  store keeps its old value.

## Model

| member | source | states |
|---|---|---|
| Applications.ReadFileAsDataUrl | index.js:35-46 | no file resolves to null; a chosen file resolves to its name and data URL, or rejects exactly when its read fails |
| Applications.FilesToRead | index.js:150-154 | the three file inputs in the fixed slot order: resume, cover letter, transcripts |
| Applications.ReadAll | index.js:150-157 | reading the three slots together succeeds iff every slot reads, and then gives one result per slot, in slot order, equal to that slot's own read |
| Applications.LoadedList | index.js:51-59 | a missing, empty or unparsable stored value gives the empty list; otherwise the list is exactly what the stored value parses to |
| Applications.SavedValue | index.js:64-70 | a successful write stores the serialized whole list; a failed write leaves the stored value as it was |
| Applications.SaveThenLoad | index.js:51-70 | with a serializer and parser that are inverse, loading after a successful save gives back the saved list; after a failed save, loading gives what it gave before |
| Views.Links | index.js:124-128 | one download link per non-null file slot, in slot order: there are as many links as filled slots, and the file of slot i is the link numbered by the count of filled slots before i |
| Views.CardOf | index.js:113-133 | one application's card: its name, email, phone, raw submission timestamp and its download links |
| Views.RenderDashboard | index.js:105-136 | the empty message appears iff the list is empty; otherwise there is one card per application, in list order |
| Views.ShowView | index.js:85-90 | for view v: exactly one panel is visible and it is v's; the login link shows iff v is applicant and the back link iff it is not; the login error, the submit control and the dashboard are untouched |
| Views.AfterNavigate | index.js:84-100 | exactly one panel is visible and it is the final view's; the login link shows iff the view is applicant and the back link iff it is not; admin while logged out ends on login with the dashboard untouched, otherwise the view requested is reached; the dashboard is re-rendered iff admin is reached; the list, the flag, the stores and the other flags are unchanged |
| Views.Accepted | index.js:191 | the credential test: username exactly "admin" and password exactly "password123" |
| Views.AfterLogin | index.js:183-199 | exactly "admin"/"password123" gives a consistent page: logged in, stores the marker "true", clears the error, and ends on admin with the dashboard rendered; the submit control keeps its flags; any other pair leaves state and stores unchanged and shows only the error; the list is untouched and consistency is kept |
| Views.AfterLogout | index.js:201-205 | from any page: logged out, session marker absent, login shown, list, durable store, dashboard, login error and submit control untouched; a later request for admin lands on login |
| Views.SetLoading | index.js:207-211 | the submit control is idle iff loading is off; while loading, the control is disabled, its text hidden and the spinner shown; no other flag changes |
| Views.AfterSubmit | index.js:145-181 | if every file reads, one record with the given id, timestamp and fields and three slots (null exactly where the form delivers no file) is appended at the end and the whole list is saved; if any read fails, state and stores are unchanged; either way the earlier records are kept and the submit control ends idle |
| Views.AfterInitialize | index.js:215-232 | logged in iff the session value is exactly "true"; the first view is admin iff logged in, applicant otherwise; the list is the one loaded from the durable store; the dashboard changes only when admin is shown; the login error and submit control keep the markup's flags; the page is consistent |
| Views.NavigateIdempotent | index.js:140-143 | navigating twice to the same view gives the same page as navigating once |
| Views.NavigateToCurrent | index.js:84-100 | on a consistent page, re-navigating to the current view changes neither state nor stores, and outside admin changes no flag either |
| Views.EmptyNamedFilesAreKept | index.js:37-42 | a slot delivered as a file with an empty name is read and kept: three such slots store three non-null entries and give three links |
| Views.CredentialExamples | index.js:191 | the credential test accepts "admin"/"password123" and rejects case variants, trailing spaces and empty input |
| Portal.PortalState.constructor | index.js:2-6 | the state record starts on applicant, logged out, with no applications; flags and stores are as the page was loaded |
| Portal.PortalState.LoadApplications | index.js:51-59 | replaces only the in-memory list, with the list loaded from the stored value |
| Portal.PortalState.SaveApplications | index.js:64-70 | changes only the durable store, to the saved value of the current list |
| Portal.PortalState.CheckLoginStatus | index.js:75-77 | sets only the login flag, to whether the session value is exactly "true" |
| Portal.PortalState.UpdateView | index.js:84-100 | leaves the page as navigating to the view already set would, redirect included |
| Portal.PortalState.RenderAdminDashboard | index.js:105-136 | changes only the dashboard, to the rendering of the current list |
| Portal.PortalState.NavigateTo | index.js:140-143 | leaves exactly the page AfterNavigate describes |
| Portal.PortalState.SetLoading | index.js:207-211 | sets the submit control's disabled state, its text and its spinner from the flag, and nothing else |
| Portal.PortalState.HandleApplicationSubmit | index.js:145-181 | leaves exactly the page AfterSubmit describes |
| Portal.PortalState.HandleAdminLogin | index.js:183-199 | leaves exactly the page AfterLogin describes |
| Portal.PortalState.HandleLogout | index.js:201-205 | leaves exactly the page AfterLogout describes |
| Portal.PortalState.Initialize | index.js:223-231 | leaves exactly the page AfterInitialize describes, which is consistent |
| Traces.RunKeepsConsistent | index.js:84-100 | any sequence of handled events from a consistent page ends on a consistent page: one panel, the current view's; admin only while logged in; flag and session marker agree |
| Traces.RunAppendOnly | index.js:168 | over any run, the list grows only at its end, by exactly one record per submission whose files all read, and every added record has three file slots |
| Traces.NavigationKeepsData | index.js:140-143 | any run of navigations alone leaves the list, the login flag and both stores unchanged |
| Traces.SessionNeverShowsAdminLoggedOut | index.js:215-232 | from start-up on, whatever the events, the page is consistent: one panel, the current view's; links agree; the admin panel is never shown while logged out; flag and marker agree |

## Left out

- HTML templating in `renderAdminDashboard`: a card keeps the raw fields and link list. The `toLocaleString` date formatting is not modelled.
- The file reader and `Promise.all` scheduling: each read's outcome is an input. A submission is handled as one step, so another event cannot run while the reads are pending.
- Which rejection `Promise.all` reports first: the read error carries no information, because the source only logs it.
- `JSON.parse` and `JSON.stringify`: they are abstract parameters, and the model's parser gives either well-formed records or a failure. Two cases of malformed stored data are not modelled:
  - A value that parses to something other than a list (for example `"null"`) would put a non-list into the source's state.
  - A well-formed list of wrongly shaped records (for example `[{}]`) is not a parse failure, so the source keeps it (`index.js:54`). `renderAdminDashboard` then throws at `app.files.map` (`index.js:124`) whenever admin is shown. That aborts `updateView`, and at start-up while logged in it aborts `initialize`.
- Failures of the session store: `sessionStorage.getItem`, `setItem` and `removeItem` (`index.js:76`, `193`, `203`) are assumed not to throw. Unlike the durable store's calls (`index.js:52-58`, `65-69`), the source catches nothing around them. If `setItem` is refused during a correct login, the source has already set `isLoggedIn` (`index.js:192`) and stops before `navigateTo('admin')`. The page then stays on login, logged in in memory but with no marker, which breaks the flag/marker agreement of `Views.Consistent`. If `getItem` throws at start-up, `initialize` stops before either `navigateTo` (`index.js:227-231`). `AfterLogin`, `AfterLogout` and `AfterInitialize` describe only the path where these calls succeed.
- Changes to the stores from outside the page, such as a cleared session store: the stores change only through the handlers.
- What the host's form returns for an unselected file input: a slot is empty exactly when the source's `!file` test sees no file. Under the HTML standard, an unselected file input gives an empty file whose name is empty, and that file passes the `!file` test. The source would then read it and store a non-null entry with an empty name in each unselected slot, which the dashboard shows as a link with an empty label. `Views.EmptyNamedFilesAreKept` shows this outcome for slots delivered that way. Nothing was executed to confirm it.
- `console.error`, `alert`, the success message and its 5-second timer, and `applicationForm.reset()` and `loginForm.reset()`: these are user-interface and timer effects.
- The event-listener wiring in `initialize` (`index.js:217-221`) and the element lookups (`index.js:9-26`): this is page plumbing. The events those listeners deliver are the `Traces.Event` cases.
- Uniqueness of `id`: `Date.now()` does not guarantee it, so the model does not claim it.
- The dashboard is not claimed to be current when a submission arrives while it is shown, because the source does not re-render it then.
