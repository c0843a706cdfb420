# Projement hours ledger, modelled in Dafny

Projement is a small project-tracking web application. Each project belongs
to a company and carries estimated and actual hours for three phases
(design, development, testing). Users see a dashboard of projects, export
it as a spreadsheet, and add hours to a project. Every non-trivial hour
update leaves an audit record (`ProjectChanges`).

This model covers the project-hours ledger:

- `models.dfy` (module `Models`): the `Project` and `ProjectChanges` rows
  and the properties derived from a project. These are total estimated
  hours, total actual hours, over budget and has ended. It also holds
  `ProjectChanges.create` with its column defaults.
- `views.dfy` (module `Views`): the hour-update handler
  (`ProjectUpdateView.post` and `_change_project_history`). It is a class
  `Ledger` that holds the projects table and the audit log as fields, and a
  method `UpdateHours` that changes them.
- `dashboard.dfy` (module `Dashboard`): the dashboard order (end date
  descending, projects without an end date first) and the spreadsheet
  export. The export writes a header row and then one row per project, cell
  by cell.
- `wrappers.dfy` (module `Wrappers`): `Option`.

Hour values are `DecimalField(max_digits=6, decimal_places=2)`. They are
modelled exactly as integers counting hundredths of an hour, with magnitude
below 10^6 (`Models.IsHours`). The current date ("today"), the acting user
and the time of a change are parameters. Primary keys are integers.

Two behaviours of the code are worth stating outright:

- Negative increments are accepted, added and recorded: the DecimalFields of
  ProjectForm set no lower bound (`projement/projects/forms.py:11-13`).
- On success the handler returns `HttpResponseRedirect` to the dashboard
  (`projement/projects/views.py:101`); the tests expect status 302
  (`projement/projects/tests.py:109`, `:126`). The model records only that
  the handler redirects to the dashboard (`Views.Response.RedirectToDashboard`).

## Model

| member | source | states |
|---|---|---|
| `Models.TotalEstimatedHours` | projement/projects/models.py:63-65 | the estimated total of a project whose columns fit numeric(6,2) has magnitude below 3 * 10^6 hundredths |
| `Models.TotalActualHours` | projement/projects/models.py:67-69 | the actual total of a well-formed project has magnitude below 3 * 10^6 hundredths |
| `Models.TotalsArePhaseSums` | projement/projects/models.py:63-69 | each total equals the phase-by-phase sum of its columns over design, development and testing |
| `Models.IsOverBudget` | projement/projects/models.py:71-73 | over budget iff the phase sum of actual hours is strictly greater than the phase sum of estimates; equal totals are never over budget |
| `Models.HasEnded` | projement/projects/models.py:59-61 | ended iff an end date is set and lies strictly before today; no end date, or an end date of today, means not ended |
| `Models.HasEndedStaysEnded` | projement/projects/models.py:59-61 | a project that has ended on some day has also ended on every later day |
| `Models.NewProject` | projement/projects/models.py:30-49 | a new project has every actual column 0 and total actual hours 0, keeps the given estimates and other fields, and is well-formed when its estimates fit |
| `Models.NewProjectNotOverBudget` | projement/projects/models.py:71-73 | a project with no actual hours and estimates that are not negative is not over budget |
| `Models.ChangeHourFieldsAreAllFields` | projement/projects/models.py:80-88 | the declaration-order list of the nine hour columns contains every hour column |
| `Models.Create` | projement/projects/models.py:80-98 | `create` keeps the user, project and date; every hour column passed takes exactly the passed value and every column not passed is 0 |
| `Dashboard.ListedNoLater` | projement/projects/views.py:40 | the key `F('end_date').desc(nulls_first=True)`: a project may be listed before another iff it has no end date, or both have one and its end date is the same or later |
| `Dashboard.DashboardSorted` | projement/projects/views.py:40 | a listing of at most one project is sorted, and in a sorted listing every project before an undated one is undated too |
| `Dashboard.ListedNoLaterIsTotalPreorder` | projement/projects/views.py:40 | the order "end date descending, no end date first" is reflexive, total and transitive |
| `Dashboard.SortedMeansUndatedFirstThenLatest` | projement/projects/views.py:40 | a list in dashboard order holds first all projects without an end date, then all dated ones, latest end date first |
| `Dashboard.Insert` | projement/projects/views.py:70 | inserting a project into an ordered list keeps it ordered and adds exactly that project |
| `Dashboard.SortForDashboard` | projement/projects/views.py:70 | the ordered query result is in dashboard order and is a permutation of the table |
| `Dashboard.JoinNames` | projement/projects/views.py:73 | `', '.join` of no names is empty, of one name is that name, and otherwise has the names' total length plus 2 per separator |
| `Dashboard.JoinNamesAppend` | projement/projects/views.py:73 | joining one more name appends `", "` and that name |
| `Dashboard.TagNames` | projement/projects/views.py:73 | the tag names, one per tag, in the tags' order |
| `Dashboard.ExportRow` | projement/projects/views.py:72-73 | a row has five cells: title, company name, estimated phase sum, actual phase sum, tag names joined by `", "` |
| `Dashboard.ExportRows` | projement/projects/views.py:71-74 | one export row per project, in the given order |
| `Dashboard.ExportTable` | projement/projects/views.py:64-79 | the export has the header `Project, Company, Estimated, Actual, Tags`, then exactly one row per project, row k+1 belonging to the k-th project in dashboard order |
| `Dashboard.WriteRow` | projement/projects/views.py:65-66 | writing a row cell by cell at the next row number leaves the sheet holding the earlier rows plus that row |
| `Dashboard.CollectRows` | projement/projects/views.py:69-74 | the collected data holds exactly one export row per project of the ordered query result, in that order |
| `Dashboard.WriteDataRows` | projement/projects/views.py:76-79 | after the header, data row k is written at row number k+1, and the sheet holds the header followed by every data row |
| `Views.IsValidSubmission` | projement/projects/forms.py:11-13 | `form.is_valid()`: valid iff all three fields are filled in and each fits 6 digits with 2 decimal places; no lower bound, so negative values are valid |
| `Dashboard.DownloadExcelData` | projement/projects/views.py:54-82 | the sheet holds cell (r, c) exactly for the cells of the export table, with the header at row 0 and data row k at row k+1 |
| `Views.AddActuals` | projement/projects/views.py:95-98 | after a valid update each actual column is its stored value plus the increment; estimates, title, company, dates and tags are unchanged |
| `Views.AllZero` | projement/projects/views.py:106 | `not any(form.cleaned_data.values())`: holds iff all three submitted increments are 0 |
| `Views.AllZeroLeavesProjectUnchanged` | projement/projects/views.py:95-99 | an all-zero submission stores the project exactly as it was |
| `Views.UpdateMovesTotals` | projement/projects/views.py:95-98 | an update raises total actual hours by the sum of the increments and keeps total estimated hours |
| `Views.OverBudgetPersists` | projement/projects/views.py:95-98 | adding hours that are not negative never brings an over-budget project back under budget |
| `Views.HistoryValue` | projement/projects/views.py:116-124 | an initial column reads the stored value before the update, a delta column the submitted increment, and a result column the stored value after it, which for an update is initial plus delta |
| `Views.NonZeroContext` | projement/projects/views.py:125-126 | the `if data: context.setdefault(...)` filter: the context holds exactly the hour columns whose value is non-zero, each with that value |
| `Views.BuildContext` | projement/projects/views.py:110-126 | the context holds exactly the hour columns whose value is non-zero, each with its value (initial = stored before, delta = increment, result = stored after) |
| `Views.ChangeRecord` | projement/projects/views.py:112-124 | the intended record names the acting user, the updated project and the change time, and each hour column holds its initial, delta or result value |
| `Views.SkippingZerosKeepsRecord` | projement/projects/views.py:125-127 | creating the record from the non-zero context gives the same record as passing all nine values, since a skipped column defaults to 0 |
| `Views.RecordIsBalanced` | projement/projects/views.py:116-124 | in the record of an update, result = initial + delta for every phase |
| `Views.IndexOf` | projement/projects/views.py:91-92 | the lookup by primary key finds a position holding that key, or reports that no project has it |
| `Views.Ledger.UpdateHours` | projement/projects/views.py:90-103 | unknown key: not found; invalid form: re-rendered; otherwise only the target's actual columns change (by the increments) and the log grows by one balanced record iff some increment is non-zero; nothing changes on any error; the log only grows, by at most one |
| `Views.Ledger.ChangeProjectHistory` | projement/projects/views.py:105-128 | nothing is appended when every increment is zero; otherwise exactly the intended record is appended and the log stays valid |

## Left out

- The landing page, which reads a markdown file and renders it, is not modelled. It is file I/O and a foreign library.
- The spreadsheet library calls (workbook, sheet, bold header style), the HTTP response and the timestamped file name are not modelled. The sheet is a map from (row, column) to the value passed to the write call, not the file's exact contents: the library stores each Decimal total as a floating-point number cell, so the file does not keep exact hundredths, and it raises an error for a row index above 65535, so the export fails for a table of more than 65,535 projects. `Dashboard.DownloadExcelData` promises neither limit.
- Login redirects, URL routing and the slug in the URL are not modelled. Lookup is by primary key only.
- Tag create, list, retrieve, update and delete, and replacing a project's tag set, are not modelled. They are generic framework views with no logic of their own.
- The admin configuration is not modelled.
- The ORM, database and transactions are not modelled. The projects table is a sequence of rows with unique keys, and the audit log is a sequence of records. Updates are sequential. Simultaneous updates of one project can lose an update in the source (read-modify-write without locking), and the model does not capture that.
- `Dashboard.SortForDashboard`: the database does not promise an order among projects with equal end dates. The model fixes one order. Its contract states only the ordering and the permutation, which hold for any order the database may choose.
- `Views.IsValidSubmission`: Django's decimal validation is not shown in the source. A submission is valid when every field is filled in and fits 6 digits with 2 decimal places. A submitted value with more than 2 decimal places cannot be represented in hundredths, so that rejection is not modelled.
- `Views.Ledger.UpdateHours`: when a sum no longer fits the 6-digit column, the model assumes the save fails and nothing is written (`SaveRejected`). A database that does not enforce the declared precision would store the value instead.
- `Views.BuildContext`: the loop also sets `user` and `project`. Those are always truthy model instances, so the model passes them to `Create` directly and loops over the nine hour columns only.
- The `change_date` column and `auto_now_add` are modelled as a time parameter. `timezone.now()` is modelled as the `today` parameter of `HasEnded`.
