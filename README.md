# Dashboard statistics and project form of the business-management client

This project models, in Dafny, the two pieces of logic in the client's pages:

- **The dashboard** (`src/pages/Dashboard.jsx`). A refresh reads the projects,
  tools and employees tables and derives seven figures from them:
  - in-progress and completed projects;
  - the summed budget of the in-progress projects, shown as "monthly expenses";
  - total, in-use and available tools;
  - active employees.

  The page's state is the figures, a `loading` flag and an `error` message. A refresh
  steps through them: it sets loading, clears the error, stops at the first failed
  query, writes the figures only when all three queries succeed, and always ends
  loading.
- **The project form** (`src/pages/Projects.jsx`). Four things are modelled:
  - the mapping of the form's camelCase fields to the projects table's snake_case
    columns, which also adds `progress: 0`;
  - the check on an attached image: type whitelist first, then at most 10 MiB;
  - the three handlers that update the form, the chosen image, the form's visibility
    and the loading flag;
  - a handler's reaction to the insert's outcome.

Layout:

- `wrappers.dfy`: module `Wrappers` holds `Option`, `Result` and `Outcome`. The
  outcome of every remote query or insert is passed into the model as one of these.
- `arrays.dfy`: module `ArrayOps` models JavaScript's `Array.prototype.filter`
  (`Filter`) and the `reduce` with `+` (`FoldLeft`, a left fold). It also proves the
  facts about them that the statistics rest on.
- `dashboard.dfy`: module `Dashboard` holds the rows, the statistics as functions,
  the lemmas about them, and the class `DashboardPage` for the page's state.
- `projects.dfy`: module `Projects` holds the form mapping, the image check, and the
  class `ProjectsPage` for the form's state.

Abstractions:

- A project's budget is an `Option<int>`. `None` stands for a budget that is null,
  absent or not a number. `Number(budget) || 0` turns that into 0, and `BudgetValue`
  does the same.
- The form state is a `map<string, string>`, because `handleInputChange` writes
  whatever key the event names.
- The mapped record is a `map<string, DbValue>`. A form field missing from the
  object maps to `Undefined`, as `data.field` would give `undefined`.
- Counts are specified against the set of positions whose status matches
  (`ArrayOps.Positions`). The committed budget is specified against a recursive
  reference sum, `Dashboard.InProgressBudgets`, that does not filter first.

## Model

| member | source | states |
|---|---|---|
| `ArrayOps.Filter` | src/pages/Dashboard.jsx:29 | `filter` returns no more elements than it was given, and each of them satisfies the predicate |
| `ArrayOps.FilterMultiset` | src/pages/Dashboard.jsx:29-30 | `filter` keeps every occurrence of each element that passes and none of the others |
| `ArrayOps.FoldLeftOffset` | src/pages/Dashboard.jsx:34 | the `reduce` with `+` returns its start value plus the fold from 0, so the start value only offsets the total |
| `ArrayOps.FoldLeftAppendOne` | src/pages/Dashboard.jsx:34 | appending one element to the reduced list adds exactly that element's amount to the result |
| `ArrayOps.FilterAppend` | src/pages/Dashboard.jsx:32-33 | filtering a concatenation is the concatenation of the filtered parts |
| `ArrayOps.FilterLengthIsCount` | src/pages/Dashboard.jsx:29 | the length of a filtered list is the number of positions whose element passes |
| `ArrayOps.DisjointFilterCounts` | src/pages/Dashboard.jsx:29-30 | two filters that no element passes together select at most all elements, and exactly all of them if and only if every element passes one |
| `Dashboard.BudgetValue` | src/pages/Dashboard.jsx:34 | a project's budget adds its stored number; the amount is 0 exactly when the budget is missing, non-numeric or zero |
| `Dashboard.ActiveProjects` | src/pages/Dashboard.jsx:29 | the active count is the number of projects whose status is exactly `in-progress` |
| `Dashboard.CompletedProjects` | src/pages/Dashboard.jsx:30 | the completed count is the number of projects whose status is exactly `completed` |
| `Dashboard.ProjectBudgetSum` | src/pages/Dashboard.jsx:31-34 | the reduced budget sum equals the reference sum over exactly the in-progress projects, with a missing or non-numeric budget counting 0 |
| `Dashboard.FoldInProgressBudgets` | src/pages/Dashboard.jsx:32-34 | reducing the in-progress budgets onto any start value adds exactly the reference sum to it |
| `Dashboard.ToolsInUse` | src/pages/Dashboard.jsx:42 | the count is the number of tools whose status is exactly `in-use` |
| `Dashboard.ToolsAvailable` | src/pages/Dashboard.jsx:43 | the count is the number of tools whose status is exactly `available` |
| `Dashboard.ActiveEmployees` | src/pages/Dashboard.jsx:51 | the count is the number of employees whose status is exactly `active`, and at most the number of employees |
| `Dashboard.ComputeStats` | src/pages/Dashboard.jsx:53-61 | each of the seven figures equals its count of matching positions, `totalTools` is the number of tools, and `monthlyExpenses` is the in-progress budget sum |
| `Dashboard.ZeroStats` | src/pages/Dashboard.jsx:6-14 | the initial figures are all zero |
| `Dashboard.ErrorText` | src/pages/Dashboard.jsx:65 | the error text is the failure's message when it has one, and otherwise the fixed fallback; it is never empty |
| `Dashboard.FirstFailure` | src/pages/Dashboard.jsx:24-49 | a refresh fails if and only if some query fails; the failure reported is the first one in the order projects, tools, employees |
| `Dashboard.ProjectCountsBound` | src/pages/Dashboard.jsx:29-30 | active plus completed is at most the number of projects; it is equal if and only if every project is in progress or completed |
| `Dashboard.ToolCountsBound` | src/pages/Dashboard.jsx:42-43 | in use plus available is at most the number of tools; it is equal if and only if every tool has one of the two statuses |
| `Dashboard.StatsBounds` | src/pages/Dashboard.jsx:53-61 | in the stats record, active plus completed is at most the number of projects, in use plus available is at most `totalTools`, and active employees are at most the number of employees |
| `Dashboard.MonthlyExpensesNonNegative` | src/pages/Dashboard.jsx:31-34 | when no budget is negative, the budget sum is not negative |
| `Dashboard.InsertIgnoredProject` | src/pages/Dashboard.jsx:29-34 | inserting a project that is not in progress, at any position, changes neither the active count nor the budget sum |
| `Dashboard.RemoveIgnoredProject` | src/pages/Dashboard.jsx:29-34 | removing a project that is not in progress changes neither the active count nor the budget sum |
| `Dashboard.EditIgnoredProject` | src/pages/Dashboard.jsx:29-34 | replacing a project that is not in progress by another that is not in progress changes neither the active count nor the budget sum |
| `Dashboard.MissingBudgetCountsZero` | src/pages/Dashboard.jsx:29-34 | replacing one project's missing budget by 0 changes neither the two project counts nor the budget sum |
| `Dashboard.SameStatusAndAmountSameFigures` | src/pages/Dashboard.jsx:31-34 | two project tables that agree position by position on status and on each budget's amount have the same budget sum |
| `Dashboard.ProjectsScenario` | src/pages/Dashboard.jsx:29-34 | two in-progress projects (one without a budget) and one completed project give 2 active, 1 completed, and a budget sum of 1000 |
| `Dashboard.ToolsScenario` | src/pages/Dashboard.jsx:42-43 | one available tool and two in use give 2 in use, 1 available and 3 in total |
| `Dashboard.DashboardPage.constructor` | src/pages/Dashboard.jsx:6-16 | the page starts with zero figures, `loading` set and no error |
| `Dashboard.DashboardPage.FetchDashboardData` | src/pages/Dashboard.jsx:18-69 | afterwards `loading` is false. If all three queries succeed, the error is cleared and the figures are those computed from the three tables. Otherwise the figures keep their previous value and the error is the first failure's text |
| `Projects.MapFormDataToDb` | src/pages/Projects.jsx:50-61 | the mapped record has exactly the ten columns, so no other key of the form object is forwarded |
| `Projects.MapFormDataToDbColumns` | src/pages/Projects.jsx:50-60 | each of the nine form fields is stored under its column: `startDate`, `endDate` and `assignedTeam` under their snake_case names, the others under the same name. `progress` is 0 whatever the form holds |
| `Projects.ColumnsOfFormFields` | src/pages/Projects.jsx:50-60 | the nine fields go to nine distinct columns; with `progress` these are exactly the ten columns |
| `Projects.MapFormDataRoundTrip` | src/pages/Projects.jsx:50-59 | reading the form fields back out of the mapped record gives the form restricted to its nine fields, so every value is preserved |
| `Projects.ExtraFieldNotForwarded` | src/pages/Projects.jsx:50-61 | setting a key outside the nine form fields does not change the mapped record |
| `Projects.CompleteFormHasNoUndefined` | src/pages/Projects.jsx:50-59 | a form object holding all nine fields maps to a record with no `undefined` value |
| `Projects.InitialFormData` | src/pages/Projects.jsx:9-19 | the initial form has exactly the nine fields; `status` is `planning` and every other field is empty |
| `Projects.ValidateImage` | src/pages/Projects.jsx:89-99 | a file is accepted if and only if its type is one of the four image types and its size is at most 10485760 bytes. A wrong type is reported with the type message whatever the size; an allowed type that is too large is reported with the size message |
| `Projects.ImageSizeBoundary` | src/pages/Projects.jsx:94-97 | for an allowed type, 10485760 bytes are accepted and 10485761 bytes are rejected with the size message |
| `Projects.ProjectsPage.constructor` | src/pages/Projects.jsx:7-20 | the page starts with the initial form, no image, the form hidden and `loading` set |
| `Projects.ProjectsPage.HandleInputChange` | src/pages/Projects.jsx:44-47 | the named field takes the value, no other field changes, and the form still holds its nine fields |
| `Projects.ProjectsPage.HandleFileChange` | src/pages/Projects.jsx:101-113 | the form keeps its nine fields. With no file chosen, the image is unchanged. An accepted file becomes the image. A rejected file clears the image, and its message is shown |
| `Projects.ProjectsPage.HandleSubmit` | src/pages/Projects.jsx:63-86 | the record sent is the mapped form, and it has no `undefined` value. After a successful insert the form is reset to its initial value and hidden. After a failed insert the form and its visibility are unchanged and the error message is shown. Loading is false either way |

## Left out

- Queries and inserts against the hosted data store are not performed. Each handler takes the query's or the insert's outcome as a parameter, so the table names, the `select('*')` and the `.order('created_at', …)` at src/pages/Projects.jsx:33 are not modelled.
- `fetchProjects` (src/pages/Projects.jsx:27-42) and the project list it fills are not modelled. It only stores the rows of a query. Of the refresh that `handleSubmit` starts after a successful insert, only its synchronous `setLoading(true)` is modelled.
- `Number()` coercion and floating-point budgets are not modelled. A budget is an optional integer, and `None` stands for every value that `Number(x) || 0` turns into 0.
- A query that reports no error but returns `null` data would make `filter` throw a `TypeError` in the source. The model assumes a successful query returns a list.
- React state updates are modelled as assignments in program order. Batching, re-rendering and the `async`/`await` interleaving are not modelled.
- The effects of `alert` and `console.error` are not modelled, and neither is clearing the file input (`e.target.value = ''`). An alert is returned as the message it would show.
- Row fields other than `status` and a project's `budget` are not modelled, because no modelled expression reads them.
- The JSX is not modelled. This covers the stat cards, the loading and error views, and the "New Project" toggle button (src/pages/Projects.jsx:119).
- `toLocaleString` formatting is not modelled.
- Routing, authentication, the layout, the employees and tools pages, and the store client's configuration are not part of this model.
- Determinism of the statistics is not stated as a lemma, because every Dafny function is deterministic by construction.

## Notes on the source

- `handleSubmit` neither uses nor clears the chosen image. A file accepted by `handleFileChange` is never uploaded and stays chosen after a successful insert. The model keeps this behaviour.
- The size message says "less than 10MB", but a file of exactly 10485760 bytes is accepted. The model follows the check in the code.
- `validateImage` reports each failure by its message string; there is no separate reason code.
- `mapFormDataToDb` does not need all nine fields: a missing one is read as `undefined` and its column is still written.
