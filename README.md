# Phoenix-MEP: a Dafny model of the dashboard's state and report logic

Phoenix-MEP is a React dashboard for managing fire-protection (PCCC) construction projects. Under the
rendering sits a small layer of list operations and derived values, plus one service that builds a
prompt for an AI text model and normalises the answer. This project models that layer and proves
what it does.

- `types.dfy` (module `Types`) holds the records of `types.ts`: project statuses, materials, daily
  logs, checklists and the AI settings.
- The components whose state their handlers replace become classes. Each class has `seq` fields and
  one method per handler:
  - `ProjectDetail.ProjectDetailState`: a project's materials, milestones, finance entries and documents.
  - `Checklists.ChecklistsState`: the quality-control checklists.
  - `DailyLogs.DailyLogsState`: the site diary.
  - `ProjectsPage.ProjectsState`: the project list.
  - `SettingsPage.SettingsState`: the AI settings editor.
- The values the views compute from that state are functions, with lemmas relating them:
  - the material filter and statistics, the supply bar and the milestone pipeline width;
  - checklist filtering, the active-checklist choice and the completion percentage;
  - the dashboard's status counts, average progress and deadline reminders.
- `gemini_service.dfy` (module `GeminiService`) models the report service:
  - how stored settings are resolved;
  - the focus block, which is built by appending lines and is modelled as a method proved equal
    to a function;
  - the tone and language phrases and the prompt template;
  - how the outcome of the model call becomes a summary string or a list of checklist items.

  The model call is a function parameter from prompt to outcome (`Ok(text?)` or `Err`).
- The helper modules hold the JavaScript operations the views use:
  - `Seqs`: `filter`, `map` over one id, `find`.
  - `JsMath`: `Math.round` of a quotient, stated exactly, and `Math.min`.
  - `Text`: `split`, `trim` and concatenation.
- `MockData` holds the seed records, used as concrete examples.

Outside code is abstracted as follows:

- The confirmation dialog is a `confirmed` flag.
- `Date.now()` ids are a `freshId` argument, required to be unused.
- Today's date is an argument.
- Project dates are instants in milliseconds.
- `parseInt` is an `Option<int>` argument, with `None` standing for NaN.
- Storage plus `JSON.parse` is a `Stored` value: missing, empty, unparseable or parsed settings.

The model follows the code where its behaviour departs from what the product describes:

- Supply bar: a material planned at 0 shows 100 % when some quantity arrived (`Infinity`, clipped by
  `Math.min`), not 0. It shows `-Infinity` when the actual quantity is negative, and the material form
  allows negative quantities.
- Pipeline width: for an empty milestone list the width is NaN, not 0.
- Checklist progress: 100 % does not imply that every item is done once a checklist has 200 items or
  more. An empty checklist counts as done but shows 0 %.
- Reminders: an Inspection project is reminded whatever its end date, including one already past.
- Daily logs: the manpower count is not clamped, so a negative count is stored.

## Model

| member | source | states |
|---|---|---|
| Types.ParseProjectStatus | types.ts:2-8 | a label reads back only to the status whose label it is |
| Types.ProjectStatusLabelRoundTrip | types.ts:2-8 | the five statuses have five distinct labels: reading a status's label gives that status back |
| Types.ParseMaterialStatus | types.ts:29 | a label reads back only to the material status whose label it is |
| Types.MaterialStatusLabelRoundTrip | types.ts:29 | the four material labels are distinct and none of them is the filter's "Tất cả" |
| Seqs.Without | views/ProjectDetailPage.tsx:154-157 | `filter(x => x.id !== id)` keeps exactly the entries with another id, in order and with every copy (each value occurs as often as in the input when its id differs, otherwise not at all), and is the identity when no entry has that id |
| Seqs.MapById | views/ChecklistsPage.tsx:52-62 | `map(x => x.id === id ? f(x) : x)` keeps the length and rewrites exactly the entries with that id |
| Seqs.FilterMembers | views/Dashboard.tsx:26-32 | `Array.prototype.filter` keeps exactly the elements satisfying the test, as an order-preserving subsequence, each with the multiplicity it has in the input |
| Seqs.FilterFull | views/ChecklistsPage.tsx:24 | a filter keeps every element exactly when every element passes |
| Seqs.Find | views/ChecklistsPage.tsx:35 | `find` yields the first element passing the test, and nothing exactly when no element passes |
| JsMath.RoundDiv | views/Dashboard.tsx:15 | `Math.round(n / d)` is the integer nearest to n/d, a tie going up |
| JsMath.RoundDivUnique | views/Dashboard.tsx:15 | only one integer meets the rounding bracket |
| JsMath.RoundPercent | views/ChecklistsPage.tsx:80 | `Math.round(c / t * 100)` is the rounded percentage; it lies in 0..100 for 0 <= c <= t, is 100 for c = t and 0 for c = 0 |
| JsMath.RoundDivAtLeast | views/ProjectDetailPage.tsx:272 | the rounded quotient reaches k exactly when n/d >= k - 1/2 |
| JsMath.Min | views/ProjectDetailPage.tsx:272 | `Math.min` is a lower bound of both arguments and equal to one of them |
| Text.Split | services/geminiService.ts:83 | `split('\n')` yields at least one piece and no piece contains the separator |
| Text.JoinSplit | services/geminiService.ts:83 | joining the pieces of a split gives the text back |
| Text.SplitJoin | services/geminiService.ts:83 | splitting a join of separator-free pieces gives the pieces back |
| Text.TrimStart | services/geminiService.ts:83 | the leading part removed by `trim` is white space and what is left does not start with white space |
| Text.TrimEnd | services/geminiService.ts:83 | the trailing part removed by `trim` is white space and what is left does not end with white space |
| Text.TrimNonEmpty | services/geminiService.ts:83 | `line.trim().length > 0` holds exactly when the line has a character that is not white space |
| Text.InterleaveContains | services/geminiService.ts:42-55 | a filled template contains its substitutions in order |
| Text.ConcatContains | services/geminiService.ts:31-34 | a concatenation contains its parts in order |
| ProjectDetail.FilterMaterials | views/ProjectDetailPage.tsx:93-96 | 'Tất cả' returns the list unchanged; a status filter returns exactly the materials with that status, order preserved, each as many times as it occurs in the list |
| ProjectDetail.Stats | views/ProjectDetailPage.tsx:98-104 | each count is the length of the filter by its status test; completed (in stock or used), on order and out of stock, plus the materials without a status, make the total; with every status set the three counts make the total |
| ProjectDetail.StatsPartition | views/ProjectDetailPage.tsx:98-104 | every material falls in exactly one of the three counts or has no status |
| ProjectDetail.StockedPercent | views/ProjectDetailPage.tsx:218 | round(100 * completed / total), or 0 for no materials; always in 0..100, and 100 when every material is supplied |
| ProjectDetail.SupplyRatio | views/ProjectDetailPage.tsx:272 | min(100, round(100 * actual / planned)) in 0..100 for planned > 0 and actual >= 0; below 100 it is the rounded ratio; planned 0 gives 100 for actual > 0, 0 for actual 0 and -Infinity exactly for actual < 0 |
| ProjectDetail.PipelineWidth | views/ProjectDetailPage.tsx:334 | NaN exactly for an empty list; otherwise 100 * started / count, in 0..100 |
| ProjectDetail.SeedPipelineIs60 | views/ProjectDetailPage.tsx:50-56 | the seeded schedule (two completed, one active, two pending) fills 60 % of the track |
| ProjectDetail.SeedShortageFilter | views/ProjectDetailPage.tsx:68-73 | filtering the seeded materials by "Hết hàng" gives the smoke detectors alone, and 'Tất cả' gives the seed |
| ProjectDetail.ParseQuantity | views/ProjectDetailPage.tsx:107 | a number is kept; a text is its `parseInt`, or 0 when that is NaN |
| ProjectDetail.SetQuantity | views/ProjectDetailPage.tsx:110-113 | the edited field becomes max(0, v) and the other is kept; the status changes only from on order to in stock, and does so once actual >= planned |
| ProjectDetail.WithQuantity | views/ProjectDetailPage.tsx:106-117 | the list keeps its length and order and only the materials with the given id change, as SetQuantity says |
| ProjectDetail.StatsUnderQuantityEdit | views/ProjectDetailPage.tsx:106-117 | an inline quantity edit keeps the total and the shortage count, keeps completed + on order, and never lowers completed |
| ProjectDetail.PromotionCounts | views/ProjectDetailPage.tsx:111-113 | promoting some on-order materials to in stock moves counts from on order to completed and changes nothing else |
| ProjectDetail.EditedMaterial | views/ProjectDetailPage.tsx:528 | a form edit sets the name and both quantities as entered, with no clamp and no promotion, and keeps id, unit and status |
| ProjectDetail.NewMaterial | views/ProjectDetailPage.tsx:530 | a material added through the form has the fresh id, the entered name and quantities, and no unit or status |
| ProjectDetail.EditedMilestone | views/ProjectDetailPage.tsx:534 | a form edit of a milestone takes every submitted field, the chosen status included, and keeps the id |
| ProjectDetail.NewMilestone | views/ProjectDetailPage.tsx:536 | a milestone added through the form is pending whatever status was sent |
| ProjectDetail.ProjectDetailState.constructor | views/ProjectDetailPage.tsx:47-76 | the page starts from the seeded lists, the 'Tất cả' filter, no modal and no edited item |
| ProjectDetail.ProjectDetailState.SetMaterialFilter | views/ProjectDetailPage.tsx:248 | the filter button sets the filter and nothing else |
| ProjectDetail.ProjectDetailState.UpdateMaterialQuantity | views/ProjectDetailPage.tsx:106-117 | the materials become WithQuantity of the old ones; nothing else changes |
| ProjectDetail.ProjectDetailState.DeleteItem | views/ProjectDetailPage.tsx:152-158 | once confirmed, the entries with that id leave the collection of the named tab; every other collection, and everything after a refusal, stays |
| ProjectDetail.ProjectDetailState.OpenModal | views/ProjectDetailPage.tsx:403 | opening a modal sets its kind and the edited item and leaves the lists alone |
| ProjectDetail.ProjectDetailState.CloseModal | views/ProjectDetailPage.tsx:591 | the close button clears the modal and the edited item and leaves the lists alone |
| ProjectDetail.ProjectDetailState.Submit | views/ProjectDetailPage.tsx:522-541 | the material modal edits in place or prepends, the milestone modal edits in place or appends a pending milestone, other modals change no list, and the modal closes |
| Checklists.DoneCount | views/ChecklistsPage.tsx:79 | the number of completed items: how many of the items' `isCompleted` flags are set, so at most the number of items |
| Checklists.DoneIsSetFlags | views/ChecklistsPage.tsx:79 | the length of the completed-items filter is the number of set `isCompleted` flags |
| Checklists.DoneIffAllCounted | views/ChecklistsPage.tsx:24 | a checklist is done exactly when all of its items are counted as completed |
| Checklists.FilteredChecklists | views/ChecklistsPage.tsx:20-31 | an order-preserving subsequence holding exactly the checklists that match the project and status filters, each as many times as in the input; 'all' and 'all' give the whole list |
| Checklists.PendingCompletedPartition | views/ChecklistsPage.tsx:20-31 | for one project choice, the pending and the completed filters split the checklists between them |
| Checklists.ActiveChecklist | views/ChecklistsPage.tsx:34-36 | the first checklist with the active id, even when filtered out; else the first filtered one; else the first one; none exactly when both lists are empty |
| Checklists.Progress | views/ChecklistsPage.tsx:76-81 | 0 with no checklist or no items, else round(100 * done / total), in 0..100, and 100 when all are done |
| Checklists.FullBarMeansDone | views/ChecklistsPage.tsx:80 | below 200 items a full bar means every item is done |
| Checklists.FullBarWithOpenItem | views/ChecklistsPage.tsx:80 | from 200 items on, one open item still shows 100 % |
| Checklists.EmptyChecklistDoneAtZero | views/ChecklistsPage.tsx:77 | an empty checklist is done and shows 0 % |
| Checklists.Toggled | views/ChecklistsPage.tsx:51-63 | exactly the named item of the named checklist flips; ids, titles, projects, lengths and every other item stay |
| Checklists.ToggleTwice | views/ChecklistsPage.tsx:51-63 | toggling the same item twice restores every checklist |
| Checklists.WithoutItem | views/ChecklistsPage.tsx:65-74 | only the named checklist loses items, exactly those with the id (every copy); the rest stay in order, each as many times as before |
| Checklists.ChecklistsState.constructor | views/ChecklistsPage.tsx:9-17 | the seed checklists, every project, status 'all', the first checklist active, the form closed |
| Checklists.ChecklistsState.SelectProject | views/ChecklistsPage.tsx:113 | the project selector sets the project filter and nothing else |
| Checklists.ChecklistsState.SetFilterStatus | views/ChecklistsPage.tsx:126 | the status buttons set the status filter and nothing else |
| Checklists.ChecklistsState.SelectChecklist | views/ChecklistsPage.tsx:151 | clicking a checklist makes it the active id and changes nothing else |
| Checklists.ChecklistsState.DeleteChecklist | views/ChecklistsPage.tsx:39-48 | once confirmed the checklist goes; if it was active and others remain, the first remaining one becomes active, otherwise the active id stays |
| Checklists.ChecklistsState.ToggleItem | views/ChecklistsPage.tsx:51-63 | the checklists become Toggled of the old ones; nothing else changes |
| Checklists.ChecklistsState.DeleteItem | views/ChecklistsPage.tsx:65-74 | once confirmed the checklists become WithoutItem of the old ones; nothing else changes |
| Checklists.ChecklistsState.OpenForm | views/ChecklistsPage.tsx:96 | the create button (no checklist) and the edit buttons (lines 172 and 207, a checklist) open the form on that target |
| Checklists.ChecklistsState.CloseForm | views/ChecklistsPage.tsx:330 | cancel closes the form and keeps the remembered checklist |
| Checklists.ChecklistsState.SubmitForm | views/ChecklistsPage.tsx:299-318 | an edit changes only title and project of that checklist; a creation appends an empty checklist and makes it active; the form closes |
| Checklists.CreatedChecklistIsActive | views/ChecklistsPage.tsx:308-315 | a checklist created with an unused id is the one the view shows, at 0 % |
| Checklists.SeedProgress | views/ChecklistsPage.tsx:76-81 | the seed checklist has one of three items done: 33 %, still pending |
| Dashboard.CountStatus | views/Dashboard.tsx:11-14 | the number of projects with that status, that is how often the status occurs among the projects' statuses: 0 exactly when none has it, the total exactly when all have it |
| Dashboard.CountIsOccurrences | views/Dashboard.tsx:11-14 | the length of the status filter is the number of occurrences of the status in the list of statuses |
| Dashboard.EmptyFilter | views/Dashboard.tsx:11-14 | a count is 0 exactly when no project passes the test |
| Dashboard.StatusPartition | views/Dashboard.tsx:10-14 | the four counted statuses plus Planning make the total |
| Dashboard.SumProgressBounds | views/Dashboard.tsx:15 | with every progress in 0..100 the sum lies in 0..100 * count |
| Dashboard.AverageProgress | views/Dashboard.tsx:15 | round(sum / total), 0 for no projects, and in 0..100 when every progress is |
| Dashboard.AverageBounds | views/Dashboard.tsx:15 | the rounded mean of progress values in 0..100 lies in 0..100 |
| Dashboard.Stats | views/Dashboard.tsx:9-18 | each shown count is CountStatus of its status and the average is AverageProgress; the counts together with Planning make the total, so the four shown counts never exceed it |
| Dashboard.Reminders | views/Dashboard.tsx:21-32 | an order-preserving subsequence with no Completed project, holding every Inspection project and every non-Completed project due within seven days, each as many times as in the input |
| Dashboard.RemindedIffDueSoon | views/Dashboard.tsx:29 | a project neither Inspection nor Completed is reminded exactly when now <= end <= now + 7 days |
| Dashboard.MockAverageIs57 | views/Dashboard.tsx:9-18 | the seed projects (65, 10 and 95) average to 57, with one in progress and one under inspection |
| Dashboard.MockRemindersLateAugust | views/Dashboard.tsx:26-32 | at midnight UTC on 2024-08-25 the seed reminders are Grand Park and the hospital |
| GeminiService.GetSettings | services/geminiService.ts:16-26 | a parsed record is used as it is; no entry, an empty entry or unparseable text gives the defaults |
| GeminiService.FocusLines | services/geminiService.ts:31-34 | one line per enabled flag |
| GeminiService.ConcatChoice | services/geminiService.ts:31-34 | joining the chosen lines is appending each enabled one in turn |
| GeminiService.LinesDiffer | services/geminiService.ts:32-34 | the three focus lines have three different lengths |
| GeminiService.FocusInstructions | services/geminiService.ts:31-34 | the enabled lines in the order risk, resources, forecast; its length adds up the enabled lines; empty exactly when all flags are off |
| GeminiService.FocusOrder | services/geminiService.ts:31-34 | the focus block contains the enabled lines in order |
| GeminiService.BuildFocusInstructions | services/geminiService.ts:31-34 | appending the enabled lines to "" yields FocusInstructions |
| GeminiService.FocusDeterminesFlags | services/geminiService.ts:31-34 | two settings with the same focus block have the same three flags |
| GeminiService.ToneDescriptionInjective | services/geminiService.ts:36-40 | the three tones have three different descriptions |
| GeminiService.LanguageName | services/geminiService.ts:53 | 'vi' gives "Tiếng Việt" and anything else "English" |
| GeminiService.PromptLayout | services/geminiService.ts:42-55 | the prompt holds, in order, the quoted name, the project and log serialisations, item 1, the focus block, item 3, the tone and the language |
| GeminiService.SummaryText | services/geminiService.ts:65-68 | non-empty text verbatim, "Không có tóm tắt." for absent or empty text, the fixed error message on failure; never empty |
| GeminiService.SummarizeProjectProgress | services/geminiService.ts:28-70 | one call with the prompt of the resolved settings, its outcome normalised by SummaryText: a non-empty string, never a failure, for every settings value the `Stored` abstraction can hold (a stored `null` is outside it, see Left out) |
| GeminiService.ChecklistPromptNamesType | services/geminiService.ts:73-76 | the checklist prompt starts with the request for five items and then names the quoted project type |
| GeminiService.ChecklistItems | services/geminiService.ts:83-85 | the fixed three-item list on failure, whatever the type; [] for absent text; otherwise the non-blank pieces of the split |
| GeminiService.ResponseLines | services/geminiService.ts:83 | the items are lines of the text, in order and untrimmed, each without a line break and with a visible character, and every such line is kept |
| GeminiService.KeptLines | services/geminiService.ts:83 | a kept line has no line break and has a visible character |
| GeminiService.GenerateChecklistItems | services/geminiService.ts:72-87 | one call with the checklist prompt, its outcome normalised by ChecklistItems |
| GeminiService.FiveRequestedNotEnforced | services/geminiService.ts:74 | an answer with two non-blank lines yields two items although five are asked for |
| GeminiService.ExampleLines | services/geminiService.ts:83 | "a\n \nb" splits into "a", " " and "b" |
| GeminiService.ExampleBlank | services/geminiService.ts:83 | " " is blank and "a", "b" are not |
| DailyLogs.FirstProjectId | views/DailyLogsPage.tsx:17 | the first project's id, or "" when there is none |
| DailyLogs.InitialForm | views/DailyLogsPage.tsx:11-18 | today's date, 'Nắng', nobody on site, empty activities and issues, the first project, no id and no images |
| DailyLogs.FormOf | views/DailyLogsPage.tsx:30 | a form filled from a log carries its id and images |
| DailyLogs.Overlay | views/DailyLogsPage.tsx:47 | the form's fields replace the log's; id and images only where the form carries them |
| DailyLogs.OverlayOwnForm | views/DailyLogsPage.tsx:28-48 | submitting an edit form untouched leaves the log as it was |
| DailyLogs.NewLog | views/DailyLogsPage.tsx:51-54 | the new log takes every form field and the fresh id |
| DailyLogs.ParseManpower | views/DailyLogsPage.tsx:123 | the parsed number, or 0 when it is NaN, with no clamp |
| DailyLogs.NegativeManpowerAccepted | views/DailyLogsPage.tsx:123 | "-3" is stored as -3 and NaN as 0 |
| DailyLogs.EditRecord | views/DailyLogsPage.tsx:91-143 | a text input changes its own field of the form and nothing else |
| DailyLogs.DailyLogsState.constructor | views/DailyLogsPage.tsx:7-20 | the seed logs, the form hidden on its initial state, nothing edited |
| DailyLogs.DailyLogsState.OpenCreate | views/DailyLogsPage.tsx:22-26 | nothing edited, the initial form, shown; the logs stay |
| DailyLogs.DailyLogsState.OpenEdit | views/DailyLogsPage.tsx:28-33 | that log edited, its fields in the form, shown; the logs stay |
| DailyLogs.DailyLogsState.HideForm | views/DailyLogsPage.tsx:71 | the header button only hides the form |
| DailyLogs.DailyLogsState.Cancel | views/DailyLogsPage.tsx:151 | cancel hides the form and forgets the edited log but keeps the entries |
| DailyLogs.DailyLogsState.EditField | views/DailyLogsPage.tsx:91-143 | the form becomes EditRecord of the old one; nothing else changes |
| DailyLogs.DailyLogsState.SetManpower | views/DailyLogsPage.tsx:123 | the head count becomes ParseManpower of the input; nothing else changes |
| DailyLogs.DailyLogsState.Delete | views/DailyLogsPage.tsx:35-39 | once confirmed exactly the logs with that id go, the others in order |
| DailyLogs.DailyLogsState.Submit | views/DailyLogsPage.tsx:41-61 | an edit overlays the form on the logs with the edited id, length kept; otherwise a new log with the fresh id is prepended; then the form hides and resets |
| ProjectsPage.ProgressOf | views/ProjectsPage.tsx:54 | the parsed progress, or 0 when it is NaN, with no clamp |
| ProjectsPage.SavedId | views/ProjectsPage.tsx:49 | the edited project's id unless it is empty, else the fresh id |
| ProjectsPage.ProjectData | views/ProjectsPage.tsx:48-59 | every field from the form, with the given id |
| ProjectsPage.Saved | views/ProjectsPage.tsx:61-64 | an edit replaces in place the projects with the edited id, length kept; a creation prepends the new project |
| ProjectsPage.EditKeepsIds | views/ProjectsPage.tsx:61-62 | editing a project with a non-empty id keeps the length and every id |
| ProjectsPage.EditOfEmptyIdRenames | views/ProjectsPage.tsx:49 | editing a project whose id is "" gives it the fresh id |
| ProjectsPage.CreatePrepends | views/ProjectsPage.tsx:63-64 | a created project comes first with the fresh id, which occurs once; the earlier projects follow unchanged |
| ProjectsPage.ProjectsState.constructor | views/ProjectsPage.tsx:24-26 | the seed projects, the modal closed, nothing edited |
| ProjectsPage.ProjectsState.Delete | views/ProjectsPage.tsx:28-34 | once confirmed exactly the projects with that id go, the others in order |
| ProjectsPage.ProjectsState.OpenEdit | views/ProjectsPage.tsx:36-41 | that project edited, modal open, list unchanged |
| ProjectsPage.ProjectsState.OpenCreate | views/ProjectsPage.tsx:83 | nothing edited, modal open, list unchanged |
| ProjectsPage.ProjectsState.CloseModal | views/ProjectsPage.tsx:156 | the close and cancel buttons (also line 210) hide the modal and keep the edited project |
| ProjectsPage.ProjectsState.Save | views/ProjectsPage.tsx:43-69 | the projects become Saved of the old list; the modal closes and the edited project is forgotten |
| SettingsPage.InitialIsDefault | views/SettingsPage.tsx:6-12 | the page's initial settings equal the service's defaults |
| SettingsPage.Toggled | views/SettingsPage.tsx:32-34 | exactly the named flag flips; the other flags, the tone and the language stay |
| SettingsPage.ToggleTwice | views/SettingsPage.tsx:32-34 | toggling a flag twice restores the settings |
| SettingsPage.TogglesCommute | views/SettingsPage.tsx:32-34 | toggles of two flags commute |
| SettingsPage.Loaded | views/SettingsPage.tsx:15-24 | a parsed record replaces the settings; anything else keeps them |
| SettingsPage.PageAgreesWithService | views/SettingsPage.tsx:15-24 | on a fresh page the loaded settings are those the service resolves from the same storage |
| SettingsPage.Written | views/SettingsPage.tsx:27 | what a save leaves in storage reads back as the saved record |
| SettingsPage.SettingsState.constructor | views/SettingsPage.tsx:6-13 | the defaults, not saved |
| SettingsPage.SettingsState.Load | views/SettingsPage.tsx:15-24 | the settings become Loaded of the old ones |
| SettingsPage.SettingsState.Save | views/SettingsPage.tsx:26-30 | writes the current settings, which stay, and raises the saved flag |
| SettingsPage.SettingsState.ToggleSetting | views/SettingsPage.tsx:32-34 | the settings become Toggled of the old ones |
| SettingsPage.SettingsState.SetLanguage | views/SettingsPage.tsx:107-113 | only the language changes |
| SettingsPage.SettingsState.SetTone | views/SettingsPage.tsx:126-138 | only the tone changes |
| SettingsPage.SettingsState.SaveThenReload | views/SettingsPage.tsx:26-27 | after a save, another page that loads shows the saved settings, and the service resolves the same record |

## Left out

- Rendering: JSX, CSS, routing, the presentational components, and the hard-coded display figures
  (the day counter and the finance cards). None of them computes state.
- The CSV export `handleExportExcel`: it only assembles text and downloads it.
- Tabs and loading flags: `activeTab`, the analysis trigger `handleAnalyze` and `isLoadingSummary`
  hold no logic beyond the service call they wrap.
- Floating point: every quotient is an exact rational. JavaScript rounds a double, so a few inputs
  round differently, for example 57 / 200 * 100, which is 28.499999999999996 as a double.
- Clock and time zones: the reminder window is now .. now + 7 days in milliseconds. `new Date`
  parsing and daylight-saving shifts are not modelled.
- Dates: `toISOString().split('T')[0]` is the `today` string argument.
- Dialogs and ids: `window.confirm` is the `confirmed` argument. A `Date.now()` id is a `freshId`
  argument, which methods that insert with it require to be unused.
- Checklist ids: `Checklists.ChecklistsState.SubmitForm` does not require `freshId` to be unused.
  With a used id, the active-checklist choice finds the older checklist first.
- Storage and JSON:
  - `localStorage` and `JSON.parse` are the `Stored` value. `JSON.stringify` of a project and of
    the logs are string arguments.
  - A parsed value of another shape is not modelled. A stored `null` parses to `null`: reading
    `settings.riskAssessment` (services/geminiService.ts:32) then throws before the `try`, so
    `summarizeProjectProgress` rejects, and on the settings page `setSettings(null)` makes the
    render fail at views/SettingsPage.tsx:73. A number or a partial record lets undefined fields
    flow into the prompt unchecked.
- SettingsPage.Written: assumes that serialising a settings record and parsing it back gives the
  same record.
- The model service: the SDK call, the API key, the model name, the temperature, `async`/`await`,
  and `console.error` logging. The call is the `generate` parameter.
- The saved-flag reset: `setTimeout` clears `isSaved` after three seconds, and the model does not
  include it.
- The material form's `parseInt` without `|| 0`: the quantity inputs are `required` number fields,
  so the model takes the submitted quantities as integers. A decimal entry truncated by `parseInt`
  is covered.
- Finance, document and project-edit modals: they have no fields that change state, and their
  submit only closes the modal. The document upload picker (`fileInputRef`) is not modelled.
- `editingItem` in the checklist view is declared but never read or set to a value, so it has no
  counterpart.
- Opening the material modal on an existing material: no button in the source does this.
  `ProjectDetail.ProjectDetailState.OpenModal` allows it, and the edit path of
  `ProjectDetail.ProjectDetailState.Submit` covers it.
- The project looked up from the router (`MOCK_PROJECTS.find`) and the 404 view are not modelled.
