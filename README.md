# Study planner core in Dafny

This project models the logic of a browser study planner with a resource library. The planner keeps one study record:

- an ordered list of the student's subjects;
- four task buckets, one per status (`toStudy`, `inProgress`, `revision`, `completed`);
- a subject-keyed dictionary of resource lists (links with tags).

The model covers:

- the store that loads, merges and edits that record;
- the Kanban drop decision;
- the per-task stopwatch;
- the subtask checklist;
- the create-task, add-resource and first-run setup dialogs;
- the AI breakdown and quick-create helpers, whose answers are canned;
- the dashboard, library and analytics queries;
- the duration and due-date formatters.

Each state-holding component is a class. Each class method ensures that the new state equals a specification function applied to the old state. The properties the application relies on are proved as lemmas about those functions. Examples:

- every task sits in the bucket named by its status, and no id appears twice;
- tag and subject lists never hold duplicates;
- formatted durations read back to the same hours, minutes and seconds.

Modules, one per file:

- `Options`, `Seqs`, `Text`, `Numerals`, `Records`: JavaScript building blocks.
  - Options and filtering.
  - `trim` over ECMAScript white space.
  - Decimal rendering.
  - String-keyed objects kept in insertion order (integer-like keys are not ordered first; see "Left out").
- `StudyTypes`: the entities.
- `Storage`: the storage helpers.
- `StudyStore`: the state hook.
- `Durations`: the time formatters.
- `Inputs`: the shared "type, press Add" chip lists.
- One module per component:
  - `KanbanBoard`, `StudyDashboard`;
  - `TaskTimer`, `TaskCard`, `TaskCardEnhanced`;
  - `CreateTaskDialog`, `CreateResourceDialog`, `FirstTimeSetup`;
  - `ResourceLibrary`, `StudyAnalytics`;
  - `AIBreakdownDialog`, `QuickTaskCreate`.

Inputs from outside the program are parameters:

- The clock is a parameter: millisecond stamps, ISO stamps, calendar days and day counts are all passed in.
- The id source is a parameter: fresh ids are passed in.
- The URL-derived title is a parameter.
- The calendar-day function is a parameter.

## Model

| member | source | states |
|---|---|---|
| StudyTypes.Rank | src/types/study.ts:3 | every status has a position among the four bucket keys, in declaration order |
| StudyTypes.ParseStatusKey | src/types/study.ts:3 | a drop-target id names a status exactly when it is one of the four bucket keys, and that status's key reads back as the status |
| StudyTypes.AllTasksMember | src/types/study.ts:33 | a task is among all tasks exactly when it is in one of the four buckets |
| StudyTypes.AllTasksFlatten | src/types/study.ts:33 | flattening the buckets in key order gives all tasks |
| Storage.DefaultSubjects | src/lib/storage.ts:6-15 | eight distinct suggested subjects, from Computer Science to Languages |
| Storage.DefaultStudyData | src/lib/storage.ts:17-28 | no subjects, four empty buckets, no resource keys |
| Storage.Load | src/lib/storage.ts:30-50 | nothing stored gives the default record; otherwise each stored part overrides the default, and a missing part falls back to empty |
| Storage.LoadSnapshot | src/lib/storage.ts:37-45 | loading a fully stored record gives that record back |
| Storage.IsFirstTime | src/lib/storage.ts:60-63 | first run exactly when no subject list was stored or it is empty |
| Storage.IsFirstTimeSnapshot | src/lib/storage.ts:60-63 | for a stored record, first run exactly when its subject list is empty |
| Storage.FindTask | src/lib/storage.ts:68-74 | the early-exit scan over the buckets returns the first task with the id in key order; it returns nothing exactly when no bucket holds that id |
| Storage.FindTaskById | src/lib/storage.ts:68-74 | the same lookup on the whole record |
| Storage.DropEverywhere | src/lib/storage.ts:80-82 | the loop over the bucket keys leaves every bucket without the entries matching the key |
| Storage.UpdateTask | src/lib/storage.ts:76-88 | the result is the record with the task moved: removed from every bucket, then appended to the bucket of its own status |
| Storage.MoveTaskPlaces | src/lib/storage.ts:76-88 | after the move the task is last in its status's bucket, no other bucket holds its id, and the id occurs exactly once overall |
| Storage.MoveTaskKeepsOthers | src/lib/storage.ts:80-82 | tasks with other ids keep their buckets and relative order |
| Storage.MoveTaskLastWins | src/lib/storage.ts:76-88 | two updates of the same id leave only the second |
| Storage.MoveTaskIdempotent | src/lib/storage.ts:76-88 | repeating an update changes nothing |
| Storage.MoveTaskConsistent | src/lib/storage.ts:76-88 | an update preserves "every task is in its status's bucket" and "no id twice" |
| Storage.BucketsWithoutConsistent | src/hooks/useStudyData.ts:41-45 | filtering every bucket preserves the same two invariants |
| Storage.AddResource | src/lib/storage.ts:90-99 | the subject's list (created empty when missing) gets the resource appended; other subjects and the task buckets are untouched; a new key goes last |
| Storage.SearchScope | src/lib/storage.ts:102-104 | a non-empty subject selects its list, or nothing if it is unknown; otherwise all resources flattened across subjects |
| Storage.SearchResources | src/lib/storage.ts:101-114 | a blank query returns the scope; otherwise the result keeps the scope's order and holds exactly the resources whose title, description or a tag contains the lowercased query |
| StudyStore.WithSubject | src/hooks/useStudyData.ts:20-32 | the subject is appended and its resource list is reset to empty; other lists and tasks are untouched |
| StudyStore.WithSubjectNoDedup | src/hooks/useStudyData.ts:25 | adding a subject that is already listed duplicates it, because the store does not check |
| StudyStore.WithoutSubjectCascade | src/hooks/useStudyData.ts:34-57 | removing a subject drops it from the list, drops its resource key, keeps other keys, and drops exactly that subject's tasks from every bucket in order |
| StudyStore.WithoutSubjectAbsent | src/hooks/useStudyData.ts:34-57 | removing a subject that appears nowhere changes nothing |
| StudyStore.WithTask | src/hooks/useStudyData.ts:67-73 | the new task is appended to its status's bucket and nothing else changes |
| StudyStore.WithTaskConsistent | src/hooks/useStudyData.ts:59-76 | creating a task with a fresh id keeps the bucket invariants, and the id then occurs once |
| StudyStore.ReplaceById | src/hooks/useStudyData.ts:117-120 | the first resource with the id is replaced in place and the rest are untouched; if there is none the list is unchanged |
| StudyStore.ReplaceResourceInPlace | src/hooks/useStudyData.ts:111-125 | updating a resource keeps every key and every list length and never moves it to another subject, even when its subject changed; lists without the id are untouched |
| StudyStore.DropResourceKeepsKeys | src/hooks/useStudyData.ts:127-137 | deleting a resource keeps every subject key and removes exactly the entries with that id, in order |
| StudyStore.DeleteTaskSpec | src/hooks/useStudyData.ts:88-98 | deleting a task removes exactly the entries with that id from every bucket and keeps order; an unknown id changes nothing |
| StudyStore.Store.constructor | src/hooks/useStudyData.ts:8 | the store starts with the loaded record |
| StudyStore.Store.UpdateStudyData | src/hooks/useStudyData.ts:16-18 | the record is replaced |
| StudyStore.Store.AddSubject | src/hooks/useStudyData.ts:20-32 | the new record is `WithSubject` of the old one; the invariants are kept |
| StudyStore.Store.RemoveSubject | src/hooks/useStudyData.ts:34-57 | the loop over the bucket keys yields `WithoutSubject` of the old record; the invariants are kept |
| StudyStore.Store.CreateTask | src/hooks/useStudyData.ts:59-76 | the returned task is the draft with its id and stamps; it is appended to its bucket; with a fresh id the invariants are kept |
| StudyStore.Store.UpdateTaskData | src/hooks/useStudyData.ts:78-86 | the task is stamped with the update time and moved as in `updateTask`; the invariants are kept |
| StudyStore.Store.DeleteTask | src/hooks/useStudyData.ts:88-98 | the loop over the bucket keys removes the id everywhere; the invariants are kept |
| StudyStore.Store.CreateResource | src/hooks/useStudyData.ts:100-109 | the returned resource is the draft with its id and stamp, added through `addResource` |
| StudyStore.Store.UpdateResource | src/hooks/useStudyData.ts:111-125 | the loop over the subject keys replaces the resource in place in every list that holds its id |
| StudyStore.Store.DeleteResource | src/hooks/useStudyData.ts:127-137 | the loop over the subject keys filters the id out of every list |
| KanbanBoard.DropDecision | src/components/kanban/KanbanBoard.tsx:83-105 | an update is produced exactly when there is a drop target, the dragged id is found, the target is a column key and differs from the task's status; the update is the found task with the new status |
| KanbanBoard.DropDecisionStatusOnly | src/components/kanban/KanbanBoard.tsx:99-102 | the update differs from the dragged task in its status only |
| KanbanBoard.DragEndUpdate | src/components/kanban/KanbanBoard.tsx:83-105 | the drag-end handler, which scans the buckets, computes exactly the drop decision |
| KanbanBoard.DropThenUpdate | src/components/kanban/KanbanBoard.tsx:99-102 | applying a drop through the store files the task last in the target column, with its id nowhere else |
| KanbanBoard.TotalIsActivePlusCompleted | src/components/kanban/KanbanBoard.tsx:115-116 | the header's total equals the active count plus the completed bucket |
| KanbanBoard.Board.constructor | src/components/kanban/KanbanBoard.tsx:66 | no task is being dragged at first |
| KanbanBoard.Board.HandleDragStart | src/components/kanban/KanbanBoard.tsx:77-81 | the dragged task is the first task with the id, or none |
| KanbanBoard.Board.HandleDragEnd | src/components/kanban/KanbanBoard.tsx:83-105 | the dragged task is cleared and the drop decision is returned |
| StudyDashboard.BucketsFilter | src/components/dashboard/StudyDashboard.tsx:123-133 | each bucket of the result is the matching tasks of the same bucket |
| StudyDashboard.FilterTasks | src/components/dashboard/StudyDashboard.tsx:115-136 | the loop filling the empty record computes the filtered buckets |
| StudyDashboard.FilteredTasksSubseq | src/components/dashboard/StudyDashboard.tsx:124 | each filtered bucket keeps its bucket's order |
| StudyDashboard.FilteredTasksAll | src/components/dashboard/StudyDashboard.tsx:125-129 | with an empty search and subject "All" every bucket is shown unchanged |
| StudyDashboard.FilteredTasksMembers | src/components/dashboard/StudyDashboard.tsx:124-131 | a task is shown exactly when it is in the bucket, its title or description contains the lowercased search (or the search is empty), and its subject matches (or "All") |
| StudyDashboard.FilteredTasksSubject | src/components/dashboard/StudyDashboard.tsx:129 | with a subject selected every shown task has that subject |
| StudyDashboard.DashboardStats | src/components/dashboard/StudyDashboard.tsx:86-106 | the completed and in-progress counts are the bucket sizes, the streak is the constant 7, and today's time never exceeds the total time |
| StudyDashboard.Dashboard.constructor | src/components/dashboard/StudyDashboard.tsx:72-75 | empty search and subject "All", so every task is visible |
| StudyDashboard.Dashboard.SetSearchQuery | src/components/dashboard/StudyDashboard.tsx:74 | only the search text changes |
| StudyDashboard.Dashboard.SelectSubject | src/components/dashboard/StudyDashboard.tsx:75 | only the selected subject changes |
| StudyDashboard.Dashboard.HandleDragStart | src/components/dashboard/StudyDashboard.tsx:138-142 | the dragged task is the first task with the id, or none; the filters are untouched |
| StudyDashboard.Dashboard.HandleDragEnd | src/components/dashboard/StudyDashboard.tsx:144-165 | the same drop decision as the board; the dragged task is cleared |
| Durations.PartsRecompose | src/components/kanban/TaskTimer.tsx:19-21 | hours, minutes below 60 and seconds below 60 recompose the seconds |
| Durations.HoursMinutesRoundTrip | src/components/dashboard/StudyDashboard.tsx:108-112 | the dashboard's "Xh Ym" reads back as the hours and minutes |
| Durations.CompactRoundTrip | src/components/kanban/TaskCard.tsx:53-61 | the card's form reads back as the hours and minutes; the hours appear exactly from 3600 seconds on |
| Durations.Compact | src/components/analytics/StudyAnalytics.tsx:109-114 | below an hour it is just the minutes; from an hour on it is the dashboard's "Xh Ym" |
| Durations.ClockRoundTrip | src/components/kanban/TaskTimer.tsx:18-27 | the timer's "h:mm:ss" or "m:ss" reads back as hours, minutes and seconds |
| Durations.ClockInjective | src/components/kanban/TaskTimer.tsx:18-27 | different second counts never display the same |
| Durations.MinutesLabelIsCompact | src/components/ai/AIBreakdownDialog.tsx:161-166 | the estimate format on minutes is the card format on the same time in seconds |
| TaskTimer.Mounted | src/components/kanban/TaskTimer.tsx:13-16 | a mounted timer is stopped, shows the task's time and has reported nothing |
| TaskTimer.StepSpec | src/components/kanban/TaskTimer.tsx:29-49 | every event keeps the timer sane; only a live tick moves the counter, by exactly one; a start records the instant; a pause stops and reports the total |
| TaskTimer.RunMonotone | src/components/kanban/TaskTimer.tsx:33-37 | over any sequence of events the counter never decreases |
| TaskTimer.TicksAdd | src/components/kanban/TaskTimer.tsx:33-37 | while running, n ticks add n seconds and the last report is the new total |
| TaskTimer.StartThenTicks | src/components/kanban/TaskTimer.tsx:29-38 | from mount, a start and n ticks show the mounted time plus n |
| TaskTimer.AsWrittenStallsAfterOneTick | src/components/kanban/TaskTimer.tsx:60-70 | as written, a start and two ticks show the mounted time plus one while still shown running; the corrected timer shows plus two |
| TaskTimer.ApplyFlushesLast | src/components/kanban/TaskTimer.tsx:47-48 | reports are totals, so the task ends with the last one |
| TaskTimer.ApplyFlushesRepeat | src/components/kanban/TaskTimer.tsx:73-77 | a repeated report of the same total changes nothing |
| TaskTimer.Timer.constructor | src/components/kanban/TaskTimer.tsx:12-16 | the fields form the mounted view |
| TaskTimer.Timer.StartTimer | src/components/kanban/TaskTimer.tsx:29-39 | the state after starting is the specified start step |
| TaskTimer.Timer.OnTick | src/components/kanban/TaskTimer.tsx:34-37 | the state after a tick is the specified tick step |
| TaskTimer.Timer.PauseTimer | src/components/kanban/TaskTimer.tsx:41-49 | the state after pausing is the specified pause step |
| TaskTimer.Timer.ToggleTimer | src/components/kanban/TaskTimer.tsx:51-57 | the state after toggling is the specified toggle step |
| TaskTimer.Timer.Unmount | src/components/kanban/TaskTimer.tsx:60-70 | teardown cancels the tick source and reports only a changed total |
| TaskCard.DueBadgeVariant | src/components/kanban/TaskCard.tsx:71-77 | urgent exactly up to one day ahead (overdue included), normal for two or three days, muted beyond |
| TaskCard.DueLabel | src/components/kanban/TaskCard.tsx:168-173 | "Today" exactly at 0, "Tomorrow" exactly at 1, "Overdue" exactly below 0, otherwise the day count followed by "d" |
| TaskCard.DueLabelReadsBack | src/components/kanban/TaskCard.tsx:173 | a day-count label reads back as the count |
| TaskCard.TimeUpdate | src/components/kanban/TaskCard.tsx:79-84 | the reported total replaces `timeSpent` and nothing else changes |
| TaskCard.TimeLineOf | src/components/kanban/TaskCard.tsx:145-159 | a timer exactly for in-progress tasks, started from their time; otherwise the spent time exactly when positive, reading back as its hours and minutes |
| TaskCardEnhanced.AddSubtask | src/components/kanban/TaskCardEnhanced.tsx:91-108 | nothing for a blank title; otherwise only the subtasks change: the old ones are kept and one unchecked subtask with the trimmed, non-empty title is appended |
| TaskCardEnhanced.ToggleSubtask | src/components/kanban/TaskCardEnhanced.tsx:110-119 | subtasks with the id flip their check mark; all others and the rest of the task are untouched |
| TaskCardEnhanced.ToggleTwice | src/components/kanban/TaskCardEnhanced.tsx:110-119 | toggling twice restores the task |
| TaskCardEnhanced.DeleteSubtask | src/components/kanban/TaskCardEnhanced.tsx:121-127 | exactly the subtasks with other ids remain, in order; the rest of the task is untouched |
| TaskCardEnhanced.CompletedSubtasks | src/components/kanban/TaskCardEnhanced.tsx:80 | at most the number of subtasks; zero exactly when none is checked |
| TaskCardEnhanced.Progress | src/components/kanban/TaskCardEnhanced.tsx:80-82 | between 0 and 100; 0 with no subtasks; 100 exactly when there are subtasks and all are checked |
| TaskCardEnhanced.CompletedAppend | src/components/kanban/TaskCardEnhanced.tsx:80 | the checked count of a concatenation is the sum of the counts |
| TaskCardEnhanced.AddSubtaskCounts | src/components/kanban/TaskCardEnhanced.tsx:91-103 | adding a subtask adds one to the total and leaves the checked count alone |
| TaskCardEnhanced.CardState.constructor | src/components/kanban/TaskCardEnhanced.tsx:47-49 | collapsed, not adding, empty input |
| TaskCardEnhanced.CardState.ToggleExpanded | src/components/kanban/TaskCardEnhanced.tsx:232 | the expansion flips and nothing else changes |
| TaskCardEnhanced.CardState.OpenInput | src/components/kanban/TaskCardEnhanced.tsx:258 | the input opens and nothing else changes |
| TaskCardEnhanced.CardState.TypeTitle | src/components/kanban/TaskCardEnhanced.tsx:297 | only the typed title changes |
| TaskCardEnhanced.CardState.CancelInput | src/components/kanban/TaskCardEnhanced.tsx:302-305 | Escape closes the input and clears it |
| TaskCardEnhanced.CardState.SubmitSubtask | src/components/kanban/TaskCardEnhanced.tsx:91-108 | the update is `AddSubtask` of the typed title; on success the input closes and clears, otherwise nothing changes |
| CreateTaskDialog.DefaultForm | src/components/kanban/CreateTaskDialog.tsx:37-45 | empty text fields, status toStudy, medium priority and difficulty |
| CreateTaskDialog.SubmitPayload | src/components/kanban/CreateTaskDialog.tsx:59-80 | rejected exactly when the trimmed title is empty or no subject or due date was chosen; otherwise the trimmed title and description, the choices unchanged, no time and no subtasks |
| CreateTaskDialog.DueShown | src/components/kanban/CreateTaskDialog.tsx:209 | the date field shows the chosen date, or tomorrow's while none is chosen |
| CreateTaskDialog.FallbackDateNotSubmitted | src/components/kanban/CreateTaskDialog.tsx:89-92 | the displayed fallback date is not a chosen due date: an untouched form is still rejected |
| CreateTaskDialog.TaskDialog.constructor | src/components/kanban/CreateTaskDialog.tsx:37-45 | the form starts at its defaults |
| CreateTaskDialog.TaskDialog.Edit | src/components/kanban/CreateTaskDialog.tsx:37 | only the form changes |
| CreateTaskDialog.TaskDialog.HandleSubmit | src/components/kanban/CreateTaskDialog.tsx:59-80 | the payload is `SubmitPayload`; on success the form resets and the dialog closes, otherwise nothing changes |
| CreateTaskDialog.TaskDialog.HandleOpenChange | src/components/kanban/CreateTaskDialog.tsx:82-87 | closing resets the form; the open flag follows the request |
| Inputs.AddEntry | src/components/library/CreateResourceDialog.tsx:59-67 | the trimmed entry is appended exactly when it is not blank and not already listed; a duplicate-free list stays duplicate-free |
| Inputs.AddedEntryTrimmed | src/components/setup/FirstTimeSetup.tsx:21-26 | an added entry is never blank and has no surrounding white space |
| Inputs.RemoveEntry | src/components/library/CreateResourceDialog.tsx:69-74 | the entry is gone, every other entry stays, in order, and a duplicate-free list stays duplicate-free |
| Inputs.RemoveAddedEntry | src/components/setup/FirstTimeSetup.tsx:21-30 | removing the entry just added restores the list |
| CreateResourceDialog.EmptyForm | src/components/library/CreateResourceDialog.tsx:38-44 | all text fields empty and no tags |
| CreateResourceDialog.TitleAfterUrlChange | src/components/library/CreateResourceDialog.tsx:92-99 | a typed title is kept; only an empty one takes the title derived from the URL |
| CreateResourceDialog.MergeTags | src/components/library/CreateResourceDialog.tsx:117-122 | every previous and suggested tag exactly once; for a duplicate-free list the previous tags come first, in order |
| CreateResourceDialog.Analyze | src/components/library/CreateResourceDialog.tsx:101-128 | nothing without a URL; otherwise the canned title and description and the merged tags, other fields kept |
| CreateResourceDialog.SubmitPayload | src/components/library/CreateResourceDialog.tsx:130-147 | rejected exactly when the trimmed URL or title is empty or no subject was chosen; otherwise trimmed URL, title and description, with subject and tags |
| CreateResourceDialog.ResourceDialog.constructor | src/components/library/CreateResourceDialog.tsx:38-46 | an empty form and tag input |
| CreateResourceDialog.ResourceDialog.TypeTag | src/components/library/CreateResourceDialog.tsx:46 | only the pending tag changes |
| CreateResourceDialog.ResourceDialog.EditText | src/components/library/CreateResourceDialog.tsx:38-44 | only the edited fields change; the tags stay duplicate-free |
| CreateResourceDialog.ResourceDialog.AddPendingTag | src/components/library/CreateResourceDialog.tsx:59-80 | the tags become `AddEntry` of the pending tag, which is cleared only when it was added |
| CreateResourceDialog.ResourceDialog.RemovePendingTag | src/components/library/CreateResourceDialog.tsx:69-74 | the tags become `RemoveEntry` of the tag |
| CreateResourceDialog.ResourceDialog.ChangeUrl | src/components/library/CreateResourceDialog.tsx:92-99 | the URL is stored and the title follows `TitleAfterUrlChange` |
| CreateResourceDialog.ResourceDialog.AnalyzeWithAI | src/components/library/CreateResourceDialog.tsx:101-128 | the form becomes the analysed form, or stays without a URL; the tags stay duplicate-free |
| CreateResourceDialog.ResourceDialog.HandleSubmit | src/components/library/CreateResourceDialog.tsx:130-147 | the payload is `SubmitPayload`; on success everything resets and the dialog closes, otherwise nothing changes |
| CreateResourceDialog.ResourceDialog.HandleOpenChange | src/components/library/CreateResourceDialog.tsx:149-154 | closing resets the form and the pending tag |
| FirstTimeSetup.AddSuggested | src/components/setup/FirstTimeSetup.tsx:32-36 | a suggested subject is appended as it is unless already chosen; the list stays duplicate-free |
| FirstTimeSetup.Completion | src/components/setup/FirstTimeSetup.tsx:44-48 | the list is handed over exactly when it is not empty |
| FirstTimeSetup.CompletedListDistinct | src/components/setup/FirstTimeSetup.tsx:44-48 | a completed setup hands over a non-empty, duplicate-free list |
| FirstTimeSetup.Setup.constructor | src/components/setup/FirstTimeSetup.tsx:15-17 | no subjects, empty input, welcome step |
| FirstTimeSetup.Setup.GetStarted | src/components/setup/FirstTimeSetup.tsx:83 | welcome leads to the subjects step |
| FirstTimeSetup.Setup.Back | src/components/setup/FirstTimeSetup.tsx:165 | back to the welcome step, the list kept |
| FirstTimeSetup.Setup.Continue | src/components/setup/FirstTimeSetup.tsx:169-171 | the ready step is reached only with at least one subject |
| FirstTimeSetup.Setup.TypeSubject | src/components/setup/FirstTimeSetup.tsx:16 | only the input changes |
| FirstTimeSetup.Setup.AddSubject | src/components/setup/FirstTimeSetup.tsx:21-26 | the list becomes `AddEntry` of the input, which clears only when the subject was added |
| FirstTimeSetup.Setup.AddDefaultSubject | src/components/setup/FirstTimeSetup.tsx:32-36 | the list becomes `AddSuggested` of the subject |
| FirstTimeSetup.Setup.RemoveSubject | src/components/setup/FirstTimeSetup.tsx:28-30 | the list becomes `RemoveEntry` of the subject |
| FirstTimeSetup.Setup.Complete | src/components/setup/FirstTimeSetup.tsx:44-48 | on the ready step the whole non-empty list is handed over |
| ResourceLibrary.LessTotal | src/components/library/ResourceLibrary.tsx:53 | code-unit order compares any two different strings |
| ResourceLibrary.LessTransitive | src/components/library/ResourceLibrary.tsx:53 | code-unit order is transitive |
| ResourceLibrary.Sort | src/components/library/ResourceLibrary.tsx:53 | sorting permutes its input |
| ResourceLibrary.SortSorted | src/components/library/ResourceLibrary.tsx:53 | sorting a duplicate-free list makes it strictly ascending |
| ResourceLibrary.AllResources | src/components/library/ResourceLibrary.tsx:48 | a resource is listed exactly when some subject's list holds it |
| ResourceLibrary.TotalResources | src/components/library/ResourceLibrary.tsx:69 | the count is the sum of the subject lists' sizes |
| ResourceLibrary.TagsOf | src/components/library/ResourceLibrary.tsx:52 | a tag is collected exactly when some resource carries it |
| ResourceLibrary.AllTags | src/components/library/ResourceLibrary.tsx:51-53 | the tag index is strictly ascending |
| ResourceLibrary.AllTagsMember | src/components/library/ResourceLibrary.tsx:51-53 | the tag index holds exactly the tags carried by some resource |
| ResourceLibrary.AllTagsDistinct | src/components/library/ResourceLibrary.tsx:51-53 | the tag index has no repeats |
| ResourceLibrary.FilteredResources | src/components/library/ResourceLibrary.tsx:56-67 | the shown resources keep the overall order and are exactly those passing the search, subject and tag filters |
| ResourceLibrary.UnfilteredShowsAll | src/components/library/ResourceLibrary.tsx:42-44 | the initial filters show every resource |
| ResourceLibrary.FilteredRespectsSelection | src/components/library/ResourceLibrary.tsx:57-64 | each shown resource has the selected subject and tag, and matches a non-empty search in title, description or a tag |
| StudyAnalytics.Percent | src/components/analytics/StudyAnalytics.tsx:52 | a rate is 0 with an empty denominator, between 0 and 100, and 100 exactly when all are counted |
| StudyAnalytics.TotalStudyTime | src/components/analytics/StudyAnalytics.tsx:38-40 | the total is the sum of the four buckets' times |
| StudyAnalytics.StatFor | src/components/analytics/StudyAnalytics.tsx:43-55 | the total is the number of tasks with the subject; completed is the number of those with the completed status; the time is the sum of their times; the rate is their percentage; completed at most total at most all tasks |
| StudyAnalytics.CompletedOfFiled | src/components/analytics/StudyAnalytics.tsx:39-45 | when every task sits in its status's bucket, the tasks with the completed status are exactly the completed bucket |
| StudyAnalytics.StatForFiled | src/components/analytics/StudyAnalytics.tsx:45 | in such a record, a subject's completed count is its number of tasks in the completed bucket |
| StudyAnalytics.SubjectTotalsAddUp | src/components/analytics/StudyAnalytics.tsx:43-55 | with distinct declared subjects the rows' totals add up to at most the number of tasks, and to exactly that number when every task's subject is declared |
| StudyAnalytics.SubjectStats | src/components/analytics/StudyAnalytics.tsx:43-55 | one row per declared subject, in order |
| StudyAnalytics.PriorityStatFor | src/components/analytics/StudyAnalytics.tsx:59-64 | the count is the number of tasks with the priority; completed is the number of those with the completed status, at most the count |
| StudyAnalytics.PriorityStatFiled | src/components/analytics/StudyAnalytics.tsx:63 | when every task sits in its status's bucket, a priority's completed count is its number of tasks in the completed bucket |
| StudyAnalytics.PriorityStats | src/components/analytics/StudyAnalytics.tsx:58-65 | four rows, urgent, high, medium, low, each completed at most count, the counts adding up to the number of tasks |
| StudyAnalytics.PriorityCountsAddUp | src/components/analytics/StudyAnalytics.tsx:58-59 | every task has exactly one priority |
| StudyAnalytics.DayEntryFor | src/components/analytics/StudyAnalytics.tsx:69-78 | a bar's completed count is the number of tasks in the completed bucket last updated on that day, and its hours are their time divided by 3600; no completions means no hours |
| StudyAnalytics.WeeklyCompletedBound | src/components/analytics/StudyAnalytics.tsx:68-79 | the seven bars are different days, so together they count no more tasks than the completed bucket holds |
| StudyAnalytics.WeeklyData | src/components/analytics/StudyAnalytics.tsx:68-79 | seven bars, six days ago first and today last |
| StudyAnalytics.StreakFrom | src/components/analytics/StudyAnalytics.tsx:82-94 | the streak counted from offset i is at most 30 - i |
| StudyAnalytics.CurrentStreak | src/components/analytics/StudyAnalytics.tsx:82-94 | the counting loop with its early exit computes the specified streak, at most 30 |
| StudyAnalytics.StreakSkipsToday | src/components/analytics/StudyAnalytics.tsx:91 | no completion today does not end the streak |
| StudyAnalytics.StreakStopsAtGap | src/components/analytics/StudyAnalytics.tsx:91-92 | a day without completions k days back caps the streak at k |
| StudyAnalytics.StreakCountsRun | src/components/analytics/StudyAnalytics.tsx:89-90 | consecutive days with completions from yesterday back are all counted |
| StudyAnalytics.AverageSession | src/components/analytics/StudyAnalytics.tsx:101 | 0 without completed tasks; otherwise times the completed count gives the total time |
| StudyAnalytics.ComputeAnalytics | src/components/analytics/StudyAnalytics.tsx:37-107 | totals are the bucket sizes, the rate is 0 without tasks, the average is the exact quotient, the streak is the specified streak (at most 30), and the subject, priority and weekly rows are the row functions above |
| AIBreakdownDialog.CannedSuggestions | src/components/ai/AIBreakdownDialog.tsx:63-94 | five suggestions, the first naming the subject and the title, 180 minutes in all |
| AIBreakdownDialog.Toggle | src/components/ai/AIBreakdownDialog.tsx:114-122 | the index becomes selected exactly when it was not; other indices keep their state; no index twice |
| AIBreakdownDialog.ToggleTwice | src/components/ai/AIBreakdownDialog.tsx:114-122 | toggling twice restores the selected set, and the very sequence when the index was unselected |
| AIBreakdownDialog.BreakdownSubtaskIdInjective | src/components/ai/AIBreakdownDialog.tsx:130 | within one apply, different indices give different ids |
| AIBreakdownDialog.NewSubtasks | src/components/ai/AIBreakdownDialog.tsx:127-135 | one unchecked subtask per selected index, in selection order, with the suggestion's title |
| AIBreakdownDialog.NewSubtaskIdsDistinct | src/components/ai/AIBreakdownDialog.tsx:127-135 | the new subtasks' ids are pairwise different |
| AIBreakdownDialog.Apply | src/components/ai/AIBreakdownDialog.tsx:124-150 | fails exactly when a selected index has no suggestion; otherwise only the subtasks change: the old ones are kept and the new ones follow them |
| AIBreakdownDialog.TotalEstimatedTime | src/components/ai/AIBreakdownDialog.tsx:168-169 | with valid indices, the sum of their estimates; a last index without a suggestion resets the total to 0 |
| AIBreakdownDialog.EstimateFromSum | src/components/ai/AIBreakdownDialog.tsx:168-169 | the fold adds every estimate when all indices are valid |
| AIBreakdownDialog.EstimateResets | src/components/ai/AIBreakdownDialog.tsx:169 | an invalid last index makes the fold 0 |
| AIBreakdownDialog.BreakdownDialog.constructor | src/components/ai/AIBreakdownDialog.tsx:50-51 | no suggestions and nothing selected |
| AIBreakdownDialog.BreakdownDialog.Generate | src/components/ai/AIBreakdownDialog.tsx:54-112 | nothing without a task; otherwise the five suggestions with the first three selected |
| AIBreakdownDialog.BreakdownDialog.ToggleSuggestion | src/components/ai/AIBreakdownDialog.tsx:114-122 | the selection becomes `Toggle` of the index |
| AIBreakdownDialog.BreakdownDialog.ApplySelected | src/components/ai/AIBreakdownDialog.tsx:124-150 | the update is `Apply` of the current selection; a successful apply closes the dialog |
| QuickTaskCreate.SuggestedSubject | src/components/ai/QuickTaskCreate.tsx:52 | the first declared subject, or "General" when there is none or it is empty |
| QuickTaskCreate.Suggestions | src/components/ai/QuickTaskCreate.tsx:48-73 | three suggestions, all with the suggested subject, titled from the untrimmed prompt, at medium, high and low priority |
| QuickTaskCreate.CreatePayload | src/components/ai/QuickTaskCreate.tsx:93-106 | the suggestion's fields unchanged, due after its estimated days, status toStudy, no time and no subtasks |
| QuickTaskCreate.SuggestionTitlesDistinct | src/components/ai/QuickTaskCreate.tsx:48-73 | for any prompt the three suggestions have different titles |
| QuickTaskCreate.QuickCreate.constructor | src/components/ai/QuickTaskCreate.tsx:34-37 | empty prompt, no suggestions, collapsed |
| QuickTaskCreate.QuickCreate.TypePrompt | src/components/ai/QuickTaskCreate.tsx:34 | only the prompt changes |
| QuickTaskCreate.QuickCreate.Generate | src/components/ai/QuickTaskCreate.tsx:39-91 | a blank prompt does nothing; otherwise the three suggestions are shown, expanded |
| QuickTaskCreate.QuickCreate.SetExpanded | src/components/ai/QuickTaskCreate.tsx:176 | the collapse and "show suggestions" buttons change only the expansion; the suggestions stay |
| QuickTaskCreate.QuickCreate.Pick | src/components/ai/QuickTaskCreate.tsx:93-106 | picking a shown suggestion hands over its payload |

## Left out

- Browser storage and JSON: `localStorage`, `JSON.parse`/`stringify`, saving and the catch-and-log paths are not modelled. Loading is a merge over an optional, already parsed record.
- React plumbing: state setters, memoisation and re-rendering are not modelled. Each component's state is one object updated by its methods. The save-on-change effect of the state hook is not modelled.
- In-place aliasing: three operations write into objects that the previous record shares. The model builds each new record as a value, so these writes into the previous record are not captured.
  - `updateTask` (`src/lib/storage.ts:77-85`) copies the record shallowly. It then reassigns the four bucket fields of the `tasks` object that the previous record also holds. The filtered arrays and the push onto one of them are fresh.
  - `addResource` (`src/lib/storage.ts:91-98`) may add a key to the shared `resources` object. It pushes onto the subject's array, which is shared with the previous record.
  - `updateResource` (`src/hooks/useStudyData.ts:116-120`) copies only the outer `resources` object. It writes the replacement into the subject's inner array, which is shared with the previous record.
- Timer scheduling: `setInterval`, `clearInterval` and `Date.now` are events and parameters. React's effect ordering is reduced to the one consequence listed under Findings.
- Timer feedback: the effect at `src/components/kanban/TaskTimer.tsx:73-77` reports every change. Those reports re-render the card with a new `initialTime`. The model keeps the mounted `initialTime` for the life of the timer.
- Timer handler identity: the clean-up at `src/components/kanban/TaskTimer.tsx:60-70` also runs when the `onTimeUpdate` prop changes identity. The cards pass a new handler on every render, so any store update also cancels a running timer's tick source. Only the trigger through `currentTime` is modelled (see Findings).
- Wall-clock dates: `new Date`, date formatting, `getDaysUntilDue` and the overdue and due-soon rings are not modelled. Day counts, day numbers and the day-key function are inputs.
- Ids: `uuidv4` and time-based ids are not generated. The fresh id or the millisecond stamp is a parameter.
- URL parsing: hostname extraction through `new URL` is not modelled. The derived title is an input to `ChangeUrl`.
- Case folding: `toLowerCase` is modelled on ASCII letters only.
- String order: `sort` is modelled as code-unit order on Dafny characters. This differs from UTF-16 order only outside the Basic Multilingual Plane.
- Floating point: percentages, the average session time and chart hours are exact reals, not IEEE doubles. `Math.round` on the displayed progress is not modelled.
- Mock AI delays, toasts and the `isGenerating` flag are not modelled.
- Drag sensors and overlays are not modelled; only the drag-start and drag-end decisions are.
- Presentation: colours, emoji, stars, `Navigation`, `KanbanColumn`, `ResourceCard` and the page shell are not modelled.
- Stored records: a stored task bucket with an unknown status key is not modelled. The stored record has exactly the four bucket fields.
- Integer-like subject keys: JavaScript's `Object.keys` and `Object.values` list keys such as "2024" first, in ascending numeric order, before the other keys in insertion order. `Records` keeps every key in insertion order. So for such subject names, the flattening order in `Storage.SearchScope`, `ResourceLibrary.AllResources` and `ResourceLibrary.FilteredResources` can differ from the source's (`src/lib/storage.ts:103-104`, `src/components/library/ResourceLibrary.tsx:48`).
- `StudyTypes.TimerState` is declared in the source but unused by it, so it is only a datatype here.
- AIBreakdownDialog.TotalEstimatedTime: modelled as written, including the `(total + x) || 0` reset of the sum when an index has no suggestion. The dialog only ever selects valid indices, so this is not listed as a finding.
- FirstTimeSetup.Setup.RemoveSubject: requires the subjects step, where the remove buttons are rendered. So the ready step's "at least one subject" invariant is not stated for removals that the page does not offer.
- QuickTaskCreate.QuickCreate.Pick: requires a shown suggestion. The source renders one button per suggestion, so there is no out-of-range case.

## Findings

| source | as written | input that shows it | evidently intended | confidence | as-written member | corrected member |
|---|---|---|---|---|---|---|
| src/components/kanban/TaskTimer.tsx:60-70 | the effect clean-up (clear the interval, report if changed) is keyed on `currentTime`, so it runs on every tick, not only on unmount | mount with time t, start, then two ticks: the first tick's clean-up cancels the interval and the display stays at t + 1 while the button still shows "running" | clean-up only at unmount, so each tick adds one second | not executed | TaskTimer.AsWrittenStallsAfterOneTick | TaskTimer.StartThenTicks |
