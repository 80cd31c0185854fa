# Flowboard core, modelled in Dafny

Flowboard is a small task board written in React. There is no backend. A fixed
in-memory dataset holds four users, three projects and ten tasks, with one
current user. This project models the logic underneath its pages:

- the data types and the dataset, with the three task queries `getTasksByProject`,
  `getTasksByStatus` and `getTodayTasks` and the priority colour table
  (`mock_data.dfy`, module `MockData`);
- the selected-task state both pages keep, which decides whether the task modal
  is open (`task_modal.dfy`, module `TaskModal`);
- the project page: the lookup of the project named by the route ("Project not
  found." otherwise), the board of three status columns, the list that skips
  empty groups, and the Board/List/Calendar switcher (`project_detail.dfy`,
  module `ProjectDetail`);
- the dashboard: the greeting chosen by the hour, the tasks-to-focus-on count,
  the three statistics, and the project cards showing at most three members
  (`dashboard.dfy`, module `Dashboard`);
- the user badge: its initial, colour and size class (`user_avatar.dfy`, module
  `UserAvatar`);
- the sidebar: the collapse flag and which link is highlighted for a path
  (`app_sidebar.dfy`, module `AppSidebar`).

Every query is the generic `Seqs.Filter` applied with a keep predicate.
`seqs.dfy` proves the facts about it that the rest of the model uses:

- the result is a subsequence of the input;
- the multiset and the membership characterisation;
- filtering twice equals filtering by the conjunction;
- a filter and its complement split the input.

A page is modelled as a pure function from its inputs to a datatype that
records what is drawn. The inputs are the dataset, the route id or path, the
hour, and the page's own state. User interaction is a sequence of events folded
over that state. The disabled Calendar button's no-op click is kept as an event
(`ShowCalendar`) that changes nothing.

## Model

| member | source | states |
|---|---|---|
| Seqs.Filter | src/lib/mock-data.ts:177-184 | `Array.prototype.filter` as used by the queries: the result keeps input order (it is a subsequence), is no longer than the input, and every element satisfies the predicate |
| Seqs.FilterMultiset | src/lib/mock-data.ts:177-184 | a filter keeps each kept value exactly as often as it occurs in the input, and drops every other value entirely |
| Seqs.FilterMembers | src/lib/mock-data.ts:177-184 | a value is in the filtered list if and only if it is in the input and satisfies the predicate |
| Seqs.FilterTwice | src/lib/mock-data.ts:177-181 | filtering by one predicate and then another equals filtering once by their conjunction |
| Seqs.FilterSplit | src/pages/Dashboard.tsx:47-48 | a filter and its complement divide the input between them, as multisets and in length |
| MockData.TasksByProject | src/lib/mock-data.ts:177-178 | the tasks of a project, in dataset order, each carrying that project id |
| MockData.TasksByStatus | src/lib/mock-data.ts:180-181 | the tasks with both the given project id and the given status, in dataset order |
| MockData.TodayTasks | src/lib/mock-data.ts:183-184 | the tasks assigned to the current user and not done, in dataset order |
| MockData.TasksByProjectExact | src/lib/mock-data.ts:177-178 | no task of the project is lost or duplicated, and no task of another project gets in |
| MockData.TasksByStatusExact | src/lib/mock-data.ts:180-181 | exactly the tasks with the given project and status, each as often as in the dataset |
| MockData.TodayTasksExact | src/lib/mock-data.ts:183-184 | exactly the not-done tasks assigned to the user; the optional chaining makes an unassigned task never match |
| MockData.UnknownProjectIsEmpty | src/lib/mock-data.ts:177-178 | an id that no task carries gives the empty list, not an error |
| MockData.StatusRefinesProject | src/lib/mock-data.ts:177-181 | a status list is the project's list filtered by status, so it is a subsequence of the project's list |
| MockData.StatusPartition | src/lib/mock-data.ts:180-181 | the three status lists of a project are pairwise disjoint and together make up exactly the project's list; their lengths add up |
| MockData.TodayIgnoresDueDate | src/lib/mock-data.ts:183-184 | changing every task's due date leaves the number of tasks to focus on unchanged |
| MockData.PriorityColor | src/lib/mock-data.ts:186-191 | the style table of the four priorities; `MockData.PriorityColorsDistinct` shows no two share a style |
| MockData.PriorityColorsDistinct | src/lib/mock-data.ts:186-191 | the four priorities have four different styles |
| MockData.Proj1Scenario | src/lib/mock-data.ts:72-178 | on the dataset, project "proj-1" has four tasks |
| MockData.Proj1DoneScenario | src/lib/mock-data.ts:72-181 | on the dataset, the done tasks of "proj-1" are task-6 then task-9 |
| MockData.UnknownProjectScenario | src/lib/mock-data.ts:72-178 | on the dataset, an unknown project id has no tasks |
| MockData.TodayScenario | src/lib/mock-data.ts:72-184 | on the dataset, the current user's list is task-1 then task-3; task-6 is excluded because it is done |
| MockData.TaskCountIsNotDerived | src/lib/mock-data.ts:45-53 | the stored `taskCount` of "proj-1" (12) differs from the number of its tasks in the dataset (4) |
| TaskModal.IsOpen | src/pages/ProjectDetail.tsx:108 | `open={!!selectedTask}`: the modal is open exactly while a task is selected |
| TaskModal.Run | src/pages/ProjectDetail.tsx:20 | the selection after a sequence of clicks and closes; the modal only ever shows the task it started with or a task that was opened |
| TaskModal.Step | src/pages/ProjectDetail.tsx:76 | after opening a task the modal is open on that task; after closing it is shut |
| TaskModal.RunKeepsLastEvent | src/pages/Dashboard.tsx:62 | after any sequence of card clicks and closes, only the last event matters: it decides whether the modal is open and which task it shows |
| TaskModal.OpenThenClose | src/pages/Dashboard.tsx:97 | opening a task and then closing leaves the modal shut with no task selected |
| TaskModal.OpenReplaces | src/pages/ProjectDetail.tsx:100 | opening a second task while one is shown replaces it |
| ProjectDetail.FindProject | src/pages/ProjectDetail.tsx:19 | a project with the route id, and none exactly when no project has that id |
| ProjectDetail.FindProjectFirst | src/pages/ProjectDetail.tsx:19 | the project found is the first with the id: every project before it has another id |
| ProjectDetail.Render | src/pages/ProjectDetail.tsx:19-108 | the not-found page exactly when no project has the id; otherwise the page of the first project with that id, with one small badge per member in member order, the switcher for the current view, the board in Board view and the list in List view, and the modal open exactly while a task is selected |
| ProjectDetail.Run | src/pages/ProjectDetail.tsx:20-21 | the state after a sequence of events; clicks on the disabled Calendar button alone leave it unchanged |
| ProjectDetail.InitialPage | src/pages/ProjectDetail.tsx:20-21 | the page opens on the board with the modal shut; after events the view is the last Board or List click and the selection follows the task events |
| ProjectDetail.Step | src/pages/ProjectDetail.tsx:56-58 | the view buttons leave the selection alone; the task events leave the view alone; the disabled Calendar button changes nothing |
| ProjectDetail.ColumnsCoverStatuses | src/pages/ProjectDetail.tsx:11-15 | three columns, To Do, In Progress and Done in that order, one per status |
| ProjectDetail.RunView | src/pages/ProjectDetail.tsx:21 | after any events the view is the one chosen by the last Board or List click, or the initial view when there was none |
| ProjectDetail.RunSelection | src/pages/ProjectDetail.tsx:20 | after any events the selection is what the modal's state machine gives on the task events alone |
| ProjectDetail.Buttons | src/pages/ProjectDetail.tsx:56-58 | Board, List and Calendar in that order; Board is highlighted exactly in Board view, List exactly in List view; Calendar is disabled and never highlighted |
| ProjectDetail.ButtonsShowView | src/pages/ProjectDetail.tsx:56-58 | exactly one of Board and List is highlighted, the current view's; Calendar is disabled and never highlighted |
| ProjectDetail.BoardColumnOf | src/pages/ProjectDetail.tsx:65-80 | a column keeps its status and heading; its cards are tasks of the project with that status, in dataset order; the count is the number of cards; the "No tasks" placeholder shows exactly when the count is zero |
| ProjectDetail.BoardColumns | src/pages/ProjectDetail.tsx:62-86 | one column per status, in the order and with the headings of the column table |
| ProjectDetail.ListGroupsFrom | src/pages/ProjectDetail.tsx:91-104 | at most one group per remaining column; every group has at least one row and shows its row count; every row is a task of the project with the group's status |
| ProjectDetail.ListGroups | src/pages/ProjectDetail.tsx:89-106 | at most three groups, none empty, each headed with its number of rows |
| ProjectDetail.BoardPartitionsProject | src/pages/ProjectDetail.tsx:62-86 | each column shows its status's tasks with their count, and the "No tasks" placeholder exactly when the column is empty; the counts add up to the project's task total |
| ProjectDetail.ListIsNonEmptyBoard | src/pages/ProjectDetail.tsx:89-106 | the list view is the board with its empty columns dropped: same groups in the same order, same tasks, same counts |
| ProjectDetail.NonEmpty | src/pages/ProjectDetail.tsx:93 | the groups kept have at least one task |
| ProjectDetail.BoardListBoard | src/pages/ProjectDetail.tsx:56-57 | switching to List and back to Board restores the same state and the same page |
| ProjectDetail.DatasetRoutes | src/pages/ProjectDetail.tsx:19-25 | on the dataset, "proj-404" gives "Project not found." whatever the state, and "proj-1" gives its page |
| ProjectDetail.DatasetBoard | src/pages/ProjectDetail.tsx:62-86 | on the dataset, the "proj-1" board has task-6 and task-9 under Done and one task in each other column |
| Dashboard.Greeting | src/pages/Dashboard.tsx:25 | one of the three greetings, for every hour |
| Dashboard.GreetingBands | src/pages/Dashboard.tsx:24-25 | the greeting starts the day as "Good morning" and changes exactly twice, at 12 and at 18 |
| Dashboard.DueToday | src/pages/Dashboard.tsx:47 | every task whose due date is the fixed date "2026-02-18", as often as it occurs, in order, and no other; a task with no due date never counts |
| Dashboard.InProgressOf | src/pages/Dashboard.tsx:48 | every in-progress task among the user's tasks, as often as it occurs, in order, and no other |
| Dashboard.Stats | src/pages/Dashboard.tsx:47-49 | three cards, "Tasks due today", "In progress" and "Active projects"; the first two count the matching tasks and never exceed the number of tasks; the third is the number of projects |
| Dashboard.ShownMembers | src/pages/Dashboard.tsx:86 | the first `min(3, n)` members, in order |
| Dashboard.MemberAvatars | src/pages/Dashboard.tsx:86-88 | one small badge per member, in order, titled with the member's name and showing the member's avatar glyph when it has one |
| Dashboard.Card | src/pages/Dashboard.tsx:74-92 | a card links to `/projects/<id>`, shows the project's name, description and colour, badges for its first `min(3, n)` members and its stored task count |
| Dashboard.Render | src/pages/Dashboard.tsx:21-97 | the greeting for the hour and the user's name; the task rows are exactly the user's not-done tasks, and "You have N tasks" counts them; the statistics are taken from those tasks; one card per project, in order; the modal shows the selected task and is open exactly while one is selected |
| Dashboard.CountersOfPair | src/pages/Dashboard.tsx:47-48 | of one task in progress but not due on the fixed date and one due but not in progress, each counter counts exactly one |
| Dashboard.StatsBounded | src/pages/Dashboard.tsx:35-48 | because the list of tasks to focus on holds no done task, the in-progress counter equals its length minus its to-do tasks |
| Dashboard.CardsFollowProjects | src/pages/Dashboard.tsx:73-93 | one card per project, in order, linking to `/projects/<id>`, repeating the stored task count and showing the first three members' names |
| Dashboard.DatasetDashboard | src/pages/Dashboard.tsx:22-49 | on the dataset: 2 tasks to focus on, 1 due today, 1 in progress, 3 projects |
| Dashboard.DatasetCards | src/pages/Dashboard.tsx:86-90 | on the dataset, the "proj-1" card says 12 tasks and the "proj-3" card shows 3 of its 4 members |
| UserAvatar.SizeClass | src/components/UserAvatar.tsx:10-14 | the class string of each of the three sizes; `UserAvatar.DefaultSizeIsMedium` shows the three are distinct |
| UserAvatar.ToUpper | src/components/UserAvatar.tsx:24 | each lower-case ASCII letter becomes its own upper-case letter; every other character is kept |
| UserAvatar.ToUpperCases | src/components/UserAvatar.tsx:24 | upper-casing is idempotent; its result is an upper-case letter exactly for ASCII letters; two characters upper-case alike exactly when they are the same letter in either case |
| UserAvatar.Initial | src/components/UserAvatar.tsx:24 | a non-empty avatar glyph wins; otherwise the upper-cased first character of the name; the empty string for an empty name |
| UserAvatar.Color | src/components/UserAvatar.tsx:16-25 | a mapped colour for the four mapped initials, and the muted default exactly for every other initial |
| UserAvatar.Render | src/components/UserAvatar.tsx:23-37 | the badge shows the initial with the name as its tooltip, coloured by the initial; an omitted size means "md" |
| UserAvatar.DefaultSizeIsMedium | src/components/UserAvatar.tsx:10-23 | omitting the size is the same as "md"; the three sizes have distinct classes |
| UserAvatar.FallbackInitialLength | src/components/UserAvatar.tsx:24 | without a glyph the badge shows at most one character, and exactly one when the name is not empty |
| UserAvatar.FallbackColorIgnoresCase | src/components/UserAvatar.tsx:24-25 | a name starting with a lower-case letter shows the same upper-case initial, with the same colour, as the name starting with that letter in upper case |
| UserAvatar.MappedColorsDistinct | src/components/UserAvatar.tsx:16-21 | the four mapped initials have four distinct colours, none of them the default |
| UserAvatar.GlyphWins | src/components/UserAvatar.tsx:24-25 | a glyph is shown as is, whatever the name; its colour is mapped only when the glyph is a mapped initial |
| AppSidebar.Toggle | src/components/AppSidebar.tsx:43 | the chevron always flips the collapse flag |
| AppSidebar.Pressed | src/components/AppSidebar.tsx:43 | the collapse flag after `n` presses of the chevron; `AppSidebar.PressedParity` shows it depends only on whether `n` is odd |
| AppSidebar.PressedParity | src/components/AppSidebar.tsx:43 | after n presses the flag has changed exactly when n is odd, so two presses restore it |
| AppSidebar.ProjectPath | src/components/AppSidebar.tsx:22 | a project's path is "/projects/" followed by exactly its id |
| AppSidebar.ProjectPathInjective | src/components/AppSidebar.tsx:22 | two project paths are equal if and only if the ids are |
| AppSidebar.ProjectLinks | src/components/AppSidebar.tsx:64-73 | one link per project, in order, to its path, named after it, highlighted exactly when the path is its path |
| AppSidebar.Render | src/components/AppSidebar.tsx:19-80 | width "w-14" when collapsed and "w-60" otherwise; brand and Projects header only when expanded; the chevron rotated exactly when collapsed; Inbox, Settings and Profile link to "/dashboard" under their captions, Inbox highlighted exactly on "/dashboard", Settings and Profile never; the project links are one per project, as `AppSidebar.ProjectLinks` states |
| AppSidebar.InitialSidebar | src/components/AppSidebar.tsx:19-45 | the sidebar opens expanded, at width "w-60" with the brand shown, and after `n` presses it is collapsed exactly when `n` is odd |
| AppSidebar.CollapseHidesLabels | src/components/AppSidebar.tsx:109 | collapsing hides every link caption and the brand; expanding shows them |
| AppSidebar.ActiveProjectLinkNamesProject | src/components/AppSidebar.tsx:22 | a highlighted project link belongs to the project whose id follows "/projects/" in the path |
| AppSidebar.AtMostOneProjectActive | src/components/AppSidebar.tsx:21-22 | with distinct project ids at most one project link is highlighted, and never together with Inbox |
| AppSidebar.DatasetSidebarScenario | src/components/AppSidebar.tsx:64-73 | on the dataset, path "/projects/proj-2" highlights only the second project link |

## Left out

- The landing page, the layout, and the task card, priority badge and task
  modal components. They draw what they are given and pass clicks back. The
  modal's open/close logic is modelled as `TaskModal`.
- The theme toggle, which keeps its own dark-mode flag and writes the "dark"
  class on the document root. It is browser side effects outside the task board.
- The top bar's "Log out" item, which navigates to "/". It is a browser side
  effect outside the task board.
- Animation and class-name merging (`motion`, `cn`), icons, and styling beyond the
  class strings the logic selects.
- React and router machinery. `useState` is an explicit state with events,
  `useParams` is the route id argument, and `useLocation` is the path argument.
- The clock. `new Date().getHours()` is the `hour` argument of
  `Dashboard.Greeting`, and that function is total over all integers.
- The "Add task" and "+" buttons, which have no handler.
- Number-to-text formatting (`.toString()`, "Label (count)"). Counts are kept as
  numbers beside their captions.
- The route id is always a string here. The router never supplies `undefined`
  for a matched `:id` segment.
- UserAvatar.ToUpper: upper-cases ASCII letters only. JavaScript's
  `toUpperCase` also maps other Unicode letters, and can turn one character into
  several (for example "ß" into "SS").
- UserAvatar.Initial: takes the whole first character of the name.
  `charAt(0)` returns one UTF-16 code unit, so for a name starting with a
  character outside the Basic Multilingual Plane (an emoji, say) JavaScript
  shows a lone surrogate, while the model shows the whole character. Strings
  here are sequences of Unicode characters, not of UTF-16 code units.
- UserAvatar.Color: only the four own keys of `colorMap` are modelled. A lookup
  of an inherited property name, such as "constructor", is left out.
- MockData.TodayIgnoresDueDate: it states that the count is unchanged. The
  stronger membership statement follows from `MockData.TodayTasksExact`,
  because `IsTodayTask` does not read the due date.
- Task comments and descriptions are carried as data, but no operation reads
  them.
