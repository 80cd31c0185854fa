/** The domain model, the fixed in-memory dataset, and the three task queries
    (src/lib/mock-data.ts). Every query is `tasks.filter(...)`, so each is
    stated here over an arbitrary task sequence and also applied to the
    literal dataset `Tasks`. */
module MockData {
  import opened Wrappers
  import opened Seqs

  /** The closed status enumeration: "todo" | "in_progress" | "done". */
  datatype Status = Todo | InProgress | Done

  /** The closed priority enumeration: "low" | "medium" | "high" | "urgent". */
  datatype Priority = Low | Medium | High | Urgent

  datatype User = User(id: string, name: string, email: string, avatar: string)

  datatype Comment = Comment(id: string, content: string, author: User, createdAt: string)

  /** Optional fields of the source record (`description?`, `assignee?`,
      `dueDate?`, `comments?`) are `Option`s; `projectId` is a foreign key
      that is never checked against the project list. */
  datatype Task = Task(
    id: string,
    title: string,
    description: Option<string>,
    status: Status,
    priority: Priority,
    assignee: Option<User>,
    dueDate: Option<string>,
    projectId: string,
    comments: Option<seq<Comment>>)

  /** `taskCount` is a stored number, not derived from the tasks. */
  datatype Project = Project(
    id: string,
    name: string,
    description: string,
    color: string,
    members: seq<User>,
    taskCount: nat)

  // ---------------------------------------------------------------------------
  // The dataset
  // ---------------------------------------------------------------------------

  const Fisnik := User("1", "Fisnik", "fisnik@demo.com", "F")
  const AlexChen := User("2", "Alex Chen", "alex@demo.com", "A")
  const SofiaRivera := User("3", "Sofia Rivera", "sofia@demo.com", "S")
  const MarcusWebb := User("4", "Marcus Webb", "marcus@demo.com", "M")

  const Users: seq<User> := [Fisnik, AlexChen, SofiaRivera, MarcusWebb]

  /** The fixed identity treated as "me": the first user. */
  const CurrentUser: User := Users[0]

  const Proj1 := Project(
    "proj-1", "Website Redesign",
    "Complete overhaul of the marketing site with new brand guidelines",
    "hsl(239 84% 67%)", [Fisnik, AlexChen, SofiaRivera], 12)
  const Proj2 := Project(
    "proj-2", "Q2 Marketing Campaign",
    "Launch multi-channel campaign for Q2 product release",
    "hsl(142 71% 45%)", [Fisnik, MarcusWebb], 8)
  const Proj3 := Project(
    "proj-3", "Mobile App v1",
    "First version of the mobile companion app",
    "hsl(38 92% 50%)", [Fisnik, AlexChen, SofiaRivera, MarcusWebb], 24)

  const Projects: seq<Project> := [Proj1, Proj2, Proj3]

  const Task1 := Task(
    "task-1", "Design hero section",
    Some("Create a compelling hero section with clear value proposition and CTA"),
    InProgress, High, Some(Fisnik), Some("2026-02-19"), "proj-1",
    Some([
      Comment("c1", "I've shared some initial wireframes in Figma. Let me know your thoughts!",
              AlexChen, "2026-02-17T10:30:00Z"),
      Comment("c2", "Looks great! I'd suggest making the CTA more prominent.",
              Fisnik, "2026-02-17T11:15:00Z")]))
  const Task2 := Task(
    "task-2", "Write copy for landing page",
    Some("Draft compelling copy for all landing page sections"),
    Todo, Medium, Some(SofiaRivera), Some("2026-02-20"), "proj-1", None)
  const Task3 := Task(
    "task-3", "Review pull request #42",
    Some("Review and approve the authentication flow PR"),
    Todo, Urgent, Some(Fisnik), Some("2026-02-18"), "proj-3", None)
  const Task4 := Task(
    "task-4", "Set up email templates",
    Some("Design and implement transactional email templates"),
    Todo, Low, Some(MarcusWebb), Some("2026-02-22"), "proj-2", None)
  const Task5 := Task(
    "task-5", "Implement user onboarding flow",
    Some("Build the step-by-step onboarding experience for new users"),
    InProgress, High, Some(AlexChen), Some("2026-02-21"), "proj-3", None)
  const Task6 := Task(
    "task-6", "Fix navigation responsiveness",
    Some("Ensure navigation works perfectly on all screen sizes"),
    Done, Medium, Some(Fisnik), None, "proj-1", None)
  const Task7 := Task(
    "task-7", "Create social media assets",
    Some("Design banner images and post templates for Q2 campaign"),
    Todo, Medium, Some(SofiaRivera), Some("2026-02-25"), "proj-2", None)
  const Task8 := Task(
    "task-8", "API integration testing",
    Some("Write and run integration tests for all API endpoints"),
    InProgress, High, Some(MarcusWebb), Some("2026-02-19"), "proj-3", None)
  const Task9 := Task(
    "task-9", "Update brand color palette",
    Some("Refresh the color palette based on new brand guidelines"),
    Done, Low, Some(SofiaRivera), None, "proj-1", None)
  const Task10 := Task(
    "task-10", "Performance optimization",
    Some("Optimize bundle size and loading performance"),
    Todo, High, Some(AlexChen), Some("2026-02-23"), "proj-3", None)

  const Tasks: seq<Task> := [Task1, Task2, Task3, Task4, Task5, Task6, Task7, Task8, Task9, Task10]

  // ---------------------------------------------------------------------------
  // Queries
  // ---------------------------------------------------------------------------

  /** `getTasksByProject`: the tasks of one project, in dataset order. */
  function TasksByProject(ts: seq<Task>, projectId: string): (r: seq<Task>)
    ensures IsSubseq(r, ts)
    ensures forall i :: 0 <= i < |r| ==> r[i].projectId == projectId
  {
    Filter(ts, (t: Task) => t.projectId == projectId)
  }

  /** `getTasksByStatus`: the tasks of one project that have one status. */
  function TasksByStatus(ts: seq<Task>, projectId: string, status: Status): (r: seq<Task>)
    ensures IsSubseq(r, ts)
    ensures forall i :: 0 <= i < |r| ==> r[i].projectId == projectId && r[i].status == status
  {
    Filter(ts, (t: Task) => t.projectId == projectId && t.status == status)
  }

  /** The condition of `getTodayTasks`: `t.assignee?.id === currentUser.id`
      (false when there is no assignee) and the task is not done. The due
      date plays no part. */
  predicate IsTodayTask(t: Task, me: User)
  {
    t.assignee.Some? && t.assignee.value.id == me.id && t.status != Done
  }

  /** `getTodayTasks`, for an arbitrary current user `me`. */
  function TodayTasks(ts: seq<Task>, me: User): (r: seq<Task>)
    ensures IsSubseq(r, ts)
    ensures forall i :: 0 <= i < |r| ==>
      r[i].status != Done && r[i].assignee.Some? && r[i].assignee.value.id == me.id
  {
    Filter(ts, (t: Task) => IsTodayTask(t, me))
  }

  /** `priorityColors`: the style of each priority. */
  function PriorityColor(p: Priority): string
  {
    match p
    case Low => "text-muted-foreground bg-muted"
    case Medium => "text-warning-foreground bg-warning"
    case High => "text-primary-foreground bg-primary"
    case Urgent => "text-destructive-foreground bg-destructive"
  }

  // ---------------------------------------------------------------------------
  // Properties of the queries
  // ---------------------------------------------------------------------------

  /** The project list holds every task of the project, as often as it occurs,
      and nothing else. */
  lemma TasksByProjectExact(ts: seq<Task>, projectId: string)
    ensures forall t :: multiset(TasksByProject(ts, projectId))[t]
                 == (if t.projectId == projectId then multiset(ts)[t] else 0)
    ensures forall t :: t in TasksByProject(ts, projectId) <==> t in ts && t.projectId == projectId
  {
    FilterMultiset(ts, (t: Task) => t.projectId == projectId);
    FilterMembers(ts, (t: Task) => t.projectId == projectId);
  }

  /** A status list holds every task with that project and status, and nothing else. */
  lemma TasksByStatusExact(ts: seq<Task>, projectId: string, status: Status)
    ensures forall t :: multiset(TasksByStatus(ts, projectId, status))[t]
                 == (if t.projectId == projectId && t.status == status then multiset(ts)[t] else 0)
    ensures forall t :: t in TasksByStatus(ts, projectId, status)
                 <==> t in ts && t.projectId == projectId && t.status == status
  {
    FilterMultiset(ts, (t: Task) => t.projectId == projectId && t.status == status);
    FilterMembers(ts, (t: Task) => t.projectId == projectId && t.status == status);
  }

  /** The today list holds every not-done task assigned to `me`, and nothing
      else; an unassigned task is never in it. */
  lemma TodayTasksExact(ts: seq<Task>, me: User)
    ensures forall t :: multiset(TodayTasks(ts, me))[t]
                 == (if IsTodayTask(t, me) then multiset(ts)[t] else 0)
    ensures forall t :: t in TodayTasks(ts, me) <==> t in ts && IsTodayTask(t, me)
    ensures forall t :: t in ts && t.assignee.None? ==> t !in TodayTasks(ts, me)
  {
    FilterMultiset(ts, (t: Task) => IsTodayTask(t, me));
    FilterMembers(ts, (t: Task) => IsTodayTask(t, me));
  }

  /** An id that no task carries yields the empty sequence, not an error. */
  lemma UnknownProjectIsEmpty(ts: seq<Task>, projectId: string)
    requires forall i :: 0 <= i < |ts| ==> ts[i].projectId != projectId
    ensures TasksByProject(ts, projectId) == []
  {
    FilterNoneKept(ts, (t: Task) => t.projectId == projectId);
  }

  /** A status column is the project's task list filtered once more by status,
      hence a subsequence of it. */
  lemma StatusRefinesProject(ts: seq<Task>, projectId: string, status: Status)
    ensures TasksByStatus(ts, projectId, status)
         == Filter(TasksByProject(ts, projectId), (t: Task) => t.status == status)
    ensures IsSubseq(TasksByStatus(ts, projectId, status), TasksByProject(ts, projectId))
  {
    FilterTwice(ts, (t: Task) => t.projectId == projectId, (t: Task) => t.status == status,
                (t: Task) => t.projectId == projectId && t.status == status);
  }

  /** The three status columns of a project partition its task list: no task is
      in two of them, none is left out, and their lengths add up. */
  lemma StatusPartition(ts: seq<Task>, projectId: string)
    ensures forall t :: !(t in TasksByStatus(ts, projectId, Todo) && t in TasksByStatus(ts, projectId, InProgress))
    ensures forall t :: !(t in TasksByStatus(ts, projectId, Todo) && t in TasksByStatus(ts, projectId, Done))
    ensures forall t :: !(t in TasksByStatus(ts, projectId, InProgress) && t in TasksByStatus(ts, projectId, Done))
    ensures multiset(TasksByStatus(ts, projectId, Todo))
          + multiset(TasksByStatus(ts, projectId, InProgress))
          + multiset(TasksByStatus(ts, projectId, Done))
         == multiset(TasksByProject(ts, projectId))
    ensures |TasksByStatus(ts, projectId, Todo)|
          + |TasksByStatus(ts, projectId, InProgress)|
          + |TasksByStatus(ts, projectId, Done)|
         == |TasksByProject(ts, projectId)|
  {
    var todo, doing, done := TasksByStatus(ts, projectId, Todo),
      TasksByStatus(ts, projectId, InProgress), TasksByStatus(ts, projectId, Done);
    var all := TasksByProject(ts, projectId);
    TasksByStatusExact(ts, projectId, Todo);
    TasksByStatusExact(ts, projectId, InProgress);
    TasksByStatusExact(ts, projectId, Done);
    TasksByProjectExact(ts, projectId);
    forall t
      ensures (multiset(todo) + multiset(doing) + multiset(done))[t] == multiset(all)[t]
    {
    }
    assert multiset(todo) + multiset(doing) + multiset(done) == multiset(all);
    assert |multiset(todo)| == |todo| && |multiset(doing)| == |doing|;
    assert |multiset(done)| == |done| && |multiset(all)| == |all|;
  }

  /** Membership in the today list does not depend on the due date. */
  lemma TodayIgnoresDueDate(ts: seq<Task>, me: User, dueDates: seq<Option<string>>)
    requires |dueDates| == |ts|
    ensures |TodayTasks(ts, me)|
         == |TodayTasks(seq(|ts|, i requires 0 <= i < |ts| => ts[i].(dueDate := dueDates[i])), me)|
  {
    var moved := seq(|ts|, i requires 0 <= i < |ts| => ts[i].(dueDate := dueDates[i]));
    TodayIgnoresDueDateFrom(ts, moved, me);
  }

  lemma {:induction false} TodayIgnoresDueDateFrom(ts: seq<Task>, moved: seq<Task>, me: User)
    requires |moved| == |ts|
    requires forall i :: 0 <= i < |ts| ==> moved[i] == ts[i].(dueDate := moved[i].dueDate)
    ensures |TodayTasks(ts, me)| == |TodayTasks(moved, me)|
  {
    if |ts| > 0 {
      TodayIgnoresDueDateFrom(ts[1..], moved[1..], me);
      assert IsTodayTask(ts[0], me) == IsTodayTask(moved[0], me);
    }
  }

  /** Each priority has its own style. */
  lemma PriorityColorsDistinct(p: Priority, q: Priority)
    ensures PriorityColor(p) == PriorityColor(q) <==> p == q
  {
  }

  // ---------------------------------------------------------------------------
  // The dataset, computed
  // ---------------------------------------------------------------------------

  /** Ten tasks whose project ids follow the dataset's pattern for "proj-1". */
  lemma Proj1Pattern(s: seq<Task>)
    requires |s| == 10
    requires s[0].projectId == "proj-1"
    requires s[1].projectId == "proj-1"
    requires s[2].projectId != "proj-1"
    requires s[3].projectId != "proj-1"
    requires s[4].projectId != "proj-1"
    requires s[5].projectId == "proj-1"
    requires s[6].projectId != "proj-1"
    requires s[7].projectId != "proj-1"
    requires s[8].projectId == "proj-1"
    requires s[9].projectId != "proj-1"
    ensures TasksByProject(s, "proj-1") == [s[0], s[1], s[5], s[8]]
  {
    FilterOfTen(s, (t: Task) => t.projectId == "proj-1");
  }

  /** The project "proj-1" owns task-1, task-2, task-6 and task-9, in that order. */
  lemma Proj1Scenario()
    ensures TasksByProject(Tasks, "proj-1") == [Task1, Task2, Task6, Task9]
  {
    Proj1Pattern(Tasks);
  }

  /** Ten tasks whose project ids and statuses follow the dataset's pattern for "proj-1" and done. */
  lemma Proj1DonePattern(s: seq<Task>)
    requires |s| == 10
    requires !(s[0].projectId == "proj-1" && s[0].status == Done)
    requires !(s[1].projectId == "proj-1" && s[1].status == Done)
    requires !(s[2].projectId == "proj-1" && s[2].status == Done)
    requires !(s[3].projectId == "proj-1" && s[3].status == Done)
    requires !(s[4].projectId == "proj-1" && s[4].status == Done)
    requires s[5].projectId == "proj-1" && s[5].status == Done
    requires !(s[6].projectId == "proj-1" && s[6].status == Done)
    requires !(s[7].projectId == "proj-1" && s[7].status == Done)
    requires s[8].projectId == "proj-1" && s[8].status == Done
    requires !(s[9].projectId == "proj-1" && s[9].status == Done)
    ensures TasksByStatus(s, "proj-1", Done) == [s[5], s[8]]
  {
    FilterOfTen(s, (t: Task) => t.projectId == "proj-1" && t.status == Done);
  }

  /** Two of the tasks of "proj-1" are done: task-6 and task-9. */
  lemma Proj1DoneScenario()
    ensures TasksByStatus(Tasks, "proj-1", Done) == [Task6, Task9]
  {
    Proj1DonePattern(Tasks);
  }

  /** No task belongs to "proj-404". */
  lemma UnknownProjectScenario()
    ensures TasksByProject(Tasks, "proj-404") == []
  {
    UnknownProjectIsEmpty(Tasks, "proj-404");
  }

  /** Ten tasks whose assignees and statuses follow the dataset's pattern for the current user. */
  lemma TodayPattern(s: seq<Task>)
    requires |s| == 10
    requires IsTodayTask(s[0], CurrentUser)
    requires !IsTodayTask(s[1], CurrentUser)
    requires IsTodayTask(s[2], CurrentUser)
    requires !IsTodayTask(s[3], CurrentUser)
    requires !IsTodayTask(s[4], CurrentUser)
    requires !IsTodayTask(s[5], CurrentUser)
    requires !IsTodayTask(s[6], CurrentUser)
    requires !IsTodayTask(s[7], CurrentUser)
    requires !IsTodayTask(s[8], CurrentUser)
    requires !IsTodayTask(s[9], CurrentUser)
    ensures TodayTasks(s, CurrentUser) == [s[0], s[2]]
  {
    FilterOfTen(s, (t: Task) => IsTodayTask(t, CurrentUser));
  }

  /** The today list of the current user is task-1 then task-3; task-6 is
      assigned to the current user too but is done, and the due dates play no part. */
  lemma TodayScenario()
    ensures TodayTasks(Tasks, CurrentUser) == [Task1, Task3]
  {
    TodayPattern(Tasks);
  }

  /** `taskCount` is stored, not derived: "proj-1" claims 12 tasks but 4 carry its id. */
  lemma TaskCountIsNotDerived()
    ensures Projects[0].id == "proj-1" && Projects[0].taskCount == 12
    ensures |TasksByProject(Tasks, Projects[0].id)| == 4
  {
    Proj1Scenario();
  }
}
