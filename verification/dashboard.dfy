/** The dashboard page (src/pages/Dashboard.tsx): a greeting chosen by the
    hour, the current user's task list with three counters, one card per
    project, and the task modal. The clock is an input: `hour` stands for
    `new Date().getHours()`. */
module Dashboard {
  import opened Wrappers
  import opened Seqs
  import opened MockData
  import TaskModal
  import UserAvatar

  /** The greeting banner: morning before noon, afternoon until six, evening after. */
  function Greeting(hour: int): (g: string)
    ensures g in {"Good morning", "Good afternoon", "Good evening"}
  {
    if hour < 12 then "Good morning"
    else if hour < 18 then "Good afternoon"
    else "Good evening"
  }

  /** The "due today" counter compares against this fixed date, not the clock. */
  const DueTodayDate := "2026-02-18"

  /** A statistic card: its caption and its number. */
  datatype Stat = Stat(caption: string, value: nat)

  /** A project card: link, name, description, colour, up to three member
      badges and the stored task count. */
  datatype ProjectCard = ProjectCard(
    link: string,
    name: string,
    description: string,
    color: string,
    avatars: seq<UserAvatar.Avatar>,
    taskCount: nat)

  datatype Page = Page(
    greeting: string,
    userName: string,
    focusCount: nat,
    stats: seq<Stat>,
    myTasks: seq<Task>,
    cards: seq<ProjectCard>,
    modalOpen: bool,
    modalTask: Option<Task>)

  /** `todayTasks.filter((t) => t.dueDate === "2026-02-18")`: every task due
      on that date, as often as it occurs; a task without a due date never
      matches. */
  function DueToday(today: seq<Task>): (r: seq<Task>)
    ensures IsSubseq(r, today)
    ensures forall t :: multiset(r)[t] == if t.dueDate == Some(DueTodayDate) then multiset(today)[t] else 0
  {
    FilterMultiset(today, (t: Task) => t.dueDate == Some(DueTodayDate));
    Filter(today, (t: Task) => t.dueDate == Some(DueTodayDate))
  }

  /** `todayTasks.filter((t) => t.status === "in_progress")`: every task in
      progress, as often as it occurs. */
  function InProgressOf(today: seq<Task>): (r: seq<Task>)
    ensures IsSubseq(r, today)
    ensures forall t :: multiset(r)[t] == if t.status == InProgress then multiset(today)[t] else 0
  {
    FilterMultiset(today, (t: Task) => t.status == InProgress);
    Filter(today, (t: Task) => t.status == InProgress)
  }

  /** The three statistic cards, in page order: the due-today and in-progress
      counters, which never exceed the number of tasks, and the project count. */
  function Stats(today: seq<Task>, projects: seq<Project>): (r: seq<Stat>)
    ensures |r| == 3
    ensures r[0].caption == "Tasks due today" && r[0].value == |DueToday(today)| <= |today|
    ensures r[1].caption == "In progress" && r[1].value == |InProgressOf(today)| <= |today|
    ensures r[2].caption == "Active projects" && r[2].value == |projects|
  {
    [Stat("Tasks due today", |DueToday(today)|),
     Stat("In progress", |InProgressOf(today)|),
     Stat("Active projects", |projects|)]
  }

  /** `project.members.slice(0, 3)`: the first three members, in order. */
  function ShownMembers(members: seq<User>): (r: seq<User>)
    ensures |r| == if |members| < 3 then |members| else 3
    ensures forall i :: 0 <= i < |r| ==> r[i] == members[i]
  {
    Take(members, 3)
  }

  /** One small badge per member, in order, titled with the member's name
      and showing the member's avatar glyph. */
  function MemberAvatars(members: seq<User>): (r: seq<UserAvatar.Avatar>)
    ensures |r| == |members|
    ensures forall i :: 0 <= i < |r| ==>
      && r[i].title == members[i].name
      && (members[i].avatar != "" ==> r[i].text == members[i].avatar)
      && r[i].sizeClass == UserAvatar.SizeClass(UserAvatar.Sm)
  {
    seq(|members|, i requires 0 <= i < |members| =>
      UserAvatar.Render(members[i].name, Some(members[i].avatar), Some(UserAvatar.Sm)))
  }

  /** The card of one project: a link to its page, its name, description and
      colour, badges for its first three members, and the stored task count. */
  function Card(p: Project): (c: ProjectCard)
    ensures c.link == "/projects/" + p.id
    ensures c.name == p.name && c.description == p.description && c.color == p.color
    ensures c.taskCount == p.taskCount
    ensures |c.avatars| == if |p.members| < 3 then |p.members| else 3
    ensures forall k :: 0 <= k < |c.avatars| ==> c.avatars[k].title == p.members[k].name
  {
    ProjectCard("/projects/" + p.id, p.name, p.description, p.color,
                MemberAvatars(ShownMembers(p.members)), p.taskCount)
  }

  /** The whole page for a task list, a project list, the current user, the
      hour and the selected task. */
  function Render(ts: seq<Task>, projects: seq<Project>, me: User, hour: int,
                  selected: TaskModal.Selection): (page: Page)
    ensures page.greeting == Greeting(hour) && page.userName == me.name
    ensures page.myTasks == TodayTasks(ts, me) && page.focusCount == |TodayTasks(ts, me)|
    ensures page.stats == Stats(TodayTasks(ts, me), projects)
    ensures |page.cards| == |projects|
    ensures forall i :: 0 <= i < |projects| ==> page.cards[i] == Card(projects[i])
    ensures page.modalTask == selected && (page.modalOpen <==> selected.Some?)
  {
    var today := TodayTasks(ts, me);
    Page(Greeting(hour), me.name, |today|, Stats(today, projects), today,
         seq(|projects|, i requires 0 <= i < |projects| => Card(projects[i])),
         TaskModal.IsOpen(selected), selected)
  }

  // ---------------------------------------------------------------------------
  // Properties
  // ---------------------------------------------------------------------------

  /** The greeting starts the day as "Good morning" and changes exactly twice,
      at 12 and at 18. */
  lemma GreetingBands()
    ensures Greeting(0) == "Good morning"
    ensures forall h :: 0 <= h < 23 ==> (Greeting(h) != Greeting(h + 1) <==> h == 11 || h == 17)
    ensures Greeting(12) == "Good afternoon" && Greeting(18) == "Good evening"
  {
  }

  /** Since the list of tasks to focus on holds no done task, the
      in-progress counter is its length minus its to-do tasks. */
  lemma StatsBounded(ts: seq<Task>, me: User)
    ensures |InProgressOf(TodayTasks(ts, me))|
         == |TodayTasks(ts, me)| - |Filter(TodayTasks(ts, me), (t: Task) => t.status == Todo)|
  {
    var today := TodayTasks(ts, me);
    var doing := (t: Task) => t.status == InProgress;
    var todo := (t: Task) => t.status == Todo;
    var notDoing := (t: Task) => !doing(t);
    FilterSplit(today, doing, notDoing);
    FilterAgree(today, notDoing, todo);
  }

  /** One card per project, in order; each shows the first `min(3, |members|)`
      members, links to the project's page, and repeats the stored task count. */
  lemma CardsFollowProjects(ts: seq<Task>, projects: seq<Project>, me: User, hour: int, selected: TaskModal.Selection)
    ensures |Render(ts, projects, me, hour, selected).cards| == |projects|
    ensures forall i :: 0 <= i < |projects| ==>
      var card := Render(ts, projects, me, hour, selected).cards[i];
      && card.link == "/projects/" + projects[i].id
      && card.taskCount == projects[i].taskCount
      && |card.avatars| == (if |projects[i].members| < 3 then |projects[i].members| else 3)
      && forall k :: 0 <= k < |card.avatars| ==>
           card.avatars[k].title == projects[i].members[k].name
  {
  }

  /** Of a task in progress but not due on the fixed date, and a task due on
      it but not in progress, each counter counts one. */
  lemma CountersOfPair(a: Task, b: Task)
    requires a.dueDate != Some(DueTodayDate) && a.status == InProgress
    requires b.dueDate == Some(DueTodayDate) && b.status != InProgress
    ensures |DueToday([a, b])| == 1 && |InProgressOf([a, b])| == 1
  {
    FilterCons(b, [], (t: Task) => t.dueDate == Some(DueTodayDate));
    FilterCons(a, [b], (t: Task) => t.dueDate == Some(DueTodayDate));
    FilterCons(b, [], (t: Task) => t.status == InProgress);
    FilterCons(a, [b], (t: Task) => t.status == InProgress);
  }

  /** On the dataset: two tasks to focus on (task-1 and task-3), one due on
      the fixed date, one in progress, three projects. */
  lemma DatasetDashboard()
    ensures |TodayTasks(Tasks, CurrentUser)| == 2
    ensures var stats := Stats(TodayTasks(Tasks, CurrentUser), Projects);
      stats[0].value == 1 && stats[1].value == 1 && stats[2].value == 3
  {
    TodayScenario();
    CountersOfPair(Task1, Task3);
  }

  /** On the dataset the "proj-1" card claims 12 tasks and the "proj-3" card
      shows three of its four members. */
  lemma DatasetCards()
    ensures Card(Projects[0]).taskCount == 12
    ensures |Projects[2].members| == 4 && |Card(Projects[2]).avatars| == 3
  {
  }
}
