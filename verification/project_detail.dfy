/** The project page (src/pages/ProjectDetail.tsx): the project named by the
    route, its tasks grouped by status either as a board of three columns or as
    a list that skips empty groups, a view switcher, and the task modal. The
    route id is an input. */
module ProjectDetail {
  import opened Wrappers
  import opened Seqs
  import opened MockData
  import TaskModal
  import UserAvatar

  /** The two enterable views; the calendar button is disabled. */
  datatype View = Board | List

  /** One status group: the status it collects and its heading. */
  datatype Column = Column(status: Status, heading: string)

  /** `columns`: the status groups, in display order. */
  const Columns: seq<Column> :=
    [Column(Todo, "To Do"), Column(InProgress, "In Progress"), Column(Done, "Done")]

  /** The page's own state: `view` and `selectedTask`. */
  datatype State = State(view: View, selected: TaskModal.Selection)

  const Init := State(Board, TaskModal.Initial)

  /** The Board, List and Calendar buttons, and the task events of the modal. */
  datatype Event = ShowBoard | ShowList | ShowCalendar | Modal(e: TaskModal.Event)

  function Step(s: State, e: Event): (r: State)
    ensures e.ShowCalendar? ==> r == s
    ensures !e.Modal? ==> r.selected == s.selected
    ensures e.Modal? ==> r.view == s.view
  {
    match e
    case ShowBoard => s.(view := Board)
    case ShowList => s.(view := List)
    case ShowCalendar => s
    case Modal(m) => s.(selected := TaskModal.Step(s.selected, m))
  }

  /** The state after a sequence of events, applied in order. */
  function Run(s: State, es: seq<Event>): (r: State)
    ensures (forall i :: 0 <= i < |es| ==> es[i].ShowCalendar?) ==> r == s
    decreases |es|
  {
    if |es| == 0 then s else Run(Step(s, es[0]), es[1..])
  }

  /** The view the last Board or List click chose, or `v` when there was none. */
  function LastView(v: View, es: seq<Event>): View
    decreases |es|
  {
    if |es| == 0 then v
    else if es[|es| - 1].ShowBoard? then Board
    else if es[|es| - 1].ShowList? then List
    else LastView(v, es[..|es| - 1])
  }

  /** The task events among `es`, in order. */
  function ModalEvents(es: seq<Event>): (r: seq<TaskModal.Event>)
    ensures |r| <= |es|
    decreases |es|
  {
    if |es| == 0 then []
    else (if es[0].Modal? then [es[0].e] else []) + ModalEvents(es[1..])
  }

  /** `projects.find((p) => p.id === id)`: the first project with the id, or
      none. */
  function FindProject(projects: seq<Project>, id: string): (r: Option<Project>)
    ensures r.Some? ==> r.value in projects && r.value.id == id
    ensures r.None? <==> forall i :: 0 <= i < |projects| ==> projects[i].id != id
  {
    if |projects| == 0 then None
    else if projects[0].id == id then Some(projects[0])
    else FindProject(projects[1..], id)
  }

  /** The project found is the first one with the id: every project before
      it has another id. */
  lemma {:induction false} FindProjectFirst(projects: seq<Project>, id: string)
    requires FindProject(projects, id).Some?
    ensures exists i :: && 0 <= i < |projects| && projects[i] == FindProject(projects, id).value
                        && forall j :: 0 <= j < i ==> projects[j].id != id
  {
    if projects[0].id != id {
      FindProjectFirst(projects[1..], id);
      var i :| && 0 <= i < |projects[1..]| && projects[1..][i] == FindProject(projects, id).value
               && forall j :: 0 <= j < i ==> projects[1..][j].id != id;
      assert projects[i + 1] == FindProject(projects, id).value;
    }
  }

  /** A board column: heading, the number shown beside it, its cards, and
      whether the "No tasks" placeholder is drawn. */
  datatype BoardColumn = BoardColumn(status: Status, heading: string, count: nat, cards: seq<Task>, placeholder: bool)

  /** A list group, headed "heading (count)". */
  datatype ListGroup = ListGroup(status: Status, heading: string, count: nat, rows: seq<Task>)

  datatype Body = BoardBody(columns: seq<BoardColumn>) | ListBody(groups: seq<ListGroup>)

  /** A view-switcher button. */
  datatype ViewButton = ViewButton(caption: string, active: bool, disabled: bool)

  datatype Page =
    | NotFound(message: string)
    | Found(project: Project, members: seq<UserAvatar.Avatar>, buttons: seq<ViewButton>,
            body: Body, modalOpen: bool, modalTask: Option<Task>)

  /** One board column: the project's tasks of the column's status as cards,
      their number beside the heading, and the placeholder exactly when there
      are none. */
  function BoardColumnOf(ts: seq<Task>, projectId: string, c: Column): (r: BoardColumn)
    ensures r.status == c.status && r.heading == c.heading
    ensures IsSubseq(r.cards, ts)
    ensures forall k :: 0 <= k < |r.cards| ==> r.cards[k].projectId == projectId && r.cards[k].status == c.status
    ensures r.count == |r.cards| && (r.placeholder <==> r.count == 0)
  {
    var cards := TasksByStatus(ts, projectId, c.status);
    BoardColumn(c.status, c.heading, |cards|, cards, |cards| == 0)
  }

  /** The board: every column, empty or not. */
  function BoardColumns(ts: seq<Task>, projectId: string): (r: seq<BoardColumn>)
    ensures |r| == |Columns|
    ensures forall i :: 0 <= i < |r| ==> r[i].status == Columns[i].status && r[i].heading == Columns[i].heading
  {
    seq(|Columns|, i requires 0 <= i < |Columns| => BoardColumnOf(ts, projectId, Columns[i]))
  }

  /** The list from the `i`-th column on: a column with no task draws nothing. */
  function ListGroupsFrom(ts: seq<Task>, projectId: string, i: nat): (r: seq<ListGroup>)
    requires i <= |Columns|
    ensures |r| <= |Columns| - i
    ensures forall k :: 0 <= k < |r| ==> 0 < r[k].count == |r[k].rows|
    ensures forall k, j :: 0 <= k < |r| && 0 <= j < |r[k].rows| ==>
              r[k].rows[j].projectId == projectId && r[k].rows[j].status == r[k].status
    decreases |Columns| - i
  {
    if i == |Columns| then []
    else
      var rows := TasksByStatus(ts, projectId, Columns[i].status);
      (if |rows| == 0 then [] else [ListGroup(Columns[i].status, Columns[i].heading, |rows|, rows)])
        + ListGroupsFrom(ts, projectId, i + 1)
  }

  /** The list: a group per column that has tasks, headed with its count. */
  function ListGroups(ts: seq<Task>, projectId: string): (r: seq<ListGroup>)
    ensures |r| <= |Columns|
    ensures forall k :: 0 <= k < |r| ==> 0 < r[k].count == |r[k].rows|
  {
    ListGroupsFrom(ts, projectId, 0)
  }

  /** The switcher: Board, List and a disabled Calendar, the current view
      highlighted. */
  function Buttons(v: View): (r: seq<ViewButton>)
    ensures |r| == 3
    ensures r[0].caption == "Board" && r[1].caption == "List" && r[2].caption == "Calendar"
    ensures (r[0].active <==> v == Board) && (r[1].active <==> v == List) && !r[2].active
    ensures !r[0].disabled && !r[1].disabled && r[2].disabled
  {
    [ViewButton("Board", v == Board, false),
     ViewButton("List", v == List, false),
     ViewButton("Calendar", false, true)]
  }

  /** The page for a route id and a state. */
  function Render(projects: seq<Project>, ts: seq<Task>, routeId: string, s: State): (page: Page)
    ensures page.NotFound? <==> FindProject(projects, routeId).None?
    ensures page.NotFound? ==> page.message == "Project not found."
    ensures page.Found? ==> page.project.id == routeId
    ensures page.Found? ==> (page.modalOpen <==> s.selected.Some?) && page.modalTask == s.selected
    ensures page.Found? ==> page.buttons == Buttons(s.view)
    ensures page.Found? && s.view == Board ==> page.body == BoardBody(BoardColumns(ts, routeId))
    ensures page.Found? && s.view == List ==> page.body == ListBody(ListGroups(ts, routeId))
    ensures page.Found? ==> FindProject(projects, routeId) == Some(page.project)
    ensures page.Found? ==> |page.members| == |page.project.members|
    ensures page.Found? ==> forall i :: 0 <= i < |page.members| ==>
      page.members[i] == UserAvatar.Render(page.project.members[i].name, Some(page.project.members[i].avatar),
                                           Some(UserAvatar.Sm))
  {
    match FindProject(projects, routeId)
    case None => NotFound("Project not found.")
    case Some(p) =>
      var members := seq(|p.members|, i requires 0 <= i < |p.members| =>
        UserAvatar.Render(p.members[i].name, Some(p.members[i].avatar), Some(UserAvatar.Sm)));
      var body := if s.view == Board then BoardBody(BoardColumns(ts, p.id)) else ListBody(ListGroups(ts, p.id));
      Found(p, members, Buttons(s.view), body, TaskModal.IsOpen(s.selected), s.selected)
  }

  // ---------------------------------------------------------------------------
  // Properties
  // ---------------------------------------------------------------------------

  /** The columns are To Do, In Progress and Done, in that order: every status
      has exactly one column. */
  lemma ColumnsCoverStatuses()
    ensures |Columns| == 3
    ensures (set c | c in Columns :: c.status) == {Todo, InProgress, Done}
    ensures forall i, j :: 0 <= i < j < |Columns| ==> Columns[i].status != Columns[j].status
    ensures Columns[0].heading == "To Do" && Columns[1].heading == "In Progress" && Columns[2].heading == "Done"
  {
  }

  /** The view is only ever changed by the Board and List buttons: after any
      events it is the one the last of those clicks chose. */
  lemma {:induction false} RunView(s: State, es: seq<Event>)
    ensures Run(s, es).view == LastView(s.view, es)
    decreases |es|
  {
    if |es| > 0 {
      RunView(Step(s, es[0]), es[1..]);
      LastViewOfTail(s.view, es);
    }
  }

  /** Scanning from the back after one step from the front gives the same view. */
  lemma {:induction false} LastViewOfTail(v: View, es: seq<Event>)
    requires |es| > 0
    ensures LastView(Step(State(v, None), es[0]).view, es[1..]) == LastView(v, es)
    decreases |es|
  {
    if |es| > 1 {
      var init := es[..|es| - 1];
      assert es[1..][..|es[1..]| - 1] == init[1..];
      assert init[0] == es[0];
      LastViewOfTail(v, init);
    }
  }

  /** The view buttons never touch the selection: it is the modal's machine run
      on the task events alone. */
  lemma {:induction false} RunSelection(s: State, es: seq<Event>)
    ensures Run(s, es).selected == TaskModal.Run(s.selected, ModalEvents(es))
    decreases |es|
  {
    if |es| > 0 {
      RunSelection(Step(s, es[0]), es[1..]);
      var rest := ModalEvents(es[1..]);
      if es[0].Modal? {
        assert ModalEvents(es) == [es[0].e] + rest;
        assert ([es[0].e] + rest)[1..] == rest;
        assert TaskModal.Run(s.selected, [es[0].e] + rest)
            == TaskModal.Run(TaskModal.Step(s.selected, es[0].e), rest);
      } else {
        assert ModalEvents(es) == rest;
      }
    }
  }

  /** The page opens on the board with the modal shut; from there the view is
      the last Board or List click and the selection the last task event. */
  lemma InitialPage(es: seq<Event>)
    ensures Init.view == Board && !TaskModal.IsOpen(Init.selected)
    ensures Run(Init, es).view == LastView(Board, es)
    ensures Run(Init, es).selected == TaskModal.Run(None, ModalEvents(es))
  {
    RunView(Init, es);
    RunSelection(Init, es);
  }

  /** Exactly one enterable view is highlighted; the calendar button is
      disabled and never highlighted. */
  lemma ButtonsShowView(v: View)
    ensures Buttons(v)[0].active != Buttons(v)[1].active
    ensures Buttons(v)[0].active <==> v == Board
    ensures Buttons(v)[2].disabled && !Buttons(v)[2].active
  {
  }

  /** Each board column shows the project's tasks of its status, counted
      beside the heading, with the placeholder exactly when there are none;
      the column counts add up to the project's task count. */
  lemma BoardPartitionsProject(ts: seq<Task>, projectId: string)
    ensures forall i :: 0 <= i < 3 ==>
      && BoardColumns(ts, projectId)[i].cards == TasksByStatus(ts, projectId, Columns[i].status)
      && BoardColumns(ts, projectId)[i].count == |BoardColumns(ts, projectId)[i].cards|
      && (BoardColumns(ts, projectId)[i].placeholder <==> BoardColumns(ts, projectId)[i].count == 0)
    ensures BoardColumns(ts, projectId)[0].count + BoardColumns(ts, projectId)[1].count
          + BoardColumns(ts, projectId)[2].count == |TasksByProject(ts, projectId)|
  {
    StatusPartition(ts, projectId);
  }

  /** The list view is the board without its empty columns: same statuses in
      the same order, same tasks, same counts. */
  lemma {:induction false} ListIsNonEmptyBoard(ts: seq<Task>, projectId: string, i: nat)
    requires i <= |Columns|
    ensures ListGroupsFrom(ts, projectId, i) == NonEmpty(BoardColumns(ts, projectId)[i..])
    decreases |Columns| - i
  {
    if i < |Columns| {
      ListIsNonEmptyBoard(ts, projectId, i + 1);
      var cols := BoardColumns(ts, projectId);
      assert cols[i..][1..] == cols[i + 1..];
    }
  }

  /** The non-empty board columns, as list groups. */
  function NonEmpty(cols: seq<BoardColumn>): (r: seq<ListGroup>)
    ensures |r| <= |cols|
    ensures forall k :: 0 <= k < |r| ==> r[k].count > 0
  {
    if |cols| == 0 then []
    else
      (if cols[0].count == 0 then [] else [ListGroup(cols[0].status, cols[0].heading, cols[0].count, cols[0].cards)])
        + NonEmpty(cols[1..])
  }

  /** Switching to the list and back to the board restores the same page. */
  lemma BoardListBoard(projects: seq<Project>, ts: seq<Task>, routeId: string, s: State)
    requires s.view == Board
    ensures Run(s, [ShowList, ShowBoard]) == s
    ensures Render(projects, ts, routeId, Run(s, [ShowList, ShowBoard])) == Render(projects, ts, routeId, s)
  {
  }

  /** An unknown id shows "Project not found." whatever the state, and a
      known one shows its project. */
  lemma DatasetRoutes(s: State)
    ensures Render(Projects, Tasks, "proj-404", s) == NotFound("Project not found.")
    ensures Render(Projects, Tasks, "proj-1", s).Found?
  {
  }

  /** On the dataset the board of "proj-1" has task-6 and task-9 in its Done
      column and one task in each of the other two. */
  lemma DatasetBoard()
    ensures BoardColumns(Tasks, "proj-1")[2].cards == [Task6, Task9]
    ensures BoardColumns(Tasks, "proj-1")[0].count == 1 && BoardColumns(Tasks, "proj-1")[1].count == 1
  {
    Proj1DoneScenario();
    Proj1Scenario();
    BoardPartitionsProject(Tasks, "proj-1");
    TasksByStatusExact(Tasks, "proj-1", Todo);
    TasksByStatusExact(Tasks, "proj-1", InProgress);
    assert Task2 in TasksByStatus(Tasks, "proj-1", Todo);
    assert Task1 in TasksByStatus(Tasks, "proj-1", InProgress);
  }
}
