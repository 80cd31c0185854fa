/** The selected-task state that both pages keep (`useState<Task | null>(null)`
    in src/pages/Dashboard.tsx and src/pages/ProjectDetail.tsx). The task
    detail modal is open exactly while a task is selected. */
module TaskModal {
  import opened Wrappers
  import opened MockData

  /** `selectedTask`: `None` is the closed modal, `Some(t)` the modal showing `t`. */
  type Selection = Option<Task>

  /** Both pages start with no task selected. */
  const Initial: Selection := None

  /** Activating a task card (`setSelectedTask(task)`) or the modal's close
      action (`setSelectedTask(null)`). */
  datatype Event = Open(task: Task) | Close

  /** `open={!!selectedTask}`. */
  predicate IsOpen(sel: Selection)
  {
    sel.Some?
  }

  function Step(sel: Selection, e: Event): (r: Selection)
    ensures IsOpen(r) <==> e.Open?
    ensures e.Open? ==> r == Some(e.task)
  {
    match e
    case Open(t) => Some(t)
    case Close => None
  }

  /** The selection after a sequence of events, applied in order. The modal
      only ever shows the task it started with or one that was opened. */
  function Run(sel: Selection, es: seq<Event>): (r: Selection)
    ensures r.Some? ==> r == sel || Open(r.value) in es
    decreases |es|
  {
    if |es| == 0 then sel else Run(Step(sel, es[0]), es[1..])
  }

  /** Only the last event matters: the modal shows the last task opened, or is
      closed when the last event was a close; with no event the selection is
      unchanged. */
  lemma {:induction false} RunKeepsLastEvent(sel: Selection, es: seq<Event>)
    ensures |es| == 0 ==> Run(sel, es) == sel
    ensures |es| > 0 && es[|es| - 1].Open? ==> Run(sel, es) == Some(es[|es| - 1].task)
    ensures |es| > 0 && es[|es| - 1].Close? ==> Run(sel, es) == None
    decreases |es|
  {
    if |es| > 1 {
      RunKeepsLastEvent(Step(sel, es[0]), es[1..]);
      assert es[1..][|es[1..]| - 1] == es[|es| - 1];
    }
  }

  /** Opening a task and then closing the modal leaves no reference to the task. */
  lemma OpenThenClose(sel: Selection, t: Task)
    ensures Run(sel, [Open(t), Close]) == None
    ensures !IsOpen(Run(sel, [Open(t), Close]))
  {
    RunKeepsLastEvent(sel, [Open(t), Close]);
  }

  /** Opening another task while one is shown replaces the selection. */
  lemma OpenReplaces(sel: Selection, t: Task, u: Task)
    ensures Run(sel, [Open(t), Open(u)]) == Some(u)
  {
    RunKeepsLastEvent(sel, [Open(t), Open(u)]);
  }
}
