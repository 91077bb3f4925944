/**
 * The dashboard: the greeting chosen by the hour, today's focus checklist
 * (toggling a task done or not done, adding a task through the add-task
 * form), the +5 alignment bonus a completion earns through the shell, and
 * the one-time notification prompt remembered in browser storage.
 */
module Dashboard {
  import opened Wrappers
  import opened Lists
  import App

  datatype Task = Task(id: int, text: string, time: string, tag: string)

  /** The checklist's two starting tasks. */
  const InitialTasks: seq<Task> := [
    Task(1, "Revise Array Manipulation (Two Pointer)", "45m", "Learning"),
    Task(2, "Refine 'About Me' section on Portfolio", "20m", "Project")]

  /** What completing a task adds to the alignment score. */
  const CompletionBonus := 5

  /** The duration the add-task form fills in when left empty. */
  const DefaultTime := "30m"

  const Morning := "Good morning"
  const Afternoon := "Good afternoon"
  const Evening := "Good evening"

  /** The greeting for an hour of the day (0..23). */
  function Greeting(hour: int): (g: string)
    ensures g == Morning <==> hour < 12
    ensures g == Afternoon <==> 12 <= hour < 18
    ensures g == Evening <==> 18 <= hour
  {
    if hour < 12 then Morning
    else if hour < 18 then Afternoon
    else Evening
  }

  /** The greeting moves forward through the day and never back. */
  lemma GreetingOrder(h1: int, h2: int)
    requires h1 <= h2
    ensures Greeting(h1) == Evening ==> Greeting(h2) == Evening
    ensures Greeting(h2) == Morning ==> Greeting(h1) == Morning
  {
  }

  /** A toggle's outcome: the new list of completed ids and the score increase sent to the shell, if any. */
  datatype Toggled = Toggled(completed: seq<int>, bonus: Option<int>)

  /**
   * `handleToggleTask`: a completed id is filtered out; any other id is
   * appended and earns the completion bonus.
   */
  function ToggleTask(completed: seq<int>, id: int): (r: Toggled)
    ensures id in r.completed <==> id !in completed
    ensures id !in completed ==> r.completed == completed + [id] && r.bonus == Some(CompletionBonus)
    ensures id in completed ==> |r.completed| < |completed| && r.bonus == None
    ensures NoDup(completed) ==> NoDup(r.completed)
  {
    if id in completed then Toggled(RemoveAll(completed, id), None)
    else Toggled(completed + [id], Some(CompletionBonus))
  }

  /** A toggle changes the membership of its own id and of no other. */
  lemma ToggleFlipsOnlyId(completed: seq<int>, id: int, x: int)
    requires x != id
    ensures x in ToggleTask(completed, id).completed <==> x in completed
  {
    if id !in completed {
      assert x in completed + [id] <==> x in completed || x == id;
    }
  }

  /** Completing a task and then un-completing it restores the list exactly. */
  lemma ToggleTwiceRestores(completed: seq<int>, id: int)
    requires id !in completed
    ensures ToggleTask(ToggleTask(completed, id).completed, id).completed == completed
  {
    RemoveAllAppend(completed, id, id);
  }

  /** A toggle together with the shell's update of the score. */
  function ToggleScored(completed: seq<int>, u: App.UserData, id: int): (seq<int>, App.UserData) {
    var t := ToggleTask(completed, id);
    (t.completed, if t.bonus.Some? then App.IncreaseAlignment(u, t.bonus.value) else u)
  }

  /** Un-completing never lowers the score and completing never lowers it either. */
  lemma ToggleNeverLowers(completed: seq<int>, u: App.UserData, id: int)
    requires u.alignmentScore <= App.MaxScore
    ensures u.alignmentScore <= ToggleScored(completed, u, id).1.alignmentScore <= App.MaxScore
  {
  }

  /** The completed list and the user record, as a round of toggles sees them. */
  type Progress = (seq<int>, App.UserData)

  /** Completing a task and then un-completing it, with the score updates the shell makes. */
  function Round(state: Progress, id: int): Progress {
    var on := ToggleScored(state.0, state.1, id);
    ToggleScored(on.0, on.1, id)
  }

  /** One round of completing and un-completing restores the list and adds the bonus once. */
  lemma OneCycle(completed: seq<int>, u: App.UserData, id: int)
    requires id !in completed
    ensures Round((completed, u), id) == (completed, App.IncreaseAlignment(u, CompletionBonus))
  {
    ToggleTwiceRestores(completed, id);
  }

  /** `step` applied `n` times. */
  function Iterate<S>(step: S -> S, s: S, n: nat): S {
    if n == 0 then s else step(Iterate(step, s, n - 1))
  }

  /** `n` rounds of completing and un-completing the same task. */
  function Cycles(completed: seq<int>, u: App.UserData, id: int, n: nat): Progress {
    Iterate(state => Round(state, id), (completed, u), n)
  }

  /** The score after `n` bonuses from `score`, capped at 100. */
  function CappedAfter(score: int, n: nat): int {
    if score + CompletionBonus * n < App.MaxScore then score + CompletionBonus * n else App.MaxScore
  }

  /** One more bonus on top of `n` capped bonuses is `n + 1` capped bonuses. */
  lemma CappedStep(score: int, n: nat)
    requires score <= App.MaxScore
    ensures var s := CappedAfter(score, n) + CompletionBonus;
      (if s < App.MaxScore then s else App.MaxScore) == CappedAfter(score, n + 1)
  {
    assert CompletionBonus * (n + 1) == CompletionBonus * n + CompletionBonus;
  }

  /** Repeating a step that keeps the list and adds one bonus adds `n` capped bonuses. */
  lemma {:induction false} IterateBonus(
    step: Progress -> Progress, completed: seq<int>, u: App.UserData, n: nat)
    requires u.alignmentScore <= App.MaxScore
    requires forall v: App.UserData :: step((completed, v)) == (completed, App.IncreaseAlignment(v, CompletionBonus))
    ensures Iterate(step, (completed, u), n) == (completed, u.(alignmentScore := CappedAfter(u.alignmentScore, n)))
  {
    if n > 0 {
      IterateBonus(step, completed, u, n - 1);
      CappedStep(u.alignmentScore, n - 1);
      var v := u.(alignmentScore := CappedAfter(u.alignmentScore, n - 1));
      assert step((completed, v)) == (completed, App.IncreaseAlignment(v, CompletionBonus));
    }
  }

  /**
   * Each round of completing and un-completing a task adds the bonus again:
   * the list comes back as it was, the score rises by 5 per round until it
   * reaches 100, and nothing else in the record changes.
   */
  lemma CyclesAddBonus(completed: seq<int>, u: App.UserData, id: int, n: nat)
    requires id !in completed && u.alignmentScore <= App.MaxScore
    ensures Cycles(completed, u, id, n) == (completed, u.(alignmentScore := CappedAfter(u.alignmentScore, n)))
  {
    forall v: App.UserData ensures Round((completed, v), id) == (completed, App.IncreaseAlignment(v, CompletionBonus)) {
      OneCycle(completed, v, id);
    }
    IterateBonus(state => Round(state, id), completed, u, n);
  }

  /** The add-task form's fields. */
  datatype TaskForm = TaskForm(text: string, time: string, tag: string)

  const EmptyForm := TaskForm("", "", "Learning")

  /** What the form hands to the dashboard. */
  datatype NewTask = NewTask(text: string, time: string, tag: string)

  datatype Submitted = Submitted(added: Option<NewTask>, form: TaskForm)

  /**
   * The form's submit: nothing happens without a task name; otherwise the
   * task goes out with the duration defaulting to "30m", and the name and
   * duration are cleared while the tag stays.
   */
  function Submit(f: TaskForm): (r: Submitted)
    ensures r.added.None? <==> f.text == ""
    ensures f.text == "" ==> r.form == f
    ensures r.added.Some? ==> && r.added.value.text == f.text && r.added.value.tag == f.tag
                              && r.added.value.time == (if f.time == "" then DefaultTime else f.time)
                              && r.form == TaskForm("", "", f.tag)
    ensures r.added.Some? ==> r.added.value.time != ""
  {
    if f.text == "" then Submitted(None, f)
    else Submitted(Some(NewTask(f.text, if f.time == "" then DefaultTime else f.time, f.tag)), f.(text := "", time := ""))
  }

  /** Pressing submit twice adds the task once: the second press finds the name cleared. */
  lemma SubmitTwiceAddsOnce(f: TaskForm)
    ensures Submit(Submit(f).form).added.None?
  {
  }

  /** The dashboard's own `useState` variables. */
  datatype DashState = DashState(
    greeting: string, addTaskOpen: bool, editGoalsOpen: bool, statusOpen: bool,
    notificationOpen: bool, tasks: seq<Task>, completed: seq<int>)

  function InitialDash(): DashState {
    DashState("", false, false, false, false, InitialTasks, [])
  }

  /** `handleAddTask`: the task is appended with the given id and the form closes. */
  function AddTask(s: DashState, t: NewTask, now: int): (r: DashState)
    ensures |r.tasks| == |s.tasks| + 1 && r.tasks[..|s.tasks|] == s.tasks
    ensures r.tasks[|s.tasks|] == Task(now, t.text, t.time, t.tag)
    ensures r == s.(tasks := r.tasks, addTaskOpen := false)
  {
    s.(tasks := s.tasks + [Task(now, t.text, t.time, t.tag)], addTaskOpen := false)
  }

  /** Adding tasks one after another keeps every earlier task in its place. */
  lemma {:induction false} AddTaskKeepsEarlier(s: DashState, t: NewTask, now: int, k: int)
    requires 0 <= k < |s.tasks|
    ensures AddTask(s, t, now).tasks[k] == s.tasks[k]
  {
    assert AddTask(s, t, now).tasks[..|s.tasks|][k] == s.tasks[k];
  }

  /** The mount effect's first half: the greeting for the current hour. */
  function Mounted(s: DashState, hour: int): DashState {
    s.(greeting := Greeting(hour))
  }

  /** The mount effect's timer: the prompt appears only when storage has no answer recorded. */
  function PromptTimer(s: DashState, asked: bool): (r: DashState)
    ensures r.notificationOpen <==> s.notificationOpen || !asked
    ensures r == s.(notificationOpen := r.notificationOpen)
  {
    if !asked then s.(notificationOpen := true) else s
  }

  /** `handleNotificationChoice`: either answer closes the prompt; storage then records that it was asked. */
  function Choose(s: DashState): (r: DashState)
    ensures !r.notificationOpen && r == s.(notificationOpen := false)
  {
    s.(notificationOpen := false)
  }

  /** Once either answer is stored, the prompt never opens again on a later mount. */
  lemma AnsweredStaysClosed(hour: int)
    ensures !PromptTimer(Mounted(InitialDash(), hour), true).notificationOpen
    ensures PromptTimer(Mounted(InitialDash(), hour), false).notificationOpen
  {
  }

  /** The modals the dashboard opens and closes. */
  datatype Modal = AddTaskModal | EditGoalsModal | StatusModal

  function SetModal(s: DashState, m: Modal, open: bool): DashState {
    match m
    case AddTaskModal => s.(addTaskOpen := open)
    case EditGoalsModal => s.(editGoalsOpen := open)
    case StatusModal => s.(statusOpen := open)
  }

  /** The goals modal's save sends a patch that overwrites the role and nothing else. */
  function GoalPatch(role: string): (p: App.Patch)
    ensures forall u :: App.Merge(u, p) == u.(role := role)
  {
    App.NoFields().(role := Some(role))
  }

  /** Toggles keep the completed list free of repetitions. */
  ghost predicate DashInv(s: DashState) {
    NoDup(s.completed)
  }

  /** `localStorage`, as far as the prompt uses it: whether an answer was stored. */
  class Storage {
    var notificationsAsked: bool

    constructor (asked: bool)
      ensures notificationsAsked == asked
    {
      notificationsAsked := asked;
    }
  }

  class DashboardView {
    var greeting: string
    var isAddTaskOpen: bool
    var isEditGoalsOpen: bool
    var isSystemStatusOpen: bool
    var showNotificationModal: bool
    var tasks: seq<Task>
    var completedTasks: seq<int>

    function State(): DashState
      reads this
    {
      DashState(greeting, isAddTaskOpen, isEditGoalsOpen, isSystemStatusOpen,
        showNotificationModal, tasks, completedTasks)
    }

    ghost predicate Valid()
      reads this
    {
      DashInv(State())
    }

    constructor ()
      ensures State() == InitialDash() && Valid()
    {
      greeting := "";
      isAddTaskOpen := false;
      isEditGoalsOpen := false;
      isSystemStatusOpen := false;
      showNotificationModal := false;
      tasks := InitialTasks;
      completedTasks := [];
    }

    /** The mount effect, given the hour the clock reads. */
    method Mount(hour: int)
      modifies this
      ensures State() == Mounted(old(State()), hour)
    {
      if hour < 12 {
        greeting := Morning;
      } else if hour < 18 {
        greeting := Afternoon;
      } else {
        greeting := Evening;
      }
    }

    /** The mount effect's delayed check of storage. */
    method PromptTimerFires(store: Storage)
      modifies this
      ensures State() == PromptTimer(old(State()), store.notificationsAsked)
    {
      if !store.notificationsAsked {
        showNotificationModal := true;
      }
    }

    /** Either button of the prompt. */
    method NotificationChoice(choice: bool, store: Storage)
      modifies this, store
      ensures State() == Choose(old(State()))
      ensures store.notificationsAsked
    {
      showNotificationModal := false;
      store.notificationsAsked := true;
    }

    /** `handleToggleTask`; `bonus` is the amount passed to the shell's score callback, if it is called. */
    method Toggle(id: int) returns (bonus: Option<int>)
      requires Valid()
      modifies this
      ensures Valid()
      ensures Toggled(completedTasks, bonus) == ToggleTask(old(completedTasks), id)
      ensures State() == old(State()).(completed := completedTasks)
    {
      if id in completedTasks {
        completedTasks := RemoveAll(completedTasks, id);
        bonus := None;
      } else {
        completedTasks := completedTasks + [id];
        bonus := Some(CompletionBonus);
      }
    }

    /** `handleAddTask`, with the clock's reading as the new id. */
    method AddTaskFrom(t: NewTask, now: int)
      modifies this
      ensures State() == AddTask(old(State()), t, now)
    {
      tasks := tasks + [Task(now, t.text, t.time, t.tag)];
      isAddTaskOpen := false;
    }

    method SetModalOpen(m: Modal, open: bool)
      modifies this
      ensures State() == SetModal(old(State()), m, open)
    {
      match m {
        case AddTaskModal => isAddTaskOpen := open;
        case EditGoalsModal => isEditGoalsOpen := open;
        case StatusModal => isSystemStatusOpen := open;
      }
    }
  }

  /** The add-task form's own `useState` variables. */
  class AddTaskModalView {
    var text: string
    var time: string
    var tag: string

    function Form(): TaskForm
      reads this
    {
      TaskForm(text, time, tag)
    }

    constructor ()
      ensures Form() == EmptyForm
    {
      text := "";
      time := "";
      tag := "Learning";
    }

    /** `handleSubmit`; `added` is what the form passes to `onAdd`, if anything. */
    method HandleSubmit() returns (added: Option<NewTask>)
      modifies this
      ensures Submitted(added, Form()) == Submit(old(Form()))
    {
      if text == "" {
        added := None;
        return;
      }
      var t := if time == "" then DefaultTime else time;
      added := Some(NewTask(text, t, tag));
      text := "";
      time := "";
    }
  }
}
