/** The pipeline state machine: tasks with a status, and the history of transitions of each. */
module PipelineStateMachine {
  import opened Wrappers

  datatype Status = Pending | Updating | Syncing | Success | Failed | Retrying
  datatype EventType = BuildCompleted | DeploymentFailed | YamlUpdated

  function Allowed(from: Status): seq<Status>
  {
    match from
    case Pending => [Updating]
    case Updating => [Syncing, Failed]
    case Syncing => [Success, Failed]
    case Success => []
    case Failed => [Retrying, Updating]
    case Retrying => [Updating]
  }

  function EventOf(status: Status): EventType
  {
    match status
    case Pending => BuildCompleted
    case Updating => YamlUpdated
    case Syncing => YamlUpdated
    case Success => BuildCompleted
    case Failed => DeploymentFailed
    case Retrying => DeploymentFailed
  }

  /** The tables the other way round: where each status can be entered from, and which statuses an event stands for. */
  lemma TablesInverted(from: Status, target: Status)
    ensures target in Allowed(from) <==>
      match target
      case Pending => false
      case Updating => from in {Pending, Failed, Retrying}
      case Syncing => from == Updating
      case Success => from == Syncing
      case Failed => from in {Updating, Syncing}
      case Retrying => from == Failed
    ensures EventOf(from) == DeploymentFailed <==> from in {Failed, Retrying}
    ensures EventOf(from) == YamlUpdated <==> from in {Updating, Syncing}
    ensures EventOf(from) == BuildCompleted <==> from in {Pending, Success}
  {
  }

  datatype Task = Task(buildId: string, status: Status, createdAt: int, updatedAt: int)
  datatype StateTransition = StateTransition(from: Status, target: Status, timestamp: int, reason: Option<string>)
  datatype Answer = Answer(success: bool, newStatus: Status, event: EventType, transition: StateTransition)
  datatype Machine = Machine(tasks: map<string, Task>, transitions: map<string, seq<StateTransition>>)

  function Create(m: Machine, taskId: string, buildId: string, now: int): Machine
  {
    Machine(m.tasks[taskId := Task(buildId, Pending, now, now)], m.transitions[taskId := []])
  }

  predicate Accepts(m: Machine, taskId: string, target: Status)
  {
    taskId in m.tasks && target in Allowed(m.tasks[taskId].status)
  }

  function Move(m: Machine, taskId: string, target: Status, now: int, reason: Option<string>): Machine
    requires m.tasks.Keys == m.transitions.Keys
  {
    if !Accepts(m, taskId, target) then m
    else
      var task := m.tasks[taskId];
      Machine(m.tasks[taskId := task.(status := target, updatedAt := now)],
        m.transitions[taskId := m.transitions[taskId] + [StateTransition(task.status, target, now, reason)]])
  }

  // ---- histories -----------------------------------------------------------------------------------------------

  /** A connected path of allowed transitions from `Pending` to `status`. */
  predicate Path(history: seq<StateTransition>, status: Status)
  {
    if history == [] then status == Pending
    else
      var last := history[|history| - 1];
      last.target == status && status in Allowed(last.from) && Path(history[..|history| - 1], last.from)
  }

  /** Every task has a history, which leads to its status and whose end is the last update. */
  ghost predicate Valid(m: Machine)
  {
    && m.tasks.Keys == m.transitions.Keys
    && forall id :: id in m.tasks ==>
      && Path(m.transitions[id], m.tasks[id].status)
      && m.tasks[id].updatedAt == (if m.transitions[id] == [] then m.tasks[id].createdAt
                                   else m.transitions[id][|m.transitions[id]| - 1].timestamp)
  }

  lemma MoveValid(m: Machine, taskId: string, target: Status, now: int, reason: Option<string>)
    requires Valid(m)
    ensures Valid(Move(m, taskId, target, now, reason))
  {
    if Accepts(m, taskId, target) {
      var h := m.transitions[taskId];
      var step := StateTransition(m.tasks[taskId].status, target, now, reason);
      assert (h + [step])[..|h|] == h;
    }
  }

  datatype Op = CreateTask(taskId: string, buildId: string, now: int)
              | MoveTask(taskId: string, target: Status, now: int, reason: Option<string>)

  function Run(ops: seq<Op>): (m: Machine)
    ensures m.tasks.Keys == m.transitions.Keys
  {
    if ops == [] then Machine(map[], map[]) else Apply(Run(ops[..|ops| - 1]), ops[|ops| - 1])
  }

  function Apply(m: Machine, op: Op): (m': Machine)
    requires m.tasks.Keys == m.transitions.Keys
    ensures m'.tasks.Keys == m'.transitions.Keys
  {
    match op
    case CreateTask(taskId, buildId, now) => Create(m, taskId, buildId, now)
    case MoveTask(taskId, target, now, reason) => Move(m, taskId, target, now, reason)
  }

  /** In every reachable state each history is a path of allowed transitions to the current status. */
  lemma {:induction false} RunValid(ops: seq<Op>)
    ensures Valid(Run(ops))
  {
    if ops == [] {
    } else {
      RunValid(ops[..|ops| - 1]);
      match ops[|ops| - 1]
      case CreateTask(taskId, buildId, now) =>
      case MoveTask(taskId, target, now, reason) => MoveValid(Run(ops[..|ops| - 1]), taskId, target, now, reason);
    }
  }

  function Entries(history: seq<StateTransition>, status: Status): nat
  {
    if history == [] then 0
    else Entries(history[..|history| - 1], status) + if history[|history| - 1].target == status then 1 else 0
  }

  /** Every update that was started has failed, except the one that is under way or succeeded. */
  lemma {:induction false} UpdatesBalanceFailures(history: seq<StateTransition>, status: Status)
    requires Path(history, status)
    ensures Entries(history, Updating) ==
      Entries(history, Failed) + if status in {Pending, Failed, Retrying} then 0 else 1
  {
    if history == [] {
    } else {
      UpdatesBalanceFailures(history[..|history| - 1], history[|history| - 1].from);
    }
  }

  /** What the events say about the past of a task: a failed deployment, that there was a failure and no update since;
      a YAML update, that one is under way; a completed build, that there was none yet, or the last one succeeded. */
  lemma {:induction false} EventFromHistory(history: seq<StateTransition>, status: Status)
    requires Path(history, status)
    ensures var updates, failures := Entries(history, Updating), Entries(history, Failed);
      && (EventOf(status) == DeploymentFailed <==> failures > 0 && updates == failures)
      && (EventOf(status) == YamlUpdated <==> updates == failures + 1 && Entries(history, Success) == 0)
      && (EventOf(status) == BuildCompleted <==> updates == 0 || Entries(history, Success) > 0)
  {
    UpdatesBalanceFailures(history, status);
    EntriesOfPath(history, status);
  }

  lemma {:induction false} EntriesOfPath(history: seq<StateTransition>, status: Status)
    requires Path(history, status)
    ensures Entries(history, Success) == if status == Success then 1 else 0
    ensures status in {Failed, Retrying} ==> Entries(history, Failed) > 0
    ensures status == Pending ==> history == []
  {
    if history == [] {
    } else {
      TablesInverted(history[|history| - 1].from, status);
      EntriesOfPath(history[..|history| - 1], history[|history| - 1].from);
    }
  }

  lemma StepBack(history: seq<StateTransition>, status: Status)
    requires Path(history, status) && status != Pending
    ensures history != [] && status in Allowed(history[|history| - 1].from)
    ensures Path(history[..|history| - 1], history[|history| - 1].from)
  {
  }

  /** Success is only reached from syncing, and that only from updating. */
  lemma {:induction false} SuccessThroughSync(history: seq<StateTransition>)
    requires Path(history, Success)
    ensures |history| >= 3 && history[|history| - 1].from == Syncing && history[|history| - 2].from == Updating
  {
    StepBack(history, Success);
    var h := history[..|history| - 1];
    StepBack(h, Syncing);
    StepBack(h[..|h| - 1], Updating);
  }

  /** A task's history was only extended, and nothing happened to it if it had succeeded before. */
  predicate Extends(m: Machine, m': Machine, taskId: string)
    requires m.tasks.Keys == m.transitions.Keys && m'.tasks.Keys == m'.transitions.Keys && taskId in m.tasks
  {
    && taskId in m'.tasks && m.transitions[taskId] <= m'.transitions[taskId]
    && (m.tasks[taskId].status == Success ==> SameTask(m, m', taskId))
  }

  predicate SameTask(m: Machine, m': Machine, taskId: string)
    requires m.tasks.Keys == m.transitions.Keys && m'.tasks.Keys == m'.transitions.Keys && taskId in m.tasks &&
      taskId in m'.tasks
  {
    m'.tasks[taskId] == m.tasks[taskId] && m'.transitions[taskId] == m.transitions[taskId]
  }

  /** Success absorbs; a rejected transition and one of another task change nothing. */
  lemma ApplyExtends(m: Machine, op: Op, taskId: string)
    requires m.tasks.Keys == m.transitions.Keys && taskId in m.tasks && !(op.CreateTask? && op.taskId == taskId)
    ensures Extends(m, Apply(m, op), taskId)
    ensures op.taskId != taskId || !Accepts(m, taskId, op.target) ==> SameTask(m, Apply(m, op), taskId)
  {
  }

  /** Whatever happens to a machine, short of creating an id again: histories only grow, and a task that
      succeeded stays as it is. */
  lemma {:induction false} RunExtends(ops: seq<Op>, more: seq<Op>, taskId: string)
    requires taskId in Run(ops).tasks
    requires forall i :: 0 <= i < |more| && more[i].CreateTask? ==> more[i].taskId != taskId
    ensures Extends(Run(ops), Run(ops + more), taskId)
  {
    if more == [] {
      assert ops + more == ops;
    } else {
      var n := |more| - 1;
      RunExtends(ops, more[..n], taskId);
      RunSnoc(ops + more[..n], more[n]);
      assert ops + more == ops + more[..n] + [more[n]];
      ApplyExtends(Run(ops + more[..n]), more[n], taskId);
      ExtendsTwice(Run(ops), Run(ops + more[..n]), Run(ops + more), taskId);
    }
  }

  lemma {:induction false} ExtendsTwice(m: Machine, m1: Machine, m2: Machine, taskId: string)
    requires m.tasks.Keys == m.transitions.Keys && m1.tasks.Keys == m1.transitions.Keys
    requires m2.tasks.Keys == m2.transitions.Keys && taskId in m.tasks && taskId in m1.tasks
    requires Extends(m, m1, taskId) && Extends(m1, m2, taskId)
    ensures Extends(m, m2, taskId)
  {
  }

  lemma RunSnoc(ops: seq<Op>, op: Op)
    ensures Run(ops + [op]) == Apply(Run(ops), op)
  {
    assert (ops + [op])[..|ops|] == ops;
  }

  // ---- the implementation ------------------------------------------------------------------------------------------

  class PipelineStateMachine {
    var tasks: map<string, Task>
    var transitions: map<string, seq<StateTransition>>

    ghost function View(): Machine
      reads this
    {
      Machine(tasks, transitions)
    }

    constructor ()
      ensures Valid(View()) && View() == Run([])
    {
      tasks, transitions := map[], map[];
    }

    method CreateTask(taskId: string, buildId: string, now: int) returns (task: Task)
      requires Valid(View())
      modifies this
      ensures Valid(View()) && View() == Create(old(View()), taskId, buildId, now) && task == tasks[taskId]
    {
      task := Task(buildId, Pending, now, now);
      tasks := tasks[taskId := task];
      transitions := transitions[taskId := []];
    }

    method Transition(taskId: string, target: Status, now: int, reason: Option<string>) returns (answer: Answer)
      requires Valid(View())
      modifies this
      ensures Valid(View()) && View() == Move(old(View()), taskId, target, now, reason)
      ensures answer.success <==> Accepts(old(View()), taskId, target)
      ensures !answer.success ==> unchanged(this)
      ensures taskId in tasks ==> answer.newStatus == tasks[taskId].status && answer.event == EventOf(answer.newStatus)
      ensures answer.success ==> answer.transition == transitions[taskId][|transitions[taskId]| - 1]
    {
      MoveValid(View(), taskId, target, now, reason);
      if taskId !in tasks {
        return Answer(false, Pending, BuildCompleted, StateTransition(Pending, target, now, Some("task not found")));
      }
      var from := tasks[taskId].status;
      if target !in Allowed(from) {
        return Answer(false, from, EventOf(from), StateTransition(from, target, now, Some("invalid transition")));
      }
      tasks := tasks[taskId := tasks[taskId].(status := target, updatedAt := now)];
      var transition := StateTransition(from, target, now, reason);
      transitions := transitions[taskId := transitions[taskId] + [transition]];
      return Answer(true, target, EventOf(target), transition);
    }

    /** Asks whether a transition would succeed. */
    method CanTransition(taskId: string, target: Status) returns (r: bool)
      ensures r <==> Accepts(View(), taskId, target)
    {
      if taskId !in tasks { return false; }
      return target in Allowed(tasks[taskId].status);
    }
  }
}
