/**
  * Delivery of tasks to many workers: messages arrive at least once and in any order, the row in
  * the database is claimed by a guarded update, every other status write is unguarded, and any
  * call may raise before, after or long before its transaction takes effect.
  */
module TaskProtocol {
  import opened Wrappers

  type TaskId = string
  type WorkerId = nat

  datatype Status = Pending | Running | Completed | Failed

  /** The columns of `task_event` that matter here; `defect` is what the model rejects, if anything. */
  datatype Row = Row(status: Status, stage: string, error: string, event: string, defect: string)

  /** How one call of the handler ends; an interrupt is an exception outside `Exception`. */
  datatype Attempt = Returned | Transient(message: string) | Raised(kind: string, message: string) | Interrupted

  /** How a database call ends. A late one raises, and its transaction commits at some later time. */
  datatype Reply = Answered | RaisedBefore | RaisedAfter | RaisedLate

  /** What a transaction left open on its connection still holds. */
  datatype Deferred = LateClaim(task: TaskId) | LateWrite(task: TaskId, status: Status, stage: string, error: string)

  /** Where a worker stands in the handling of one message. */
  datatype Phase =
    | Idle
    | Claiming(task: TaskId)
    | Trying(task: TaskId, row: Row, tried: nat)
    | Closing(task: TaskId, row: Row, last: Attempt)
    | Reporting(task: TaskId, claimed: Option<Row>, stage: string, message: string)
    | Acking(won: Option<TaskId>)
  {
    /** The task whose claim the worker won and has not finished with. */
    function Owned(): Option<TaskId> {
      match this
      case Trying(t, _, _) => Some(t)
      case Closing(t, _, _) => Some(t)
      case Reporting(t, claimed, _, _) => if claimed.Some? then Some(t) else None
      case _ => None
    }
  }

  datatype Event =
    | Insert(task: TaskId, row: Row)
    | Receive(worker: WorkerId, message: Option<TaskId>)
    | Claim(worker: WorkerId, reply: Reply, text: string)
    | Try(worker: WorkerId, attempt: Attempt)
    | Close(worker: WorkerId, reply: Reply, text: string)
    | Report(worker: WorkerId, reply: Reply)
    | Ack(worker: WorkerId)
    | Crash(worker: WorkerId)
    | Land(index: nat)
    | Discard(index: nat)

  /**
    * `wins`, `tries` and `answered` are history: claims that took effect, handler calls in order,
    * and the row each winner had claimed when it went on to acknowledge.
    */
  datatype State = State(
    rows: map<TaskId, Row>,
    phases: map<WorkerId, Phase>,
    late: seq<Deferred>,
    wins: map<TaskId, nat>,
    tries: map<TaskId, seq<Attempt>>,
    answered: map<TaskId, Row>)
  {
    function PhaseOf(w: WorkerId): Phase {
      if w in phases then phases[w] else Idle
    }

    function Wins(t: TaskId): nat {
      if t in wins then wins[t] else 0
    }

    function Tries(t: TaskId): seq<Attempt> {
      if t in tries then tries[t] else []
    }

    function At(w: WorkerId, p: Phase): State {
      this.(phases := phases[w := p])
    }
  }

  /** Handlers by event name, with the stage each of them reports. */
  type Registry = map<string, string>

  const MAX_ATTEMPTS := 3

  const CLAIM_STAGE := "claim"

  const STAGES := {"init", CLAIM_STAGE, "download_raw_data", "preprocessing", "backtesting", "buy_sell_mark",
                   "similarity"}

  function ReportStage(stage: string): string {
    if stage in STAGES then stage else CLAIM_STAGE
  }

  function NoHandler(event: string): string {
    "No task handler registered for event_name=" + event
  }

  function ErrorText(kind: string, message: string): string {
    "發生錯誤 [" + kind + "]: " + message
  }

  /** The guarded update: only a pending row is taken. */
  predicate Claimable(rows: map<TaskId, Row>, t: TaskId) {
    t in rows && rows[t].status == Pending
  }

  function ClaimEffect(s: State, t: TaskId): State {
    if Claimable(s.rows, t) then
      s.(rows := s.rows[t := s.rows[t].(status := Running)], wins := s.wins[t := s.Wins(t) + 1])
    else
      s
  }

  /** The unguarded update: whatever row bears the id. */
  function WriteEffect(s: State, t: TaskId, status: Status, stage: string, error: string): State {
    if t in s.rows then
      s.(rows := s.rows[t := s.rows[t].(status := status, stage := stage, error := error)])
    else
      s
  }

  function Landed(s: State, d: Deferred): State {
    match d
    case LateClaim(t) => ClaimEffect(s, t)
    case LateWrite(t, status, stage, error) => WriteEffect(s, t, status, stage, error)
  }

  /** A call with effect `after` and open transaction `d`, as it ends under `reply`. */
  function Called(s: State, after: State, d: Deferred, reply: Reply): State {
    match reply
    case Answered => after
    case RaisedBefore => s
    case RaisedAfter => after
    case RaisedLate => s.(late := s.late + [d])
  }

  /** Where a worker goes with a row it has just claimed. */
  function Begin(registry: Registry, t: TaskId, row: Row): Phase {
    if row.defect != "" then Reporting(t, Some(row), CLAIM_STAGE, row.defect)
    else if row.event !in registry then Reporting(t, Some(row), ReportStage(row.stage), NoHandler(row.event))
    else Trying(t, row, 0)
  }

  /** What `execute` writes in its `finally`. */
  function ClosingStatus(last: Attempt): Status {
    if last.Returned? || last.Interrupted? then Completed else Failed
  }

  function ClosingText(last: Attempt): string {
    match last
    case Returned => ""
    case Interrupted => ""
    case Transient(message) => ErrorText("PermanentError", message)
    case Raised(kind, message) => ErrorText(kind, message)
  }

  function MessageOf(last: Attempt): string {
    match last
    case Transient(message) => message
    case Raised(_, message) => message
    case _ => ""
  }

  /** The worker goes on to acknowledge, remembering the row if it was the winner. */
  function Finish(s: State, w: WorkerId, t: TaskId, row: Option<Row>): State {
    if row.Some? then s.(answered := s.answered[t := row.value]).At(w, Acking(Some(t))) else s.At(w, Acking(None))
  }

  function ClaimStep(registry: Registry, s: State, w: WorkerId, t: TaskId, reply: Reply, text: string): State {
    var after := Called(s, ClaimEffect(s, t), LateClaim(t), reply);
    if reply != Answered then after.At(w, Reporting(t, None, CLAIM_STAGE, text))
    else if Claimable(s.rows, t) then after.At(w, Begin(registry, t, after.rows[t]))
    else after.At(w, Acking(None))
  }

  function TryStep(s: State, w: WorkerId, p: Phase, a: Attempt): State
    requires p.Trying?
  {
    var after := s.(tries := s.tries[p.task := s.Tries(p.task) + [a]]);
    if a.Transient? && p.tried + 1 < MAX_ATTEMPTS then after.At(w, p.(tried := p.tried + 1))
    else after.At(w, Closing(p.task, p.row, a))
  }

  function CloseStep(registry: Registry, s: State, w: WorkerId, p: Phase, reply: Reply, text: string): State
    requires p.Closing?
  {
    var stage := if p.row.event in registry then registry[p.row.event] else CLAIM_STAGE;
    var status := ClosingStatus(p.last);
    var error := ClosingText(p.last);
    var after := Called(s, WriteEffect(s, p.task, status, stage, error),
                        LateWrite(p.task, status, stage, error), reply);
    if reply != Answered then after.At(w, Reporting(p.task, Some(p.row), ReportStage(p.row.stage), text))
    else if status == Failed
    then after.At(w, Reporting(p.task, Some(p.row), ReportStage(p.row.stage), MessageOf(p.last)))
    else Finish(after, w, p.task, Some(p.row))
  }

  /** `handle_error`: a failing write is logged and swallowed. */
  function ReportStep(s: State, w: WorkerId, p: Phase, reply: Reply): State
    requires p.Reporting?
  {
    Finish(Called(s, WriteEffect(s, p.task, Failed, p.stage, p.message),
                  LateWrite(p.task, Failed, p.stage, p.message), reply), w, p.task, p.claimed)
  }

  /** One step of the whole system; an event that cannot happen in `s` leaves `s` alone. */
  function Step(registry: Registry, s: State, e: Event): State {
    match e
    case Insert(t, row) =>
      if t !in s.rows then s.(rows := s.rows[t := row]) else s
    case Receive(w, message) =>
      if s.PhaseOf(w) != Idle then s
      else if message.Some? then s.At(w, Claiming(message.value))
      else s.At(w, Acking(None))
    case Claim(w, reply, text) =>
      if s.PhaseOf(w).Claiming? then ClaimStep(registry, s, w, s.PhaseOf(w).task, reply, text) else s
    case Try(w, a) =>
      if s.PhaseOf(w).Trying? then TryStep(s, w, s.PhaseOf(w), a) else s
    case Close(w, reply, text) =>
      if s.PhaseOf(w).Closing? then CloseStep(registry, s, w, s.PhaseOf(w), reply, text) else s
    case Report(w, reply) =>
      if s.PhaseOf(w).Reporting? then ReportStep(s, w, s.PhaseOf(w), reply) else s
    case Ack(w) =>
      if s.PhaseOf(w).Acking? then s.At(w, Idle) else s
    case Crash(w) =>
      s.At(w, Idle)
    case Land(i) =>
      if i < |s.late| then Landed(s, s.late[i]).(late := s.late[..i] + s.late[i + 1..]) else s
    case Discard(i) =>
      if i < |s.late| then s.(late := s.late[..i] + s.late[i + 1..]) else s
  }

  function Run(registry: Registry, s: State, es: seq<Event>): State {
    if es == [] then s else Step(registry, Run(registry, s, es[..|es| - 1]), es[|es| - 1])
  }

  /** Rows of any kind, idle workers, nothing pending and no history. */
  ghost predicate Initial(s: State) {
    s.phases == map[] && s.late == [] && s.wins == map[] && s.tries == map[] && s.answered == map[]
  }
}
