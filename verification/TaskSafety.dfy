/**
  * What every run of the delivery protocol keeps, whatever is redelivered, whoever crashes and
  * whichever calls raise.
  */
module TaskSafety {
  import opened TaskProtocol
  import opened Wrappers

  function Rank(status: Status): nat {
    match status
    case Pending => 0
    case Running => 1
    case _ => 2
  }

  /** The row does not go back, and starts running only from pending. */
  predicate RowForward(row: Row, after: Row) {
    && Rank(row.status) <= Rank(after.status)
    && (after.status == Running ==> row.status == Running || row.status == Pending)
    && after.event == row.event && after.defect == row.defect
  }

  ghost predicate Forward(rows: map<TaskId, Row>, after: map<TaskId, Row>) {
    forall t | t in rows :: t in after && RowForward(rows[t], after[t])
  }

  /** At most three handler calls, and only transient failures are followed by another. */
  ghost predicate Tried(tries: seq<Attempt>) {
    && |tries| <= MAX_ATTEMPTS
    && (forall i | 0 <= i < |tries| - 1 :: tries[i].Transient?)
  }

  ghost predicate TaskOk(s: State, t: TaskId) {
    && s.Wins(t) <= 1
    && (s.Wins(t) == 1 ==> t in s.rows && s.rows[t].status != Pending)
    && (s.Wins(t) == 0 ==> s.Tries(t) == [])
    && Tried(s.Tries(t))
  }

  /** Where a phase stands against the history of the task it owns. */
  ghost predicate PhaseOk(s: State, p: Phase) {
    && (p.Owned().Some? ==> s.Wins(p.Owned().value) == 1)
    && match p
       case Trying(t, _, tried) =>
         |s.Tries(t)| == tried < MAX_ATTEMPTS && forall i | 0 <= i < tried :: s.Tries(t)[i].Transient?
       case Closing(t, _, last) =>
         var tries := s.Tries(t);
         tries != [] && tries[|tries| - 1] == last && (last.Transient? ==> |tries| == MAX_ATTEMPTS)
       case Acking(won) => won.Some? ==> won.value in s.answered
       case _ => true
  }

  predicate Apart(p: Phase, q: Phase) {
    p.Owned().None? || p.Owned() != q.Owned()
  }

  ghost predicate Exclusive(s: State) {
    forall w, v | w != v :: Apart(s.PhaseOf(w), s.PhaseOf(v))
  }

  predicate LateOk(d: Deferred) {
    d.LateWrite? ==> Rank(d.status) == 2
  }

  ghost predicate Inv(s: State) {
    && (forall d | d in s.late :: LateOk(d))
    && (forall t: TaskId :: TaskOk(s, t))
    && (forall w: WorkerId :: PhaseOk(s, s.PhaseOf(w)))
    && Exclusive(s)
  }

  lemma ClaimEffectKeepsInv(s: State, t: TaskId)
    requires Inv(s)
    ensures Inv(ClaimEffect(s, t)) && Forward(s.rows, ClaimEffect(s, t).rows)
  {
    hide Tried, Apart, LateOk;
    var after := ClaimEffect(s, t);
    assert TaskOk(s, t);
    forall u: TaskId ensures TaskOk(after, u) {
      assert TaskOk(s, u);
    }
    forall w: WorkerId ensures PhaseOk(after, after.PhaseOf(w)) {
      assert PhaseOk(s, s.PhaseOf(w));
    }
    assert Exclusive(after) by {
      assert forall w: WorkerId :: after.PhaseOf(w) == s.PhaseOf(w);
    }
  }

  lemma WriteEffectKeepsInv(s: State, t: TaskId, status: Status, stage: string, error: string)
    requires Inv(s) && Rank(status) == 2
    ensures var after := WriteEffect(s, t, status, stage, error); Inv(after) && Forward(s.rows, after.rows)
  {
    hide Tried, Apart, LateOk;
    var after := WriteEffect(s, t, status, stage, error);
    forall u: TaskId ensures TaskOk(after, u) {
      assert TaskOk(s, u);
    }
    forall w: WorkerId ensures PhaseOk(after, after.PhaseOf(w)) {
      assert PhaseOk(s, s.PhaseOf(w));
    }
    assert Exclusive(after) by {
      assert forall w: WorkerId :: after.PhaseOf(w) == s.PhaseOf(w);
    }
  }

  lemma QueueKeepsInv(s: State, late: seq<Deferred>)
    requires Inv(s) && forall d | d in late :: LateOk(d)
    ensures Inv(s.(late := late))
  {
    hide Tried, Apart, LateOk;
    var after := s.(late := late);
    forall u: TaskId ensures TaskOk(after, u) {
      assert TaskOk(s, u);
    }
    forall w: WorkerId ensures PhaseOk(after, after.PhaseOf(w)) {
      assert PhaseOk(s, s.PhaseOf(w));
    }
    assert Exclusive(after) by {
      assert forall w: WorkerId :: after.PhaseOf(w) == s.PhaseOf(w);
    }
  }

  lemma CalledKeepsInv(s: State, after: State, d: Deferred, reply: Reply)
    requires Inv(s) && Inv(after) && Forward(s.rows, after.rows) && LateOk(d)
    ensures Inv(Called(s, after, d, reply)) && Forward(s.rows, Called(s, after, d, reply).rows)
  {
    if reply == RaisedLate {
      assert forall e | e in s.late + [d] :: LateOk(e);
      QueueKeepsInv(s, s.late + [d]);
    }
  }

  /** A worker that owns no more than before may go anywhere. */
  lemma MoveKeepsInv(s: State, w: WorkerId, p: Phase)
    requires Inv(s) && PhaseOk(s, p) && (p.Owned().None? || p.Owned() == s.PhaseOf(w).Owned())
    ensures Inv(s.At(w, p))
  {
    hide Tried, LateOk;
    var after := s.At(w, p);
    forall u: TaskId ensures TaskOk(after, u) {
      assert TaskOk(s, u);
    }
    forall v: WorkerId ensures PhaseOk(after, after.PhaseOf(v)) {
      assert PhaseOk(s, s.PhaseOf(v));
    }
    forall u: WorkerId, v: WorkerId | u != v ensures Apart(after.PhaseOf(u), after.PhaseOf(v)) {
      assert Apart(s.PhaseOf(u), s.PhaseOf(v));
    }
  }

  /** A claim that is answered with a row makes its worker the only owner of a task never won before. */
  lemma WinKeepsInv(s: State, w: WorkerId, t: TaskId, p: Phase)
    requires Inv(s) && Claimable(s.rows, t) && s.PhaseOf(w).Owned().None?
    requires p.Owned() == Some(t) && !p.Closing? && (p.Trying? ==> p.tried == 0)
    ensures Inv(ClaimEffect(s, t).At(w, p))
  {
    hide Tried, LateOk;
    var after := ClaimEffect(s, t).At(w, p);
    assert TaskOk(s, t);
    forall u: TaskId ensures TaskOk(after, u) {
      assert TaskOk(s, u);
    }
    forall v: WorkerId ensures PhaseOk(after, after.PhaseOf(v)) {
      assert PhaseOk(s, s.PhaseOf(v));
    }
    forall u: WorkerId, v: WorkerId | u != v ensures Apart(after.PhaseOf(u), after.PhaseOf(v)) {
      assert PhaseOk(s, s.PhaseOf(u)) && PhaseOk(s, s.PhaseOf(v));
      assert Apart(s.PhaseOf(u), s.PhaseOf(v));
    }
  }

  lemma TryKeepsInv(s: State, w: WorkerId, p: Phase, a: Attempt)
    requires Inv(s) && p == s.PhaseOf(w) && p.Trying?
    ensures Inv(TryStep(s, w, p, a))
  {
    hide LateOk;
    var after := TryStep(s, w, p, a);
    assert PhaseOk(s, p);
    forall u: TaskId ensures TaskOk(after, u) {
      assert TaskOk(s, u);
    }
    forall v: WorkerId ensures PhaseOk(after, after.PhaseOf(v)) {
      assert PhaseOk(s, s.PhaseOf(v)) && (v != w ==> Apart(s.PhaseOf(v), p));
    }
    forall u: WorkerId, v: WorkerId | u != v ensures Apart(after.PhaseOf(u), after.PhaseOf(v)) {
      assert Apart(s.PhaseOf(u), s.PhaseOf(v));
    }
  }

  lemma ClaimKeepsInv(registry: Registry, s: State, w: WorkerId, t: TaskId, reply: Reply, text: string)
    requires Inv(s) && s.PhaseOf(w) == Claiming(t)
    ensures Inv(ClaimStep(registry, s, w, t, reply, text))
    ensures Forward(s.rows, ClaimStep(registry, s, w, t, reply, text).rows)
  {
    hide Inv, Forward;
    ClaimEffectKeepsInv(s, t);
    CalledKeepsInv(s, ClaimEffect(s, t), LateClaim(t), reply);
    var after := Called(s, ClaimEffect(s, t), LateClaim(t), reply);
    if reply != Answered {
      MoveKeepsInv(after, w, Reporting(t, None, CLAIM_STAGE, text));
    } else if Claimable(s.rows, t) {
      WinKeepsInv(s, w, t, Begin(registry, t, after.rows[t]));
    } else {
      MoveKeepsInv(after, w, Acking(None));
    }
  }

  lemma AnsweredKeepsInv(s: State, t: TaskId, row: Row)
    requires Inv(s)
    ensures Inv(s.(answered := s.answered[t := row]))
  {
    hide Tried, Apart, LateOk;
    var after := s.(answered := s.answered[t := row]);
    forall u: TaskId ensures TaskOk(after, u) {
      assert TaskOk(s, u);
    }
    forall w: WorkerId ensures PhaseOk(after, after.PhaseOf(w)) {
      assert PhaseOk(s, s.PhaseOf(w));
    }
    assert Exclusive(after) by {
      assert forall w: WorkerId :: after.PhaseOf(w) == s.PhaseOf(w);
    }
  }

  lemma FinishKeepsInv(s: State, w: WorkerId, t: TaskId, claimed: Option<Row>)
    requires Inv(s)
    ensures Inv(Finish(s, w, t, claimed))
  {
    hide Inv;
    if claimed.Some? {
      AnsweredKeepsInv(s, t, claimed.value);
      MoveKeepsInv(s.(answered := s.answered[t := claimed.value]), w, Acking(Some(t)));
    } else {
      MoveKeepsInv(s, w, Acking(None));
    }
  }

  lemma CloseKeepsInv(registry: Registry, s: State, w: WorkerId, p: Phase, reply: Reply, text: string)
    requires Inv(s) && s.PhaseOf(w) == p && p.Closing?
    ensures Inv(CloseStep(registry, s, w, p, reply, text))
    ensures Forward(s.rows, CloseStep(registry, s, w, p, reply, text).rows)
  {
    assert PhaseOk(s, p);
    hide Inv, Forward, PhaseOk;
    var stage := if p.row.event in registry then registry[p.row.event] else CLAIM_STAGE;
    var status := ClosingStatus(p.last);
    var error := ClosingText(p.last);
    WriteEffectKeepsInv(s, p.task, status, stage, error);
    CalledKeepsInv(s, WriteEffect(s, p.task, status, stage, error), LateWrite(p.task, status, stage, error), reply);
    var after := Called(s, WriteEffect(s, p.task, status, stage, error),
                        LateWrite(p.task, status, stage, error), reply);
    ReportingIsOwned(s, after, p, if reply != Answered then text else MessageOf(p.last));
    if reply != Answered {
      MoveKeepsInv(after, w, Reporting(p.task, Some(p.row), ReportStage(p.row.stage), text));
    } else if status == Failed {
      MoveKeepsInv(after, w, Reporting(p.task, Some(p.row), ReportStage(p.row.stage), MessageOf(p.last)));
    } else {
      FinishKeepsInv(after, w, p.task, Some(p.row));
    }
  }

  lemma ReportingIsOwned(s: State, after: State, p: Phase, text: string)
    requires p.Closing? && PhaseOk(s, p) && s.wins == after.wins
    ensures PhaseOk(after, Reporting(p.task, Some(p.row), ReportStage(p.row.stage), text))
  {
  }

  lemma ReportKeepsInv(s: State, w: WorkerId, p: Phase, reply: Reply)
    requires Inv(s) && s.PhaseOf(w) == p && p.Reporting?
    ensures Inv(ReportStep(s, w, p, reply)) && Forward(s.rows, ReportStep(s, w, p, reply).rows)
  {
    hide Inv, Forward;
    WriteEffectKeepsInv(s, p.task, Failed, p.stage, p.message);
    CalledKeepsInv(s, WriteEffect(s, p.task, Failed, p.stage, p.message),
                   LateWrite(p.task, Failed, p.stage, p.message), reply);
    FinishKeepsInv(Called(s, WriteEffect(s, p.task, Failed, p.stage, p.message),
                          LateWrite(p.task, Failed, p.stage, p.message), reply), w, p.task, p.claimed);
  }

  lemma InsertKeepsInv(s: State, t: TaskId, row: Row)
    requires Inv(s) && t !in s.rows
    ensures Inv(s.(rows := s.rows[t := row])) && Forward(s.rows, s.rows[t := row])
  {
    hide Tried, Apart, LateOk;
    var after := s.(rows := s.rows[t := row]);
    forall u: TaskId ensures TaskOk(after, u) {
      assert TaskOk(s, u);
    }
    forall w: WorkerId ensures PhaseOk(after, after.PhaseOf(w)) {
      assert PhaseOk(s, s.PhaseOf(w));
    }
    assert Exclusive(after) by {
      assert forall w: WorkerId :: after.PhaseOf(w) == s.PhaseOf(w);
    }
  }

  lemma LandKeepsInv(s: State, i: nat)
    requires Inv(s) && i < |s.late|
    ensures Inv(Landed(s, s.late[i]).(late := s.late[..i] + s.late[i + 1..]))
    ensures Forward(s.rows, Landed(s, s.late[i]).rows)
    ensures Inv(s.(late := s.late[..i] + s.late[i + 1..]))
  {
    var rest := s.late[..i] + s.late[i + 1..];
    assert LateOk(s.late[i]) && forall d | d in rest :: LateOk(d);
    hide Inv, Forward;
    QueueKeepsInv(s, rest);
    match s.late[i] {
      case LateClaim(t) => ClaimEffectKeepsInv(s, t);
      case LateWrite(t, status, stage, error) => WriteEffectKeepsInv(s, t, status, stage, error);
    }
    QueueKeepsInv(Landed(s, s.late[i]), rest);
  }

  lemma TryKeepsRows(s: State, w: WorkerId, a: Attempt)
    requires s.PhaseOf(w).Trying?
    ensures TryStep(s, w, s.PhaseOf(w), a).rows == s.rows
  {
  }

  /** Calls of the handler and of the database. */
  predicate IsCall(e: Event) {
    e.Claim? || e.Try? || e.Close? || e.Report?
  }

  lemma CallKeepsInv(registry: Registry, s: State, e: Event)
    requires Inv(s) && IsCall(e)
    ensures Inv(Step(registry, s, e)) && Forward(s.rows, Step(registry, s, e).rows)
  {
    assert Forward(s.rows, s.rows);
    hide Inv, Forward, ClaimStep, TryStep, CloseStep, ReportStep;
    match e {
      case Claim(w, reply, text) =>
        if s.PhaseOf(w).Claiming? { ClaimKeepsInv(registry, s, w, s.PhaseOf(w).task, reply, text); }
      case Try(w, a) =>
        if s.PhaseOf(w).Trying? {
          TryKeepsInv(s, w, s.PhaseOf(w), a);
          TryKeepsRows(s, w, a);
        }
      case Close(w, reply, text) =>
        if s.PhaseOf(w).Closing? { CloseKeepsInv(registry, s, w, s.PhaseOf(w), reply, text); }
      case Report(w, reply) =>
        if s.PhaseOf(w).Reporting? { ReportKeepsInv(s, w, s.PhaseOf(w), reply); }
    }
  }

  /** Every step keeps the invariant and moves rows forward only. */
  lemma StepKeepsInv(registry: Registry, s: State, e: Event)
    requires Inv(s)
    ensures Inv(Step(registry, s, e)) && Forward(s.rows, Step(registry, s, e).rows)
  {
    assert Forward(s.rows, s.rows);
    hide Inv, Forward, ClaimStep, TryStep, CloseStep, ReportStep;
    if IsCall(e) {
      CallKeepsInv(registry, s, e);
    } else {
      match e {
        case Insert(t, row) =>
          if t !in s.rows { InsertKeepsInv(s, t, row); }
        case Receive(w, message) =>
          MoveKeepsInv(s, w, if message.Some? then Claiming(message.value) else Acking(None));
        case Ack(w) => MoveKeepsInv(s, w, Idle);
        case Crash(w) => MoveKeepsInv(s, w, Idle);
        case Land(i) => if i < |s.late| { LandKeepsInv(s, i); }
        case Discard(i) => if i < |s.late| { LandKeepsInv(s, i); }
      }
    }
  }

  lemma {:induction false} RunKeepsInv(registry: Registry, s: State, es: seq<Event>)
    requires Inv(s)
    ensures Inv(Run(registry, s, es))
  {
    hide Inv;
    if es == [] {
    } else {
      RunKeepsInv(registry, s, es[..|es| - 1]);
      StepKeepsInv(registry, Run(registry, s, es[..|es| - 1]), es[|es| - 1]);
    }
  }

  lemma InitialOk(s: State)
    requires Initial(s)
    ensures Inv(s)
  {
  }

  /** `s` comes about in some run. */
  ghost predicate Reachable(registry: Registry, s: State) {
    exists start: State, es: seq<Event> :: Initial(start) && Run(registry, start, es) == s
  }

  lemma ReachableOk(registry: Registry, s: State)
    requires Reachable(registry, s)
    ensures Inv(s)
  {
    hide Inv, Initial, Run;
    var start: State, es: seq<Event> :| Initial(start) && Run(registry, start, es) == s;
    InitialOk(start);
    RunKeepsInv(registry, start, es);
  }

  /**
    * At most once over all workers: whatever is redelivered, crashes or raises, at most one claim
    * on a task ever takes effect, and its handler is called at most three times in all, again only
    * after a transient failure.
    */
  lemma AtMostOnce(registry: Registry, s: State, t: TaskId)
    requires Reachable(registry, s)
    ensures s.Wins(t) <= 1 && |s.Tries(t)| <= 3 && (s.Wins(t) == 0 ==> s.Tries(t) == [])
    ensures forall i | 0 <= i < |s.Tries(t)| - 1 :: s.Tries(t)[i].Transient?
  {
    ReachableOk(registry, s);
    assert TaskOk(s, t);
  }

  /** No two workers are ever busy with the same won task. */
  lemma OneOwner(registry: Registry, s: State, w: WorkerId, v: WorkerId)
    requires Reachable(registry, s)
    requires s.PhaseOf(w).Owned().Some? && s.PhaseOf(w).Owned() == s.PhaseOf(v).Owned()
    ensures w == v
  {
    ReachableOk(registry, s);
    assert w == v || Apart(s.PhaseOf(w), s.PhaseOf(v));
  }

  /** A worker acknowledges as a winner only after its answer is on record. */
  lemma AckedIsAnswered(registry: Registry, s: State, w: WorkerId)
    requires Reachable(registry, s) && s.PhaseOf(w).Acking? && s.PhaseOf(w).won.Some?
    ensures s.PhaseOf(w).won.value in s.answered
  {
    ReachableOk(registry, s);
    assert PhaseOk(s, s.PhaseOf(w));
  }

  /** No row ever goes back, from any moment of any run to any later one: not to pending, and from an end
      only to an end. Its event is never changed. */
  lemma {:induction false} RankNeverFalls(registry: Registry, s: State, es: seq<Event>, n: nat, t: TaskId)
    requires Initial(s) && n <= |es| && t in Run(registry, s, es[..n]).rows
    ensures t in Run(registry, s, es).rows
    ensures var before, after := Run(registry, s, es[..n]).rows[t], Run(registry, s, es).rows[t];
            && (before.status != Pending ==> after.status != Pending)
            && (before.status == Completed || before.status == Failed ==>
                  after.status == Completed || after.status == Failed)
            && after.event == before.event
    decreases |es|
  {
    hide Forward, Initial, Step;
    if n == |es| {
      assert es[..n] == es;
    } else {
      var shorter := es[..|es| - 1];
      assert shorter[..n] == es[..n];
      RankNeverFalls(registry, s, shorter, n, t);
      InitialOk(s);
      RunKeepsInv(registry, s, shorter);
      StepKeepsInv(registry, Run(registry, s, shorter), es[|es| - 1]);
      Advances(Run(registry, s, shorter).rows, Run(registry, s, es).rows, t);
    }
  }

  lemma Advances(rows: map<TaskId, Row>, after: map<TaskId, Row>, t: TaskId)
    requires Forward(rows, after) && t in rows
    ensures t in after && Rank(rows[t].status) <= Rank(after[t].status) && after[t].event == rows[t].event
  {
  }

  lemma WritesStartNothing(s: State, t: TaskId, d: Deferred, reply: Reply)
    requires d.LateWrite? && LateOk(d) && t in s.rows && s.rows[t].status != Running
    requires var after := Called(s, WriteEffect(s, d.task, d.status, d.stage, d.error), d, reply); t in after.rows
    ensures Called(s, WriteEffect(s, d.task, d.status, d.stage, d.error), d, reply).rows[t].status != Running
  {
  }

  lemma OnlyClaimsStart(registry: Registry, s: State, e: Event, t: TaskId)
    requires forall d | d in s.late :: LateOk(d)
    requires t in s.rows && s.rows[t].status != Running
    requires t in Step(registry, s, e).rows && Step(registry, s, e).rows[t].status == Running
    ensures e.Claim? || (e.Land? && e.index < |s.late| && s.late[e.index].LateClaim?)
  {
    hide ClaimStep, Called, WriteEffect, LateOk;
    match e {
      case Close(w, reply, _) =>
        var p := s.PhaseOf(w);
        if p.Closing? {
          var stage := if p.row.event in registry then registry[p.row.event] else CLAIM_STAGE;
          CloseWrites(p.last);
          WritesStartNothing(s, t, LateWrite(p.task, ClosingStatus(p.last), stage, ClosingText(p.last)), reply);
        }
      case Report(w, reply) =>
        var p := s.PhaseOf(w);
        if p.Reporting? {
          ReportWrites(p);
          WritesStartNothing(s, t, LateWrite(p.task, Failed, p.stage, p.message), reply);
        }
      case Land(i) =>
        if i < |s.late| && s.late[i].LateWrite? {
          AnsweredIsEffect(s, s.late[i]);
          WritesStartNothing(s, t, s.late[i], Answered);
        }
      case _ =>
    }
  }

  lemma CloseWrites(last: Attempt)
    ensures Rank(ClosingStatus(last)) == 2
    ensures forall t, stage, text :: LateOk(LateWrite(t, ClosingStatus(last), stage, text))
  {
  }

  lemma ReportWrites(p: Phase)
    requires p.Reporting?
    ensures LateOk(LateWrite(p.task, Failed, p.stage, p.message))
  {
  }

  lemma AnsweredIsEffect(s: State, d: Deferred)
    requires d.LateWrite?
    ensures Called(s, WriteEffect(s, d.task, d.status, d.stage, d.error), d, Answered) == Landed(s, d)
  {
  }

  /** A row starts running in one way only: a claim takes effect on it while it is pending and never won. */
  lemma RunningOnlyFromPending(registry: Registry, s: State, e: Event, t: TaskId)
    requires Reachable(registry, s) && t in s.rows && s.rows[t].status != Running
    ensures var after := Step(registry, s, e);
            t in after.rows && after.rows[t].status == Running ==>
              && s.rows[t].status == Pending && s.Wins(t) == 0
              && (e.Claim? || (e.Land? && e.index < |s.late| && s.late[e.index].LateClaim?))
  {
    hide Reachable, Step;
    ReachableOk(registry, s);
    StepKeepsInv(registry, s, e);
    var after := Step(registry, s, e);
    if t in after.rows && after.rows[t].status == Running {
      assert RowForward(s.rows[t], after.rows[t]);
      assert TaskOk(s, t);
      OnlyClaimsStart(registry, s, e, t);
    }
  }
}
