/**
  * Runs in which every claim and status write is answered: the row of a task agrees with what its
  * winner saw. Workers may still crash, and messages arrive any number of times. Then, how little
  * it takes to lose that agreement.
  */
module TaskOutcome {
  import opened TaskProtocol
  import opened TaskSafety
  import opened Wrappers

  predicate Quiet(e: Event) {
    match e
    case Claim(_, reply, _) => reply == Answered
    case Close(_, reply, _) => reply == Answered
    case Report(_, reply) => reply == Answered
    case _ => true
  }

  ghost predicate AllQuiet(es: seq<Event>) {
    forall e | e in es :: Quiet(e)
  }

  /** The row a winner leaves behind, from the row it claimed and the handler calls it made. */
  function Final(registry: Registry, row: Row, tries: seq<Attempt>): Row {
    if row.defect != "" then
      row.(status := Failed, stage := CLAIM_STAGE, error := row.defect)
    else if row.event !in registry then
      row.(status := Failed, stage := ReportStage(row.stage), error := NoHandler(row.event))
    else if tries == [] then
      row
    else if tries[|tries| - 1].Returned? || tries[|tries| - 1].Interrupted? then
      row.(status := Completed, stage := registry[row.event], error := "")
    else
      row.(status := Failed, stage := ReportStage(row.stage), error := MessageOf(tries[|tries| - 1]))
  }

  ghost predicate Unowned(s: State, t: TaskId) {
    forall w: WorkerId :: s.PhaseOf(w).Owned() != Some(t)
  }

  /** The row as its owner last saw it. */
  predicate Held(registry: Registry, s: State, t: TaskId, row: Row) {
    t in s.rows && s.rows[t] == row && row.status == Running && row.defect == "" && row.event in registry
  }

  /** The attempts ended for a reason: not with a transient failure, or after all of them. */
  predicate Ended(tries: seq<Attempt>) {
    tries == [] || !tries[|tries| - 1].Transient? || |tries| == MAX_ATTEMPTS
  }

  ghost predicate PhaseAgrees(registry: Registry, s: State, p: Phase) {
    match p
    case Trying(t, row, _) => Held(registry, s, t, row)
    case Closing(t, row, _) => Held(registry, s, t, row)
    case Reporting(t, claimed, stage, message) =>
      && claimed.Some? && t in s.rows
      && claimed.value.status == Running && (s.Tries(t) == [] ==> !Startable(registry, claimed.value))
      && Ended(s.Tries(t))
      && s.rows[t].(status := Failed, stage := stage, error := message)
         == Final(registry, claimed.value, s.Tries(t))
    case Acking(won) => won.Some? ==> won.value in s.answered
    case _ => true
  }

  ghost predicate AnswerAgrees(registry: Registry, s: State, t: TaskId) {
    t in s.answered ==>
      && s.Wins(t) == 1 && Unowned(s, t)
      && t in s.rows && s.rows[t] == Final(registry, s.answered[t], s.Tries(t))
      && s.answered[t].status == Running && (s.Tries(t) == [] ==> !Startable(registry, s.answered[t]))
      && Ended(s.Tries(t))
  }

  predicate Startable(registry: Registry, row: Row) {
    row.defect == "" && row.event in registry
  }

  ghost predicate Agrees(registry: Registry, s: State) {
    && Inv(s) && s.late == []
    && (forall w: WorkerId :: PhaseAgrees(registry, s, s.PhaseOf(w)))
    && (forall t: TaskId :: AnswerAgrees(registry, s, t))
  }

  /** `after` differs from `s` in worker `w` and task `t` at most. */
  ghost predicate OnlyAt(s: State, after: State, w: WorkerId, t: TaskId) {
    && (forall v: WorkerId | v != w :: after.PhaseOf(v) == s.PhaseOf(v))
    && (forall u: TaskId | u != t ::
          && (u in after.rows <==> u in s.rows) && (u in s.rows ==> after.rows[u] == s.rows[u])
          && after.Wins(u) == s.Wins(u) && after.Tries(u) == s.Tries(u)
          && (u in after.answered <==> u in s.answered) && (u in s.answered ==> after.answered[u] == s.answered[u]))
  }

  /** A step of the owner of `t`, or one about a task nobody owns. */
  lemma LocalAgrees(registry: Registry, s: State, after: State, w: WorkerId, t: TaskId)
    requires Agrees(registry, s) && Inv(after) && after.late == [] && OnlyAt(s, after, w, t)
    requires forall v: WorkerId | v != w :: s.PhaseOf(v).Owned() != Some(t)
    requires t in s.answered ==> t in after.answered
    requires after.PhaseOf(w).Owned() == None || after.PhaseOf(w).Owned() == Some(t)
    requires PhaseAgrees(registry, after, after.PhaseOf(w)) && AnswerAgrees(registry, after, t)
    ensures Agrees(registry, after)
  {
    hide Inv, Final, Exclusive, Startable;
    forall v: WorkerId ensures PhaseAgrees(registry, after, after.PhaseOf(v)) {
      assert PhaseAgrees(registry, s, s.PhaseOf(v));
    }
    forall u: TaskId ensures AnswerAgrees(registry, after, u) {
      assert AnswerAgrees(registry, s, u);
    }
  }

  lemma InsertAgrees(registry: Registry, s: State, t: TaskId, row: Row)
    requires Agrees(registry, s) && t !in s.rows
    ensures Agrees(registry, s.(rows := s.rows[t := row]))
  {
    var after := s.(rows := s.rows[t := row]);
    InsertKeepsInv(s, t, row);
    hide Inv, Final, Startable, RowForward;
    forall v: WorkerId ensures PhaseAgrees(registry, after, after.PhaseOf(v)) {
      assert PhaseAgrees(registry, s, s.PhaseOf(v));
    }
    forall u: TaskId ensures AnswerAgrees(registry, after, u) {
      assert AnswerAgrees(registry, s, u);
      if u in s.answered {
        assert u != t;
        forall w: WorkerId ensures after.PhaseOf(w).Owned() != Some(u) {
          assert s.PhaseOf(w).Owned() != Some(u);
        }
      }
    }
  }

  /** A worker that gives up what it owns, or owned nothing, and goes where it owns nothing. */
  lemma LeaveAgrees(registry: Registry, s: State, w: WorkerId, p: Phase)
    requires Agrees(registry, s) && p.Owned().None? && PhaseAgrees(registry, s, p) && PhaseOk(s, p)
    ensures Agrees(registry, s.At(w, p))
  {
    var after := s.At(w, p);
    MoveKeepsInv(s, w, p);
    hide Inv, Final, Startable;
    forall v: WorkerId ensures PhaseAgrees(registry, after, after.PhaseOf(v)) {
      assert PhaseAgrees(registry, s, s.PhaseOf(v));
    }
    forall u: TaskId ensures AnswerAgrees(registry, after, u) {
      assert AnswerAgrees(registry, s, u);
      if u in s.answered {
        forall v: WorkerId ensures after.PhaseOf(v).Owned() != Some(u) {
          assert s.PhaseOf(v).Owned() != Some(u);
        }
      }
    }
  }

  lemma OwnerIsAlone(s: State, w: WorkerId, t: TaskId)
    requires Inv(s) && s.PhaseOf(w).Owned() == Some(t)
    ensures forall v: WorkerId | v != w :: s.PhaseOf(v).Owned() != Some(t)
  {
  }

  lemma Released(s: State, after: State, w: WorkerId, t: TaskId)
    requires forall v: WorkerId | v != w :: s.PhaseOf(v).Owned() != Some(t) && after.PhaseOf(v) == s.PhaseOf(v)
    requires after.PhaseOf(w).Owned().None?
    ensures Unowned(after, t)
  {
  }

  lemma OwnedNotAnswered(registry: Registry, s: State, w: WorkerId, t: TaskId)
    requires Agrees(registry, s) && s.PhaseOf(w).Owned() == Some(t)
    ensures t !in s.answered
  {
    assert AnswerAgrees(registry, s, t);
  }

  lemma NeverWonIsFree(registry: Registry, s: State, t: TaskId)
    requires Agrees(registry, s) && Claimable(s.rows, t)
    ensures s.Wins(t) == 0 && s.Tries(t) == [] && t !in s.answered && Unowned(s, t)
  {
    assert TaskOk(s, t) && AnswerAgrees(registry, s, t);
    forall w: WorkerId ensures s.PhaseOf(w).Owned() != Some(t) {
      assert PhaseOk(s, s.PhaseOf(w));
    }
  }

  lemma WinMoves(registry: Registry, s: State, w: WorkerId, t: TaskId, text: string)
    requires Claimable(s.rows, t)
    ensures var row := s.rows[t].(status := Running);
            ClaimStep(registry, s, w, t, Answered, text)
            == s.(rows := s.rows[t := row], wins := s.wins[t := s.Wins(t) + 1],
                  phases := s.phases[w := Begin(registry, t, row)])
  {
    hide Begin;
  }

  lemma BeginAgrees(registry: Registry, s: State, t: TaskId, row: Row)
    requires t in s.rows && s.rows[t] == row && row.status == Running && s.Tries(t) == []
    ensures PhaseAgrees(registry, s, Begin(registry, t, row)) && Begin(registry, t, row).Owned() == Some(t)
  {
    hide ReportStage;
  }

  lemma WinEffect(registry: Registry, s: State, w: WorkerId, t: TaskId, text: string)
    requires Claimable(s.rows, t) && s.Tries(t) == [] && t !in s.answered
    ensures var after := ClaimStep(registry, s, w, t, Answered, text);
            && OnlyAt(s, after, w, t) && after.late == s.late && t !in after.answered
            && PhaseAgrees(registry, after, after.PhaseOf(w)) && after.PhaseOf(w).Owned() == Some(t)
  {
    var row := s.rows[t].(status := Running);
    var after := ClaimStep(registry, s, w, t, Answered, text);
    WinMoves(registry, s, w, t, text);
    hide Begin, ClaimStep, PhaseAgrees;
    BeginAgrees(registry, after, t, row);
  }

  lemma ClaimAgrees(registry: Registry, s: State, w: WorkerId, t: TaskId, text: string)
    requires Agrees(registry, s) && s.PhaseOf(w) == Claiming(t)
    ensures Agrees(registry, ClaimStep(registry, s, w, t, Answered, text))
  {
    if Claimable(s.rows, t) {
      NeverWonIsFree(registry, s, t);
      ClaimKeepsInv(registry, s, w, t, Answered, text);
      WinEffect(registry, s, w, t, text);
      hide Inv, Agrees, ClaimStep, PhaseAgrees;
      LocalAgrees(registry, s, ClaimStep(registry, s, w, t, Answered, text), w, t);
    } else {
      LeaveAgrees(registry, s, w, Acking(None));
    }
  }

  lemma TryAgrees(registry: Registry, s: State, w: WorkerId, p: Phase, a: Attempt)
    requires Agrees(registry, s) && s.PhaseOf(w) == p && p.Trying?
    ensures Agrees(registry, TryStep(s, w, p, a))
  {
    var after := TryStep(s, w, p, a);
    assert PhaseAgrees(registry, s, p);
    OwnerIsAlone(s, w, p.task);
    OwnedNotAnswered(registry, s, w, p.task);
    TryKeepsInv(s, w, p, a);
    hide Inv, Agrees, Final;
    LocalAgrees(registry, s, after, w, p.task);
  }

  /** The row as `execute` leaves it, if its write is answered. */
  function ClosedRow(registry: Registry, row: Row, last: Attempt): Row
    requires row.event in registry
  {
    row.(status := ClosingStatus(last), stage := registry[row.event], error := ClosingText(last))
  }

  lemma CloseGoes(registry: Registry, s: State, w: WorkerId, p: Phase, text: string)
    requires p.Closing? && p.row.event in registry && p.task in s.rows && s.rows[p.task] == p.row
    ensures var rows := s.rows[p.task := ClosedRow(registry, p.row, p.last)];
            CloseStep(registry, s, w, p, Answered, text)
            == if ClosingStatus(p.last) == Failed then
                 s.(rows := rows,
                    phases := s.phases[w := Reporting(p.task, Some(p.row), ReportStage(p.row.stage),
                                                      MessageOf(p.last))])
               else
                 s.(rows := rows, answered := s.answered[p.task := p.row],
                    phases := s.phases[w := Acking(Some(p.task))])
  {
    hide ClosingText, MessageOf, ReportStage;
  }

  lemma CloseIsLocal(registry: Registry, s: State, w: WorkerId, p: Phase, text: string)
    requires p.Closing? && p.row.event in registry && p.task in s.rows && s.rows[p.task] == p.row
    ensures var after := CloseStep(registry, s, w, p, Answered, text);
            OnlyAt(s, after, w, p.task) && after.late == s.late
  {
    CloseGoes(registry, s, w, p, text);
    hide CloseStep, ClosedRow, ClosingStatus, ReportStage, MessageOf;
  }

  /** What `execute` writes, in a state where the row is as the winner claimed it. */
  lemma CloseEffect(registry: Registry, s: State, w: WorkerId, p: Phase, text: string)
    requires p.Closing? && PhaseAgrees(registry, s, p) && PhaseOk(s, p)
    ensures var after := CloseStep(registry, s, w, p, Answered, text);
            && PhaseAgrees(registry, after, after.PhaseOf(w))
            && (p.task !in s.answered ==> ClosedWell(registry, s, after, w, p))
  {
    CloseGoes(registry, s, w, p, text);
    hide CloseStep, ReportStage;
  }

  ghost predicate ClosedWell(registry: Registry, s: State, after: State, w: WorkerId, p: Phase)
    requires p.Closing?
  {
    var t := p.task;
    if ClosingStatus(p.last) == Failed then
      after.PhaseOf(w).Owned() == Some(t) && t !in after.answered
    else
      && after.PhaseOf(w).Owned() == None
      && after.answered == s.answered[t := p.row] && p.row.status == Running
      && after.Tries(t) != [] && Ended(after.Tries(t))
      && t in after.rows && after.rows[t] == Final(registry, p.row, after.Tries(t)) && after.Wins(t) == 1
  }

  lemma CloseAgrees(registry: Registry, s: State, w: WorkerId, p: Phase, text: string)
    requires Agrees(registry, s) && s.PhaseOf(w) == p && p.Closing?
    ensures Agrees(registry, CloseStep(registry, s, w, p, Answered, text))
  {
    var after := CloseStep(registry, s, w, p, Answered, text);
    assert PhaseAgrees(registry, s, p) && PhaseOk(s, p);
    OwnerIsAlone(s, w, p.task);
    OwnedNotAnswered(registry, s, w, p.task);
    CloseKeepsInv(registry, s, w, p, Answered, text);
    CloseIsLocal(registry, s, w, p, text);
    CloseEffect(registry, s, w, p, text);
    hide Inv, Agrees, CloseStep, Final, PhaseAgrees, PhaseOk;
    if ClosingStatus(p.last) == Completed {
      Released(s, after, w, p.task);
    }
    LocalAgrees(registry, s, after, w, p.task);
  }

  lemma ReportEffect(registry: Registry, s: State, w: WorkerId, p: Phase)
    requires p.Reporting? && PhaseAgrees(registry, s, p) && PhaseOk(s, p)
    ensures var after := ReportStep(s, w, p, Answered);
            && OnlyAt(s, after, w, p.task) && after.late == s.late
            && after.PhaseOf(w) == Acking(Some(p.task)) && after.answered == s.answered[p.task := p.claimed.value]
            && p.task in after.rows && after.Wins(p.task) == 1
            && after.rows[p.task] == Final(registry, p.claimed.value, after.Tries(p.task))
            && p.claimed.value.status == Running
            && (after.Tries(p.task) == [] ==> !Startable(registry, p.claimed.value)) && Ended(after.Tries(p.task))
  {
    hide TaskOk, Exclusive, Startable;
  }

  lemma ReportAgrees(registry: Registry, s: State, w: WorkerId, p: Phase)
    requires Agrees(registry, s) && s.PhaseOf(w) == p && p.Reporting?
    ensures Agrees(registry, ReportStep(s, w, p, Answered))
  {
    var after := ReportStep(s, w, p, Answered);
    assert PhaseAgrees(registry, s, p) && PhaseOk(s, p);
    OwnerIsAlone(s, w, p.task);
    OwnedNotAnswered(registry, s, w, p.task);
    ReportKeepsInv(s, w, p, Answered);
    ReportEffect(registry, s, w, p);
    hide Inv, Agrees, ReportStep, Final, PhaseOk;
    Released(s, after, w, p.task);
    LocalAgrees(registry, s, after, w, p.task);
  }

  lemma StepAgrees(registry: Registry, s: State, e: Event)
    requires Agrees(registry, s) && Quiet(e)
    ensures Agrees(registry, Step(registry, s, e))
  {
    assert s.late == [];
    hide Agrees, ClaimStep, TryStep, CloseStep, ReportStep;
    match e {
      case Insert(t, row) =>
        if t !in s.rows { InsertAgrees(registry, s, t, row); }
      case Receive(w, message) =>
        LeaveAgrees(registry, s, w, if message.Some? then Claiming(message.value) else Acking(None));
      case Claim(w, _, text) =>
        if s.PhaseOf(w).Claiming? { ClaimAgrees(registry, s, w, s.PhaseOf(w).task, text); }
      case Try(w, a) =>
        if s.PhaseOf(w).Trying? { TryAgrees(registry, s, w, s.PhaseOf(w), a); }
      case Close(w, _, text) =>
        if s.PhaseOf(w).Closing? { CloseAgrees(registry, s, w, s.PhaseOf(w), text); }
      case Report(w, _) =>
        if s.PhaseOf(w).Reporting? { ReportAgrees(registry, s, w, s.PhaseOf(w)); }
      case Ack(w) => LeaveAgrees(registry, s, w, Idle);
      case Crash(w) => LeaveAgrees(registry, s, w, Idle);
      case Land(_) =>
      case Discard(_) =>
    }
  }

  lemma {:induction false} RunAgrees(registry: Registry, s: State, es: seq<Event>)
    requires Agrees(registry, s) && AllQuiet(es)
    ensures Agrees(registry, Run(registry, s, es))
  {
    hide Agrees, Step, Quiet;
    if es == [] {
    } else {
      RunAgrees(registry, s, es[..|es| - 1]);
      StepAgrees(registry, Run(registry, s, es[..|es| - 1]), es[|es| - 1]);
    }
  }

  lemma InitialAgrees(registry: Registry, s: State)
    requires Initial(s)
    ensures Agrees(registry, s)
  {
  }

  /** Some call ended the attempts without an `Exception`, and only transient failures came before it. */
  ghost predicate Succeeded(tries: seq<Attempt>, a: Attempt) {
    exists k | 0 <= k < |tries| :: tries[k] == a && forall i | 0 <= i < k :: tries[i].Transient?
  }

  lemma LastDecides(tries: seq<Attempt>, a: Attempt)
    requires Tried(tries) && !a.Transient?
    ensures Succeeded(tries, a) <==> tries != [] && tries[|tries| - 1] == a
  {
  }

  /**
    * The failed row names what the winner ran into: a row it could not use, or the last failure of the
    * handler, which if transient was the third.
    */
  predicate FailedAsSeen(registry: Registry, row: Row, claimed: Row, tries: seq<Attempt>) {
    if claimed.defect != "" then row.stage == "claim" && row.error == claimed.defect
    else
      && row.stage == StageOrClaim(claimed.stage)
      && if claimed.event !in registry
         then row.error == "No task handler registered for event_name=" + claimed.event
         else
           && tries != []
           && var last := tries[|tries| - 1];
           (last.Transient? && |tries| == 3 && row.error == last.message)
           || (last.Raised? && row.error == last.message)
  }

  /** The stage a failure is reported with: the row's, if it is one of the seven there are. */
  function StageOrClaim(stage: string): string {
    if stage == "init" || stage == "claim" || stage == "download_raw_data" || stage == "preprocessing"
       || stage == "backtesting" || stage == "buy_sell_mark" || stage == "similarity"
    then stage
    else "claim"
  }

  /**
    * In every quiet run, once a winner has gone on to acknowledge, and ever after, the row is
    * terminal. It is completed exactly when the row was fit to start and some handler call returned
    * after transient failures only, or was interrupted; then it bears the handler's stage and no
    * error. Every other end leaves it failed, with the stage it had when claimed and the last error.
    */
  lemma StatusAgreesAtAck(registry: Registry, s: State, es: seq<Event>, t: TaskId)
    requires Initial(s) && AllQuiet(es)
    requires t in Run(registry, s, es).answered
    ensures var now := Run(registry, s, es);
            var claimed := now.answered[t];
            && t in now.rows && claimed.status == Running
            && (now.rows[t].status == Completed || now.rows[t].status == Failed)
            && (now.rows[t].status == Completed <==>
                  && Startable(registry, claimed)
                  && (Succeeded(now.Tries(t), Returned) || Succeeded(now.Tries(t), Interrupted)))
            && (now.rows[t].status == Completed ==>
                  now.rows[t].stage == registry[claimed.event] && now.rows[t].error == "")
            && (now.rows[t].status == Failed ==> FailedAsSeen(registry, now.rows[t], claimed, now.Tries(t)))
  {
    var now := Run(registry, s, es);
    InitialAgrees(registry, s);
    RunAgrees(registry, s, es);
    assert AnswerAgrees(registry, now, t) && TaskOk(now, t);
    LastDecides(now.Tries(t), Returned);
    LastDecides(now.Tries(t), Interrupted);
  }

  function Actor(e: Event): Option<WorkerId> {
    match e
    case Receive(w, _) => Some(w)
    case Claim(w, _, _) => Some(w)
    case Try(w, _) => Some(w)
    case Close(w, _, _) => Some(w)
    case Report(w, _) => Some(w)
    case Ack(w) => Some(w)
    case Crash(w) => Some(w)
    case _ => None
  }

  /**
    * In a quiet run only winners change rows: a step that changes an existing row is a claim that
    * wins it, or a step of the worker that owns it.
    */
  lemma OnlyWinnersWrite(registry: Registry, s: State, e: Event, t: TaskId)
    requires Agrees(registry, s) && Quiet(e) && t in s.rows
    requires t !in Step(registry, s, e).rows || Step(registry, s, e).rows[t] != s.rows[t]
    ensures Actor(e).Some?
    ensures var p := s.PhaseOf(Actor(e).value);
            p.Owned() == Some(t) || (p == Claiming(t) && s.rows[t].status == Pending)
  {
    if Actor(e).Some? {
      assert PhaseAgrees(registry, s, s.PhaseOf(Actor(e).value));
    }
    assert s.late == [];
    hide Agrees, Inv, Final, TryStep;
    if e.Try? && s.PhaseOf(e.worker).Trying? {
      TryKeepsRows(s, e.worker, e.attempt);
    }
  }

  /** No worker is at work on a row that runs: its winner crashed. */
  ghost predicate Stranded(s: State, t: TaskId) {
    t in s.rows && s.rows[t].status == Running && Unowned(s, t)
  }

  lemma StepKeepsStranded(registry: Registry, s: State, e: Event, t: TaskId)
    requires Agrees(registry, s) && Quiet(e) && Stranded(s, t)
    ensures Stranded(Step(registry, s, e), t) && Step(registry, s, e).rows[t] == s.rows[t]
  {
    var after := Step(registry, s, e);
    if t !in after.rows || after.rows[t] != s.rows[t] {
      OnlyWinnersWrite(registry, s, e, t);
    }
    forall w: WorkerId ensures after.PhaseOf(w).Owned() != Some(t) {
      NoNewOwner(registry, s, e, w, t);
    }
  }

  lemma OwnerStays(registry: Registry, s: State, w: WorkerId, p: Phase, a: Attempt, reply: Reply, text: string)
    ensures p.Trying? ==> TryStep(s, w, p, a).PhaseOf(w).Owned() == p.Owned()
    ensures p.Closing? ==>
              CloseStep(registry, s, w, p, reply, text).PhaseOf(w).Owned() in {p.Owned(), None}
    ensures p.Reporting? ==> ReportStep(s, w, p, reply).PhaseOf(w).Owned() == None
  {
    hide Called, WriteEffect;
  }

  lemma EffectsKeepPhases(s: State, t: TaskId, status: Status, stage: string, error: string, d: Deferred, reply: Reply)
    ensures ClaimEffect(s, t).phases == s.phases && WriteEffect(s, t, status, stage, error).phases == s.phases
    ensures Called(s, ClaimEffect(s, t), d, reply).phases == s.phases
    ensures Called(s, WriteEffect(s, t, status, stage, error), d, reply).phases == s.phases
  {
  }

  lemma OtherStays(registry: Registry, s: State, v: WorkerId, p: Phase, a: Attempt, reply: Reply, text: string,
                   w: WorkerId)
    requires v != w
    ensures p.Claiming? ==> ClaimStep(registry, s, v, p.task, reply, text).PhaseOf(w) == s.PhaseOf(w)
    ensures p.Trying? ==> TryStep(s, v, p, a).PhaseOf(w) == s.PhaseOf(w)
    ensures p.Closing? ==> CloseStep(registry, s, v, p, reply, text).PhaseOf(w) == s.PhaseOf(w)
    ensures p.Reporting? ==> ReportStep(s, v, p, reply).PhaseOf(w) == s.PhaseOf(w)
  {
    hide Called, WriteEffect, ClaimEffect, Begin, ReportStage, ClosingStatus, ClosingText, MessageOf;
    match p {
      case Claiming(t) => EffectsKeepPhases(s, t, Failed, "", "", LateClaim(t), reply);
      case Closing(t, row, last) =>
        var stage := if row.event in registry then registry[row.event] else CLAIM_STAGE;
        EffectsKeepPhases(s, t, ClosingStatus(last), stage, ClosingText(last),
                          LateWrite(t, ClosingStatus(last), stage, ClosingText(last)), reply);
      case Reporting(t, _, stage, message) =>
        EffectsKeepPhases(s, t, Failed, stage, message, LateWrite(t, Failed, stage, message), reply);
      case _ =>
    }
  }

  lemma LandedKeepsPhases(s: State, d: Deferred)
    ensures Landed(s, d).phases == s.phases
  {
    hide Claimable;
  }

  lemma RestStays(registry: Registry, s: State, e: Event, w: WorkerId)
    requires Actor(e) != Some(w) && !IsCall(e)
    ensures Step(registry, s, e).PhaseOf(w) == s.PhaseOf(w)
  {
    hide ClaimStep, TryStep, CloseStep, ReportStep, Landed;
    if e.Land? && e.index < |s.late| { LandedKeepsPhases(s, s.late[e.index]); }
  }

  lemma OthersStay(registry: Registry, s: State, e: Event, w: WorkerId)
    requires Actor(e) != Some(w)
    ensures Step(registry, s, e).PhaseOf(w) == s.PhaseOf(w)
  {
    hide ClaimStep, TryStep, CloseStep, ReportStep, Landed;
    match e {
      case Claim(v, reply, text) => OtherStays(registry, s, v, s.PhaseOf(v), Returned, reply, text, w);
      case Try(v, a) => OtherStays(registry, s, v, s.PhaseOf(v), a, Answered, "", w);
      case Close(v, reply, text) => OtherStays(registry, s, v, s.PhaseOf(v), Returned, reply, text, w);
      case Report(v, reply) => OtherStays(registry, s, v, s.PhaseOf(v), Returned, reply, "", w);
      case _ => RestStays(registry, s, e, w);
    }
  }

  lemma NoNewOwner(registry: Registry, s: State, e: Event, w: WorkerId, t: TaskId)
    requires Quiet(e) && s.late == [] && t in s.rows && s.rows[t].status != Pending
    requires s.PhaseOf(w).Owned() != Some(t)
    ensures Step(registry, s, e).PhaseOf(w).Owned() != Some(t)
  {
    if Actor(e) != Some(w) {
      OthersStay(registry, s, e, w);
    } else {
      hide TryStep, CloseStep, ReportStep;
      match e {
        case Try(_, a) => OwnerStays(registry, s, w, s.PhaseOf(w), a, Answered, "");
        case Close(_, reply, text) => OwnerStays(registry, s, w, s.PhaseOf(w), Returned, reply, text);
        case Report(_, reply) => OwnerStays(registry, s, w, s.PhaseOf(w), Returned, reply, "");
        case _ =>
      }
    }
  }

  /**
    * A message is acknowledged or delivered again, but the row of a crashed winner stays running
    * for good: in no quiet continuation does any delivery change it.
    */
  lemma {:induction false} StrandedForGood(registry: Registry, s: State, es: seq<Event>, t: TaskId)
    requires Agrees(registry, s) && AllQuiet(es) && Stranded(s, t)
    ensures Stranded(Run(registry, s, es), t) && Run(registry, s, es).rows[t] == s.rows[t]
  {
    hide Agrees, Stranded, Step, Quiet;
    if es == [] {
    } else {
      RunAgrees(registry, s, es[..|es| - 1]);
      StrandedForGood(registry, s, es[..|es| - 1], t);
      StepKeepsStranded(registry, Run(registry, s, es[..|es| - 1]), es[|es| - 1], t);
    }
  }

  /** A crash leaves the row of a won task stranded exactly if it is still running then. */
  lemma CrashStrands(registry: Registry, s: State, w: WorkerId, t: TaskId)
    requires Agrees(registry, s) && s.PhaseOf(w).Owned() == Some(t)
    ensures t in s.rows && (Stranded(Step(registry, s, Crash(w)), t) <==> s.rows[t].status == Running)
    ensures s.PhaseOf(w).Trying? || s.PhaseOf(w).Closing? ==> Stranded(Step(registry, s, Crash(w)), t)
  {
    OwnerIsAlone(s, w, t);
    Released(s, Step(registry, s, Crash(w)), w, t);
    assert PhaseAgrees(registry, s, s.PhaseOf(w));
    hide Agrees, Inv, Final;
  }

  // ----- how a winner leaves its task -----

  /** The worker won `t` and is at work on it, or done with it and about to acknowledge. */
  predicate Holds(s: State, w: WorkerId, t: TaskId) {
    s.PhaseOf(w).Owned() == Some(t) || s.PhaseOf(w) == Acking(Some(t))
  }

  lemma StepHolds(registry: Registry, s: State, e: Event, w: WorkerId, t: TaskId)
    requires Holds(s, w, t) && e != Ack(w) && e != Crash(w)
    ensures Holds(Step(registry, s, e), w, t)
  {
    if Actor(e) != Some(w) {
      OthersStay(registry, s, e, w);
    } else {
      hide ClaimStep, TryStep, CloseStep, ReportStep;
      var p := s.PhaseOf(w);
      match e {
        case Try(_, a) => OwnerGoesOn(registry, s, w, p, a, Answered, "");
        case Close(_, reply, text) => OwnerGoesOn(registry, s, w, p, Returned, reply, text);
        case Report(_, reply) => OwnerGoesOn(registry, s, w, p, Returned, reply, "");
        case _ =>
      }
    }
  }

  lemma OwnerGoesOn(registry: Registry, s: State, w: WorkerId, p: Phase, a: Attempt, reply: Reply, text: string)
    ensures p.Trying? ==> Holds(TryStep(s, w, p, a), w, p.task)
    ensures p.Closing? ==> Holds(CloseStep(registry, s, w, p, reply, text), w, p.task)
    ensures p.Reporting? && p.claimed.Some? ==> Holds(ReportStep(s, w, p, reply), w, p.task)
  {
    hide Called, WriteEffect;
  }

  /**
    * A claim that takes effect and is answered hands its worker the task, and from then on, whatever
    * anyone does and whichever calls raise, the worker leaves it only by acknowledging as its winner or
    * by crashing.
    */
  lemma {:induction false} WinnerLeavesByAck(registry: Registry, s: State, es: seq<Event>, w: WorkerId, t: TaskId,
                                             text: string)
    requires s.PhaseOf(w) == Claiming(t) && Claimable(s.rows, t)
    requires Ack(w) !in es && Crash(w) !in es
    ensures Holds(Run(registry, Step(registry, s, Claim(w, Answered, text)), es), w, t)
    decreases |es|
  {
    var won := Step(registry, s, Claim(w, Answered, text));
    if es == [] {
      hide Inv;
    } else {
      hide Step, Holds;
      var shorter := es[..|es| - 1];
      assert es[|es| - 1] in es;
      WinnerLeavesByAck(registry, s, shorter, w, t, text);
      StepHolds(registry, Run(registry, won, shorter), es[|es| - 1], w, t);
    }
  }
}
