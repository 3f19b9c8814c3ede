/**
  * How little it takes for a row to disagree with the outcome: a redelivery whose claim raises, or
  * a closing write that raises.
  */
module TaskHazards {
  import opened TaskProtocol
  import opened TaskSafety
  import opened TaskOutcome
  import opened Wrappers

  /** One more delivery of `t` to an idle worker, its claim ending under `reply`. */
  function Redelivery(w: WorkerId, t: TaskId, reply: Reply, text: string): seq<Event> {
    [Receive(w, Some(t)), Claim(w, reply, text), Report(w, Answered), Ack(w)]
  }

  lemma RunFour(registry: Registry, s: State, a: Event, b: Event, c: Event, d: Event)
    ensures Run(registry, s, [a, b, c, d])
            == Step(registry, Step(registry, Step(registry, Step(registry, s, a), b), c), d)
  {
    hide Step;
    assert [a, b, c, d][..3] == [a, b, c] && [a, b, c][..2] == [a, b] && [a, b][..1] == [a] && [a][..0] == [];
    assert Run(registry, s, [a]) == Step(registry, s, a);
    assert Run(registry, s, [a, b]) == Step(registry, Run(registry, s, [a]), b);
    assert Run(registry, s, [a, b, c]) == Step(registry, Run(registry, s, [a, b]), c);
  }

  lemma ClaimOfTaken(registry: Registry, s: State, w: WorkerId, t: TaskId, reply: Reply, text: string)
    requires !Claimable(s.rows, t)
    ensures var after := ClaimStep(registry, s, w, t, reply, text);
            && after.rows == s.rows
            && after.PhaseOf(w) == if reply == Answered then Acking(None) else Reporting(t, None, CLAIM_STAGE, text)
  {
  }

  lemma StrayReport(s: State, w: WorkerId, t: TaskId, text: string)
    requires s.PhaseOf(w) == Reporting(t, None, CLAIM_STAGE, text) && t in s.rows
    ensures var after := ReportStep(s, w, s.PhaseOf(w), Answered);
            && after.rows == s.rows[t := s.rows[t].(status := Failed, stage := CLAIM_STAGE, error := text)]
            && after.PhaseOf(w) == Acking(None)
  {
  }

  /**
    * A redelivery of an answered task leaves its row alone if the claim is answered. If the claim
    * raises, whatever it did, the row is failed with the text of that exception, even a completed one.
    */
  lemma RaisingClaimOverwrites(registry: Registry, s: State, w: WorkerId, t: TaskId, reply: Reply, text: string)
    requires Agrees(registry, s) && t in s.answered && s.PhaseOf(w) == Idle
    ensures var after := Run(registry, s, Redelivery(w, t, reply, text));
            && t in s.rows && t in after.rows && after.PhaseOf(w) == Idle
            && after.rows[t] == if reply == Answered then s.rows[t]
                                else s.rows[t].(status := Failed, stage := "claim", error := text)
  {
    assert AnswerAgrees(registry, s, t) && TaskOk(s, t);
    RunFour(registry, s, Receive(w, Some(t)), Claim(w, reply, text), Report(w, Answered), Ack(w));
    hide Agrees, Run, Final, ClaimStep, ReportStep;
    var received := s.At(w, Claiming(t));
    ClaimOfTaken(registry, received, w, t, reply, text);
    if reply != Answered {
      StrayReport(ClaimStep(registry, received, w, t, reply, text), w, t, text);
    }
  }

  predicate Effective(reply: Reply) {
    reply == Answered || reply == RaisedAfter
  }

  /** The text the closing write gives a failure. */
  function Reason(last: Attempt): string {
    match last
    case Transient(message) => "發生錯誤 [PermanentError]: " + message
    case Raised(kind, message) => "發生錯誤 [" + kind + "]: " + message
    case _ => ""
  }

  lemma StageIsListed(stage: string)
    ensures ReportStage(stage) == StageOrClaim(stage)
  {
  }

  lemma WrittenRow(s: State, d: Deferred, reply: Reply)
    requires d.LateWrite? && d.task in s.rows
    ensures var after := Called(s, WriteEffect(s, d.task, d.status, d.stage, d.error), d, reply);
            && d.task in after.rows && after.phases == s.phases
            && after.rows[d.task] == if Effective(reply)
                                     then s.rows[d.task].(status := d.status, stage := d.stage, error := d.error)
                                     else s.rows[d.task]
  {
  }

  /** The row and the phase a closing write leaves. */
  lemma ClosedRow(registry: Registry, s: State, w: WorkerId, t: TaskId, r: Reply, text: string)
    requires s.PhaseOf(w).Closing? && s.PhaseOf(w).task == t && t in s.rows && s.PhaseOf(w).row.event in registry
    ensures var after, p := Step(registry, s, Close(w, r, text)), s.PhaseOf(w);
            && t in after.rows
            && after.rows[t] == (if Effective(r)
                                 then s.rows[t].(status := ClosingStatus(p.last), stage := registry[p.row.event],
                                                 error := Reason(p.last))
                                 else s.rows[t])
            && after.PhaseOf(w) == if r != Answered then Reporting(t, Some(p.row), StageOrClaim(p.row.stage), text)
                                   else if ClosingStatus(p.last) == Failed
                                   then Reporting(t, Some(p.row), StageOrClaim(p.row.stage), MessageOf(p.last))
                                   else Acking(Some(t))
  {
    var p := s.PhaseOf(w);
    StageIsListed(p.row.stage);
    ReasonIsText(p.last);
    WrittenRow(s, LateWrite(t, ClosingStatus(p.last), registry[p.row.event], ClosingText(p.last)), r);
    hide ReportStage, StageOrClaim, ClaimStep, TryStep, ReportStep, Landed, MessageOf, ClosingText, Reason, Called,
         WriteEffect, ClosingStatus, Effective;
    assert Step(registry, s, Close(w, r, text)) == CloseStep(registry, s, w, p, r, text);
  }

  lemma ReasonIsText(last: Attempt)
    ensures Reason(last) == ClosingText(last)
  {
  }

  lemma ReportedRow(registry: Registry, s: State, w: WorkerId, t: TaskId, q: Reply)
    requires t in s.rows && (s.PhaseOf(w).Reporting? ==> s.PhaseOf(w).task == t)
    ensures var after, p := Step(registry, s, Report(w, q)), s.PhaseOf(w);
            && t in after.rows
            && after.rows[t] == if p.Reporting? && Effective(q)
                                then s.rows[t].(status := Failed, stage := p.stage, error := p.message)
                                else s.rows[t]
  {
  }

  lemma HeldWhileClosing(registry: Registry, s: State, w: WorkerId, t: TaskId)
    requires Agrees(registry, s) && s.PhaseOf(w).Closing? && s.PhaseOf(w).task == t
    ensures var claimed := s.PhaseOf(w).row;
            t in s.rows && s.rows[t] == claimed && claimed.status == Running && claimed.event in registry
  {
    assert PhaseAgrees(registry, s, s.PhaseOf(w));
  }

  /**
    * The row of a task whose handler returned, for every reply of the two writes: completed by the
    * closing write if that is answered, or took effect although it raised and the error report after it
    * did not; else failed with the text of the closing write's exception if the report took effect; else
    * as it was.
    */
  lemma CompletedNeedsItsWrite(registry: Registry, s: State, w: WorkerId, t: TaskId, r: Reply, text: string, q: Reply)
    requires Agrees(registry, s) && s.PhaseOf(w).Closing? && s.PhaseOf(w).task == t && s.PhaseOf(w).last.Returned?
    ensures var after := Step(registry, Step(registry, s, Close(w, r, text)), Report(w, q));
            var claimed := s.PhaseOf(w).row;
            && t in s.rows && t in after.rows && s.rows[t] == claimed && claimed.status == Running
            && claimed.event in registry
            && after.rows[t] ==
               if r == Answered || (r == RaisedAfter && !Effective(q))
               then claimed.(status := Completed, stage := registry[claimed.event], error := "")
               else if Effective(q)
               then claimed.(status := Failed, stage := StageOrClaim(claimed.stage), error := text)
               else claimed
  {
    HeldWhileClosing(registry, s, w, t);
    ClosedRow(registry, s, w, t, r, text);
    ReportedRow(registry, Step(registry, s, Close(w, r, text)), w, t, q);
    hide Agrees, Step, StageOrClaim;
  }

  /**
    * The row of a task whose handler failed for good: by the error report if that took effect, with the
    * message of the failure, or of the closing write if that raised; by the closing write if only that
    * did, with its own text; else as it was.
    */
  lemma FailureNeedsOneWrite(registry: Registry, s: State, w: WorkerId, t: TaskId, r: Reply, text: string, q: Reply)
    requires Agrees(registry, s) && s.PhaseOf(w).Closing? && s.PhaseOf(w).task == t
    requires s.PhaseOf(w).last.Transient? || s.PhaseOf(w).last.Raised?
    ensures var after := Step(registry, Step(registry, s, Close(w, r, text)), Report(w, q));
            var last, claimed := s.PhaseOf(w).last, s.PhaseOf(w).row;
            && t in s.rows && t in after.rows && s.rows[t] == claimed && claimed.status == Running
            && claimed.event in registry
            && after.rows[t] ==
               if Effective(q)
               then claimed.(status := Failed, stage := StageOrClaim(claimed.stage),
                             error := if r == Answered then last.message else text)
               else if Effective(r)
               then claimed.(status := Failed, stage := registry[claimed.event], error := Reason(last))
               else claimed
  {
    HeldWhileClosing(registry, s, w, t);
    ClosedRow(registry, s, w, t, r, text);
    ReportedRow(registry, Step(registry, s, Close(w, r, text)), w, t, q);
    hide Agrees, Step, StageOrClaim;
  }

  /**
    * A transaction left open lands later or never. A claim that raised and lands after all starts the row
    * although nobody works on it, unless the error report of that worker took effect before.
    */
  lemma LateClaimStrands(registry: Registry, s: State, w: WorkerId, t: TaskId, text: string, q: Reply)
    requires Inv(s) && s.late == [] && s.PhaseOf(w) == Claiming(t) && Claimable(s.rows, t)
    ensures var claimed := Step(registry, s, Claim(w, RaisedLate, text));
            var told := Step(registry, Step(registry, claimed, Report(w, q)), Ack(w));
            var landed, dropped := Step(registry, told, Land(0)), Step(registry, told, Discard(0));
            && claimed.rows == s.rows && t in told.rows && t in landed.rows && t in dropped.rows
            && told.rows[t] == (if Effective(q) then s.rows[t].(status := Failed, stage := "claim", error := text)
                                else s.rows[t])
            && landed.rows[t] == (if Effective(q) then told.rows[t] else s.rows[t].(status := Running))
            && dropped.rows == told.rows && |dropped.late| == |landed.late| == (if q == RaisedLate then 1 else 0)
            && (!Effective(q) ==> Stranded(landed, t))
  {
    var claimed := LateClaimed(registry, s, w, t, text);
    var reported := Step(registry, claimed, Report(w, q));
    LateReported(registry, claimed, w, t, text, q);
    hide Step, Inv;
    AckedState(registry, reported, w);
    LandedClaim(registry, s, Step(registry, reported, Ack(w)), w, t, q);
  }

  lemma LateClaimed(registry: Registry, s: State, w: WorkerId, t: TaskId, text: string) returns (claimed: State)
    requires s.late == [] && s.PhaseOf(w) == Claiming(t) && Claimable(s.rows, t)
    ensures claimed == Step(registry, s, Claim(w, RaisedLate, text))
    ensures claimed == s.(late := [LateClaim(t)], phases := s.phases[w := Reporting(t, None, "claim", text)])
  {
    claimed := Step(registry, s, Claim(w, RaisedLate, text));
  }

  lemma LateReported(registry: Registry, s: State, w: WorkerId, t: TaskId, text: string, q: Reply)
    requires s.PhaseOf(w) == Reporting(t, None, "claim", text) && t in s.rows && s.late == [LateClaim(t)]
    ensures Step(registry, s, Report(w, q)) ==
      s.(rows := if Effective(q)
                 then s.rows[t := s.rows[t].(status := Failed, stage := "claim", error := text)]
                 else s.rows,
         late := if q == RaisedLate then [LateClaim(t), LateWrite(t, Failed, "claim", text)] else [LateClaim(t)],
         phases := s.phases[w := Acking(None)])
  {
  }

  lemma AckedState(registry: Registry, s: State, w: WorkerId)
    requires s.PhaseOf(w) == Acking(None)
    ensures Step(registry, s, Ack(w)) == s.(phases := s.phases[w := Idle])
  {
  }

  lemma LandedClaim(registry: Registry, s: State, told: State, w: WorkerId, t: TaskId, q: Reply)
    requires Inv(s) && Claimable(s.rows, t) && t in told.rows
    requires told.late != [] && told.late[0] == LateClaim(t) && told.phases == s.phases[w := Idle]
    requires if Effective(q) then told.rows[t].status == Failed else told.rows == s.rows
    ensures var landed, dropped := Step(registry, told, Land(0)), Step(registry, told, Discard(0));
            && t in landed.rows && dropped.rows == told.rows && |dropped.late| == |landed.late| == |told.late| - 1
            && landed.rows[t] == (if Effective(q) then told.rows[t] else s.rows[t].(status := Running))
            && (!Effective(q) ==> Stranded(landed, t))
  {
    PendingIsUnowned(s, t);
    hide Inv;
    var landed := Step(registry, told, Land(0));
    forall v: WorkerId ensures landed.PhaseOf(v).Owned() != Some(t) {
      assert s.PhaseOf(v).Owned() != Some(t);
      assert landed.phases == told.phases;
    }
  }

  lemma PendingIsUnowned(s: State, t: TaskId)
    requires Inv(s) && Claimable(s.rows, t)
    ensures Unowned(s, t)
  {
    assert TaskOk(s, t);
    assert forall w: WorkerId :: PhaseOk(s, s.PhaseOf(w));
  }
}
