/** The worker as an object, checked against the loop described in ConsumerRun. */
module Consumer {
  import opened TaskProtocol
  import opened ConsumerRun
  import opened ConsumerSafety
  import opened Wrappers

  /** `list.remove`, guarded by `in`. */
  function RemoveFirst(ids: seq<AckId>, id: AckId): seq<AckId> {
    if ids == [] then []
    else if ids[0] == id then ids[1..]
    else [ids[0]] + RemoveFirst(ids[1..], id)
  }

  lemma Next(messages: seq<Message>, n: nat)
    requires n < |messages|
    ensures AckIds(messages[n..]) != [] && AckIds(messages[n..])[0] == messages[n].ackId
    ensures AckIds(messages[n..])[1..] == AckIds(messages[n + 1..])
  {
  }

  lemma Rest(messages: seq<Message>, n: nat)
    requires n <= |messages|
    ensures AckIds(messages[n..]) == [] <==> n == |messages|
  {
    assert |AckIds(messages[n..])| == |messages| - n;
  }

  lemma WorkedEmpty(c: Site, m: Machine, messages: seq<Message>)
    ensures messages == [] ==> Worked(c, m, messages) == (m, Normal, 0)
  {
  }

  lemma WorkedStep(c: Site, m: Machine, messages: seq<Message>)
    requires messages != []
    ensures Worked(c, m, messages)
            == if c.world.stopping(m.calls) then (Looked(m), Normal, 0)
               else
                 var (n, end, _) := Processed(c, Looked(m), messages[0]);
                 if end == Escaped then (n, Escaped, 1)
                 else var (r, e, k) := Worked(c, n, messages[1..]); (r, e, k + 1)
  {
    hide Processed;
  }

  lemma BatchAccounts(c: Site, m: Machine, messages: seq<Message>)
    ensures var (n, end, done) := Batch(c, m, messages);
            && (Smooth(c.world) ==> end == Normal)
            && (end == Normal ==>
                  && n.acked == m.acked + AckIds(messages[..done])
                  && n.handedBack == m.handedBack + AckIds(messages[done..]))
  {
    hide Batch, AckIds, Goes, Received;
    BatchConserves(c, m, messages);
    BatchSmooth(c, m, messages);
  }

  lemma StartedEmpty(c: Site, m: Machine, pulls: seq<seq<Message>>)
    ensures pulls == [] ==> Started(c, m, pulls) == (m, Normal, 0)
  {
  }

  lemma StartedStep(c: Site, m: Machine, pulls: seq<seq<Message>>)
    requires pulls != []
    ensures Started(c, m, pulls)
            == if c.world.stopping(m.calls) then (Looked(m), Normal, 0)
               else
                 var (n, end, _) := Batch(c, Looked(m), pulls[0]);
                 if end == Escaped then (n, Escaped, 1)
                 else var (r, e, k) := Started(c, n, pulls[1..]); (r, e, k + 1)
  {
    hide Batch;
  }

  class GCPMessageConsumer {
    const site: Site

    var state: State
    var calls: nat
    var inFlight: int
    var closed: bool
    var connected: bool
    var acked: seq<AckId>
    var handedBack: seq<AckId>
    ghost var log: seq<Event>

    constructor (site: Site, start: State)
      ensures this.site == site && Now() == Machine(start, 0, [], [], [])
      ensures inFlight == 0 && !closed && connected
    {
      this.site := site;
      state, calls, inFlight, closed, connected, acked, handedBack, log := start, 0, 0, false, true, [], [], [];
    }

    ghost function Now(): Machine
      reads this
    {
      Machine(state, calls, log, acked, handedBack)
    }

    function Stands(): Phase
      reads this
    {
      state.PhaseOf(site.me)
    }

    method Wait()
      modifies this`state, this`log
      ensures Now() == Meanwhile(site, old(Now()))
    {
      var es := Foreign(site.me, site.world.others(calls));
      state := Run(site.registry, state, es);
      log := log + es;
    }

    method Perform(e: Event)
      modifies this`state, this`calls, this`log
      ensures Now() == Performed(site, old(Now()), e)
    {
      state := Step(site.registry, state, e);
      calls := calls + 1;
      log := log + [e];
    }

    method DbClaimTask(t: TaskId) returns (row: Option<Row>, raised: Option<string>)
      requires Stands() == Claiming(t)
      modifies this`state, this`calls, this`log
      ensures (Now(), row, raised) == Claimed(site, old(Now()), t)
    {
      hide Meanwhile, Performed;
      Wait();
      var (reply, text) := site.world.database(calls);
      var free := Claimable(state.rows, t);
      var taken := if free then Some(state.rows[t].(status := Running)) else None;
      Perform(Claim(site.me, reply, text));
      if reply != Answered {
        return None, Some(text);
      }
      return taken, None;
    }

    /** What is written is what the worker owes at this point. */
    method UpdateTaskEvent(t: TaskId, status: Status, stage: string, error: string) returns (raised: Option<string>)
      requires Writes(site.registry, Stands(), t, status, stage, error)
      modifies this`state, this`calls, this`log
      ensures (Now(), raised) == Updated(site, old(Now()))
    {
      hide Meanwhile, Performed;
      Wait();
      var (reply, text) := site.world.database(calls);
      if Stands().Closing? {
        Perform(Event.Close(site.me, reply, text));
      } else {
        Perform(Report(site.me, reply));
      }
      return if reply == Answered then None else Some(text);
    }

    method HandleError(t: TaskId, stage: string, message: string)
      requires Stands().Reporting? && Stands().task == t && Stands().stage == stage && Stands().message == message
      modifies this`state, this`calls, this`log
      ensures Now() == Updated(site, old(Now())).0
    {
      var _ := UpdateTaskEvent(t, Failed, stage, message);
    }

    /** The handler is called until it ends in something other than a transient failure, three times at most. */
    method ExecuteWithRetry(t: TaskId, row: Row) returns (last: Attempt)
      modifies this`state, this`calls, this`log
      ensures (Now(), last) == Attempts(site, old(Now()), 0)
    {
      hide Meanwhile, Performed;
      var attempt, done := 0, false;
      last := Returned;
      while attempt < MAX_ATTEMPTS && !done
        decreases MAX_ATTEMPTS - attempt, !done
        invariant !done ==> attempt < MAX_ATTEMPTS
        invariant Attempts(site, old(Now()), 0) == if done then (Now(), last) else Attempts(site, Now(), attempt)
      {
        Wait();
        last := site.world.handler(calls);
        Perform(Try(site.me, last));
        if last.Transient? && attempt < MAX_ATTEMPTS - 1 {
          var cut := site.world.stopping(calls); // only logged
          calls := calls + 1;
          attempt := attempt + 1;
        } else {
          done := true;
        }
      }
    }

    method Execute(t: TaskId, row: Row) returns (raised: Option<string>, interrupted: bool)
      requires Stands() == Trying(t, row, 0) && row.event in site.registry
      modifies this`state, this`calls, this`log
      ensures (Now(), raised, interrupted) == Executed(site, old(Now()))
    {
      hide Attempts, Updated;
      AttemptsPhase(site, Now(), t, row, 0);
      var last := ExecuteWithRetry(t, row);
      var status, error := Completed, "";
      if last.Transient? || last.Raised? {
        status, error := Failed, ClosingText(last);
      }
      raised := UpdateTaskEvent(t, status, site.registry[row.event], error);
      interrupted := raised.None? && last.Interrupted?;
      if raised.None? && status == Failed {
        raised := Some(MessageOf(last));
      }
    }

    method ExecuteTaskEvent(t: TaskId, row: Row) returns (end: End)
      requires Stands() == Begin(site.registry, t, row) && row.defect == ""
      modifies this`state, this`calls, this`log, this`inFlight
      ensures (Now(), end) == ExecutedTask(site, old(Now()), row) && inFlight == old(inFlight)
    {
      hide Executed, Updated;
      var raised: Option<string>;
      var interrupted := false;
      inFlight := inFlight + 1;
      if row.event in site.registry {
        ExecutedPhase(site, Now(), t, row);
        raised, interrupted := Execute(t, row);
      } else {
        raised := Some(NoHandler(row.event));
      }
      inFlight := inFlight - 1;
      if raised.Some? {
        HandleError(t, ReportStage(row.stage), raised.value);
      }
      end := if interrupted then Escaped else Normal;
    }

    method PrepareTaskEvent(body: Option<TaskId>) returns (row: Option<Row>)
      requires Stands() == Idle
      modifies this`state, this`calls, this`log
      ensures (Now(), row) == Prepared(site, old(Now()), body)
    {
      hide Claimed, Updated;
      Perform(Receive(site.me, body));
      if body.None? {
        return None;
      }
      var raised: Option<string>;
      ClaimedPhase(site, Now(), body.value);
      row, raised := DbClaimTask(body.value);
      if raised.None? && row.Some? && row.value.defect != "" {
        raised := Some(row.value.defect);
      }
      if raised.Some? {
        HandleError(body.value, CLAIM_STAGE, raised.value);
        row := None;
      }
    }

    method AckMessage(id: AckId) returns (ok: bool)
      modifies this`state, this`calls, this`log, this`acked
      ensures (Now(), ok) == Acknowledged(site, old(Now()), id)
    {
      hide Meanwhile;
      Wait();
      ok := site.world.acknowledged(calls);
      if ok {
        acked := acked + [id];
        Perform(Ack(site.me));
      } else {
        Perform(Crash(site.me));
      }
    }

    /** The acknowledgement is sent however the handling ends; then the id leaves the pending ones. */
    method ProcessMessage(m: Message, pending: seq<AckId>) returns (end: End, left: seq<AckId>)
      requires Stands() == Idle && pending != [] && pending[0] == m.ackId
      modifies this`state, this`calls, this`log, this`inFlight, this`acked
      ensures Now() == Processed(site, old(Now()), m).0 && end == Processed(site, old(Now()), m).1
      ensures Stands() == Idle && inFlight == old(inFlight)
      ensures end == Normal ==> left == pending[1..]
    {
      hide Prepared, ExecutedTask, Acknowledged, Begin;
      PreparedPhase(site, Now(), m.body);
      ProcessedExactly(site, Now(), m);
      end := Normal;
      var row := PrepareTaskEvent(m.body);
      if row.Some? {
        end := ExecuteTaskEvent(m.body.value, row.value);
      }
      var ok := AckMessage(m.ackId);
      if ok {
        left := RemoveFirst(pending, m.ackId);
      } else {
        end, left := Escaped, pending;
      }
    }

    /** One pulled batch: the messages in order until the signal is seen or something escapes, then the hand-back. */
    method ProcessBatch(messages: seq<Message>) returns (end: End, done: nat)
      requires Stands() == Idle
      modifies this`state, this`calls, this`log, this`inFlight, this`acked, this`handedBack
      ensures (Now(), end, done) == Batch(site, old(Now()), messages)
      ensures Smooth(site.world) ==> end == Normal
      ensures done <= |messages| && (end == Normal ==>
                && acked == old(acked) + AckIds(messages[..done])
                && handedBack == old(handedBack) + AckIds(messages[done..]))
      ensures Stands() == Idle && inFlight == old(inFlight)
    {
      hide Processed, AckIds, Worked, Smooth;
      BatchAccounts(site, Now(), messages);
      var pending, stop := AckIds(messages), false;
      end, done := Normal, 0;
      assert messages[0..] == messages;
      while done < |messages| && end == Normal && !stop
        invariant Stands() == Idle && inFlight == old(inFlight) && done <= |messages|
        invariant end == Normal ==> pending == AckIds(messages[done..])
        invariant Worked(site, old(Now()), messages)
                  == if end == Escaped || stop then (Now(), end, done)
                     else var (n, e, k) := Worked(site, Now(), messages[done..]); (n, e, done + k)
        decreases |messages| - done, !stop
      {
        assert messages[done..][0] == messages[done] && messages[done..][1..] == messages[done + 1..];
        WorkedStep(site, Now(), messages[done..]);
        stop := site.world.stopping(calls);
        calls := calls + 1;
        if !stop {
          Next(messages, done);
          end, pending := ProcessMessage(messages[done], pending);
          done := done + 1;
        }
      }
      if end == Normal {
        Rest(messages, done);
        WorkedEmpty(site, Now(), messages[done..]);
      }
      if end == Normal && pending != [] {
        var ok := site.world.returned(calls);
        calls := calls + 1;
        if ok {
          handedBack := handedBack + pending;
        } else {
          end := Escaped;
        }
      }
    }

    /** Waits for the tasks in flight, then lets go of the subscriber; a second call does nothing. */
    method Close() returns (drained: bool)
      modifies this`closed, this`connected
      ensures closed && (!old(closed) ==> !connected) && (old(closed) ==> connected == old(connected))
      ensures drained <==> old(closed) || inFlight == 0
    {
      if closed {
        return true;
      }
      drained := inFlight == 0;
      connected := false;
      closed := true;
    }

    /** The worker's life over the batches it pulls; it ends closed, with nothing in flight. */
    method Start(pulls: seq<seq<Message>>) returns (end: End, taken: nat)
      requires Stands() == Idle && inFlight == 0 && !closed
      modifies this
      ensures (Now(), end, taken) == Started(site, old(Now()), pulls)
      ensures Smooth(site.world) ==> end == Normal
      ensures taken <= |pulls| && (end == Normal ==>
                multiset(acked) + multiset(handedBack)
                == multiset(old(acked)) + multiset(old(handedBack)) + multiset(AckIds(Flatten(pulls[..taken]))))
      ensures Stands() == Idle && inFlight == 0 && closed && !connected
    {
      hide Batch, AckIds, Flatten, Goes, Started;
      StartedConserves(site, Now(), pulls);
      if Smooth(site.world) { StartedSmooth(site, Now(), pulls); }
      var stop := false;
      end, taken := Normal, 0;
      assert pulls[0..] == pulls;
      while taken < |pulls| && end == Normal && !stop
        invariant Stands() == Idle && inFlight == 0 && !closed && taken <= |pulls|
        invariant Started(site, old(Now()), pulls)
                  == if end == Escaped || stop then (Now(), end, taken)
                     else var (n, e, k) := Started(site, Now(), pulls[taken..]); (n, e, taken + k)
        decreases |pulls| - taken, !stop
      {
        assert pulls[taken..][0] == pulls[taken] && pulls[taken..][1..] == pulls[taken + 1..];
        StartedStep(site, Now(), pulls[taken..]);
        stop := site.world.stopping(calls);
        calls := calls + 1;
        if !stop {
          var done;
          end, done := ProcessBatch(pulls[taken]);
          taken := taken + 1;
        }
      }
      StartedEmpty(site, Now(), pulls[taken..]);
      var _ := Close();
    }
  }
}
