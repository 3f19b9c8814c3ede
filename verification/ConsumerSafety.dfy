/**
  * What one worker's loop keeps: it is a run of the protocol, every message of a batch is
  * acknowledged or handed back, and which answers decide how it ends.
  */
module ConsumerSafety {
  import opened TaskProtocol
  import opened TaskSafety
  import opened TaskOutcome
  import opened ConsumerRun
  import opened Wrappers

  // ----- the loop as a run of the protocol -----

  /** The table is what the logged events make of `start`. */
  predicate Follows(c: Site, start: State, m: Machine) {
    m.state == Run(c.registry, start, m.log)
  }

  /** The messages `me` has received, in order. */
  function Received(me: WorkerId, es: seq<Event>): seq<Option<TaskId>> {
    if es == [] then []
    else
      var e := es[|es| - 1];
      Received(me, es[..|es| - 1]) + if e.Receive? && e.worker == me then [e.message] else []
  }

  lemma {:induction false} RunAppend(registry: Registry, s: State, a: seq<Event>, b: seq<Event>)
    ensures Run(registry, s, a + b) == Run(registry, Run(registry, s, a), b)
  {
    hide Step;
    if b == [] {
      assert a + b == a;
    } else {
      RunAppend(registry, s, a, b[..|b| - 1]);
      assert (a + b)[..|a + b| - 1] == a + b[..|b| - 1];
    }
  }

  lemma {:induction false} ReceivedAppend(me: WorkerId, a: seq<Event>, b: seq<Event>)
    ensures Received(me, a + b) == Received(me, a) + Received(me, b)
  {
    if b == [] {
      assert a + b == a;
    } else {
      ReceivedAppend(me, a, b[..|b| - 1]);
      assert (a + b)[..|a + b| - 1] == a + b[..|b| - 1];
    }
  }

  lemma {:induction false} ForeignStays(registry: Registry, s: State, me: WorkerId, es: seq<Event>)
    requires forall e | e in es :: Actor(e) != Some(me)
    ensures Run(registry, s, es).PhaseOf(me) == s.PhaseOf(me)
    ensures Received(me, es) == []
  {
    hide Step;
    if es == [] {
    } else {
      ForeignStays(registry, s, me, es[..|es| - 1]);
      OthersStay(registry, Run(registry, s, es[..|es| - 1]), es[|es| - 1], me);
    }
  }

  /** The status write that a worker in phase `p` is about to make. */
  predicate Writes(registry: Registry, p: Phase, t: TaskId, status: Status, stage: string, error: string) {
    match p
    case Closing(u, row, last) =>
      u == t && row.event in registry && stage == registry[row.event]
      && status == ClosingStatus(last) && error == ClosingText(last)
    case Reporting(u, _, s, message) => u == t && status == Failed && stage == s && error == message
    case _ => false
  }

  /** Where the worker stands after that write. */
  function Written(p: Phase, raised: Option<string>): Phase
    requires p.Closing? || p.Reporting?
  {
    if p.Reporting? then Acking(if p.claimed.Some? then Some(p.task) else None)
    else if raised.Some? then Reporting(p.task, Some(p.row), ReportStage(p.row.stage), raised.value)
    else if ClosingStatus(p.last) == Failed then
      Reporting(p.task, Some(p.row), ReportStage(p.row.stage), MessageOf(p.last))
    else Acking(Some(p.task))
  }

  lemma CloseMoves(registry: Registry, s: State, w: WorkerId, reply: Reply, text: string)
    requires s.PhaseOf(w).Closing?
    ensures Step(registry, s, Close(w, reply, text)).PhaseOf(w)
            == Written(s.PhaseOf(w), if reply == Answered then None else Some(text))
  {
  }

  lemma TryMoves(registry: Registry, s: State, w: WorkerId, a: Attempt)
    requires s.PhaseOf(w).Trying?
    ensures var p := s.PhaseOf(w);
            Step(registry, s, Try(w, a)).PhaseOf(w)
            == if a.Transient? && p.tried + 1 < MAX_ATTEMPTS then Trying(p.task, p.row, p.tried + 1)
               else Closing(p.task, p.row, a)
  {
  }

  lemma AckMoves(registry: Registry, s: State, w: WorkerId)
    requires s.PhaseOf(w).Acking?
    ensures forall e | e in {Ack(w), Crash(w)} ::
              Step(registry, s, e).PhaseOf(w) == Idle && Step(registry, s, e).answered == s.answered
  {
  }

  lemma ReportMoves(registry: Registry, s: State, w: WorkerId, reply: Reply)
    requires s.PhaseOf(w).Reporting?
    ensures Step(registry, s, Report(w, reply)).PhaseOf(w) == Written(s.PhaseOf(w), None)
    ensures Written(s.PhaseOf(w), None) == Written(s.PhaseOf(w), Some(""))
  {
    hide Called, WriteEffect;
  }

  /** What every piece of the loop does to a machine. */
  ghost predicate Goes(c: Site, m: Machine, n: Machine) {
    && m.calls <= n.calls && |m.log| <= |n.log| && m.log == n.log[..|m.log|]
    && (forall start: State :: Follows(c, start, m) ==> Follows(c, start, n))
  }

  /** Nothing was received in between. */
  predicate Silent(c: Site, m: Machine, n: Machine) {
    Received(c.me, n.log) == Received(c.me, m.log)
  }

  /** Nothing was told to the queue in between. */
  predicate Quietly(m: Machine, n: Machine) {
    n.acked == m.acked && n.handedBack == m.handedBack
  }

  /** The number of the call made last. */
  function LastCall(m: Machine): nat {
    if m.calls == 0 then 0 else m.calls - 1
  }

  lemma GoesOn(c: Site, m: Machine, n: Machine, r: Machine)
    requires Goes(c, m, n) && Goes(c, n, r)
    ensures Goes(c, m, r)
  {
    assert m.log == n.log[..|m.log|] == r.log[..|n.log|][..|m.log|];
  }

  lemma MeanwhileGoes(c: Site, m: Machine)
    ensures var n := Meanwhile(c, m);
            && Goes(c, m, n) && Silent(c, m, n) && Quietly(m, n) && n.calls == m.calls && Here(c, n) == Here(c, m)
  {
    var es := Foreign(c.me, c.world.others(m.calls));
    forall start: State | Follows(c, start, m) ensures Follows(c, start, Meanwhile(c, m)) {
      RunAppend(c.registry, start, m.log, es);
    }
    ForeignStays(c.registry, m.state, c.me, es);
    ReceivedAppend(c.me, m.log, es);
  }

  lemma PerformedGoes(c: Site, m: Machine, e: Event)
    requires Actor(e) == Some(c.me)
    ensures var n := Performed(c, m, e);
            && Goes(c, m, n) && Quietly(m, n)
            && Received(c.me, n.log) == Received(c.me, m.log) + if e.Receive? then [e.message] else []
  {
    forall start: State | Follows(c, start, m) ensures Follows(c, start, Performed(c, m, e)) {
      RunAppend(c.registry, start, m.log, [e]);
      assert Run(c.registry, m.state, [e]) == Step(c.registry, m.state, e);
    }
    ReceivedAppend(c.me, m.log, [e]);
  }

  lemma ClaimedGoes(c: Site, m: Machine, t: TaskId)
    ensures var n := Claimed(c, m, t).0; Goes(c, m, n) && Silent(c, m, n) && Quietly(m, n)
  {
    MeanwhileGoes(c, m);
    var n := Meanwhile(c, m);
    var (reply, text) := c.world.database(n.calls);
    PerformedGoes(c, n, Claim(c.me, reply, text));
    hide Goes, Meanwhile, Performed;
    GoesOn(c, m, n, Performed(c, n, Claim(c.me, reply, text)));
  }

  lemma UpdatedGoes(c: Site, m: Machine)
    ensures var n := Updated(c, m).0; Goes(c, m, n) && Silent(c, m, n) && Quietly(m, n)
  {
    MeanwhileGoes(c, m);
    var n := Meanwhile(c, m);
    var (reply, text) := c.world.database(n.calls);
    var e := if Here(c, n).Closing? then Close(c.me, reply, text) else Report(c.me, reply);
    PerformedGoes(c, n, e);
    hide Goes, Meanwhile, Performed;
    GoesOn(c, m, n, Performed(c, n, e));
  }

  lemma LookedGoes(c: Site, m: Machine)
    ensures Goes(c, m, Looked(m)) && Silent(c, m, Looked(m)) && Quietly(m, Looked(m))
  {
  }

  lemma {:induction false} AttemptsGo(c: Site, m: Machine, attempt: nat)
    ensures var n := Attempts(c, m, attempt).0; Goes(c, m, n) && Silent(c, m, n) && Quietly(m, n)
    decreases MAX_ATTEMPTS - attempt
  {
    MeanwhileGoes(c, m);
    var n := Meanwhile(c, m);
    var a := c.world.handler(n.calls);
    PerformedGoes(c, n, Try(c.me, a));
    var r := Performed(c, n, Try(c.me, a));
    hide Goes, Meanwhile, Performed;
    GoesOn(c, m, n, r);
    if a.Transient? && attempt + 1 < MAX_ATTEMPTS {
      LookedGoes(c, r);
      GoesOn(c, m, r, Looked(r));
      AttemptsGo(c, Looked(r), attempt + 1);
      GoesOn(c, m, Looked(r), Attempts(c, Looked(r), attempt + 1).0);
    }
  }

  lemma ExecutedTaskGoes(c: Site, m: Machine, row: Row)
    ensures var n := ExecutedTask(c, m, row).0; Goes(c, m, n) && Silent(c, m, n) && Quietly(m, n)
  {
    hide Goes, Attempts, Updated;
    GoesNowhere(c, m);
    if row.event in c.registry {
      AttemptsGo(c, m, 0);
      var n := Attempts(c, m, 0).0;
      UpdatedGoes(c, n);
      GoesOn(c, m, n, Updated(c, n).0);
    }
    var n := if row.event in c.registry then Executed(c, m).0 else m;
    UpdatedGoes(c, n);
    GoesOn(c, m, n, Updated(c, n).0);
  }

  lemma GoesNowhere(c: Site, m: Machine)
    ensures Goes(c, m, m)
  {
  }

  lemma PreparedGoes(c: Site, m: Machine, body: Option<TaskId>)
    ensures var n := Prepared(c, m, body).0;
            Goes(c, m, n) && Quietly(m, n) && Received(c.me, n.log) == Received(c.me, m.log) + [body]
  {
    PerformedGoes(c, m, Receive(c.me, body));
    hide Goes, Claimed, Updated, Performed;
    var n := Performed(c, m, Receive(c.me, body));
    if body.Some? {
      ClaimedGoes(c, n, body.value);
      var r := Claimed(c, n, body.value).0;
      GoesOn(c, m, n, r);
      UpdatedGoes(c, r);
      GoesOn(c, m, r, Updated(c, r).0);
    }
  }

  lemma AcknowledgedGoes(c: Site, m: Machine, id: AckId)
    ensures var (n, ok) := Acknowledged(c, m, id);
            && Goes(c, m, n) && Silent(c, m, n)
            && ok == c.world.acknowledged(LastCall(n))
            && n.acked == m.acked + (if ok then [id] else []) && n.handedBack == m.handedBack
  {
    MeanwhileGoes(c, m);
    var n := Meanwhile(c, m);
    PerformedGoes(c, n, Ack(c.me));
    PerformedGoes(c, n, Crash(c.me));
    GoesOn(c, m, n, Performed(c, n, Ack(c.me)));
    GoesOn(c, m, n, Performed(c, n, Crash(c.me)));
  }

  /** One message: received once, and acknowledged under its own id if the queue takes it. */
  lemma ProcessedGoes(c: Site, m: Machine, msg: Message)
    ensures var (n, end, _) := Processed(c, m, msg);
            && Goes(c, m, n) && m.calls < n.calls
            && Received(c.me, n.log) == Received(c.me, m.log) + [msg.body]
            && n.handedBack == m.handedBack
            && n.acked == m.acked + (if c.world.acknowledged(LastCall(n)) then [msg.ackId] else [])
            && (end == Normal ==> c.world.acknowledged(LastCall(n)))
  {
    hide Goes, Prepared, ExecutedTask, Acknowledged;
    PreparedGoes(c, m, msg.body);
    var (n, row) := Prepared(c, m, msg.body);
    if row.Some? {
      ExecutedTaskGoes(c, n, row.value);
      GoesOn(c, m, n, ExecutedTask(c, n, row.value).0);
    }
    var r := if row.Some? then ExecutedTask(c, n, row.value).0 else n;
    AcknowledgedGoes(c, r, msg.ackId);
    GoesOn(c, m, r, Acknowledged(c, r, msg.ackId).0);
    AcknowledgedCalls(c, r, msg.ackId);
    GoesForward(c, m, r);
  }

  lemma AcknowledgedCalls(c: Site, m: Machine, id: AckId)
    ensures Acknowledged(c, m, id).0.calls == m.calls + 1
  {
  }

  lemma GoesForward(c: Site, m: Machine, n: Machine)
    requires Goes(c, m, n)
    ensures m.calls <= n.calls
  {
  }

  // ----- delivery conservation -----

  lemma FirstOf(messages: seq<Message>, k: nat)
    requires messages != [] && k < |messages|
    ensures AckIds(messages[..k + 1]) == [messages[0].ackId] + AckIds(messages[1..][..k])
    ensures Bodies(messages[..k + 1]) == [messages[0].body] + Bodies(messages[1..][..k])
  {
  }

  /** How many of the messages taken up are acknowledged. */
  function Settled(c: Site, n: Machine, end: End, done: nat): nat {
    if end == Escaped && !c.world.acknowledged(LastCall(n)) && done > 0 then done - 1 else done
  }

  /** What the loop over a batch has done by its end. */
  predicate WorkDone(c: Site, m: Machine, n: Machine, messages: seq<Message>, end: End, done: nat) {
    && done <= |messages| && n.handedBack == m.handedBack
    && Received(c.me, n.log) == Received(c.me, m.log) + Bodies(messages[..done])
    && n.acked == m.acked + AckIds(messages[..Settled(c, n, end, done)])
    && (end == Escaped ==> done > 0)
    && (end == Normal && done < |messages| ==> c.world.stopping(LastCall(n)))
  }

  lemma WorkNext(c: Site, m: Machine, n: Machine, r: Machine, messages: seq<Message>, end: End, k: nat)
    requires messages != [] && WorkDone(c, n, r, messages[1..], end, k) && n.handedBack == m.handedBack
    requires Received(c.me, n.log) == Received(c.me, m.log) + [messages[0].body]
    requires n.acked == m.acked + [messages[0].ackId]
    ensures WorkDone(c, m, r, messages, end, k + 1)
  {
    hide AckIds, Bodies, Received;
    FirstOf(messages, k);
    FirstOf(messages, Settled(c, r, end, k));
  }

  lemma WorkOne(c: Site, m: Machine, n: Machine, messages: seq<Message>)
    requires messages != [] && n.handedBack == m.handedBack
    requires Received(c.me, n.log) == Received(c.me, m.log) + [messages[0].body]
    requires n.acked == m.acked + (if c.world.acknowledged(LastCall(n)) then [messages[0].ackId] else [])
    ensures WorkDone(c, m, n, messages, Escaped, 1)
  {
    hide Received;
    FirstOf(messages, 0);
    assert messages[..0] == [] && messages[1..][..0] == [];
  }

  lemma WorkNone(c: Site, m: Machine, n: Machine, messages: seq<Message>)
    requires Quietly(m, n) && Silent(c, m, n) && (messages != [] ==> c.world.stopping(LastCall(n)))
    ensures WorkDone(c, m, n, messages, Normal, 0)
  {
    hide Received;
  }

  /**
    * The loop over a batch. The messages it took up are received in order, each once. If it ends
    * normally, all of them are acknowledged, and some are left only because the signal was seen at
    * the last look; if it escapes, then at the last message taken up.
    */
  lemma {:induction false} WorkedConserves(c: Site, m: Machine, messages: seq<Message>)
    ensures var (n, end, done) := Worked(c, m, messages);
            Goes(c, m, n) && WorkDone(c, m, n, messages, end, done)
    decreases |messages|
  {
    hide Goes, Processed, WorkDone, Quietly, Silent;
    GoesNowhere(c, m);
    LookedGoes(c, m);
    if messages == [] {
      WorkNone(c, m, m, messages) by { Still(c, m); }
    } else if c.world.stopping(m.calls) {
      WorkNone(c, m, Looked(m), messages);
    } else {
      var look := Looked(m);
      var (n, end, won) := Processed(c, look, messages[0]);
      ProcessedGoes(c, look, messages[0]);
      GoesOn(c, m, look, n);
      if end == Escaped {
        WorkOne(c, m, n, messages);
      } else {
        var (r, e, k) := Worked(c, n, messages[1..]);
        WorkedConserves(c, n, messages[1..]);
        GoesOn(c, m, n, r);
        WorkNext(c, m, n, r, messages, e, k);
      }
    }
  }

  lemma Still(c: Site, m: Machine)
    ensures Quietly(m, m) && Silent(c, m, m)
  {
  }

  /**
    * A loop that escapes does so at the last message it took up, after all before it ended normally;
    * which answers make that message escape is the last clause of `ProcessedExactly`.
    */
  lemma {:induction false} WorkedEscapesAtLast(c: Site, m: Machine, messages: seq<Message>)
    requires Worked(c, m, messages).1 == Escaped
    ensures var (n, _, done) := Worked(c, m, messages);
            && 0 < done <= |messages|
            && var (q, end, k) := Worked(c, m, messages[..done - 1]);
            && end == Normal && k == done - 1 && !c.world.stopping(q.calls)
            && var (r, e, _) := Processed(c, Looked(q), messages[done - 1]);
            r == n && e == Escaped
    decreases |messages|
  {
    hide Processed;
    var (n, end, won) := Processed(c, Looked(m), messages[0]);
    if end == Escaped {
      assert messages[..0] == [];
    } else {
      WorkedEscapesAtLast(c, n, messages[1..]);
      var done := Worked(c, n, messages[1..]).2;
      assert messages[..done][1..] == messages[1..][..done - 1];
    }
  }

  /** Every id of the batch is told to the queue: the first `done` acknowledged, the rest handed back. */
  predicate Accounted(m: Machine, n: Machine, messages: seq<Message>, done: nat)
    requires done <= |messages|
  {
    && n.acked == m.acked + AckIds(messages[..done])
    && n.handedBack == m.handedBack + AckIds(messages[done..])
  }

  /**
    * Delivery conservation. The first `done` messages are received in order, each once, and the others
    * are not received at all. The acknowledged ids are those of the first `done` and the ids handed
    * back exactly the rest, if and only if nothing escaped, or an interrupt did after the last message
    * of the batch was acknowledged. A rest is left only because the signal was seen at the look before
    * the hand-back, or because something escaped.
    */
  lemma BatchConserves(c: Site, m: Machine, messages: seq<Message>)
    ensures var (n, end, done) := Batch(c, m, messages);
            && Goes(c, m, n)
            && Received(c.me, n.log) == Received(c.me, m.log) + Bodies(messages[..done])
            && (Accounted(m, n, messages, done)
                <==> end == Normal || (done == |messages| && c.world.acknowledged(LastCall(n))))
            && (end == Normal && done < |messages| ==> n.calls >= 2 && c.world.stopping(n.calls - 2))
  {
    hide Goes, Worked, Received;
    WorkedConserves(c, m, messages);
    var (n, end, done) := Worked(c, m, messages);
    LookedGoes(c, n);
    GoesOn(c, m, n, Looked(n));
    GoesTelling(c, m, Looked(n), n.handedBack + AckIds(messages[done..]));
    Partly(c, messages, done);
    StoppedAfterLook(c, m, messages);
    if done < |messages| {
      assert |AckIds(messages[done..])| > 0;
    }
  }

  lemma GoesTelling(c: Site, m: Machine, n: Machine, back: seq<AckId>)
    requires Goes(c, m, n)
    ensures Goes(c, m, n.(handedBack := back))
  {
    forall start: State | Follows(c, start, m) ensures Follows(c, start, n.(handedBack := back)) {
      assert Follows(c, start, n);
    }
  }

  lemma Partly(c: Site, messages: seq<Message>, done: nat)
    requires done <= |messages|
    ensures done > 0 ==> AckIds(messages[..done - 1]) != AckIds(messages[..done])
    ensures AckIds(messages[|messages|..]) == []
  {
    assert |AckIds(messages[..done])| == done;
  }

  lemma {:induction false} StoppedAfterLook(c: Site, m: Machine, messages: seq<Message>)
    ensures var (n, end, done) := Worked(c, m, messages);
            end == Normal && done < |messages| ==> n.calls > 0 && c.world.stopping(n.calls - 1)
    decreases |messages|
  {
    hide Processed;
    if messages != [] && !c.world.stopping(m.calls) {
      var (n, end, won) := Processed(c, Looked(m), messages[0]);
      if end == Normal {
        StoppedAfterLook(c, n, messages[1..]);
      }
    }
  }

  // ----- how it ends -----

  /** The queue takes every answer and no handler is interrupted. */
  ghost predicate Smooth(world: World) {
    forall n :: world.acknowledged(n) && world.returned(n) && !world.handler(n).Interrupted?
  }

  lemma {:induction false} AttemptsSmooth(c: Site, m: Machine, attempt: nat)
    requires Smooth(c.world)
    ensures !Attempts(c, m, attempt).1.Interrupted?
    decreases MAX_ATTEMPTS - attempt
  {
    hide Meanwhile, Performed;
    var n := Meanwhile(c, m);
    var a := c.world.handler(n.calls);
    if a.Transient? && attempt + 1 < MAX_ATTEMPTS {
      AttemptsSmooth(c, Looked(Performed(c, n, Try(c.me, a))), attempt + 1);
    }
  }

  lemma ProcessedSmooth(c: Site, m: Machine, msg: Message)
    requires Smooth(c.world)
    ensures Processed(c, m, msg).1 == Normal
  {
    hide Attempts, Updated, Prepared, Meanwhile, Performed;
    var (n, row) := Prepared(c, m, msg.body);
    AttemptsSmooth(c, n, 0);
  }

  lemma {:induction false} WorkedSmooth(c: Site, m: Machine, messages: seq<Message>)
    requires Smooth(c.world)
    ensures Worked(c, m, messages).1 == Normal
    decreases |messages|
  {
    hide Processed;
    if messages != [] && !c.world.stopping(m.calls) {
      ProcessedSmooth(c, Looked(m), messages[0]);
      WorkedSmooth(c, Processed(c, Looked(m), messages[0]).0, messages[1..]);
    }
  }

  lemma BatchSmooth(c: Site, m: Machine, messages: seq<Message>)
    ensures Smooth(c.world) ==> Batch(c, m, messages).1 == Normal
  {
    hide Worked;
    if Smooth(c.world) { WorkedSmooth(c, m, messages); }
  }

  /** Nothing escapes from a worker whose answers the queue takes and whose handlers are not interrupted. */
  lemma {:induction false} StartedSmooth(c: Site, m: Machine, pulls: seq<seq<Message>>)
    requires Smooth(c.world)
    ensures Started(c, m, pulls).1 == Normal
    decreases |pulls|
  {
    hide Worked;
    if pulls != [] && !c.world.stopping(m.calls) {
      WorkedSmooth(c, Looked(m), pulls[0]);
      StartedSmooth(c, Batch(c, Looked(m), pulls[0]).0, pulls[1..]);
    }
  }

  /**
    * The worker's life: whatever it pulled is acknowledged or handed back, as often as it was pulled,
    * unless something escaped; and it stops pulling only because the signal was seen at the last look
    * or something escaped.
    */
  lemma {:induction false} StartedConserves(c: Site, m: Machine, pulls: seq<seq<Message>>)
    ensures var (n, end, taken) := Started(c, m, pulls);
            && Goes(c, m, n)
            && (end == Normal ==>
                  multiset(n.acked) + multiset(n.handedBack)
                  == multiset(m.acked) + multiset(m.handedBack) + multiset(AckIds(Flatten(pulls[..taken]))))
            && (end == Normal && taken < |pulls| ==> c.world.stopping(LastCall(n)))
    decreases |pulls|
  {
    hide Goes, Batch, AckIds;
    GoesNowhere(c, m);
    LookedGoes(c, m);
    assert AckIds(Flatten(pulls[..0])) == [] by { NothingPulled(pulls); }
    if pulls != [] && !c.world.stopping(m.calls) {
      var look := Looked(m);
      var (n, end, done) := Batch(c, look, pulls[0]);
      BatchConserves(c, look, pulls[0]);
      GoesOn(c, m, look, n);
      if end == Normal {
        var (r, e, k) := Started(c, n, pulls[1..]);
        StartedConserves(c, n, pulls[1..]);
        GoesOn(c, m, n, r);
        FirstPulled(pulls, k, done);
        if e == Normal {
          Balance(m, n, r, AckIds(pulls[0][..done]), AckIds(pulls[0][done..]), AckIds(Flatten(pulls[1..][..k])));
        }
      }
    }
  }

  /**
    * A worker that something escapes from has ended with the batch that it escaped from, after all
    * before it ended normally and the signal was not seen.
    */
  lemma {:induction false} StartedEscapesAtLast(c: Site, m: Machine, pulls: seq<seq<Message>>)
    requires Started(c, m, pulls).1 == Escaped
    ensures var (n, _, taken) := Started(c, m, pulls);
            && 0 < taken <= |pulls|
            && var (q, end, k) := Started(c, m, pulls[..taken - 1]);
            && end == Normal && k == taken - 1 && !c.world.stopping(q.calls)
            && var (r, e, _) := Batch(c, Looked(q), pulls[taken - 1]);
            r == n && e == Escaped
    decreases |pulls|
  {
    hide Batch;
    var (n, end, done) := Batch(c, Looked(m), pulls[0]);
    if end == Escaped {
      assert pulls[..0] == [];
    } else {
      StartedEscapesAtLast(c, n, pulls[1..]);
      var taken := Started(c, n, pulls[1..]).2;
      assert pulls[..taken][1..] == pulls[1..][..taken - 1];
    }
  }

  lemma NothingPulled(pulls: seq<seq<Message>>)
    ensures AckIds(Flatten(pulls[..0])) == []
  {
  }

  lemma FirstPulled(pulls: seq<seq<Message>>, k: nat, done: nat)
    requires pulls != [] && k < |pulls| && done <= |pulls[0]|
    ensures AckIds(Flatten(pulls[..k + 1]))
            == (AckIds(pulls[0][..done]) + AckIds(pulls[0][done..])) + AckIds(Flatten(pulls[1..][..k]))
  {
    assert pulls[..k + 1][1..] == pulls[1..][..k];
    assert pulls[0][..done] + pulls[0][done..] == pulls[0];
    AckIdsSplit(pulls[0][..done], pulls[0][done..]);
    AckIdsSplit(pulls[0], Flatten(pulls[1..][..k]));
  }

  /** Acknowledging `x` and handing back `y` accounts for one more batch. */
  lemma Balance(m: Machine, n: Machine, r: Machine, x: seq<AckId>, y: seq<AckId>, rest: seq<AckId>)
    requires n.acked == m.acked + x && n.handedBack == m.handedBack + y
    requires multiset(r.acked) + multiset(r.handedBack)
             == multiset(n.acked) + multiset(n.handedBack) + multiset(rest)
    ensures multiset(r.acked) + multiset(r.handedBack)
            == multiset(m.acked) + multiset(m.handedBack) + multiset((x + y) + rest)
  {
    assert multiset(m.acked + x) == multiset(m.acked) + multiset(x);
    assert multiset(m.handedBack + y) == multiset(m.handedBack) + multiset(y);
    assert multiset((x + y) + rest) == multiset(x + y) + multiset(rest);
    assert multiset(x + y) == multiset(x) + multiset(y);
    Rearranged(multiset(m.acked), multiset(m.handedBack), multiset(x), multiset(y), multiset(rest));
  }

  lemma Rearranged(a: multiset<AckId>, b: multiset<AckId>, x: multiset<AckId>, y: multiset<AckId>, z: multiset<AckId>)
    ensures (a + x) + (b + y) + z == a + b + ((x + y) + z)
  {
  }

  // ----- the attempts -----

  /** The handler calls `me` has made, in order. */
  function Handled(me: WorkerId, es: seq<Event>): seq<Attempt> {
    if es == [] then []
    else
      var e := es[|es| - 1];
      Handled(me, es[..|es| - 1]) + if e.Try? && e.worker == me then [e.attempt] else []
  }

  lemma {:induction false} HandledAppend(me: WorkerId, a: seq<Event>, b: seq<Event>)
    ensures Handled(me, a + b) == Handled(me, a) + Handled(me, b)
  {
    if b == [] {
      assert a + b == a;
    } else {
      HandledAppend(me, a, b[..|b| - 1]);
      assert (a + b)[..|a + b| - 1] == a + b[..|b| - 1];
    }
  }

  lemma {:induction false} ForeignHandled(me: WorkerId, es: seq<Event>)
    requires forall e | e in es :: Actor(e) != Some(me)
    ensures Handled(me, es) == []
  {
    if es == [] {
    } else {
      ForeignHandled(me, es[..|es| - 1]);
      assert Actor(es[|es| - 1]) != Some(me);
    }
  }

  /** The answers of the handler to the calls from `base` on, with one call between two of them. */
  function Answers(world: World, base: nat, k: nat): seq<Attempt> {
    seq(k, i requires 0 <= i < k => world.handler(base + 2 * i))
  }

  /** The first answer that is not a transient failure, or the last of `limit`, is the `k`-th. */
  predicate EndsAt(world: World, base: nat, k: nat, limit: nat) {
    && 1 <= k <= limit
    && (forall i: nat | i < k - 1 :: world.handler(base + 2 * i).Transient?)
    && (world.handler(base + 2 * (k - 1)).Transient? ==> k == limit)
  }

  lemma OneTry(c: Site, m: Machine)
    ensures var n := Meanwhile(c, m);
            var r := Performed(c, n, Try(c.me, c.world.handler(n.calls)));
            && r.calls == m.calls + 1
            && Handled(c.me, r.log) == Handled(c.me, m.log) + [c.world.handler(m.calls)]
  {
    var es := Foreign(c.me, c.world.others(m.calls));
    HandledAppend(c.me, m.log, es);
    ForeignHandled(c.me, es);
    HandledAppend(c.me, m.log + es, [Try(c.me, c.world.handler(m.calls))]);
  }

  lemma MeanwhileCalls(c: Site, m: Machine)
    ensures Meanwhile(c, m).calls == m.calls
  {
  }

  lemma OneMoreAnswer(world: World, base: nat, k: nat, limit: nat)
    requires world.handler(base).Transient? && EndsAt(world, base + 2, k, limit)
    ensures EndsAt(world, base, k + 1, limit + 1)
    ensures Answers(world, base, k + 1) == [world.handler(base)] + Answers(world, base + 2, k)
    ensures base + 2 + 2 * (k - 1) == base + 2 * k
  {
    forall i: nat | i < k ensures world.handler(base + 2 * i).Transient? {
      assert i == 0 || world.handler((base + 2) + 2 * (i - 1)).Transient?;
    }
  }

  /**
    * The handler is called until it answers with something other than a transient failure, and at most
    * three times; the last answer is what the caller sees.
    */
  lemma {:induction false} AttemptsExactly(c: Site, m: Machine, attempt: nat) returns (k: nat)
    requires attempt < MAX_ATTEMPTS
    ensures EndsAt(c.world, m.calls, k, 3 - attempt)
    ensures var (n, last) := Attempts(c, m, attempt);
            && Handled(c.me, n.log) == Handled(c.me, m.log) + Answers(c.world, m.calls, k)
            && last == c.world.handler(m.calls + 2 * (k - 1))
    decreases MAX_ATTEMPTS - attempt
  {
    hide Handled, Performed, Meanwhile;
    OneTry(c, m);
    MeanwhileCalls(c, m);
    var n := Meanwhile(c, m);
    var a := c.world.handler(n.calls);
    var r := Performed(c, n, Try(c.me, a));
    if a.Transient? && attempt + 1 < MAX_ATTEMPTS {
      k := AttemptsExactly(c, Looked(r), attempt + 1);
      OneMoreAnswer(c.world, m.calls, k, 2 - attempt);
      k := k + 1;
    } else {
      k := 1;
      assert Answers(c.world, m.calls, 1) == [a];
    }
  }

  /** The shutdown signal cuts no attempt: under any two schedules of it the attempts are the same. */
  lemma {:induction false} SignalCutsNoAttempt(c: Site, d: Site, m: Machine, attempt: nat)
    requires d == c.(world := c.world.(stopping := d.world.stopping))
    ensures Attempts(d, m, attempt) == Attempts(c, m, attempt)
    decreases MAX_ATTEMPTS - attempt
  {
    hide Foreign, Run, Step;
    var n := Meanwhile(c, m);
    var a := c.world.handler(n.calls);
    if a.Transient? && attempt + 1 < MAX_ATTEMPTS {
      SignalCutsNoAttempt(c, d, Looked(Performed(c, n, Try(c.me, a))), attempt + 1);
    }
  }

  // ----- where the worker stands -----

  lemma ClaimedPhase(c: Site, m: Machine, t: TaskId)
    requires Here(c, m) == Claiming(t)
    ensures var (n, row, raised) := Claimed(c, m, t);
            var now := Meanwhile(c, m);
            && (raised.Some? ==> row.None? && Here(c, n) == Reporting(t, None, CLAIM_STAGE, raised.value))
            && (row.Some? ==> Here(c, n) == Begin(c.registry, t, row.value) && row.value.status == Running)
            && (raised.None? && row.None? ==> Here(c, n) == Acking(None))
            && (row.Some? <==> c.world.database(now.calls).0 == Answered && Claimable(now.state.rows, t))
  {
    MeanwhileGoes(c, m);
    hide Meanwhile, Begin, Goes;
  }

  lemma UpdatedPhase(c: Site, m: Machine)
    requires Here(c, m).Closing? || Here(c, m).Reporting?
    ensures var (n, raised) := Updated(c, m); Here(c, n) == Written(Here(c, m), raised)
  {
    MeanwhileGoes(c, m);
    var n := Meanwhile(c, m);
    var (reply, text) := c.world.database(n.calls);
    if Here(c, m).Closing? {
      CloseMoves(c.registry, n.state, c.me, reply, text);
    } else {
      ReportMoves(c.registry, n.state, c.me, reply);
    }
    hide Meanwhile, Goes, Step;
  }

  lemma {:induction false} AttemptsPhase(c: Site, m: Machine, t: TaskId, row: Row, attempt: nat)
    requires attempt < MAX_ATTEMPTS && Here(c, m) == Trying(t, row, attempt)
    ensures var (n, last) := Attempts(c, m, attempt); Here(c, n) == Closing(t, row, last)
    decreases MAX_ATTEMPTS - attempt
  {
    MeanwhileGoes(c, m);
    var n := Meanwhile(c, m);
    var a := c.world.handler(n.calls);
    TryMoves(c.registry, n.state, c.me, a);
    hide Meanwhile, Goes, Step;
    if a.Transient? && attempt + 1 < MAX_ATTEMPTS {
      AttemptsPhase(c, Looked(Performed(c, n, Try(c.me, a))), t, row, attempt + 1);
    }
  }

  lemma ExecutedPhase(c: Site, m: Machine, t: TaskId, row: Row)
    requires Here(c, m) == Trying(t, row, 0)
    ensures var (n, raised, interrupted) := Executed(c, m);
            && (raised.Some? ==>
                 && !interrupted
                 && Here(c, n) == Reporting(t, Some(row), ReportStage(row.stage), raised.value))
            && (raised.None? ==> Here(c, n) == Acking(Some(t)))
  {
    AttemptsPhase(c, m, t, row, 0);
    UpdatedPhase(c, Attempts(c, m, 0).0);
    hide Attempts, Updated;
  }

  lemma ExecutedTaskPhase(c: Site, m: Machine, t: TaskId, row: Row)
    requires Here(c, m) == Begin(c.registry, t, row) && row.defect == ""
    ensures Here(c, ExecutedTask(c, m, row).0) == Acking(Some(t))
  {
    if row.event in c.registry {
      ExecutedPhase(c, m, t, row);
      var n := Executed(c, m).0;
      if Executed(c, m).1.Some? {
        UpdatedPhase(c, n);
      }
    } else {
      UpdatedPhase(c, m);
    }
    hide Executed, Updated;
  }

  /** The claim of this message takes effect. */
  predicate Wins(c: Site, m: Machine, body: Option<TaskId>) {
    body.Some? &&
    var now := Meanwhile(c, Performed(c, m, Receive(c.me, body)));
    c.world.database(now.calls).0 == Answered && Claimable(now.state.rows, body.value)
  }

  lemma PreparedPhase(c: Site, m: Machine, body: Option<TaskId>)
    requires Here(c, m) == Idle
    ensures var (n, row) := Prepared(c, m, body);
            && (row.Some? ==> body.Some? && Wins(c, m, body) && row.value.defect == ""
                              && Here(c, n) == Begin(c.registry, body.value, row.value))
            && (row.None? ==> Here(c, n) == Acking(if Wins(c, m, body) then body else None))
  {
    var n := Performed(c, m, Receive(c.me, body));
    if body.Some? {
      ClaimedPhase(c, n, body.value);
      var (r, row, raised) := Claimed(c, n, body.value);
      if Here(c, r).Reporting? {
        UpdatedPhase(c, r);
      }
      hide Claimed, Updated, Meanwhile;
    }
  }

  lemma AcknowledgedPhase(c: Site, m: Machine, id: AckId)
    requires Here(c, m).Acking?
    ensures Here(c, Acknowledged(c, m, id).0) == Idle
  {
    MeanwhileGoes(c, m);
    AckMoves(c.registry, Meanwhile(c, m).state, c.me);
    hide Meanwhile, Goes, Step;
  }

  /**
    * A delivery wins its task exactly when its claim takes effect, and ends where it began, with the
    * worker idle. An exception escapes exactly when the acknowledgement fails, or when the handler was
    * interrupted and the closing write is answered.
    */
  lemma ProcessedExactly(c: Site, m: Machine, msg: Message)
    requires Here(c, m) == Idle
    ensures var (n, end, won) := Processed(c, m, msg);
            && Here(c, n) == Idle
            && won == (if Wins(c, m, msg.body) then msg.body else None)
            && (end == Escaped <==> !c.world.acknowledged(LastCall(n)) || InterruptPasses(c, m, msg.body))
  {
    hide Prepared, ExecutedTask, Wins, Begin;
    PreparedPhase(c, m, msg.body);
    var (n, row) := Prepared(c, m, msg.body);
    if row.Some? {
      ExecutedTaskPhase(c, n, msg.body.value, row.value);
      ExecutedTaskEnds(c, n, row.value);
    }
    var r := if row.Some? then ExecutedTask(c, n, row.value).0 else n;
    AcknowledgedPhase(c, r, msg.ackId);
    AcknowledgedGoes(c, r, msg.ackId);
    hide Acknowledged, Attempts, Goes;
  }

  /** The handler of a won, fit task is interrupted, and the write of its end does not raise over that. */
  predicate InterruptPasses(c: Site, m: Machine, body: Option<TaskId>) {
    var (n, row) := Prepared(c, m, body);
    && row.Some? && row.value.event in c.registry
    && var (r, last) := Attempts(c, n, 0);
    last.Interrupted? && c.world.database(r.calls).0 == Answered
  }

  lemma ExecutedTaskEnds(c: Site, m: Machine, row: Row)
    ensures ExecutedTask(c, m, row).1 == Escaped
            <==> row.event in c.registry
                 && var (r, last) := Attempts(c, m, 0);
                    last.Interrupted? && c.world.database(r.calls).0 == Answered
  {
    hide Attempts, Foreign, Run, Step;
  }

  // ----- the theorems of the protocol, for this program -----

  /** A run of this program among any other workers, from a table of any kind without history. */
  ghost predicate Runs(c: Site, m: Machine) {
    exists start: State :: Initial(start) && Follows(c, start, m)
  }

  /** Whatever the others do, the handler has been called at most three times for a task, after one claim. */
  lemma HandledAtMostOnce(c: Site, m: Machine, pulls: seq<seq<Message>>, t: TaskId)
    requires Runs(c, m)
    ensures var n := Started(c, m, pulls).0; n.state.Wins(t) <= 1 && |n.state.Tries(t)| <= 3
  {
    var start: State :| Initial(start) && Follows(c, start, m);
    StartedConserves(c, m, pulls);
    var n := Started(c, m, pulls).0;
    hide Started;
    assert Follows(c, start, n);
    AtMostOnce(c.registry, n.state, t);
  }

  /**
    * Whatever the others do, the row of a task a delivery won is settled by the time the message is
    * acknowledged, if all database calls were answered.
    */
  lemma WonRowIsSettled(c: Site, m: Machine, msg: Message)
    requires Runs(c, m) && Here(c, m) == Idle && msg.body.Some? && Wins(c, m, msg.body)
    ensures var t, after := msg.body.value, Processed(c, m, msg).0.state;
            AllQuiet(Processed(c, m, msg).0.log) ==>
              && t in after.answered && t in after.rows
              && (after.rows[t].status == Completed || after.rows[t].status == Failed)
              && (after.rows[t].status == Completed
                  <==> && Startable(c.registry, after.answered[t])
                       && (Succeeded(after.Tries(t), Returned) || Succeeded(after.Tries(t), Interrupted)))
  {
    var start: State :| Initial(start) && Follows(c, start, m);
    ProcessedGoes(c, m, msg);
    ProcessedAnswers(c, start, m, msg);
    var n := Processed(c, m, msg).0;
    hide Processed, Wins;
    assert Follows(c, start, n);
    if AllQuiet(n.log) {
      StatusAgreesAtAck(c.registry, start, n.log, msg.body.value);
    }
  }

  lemma AckingAnswers(c: Site, start: State, m: Machine, t: TaskId, id: AckId)
    requires Initial(start) && Follows(c, start, m) && Here(c, m) == Acking(Some(t))
    ensures t in Acknowledged(c, m, id).0.state.answered
  {
    MeanwhileGoes(c, m);
    var at := Meanwhile(c, m);
    assert Follows(c, start, at);
    AckMoves(c.registry, at.state, c.me);
    hide Meanwhile, Goes, Step, Run, Initial;
    assert Reachable(c.registry, at.state);
    AckedIsAnswered(c.registry, at.state, c.me);
  }

  lemma ProcessedAnswers(c: Site, start: State, m: Machine, msg: Message)
    requires Initial(start) && Follows(c, start, m) && Here(c, m) == Idle && msg.body.Some? && Wins(c, m, msg.body)
    ensures msg.body.value in Processed(c, m, msg).0.state.answered
  {
    hide Prepared, ExecutedTask, Acknowledged, Wins, Begin, Run, Initial;
    PreparedPhase(c, m, msg.body);
    PreparedGoes(c, m, msg.body);
    var (n, row) := Prepared(c, m, msg.body);
    if row.Some? {
      ExecutedTaskPhase(c, n, msg.body.value, row.value);
      ExecutedTaskGoes(c, n, row.value);
      AckingAnswers(c, start, ExecutedTask(c, n, row.value).0, msg.body.value, msg.ackId);
    } else {
      AckingAnswers(c, start, n, msg.body.value, msg.ackId);
    }
  }
}
