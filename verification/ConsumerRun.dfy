/**
  * One worker's loop over pulled messages as a function of what the world answers. Other workers
  * change the table during each of its calls, and each call is logged as the protocol event it
  * amounts to, so what holds of every run of the protocol holds of this program.
  */
module ConsumerRun {
  import opened TaskProtocol
  import opened TaskOutcome
  import opened Wrappers

  type AckId = string

  /** A pulled message: `body` is the task it names, or nothing if it cannot be parsed. */
  datatype Message = Message(ackId: AckId, body: Option<TaskId>)

  /** The answer to the `n`-th call out of this worker, and what the others do just before it. */
  datatype World = World(
    others: nat -> seq<Event>,
    database: nat -> (Reply, string),
    handler: nat -> Attempt,
    acknowledged: nat -> bool,
    returned: nat -> bool,
    stopping: nat -> bool)

  datatype Site = Site(me: WorkerId, registry: Registry, world: World)

  /** The table with its history, the calls made so far, and what was told to the queue. */
  datatype Machine = Machine(state: State, calls: nat, log: seq<Event>, acked: seq<AckId>, handedBack: seq<AckId>)

  /** How a piece of the loop ends: an escaping exception ends the worker. */
  datatype End = Normal | Escaped

  /** The events of other workers, and the landing of transactions left open. */
  function Foreign(me: WorkerId, es: seq<Event>): (r: seq<Event>)
    ensures forall e | e in r :: Actor(e) != Some(me)
  {
    if es == [] then []
    else if Actor(es[0]) == Some(me) then Foreign(me, es[1..])
    else [es[0]] + Foreign(me, es[1..])
  }

  function Here(c: Site, m: Machine): Phase {
    m.state.PhaseOf(c.me)
  }

  // ----- single calls -----

  /** The rest of the system moves on while a call is under way. */
  function Meanwhile(c: Site, m: Machine): Machine {
    var es := Foreign(c.me, c.world.others(m.calls));
    m.(state := Run(c.registry, m.state, es), log := m.log + es)
  }

  /** This worker takes a step. */
  function Performed(c: Site, m: Machine, e: Event): Machine {
    m.(state := Step(c.registry, m.state, e), calls := m.calls + 1, log := m.log + [e])
  }

  /** A look at the shutdown signal. */
  function Looked(m: Machine): Machine {
    m.(calls := m.calls + 1)
  }

  /** `db_claim_task`: the row if this worker won it, nothing if nobody could, or the text of the exception. */
  function Claimed(c: Site, m: Machine, t: TaskId): (Machine, Option<Row>, Option<string>) {
    var n := Meanwhile(c, m);
    var (reply, text) := c.world.database(n.calls);
    var r := Performed(c, n, Claim(c.me, reply, text));
    if reply != Answered then (r, None, Some(text))
    else if Claimable(n.state.rows, t) then (r, Some(n.state.rows[t].(status := Running)), None)
    else (r, None, None)
  }

  /** `update_task_event`, from `execute` or from `handle_error`. */
  function Updated(c: Site, m: Machine): (Machine, Option<string>) {
    var n := Meanwhile(c, m);
    var (reply, text) := c.world.database(n.calls);
    var e := if Here(c, n).Closing? then Close(c.me, reply, text) else Report(c.me, reply);
    (Performed(c, n, e), if reply == Answered then None else Some(text))
  }

  // ----- the coordinator -----

  /** `_excute_with_retry` from an attempt on. The wait before the next one only looks at the signal. */
  function Attempts(c: Site, m: Machine, attempt: nat): (Machine, Attempt)
    decreases MAX_ATTEMPTS - attempt
  {
    var n := Meanwhile(c, m);
    var a := c.world.handler(n.calls);
    var r := Performed(c, n, Try(c.me, a));
    if a.Transient? && attempt + 1 < MAX_ATTEMPTS then Attempts(c, Looked(r), attempt + 1) else (r, a)
  }

  /** `execute`: what it raises, and whether an interrupt goes through. */
  function Executed(c: Site, m: Machine): (Machine, Option<string>, bool) {
    var (n, last) := Attempts(c, m, 0);
    var (r, raised) := Updated(c, n);
    if raised.Some? then (r, raised, false)
    else if ClosingStatus(last) == Failed then (r, Some(MessageOf(last)), false)
    else (r, None, last.Interrupted?)
  }

  // ----- the consumer -----

  /** `_execute_task_event`. */
  function ExecutedTask(c: Site, m: Machine, row: Row): (Machine, End) {
    var (n, raised, interrupted) :=
      if row.event in c.registry then Executed(c, m) else (m, Some(NoHandler(row.event)), false);
    (if raised.Some? then Updated(c, n).0 else n, if interrupted then Escaped else Normal)
  }

  /** `_prepare_task_event`. */
  function Prepared(c: Site, m: Machine, body: Option<TaskId>): (Machine, Option<Row>) {
    var n := Performed(c, m, Receive(c.me, body));
    if body.None? then (n, None)
    else
      var (r, row, raised) := Claimed(c, n, body.value);
      if raised.Some? || (row.Some? && row.value.defect != "") then (Updated(c, r).0, None) else (r, row)
  }

  function Acknowledged(c: Site, m: Machine, id: AckId): (Machine, bool) {
    var n := Meanwhile(c, m);
    if c.world.acknowledged(n.calls) then (Performed(c, n, Ack(c.me)).(acked := n.acked + [id]), true)
    else (Performed(c, n, Crash(c.me)), false)
  }

  /** `_process_message`, with the task this delivery won. */
  function Processed(c: Site, m: Machine, msg: Message): (Machine, End, Option<TaskId>) {
    var (n, row) := Prepared(c, m, msg.body);
    var (r, end) := if row.Some? then ExecutedTask(c, n, row.value) else (n, Normal);
    var (s, ok) := Acknowledged(c, r, msg.ackId);
    (s, if ok then end else Escaped, if Here(c, r).Acking? then Here(c, r).won else None)
  }

  /** The loop over a batch: how it ends and how many messages were taken up. */
  function Worked(c: Site, m: Machine, messages: seq<Message>): (r: (Machine, End, nat))
    ensures r.2 <= |messages|
    decreases |messages|
  {
    if messages == [] then (m, Normal, 0)
    else if c.world.stopping(m.calls) then (Looked(m), Normal, 0)
    else
      var (n, end, _) := Processed(c, Looked(m), messages[0]);
      if end == Escaped then (n, Escaped, 1)
      else
        var (r, e, k) := Worked(c, n, messages[1..]);
        (r, e, k + 1)
  }

  /** One pulled batch: the loop, then the hand-back of the rest. */
  function Batch(c: Site, m: Machine, messages: seq<Message>): (r: (Machine, End, nat))
    ensures r.2 <= |messages|
  {
    var (n, end, done) := Worked(c, m, messages);
    if end == Escaped || done == |messages| then (n, end, done)
    else if c.world.returned(n.calls) then
      (Looked(n).(handedBack := n.handedBack + AckIds(messages[done..])), Normal, done)
    else (Looked(n), Escaped, done)
  }

  /** The batches one after the other; a pull that times out or fails counts as empty. */
  function Started(c: Site, m: Machine, pulls: seq<seq<Message>>): (r: (Machine, End, nat))
    ensures r.2 <= |pulls|
    decreases |pulls|
  {
    if pulls == [] then (m, Normal, 0)
    else if c.world.stopping(m.calls) then (Looked(m), Normal, 0)
    else
      var (n, end, _) := Batch(c, Looked(m), pulls[0]);
      if end == Escaped then (n, Escaped, 1)
      else
        var (r, e, k) := Started(c, n, pulls[1..]);
        (r, e, k + 1)
  }

  // ----- ids -----

  function Bodies(messages: seq<Message>): seq<Option<TaskId>> {
    seq(|messages|, i requires 0 <= i < |messages| => messages[i].body)
  }

  function AckIds(messages: seq<Message>): seq<AckId> {
    seq(|messages|, i requires 0 <= i < |messages| => messages[i].ackId)
  }

  function Flatten(batches: seq<seq<Message>>): seq<Message> {
    if batches == [] then [] else batches[0] + Flatten(batches[1..])
  }

  lemma AckIdsSplit(a: seq<Message>, b: seq<Message>)
    ensures AckIds(a + b) == AckIds(a) + AckIds(b) && Bodies(a + b) == Bodies(a) + Bodies(b)
  {
  }
}
