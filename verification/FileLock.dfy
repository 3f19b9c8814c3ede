/**
  * The table of per-file locks with its eviction of idle entries, and what that eviction leaves of
  * mutual exclusion.
  */
module FileLock {

  type Path = string
  type Time = int

  /** Seconds without use after which an entry goes. */
  const TIMEOUT := 1800

  /** `L` is whatever tells lock objects apart. */
  datatype Table<L> = Table(locks: map<Path, L>, lastUsed: map<Path, Time>)
  {
    /** Both dictionaries have the same keys, or a deletion would raise. */
    predicate Valid() {
      locks.Keys == lastUsed.Keys
    }
  }

  predicate Expired(used: Time, now: Time) {
    now - used > TIMEOUT
  }

  /** The table after an eviction at `now`. */
  function Swept<L>(t: Table<L>, now: Time): Table<L>
    requires t.Valid()
  {
    Table(map p | p in t.locks && !Expired(t.lastUsed[p], now) :: t.locks[p],
          map p | p in t.lastUsed && !Expired(t.lastUsed[p], now) :: t.lastUsed[p])
  }

  /**
    * The table after a call that read the clock at `entered` and got the table at `now`; `spare` is
    * used if there is no lock.
    */
  function Fetched<L>(t: Table<L>, path: Path, spare: L, entered: Time, now: Time): (r: Table<L>)
    requires t.Valid()
    ensures r.Valid() && path in r.locks
  {
    var s := Swept(t, now);
    Table(if path in s.locks then s.locks else s.locks[path := spare], s.lastUsed[path := entered])
  }

  /** A lock object; only its identity matters. */
  class Lock {
    constructor () {
    }
  }

  class FileLocker {
    var locks: map<Path, Lock>
    var lastUsed: map<Path, Time>

    constructor ()
      ensures Valid() && Contents() == Table(map[], map[])
    {
      locks, lastUsed := map[], map[];
    }

    function Contents(): Table<Lock>
      reads this
    {
      Table(locks, lastUsed)
    }

    predicate Valid()
      reads this
    {
      Contents().Valid()
    }

    /** `_cleanup`: the entries idle for longer than the timeout go, and no others. */
    method Cleanup(now: Time)
      requires Valid()
      modifies this
      ensures Valid() && Contents() == Swept(old(Contents()), now)
      ensures forall p :: p in locks <==> p in old(locks) && now - old(lastUsed)[p] <= 1800
      ensures forall p | p in locks :: locks[p] == old(locks)[p] && lastUsed[p] == old(lastUsed)[p]
    {
      var left := set p | p in lastUsed && Expired(lastUsed[p], now);
      while left != {}
        invariant Valid() && left <= lastUsed.Keys
        invariant forall p :: p in left <==> p in lastUsed && Expired(lastUsed[p], now)
        invariant locks.Keys <= old(locks.Keys)
        invariant forall p | p in old(locks) && !Expired(old(lastUsed)[p], now) :: p in locks
        invariant forall p | p in locks :: locks[p] == old(locks)[p] && lastUsed[p] == old(lastUsed)[p]
        decreases |left|
      {
        var path :| path in left;
        locks, lastUsed := locks - {path}, lastUsed - {path};
        left := left - {path};
      }
    }

    /** `get_lock`: one lock for the path, new only if there is none or it had expired. */
    method GetLock(path: Path, entered: Time, now: Time) returns (lock: Lock)
      requires Valid()
      modifies this
      ensures Valid() && Contents() == Fetched(old(Contents()), path, lock, entered, now)
      ensures lock == locks[path] && lastUsed[path] == entered
      ensures forall p | p != path :: p in locks <==> p in old(locks) && now - old(lastUsed)[p] <= 1800
      ensures if path in old(locks) && now - old(lastUsed)[path] <= 1800 then lock == old(locks)[path] else fresh(lock)
    {
      Cleanup(now);
      if path !in locks {
        var l := new Lock();
        locks := locks[path := l];
      }
      lastUsed := lastUsed[path := entered];
      lock := locks[path];
    }
  }

  type ClientId = nat

  /** A client asks for the lock object of a path, takes it, and lets it go. */
  datatype Client = Away | Waiting(path: Path, lock: nat, got: Time) | Inside(path: Path, lock: nat, got: Time)

  datatype Event =
    | Fetch(client: ClientId, path: Path, entered: Time)
    | Enter(client: ClientId)
    | Leave(client: ClientId)
    | Tick(seconds: nat)

  datatype State = State(table: Table<nat>, next: nat, clients: map<ClientId, Client>, now: Time)
  {
    function Of(c: ClientId): Client {
      if c in clients then clients[c] else Away
    }
  }

  predicate Free(s: State, lock: nat) {
    forall c | c in s.clients :: !(s.clients[c].Inside? && s.clients[c].lock == lock)
  }

  function Step(s: State, e: Event): State
    requires s.table.Valid()
  {
    match e
    case Fetch(c, path, entered) =>
      if s.Of(c) != Away then s
      else
        var table := Fetched(s.table, path, s.next, entered, s.now);
        s.(table := table, next := s.next + 1, clients := s.clients[c := Waiting(path, table.locks[path], entered)])
    case Enter(c) =>
      var client := s.Of(c);
      if client.Waiting? && Free(s, client.lock) then
        s.(clients := s.clients[c := Inside(client.path, client.lock, client.got)])
      else s
    case Leave(c) =>
      if s.Of(c).Inside? then s.(clients := s.clients[c := Away]) else s
    case Tick(seconds) =>
      s.(now := s.now + seconds)
  }

  /** The table with nobody about. */
  function Opened(now: Time): State {
    State(Table(map[], map[]), 0, map[], now)
  }

  function Run(now: Time, es: seq<Event>): (s: State)
    ensures s.table.Valid()
  {
    if es == [] then Opened(now) else Step(Run(now, es[..|es| - 1]), es[|es| - 1])
  }

  /** No call is overtaken between reading the clock and getting the table. */
  predicate InOrder(s: State, e: Event) {
    e.Fetch? ==> e.entered <= s.now && (e.path in s.table.lastUsed ==> s.table.lastUsed[e.path] <= e.entered)
  }

  ghost predicate NoOvertaking(now: Time, es: seq<Event>) {
    forall n | 0 <= n < |es| :: InOrder(Run(now, es[..n]), es[n])
  }

  /** Within the timeout of its call a client's lock object is the one in the table. */
  predicate Current(s: State, c: Client) {
    c != Away && !Expired(c.got, s.now) ==>
      && c.path in s.table.lastUsed && c.path in s.table.locks
      && s.table.locks[c.path] == c.lock && s.table.lastUsed[c.path] >= c.got
  }

  /** A lock object lets one client in at a time. */
  ghost predicate LocksExclude(s: State) {
    forall c: ClientId, d: ClientId | s.Of(c).Inside? && s.Of(d).Inside? && s.Of(c).lock == s.Of(d).lock :: c == d
  }

  ghost predicate Inv(s: State) {
    && s.table.Valid()
    && (forall c: ClientId :: Current(s, s.Of(c)))
    && LocksExclude(s)
  }

  /** Whoever is inside after a step was inside before it, or has just found its lock free. */
  lemma WhoIsInside(s: State, e: Event, c: ClientId)
    requires s.table.Valid() && Step(s, e).Of(c).Inside?
    ensures s.Of(c) == Step(s, e).Of(c) || (e == Enter(c) && Free(s, Step(s, e).Of(c).lock))
  {
  }

  lemma StayExclusive(s: State, e: Event)
    requires s.table.Valid() && LocksExclude(s)
    ensures LocksExclude(Step(s, e))
  {
    var after := Step(s, e);
    forall c: ClientId, d: ClientId
      | after.Of(c).Inside? && after.Of(d).Inside? && after.Of(c).lock == after.Of(d).lock
      ensures c == d
    {
      WhoIsInside(s, e, c);
      WhoIsInside(s, e, d);
      hide Step;
      assert s.Of(c).Inside? ==> c in s.clients && s.clients[c] == s.Of(c);
      assert s.Of(d).Inside? ==> d in s.clients && s.clients[d] == s.Of(d);
    }
  }

  lemma StepKeepsInv(s: State, e: Event)
    requires Inv(s) && InOrder(s, e)
    ensures Inv(Step(s, e))
  {
    var after := Step(s, e);
    forall c: ClientId ensures Current(after, after.Of(c)) {
      assert Current(s, s.Of(c));
    }
    StayExclusive(s, e);
  }

  lemma {:induction false} RunKeepsInv(now: Time, es: seq<Event>)
    requires NoOvertaking(now, es)
    ensures Inv(Run(now, es))
  {
    hide Step, InOrder;
    if es == [] {
    } else {
      var shorter := es[..|es| - 1];
      forall n | 0 <= n < |shorter| ensures InOrder(Run(now, shorter[..n]), shorter[n]) {
        assert shorter[..n] == es[..n];
      }
      RunKeepsInv(now, shorter);
      assert InOrder(Run(now, es[..|es| - 1]), es[|es| - 1]);
      StepKeepsInv(Run(now, shorter), es[|es| - 1]);
    }
  }

  /** `s` comes about in some run without overtaking. */
  ghost predicate Reachable(s: State) {
    exists now: Time, es: seq<Event> :: NoOvertaking(now, es) && Run(now, es) == s
  }

  predicate InTime(s: State, c: ClientId, path: Path) {
    s.Of(c).Inside? && s.Of(c).path == path && s.now - s.Of(c).got <= 1800
  }

  /**
    * Timed mutual exclusion: whatever calls for this and other paths come and go and whatever is
    * evicted, two clients are never inside for the same path while both are within the timeout of
    * their calls.
    */
  lemma MutualExclusion(s: State, c: ClientId, d: ClientId, path: Path)
    requires Reachable(s)
    ensures InTime(s, c, path) && InTime(s, d, path) ==> c == d
  {
    var now: Time, es: seq<Event> :| NoOvertaking(now, es) && Run(now, es) == s;
    hide Run;
    RunKeepsInv(now, es);
    assert Current(s, s.Of(c)) && Current(s, s.Of(d));
  }

  lemma {:induction false} RunOneMore(now: Time, es: seq<Event>, e: Event)
    ensures Run(now, es + [e]) == Step(Run(now, es), e)
  {
  }

  /** A client that stays `held` seconds, and another that comes for the same path then. */
  function Overstay(now: Time, path: Path, held: nat): seq<Event> {
    [Fetch(0, path, now)] + [Enter(0)] + [Tick(held)] + [Fetch(1, path, now + held)] + [Enter(1)]
  }

  lemma FirstIsIn(now: Time, path: Path, held: nat)
    ensures var s := Step(Step(Step(Opened(now), Fetch(0, path, now)), Enter(0)), Tick(held));
            && s.clients == map[0 := Inside(path, 0, now)] && s.next == 1 && s.now == now + held
            && s.table == Table(map[path := 0], map[path := now])
  {
  }

  lemma SecondComes(s: State, now: Time, path: Path, held: nat)
    requires s.clients == map[0 := Inside(path, 0, now)] && s.next == 1 && s.now == now + held
    requires s.table == Table(map[path := 0], map[path := now])
    ensures var after := Step(Step(s, Fetch(1, path, now + held)), Enter(1));
            after.Of(0).Inside? && (after.Of(1).Inside? <==> held > TIMEOUT)
    ensures InOrder(s, Fetch(1, path, now + held))
  {
  }

  /** The bound is sharp: the second client gets in beside the first exactly when the first overstays. */
  lemma TimeoutIsSharp(now: Time, path: Path, held: nat)
    ensures NoOvertaking(now, Overstay(now, path, held))
    ensures Run(now, Overstay(now, path, held)).Of(0).Inside?
    ensures Run(now, Overstay(now, path, held)).Of(1).Inside? <==> held > 1800
  {
    var a: seq<Event> := [Fetch(0, path, now)];
    var b := a + [Enter(0)];
    var c := b + [Tick(held)];
    var d := c + [Fetch(1, path, now + held)];
    var e := d + [Enter(1)];
    assert [] + [Fetch(0, path, now)] == a;
    RunOneMore(now, [], Fetch(0, path, now));
    RunOneMore(now, a, Enter(0));
    RunOneMore(now, b, Tick(held));
    RunOneMore(now, c, Fetch(1, path, now + held));
    RunOneMore(now, d, Enter(1));
    FirstIsIn(now, path, held);
    SecondComes(Run(now, c), now, path, held);
    assert InOrder(Opened(now), a[0]);
    assert Overstay(now, path, held) == e;
    hide Step, Run, Overstay;
    forall n | 0 <= n < |e| ensures InOrder(Run(now, e[..n]), e[n]) {
      assert e[..0] == [] && e[..1] == a && e[..2] == b && e[..3] == c && e[..4] == d;
    }
  }

  /** Client 1 reads the clock `late` seconds after client 0 but gets the table first; then a third comes. */
  function Overtaken(now: Time, path: Path, late: nat, wait: nat): seq<Event> {
    [Tick(late)] + [Fetch(1, path, now + late)] + [Enter(1)] + [Fetch(0, path, now)] + [Tick(wait)]
      + [Fetch(2, path, now + late + wait)] + [Enter(2)]
  }

  lemma OvertakenEnds(now: Time, path: Path, late: nat, wait: nat)
    ensures var s0 := Step(Step(Step(Opened(now), Tick(late)), Fetch(1, path, now + late)), Enter(1));
            var s1 := Step(Step(s0, Fetch(0, path, now)), Tick(wait));
            && s1.clients == map[1 := Inside(path, 0, now + late), 0 := Waiting(path, 0, now)]
            && s1.table == Table(map[path := 0], map[path := now]) && s1.next == 2 && s1.now == now + late + wait
  {
    var s := Step(Step(Opened(now), Tick(late)), Fetch(1, path, now + late));
    assert s.table == Table(map[path := 0], map[path := now + late]);
    assert s.clients == map[1 := Waiting(path, 0, now + late)];
    var t := Step(Step(s, Enter(1)), Fetch(0, path, now));
    assert t.table == Table(map[path := 0], map[path := now]);
  }

  lemma ThirdComes(s: State, now: Time, path: Path, late: nat, wait: nat)
    requires s.clients == map[1 := Inside(path, 0, now + late), 0 := Waiting(path, 0, now)]
    requires s.table == Table(map[path := 0], map[path := now]) && s.next == 2 && s.now == now + late + wait
    ensures var after := Step(Step(s, Fetch(2, path, now + late + wait)), Enter(2));
            && after.Of(1) == Inside(path, 0, now + late) && after.now == s.now
            && (after.Of(2).Inside? <==> late + wait > TIMEOUT)
            && (after.Of(2).Inside? ==> after.Of(2).path == path && after.Of(2).got == s.now)
  {
    var after := Step(s, Fetch(2, path, now + late + wait));
    assert path in Swept(s.table, s.now).locks <==> late + wait <= TIMEOUT;
    assert after.Of(2) == Waiting(path, if late + wait > TIMEOUT then 2 else 0, now + late + wait);
    assert after.clients[1] == Inside(path, 0, now + late);
  }

  lemma DelayedOneMore(now: Time, es: seq<Event>, e: Event, delay: nat)
    requires Delayed(now, es, delay) && DelayOk(Run(now, es), e, delay)
    ensures Delayed(now, es + [e], delay) && Run(now, es + [e]) == Step(Run(now, es), e)
    ensures Run(now, es + [e]).now == Run(now, es).now + if e.Tick? then e.seconds else 0
  {
    RunOneMore(now, es, e);
    StepNow(Run(now, es), e);
    hide Run, Step, DelayOk;
    var fs := es + [e];
    forall n | 0 <= n < |fs| ensures DelayOk(Run(now, fs[..n]), fs[n], delay) {
      assert fs[..n] == es[..n];
    }
  }

  lemma StepNow(s: State, e: Event)
    requires s.table.Valid()
    ensures Step(s, e).now == s.now + if e.Tick? then e.seconds else 0
  {
  }

  lemma OvertakenStarts(now: Time, path: Path, late: nat)
    ensures var es := [Tick(late)] + [Fetch(1, path, now + late)] + [Enter(1)] + [Fetch(0, path, now)];
            && Delayed(now, es, late) && Run(now, es).now == now + late
            && Run(now, es)
                == Step(Step(Step(Step(Opened(now), Tick(late)), Fetch(1, path, now + late)), Enter(1)),
                        Fetch(0, path, now))
  {
    assert Run(now, []) == Opened(now);
    var a: seq<Event> := [Tick(late)];
    assert [] + [Tick(late)] == a;
    hide Step, Run;
    DelayedOneMore(now, [], Tick(late), late);
    DelayedOneMore(now, a, Fetch(1, path, now + late), late);
    var b := a + [Fetch(1, path, now + late)];
    DelayedOneMore(now, b, Enter(1), late);
    var c := b + [Enter(1)];
    DelayedOneMore(now, c, Fetch(0, path, now), late);
  }

  lemma OvertakenRun(now: Time, path: Path, late: nat, wait: nat)
    ensures var s := Run(now, Overtaken(now, path, late, wait));
            && s.Of(1) == Inside(path, 0, now + late) && s.now == now + late + wait
            && (s.Of(2).Inside? <==> late + wait > TIMEOUT)
            && (s.Of(2).Inside? ==> s.Of(2).path == path && s.Of(2).got == s.now)
    ensures Delayed(now, Overtaken(now, path, late, wait), late)
  {
    OvertakenEnds(now, path, late, wait);
    OvertakenStarts(now, path, late);
    hide Step, Run, Delayed;
    var d := [Tick(late)] + [Fetch(1, path, now + late)] + [Enter(1)] + [Fetch(0, path, now)];
    DelayedOneMore(now, d, Tick(wait), late);
    var e := d + [Tick(wait)];
    ThirdComes(Run(now, e), now, path, late, wait);
    DelayedOneMore(now, e, Fetch(2, path, now + late + wait), late);
    DelayedOneMore(now, e + [Fetch(2, path, now + late + wait)], Enter(2), late);
  }

  /**
    * Why calls must not overtake each other: a call that read the clock first and got the table last
    * puts the entry's time back, and then two clients are inside although each is within the timeout.
    */
  lemma OvertakingBreaksExclusion(now: Time, path: Path, late: nat, wait: nat)
    requires wait <= 1800 < late + wait
    ensures var s := Run(now, Overtaken(now, path, late, wait));
            InTime(s, 1, path) && InTime(s, 2, path)
    ensures !NoOvertaking(now, Overtaken(now, path, late, wait))
  {
    OvertakenRun(now, path, late, wait);
    hide Run, Overtaken;
    var s := Run(now, Overtaken(now, path, late, wait));
    if NoOvertaking(now, Overtaken(now, path, late, wait)) {
      assert Reachable(s);
      MutualExclusion(s, 1, 2, path);
    }
  }

  // ----- calls that are delayed between the clock and the table -----

  /** The call gets the table at most `delay` seconds after it read the clock. */
  predicate DelayOk(s: State, e: Event, delay: nat) {
    e.Fetch? ==> e.entered <= s.now <= e.entered + delay
  }

  ghost predicate Delayed(now: Time, es: seq<Event>, delay: nat) {
    forall n | 0 <= n < |es| :: DelayOk(Run(now, es[..n]), es[n], delay)
  }

  /** For the timeout less the delay a client's lock object is the one in the table. */
  predicate CurrentFor(s: State, c: Client, delay: nat) {
    c != Away ==>
      && c.got <= s.now
      && (s.now - c.got <= TIMEOUT - delay ==>
            && c.path in s.table.lastUsed && c.path in s.table.locks
            && s.table.locks[c.path] == c.lock && s.table.lastUsed[c.path] >= c.got - delay)
  }

  ghost predicate DelayInv(s: State, delay: nat) {
    s.table.Valid() && (forall c: ClientId :: CurrentFor(s, s.Of(c), delay)) && LocksExclude(s)
  }

  lemma StepKeepsDelayInv(s: State, e: Event, delay: nat)
    requires DelayInv(s, delay) && DelayOk(s, e, delay)
    ensures DelayInv(Step(s, e), delay)
  {
    var after := Step(s, e);
    forall c: ClientId ensures CurrentFor(after, after.Of(c), delay) {
      assert CurrentFor(s, s.Of(c), delay);
    }
    StayExclusive(s, e);
  }

  lemma {:induction false} RunKeepsDelayInv(now: Time, es: seq<Event>, delay: nat)
    requires Delayed(now, es, delay)
    ensures DelayInv(Run(now, es), delay)
  {
    hide Step, DelayOk;
    if es == [] {
    } else {
      var shorter := es[..|es| - 1];
      forall n | 0 <= n < |shorter| ensures DelayOk(Run(now, shorter[..n]), shorter[n], delay) {
        assert shorter[..n] == es[..n];
      }
      RunKeepsDelayInv(now, shorter, delay);
      assert DelayOk(Run(now, es[..|es| - 1]), es[|es| - 1], delay);
      StepKeepsDelayInv(Run(now, shorter), es[|es| - 1], delay);
    }
  }

  predicate InWindow(s: State, c: ClientId, path: Path, window: nat) {
    s.Of(c).Inside? && s.Of(c).path == path && s.now - s.Of(c).got <= window
  }

  /** In no run with calls delayed by at most `delay` are two clients inside for a path within
      `window` of their calls. */
  ghost predicate SafeWindow(window: nat, delay: nat) {
    forall now: Time, es: seq<Event>, c: ClientId, d: ClientId, path: Path ::
      Delayed(now, es, delay) && InWindow(Run(now, es), c, path, window) && InWindow(Run(now, es), d, path, window)
      ==> c == d
  }

  /**
    * The exact price of a `get_lock` that is not atomic: with calls delayed by up to `delay` between
    * the clock and the table, a window is safe if and only if window and delay fit into the timeout.
    */
  lemma SafeWindowExactly(window: nat, delay: nat)
    ensures SafeWindow(window, delay) <==> window + delay <= 1800
  {
    if window + delay <= TIMEOUT {
      forall now: Time, es: seq<Event>, c: ClientId, d: ClientId, path: Path
        | Delayed(now, es, delay) && InWindow(Run(now, es), c, path, window) && InWindow(Run(now, es), d, path, window)
        ensures c == d
      {
        RunKeepsDelayInv(now, es, delay);
        var s := Run(now, es);
        hide Run;
        assert CurrentFor(s, s.Of(c), delay) && CurrentFor(s, s.Of(d), delay);
      }
    } else {
      OvertakenRun(0, "", delay, window);
      hide Run, Overtaken;
      var s := Run(0, Overtaken(0, "", delay, window));
      assert InWindow(s, 1, "", window) && InWindow(s, 2, "", window);
    }
  }
}
