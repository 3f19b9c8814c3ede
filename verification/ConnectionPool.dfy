/**
  * The shared pool of DuckDB connections: which are idle, which are on loan, which are closed, and
  * what becomes of that when a merge replaces its connection or everything is closed.
  */
module ConnectionPool {
  import opened Wrappers

  /** The identity of a connection, in order of creation. */
  type Conn = nat

  /** `lent` is history: what clients got and neither returned nor deleted. */
  datatype Pool = Pool(idle: seq<Conn>, managed: seq<Conn>, closed: set<Conn>, next: Conn, lent: set<Conn>)

  ghost predicate Distinct(s: seq<Conn>) {
    forall i, j | 0 <= i < j < |s| :: s[i] != s[j]
  }

  /**
    * Idle and lent connections are disjoint and free of duplicates, make up the managed list
    * together, and none of them is closed.
    */
  ghost predicate Conserved(p: Pool) {
    && Distinct(p.idle) && Distinct(p.managed)
    && (forall c: Conn :: c in p.managed <==> c in p.idle || c in p.lent)
    && (forall c: Conn :: !(c in p.idle && c in p.lent))
    && (forall c: Conn | c in p.managed :: c !in p.closed)
    && (forall c: Conn | c in p.managed || c in p.closed :: c < p.next)
  }

  function Without(s: seq<Conn>, c: Conn): seq<Conn> {
    if s == [] then [] else if s[0] == c then s[1..] else [s[0]] + Without(s[1..], c)
  }

  /** A new connection, managed from now on. */
  function Created(p: Pool): Pool {
    p.(managed := p.managed + [p.next], next := p.next + 1)
  }

  /** The connection `get_conn` hands out, if one is idle or can be made. */
  function Handed(p: Pool, can: bool): Option<Conn> {
    if p.idle != [] then Some(p.idle[0]) else if can then Some(p.next) else None
  }

  function Got(p: Pool, can: bool): Pool {
    if p.idle != [] then p.(idle := p.idle[1..], lent := p.lent + {p.idle[0]})
    else if can then Created(p).(lent := p.lent + {p.next})
    else p
  }

  function Returned(p: Pool, c: Conn): Pool {
    p.(idle := p.idle + [c], lent := p.lent - {c})
  }

  function Deleted(p: Pool, c: Conn): Pool {
    p.(managed := Without(p.managed, c), closed := p.closed + {c}, lent := p.lent - {c})
  }

  function ClosedAll(p: Pool): Pool {
    p.(idle := [], managed := [], closed := p.closed + set c | c in p.managed)
  }

  lemma {:induction false} WithoutOne(s: seq<Conn>, c: Conn)
    requires Distinct(s)
    ensures Distinct(Without(s, c)) && |Without(s, c)| <= |s|
    ensures forall d: Conn :: d in Without(s, c) <==> d in s && d != c
  {
    if s == [] {
    } else if s[0] == c {
      assert s == [s[0]] + s[1..];
    } else {
      assert s == [s[0]] + s[1..];
      WithoutOne(s[1..], c);
      var r := Without(s[1..], c);
      assert s[0] !in s[1..];
      forall i, j | 0 <= i < j < |[s[0]] + r| ensures ([s[0]] + r)[i] != ([s[0]] + r)[j] {
        assert ([s[0]] + r)[j] == r[j - 1] && r[j - 1] in r;
      }
    }
  }

  lemma AppendDistinct(s: seq<Conn>, c: Conn)
    requires Distinct(s) && c !in s
    ensures Distinct(s + [c])
  {
  }

  lemma GetConserves(p: Pool, can: bool)
    requires Conserved(p)
    ensures Conserved(Got(p, can))
  {
  }

  /** `get_conn` never hands out a connection on loan, nor a closed one. */
  lemma HandedIsFree(p: Pool, can: bool)
    requires Conserved(p) && Handed(p, can).Some?
    ensures var c := Handed(p, can).value;
            && c !in p.lent && c !in p.closed
            && c in Got(p, can).lent && c in Got(p, can).managed && c !in Got(p, can).closed
            && |Got(p, can).lent| == |p.lent| + 1
  {
  }

  lemma ReturnConserves(p: Pool, c: Conn)
    requires Conserved(p) && c in p.lent
    ensures Conserved(Returned(p, c))
  {
  }

  lemma DeleteConserves(p: Pool, c: Conn)
    requires Conserved(p) && c in p.lent
    ensures Conserved(Deleted(p, c)) && |Deleted(p, c).lent| == |p.lent| - 1
  {
    WithoutOne(p.managed, c);
  }

  /** What clients do, each returning or deleting only what it holds. */
  datatype Event = Get(can: bool) | Return(conn: Conn) | Delete(conn: Conn)

  function Step(p: Pool, e: Event): Pool {
    match e
    case Get(can) => Got(p, can)
    case Return(c) => if c in p.lent then Returned(p, c) else p
    case Delete(c) => if c in p.lent then Deleted(p, c) else p
  }

  function Run(p: Pool, es: seq<Event>): Pool {
    if es == [] then p else Step(Run(p, es[..|es| - 1]), es[|es| - 1])
  }

  lemma StepConserves(p: Pool, e: Event)
    requires Conserved(p)
    ensures Conserved(Step(p, e)) && p.closed <= Step(p, e).closed
  {
    hide Conserved;
    match e {
      case Get(can) => GetConserves(p, can);
      case Return(c) => if c in p.lent { ReturnConserves(p, c); }
      case Delete(c) => if c in p.lent { DeleteConserves(p, c); }
    }
  }

  /** In every run connections are conserved. */
  lemma {:induction false} RunConserves(p: Pool, es: seq<Event>)
    requires Conserved(p)
    ensures Conserved(Run(p, es)) && p.closed <= Run(p, es).closed
  {
    hide Conserved, Step;
    if es == [] {
    } else {
      RunConserves(p, es[..|es| - 1]);
      StepConserves(Run(p, es[..|es| - 1]), es[|es| - 1]);
    }
  }

  /** A deleted connection is never idle, lent or handed out again. */
  lemma DeletedNeverReturns(p: Pool, c: Conn, es: seq<Event>, can: bool)
    requires Conserved(p) && c in p.lent
    ensures var after := Run(Deleted(p, c), es);
            c !in after.idle && c !in after.lent && c !in after.managed && Handed(after, can) != Some(c)
  {
    DeleteConserves(p, c);
    RunConserves(Deleted(p, c), es);
    var after := Run(Deleted(p, c), es);
    assert c in after.closed && c < after.next;
    if after.idle != [] {
      assert after.idle[0] in after.idle;
    }
  }

  /** In no run from `p` is a closed connection idle, so none is handed out. */
  ghost predicate NeverHandsOutClosed(p: Pool) {
    forall es: seq<Event>, can: bool ::
      var after := Run(p, es);
      Handed(after, can).Some? ==> Handed(after, can).value !in after.closed
  }

  /**
    * After everything was closed, the pool goes on as a sound, empty pool exactly when nothing was
    * on loan: a connection returned late is handed out again although it is closed.
    */
  lemma CloseAllExact(p: Pool)
    requires Conserved(p)
    ensures Conserved(ClosedAll(p)) <==> p.lent == {}
    ensures NeverHandsOutClosed(ClosedAll(p)) <==> p.lent == {}
  {
    var q := ClosedAll(p);
    if p.lent == {} {
      assert Conserved(q);
      forall es: seq<Event>, can: bool
        ensures Handed(Run(q, es), can).Some? ==> Handed(Run(q, es), can).value !in Run(q, es).closed
      {
        RunConserves(q, es);
        if Handed(Run(q, es), can).Some? {
          HandedIsFree(Run(q, es), can);
        }
      }
    } else {
      var c :| c in p.lent;
      assert c in p.managed && c in q.closed && c in q.lent && c !in q.managed;
      LateReturn(q, c);
    }
  }

  lemma LateReturn(q: Pool, c: Conn)
    requires q.idle == [] && c in q.lent && c in q.closed
    ensures Handed(Run(q, [Return(c)]), true) == Some(c) && c in Run(q, [Return(c)]).closed
    ensures !NeverHandsOutClosed(q)
  {
  }

  /** Closing everything closes the idle connections and those on loan, and no others. */
  lemma AllAreClosed(p: Pool)
    requires Conserved(p)
    ensures var q := ClosedAll(p);
            && q.idle == [] && q.managed == [] && q.lent == p.lent && q.next == p.next
            && forall c: Conn :: c in q.closed <==> c in p.closed || c in p.idle || c in p.lent
  {
  }

  /** What one retriable merge error does: the connection goes, and another one is asked for. */
  function Replaced(p: Pool, c: Conn, can: bool): Pool {
    Got(Deleted(p, c), can)
  }

  /** The connection the merger holds afterwards: its old one if no other could be made. */
  function Holding(p: Pool, c: Conn, can: bool): Conn {
    var handed := Handed(Deleted(p, c), can);
    if handed.Some? then handed.value else c
  }

  /** The pool and the merger's connection after one replacement per element of `can`. */
  function Retried(p: Pool, c: Conn, can: seq<bool>): (Pool, Conn) {
    if can == [] then (p, c)
    else
      var (q, d) := Retried(p, c, can[..|can| - 1]);
      (Replaced(q, d, can[|can| - 1]), Holding(q, d, can[|can| - 1]))
  }

  lemma ReplaceConserves(p: Pool, c: Conn, can: bool)
    requires Conserved(p) && c in p.lent
    ensures var after := Replaced(p, c, can);
            && Conserved(after) && c in after.closed
            && (Holding(p, c, can) == c <==> p.idle == [] && !can)
            && (Holding(p, c, can) != c ==> Holding(p, c, can) in after.lent && |after.lent| == |p.lent|)
            && (Holding(p, c, can) == c ==> |after.lent| == |p.lent| - 1)
  {
    DeleteConserves(p, c);
    GetConserves(Deleted(p, c), can);
    if Handed(Deleted(p, c), can).Some? {
      HandedIsFree(Deleted(p, c), can);
    }
  }

  /**
    * Any pattern of merge retries whose replacements succeed leaves the number of loans alone and the
    * merger with an open connection of its own.
    */
  lemma {:induction false} RetriesKeepLoans(p: Pool, c: Conn, can: seq<bool>)
    requires Conserved(p) && c in p.lent && forall i | 0 <= i < |can| :: can[i]
    ensures var (after, held) := Retried(p, c, can);
            && Conserved(after) && held in after.lent && held !in after.closed && |after.lent| == |p.lent|
  {
    if can == [] {
      assert c in p.managed;
    } else {
      var shorter := can[..|can| - 1];
      RetriesKeepLoans(p, c, shorter);
      var (q, d) := Retried(p, c, shorter);
      ReplaceConserves(q, d, can[|can| - 1]);
      var (after, held) := Retried(p, c, can);
      assert held in after.managed;
    }
  }

  class DuckDBManager {
    var configured: bool
    var idle: seq<Conn>
    var managed: seq<Conn>
    var closed: set<Conn>
    var next: Conn
    ghost var lent: set<Conn>

    constructor ()
      ensures Contents() == Pool([], [], {}, 0, {}) && !configured && Conserved(Contents())
    {
      configured, idle, managed, closed, next, lent := false, [], [], {}, 0, {};
    }

    ghost function Contents(): Pool
      reads this
    {
      Pool(idle, managed, closed, next, lent)
    }

    /** `_create_new_connection`; `works` says whether the engine lets itself be set up. */
    method CreateNewConnection(works: bool) returns (conn: Option<Conn>)
      modifies this`managed, this`next
      ensures conn == if configured && works then Some(old(next)) else None
      ensures Contents() == if conn.Some? then Created(old(Contents())) else old(Contents())
    {
      if !configured || !works {
        return None;
      }
      conn := Some(next);
      managed, next := managed + [next], next + 1;
    }

    /** `initialize`: as many idle connections more as were asked for, or as could be made. */
    method Initialize(size: nat, works: nat -> bool) returns (made: nat)
      requires Conserved(Contents())
      modifies this
      ensures configured && Conserved(Contents()) && made <= size
      ensures made == size || !works(made)
      ensures |idle| == |old(idle)| + made && |managed| == |old(managed)| + made
      ensures idle[..|old(idle)|] == old(idle) && lent == old(lent) && closed == old(closed)
    {
      configured := true;
      made := 0;
      var ok := true;
      while made < size && ok
        invariant configured && Conserved(Contents()) && made <= size
        invariant |idle| == |old(idle)| + made && |managed| == |old(managed)| + made
        invariant idle[..|old(idle)|] == old(idle) && lent == old(lent) && closed == old(closed)
        invariant !ok ==> !works(made)
        decreases size - made, ok
      {
        ghost var before := Contents();
        var conn := CreateNewConnection(works(made));
        if conn.Some? {
          idle := idle + [conn.value];
          made := made + 1;
          PutConserves(before);
        } else {
          ok := false;
        }
      }
    }

    /** `get_conn`: an idle connection, or a new one if there is none. */
    method GetConn(works: bool) returns (conn: Option<Conn>)
      requires Conserved(Contents())
      modifies this
      ensures conn == Handed(old(Contents()), configured && works) && configured == old(configured)
      ensures Contents() == Got(old(Contents()), configured && works)
      ensures Conserved(Contents()) && closed == old(closed)
      ensures conn.Some? ==> conn.value !in old(lent) && conn.value in lent && conn.value !in closed
      ensures if old(idle) != [] then conn == Some(old(idle)[0]) && idle == old(idle)[1..] && managed == old(managed)
              else if configured && works
              then conn == Some(old(next)) && idle == [] && managed == old(managed) + [old(next)]
              else conn == None && idle == [] && managed == old(managed)
    {
      GetConserves(Contents(), configured && works);
      if Handed(Contents(), configured && works).Some? {
        HandedIsFree(Contents(), configured && works);
      }
      if idle != [] {
        conn := Some(idle[0]);
        idle := idle[1..];
        lent := lent + {conn.value};
      } else {
        conn := CreateNewConnection(works);
        if conn.Some? {
          lent := lent + {conn.value};
        }
      }
    }

    method ReturnConn(conn: Option<Conn>)
      modifies this`idle, this`lent
      ensures Contents() == if conn.Some? then Returned(old(Contents()), conn.value) else old(Contents())
      ensures idle == if conn.Some? then old(idle) + [conn.value] else old(idle)
      ensures old(Conserved(Contents())) && (conn.Some? ==> conn.value in old(lent)) ==> Conserved(Contents())
    {
      if conn.Some? {
        if Conserved(Contents()) && conn.value in lent {
          ReturnConserves(Contents(), conn.value);
        }
        idle := idle + [conn.value];
        lent := lent - {conn.value};
      }
    }

    method ReturnAndDelete(conn: Option<Conn>)
      modifies this`managed, this`closed, this`lent
      ensures Contents() == if conn.Some? then Deleted(old(Contents()), conn.value) else old(Contents())
      ensures closed == if conn.Some? then old(closed) + {conn.value} else old(closed)
      ensures old(Conserved(Contents())) && (conn.Some? ==> conn.value in old(lent)) ==> Conserved(Contents())
    {
      if conn.Some? {
        if Conserved(Contents()) && conn.value in lent {
          DeleteConserves(Contents(), conn.value);
        }
        managed := Without(managed, conn.value);
        closed := closed + {conn.value};
        lent := lent - {conn.value};
      }
    }

    method CloseAll()
      modifies this`idle, this`managed, this`closed
      ensures Contents() == ClosedAll(old(Contents())) && idle == [] && managed == []
      ensures forall c: Conn :: c in closed <==> c in old(closed) || c in old(managed)
    {
      while idle != []
        invariant managed == old(managed) && closed == old(closed)
        decreases |idle|
      {
        idle := idle[1..];
      }
      var i := 0;
      while i < |managed|
        invariant i <= |managed| && managed == old(managed) && idle == []
        invariant closed == old(closed) + set c | c in managed[..i]
      {
        closed := closed + {managed[i]};
        i := i + 1;
      }
      assert managed[..i] == managed;
      managed := [];
    }

    /** The handler of a retriable merge error: what the merger holds afterwards. */
    method Replace(conn: Conn, works: bool) returns (held: Conn)
      requires Conserved(Contents()) && conn in lent
      modifies this
      ensures Contents() == Replaced(old(Contents()), conn, configured && works) && configured == old(configured)
      ensures held == Holding(old(Contents()), conn, configured && works) && Conserved(Contents())
      ensures held != conn ==> held in lent && held !in closed
    {
      ReturnAndDelete(Some(conn));
      var got := GetConn(works);
      held := if got.Some? then got.value else conn;
    }
  }

  /** A connection made and put into the pool at once. */
  lemma PutConserves(p: Pool)
    requires Conserved(p)
    ensures Conserved(Created(p).(idle := p.idle + [p.next]))
  {
    AppendDistinct(p.idle, p.next);
    AppendDistinct(p.managed, p.next);
    hide Distinct;
  }
}
