/**
  The pool of database connections kept for one datasource.

  What the database and the clock answer (whether a connection can be made, whether a ping or a
  rollback succeeds, whether a transaction is open after a ping or a use, what time it is) are
  parameters. A pool operation is one step of a run.
 */
module ConnectionPool {
  import opened Collections
  import opened Wrappers

  type Conn = nat

  /** A connection and the time it was made; despite its name, `idle_seconds` is the age since then. */
  datatype Item = Item(conn: Conn, createdAt: int)

  const IDLE_TTL_SECONDS := 300

  /**
    How a ping comes out. One that is answered may open a transaction: that of PostgreSQL is a query
    on a connection without autocommit, that of MySQL is none.
   */
  datatype Ping = Unanswered | Answered(opens: bool)

  /**
    A pool and the database behind it: `made` counts the connections made so far, `closed` lists
    the close calls in order, `open` holds the connections whose last statement left a transaction
    open. A new connection has none; those of closed connections no longer matter.
   */
  datatype State = State(
    maxSize: int, items: seq<Item>, createdCount: nat,
    made: nat, closed: seq<Conn>, open: set<Conn>)

  function Closing(s: State, conn: Conn): State {
    s.(closed := s.closed + [conn])
  }

  function Creating(s: State, connects: bool, now: int): (State, Option<Item>) {
    if connects
    then (s.(made := s.made + 1, createdCount := s.createdCount + 1), Some(Item(s.made, now)))
    else (s, None)
  }

  /** The newest pooled connection is lent if it answers the ping, else closed and replaced. */
  function Getting(s: State, ping: Ping, connects: bool, now: int): (State, Option<Item>) {
    if s.items == [] then Creating(s, connects, now)
    else
      var top, rest := s.items[|s.items| - 1], s.(items := s.items[..|s.items| - 1]);
      match ping
      case Unanswered => Creating(Closing(rest, top.conn), connects, now)
      case Answered(opens) => (if opens then rest.(open := rest.open + {top.conn}) else rest, Some(top))
  }

  /** The queue is bounded only for a positive size. */
  predicate Full(s: State) {
    s.maxSize > 0 && |s.items| >= s.maxSize
  }

  predicate Stale(item: Item, now: int) {
    now - item.createdAt > IDLE_TTL_SECONDS
  }

  /** A use ends in a transaction or, where it commits or rolls back by itself, in none. */
  function Using(s: State, item: Item, opens: bool): State {
    s.(open := if opens then s.open + {item.conn} else s.open - {item.conn})
  }

  function Putting(s: State, item: Item, rolledBack: bool, now: int): State {
    var reset := if rolledBack then s.(open := s.open - {item.conn}) else s;
    if Stale(item, now) || Full(s) then Closing(reset, item.conn) else reset.(items := s.items + [item])
  }

  function Draining(s: State): State
    decreases |s.items|
  {
    if s.items == [] then s.(createdCount := 0)
    else Draining(Closing(s.(items := s.items[..|s.items| - 1]), s.items[|s.items| - 1].conn))
  }

  // ---------------------------------------------------------------- the objects

  /** The remote side. */
  class Database {
    var made: nat
    var closed: seq<Conn>
    var open: set<Conn>

    constructor ()
      ensures made == 0 && closed == [] && open == {}
    {
      made, closed, open := 0, [], {};
    }

    method Connect(succeeds: bool) returns (conn: Option<Conn>)
      modifies this`made
      ensures made == if succeeds then old(made) + 1 else old(made)
      ensures conn == if succeeds then Some(old(made)) else None
    {
      if !succeeds { return None; }
      conn := Some(made);
      made := made + 1;
    }

    method Close(conn: Conn)
      modifies this`closed
      ensures closed == old(closed) + [conn]
    {
      closed := closed + [conn];
    }

    method Answer(conn: Conn, ping: Ping) returns (alive: bool)
      modifies this`open
      ensures alive == ping.Answered?
      ensures open == if ping.Answered? && ping.opens then old(open) + {conn} else old(open)
    {
      if ping.Unanswered? { return false; }
      if ping.opens { open := open + {conn}; }
      alive := true;
    }

    method Rollback(conn: Conn, succeeds: bool)
      modifies this`open
      ensures open == if succeeds then old(open) - {conn} else old(open)
    {
      if succeeds { open := open - {conn}; }
    }
  }

  class ConnectionPool {
    const database: Database
    const maxSize: int
    var items: seq<Item>
    var createdCount: nat

    function Contents(): State
      reads this, database
    {
      State(maxSize, items, createdCount, database.made, database.closed, database.open)
    }

    constructor (database: Database, maxSize: int)
      ensures this.database == database && this.maxSize == maxSize
      ensures items == [] && createdCount == 0
    {
      this.database := database;
      this.maxSize := maxSize;
      items, createdCount := [], 0;
    }

    method Create(connects: bool, now: int) returns (item: Option<Item>)
      modifies this, database
      ensures (Contents(), item) == Creating(old(Contents()), connects, now)
    {
      var conn := database.Connect(connects);
      if conn.None? { return None; }
      createdCount := createdCount + 1;
      item := Some(Item(conn.value, now));
    }

    method Get(ping: Ping, connects: bool, now: int) returns (item: Option<Item>)
      modifies this, database
      ensures (Contents(), item) == Getting(old(Contents()), ping, connects, now)
    {
      if |items| == 0 {
        item := Create(connects, now);
        return;
      }
      var top := items[|items| - 1];
      items := items[..|items| - 1];
      var alive := database.Answer(top.conn, ping);
      if !alive {
        database.Close(top.conn);
        item := Create(connects, now);
        return;
      }
      item := Some(top);
    }

    method Put(item: Item, rolledBack: bool, now: int)
      modifies this, database
      ensures Contents() == Putting(old(Contents()), item, rolledBack, now)
    {
      database.Rollback(item.conn, rolledBack);
      if now - item.createdAt > IDLE_TTL_SECONDS {
        database.Close(item.conn);
        return;
      }
      if maxSize <= 0 || |items| < maxSize {
        items := items + [item];
      } else {
        database.Close(item.conn);
      }
    }

    method Drain()
      modifies this, database
      ensures Contents() == Draining(old(Contents()))
    {
      while |items| > 0
        invariant Draining(Contents()) == Draining(old(Contents()))
        decreases |items|
      {
        var item := items[|items| - 1];
        items := items[..|items| - 1];
        database.Close(item.conn);
      }
      createdCount := 0;
    }
  }

  // ---------------------------------------------------------------- single operations

  function Conns(items: seq<Item>): (conns: set<Conn>) {
    set item | item in items :: item.conn
  }

  function Lent(items: set<Item>): set<Conn> {
    set item | item in items :: item.conn
  }

  function Everything(made: nat): (all: set<Conn>)
    ensures forall c: Conn :: c in all <==> c < made
  {
    if made == 0 then {} else Everything(made - 1) + {made - 1}
  }

  lemma ConnsOfMore(items: seq<Item>, item: Item)
    ensures Conns(items + [item]) == Conns(items) + {item.conn}
  {
  }

  /** A returned connection that is kept is the next one lent, and lending it leaves the pool as it was. */
  lemma PutThenGet(s: State, item: Item, rolledBack: bool, now: int, connects: bool, later: int)
    ensures
      var kept := Putting(s, item, rolledBack, now);
      if now - item.createdAt > 300 || (s.maxSize > 0 && |s.items| >= s.maxSize)
      then kept.items == s.items && kept.closed == s.closed + [item.conn]
      else
        && Getting(kept, Answered(false), connects, later) == (s.(open := kept.open), Some(item))
        && Getting(kept, Answered(true), connects, later) == (s.(open := kept.open + {item.conn}), Some(item))
        && kept.closed == s.closed
  {
  }

  // ---------------------------------------------------------------- runs

  /** `borrowed` holds the items lent and not returned yet. */
  datatype Run = Run(pool: State, borrowed: set<Item>, clock: int)

  datatype Step =
    | Tick(seconds: nat)
    | Get(ping: Ping, connects: bool)
    | Use(item: Item, opens: bool)
    | Put(item: Item, rolledBack: bool)
    | Drain

  function New(maxSize: int): Run {
    Run(State(maxSize, [], 0, 0, [], {}), {}, 0)
  }

  /** Only a borrowed item can be used or returned; any other such step does nothing. */
  function Apply(r: Run, step: Step): Run {
    match step
    case Tick(seconds) => r.(clock := r.clock + seconds)
    case Get(ping, connects) =>
      var (pool, item) := Getting(r.pool, ping, connects, r.clock);
      r.(pool := pool, borrowed := if item.Some? then r.borrowed + {item.value} else r.borrowed)
    case Use(item, opens) => if item in r.borrowed then r.(pool := Using(r.pool, item, opens)) else r
    case Put(item, rolledBack) =>
      if item in r.borrowed then
        r.(pool := Putting(r.pool, item, rolledBack, r.clock), borrowed := r.borrowed - {item})
      else r
    case Drain => r.(pool := Draining(r.pool))
  }

  function Execute(r: Run, steps: seq<Step>): Run {
    if steps == [] then r else Apply(Execute(r, steps[..|steps| - 1]), steps[|steps| - 1])
  }

  /** Every connection ever made is pooled, lent or closed: exactly one of them, and exactly once. */
  ghost predicate Accounted(s: State, borrowed: set<Item>) {
    && Conns(s.items) + Lent(borrowed) + (set c | c in s.closed) == Everything(s.made)
    && Conns(s.items) !! Lent(borrowed)
    && (forall c :: c in s.closed ==> c !in Conns(s.items) && c !in Lent(borrowed))
    && Distinct(s.closed)
    && (forall i, j :: 0 <= i < j < |s.items| ==> s.items[i].conn != s.items[j].conn)
    && (forall a, b :: a in borrowed && b in borrowed && a.conn == b.conn ==> a == b)
    && |s.items| + |borrowed| + |s.closed| == s.made
  }

  /** A connection that is known but neither pooled nor lent any more, and not closed yet. */
  ghost predicate AccountedBut(s: State, borrowed: set<Item>, conn: Conn) {
    && Conns(s.items) + Lent(borrowed) + (set c | c in s.closed) + {conn} == Everything(s.made)
    && conn !in Conns(s.items) && conn !in Lent(borrowed) && conn !in s.closed
    && Conns(s.items) !! Lent(borrowed)
    && (forall c :: c in s.closed ==> c !in Conns(s.items) && c !in Lent(borrowed))
    && Distinct(s.closed)
    && (forall i, j :: 0 <= i < j < |s.items| ==> s.items[i].conn != s.items[j].conn)
    && (forall a, b :: a in borrowed && b in borrowed && a.conn == b.conn ==> a == b)
    && |s.items| + |borrowed| + |s.closed| + 1 == s.made
  }

  lemma TakingTop(s: State, borrowed: set<Item>)
    requires Accounted(s, borrowed) && s.items != []
    ensures AccountedBut(s.(items := s.items[..|s.items| - 1]), borrowed, s.items[|s.items| - 1].conn)
  {
  }

  lemma ClosingAccounts(s: State, borrowed: set<Item>, conn: Conn)
    requires AccountedBut(s, borrowed, conn)
    ensures Accounted(Closing(s, conn), borrowed)
  {
  }

  lemma LendingAccounts(s: State, borrowed: set<Item>, item: Item)
    requires AccountedBut(s, borrowed, item.conn)
    ensures Accounted(s, borrowed + {item})
  {
  }

  lemma PoolingAccounts(s: State, borrowed: set<Item>, item: Item)
    requires AccountedBut(s, borrowed, item.conn)
    ensures Accounted(s.(items := s.items + [item]), borrowed)
  {
    ConnsOfMore(s.items, item);
    forall i | 0 <= i < |s.items| ensures s.items[i].conn != item.conn {
      assert s.items[i].conn in Conns(s.items);
    }
  }

  lemma ReturningAccounts(s: State, borrowed: set<Item>, item: Item)
    requires Accounted(s, borrowed) && item in borrowed
    ensures AccountedBut(s, borrowed - {item}, item.conn)
  {
  }

  lemma OpenAccounts(s: State, borrowed: set<Item>, open: set<Conn>)
    requires Accounted(s, borrowed)
    ensures Accounted(s.(open := open), borrowed)
  {
  }

  /** A connection just made is new to all that is known. */
  lemma MakingAccounts(s: State, borrowed: set<Item>)
    requires Accounted(s, borrowed)
    ensures AccountedBut(s.(made := s.made + 1, createdCount := s.createdCount + 1), borrowed, s.made)
  {
    assert s.made !in Everything(s.made);
  }

  lemma CreatingAccounts(s: State, borrowed: set<Item>, connects: bool, now: int)
    requires Accounted(s, borrowed)
    ensures
      var (s', item) := Creating(s, connects, now);
      Accounted(s', if item.Some? then borrowed + {item.value} else borrowed)
  {
    hide Accounted, AccountedBut;
    if connects {
      MakingAccounts(s, borrowed);
      LendingAccounts(Creating(s, connects, now).0, borrowed, Item(s.made, now));
    }
  }

  lemma GettingAccounts(s: State, borrowed: set<Item>, ping: Ping, connects: bool, now: int)
    requires Accounted(s, borrowed)
    ensures
      var (s', item) := Getting(s, ping, connects, now);
      Accounted(s', if item.Some? then borrowed + {item.value} else borrowed)
  {
    hide Accounted, AccountedBut;
    if s.items == [] {
      CreatingAccounts(s, borrowed, connects, now);
    } else {
      var top, rest := s.items[|s.items| - 1], s.(items := s.items[..|s.items| - 1]);
      TakingTop(s, borrowed);
      if ping.Answered? {
        LendingAccounts(rest, borrowed, top);
        OpenAccounts(rest, borrowed + {top}, rest.open + {top.conn});
      } else {
        ClosingAccounts(rest, borrowed, top.conn);
        CreatingAccounts(Closing(rest, top.conn), borrowed, connects, now);
      }
    }
  }

  lemma PuttingAccounts(s: State, borrowed: set<Item>, item: Item, rolledBack: bool, now: int)
    requires Accounted(s, borrowed) && item in borrowed
    ensures Accounted(Putting(s, item, rolledBack, now), borrowed - {item})
  {
    var reset := if rolledBack then s.(open := s.open - {item.conn}) else s;
    assert Accounted(reset, borrowed);
    hide Accounted, AccountedBut;
    ReturningAccounts(reset, borrowed, item);
    if Stale(item, now) || Full(s) {
      ClosingAccounts(reset, borrowed - {item}, item.conn);
    } else {
      PoolingAccounts(reset, borrowed - {item}, item);
    }
  }

  /** A drain closes what is pooled and touches nothing that is lent. */
  lemma {:induction false} DrainingAccounts(s: State, borrowed: set<Item>)
    requires Accounted(s, borrowed)
    ensures Accounted(Draining(s), borrowed)
    ensures Draining(s).items == [] && Draining(s).made == s.made && Draining(s).open == s.open
    ensures Draining(s).maxSize == s.maxSize && Draining(s).createdCount == 0
    decreases |s.items|
  {
    if s.items == [] {
    } else {
      hide Accounted, AccountedBut;
      var rest, top := s.(items := s.items[..|s.items| - 1]), s.items[|s.items| - 1];
      TakingTop(s, borrowed);
      ClosingAccounts(rest, borrowed, top.conn);
      DrainingAccounts(Closing(rest, top.conn), borrowed);
    }
  }

  lemma StepAccounts(r: Run, step: Step)
    requires Accounted(r.pool, r.borrowed)
    ensures Accounted(Apply(r, step).pool, Apply(r, step).borrowed)
  {
    hide Accounted, Getting, Putting, Draining;
    match step {
      case Tick(seconds) =>
      case Get(ping, connects) => GettingAccounts(r.pool, r.borrowed, ping, connects, r.clock);
      case Use(item, opens) => OpenAccounts(r.pool, r.borrowed, Using(r.pool, item, opens).open);
      case Put(item, rolledBack) =>
        if item in r.borrowed { PuttingAccounts(r.pool, r.borrowed, item, rolledBack, r.clock); }
      case Drain => DrainingAccounts(r.pool, r.borrowed);
    }
  }

  /** Over every run, the connections made split into pooled, lent and closed ones, and none is closed twice. */
  lemma {:induction false} ConnectionsAreAccounted(maxSize: int, steps: seq<Step>)
    ensures Accounted(Execute(New(maxSize), steps).pool, Execute(New(maxSize), steps).borrowed)
  {
    if steps == [] {
    } else {
      ConnectionsAreAccounted(maxSize, steps[..|steps| - 1]);
      StepAccounts(Execute(New(maxSize), steps[..|steps| - 1]), steps[|steps| - 1]);
    }
  }

  /** A drain leaves every connection ever made closed exactly when none is lent. */
  lemma DrainClosesEverythingIff(maxSize: int, steps: seq<Step>)
    ensures
      var drained := Execute(New(maxSize), steps + [Drain]);
      (set c | c in drained.pool.closed) == Everything(drained.pool.made) <==> drained.borrowed == {}
  {
    assert (steps + [Drain])[..|steps|] == steps;
    var r := Execute(New(maxSize), steps);
    ConnectionsAreAccounted(maxSize, steps);
    DrainingAccounts(r.pool, r.borrowed);
    NothingLentIsAllClosed(Draining(r.pool), r.borrowed);
  }

  lemma NothingLentIsAllClosed(s: State, borrowed: set<Item>)
    requires Accounted(s, borrowed) && s.items == []
    ensures (set c | c in s.closed) == Everything(s.made) <==> borrowed == {}
  {
    forall item | item in borrowed ensures item.conn in Everything(s.made) && item.conn !in s.closed {
      assert item.conn in Lent(borrowed);
    }
    if borrowed != {} {
      var item :| item in borrowed;
      assert item.conn in Everything(s.made);
    }
  }

  /** A pool of positive size never holds more than that many connections. */
  lemma {:induction false} PoolStaysWithinSize(maxSize: int, steps: seq<Step>)
    requires maxSize >= 1
    ensures Execute(New(maxSize), steps).pool.maxSize == maxSize
    ensures |Execute(New(maxSize), steps).pool.items| <= maxSize
  {
    if steps == [] {
    } else {
      PoolStaysWithinSize(maxSize, steps[..|steps| - 1]);
      ConnectionsAreAccounted(maxSize, steps[..|steps| - 1]);
      var r := Execute(New(maxSize), steps[..|steps| - 1]);
      hide Accounted;
      if steps[|steps| - 1].Drain? { DrainingAccounts(r.pool, r.borrowed); }
    }
  }

  /** The seconds that have passed in a run. */
  function Elapsed(steps: seq<Step>): nat {
    if steps == [] then 0
    else Elapsed(steps[..|steps| - 1]) + if steps[|steps| - 1].Tick? then steps[|steps| - 1].seconds else 0
  }

  lemma {:induction false} ClockIsElapsed(maxSize: int, steps: seq<Step>)
    ensures Execute(New(maxSize), steps).clock == Elapsed(steps)
  {
    if steps == [] {
    } else {
      ClockIsElapsed(maxSize, steps[..|steps| - 1]);
    }
  }

  /**
    What a run lends next. A pooled connection is lent only after it has answered its ping, and then
    it is the newest one; one that does not answer is closed; and what is lent instead is a connection
    never known before, made at the present time.
   */
  lemma LentHasAnswered(maxSize: int, steps: seq<Step>, ping: Ping, connects: bool)
    ensures
      var r := Execute(New(maxSize), steps);
      var items, (pool, item) := r.pool.items, Getting(r.pool, ping, connects, r.clock);
      if items != [] && ping.Answered? then
        item == Some(items[|items| - 1]) && pool.items == items[..|items| - 1] && pool.closed == r.pool.closed
      else
        && pool.items == (if items == [] then [] else items[..|items| - 1])
        && pool.closed == r.pool.closed + (if items == [] then [] else [items[|items| - 1].conn])
        && (item.Some? <==> connects)
        && (item.Some? ==>
              && item.value.createdAt == Elapsed(steps)
              && item.value.conn !in Conns(items) + Lent(r.borrowed) && item.value.conn !in r.pool.closed
              && pool.made == r.pool.made + 1)
  {
    ConnectionsAreAccounted(maxSize, steps);
    ClockIsElapsed(maxSize, steps);
    var r := Execute(New(maxSize), steps);
    NextIsUnknown(r.pool, r.borrowed);
    hide Execute, Accounted;
  }

  lemma NextIsUnknown(s: State, borrowed: set<Item>)
    requires Accounted(s, borrowed)
    ensures s.made !in Conns(s.items) + Lent(borrowed) && s.made !in s.closed
  {
    assert s.made !in Everything(s.made);
  }

  // ---------------------------------------------------------------- uses and rollbacks

  /** The step is a use of this connection by whoever has it. */
  ghost predicate IsUse(maxSize: int, steps: seq<Step>, i: nat, conn: Conn)
    requires i < |steps|
  {
    steps[i].Use? && steps[i].item.conn == conn && steps[i].item in Execute(New(maxSize), steps[..i]).borrowed
  }

  /** The step returns this connection. */
  ghost predicate IsReturn(maxSize: int, steps: seq<Step>, i: nat, conn: Conn)
    requires i < |steps|
  {
    steps[i].Put? && steps[i].item.conn == conn && steps[i].item in Execute(New(maxSize), steps[..i]).borrowed
  }

  /** The step returns this connection, and its rollback succeeds. */
  ghost predicate IsReset(maxSize: int, steps: seq<Step>, i: nat, conn: Conn)
    requires i < |steps|
  {
    IsReturn(maxSize, steps, i, conn) && steps[i].rolledBack
  }

  lemma StepsOfPrefix(maxSize: int, steps: seq<Step>, n: nat, i: nat, conn: Conn)
    requires i < n <= |steps|
    ensures IsUse(maxSize, steps[..n], i, conn) == IsUse(maxSize, steps, i, conn)
    ensures IsReturn(maxSize, steps[..n], i, conn) == IsReturn(maxSize, steps, i, conn)
    ensures Opens(maxSize, steps[..n], i, conn) == Opens(maxSize, steps, i, conn)
  {
    assert steps[..n][..i] == steps[..i] && steps[..n][i] == steps[i];
  }

  ghost predicate IsLastUse(maxSize: int, steps: seq<Step>, i: nat, conn: Conn)
    requires i < |steps|
  {
    IsUse(maxSize, steps, i, conn) && forall j :: i < j < |steps| ==> !IsReset(maxSize, steps, j, conn)
  }

  /** The connection was used, and no return since then rolled it back. */
  ghost predicate UsedSinceReset(maxSize: int, steps: seq<Step>, conn: Conn) {
    exists i :: 0 <= i < |steps| && IsLastUse(maxSize, steps, i, conn)
  }

  /** After a use a return of the connection failed to roll it back, and none since that use succeeded. */
  ghost predicate RollbackFailedSinceUse(maxSize: int, steps: seq<Step>, conn: Conn) {
    exists i, j :: 0 <= i < j < |steps| && IsLastUse(maxSize, steps, i, conn) && IsReturn(maxSize, steps, j, conn)
  }

  /** Only its return ends the lending of a connection. */
  lemma StillLent(maxSize: int, steps: seq<Step>, step: Step, conn: Conn)
    requires conn in Lent(Execute(New(maxSize), steps).borrowed)
    requires conn !in Lent(Execute(New(maxSize), steps + [step]).borrowed)
    ensures IsReturn(maxSize, steps + [step], |steps|, conn)
  {
    assert (steps + [step])[..|steps|] == steps;
    var r := Execute(New(maxSize), steps);
    var item :| item in r.borrowed && item.conn == conn;
    hide Getting, Putting, Draining;
    assert item !in Apply(r, step).borrowed;
  }

  /** A connection that was lent and is not any more was returned in between. */
  lemma {:induction false} LentIsReturned(maxSize: int, steps: seq<Step>, i: nat, conn: Conn) returns (j: nat)
    requires i < |steps| && conn in Lent(Execute(New(maxSize), steps[..i]).borrowed)
    requires conn !in Lent(Execute(New(maxSize), steps).borrowed)
    ensures i <= j < |steps| && IsReturn(maxSize, steps, j, conn)
    decreases |steps|
  {
    var n := |steps| - 1;
    assert steps == steps[..n] + [steps[n]];
    hide IsReturn, Execute;
    if conn in Lent(Execute(New(maxSize), steps[..n]).borrowed) {
      StillLent(maxSize, steps[..n], steps[n], conn);
      j := n;
    } else {
      assert i < n && steps[..n][..i] == steps[..i];
      j := LentIsReturned(maxSize, steps[..n], i, conn);
      StepsOfPrefix(maxSize, steps, n, j, conn);
    }
  }

  lemma UsedIsLent(maxSize: int, steps: seq<Step>, i: nat, conn: Conn)
    requires i < |steps| && IsUse(maxSize, steps, i, conn)
    ensures conn in Lent(Execute(New(maxSize), steps[..i]).borrowed) && !IsReturn(maxSize, steps, i, conn)
  {
  }

  /**
    A connection that is not lent has been used since its last successful rollback exactly when a
    return after that use failed to roll it back.
   */
  lemma UnresetIffRollbackFailed(maxSize: int, steps: seq<Step>, conn: Conn)
    requires conn !in Lent(Execute(New(maxSize), steps).borrowed)
    ensures UsedSinceReset(maxSize, steps, conn) <==> RollbackFailedSinceUse(maxSize, steps, conn)
  {
    if UsedSinceReset(maxSize, steps, conn) {
      var i :| 0 <= i < |steps| && IsLastUse(maxSize, steps, i, conn);
      UsedIsLent(maxSize, steps, i, conn);
      var j := LentIsReturned(maxSize, steps, i, conn);
      assert i < j;
    }
  }

  /**
    Every connection a run lends is lent to nobody else and not closed. It is fresh or has been
    rolled back since its last use, except exactly where a return after that use failed to do so.
   */
  lemma LentConnectionIsReset(maxSize: int, steps: seq<Step>, ping: Ping, connects: bool)
    ensures
      var r := Execute(New(maxSize), steps);
      var (pool, item) := Getting(r.pool, ping, connects, r.clock);
      item.Some? ==>
        && item.value.conn !in Lent(r.borrowed) && item.value.conn !in pool.closed
        && (UsedSinceReset(maxSize, steps, item.value.conn) <==>
            RollbackFailedSinceUse(maxSize, steps, item.value.conn))
  {
    ConnectionsAreAccounted(maxSize, steps);
    var r := Execute(New(maxSize), steps);
    hide Execute, UsedSinceReset, RollbackFailedSinceUse;
    GettingAccounts(r.pool, r.borrowed, ping, connects, r.clock);
    var (pool, item) := Getting(r.pool, ping, connects, r.clock);
    if item.Some? {
      assert item.value in r.borrowed + {item.value};
      assert item.value.conn in Lent(r.borrowed + {item.value});
      LentIsNotPooled(r.pool, r.borrowed, ping, connects, r.clock);
      UnresetIffRollbackFailed(maxSize, steps, item.value.conn);
    }
  }

  lemma LentIsNotPooled(s: State, borrowed: set<Item>, ping: Ping, connects: bool, now: int)
    requires Accounted(s, borrowed)
    ensures
      var (s', item) := Getting(s, ping, connects, now);
      item.Some? ==> item.value.conn !in Lent(borrowed)
  {
  }

  // ---------------------------------------------------------------- open transactions

  /** The next one to ask gets this pooled connection if it answers the ping. */
  predicate IsNext(s: State, conn: Conn) {
    s.items != [] && s.items[|s.items| - 1].conn == conn
  }

  /** The step leaves a transaction open: the ping before it is lent, or a use. */
  ghost predicate Opens(maxSize: int, steps: seq<Step>, i: nat, conn: Conn)
    requires i < |steps|
  {
    || (IsUse(maxSize, steps, i, conn) && steps[i].opens)
    || (steps[i].Get? && steps[i].ping == Answered(true) && IsNext(Execute(New(maxSize), steps[..i]).pool, conn))
  }

  /** The step leaves no transaction: a use that ends it, or a return with a successful rollback. */
  ghost predicate Ends(maxSize: int, steps: seq<Step>, i: nat, conn: Conn)
    requires i < |steps|
  {
    (IsUse(maxSize, steps, i, conn) && !steps[i].opens) || IsReset(maxSize, steps, i, conn)
  }

  ghost predicate IsLastOpening(maxSize: int, steps: seq<Step>, i: nat, conn: Conn)
    requires i < |steps|
  {
    Opens(maxSize, steps, i, conn) && forall j :: i < j < |steps| ==> !Ends(maxSize, steps, j, conn)
  }

  /** A ping or a use left a transaction open, and neither a use nor a rollback has ended it since. */
  ghost predicate LeftOpen(maxSize: int, steps: seq<Step>, conn: Conn) {
    exists i :: 0 <= i < |steps| && IsLastOpening(maxSize, steps, i, conn)
  }

  lemma LastOpeningOfMore(maxSize: int, steps: seq<Step>, step: Step, i: nat, conn: Conn)
    requires i < |steps|
    ensures IsLastOpening(maxSize, steps + [step], i, conn) <==>
            IsLastOpening(maxSize, steps, i, conn) && !Ends(maxSize, steps + [step], |steps|, conn)
  {
    var all := steps + [step];
    assert all[..|steps|] == steps;
    forall j | 0 <= j < |steps|
      ensures Opens(maxSize, all, j, conn) == Opens(maxSize, steps, j, conn)
      ensures Ends(maxSize, all, j, conn) == Ends(maxSize, steps, j, conn)
    {
      StepsOfPrefix(maxSize, all, |steps|, j, conn);
    }
    hide Opens, Ends;
    assert Ends(maxSize, all, |steps|, conn) || !Ends(maxSize, all, |steps|, conn);
  }

  lemma LeftOpenOfMore(maxSize: int, steps: seq<Step>, step: Step, conn: Conn)
    ensures LeftOpen(maxSize, steps + [step], conn) <==>
            || Opens(maxSize, steps + [step], |steps|, conn)
            || (LeftOpen(maxSize, steps, conn) && !Ends(maxSize, steps + [step], |steps|, conn))
  {
    hide Opens, Ends;
    var all := steps + [step];
    forall i | 0 <= i < |steps|
      ensures IsLastOpening(maxSize, all, i, conn) <==>
              IsLastOpening(maxSize, steps, i, conn) && !Ends(maxSize, all, |steps|, conn)
    {
      LastOpeningOfMore(maxSize, steps, step, i, conn);
    }
    assert IsLastOpening(maxSize, all, |steps|, conn) <==> Opens(maxSize, all, |steps|, conn);
    if LeftOpen(maxSize, steps, conn) && !Ends(maxSize, all, |steps|, conn) {
      var i :| 0 <= i < |steps| && IsLastOpening(maxSize, steps, i, conn);
      assert IsLastOpening(maxSize, all, i, conn);
    }
    if LeftOpen(maxSize, all, conn) {
      var i :| 0 <= i < |all| && IsLastOpening(maxSize, all, i, conn);
      assert i == |steps| || IsLastOpening(maxSize, steps, i, conn);
    }
  }

  /** A drain touches no transaction. */
  lemma {:induction false} DrainingKeepsOpen(s: State)
    ensures Draining(s).open == s.open
    decreases |s.items|
  {
    if s.items == [] {
    } else {
      DrainingKeepsOpen(Closing(s.(items := s.items[..|s.items| - 1]), s.items[|s.items| - 1].conn));
    }
  }

  /**
    Over every run a connection has a transaction open exactly if a ping or a use left one open and
    neither a use nor a rollback has ended it since.
   */
  lemma {:induction false} OpenIffLeftOpen(maxSize: int, steps: seq<Step>, conn: Conn)
    ensures conn in Execute(New(maxSize), steps).pool.open <==> LeftOpen(maxSize, steps, conn)
  {
    if steps == [] {
    } else {
      var before, step := steps[..|steps| - 1], steps[|steps| - 1];
      assert steps == before + [step];
      OpenIffLeftOpen(maxSize, before, conn);
      LeftOpenOfMore(maxSize, before, step, conn);
      hide LeftOpen;
      if step.Drain? { DrainingKeepsOpen(Execute(New(maxSize), before).pool); }
    }
  }

  /**
    A connection a run lends has a transaction open if and only if its own ping has just left one
    open, or one was left open before and neither a use nor a rollback has ended it.
   */
  lemma LentWithTransactionIff(maxSize: int, steps: seq<Step>, ping: Ping, connects: bool)
    ensures
      var r := Execute(New(maxSize), steps);
      var (pool, item) := Getting(r.pool, ping, connects, r.clock);
      item.Some? ==>
        (item.value.conn in pool.open <==>
         || (ping == Answered(true) && IsNext(r.pool, item.value.conn))
         || LeftOpen(maxSize, steps, item.value.conn))
  {
    var r := Execute(New(maxSize), steps);
    var (pool, item) := Getting(r.pool, ping, connects, r.clock);
    if item.Some? {
      OpenIffLeftOpen(maxSize, steps, item.value.conn);
      hide LeftOpen, Execute;
    }
  }

  /** A run of four steps, one after another. */
  lemma FourSteps(maxSize: int, use: Step, put: Step, ping: Ping)
    ensures
      var steps := [Get(Unanswered, true), use, put, Get(ping, true)];
      var r1 := Apply(New(maxSize), Get(Unanswered, true));
      var r2 := Apply(r1, use);
      && Execute(New(maxSize), steps[..1]) == r1 && Execute(New(maxSize), steps[..2]) == r2
      && Execute(New(maxSize), steps) == Apply(Apply(r2, put), Get(ping, true))
  {
    hide Apply;
    var steps := [Get(Unanswered, true), use, put, Get(ping, true)];
    forall n | 0 < n <= 4
      ensures Execute(New(maxSize), steps[..n]) == Apply(Execute(New(maxSize), steps[..n - 1]), steps[n - 1])
    {
      assert steps[..n][..n - 1] == steps[..n - 1];
    }
    assert steps[..4] == steps;
  }

  /**
    One connection is made, used, returned and lent again. A ping that opens a transaction hands it
    on with one although its rollback succeeded; a failed rollback is overlooked, and hands it on
    with one exactly if the use left one open.
   */
  lemma TransactionIsHandedOn(maxSize: int, opens: bool, rolledBack: bool, pingOpens: bool)
    ensures
      var item := Item(0, 0);
      var steps := [Get(Unanswered, true), Use(item, opens), Put(item, rolledBack), Get(Answered(pingOpens), true)];
      var r := Execute(New(maxSize), steps);
      && r.borrowed == {item}
      && (item.conn in r.pool.open <==> pingOpens || (opens && !rolledBack))
      && (UsedSinceReset(maxSize, steps, item.conn) <==> !rolledBack)
  {
    var item := Item(0, 0);
    FourSteps(maxSize, Use(item, opens), Put(item, rolledBack), Answered(pingOpens));
    var r1 := Apply(New(maxSize), Get(Unanswered, true));
    assert r1.borrowed == {item} && Apply(r1, Use(item, opens)).borrowed == {item};
    var steps := [Get(Unanswered, true), Use(item, opens), Put(item, rolledBack), Get(Answered(pingOpens), true)];
    assert IsUse(maxSize, steps, 1, item.conn);
    assert IsReset(maxSize, steps, 2, item.conn) <==> rolledBack;
    assert !rolledBack ==> IsLastUse(maxSize, steps, 1, item.conn);
  }
}
