/**
  What a reload of the datasources does to their connection pools while operations go on.

  An operation takes two steps to get a connection, and a reload two steps to get rid of a pool, so
  either can come in between the other's.
 */
module PoolReplacement {
  import opened ConnectionPool
  import opened Wrappers

  type Source = string
  type PoolId = nat
  type OperationId = nat

  /** An operation first fetches the pool of its datasource, then takes a connection from that pool. */
  datatype Operation = Fetched(pool: PoolId) | Holding(pool: PoolId, item: Item)

  /**
    All pools ever made; `current` names the one each datasource uses now, `retiring` those a reload
    has replaced but not drained yet.
   */
  datatype Service = Service(
    clock: int, pools: map<PoolId, Run>, current: map<Source, PoolId>, retiring: set<PoolId>,
    operations: map<OperationId, Operation>)

  /** A reload replaces all pools at once and then drains them one by one. */
  datatype ServiceStep =
    | Elapse(seconds: nat)
    | Fetch(operation: OperationId, source: Source, made: PoolId, maxSize: int)
    | Borrow(operation: OperationId, ping: Ping, connects: bool)
    | Work(operation: OperationId, opens: bool)
    | Return(operation: OperationId, rolledBack: bool)
    | Replace
    | DrainOld(pool: PoolId)

  const NO_POOLS := Service(0, map[], map[], {}, map[])

  predicate InUse(s: Service, p: PoolId) {
    p in s.current.Values
  }

  predicate Stands(s: Service, operation: OperationId) {
    operation in s.operations && s.operations[operation].pool in s.pools
  }

  predicate Holds(s: Service, operation: OperationId) {
    Stands(s, operation) && s.operations[operation].Holding?
  }

  function OnPool(s: Service, p: PoolId, step: Step): Service
    requires p in s.pools
  {
    s.(pools := s.pools[p := Apply(s.pools[p], step)])
  }

  function Fetching(s: Service, operation: OperationId, source: Source, made: PoolId, maxSize: int): Service {
    if operation in s.operations then s
    else if source in s.current then s.(operations := s.operations[operation := Fetched(s.current[source])])
    else if made in s.pools then s
    else s.(pools := s.pools[made := New(maxSize).(clock := s.clock)],
            current := s.current[source := made],
            operations := s.operations[operation := Fetched(made)])
  }

  /** The operation ends here if no connection can be made. */
  function Borrowing(s: Service, operation: OperationId, ping: Ping, connects: bool): Service {
    if Stands(s, operation) && s.operations[operation].Fetched? then
      var p := s.operations[operation].pool;
      var item := Getting(s.pools[p].pool, ping, connects, s.pools[p].clock).1;
      OnPool(s, p, Get(ping, connects)).(operations :=
        if item.Some? then s.operations[operation := Holding(p, item.value)] else s.operations - {operation})
    else s
  }

  function ApplyService(s: Service, step: ServiceStep): Service {
    match step
    case Elapse(seconds) =>
      s.(clock := s.clock + seconds, pools := map p | p in s.pools :: Apply(s.pools[p], Tick(seconds)))
    case Fetch(operation, source, made, maxSize) => Fetching(s, operation, source, made, maxSize)
    case Borrow(operation, ping, connects) => Borrowing(s, operation, ping, connects)
    case Work(operation, opens) =>
      if Holds(s, operation)
      then OnPool(s, s.operations[operation].pool, Use(s.operations[operation].item, opens))
      else s
    case Return(operation, rolledBack) =>
      if Holds(s, operation)
      then OnPool(s, s.operations[operation].pool, Put(s.operations[operation].item, rolledBack)).(
             operations := s.operations - {operation})
      else s
    case Replace => s.(retiring := s.retiring + s.current.Values, current := map[])
    case DrainOld(p) =>
      if p in s.retiring && p in s.pools then OnPool(s, p, Drain).(retiring := s.retiring - {p}) else s
  }

  function ExecuteService(s: Service, steps: seq<ServiceStep>): Service {
    if steps == [] then s else ApplyService(ExecuteService(s, steps[..|steps| - 1]), steps[|steps| - 1])
  }

  // ---------------------------------------------------------------- who holds what

  ghost predicate PoolsFit(s: Service) {
    && (forall p :: p in s.pools ==> Accounted(s.pools[p].pool, s.pools[p].borrowed))
    && (forall source :: source in s.current ==> s.current[source] in s.pools && s.current[source] !in s.retiring)
    && s.retiring <= s.pools.Keys
  }

  ghost predicate OperationFits(s: Service, operation: OperationId)
    requires operation in s.operations
  {
    var o := s.operations[operation];
    o.pool in s.pools && (o.Holding? ==> o.item in s.pools[o.pool].borrowed)
  }

  predicate SameHold(a: Operation, b: Operation) {
    a.Holding? && a == b
  }

  ghost predicate OperationsFit(s: Service) {
    && (forall o :: o in s.operations ==> OperationFits(s, o))
    && (forall a, b :: a in s.operations && b in s.operations && SameHold(s.operations[a], s.operations[b]) ==> a == b)
  }

  ghost predicate IsHeld(s: Service, p: PoolId, item: Item) {
    exists o :: o in s.operations && s.operations[o] == Holding(p, item)
  }

  ghost predicate LentIsHeld(s: Service) {
    forall p, item :: p in s.pools && item in s.pools[p].borrowed ==> IsHeld(s, p, item)
  }

  /** Each lent connection is in the hands of exactly one operation. */
  ghost predicate Sound(s: Service) {
    PoolsFit(s) && OperationsFit(s) && LentIsHeld(s)
  }

  lemma PoolStepFits(s: Service, p: PoolId, step: Step)
    requires PoolsFit(s) && p in s.pools
    ensures PoolsFit(OnPool(s, p, step))
  {
    hide Accounted;
    StepAccounts(s.pools[p], step);
  }

  lemma FetchKeepsPools(s: Service, operation: OperationId, source: Source, made: PoolId, maxSize: int)
    requires PoolsFit(s)
    ensures PoolsFit(Fetching(s, operation, source, made, maxSize))
  {
    hide Accounted;
    ConnectionsAreAccounted(maxSize, []);
  }

  lemma FetchKeepsOperations(s: Service, operation: OperationId, source: Source, made: PoolId, maxSize: int)
    requires PoolsFit(s) && OperationsFit(s)
    ensures OperationsFit(Fetching(s, operation, source, made, maxSize))
  {
    hide Accounted;
    var s' := Fetching(s, operation, source, made, maxSize);
    forall o | o in s'.operations ensures OperationFits(s', o) {
      assert o in s.operations ==> OperationFits(s, o);
    }
    forall a, b | a in s'.operations && b in s'.operations && SameHold(s'.operations[a], s'.operations[b])
      ensures a == b
    {
      assert a in s.operations && b in s.operations ==> s'.operations[a] == s.operations[a];
    }
  }

  lemma FetchKeepsHeld(s: Service, operation: OperationId, source: Source, made: PoolId, maxSize: int)
    requires LentIsHeld(s)
    ensures LentIsHeld(Fetching(s, operation, source, made, maxSize))
  {
    var s' := Fetching(s, operation, source, made, maxSize);
    if operation !in s.operations {
      forall p, item | p in s'.pools && item in s'.pools[p].borrowed ensures IsHeld(s', p, item) {
        HeldStays(s, s', p, item, operation);
      }
    }
  }

  /** What a pool lends was not lent before. */
  lemma LentItemIsNew(r: Run, ping: Ping, connects: bool)
    requires Accounted(r.pool, r.borrowed)
    ensures
      var item := Getting(r.pool, ping, connects, r.clock).1;
      item.Some? ==> item.value !in r.borrowed
  {
    LentIsNotPooled(r.pool, r.borrowed, ping, connects, r.clock);
    var item := Getting(r.pool, ping, connects, r.clock).1;
    hide Accounted, Getting;
    assert forall x :: x in r.borrowed ==> x.conn in Lent(r.borrowed);
  }

  lemma BorrowKeepsOperations(s: Service, operation: OperationId, ping: Ping, connects: bool)
    requires PoolsFit(s) && OperationsFit(s)
    ensures OperationsFit(Borrowing(s, operation, ping, connects))
  {
    hide Accounted, Getting;
    if Stands(s, operation) && s.operations[operation].Fetched? {
      var p, s' := s.operations[operation].pool, Borrowing(s, operation, ping, connects);
      LentItemIsNew(s.pools[p], ping, connects);
      forall o | o in s'.operations ensures OperationFits(s', o) {
        assert OperationFits(s, o);
      }
      forall a, b | a in s'.operations && b in s'.operations && SameHold(s'.operations[a], s'.operations[b])
        ensures a == b
      {
        assert OperationFits(s, a) && OperationFits(s, b);
        assert a != operation && b != operation ==> SameHold(s.operations[a], s.operations[b]);
      }
    }
  }

  lemma BorrowKeepsHeld(s: Service, operation: OperationId, ping: Ping, connects: bool)
    requires LentIsHeld(s)
    ensures LentIsHeld(Borrowing(s, operation, ping, connects))
  {
    hide Getting;
    if Stands(s, operation) && s.operations[operation].Fetched? {
      var p, s' := s.operations[operation].pool, Borrowing(s, operation, ping, connects);
      forall q, x | q in s'.pools && x in s'.pools[q].borrowed ensures IsHeld(s', q, x) {
        if q in s.pools && x in s.pools[q].borrowed {
          HeldStays(s, s', q, x, operation);
        } else {
          assert s'.operations[operation] == Holding(p, x);
        }
      }
    }
  }

  /** What another operation holds stays held. */
  lemma HeldStays(s: Service, s': Service, p: PoolId, item: Item, operation: OperationId)
    requires IsHeld(s, p, item)
    requires forall o :: o in s.operations && o != operation ==>
        o in s'.operations && s'.operations[o] == s.operations[o]
    requires operation in s.operations ==> s.operations[operation] != Holding(p, item)
    ensures IsHeld(s', p, item)
  {
    var o :| o in s.operations && s.operations[o] == Holding(p, item);
    assert s'.operations[o] == Holding(p, item);
  }

  lemma ReturnKeepsOperations(s: Service, operation: OperationId, rolledBack: bool)
    requires OperationsFit(s) && Holds(s, operation)
    ensures OperationsFit(ApplyService(s, Return(operation, rolledBack)))
  {
    hide Putting;
    var s' := ApplyService(s, Return(operation, rolledBack));
    forall o | o in s'.operations ensures OperationFits(s', o) {
      assert OperationFits(s, o);
      assert !SameHold(s.operations[o], s.operations[operation]);
    }
    forall a, b | a in s'.operations && b in s'.operations && SameHold(s'.operations[a], s'.operations[b])
      ensures a == b
    {
      assert SameHold(s.operations[a], s.operations[b]);
    }
  }

  lemma ReturnKeepsHeld(s: Service, operation: OperationId, rolledBack: bool)
    requires OperationsFit(s) && LentIsHeld(s) && Holds(s, operation)
    ensures LentIsHeld(ApplyService(s, Return(operation, rolledBack)))
  {
    hide Putting, Borrowing, Fetching;
    var p, item := s.operations[operation].pool, s.operations[operation].item;
    var s' := ApplyService(s, Return(operation, rolledBack));
    assert OperationFits(s, operation);
    forall q, x | q in s'.pools && x in s'.pools[q].borrowed ensures IsHeld(s', q, x) {
      HeldStays(s, s', q, x, operation);
    }
  }

  /** A step that leaves operations and lent connections as they are. */
  lemma QuietKeepsSound(s: Service, s': Service)
    requires OperationsFit(s) && LentIsHeld(s)
    requires s'.operations == s.operations && s'.pools.Keys == s.pools.Keys
    requires forall p :: p in s.pools ==> s'.pools[p].borrowed == s.pools[p].borrowed
    ensures OperationsFit(s') && LentIsHeld(s')
  {
    forall o | o in s'.operations ensures OperationFits(s', o) {
      assert OperationFits(s, o);
    }
    forall p, item | p in s'.pools && item in s'.pools[p].borrowed ensures IsHeld(s', p, item) {
      assert IsHeld(s, p, item);
      var o :| o in s.operations && s.operations[o] == Holding(p, item);
      assert s'.operations[o] == Holding(p, item);
    }
  }

  lemma StepKeepsPools(s: Service, step: ServiceStep)
    requires PoolsFit(s)
    ensures PoolsFit(ApplyService(s, step))
  {
    hide Accounted, Draining, Putting, Getting;
    match step {
      case Elapse(seconds) =>
      case Fetch(o, source, made, maxSize) => hide Fetching; FetchKeepsPools(s, o, source, made, maxSize);
      case Borrow(o, ping, connects) =>
        if Stands(s, o) { PoolStepFits(s, s.operations[o].pool, Get(ping, connects)); }
      case Work(o, opens) =>
        if Holds(s, o) { PoolStepFits(s, s.operations[o].pool, Use(s.operations[o].item, opens)); }
      case Return(o, rolledBack) =>
        if Holds(s, o) { PoolStepFits(s, s.operations[o].pool, Put(s.operations[o].item, rolledBack)); }
      case Replace =>
      case DrainOld(p) => if p in s.retiring { PoolStepFits(s, p, Drain); }
    }
  }

  lemma StepKeepsSound(s: Service, step: ServiceStep)
    requires Sound(s)
    ensures Sound(ApplyService(s, step))
  {
    hide PoolsFit, OperationsFit, LentIsHeld, Borrowing, Fetching, Draining, Putting, Getting;
    StepKeepsPools(s, step);
    match step {
      case Fetch(o, source, made, maxSize) =>
        FetchKeepsOperations(s, o, source, made, maxSize);
        FetchKeepsHeld(s, o, source, made, maxSize);
      case Borrow(o, ping, connects) =>
        BorrowKeepsOperations(s, o, ping, connects);
        BorrowKeepsHeld(s, o, ping, connects);
      case Return(o, rolledBack) =>
        if Holds(s, o) {
          ReturnKeepsOperations(s, o, rolledBack);
          ReturnKeepsHeld(s, o, rolledBack);
        }
      case _ => QuietKeepsSound(s, ApplyService(s, step));
    }
  }

  /** Over every run of operations and reloads, each lent connection is held by exactly one operation. */
  lemma {:induction false} ServiceStaysSound(s: Service, steps: seq<ServiceStep>)
    requires Sound(s)
    ensures Sound(ExecuteService(s, steps))
  {
    if steps == [] {
    } else {
      ServiceStaysSound(s, steps[..|steps| - 1]);
      StepKeepsSound(ExecuteService(s, steps[..|steps| - 1]), steps[|steps| - 1]);
    }
  }

  // ---------------------------------------------------------------- what a reload leaves behind

  /** A pool with every connection closed. */
  ghost predicate Empty(r: Run) {
    (set c | c in r.pool.closed) == Everything(r.pool.made)
  }

  lemma DrainEmptiesIff(r: Run)
    requires Accounted(r.pool, r.borrowed)
    ensures Empty(Apply(r, Drain)) <==> r.borrowed == {}
  {
    hide Accounted;
    DrainingAccounts(r.pool, r.borrowed);
    NothingLentIsAllClosed(Draining(r.pool), r.borrowed);
  }

  /** When a reload drains a pool, the pool is closed down completely exactly when nothing of it is lent. */
  lemma ReloadClosesPoolIff(s: Service, p: PoolId)
    requires PoolsFit(s) && p in s.retiring && p in s.pools
    ensures Empty(ApplyService(s, DrainOld(p)).pools[p]) <==> s.pools[p].borrowed == {}
  {
    hide Accounted, Empty, Draining;
    DrainEmptiesIff(s.pools[p]);
  }

  /** Replaced and drained. */
  predicate IsRetired(s: Service, p: PoolId) {
    p in s.pools && !InUse(s, p) && p !in s.retiring
  }

  predicate NobodyOn(s: Service, p: PoolId) {
    forall o :: o in s.operations ==> s.operations[o].pool != p
  }

  /** The operation may still put a connection into its pool: it has none yet, or one that is young enough. */
  predicate IsRisky(s: Service, o: OperationId) {
    Stands(s, o) &&
    (s.operations[o].Fetched? || !Stale(s.operations[o].item, s.pools[s.operations[o].pool].clock))
  }

  ghost predicate NoRisk(s: Service, p: PoolId) {
    forall o :: o in s.operations && IsRisky(s, o) ==> s.operations[o].pool != p
  }

  /** A retired pool that holds nothing and will not be given anything. */
  ghost predicate IsQuiet(s: Service, p: PoolId) {
    IsRetired(s, p) && NoRisk(s, p) && s.pools[p].pool.items == []
  }

  lemma BorrowStaysQuiet(s: Service, p: PoolId, operation: OperationId, ping: Ping, connects: bool)
    requires IsQuiet(s, p)
    ensures IsQuiet(Borrowing(s, operation, ping, connects), p)
  {
    var s' := Borrowing(s, operation, ping, connects);
    assert operation in s.operations && IsRisky(s, operation) ==> s.operations[operation].pool != p;
    hide Getting;
    forall o | o in s'.operations && IsRisky(s', o) ensures s'.operations[o].pool != p {
      assert o != operation && s.operations[o].pool == p ==> !IsRisky(s, o);
    }
  }

  lemma ReturnStaysQuiet(s: Service, p: PoolId, operation: OperationId, rolledBack: bool)
    requires IsQuiet(s, p) && Holds(s, operation)
    ensures IsQuiet(ApplyService(s, Return(operation, rolledBack)), p)
  {
    var s' := ApplyService(s, Return(operation, rolledBack));
    assert s.operations[operation].pool == p ==> !IsRisky(s, operation);
    forall o | o in s'.operations && IsRisky(s', o) ensures s'.operations[o].pool != p {
      assert s.operations[o].pool == p ==> !IsRisky(s, o);
    }
  }

  lemma OtherStepStaysQuiet(s: Service, p: PoolId, step: ServiceStep)
    requires PoolsFit(s) && IsQuiet(s, p) && !step.Borrow? && !step.Return?
    ensures IsQuiet(ApplyService(s, step), p)
  {
    hide Accounted, Draining;
    var s' := ApplyService(s, step);
    assert IsRetired(s', p);
    forall o | o in s'.operations && IsRisky(s', o) ensures s'.operations[o].pool != p {
      if o in s.operations { assert s.operations[o].pool == p ==> !IsRisky(s, o); }
    }
  }

  lemma {:induction false} QuietStaysQuiet(s: Service, p: PoolId, steps: seq<ServiceStep>)
    requires Sound(s) && IsQuiet(s, p)
    ensures IsQuiet(ExecuteService(s, steps), p)
  {
    if steps == [] {
    } else {
      hide Sound, IsQuiet, ApplyService;
      QuietStaysQuiet(s, p, steps[..|steps| - 1]);
      ServiceStaysSound(s, steps[..|steps| - 1]);
      StepStaysQuiet(ExecuteService(s, steps[..|steps| - 1]), p, steps[|steps| - 1]);
    }
  }

  lemma StepStaysQuiet(s: Service, p: PoolId, step: ServiceStep)
    requires Sound(s) && IsQuiet(s, p)
    ensures IsQuiet(ApplyService(s, step), p)
  {
    hide IsQuiet, PoolsFit, OperationsFit, LentIsHeld, Borrowing;
    match step {
      case Borrow(o, ping, connects) => BorrowStaysQuiet(s, p, o, ping, connects);
      case Return(o, rolledBack) => if Holds(s, o) { ReturnStaysQuiet(s, p, o, rolledBack); }
      case _ => OtherStepStaysQuiet(s, p, step);
    }
  }

  lemma DrainingRisklessIsQuiet(s: Service, p: PoolId)
    requires PoolsFit(s) && p in s.retiring && NoRisk(s, p)
    ensures IsQuiet(ApplyService(s, DrainOld(p)), p)
  {
    hide Accounted, Draining;
    var s' := ApplyService(s, DrainOld(p));
    DrainingAccounts(s.pools[p].pool, s.pools[p].borrowed);
    forall o | o in s'.operations && IsRisky(s', o) ensures s'.operations[o].pool != p {
      assert s.operations[o].pool == p ==> !IsRisky(s, o);
    }
  }

  /** How an operation on a drained pool can go on: get a connection if it has none, and return it at once. */
  function Finishing(s: Service, o: OperationId): seq<ServiceStep>
    requires o in s.operations
  {
    if s.operations[o].Fetched? then [Borrow(o, Answered(true), true), Return(o, true)] else [Return(o, true)]
  }

  lemma DrainedIsRetired(s: Service, p: PoolId)
    requires PoolsFit(s) && p in s.retiring
    ensures
      var drained := ApplyService(s, DrainOld(p));
      && p in drained.pools && IsRetired(drained, p) && drained.pools[p].pool.items == []
      && drained.pools[p].clock == s.pools[p].clock && drained.pools[p].borrowed == s.pools[p].borrowed
      && drained.operations == s.operations
  {
    hide Accounted, Draining;
    DrainingAccounts(s.pools[p].pool, s.pools[p].borrowed);
  }

  /** A young connection returned to an empty retired pool stays in it. */
  lemma YoungStays(s: Service, p: PoolId, o: OperationId)
    requires IsRetired(s, p) && Holds(s, o) && s.operations[o].pool == p && OperationFits(s, o)
    requires s.pools[p].pool.items == [] && !Stale(s.operations[o].item, s.pools[p].clock)
    ensures
      var s' := ApplyService(s, Return(o, true));
      IsRetired(s', p) && |s'.pools[p].pool.items| == 1 && s'.operations == s.operations - {o}
  {
    hide Fetching, Borrowing, Draining, Getting;
  }

  /** A connection made for an operation that had fetched the empty retired pool before is young. */
  lemma LateBorrowIsYoung(s: Service, p: PoolId, o: OperationId)
    requires IsRetired(s, p) && Stands(s, o) && s.operations[o] == Fetched(p) && s.pools[p].pool.items == []
    ensures
      var s' := ApplyService(s, Borrow(o, Answered(true), true));
      && IsRetired(s', p) && Holds(s', o) && s'.operations[o].pool == p && OperationFits(s', o)
      && s'.pools[p].pool.items == [] && !Stale(s'.operations[o].item, s'.pools[p].clock)
      && s'.operations - {o} == s.operations - {o}
  {
    hide Fetching, Draining;
  }

  /** A risky operation can leave a connection in the pool a reload has drained. */
  lemma RiskLeavesConnection(s: Service, p: PoolId, o: OperationId)
    requires PoolsFit(s) && p in s.retiring
    requires o in s.operations && OperationFits(s, o) && s.operations[o].pool == p && IsRisky(s, o)
    ensures
      var s' := ExecuteService(ApplyService(s, DrainOld(p)), Finishing(s, o));
      IsRetired(s', p) && |s'.pools[p].pool.items| == 1 && s'.operations == s.operations - {o}
  {
    hide PoolsFit, ApplyService, IsRetired;
    var drained, steps := ApplyService(s, DrainOld(p)), Finishing(s, o);
    DrainedIsRetired(s, p);
    assert ExecuteService(drained, []) == drained;
    if s.operations[o].Fetched? {
      var s1 := ApplyService(drained, Borrow(o, Answered(true), true));
      assert steps[..1] == [Borrow(o, Answered(true), true)] && steps[..1][..0] == [];
      assert ExecuteService(drained, steps[..1]) == s1;
      assert ExecuteService(drained, steps) == ApplyService(s1, Return(o, true));
      LateBorrowIsYoung(drained, p, o);
      YoungStays(s1, p, o);
    } else {
      assert steps[..0] == [];
      assert ExecuteService(drained, steps) == ApplyService(drained, Return(o, true));
      YoungStays(drained, p, o);
    }
  }

  /** In this state the pool holds no connection. */
  ghost predicate HoldsNothing(s: Service, p: PoolId) {
    p in s.pools && s.pools[p].pool.items == []
  }

  lemma QuietHoldsNothing(s: Service, p: PoolId)
    requires IsQuiet(s, p)
    ensures HoldsNothing(s, p)
  {
  }

  /**
    A pool that a reload drains is never given a connection again, however the service goes on, if
    and only if no operation then stands between fetching that pool and returning to it, other than
    with a connection too old to be kept.
   */
  lemma NothingComesBackIff(s: Service, p: PoolId)
    requires Sound(s) && p in s.retiring
    ensures NoRisk(s, p) <==>
            forall steps :: HoldsNothing(ExecuteService(ApplyService(s, DrainOld(p)), steps), p)
  {
    hide PoolsFit, LentIsHeld, IsQuiet, ApplyService;
    var drained := ApplyService(s, DrainOld(p));
    if NoRisk(s, p) {
      DrainingRisklessIsQuiet(s, p);
      StepKeepsSound(s, DrainOld(p));
      forall steps ensures HoldsNothing(ExecuteService(drained, steps), p) {
        QuietStaysQuiet(drained, p, steps);
        QuietHoldsNothing(ExecuteService(drained, steps), p);
      }
    } else {
      var o :| o in s.operations && IsRisky(s, o) && s.operations[o].pool == p;
      assert OperationFits(s, o);
      RiskLeavesConnection(s, p, o);
      assert !HoldsNothing(ExecuteService(drained, Finishing(s, o)), p);
    }
  }

  /** No pool of the run is drained while an operation might still put a connection into it. */
  ghost predicate NoOverlap(steps: seq<ServiceStep>) {
    steps == [] ||
    (NoOverlap(steps[..|steps| - 1]) &&
     var s, step := ExecuteService(NO_POOLS, steps[..|steps| - 1]), steps[|steps| - 1];
     step.DrainOld? && step.pool in s.retiring ==> NoRisk(s, step.pool))
  }

  ghost predicate RetiredAreQuiet(s: Service) {
    forall p :: IsRetired(s, p) ==> IsQuiet(s, p)
  }

  /** A pool is retired by being drained, and stays so. */
  lemma RetiredBefore(s: Service, step: ServiceStep, p: PoolId)
    requires PoolsFit(s) && IsRetired(ApplyService(s, step), p)
    ensures IsRetired(s, p) || (step == DrainOld(p) && p in s.retiring)
  {
    hide Accounted, Draining, Getting, Putting;
    if step.Replace? && InUse(s, p) {
      assert p in s.retiring + s.current.Values;
    }
    if step.Fetch? && OpensPool(s, step) {
      assert ApplyService(s, step).current[step.source] == step.made;
      forall k | k in s.current ensures ApplyService(s, step).current[k] == s.current[k] {
      }
    }
  }

  predicate OpensPool(s: Service, step: ServiceStep)
    requires step.Fetch?
  {
    step.operation !in s.operations && step.source !in s.current && step.made !in s.pools
  }

  lemma NobodyHolds(s: Service, p: PoolId, item: Item)
    requires NobodyOn(s, p)
    ensures !IsHeld(s, p, item)
  {
  }

  lemma NothingLentWithNobodyOn(s: Service, p: PoolId)
    requires Sound(s) && p in s.pools && NobodyOn(s, p) && s.pools[p].pool.items == []
    ensures Empty(s.pools[p])
  {
    hide Accounted;
    forall item ensures item !in s.pools[p].borrowed {
      NobodyHolds(s, p, item);
    }
    NothingLentIsAllClosed(s.pools[p].pool, s.pools[p].borrowed);
  }

  lemma {:induction false} RetiredStayQuiet(steps: seq<ServiceStep>)
    requires NoOverlap(steps)
    ensures Sound(ExecuteService(NO_POOLS, steps)) && RetiredAreQuiet(ExecuteService(NO_POOLS, steps))
  {
    if steps == [] {
    } else {
      var before, step := steps[..|steps| - 1], steps[|steps| - 1];
      RetiredStayQuiet(before);
      var s := ExecuteService(NO_POOLS, before);
      StepKeepsSound(s, step);
      forall p | IsRetired(ApplyService(s, step), p) ensures IsQuiet(ApplyService(s, step), p) {
        RetiredBefore(s, step, p);
        if IsRetired(s, p) { StepStaysQuiet(s, p, step); } else { DrainingRisklessIsQuiet(s, p); }
      }
    }
  }

  /**
    If no pool is drained while an operation stands between fetching it and returning to it, every
    retired pool that nobody uses any more has all its connections closed: nothing leaks.
   */
  lemma NothingLeaksWithoutOverlap(steps: seq<ServiceStep>, p: PoolId)
    requires NoOverlap(steps) && IsRetired(ExecuteService(NO_POOLS, steps), p)
    ensures
      var s := ExecuteService(NO_POOLS, steps);
      s.pools[p].pool.items == [] && (NobodyOn(s, p) ==> Empty(s.pools[p]))
  {
    RetiredStayQuiet(steps);
    var s := ExecuteService(NO_POOLS, steps);
    if NobodyOn(s, p) { NothingLentWithNobodyOn(s, p); }
  }

  /** A retired pool that no operation has fetched any more keeps what it holds, in every continuation. */
  lemma {:induction false} RetiredPoolKeepsItems(s: Service, steps: seq<ServiceStep>, p: PoolId)
    requires Sound(s) && IsRetired(s, p) && NobodyOn(s, p)
    ensures
      var s' := ExecuteService(s, steps);
      IsRetired(s', p) && NobodyOn(s', p) && s'.pools[p].pool == s.pools[p].pool
  {
    if steps == [] {
    } else {
      RetiredPoolKeepsItems(s, steps[..|steps| - 1], p);
      ServiceStaysSound(s, steps[..|steps| - 1]);
      RetiredStepKeepsItems(ExecuteService(s, steps[..|steps| - 1]), steps[|steps| - 1], p);
    }
  }

  lemma RetiredStepKeepsItems(s: Service, step: ServiceStep, p: PoolId)
    requires PoolsFit(s) && IsRetired(s, p) && NobodyOn(s, p)
    ensures
      var s' := ApplyService(s, step);
      IsRetired(s', p) && NobodyOn(s', p) && s'.pools[p].pool == s.pools[p].pool
  {
    hide Accounted, Draining, Getting, Putting;
  }

  /**
    Let one operation alone stand on a pool when a reload drains it, with a young connection or with
    none yet. If it then returns a connection at once, that connection is never closed.
   */
  lemma OverlapLeaks(s: Service, p: PoolId, o: OperationId, later: seq<ServiceStep>)
    requires Sound(s) && p in s.retiring && o in s.operations && s.operations[o].pool == p && IsRisky(s, o)
    requires NobodyOn(s.(operations := s.operations - {o}), p)
    ensures
      var s' := ExecuteService(ExecuteService(ApplyService(s, DrainOld(p)), Finishing(s, o)), later);
      && IsRetired(s', p) && |s'.pools[p].pool.items| == 1
      && s'.pools[p].pool.items[0].conn !in s'.pools[p].pool.closed
  {
    assert OperationFits(s, o);
    hide Sound, PoolsFit, OperationsFit, LentIsHeld, ApplyService;
    var drained := ApplyService(s, DrainOld(p));
    RiskLeavesConnection(s, p, o);
    StepKeepsSound(s, DrainOld(p));
    ServiceStaysSound(drained, Finishing(s, o));
    var left := ExecuteService(drained, Finishing(s, o));
    RetiredPoolKeepsItems(left, later, p);
    ServiceStaysSound(left, later);
    PooledIsOpen(ExecuteService(left, later), p);
  }

  lemma PooledIsOpen(s: Service, p: PoolId)
    requires Sound(s) && p in s.pools && s.pools[p].pool.items != []
    ensures s.pools[p].pool.items[0].conn !in s.pools[p].pool.closed
  {
    var pool := s.pools[p].pool;
    assert Accounted(pool, s.pools[p].borrowed);
    hide PoolsFit, OperationsFit, LentIsHeld;
    assert pool.items[0].conn in Conns(pool.items);
  }

  // ---------------------------------------------------------------- how an operation goes

  function ElapsedInService(steps: seq<ServiceStep>): nat {
    if steps == [] then 0
    else
      ElapsedInService(steps[..|steps| - 1]) +
      if steps[|steps| - 1].Elapse? then steps[|steps| - 1].seconds else 0
  }

  ghost predicate ClocksAgree(s: Service, now: int) {
    s.clock == now && forall p :: p in s.pools ==> s.pools[p].clock == now
  }

  /** In every run all pools, replaced or not, see the time that has passed. */
  lemma {:induction false} ClocksAlwaysAgree(steps: seq<ServiceStep>)
    ensures ClocksAgree(ExecuteService(NO_POOLS, steps), ElapsedInService(steps))
  {
    if steps == [] {
    } else {
      ClocksAlwaysAgree(steps[..|steps| - 1]);
      StepKeepsClocks(ExecuteService(NO_POOLS, steps[..|steps| - 1]), steps[|steps| - 1]);
    }
  }

  lemma StepKeepsClocks(s: Service, step: ServiceStep)
    requires ClocksAgree(s, s.clock)
    ensures ClocksAgree(ApplyService(s, step), s.clock + if step.Elapse? then step.seconds else 0)
  {
    hide Getting, Putting, Draining, Using;
  }

  /** An operation fetches the pool its datasource uses now, or makes one that is empty, and stands on it. */
  lemma FetchFindsPool(s: Service, o: OperationId, source: Source, made: PoolId, maxSize: int)
    requires o !in s.operations && made !in s.pools
    ensures
      var s' := ApplyService(s, Fetch(o, source, made, maxSize));
      && source in s'.current && o in s'.operations && s'.operations == s.operations[o := Fetched(s'.current[source])]
      && (source in s.current ==> s'.current == s.current && s'.pools == s.pools)
      && (source !in s.current ==>
            && s'.current == s.current[source := made] && made in s'.pools && s'.pools - {made} == s.pools
            && s'.pools[made].pool == New(maxSize).pool && s'.pools[made].borrowed == {}
            && s'.pools[made].clock == s.clock)
  {
  }

  /** A reload takes every pool out of use, for the next operation of its datasource to make a new one. */
  lemma ReplaceRetiresAll(s: Service)
    ensures
      var s' := ApplyService(s, Replace);
      && s'.current == map[] && s'.pools == s.pools && s'.operations == s.operations
      && s'.retiring == s.retiring + s.current.Values
  {
  }

  lemma OperationStands(s: Service, o: OperationId)
    requires Sound(s) && o in s.operations
    ensures OperationFits(s, o)
    ensures Accounted(s.pools[s.operations[o].pool].pool, s.pools[s.operations[o].pool].borrowed)
  {
    hide Accounted, LentIsHeld;
    assert OperationFits(s, o);
  }

  /** An operation that is not given a connection is over; one that is holds it, and no one else does. */
  lemma BorrowGivesOrEnds(s: Service, o: OperationId, ping: Ping, connects: bool)
    requires Sound(s) && o in s.operations && s.operations[o].Fetched?
    ensures
      var s', p := ApplyService(s, Borrow(o, ping, connects)), s.operations[o].pool;
      var (_, item) := Getting(s.pools[p].pool, ping, connects, s.pools[p].clock);
      if item.None? then s'.operations == s.operations - {o}
      else s'.operations == s.operations[o := Holding(p, item.value)] && item.value !in s.pools[p].borrowed
  {
    hide Sound, Accounted, Getting;
    OperationStands(s, o);
    LentItemIsNew(s.pools[s.operations[o].pool], ping, connects);
  }

  /** A return ends the operation and gives its connection back, whatever became of the pool. */
  lemma ReturnEnds(s: Service, o: OperationId, rolledBack: bool)
    requires Sound(s) && o in s.operations && s.operations[o].Holding?
    ensures
      var s', p, item := ApplyService(s, Return(o, rolledBack)), s.operations[o].pool, s.operations[o].item;
      && s'.operations == s.operations - {o} && p in s.pools && item in s.pools[p].borrowed
      && s'.pools.Keys == s.pools.Keys && s'.pools[p].borrowed == s.pools[p].borrowed - {item}
      && s'.pools[p].pool == Putting(s.pools[p].pool, item, rolledBack, s.pools[p].clock)
  {
    hide Sound, Accounted, Putting;
    OperationStands(s, o);
  }
}
