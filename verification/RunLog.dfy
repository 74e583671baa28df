/**
  What may still be written to the log of an agent run that has ended.

  A run that has reached a terminal status keeps it. The service goes on to publish its result and to
  queue notifications; a worker may be about to cancel it, because it saw the run before it ended;
  and a child that still has a worker reports to its parent's log until it ends as well. Clients may
  ask for notifications or for a cancellation. Each is one step here.
 */
module RunLog {
  import opened EventStream

  /** A notification a worker has in hand. `tested` says that it found none queued yet, and will queue it. */
  datatype Notice = Notice(version: string, tested: bool)

  /**
    A run in the store, and what workers have in hand for it. `wanted` says that notifications are on
    for it, `nextId` is larger than all ids handed out. `version` names its status in notifications
    and no longer changes. `cancels` counts the cancellations decided on before it ended and not made
    yet, `childrenAtWork` its children that still have a worker: all others ended before it or with
    it, and it is given no new ones.
   */
  datatype Run = Run(
    log: seq<Event>, status: Status, published: bool, wanted: bool, version: string, isChild: bool,
    notices: seq<Notice>, cancels: nat, childrenAtWork: nat, nextId: nat)

  /** All but the last two are steps the service takes by itself. */
  datatype Step =
    | OtherRuns(events: nat)
    | Publish
    | TakeUp
    | Test(notice: nat, tooSoon: bool)
    | Queue(notice: nat, succeeds: bool)
    | CancelLate
    | ChildReports(payload: string)
    | ChildEnds
    | Subscribe
    | Cancel

  function Queued(version: string): string {
    "notification_queued " + version
  }

  predicate IsRecorded(log: seq<Event>, version: string) {
    exists i :: 0 <= i < |log| && log[i].payload == Queued(version)
  }

  function Emit(run: Run, payload: string): Run {
    run.(log := run.log + [Event(run.nextId, payload)], nextId := run.nextId + 1)
  }

  /** Notifications are on for the run, and none of this version is queued yet. */
  predicate Wants(run: Run, version: string) {
    !run.isChild && run.wanted && !IsRecorded(run.log, version)
  }

  function WithoutNotice(run: Run, i: nat): Run
    requires i < |run.notices|
  {
    run.(notices := run.notices[..i] + run.notices[i + 1..])
  }

  /** `_notify` up to its last test; attempts that come too soon after another are dropped. */
  function Testing(run: Run, i: nat, tooSoon: bool): Run {
    if i >= |run.notices| || run.notices[i].tested then run
    else if Wants(run, run.notices[i].version) && !tooSoon
    then run.(notices := run.notices[i := run.notices[i].(tested := true)])
    else WithoutNotice(run, i)
  }

  /** The rest of `_notify`, in transactions of its own. */
  function Queueing(run: Run, i: nat, succeeds: bool): Run {
    if i >= |run.notices| || !run.notices[i].tested then run
    else if succeeds then Emit(WithoutNotice(run, i), Queued(run.notices[i].version))
    else WithoutNotice(run, i)
  }

  /** `AgentRunStore.cancel` on a run that has ended: its status stays, but it writes to the log. */
  function Cancelling(run: Run): Run {
    var stopping := Emit(run, "stopping");
    if run.status.Cancelled? && !run.isChild then Emit(Emit(stopping, "cancelled"), "done") else stopping
  }

  function Advance(run: Run, step: Step): Run {
    match step
    case OtherRuns(events) => run.(nextId := run.nextId + events)
    case Publish => run.(published := true)
    case TakeUp => run.(notices := run.notices + [Notice(run.version, false)])
    case Test(i, tooSoon) => Testing(run, i, tooSoon)
    case Queue(i, succeeds) => Queueing(run, i, succeeds)
    case CancelLate => if run.cancels > 0 then Cancelling(run.(cancels := run.cancels - 1)) else run
    case ChildReports(payload) => if run.childrenAtWork > 0 then Emit(run, payload) else run
    case ChildEnds => if run.childrenAtWork > 0 then run.(childrenAtWork := run.childrenAtWork - 1) else run
    case Subscribe => run.(wanted := true)
    case Cancel => Cancelling(run)
  }

  function AdvanceAll(run: Run, steps: seq<Step>): Run {
    if steps == [] then run else Advance(AdvanceAll(run, steps[..|steps| - 1]), steps[|steps| - 1])
  }

  /** Ids grow, and the next one is larger than all. */
  ghost predicate IsLog(run: Run) {
    Increasing(run.log) && forall i :: 0 <= i < |run.log| ==> run.log[i].id < run.nextId
  }

  /** The log grows at its end, by entries with ids from `run.nextId` on; what names the run stays. */
  ghost predicate GrowsTo(run: Run, later: Run) {
    && IsLog(later) && run.log <= later.log && run.nextId <= later.nextId
    && (forall i :: |run.log| <= i < |later.log| ==> later.log[i].id >= run.nextId)
    && later.status == run.status && later.version == run.version && later.isChild == run.isChild
  }

  lemma EmitGrows(run: Run, payload: string)
    requires IsLog(run)
    ensures GrowsTo(run, Emit(run, payload))
  {
  }

  lemma GrowingOn(run: Run, middle: Run, later: Run)
    requires GrowsTo(run, middle) && GrowsTo(middle, later)
    ensures GrowsTo(run, later)
  {
    hide IsLog;
    forall i | |run.log| <= i < |later.log| ensures later.log[i].id >= run.nextId {
      if i < |middle.log| { assert later.log[i] == middle.log[i]; }
    }
  }

  /** What changes neither the log nor its names, and hands out ids at most, lets the log grow. */
  lemma UnwrittenGrows(run: Run, later: Run)
    requires IsLog(run) && later.log == run.log && later.nextId >= run.nextId
    requires later.status == run.status && later.version == run.version && later.isChild == run.isChild
    ensures GrowsTo(run, later)
  {
  }

  lemma StepGrows(run: Run, step: Step)
    requires IsLog(run)
    ensures GrowsTo(run, Advance(run, step))
  {
    hide IsLog, GrowsTo, Emit, Cancelling, Wants;
    match step {
      case Queue(i, succeeds) => QueueingGrows(run, i, succeeds);
      case CancelLate =>
        if run.cancels > 0 { CancellingLateGrows(run); } else { UnwrittenGrows(run, run); }
      case Cancel => CancellingGrows(run);
      case ChildReports(payload) => EmitGrows(run, payload); UnwrittenGrows(run, run);
      case _ => UnwrittenGrows(run, Advance(run, step));
    }
  }

  lemma QueueingGrows(run: Run, i: nat, succeeds: bool)
    requires IsLog(run)
    ensures GrowsTo(run, Queueing(run, i, succeeds))
  {
    hide IsLog, Emit;
    UnwrittenGrows(run, run);
    if i < |run.notices| {
      UnwrittenGrows(run, WithoutNotice(run, i));
      EmitGrows(WithoutNotice(run, i), Queued(run.notices[i].version));
    }
  }

  lemma CancellingLateGrows(run: Run)
    requires IsLog(run) && run.cancels > 0
    ensures GrowsTo(run, Cancelling(run.(cancels := run.cancels - 1)))
  {
    hide IsLog, Cancelling;
    var before := run.(cancels := run.cancels - 1);
    UnwrittenGrows(run, before);
    CancellingGrows(before);
  }

  lemma StayingGrows(run: Run)
    requires IsLog(run)
    ensures GrowsTo(run, run)
  {
  }

  lemma CancellingGrows(run: Run)
    requires IsLog(run)
    ensures GrowsTo(run, Cancelling(run))
  {
    hide IsLog, Emit;
    var stopping := Emit(run, "stopping");
    EmitGrows(run, "stopping");
    EmitGrows(stopping, "cancelled");
    EmitGrows(Emit(stopping, "cancelled"), "done");
    GrowingOn(run, stopping, Emit(stopping, "cancelled"));
    GrowingOn(run, Emit(stopping, "cancelled"), Emit(Emit(stopping, "cancelled"), "done"));
  }

  lemma {:induction false} LogOnlyGrows(run: Run, steps: seq<Step>)
    requires IsLog(run)
    ensures GrowsTo(run, AdvanceAll(run, steps))
  {
    if steps == [] {
      StayingGrows(run);
    } else {
      var before := AdvanceAll(run, steps[..|steps| - 1]);
      LogOnlyGrows(run, steps[..|steps| - 1]);
      hide IsLog, Advance;
      StepGrows(before, steps[|steps| - 1]);
      GrowingOn(run, before, AdvanceAll(run, steps));
    }
  }

  /** A reader that has all entries so far still has all of them later exactly when nothing was written. */
  lemma NothingMissedIff(run: Run, after: nat, steps: seq<Step>)
    requires IsLog(run) && after < run.nextId
    ensures After(run.log, after) == After(AdvanceAll(run, steps).log, after) <==> AdvanceAll(run, steps).log == run.log
  {
    var later := AdvanceAll(run, steps);
    LogOnlyGrows(run, steps);
    LateEventsDecide(run.log, later.log, after);
  }

  // ---------------------------------------------------------------- publishing only

  predicate OnlyPublishes(steps: seq<Step>) {
    forall i :: 0 <= i < |steps| ==> steps[i].Publish? || steps[i].OtherRuns?
  }

  lemma {:induction false} PublishingWritesNothing(run: Run, steps: seq<Step>)
    requires OnlyPublishes(steps)
    ensures AdvanceAll(run, steps).log == run.log
  {
    if steps == [] {
    } else {
      PublishingWritesNothing(run, steps[..|steps| - 1]);
    }
  }

  /**
    A stream that closed on a terminal status and delivered what the log held then has delivered the
    whole log, if from then on the run is only published.
   */
  lemma ClosedStreamIsWholeIfOnlyPublished(run: Run, after: nat, delivered: seq<Event>, steps: seq<Step>)
    requires delivered == After(run.log, after) && OnlyPublishes(steps)
    ensures delivered == After(AdvanceAll(run, steps).log, after)
    ensures Publish in steps ==> AdvanceAll(run, steps).published
  {
    PublishingWritesNothing(run, steps);
    if Publish in steps { PublishingPublishes(run, steps); }
  }

  lemma {:induction false} PublishingPublishes(run: Run, steps: seq<Step>)
    requires run.published || Publish in steps
    ensures AdvanceAll(run, steps).published
  {
    hide Advance;
    if steps == [] {
    } else {
      var init := steps[..|steps| - 1];
      assert Publish in steps ==> Publish in init || steps[|steps| - 1] == Publish;
      PublishedStays(AdvanceAll(run, init), steps[|steps| - 1]);
      if run.published || Publish in init { PublishingPublishes(run, init); }
    }
  }

  lemma PublishedStays(run: Run, step: Step)
    ensures run.published || step.Publish? ==> Advance(run, step).published
  {
  }

  // ---------------------------------------------------------------- the service's own steps

  /** The steps the service takes by itself: all but what clients ask for. */
  predicate ByService(steps: seq<Step>) {
    forall i :: 0 <= i < |steps| ==> !steps[i].Subscribe? && !steps[i].Cancel?
  }

  /**
    The service has nothing left to write: no cancellation on its way, no child at work, no
    notification to queue, whether it is in a worker's hands or not.
   */
  predicate IsSettled(run: Run) {
    && run.cancels == 0 && run.childrenAtWork == 0 && !Wants(run, run.version)
    && forall i :: 0 <= i < |run.notices| ==> !run.notices[i].tested && !Wants(run, run.notices[i].version)
  }

  lemma {:induction false} SettledStaysUnwritten(run: Run, steps: seq<Step>)
    requires IsSettled(run) && ByService(steps)
    ensures
      var later := AdvanceAll(run, steps);
      && IsSettled(later) && later.log == run.log && later.wanted == run.wanted && later.version == run.version
      && later.isChild == run.isChild
  {
    if steps == [] {
    } else {
      SettledStaysUnwritten(run, steps[..|steps| - 1]);
      SettledStep(AdvanceAll(run, steps[..|steps| - 1]), steps[|steps| - 1]);
    }
  }

  lemma SettledStep(run: Run, step: Step)
    requires IsSettled(run) && ByService([step])
    ensures
      var later := Advance(run, step);
      && IsSettled(later) && later.log == run.log && later.wanted == run.wanted && later.version == run.version
      && later.isChild == run.isChild
  {
    assert [step][0] == step;
    hide IsRecorded;
  }

  ghost predicate MissesNothing(run: Run, after: nat, delivered: seq<Event>, steps: seq<Step>) {
    ByService(steps) ==> delivered == After(AdvanceAll(run, steps).log, after)
  }

  lemma {:induction false} AdvanceFirst(run: Run, step: Step, steps: seq<Step>)
    ensures AdvanceAll(run, [step] + steps) == AdvanceAll(Advance(run, step), steps)
  {
    hide Advance;
    var all := [step] + steps;
    if steps == [] {
      assert all[..0] == [] && all == [step];
    } else {
      AdvanceFirst(run, step, steps[..|steps| - 1]);
      assert all[..|all| - 1] == [step] + steps[..|steps| - 1];
    }
  }

  /** A notification that has passed its test is written, even if another worker has queued the same. */
  lemma TestedNoticeIsWritten(run: Run, i: nat)
    requires i < |run.notices| && run.notices[i].tested
    ensures AdvanceAll(run, [Queue(i, true)]).log ==
            run.log + [Event(run.nextId, Queued(run.notices[i].version))]
    ensures AdvanceAll(run, [Queue(i, false)]) == WithoutNotice(run, i)
  {
    AdvanceFirst(run, Queue(i, true), []);
    AdvanceFirst(run, Queue(i, false), []);
  }

  /** So is one in hand that is wanted when it is tested. */
  lemma WantedNoticeIsWritten(run: Run, i: nat)
    requires i < |run.notices| && Wants(run, run.notices[i].version)
    ensures AdvanceAll(run, [Test(i, false), Queue(i, true)]).log ==
            run.log + [Event(run.nextId, Queued(run.notices[i].version))]
  {
    AdvanceFirst(run, Test(i, false), [Queue(i, true)]);
    assert [Test(i, false)] + [Queue(i, true)] == [Test(i, false), Queue(i, true)];
    TestedNoticeIsWritten(Advance(run, Test(i, false)), i);
  }

  /** And the one of the run's own status, where it is wanted: some worker takes it up. */
  lemma WantedNotificationIsWritten(run: Run)
    requires Wants(run, run.version)
    ensures AdvanceAll(run, Notifying(run)).log == run.log + [Event(run.nextId, Queued(run.version))]
  {
    AdvanceFirst(run, TakeUp, [Test(|run.notices|, false), Queue(|run.notices|, true)]);
    assert [TakeUp] + [Test(|run.notices|, false), Queue(|run.notices|, true)] == Notifying(run);
    WantedNoticeIsWritten(Advance(run, TakeUp), |run.notices|);
  }

  function Notifying(run: Run): seq<Step> {
    [TakeUp, Test(|run.notices|, false), Queue(|run.notices|, true)]
  }

  /** While the run is not settled, the service may write to its log. */
  lemma UnsettledIsWritten(run: Run) returns (steps: seq<Step>)
    requires !IsSettled(run)
    ensures ByService(steps) && AdvanceAll(run, steps).log != run.log
  {
    if run.cancels > 0 {
      steps := [CancelLate];
      AdvanceFirst(run, CancelLate, []);
    } else if run.childrenAtWork > 0 {
      steps := [ChildReports("token")];
      AdvanceFirst(run, ChildReports("token"), []);
    } else if Wants(run, run.version) {
      steps := Notifying(run);
      WantedNotificationIsWritten(run);
    } else {
      var i :| 0 <= i < |run.notices| && (run.notices[i].tested || Wants(run, run.notices[i].version));
      if run.notices[i].tested {
        steps := [Queue(i, true)];
        TestedNoticeIsWritten(run, i);
      } else {
        steps := [Test(i, false), Queue(i, true)];
        WantedNoticeIsWritten(run, i);
      }
    }
  }

  /** Whatever the service may write comes with an id past any point the stream was resumed from. */
  lemma UnsettledMissesSomething(run: Run, after: nat) returns (steps: seq<Step>)
    requires IsLog(run) && !IsSettled(run)
    ensures ByService(steps) && After(AdvanceAll(run, steps).log, after) != After(run.log, after)
  {
    var later := Advance(run, OtherRuns(after + 1));
    var rest := UnsettledIsWritten(later);
    NothingMissedIff(later, after, rest);
    AdvanceFirst(run, OtherRuns(after + 1), rest);
    steps := [OtherRuns(after + 1)] + rest;
  }

  /**
    Whatever the service does by itself after a stream closed on a terminal status, the stream has
    delivered the whole log, if and only if at that moment no cancellation is on its way, no child is
    at work, and no notification is left to be queued.
   */
  lemma ClosedStreamIsWholeIff(run: Run, after: nat, delivered: seq<Event>)
    requires IsLog(run) && delivered == After(run.log, after)
    ensures (forall steps :: MissesNothing(run, after, delivered, steps)) <==> IsSettled(run)
  {
    if IsSettled(run) {
      forall steps ensures MissesNothing(run, after, delivered, steps) {
        if ByService(steps) { SettledStaysUnwritten(run, steps); }
      }
    } else {
      var steps := UnsettledMissesSomething(run, after);
      assert !MissesNothing(run, after, delivered, steps);
    }
  }

  /** The notification of a run that wants one comes after the stream has closed, and is not delivered. */
  lemma NotificationIsMissed(run: Run, after: nat)
    requires IsLog(run) && after < run.nextId && Wants(run, run.version)
    ensures
      var later := AdvanceAll(run, Notifying(run));
      && later.log == run.log + [Event(run.nextId, Queued(run.version))]
      && After(later.log, after) != After(run.log, after)
  {
    WantedNotificationIsWritten(run);
    NothingMissedIff(run, after, Notifying(run));
  }

  /** A report of a child at work is not delivered either, settled though the notifications may be. */
  lemma ChildReportIsMissed(run: Run, after: nat, payload: string)
    requires IsLog(run) && after < run.nextId && run.childrenAtWork > 0
    ensures
      var later := AdvanceAll(run, [ChildReports(payload)]);
      && later.log == run.log + [Event(run.nextId, payload)] && After(later.log, after) != After(run.log, after)
  {
    AdvanceFirst(run, ChildReports(payload), []);
    NothingMissedIff(run, after, [ChildReports(payload)]);
  }

  lemma TestPasses(run: Run, i: nat)
    requires i < |run.notices| && run.notices[i] == Notice(run.version, false) && Wants(run, run.version)
    ensures Advance(run, Test(i, false)) == run.(notices := run.notices[i := Notice(run.version, true)])
  {
  }

  lemma TakenUp(run: Run)
    ensures Advance(run, TakeUp) == run.(notices := run.notices + [Notice(run.version, false)])
  {
  }

  /**
    Two workers take a notification up and test it before either queues it. No lock keeps them apart:
    the test for attempts that come too soon is as open to this as the test for queued ones.
   */
  lemma BothTest(run: Run)
    requires Wants(run, run.version) && run.notices == []
    ensures
      var tested := Notice(run.version, true);
      AdvanceAll(run, [TakeUp, TakeUp, Test(0, false), Test(1, false)]) == run.(notices := [tested, tested])
  {
    hide IsRecorded, Advance, AdvanceAll;
    var untested, tested := Notice(run.version, false), Notice(run.version, true);
    var r1 := run.(notices := [untested]);
    var r2 := run.(notices := [untested, untested]);
    var r3 := run.(notices := [tested, untested]);
    AdvanceFirst(run, TakeUp, [TakeUp, Test(0, false), Test(1, false)]);
    assert [TakeUp] + [TakeUp, Test(0, false), Test(1, false)] == [TakeUp, TakeUp, Test(0, false), Test(1, false)];
    TakenUp(run);
    AdvanceFirst(r1, TakeUp, [Test(0, false), Test(1, false)]);
    assert [TakeUp] + [Test(0, false), Test(1, false)] == [TakeUp, Test(0, false), Test(1, false)];
    TakenUp(r1);
    AdvanceFirst(r2, Test(0, false), [Test(1, false)]);
    assert [Test(0, false)] + [Test(1, false)] == [Test(0, false), Test(1, false)];
    TestPasses(r2, 0);
    OneAdvance(r3, Test(1, false));
    TestPasses(r3, 1);
    assert run.notices + [untested] == r1.notices;
    assert r1.notices + [untested] == r2.notices && r2.notices[0 := tested] == r3.notices;
    assert r3.notices[1 := tested] == [tested, tested];
  }

  lemma OneAdvance(run: Run, step: Step)
    ensures AdvanceAll(run, [step]) == Advance(run, step)
  {
    hide Advance;
    assert [step][..0] == [];
  }

  lemma QueueWrites(run: Run, i: nat)
    requires i < |run.notices| && run.notices[i].tested
    ensures Advance(run, Queue(i, true)) == Emit(WithoutNotice(run, i), Queued(run.notices[i].version))
  {
  }

  /** Then it is queued twice. */
  lemma NotificationIsQueuedTwice(run: Run)
    requires Wants(run, run.version) && run.notices == []
    ensures
      var tested := AdvanceAll(run, [TakeUp, TakeUp, Test(0, false), Test(1, false)]);
      var queued := Queued(run.version);
      AdvanceAll(tested, [Queue(0, true), Queue(0, true)]).log ==
      run.log + [Event(run.nextId, queued), Event(run.nextId + 1, queued)]
  {
    hide IsRecorded, Wants, Advance, AdvanceAll;
    BothTest(run);
    var notice := Notice(run.version, true);
    var tested, queued := run.(notices := [notice, notice]), Queued(run.version);
    AdvanceFirst(tested, Queue(0, true), [Queue(0, true)]);
    assert [Queue(0, true)] + [Queue(0, true)] == [Queue(0, true), Queue(0, true)];
    QueueWrites(tested, 0);
    var once := Emit(tested.(notices := [notice]), queued);
    assert WithoutNotice(tested, 0) == tested.(notices := [notice]);
    OneAdvance(once, Queue(0, true));
    QueueWrites(once, 0);
    assert run.log + [Event(run.nextId, queued)] + [Event(run.nextId + 1, queued)] ==
           run.log + [Event(run.nextId, queued), Event(run.nextId + 1, queued)];
  }

  lemma CancellingWrites(run: Run)
    ensures Cancelling(run).log == run.log + [Event(run.nextId, "stopping")] +
              if run.status == Cancelled && !run.isChild
              then [Event(run.nextId + 1, "cancelled"), Event(run.nextId + 2, "done")] else []
  {
  }

  /** A cancellation a client asks for after the end is always written, whatever the state of the run. */
  lemma CancellationIsMissed(run: Run, after: nat)
    requires IsLog(run) && after < run.nextId
    ensures
      var later := AdvanceAll(run, [Cancel]);
      && later.log == run.log + [Event(run.nextId, "stopping")] +
           (if run.status == Cancelled && !run.isChild
            then [Event(run.nextId + 1, "cancelled"), Event(run.nextId + 2, "done")] else [])
      && After(later.log, after) != After(run.log, after)
  {
    hide IsLog, After, Cancelling, AdvanceAll;
    OneAdvance(run, Cancel);
    CancellingWrites(run);
    NothingMissedIff(run, after, [Cancel]);
  }

  /**
    A notification is wanted of a run that is no child, for which they are on, and while none of the
    version is queued.
   */
  lemma WantedIff(run: Run, version: string)
    ensures Wants(run, version) <==>
            && !run.isChild && run.wanted
            && forall i :: 0 <= i < |run.log| ==> run.log[i].payload != "notification_queued " + version
    ensures Wants(Advance(run, Subscribe), version) <==> !run.isChild && !IsRecorded(run.log, version)
  {
  }

  /** What has been queued is not wanted again. */
  lemma QueuedIsRecorded(run: Run, i: nat)
    requires i < |run.notices| && run.notices[i].tested
    ensures !Wants(Advance(run, Queue(i, true)), run.notices[i].version)
    ensures forall version :: IsRecorded(run.log, version) ==> IsRecorded(Advance(run, Queue(i, true)).log, version)
  {
    var later := Advance(run, Queue(i, true));
    assert later.log[|run.log|].payload == Queued(run.notices[i].version);
    forall version | IsRecorded(run.log, version) ensures IsRecorded(later.log, version) {
      var k :| 0 <= k < |run.log| && run.log[k].payload == Queued(version);
      assert later.log[k] == run.log[k];
    }
  }

  /** What the service still has to do. */
  ghost function Outstanding(run: Run): nat {
    run.cancels + run.childrenAtWork + |run.notices| + if Wants(run, run.version) then 1 else 0
  }

  /** In every state the service can settle the run, by steps of its own. */
  lemma ServiceCanSettle(run: Run) returns (steps: seq<Step>)
    ensures ByService(steps) && IsSettled(AdvanceAll(run, steps))
    decreases Outstanding(run)
  {
    if IsSettled(run) {
      steps := [];
    } else {
      var first := NextToSettle(run);
      var rest := ServiceCanSettle(AdvanceAll(run, first));
      AdvanceSplits(run, first, rest);
      steps := first + rest;
    }
  }

  lemma {:induction false} AdvanceSplits(run: Run, first: seq<Step>, rest: seq<Step>)
    ensures AdvanceAll(run, first + rest) == AdvanceAll(AdvanceAll(run, first), rest)
    decreases |rest|
  {
    hide Advance;
    if rest == [] {
      assert first + rest == first;
    } else {
      var all := first + rest;
      AdvanceSplits(run, first, rest[..|rest| - 1]);
      assert all[..|all| - 1] == first + rest[..|rest| - 1];
    }
  }

  lemma NextToSettle(run: Run) returns (steps: seq<Step>)
    requires !IsSettled(run)
    ensures ByService(steps) && Outstanding(AdvanceAll(run, steps)) < Outstanding(run)
  {
    hide AdvanceAll, Wants;
    if run.cancels > 0 {
      steps := [CancelLate];
      OneAdvance(run, CancelLate);
      MoreIsNotWanted(run, Advance(run, CancelLate));
    } else if run.childrenAtWork > 0 {
      steps := [ChildEnds];
      OneAdvance(run, ChildEnds);
      MoreIsNotWanted(run, Advance(run, ChildEnds));
    } else if Wants(run, run.version) {
      steps := Notifying(run);
      NotifyingSettles(run);
    } else {
      var i :| 0 <= i < |run.notices| && (run.notices[i].tested || Wants(run, run.notices[i].version));
      if run.notices[i].tested {
        steps := [Queue(i, false)];
        OneAdvance(run, Queue(i, false));
        MoreIsNotWanted(run, Advance(run, Queue(i, false)));
      } else {
        steps := [Test(i, true)];
        OneAdvance(run, Test(i, true));
        MoreIsNotWanted(run, Advance(run, Test(i, true)));
      }
    }
  }

  lemma MoreIsNotWanted(run: Run, later: Run)
    requires run.log <= later.log && later.version == run.version
    requires later.isChild == run.isChild && later.wanted == run.wanted
    ensures Wants(later, later.version) ==> Wants(run, run.version)
  {
    if IsRecorded(run.log, run.version) {
      var k :| 0 <= k < |run.log| && run.log[k].payload == Queued(run.version);
      assert later.log[k] == run.log[k];
    }
  }

  lemma NotifyingSettles(run: Run)
    requires Wants(run, run.version)
    ensures Outstanding(AdvanceAll(run, Notifying(run))) < Outstanding(run)
  {
    hide AdvanceAll, IsRecorded;
    var n := |run.notices|;
    var r1 := Advance(run, TakeUp);
    TakenUp(run);
    TestPasses(r1, n);
    var r2 := Advance(r1, Test(n, false));
    AdvanceFirst(run, TakeUp, [Test(n, false), Queue(n, true)]);
    AdvanceFirst(r1, Test(n, false), [Queue(n, true)]);
    assert [TakeUp] + [Test(n, false), Queue(n, true)] == Notifying(run);
    assert [Test(n, false)] + [Queue(n, true)] == [Test(n, false), Queue(n, true)];
    OneAdvance(r2, Queue(n, true));
    QueueWrites(r2, n);
    QueuedIsRecorded(r2, n);
    assert |WithoutNotice(r2, n).notices| == n;
  }

  // ---------------------------------------------------------------- as the reader finds it

  /** The world up to the last probe, and what a reader would find after these steps. */
  ghost function Extended(world: seq<Snapshot>, run: Run, steps: seq<Step>, clock: int): seq<Snapshot> {
    var later := AdvanceAll(run, steps);
    world + [Snapshot(later.log, later.status, later.published, clock)]
  }

  ghost predicate WholeInWorld(
    world: seq<Snapshot>, run: Run, after: nat, delivered: seq<Event>, steps: seq<Step>, clock: int)
  {
    ByService(steps) ==> delivered == After(FinalLog(Extended(world, run, steps, clock)), after)
  }

  /** Such a world goes on as `AppendOnly` demands of every writer. */
  lemma ExtendedIsAppendOnly(world: seq<Snapshot>, run: Run, steps: seq<Step>, clock: int)
    requires AppendOnly(world) && world != [] && run.log == FinalLog(world) && IsLog(run)
    ensures AppendOnly(Extended(world, run, steps, clock))
  {
    LogOnlyGrows(run, steps);
    hide Increasing, AdvanceAll;
    var all := Extended(world, run, steps, clock);
    forall i, j | 0 <= i <= j < |all| ensures Increasing(all[i].log) && all[i].log <= all[j].log {
      assert i < |world| ==> world[i].log <= world[|world| - 1].log;
    }
  }

  /** The stream whose last probe is the last access in `world` stays whole exactly where the run is settled. */
  lemma ClosedStreamInWorld(world: seq<Snapshot>, run: Run, after: nat, delivered: seq<Event>)
    requires AppendOnly(world) && world != [] && run.log == FinalLog(world) && IsLog(run)
    requires delivered == After(world[|world| - 1].log, after)
    ensures forall steps, clock :: AppendOnly(Extended(world, run, steps, clock))
    ensures (forall steps, clock :: WholeInWorld(world, run, after, delivered, steps, clock)) <==> IsSettled(run)
  {
    forall steps, clock ensures AppendOnly(Extended(world, run, steps, clock)) {
      ExtendedIsAppendOnly(world, run, steps, clock);
    }
    hide AppendOnly, Increasing;
    ClosedStreamIsWholeIff(run, after, delivered);
    if IsSettled(run) {
      forall steps, clock ensures WholeInWorld(world, run, after, delivered, steps, clock) {
        assert MissesNothing(run, after, delivered, steps);
      }
    } else {
      var steps :| !MissesNothing(run, after, delivered, steps);
      assert !WholeInWorld(world, run, after, delivered, steps, 0);
    }
  }
}
