/**
  Timeout timers of pending approvals, shared by several threads.

  Every action that is atomic in the source (a block under the timer lock, a call on a timer, the
  test-and-clear of a pending approval) is one step; a run is any interleaving of such steps. Each
  `_schedule_approval_timeout` call works for the timer it creates, each `expire` callback for the
  timer that fired, and each `_cancel_approval_timer` call for the timer it popped, so where these
  threads stand is recorded with their timer. A timer may fire at any time after its start.

  A step that is not possible in a state leaves it unchanged, so every list of steps is a run.
 */
module ApprovalTimers {
  import opened Wrappers

  type Subject = string
  type ApprovalId = nat
  type TimerId = nat

  /** How far the scheduling call of a timer has come; `previous` is the entry it replaced. */
  datatype Arming = ToTrack | ToCancel(previous: Option<TimerId>) | ToStart | Started

  /** How far the callback of a timer has come. */
  datatype Callback =
    | NotFired
    | Checking
    | Rearming(timer: TimerId)
    | Expiring(now: int)
    | Notifying(now: int)
    | CleaningUp
    | Finished

  /** Who still has to cancel the timer: the call that replaced it, or the call that popped it. */
  datatype Debt = NoDebt | Replaced(successor: TimerId) | Popped

  datatype Timer = Timer(
    subject: Subject, approval: ApprovalId, expires: int,
    arming: Arming, callback: Callback, debt: Debt, cancelled: bool)
  {
    /** Started and still able to fire. */
    predicate Live() {
      arming.Started? && callback.NotFired? && !cancelled
    }

    /** No thread works for this timer any more. */
    predicate AtRest() {
      arming.Started? && (callback.NotFired? || callback.Finished?) && debt.NoDebt?
    }
  }

  datatype Entry = Entry(approval: ApprovalId, timer: TimerId)

  datatype Issued = Issued(subject: Subject, expires: int)

  datatype Notice = Notice(approval: ApprovalId, time: int)

  datatype State = State(
    clock: int,
    timers: map<TimerId, Timer>,
    tracked: map<Subject, Entry>,
    issued: map<ApprovalId, Issued>,
    pending: map<Subject, ApprovalId>,
    notices: seq<Notice>)

  const INITIAL := State(0, map[], map[], map[], map[], [])

  datatype Step =
    | Tick(seconds: nat)
    | Issue(subject: Subject, approval: ApprovalId, expires: int)
    | Resolve(subject: Subject)
    | Schedule(approval: ApprovalId, created: TimerId)
    | Arm(timer: TimerId)
    | Pop(subject: Subject)
    | CancelPopped(timer: TimerId)
    | Fire(timer: TimerId)
    | Run(timer: TimerId, created: TimerId)

  // ---------------------------------------------------------------- the steps

  /** The timer a scheduling call creates before it takes the lock. */
  function Create(s: State, approval: ApprovalId, created: TimerId): State
    requires approval in s.issued
  {
    var issued := s.issued[approval];
    s.(timers := s.timers[created :=
      Timer(issued.subject, approval, issued.expires, ToTrack, NotFired, NoDebt, false)])
  }

  function Update(s: State, t: TimerId, timer: Timer): State {
    s.(timers := s.timers[t := timer])
  }

  /** The rest of a scheduling call: replace the entry, cancel the replaced timer, start the new one. */
  function ArmStep(s: State, t: TimerId): State
    requires t in s.timers
  {
    var timer := s.timers[t];
    match timer.arming
    case ToTrack =>
      var tracked := s.tracked[timer.subject := Entry(timer.approval, t)];
      if timer.subject in s.tracked && s.tracked[timer.subject].timer in s.timers then
        var p := s.tracked[timer.subject].timer;
        Update(Update(s, p, s.timers[p].(debt := Replaced(t))), t,
            timer.(arming := ToCancel(Some(p)))).(tracked := tracked)
      else
        Update(s, t, timer.(arming := ToCancel(None))).(tracked := tracked)
    case ToCancel(previous) =>
      if previous.Some? && previous.value in s.timers && previous.value != t then
        var p := previous.value;
        Update(Update(s, p, s.timers[p].(cancelled := true, debt := NoDebt)), t, timer.(arming := ToStart))
      else
        Update(s, t, timer.(arming := ToStart))
    case ToStart => Update(s, t, timer.(arming := Started))
    case Started => s
  }

  /** What `expire_approval` tests, and clears when it holds. */
  predicate Claimable(s: State, subject: Subject, approval: ApprovalId, now: int) {
    && subject in s.pending && s.pending[subject] == approval
    && approval in s.issued && now >= s.issued[approval].expires
  }

  /** The `expire` callback. */
  function RunStep(s: State, t: TimerId, created: TimerId): State
    requires t in s.timers
  {
    var timer := s.timers[t];
    match timer.callback
    case NotFired => s
    case Checking =>
      if s.clock < timer.expires then
        if created in s.timers || timer.approval !in s.issued then s
        else Update(Create(s, timer.approval, created), t, timer.(callback := Rearming(created)))
      else Update(s, t, timer.(callback := Expiring(s.clock)))
    case Rearming(n) =>
      if n in s.timers && s.timers[n].arming.Started? then Update(s, t, timer.(callback := CleaningUp)) else s
    case Expiring(now) =>
      if Claimable(s, timer.subject, timer.approval, now)
      then Update(s, t, timer.(callback := Notifying(now))).(pending := s.pending - {timer.subject})
      else Update(s, t, timer.(callback := CleaningUp))
    case Notifying(now) =>
      Update(s, t, timer.(callback := CleaningUp)).(notices := s.notices + [Notice(timer.approval, s.clock)])
    case CleaningUp =>
      var after := Update(s, t, timer.(callback := Finished));
      if timer.subject in s.tracked && s.tracked[timer.subject] == Entry(timer.approval, t)
      then after.(tracked := s.tracked - {timer.subject})
      else after
    case Finished => s
  }

  function Apply(s: State, step: Step): State {
    match step
    case Tick(seconds) => s.(clock := s.clock + seconds)
    case Issue(subject, approval, expires) =>
      if approval in s.issued then s
      else s.(issued := s.issued[approval := Issued(subject, expires)], pending := s.pending[subject := approval])
    case Resolve(subject) => s.(pending := s.pending - {subject})
    case Schedule(approval, created) =>
      if created in s.timers || approval !in s.issued then s else Create(s, approval, created)
    case Arm(t) => if t in s.timers then ArmStep(s, t) else s
    case Pop(subject) =>
      if subject in s.tracked && s.tracked[subject].timer in s.timers then
        var t := s.tracked[subject].timer;
        Update(s, t, s.timers[t].(debt := Popped)).(tracked := s.tracked - {subject})
      else s
    case CancelPopped(t) =>
      if t in s.timers && s.timers[t].debt.Popped?
      then Update(s, t, s.timers[t].(cancelled := true, debt := NoDebt)) else s
    case Fire(t) =>
      if t in s.timers && s.timers[t].Live() then Update(s, t, s.timers[t].(callback := Checking)) else s
    case Run(t, created) => if t in s.timers then RunStep(s, t, created) else s
  }

  function Execute(steps: seq<Step>): State {
    if steps == [] then INITIAL else Apply(Execute(steps[..|steps| - 1]), steps[|steps| - 1])
  }

  // ---------------------------------------------------------------- no timer is forgotten

  type Timers = map<TimerId, Timer>
  type Entries = map<Subject, Entry>

  predicate IsTracked(timers: Timers, tracked: Entries, t: TimerId)
    requires t in timers
  {
    timers[t].subject in tracked && tracked[timers[t].subject].timer == t
  }

  /** An entry names the subject and the approval of its timer. */
  ghost predicate EntryMatches(timers: Timers, tracked: Entries, k: Subject)
    requires k in tracked
  {
    && tracked[k].timer in timers
    && timers[tracked[k].timer].subject == k
    && timers[tracked[k].timer].approval == tracked[k].approval
  }

  /** A tracked timer is neither cancelled nor about to be, and its callback has not finished. */
  ghost predicate TrackedIsSound(timers: Timers, tracked: Entries, t: TimerId)
    requires t in timers
  {
    IsTracked(timers, tracked, t) ==>
      !timers[t].cancelled && timers[t].debt.NoDebt? && !timers[t].arming.ToTrack? && !timers[t].callback.Finished?
  }

  /** A replaced timer and the call that replaced it know each other. */
  ghost predicate DebtIsHeld(timers: Timers, t: TimerId)
    requires t in timers
  {
    var timer := timers[t];
    && (timer.debt.Replaced? ==>
          timer.debt.successor != t && timer.debt.successor in timers &&
          timers[timer.debt.successor].arming == ToCancel(Some(t)))
    && (timer.arming.ToCancel? && timer.arming.previous.Some? ==>
          timer.arming.previous.value in timers && timers[timer.arming.previous.value].debt == Replaced(t))
  }

  /** An uncancelled timer that has not fired is tracked, about to be, or about to be cancelled. */
  ghost predicate NotForgotten(timers: Timers, tracked: Entries, t: TimerId)
    requires t in timers
  {
    var timer := timers[t];
    && (timer.arming.ToTrack? ==> timer.debt.NoDebt? && !timer.cancelled)
    && (!timer.arming.Started? ==> timer.callback.NotFired?)
    && (!timer.cancelled && timer.callback.NotFired? ==>
          IsTracked(timers, tracked, t) || !timer.debt.NoDebt? || timer.arming.ToTrack?)
  }

  ghost predicate TimerInv(timers: Timers, tracked: Entries, t: TimerId)
    requires t in timers
  {
    TrackedIsSound(timers, tracked, t) && DebtIsHeld(timers, t) && NotForgotten(timers, tracked, t)
  }

  ghost predicate Sound(timers: Timers, tracked: Entries) {
    && (forall k :: k in tracked ==> EntryMatches(timers, tracked, k))
    && (forall t :: t in timers ==> TimerInv(timers, tracked, t))
  }

  /** The callback of a started timer moves on, but does not finish while the timer is tracked. */
  lemma CallbackMovesOn(timers: Timers, tracked: Entries, t: TimerId, next: Callback)
    requires Sound(timers, tracked) && t in timers
    requires timers[t].arming.Started? && !next.NotFired?
    requires next.Finished? ==> !IsTracked(timers, tracked, t)
    ensures Sound(timers[t := timers[t].(callback := next)], tracked)
  {
  }

  lemma CreatedIsSound(timers: Timers, tracked: Entries, created: TimerId, issued: Issued, approval: ApprovalId)
    requires Sound(timers, tracked) && created !in timers
    ensures Sound(
      timers[created := Timer(issued.subject, approval, issued.expires, ToTrack, NotFired, NoDebt, false)], tracked)
  {
  }

  /** Dropping the entry of a timer, provided the timer has fired or is cancelled by whoever dropped it. */
  lemma EntryDropped(timers: Timers, tracked: Entries, k: Subject, timer: Timer)
    requires Sound(timers, tracked) && k in tracked
    requires timer == timers[tracked[k].timer].(debt := Popped)
          || (!timers[tracked[k].timer].callback.NotFired?
              && timer == timers[tracked[k].timer].(callback := Finished))
    ensures Sound(timers[tracked[k].timer := timer], tracked - {k})
  {
  }

  lemma Cancelling(timers: Timers, tracked: Entries, p: TimerId)
    requires Sound(timers, tracked) && p in timers && timers[p].debt.Popped?
    ensures Sound(timers[p := timers[p].(cancelled := true, debt := NoDebt)], tracked)
  {
  }

  lemma ReplacingEntry(timers: Timers, tracked: Entries, t: TimerId, p: TimerId)
    requires Sound(timers, tracked) && t in timers && timers[t].arming.ToTrack?
    requires timers[t].subject in tracked && tracked[timers[t].subject].timer == p
    ensures p in timers && p != t
    ensures Sound(timers[p := timers[p].(debt := Replaced(t))][t := timers[t].(arming := ToCancel(Some(p)))],
                  tracked[timers[t].subject := Entry(timers[t].approval, t)])
  {
  }

  lemma FirstEntry(timers: Timers, tracked: Entries, t: TimerId)
    requires Sound(timers, tracked) && t in timers && timers[t].arming.ToTrack?
    requires timers[t].subject !in tracked
    ensures Sound(timers[t := timers[t].(arming := ToCancel(None))],
                  tracked[timers[t].subject := Entry(timers[t].approval, t)])
  {
  }

  lemma CancellingPrevious(timers: Timers, tracked: Entries, t: TimerId, p: TimerId)
    requires Sound(timers, tracked) && t in timers && timers[t].arming == ToCancel(Some(p))
    ensures p in timers && p != t
    ensures Sound(timers[p := timers[p].(cancelled := true, debt := NoDebt)][t := timers[t].(arming := ToStart)],
        tracked)
  {
    assert TimerInv(timers, tracked, t);
    assert TimerInv(timers, tracked, p);
    var after := timers[p := timers[p].(cancelled := true, debt := NoDebt)][t := timers[t].(arming := ToStart)];
    forall x | x in after ensures TimerInv(after, tracked, x) {
      assert TimerInv(timers, tracked, x);
    }
    forall k | k in tracked ensures EntryMatches(after, tracked, k) {
      assert EntryMatches(timers, tracked, k);
    }
  }

  lemma ArmingMovesOn(timers: Timers, tracked: Entries, t: TimerId, next: Arming)
    requires Sound(timers, tracked) && t in timers
    requires (timers[t].arming == ToCancel(None) && next == ToStart) || (timers[t].arming == ToStart && next == Started)
    ensures Sound(timers[t := timers[t].(arming := next)], tracked)
  {
  }

  lemma ArmKeepsTimers(s: State, t: TimerId)
    requires Sound(s.timers, s.tracked) && t in s.timers
    ensures Sound(ArmStep(s, t).timers, ArmStep(s, t).tracked)
  {
    var timer := s.timers[t];
    match timer.arming {
      case ToTrack =>
        if timer.subject in s.tracked {
          ReplacingEntry(s.timers, s.tracked, t, s.tracked[timer.subject].timer);
        } else {
          FirstEntry(s.timers, s.tracked, t);
        }
      case ToCancel(previous) =>
        match previous {
          case None => ArmingMovesOn(s.timers, s.tracked, t, ToStart);
          case Some(p) => CancellingPrevious(s.timers, s.tracked, t, p);
        }
      case ToStart => ArmingMovesOn(s.timers, s.tracked, t, Started);
      case Started =>
    }
  }

  lemma RunKeepsTimers(s: State, t: TimerId, created: TimerId)
    requires Sound(s.timers, s.tracked) && t in s.timers
    ensures Sound(RunStep(s, t, created).timers, RunStep(s, t, created).tracked)
  {
    var timer := s.timers[t];
    assert TimerInv(s.timers, s.tracked, t);
    match timer.callback {
      case NotFired =>
      case Checking =>
        if s.clock < timer.expires {
          if created !in s.timers && timer.approval in s.issued {
            CreatedIsSound(s.timers, s.tracked, created, s.issued[timer.approval], timer.approval);
            CallbackMovesOn(Create(s, timer.approval, created).timers, s.tracked, t, Rearming(created));
          }
        } else {
          CallbackMovesOn(s.timers, s.tracked, t, Expiring(s.clock));
        }
      case Rearming(n) => CallbackMovesOn(s.timers, s.tracked, t, CleaningUp);
      case Expiring(now) =>
        CallbackMovesOn(s.timers, s.tracked, t, Notifying(now));
        CallbackMovesOn(s.timers, s.tracked, t, CleaningUp);
      case Notifying(now) => CallbackMovesOn(s.timers, s.tracked, t, CleaningUp);
      case CleaningUp =>
        if IsTracked(s.timers, s.tracked, t) {
          assert EntryMatches(s.timers, s.tracked, timer.subject);
          EntryDropped(s.timers, s.tracked, timer.subject, timer.(callback := Finished));
        } else {
          CallbackMovesOn(s.timers, s.tracked, t, Finished);
        }
      case Finished =>
    }
  }

  lemma StepKeepsTimers(s: State, step: Step)
    requires Sound(s.timers, s.tracked)
    ensures Sound(Apply(s, step).timers, Apply(s, step).tracked)
  {
    hide Sound, ArmStep, RunStep;
    match step {
      case Schedule(approval, created) =>
        if created !in s.timers && approval in s.issued {
          CreatedIsSound(s.timers, s.tracked, created, s.issued[approval], approval);
        }
      case Arm(t) => if t in s.timers { ArmKeepsTimers(s, t); }
      case Pop(subject) =>
        if subject in s.tracked && s.tracked[subject].timer in s.timers {
          EntryDropped(s.timers, s.tracked, subject, s.timers[s.tracked[subject].timer].(debt := Popped));
        }
      case CancelPopped(t) =>
        if t in s.timers && s.timers[t].debt.Popped? { Cancelling(s.timers, s.tracked, t); }
      case Fire(t) =>
        if t in s.timers && s.timers[t].Live() { CallbackMovesOn(s.timers, s.tracked, t, Checking); }
      case Run(t, created) => if t in s.timers { RunKeepsTimers(s, t, created); }
      case _ =>
    }
  }

  /** In every interleaving, at every moment, no timer is forgotten. */
  lemma {:induction false} TimersAreSound(steps: seq<Step>)
    ensures Sound(Execute(steps).timers, Execute(steps).tracked)
  {
    if steps == [] {
    } else {
      TimersAreSound(steps[..|steps| - 1]);
      StepKeepsTimers(Execute(steps[..|steps| - 1]), steps[|steps| - 1]);
    }
  }

  /**
    Every started timer that can still fire is the tracked timer of its subject, or some call still
    has to cancel it and knows so.
   */
  lemma LiveTimerIsTrackedOrOwed(steps: seq<Step>, t: TimerId)
    requires t in Execute(steps).timers && Execute(steps).timers[t].Live()
    ensures
      var s := Execute(steps);
      || IsTracked(s.timers, s.tracked, t)
      || s.timers[t].debt.Popped?
      || exists n :: n in s.timers && s.timers[n].arming == ToCancel(Some(t))
  {
    TimersAreSound(steps);
    var s := Execute(steps);
    assert TimerInv(s.timers, s.tracked, t);
  }

  predicate Quiescent(s: State) {
    forall t :: t in s.timers ==> s.timers[t].AtRest()
  }

  /**
    Once no thread is at work, the live timers are exactly the tracked ones. So every subject has at
    most one, and no entry is left behind for a timer that has fired or was cancelled.
   */
  lemma QuiescentTimersAreTheTrackedOnes(steps: seq<Step>, t: TimerId)
    requires Quiescent(Execute(steps)) && t in Execute(steps).timers
    ensures Execute(steps).timers[t].Live() <==> IsTracked(Execute(steps).timers, Execute(steps).tracked, t)
  {
    TimersAreSound(steps);
    var s := Execute(steps);
    assert TimerInv(s.timers, s.tracked, t);
  }

  lemma AtMostOneLiveTimer(steps: seq<Step>, t: TimerId, u: TimerId)
    requires Quiescent(Execute(steps)) && t in Execute(steps).timers && u in Execute(steps).timers
    requires Execute(steps).timers[t].Live() && Execute(steps).timers[u].Live()
    requires Execute(steps).timers[t].subject == Execute(steps).timers[u].subject
    ensures t == u
  {
    QuiescentTimersAreTheTrackedOnes(steps, t);
    QuiescentTimersAreTheTrackedOnes(steps, u);
  }

  // ---------------------------------------------------------------- at most one notice, never early

  ghost function Sent(notices: seq<Notice>): set<ApprovalId> {
    set i | 0 <= i < |notices| :: notices[i].approval
  }

  lemma SentOfNext(notices: seq<Notice>, notice: Notice)
    ensures Sent(notices + [notice]) == Sent(notices) + {notice.approval}
  {
    var all := notices + [notice];
    assert forall i :: 0 <= i < |notices| ==> all[i] == notices[i];
    assert all[|notices|] == notice;
  }

  /** Timers, pending approvals and notices carry what was issued. */
  ghost predicate ApprovalsMatch(s: State) {
    && (forall t :: t in s.timers ==> TimerMatches(s, t))
    && (forall k :: k in s.pending ==> s.pending[k] in s.issued && s.issued[s.pending[k]].subject == k)
    && Sent(s.notices) <= s.issued.Keys
  }

  ghost predicate TimerMatches(s: State, t: TimerId)
    requires t in s.timers
  {
    && s.timers[t].approval in s.issued
    && s.timers[t].subject == s.issued[s.timers[t].approval].subject
    && s.timers[t].expires == s.issued[s.timers[t].approval].expires
  }

  ghost predicate NoticesAreRight(s: State) {
    && (forall i :: 0 <= i < |s.notices| ==>
          && s.notices[i].approval in s.issued
          && s.issued[s.notices[i].approval].expires <= s.notices[i].time <= s.clock)
    && (forall i, j :: 0 <= i < j < |s.notices| ==> s.notices[i].approval != s.notices[j].approval)
  }

  /** An approval that can be claimed: pending, so neither announced nor being announced. */
  ghost predicate Unclaimed(s: State, k: Subject)
    requires k in s.pending
  {
    && s.pending[k] !in Sent(s.notices)
    && forall t :: t in s.timers && s.timers[t].callback.Notifying? ==> s.timers[t].approval != s.pending[k]
  }

  /** A callback about to send a notice has claimed its approval and is alone in that. */
  ghost predicate NotifierIsAlone(s: State, t: TimerId)
    requires t in s.timers
  {
    var timer := s.timers[t];
    && (timer.callback.Expiring? ==> timer.callback.now <= s.clock)
    && (timer.callback.Notifying? ==>
          && timer.expires <= timer.callback.now <= s.clock
          && timer.approval !in Sent(s.notices)
          && (forall u :: u in s.timers && u != t && s.timers[u].callback.Notifying? ==>
                s.timers[u].approval != timer.approval))
  }

  ghost predicate NoticesInv(s: State) {
    && ApprovalsMatch(s)
    && NoticesAreRight(s)
    && (forall t :: t in s.timers ==> NotifierIsAlone(s, t))
    && (forall k :: k in s.pending ==> Unclaimed(s, k))
  }

  /** A timer that stays what it is and neither claims nor is about to send anything new. */
  ghost predicate QuietTimer(timer: Timer, timer': Timer, clock: int) {
    && timer'.approval == timer.approval
    && timer'.subject == timer.subject
    && timer'.expires == timer.expires
    && (timer'.callback.Notifying? ==> timer'.callback == timer.callback)
    && (timer'.callback.Expiring? ==> timer'.callback == timer.callback || timer'.callback.now == clock)
  }

  /** A step that issues, creates, claims and sends nothing. */
  ghost predicate Quiet(s: State, s': State) {
    && s'.issued == s.issued && s'.notices == s.notices && s'.clock >= s.clock
    && (forall k :: k in s'.pending ==> k in s.pending && s'.pending[k] == s.pending[k])
    && s'.timers.Keys == s.timers.Keys
    && forall t :: t in s.timers ==> QuietTimer(s.timers[t], s'.timers[t], s.clock)
  }

  lemma QuietKeepsNotices(s: State, s': State)
    requires NoticesInv(s) && Quiet(s, s')
    ensures NoticesInv(s')
  {
    forall t | t in s'.timers ensures TimerMatches(s', t) && NotifierIsAlone(s', t) {
      assert TimerMatches(s, t) && NotifierIsAlone(s, t) && QuietTimer(s.timers[t], s'.timers[t], s.clock);
    }
    forall k | k in s'.pending ensures Unclaimed(s', k) {
      assert Unclaimed(s, k);
      forall t | t in s'.timers && s'.timers[t].callback.Notifying? ensures s'.timers[t].approval != s'.pending[k] {
        assert QuietTimer(s.timers[t], s'.timers[t], s.clock);
      }
    }
  }

  lemma CreatingKeepsNotices(s: State, approval: ApprovalId, created: TimerId)
    requires NoticesInv(s) && approval in s.issued && created !in s.timers
    ensures NoticesInv(Create(s, approval, created))
  {
    var s' := Create(s, approval, created);
    forall t | t in s'.timers ensures TimerMatches(s', t) && NotifierIsAlone(s', t) {
      assert t != created ==> TimerMatches(s, t) && NotifierIsAlone(s, t);
    }
    forall k | k in s'.pending ensures Unclaimed(s', k) {
      assert Unclaimed(s, k);
    }
  }

  lemma IssuingKeepsNotices(s: State, subject: Subject, approval: ApprovalId, expires: int)
    requires NoticesInv(s) && approval !in s.issued
    ensures NoticesInv(Apply(s, Issue(subject, approval, expires)))
  {
  }

  /** The test-and-clear: the claiming callback takes the approval out of `pending`. */
  lemma ClaimingKeepsNotices(s: State, t: TimerId, now: int)
    requires NoticesInv(s) && t in s.timers && s.timers[t].callback == Expiring(now)
    requires s.timers[t].subject in s.pending && s.pending[s.timers[t].subject] == s.timers[t].approval
    requires now >= s.timers[t].expires
    ensures NoticesInv(Update(s, t,
        s.timers[t].(callback := Notifying(now))).(pending := s.pending - {s.timers[t].subject}))
  {
  }

  lemma SendingKeepsNotices(s: State, t: TimerId, now: int)
    requires NoticesInv(s) && t in s.timers && s.timers[t].callback == Notifying(now)
    ensures NoticesInv(Update(s, t, s.timers[t].(callback := CleaningUp)).(
                         notices := s.notices + [Notice(s.timers[t].approval, s.clock)]))
  {
    var notice := Notice(s.timers[t].approval, s.clock);
    var s' := Update(s, t, s.timers[t].(callback := CleaningUp)).(notices := s.notices + [notice]);
    SentOfNext(s.notices, notice);
    assert TimerMatches(s, t) && NotifierIsAlone(s, t);
    forall u | u in s'.timers ensures TimerMatches(s', u) && NotifierIsAlone(s', u) {
      assert TimerMatches(s, u) && NotifierIsAlone(s, u);
    }
    forall k | k in s'.pending ensures Unclaimed(s', k) {
      assert Unclaimed(s, k);
    }
    forall i | 0 <= i < |s.notices| ensures s.notices[i].approval != notice.approval {
      assert s.notices[i].approval in Sent(s.notices);
    }
  }

  /** A step that changes only timers that stay quiet, and entries. */
  lemma ChangesAreQuiet(s: State, s': State, p: TimerId, t: TimerId, previous: Timer, timer: Timer)
    requires p in s.timers && t in s.timers && p != t
    requires s' == s.(timers := s.timers[p := previous][t := timer], tracked := s'.tracked)
    requires QuietTimer(s.timers[p], previous, s.clock) && QuietTimer(s.timers[t], timer, s.clock)
    ensures Quiet(s, s')
  {
  }

  lemma ChangeIsQuiet(s: State, s': State, t: TimerId, timer: Timer)
    requires t in s.timers
    requires s' == s.(timers := s.timers[t := timer], tracked := s'.tracked)
    requires QuietTimer(s.timers[t], timer, s.clock)
    ensures Quiet(s, s')
  {
  }

  lemma RearmingKeepsNotices(s: State, t: TimerId, created: TimerId)
    requires NoticesInv(s) && t in s.timers && created !in s.timers && s.timers[t].approval in s.issued
    ensures NoticesInv(
      Update(Create(s, s.timers[t].approval, created), t, s.timers[t].(callback := Rearming(created))))
  {
    hide NoticesInv;
    CreatingKeepsNotices(s, s.timers[t].approval, created);
    var middle := Create(s, s.timers[t].approval, created);
    var timer := s.timers[t].(callback := Rearming(created));
    ChangeIsQuiet(middle, Update(middle, t, timer), t, timer);
    QuietKeepsNotices(middle, Update(middle, t, timer));
  }

  lemma RunIsQuiet(s: State, t: TimerId, created: TimerId)
    requires t in s.timers
    requires !s.timers[t].callback.Notifying?
    requires s.timers[t].callback.Checking? ==>
               s.clock >= s.timers[t].expires || created in s.timers || s.timers[t].approval !in s.issued
    requires s.timers[t].callback.Expiring? ==>
               !Claimable(s, s.timers[t].subject, s.timers[t].approval, s.timers[t].callback.now)
    ensures Quiet(s, RunStep(s, t, created))
  {
    hide Quiet;
    var s' := RunStep(s, t, created);
    match s.timers[t].callback {
      case NotFired => StayingIsQuiet(s);
      case Checking =>
        if s.clock < s.timers[t].expires { StayingIsQuiet(s); } else { ChangeIsQuiet(s, s', t, s'.timers[t]); }
      case Rearming(n) =>
        if n in s.timers && s.timers[n].arming.Started? {
          ChangeIsQuiet(s, s', t, s'.timers[t]);
        } else {
          StayingIsQuiet(s);
        }
      case Expiring(now) => ChangeIsQuiet(s, s', t, s'.timers[t]);
      case Notifying(now) =>
      case CleaningUp => ChangeIsQuiet(s, s', t, s'.timers[t]);
      case Finished => StayingIsQuiet(s);
    }
  }

  lemma StayingIsQuiet(s: State)
    ensures Quiet(s, s)
  {
  }

  lemma RunKeepsNotices(s: State, t: TimerId, created: TimerId)
    requires NoticesInv(s) && t in s.timers
    ensures NoticesInv(RunStep(s, t, created))
  {
    var timer, s' := s.timers[t], RunStep(s, t, created);
    assert TimerMatches(s, t);
    hide NoticesInv;
    if timer.callback.Checking? && s.clock < timer.expires && created !in s.timers {
      RearmingKeepsNotices(s, t, created);
    } else if timer.callback.Expiring? && Claimable(s, timer.subject, timer.approval, timer.callback.now) {
      ClaimingKeepsNotices(s, t, timer.callback.now);
    } else if timer.callback.Notifying? {
      SendingKeepsNotices(s, t, timer.callback.now);
    } else {
      RunIsQuiet(s, t, created);
      QuietKeepsNotices(s, s');
    }
  }

  lemma ArmIsQuiet(s: State, t: TimerId)
    requires Sound(s.timers, s.tracked) && t in s.timers
    ensures Quiet(s, ArmStep(s, t))
  {
    hide Quiet;
    var timer, s' := s.timers[t], ArmStep(s, t);
    assert TimerInv(s.timers, s.tracked, t);
    hide Sound, TimerInv;
    if timer.arming.Started? {
      StayingIsQuiet(s);
    } else if timer.arming.ToTrack? && timer.subject in s.tracked && s.tracked[timer.subject].timer in s.timers {
      var p := s.tracked[timer.subject].timer;
      ChangesAreQuiet(s, s', p, t, s.timers[p].(debt := Replaced(t)), timer.(arming := ToCancel(Some(p))));
    } else if timer.arming.ToCancel? && timer.arming.previous.Some? {
      var p := timer.arming.previous.value;
      ChangesAreQuiet(s, s', p, t, s.timers[p].(cancelled := true, debt := NoDebt), timer.(arming := ToStart));
    } else {
      ChangeIsQuiet(s, s', t, s'.timers[t]);
    }
  }

  lemma LessIsQuiet(s: State, s': State)
    requires s' == s.(clock := s'.clock, pending := s'.pending) && s'.clock >= s.clock
    requires s'.pending.Keys <= s.pending.Keys && forall k :: k in s'.pending ==> s'.pending[k] == s.pending[k]
    ensures Quiet(s, s')
  {
  }

  lemma OtherStepsAreQuiet(s: State, step: Step)
    requires Sound(s.timers, s.tracked)
    requires !step.Issue? && !step.Schedule? && !step.Run?
    ensures Quiet(s, Apply(s, step))
  {
    hide ArmStep, RunStep, Sound, Quiet;
    var s' := Apply(s, step);
    match step {
      case Arm(t) => if t in s.timers { ArmIsQuiet(s, t); } else { StayingIsQuiet(s); }
      case Tick(seconds) => LessIsQuiet(s, s');
      case Resolve(subject) => LessIsQuiet(s, s');
      case Pop(subject) =>
        if subject in s.tracked && s.tracked[subject].timer in s.timers {
          var t := s.tracked[subject].timer;
          ChangeIsQuiet(s, s', t, s'.timers[t]);
        } else {
          StayingIsQuiet(s);
        }
      case CancelPopped(t) =>
        if t in s.timers && s.timers[t].debt.Popped? {
          ChangeIsQuiet(s, s', t, s'.timers[t]);
        } else {
          StayingIsQuiet(s);
        }
      case Fire(t) =>
        if t in s.timers && s.timers[t].Live() { ChangeIsQuiet(s, s', t, s'.timers[t]); } else { StayingIsQuiet(s); }
      case _ =>
    }
  }

  lemma StepKeepsNotices(s: State, step: Step)
    requires Sound(s.timers, s.tracked) && NoticesInv(s)
    ensures NoticesInv(Apply(s, step))
  {
    hide NoticesInv, RunStep, ArmStep, Quiet, Sound;
    match step {
      case Issue(subject, approval, expires) =>
        if approval !in s.issued { IssuingKeepsNotices(s, subject, approval, expires); }
      case Schedule(approval, created) =>
        if created !in s.timers && approval in s.issued { CreatingKeepsNotices(s, approval, created); }
      case Run(t, created) =>
        if t in s.timers { RunKeepsNotices(s, t, created); }
      case _ =>
        OtherStepsAreQuiet(s, step);
        QuietKeepsNotices(s, Apply(s, step));
    }
  }

  /** In every interleaving, each approval gets at most one timeout notice, and none before it expires. */
  lemma {:induction false} NoticesAreTimely(steps: seq<Step>)
    ensures NoticesInv(Execute(steps))
  {
    if steps == [] {
    } else {
      NoticesAreTimely(steps[..|steps| - 1]);
      TimersAreSound(steps[..|steps| - 1]);
      StepKeepsNotices(Execute(steps[..|steps| - 1]), steps[|steps| - 1]);
    }
  }

  lemma AtMostOneNotice(steps: seq<Step>, i: nat, j: nat)
    requires i < |Execute(steps).notices| && j < |Execute(steps).notices|
    ensures Execute(steps).notices[i].approval in Execute(steps).issued
    ensures Execute(steps).issued[Execute(steps).notices[i].approval].expires <= Execute(steps).notices[i].time
    ensures Execute(steps).notices[i].approval == Execute(steps).notices[j].approval ==> i == j
  {
    NoticesAreTimely(steps);
  }

  // ---------------------------------------------------------------- every claim is announced

  /** The step takes an expired approval out of `pending`, for its callback to announce. */
  predicate IsClaim(s: State, step: Step) {
    && step.Run? && step.timer in s.timers && s.timers[step.timer].callback.Expiring?
    && var timer := s.timers[step.timer];
       Claimable(s, timer.subject, timer.approval, timer.callback.now)
  }

  /** All approvals that callbacks have claimed. */
  ghost function Claimed(steps: seq<Step>): set<ApprovalId> {
    if steps == [] then {}
    else
      var s, step := Execute(steps[..|steps| - 1]), steps[|steps| - 1];
      Claimed(steps[..|steps| - 1]) + if IsClaim(s, step) then {s.timers[step.timer].approval} else {}
  }

  /** The callbacks that have claimed an approval and have not sent its notice yet. */
  function Notifiers(timers: Timers): set<TimerId> {
    set t | t in timers && timers[t].callback.Notifying?
  }

  function ApprovalsOf(timers: Timers, ts: set<TimerId>): set<ApprovalId>
    requires ts <= timers.Keys
  {
    set t | t in ts :: timers[t].approval
  }

  function Announcing(timers: Timers): set<ApprovalId> {
    ApprovalsOf(timers, Notifiers(timers))
  }

  predicate SameNotifier(timer: Timer, timer': Timer) {
    timer'.approval == timer.approval && (timer'.callback.Notifying? <==> timer.callback.Notifying?)
  }

  /** No callback begins or ends to notify, and no timer changes its approval. */
  ghost predicate SameNotifiers(timers: Timers, timers': Timers) {
    && (forall t :: t in timers ==> t in timers' && SameNotifier(timers[t], timers'[t]))
    && (forall t :: t in timers' && t !in timers ==> !timers'[t].callback.Notifying?)
  }

  lemma SameNotifiersAnnounce(timers: Timers, timers': Timers)
    requires SameNotifiers(timers, timers')
    ensures Notifiers(timers') == Notifiers(timers) && Announcing(timers') == Announcing(timers)
  {
    forall t ensures t in Notifiers(timers') <==> t in Notifiers(timers) {
      if t in timers { assert SameNotifier(timers[t], timers'[t]); }
    }
    assert forall t :: t in Notifiers(timers) ==> SameNotifier(timers[t], timers'[t]);
  }

  lemma ChangeKeepsNotifiers(timers: Timers, t: TimerId, timer: Timer)
    requires if t in timers then SameNotifier(timers[t], timer) else !timer.callback.Notifying?
    ensures SameNotifiers(timers, timers[t := timer])
  {
  }

  lemma ChangesKeepNotifiers(timers: Timers, p: TimerId, previous: Timer, t: TimerId, timer: Timer)
    requires if p in timers then SameNotifier(timers[p], previous) else !previous.callback.Notifying?
    requires if t in timers then SameNotifier(timers[t], timer) else !timer.callback.Notifying?
    ensures SameNotifiers(timers, timers[p := previous][t := timer])
  {
  }

  lemma StayingKeepsNotifiers(timers: Timers)
    ensures SameNotifiers(timers, timers)
  {
  }

  lemma ArmKeepsNotifiers(s: State, t: TimerId)
    requires t in s.timers
    ensures SameNotifiers(s.timers, ArmStep(s, t).timers) && ArmStep(s, t).notices == s.notices
  {
    hide SameNotifiers;
    var timer, s' := s.timers[t], ArmStep(s, t);
    if timer.arming.Started? {
      StayingKeepsNotifiers(s.timers);
    } else if timer.arming.ToTrack? && timer.subject in s.tracked && s.tracked[timer.subject].timer in s.timers {
      var p := s.tracked[timer.subject].timer;
      ChangesKeepNotifiers(s.timers, p, s.timers[p].(debt := Replaced(t)), t, timer.(arming := ToCancel(Some(p))));
    } else if timer.arming.ToCancel? && timer.arming.previous.Some? && timer.arming.previous.value in s.timers
              && timer.arming.previous.value != t {
      var p := timer.arming.previous.value;
      ChangesKeepNotifiers(
        s.timers, p, s.timers[p].(cancelled := true, debt := NoDebt), t, timer.(arming := ToStart));
    } else {
      ChangeKeepsNotifiers(s.timers, t, s'.timers[t]);
    }
  }

  lemma RunKeepsNotifiers(s: State, t: TimerId, created: TimerId)
    requires t in s.timers && !s.timers[t].callback.Notifying? && !IsClaim(s, Run(t, created))
    ensures SameNotifiers(s.timers, RunStep(s, t, created).timers) && RunStep(s, t, created).notices == s.notices
  {
    hide SameNotifiers;
    var timer, s' := s.timers[t], RunStep(s, t, created);
    if timer.callback.Checking? && s.clock < timer.expires && created !in s.timers && timer.approval in s.issued {
      ChangesKeepNotifiers(s.timers, created, s'.timers[created], t, s'.timers[t]);
    } else if s'.timers == s.timers {
      StayingKeepsNotifiers(s.timers);
    } else {
      ChangeKeepsNotifiers(s.timers, t, s'.timers[t]);
    }
  }

  lemma OtherStepsKeepNotifiers(s: State, step: Step)
    requires !IsClaim(s, step)
    requires step.Run? && step.timer in s.timers ==> !s.timers[step.timer].callback.Notifying?
    ensures SameNotifiers(s.timers, Apply(s, step).timers) && Apply(s, step).notices == s.notices
  {
    hide ArmStep, RunStep, IsClaim, SameNotifiers;
    StayingKeepsNotifiers(s.timers);
    var s' := Apply(s, step);
    match step {
      case Arm(t) => if t in s.timers { ArmKeepsNotifiers(s, t); }
      case Run(t, created) => if t in s.timers { RunKeepsNotifiers(s, t, created); }
      case Schedule(approval, created) =>
        if created in s'.timers { ChangeKeepsNotifiers(s.timers, created, s'.timers[created]); }
      case Pop(subject) =>
        if subject in s.tracked && s.tracked[subject].timer in s.timers {
          ChangeKeepsNotifiers(s.timers, s.tracked[subject].timer, s'.timers[s.tracked[subject].timer]);
        }
      case CancelPopped(t) => if t in s.timers { ChangeKeepsNotifiers(s.timers, t, s'.timers[t]); }
      case Fire(t) => if t in s.timers { ChangeKeepsNotifiers(s.timers, t, s'.timers[t]); }
      case _ =>
    }
  }

  lemma ClaimAnnounces(s: State, t: TimerId, created: TimerId)
    requires IsClaim(s, Run(t, created))
    ensures
      var s' := Apply(s, Run(t, created));
      s'.notices == s.notices && Announcing(s'.timers) == Announcing(s.timers) + {s.timers[t].approval}
  {
    var s' := Apply(s, Run(t, created));
    assert Notifiers(s'.timers) == Notifiers(s.timers) + {t};
    assert forall u :: u in Notifiers(s.timers) ==> s'.timers[u] == s.timers[u];
  }

  lemma NoticeIsSent(s: State, t: TimerId, created: TimerId)
    requires NoticesInv(s) && t in s.timers && s.timers[t].callback.Notifying?
    ensures
      var s' := Apply(s, Run(t, created));
      && Sent(s'.notices) == Sent(s.notices) + {s.timers[t].approval}
      && Announcing(s'.timers) == Announcing(s.timers) - {s.timers[t].approval}
  {
    var s', approval := Apply(s, Run(t, created)), s.timers[t].approval;
    SentOfNext(s.notices, Notice(approval, s.clock));
    assert NotifierIsAlone(s, t);
    assert Notifiers(s'.timers) == Notifiers(s.timers) - {t};
    assert forall u :: u in Notifiers(s'.timers) ==> s'.timers[u] == s.timers[u];
  }

  lemma StepAnnounces(s: State, step: Step)
    requires NoticesInv(s)
    ensures
      var s' := Apply(s, step);
      Sent(s'.notices) + Announcing(s'.timers) ==
      Sent(s.notices) + Announcing(s.timers) + if IsClaim(s, step) then {s.timers[step.timer].approval} else {}
  {
    hide NoticesInv, Sent, Announcing, Apply, SameNotifiers;
    if IsClaim(s, step) {
      ClaimAnnounces(s, step.timer, step.created);
    } else if step.Run? && step.timer in s.timers && s.timers[step.timer].callback.Notifying? {
      NotifierAnnounces(s.timers, step.timer);
      NoticeIsSent(s, step.timer, step.created);
    } else {
      OtherStepsKeepNotifiers(s, step);
      SameNotifiersAnnounce(s.timers, Apply(s, step).timers);
    }
  }

  /**
    In every interleaving, the approvals claimed so far are those announced and those about to be by
    the callback that claimed them. So a claim is never lost: past `Notifying` its notice is sent.
   */
  lemma {:induction false} ClaimsAreAnnounced(steps: seq<Step>)
    ensures
      var s := Execute(steps);
      && Claimed(steps) == Sent(s.notices) + Announcing(s.timers)
      && |Claimed(steps)| == |s.notices| + |Notifiers(s.timers)|
  {
    hide NoticesInv, Sent, Announcing, Notifiers, Apply;
    if steps == [] {
      NothingIsAnnounced();
    } else {
      ClaimsAreAnnounced(steps[..|steps| - 1]);
      NoticesAreTimely(steps[..|steps| - 1]);
      StepAnnounces(Execute(steps[..|steps| - 1]), steps[|steps| - 1]);
    }
    NoticesAreTimely(steps);
    AnnouncedIsCounted(Execute(steps));
  }

  lemma NothingIsAnnounced()
    ensures Sent([]) == {} && Announcing(map[]) == {}
  {
  }

  lemma NotifierAnnounces(timers: Timers, t: TimerId)
    requires t in timers && timers[t].callback.Notifying?
    ensures timers[t].approval in Announcing(timers)
  {
    assert t in Notifiers(timers);
  }

  lemma AnnouncedIsCounted(s: State)
    requires NoticesInv(s)
    ensures |Sent(s.notices) + Announcing(s.timers)| == |s.notices| + |Notifiers(s.timers)|
  {
    forall t | t in Notifiers(s.timers) ensures NotifierIsAlone(s, t) {
    }
    SentIsCounted(s.notices);
    AnnouncingIsCounted(s.timers, Notifiers(s.timers));
    assert Sent(s.notices) !! Announcing(s.timers);
    assert |Sent(s.notices) + Announcing(s.timers)| == |Sent(s.notices)| + |Announcing(s.timers)|;
  }

  lemma {:induction false} SentIsCounted(notices: seq<Notice>)
    requires forall i, j :: 0 <= i < j < |notices| ==> notices[i].approval != notices[j].approval
    ensures |Sent(notices)| == |notices|
  {
    if notices == [] {
    } else {
      var n := |notices| - 1;
      assert notices == notices[..n] + [notices[n]];
      SentIsCounted(notices[..n]);
      SentOfNext(notices[..n], notices[n]);
      assert notices[n].approval !in Sent(notices[..n]);
    }
  }

  lemma {:induction false} AnnouncingIsCounted(timers: Timers, ts: set<TimerId>)
    requires ts <= timers.Keys
    requires forall t, u :: t in ts && u in ts && t != u ==> timers[t].approval != timers[u].approval
    ensures |ApprovalsOf(timers, ts)| == |ts|
    decreases ts
  {
    if ts == {} {
      assert ApprovalsOf(timers, {}) == {};
    } else {
      var t :| t in ts;
      AnnouncingIsCounted(timers, ts - {t});
      var rest := ApprovalsOf(timers, ts - {t});
      assert ApprovalsOf(timers, ts) == rest + {timers[t].approval};
      assert timers[t].approval !in rest;
    }
  }

  // ---------------------------------------------------------------- what was withdrawn is not announced

  /** The approval is neither pending nor announced nor about to be. */
  ghost predicate IsGone(s: State, approval: ApprovalId) {
    && approval in s.issued && approval !in Sent(s.notices)
    && (forall k :: k in s.pending ==> s.pending[k] != approval)
    && (forall t :: t in s.timers && s.timers[t].callback.Notifying? ==> s.timers[t].approval != approval)
  }

  lemma ArmKeepsGone(s: State, t: TimerId, approval: ApprovalId)
    requires t in s.timers && IsGone(s, approval)
    ensures IsGone(ArmStep(s, t), approval)
  {
    hide Sent;
  }

  lemma RunKeepsGone(s: State, t: TimerId, created: TimerId, approval: ApprovalId)
    requires t in s.timers && IsGone(s, approval)
    ensures IsGone(RunStep(s, t, created), approval)
  {
    SentOfNext(s.notices, Notice(s.timers[t].approval, s.clock));
    hide Sent;
  }

  lemma StepKeepsGone(s: State, step: Step, approval: ApprovalId)
    requires IsGone(s, approval)
    ensures IsGone(Apply(s, step), approval)
  {
    hide Sent, ArmStep, RunStep;
    match step {
      case Arm(t) => if t in s.timers { ArmKeepsGone(s, t, approval); }
      case Run(t, created) => if t in s.timers { RunKeepsGone(s, t, created, approval); }
      case _ =>
    }
  }

  lemma {:induction false} GoneStaysGone(steps: seq<Step>, more: seq<Step>, approval: ApprovalId)
    requires IsGone(Execute(steps), approval)
    ensures IsGone(Execute(steps + more), approval)
    decreases |more|
  {
    hide IsGone, Apply;
    if more == [] {
      assert steps + more == steps;
    } else {
      var n := |more| - 1;
      GoneStaysGone(steps, more[..n], approval);
      assert (steps + more)[..|steps + more| - 1] == steps + more[..n];
      StepKeepsGone(Execute(steps + more[..n]), more[n], approval);
    }
  }

  /**
    An approval that is answered, or displaced by a new one of its subject, before a callback has
    claimed it is never announced, whatever timers are still about.
   */
  lemma WithdrawnIsNotAnnounced(steps: seq<Step>, step: Step, more: seq<Step>, subject: Subject)
    requires subject in Execute(steps).pending
    requires || step == Resolve(subject)
             || (step.Issue? && step.subject == subject && step.approval !in Execute(steps).issued)
    ensures Execute(steps).pending[subject] !in Sent(Execute(steps + [step] + more).notices)
  {
    var s := Execute(steps);
    var approval := s.pending[subject];
    NoticesAreTimely(steps);
    assert Unclaimed(s, subject);
    assert (steps + [step])[..|steps|] == steps;
    WithdrawnIsGone(s, step, subject);
    hide Apply, IsGone, NoticesInv, Unclaimed;
    assert IsGone(Execute(steps + [step]), approval);
    GoneStaysGone(steps + [step], more, approval);
    GoneIsNotSent(Execute(steps + [step] + more), approval);
  }

  lemma GoneIsNotSent(s: State, approval: ApprovalId)
    requires IsGone(s, approval)
    ensures approval !in Sent(s.notices)
  {
  }

  lemma WithdrawnIsGone(s: State, step: Step, subject: Subject)
    requires ApprovalsMatch(s) && subject in s.pending && Unclaimed(s, subject)
    requires step == Resolve(subject) || (step.Issue? && step.subject == subject && step.approval !in s.issued)
    ensures IsGone(Apply(s, step), s.pending[subject])
  {
    hide Sent, ArmStep, RunStep, TimerMatches;
  }

  // ---------------------------------------------------------------- what threads can always bring about

  function After(s: State, steps: seq<Step>): State
    decreases |steps|
  {
    if steps == [] then s else After(Apply(s, steps[0]), steps[1..])
  }

  /** Steps after a run are a run. */
  lemma {:induction false} AfterContinues(steps: seq<Step>, more: seq<Step>)
    ensures After(Execute(steps), more) == Execute(steps + more)
    decreases |more|
  {
    if more == [] {
      assert steps + more == steps;
    } else {
      var longer := steps + [more[0]];
      assert longer[..|steps|] == steps;
      assert longer + more[1..] == steps + more;
      AfterContinues(longer, more[1..]);
    }
  }

  lemma FourSteps(s: State, a: Step, b: Step, c: Step, d: Step)
    ensures After(s, [a, b, c, d]) == Apply(Apply(Apply(Apply(s, a), b), c), d)
  {
    hide Apply;
    assert [a, b, c, d][1..] == [b, c, d] && [b, c, d][1..] == [c, d] && [c, d][1..] == [d] && [d][1..] == [];
    assert After(Apply(Apply(Apply(s, a), b), c), [d]) == Apply(Apply(Apply(Apply(s, a), b), c), d);
    assert After(Apply(Apply(s, a), b), [c, d]) == After(Apply(Apply(Apply(s, a), b), c), [d]);
    assert After(Apply(s, a), [b, c, d]) == After(Apply(Apply(s, a), b), [c, d]);
  }

  /** A callback that finds its approval expired and pending claims and announces it. */
  lemma RunsToNotice(s: State, t: TimerId, created: TimerId)
    requires t in s.timers && s.timers[t].Live() && TimerMatches(s, t)
    requires s.timers[t].subject in s.pending && s.pending[s.timers[t].subject] == s.timers[t].approval
    requires s.clock >= s.timers[t].expires
    ensures
      var s' := Apply(Apply(Apply(Apply(s, Fire(t)), Run(t, created)), Run(t, created)), Run(t, created));
      && s'.notices == s.notices + [Notice(s.timers[t].approval, s.clock)]
      && s'.pending == s.pending - {s.timers[t].subject}
  {
    hide ArmStep;
    var s1 := Apply(s, Fire(t));
    assert s1 == Update(s, t, s.timers[t].(callback := Checking));
    var s2 := Apply(s1, Run(t, created));
    assert s2 == Update(s1, t, s1.timers[t].(callback := Expiring(s.clock)));
    var s3 := Apply(s2, Run(t, created));
    assert s3 == Update(s2, t, s2.timers[t].(callback := Notifying(s.clock))).(
                   pending := s2.pending - {s.timers[t].subject});
  }

  /**
    From every reachable state, a live timer of a pending approval that has expired can fire and run
    to exactly one more notice, of that approval.
   */
  lemma ExpiryIsAnnounced(steps: seq<Step>, t: TimerId, created: TimerId)
    requires t in Execute(steps).timers && Execute(steps).timers[t].Live()
    requires
      var s := Execute(steps);
      && s.timers[t].subject in s.pending && s.pending[s.timers[t].subject] == s.timers[t].approval
      && s.clock >= s.timers[t].expires
    ensures
      var s := Execute(steps);
      var s' := Execute(steps + [Fire(t), Run(t, created), Run(t, created), Run(t, created)]);
      && s'.notices == s.notices + [Notice(s.timers[t].approval, s.clock)]
      && s'.pending == s.pending - {s.timers[t].subject}
  {
    hide Execute, Apply, After;
    NoticesAreTimely(steps);
    var s := Execute(steps);
    assert TimerMatches(s, t);
    hide NoticesInv, TimerMatches;
    AfterContinues(steps, [Fire(t), Run(t, created), Run(t, created), Run(t, created)]);
    FourSteps(s, Fire(t), Run(t, created), Run(t, created), Run(t, created));
    RunsToNotice(s, t, created);
  }

  lemma ArmTracks(s: State, t: TimerId)
    requires Sound(s.timers, s.tracked) && t in s.timers && s.timers[t].arming.ToTrack?
    ensures
      var s', k := Apply(s, Arm(t)), s.timers[t].subject;
      && s'.tracked == s.tracked[k := Entry(s.timers[t].approval, t)]
      && s'.timers.Keys == s.timers.Keys
      && s'.timers[t] == s.timers[t].(arming :=
           ToCancel(if k in s.tracked then Some(s.tracked[k].timer) else None))
      && (forall x :: x in s.timers && x != t ==> s'.timers[x].callback == s.timers[x].callback)
      && (k in s.tracked ==> s.tracked[k].timer in s.timers && s.tracked[k].timer != t)
  {
    var k := s.timers[t].subject;
    if k in s.tracked {
      assert EntryMatches(s.timers, s.tracked, k);
      assert TimerInv(s.timers, s.tracked, s.tracked[k].timer);
    }
    hide Sound, TimerInv, EntryMatches, RunStep;
  }

  lemma ArmCancelsAndStarts(s: State, t: TimerId)
    requires t in s.timers && s.timers[t].arming.ToCancel?
    requires s.timers[t].arming.previous.Some? ==>
      s.timers[t].arming.previous.value in s.timers && s.timers[t].arming.previous.value != t
    ensures
      var s', previous := Apply(Apply(s, Arm(t)), Arm(t)), s.timers[t].arming.previous;
      && s'.tracked == s.tracked && s'.timers.Keys == s.timers.Keys
      && s'.timers[t] == s.timers[t].(arming := Started)
      && (forall x :: x in s.timers && x != t ==> s'.timers[x].callback == s.timers[x].callback)
      && (previous.Some? ==> s'.timers[previous.value].cancelled)
  {
    hide RunStep;
    var s1 := Apply(s, Arm(t));
    assert s1.timers[t] == s.timers[t].(arming := ToStart);
    assert Apply(s1, Arm(t)) == Update(s1, t, s1.timers[t].(arming := Started));
  }

  /** A scheduling call that has made its timer runs to its end. */
  lemma ArmingRuns(s: State, t: TimerId)
    requires Sound(s.timers, s.tracked) && t in s.timers && s.timers[t].arming.ToTrack?
    ensures
      var s', k := Apply(Apply(Apply(s, Arm(t)), Arm(t)), Arm(t)), s.timers[t].subject;
      && s'.tracked == s.tracked[k := Entry(s.timers[t].approval, t)]
      && s'.timers.Keys == s.timers.Keys
      && s'.timers[t] == s.timers[t].(arming := Started)
      && (forall x :: x in s.timers && x != t ==> s'.timers[x].callback == s.timers[x].callback)
      && (k in s.tracked ==> s.tracked[k].timer in s'.timers && s'.timers[s.tracked[k].timer].cancelled)
  {
    hide Apply, Sound;
    ArmTracks(s, t);
    ArmCancelsAndStarts(Apply(s, Arm(t)), t);
  }

  /**
    From every reachable state, a scheduling call can run to its end: its timer is live and tracked
    for the subject, and the one tracked before is cancelled.
   */
  lemma SchedulingStartsTimer(steps: seq<Step>, approval: ApprovalId, created: TimerId)
    requires approval in Execute(steps).issued && created !in Execute(steps).timers
    ensures
      var s := Execute(steps);
      var s' := Execute(steps + [Schedule(approval, created), Arm(created), Arm(created), Arm(created)]);
      var k := s.issued[approval].subject;
      && created in s'.timers && s'.timers[created].Live() && s'.timers[created].approval == approval
      && s'.timers[created].expires == s.issued[approval].expires
      && k in s'.tracked && s'.tracked[k] == Entry(approval, created)
      && (k in s.tracked ==> s.tracked[k].timer in s'.timers && s'.timers[s.tracked[k].timer].cancelled)
  {
    hide Execute, Sound, After;
    TimersAreSound(steps);
    var s := Execute(steps);
    var s1 := Apply(s, Schedule(approval, created));
    assert s1 == Create(s, approval, created) && s1.timers[created].arming.ToTrack?;
    CreatedIsSound(s.timers, s.tracked, created, s.issued[approval], approval);
    hide Apply;
    AfterContinues(steps, [Schedule(approval, created), Arm(created), Arm(created), Arm(created)]);
    FourSteps(s, Schedule(approval, created), Arm(created), Arm(created), Arm(created));
    ArmingRuns(s1, created);
  }

  /** A timer that has fired too early schedules another one for its approval before it goes on. */
  lemma EarlyTimerSchedulesAnother(steps: seq<Step>, t: TimerId, n: TimerId)
    requires t in Execute(steps).timers && Execute(steps).timers[t].callback.Checking?
    requires Execute(steps).clock < Execute(steps).timers[t].expires && n !in Execute(steps).timers
    ensures
      var s := Execute(steps);
      var s' := Execute(steps + [Run(t, n), Arm(n), Arm(n), Arm(n)]);
      && s'.timers.Keys == s.timers.Keys + {n} && s'.timers[n].Live()
      && s'.timers[n].approval == s.timers[t].approval && s'.timers[n].expires == s.timers[t].expires
      && IsTracked(s'.timers, s'.tracked, n) && s'.timers[t].callback == Rearming(n)
  {
    hide Execute, Sound, After;
    TimersAreSound(steps);
    NoticesAreTimely(steps);
    var s := Execute(steps);
    assert TimerMatches(s, t);
    RunKeepsTimers(s, t, n);
    var s1 := Apply(s, Run(t, n));
    var middle := Create(s, s.timers[t].approval, n);
    assert s1 == Update(middle, t, s.timers[t].(callback := Rearming(n)));
    hide Apply, NoticesInv;
    AfterContinues(steps, [Run(t, n), Arm(n), Arm(n), Arm(n)]);
    FourSteps(s, Run(t, n), Arm(n), Arm(n), Arm(n));
    ArmingRuns(s1, n);
  }

  lemma SchedulingKeepsRest(s: State, approval: ApprovalId, created: TimerId)
    ensures
      var s' := Apply(Apply(Apply(Apply(s, Schedule(approval, created)), Arm(created)), Arm(created)), Arm(created));
      s'.clock == s.clock && s'.issued == s.issued && s'.pending == s.pending && s'.notices == s.notices
  {
    hide Apply;
    var s1 := Apply(s, Schedule(approval, created));
    TimerStepKeepsRest(s, Schedule(approval, created));
    TimerStepKeepsRest(s1, Arm(created));
    TimerStepKeepsRest(Apply(s1, Arm(created)), Arm(created));
    TimerStepKeepsRest(Apply(Apply(s1, Arm(created)), Arm(created)), Arm(created));
  }

  lemma TimerStepKeepsRest(s: State, step: Step)
    requires step.Schedule? || step.Arm?
    ensures
      var s' := Apply(s, step);
      s'.clock == s.clock && s'.issued == s.issued && s'.pending == s.pending && s'.notices == s.notices
  {
    hide RunStep;
  }

  lemma OneStep(steps: seq<Step>, step: Step)
    ensures Execute(steps + [step]) == Apply(Execute(steps), step)
  {
    hide Apply;
    assert (steps + [step])[..|steps|] == steps;
  }

  lemma IssueIsPending(s: State, subject: Subject, approval: ApprovalId, expires: int)
    requires approval !in s.issued
    ensures
      var s' := Apply(s, Issue(subject, approval, expires));
      && s'.clock == s.clock && s'.notices == s.notices && s'.timers == s.timers
      && approval in s'.issued && s'.issued[approval] == Issued(subject, expires)
      && subject in s'.pending && s'.pending[subject] == approval
  {
    hide ArmStep, RunStep;
  }

  lemma TickIsAll(s: State, seconds: nat)
    ensures
      var s' := Apply(s, Tick(seconds));
      && s'.clock == s.clock + seconds && s'.notices == s.notices && s'.timers == s.timers
      && s'.pending == s.pending
  {
    hide ArmStep, RunStep;
  }

  /**
    From every reachable state, an approval that is issued, scheduled and left alone until it expires
    is announced, once, at that moment.
   */
  lemma UnansweredApprovalIsAnnounced(steps: seq<Step>, subject: Subject, approval: ApprovalId, expires: int,
      created: TimerId)
    requires approval !in Execute(steps).issued && created !in Execute(steps).timers
    ensures
      var s := Execute(steps);
      var wait: nat := if expires > s.clock then expires - s.clock else 0;
      var scheduled := steps + [Issue(subject, approval, expires)] +
                       [Schedule(approval, created), Arm(created), Arm(created), Arm(created)];
      var s' := Execute(scheduled + [Tick(wait)] +
                        [Fire(created), Run(created, created), Run(created, created), Run(created, created)]);
      && s'.notices == s.notices + [Notice(approval, s.clock + wait)]
      && subject !in s'.pending
  {
    hide Execute, Apply, After, Sound;
    var s := Execute(steps);
    var wait: nat := if expires > s.clock then expires - s.clock else 0;
    var issued := steps + [Issue(subject, approval, expires)];
    OneStep(steps, Issue(subject, approval, expires));
    IssueIsPending(s, subject, approval, expires);
    var s1 := Execute(issued);
    var calls := [Schedule(approval, created), Arm(created), Arm(created), Arm(created)];
    SchedulingStartsTimer(issued, approval, created);
    AfterContinues(issued, calls);
    FourSteps(s1, calls[0], calls[1], calls[2], calls[3]);
    SchedulingKeepsRest(s1, approval, created);
    OneStep(issued + calls, Tick(wait));
    TickIsAll(Execute(issued + calls), wait);
    SubjectOfTimer(issued + calls, created);
    ExpiryIsAnnounced(issued + calls + [Tick(wait)], created, created);
  }

  lemma SubjectOfTimer(steps: seq<Step>, t: TimerId)
    requires t in Execute(steps).timers
    ensures TimerMatches(Execute(steps), t)
  {
    hide Execute, TimerMatches;
    NoticesAreTimely(steps);
  }

  // ---------------------------------------------------------------- no callback gets stuck

  /** A callback that waits for its new timer waits for one that exists. */
  ghost predicate AwaitedExist(timers: Timers) {
    forall t :: t in timers && timers[t].callback.Rearming? ==> timers[t].callback.timer in timers
  }

  lemma ChangeKeepsAwaited(timers: Timers, t: TimerId, timer: Timer)
    requires AwaitedExist(timers)
    requires timer.callback.Rearming? ==> timer.callback.timer in timers || timer.callback.timer == t
    ensures AwaitedExist(timers[t := timer])
  {
  }

  lemma ArmKeepsAwaited(s: State, t: TimerId)
    requires t in s.timers && AwaitedExist(s.timers)
    ensures AwaitedExist(ArmStep(s, t).timers)
  {
    var timer := s.timers[t];
    match timer.arming {
      case ToTrack =>
        if timer.subject in s.tracked && s.tracked[timer.subject].timer in s.timers {
          var p := s.tracked[timer.subject].timer;
          ChangesKeepAwaited(s.timers, p, s.timers[p].(debt := Replaced(t)), t, timer.(arming := ToCancel(Some(p))));
        } else {
          ChangeKeepsAwaited(s.timers, t, timer.(arming := ToCancel(None)));
        }
      case ToCancel(previous) =>
        if previous.Some? && previous.value in s.timers && previous.value != t {
          var p := previous.value;
          ChangesKeepAwaited(s.timers, p, s.timers[p].(cancelled := true, debt := NoDebt), t,
              timer.(arming := ToStart));
        } else {
          ChangeKeepsAwaited(s.timers, t, timer.(arming := ToStart));
        }
      case ToStart => ChangeKeepsAwaited(s.timers, t, timer.(arming := Started));
      case Started =>
    }
    hide AwaitedExist;
  }

  lemma ChangesKeepAwaited(timers: Timers, p: TimerId, previous: Timer, t: TimerId, timer: Timer)
    requires AwaitedExist(timers) && p in timers && t in timers
    requires previous.callback == timers[p].callback && timer.callback == timers[t].callback
    ensures AwaitedExist(timers[p := previous][t := timer])
  {
  }

  lemma RunKeepsAwaited(s: State, t: TimerId, created: TimerId)
    requires t in s.timers && AwaitedExist(s.timers)
    ensures AwaitedExist(RunStep(s, t, created).timers)
  {
    if s.timers[t].approval in s.issued {
      var middle := Create(s, s.timers[t].approval, created).timers;
      ChangeKeepsAwaited(s.timers, created, middle[created]);
      ChangeKeepsAwaited(middle, t, s.timers[t].(callback := Rearming(created)));
    }
    ChangeKeepsAwaited(s.timers, t, s.timers[t].(callback := Expiring(s.clock)));
    ChangeKeepsAwaited(s.timers, t, s.timers[t].(callback := CleaningUp));
    ChangeKeepsAwaited(s.timers, t, s.timers[t].(callback := Finished));
    if s.timers[t].callback.Expiring? {
      ChangeKeepsAwaited(s.timers, t, s.timers[t].(callback := Notifying(s.timers[t].callback.now)));
    }
    hide AwaitedExist;
  }

  lemma StepKeepsAwaited(s: State, step: Step)
    requires AwaitedExist(s.timers)
    ensures AwaitedExist(Apply(s, step).timers)
  {
    match step {
      case Arm(t) =>
        if t in s.timers {
          hide AwaitedExist;
          ArmKeepsAwaited(s, t);
        }
      case Run(t, created) =>
        if t in s.timers {
          hide AwaitedExist;
          RunKeepsAwaited(s, t, created);
        }
      case _ =>
        hide ArmStep, RunStep;
    }
  }

  lemma {:induction false} AwaitedAlwaysExist(steps: seq<Step>)
    ensures AwaitedExist(Execute(steps).timers)
  {
    if steps == [] {
    } else {
      AwaitedAlwaysExist(steps[..|steps| - 1]);
      hide AwaitedExist, Apply;
      StepKeepsAwaited(Execute(steps[..|steps| - 1]), steps[|steps| - 1]);
    }
  }

  lemma {:induction false} SomeTimerIsNew(ts: set<TimerId>) returns (n: TimerId)
    ensures forall t :: t in ts ==> t < n
  {
    if ts == {} {
      n := 0;
    } else {
      var t :| t in ts;
      var m := SomeTimerIsNew(ts - {t});
      n := if t < m then m else t + 1;
      assert forall x :: x in ts ==> x == t || x in ts - {t};
    }
  }

  /** The steps a scheduling call still has to take. */
  function ArmingLeft(timer: Timer): nat {
    match timer.arming
    case ToTrack => 3
    case ToCancel(_) => 2
    case ToStart => 1
    case Started => 0
  }

  /** At most so many steps are left of a callback, those of the scheduling call it waits for included. */
  function CallbackLeft(timers: Timers, t: TimerId): nat
    requires t in timers && (timers[t].callback.Rearming? ==> timers[t].callback.timer in timers)
  {
    match timers[t].callback
    case NotFired => 7
    case Checking => 6
    case Rearming(n) => 2 + ArmingLeft(timers[n])
    case Expiring(_) => 3
    case Notifying(_) => 2
    case CleaningUp => 1
    case Finished => 0
  }

  lemma AwaitedMovesOn(s: State, t: TimerId, n: TimerId)
    requires t in s.timers && s.timers[t].callback == Rearming(n) && n in s.timers && ArmingLeft(s.timers[n]) > 0
    ensures
      var s' := Apply(s, Arm(n));
      && n in s'.timers && ArmingLeft(s'.timers[n]) < ArmingLeft(s.timers[n])
      && t in s'.timers && s'.timers[t].callback == Rearming(n)
  {
    hide ArmStep, RunStep;
    ArmMovesOn(s, n);
    ArmKeepsCallback(s, n, t);
  }

  lemma ArmMovesOn(s: State, n: TimerId)
    requires n in s.timers && !s.timers[n].arming.Started?
    ensures
      var timers := ArmStep(s, n).timers;
      n in timers && ArmingLeft(timers[n]) < ArmingLeft(s.timers[n])
  {
  }

  lemma ArmKeepsCallback(s: State, n: TimerId, t: TimerId)
    requires n in s.timers && t in s.timers
    ensures t in ArmStep(s, n).timers && ArmStep(s, n).timers[t].callback == s.timers[t].callback
  {
  }

  /** Some step brings a callback nearer to its end. */
  lemma CallbackCanMoveOn(s: State, t: TimerId) returns (step: Step)
    requires AwaitedExist(s.timers) && t in s.timers && TimerMatches(s, t)
    requires !s.timers[t].callback.NotFired? && !s.timers[t].callback.Finished?
    ensures
      var s' := Apply(s, step);
      && AwaitedExist(s'.timers) && t in s'.timers && !s'.timers[t].callback.NotFired?
      && CallbackLeft(s'.timers, t) < CallbackLeft(s.timers, t)
  {
    hide ArmStep, RunStep, Apply;
    var created := SomeTimerIsNew(s.timers.Keys);
    if s.timers[t].callback.Rearming? && ArmingLeft(s.timers[s.timers[t].callback.timer]) > 0 {
      step := Arm(s.timers[t].callback.timer);
      AwaitedMovesOn(s, t, s.timers[t].callback.timer);
    } else {
      step := Run(t, created);
      CallbackMovesNearer(s, t, created);
    }
    StepKeepsAwaited(s, step);
  }

  lemma CallbackMovesNearer(s: State, t: TimerId, created: TimerId)
    requires AwaitedExist(s.timers) && t in s.timers && TimerMatches(s, t) && created !in s.timers
    requires !s.timers[t].callback.NotFired? && !s.timers[t].callback.Finished?
    requires s.timers[t].callback.Rearming? ==> s.timers[s.timers[t].callback.timer].arming.Started?
    ensures
      var s' := Apply(s, Run(t, created));
      && AwaitedExist(s'.timers) && t in s'.timers && !s'.timers[t].callback.NotFired?
      && CallbackLeft(s'.timers, t) < CallbackLeft(s.timers, t)
  {
    hide Apply, ArmStep, RunStep;
    StepKeepsAwaited(s, Run(t, created));
    CallbackSteps(s, t, created);
  }

  lemma CallbackSteps(s: State, t: TimerId, created: TimerId)
    requires t in s.timers && TimerMatches(s, t) && created !in s.timers
    requires s.timers[t].callback.Rearming? ==>
      s.timers[t].callback.timer in s.timers && s.timers[s.timers[t].callback.timer].arming.Started?
    ensures
      var s' := Apply(s, Run(t, created));
      t in s'.timers &&
      var next := s'.timers[t].callback;
      match s.timers[t].callback
      case NotFired => next.NotFired?
      case Checking =>
        || (next == Rearming(created) && created in s'.timers && s'.timers[created].arming.ToTrack?)
        || next.Expiring?
      case Rearming(_) => next.CleaningUp?
      case Expiring(_) => next.Notifying? || next.CleaningUp?
      case Notifying(_) => next.CleaningUp?
      case _ => next.Finished?
  {
    hide ArmStep;
  }

  /**
    No callback gets stuck: from every reachable state, one that has started can run to its end
    within its own steps and those of the scheduling call it makes.
   */
  lemma CallbackCanFinish(steps: seq<Step>, t: TimerId) returns (more: seq<Step>)
    requires t in Execute(steps).timers && !Execute(steps).timers[t].callback.NotFired?
    ensures |more| <= 6
    ensures t in Execute(steps + more).timers && Execute(steps + more).timers[t].callback.Finished?
  {
    AwaitedAlwaysExist(steps);
    hide Execute;
    more := CallbackRuns(steps, t);
  }

  lemma {:induction false} CallbackRuns(steps: seq<Step>, t: TimerId) returns (more: seq<Step>)
    requires AwaitedExist(Execute(steps).timers)
    requires t in Execute(steps).timers && !Execute(steps).timers[t].callback.NotFired?
    ensures |more| <= CallbackLeft(Execute(steps).timers, t)
    ensures t in Execute(steps + more).timers && Execute(steps + more).timers[t].callback.Finished?
    decreases CallbackLeft(Execute(steps).timers, t)
  {
    hide Execute, Apply, AwaitedExist, TimerMatches, CallbackLeft;
    SubjectOfTimer(steps, t);
    var s := Execute(steps);
    if s.timers[t].callback.Finished? {
      more := [];
      assert steps + more == steps;
    } else {
      var step := CallbackCanMoveOn(s, t);
      OneStep(steps, step);
      var rest := CallbackRuns(steps + [step], t);
      more := [step] + rest;
      assert steps + more == steps + [step] + rest;
    }
  }

  /** Whoever pops an entry can cancel its timer, and a cancelled timer never fires again. */
  lemma PoppedTimerIsCancelled(steps: seq<Step>, subject: Subject)
    requires subject in Execute(steps).tracked
    ensures
      var s := Execute(steps);
      var t := s.tracked[subject].timer;
      var s' := Execute(steps + [Pop(subject), CancelPopped(t)]);
      subject !in s'.tracked && t in s'.timers && s'.timers[t].cancelled
  {
    TimersAreSound(steps);
    var s := Execute(steps);
    assert EntryMatches(s.timers, s.tracked, subject);
    var t := s.tracked[subject].timer;
    assert (steps + [Pop(subject), CancelPopped(t)])[..|steps| + 1] == steps + [Pop(subject)];
    assert (steps + [Pop(subject)])[..|steps|] == steps;
  }

  lemma {:induction false} CancelledStaysCancelled(steps: seq<Step>, more: seq<Step>, t: TimerId)
    requires t in Execute(steps).timers && Execute(steps).timers[t].cancelled
    ensures t in Execute(steps + more).timers && Execute(steps + more).timers[t].cancelled
    ensures Execute(steps).timers[t].callback.NotFired? ==> Execute(steps + more).timers[t].callback.NotFired?
    decreases |more|
  {
    if more == [] {
      assert steps + more == steps;
    } else {
      var n := |more| - 1;
      CancelledStaysCancelled(steps, more[..n], t);
      assert (steps + more)[..|steps + more| - 1] == steps + more[..n];
      StepKeepsCancelled(Execute(steps + more[..n]), more[n], t);
    }
  }

  lemma ArmKeepsCancelled(s: State, u: TimerId, t: TimerId)
    requires u in s.timers && t in s.timers && s.timers[t].cancelled
    ensures t in ArmStep(s, u).timers && ArmStep(s, u).timers[t].cancelled
    ensures ArmStep(s, u).timers[t].callback == s.timers[t].callback
  {
  }

  lemma RunKeepsCancelled(s: State, u: TimerId, created: TimerId, t: TimerId)
    requires u in s.timers && t in s.timers && s.timers[t].cancelled
    ensures t in RunStep(s, u, created).timers && RunStep(s, u, created).timers[t].cancelled
    ensures s.timers[t].callback.NotFired? ==> RunStep(s, u, created).timers[t].callback.NotFired?
  {
  }

  lemma StepKeepsCancelled(s: State, step: Step, t: TimerId)
    requires t in s.timers && s.timers[t].cancelled
    ensures t in Apply(s, step).timers && Apply(s, step).timers[t].cancelled
    ensures s.timers[t].callback.NotFired? ==> Apply(s, step).timers[t].callback.NotFired?
  {
    hide ArmStep, RunStep;
    match step {
      case Arm(u) => if u in s.timers { ArmKeepsCancelled(s, u, t); }
      case Run(u, created) => if u in s.timers { RunKeepsCancelled(s, u, created, t); }
      case _ =>
    }
  }
}
