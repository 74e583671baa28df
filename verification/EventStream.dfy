/**
  The resumable event stream of an agent run: a polling reader with a cursor beside a concurrent
  writer.

  The reader touches the shared store in separate transactions and the writer may commit between
  any two of them. `world` is what the reader finds, one snapshot for each access; every
  interleaving of the writer is some such sequence with a growing log. The sequence ends, or the
  client's patience does, wherever the subscription is cut off, so what `Generate` ensures holds at
  every point of every stream.
 */
module EventStream {
  import opened Wrappers

  datatype Event = Event(id: nat, payload: string)

  datatype Status =
    | Queued | Running | WaitingApproval | WaitingInput | Paused | Succeeded | Failed | Cancelled
  {
    predicate Terminal() {
      this in {Succeeded, Failed, Cancelled}
    }

    predicate Waiting() {
      this in {WaitingApproval, WaitingInput, Paused}
    }
  }

  /** One run as the store shows it, and the clock, at one moment. */
  datatype Snapshot = Snapshot(log: seq<Event>, status: Status, published: bool, clock: int)

  datatype Chunk = EventChunk(event: Event) | StateChunk(status: Status) | KeepAlive

  /** How a stream ended: cut off, or closed after reading a status and then finding nothing more. */
  datatype Ending = CutOff | Closed(statusAt: nat, probeAt: nat)

  const BATCH: nat := 500
  const PING_SECONDS := 10

  // ---------------------------------------------------------------- the store

  /** Event ids are handed out by an auto-increment key, in commit order. */
  ghost predicate Increasing(log: seq<Event>) {
    forall i, j :: 0 <= i < j < |log| ==> log[i].id < log[j].id
  }

  /** The log only ever grows at its end. */
  ghost predicate AppendOnly(world: seq<Snapshot>) {
    && (forall i :: 0 <= i < |world| ==> Increasing(world[i].log))
    && (forall i, j :: 0 <= i <= j < |world| ==> world[i].log <= world[j].log)
  }

  /** `event_id > low AND event_id <= high`, in log order; no upper bound if `high` is `None`. */
  function Select(log: seq<Event>, low: nat, high: Option<nat>): seq<Event> {
    if log == [] then
      []
    else
      var last := log[|log| - 1];
      Select(log[..|log| - 1], low, high) +
      if last.id > low && (high.Some? ==> last.id <= high.value) then [last] else []
  }

  function After(log: seq<Event>, cursor: nat): seq<Event> {
    Select(log, cursor, None)
  }

  function Between(log: seq<Event>, low: nat, high: nat): seq<Event> {
    Select(log, low, Some(high))
  }

  /** `AgentRunStore.events`: at most 500 entries after the cursor. */
  function Batch(log: seq<Event>, cursor: nat): seq<Event> {
    var later := After(log, cursor);
    if |later| <= BATCH then later else later[..BATCH]
  }

  /** How many entries of the log have an id up to `c`. */
  ghost function Rank(log: seq<Event>, c: nat): (r: nat)
    ensures r <= |log|
  {
    if log == [] then 0 else Rank(log[..|log| - 1], c) + if log[|log| - 1].id <= c then 1 else 0
  }

  lemma {:induction false} RankSplits(log: seq<Event>, c: nat)
    requires Increasing(log)
    ensures forall i :: 0 <= i < |log| ==> (i < Rank(log, c) <==> log[i].id <= c)
  {
    if log == [] {
    } else {
      var init := log[..|log| - 1];
      RankSplits(init, c);
      assert forall i :: 0 <= i < |init| ==> init[i] == log[i];
      if log[|log| - 1].id <= c && init != [] {
        assert init[|init| - 1].id <= c;
      }
    }
  }

  /** The rank is where the ids pass `c`. */
  lemma RankIs(log: seq<Event>, c: nat, r: nat)
    requires Increasing(log) && r <= |log|
    requires r > 0 ==> log[r - 1].id <= c
    requires r < |log| ==> log[r].id > c
    ensures Rank(log, c) == r
  {
    RankSplits(log, c);
    assert r > 0 ==> r - 1 < Rank(log, c);
    assert r < |log| ==> !(r < Rank(log, c));
  }

  lemma RankOfInit(log: seq<Event>, c: nat)
    requires Increasing(log) && log != []
    ensures Increasing(log[..|log| - 1])
    ensures log[|log| - 1].id <= c ==> Rank(log, c) == |log| && Rank(log[..|log| - 1], c) == |log| - 1
    ensures log[|log| - 1].id > c ==> Rank(log, c) == Rank(log[..|log| - 1], c)
  {
  }

  lemma {:induction false} SelectIsSlice(log: seq<Event>, low: nat, high: Option<nat>)
    requires Increasing(log) && (high.Some? ==> low <= high.value)
    ensures
      var end := if high.Some? then Rank(log, high.value) else |log|;
      Rank(log, low) <= end && Select(log, low, high) == log[Rank(log, low)..end]
  {
    if log == [] {
    } else {
      RankOfInit(log, low);
      if high.Some? {
        RankOfInit(log, high.value);
      }
      var last := log[|log| - 1];
      SelectIsSlice(log[..|log| - 1], low, high);
      if last.id > low {
        if high.Some? && high.value < last.id {
          SliceOfInit(log, Rank(log, low), Rank(log, high.value));
        } else {
          SliceToEnd(log, Rank(log, low));
        }
      }
    }
  }

  lemma SliceToEnd<T>(s: seq<T>, r: nat)
    requires r < |s|
    ensures s[..|s| - 1][r..|s| - 1] + [s[|s| - 1]] == s[r..|s|]
  {
  }

  lemma SliceOfInit<T>(s: seq<T>, r: nat, e: nat)
    requires r <= e < |s|
    ensures s[..|s| - 1][r..e] == s[r..e]
  {
  }

  lemma RankOfId(log: seq<Event>, k: nat)
    requires Increasing(log) && k < |log|
    ensures Rank(log, log[k].id) == k + 1
  {
    RankIs(log, log[k].id, k + 1);
  }

  lemma RankOfPrefix(log: seq<Event>, whole: seq<Event>, c: nat)
    requires Increasing(whole) && log <= whole
    ensures Increasing(log)
    ensures Rank(log, c) == if Rank(whole, c) <= |log| then Rank(whole, c) else |log|
  {
    RankSplits(whole, c);
    RankIs(log, c, if Rank(whole, c) <= |log| then Rank(whole, c) else |log|);
  }

  /** A batch is the next stretch of the whole log, and it is empty only if the log ends there. */
  lemma BatchIsNextStretch(log: seq<Event>, whole: seq<Event>, cursor: nat)
    requires Increasing(whole) && log <= whole
    ensures Batch(log, cursor) == [] <==> |log| <= Rank(whole, cursor)
    ensures Batch(log, cursor) != [] ==>
      && Rank(whole, cursor) + |Batch(log, cursor)| <= |log|
      && Batch(log, cursor) == whole[Rank(whole, cursor)..Rank(whole, cursor) + |Batch(log, cursor)|]
  {
    RankOfPrefix(log, whole, cursor);
    SelectIsSlice(log, cursor, None);
    var r := Rank(log, cursor);
    assert Batch(log, cursor) == log[r..r + |Batch(log, cursor)|];
  }

  // ---------------------------------------------------------------- the reader

  function Delivered(out: seq<Chunk>): seq<Event> {
    if out == [] then []
    else
      var last := out[|out| - 1];
      Delivered(out[..|out| - 1]) + if last.EventChunk? then [last.event] else []
  }

  lemma DeliveredOfNext(out: seq<Chunk>, chunk: Chunk)
    ensures Delivered(out + [chunk]) == Delivered(out) + if chunk.EventChunk? then [chunk.event] else []
  {
  }

  ghost function FinalLog(world: seq<Snapshot>): seq<Event> {
    if world == [] then [] else world[|world| - 1].log
  }

  /**
    After `t` accesses: exactly the entries after `after` up to the cursor have been delivered, and
    the cursor is `after` or belongs to an entry the reader has already been shown.
   */
  ghost predicate InStep(world: seq<Snapshot>, after: nat, t: nat, cursor: nat, out: seq<Chunk>)
    requires AppendOnly(world) && t <= |world|
  {
    var whole := FinalLog(world);
    && after <= cursor
    && Rank(whole, after) <= Rank(whole, cursor)
    && Delivered(out) == whole[Rank(whole, after)..Rank(whole, cursor)]
    && (cursor == if Delivered(out) == [] then after else Delivered(out)[|Delivered(out)| - 1].id)
    && (cursor == after || (t > 0 && Rank(whole, cursor) <= |world[t - 1].log|))
  }

  lemma InStepAtStart(world: seq<Snapshot>, after: nat)
    requires AppendOnly(world)
    ensures InStep(world, after, 0, after, [])
  {
  }

  lemma InStepLater(world: seq<Snapshot>, after: nat, t: nat, cursor: nat, out: seq<Chunk>)
    requires AppendOnly(world) && t <= |world|
    requires InStep(world, after, t, cursor, out)
    ensures forall t' :: t <= t' <= |world| ==> InStep(world, after, t', cursor, out)
  {
  }

  lemma InStepNote(world: seq<Snapshot>, after: nat, t: nat, cursor: nat, out: seq<Chunk>, chunk: Chunk)
    requires AppendOnly(world) && t <= |world|
    requires InStep(world, after, t, cursor, out) && !chunk.EventChunk?
    ensures InStep(world, after, t, cursor, out + [chunk])
    ensures Delivered(out + [chunk]) == Delivered(out)
  {
  }

  lemma InStepEvent(world: seq<Snapshot>, after: nat, t: nat, cursor: nat, out: seq<Chunk>, event: Event)
    requires AppendOnly(world) && 0 < t <= |world|
    requires InStep(world, after, t, cursor, out)
    requires Rank(FinalLog(world), cursor) < |world[t - 1].log|
    requires event == FinalLog(world)[Rank(FinalLog(world), cursor)]
    ensures InStep(world, after, t, event.id, out + [EventChunk(event)])
    ensures Rank(FinalLog(world), event.id) == Rank(FinalLog(world), cursor) + 1
    ensures |Delivered(out + [EventChunk(event)])| == |Delivered(out)| + 1
  {
    var whole := FinalLog(world);
    RankOfId(whole, Rank(whole, cursor));
    RankSplits(whole, cursor);
    DeliveredOfNext(out, EventChunk(event));
  }

  lemma InStepMeans(world: seq<Snapshot>, after: nat, t: nat, cursor: nat, out: seq<Chunk>)
    requires AppendOnly(world) && t <= |world|
    requires InStep(world, after, t, cursor, out)
    ensures after <= cursor
    ensures Delivered(out) == Between(FinalLog(world), after, cursor)
    ensures cursor == if Delivered(out) == [] then after else Delivered(out)[|Delivered(out)| - 1].id
  {
    SelectIsSlice(FinalLog(world), after, Some(cursor));
  }

  /** No status has been sent yet. */
  ghost predicate NoState(out: seq<Chunk>) {
    forall i :: 0 <= i < |out| ==> !out[i].StateChunk?
  }

  lemma NoStateOfMore(out: seq<Chunk>, chunk: Chunk)
    ensures !chunk.StateChunk? && NoState(out) ==> NoState(out + [chunk])
    ensures NoState(out) ==> StateComesLast(out + [chunk], true)
    ensures NoState(out) ==> StateComesLast(out, false)
  {
  }

  /** A status is sent at the very end of a stream that closes, and nowhere else. */
  ghost predicate StateComesLast(out: seq<Chunk>, closed: bool) {
    forall i :: 0 <= i < |out| && out[i].StateChunk? ==> i == |out| - 1 && closed
  }

  lemma NothingIsState()
    ensures NoState([])
  {
  }

  lemma StateComesLastWhen(out: seq<Chunk>)
    ensures StateComesLast(out, false) ==> StateComesLast(out, true)
  {
  }

  /** The loop over one batch: move the cursor, then yield. */
  method YieldBatch(world: seq<Snapshot>, after: nat, t: nat, cursor: nat, out: seq<Chunk>, patience: nat)
    returns (cursor': nat, out': seq<Chunk>, cut: bool)
    requires AppendOnly(world) && t < |world|
    requires InStep(world, after, t, cursor, out)
    ensures InStep(world, after, t + 1, cursor', out')
    ensures NoState(out) ==> NoState(out')
    ensures |out'| - |Delivered(out')| == |out| - |Delivered(out)| && KeepAlives(out') == KeepAlives(out)
    ensures cut ==> |out'| >= patience
    ensures !cut ==>
              Rank(FinalLog(world), cursor') == Rank(FinalLog(world), cursor) + |Batch(world[t].log, cursor)|
  {
    var events := Batch(world[t].log, cursor);
    ghost var whole := FinalLog(world);
    ghost var start := Rank(whole, cursor);
    BatchIsNextStretch(world[t].log, whole, cursor);
    InStepLater(world, after, t, cursor, out);
    hide *;
    cursor', out', cut := cursor, out, false;
    for j := 0 to |events|
      invariant InStep(world, after, t + 1, cursor', out')
      invariant Rank(whole, cursor') == start + j
      invariant |out'| - |Delivered(out')| == |out| - |Delivered(out)| && KeepAlives(out') == KeepAlives(out)
      invariant NoState(out) ==> NoState(out')
    {
      if |out'| >= patience {
        cut := true;
        return;
      }
      InStepEvent(world, after, t + 1, cursor', out', events[j]);
      KeepAlivesOfMore(out', EventChunk(events[j]));
      NoStateOfMore(out', EventChunk(events[j]));
      cursor' := events[j].id;
      out' := out' + [EventChunk(events[j])];
    }
  }

  // ---------------------------------------------------------------- worlds in which it gets somewhere

  predicate Closes(status: Status) {
    status.Terminal() || status.Waiting()
  }

  /** At most this many accesses bring so many entries and close the stream: four for each batch. */
  function AccessesFor(entries: nat): nat {
    4 * (entries / BATCH) + 4
  }

  /** The log is complete from access `p` on, and the reader goes on long enough after that. */
  ghost predicate LogSettles(world: seq<Snapshot>, p: nat) {
    && p + 3 + AccessesFor(|FinalLog(world)|) <= |world|
    && forall i :: p <= i < |world| ==> world[i].log == FinalLog(world)
  }

  /** So is the status, and it is one on which a stream closes. */
  ghost predicate Settles(world: seq<Snapshot>, p: nat) {
    && LogSettles(world, p) && Closes(world[p].status)
    && forall i :: p <= i < |world| ==> world[i].status == world[p].status
  }

  /** Before access `p` there is no status on which a stream closes. */
  ghost predicate GoesOnUntil(world: seq<Snapshot>, p: nat) {
    p <= |world| && forall i :: 0 <= i < p ==> !Closes(world[i].status)
  }

  /** The run never stops, and from access `p` on a keep-alive is due to a client that had its last at `since`. */
  ghost predicate IdlesFrom(world: seq<Snapshot>, since: int, p: nat) {
    && p + 5 < |world| && GoesOnUntil(world, |world|)
    && forall i :: p <= i < |world| ==> world[i].clock - since > PING_SECONDS
  }

  /** The client waits for every entry, every keep-alive and the status at the end. */
  ghost predicate StaysOn(world: seq<Snapshot>, patience: nat) {
    patience > |FinalLog(world)| + |world|
  }

  ghost function Left(world: seq<Snapshot>, cursor: nat): nat {
    |FinalLog(world)| - Rank(FinalLog(world), cursor)
  }

  ghost predicate RoomToDrain(world: seq<Snapshot>, p: nat, t: nat, cursor: nat) {
    LogSettles(world, p) && t >= p ==> Left(world, cursor) == 0 || t + AccessesFor(Left(world, cursor)) <= |world|
  }

  ghost predicate RoomToClose(world: seq<Snapshot>, p: nat, t: nat, cursor: nat) {
    Settles(world, p) && t >= p ==> t + AccessesFor(Left(world, cursor)) <= |world|
  }

  /** One round of the loop, with its batch read at `t`, has the accesses it needs, and leaves enough. */
  lemma RoundHasRoomToDrain(world: seq<Snapshot>, p: nat, t: nat, cursor: nat, cursor': nat)
    requires AppendOnly(world) && t < |world| && LogSettles(world, p) && RoomToDrain(world, p, t, cursor)
    requires Rank(FinalLog(world), cursor') == Rank(FinalLog(world), cursor) + |Batch(world[t].log, cursor)|
    ensures t + 4 <= |world| || Left(world, cursor') == 0
    ensures forall t' :: t < t' <= t + 4 ==> RoomToDrain(world, p, t', cursor')
  {
    hide AppendOnly, Select, Rank, AccessesFor;
    if t >= p { BatchLeaves(world, t, cursor, cursor'); }
    AccessesGrow(Left(world, cursor), |FinalLog(world)|);
    AccessesGrow(Left(world, cursor'), |FinalLog(world)|);
  }

  lemma RoundHasRoomToClose(world: seq<Snapshot>, p: nat, t: nat, cursor: nat, cursor': nat)
    requires AppendOnly(world) && t < |world| && Settles(world, p) && RoomToClose(world, p, t, cursor)
    requires Rank(FinalLog(world), cursor') == Rank(FinalLog(world), cursor) + |Batch(world[t].log, cursor)|
    ensures t + 4 <= |world|
    ensures t + 1 >= p ==> Closes(world[t + 1].status)
    ensures forall t' :: t < t' <= t + 4 && (t < p || Left(world, cursor') > 0) ==> RoomToClose(world, p, t', cursor')
  {
    hide AppendOnly, Select, Rank, AccessesFor;
    if t >= p { BatchLeaves(world, t, cursor, cursor'); }
    AccessesGrow(Left(world, cursor), |FinalLog(world)|);
    AccessesGrow(Left(world, cursor'), |FinalLog(world)|);
  }

  lemma AccessesGrow(entries: nat, more: nat)
    requires entries <= more
    ensures 4 <= AccessesFor(entries) <= AccessesFor(more)
  {
  }

  lemma SomethingIsLeft(world: seq<Snapshot>, p: nat, t: nat, cursor: nat)
    requires AppendOnly(world) && t < |world| && Batch(world[t].log, cursor) != []
    ensures Settles(world, p) && t >= p ==> Left(world, cursor) > 0
  {
    if Settles(world, p) && t >= p { ProbeIsEmptyIff(world, t, cursor); }
  }

  /** A stream that closes after all has settled has probed the complete log. */
  lemma ProbeIsFinal(world: seq<Snapshot>, statusAt: nat, probeAt: nat)
    requires statusAt < probeAt < |world| && Closes(world[statusAt].status)
    ensures forall p :: Settles(world, p) && GoesOnUntil(world, p) ==> world[probeAt].log == FinalLog(world)
  {
  }

  /** A batch read from the complete log leaves nothing, or enough accesses for what it leaves. */
  lemma BatchLeaves(world: seq<Snapshot>, t: nat, cursor: nat, cursor': nat)
    requires AppendOnly(world) && t < |world| && world[t].log == FinalLog(world)
    requires Rank(FinalLog(world), cursor') == Rank(FinalLog(world), cursor) + |Batch(world[t].log, cursor)|
    ensures Left(world, cursor') == 0 || AccessesFor(Left(world, cursor')) + 4 <= AccessesFor(Left(world, cursor))
  {
    SelectIsSlice(FinalLog(world), cursor, None);
    hide AppendOnly, Select;
    assert Left(world, cursor) > BATCH ==> Left(world, cursor) == Left(world, cursor') + BATCH;
  }

  lemma NothingLeftMeans(world: seq<Snapshot>, after: nat, t: nat, cursor: nat, out: seq<Chunk>)
    requires AppendOnly(world) && t <= |world| && InStep(world, after, t, cursor, out) && Left(world, cursor) == 0
    ensures Delivered(out) == After(FinalLog(world), after)
  {
    SelectIsSlice(FinalLog(world), after, None);
  }

  /** An empty probe of the complete log. */
  lemma ProbeIsEmptyIff(world: seq<Snapshot>, t: nat, cursor: nat)
    requires AppendOnly(world) && t < |world| && world[t].log == FinalLog(world)
    ensures Batch(world[t].log, cursor) == [] <==> Left(world, cursor) == 0
  {
    BatchIsNextStretch(world[t].log, FinalLog(world), cursor);
  }

  function KeepAlives(out: seq<Chunk>): nat {
    if out == [] then 0
    else KeepAlives(out[..|out| - 1]) + if out[|out| - 1].KeepAlive? then 1 else 0
  }

  lemma KeepAlivesOfMore(out: seq<Chunk>, chunk: Chunk)
    ensures KeepAlives(out + [chunk]) == KeepAlives(out) + if chunk.KeepAlive? then 1 else 0
  {
  }

  /** What the time to the next keep-alive counts from: the reading of the clock after the last one. */
  function LastPing(world: seq<Snapshot>, started: int, pings: seq<nat>): int {
    if pings != [] && pings[|pings| - 1] + 1 < |world| then world[pings[|pings| - 1] + 1].clock else started
  }

  /** Each keep-alive was sent on a reading of the clock more than ten seconds after that. */
  ghost predicate ArePings(world: seq<Snapshot>, started: int, pings: seq<nat>) {
    pings == [] ||
    var before, at := pings[..|pings| - 1], pings[|pings| - 1];
    && at + 1 < |world| && (before != [] ==> before[|before| - 1] + 1 < at)
    && ArePings(world, started, before)
    && world[at].clock - LastPing(world, started, before) > PING_SECONDS
  }

  /** Before access `t`: `pings` records the keep-alives, the last of which reset the time to `lastPing`. */
  ghost predicate PingsAreKept(world: seq<Snapshot>, started: int, t: nat, out: seq<Chunk>, pings: seq<nat>,
      lastPing: int) {
    && KeepAlives(out) == |pings| && ArePings(world, started, pings) && lastPing == LastPing(world, started, pings)
    && (pings != [] ==> pings[|pings| - 1] + 1 < t)
  }

  lemma NoPingYet(world: seq<Snapshot>, started: int)
    ensures PingsAreKept(world, started, 0, [], [], started)
  {
  }

  lemma PingsLater(world: seq<Snapshot>, started: int, t: nat, out: seq<Chunk>, out': seq<Chunk>, pings: seq<nat>,
      lastPing: int)
    requires PingsAreKept(world, started, t, out, pings, lastPing) && KeepAlives(out') == KeepAlives(out)
    ensures KeepAlives(out) == |pings| && ArePings(world, started, pings) && |pings| <= t
    ensures forall t' :: t <= t' ==> PingsAreKept(world, started, t', out', pings, lastPing)
  {
    PingsAreFew(world, started, pings, t);
  }

  lemma {:induction false} PingsAreFew(world: seq<Snapshot>, started: int, pings: seq<nat>, t: nat)
    requires ArePings(world, started, pings) && (pings != [] ==> pings[|pings| - 1] + 1 < t)
    ensures |pings| <= t
  {
    if pings == [] {
    } else {
      PingsAreFew(world, started, pings[..|pings| - 1], pings[|pings| - 1]);
    }
  }

  lemma OneMorePing(world: seq<Snapshot>, started: int, t: nat, out: seq<Chunk>, pings: seq<nat>, lastPing: int)
    requires PingsAreKept(world, started, t, out, pings, lastPing) && t + 1 < |world|
    requires world[t].clock - lastPing > PING_SECONDS
    ensures PingsAreKept(world, started, t + 2, out + [KeepAlive], pings + [t], world[t + 1].clock)
  {
    KeepAlivesOfMore(out, KeepAlive);
    assert (pings + [t])[..|pings|] == pings;
  }

  // ---------------------------------------------------------------- the rounds of the loop

  /** What the stream owes a client that stays on: to close, to deliver all, and never to omit a keep-alive. */
  ghost predicate IsLive(world: seq<Snapshot>, after: nat, patience: nat, started: int, out: seq<Chunk>,
      pings: seq<nat>, ending: Ending) {
    StaysOn(world, patience) ==>
      && (forall p :: Settles(world, p) ==>
            ending.Closed? && (GoesOnUntil(world, p) ==> Delivered(out) == After(FinalLog(world), after)))
      && (forall p :: LogSettles(world, p) ==> ending.Closed? || Delivered(out) == After(FinalLog(world), after))
      && IsNeverDue(world, LastPing(world, started, pings))
  }

  /** No keep-alive is due for good after the one of `since`. */
  ghost predicate IsNeverDue(world: seq<Snapshot>, since: int) {
    forall p: nat :: !IdlesFrom(world, since, p)
  }

  /** Accesses from which all is settled. */
  datatype Points = Points(settled: nat, complete: nat)

  ghost predicate Chosen(world: seq<Snapshot>, points: Points) {
    && (forall p :: Settles(world, p) ==> Settles(world, points.settled))
    && (forall p :: LogSettles(world, p) ==> LogSettles(world, points.complete))
  }

  lemma ChoosePoints(world: seq<Snapshot>) returns (points: Points)
    ensures Chosen(world, points)
  {
    hide Settles, LogSettles;
    var settled := if exists p: nat :: Settles(world, p) then var p: nat :| Settles(world, p); p else 0;
    var complete := if exists p: nat :: LogSettles(world, p) then var p: nat :| LogSettles(world, p); p else 0;
    points := Points(settled, complete);
  }

  /** What the client has been sent, and how. */
  datatype Sent = Sent(out: seq<Chunk>, pings: seq<nat>, lastPing: int)

  ghost predicate IsSent(world: seq<Snapshot>, after: nat, started: int, t: nat, cursor: nat, sent: Sent)
    requires AppendOnly(world) && t <= |world|
  {
    && InStep(world, after, t, cursor, sent.out)
    && |sent.out| == |Delivered(sent.out)| + KeepAlives(sent.out)
    && PingsAreKept(world, started, t, sent.out, sent.pings, sent.lastPing)
  }

  /** If a keep-alive is due for good, then only from the round at access `t` on. */
  ghost predicate IsDueOnlyFrom(world: seq<Snapshot>, since: int, t: nat) {
    forall p: nat :: IdlesFrom(world, since, p) ==> t <= p + 1
  }

  /** The loop is about to read a batch on access `t`, and has the accesses it needs. */
  ghost predicate OnTrack(world: seq<Snapshot>, after: nat, started: int, points: Points, t: nat, cursor: nat,
      sent: Sent)
    requires AppendOnly(world) && t <= |world|
  {
    && IsSent(world, after, started, t, cursor, sent)
    && RoomToDrain(world, points.complete, t, cursor) && RoomToClose(world, points.settled, t, cursor)
    && IsDueOnlyFrom(world, sent.lastPing, t)
  }

  /** It has read the batch on access `t` and yielded it. */
  ghost predicate InRound(world: seq<Snapshot>, after: nat, started: int, points: Points, t: nat, cursor: nat,
      sent: Sent)
    requires AppendOnly(world) && t < |world|
  {
    && IsSent(world, after, started, t + 1, cursor, sent)
    && (LogSettles(world, points.complete) ==> t + 4 <= |world| || Left(world, cursor) == 0)
    && (forall t' :: t < t' <= t + 4 ==> RoomToDrain(world, points.complete, t', cursor))
    && (Settles(world, points.settled) ==>
          t + 4 <= |world| && (t + 1 >= points.settled ==> Closes(world[t + 1].status)))
    && (forall t' :: t < t' <= t + 4 && (t < points.settled || Left(world, cursor) > 0) ==>
          RoomToClose(world, points.settled, t', cursor))
    && IsDueOnlyFrom(world, sent.lastPing, t)
  }

  lemma AtTheStart(world: seq<Snapshot>, after: nat, started: int, points: Points)
    requires AppendOnly(world)
    ensures OnTrack(world, after, started, points, 0, after, Sent([], [], started))
  {
    hide InStep, PingsAreKept;
    InStepAtStart(world, after);
    NoPingYet(world, started);
    assert Left(world, after) <= |FinalLog(world)|;
  }

  lemma RoundBegins(world: seq<Snapshot>, after: nat, started: int, points: Points, t: nat, cursor: nat, sent: Sent,
      cursor': nat, out: seq<Chunk>)
    requires AppendOnly(world) && t < |world| && OnTrack(world, after, started, points, t, cursor, sent)
    requires InStep(world, after, t + 1, cursor', out)
    requires |out| - |Delivered(out)| == |sent.out| - |Delivered(sent.out)| && KeepAlives(out) == KeepAlives(sent.out)
    requires Rank(FinalLog(world), cursor') == Rank(FinalLog(world), cursor) + |Batch(world[t].log, cursor)|
    ensures InRound(world, after, started, points, t, cursor', Sent(out, sent.pings, sent.lastPing))
  {
    hide AppendOnly, InStep, PingsAreKept, Settles, LogSettles, IsDueOnlyFrom, IsNeverDue, RoomToDrain, RoomToClose,
         Left, Delivered, KeepAlives;
    PingsLater(world, started, t, sent.out, out, sent.pings, sent.lastPing);
    if LogSettles(world, points.complete) {
      RoundHasRoomToDrain(world, points.complete, t, cursor, cursor');
    } else {
      NoRoomNeeded(world, points, cursor');
    }
    if Settles(world, points.settled) {
      RoundHasRoomToClose(world, points.settled, t, cursor, cursor');
    } else {
      NoRoomNeeded(world, points, cursor');
    }
  }

  lemma NoRoomNeeded(world: seq<Snapshot>, points: Points, cursor: nat)
    ensures !LogSettles(world, points.complete) ==> forall t :: RoomToDrain(world, points.complete, t, cursor)
    ensures !Settles(world, points.settled) ==> forall t :: RoomToClose(world, points.settled, t, cursor)
  {
  }

  /** Sent so much, the client has been promised nothing more; nor has it when the accesses run out. */
  lemma RoundCanEnd(world: seq<Snapshot>, after: nat, patience: nat, started: int, points: Points, t: nat,
      cursor: nat, sent: Sent)
    requires AppendOnly(world) && t < |world| && Chosen(world, points)
    requires InRound(world, after, started, points, t, cursor, sent)
    ensures |sent.out| >= patience || |world| <= t + 3 ==>
              IsLive(world, after, patience, started, sent.out, sent.pings, CutOff)
  {
    hide AppendOnly, InStep, Settles, LogSettles, IsDueOnlyFrom, IsNeverDue, PingsAreKept, RoomToDrain, RoomToClose,
         Left, Delivered, KeepAlives, FinalLog, Select, GoesOnUntil;
    SentIsBounded(world, after, started, t + 1, cursor, sent);
    if Left(world, cursor) == 0 { NothingLeftMeans(world, after, t + 1, cursor, sent.out); }
    NeverDueAtTheEnd(world, sent.lastPing, t);
    SentCounts(world, after, started, t + 1, cursor, sent);
  }

  lemma NeverDueAtTheEnd(world: seq<Snapshot>, since: int, t: nat)
    ensures IsDueOnlyFrom(world, since, t) && |world| <= t + 3 ==> IsNeverDue(world, since)
  {
  }

  lemma SentCounts(world: seq<Snapshot>, after: nat, started: int, t: nat, cursor: nat, sent: Sent)
    requires AppendOnly(world) && t <= |world| && IsSent(world, after, started, t, cursor, sent)
    ensures sent.lastPing == LastPing(world, started, sent.pings)
  {
    hide AppendOnly, InStep, ArePings, LastPing, KeepAlives;
  }

  lemma CutIsLive(world: seq<Snapshot>, after: nat, patience: nat, started: int, t: nat, cursor: nat, sent: Sent)
    requires AppendOnly(world) && t <= |world| && IsSent(world, after, started, t, cursor, sent)
    requires |sent.out| >= patience
    ensures IsLive(world, after, patience, started, sent.out, sent.pings, CutOff)
  {
    hide Settles, LogSettles, IsDueOnlyFrom, IsNeverDue, FinalLog, GoesOnUntil, IsSent, AppendOnly, Delivered, Select,
         KeepAlives;
    SentIsBounded(world, after, started, t, cursor, sent);
  }

  lemma AccessesRunOut(world: seq<Snapshot>, after: nat, patience: nat, started: int, points: Points, cursor: nat,
      sent: Sent)
    requires AppendOnly(world) && Chosen(world, points)
    requires OnTrack(world, after, started, points, |world|, cursor, sent)
    ensures IsLive(world, after, patience, started, sent.out, sent.pings, CutOff)
  {
    hide AppendOnly, InStep, Settles, LogSettles, IsDueOnlyFrom, IsNeverDue, RoomToDrain, RoomToClose, Left, Delivered,
         FinalLog, Select, GoesOnUntil, ArePings;
    NothingIsLeft(world, points, cursor);
    if Left(world, cursor) == 0 { NothingLeftMeans(world, after, |world|, cursor, sent.out); }
    NeverDueAtTheEnd(world, sent.lastPing, |world|);
    SentCounts(world, after, started, |world|, cursor, sent);
  }

  lemma NothingIsLeft(world: seq<Snapshot>, points: Points, cursor: nat)
    ensures LogSettles(world, points.complete) && RoomToDrain(world, points.complete, |world|, cursor) ==>
              Left(world, cursor) == 0
    ensures Settles(world, points.settled) ==> !RoomToClose(world, points.settled, |world|, cursor)
  {
    hide FinalLog;
  }

  /** The probe on access `t` finds more. */
  lemma RoundDrains(world: seq<Snapshot>, after: nat, started: int, points: Points, start: nat, t: nat, cursor: nat,
      sent: Sent)
    requires AppendOnly(world) && start + 2 <= t <= start + 3 && t < |world|
    requires InRound(world, after, started, points, start, cursor, sent)
    requires Closes(world[start + 1].status) && Batch(world[t].log, cursor) != []
    ensures OnTrack(world, after, started, points, t + 1, cursor, sent)
  {
    hide AppendOnly, IsSent, Settles, LogSettles, IsDueOnlyFrom, IsNeverDue, RoomToDrain, RoomToClose, Left, Batch;
    SentLater(world, after, started, start + 1, t + 1, cursor, sent);
    SomethingIsLeft(world, points.settled, t, cursor);
    NoRoomNeeded(world, points, cursor);
    NeverDueIfItStops(world, sent.lastPing, start + 1);
  }

  lemma NeverDueIfItStops(world: seq<Snapshot>, since: int, t: nat)
    requires t < |world| && Closes(world[t].status)
    ensures forall t' :: IsDueOnlyFrom(world, since, t')
    ensures IsNeverDue(world, since)
  {
  }

  lemma NotDueYet(world: seq<Snapshot>, since: int, t: nat)
    requires t < |world| && world[t].clock - since <= PING_SECONDS
    ensures IsDueOnlyFrom(world, since, t + 1) && IsDueOnlyFrom(world, since, t + 2)
  {
  }

  lemma SentLater(world: seq<Snapshot>, after: nat, started: int, t: nat, t': nat, cursor: nat, sent: Sent)
    requires AppendOnly(world) && t <= t' <= |world| && IsSent(world, after, started, t, cursor, sent)
    ensures IsSent(world, after, started, t', cursor, sent)
  {
    InStepLater(world, after, t, cursor, sent.out);
    PingsLater(world, started, t, sent.out, sent.out, sent.pings, sent.lastPing);
  }

  /** The run goes on, and no keep-alive is due. */
  lemma RoundWaits(world: seq<Snapshot>, after: nat, started: int, points: Points, t: nat, cursor: nat, sent: Sent)
    requires AppendOnly(world) && t + 2 < |world| && InRound(world, after, started, points, t, cursor, sent)
    requires !Closes(world[t + 1].status) && world[t + 2].clock - sent.lastPing <= PING_SECONDS
    ensures OnTrack(world, after, started, points, t + 3, cursor, sent)
  {
    hide AppendOnly, IsSent, Settles, LogSettles, IsDueOnlyFrom, IsNeverDue, RoomToDrain, RoomToClose, Left;
    SentLater(world, after, started, t + 1, t + 3, cursor, sent);
    NoRoomNeeded(world, points, cursor);
    NotDueYet(world, sent.lastPing, t + 2);
  }

  /** The run goes on, and a keep-alive is sent. */
  lemma RoundPings(world: seq<Snapshot>, after: nat, started: int, points: Points, t: nat, cursor: nat, sent: Sent)
    requires AppendOnly(world) && t + 3 < |world| && InRound(world, after, started, points, t, cursor, sent)
    requires !Closes(world[t + 1].status) && world[t + 2].clock - sent.lastPing > PING_SECONDS
    ensures OnTrack(world, after, started, points, t + 4, cursor,
        Sent(sent.out + [KeepAlive], sent.pings + [t + 2], world[t + 3].clock))
  {
    hide AppendOnly, IsSent, Settles, LogSettles, IsDueOnlyFrom, IsNeverDue, RoomToDrain, RoomToClose, Left;
    SentLater(world, after, started, t + 1, t + 2, cursor, sent);
    PingIsSent(world, after, started, t + 2, cursor, sent);
    NotDueYet(world, world[t + 3].clock, t + 3);
    NoRoomNeeded(world, points, cursor);
  }

  lemma PingIsSent(world: seq<Snapshot>, after: nat, started: int, t: nat, cursor: nat, sent: Sent)
    requires AppendOnly(world) && t + 1 < |world| && IsSent(world, after, started, t, cursor, sent)
    requires world[t].clock - sent.lastPing > PING_SECONDS
    ensures IsSent(world, after, started, t + 2, cursor,
        Sent(sent.out + [KeepAlive], sent.pings + [t], world[t + 1].clock))
  {
    hide AppendOnly, InStep, PingsAreKept, Delivered, KeepAlives;
    InStepNote(world, after, t, cursor, sent.out, KeepAlive);
    InStepLater(world, after, t, cursor, sent.out + [KeepAlive]);
    KeepAlivesOfMore(sent.out, KeepAlive);
    OneMorePing(world, started, t, sent.out, sent.pings, sent.lastPing);
  }

  /** What has been sent fits into what the client waits for. */
  lemma SentIsBounded(world: seq<Snapshot>, after: nat, started: int, t: nat, cursor: nat, sent: Sent)
    requires AppendOnly(world) && t <= |world| && IsSent(world, after, started, t, cursor, sent)
    ensures |sent.out| <= |FinalLog(world)| + |world| && KeepAlives(sent.out) == |sent.pings|
  {
    hide PingsAreKept, KeepAlives, AppendOnly;
    PingsLater(world, started, t, sent.out, sent.out, sent.pings, sent.lastPing);
  }

  lemma RoundIsSent(world: seq<Snapshot>, after: nat, started: int, points: Points, t: nat, cursor: nat, sent: Sent)
    requires AppendOnly(world) && t < |world| && InRound(world, after, started, points, t, cursor, sent)
    ensures InStep(world, after, t + 1, cursor, sent.out)
  {
    hide AppendOnly, InStep, PingsAreKept, Settles, LogSettles, IsDueOnlyFrom, IsNeverDue, RoomToDrain, RoomToClose,
         Left;
  }

  /** The probe on access `t` finds nothing, so the stream closes. */
  lemma ClosingIsLive(world: seq<Snapshot>, after: nat, patience: nat, started: int, points: Points, start: nat,
      t: nat, cursor: nat, sent: Sent, out: seq<Chunk>)
    requires AppendOnly(world) && start + 2 <= t < |world|
    requires InRound(world, after, started, points, start, cursor, sent) && Chosen(world, points)
    requires Closes(world[start + 1].status) && Batch(world[t].log, cursor) == []
    requires Delivered(out) == Delivered(sent.out)
    ensures Delivered(out) == After(world[t].log, after)
    ensures IsLive(world, after, patience, started, out, sent.pings, Closed(start + 1, t))
  {
    hide AppendOnly, InRound, Settles, LogSettles, IsDueOnlyFrom, IsNeverDue, Delivered, FinalLog, Select, GoesOnUntil,
         KeepAlives, InStep, Batch;
    RoundIsSent(world, after, started, points, start, cursor, sent);
    InStepLater(world, after, start + 1, cursor, sent.out);
    ClosedDeliversAll(world, after, t, cursor, sent.out);
    ProbeIsFinal(world, start + 1, t);
    NeverDueIfItStops(world, LastPing(world, started, sent.pings), start + 1);
  }

  lemma SentMeans(world: seq<Snapshot>, after: nat, started: int, t: nat, cursor: nat, sent: Sent)
    requires AppendOnly(world) && t <= |world| && IsSent(world, after, started, t, cursor, sent)
    ensures after <= cursor && Delivered(sent.out) == Between(FinalLog(world), after, cursor)
    ensures cursor == if Delivered(sent.out) == [] then after else Delivered(sent.out)[|Delivered(sent.out)| - 1].id
    ensures KeepAlives(sent.out) == |sent.pings| && ArePings(world, started, sent.pings)
  {
    InStepMeans(world, after, t, cursor, sent.out);
  }

  /** A run seen to be over is then found not to be published. */
  predicate IsUnpublished(world: seq<Snapshot>, i: nat)
    requires 0 < i < |world|
  {
    world[i - 1].status.Terminal() && !world[i].published
  }

  lemma FoundUnpublished(world: seq<Snapshot>, t: nat)
    requires 0 < t < |world| && world[t - 1].status.Terminal() && !world[t].published
    ensures IsUnpublished(world, t)
  {
  }

  /** The stream may end here: what it has delivered, how it has closed, and what it owed the client. */
  ghost predicate MayEnd(world: seq<Snapshot>, after: nat, patience: nat, started: int, cursor: nat, out: seq<Chunk>,
      pings: seq<nat>, ending: Ending) {
    && after <= cursor && Delivered(out) == Between(FinalLog(world), after, cursor)
    && (cursor == if Delivered(out) == [] then after else Delivered(out)[|Delivered(out)| - 1].id)
    && (ending.Closed? ==>
          && ending.statusAt < ending.probeAt < |world| && Closes(world[ending.statusAt].status)
          && Delivered(out) == After(world[ending.probeAt].log, after)
          && (world[ending.statusAt].status.Waiting() ==>
                out != [] && out[|out| - 1] == StateChunk(world[ending.statusAt].status)))
    && StateComesLast(out, ending.Closed?)
    && IsLive(world, after, patience, started, out, pings, ending)
    && KeepAlives(out) == |pings| && ArePings(world, started, pings)
  }

  lemma TrackIsSent(world: seq<Snapshot>, after: nat, started: int, points: Points, t: nat, cursor: nat, sent: Sent)
    requires AppendOnly(world) && t <= |world| && OnTrack(world, after, started, points, t, cursor, sent)
    ensures IsSent(world, after, started, t, cursor, sent) && InStep(world, after, t, cursor, sent.out)
  {
    hide AppendOnly, InStep;
  }

  lemma TrackEnds(world: seq<Snapshot>, after: nat, patience: nat, started: int, points: Points, cursor: nat,
      sent: Sent)
    requires AppendOnly(world) && Chosen(world, points) && NoState(sent.out)
    requires OnTrack(world, after, started, points, |world|, cursor, sent)
    ensures MayEnd(world, after, patience, started, cursor, sent.out, sent.pings, CutOff)
  {
    hide AppendOnly, InStep, NoState, StateComesLast, IsSent, Chosen, IsLive, Delivered, FinalLog, Select, KeepAlives,
         ArePings;
    TrackIsSent(world, after, started, points, |world|, cursor, sent);
    SentMeans(world, after, started, |world|, cursor, sent);
    NoStateOfMore(sent.out, KeepAlive);
    AccessesRunOut(world, after, patience, started, points, cursor, sent);
  }

  /** After the batch the stream may be cut off, or the round goes on. */
  lemma RoundStarts(world: seq<Snapshot>, after: nat, patience: nat, started: int, points: Points, t: nat, cursor: nat,
      sent: Sent, cursor': nat, out: seq<Chunk>, cut: bool)
    requires AppendOnly(world) && t < |world| && Chosen(world, points) && NoState(out)
    requires OnTrack(world, after, started, points, t, cursor, sent)
    requires InStep(world, after, t + 1, cursor', out)
    requires |out| - |Delivered(out)| == |sent.out| - |Delivered(sent.out)| && KeepAlives(out) == KeepAlives(sent.out)
    requires cut ==> |out| >= patience
    requires !cut ==>
      Rank(FinalLog(world), cursor') == Rank(FinalLog(world), cursor) + |Batch(world[t].log, cursor)|
    ensures |out| >= patience || |world| <= t + 3 ==>
              MayEnd(world, after, patience, started, cursor', out, sent.pings, CutOff)
    ensures !cut ==> InRound(world, after, started, points, t, cursor', Sent(out, sent.pings, sent.lastPing))
  {
    hide AppendOnly, InStep, NoState, StateComesLast, Chosen, InRound, IsLive, PingsAreKept, Delivered, KeepAlives,
         FinalLog, Select, Batch, Rank, RoomToDrain, RoomToClose, ArePings;
    var now := Sent(out, sent.pings, sent.lastPing);
    PingsLater(world, started, t, sent.out, out, sent.pings, sent.lastPing);
    SentMeans(world, after, started, t + 1, cursor', now);
    NoStateOfMore(out, KeepAlive);
    if cut {
      CutIsLive(world, after, patience, started, t + 1, cursor', now);
    } else {
      RoundBegins(world, after, started, points, t, cursor, sent, cursor', out);
      RoundCanEnd(world, after, patience, started, points, t, cursor', now);
    }
  }

  /** The probe on access `t` finds nothing: the stream closes, with a waiting status as its last chunk. */
  lemma RoundCloses(world: seq<Snapshot>, after: nat, patience: nat, started: int, points: Points, start: nat,
      t: nat, cursor: nat, sent: Sent)
    requires AppendOnly(world) && start + 2 <= t < |world| && Chosen(world, points) && NoState(sent.out)
    requires InRound(world, after, started, points, start, cursor, sent)
    requires Closes(world[start + 1].status) && Batch(world[t].log, cursor) == []
    ensures
      var status := world[start + 1].status;
      var out := if status.Waiting() then sent.out + [StateChunk(status)] else sent.out;
      MayEnd(world, after, patience, started, cursor, out, sent.pings, Closed(start + 1, t))
  {
    hide AppendOnly, NoState, StateComesLast, Chosen, InRound, IsLive, Delivered, KeepAlives, FinalLog, Select, Batch,
         ArePings;
    var status := world[start + 1].status;
    var out := if status.Waiting() then sent.out + [StateChunk(status)] else sent.out;
    RoundMeans(world, after, started, points, start, cursor, sent);
    NoStateOfMore(sent.out, StateChunk(status));
    StateComesLastWhen(sent.out);
    DeliveredOfNext(sent.out, StateChunk(status));
    KeepAlivesOfMore(sent.out, StateChunk(status));
    ClosingIsLive(world, after, patience, started, points, start, t, cursor, sent, out);
  }

  lemma RoundMeans(world: seq<Snapshot>, after: nat, started: int, points: Points, t: nat, cursor: nat, sent: Sent)
    requires AppendOnly(world) && t < |world| && InRound(world, after, started, points, t, cursor, sent)
    ensures after <= cursor && Delivered(sent.out) == Between(FinalLog(world), after, cursor)
    ensures cursor == if Delivered(sent.out) == [] then after else Delivered(sent.out)[|Delivered(sent.out)| - 1].id
    ensures KeepAlives(sent.out) == |sent.pings| && ArePings(world, started, sent.pings)
  {
    hide AppendOnly, IsSent, Delivered, KeepAlives, FinalLog, Select, ArePings;
    SentMeans(world, after, started, t + 1, cursor, sent);
  }

  // ---------------------------------------------------------------- the stream

  /** `generate` inside `stream_run`. `pings` records the accesses on which keep-alives were sent. */
  method Generate(world: seq<Snapshot>, after: nat, patience: nat, started: int)
    returns (out: seq<Chunk>, cursor: nat, ending: Ending, publications: nat, ghost pings: seq<nat>)
    requires AppendOnly(world)
    ensures after <= cursor
    ensures Delivered(out) == Between(FinalLog(world), after, cursor)
    ensures cursor == if Delivered(out) == [] then after else Delivered(out)[|Delivered(out)| - 1].id
    ensures ending.Closed? ==>
      && ending.statusAt < ending.probeAt < |world|
      && Delivered(out) == After(world[ending.probeAt].log, after)
      && (var status := world[ending.statusAt].status;
          && Closes(status)
          && (status.Waiting() ==> out != [] && out[|out| - 1] == StateChunk(status))
          && (status.Terminal() ==> world[ending.statusAt + 1].published || publications > 0))
    ensures StateComesLast(out, ending.Closed?)
    ensures IsLive(world, after, patience, started, out, pings, ending)
    ensures KeepAlives(out) == |pings| && ArePings(world, started, pings)
    ensures publications > 0 ==> exists i :: 0 < i < |world| && IsUnpublished(world, i)
  {
    hide MayEnd, NoState, StateComesLast, IsUnpublished, AppendOnly, InStep, IsSent, OnTrack, InRound, IsLive, Chosen,
         Delivered, FinalLog, Select, Batch, KeepAlives, ArePings;
    ghost var points := ChoosePoints(world);
    cursor, out, ending, publications, pings := after, [], CutOff, 0, [];
    ghost var unpublished := 0;
    var lastPing := started;
    var t := 0;
    AtTheStart(world, after, started, points);
    NothingIsState();
    while t < |world|
      invariant t <= |world| && ending == CutOff && NoState(out)
      invariant OnTrack(world, after, started, points, t, cursor, Sent(out, pings, lastPing))
      invariant publications > 0 ==> 0 < unpublished < |world| && IsUnpublished(world, unpublished)
    {
      ghost var start, before, sent := t, cursor, Sent(out, pings, lastPing);
      TrackIsSent(world, after, started, points, t, cursor, sent);
      var cut;
      cursor, out, cut := YieldBatch(world, after, t, cursor, out, patience);
      t := t + 1;
      RoundStarts(world, after, patience, started, points, start, before, sent, cursor, out, cut);
      sent := Sent(out, pings, lastPing);
      if cut || t == |world| {
        break;
      }
      var statusAt := t;
      var current := world[t].status;
      t := t + 1;
      if current.Terminal() {
        if t == |world| {
          break;
        }
        if !world[t].published {
          FoundUnpublished(world, t);
          publications, unpublished := publications + 1, t;
        }
        t := t + 1;
      }
      if current.Terminal() || current.Waiting() {
        if t == |world| {
          break;
        }
        if Batch(world[t].log, cursor) != [] {
          RoundDrains(world, after, started, points, start, t, cursor, sent);
          t := t + 1;
          continue;
        }
        RoundCloses(world, after, patience, started, points, start, t, cursor, sent);
        if current.Waiting() {
          if |out| >= patience {
            break;
          }
          out := out + [StateChunk(current)];
        }
        ending := Closed(statusAt, t);
        break;
      }
      if t == |world| {
        break;
      }
      if world[t].clock - lastPing > PING_SECONDS {
        if |out| >= patience || t + 1 == |world| {
          break;
        }
        RoundPings(world, after, started, points, start, cursor, sent);
        NoStateOfMore(out, KeepAlive);
        out, pings := out + [KeepAlive], pings + [t];
        lastPing := world[t + 1].clock;
        t := t + 1;
      } else {
        RoundWaits(world, after, started, points, start, cursor, sent);
      }
      t := t + 1;
    }
    if !MayEnd(world, after, patience, started, cursor, out, pings, ending) {
      TrackEnds(world, after, patience, started, points, cursor, Sent(out, pings, lastPing));
    }
    EndingMeans(world, after, patience, started, cursor, out, pings, ending);
  }

  lemma EndingMeans(world: seq<Snapshot>, after: nat, patience: nat, started: int, cursor: nat, out: seq<Chunk>,
      pings: seq<nat>, ending: Ending)
    requires MayEnd(world, after, patience, started, cursor, out, pings, ending)
    ensures after <= cursor && Delivered(out) == Between(FinalLog(world), after, cursor)
    ensures cursor == if Delivered(out) == [] then after else Delivered(out)[|Delivered(out)| - 1].id
    ensures ending.Closed? ==>
      && ending.statusAt < ending.probeAt < |world| && Closes(world[ending.statusAt].status)
      && Delivered(out) == After(world[ending.probeAt].log, after)
      && (world[ending.statusAt].status.Waiting() ==>
            out != [] && out[|out| - 1] == StateChunk(world[ending.statusAt].status))
    ensures StateComesLast(out, ending.Closed?) && IsLive(world, after, patience, started, out, pings, ending)
    ensures KeepAlives(out) == |pings| && ArePings(world, started, pings)
  {
    hide StateComesLast, IsLive, Delivered, FinalLog, Select, KeepAlives, ArePings;
  }

  lemma ClosedDeliversAll(world: seq<Snapshot>, after: nat, t: nat, cursor: nat, out: seq<Chunk>)
    requires AppendOnly(world) && 0 < t < |world|
    requires InStep(world, after, t, cursor, out)
    requires Batch(world[t].log, cursor) == []
    ensures Delivered(out) == After(world[t].log, after)
  {
    var whole, log := FinalLog(world), world[t].log;
    BatchIsNextStretch(log, whole, cursor);
    SelectIsSlice(log, after, None);
    RankOfPrefix(log, whole, after);
    assert world[t - 1].log <= log;
  }

  // ---------------------------------------------------------------- completeness and resumption

  lemma {:induction false} AfterOfPrefix(log: seq<Event>, whole: seq<Event>, after: nat)
    requires Increasing(whole) && log <= whole
    ensures After(log, after) <= After(whole, after)
  {
    RankOfPrefix(log, whole, after);
    SelectIsSlice(log, after, None);
    SelectIsSlice(whole, after, None);
  }

  /**
    A closed stream has delivered everything committed by the time the final status was read, so in
    particular everything committed in the transaction that set it. It has delivered the whole log
    iff the writer appended nothing newer than `after` once the last probe had been made.
   */
  lemma ClosedIsComplete(world: seq<Snapshot>, after: nat, delivered: seq<Event>, statusAt: nat, probeAt: nat)
    requires AppendOnly(world) && statusAt < probeAt < |world|
    requires delivered == After(world[probeAt].log, after)
    ensures After(world[statusAt].log, after) <= delivered <= After(FinalLog(world), after)
    ensures world[probeAt].log <= FinalLog(world)
    ensures delivered == After(FinalLog(world), after)
            <==> forall i :: |world[probeAt].log| <= i < |FinalLog(world)| ==> FinalLog(world)[i].id <= after
  {
    AfterOfPrefix(world[statusAt].log, world[probeAt].log, after);
    AfterOfPrefix(world[probeAt].log, FinalLog(world), after);
    LateEventsDecide(world[probeAt].log, FinalLog(world), after);
  }

  lemma LateEventsDecide(log: seq<Event>, whole: seq<Event>, after: nat)
    requires Increasing(whole) && log <= whole
    ensures After(log, after) == After(whole, after)
            <==> forall i :: |log| <= i < |whole| ==> whole[i].id <= after
  {
    RankOfPrefix(log, whole, after);
    SelectIsSlice(log, after, None);
    SelectIsSlice(whole, after, None);
    RankSplits(whole, after);
    var r := Rank(whole, after);
    if r < |whole| && |log| < |whole| {
      assert whole[|whole| - 1].id > after;
      assert |After(log, after)| != |After(whole, after)|;
    }
  }

  /** The `Last-Event-ID` header: absent, not an integer, or a number. */
  datatype Header = Absent | Malformed | Number(value: int)

  /** The cursor a reconnecting client starts from; a malformed header is refused. */
  function ResumeCursor(after: nat, header: Header): (r: Result<nat, string>)
    ensures r.Failure? <==> header.Malformed?
    ensures r.Success? ==> r.value >= after && (header.Number? ==> r.value >= header.value)
    ensures r.Success? ==> r.value == after || header == Number(r.value)
  {
    match header
    case Absent => Success(after)
    case Malformed => Failure("malformed event id")
    case Number(value) => Success(if after >= value then after else value)
  }

  /** The header a client sends: the id of the last event it received, if any. */
  function LastSeen(out: seq<Chunk>): Header {
    var seen := Delivered(out);
    if seen == [] then Absent else Number(seen[|seen| - 1].id)
  }

  lemma BetweenConcat(log: seq<Event>, a: nat, b: nat, c: nat)
    requires Increasing(log) && a <= b <= c
    ensures Between(log, a, b) + Between(log, b, c) == Between(log, a, c)
  {
    SelectIsSlice(log, a, Some(b));
    SelectIsSlice(log, b, Some(c));
    SelectIsSlice(log, a, Some(c));
  }

  /**
    Two subscriptions, the second resumed with the last id seen, read like one: together they
    deliver one uninterrupted stretch of the log, without a gap or a repeat.
   */
  method ReconnectingClient(world: seq<Snapshot>, later: seq<Snapshot>, after: nat, patience: nat,
      patience': nat, now: int)
    returns (first: seq<Chunk>, second: seq<Chunk>, cursor: nat)
    requires AppendOnly(world + later) && later != []
    ensures after <= cursor
    ensures Delivered(first) + Delivered(second) == Between(FinalLog(later), after, cursor)
  {
    hide AppendOnly, Increasing, FinalLog, Delivered, Select;
    SplitWorld(world, later);
    var reached, ending, publications;
    ghost var pings;
    first, reached, ending, publications, pings := Generate(world, after, patience, now);
    var resume := ResumeCursor(after, LastSeen(first));
    assert resume == Success(reached);
    second, cursor, ending, publications, pings := Generate(later, resume.value, patience', now);
    BetweenConcat(FinalLog(later), after, reached, cursor);
    EarlierStretchIsStable(FinalLog(world), FinalLog(later), after, reached, Delivered(first));
  }

  lemma SplitWorld(world: seq<Snapshot>, later: seq<Snapshot>)
    requires AppendOnly(world + later) && later != []
    ensures AppendOnly(world) && AppendOnly(later)
    ensures Increasing(FinalLog(later)) && FinalLog(world) <= FinalLog(later)
  {
    var all := world + later;
    StretchIsAppendOnly(all, 0, |world|);
    StretchIsAppendOnly(all, |world|, |all|);
    assert all[..|world|] == world && all[|world|..] == later && all[|all| - 1] == later[|later| - 1];
    assert world != [] ==> all[|world| - 1] == world[|world| - 1];
  }

  lemma StretchIsAppendOnly(world: seq<Snapshot>, from: nat, to: nat)
    requires AppendOnly(world) && from <= to <= |world|
    ensures AppendOnly(world[from..to])
  {
    forall i, j | 0 <= i <= j < to - from
      ensures Increasing(world[from..to][i].log) && world[from..to][i].log <= world[from..to][j].log
    {
      hide Increasing;
      assert world[from + i].log <= world[from + j].log;
    }
  }

  /** What an earlier log shows up to a cursor that was reached in it does not change later. */
  lemma EarlierStretchIsStable(short: seq<Event>, whole: seq<Event>, after: nat, reached: nat, seen: seq<Event>)
    requires Increasing(whole) && short <= whole
    requires after <= reached && seen == Between(short, after, reached)
    requires reached == if seen == [] then after else seen[|seen| - 1].id
    ensures seen == Between(whole, after, reached)
  {
    RankOfPrefix(short, whole, after);
    RankOfPrefix(short, whole, reached);
    SelectIsSlice(short, after, Some(reached));
    SelectIsSlice(whole, after, Some(reached));
    if seen != [] {
      var k := Rank(short, reached) - 1;
      assert seen[|seen| - 1] == short[k];
      RankOfId(whole, k);
    }
  }
}
