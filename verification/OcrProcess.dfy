/**
  The OCR process and its owner: two parties that talk through two queues of capacity one.

  The owner holds a lock for the whole of a call, so one variable says how far the present call has
  come. Every spawned worker is a generation with its own pair of queues; a worker that has been
  given up may still be running, and then still answers into its own queues. Any worker may die at
  any moment, and an answer it had not flushed may die with it. A wait may time out at any moment.

  A step that is not possible in a state leaves it unchanged, so every list of steps is a run.
 */
module OcrProcess {
  import opened Wrappers

  type RequestId = nat
  type Generation = nat

  /** What to read (an image or the path of a PDF), and the text of its pages. */
  type Input = string
  type Pages = seq<string>

  /** What the engine makes of one input. */
  datatype Outcome = Read(pages: Pages) | Broken(error: string)

  datatype Request = Job(id: RequestId, input: Input) | Quit

  datatype Response = Ready | StartupError(error: string) | Answer(id: RequestId, outcome: Outcome)

  datatype Phase = Loading | Waiting | Working(id: RequestId, input: Input) | Dead

  datatype Worker = Worker(phase: Phase, requests: seq<Request>, responses: seq<Response>) {
    predicate Idle() {
      (phase.Waiting? || phase.Dead?) && requests == [] && responses == []
    }
  }

  datatype Reply =
    | Answered(outcome: Outcome)
    | Unavailable
    | StartupTimedOut
    | StartupFailed(error: string)
    | TimedOut
    | Mismatched

  /** A finished `recognize` call; `id` is known once the request was queued. */
  datatype Call = Call(input: Input, id: Option<RequestId>, reply: Reply)

  /** How far the thread that holds the lock has come; `call` is what it will report when it is done stopping. */
  datatype Owner =
    | Free
    | Starting(input: Input)
    | Putting(input: Input)
    | Awaiting(id: RequestId, input: Input)
    | Detaching(call: Option<Call>)
    | Dismissing(generation: Generation, call: Option<Call>)
    | Joining(generation: Generation, call: Option<Call>)

  datatype Computation = Computation(id: RequestId, input: Input, outcome: Outcome)

  /** `issued`, `computed` and `calls` record the run. */
  datatype State = State(
    owner: Owner,
    current: Option<Generation>,
    workers: map<Generation, Worker>,
    issued: map<RequestId, Input>,
    computed: set<Computation>,
    calls: seq<Call>)

  const INITIAL := State(Free, None, map[], map[], {}, [])

  datatype Step =
    | Recognize(input: Input, available: bool, spawned: Generation)
    | Close
    | Receive
    | TimeOut
    | Put(id: RequestId)
    | Detach
    | Dismiss
    | Reap(terminated: bool)
    | StartUp(generation: Generation, failure: Option<string>)
    | Work(generation: Generation, outcome: Outcome)
    | Crash(generation: Generation, flushed: bool)

  // ---------------------------------------------------------------- the worker

  const CAPACITY := 1

  /** Loading the engine ends with one message. */
  function StartUpStep(w: Worker, failure: Option<string>): Worker {
    if !w.phase.Loading? || |w.responses| >= CAPACITY then w
    else match failure
      case None => w.(phase := Waiting, responses := w.responses + [Ready])
      case Some(error) => w.(phase := Dead, responses := w.responses + [StartupError(error)])
  }

  /** One move of the worker's loop: take a request, or answer the one taken. */
  function WorkStep(w: Worker, outcome: Outcome): Worker {
    match w.phase
    case Waiting =>
      if w.requests == [] then w
      else (match w.requests[0]
        case Quit => w.(phase := Dead, requests := w.requests[1..])
        case Job(id, input) => w.(phase := Working(id, input), requests := w.requests[1..]))
    case Working(id, input) =>
      if |w.responses| >= CAPACITY then w
      else w.(phase := Waiting, responses := w.responses + [Answer(id, outcome)])
    case _ => w
  }

  // ---------------------------------------------------------------- the owner

  predicate Alive(s: State) {
    s.current.Some? && s.current.value in s.workers && !s.workers[s.current.value].phase.Dead?
  }

  /** `_start_locked` up to the spawn: a live worker is used again, a dead one is replaced. */
  function RecognizeStep(s: State, input: Input, available: bool, spawned: Generation): State {
    if Alive(s) then s.(owner := Putting(input))
    else if !available then s.(calls := s.calls + [Call(input, None, Unavailable)])
    else if spawned in s.workers then s
    else s.(owner := Starting(input), current := Some(spawned),
            workers := s.workers[spawned := Worker(Loading, [], [])])
  }

  function GiveUp(s: State, call: Call): State {
    s.(owner := Detaching(Some(call)))
  }

  /** What the owner does with the message it waited for. */
  function Handle(s: State, response: Response): State
    requires s.owner.Starting? || s.owner.Awaiting?
  {
    match s.owner
    case Starting(input) =>
      (match response
       case Ready => s.(owner := Putting(input))
       case StartupError(error) => GiveUp(s, Call(input, None, StartupFailed(error)))
       case Answer(_, _) => GiveUp(s, Call(input, None, StartupFailed(""))))
    case Awaiting(id, input) =>
      if response.Answer? && response.id == id
      then s.(owner := Free, calls := s.calls + [Call(input, Some(id), Answered(response.outcome))])
      else GiveUp(s, Call(input, Some(id), Mismatched))
  }

  function ReceiveStep(s: State): State {
    if (s.owner.Starting? || s.owner.Awaiting?) && s.current.Some? && s.current.value in s.workers
       && s.workers[s.current.value].responses != []
    then
      var w := s.workers[s.current.value];
      Handle(s.(workers := s.workers[s.current.value := w.(responses := w.responses[1..])]), w.responses[0])
    else s
  }

  function TimeOutStep(s: State): State {
    match s.owner
    case Starting(input) => GiveUp(s, Call(input, None, StartupTimedOut))
    case Awaiting(id, input) => GiveUp(s, Call(input, Some(id), TimedOut))
    case _ => s
  }

  /** `requests.put`: blocks, here as a step not taken, while the queue is full. */
  function PutStep(s: State, id: RequestId): State {
    if s.owner.Putting? && id !in s.issued && s.current.Some? && s.current.value in s.workers
       && |s.workers[s.current.value].requests| < CAPACITY
    then
      var w := s.workers[s.current.value];
      s.(owner := Awaiting(id, s.owner.input), issued := s.issued[id := s.owner.input],
         workers := s.workers[s.current.value := w.(requests := w.requests + [Job(id, s.owner.input)])])
    else s
  }

  /** `_stop_locked`: forget the worker first, then ask it to leave, then terminate it. */
  function DetachStep(s: State): State {
    if !s.owner.Detaching? then s
    else match s.current
      case None => Finish(s, s.owner.call)
      case Some(g) => s.(owner := Dismissing(g, s.owner.call), current := None)
  }

  function DismissStep(s: State): State {
    if !s.owner.Dismissing? then s
    else
      var g, after := s.owner.generation, s.(owner := Joining(s.owner.generation, s.owner.call));
      if g in s.workers && !s.workers[g].phase.Dead? && |s.workers[g].requests| < CAPACITY
      then after.(workers := s.workers[g := s.workers[g].(requests := s.workers[g].requests + [Quit])])
      else after
  }

  function ReapStep(s: State, terminated: bool): State {
    if !s.owner.Joining? then s
    else
      var g, after := s.owner.generation, Finish(s, s.owner.call);
      if terminated && g in s.workers
      then after.(workers := s.workers[g := s.workers[g].(phase := Dead)])
      else after
  }

  function Finish(s: State, call: Option<Call>): State {
    s.(owner := Free, calls := if call.Some? then s.calls + [call.value] else s.calls)
  }

  // ---------------------------------------------------------------- runs

  function SetWorker(s: State, g: Generation, w: Worker): State {
    s.(workers := s.workers[g := w])
  }

  /** What a worker step adds to the record of computations. */
  function Computed(w: Worker, outcome: Outcome): set<Computation> {
    if w.phase.Working? && |w.responses| < CAPACITY then {Computation(w.phase.id, w.phase.input, outcome)} else {}
  }

  function Apply(s: State, step: Step): State {
    match step
    case Recognize(input, available, spawned) =>
      if s.owner.Free? then RecognizeStep(s, input, available, spawned) else s
    case Close => if s.owner.Free? && s.current.Some? then s.(owner := Detaching(None)) else s
    case Receive => ReceiveStep(s)
    case TimeOut => TimeOutStep(s)
    case Put(id) => PutStep(s, id)
    case Detach => DetachStep(s)
    case Dismiss => DismissStep(s)
    case Reap(terminated) => ReapStep(s, terminated)
    case StartUp(g, failure) => if g in s.workers then SetWorker(s, g, StartUpStep(s.workers[g], failure)) else s
    case Work(g, outcome) =>
      if g in s.workers
      then SetWorker(s, g, WorkStep(s.workers[g], outcome)).(computed := s.computed + Computed(s.workers[g], outcome))
      else s
    case Crash(g, flushed) =>
      if g in s.workers then
        var w := s.workers[g];
        SetWorker(s, g, w.(phase := Dead, responses := if flushed then w.responses else []))
      else s
  }

  function Execute(steps: seq<Step>): State {
    if steps == [] then INITIAL else Apply(Execute(steps[..|steps| - 1]), steps[|steps| - 1])
  }

  // ---------------------------------------------------------------- where the two parties stand

  /** A worker whose `ready` has not been received yet. */
  predicate StartsUp(w: Worker) {
    w.requests == [] &&
    if w.phase.Loading? then w.responses == []
    else if w.phase.Waiting? then w.responses == [Ready]
    else w.phase.Dead? && (w.responses == [] || (|w.responses| == 1 && !w.responses[0].Answer?))
  }

  /** A worker whose answer to one request has not been received yet. */
  predicate OwesAnswer(w: Worker, id: RequestId, input: Input, computed: set<Computation>) {
    || ((w.phase.Waiting? || w.phase.Dead?) && w.requests == [Job(id, input)] && w.responses == [])
    || ((w.phase == Working(id, input) || w.phase.Dead?) && w.requests == [] && w.responses == [])
    || ((w.phase.Waiting? || w.phase.Dead?) && w.requests == [] && |w.responses| == 1
        && w.responses[0].Answer? && w.responses[0].id == id
        && Computation(id, input, w.responses[0].outcome) in computed)
  }

  /** What the owner may rely on about its worker, at every point of a call. */
  predicate Agreed(owner: Owner, w: Worker, computed: set<Computation>) {
    match owner
    case Free => w.Idle()
    case Starting(_) => StartsUp(w)
    case Putting(_) => w.Idle()
    case Awaiting(id, input) => OwesAnswer(w, id, input, computed)
    case _ => true
  }

  predicate InStep(s: State) {
    && (s.owner.Starting? || s.owner.Putting? || s.owner.Awaiting? ==> s.current.Some?)
    && (s.owner.Dismissing? || s.owner.Joining? ==> s.current.None?)
    && (s.current.Some? ==> s.current.value in s.workers && Agreed(s.owner, s.workers[s.current.value], s.computed))
  }

  lemma StartUpKeepsAgreement(owner: Owner, w: Worker, computed: set<Computation>, failure: Option<string>)
    requires Agreed(owner, w, computed)
    ensures Agreed(owner, StartUpStep(w, failure), computed)
  {
  }

  lemma WorkKeepsAgreement(owner: Owner, w: Worker, computed: set<Computation>, outcome: Outcome)
    requires Agreed(owner, w, computed)
    ensures Agreed(owner, WorkStep(w, outcome), computed + Computed(w, outcome))
  {
  }

  lemma StepKeepsStep(s: State, step: Step)
    requires InStep(s)
    ensures InStep(Apply(s, step))
  {
    match step {
      case StartUp(g, failure) =>
        if g in s.workers && s.current == Some(g) { StartUpKeepsAgreement(s.owner, s.workers[g], s.computed, failure); }
      case Work(g, outcome) =>
        if g in s.workers && s.current == Some(g) { WorkKeepsAgreement(s.owner, s.workers[g], s.computed, outcome); }
      case _ =>
    }
  }

  /** In every interleaving, with crashes, time-outs and restarts, the owner and its worker stay in step. */
  lemma {:induction false} AlwaysInStep(steps: seq<Step>)
    ensures InStep(Execute(steps))
  {
    if steps == [] {
    } else {
      AlwaysInStep(steps[..|steps| - 1]);
      StepKeepsStep(Execute(steps[..|steps| - 1]), steps[|steps| - 1]);
    }
  }

  /** Whenever the lock is free, the worker is gone, dead, or waiting with both queues empty. */
  lemma FreeLockMeansIdleWorker(steps: seq<Step>)
    requires Execute(steps).owner.Free? && Alive(Execute(steps))
    ensures
      var w := Execute(steps).workers[Execute(steps).current.value];
      w.phase.Waiting? && w.requests == [] && w.responses == []
  {
    AlwaysInStep(steps);
  }

  /** The owner never waits to queue a request: there is room whenever it gets there. */
  lemma PutNeverBlocks(steps: seq<Step>, id: RequestId)
    requires Execute(steps).owner.Putting? && id !in Execute(steps).issued
    ensures Apply(Execute(steps), Put(id)).owner == Awaiting(id, Execute(steps).owner.input)
  {
    AlwaysInStep(steps);
  }

  lemma OwedAnswerIsTheOnlyOne(w: Worker, id: RequestId, input: Input, computed: set<Computation>)
    requires OwesAnswer(w, id, input, computed)
    ensures forall r :: r in w.responses ==>
              r.Answer? && r.id == id && Computation(id, input, r.outcome) in computed
  {
  }

  /** Whatever the owner finds while it awaits an answer is the answer to its own request. */
  lemma OnlyTheAwaitedAnswerArrives(steps: seq<Step>)
    requires Execute(steps).owner.Awaiting?
    ensures
      var s := Execute(steps);
      && s.current.Some? && s.current.value in s.workers
      && forall r :: r in s.workers[s.current.value].responses ==>
           r.Answer? && r.id == s.owner.id && Computation(s.owner.id, s.owner.input, r.outcome) in s.computed
  {
    AlwaysInStep(steps);
    var s := Execute(steps);
    OwedAnswerIsTheOnlyOne(s.workers[s.current.value], s.owner.id, s.owner.input, s.computed);
  }

  /** While its worker lives, an awaited answer can always still be had: at most two worker moves away. */
  lemma LiveWorkerCanAnswer(steps: seq<Step>, outcome: Outcome)
    requires Execute(steps).owner.Awaiting? && Alive(Execute(steps))
    ensures
      var s := Execute(steps);
      var work := Work(s.current.value, outcome);
      var s' := Apply(Apply(Apply(s, work), work), Receive);
      && s'.owner == Free && s'.current == s.current && Alive(s')
      && |s'.calls| == |s.calls| + 1 && s'.calls[|s.calls|].reply.Answered?
      && (s.workers[s.current.value].responses == [] ==> s'.calls[|s.calls|].reply == Answered(outcome))
  {
    AlwaysInStep(steps);
  }

  /** A wait that times out gives the lock back, without the worker that was waited for. */
  lemma TimeOutDropsWorker(steps: seq<Step>, terminated: bool)
    requires Execute(steps).owner.Starting? || Execute(steps).owner.Awaiting?
    ensures
      var s := Execute(steps);
      var s' := Apply(Apply(Apply(Apply(s, TimeOut), Detach), Dismiss), Reap(terminated));
      && s'.owner == Free && s'.current == None && s'.workers.Keys == s.workers.Keys
      && |s'.calls| == |s.calls| + 1
      && (s'.calls[|s.calls|].reply == StartupTimedOut || s'.calls[|s.calls|].reply == TimedOut)
  {
    hide Execute, Agreed;
    AlwaysInStep(steps);
  }

  // ---------------------------------------------------------------- no worker blocks

  predicate JobAhead(w: Worker) {
    w.requests != [] && w.requests[0].Job?
  }

  /** The response queue has room whenever the worker may have to write to it. */
  predicate CanWrite(w: Worker) {
    && |w.requests| <= CAPACITY && |w.responses| <= CAPACITY
    && (w.phase.Loading? || w.phase.Working? ==> w.responses == [] && !JobAhead(w))
    && (JobAhead(w) ==> w.responses == [])
  }

  predicate AllCanWrite(s: State) {
    forall g :: g in s.workers ==> CanWrite(s.workers[g])
  }

  lemma StepLetsWorkersWrite(s: State, step: Step)
    requires InStep(s) && AllCanWrite(s)
    ensures AllCanWrite(Apply(s, step))
  {
  }

  /** No worker of any generation is ever held up in a write, even one that was given up long ago. */
  lemma {:induction false} WorkersNeverBlock(steps: seq<Step>, g: Generation)
    requires g in Execute(steps).workers
    ensures
      var w := Execute(steps).workers[g];
      w.phase.Loading? || w.phase.Working? ==> w.responses == []
  {
    AllCanAlwaysWrite(steps);
  }

  lemma {:induction false} AllCanAlwaysWrite(steps: seq<Step>)
    ensures AllCanWrite(Execute(steps))
  {
    if steps == [] {
    } else {
      AllCanAlwaysWrite(steps[..|steps| - 1]);
      AlwaysInStep(steps[..|steps| - 1]);
      StepLetsWorkersWrite(Execute(steps[..|steps| - 1]), steps[|steps| - 1]);
    }
  }

  // ---------------------------------------------------------------- no request is run twice

  /** The request a worker has queued or is working on. */
  function Held(w: Worker): Option<Request> {
    if w.phase.Working? then Some(Job(w.phase.id, w.phase.input))
    else if JobAhead(w) then Some(w.requests[0])
    else None
  }

  ghost predicate HeldIsOpen(s: State, g: Generation)
    requires g in s.workers
  {
    var held := Held(s.workers[g]);
    held.Some? && held.value.Job? ==>
      && held.value.id in s.issued && s.issued[held.value.id] == held.value.input
      && (forall c :: c in s.computed ==> c.id != held.value.id)
      && (forall h :: h in s.workers && h != g && Held(s.workers[h]).Some? && Held(s.workers[h]).value.Job? ==>
            Held(s.workers[h]).value.id != held.value.id)
  }

  ghost predicate ComputedOnce(s: State) {
    && (forall c :: c in s.computed ==> c.id in s.issued && s.issued[c.id] == c.input)
    && (forall c, d :: c in s.computed && d in s.computed && c.id == d.id ==> c == d)
  }

  ghost predicate RunsOnce(s: State) {
    ComputedOnce(s) && forall g :: g in s.workers ==> HeldIsOpen(s, g)
  }

  /** A step that queues nothing and computes nothing. */
  ghost predicate HoldsNoMore(s: State, s': State) {
    && s'.issued == s.issued && s'.computed == s.computed
    && forall g :: g in s'.workers ==>
         Held(s'.workers[g]).None? || (g in s.workers && Held(s'.workers[g]) == Held(s.workers[g]))
  }

  lemma HoldingNoMoreKeepsOnce(s: State, s': State)
    requires RunsOnce(s) && HoldsNoMore(s, s')
    ensures RunsOnce(s')
  {
  }

  lemma AnsweringKeepsOnce(s: State, g: Generation, outcome: Outcome)
    requires RunsOnce(s) && g in s.workers && CanWrite(s.workers[g]) && s.workers[g].phase.Working?
    ensures RunsOnce(Apply(s, Work(g, outcome)))
  {
    var s' := Apply(s, Work(g, outcome));
    assert HeldIsOpen(s, g);
    forall h | h in s'.workers ensures HeldIsOpen(s', h) {
      assert HeldIsOpen(s, h);
    }
  }

  lemma PuttingKeepsOnce(s: State, id: RequestId)
    requires RunsOnce(s) && InStep(s) && s.owner.Putting? && id !in s.issued
    ensures RunsOnce(Apply(s, Put(id)))
  {
    var s' := Apply(s, Put(id));
    forall h | h in s'.workers ensures HeldIsOpen(s', h) {
      assert HeldIsOpen(s, h);
    }
  }

  /** A worker that starts, waits or dies holds no more than before. */
  lemma WorkerHoldsNoMore(w: Worker, outcome: Outcome, failure: Option<string>)
    requires CanWrite(w)
    ensures Held(StartUpStep(w, failure)).None? || Held(StartUpStep(w, failure)) == Held(w)
    ensures !w.phase.Working? ==> Held(WorkStep(w, outcome)).None? || Held(WorkStep(w, outcome)) == Held(w)
  {
  }

  lemma OtherStepsHoldNoMore(s: State, step: Step)
    requires AllCanWrite(s)
    requires !step.Put? && !(step.Work? && step.generation in s.workers && s.workers[step.generation].phase.Working?)
    ensures HoldsNoMore(s, Apply(s, step))
  {
    match step {
      case StartUp(g, failure) =>
        hide StartUpStep, WorkStep, Held, CanWrite;
        if g in s.workers { WorkerHoldsNoMore(s.workers[g], Broken(""), failure); }
      case Work(g, outcome) =>
        hide StartUpStep, WorkStep, Held, CanWrite;
        if g in s.workers { WorkerHoldsNoMore(s.workers[g], outcome, None); }
      case _ => hide Apply; OwnersHoldNoMore(s, step);
    }
  }

  lemma OwnersHoldNoMore(s: State, step: Step)
    requires AllCanWrite(s) && !step.Put? && !step.StartUp? && !step.Work?
    ensures HoldsNoMore(s, Apply(s, step))
  {
    hide ReceiveStep;
    ReceivingHoldsNoMore(s);
  }

  lemma ReceivingHoldsNoMore(s: State)
    ensures HoldsNoMore(s, ReceiveStep(s))
  {
  }

  lemma StepKeepsOnce(s: State, step: Step)
    requires RunsOnce(s) && InStep(s) && AllCanWrite(s)
    ensures RunsOnce(Apply(s, step))
  {
    if step.Work? && step.generation in s.workers && s.workers[step.generation].phase.Working? {
      AnsweringKeepsOnce(s, step.generation, step.outcome);
    } else if step.Put? {
      hide RunsOnce;
      if s.owner.Putting? && step.id !in s.issued { PuttingKeepsOnce(s, step.id); }
    } else {
      hide RunsOnce;
      OtherStepsHoldNoMore(s, step);
      HoldingNoMoreKeepsOnce(s, Apply(s, step));
    }
  }

  lemma {:induction false} AlwaysRunsOnce(steps: seq<Step>)
    ensures RunsOnce(Execute(steps))
  {
    if steps == [] {
    } else {
      AlwaysRunsOnce(steps[..|steps| - 1]);
      AlwaysInStep(steps[..|steps| - 1]);
      AllCanAlwaysWrite(steps[..|steps| - 1]);
      StepKeepsOnce(Execute(steps[..|steps| - 1]), steps[|steps| - 1]);
    }
  }

  // ---------------------------------------------------------------- every caller gets its own answer

  predicate CallIsRight(call: Call, s: State) {
    && !call.reply.Mismatched?
    && (call.id.Some? ==> call.id.value in s.issued && s.issued[call.id.value] == call.input)
    && (call.reply.Answered? ==>
        call.id.Some? && Computation(call.id.value, call.input, call.reply.outcome) in s.computed)
  }

  /** The call in progress, as far as its outcome is known. */
  function Current(owner: Owner): Option<Call> {
    match owner
    case Awaiting(id, input) => Some(Call(input, Some(id), TimedOut))
    case Detaching(call) => call
    case Dismissing(_, call) => call
    case Joining(_, call) => call
    case _ => None
  }

  /** No two calls used the same request. */
  ghost predicate IdsAreDistinct(s: State) {
    && (forall i, j :: 0 <= i < j < |s.calls| && s.calls[i].id.Some? ==> s.calls[i].id != s.calls[j].id)
    && (Current(s.owner).Some? && Current(s.owner).value.id.Some? ==>
          forall i :: 0 <= i < |s.calls| ==> s.calls[i].id != Current(s.owner).value.id)
  }

  ghost predicate CallsAreRight(s: State) {
    && (forall c :: c in s.calls ==> CallIsRight(c, s))
    && (Current(s.owner).Some? ==> CallIsRight(Current(s.owner).value, s))
  }

  predicate IsWorkers(step: Step) {
    step.StartUp? || step.Work? || step.Crash?
  }

  /** What a worker does changes no call; it can only add a computation. */
  lemma WorkersLeaveCalls(s: State, step: Step)
    requires IsWorkers(step)
    ensures
      var s' := Apply(s, step);
      s'.owner == s.owner && s'.calls == s.calls && s'.issued == s.issued && s.computed <= s'.computed
  {
    hide StartUpStep, WorkStep;
  }

  lemma ReceivingKeepsCalls(s: State)
    requires InStep(s) && CallsAreRight(s)
    ensures CallsAreRight(ReceiveStep(s))
  {
  }

  lemma PuttingKeepsCalls(s: State, id: RequestId)
    requires CallsAreRight(s)
    ensures CallsAreRight(PutStep(s, id))
  {
  }

  /** The call in progress, or one that ends before it has used a request. */
  predicate IsOpen(s: State, call: Option<Call>) {
    call.Some? && call != Current(s.owner) ==>
      call.value.id.None? && !call.value.reply.Mismatched? && !call.value.reply.Answered?
  }

  /** At most the open call has gone on or has ended. */
  predicate PassesOn(s: State, s': State) {
    && s'.issued == s.issued && s'.computed == s.computed
    && if Current(s'.owner).Some? || s'.calls == s.calls
       then s'.calls == s.calls && IsOpen(s, Current(s'.owner))
       else |s'.calls| == |s.calls| + 1 && s'.calls[..|s.calls|] == s.calls && IsOpen(s, Some(s'.calls[|s.calls|]))
  }

  lemma OwnersPassOn(s: State, step: Step)
    requires !IsWorkers(step) && !step.Receive? && !step.Put?
    ensures PassesOn(s, Apply(s, step))
  {
  }

  lemma PassingOnKeepsCalls(s: State, s': State)
    requires PassesOn(s, s') && CallsAreRight(s)
    ensures CallsAreRight(s')
  {
    forall c | c in s'.calls ensures CallIsRight(c, s') {
      assert c in s.calls ==> CallIsRight(c, s);
      var i :| 0 <= i < |s'.calls| && s'.calls[i] == c;
      assert i < |s.calls| ==> s.calls[i] == s'.calls[..|s.calls|][i];
    }
  }

  lemma OwnersKeepCalls(s: State, step: Step)
    requires InStep(s) && CallsAreRight(s) && !IsWorkers(step)
    ensures CallsAreRight(Apply(s, step))
  {
    hide ReceiveStep, PutStep, InStep, CallsAreRight, PassesOn, RecognizeStep, TimeOutStep, DetachStep, DismissStep,
         ReapStep;
    match step {
      case Receive => ReceivingKeepsCalls(s);
      case Put(id) => PuttingKeepsCalls(s, id);
      case _ => OwnersPassOn(s, step); PassingOnKeepsCalls(s, Apply(s, step));
    }
  }

  lemma StepKeepsCalls(s: State, step: Step)
    requires InStep(s) && CallsAreRight(s)
    ensures CallsAreRight(Apply(s, step))
  {
    hide InStep, Apply;
    if IsWorkers(step) { WorkersLeaveCalls(s, step); } else { OwnersKeepCalls(s, step); }
  }

  lemma StepKeepsIds(s: State, step: Step)
    requires InStep(s) && CallsAreRight(s) && IdsAreDistinct(s)
    ensures IdsAreDistinct(Apply(s, step))
  {
    hide InStep, Apply;
    if IsWorkers(step) { WorkersLeaveCalls(s, step); } else { OwnersKeepIds(s, step); }
  }

  lemma PuttingKeepsIds(s: State, id: RequestId)
    requires CallsAreRight(s) && IdsAreDistinct(s)
    ensures IdsAreDistinct(PutStep(s, id))
  {
    forall i | 0 <= i < |s.calls| && s.calls[i].id.Some? ensures s.calls[i].id.value in s.issued {
      assert CallIsRight(s.calls[i], s);
    }
    hide CallsAreRight;
  }

  lemma ReceivingKeepsIds(s: State)
    requires IdsAreDistinct(s)
    ensures IdsAreDistinct(ReceiveStep(s))
  {
  }

  lemma OwnersKeepIds(s: State, step: Step)
    requires CallsAreRight(s) && IdsAreDistinct(s) && !IsWorkers(step)
    ensures IdsAreDistinct(Apply(s, step))
  {
    hide ReceiveStep, PutStep, CallsAreRight, IdsAreDistinct, PassesOn, RecognizeStep, TimeOutStep, DetachStep,
         DismissStep, ReapStep;
    match step {
      case Receive => ReceivingKeepsIds(s);
      case Put(id) => PuttingKeepsIds(s, id);
      case _ => OwnersPassOn(s, step); PassingOnKeepsIds(s, Apply(s, step));
    }
  }

  lemma PassingOnKeepsIds(s: State, s': State)
    requires PassesOn(s, s') && IdsAreDistinct(s)
    ensures IdsAreDistinct(s')
  {
    forall i | 0 <= i < |s.calls| ensures s'.calls[i] == s.calls[i] {
      assert s'.calls[..|s.calls|][i] == s.calls[i];
    }
  }

  lemma {:induction false} CallsAreAlwaysRight(steps: seq<Step>)
    ensures CallsAreRight(Execute(steps)) && IdsAreDistinct(Execute(steps))
  {
    if steps == [] {
    } else {
      CallsAreAlwaysRight(steps[..|steps| - 1]);
      AlwaysInStep(steps[..|steps| - 1]);
      StepKeepsCalls(Execute(steps[..|steps| - 1]), steps[|steps| - 1]);
      StepKeepsIds(Execute(steps[..|steps| - 1]), steps[|steps| - 1]);
    }
  }

  /**
    A call that returns an answer returns what the engine computed for the very input of that call,
    the engine computed it only once, and no other call used that request. No call ever reports a
    mismatched answer, so no answer to an earlier, timed-out request is ever seen.
   */
  lemma AnswersBelongToTheirCalls(steps: seq<Step>, i: nat)
    requires i < |Execute(steps).calls|
    ensures !Execute(steps).calls[i].reply.Mismatched?
    ensures Execute(steps).calls[i].reply.Answered? ==>
              var s := Execute(steps);
              && s.calls[i].id.Some?
              && Computation(s.calls[i].id.value, s.calls[i].input, s.calls[i].reply.outcome) in s.computed
              && forall c :: c in s.computed && c.id == s.calls[i].id.value ==>
                   c.input == s.calls[i].input && Answered(c.outcome) == s.calls[i].reply
    ensures forall j :: 0 <= j < |Execute(steps).calls| && j != i && Execute(steps).calls[i].id.Some? ==>
              Execute(steps).calls[j].id != Execute(steps).calls[i].id
  {
    CallsAreAlwaysRight(steps);
    AlwaysRunsOnce(steps);
    var s := Execute(steps);
    assert CallIsRight(s.calls[i], s);
  }

  // ---------------------------------------------------------------- one worker at a time

  /** The owner has given the worker up: it began to stop it. */
  ghost predicate GivenUp(steps: seq<Step>, g: Generation) {
    exists i :: 0 <= i < |steps| && GivesUp(Execute(steps[..i]), steps[i], g)
  }

  predicate GivesUp(s: State, step: Step, g: Generation) {
    step.Detach? && s.owner.Detaching? && s.current == Some(g)
  }

  lemma GivenUpLater(steps: seq<Step>, step: Step, g: Generation)
    requires GivenUp(steps, g)
    ensures GivenUp(steps + [step], g)
  {
    var i :| 0 <= i < |steps| && GivesUp(Execute(steps[..i]), steps[i], g);
    var all := steps + [step];
    assert all[..i] == steps[..i] && all[i] == steps[i];
  }

  ghost predicate KnownOrDead(s: State, given: set<Generation>) {
    forall g :: g in s.workers && !s.workers[g].phase.Dead? ==> s.current == Some(g) || g in given
  }

  /** A step brings up no worker but the current one, and gives up the current one only by detaching it. */
  lemma StepKeepsKnown(s: State, step: Step, given: set<Generation>)
    requires KnownOrDead(s, given)
    ensures KnownOrDead(Apply(s, step), given + if step.Detach? && s.owner.Detaching? then OptionSet(s.current) else {})
  {
    match step {
      case StartUp(g, failure) =>
        hide StartUpStep, KnownOrDead;
        StartUpKeepsDead(s, g, failure, given);
      case Work(g, outcome) =>
        hide WorkStep, KnownOrDead;
        WorkKeepsDead(s, g, outcome, given);
      case Receive => ReceivingKeepsKnown(s, given);
      case _ =>
    }
  }

  function OptionSet(g: Option<Generation>): set<Generation> {
    if g.Some? then {g.value} else {}
  }

  lemma StartUpKeepsDead(s: State, g: Generation, failure: Option<string>, given: set<Generation>)
    requires KnownOrDead(s, given)
    ensures KnownOrDead(Apply(s, StartUp(g, failure)), given)
  {
  }

  lemma WorkKeepsDead(s: State, g: Generation, outcome: Outcome, given: set<Generation>)
    requires KnownOrDead(s, given)
    ensures KnownOrDead(Apply(s, Work(g, outcome)), given)
  {
  }

  lemma ReceivingKeepsKnown(s: State, given: set<Generation>)
    requires KnownOrDead(s, given)
    ensures KnownOrDead(ReceiveStep(s), given)
  {
  }

  ghost function AllGivenUp(steps: seq<Step>): (given: set<Generation>)
    ensures forall g :: g in given ==> GivenUp(steps, g)
  {
    if steps == [] then {}
    else
      var before, step := steps[..|steps| - 1], steps[|steps| - 1];
      assert steps == before + [step];
      assert forall g :: GivenUp(before, g) ==> GivenUp(steps, g) by {
        forall g | GivenUp(before, g) ensures GivenUp(steps, g) {
          GivenUpLater(before, step, g);
        }
      }
      var s := Execute(before);
      assert step.Detach? && s.owner.Detaching? && s.current.Some? ==> GivesUp(s, step, s.current.value);
      AllGivenUp(before) + if step.Detach? && s.owner.Detaching? then OptionSet(s.current) else {}
  }

  lemma {:induction false} WorkersAreKnown(steps: seq<Step>)
    ensures KnownOrDead(Execute(steps), AllGivenUp(steps))
  {
    if steps == [] {
    } else {
      WorkersAreKnown(steps[..|steps| - 1]);
      StepKeepsKnown(Execute(steps[..|steps| - 1]), steps[|steps| - 1], AllGivenUp(steps[..|steps| - 1]));
    }
  }

  /** At any time at most one live worker has not been given up: the current one. */
  lemma OneWorkerAtATime(steps: seq<Step>, g: Generation)
    requires g in Execute(steps).workers && !Execute(steps).workers[g].phase.Dead? && !GivenUp(steps, g)
    ensures Execute(steps).current == Some(g)
  {
    WorkersAreKnown(steps);
  }

  /** A call uses a live worker again; otherwise, if OCR is available, it starts one under a name not used before. */
  lemma CallStartsWorkerIff(steps: seq<Step>, input: Input, available: bool, spawned: Generation)
    requires Execute(steps).owner.Free? && spawned !in Execute(steps).workers
    ensures
      var s, s' := Execute(steps), Apply(Execute(steps), Recognize(input, available, spawned));
      if Alive(s) then s' == s.(owner := Putting(input))
      else if available then
        && s'.owner == Starting(input) && s'.current == Some(spawned)
        && s'.workers.Keys == s.workers.Keys + {spawned} && s'.workers[spawned].phase.Loading?
        && forall g :: g in s.workers ==> s'.workers[g] == s.workers[g]
      else s' == s.(calls := s.calls + [Call(input, None, Unavailable)])
  {
  }

  // ---------------------------------------------------------------- what the two parties can always bring about

  /** From a free lock, with a live worker, a call can be answered with what the engine makes of its input. */
  lemma LiveWorkerServesCall(steps: seq<Step>, input: Input, available: bool, spawned: Generation, id: RequestId,
      outcome: Outcome)
    requires Execute(steps).owner.Free? && Alive(Execute(steps)) && id !in Execute(steps).issued
    ensures
      var s := Execute(steps);
      var work := Work(s.current.value, outcome);
      var asked := Apply(Apply(s, Recognize(input, available, spawned)), Put(id));
      var s' := Apply(Apply(Apply(asked, work), work), Receive);
      && s'.owner == Free && s'.current == s.current && Alive(s')
      && s'.calls == s.calls + [Call(input, Some(id), Answered(outcome))]
  {
    hide Execute;
    AlwaysInStep(steps);
    IdleWorkerServes(Execute(steps), input, available, spawned, id, outcome);
  }

  lemma IdleWorkerServes(s: State, input: Input, available: bool, spawned: Generation, id: RequestId, outcome: Outcome)
    requires InStep(s) && s.owner.Free? && Alive(s) && id !in s.issued
    ensures
      var work := Work(s.current.value, outcome);
      var asked := Apply(Apply(s, Recognize(input, available, spawned)), Put(id));
      var s' := Apply(Apply(Apply(asked, work), work), Receive);
      && s'.owner == Free && s'.current == s.current && Alive(s')
      && s'.calls == s.calls + [Call(input, Some(id), Answered(outcome))]
  {
    var g := s.current.value;
    var asked := Apply(Apply(s, Recognize(input, available, spawned)), Put(id));
    assert asked.owner == Awaiting(id, input) && asked.current == s.current && asked.calls == s.calls;
    assert asked.workers[g] == Worker(Waiting, [Job(id, input)], []);
    hide InStep, RecognizeStep, PutStep;
    AnsweringServes(asked, g, id, input, outcome);
  }

  lemma AnsweringServes(s: State, g: Generation, id: RequestId, input: Input, outcome: Outcome)
    requires s.owner == Awaiting(id, input) && s.current == Some(g) && g in s.workers
    requires s.workers[g] == Worker(Waiting, [Job(id, input)], [])
    ensures
      var s' := Apply(Apply(Apply(s, Work(g, outcome)), Work(g, outcome)), Receive);
      && s'.owner == Free && s'.current == s.current && Alive(s')
      && s'.calls == s.calls + [Call(input, Some(id), Answered(outcome))]
  {
    hide RecognizeStep, PutStep, TimeOutStep, DetachStep, DismissStep, ReapStep, StartUpStep;
    var s1 := Apply(s, Work(g, outcome));
    assert s1.workers[g] == Worker(Working(id, input), [], []);
    var s2 := Apply(s1, Work(g, outcome));
    assert s2.workers[g] == Worker(Waiting, [], [Answer(id, outcome)]);
  }

  /** Without one, if OCR is available, a worker can be started, and then stands by for the request. */
  lemma WorkerCanBeStarted(steps: seq<Step>, input: Input, spawned: Generation)
    requires Execute(steps).owner.Free? && !Alive(Execute(steps)) && spawned !in Execute(steps).workers
    ensures
      var s := Execute(steps);
      var s' := Apply(Apply(Apply(s, Recognize(input, true, spawned)), StartUp(spawned, None)), Receive);
      && s'.owner == Putting(input) && s'.current == Some(spawned) && s'.calls == s.calls
      && spawned in s'.workers && s'.workers[spawned] == Worker(Waiting, [], [])
  {
    hide Execute;
    var s := Execute(steps);
    var s1 := Apply(s, Recognize(input, true, spawned));
    assert s1.workers[spawned] == Worker(Loading, [], []);
    var s2 := Apply(s1, StartUp(spawned, None));
    assert s2.workers[spawned] == Worker(Waiting, [], [Ready]);
  }

  /** Closing with the lock free stops the worker, and reports nothing. */
  lemma CloseStopsWorker(steps: seq<Step>, terminated: bool)
    requires Execute(steps).owner.Free? && Execute(steps).current.Some?
    ensures
      var s := Execute(steps);
      var g := s.current.value;
      var s' := Apply(Apply(Apply(Apply(s, Close), Detach), Dismiss), Reap(terminated));
      && s'.owner == Free && s'.current == None && s'.calls == s.calls && g in s'.workers
      && (terminated ==> s'.workers[g].phase.Dead?)
      && (!s.workers[g].phase.Dead? && s.workers[g].requests == [] && !terminated ==>
            s'.workers[g].requests == [Quit])
  {
    hide Execute, Agreed;
    AlwaysInStep(steps);
    var s := Execute(steps);
    var s1 := Apply(Apply(s, Close), Detach);
    assert s1.owner == Dismissing(s.current.value, None) && s1.current.None? && s1.workers == s.workers;
    hide RecognizeStep, ReceiveStep, TimeOutStep, PutStep, DetachStep, InStep;
  }

  /** An engine that cannot be loaded is reported with its error, and its worker is gone. */
  lemma StartupFailureIsReported(steps: seq<Step>, input: Input, spawned: Generation, error: string, terminated: bool)
    requires Execute(steps).owner.Free? && !Alive(Execute(steps)) && spawned !in Execute(steps).workers
    ensures
      var s := Execute(steps);
      var failed := Apply(Apply(Apply(s, Recognize(input, true, spawned)), StartUp(spawned, Some(error))), Receive);
      var s' := Apply(Apply(Apply(failed, Detach), Dismiss), Reap(terminated));
      && s'.owner == Free && s'.current == None && s'.calls == s.calls + [Call(input, None, StartupFailed(error))]
      && spawned in s'.workers && s'.workers[spawned].phase.Dead?
  {
    hide Execute;
    var s := Execute(steps);
    var s1 := Apply(s, Recognize(input, true, spawned));
    assert s1.workers[spawned] == Worker(Loading, [], []);
    var s2 := Apply(s1, StartUp(spawned, Some(error)));
    assert s2.workers[spawned] == Worker(Dead, [], [StartupError(error)]);
    var s3 := Apply(s2, Receive);
    assert s3.owner == Detaching(Some(Call(input, None, StartupFailed(error)))) && s3.calls == s.calls;
    hide RecognizeStep, StartUpStep, ReceiveStep;
    StoppingReports(s3, spawned, terminated);
  }

  /** Stopping a worker ends with the lock free and the call reported. */
  lemma StoppingReports(s: State, g: Generation, terminated: bool)
    requires s.owner.Detaching? && s.current == Some(g) && g in s.workers
    ensures
      var s' := Apply(Apply(Apply(s, Detach), Dismiss), Reap(terminated));
      && s'.owner == Free && s'.current == None
      && s'.calls == s.calls + (if s.owner.call.Some? then [s.owner.call.value] else [])
      && g in s'.workers && (terminated || s.workers[g].phase.Dead? ==> s'.workers[g].phase.Dead?)
  {
    hide RecognizeStep, StartUpStep, ReceiveStep, PutStep, TimeOutStep, WorkStep;
    var s1 := Apply(s, Detach);
    assert s1.owner == Dismissing(g, s.owner.call) && s1.current.None? && s1.workers == s.workers;
    var s2 := Apply(s1, Dismiss);
    assert s2.owner == Joining(g, s.owner.call) && s2.calls == s.calls && g in s2.workers;
  }

  /** A waiting worker that is asked to leave does so by itself. */
  lemma QuitEndsWorker(s: State, g: Generation, outcome: Outcome)
    requires g in s.workers && s.workers[g].phase.Waiting? && s.workers[g].requests == [Quit]
    ensures Apply(s, Work(g, outcome)).workers[g] == Worker(Dead, [], s.workers[g].responses)
  {
  }

  /**
    A crash ends the worker, and takes the message it had not flushed yet. The owner notices it before
    the next call; while it waits, with no message left, only the time-out helps.
   */
  lemma CrashEndsWorker(steps: seq<Step>, flushed: bool)
    requires Execute(steps).current.Some?
    ensures
      var s := Execute(steps);
      var g := s.current.value;
      var s' := Apply(s, Crash(g, flushed));
      && g in s.workers && s' == s.(workers := s'.workers) && !Alive(s')
      && s'.workers[g] == s.workers[g].(phase := Dead, responses := if flushed then s.workers[g].responses else [])
      && (s.owner.Awaiting? && s'.workers[g].responses == [] ==>
            && Apply(s', Receive) == s'
            && Apply(s', TimeOut).owner ==
               Detaching(Some(Call(s.owner.input, Some(s.owner.id), TimedOut))))
  {
    hide Execute, Agreed;
    AlwaysInStep(steps);
  }

  // ---------------------------------------------------------------- no call is lost

  function InputsOf(calls: seq<Call>): seq<Input> {
    seq(|calls|, i requires 0 <= i < |calls| => calls[i].input)
  }

  /** The input of the call that holds the lock, if a call does. */
  function InHand(owner: Owner): seq<Input> {
    match owner
    case Free => []
    case Starting(input) => [input]
    case Putting(input) => [input]
    case Awaiting(_, input) => [input]
    case Detaching(call) => if call.Some? then [call.value.input] else []
    case Dismissing(_, call) => if call.Some? then [call.value.input] else []
    case Joining(_, call) => if call.Some? then [call.value.input] else []
  }

  /** A call gets the lock; a generation cannot be spawned twice. */
  predicate Begins(s: State, step: Step) {
    step.Recognize? && s.owner.Free? && (Alive(s) || !step.available || step.spawned !in s.workers)
  }

  /** The inputs of all calls that got the lock, in that order. */
  ghost function Begun(steps: seq<Step>): seq<Input> {
    if steps == [] then []
    else
      var n := |steps| - 1;
      Begun(steps[..n]) + if Begins(Execute(steps[..n]), steps[n]) then [steps[n].input] else []
  }

  lemma InputsOfMore(calls: seq<Call>, call: Call)
    ensures InputsOf(calls + [call]) == InputsOf(calls) + [call.input]
  {
  }

  lemma StepConserves(s: State, step: Step)
    ensures
      var s' := Apply(s, step);
      InputsOf(s'.calls) + InHand(s'.owner) ==
      InputsOf(s.calls) + InHand(s.owner) + if Begins(s, step) then [step.input] else []
  {
    var s' := Apply(s, step);
    if s'.calls != s.calls {
      assert |s'.calls| == |s.calls| + 1 && s'.calls == s.calls + [s'.calls[|s.calls|]];
      InputsOfMore(s.calls, s'.calls[|s.calls|]);
    }
    hide InputsOf;
  }

  /** Calls end in the order in which they got the lock, each with its own input, and none is lost or repeated. */
  lemma {:induction false} CallsAreConserved(steps: seq<Step>)
    ensures InputsOf(Execute(steps).calls) + InHand(Execute(steps).owner) == Begun(steps)
  {
    hide InputsOf, InHand, Begins, Apply;
    if steps == [] {
      NoCallsYet();
    } else {
      var n := |steps| - 1;
      CallsAreConserved(steps[..n]);
      StepConserves(Execute(steps[..n]), steps[n]);
    }
  }

  lemma NoCallsYet()
    ensures InputsOf(INITIAL.calls) == [] && InHand(INITIAL.owner) == []
  {
  }
}
