/** Delivery of session messages: durable receipts advanced by compare-and-set, a
    session log that a message enters as one marker, and a map of injections in
    flight. Every await is a point where anything else may happen, a crash included;
    an action is what happens between two of them. */
module Injection {
  import opened Checked

  type Message = int
  type Worker = int
  type Operation = nat

  datatype Stage = Queued | Received | Injected | Acknowledged

  datatype Receipt = Receipt(stage: Stage, version: nat)

  datatype Entry = Marker(message: Message) | Other

  /** An injection: looked for the marker, handed the message to the session, saw it
      appended, settled. */
  datatype Phase = Looked(found: bool) | Sent | Appended | Settled(ok: bool)

  datatype Flight = Flight(message: Message, phase: Phase)

  /** Where a delivery, or an acknowledgement, stands between two awaits; it acts on
      the receipt it has read, which may be stale. */
  datatype Task =
    | Holding(message: Message, receipt: Receipt)
    | Deciding(message: Message, receipt: Receipt, found: bool)
    | Waiting(message: Message, receipt: Receipt, operation: Operation)
    | Marking(message: Message, receipt: Receipt)
    | Acknowledging(message: Message, receipt: Receipt)

  datatype World = World(
    receipts: map<Message, Receipt>,       // durable, on the server
    log: seq<Entry>,                       // durable, the session file
    inFlight: map<Message, Operation>,     // lost in a crash, like all that follows
    flights: map<Operation, Flight>,
    tasks: map<Worker, Task>,
    nextOperation: Operation)

  predicate HasMarker(log: seq<Entry>, m: Message) {
    exists i :: 0 <= i < |log| && log[i] == Marker(m)
  }

  function MarkerCount(log: seq<Entry>, m: Message): nat {
    if log == [] then 0
    else MarkerCount(log[..|log| - 1], m) + if log[|log| - 1] == Marker(m) then 1 else 0
  }

  /** The scan over the entries. */
  method FindMarker(log: seq<Entry>, m: Message) returns (found: bool)
    ensures found <==> HasMarker(log, m)
  {
    for i := 0 to |log|
      invariant forall j :: 0 <= j < i ==> log[j] != Marker(m)
    {
      if log[i] == Marker(m) { return true; }
    }
    return false;
  }

  function NextStage(stage: Stage): Stage {
    match stage
    case Queued => Received
    case Received => Injected
    case Injected => Acknowledged
    case Acknowledged => Acknowledged
  }

  function Rank(stage: Stage): nat {
    match stage
    case Queued => 0
    case Received => 1
    case Injected => 2
    case Acknowledged => 3
  }

  /** Compare-and-set on the receipt as it was last read. */
  predicate Matches(w: World, m: Message, expected: Receipt) {
    m in w.receipts && w.receipts[m] == expected
  }

  function Advanced(r: Receipt): Receipt { Receipt(NextStage(r.stage), r.version + 1) }

  function CompareAndSet(w: World, m: Message, expected: Receipt): World {
    if Matches(w, m, expected) then w.(receipts := w.receipts[m := Advanced(expected)]) else w
  }

  datatype Action =
    | Queue(message: Message, version: nat)           // a sender queues a message
    | Talk                                            // the session logs something else
    | Fetch(worker: Worker, message: Message)         // pull, or an event of the stream
    | Receive(worker: Worker, lost: bool)             // the answer may be lost
    | Look(worker: Worker)
    | Inject(worker: Worker)
    | Send(operation: Operation)
    | AppendMarker(operation: Operation)
    | Settle(operation: Operation, fails: bool)
    | Release(operation: Operation)
    | Resume(worker: Worker)
    | Mark(worker: Worker)
    | Acknowledge(worker: Worker, message: Message)
    | Confirm(worker: Worker)
    | Crash

  function Done(w: World, worker: Worker): World { w.(tasks := w.tasks - {worker}) }

  function Doing(w: World, worker: Worker, task: Task): World { w.(tasks := w.tasks[worker := task]) }

  function InPhase(w: World, op: Operation, phase: Phase): World
    requires op in w.flights
  {
    w.(flights := w.flights[op := Flight(w.flights[op].message, phase)])
  }

  function FetchStep(w: World, worker: Worker, m: Message): World {
    if worker in w.tasks || m !in w.receipts then w else Doing(w, worker, Holding(m, w.receipts[m]))
  }

  function ReceiveStep(w: World, worker: Worker, lost: bool): World {
    if worker !in w.tasks then w
    else
      match w.tasks[worker]
      case Holding(m, r) =>
        if r.stage != Queued then w
        else if Matches(w, m, r) && !lost then Doing(CompareAndSet(w, m, r), worker, Holding(m, Advanced(r)))
        else Done(CompareAndSet(w, m, r), worker)
      case _ => w
  }

  function LookStep(w: World, worker: Worker): World {
    if worker !in w.tasks then w
    else
      match w.tasks[worker]
      case Holding(m, r) =>
        if r.stage == Received then Doing(w, worker, Deciding(m, r, HasMarker(w.log, m)))
        else if r.stage == Queued then w
        else Done(w, worker)
      case _ => w
  }

  /** Joins the injection in flight or starts one, which looks for the marker and
      enters the map before anything else can run. */
  function InjectStep(w: World, worker: Worker): World {
    if worker !in w.tasks then w
    else
      match w.tasks[worker]
      case Deciding(m, r, found) =>
        if found then Doing(w, worker, Marking(m, r))
        else if m in w.inFlight then Doing(w, worker, Waiting(m, r, w.inFlight[m]))
        else
          Doing(w, worker, Waiting(m, r, w.nextOperation)).(
            flights := w.flights[w.nextOperation := Flight(m, Looked(HasMarker(w.log, m)))],
            inFlight := w.inFlight[m := w.nextOperation],
            nextOperation := w.nextOperation + 1)
      case _ => w
  }

  function SendStep(w: World, op: Operation): World {
    if op !in w.flights then w
    else
      match w.flights[op].phase
      case Looked(found) => InPhase(w, op, if found then Settled(true) else Sent)
      case _ => w
  }

  function AppendStep(w: World, op: Operation): World {
    if op in w.flights && w.flights[op].phase == Sent
    then InPhase(w, op, Appended).(log := w.log + [Marker(w.flights[op].message)])
    else w
  }

  /** Success needs the marker to be found again; an error may strike before or after
      the append. */
  function SettleStep(w: World, op: Operation, fails: bool): World {
    if op !in w.flights || w.flights[op].phase !in {Sent, Appended} then w
    else InPhase(w, op, Settled(!fails && HasMarker(w.log, w.flights[op].message)))
  }

  function ReleaseStep(w: World, op: Operation): World {
    if op in w.flights && w.flights[op].phase.Settled?
       && w.flights[op].message in w.inFlight && w.inFlight[w.flights[op].message] == op
    then w.(inFlight := w.inFlight - {w.flights[op].message})
    else w
  }

  function ResumeStep(w: World, worker: Worker): World {
    if worker !in w.tasks then w
    else
      match w.tasks[worker]
      case Waiting(m, r, op) =>
        if op !in w.flights then w
        else
          (match w.flights[op].phase
           case Settled(ok) => if ok then Doing(w, worker, Marking(m, r)) else Done(w, worker)
           case _ => w)
      case _ => w
  }

  function MarkStep(w: World, worker: Worker): World {
    if worker !in w.tasks then w
    else
      match w.tasks[worker]
      case Marking(m, r) => Done(CompareAndSet(w, m, r), worker)
      case _ => w
  }

  function AcknowledgeStep(w: World, worker: Worker, m: Message): World {
    if worker in w.tasks || m !in w.receipts || w.receipts[m].stage != Injected then w
    else Doing(w, worker, Acknowledging(m, w.receipts[m]))
  }

  function ConfirmStep(w: World, worker: Worker): World {
    if worker !in w.tasks then w
    else
      match w.tasks[worker]
      case Acknowledging(m, r) => Done(CompareAndSet(w, m, r), worker)
      case _ => w
  }

  /** An action that is not enabled changes nothing. */
  function Step(w: World, a: Action): World {
    match a
    case Queue(m, version) => if m in w.receipts then w else w.(receipts := w.receipts[m := Receipt(Queued, version)])
    case Talk => w.(log := w.log + [Other])
    case Fetch(worker, m) => FetchStep(w, worker, m)
    case Receive(worker, lost) => ReceiveStep(w, worker, lost)
    case Look(worker) => LookStep(w, worker)
    case Inject(worker) => InjectStep(w, worker)
    case Send(op) => SendStep(w, op)
    case AppendMarker(op) => AppendStep(w, op)
    case Settle(op, fails) => SettleStep(w, op, fails)
    case Release(op) => ReleaseStep(w, op)
    case Resume(worker) => ResumeStep(w, worker)
    case Mark(worker) => MarkStep(w, worker)
    case Acknowledge(worker, m) => AcknowledgeStep(w, worker, m)
    case Confirm(worker) => ConfirmStep(w, worker)
    case Crash => w.(inFlight := map[], flights := map[], tasks := map[])
  }

  function Run(w: World, actions: seq<Action>): World {
    if actions == [] then w else Step(Run(w, actions[..|actions| - 1]), actions[|actions| - 1])
  }

  const START := World(map[], [], map[], map[], map[], 0)

  // ---- the invariant ----

  ghost predicate FlightHolds(w: World, op: Operation)
    requires op in w.flights
  {
    var m := w.flights[op].message;
    && op < w.nextOperation
    && (match w.flights[op].phase
        case Looked(found) =>
          m in w.inFlight && w.inFlight[m] == op && (if found then HasMarker(w.log, m) else MarkerCount(w.log, m) == 0)
        case Sent => m in w.inFlight && w.inFlight[m] == op && MarkerCount(w.log, m) == 0
        case Appended => m in w.inFlight && w.inFlight[m] == op && HasMarker(w.log, m)
        case Settled(ok) => ok ==> HasMarker(w.log, m))
  }

  ghost predicate TaskHolds(w: World, task: Task) {
    match task
    case Holding(m, r) => true
    case Deciding(m, r, found) => r.stage == Received && (found ==> HasMarker(w.log, m))
    case Waiting(m, r, op) => r.stage == Received && op in w.flights && w.flights[op].message == m
    case Marking(m, r) => r.stage == Received && HasMarker(w.log, m)
    case Acknowledging(m, r) => r.stage == Injected
  }

  /** What is marked injected is in the log. */
  ghost predicate ReceiptHolds(w: World, m: Message)
    requires m in w.receipts
  {
    Rank(w.receipts[m].stage) >= 2 ==> HasMarker(w.log, m)
  }

  ghost predicate Inv(w: World) {
    && (forall m :: MarkerCount(w.log, m) <= 1)
    && (forall op | op in w.flights :: FlightHolds(w, op))
    && (forall m | m in w.inFlight :: w.inFlight[m] in w.flights && w.flights[w.inFlight[m]].message == m)
    && (forall worker | worker in w.tasks :: TaskHolds(w, w.tasks[worker]))
    && (forall m | m in w.receipts :: ReceiptHolds(w, m))
  }

  lemma {:induction false} CountsMarkers(log: seq<Entry>, m: Message)
    ensures HasMarker(log, m) <==> MarkerCount(log, m) > 0
  {
    if log != [] {
      var n := |log| - 1;
      CountsMarkers(log[..n], m);
      if HasMarker(log[..n], m) {
        var i :| 0 <= i < n && log[..n][i] == Marker(m);
        assert log[i] == Marker(m);
      }
      if HasMarker(log, m) && log[n] != Marker(m) {
        var i :| 0 <= i < |log| && log[i] == Marker(m);
        assert log[..n][i] == Marker(m);
      }
    }
  }

  lemma {:induction false} LogAppend(log: seq<Entry>, e: Entry, m: Message)
    ensures MarkerCount(log + [e], m) == MarkerCount(log, m) + if e == Marker(m) then 1 else 0
    ensures HasMarker(log + [e], m) <==> HasMarker(log, m) || e == Marker(m)
  {
    assert (log + [e])[..|log|] == log;
    CountsMarkers(log, m);
    CountsMarkers(log + [e], m);
  }

  /** Only the durable receipt of one message moves, by one stage and one version. */
  lemma {:induction false} ReceiptsMoveForward(w: World, a: Action, m: Message)
    requires m in w.receipts
    requires forall worker | worker in w.tasks :: TaskHolds(w, w.tasks[worker])
    ensures var next := Step(w, a);
            && m in next.receipts
            && (next.receipts[m] == w.receipts[m]
                || (next.receipts[m] == Advanced(w.receipts[m]) && w.receipts[m].stage != Acknowledged))
  {
  }

  lemma {:induction false} TalkKeeps(w: World)
    requires Inv(w)
    ensures Inv(Step(w, Talk))
  {
    var next := Step(w, Talk);
    forall m
      ensures MarkerCount(next.log, m) == MarkerCount(w.log, m) && HasMarker(next.log, m) == HasMarker(w.log, m)
    {
      LogAppend(w.log, Other, m);
    }
    forall op | op in next.flights ensures FlightHolds(next, op) { assert FlightHolds(w, op); }
    forall worker | worker in next.tasks
      ensures TaskHolds(next, next.tasks[worker])
    {
      assert TaskHolds(w, w.tasks[worker]);
    }
    forall m | m in next.receipts ensures ReceiptHolds(next, m) { assert ReceiptHolds(w, m); }
  }

  /** Actions that touch neither log nor operations, and one task at most. */
  lemma {:induction false} ReceiptStepKeeps(w: World, m: Message, r: Receipt)
    requires Inv(w) && (r.stage == Received ==> HasMarker(w.log, m))
    ensures Inv(CompareAndSet(w, m, r))
  {
    var next := CompareAndSet(w, m, r);
    forall op | op in next.flights ensures FlightHolds(next, op) { assert FlightHolds(w, op); }
    forall worker | worker in next.tasks
      ensures TaskHolds(next, next.tasks[worker])
    {
      assert TaskHolds(w, w.tasks[worker]);
    }
    forall x | x in next.receipts ensures ReceiptHolds(next, x) {
      if x in w.receipts { assert ReceiptHolds(w, x); }
    }
  }

  lemma {:induction false} TaskStepKeeps(w: World, worker: Worker, task: Task)
    requires Inv(w) && TaskHolds(w, task)
    ensures Inv(Doing(w, worker, task)) && Inv(Done(w, worker))
  {
    var next, done := Doing(w, worker, task), Done(w, worker);
    forall op | op in w.flights ensures FlightHolds(next, op) && FlightHolds(done, op) { assert FlightHolds(w, op); }
    forall x | x in next.tasks ensures TaskHolds(next, next.tasks[x]) {
      if x != worker { assert TaskHolds(w, w.tasks[x]); }
    }
    forall x | x in done.tasks ensures TaskHolds(done, done.tasks[x]) { assert TaskHolds(w, w.tasks[x]); }
    forall m | m in w.receipts ensures ReceiptHolds(next, m) && ReceiptHolds(done, m) { assert ReceiptHolds(w, m); }
  }

  lemma {:induction false} QueueKeeps(w: World, m: Message, version: nat)
    requires Inv(w)
    ensures Inv(Step(w, Queue(m, version)))
  {
    var next := Step(w, Queue(m, version));
    forall op | op in next.flights ensures FlightHolds(next, op) { assert FlightHolds(w, op); }
    forall worker | worker in next.tasks
      ensures TaskHolds(next, next.tasks[worker])
    {
      assert TaskHolds(w, w.tasks[worker]);
    }
    forall x | x in next.receipts ensures ReceiptHolds(next, x) {
      if x in w.receipts { assert ReceiptHolds(w, x); }
    }
  }

  lemma {:induction false} CrashKeeps(w: World)
    requires Inv(w)
    ensures Inv(Step(w, Crash))
  {
    var next := Step(w, Crash);
    forall m | m in next.receipts ensures ReceiptHolds(next, m) { assert ReceiptHolds(w, m); }
  }

  lemma {:induction false} DeliveryKeeps(w: World, a: Action)
    requires Inv(w)
    requires a.Fetch? || a.Receive? || a.Look? || a.Resume? || a.Mark? || a.Acknowledge? || a.Confirm?
    ensures Inv(Step(w, a))
  {
    if a.Fetch? {
      if a.message in w.receipts { TaskStepKeeps(w, a.worker, Holding(a.message, w.receipts[a.message])); }
    } else if a.Acknowledge? {
      if a.message in w.receipts && w.receipts[a.message].stage == Injected {
        TaskStepKeeps(w, a.worker, Acknowledging(a.message, w.receipts[a.message]));
      }
    } else if a.worker in w.tasks {
      TaskKeeps(w, a, w.tasks[a.worker]);
    }
  }

  lemma {:induction false} TaskKeeps(w: World, a: Action, task: Task)
    requires Inv(w) && (a.Receive? || a.Look? || a.Resume? || a.Mark? || a.Confirm?)
    requires a.worker in w.tasks && task == w.tasks[a.worker]
    ensures Inv(Step(w, a))
  {
    assert TaskHolds(w, task);
    match task
    case Holding(m, r) =>
      if a.Receive? && r.stage == Queued {
        ReceiptStepKeeps(w, m, r);
        TaskStepKeeps(CompareAndSet(w, m, r), a.worker, Holding(m, Advanced(r)));
      } else if a.Look? {
        TaskStepKeeps(w, a.worker, if r.stage == Received then Deciding(m, r, HasMarker(w.log, m)) else task);
      }
    case Deciding(m, r, found) =>
    case Waiting(m, r, op) =>
      assert FlightHolds(w, op);
      if a.Resume? && w.flights[op].phase.Settled? {
        TaskStepKeeps(w, a.worker, if w.flights[op].phase.ok then Marking(m, r) else task);
      }
    case Marking(m, r) =>
      if a.Mark? {
        ReceiptStepKeeps(w, m, r);
        TaskStepKeeps(CompareAndSet(w, m, r), a.worker, Holding(m, r));
      }
    case Acknowledging(m, r) =>
      if a.Confirm? {
        ReceiptStepKeeps(w, m, r);
        TaskStepKeeps(CompareAndSet(w, m, r), a.worker, Holding(m, r));
      }
  }

  lemma {:induction false} InjectKeeps(w: World, worker: Worker)
    requires Inv(w)
    ensures Inv(InjectStep(w, worker))
  {
    if worker in w.tasks && w.tasks[worker].Deciding? {
      var m, r, found := w.tasks[worker].message, w.tasks[worker].receipt, w.tasks[worker].found;
      assert TaskHolds(w, w.tasks[worker]);
      if found {
        TaskStepKeeps(w, worker, Marking(m, r));
      } else if m in w.inFlight {
        TaskStepKeeps(w, worker, Waiting(m, r, w.inFlight[m]));
      } else {
        StartKeeps(w, worker, m, r);
      }
    }
  }

  /** A new injection is the only one of its message that has not settled. */
  lemma {:induction false} StartKeeps(w: World, worker: Worker, m: Message, r: Receipt)
    requires Inv(w) && m !in w.inFlight && r.stage == Received
    ensures Inv(Doing(w, worker, Waiting(m, r, w.nextOperation)).(
                  flights := w.flights[w.nextOperation := Flight(m, Looked(HasMarker(w.log, m)))],
                  inFlight := w.inFlight[m := w.nextOperation],
                  nextOperation := w.nextOperation + 1))
  {
    var next := Doing(w, worker, Waiting(m, r, w.nextOperation)).(
      flights := w.flights[w.nextOperation := Flight(m, Looked(HasMarker(w.log, m)))],
      inFlight := w.inFlight[m := w.nextOperation],
      nextOperation := w.nextOperation + 1);
    CountsMarkers(w.log, m);
    forall op | op in next.flights ensures FlightHolds(next, op) {
      if op != w.nextOperation { assert FlightHolds(w, op); }
    }
    forall x | x in next.inFlight
      ensures next.inFlight[x] in next.flights && next.flights[next.inFlight[x]].message == x
    {
      if x != m { assert FlightHolds(w, w.inFlight[x]); }
    }
    forall x | x in next.tasks ensures TaskHolds(next, next.tasks[x]) {
      if x != worker {
        assert TaskHolds(w, w.tasks[x]);
        if w.tasks[x].Waiting? { assert FlightHolds(w, w.tasks[x].operation); }
      }
    }
    forall x | x in next.receipts ensures ReceiptHolds(next, x) { assert ReceiptHolds(w, x); }
  }

  lemma {:induction false} PhaseKeeps(w: World, op: Operation, phase: Phase)
    requires Inv(w) && op in w.flights && FlightHolds(InPhase(w, op, phase), op)
    ensures Inv(InPhase(w, op, phase))
  {
    var next := InPhase(w, op, phase);
    forall x | x in next.flights ensures FlightHolds(next, x) {
      if x != op { assert FlightHolds(w, x); }
    }
    forall x | x in next.tasks ensures TaskHolds(next, next.tasks[x]) { assert TaskHolds(w, w.tasks[x]); }
    forall x | x in next.receipts ensures ReceiptHolds(next, x) { assert ReceiptHolds(w, x); }
  }

  lemma {:induction false} AppendKeeps(w: World, op: Operation)
    requires Inv(w)
    ensures Inv(AppendStep(w, op))
  {
    if op in w.flights && w.flights[op].phase == Sent {
      var m, next := w.flights[op].message, AppendStep(w, op);
      assert FlightHolds(w, op);
      forall x ensures MarkerCount(next.log, x) == MarkerCount(w.log, x) + (if x == m then 1 else 0)
               ensures HasMarker(next.log, x) <==> HasMarker(w.log, x) || x == m
      {
        LogAppend(w.log, Marker(m), x);
      }
      forall x | x in next.flights ensures FlightHolds(next, x) { assert FlightHolds(w, x); }
      forall x | x in next.tasks ensures TaskHolds(next, next.tasks[x]) { assert TaskHolds(w, w.tasks[x]); }
      forall x | x in next.receipts ensures ReceiptHolds(next, x) { assert ReceiptHolds(w, x); }
    }
  }

  lemma {:induction false} ReleaseKeeps(w: World, op: Operation)
    requires Inv(w)
    ensures Inv(ReleaseStep(w, op))
  {
    var next := ReleaseStep(w, op);
    forall x | x in next.flights ensures FlightHolds(next, x) {
      assert FlightHolds(w, x);
    }
    forall x | x in next.tasks ensures TaskHolds(next, next.tasks[x]) { assert TaskHolds(w, w.tasks[x]); }
    forall x | x in next.receipts ensures ReceiptHolds(next, x) { assert ReceiptHolds(w, x); }
  }

  lemma {:induction false} StepKeeps(w: World, a: Action)
    requires Inv(w)
    ensures Inv(Step(w, a))
  {
    match a
    case Queue(m, version) => QueueKeeps(w, m, version);
    case Talk => TalkKeeps(w);
    case Inject(worker) => InjectKeeps(w, worker);
    case Send(op) =>
      if op in w.flights && w.flights[op].phase.Looked? {
        assert FlightHolds(w, op);
        PhaseKeeps(w, op, if w.flights[op].phase.found then Settled(true) else Sent);
      }
    case AppendMarker(op) => AppendKeeps(w, op);
    case Settle(op, fails) =>
      if op in w.flights && w.flights[op].phase in {Sent, Appended} {
        assert FlightHolds(w, op);
        PhaseKeeps(w, op, Settled(!fails && HasMarker(w.log, w.flights[op].message)));
      }
    case Release(op) => ReleaseKeeps(w, op);
    case Crash => CrashKeeps(w);
    case _ => DeliveryKeeps(w, a);
  }

  /** Every interleaving of deliveries, event-stream deliveries, acknowledgements, lost
      answers and crashes keeps the invariant. */
  lemma {:induction false} RunKeeps(actions: seq<Action>)
    ensures Inv(Run(START, actions))
  {
    if actions != [] {
      RunKeeps(actions[..|actions| - 1]);
      StepKeeps(Run(START, actions[..|actions| - 1]), actions[|actions| - 1]);
    }
  }

  /** A message enters the log at most once, and once marked injected it is there,
      exactly once. */
  lemma {:induction false} EffectivelyOnce(actions: seq<Action>, m: Message)
    ensures var w := Run(START, actions);
            && MarkerCount(w.log, m) <= 1
            && (m in w.receipts && w.receipts[m].stage in {Injected, Acknowledged} ==> MarkerCount(w.log, m) == 1)
  {
    var w := Run(START, actions);
    RunKeeps(actions);
    CountsMarkers(w.log, m);
    if m in w.receipts { assert ReceiptHolds(w, m); }
  }

  /** Receipts are never taken back: between any two moments of a run the version has
      grown by exactly the stages passed. */
  lemma {:induction false} ReceiptsCount(actions: seq<Action>, k: nat, m: Message)
    requires k <= |actions| && m in Run(START, actions[..k]).receipts
    ensures m in Run(START, actions).receipts
    ensures var before, after := Run(START, actions[..k]).receipts[m], Run(START, actions).receipts[m];
            && Rank(before.stage) <= Rank(after.stage)
            && after.version - before.version == Rank(after.stage) - Rank(before.stage)
  {
    var n := |actions|;
    if k == n {
      assert actions[..k] == actions;
    } else {
      assert actions[..n - 1][..k] == actions[..k];
      ReceiptsCount(actions[..n - 1], k, m);
      RunKeeps(actions[..n - 1]);
      ReceiptsMoveForward(Run(START, actions[..n - 1]), actions[n - 1], m);
    }
  }

  // ---- recovery ----

  lemma {:induction false} RunThen(w: World, actions: seq<Action>, a: Action)
    ensures Run(w, actions + [a]) == Step(Run(w, actions), a)
  {
    assert (actions + [a])[..|actions|] == actions;
  }

  /** A restart, then one undisturbed delivery. */
  function Redelivered(w: World, k: Worker, m: Message): World {
    var op := w.nextOperation;
    var fetched := Step(Step(w, Crash), Fetch(k, m));
    var decided := Step(Step(fetched, Receive(k, false)), Look(k));
    Step(Step(Flown(Step(decided, Inject(k)), op), Resume(k)), Mark(k))
  }

  lemma {:induction false} RedeliveryIsRun(start: World, before: seq<Action>, k: Worker, m: Message)
      returns (after: seq<Action>)
    ensures before <= after && Run(start, after) == Redelivered(Run(start, before), k, m)
  {
    var op := Run(start, before).nextOperation;
    var more := [Crash, Fetch(k, m), Receive(k, false), Look(k), Inject(k), Send(op), AppendMarker(op),
                 Settle(op, false), Resume(k), Mark(k)];
    after := before;
    ghost var w := Run(start, before);
    for i := 0 to |more|
      invariant before <= after && Run(start, after) == w
      invariant w == Performed(Run(start, before), more, i)
    {
      RunThen(start, after, more[i]);
      after := after + [more[i]];
      w := Step(w, more[i]);
    }
    TenSteps(Run(start, before), more);
  }

  function Performed(w: World, actions: seq<Action>, n: nat): World
    requires n <= |actions|
  {
    if n == 0 then w else Step(Performed(w, actions, n - 1), actions[n - 1])
  }

  lemma {:induction false} TenSteps(w: World, a: seq<Action>)
    requires |a| == 10
    ensures Performed(w, a, 10)
            == Step(Step(Step(Step(Step(Step(Step(Step(Step(Step(w, a[0]), a[1]), a[2]), a[3]), a[4]), a[5]), a[6]),
                              a[7]), a[8]), a[9])
  {
    assert Performed(w, a, 2) == Step(Step(w, a[0]), a[1]) by { assert Performed(w, a, 1) == Step(w, a[0]); }
    assert Performed(w, a, 4) == Step(Step(Performed(w, a, 2), a[2]), a[3]) by {
      assert Performed(w, a, 3) == Step(Performed(w, a, 2), a[2]);
    }
    assert Performed(w, a, 6) == Step(Step(Performed(w, a, 4), a[4]), a[5]) by {
      assert Performed(w, a, 5) == Step(Performed(w, a, 4), a[4]);
    }
    assert Performed(w, a, 8) == Step(Step(Performed(w, a, 6), a[6]), a[7]) by {
      assert Performed(w, a, 7) == Step(Performed(w, a, 6), a[6]);
    }
    assert Performed(w, a, 10) == Step(Step(Performed(w, a, 8), a[8]), a[9]) by {
      assert Performed(w, a, 9) == Step(Performed(w, a, 8), a[8]);
    }
  }

  /** Up to the decision: the receipt is received and the log has been looked at. */
  lemma {:induction false} RedeliveryDecides(w: World, k: Worker, m: Message)
    requires m in w.receipts && Rank(w.receipts[m].stage) <= 1
    ensures var decided := Step(Step(Step(Step(w, Crash), Fetch(k, m)), Receive(k, false)), Look(k));
            && m in decided.receipts && decided.receipts[m].stage == Received
            && decided.tasks == map[k := Deciding(m, decided.receipts[m], HasMarker(w.log, m))]
            && decided.log == w.log && decided.inFlight == map[] && decided.flights == map[]
            && decided.nextOperation == w.nextOperation
  {
  }

  function Flown(w: World, op: Operation): World {
    Step(Step(Step(w, Send(op)), AppendMarker(op)), Settle(op, false))
  }

  lemma {:induction false} NothingFlies(w: World, op: Operation)
    requires w.flights == map[]
    ensures Flown(w, op) == w
  {
  }

  lemma {:induction false} FlightSends(w: World, m: Message, op: Operation)
    requires w.flights == map[op := Flight(m, Looked(false))]
    ensures Step(w, Send(op)) == w.(flights := map[op := Flight(m, Sent)])
  {
  }

  lemma {:induction false} FlightAppends(w: World, m: Message, op: Operation)
    requires w.flights == map[op := Flight(m, Sent)]
    ensures Step(w, AppendMarker(op)) == w.(flights := map[op := Flight(m, Appended)], log := w.log + [Marker(m)])
  {
  }

  lemma {:induction false} FlightSettles(w: World, m: Message, op: Operation)
    requires w.flights == map[op := Flight(m, Appended)] && HasMarker(w.log, m)
    ensures Step(w, Settle(op, false)) == w.(flights := map[op := Flight(m, Settled(true))])
  {
  }

  lemma {:induction false} FlightSucceeds(w: World, m: Message, op: Operation)
    requires w.flights == map[op := Flight(m, Looked(false))]
    ensures Flown(w, op) == w.(flights := map[op := Flight(m, Settled(true))], log := w.log + [Marker(m)])
  {
    FlightSends(w, m, op);
    var sent := w.(flights := map[op := Flight(m, Sent)]);
    FlightAppends(sent, m, op);
    var appended := sent.(flights := map[op := Flight(m, Appended)], log := w.log + [Marker(m)]);
    LogAppend(w.log, Marker(m), m);
    FlightSettles(appended, m, op);
  }

  lemma {:induction false} WaitingMarks(w: World, k: Worker, m: Message, op: Operation)
    requires m in w.receipts && w.receipts[m].stage == Received
    requires w.tasks == map[k := Waiting(m, w.receipts[m], op)] && op in w.flights
    requires w.flights[op].phase == Settled(true)
    ensures Step(w, Resume(k)).tasks == map[k := Marking(m, w.receipts[m])] && Step(w, Resume(k)).receipts == w.receipts
  {
  }

  lemma {:induction false} MarkingMarks(w: World, k: Worker, m: Message)
    requires m in w.receipts && w.tasks == map[k := Marking(m, w.receipts[m])]
    ensures Step(w, Resume(k)) == w
    ensures m in Step(w, Mark(k)).receipts && Step(w, Mark(k)).receipts[m] == Advanced(w.receipts[m])
  {
  }

  lemma {:induction false} DecisionMarks(w: World, k: Worker, m: Message)
    requires m in w.receipts && w.receipts[m].stage == Received
    requires w.tasks == map[k := Deciding(m, w.receipts[m], HasMarker(w.log, m))]
    requires w.inFlight == map[] && w.flights == map[]
    ensures var marked := Step(Step(Flown(Step(w, Inject(k)), w.nextOperation), Resume(k)), Mark(k));
            m in marked.receipts && marked.receipts[m] == Advanced(w.receipts[m])
  {
    var op, injected := w.nextOperation, Step(w, Inject(k));
    if HasMarker(w.log, m) {
      assert injected == w.(tasks := map[k := Marking(m, w.receipts[m])]);
      NothingFlies(injected, op);
      MarkingMarks(injected, k, m);
    } else {
      assert injected.flights == map[op := Flight(m, Looked(false))];
      FlightSucceeds(injected, m, op);
      WaitingMarks(Flown(injected, op), k, m, op);
      MarkingMarks(Step(Flown(injected, op), Resume(k)), k, m);
    }
  }

  /** Whatever has happened before: after a restart one undisturbed delivery leaves a
      message that was not yet injected marked injected, with exactly one marker. */
  lemma {:induction false} RestartDelivers(actions: seq<Action>, k: Worker, m: Message) returns (after: seq<Action>)
    requires m in Run(START, actions).receipts && Rank(Run(START, actions).receipts[m].stage) <= 1
    ensures actions <= after && m in Run(START, after).receipts
    ensures Run(START, after).receipts[m].stage == Injected && MarkerCount(Run(START, after).log, m) == 1
  {
    var w := Run(START, actions);
    after := RedeliveryIsRun(START, actions, k, m);
    RedeliveryDecides(w, k, m);
    DecisionMarks(Step(Step(Step(Step(w, Crash), Fetch(k, m)), Receive(k, false)), Look(k)), k, m);
    EffectivelyOnce(after, m);
  }
}
