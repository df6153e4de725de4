/**
 * The background replay tasks and the semaphore that bounds them: who holds a permit, the
 * in-flight gauge, the outcome counters and the one answer each task owes its client, over every
 * interleaving.
 */
module ReplayTasks {
  import opened Lists

  /** How `replay_since` can come back. */
  datatype Result = Complete | PeerGone | WindowExceeded | Truncated | JetStreamError

  datatype Task =
    | Queued                      // waiting for a permit
    | Running                     // permit held, gauge counted
    | Answering(result: Result)   // gauge and outcome counted; the answer is being sent, permit still held
    | Done(result: Result)
    | Aborted                     // the semaphore was closed

  datatype State = State(
    available: int,
    closed: bool,
    inFlight: int,
    counters: map<Result, nat>,   // one outcome counter per result
    confirms: nat,
    disconnects: nat,
    tasks: map<int, Task>,
    nextId: int)

  datatype Step =
    | Spawn
    | Acquire(t: int)
    | Abort(t: int)
    | Finish(t: int, result: Result)
    | Answer(t: int)              // and the permit is dropped
    | Close

  function Init(permits: nat): State {
    State(permits, false, 0, map[], 0, 0, map[], 0)
  }

  function Counter(st: State, r: Result): nat {
    if r in st.counters then st.counters[r] else 0
  }

  predicate At(st: State, t: int, task: Task) {
    t in st.tasks && st.tasks[t] == task
  }

  predicate Enabled(st: State, step: Step) {
    match step
    case Spawn => true
    case Acquire(t) => At(st, t, Queued) && !st.closed && st.available > 0
    case Abort(t) => At(st, t, Queued) && st.closed
    case Finish(t, _) => At(st, t, Running)
    case Answer(t) => t in st.tasks && st.tasks[t].Answering?
    case Close => true
  }

  /** The client hears of a confirmation after success or a JetStream error, of a disconnect after a gap or a cut. */
  predicate Confirms(r: Result) {
    r == Complete || r == JetStreamError
  }

  predicate Disconnects(r: Result) {
    r == WindowExceeded || r == Truncated
  }

  function Move(st: State, t: int, task: Task): State {
    st.(tasks := st.tasks[t := task])
  }

  function Apply(st: State, step: Step): State {
    match step
    case Spawn => Move(st, st.nextId, Queued).(nextId := st.nextId + 1)
    case Acquire(t) => Move(st, t, Running).(available := st.available - 1, inFlight := st.inFlight + 1)
    case Abort(t) => Move(st, t, Aborted)
    case Finish(t, r) =>
      Move(st, t, Answering(r)).(inFlight := st.inFlight - 1, counters := st.counters[r := Counter(st, r) + 1])
    case Answer(t) =>
      if t !in st.tasks || !st.tasks[t].Answering? then st
      else
        var r := st.tasks[t].result;
        Move(st, t, Done(r)).(available := st.available + 1,
                              confirms := st.confirms + (if Confirms(r) then 1 else 0),
                              disconnects := st.disconnects + (if Disconnects(r) then 1 else 0))
    case Close => st.(closed := true)
  }

  ghost predicate ValidRun(st: State, run: seq<Step>)
    decreases |run|
  {
    run == [] || (Enabled(st, run[0]) && ValidRun(Apply(st, run[0]), run[1..]))
  }

  function Execute(st: State, run: seq<Step>): State
    decreases |run|
  {
    if run == [] then st else Execute(Apply(st, run[0]), run[1..])
  }

  // ---------------------------------------------------------------------------
  // Conservation
  // ---------------------------------------------------------------------------

  datatype Kind = Waiting | InFlight | HoldsPermit | EndedAs(result: Result) | Confirmed | Disconnected

  predicate Is(task: Task, kind: Kind) {
    match kind
    case Waiting => task.Queued?
    case InFlight => task.Running?
    case HoldsPermit => task.Running? || task.Answering?
    case EndedAs(r) => (task.Answering? || task.Done?) && task.result == r
    case Confirmed => task.Done? && Confirms(task.result)
    case Disconnected => task.Done? && Disconnects(task.result)
  }

  ghost function Those(tasks: map<int, Task>, kind: Kind): (r: set<int>)
    ensures forall t :: t in r <==> t in tasks && Is(tasks[t], kind)
  {
    set t | t in tasks && Is(tasks[t], kind)
  }

  ghost predicate Inv(permits: nat, st: State) {
    && (forall t :: t in st.tasks ==> t < st.nextId)
    && st.available + |Those(st.tasks, HoldsPermit)| == permits && st.available >= 0
    && st.inFlight == |Those(st.tasks, InFlight)|
    && (forall r :: Counter(st, r) == |Those(st.tasks, EndedAs(r))|)
    && st.confirms == |Those(st.tasks, Confirmed)|
    && st.disconnects == |Those(st.tasks, Disconnected)|
  }

  /** Changing one task changes the count of a kind by whether it was, and is, of that kind. */
  lemma CountStep(tasks: map<int, Task>, t: int, task: Task, kind: Kind)
    ensures |Those(tasks[t := task], kind)| - |Those(tasks, kind)| ==
            (if Is(task, kind) then 1 else 0) - (if t in tasks && Is(tasks[t], kind) then 1 else 0)
  {
    assert Those(tasks[t := task], kind) - {t} == Those(tasks, kind) - {t};
    CardToggle(Those(tasks, kind), Those(tasks[t := task], kind), t);
  }

  lemma StepKeepsInv(permits: nat, st: State, step: Step)
    requires Inv(permits, st) && Enabled(st, step)
    ensures Inv(permits, Apply(st, step))
  {
    if !step.Close? {
      var next, t := Apply(st, step), if step.Spawn? then st.nextId else step.t;
      var task := next.tasks[t];
      assert next.tasks == st.tasks[t := task];
      CountStep(st.tasks, t, task, HoldsPermit);
      CountStep(st.tasks, t, task, InFlight);
      CountStep(st.tasks, t, task, Confirmed);
      CountStep(st.tasks, t, task, Disconnected);
      forall r ensures Counter(next, r) == |Those(next.tasks, EndedAs(r))| {
        CountStep(st.tasks, t, task, EndedAs(r));
      }
    }
  }

  lemma {:induction false} RunKeepsInv(permits: nat, st: State, run: seq<Step>)
    requires Inv(permits, st) && ValidRun(st, run)
    ensures Inv(permits, Execute(st, run))
    decreases |run|
  {
    if run != [] {
      StepKeepsInv(permits, st, run[0]);
      RunKeepsInv(permits, Apply(st, run[0]), run[1..]);
    }
  }

  /** How often a replay came back with r. */
  function Returned(run: seq<Step>, r: Result): nat {
    if run == [] then 0 else (if run[0].Finish? && run[0].result == r then 1 else 0) + Returned(run[1..], r)
  }

  /** Each outcome counter is the number of replays that came back that way. */
  lemma {:induction false} OutcomesCounted(st: State, run: seq<Step>, r: Result)
    requires ValidRun(st, run)
    ensures Counter(Execute(st, run), r) == Counter(st, r) + Returned(run, r)
    decreases |run|
  {
    if run != [] {
      OutcomesCounted(Apply(st, run[0]), run[1..], r);
    }
  }

  lemma Reachable(permits: nat, run: seq<Step>)
    requires ValidRun(Init(permits), run)
    ensures Inv(permits, Execute(Init(permits), run))
  {
    assert forall kind :: Those(map[], kind) == {};
    RunKeepsInv(permits, Init(permits), run);
  }

  lemma Subset(a: set<int>, b: set<int>)
    requires a <= b
    ensures |a| <= |b|
  {
    assert b == a + (b - a);
  }

  /** The gauge is the number of replays running, and never exceeds the permits. */
  lemma InFlightBounded(permits: nat, run: seq<Step>)
    requires ValidRun(Init(permits), run)
    ensures
      var st := Execute(Init(permits), run);
      st.inFlight == |Those(st.tasks, InFlight)| <= permits
  {
    Reachable(permits, run);
    var st := Execute(Init(permits), run);
    Subset(Those(st.tasks, InFlight), Those(st.tasks, HoldsPermit));
  }

  // ---------------------------------------------------------------------------
  // When everything has come to rest
  // ---------------------------------------------------------------------------

  /** No task can move. */
  ghost predicate AtRest(st: State) {
    forall step: Step :: !step.Spawn? && !step.Close? ==> !Enabled(st, step)
  }

  predicate Over(task: Task) {
    task.Done? || task.Aborted?
  }

  ghost predicate AllOver(tasks: map<int, Task>) {
    forall t :: t in tasks ==> Over(tasks[t])
  }

  lemma RestingTasks(permits: nat, st: State)
    requires Inv(permits, st) && AtRest(st) && (permits > 0 || st.closed)
    ensures AllOver(st.tasks)
  {
    forall t | t in st.tasks ensures Over(st.tasks[t]) {
      assert !Enabled(st, Finish(t, Complete)) && !Enabled(st, Answer(t));
      assert !Enabled(st, Acquire(t)) && !Enabled(st, Abort(t));
      if st.available == 0 && permits > 0 {
        var holders := Those(st.tasks, HoldsPermit);
        var h := Pick(holders);
        assert !Enabled(st, Finish(h, Complete)) && !Enabled(st, Answer(h));
      }
    }
  }

  lemma None(tasks: map<int, Task>, kind: Kind)
    requires AllOver(tasks) && (kind == HoldsPermit || kind == InFlight)
    ensures |Those(tasks, kind)| == 0
  {
    var those := Those(tasks, kind);
    if |those| > 0 {
      var t := Pick(those);
    }
  }

  lemma Confirmations(tasks: map<int, Task>)
    requires AllOver(tasks)
    ensures |Those(tasks, Confirmed)| == |Those(tasks, EndedAs(Complete))| + |Those(tasks, EndedAs(JetStreamError))|
  {
    var a, b, c := Those(tasks, EndedAs(Complete)), Those(tasks, EndedAs(JetStreamError)), Those(tasks, Confirmed);
    forall t ensures t in c <==> t in a || t in b {
      assert t in tasks ==> Over(tasks[t]);
    }
    CardSum(a, b, c);
  }

  lemma Disconnections(tasks: map<int, Task>)
    requires AllOver(tasks)
    ensures |Those(tasks, Disconnected)| == |Those(tasks, EndedAs(WindowExceeded))| + |Those(tasks, EndedAs(Truncated))|
  {
    var a, b, c := Those(tasks, EndedAs(WindowExceeded)), Those(tasks, EndedAs(Truncated)), Those(tasks, Disconnected);
    forall t ensures t in c <==> t in a || t in b {
      assert t in tasks ==> Over(tasks[t]);
    }
    CardSum(a, b, c);
  }

  lemma AnswersBalance(permits: nat, st: State)
    requires Inv(permits, st) && AllOver(st.tasks)
    ensures st.available == permits && st.inFlight == 0
    ensures st.confirms == Counter(st, Complete) + Counter(st, JetStreamError)
    ensures st.disconnects == Counter(st, WindowExceeded) + Counter(st, Truncated)
  {
    None(st.tasks, HoldsPermit);
    None(st.tasks, InFlight);
    Confirmations(st.tasks);
    Disconnections(st.tasks);
  }

  ghost predicate AllQueued(tasks: map<int, Task>) {
    forall t :: t in tasks ==> tasks[t].Queued?
  }

  lemma {:induction false} ClosedStays(st: State, run: seq<Step>)
    requires st.closed
    ensures Execute(st, run).closed
    decreases |run|
  {
    if run != [] {
      ClosedStays(Apply(st, run[0]), run[1..]);
    }
  }

  /** Without permits no task gets past the semaphore while it is open. */
  lemma {:induction false} NeverStarted(st: State, run: seq<Step>)
    requires ValidRun(st, run) && st.available == 0 && AllQueued(st.tasks) && !Execute(st, run).closed
    ensures AllQueued(Execute(st, run).tasks)
    decreases |run|
  {
    if run != [] {
      if st.closed || run[0].Close? {
        ClosedStays(Apply(st, run[0]), run[1..]);
      }
      NeverStarted(Apply(st, run[0]), run[1..]);
    }
  }

  /**
   * When no task can move, every task is over, every permit is back, the gauge is at zero and each
   * outcome counted is matched by the one answer it calls for; with no permits configured, tasks
   * wait for ever instead, and that is the only exception.
   */
  lemma RestMeansSettled(permits: nat, run: seq<Step>)
    requires ValidRun(Init(permits), run) && AtRest(Execute(Init(permits), run))
    ensures
      var st := Execute(Init(permits), run);
      && (AllOver(st.tasks) <==> permits > 0 || st.closed || st.tasks == map[])
      && (AllOver(st.tasks) ==>
            && st.available == permits && st.inFlight == 0
            && st.confirms == Counter(st, Complete) + Counter(st, JetStreamError)
            && st.disconnects == Counter(st, WindowExceeded) + Counter(st, Truncated))
  {
    Reachable(permits, run);
    var st := Execute(Init(permits), run);
    if permits > 0 || st.closed {
      RestingTasks(permits, st);
    } else {
      NeverStarted(Init(permits), run);
      if st.tasks != map[] {
        var t := Pick(st.tasks.Keys);
        assert !Over(st.tasks[t]);
      }
    }
    if AllOver(st.tasks) {
      AnswersBalance(permits, st);
    }
  }

  // ---------------------------------------------------------------------------
  // Coming to rest
  // ---------------------------------------------------------------------------

  /** The moves a state's tasks have left between them: three for one that waits, two running, one answering. */
  ghost function Load(st: State): nat {
    3 * |Those(st.tasks, Waiting)| + |Those(st.tasks, InFlight)| + |Those(st.tasks, HoldsPermit)|
  }

  /** A step some task takes, rather than one the server takes. */
  predicate IsMove(step: Step) {
    !step.Spawn? && !step.Close?
  }

  function Moves(run: seq<Step>): nat {
    if run == [] then 0 else (if IsMove(run[0]) then 1 else 0) + Moves(run[1..])
  }

  function Spawns(run: seq<Step>): nat {
    if run == [] then 0 else (if run[0].Spawn? then 1 else 0) + Spawns(run[1..])
  }

  lemma StepLoad(st: State, step: Step)
    requires Enabled(st, step) && st.nextId !in st.tasks
    ensures
      var next := Apply(st, step);
      && (IsMove(step) ==> Load(next) < Load(st))
      && (step.Spawn? ==> Load(next) == Load(st) + 3)
      && (step.Close? ==> Load(next) == Load(st))
  {
    if !step.Close? {
      var next, t := Apply(st, step), if step.Spawn? then st.nextId else step.t;
      var task := next.tasks[t];
      assert next.tasks == st.tasks[t := task];
      CountStep(st.tasks, t, task, Waiting);
      CountStep(st.tasks, t, task, InFlight);
      CountStep(st.tasks, t, task, HoldsPermit);
    }
  }

  /** However the tasks are scheduled, three moves for each one spawned are all they can make. */
  lemma {:induction false} MovesBounded(permits: nat, st: State, run: seq<Step>)
    requires Inv(permits, st) && ValidRun(st, run)
    ensures Moves(run) + Load(Execute(st, run)) <= Load(st) + 3 * Spawns(run)
    decreases |run|
  {
    if run != [] {
      StepLoad(st, run[0]);
      StepKeepsInv(permits, st, run[0]);
      MovesBounded(permits, Apply(st, run[0]), run[1..]);
    }
  }

  /** From any state the tasks can come to rest, and do once they have no move left. */
  lemma {:induction false} Settles(permits: nat, st: State) returns (run: seq<Step>)
    requires Inv(permits, st)
    ensures ValidRun(st, run) && AtRest(Execute(st, run)) && |run| == Moves(run) <= Load(st)
    decreases Load(st)
  {
    if AtRest(st) {
      run := [];
    } else {
      var step :| IsMove(step) && Enabled(st, step);
      StepLoad(st, step);
      StepKeepsInv(permits, st, step);
      var rest := Settles(permits, Apply(st, step));
      run := [step] + rest;
      assert run[1..] == rest;
    }
  }
}
