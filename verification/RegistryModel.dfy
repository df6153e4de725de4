/**
 * The connection registry as a step system.
 *
 * Every DashMap call and every atomic counter update of `Registry` is one step.
 * A guard that the code keeps across several calls (the reverse-map guard of
 * `subscribe`, the stream guard and the connection guard of the fan-out loop) is
 * part of the task's program counter and blocks the steps that need its shard.
 * Which keys share a shard is left open: every result holds for any assignment.
 *
 * Tasks: one handler task per allocated id, and one fan-out task.  A handler
 * registers once, then subscribes and unsubscribes one call at a time, then
 * deregisters once.  The fan-out task may deregister the same id at the same time.
 *
 * The lists of the two indexes are bags: the code compares, counts and removes their
 * elements but its results do not depend on their order, so a step that walks a list
 * may pick any element left in it.
 */
module RegistryModel {
  type ConnId = int
  /** A stream key; the registry only compares keys. */
  datatype Stream = Stream(name: string)
  type Msg = nat

  /** Progress of one call to `deregister`. */
  datatype Dereg =
    | TakeList                                          // before conn_streams.remove
    | Scrub(pending: multiset<Stream>)                       // streams still to be cleaned
    | Reap(stream: Stream, pending: multiset<Stream>)        // saw an empty list, before remove_if
    | Decrement                                         // removed the entry, before fetch_sub
    | Finished

  /** Program counter of a connection's own task. */
  datatype Handler =
    | Allocated
    | Inserted                      // register: after connections.insert
    | Indexed                       // register: after conn_streams.insert
    | Idle
    | SubHeld(stream: Stream)       // subscribe: holds the reverse-map guard
    | SubPushed(stream: Stream)     // subscribe: pushed to the stream, guard still held
    | UnsubReap(stream: Stream)     // unsubscribe: saw an empty list, before remove_if
    | UnsubReverse(stream: Stream)  // unsubscribe: before the reverse-map retain
    | Leaving(dereg: Dereg)

  /** Program counter of the fan-out task. */
  datatype Fan =
    | Between(evicted: multiset<ConnId>)   // no guard held; these still have to be deregistered
    | Iterating(stream: Stream, msg: Msg, todo: multiset<ConnId>, evicted: multiset<ConnId>)
    | Sending(stream: Stream, msg: Msg, conn: ConnId, todo: multiset<ConnId>, evicted: multiset<ConnId>)
    | Evicting(conn: ConnId, dereg: Dereg, evicted: multiset<ConnId>)  // deregistering conn, others left

  /** The shared memory: three maps and the counter. */
  datatype Shared = Shared(
    connections: set<ConnId>,
    streams: map<Stream, multiset<ConnId>>,
    connStreams: map<ConnId, multiset<Stream>>,
    active: int)

  /** One subscription: how much of the stream had been fanned out when it began, and what it accepted since. */
  datatype Sub = Sub(epoch: nat, start: nat, got: seq<Msg>)

  /** Observations only; no step reads them. */
  datatype History = History(
    fanned: map<Stream, seq<Msg>>,
    subs: map<(ConnId, Stream), Sub>,
    failed: set<ConnId>,
    epochs: nat)

  datatype State = State(
    shared: Shared,
    nextId: ConnId,
    tasks: map<ConnId, Handler>,
    fan: Fan,
    history: History)

  /** Shard of each key in the three maps. */
  datatype Shards = Shards(ofConn: ConnId -> nat, ofList: ConnId -> nat, ofStream: Stream -> nat)

  datatype Step =
    | Allocate
    | RegInsert(c: ConnId)
    | RegIndex(c: ConnId)
    | RegCount(c: ConnId)
    | SubBegin(c: ConnId, s: Stream)
    | SubPush(c: ConnId)
    | SubRecord(c: ConnId)
    | UnsubBegin(c: ConnId, s: Stream)
    | UnsubRemoveIf(c: ConnId)
    | UnsubRecord(c: ConnId)
    | Leave(c: ConnId)
    | LeaveStep(c: ConnId, pick: Stream)
    | FanBegin(s: Stream, m: Msg)
    | FanLookup(c: ConnId)
    | FanSend(ok: bool)
    | FanRelease
    | FanEvict(c: ConnId)
    | FanEvictStep(pick: Stream)

  const INIT := State(
    Shared({}, map[], map[], 0), 1, map[], Between(multiset{}), History(map[], map[], {}, 0))

  // ---------------------------------------------------------------------------
  // Reading the state
  // ---------------------------------------------------------------------------

  /** The streams that list c. */
  function StreamsOf(streams: map<Stream, multiset<ConnId>>, c: ConnId): set<Stream> {
    set s | s in streams && c in streams[s]
  }

  predicate Is(tasks: map<ConnId, Handler>, c: ConnId, h: Handler) {
    c in tasks && tasks[c] == h
  }

  predicate HoldsList(h: Handler) {
    h.SubHeld? || h.SubPushed?
  }

  function Fanned(hist: History, s: Stream): seq<Msg> {
    if s in hist.fanned then hist.fanned[s] else []
  }

  function PendingOf(d: Dereg): multiset<Stream> {
    if d.Scrub? || d.Reap? then d.pending else multiset{}
  }

  predicate FanOnStream(fan: Fan) {
    fan.Iterating? || fan.Sending?
  }

  /** The reverse-map shard of c is not held by a subscribe in progress. */
  ghost predicate ListFree(sh: Shards, st: State, c: ConnId) {
    forall o :: o in st.tasks && HoldsList(st.tasks[o]) ==> sh.ofList(o) != sh.ofList(c)
  }

  /** The stream shard of s is not held by the fan-out loop. */
  predicate StreamFree(sh: Shards, st: State, s: Stream) {
    FanOnStream(st.fan) ==> sh.ofStream(st.fan.stream) != sh.ofStream(s)
  }

  /** The connection shard of c is not held by the fan-out loop. */
  predicate ConnFree(sh: Shards, st: State, c: ConnId) {
    st.fan.Sending? ==> sh.ofConn(st.fan.conn) != sh.ofConn(c)
  }

  // ---------------------------------------------------------------------------
  // Operations on the shared maps
  // ---------------------------------------------------------------------------

  /** `get_mut(stream)` and `retain`; a missing stream is left alone. */
  function ScrubStream(sh: Shared, c: ConnId, s: Stream): (r: Shared)
    ensures forall o :: StreamsOf(r.streams, o) == StreamsOf(sh.streams, o) - (if o == c then {s} else {})
  {
    if s in sh.streams then sh.(streams := sh.streams[s := sh.streams[s][c := 0]]) else sh
  }

  /** The emptiness test of `remove_subscriber_from_stream`, stale once its guard is gone. */
  predicate SawEmpty(sh: Shared, c: ConnId, s: Stream) {
    s in sh.streams && sh.streams[s][c := 0] == multiset{}
  }

  /** `remove_if(stream, is_empty)` never takes a subscriber away. */
  function RemoveIfEmpty(sh: Shared, s: Stream): (r: Shared)
    ensures forall o :: StreamsOf(r.streams, o) == StreamsOf(sh.streams, o)
  {
    if s in sh.streams && sh.streams[s] == multiset{} then sh.(streams := sh.streams - {s}) else sh
  }

  /** `entry(stream).or_default().push(c)`. */
  function PushSubscriber(sh: Shared, c: ConnId, s: Stream): (r: Shared)
    ensures forall o :: StreamsOf(r.streams, o) == StreamsOf(sh.streams, o) + (if o == c then {s} else {})
  {
    sh.(streams := sh.streams[s := (if s in sh.streams then sh.streams[s] else multiset{}) + multiset{c}])
  }

  /** `get_mut(c)` on the reverse map and `retain`; a missing entry is left alone. */
  function ForgetStream(sh: Shared, c: ConnId, s: Stream): Shared {
    if c in sh.connStreams then sh.(connStreams := sh.connStreams[c := sh.connStreams[c][s := 0]]) else sh
  }

  /** Is this next step of a deregister of c possible?  `pick` is the pending stream it cleans. */
  ghost predicate DeregReady(sh: Shards, st: State, c: ConnId, d: Dereg, pick: Stream) {
    match d
    case TakeList => ListFree(sh, st, c)
    case Scrub(p) => if p != multiset{} then pick in p && StreamFree(sh, st, pick) else ConnFree(sh, st, c)
    case Reap(s, _) => StreamFree(sh, st, s)
    case Decrement => true
    case Finished => false
  }

  function DeregShared(sh: Shared, c: ConnId, d: Dereg, pick: Stream): Shared {
    match d
    case TakeList => sh.(connStreams := sh.connStreams - {c})
    case Scrub(p) => if p != multiset{} then ScrubStream(sh, c, pick) else sh.(connections := sh.connections - {c})
    case Reap(s, _) => RemoveIfEmpty(sh, s)
    case Decrement => sh.(active := sh.active - 1)
    case Finished => sh
  }

  function DeregNext(sh: Shared, c: ConnId, d: Dereg, pick: Stream): Dereg {
    match d
    case TakeList => Scrub(if c in sh.connStreams then sh.connStreams[c] else multiset{})
    case Scrub(p) =>
      if p != multiset{} then
        var rest := p - multiset{pick};
        if SawEmpty(sh, c, pick) then Reap(pick, rest) else Scrub(rest)
      else if c in sh.connections then Decrement
      else Finished
    case Reap(_, p) => Scrub(p)
    case Decrement => Finished
    case Finished => Finished
  }

  // ---------------------------------------------------------------------------
  // Steps
  // ---------------------------------------------------------------------------

  ghost predicate Enabled(sh: Shards, st: State, step: Step) {
    match step
    case Allocate => true
    case RegInsert(c) => Is(st.tasks, c, Allocated) && ConnFree(sh, st, c)
    case RegIndex(c) => Is(st.tasks, c, Inserted) && ListFree(sh, st, c)
    case RegCount(c) => Is(st.tasks, c, Indexed)
    case SubBegin(c, s) => Is(st.tasks, c, Idle) && ListFree(sh, st, c)
    case SubPush(c) => c in st.tasks && st.tasks[c].SubHeld? && StreamFree(sh, st, st.tasks[c].stream)
    case SubRecord(c) => c in st.tasks && st.tasks[c].SubPushed?
    case UnsubBegin(c, s) => Is(st.tasks, c, Idle) && StreamFree(sh, st, s)
    case UnsubRemoveIf(c) => c in st.tasks && st.tasks[c].UnsubReap? && StreamFree(sh, st, st.tasks[c].stream)
    case UnsubRecord(c) => c in st.tasks && st.tasks[c].UnsubReverse? && ListFree(sh, st, c)
    case Leave(c) => Is(st.tasks, c, Idle)
    case LeaveStep(c, pick) => c in st.tasks && st.tasks[c].Leaving? && DeregReady(sh, st, c, st.tasks[c].dereg, pick)
    case FanBegin(s, m) => st.fan == Between(multiset{})
    case FanLookup(c) => st.fan.Iterating? && c in st.fan.todo
    case FanSend(ok) => st.fan.Sending?
    case FanRelease => st.fan.Iterating? && st.fan.todo == multiset{}
    case FanEvict(c) => st.fan.Between? && c in st.fan.evicted
    case FanEvictStep(pick) => st.fan.Evicting? && DeregReady(sh, st, st.fan.conn, st.fan.dereg, pick)
  }

  function SetTask(st: State, c: ConnId, h: Handler): State {
    st.(tasks := st.tasks[c := h])
  }

  function OpenSub(hist: History, c: ConnId, s: Stream): History {
    hist.(subs := hist.subs[(c, s) := Sub(hist.epochs, |Fanned(hist, s)|, [])], epochs := hist.epochs + 1)
  }

  /** Outcome of `try_send` on a live queue: accepted, or failed and signalled for eviction. */
  function Deliver(hist: History, c: ConnId, s: Stream, m: Msg, ok: bool): History {
    if !ok then hist.(failed := hist.failed + {c})
    else if (c, s) in hist.subs then
      hist.(subs := hist.subs[(c, s) := hist.subs[(c, s)].(got := hist.subs[(c, s)].got + [m])])
    else hist
  }

  /** What happens to the state; `Allocate` hands out `nextId`, so ids are never reused. */
  function Apply(st: State, step: Step): State {
    match step
    case Allocate => SetTask(st, st.nextId, Allocated).(nextId := st.nextId + 1)
    case RegInsert(c) =>
      SetTask(st, c, Inserted).(shared := st.shared.(connections := st.shared.connections + {c}))
    case RegIndex(c) =>
      SetTask(st, c, Indexed).(shared := st.shared.(connStreams := st.shared.connStreams[c := multiset{}]))
    case RegCount(c) => SetTask(st, c, Idle).(shared := st.shared.(active := st.shared.active + 1))
    case SubBegin(c, s) =>
      if c !in st.shared.connStreams || s in st.shared.connStreams[c] then st
      else SetTask(st, c, SubHeld(s))
    case SubPush(c) => ApplySubPush(st, c)
    case SubRecord(c) => ApplySubRecord(st, c)
    case UnsubBegin(c, s) =>
      SetTask(st, c, if SawEmpty(st.shared, c, s) then UnsubReap(s) else UnsubReverse(s))
        .(shared := ScrubStream(st.shared, c, s))
    case UnsubRemoveIf(c) => ApplyUnsubRemoveIf(st, c)
    case UnsubRecord(c) => ApplyUnsubRecord(st, c)
    case Leave(c) => SetTask(st, c, Leaving(TakeList))
    case LeaveStep(c, pick) => ApplyLeaveStep(st, c, pick)
    case FanBegin(s, m) => ApplyFanBegin(st, s, m)
    case FanLookup(c) => ApplyFanLookup(st, c)
    case FanSend(ok) => ApplyFanSend(st, ok)
    case FanRelease => if st.fan.Iterating? then st.(fan := Between(st.fan.evicted)) else st
    case FanEvict(c) =>
      if st.fan.Between? then st.(fan := Evicting(c, TakeList, st.fan.evicted - multiset{c})) else st
    case FanEvictStep(pick) => ApplyFanEvictStep(st, pick)
  }

  function ApplySubPush(st: State, c: ConnId): State {
    if c in st.tasks && st.tasks[c].SubHeld? then
      var s := st.tasks[c].stream;
      SetTask(st, c, SubPushed(s)).(shared := PushSubscriber(st.shared, c, s), history := OpenSub(st.history, c, s))
    else st
  }

  function ApplySubRecord(st: State, c: ConnId): State {
    if c in st.tasks && st.tasks[c].SubPushed? && c in st.shared.connStreams then
      SetTask(st, c, Idle).(shared := st.shared.(
        connStreams := st.shared.connStreams[c := st.shared.connStreams[c] + multiset{st.tasks[c].stream}]))
    else st
  }

  function ApplyUnsubRemoveIf(st: State, c: ConnId): State {
    if c in st.tasks && st.tasks[c].UnsubReap? then
      SetTask(st, c, UnsubReverse(st.tasks[c].stream)).(shared := RemoveIfEmpty(st.shared, st.tasks[c].stream))
    else st
  }

  function ApplyUnsubRecord(st: State, c: ConnId): State {
    if c in st.tasks && st.tasks[c].UnsubReverse? then
      SetTask(st, c, Idle).(shared := ForgetStream(st.shared, c, st.tasks[c].stream))
    else st
  }

  /** `streams.get(stream)`: the read guard is kept while the subscriber list is walked. */
  function ApplyFanBegin(st: State, s: Stream, m: Msg): State {
    var hist := st.history.(fanned := st.history.fanned[s := Fanned(st.history, s) + [m]]);
    st.(history := hist,
        fan := if s in st.shared.streams then Iterating(s, m, st.shared.streams[s], multiset{})
               else Between(multiset{}))
  }

  function ApplyLeaveStep(st: State, c: ConnId, pick: Stream): State {
    if c in st.tasks && st.tasks[c].Leaving? then
      SetTask(st, c, Leaving(DeregNext(st.shared, c, st.tasks[c].dereg, pick)))
        .(shared := DeregShared(st.shared, c, st.tasks[c].dereg, pick))
    else st
  }

  function ApplyFanLookup(st: State, c: ConnId): State {
    if st.fan.Iterating? then
      var Iterating(s, m, todo, evicted) := st.fan;
      st.(fan := if c in st.shared.connections
                 then Sending(s, m, c, todo - multiset{c}, evicted)
                 else Iterating(s, m, todo - multiset{c}, evicted))
    else st
  }

  function ApplyFanSend(st: State, ok: bool): State {
    if st.fan.Sending? then
      var Sending(s, m, c, todo, evicted) := st.fan;
      st.(fan := Iterating(s, m, todo, if ok then evicted else evicted + multiset{c}),
          history := Deliver(st.history, c, s, m, ok))
    else st
  }

  function ApplyFanEvictStep(st: State, pick: Stream): State {
    if st.fan.Evicting? then
      var Evicting(c, d, evicted) := st.fan;
      var next := DeregNext(st.shared, c, d, pick);
      st.(shared := DeregShared(st.shared, c, d, pick),
          fan := if next.Finished? then Between(evicted) else Evicting(c, next, evicted))
    else st
  }

  // ---------------------------------------------------------------------------
  // Runs
  // ---------------------------------------------------------------------------

  /** Every step of the run is enabled where it is taken. */
  ghost predicate ValidRun(sh: Shards, st: State, run: seq<Step>)
    decreases |run|
  {
    run == [] || (Enabled(sh, st, run[0]) && ValidRun(sh, Apply(st, run[0]), run[1..]))
  }

  function Execute(st: State, run: seq<Step>): State
    decreases |run|
  {
    if run == [] then st else Execute(Apply(st, run[0]), run[1..])
  }

  /** Steps that begin a new call; every other step continues one already in progress. */
  predicate BeginsCall(step: Step) {
    step.Allocate? || step.SubBegin? || step.UnsubBegin? || step.Leave? || step.FanBegin?
  }

  /** No call is in progress. */
  ghost predicate Quiescent(st: State) {
    && st.fan == Between(multiset{})
    && (forall c :: c in st.tasks ==> st.tasks[c].Idle? || st.tasks[c] == Leaving(Finished))
  }
}
