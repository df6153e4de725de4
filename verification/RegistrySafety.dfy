/**
 * What every step of the registry keeps, whatever the interleaving.
 *
 * The invariant is stated per connection, on the view the shared maps and the two
 * tasks that may act on the connection give of it.  A step changes one view.
 */
module RegistrySafety {
  import opened Lists
  import opened Wrappers
  import opened RegistryModel

  /** One connection: its task, its table entry, its reverse entry, the streams listing it, its eviction. */
  datatype View = View(
    pc: Handler,
    inTable: bool,
    list: Option<multiset<Stream>>,
    listed: set<Stream>,
    evict: Option<Dereg>)

  /** An id that was not handed out yet looks like one that has done nothing. */
  function ViewOf(st: State, c: ConnId): View {
    View(
      if c in st.tasks then st.tasks[c] else Allocated,
      c in st.shared.connections,
      if c in st.shared.connStreams then Some(st.shared.connStreams[c]) else None,
      StreamsOf(st.shared.streams, c),
      if st.fan.Evicting? && st.fan.conn == c then Some(st.fan.dereg) else None)
  }

  predicate Registering(h: Handler) {
    h.Inserted? || h.Indexed?
  }

  predicate Registered(h: Handler) {
    !h.Allocated? && !Registering(h)
  }

  predicate Cleaning(d: Dereg) {
    d.Scrub? || d.Reap?
  }

  /** The connection is between the two halves of an unsubscribe from s. */
  predicate Unsubscribing(v: View, s: Stream) {
    v.pc == UnsubReap(s) || v.pc == UnsubReverse(s)
  }

  /** A deregister of the connection took its list and still has s to clean. */
  predicate DeregPending(v: View, s: Stream) {
    || (v.pc.Leaving? && s in PendingOf(v.pc.dereg))
    || (v.evict.Some? && s in PendingOf(v.evict.value))
  }

  /** Why the connection may be listed under s. */
  predicate Backed(v: View, s: Stream) {
    || (v.list.Some? && s in v.list.value)
    || v.pc == SubPushed(s)
    || DeregPending(v, s)
  }

  ghost predicate Single<T(!new)>(bag: multiset<T>) {
    forall x :: bag[x] <= 1
  }

  /** Before `register` has returned nobody else knows the connection. */
  predicate Unknown(v: View) {
    v.listed == {} && v.evict.None?
  }

  /** What is known of a connection whose `register` has returned. */
  ghost predicate RegisteredInv(v: View) {
    && (v.list.Some? ==>
          && v.inTable && Single(v.list.value)
          && (v.pc.Leaving? ==> v.pc.dereg.TakeList?)
          && (v.evict.Some? ==> v.evict.value.TakeList?))
    && (HoldsList(v.pc) ==> v.list.Some? && v.pc.stream !in v.list.value)
    && (v.inTable ==> v.pc != Leaving(Decrement) && v.pc != Leaving(Finished) && v.evict != Some(Decrement))
    && (v.inTable && v.list.None? ==>
          || (v.pc.Leaving? && Cleaning(v.pc.dereg))
          || (v.evict.Some? && Cleaning(v.evict.value)))
    && v.evict != Some(Finished)
    && !(v.pc == Leaving(Decrement) && v.evict == Some(Decrement))
    && (forall s :: s in v.listed ==> Backed(v, s))
    && (forall s :: v.list.Some? && s in v.list.value ==> s in v.listed || Unsubscribing(v, s))
    && (forall s :: v.pc == SubPushed(s) ==> s in v.listed)
    && (forall s :: Unsubscribing(v, s) ==> s !in v.listed)
  }

  ghost predicate ConnInv(v: View) {
    match v.pc
    case Allocated => Unknown(v) && !v.inTable && v.list.None?
    case Inserted => Unknown(v) && v.inTable && v.list.None?
    case Indexed => Unknown(v) && v.inTable && v.list == Some(multiset{})
    case _ => RegisteredInv(v)
  }

  // ---------------------------------------------------------------------------
  // The rest of the state
  // ---------------------------------------------------------------------------

  ghost predicate Ids(st: State) {
    && st.nextId >= 1
    && (forall c :: c in st.tasks <==> 1 <= c < st.nextId)
  }

  ghost predicate Known(tasks: map<ConnId, Handler>, ids: multiset<ConnId>) {
    forall c :: c in ids ==> c in tasks && Registered(tasks[c])
  }

  /** The connections the fan-out task is dealing with. */
  function InHand(fan: Fan): multiset<ConnId> {
    match fan
    case Between(evicted) => evicted
    case Iterating(_, _, todo, evicted) => todo + evicted
    case Sending(_, _, c, todo, evicted) => multiset{c} + todo + evicted
    case Evicting(c, _, evicted) => multiset{c} + evicted
  }

  /** The fan-out loop handles each connection once and walks a list nobody else can change. */
  ghost predicate FanShape(st: State) {
    Single(InHand(st.fan)) && Known(st.tasks, InHand(st.fan)) && WalkShape(st)
  }

  ghost predicate WalkShape(st: State) {
    && (FanOnStream(st.fan) ==>
          && st.fan.stream in st.shared.streams
          && (forall c :: c in st.fan.todo ==> c in st.shared.streams[st.fan.stream]))
    && (st.fan.Sending? ==>
          st.fan.conn in st.shared.connections && st.fan.conn in st.shared.streams[st.fan.stream])
  }

  ghost predicate Distinct(streams: map<Stream, multiset<ConnId>>) {
    forall s :: s in streams ==> Single(streams[s])
  }

  /** The task with this program counter still owes s a `remove_if`. */
  predicate Reaping(h: Handler, s: Stream) {
    h == UnsubReap(s) || (h.Leaving? && h.dereg.Reap? && h.dereg.stream == s)
  }

  ghost predicate SomeReaper(tasks: map<ConnId, Handler>, s: Stream) {
    exists c :: c in tasks && Reaping(tasks[c], s)
  }

  predicate FanReaping(fan: Fan, s: Stream) {
    fan.Evicting? && fan.dereg.Reap? && fan.dereg.stream == s
  }

  /** An empty stream entry always has somebody about to remove it. */
  ghost predicate EmptiesOwned(st: State) {
    forall s :: s in st.shared.streams && st.shared.streams[s] == multiset{} ==>
      SomeReaper(st.tasks, s) || FanReaping(st.fan, s)
  }

  /** Does `active` stand for this connection? */
  predicate CountedView(v: View) {
    (v.inTable && !Registering(v.pc)) || v.pc == Leaving(Decrement) || v.evict == Some(Decrement)
  }

  ghost function Counted(st: State): set<ConnId> {
    set c | c in st.tasks && CountedView(ViewOf(st, c))
  }

  ghost predicate Inv(st: State) {
    && Ids(st)
    && (forall c :: ConnInv(ViewOf(st, c)))
    && FanShape(st)
    && Distinct(st.shared.streams)
    && EmptiesOwned(st)
    && st.shared.active == |Counted(st)|
  }

  lemma InitInv()
    ensures Inv(INIT)
  {
    assert Counted(INIT) == {};
  }

  // ---------------------------------------------------------------------------
  // One step changes one view
  // ---------------------------------------------------------------------------

  /** What a step of the connection's own task does to its view; `seen` is the emptiness test. */
  function Moved(v: View, step: Step, seen: bool): View {
    match step
    case RegInsert(_) => v.(pc := Inserted, inTable := true)
    case RegIndex(_) => v.(pc := Indexed, list := Some(multiset{}))
    case RegCount(_) => v.(pc := Idle)
    case SubBegin(_, s) => if v.list.None? || s in v.list.value then v else v.(pc := SubHeld(s))
    case SubPush(_) =>
      if v.pc.SubHeld? then v.(pc := SubPushed(v.pc.stream), listed := v.listed + {v.pc.stream}) else v
    case SubRecord(_) =>
      if v.pc.SubPushed? && v.list.Some? then v.(pc := Idle, list := Some(v.list.value + multiset{v.pc.stream})) else v
    case UnsubBegin(_, s) => v.(pc := if seen then UnsubReap(s) else UnsubReverse(s), listed := v.listed - {s})
    case UnsubRemoveIf(_) => if v.pc.UnsubReap? then v.(pc := UnsubReverse(v.pc.stream)) else v
    case UnsubRecord(_) =>
      if v.pc.UnsubReverse?
      then v.(pc := Idle, list := if v.list.Some? then Some(v.list.value[v.pc.stream := 0]) else None)
      else v
    case Leave(_) => v.(pc := Leaving(TakeList))
    case _ => v
  }

  /** A deregister step on the view, apart from the program counter that takes it. */
  function DeregMoved(v: View, d: Dereg, pick: Stream): View {
    match d
    case TakeList => v.(list := None)
    case Scrub(p) => if p != multiset{} then v.(listed := v.listed - {pick}) else v.(inTable := false)
    case _ => v
  }

  function DeregAfter(v: View, d: Dereg, pick: Stream, seen: bool): Dereg {
    match d
    case TakeList => Scrub(if v.list.Some? then v.list.value else multiset{})
    case Scrub(p) =>
      if p != multiset{} then
        if seen then Reap(pick, p - multiset{pick}) else Scrub(p - multiset{pick})
      else if v.inTable then Decrement
      else Finished
    case Reap(_, p) => Scrub(p)
    case Decrement => Finished
    case Finished => Finished
  }

  predicate OwnStep(step: Step, c: ConnId) {
    match step
    case RegInsert(o) => o == c
    case RegIndex(o) => o == c
    case RegCount(o) => o == c
    case SubBegin(o, _) => o == c
    case SubPush(o) => o == c
    case SubRecord(o) => o == c
    case UnsubBegin(o, _) => o == c
    case UnsubRemoveIf(o) => o == c
    case UnsubRecord(o) => o == c
    case Leave(o) => o == c
    case _ => false
  }

  /** Where the connection's own task may take this step. */
  predicate PcAllows(pc: Handler, step: Step) {
    match step
    case RegInsert(_) => pc.Allocated?
    case RegIndex(_) => pc.Inserted?
    case RegCount(_) => pc.Indexed?
    case SubBegin(_, _) => pc.Idle?
    case SubPush(_) => pc.SubHeld?
    case SubRecord(_) => pc.SubPushed?
    case UnsubBegin(_, _) => pc.Idle?
    case UnsubRemoveIf(_) => pc.UnsubReap?
    case UnsubRecord(_) => pc.UnsubReverse?
    case Leave(_) => pc.Idle?
    case _ => false
  }

  /** Every view but that of c stays, and c's becomes v. */
  ghost predicate Moves(st: State, next: State, c: ConnId, v: View) {
    forall o :: ViewOf(next, o) == if o == c then v else ViewOf(st, o)
  }

  lemma OwnStepMoves(sh: Shards, st: State, step: Step, c: ConnId)
    requires Enabled(sh, st, step) && OwnStep(step, c) && ConnInv(ViewOf(st, c))
    ensures Moves(st, Apply(st, step), c,
                  Moved(ViewOf(st, c), step, step.UnsubBegin? && SawEmpty(st.shared, c, step.s)))
  {
  }

  lemma RegisterStepInv(v: View, step: Step)
    requires ConnInv(v)
    requires PcAllows(v.pc, step) && (step.RegInsert? || step.RegIndex? || step.RegCount?)
    ensures ConnInv(Moved(v, step, false))
    ensures CountedView(Moved(v, step, false)) <==> CountedView(v) || step.RegCount?
    ensures CountedView(v) ==> !step.RegCount?
  {
  }

  lemma SubscribeStepInv(v: View, step: Step)
    requires ConnInv(v)
    requires PcAllows(v.pc, step) && (step.SubBegin? || step.SubPush? || step.SubRecord?)
    ensures ConnInv(Moved(v, step, false)) && (CountedView(Moved(v, step, false)) <==> CountedView(v))
  {
  }

  lemma UnsubBeginInv(v: View, step: Step, seen: bool)
    requires ConnInv(v) && PcAllows(v.pc, step) && step.UnsubBegin?
    ensures ConnInv(Moved(v, step, seen)) && (CountedView(Moved(v, step, seen)) <==> CountedView(v))
  {
  }

  lemma UnsubRecordInv(v: View, step: Step, seen: bool)
    requires ConnInv(v) && PcAllows(v.pc, step) && step.UnsubRecord?
    ensures ConnInv(Moved(v, step, seen)) && (CountedView(Moved(v, step, seen)) <==> CountedView(v))
  {
  }

  lemma UnsubRestInv(v: View, step: Step, seen: bool)
    requires ConnInv(v) && PcAllows(v.pc, step) && (step.UnsubRemoveIf? || step.Leave?)
    ensures ConnInv(Moved(v, step, seen)) && (CountedView(Moved(v, step, seen)) <==> CountedView(v))
  {
  }

  lemma UnsubscribeStepInv(v: View, step: Step, seen: bool)
    requires ConnInv(v)
    requires PcAllows(v.pc, step) && (step.UnsubBegin? || step.UnsubRemoveIf? || step.UnsubRecord? || step.Leave?)
    ensures ConnInv(Moved(v, step, seen)) && (CountedView(Moved(v, step, seen)) <==> CountedView(v))
  {
    if step.UnsubBegin? {
      UnsubBeginInv(v, step, seen);
    } else if step.UnsubRecord? {
      UnsubRecordInv(v, step, seen);
    } else {
      UnsubRestInv(v, step, seen);
    }
  }

  /** What a deregister step of c does to the shared part of anybody's view. */
  lemma DeregOnShared(sh: Shared, c: ConnId, d: Dereg, pick: Stream, o: ConnId)
    ensures
      var r := DeregShared(sh, c, d, pick);
      && (o in r.connections <==> o in sh.connections && !(o == c && d == Scrub(multiset{})))
      && (o in r.connStreams <==> o in sh.connStreams && !(o == c && d.TakeList?))
      && (o in r.connStreams ==> r.connStreams[o] == sh.connStreams[o])
      && StreamsOf(r.streams, o) ==
         StreamsOf(sh.streams, o) - (if o == c && d.Scrub? && d.pending != multiset{} then {pick} else {})
  {
  }

  lemma LeaveStepMoves(sh: Shards, st: State, c: ConnId, pick: Stream)
    requires Enabled(sh, st, LeaveStep(c, pick))
    ensures
      var v := ViewOf(st, c);
      var d := v.pc.dereg;
      Moves(st, Apply(st, LeaveStep(c, pick)), c,
            DeregMoved(v, d, pick).(pc := Leaving(DeregAfter(v, d, pick, SawEmpty(st.shared, c, pick)))))
  {
    forall o {
      DeregOnShared(st.shared, c, st.tasks[c].dereg, pick, o);
    }
  }

  lemma LeaveTakeInv(v: View, pick: Stream, seen: bool)
    requires ConnInv(v) && v.pc == Leaving(TakeList)
    ensures ConnInv(DeregMoved(v, TakeList, pick).(pc := Leaving(DeregAfter(v, TakeList, pick, seen))))
  {
  }

  lemma LeaveScrubInv(v: View, p: multiset<Stream>, pick: Stream, seen: bool)
    requires ConnInv(v) && v.pc == Leaving(Scrub(p)) && pick in p
    ensures ConnInv(DeregMoved(v, Scrub(p), pick).(pc := Leaving(DeregAfter(v, Scrub(p), pick, seen))))
  {
  }

  lemma LeaveRestInv(v: View, d: Dereg, pick: Stream, seen: bool)
    requires ConnInv(v) && v.pc == Leaving(d) && !d.TakeList? && (d.Scrub? ==> d.pending == multiset{})
    ensures ConnInv(DeregMoved(v, d, pick).(pc := Leaving(DeregAfter(v, d, pick, seen))))
  {
  }

  lemma LeaveStepInv(v: View, pick: Stream, seen: bool)
    requires ConnInv(v) && v.pc.Leaving?
    requires v.pc.dereg.Scrub? && v.pc.dereg.pending != multiset{} ==> pick in v.pc.dereg.pending
    ensures ConnInv(DeregMoved(v, v.pc.dereg, pick).(pc := Leaving(DeregAfter(v, v.pc.dereg, pick, seen))))
  {
    var d := v.pc.dereg;
    if d.TakeList? {
      LeaveTakeInv(v, pick, seen);
    } else if d.Scrub? && d.pending != multiset{} {
      LeaveScrubInv(v, d.pending, pick, seen);
    } else {
      LeaveRestInv(v, d, pick, seen);
    }
  }

  lemma LeaveStepCount(v: View, pick: Stream, seen: bool)
    requires ConnInv(v) && v.pc.Leaving?
    ensures
      var next := DeregMoved(v, v.pc.dereg, pick).(pc := Leaving(DeregAfter(v, v.pc.dereg, pick, seen)));
      && (CountedView(next) <==> CountedView(v) && !v.pc.dereg.Decrement?)
      && (v.pc.dereg.Decrement? ==> CountedView(v))
  {
  }

  function Evicted(d: Dereg): Option<Dereg> {
    if d.Finished? then None else Some(d)
  }

  lemma EvictStepSelf(sh: Shards, st: State, pick: Stream)
    requires Enabled(sh, st, FanEvictStep(pick))
    ensures
      var v := ViewOf(st, st.fan.conn);
      var d := st.fan.dereg;
      ViewOf(Apply(st, FanEvictStep(pick)), st.fan.conn) ==
      DeregMoved(v, d, pick).(evict := Evicted(DeregAfter(v, d, pick, SawEmpty(st.shared, st.fan.conn, pick))))
  {
    DeregOnShared(st.shared, st.fan.conn, st.fan.dereg, pick, st.fan.conn);
  }

  lemma EvictStepOther(sh: Shards, st: State, pick: Stream, o: ConnId)
    requires Enabled(sh, st, FanEvictStep(pick)) && o != st.fan.conn
    ensures ViewOf(Apply(st, FanEvictStep(pick)), o) == ViewOf(st, o)
  {
    DeregOnShared(st.shared, st.fan.conn, st.fan.dereg, pick, o);
  }

  lemma EvictStepMoves(sh: Shards, st: State, pick: Stream)
    requires Enabled(sh, st, FanEvictStep(pick))
    ensures
      var v := ViewOf(st, st.fan.conn);
      var d := st.fan.dereg;
      Moves(st, Apply(st, FanEvictStep(pick)), st.fan.conn,
            DeregMoved(v, d, pick).(evict := Evicted(DeregAfter(v, d, pick, SawEmpty(st.shared, st.fan.conn, pick)))))
  {
    EvictStepSelf(sh, st, pick);
    forall o | o != st.fan.conn {
      EvictStepOther(sh, st, pick, o);
    }
  }

  lemma EvictTakeInv(v: View, pick: Stream, seen: bool)
    requires ConnInv(v) && v.evict == Some(TakeList) && !HoldsList(v.pc)
    ensures ConnInv(DeregMoved(v, TakeList, pick).(evict := Some(DeregAfter(v, TakeList, pick, seen))))
  {
  }

  lemma EvictScrubInv(v: View, p: multiset<Stream>, pick: Stream, seen: bool)
    requires ConnInv(v) && v.evict == Some(Scrub(p)) && pick in p
    ensures ConnInv(DeregMoved(v, Scrub(p), pick).(evict := Some(DeregAfter(v, Scrub(p), pick, seen))))
  {
  }

  lemma EvictRestInv(v: View, d: Dereg, pick: Stream, seen: bool)
    requires ConnInv(v) && v.evict == Some(d) && (d.Reap? || d.Decrement? || d == Scrub(multiset{}))
    ensures ConnInv(DeregMoved(v, d, pick).(evict := Evicted(DeregAfter(v, d, pick, seen))))
  {
  }

  lemma EvictStepInv(v: View, d: Dereg, pick: Stream, seen: bool)
    requires ConnInv(v) && v.evict == Some(d)
    requires d.Scrub? && d.pending != multiset{} ==> pick in d.pending
    requires d.TakeList? ==> !HoldsList(v.pc)
    ensures ConnInv(DeregMoved(v, d, pick).(evict := Evicted(DeregAfter(v, d, pick, seen))))
  {
    match d {
      case TakeList => EvictTakeInv(v, pick, seen);
      case Scrub(p) =>
        if p != multiset{} {
          EvictScrubInv(v, p, pick, seen);
        } else {
          EvictRestInv(v, d, pick, seen);
        }
      case _ => EvictRestInv(v, d, pick, seen);
    }
  }

  lemma EvictStepCount(v: View, d: Dereg, pick: Stream, seen: bool)
    requires ConnInv(v) && v.evict == Some(d)
    ensures
      var next := DeregMoved(v, d, pick).(evict := Evicted(DeregAfter(v, d, pick, seen)));
      && (CountedView(next) <==> CountedView(v) && !d.Decrement?)
      && (d.Decrement? ==> CountedView(v))
  {
  }

  lemma EvictMoves(sh: Shards, st: State, c: ConnId)
    requires Enabled(sh, st, FanEvict(c))
    ensures Moves(st, Apply(st, FanEvict(c)), c, ViewOf(st, c).(evict := Some(TakeList)))
  {
  }

  lemma EvictInv(v: View)
    requires ConnInv(v) && Registered(v.pc) && v.evict.None?
    ensures ConnInv(v.(evict := Some(TakeList)))
    ensures CountedView(v.(evict := Some(TakeList))) <==> CountedView(v)
  {
  }

  predicate QuietStep(step: Step) {
    step.Allocate? || step.FanBegin? || step.FanLookup? || step.FanSend? || step.FanRelease?
  }

  lemma QuietStepMoves(sh: Shards, st: State, step: Step)
    requires Ids(st) && Enabled(sh, st, step) && QuietStep(step)
    ensures forall o :: ViewOf(Apply(st, step), o) == ViewOf(st, o)
  {
  }

  // ---------------------------------------------------------------------------
  // Counter, fan-out walk, empty streams
  // ---------------------------------------------------------------------------

  lemma CountFollows(st: State, next: State, c: ConnId, v: View)
    requires Moves(st, next, c, v) && next.tasks.Keys == st.tasks.Keys && c in st.tasks
    requires st.shared.active == |Counted(st)|
    requires next.shared.active - st.shared.active ==
             (if CountedView(v) then 1 else 0) - (if CountedView(ViewOf(st, c)) then 1 else 0)
    ensures next.shared.active == |Counted(next)|
  {
    assert Counted(next) - {c} == Counted(st) - {c};
    CardToggle(Counted(st), Counted(next), c);
  }

  /** What a handler's step leaves alone for the fan-out loop. */
  ghost predicate HandlerFrame(st: State, next: State, c: ConnId) {
    && next.fan == st.fan
    && (forall o :: o in st.tasks ==> o in next.tasks && (o == c || next.tasks[o] == st.tasks[o]))
    && (c in st.tasks && Registered(st.tasks[c]) ==> Registered(next.tasks[c]))
    && (FanOnStream(st.fan) ==>
          && (st.fan.stream in st.shared.streams ==> st.fan.stream in next.shared.streams)
          && (st.fan.stream in st.shared.streams && st.fan.stream in next.shared.streams ==>
                next.shared.streams[st.fan.stream] == st.shared.streams[st.fan.stream]))
    && (st.fan.Sending? && st.fan.conn in st.shared.connections ==> st.fan.conn in next.shared.connections)
  }

  lemma OwnStepFrame(sh: Shards, st: State, step: Step, c: ConnId)
    requires Enabled(sh, st, step) && OwnStep(step, c)
    ensures HandlerFrame(st, Apply(st, step), c)
  {
  }

  lemma LeaveStepFrame(sh: Shards, st: State, c: ConnId, pick: Stream)
    requires Enabled(sh, st, LeaveStep(c, pick))
    ensures HandlerFrame(st, Apply(st, LeaveStep(c, pick)), c)
  {
  }

  lemma HandlerStepShape(st: State, next: State, c: ConnId)
    requires FanShape(st) && HandlerFrame(st, next, c)
    ensures FanShape(next)
  {
  }

  predicate FanOnwards(step: Step) {
    step.FanLookup? || step.FanSend? || step.FanRelease? || step.FanEvict? || step.FanEvictStep?
  }

  lemma FanLookupInHand(sh: Shards, st: State, step: Step)
    requires Enabled(sh, st, step) && step.FanLookup?
    ensures InHand(Apply(st, step).fan) <= InHand(st.fan)
  {
    TakeOut(st.fan.todo, step.c);
  }

  lemma FanSendInHand(sh: Shards, st: State, step: Step)
    requires Enabled(sh, st, step) && step.FanSend?
    ensures InHand(Apply(st, step).fan) <= InHand(st.fan)
  {
  }

  lemma FanEvictInHand(sh: Shards, st: State, step: Step)
    requires Enabled(sh, st, step) && (step.FanRelease? || step.FanEvict? || step.FanEvictStep?)
    ensures InHand(Apply(st, step).fan) <= InHand(st.fan)
  {
    if step.FanEvict? {
      TakeOut(st.fan.evicted, step.c);
    }
  }

  lemma TakeOut(bag: multiset<ConnId>, c: ConnId)
    requires c in bag
    ensures multiset{c} + (bag - multiset{c}) == bag
  {
  }

  lemma SubBag(tasks: map<ConnId, Handler>, was: multiset<ConnId>, now: multiset<ConnId>)
    requires now <= was && Single(was) && Known(tasks, was)
    ensures Single(now) && Known(tasks, now)
  {
    assert forall c :: now[c] <= was[c];
  }

  lemma FanStepHands(sh: Shards, st: State, step: Step)
    requires FanShape(st) && Enabled(sh, st, step) && FanOnwards(step)
    ensures Single(InHand(Apply(st, step).fan)) && Known(st.tasks, InHand(Apply(st, step).fan))
  {
    if step.FanLookup? {
      FanLookupInHand(sh, st, step);
    } else if step.FanSend? {
      FanSendInHand(sh, st, step);
    } else {
      FanEvictInHand(sh, st, step);
    }
    SubBag(st.tasks, InHand(st.fan), InHand(Apply(st, step).fan));
  }

  lemma FanStepWalk(sh: Shards, st: State, step: Step)
    requires WalkShape(st) && Enabled(sh, st, step) && FanOnwards(step)
    ensures WalkShape(Apply(st, step)) && Apply(st, step).tasks == st.tasks
  {
  }

  lemma FanStepShape(sh: Shards, st: State, step: Step)
    requires FanShape(st) && Enabled(sh, st, step) && FanOnwards(step)
    ensures FanShape(Apply(st, step))
  {
    FanStepHands(sh, st, step);
    FanStepWalk(sh, st, step);
  }

  lemma FanBeginShape(sh: Shards, st: State, s: Stream, m: Msg)
    requires Inv(st) && Enabled(sh, st, FanBegin(s, m))
    ensures FanShape(Apply(st, FanBegin(s, m)))
  {
    if s in st.shared.streams {
      forall c | c in st.shared.streams[s]
        ensures c in st.tasks && Registered(st.tasks[c])
      {
        assert s in ViewOf(st, c).listed;
        assert ConnInv(ViewOf(st, c));
      }
      assert InHand(Apply(st, FanBegin(s, m)).fan) == st.shared.streams[s];
    }
  }

  lemma DeregDistinct(sh: Shared, c: ConnId, d: Dereg, pick: Stream)
    requires Distinct(sh.streams)
    ensures Distinct(DeregShared(sh, c, d, pick).streams)
  {
  }

  /** The subscribe's early return: a stream already holding c's handle is not pushed to. */
  lemma NotYetListed(st: State, c: ConnId)
    requires Inv(st) && c in st.tasks && st.tasks[c].SubHeld?
    ensures
      var s := st.tasks[c].stream;
      s in st.shared.streams ==> c !in st.shared.streams[s]
  {
    assert ConnInv(ViewOf(st, c));
    assert st.tasks[c].stream !in ViewOf(st, c).listed;
  }

  lemma PushDistinct(sh: Shared, c: ConnId, s: Stream)
    requires Distinct(sh.streams) && (s in sh.streams ==> c !in sh.streams[s])
    ensures Distinct(PushSubscriber(sh, c, s).streams)
  {
    var was := if s in sh.streams then sh.streams[s] else multiset{};
    assert Single(was + multiset{c});
  }

  lemma StepDistinct(sh: Shards, st: State, step: Step)
    requires Inv(st) && Enabled(sh, st, step)
    ensures Distinct(Apply(st, step).shared.streams)
  {
    match step {
      case SubPush(c) => {
        NotYetListed(st, c);
        PushDistinct(st.shared, c, st.tasks[c].stream);
      }
      case UnsubBegin(c, s) => DeregDistinct(st.shared, c, Scrub(multiset{s}), s);
      case UnsubRemoveIf(c) => DeregDistinct(st.shared, c, Reap(st.tasks[c].stream, multiset{}), st.tasks[c].stream);
      case LeaveStep(c, pick) => DeregDistinct(st.shared, c, st.tasks[c].dereg, pick);
      case FanEvictStep(pick) => DeregDistinct(st.shared, st.fan.conn, st.fan.dereg, pick);
      case _ =>
    }
  }

  /** Changing one task's program counter loses no reaper other than that task. */
  lemma ReaperStays(tasks: map<ConnId, Handler>, c: ConnId, h: Handler, s: Stream)
    requires SomeReaper(tasks, s)
    requires c in tasks && Reaping(tasks[c], s) ==> Reaping(h, s)
    ensures SomeReaper(tasks[c := h], s)
  {
    var o :| o in tasks && Reaping(tasks[o], s);
    assert Reaping(tasks[c := h][o], s);
  }

  lemma ReaperJoins(tasks: map<ConnId, Handler>, c: ConnId, h: Handler, s: Stream)
    requires Reaping(h, s)
    ensures SomeReaper(tasks[c := h], s)
  {
    assert Reaping(tasks[c := h][c], s);
  }

  /** The tasks whose own step neither ends nor starts a clean-up, and leaves no new empty entry. */
  lemma PlainStepEmpties(st: State, next: State, c: ConnId, h: Handler)
    requires EmptiesOwned(st)
    requires next.tasks == st.tasks[c := h] && next.fan == st.fan
    requires forall s :: c in st.tasks && Reaping(st.tasks[c], s) ==> Reaping(h, s)
    requires forall s :: s in next.shared.streams && next.shared.streams[s] == multiset{} ==>
                         s in st.shared.streams && st.shared.streams[s] == multiset{}
    ensures EmptiesOwned(next)
  {
    forall s | s in next.shared.streams && next.shared.streams[s] == multiset{} && SomeReaper(st.tasks, s)
      ensures SomeReaper(next.tasks, s)
    {
      ReaperStays(st.tasks, c, h, s);
    }
  }

  /** A `retain` by c on s leaves behind either a non-empty entry or a task that will remove it. */
  lemma ScrubEmpties(st: State, next: State, c: ConnId, h: Handler, s: Stream)
    requires EmptiesOwned(st)
    requires next.tasks == st.tasks[c := h] && next.fan == st.fan
    requires next.shared.streams == ScrubStream(st.shared, c, s).streams
    requires forall z :: c in st.tasks && Reaping(st.tasks[c], z) ==> Reaping(h, z)
    requires SawEmpty(st.shared, c, s) ==> Reaping(h, s)
    ensures EmptiesOwned(next)
  {
    forall z | z in next.shared.streams && next.shared.streams[z] == multiset{}
      ensures SomeReaper(next.tasks, z) || FanReaping(next.fan, z)
    {
      if z == s {
        ReaperJoins(st.tasks, c, h, s);
      } else if SomeReaper(st.tasks, z) {
        ReaperStays(st.tasks, c, h, z);
      }
    }
  }

  /** A `remove_if` on s may retire its reaper. */
  lemma RemoveEmpties(st: State, next: State, c: ConnId, h: Handler, s: Stream)
    requires EmptiesOwned(st)
    requires next.tasks == st.tasks[c := h] && next.fan == st.fan
    requires next.shared.streams == RemoveIfEmpty(st.shared, s).streams
    requires forall z :: z != s && c in st.tasks && Reaping(st.tasks[c], z) ==> Reaping(h, z)
    ensures EmptiesOwned(next)
  {
    forall z | z in next.shared.streams && next.shared.streams[z] == multiset{}
      ensures SomeReaper(next.tasks, z) || FanReaping(next.fan, z)
    {
      assert z != s;
      if SomeReaper(st.tasks, z) {
        ReaperStays(st.tasks, c, h, z);
      }
    }
  }

  lemma OwnStepEmpties(sh: Shards, st: State, step: Step, c: ConnId)
    requires Inv(st) && Enabled(sh, st, step) && OwnStep(step, c)
    ensures EmptiesOwned(Apply(st, step))
  {
    var next := Apply(st, step);
    var h := next.tasks[c];
    match step {
      case UnsubBegin(_, s) => ScrubEmpties(st, next, c, h, s);
      case UnsubRemoveIf(_) => RemoveEmpties(st, next, c, h, st.tasks[c].stream);
      case _ => PlainStepEmpties(st, next, c, h);
    }
  }

  lemma LeaveStepEmpties(sh: Shards, st: State, c: ConnId, pick: Stream)
    requires Inv(st) && Enabled(sh, st, LeaveStep(c, pick))
    ensures EmptiesOwned(Apply(st, LeaveStep(c, pick)))
  {
    var next := Apply(st, LeaveStep(c, pick));
    var h := next.tasks[c];
    match st.tasks[c].dereg {
      case Scrub(p) =>
        if p != multiset{} {
          ScrubEmpties(st, next, c, h, pick);
        } else {
          PlainStepEmpties(st, next, c, h);
        }
      case Reap(s, _) => RemoveEmpties(st, next, c, h, s);
      case _ => PlainStepEmpties(st, next, c, h);
    }
  }

  lemma EvictStepEmpties(sh: Shards, st: State, pick: Stream)
    requires EmptiesOwned(st) && Enabled(sh, st, FanEvictStep(pick))
    ensures EmptiesOwned(Apply(st, FanEvictStep(pick)))
  {
    var next, d := Apply(st, FanEvictStep(pick)), st.fan.dereg;
    forall s | s in next.shared.streams && next.shared.streams[s] == multiset{}
      ensures SomeReaper(next.tasks, s) || FanReaping(next.fan, s)
    {
      EvictStepLeaves(st, pick, s);
    }
  }

  lemma EvictStepLeaves(st: State, pick: Stream, s: Stream)
    requires st.fan.Evicting? && EmptiesOwned(st)
    requires
      var next := Apply(st, FanEvictStep(pick));
      s in next.shared.streams && next.shared.streams[s] == multiset{}
    ensures SomeReaper(st.tasks, s) || FanReaping(Apply(st, FanEvictStep(pick)).fan, s)
  {
    match st.fan.dereg {
      case Scrub(p) => assert p != multiset{} && s == pick ==> SawEmpty(st.shared, st.fan.conn, pick);
      case _ =>
    }
  }

  lemma QuietStepEmpties(sh: Shards, st: State, step: Step)
    requires EmptiesOwned(st) && Enabled(sh, st, step) && (QuietStep(step) || step.FanEvict?)
    requires step.Allocate? ==> st.nextId !in st.tasks
    ensures EmptiesOwned(Apply(st, step))
  {
    if step.Allocate? {
      PlainStepEmpties(st, Apply(st, step), st.nextId, Allocated);
    }
  }

  // ---------------------------------------------------------------------------
  // Every step, every run
  // ---------------------------------------------------------------------------

  lemma OwnStepViewInv(v: View, step: Step, seen: bool)
    requires ConnInv(v) && PcAllows(v.pc, step) && (seen ==> step.UnsubBegin?)
    ensures ConnInv(Moved(v, step, seen))
    ensures (if CountedView(Moved(v, step, seen)) then 1 else 0) - (if CountedView(v) then 1 else 0) ==
            (if step.RegCount? then 1 else 0)
  {
    if step.RegInsert? || step.RegIndex? || step.RegCount? {
      RegisterStepInv(v, step);
    } else if step.SubBegin? || step.SubPush? || step.SubRecord? {
      SubscribeStepInv(v, step);
    } else {
      UnsubscribeStepInv(v, step, seen);
    }
  }

  lemma OwnStepKeepsInv(sh: Shards, st: State, step: Step, c: ConnId)
    requires Inv(st) && Enabled(sh, st, step) && OwnStep(step, c)
    ensures Inv(Apply(st, step))
  {
    var v, next := ViewOf(st, c), Apply(st, step);
    var seen := step.UnsubBegin? && SawEmpty(st.shared, c, step.s);
    assert ConnInv(v);
    OwnStepViewInv(v, step, seen);
    OwnStepMoves(sh, st, step, c);
    OwnStepFrame(sh, st, step, c);
    OwnStepLocal(sh, st, step, c);
    CountFollows(st, next, c, Moved(v, step, seen));
    HandlerStepShape(st, next, c);
    StepDistinct(sh, st, step);
    OwnStepEmpties(sh, st, step, c);
  }

  lemma OwnStepLocal(sh: Shards, st: State, step: Step, c: ConnId)
    requires Enabled(sh, st, step) && OwnStep(step, c)
    ensures c in st.tasks && Apply(st, step).tasks.Keys == st.tasks.Keys && Apply(st, step).nextId == st.nextId
    ensures Apply(st, step).shared.active == st.shared.active + (if step.RegCount? then 1 else 0)
  {
  }

  lemma LeaveStepKeepsInv(sh: Shards, st: State, c: ConnId, pick: Stream)
    requires Inv(st) && Enabled(sh, st, LeaveStep(c, pick))
    ensures Inv(Apply(st, LeaveStep(c, pick)))
  {
    var v, next := ViewOf(st, c), Apply(st, LeaveStep(c, pick));
    var seen := SawEmpty(st.shared, c, pick);
    assert ConnInv(v);
    LeaveStepInv(v, pick, seen);
    LeaveStepCount(v, pick, seen);
    LeaveStepMoves(sh, st, c, pick);
    CountFollows(st, next, c, DeregMoved(v, v.pc.dereg, pick).(pc := Leaving(DeregAfter(v, v.pc.dereg, pick, seen))));
    LeaveStepFrame(sh, st, c, pick);
    HandlerStepShape(st, next, c);
    StepDistinct(sh, st, LeaveStep(c, pick));
    LeaveStepEmpties(sh, st, c, pick);
  }

  lemma EvictStepKeepsInv(sh: Shards, st: State, pick: Stream)
    requires Inv(st) && Enabled(sh, st, FanEvictStep(pick))
    ensures Inv(Apply(st, FanEvictStep(pick)))
  {
    var c, d := st.fan.conn, st.fan.dereg;
    var v, next := ViewOf(st, c), Apply(st, FanEvictStep(pick));
    var seen := SawEmpty(st.shared, c, pick);
    assert ConnInv(v);
    assert c in InHand(st.fan);
    EvictStepInv(v, d, pick, seen);
    EvictStepCount(v, d, pick, seen);
    EvictStepMoves(sh, st, pick);
    CountFollows(st, next, c, DeregMoved(v, d, pick).(evict := Evicted(DeregAfter(v, d, pick, seen))));
    FanStepShape(sh, st, FanEvictStep(pick));
    StepDistinct(sh, st, FanEvictStep(pick));
    EvictStepEmpties(sh, st, pick);
  }

  lemma EvictKeepsInv(sh: Shards, st: State, c: ConnId)
    requires Inv(st) && Enabled(sh, st, FanEvict(c))
    ensures Inv(Apply(st, FanEvict(c)))
  {
    assert ConnInv(ViewOf(st, c));
    assert c in InHand(st.fan);
    EvictMoves(sh, st, c);
    EvictInv(ViewOf(st, c));
    CountFollows(st, Apply(st, FanEvict(c)), c, ViewOf(st, c).(evict := Some(TakeList)));
    FanStepShape(sh, st, FanEvict(c));
    QuietStepEmpties(sh, st, FanEvict(c));
  }

  lemma QuietStepKeepsInv(sh: Shards, st: State, step: Step)
    requires Inv(st) && Enabled(sh, st, step) && QuietStep(step)
    ensures Inv(Apply(st, step))
  {
    var next := Apply(st, step);
    QuietStepMoves(sh, st, step);
    assert Counted(next) == Counted(st);
    if step.Allocate? {
      HandlerStepShape(st, next, st.nextId);
    } else if step.FanBegin? {
      FanBeginShape(sh, st, step.s, step.m);
    } else {
      FanStepShape(sh, st, step);
    }
    QuietStepEmpties(sh, st, step);
  }

  /** Every step of every task keeps the invariant. */
  lemma StepKeepsInv(sh: Shards, st: State, step: Step)
    requires Inv(st) && Enabled(sh, st, step)
    ensures Inv(Apply(st, step))
  {
    if QuietStep(step) {
      QuietStepKeepsInv(sh, st, step);
    } else {
      match step {
        case LeaveStep(c, pick) => LeaveStepKeepsInv(sh, st, c, pick);
        case FanEvict(c) => EvictKeepsInv(sh, st, c);
        case FanEvictStep(pick) => EvictStepKeepsInv(sh, st, pick);
        case RegInsert(c) => OwnStepKeepsInv(sh, st, step, c);
        case RegIndex(c) => OwnStepKeepsInv(sh, st, step, c);
        case RegCount(c) => OwnStepKeepsInv(sh, st, step, c);
        case SubBegin(c, _) => OwnStepKeepsInv(sh, st, step, c);
        case SubPush(c) => OwnStepKeepsInv(sh, st, step, c);
        case SubRecord(c) => OwnStepKeepsInv(sh, st, step, c);
        case UnsubBegin(c, _) => OwnStepKeepsInv(sh, st, step, c);
        case UnsubRemoveIf(c) => OwnStepKeepsInv(sh, st, step, c);
        case UnsubRecord(c) => OwnStepKeepsInv(sh, st, step, c);
        case Leave(c) => OwnStepKeepsInv(sh, st, step, c);
      }
    }
  }

  lemma {:induction false} RunKeepsInv(sh: Shards, st: State, run: seq<Step>)
    requires Inv(st) && ValidRun(sh, st, run)
    ensures Inv(Execute(st, run))
    decreases |run|
  {
    if run != [] {
      StepKeepsInv(sh, st, run[0]);
      RunKeepsInv(sh, Apply(st, run[0]), run[1..]);
    }
  }

  // ---------------------------------------------------------------------------
  // How far one step can take one connection
  // ---------------------------------------------------------------------------

  /** Only `subscribe` lists a connection, and only `register` gives it entries. */
  predicate Drift(v: View, next: View, step: Step, c: ConnId) {
    && (step != SubPush(c) ==> next.listed <= v.listed)
    && (step != RegInsert(c) ==> (next.inTable ==> v.inTable))
    && (step != RegIndex(c) ==> (next.list.Some? ==> v.list.Some?))
    && (Registered(v.pc) ==> Registered(next.pc))
  }

  lemma OwnStepDrift(v: View, step: Step, seen: bool, c: ConnId)
    requires OwnStep(step, c) && PcAllows(v.pc, step)
    ensures Drift(v, Moved(v, step, seen), step, c)
  {
  }

  lemma StepDrift(sh: Shards, st: State, step: Step, c: ConnId)
    requires Inv(st) && Enabled(sh, st, step)
    ensures Drift(ViewOf(st, c), ViewOf(Apply(st, step), c), step, c)
  {
    var v := ViewOf(st, c);
    if QuietStep(step) {
      QuietStepMoves(sh, st, step);
    } else if step.LeaveStep? {
      LeaveStepMoves(sh, st, step.c, step.pick);
    } else if step.FanEvictStep? {
      EvictStepMoves(sh, st, step.pick);
    } else if step.FanEvict? {
      EvictMoves(sh, st, step.c);
    } else {
      OwnStepOnConn(sh, st, step, step.c, c);
    }
  }

  lemma OwnStepOnConn(sh: Shards, st: State, step: Step, o: ConnId, c: ConnId)
    requires Inv(st) && Enabled(sh, st, step) && OwnStep(step, o)
    ensures Drift(ViewOf(st, c), ViewOf(Apply(st, step), c), step, c)
  {
    assert ConnInv(ViewOf(st, o));
    OwnStepMoves(sh, st, step, o);
    if o == c {
      OwnStepDrift(ViewOf(st, c), step, step.UnsubBegin? && SawEmpty(st.shared, c, step.s), c);
    }
  }

  // ---------------------------------------------------------------------------
  // Results
  // ---------------------------------------------------------------------------

  predicate Listed(st: State, c: ConnId, s: Stream) {
    s in st.shared.streams && c in st.shared.streams[s]
  }

  predicate Recorded(st: State, c: ConnId, s: Stream) {
    c in st.shared.connStreams && s in st.shared.connStreams[c]
  }

  /** A deregister of c, by its handler or by the fan-out task, still has s to clean. */
  predicate PendingDereg(st: State, c: ConnId, s: Stream) {
    || (c in st.tasks && st.tasks[c].Leaving? && s in PendingOf(st.tasks[c].dereg))
    || (st.fan.Evicting? && st.fan.conn == c && s in PendingOf(st.fan.dereg))
  }

  /** After any run a listed connection is backed, a recorded stream lists its connection, and once. */
  lemma IndexOwnership(sh: Shards, run: seq<Step>, c: ConnId, s: Stream)
    requires ValidRun(sh, INIT, run)
    ensures
      var st := Execute(INIT, run);
      && (Listed(st, c, s) ==> Recorded(st, c, s) || Is(st.tasks, c, SubPushed(s)) || PendingDereg(st, c, s))
      && (Recorded(st, c, s) ==> Listed(st, c, s) || Is(st.tasks, c, UnsubReap(s)) || Is(st.tasks, c, UnsubReverse(s)))
      && (s in st.shared.streams ==> st.shared.streams[s][c] <= 1)
  {
    InitInv();
    RunKeepsInv(sh, INIT, run);
    var st := Execute(INIT, run);
    assert ConnInv(ViewOf(st, c));
    assert Listed(st, c, s) <==> s in ViewOf(st, c).listed;
  }

  /** Once no call is in progress the two indexes are the same relation, and the counter is exact. */
  lemma QuiescentAgreement(sh: Shards, run: seq<Step>)
    requires ValidRun(sh, INIT, run) && Quiescent(Execute(INIT, run))
    ensures
      var st := Execute(INIT, run);
      && (forall c, s :: Listed(st, c, s) <==> Recorded(st, c, s))
      && (forall s :: s in st.shared.streams ==> st.shared.streams[s] != multiset{})
      && (forall c :: c in st.shared.connections <==> c in st.shared.connStreams)
      && (forall c :: Is(st.tasks, c, Leaving(Finished)) ==>
            c !in st.shared.connections && forall s :: !Listed(st, c, s))
      && st.shared.active == |st.shared.connections|
  {
    InitInv();
    RunKeepsInv(sh, INIT, run);
    var st := Execute(INIT, run);
    forall c
      ensures c in st.shared.connections <==> c in st.shared.connStreams
    {
      assert ConnInv(ViewOf(st, c));
    }
    forall c, s
      ensures Listed(st, c, s) <==> Recorded(st, c, s)
      ensures Is(st.tasks, c, Leaving(Finished)) ==> c !in st.shared.connections && !Listed(st, c, s)
    {
      assert ConnInv(ViewOf(st, c));
      assert Listed(st, c, s) <==> s in ViewOf(st, c).listed;
    }
    QuiescentCount(st);
  }

  lemma QuiescentCount(st: State)
    requires Inv(st) && Quiescent(st)
    ensures st.shared.active == |st.shared.connections|
  {
    forall c
      ensures c in Counted(st) <==> c in st.shared.connections
    {
      assert ConnInv(ViewOf(st, c));
    }
    assert Counted(st) == st.shared.connections;
  }

  /** Registers that inserted their entry but have not counted it. */
  ghost function Uncounted(st: State): set<ConnId> {
    set c | c in st.tasks && Registering(st.tasks[c])
  }

  /** Deregisters that removed the entry but have not subtracted it. */
  ghost function Unsubtracted(st: State): set<ConnId> {
    set c | c in st.tasks &&
            (st.tasks[c] == Leaving(Decrement) || (st.fan.Evicting? && st.fan.conn == c && st.fan.dereg.Decrement?))
  }

  /** The counter under races; two deregisters of one id are never both about to subtract. */
  lemma CountUnderRaces(sh: Shards, run: seq<Step>)
    requires ValidRun(sh, INIT, run)
    ensures
      var st := Execute(INIT, run);
      && st.shared.active + |Uncounted(st)| == |st.shared.connections| + |Unsubtracted(st)|
      && |Unsubtracted(st)| <= st.shared.active
      && (forall c :: !(Is(st.tasks, c, Leaving(Decrement)) &&
                        st.fan.Evicting? && st.fan.conn == c && st.fan.dereg.Decrement?))
  {
    InitInv();
    RunKeepsInv(sh, INIT, run);
    CountEquation(Execute(INIT, run));
  }

  lemma CountEquation(st: State)
    requires Inv(st)
    ensures st.shared.active + |Uncounted(st)| == |st.shared.connections| + |Unsubtracted(st)|
    ensures |Unsubtracted(st)| <= st.shared.active
    ensures forall c :: !(Is(st.tasks, c, Leaving(Decrement)) &&
                          st.fan.Evicting? && st.fan.conn == c && st.fan.dereg.Decrement?)
  {
    var counted, table, uncounted, extra := Counted(st), st.shared.connections, Uncounted(st), Unsubtracted(st);
    forall c | c in uncounted ensures c in table {
      CountOfOne(st, c);
    }
    forall c | c in extra ensures c !in table {
      CountOfOne(st, c);
    }
    forall c ensures c in counted <==> (c in table && c !in uncounted) || c in extra {
      CountOfOne(st, c);
    }
    forall c
      ensures !(Is(st.tasks, c, Leaving(Decrement)) && st.fan.Evicting? && st.fan.conn == c && st.fan.dereg.Decrement?)
    {
      CountOfOne(st, c);
    }
    CardSplit(counted, table, uncounted, extra);
  }

  lemma CountOfOne(st: State, c: ConnId)
    requires ConnInv(ViewOf(st, c))
    ensures c in Uncounted(st) ==> c in st.shared.connections
    ensures c in Unsubtracted(st) ==> c !in st.shared.connections
    ensures c in Counted(st) <==> (c in st.shared.connections && c !in Uncounted(st)) || c in Unsubtracted(st)
    ensures !(Is(st.tasks, c, Leaving(Decrement)) && st.fan.Evicting? && st.fan.conn == c && st.fan.dereg.Decrement?)
  {
  }

  /** The id was registered and its reverse entry is gone: a deregister has begun. */
  predicate Departed(st: State, c: ConnId) {
    c in st.tasks && Registered(st.tasks[c]) && c !in st.shared.connStreams
  }

  /** c is listed on no stream, and in the table, only if it already was. */
  predicate NothingRegained(st: State, next: State, c: ConnId) {
    && StreamsOf(next.shared.streams, c) <= StreamsOf(st.shared.streams, c)
    && (c in next.shared.connections ==> c in st.shared.connections)
  }

  lemma DepartedStep(sh: Shards, st: State, step: Step, c: ConnId)
    requires Inv(st) && Enabled(sh, st, step) && Departed(st, c)
    ensures Departed(Apply(st, step), c) && NothingRegained(st, Apply(st, step), c)
  {
    assert ConnInv(ViewOf(st, c));
    StepDrift(sh, st, step, c);
    assert step != SubPush(c) && step != RegInsert(c) && step != RegIndex(c);
  }

  /** From the moment a deregister takes the reverse entry, the id never gets an entry or a listing again. */
  lemma {:induction false} DepartedNeverReturns(sh: Shards, st: State, run: seq<Step>, c: ConnId)
    requires Inv(st) && ValidRun(sh, st, run) && Departed(st, c)
    ensures Departed(Execute(st, run), c) && NothingRegained(st, Execute(st, run), c)
    decreases |run|
  {
    if run != [] {
      DepartedStep(sh, st, run[0], c);
      StepKeepsInv(sh, st, run[0]);
      DepartedNeverReturns(sh, Apply(st, run[0]), run[1..], c);
    }
  }
}
