/**
 * The registry's guards cannot deadlock, and calls in progress always finish.
 *
 * Guards are only ever taken in the order reverse map, stream, connection, so whoever
 * holds the last guard can move.  A weight that every continuing step lowers turns
 * this into a bound on how long calls can take once no new call begins.
 */
module RegistryProgress {
  import opened Wrappers
  import opened RegistryModel
  import opened RegistrySafety

  // ---------------------------------------------------------------------------
  // Somebody can always move
  // ---------------------------------------------------------------------------

  ghost predicate CanContinue(sh: Shards, st: State) {
    exists step :: Enabled(sh, st, step) && !BeginsCall(step)
  }

  /** The holder of a stream guard, and of a connection guard under it, is never blocked. */
  lemma WalkerMoves(sh: Shards, st: State)
    requires FanOnStream(st.fan)
    ensures CanContinue(sh, st)
  {
    if st.fan.Sending? {
      assert Enabled(sh, st, FanSend(true));
    } else if st.fan.todo == multiset{} {
      assert Enabled(sh, st, FanRelease);
    } else {
      SomeConn(st.fan.todo);
      var c :| c in st.fan.todo;
      assert Enabled(sh, st, FanLookup(c));
    }
  }

  /** The holder of a reverse-map guard waits at most for a stream guard. */
  lemma SubscriberMoves(sh: Shards, st: State, c: ConnId)
    requires !FanOnStream(st.fan) && c in st.tasks && HoldsList(st.tasks[c])
    ensures CanContinue(sh, st)
  {
    if st.tasks[c].SubHeld? {
      assert Enabled(sh, st, SubPush(c));
    } else {
      assert Enabled(sh, st, SubRecord(c));
    }
  }

  lemma SomeConn(bag: multiset<ConnId>)
    requires bag != multiset{}
    ensures exists c :: c in bag
  {
    if forall c :: c !in bag {
      assert false;
    }
  }

  /** A stream for the next step of a deregister to clean, if it is cleaning. */
  ghost function Pick(d: Dereg, other: Stream): (s: Stream)
    ensures d.Scrub? && d.pending != multiset{} ==> s in d.pending
  {
    if d.Scrub? && d.pending != multiset{} then
      var s :| s in d.pending; s
    else other
  }

  lemma EvictorMoves(sh: Shards, st: State)
    requires !FanOnStream(st.fan) && st.fan != Between(multiset{})
    requires st.fan.Evicting? ==> !st.fan.dereg.Finished?
    requires forall o :: o in st.tasks ==> !HoldsList(st.tasks[o])
    ensures CanContinue(sh, st)
  {
    if st.fan.Evicting? {
      assert Enabled(sh, st, FanEvictStep(Pick(st.fan.dereg, Stream(""))));
    } else {
      SomeConn(st.fan.evicted);
      var c :| c in st.fan.evicted;
      assert Enabled(sh, st, FanEvict(c));
    }
  }

  lemma HandlerMoves(sh: Shards, st: State, c: ConnId)
    requires !FanOnStream(st.fan) && c in st.tasks && !st.tasks[c].Idle? && st.tasks[c] != Leaving(Finished)
    requires forall o :: o in st.tasks ==> !HoldsList(st.tasks[o])
    ensures CanContinue(sh, st)
  {
    match st.tasks[c] {
      case Allocated => assert Enabled(sh, st, RegInsert(c));
      case Inserted => assert Enabled(sh, st, RegIndex(c));
      case Indexed => assert Enabled(sh, st, RegCount(c));
      case UnsubReap(_) => assert Enabled(sh, st, UnsubRemoveIf(c));
      case UnsubReverse(_) => assert Enabled(sh, st, UnsubRecord(c));
      case Leaving(d) => assert Enabled(sh, st, LeaveStep(c, Pick(d, Stream(""))));
    }
  }

  /** In every reachable state with a call in progress some call in progress can take a step. */
  lemma NoDeadlock(sh: Shards, st: State)
    requires Inv(st) && !Quiescent(st)
    ensures CanContinue(sh, st)
  {
    if FanOnStream(st.fan) {
      WalkerMoves(sh, st);
    } else if c :| c in st.tasks && HoldsList(st.tasks[c]) {
      SubscriberMoves(sh, st, c);
    } else if st.fan != Between(multiset{}) {
      if st.fan.Evicting? {
        assert ConnInv(ViewOf(st, st.fan.conn));
        assert st.fan.conn in InHand(st.fan);
      }
      EvictorMoves(sh, st);
    } else {
      var c :| c in st.tasks && !st.tasks[c].Idle? && st.tasks[c] != Leaving(Finished);
      HandlerMoves(sh, st, c);
    }
  }

  // ---------------------------------------------------------------------------
  // Every continuing step lowers a weight
  // ---------------------------------------------------------------------------

  function DeregWeight(d: Dereg): nat {
    match d
    case TakeList => 3
    case Scrub(p) => 2 * |p| + 2
    case Reap(_, p) => 2 * |p| + 3
    case Decrement => 1
    case Finished => 0
  }

  function PcWeight(h: Handler): nat {
    match h
    case Allocated => 3
    case Inserted => 2
    case Indexed => 1
    case Idle => 0
    case SubHeld(_) => 4
    case SubPushed(_) => 3
    case UnsubReap(_) => 2
    case UnsubReverse(_) => 1
    case Leaving(d) => DeregWeight(d)
  }

  function ViewWeight(v: View): nat {
    PcWeight(v.pc) + if v.list.Some? then 2 * |v.list.value| else 0
  }

  function FanWeight(fan: Fan): nat {
    match fan
    case Between(evicted) => 5 * |evicted|
    case Iterating(_, _, todo, evicted) => 7 * |todo| + 5 * |evicted| + 1
    case Sending(_, _, _, todo, evicted) => 7 * |todo| + 5 * |evicted| + 7
    case Evicting(_, d, evicted) => 5 * |evicted| + DeregWeight(d) + 1
  }

  /** Weight of the connections with ids below n. */
  function Total(st: State, n: nat): nat {
    if n == 0 then 0 else Total(st, n - 1) + ViewWeight(ViewOf(st, n - 1))
  }

  function Weight(st: State): nat
    requires st.nextId >= 0
  {
    Total(st, st.nextId) + FanWeight(st.fan)
  }

  lemma {:induction false} TotalMoves(st: State, next: State, c: ConnId, v: View, n: nat)
    requires Moves(st, next, c, v)
    ensures Total(next, n) == Total(st, n) + (if 0 <= c < n then ViewWeight(v) - ViewWeight(ViewOf(st, c)) else 0)
  {
    if n > 0 {
      TotalMoves(st, next, c, v, n - 1);
      assert ViewOf(next, n - 1) == if n - 1 == c then v else ViewOf(st, n - 1);
    }
  }

  lemma OwnStepLighter(v: View, step: Step, seen: bool)
    requires ConnInv(v) && PcAllows(v.pc, step) && !BeginsCall(step)
    ensures ViewWeight(Moved(v, step, seen)) < ViewWeight(v)
  {
  }

  lemma DeregLighter(v: View, d: Dereg, pick: Stream, seen: bool)
    requires !d.Finished? && (d.Scrub? && d.pending != multiset{} ==> pick in d.pending)
    ensures
      var next := DeregMoved(v, d, pick);
      && next.pc == v.pc
      && DeregWeight(DeregAfter(v, d, pick, seen)) + ViewWeight(next) < DeregWeight(d) + ViewWeight(v)
  {
  }

  lemma OwnStepWeight(sh: Shards, st: State, step: Step, c: ConnId)
    requires Inv(st) && Enabled(sh, st, step) && OwnStep(step, c) && !BeginsCall(step)
    ensures Weight(Apply(st, step)) < Weight(st)
  {
    var v := ViewOf(st, c);
    assert ConnInv(v);
    OwnStepMoves(sh, st, step, c);
    OwnStepLocal(sh, st, step, c);
    OwnStepLighter(v, step, false);
    TotalMoves(st, Apply(st, step), c, Moved(v, step, false), st.nextId);
  }

  lemma LeaveStepWeight(sh: Shards, st: State, c: ConnId, pick: Stream)
    requires Inv(st) && Enabled(sh, st, LeaveStep(c, pick))
    ensures Apply(st, LeaveStep(c, pick)).nextId == st.nextId
    ensures Weight(Apply(st, LeaveStep(c, pick))) < Weight(st)
  {
    var v, next := ViewOf(st, c), Apply(st, LeaveStep(c, pick));
    var d, seen := v.pc.dereg, SawEmpty(st.shared, c, pick);
    LeaveStepMoves(sh, st, c, pick);
    DeregLighter(v, d, pick, seen);
    TotalMoves(st, next, c, DeregMoved(v, d, pick).(pc := Leaving(DeregAfter(v, d, pick, seen))), st.nextId);
  }

  lemma EvictStepWeight(sh: Shards, st: State, pick: Stream)
    requires Inv(st) && Enabled(sh, st, FanEvictStep(pick))
    ensures Weight(Apply(st, FanEvictStep(pick))) < Weight(st)
  {
    var c, d := st.fan.conn, st.fan.dereg;
    var v, next := ViewOf(st, c), Apply(st, FanEvictStep(pick));
    var seen := SawEmpty(st.shared, c, pick);
    assert c in InHand(st.fan);
    EvictStepMoves(sh, st, pick);
    DeregLighter(v, d, pick, seen);
    TotalMoves(st, next, c, DeregMoved(v, d, pick).(evict := Evicted(DeregAfter(v, d, pick, seen))), st.nextId);
  }

  lemma WalkStepWeight(sh: Shards, st: State, step: Step)
    requires st.nextId >= 0 && Ids(st) && Enabled(sh, st, step)
    requires step.FanLookup? || step.FanSend? || step.FanRelease?
    ensures Weight(Apply(st, step)) < Weight(st)
  {
    QuietStepMoves(sh, st, step);
    TotalMoves(st, Apply(st, step), 0, ViewOf(st, 0), st.nextId);
  }

  lemma EvictWeight(sh: Shards, st: State, c: ConnId)
    requires st.nextId >= 0 && Enabled(sh, st, FanEvict(c))
    ensures Weight(Apply(st, FanEvict(c))) < Weight(st)
  {
    EvictMoves(sh, st, c);
    TotalMoves(st, Apply(st, FanEvict(c)), c, ViewOf(st, c).(evict := Some(TakeList)), st.nextId);
  }

  lemma StepLighter(sh: Shards, st: State, step: Step)
    requires Inv(st) && Enabled(sh, st, step) && !BeginsCall(step)
    ensures Apply(st, step).nextId >= 0
    ensures Weight(Apply(st, step)) < Weight(st)
  {
    match step {
      case LeaveStep(c, pick) => LeaveStepWeight(sh, st, c, pick);
      case FanEvictStep(pick) => EvictStepWeight(sh, st, pick);
      case RegInsert(c) => OwnStepWeight(sh, st, step, c);
      case RegIndex(c) => OwnStepWeight(sh, st, step, c);
      case RegCount(c) => OwnStepWeight(sh, st, step, c);
      case SubPush(c) => OwnStepWeight(sh, st, step, c);
      case SubRecord(c) => OwnStepWeight(sh, st, step, c);
      case UnsubRemoveIf(c) => OwnStepWeight(sh, st, step, c);
      case UnsubRecord(c) => OwnStepWeight(sh, st, step, c);
      case FanEvict(c) => EvictWeight(sh, st, c);
      case _ => WalkStepWeight(sh, st, step);
    }
  }

  // ---------------------------------------------------------------------------
  // Calls finish
  // ---------------------------------------------------------------------------

  /** However the steps are scheduled, calls in progress take at most `Weight` steps together. */
  lemma {:induction false} CallsBounded(sh: Shards, st: State, run: seq<Step>)
    requires Inv(st) && ValidRun(sh, st, run)
    requires forall i :: 0 <= i < |run| ==> !BeginsCall(run[i])
    ensures |run| <= Weight(st)
    decreases |run|
  {
    if run != [] {
      StepLighter(sh, st, run[0]);
      StepKeepsInv(sh, st, run[0]);
      CallsBounded(sh, Apply(st, run[0]), run[1..]);
    }
  }

  /** A run that begins no call and cannot be continued has finished every call. */
  lemma StuckMeansQuiescent(sh: Shards, st: State, run: seq<Step>)
    requires Inv(st) && ValidRun(sh, st, run)
    requires forall i :: 0 <= i < |run| ==> !BeginsCall(run[i])
    requires !CanContinue(sh, Execute(st, run))
    ensures Quiescent(Execute(st, run)) && |run| <= Weight(st)
  {
    RunKeepsInv(sh, st, run);
    if !Quiescent(Execute(st, run)) {
      NoDeadlock(sh, Execute(st, run));
    }
    CallsBounded(sh, st, run);
  }

  /** From every state the calls in progress can be brought to an end. */
  lemma {:induction false} CallsFinish(sh: Shards, st: State) returns (run: seq<Step>)
    requires Inv(st)
    ensures ValidRun(sh, st, run) && Quiescent(Execute(st, run))
    ensures forall i :: 0 <= i < |run| ==> !BeginsCall(run[i])
    decreases Weight(st)
  {
    if Quiescent(st) {
      run := [];
    } else {
      NoDeadlock(sh, st);
      var step :| Enabled(sh, st, step) && !BeginsCall(step);
      StepLighter(sh, st, step);
      StepKeepsInv(sh, st, step);
      var rest := CallsFinish(sh, Apply(st, step));
      run := [step] + rest;
      assert run[1..] == rest;
    }
  }
}
