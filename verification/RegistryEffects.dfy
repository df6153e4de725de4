/**
 * What the registry's calls bring about, whatever happens in between: over every run, a connection is
 * listed on a stream just if its last call there was a subscribe, until it leaves or a frame to it fails.
 */
module RegistryEffects {
  import opened Wrappers
  import opened RegistryModel
  import opened RegistrySafety
  import opened RegistryDelivery
  import opened RegistryProgress

  // ---------------------------------------------------------------------------
  // Where the last call on a stream has got to
  // ---------------------------------------------------------------------------

  /** The connection's last call on s, a subscribe if `want`, is in progress or done, unless it was deregistered. */
  predicate Heeded(v: View, s: Stream, want: bool) {
    if !Registered(v.pc) then !want
    else if v.list.None? then true
    else if want then v.pc == SubHeld(s) || v.pc == SubPushed(s) || (s in v.list.value && !Unsubscribing(v, s))
    else Unsubscribing(v, s) || (s !in v.list.value && v.pc != SubHeld(s) && v.pc != SubPushed(s))
  }

  /** Was c's last call on s a subscribe, after this step? */
  function Wants(step: Step, c: ConnId, s: Stream, want: bool): bool {
    if step == SubBegin(c, s) then true else if step == UnsubBegin(c, s) then false else want
  }

  lemma OwnStepHeeded(v: View, step: Step, seen: bool, c: ConnId, s: Stream, want: bool)
    requires ConnInv(v) && OwnStep(step, c) && PcAllows(v.pc, step)
    requires Heeded(v, s, want) || step == SubBegin(c, s) || step == UnsubBegin(c, s)
    ensures Heeded(Moved(v, step, seen), s, Wants(step, c, s, want))
  {
  }

  lemma OwnStepHeeds(sh: Shards, st: State, step: Step, o: ConnId, c: ConnId, s: Stream, want: bool)
    requires Inv(st) && Enabled(sh, st, step) && OwnStep(step, o)
    requires Heeded(ViewOf(st, c), s, want) || step == SubBegin(c, s) || step == UnsubBegin(c, s)
    ensures Heeded(ViewOf(Apply(st, step), c), s, Wants(step, c, s, want))
  {
    assert ConnInv(ViewOf(st, o));
    OwnStepMoves(sh, st, step, o);
    if o == c {
      OwnStepHeeded(ViewOf(st, c), step, step.UnsubBegin? && SawEmpty(st.shared, c, step.s), c, s, want);
    }
  }

  lemma LeaveHeeded(v: View, pick: Stream, seen: bool, s: Stream, want: bool)
    requires ConnInv(v) && v.pc.Leaving? && Heeded(v, s, want)
    ensures Heeded(DeregMoved(v, v.pc.dereg, pick).(pc := Leaving(DeregAfter(v, v.pc.dereg, pick, seen))), s, want)
  {
  }

  lemma EvictHeeded(v: View, d: Dereg, pick: Stream, evict: Option<Dereg>, s: Stream, want: bool)
    requires Heeded(v, s, want) && (d.TakeList? ==> Registered(v.pc))
    ensures Heeded(DeregMoved(v, d, pick).(evict := evict), s, want)
  {
  }

  lemma DeregHeeds(sh: Shards, st: State, step: Step, c: ConnId, s: Stream, want: bool)
    requires Inv(st) && Enabled(sh, st, step) && Heeded(ViewOf(st, c), s, want)
    requires step.LeaveStep? || step.FanEvictStep?
    ensures Heeded(ViewOf(Apply(st, step), c), s, want)
  {
    var v := ViewOf(st, c);
    assert ConnInv(v);
    if step.LeaveStep? {
      LeaveStepMoves(sh, st, step.c, step.pick);
      if step.c == c {
        LeaveHeeded(v, step.pick, SawEmpty(st.shared, c, step.pick), s, want);
      }
    } else {
      EvictStepMoves(sh, st, step.pick);
      if st.fan.conn == c {
        assert c in InHand(st.fan);
        var d := DeregAfter(v, st.fan.dereg, step.pick, SawEmpty(st.shared, c, step.pick));
        EvictHeeded(v, st.fan.dereg, step.pick, Evicted(d), s, want);
      }
    }
  }

  lemma StepHeeded(sh: Shards, st: State, step: Step, c: ConnId, s: Stream, want: bool)
    requires Inv(st) && Enabled(sh, st, step)
    requires Heeded(ViewOf(st, c), s, want) || step == SubBegin(c, s) || step == UnsubBegin(c, s)
    ensures Heeded(ViewOf(Apply(st, step), c), s, Wants(step, c, s, want))
  {
    if QuietStep(step) {
      QuietStepMoves(sh, st, step);
    } else if step.LeaveStep? || step.FanEvictStep? {
      DeregHeeds(sh, st, step, c, s, want);
    } else if step.FanEvict? {
      EvictMoves(sh, st, step.c);
    } else {
      OwnStepHeeds(sh, st, step, step.c, c, s, want);
    }
  }

  function WantsAfter(run: seq<Step>, c: ConnId, s: Stream, want: bool): bool
    decreases |run|
  {
    if run == [] then want else WantsAfter(run[1..], c, s, Wants(run[0], c, s, want))
  }

  lemma {:induction false} RunHeeded(sh: Shards, st: State, run: seq<Step>, c: ConnId, s: Stream, want: bool)
    requires Inv(st) && ValidRun(sh, st, run) && Heeded(ViewOf(st, c), s, want)
    ensures Heeded(ViewOf(Execute(st, run), c), s, WantsAfter(run, c, s, want))
    decreases |run|
  {
    if run != [] {
      StepHeeded(sh, st, run[0], c, s, want);
      StepKeepsInv(sh, st, run[0]);
      RunHeeded(sh, Apply(st, run[0]), run[1..], c, s, Wants(run[0], c, s, want));
    }
  }

  /** Between calls, the last one has been carried out. */
  lemma HeededAtRest(st: State, c: ConnId, s: Stream, want: bool)
    requires Inv(st) && Heeded(ViewOf(st, c), s, want) && Is(st.tasks, c, Idle) && c in st.shared.connStreams
    ensures Listed(st, c, s) <==> want
    ensures Recorded(st, c, s) <==> want
  {
    assert ConnInv(ViewOf(st, c));
    assert Listed(st, c, s) <==> s in ViewOf(st, c).listed;
  }

  // ---------------------------------------------------------------------------
  // One call
  // ---------------------------------------------------------------------------

  lemma {:induction false} WantsKept(run: seq<Step>, c: ConnId, s: Stream, want: bool)
    requires (if want then UnsubBegin(c, s) else SubBegin(c, s)) !in run
    ensures WantsAfter(run, c, s, want) == want
    decreases |run|
  {
    if run != [] {
      assert run[0] in run;
      WantsKept(run[1..], c, s, want);
    }
  }

  /** A call on s that is not taken back, in any run: what it asked for is done when c is between calls again. */
  lemma LastCallDone(sh: Shards, st: State, run: seq<Step>, c: ConnId, s: Stream, want: bool)
    requires Inv(st) && ValidRun(sh, st, run)
    requires run != [] && run[0] == (if want then SubBegin(c, s) else UnsubBegin(c, s))
    requires (if want then UnsubBegin(c, s) else SubBegin(c, s)) !in run[1..]
    requires Is(Execute(st, run).tasks, c, Idle) && c in Execute(st, run).shared.connStreams
    ensures Listed(Execute(st, run), c, s) <==> want
    ensures Recorded(Execute(st, run), c, s) <==> want
  {
    var next, rest := Apply(st, run[0]), run[1..];
    StepHeeded(sh, st, run[0], c, s, want);
    StepKeepsInv(sh, st, run[0]);
    RunHeeded(sh, next, rest, c, s, want);
    WantsKept(rest, c, s, want);
    RunKeepsInv(sh, st, run);
    HeededAtRest(Execute(st, run), c, s, want);
  }

  /** A subscribe lists the connection, and records it, whatever the other tasks and its own other calls do. */
  lemma SubscribeTakesEffect(sh: Shards, st: State, run: seq<Step>, c: ConnId, s: Stream)
    requires Inv(st) && ValidRun(sh, st, run)
    requires run != [] && run[0] == SubBegin(c, s) && UnsubBegin(c, s) !in run[1..]
    requires Is(Execute(st, run).tasks, c, Idle) && c in Execute(st, run).shared.connStreams
    ensures Listed(Execute(st, run), c, s) && Recorded(Execute(st, run), c, s)
  {
    LastCallDone(sh, st, run, c, s, true);
  }

  /** An unsubscribe takes both away. */
  lemma UnsubscribeTakesEffect(sh: Shards, st: State, run: seq<Step>, c: ConnId, s: Stream)
    requires Inv(st) && ValidRun(sh, st, run)
    requires run != [] && run[0] == UnsubBegin(c, s) && SubBegin(c, s) !in run[1..]
    requires Is(Execute(st, run).tasks, c, Idle) && c in Execute(st, run).shared.connStreams
    ensures !Listed(Execute(st, run), c, s) && !Recorded(Execute(st, run), c, s)
  {
    LastCallDone(sh, st, run, c, s, false);
  }

  predicate Leaves(st: State, c: ConnId) {
    c in st.tasks && st.tasks[c].Leaving?
  }

  lemma LeavesOn(sh: Shards, st: State, step: Step, c: ConnId)
    requires Ids(st) && Enabled(sh, st, step) && (Leaves(st, c) || step == Leave(c))
    ensures Leaves(Apply(st, step), c)
  {
  }

  lemma {:induction false} StillLeaves(sh: Shards, st: State, run: seq<Step>, c: ConnId)
    requires Inv(st) && ValidRun(sh, st, run) && (Leaves(st, c) || Leave(c) in run)
    ensures Leaves(Execute(st, run), c)
    decreases |run|
  {
    if run != [] {
      if Leaves(st, c) || run[0] == Leave(c) {
        LeavesOn(sh, st, run[0], c);
      }
      StepKeepsInv(sh, st, run[0]);
      StillLeaves(sh, Apply(st, run[0]), run[1..], c);
    }
  }

  /** A deregister, once done, leaves the connection in no map. */
  lemma LeaveTakesEffect(sh: Shards, st: State, run: seq<Step>, c: ConnId)
    requires Inv(st) && ValidRun(sh, st, run) && Leave(c) in run && Quiescent(Execute(st, run))
    ensures
      var end := Execute(st, run);
      c !in end.shared.connections && c !in end.shared.connStreams && forall s :: !Listed(end, c, s)
  {
    StillLeaves(sh, st, run, c);
    RunKeepsInv(sh, st, run);
    Gone(Execute(st, run), c);
  }

  lemma Gone(st: State, c: ConnId)
    requires Inv(st) && Quiescent(st) && c in st.tasks && (st.tasks[c].Leaving? || c !in st.shared.connections)
    ensures c !in st.shared.connections && c !in st.shared.connStreams && forall s :: !Listed(st, c, s)
  {
    assert ConnInv(ViewOf(st, c));
    assert forall s :: Listed(st, c, s) <==> s in ViewOf(st, c).listed;
  }

  // ---------------------------------------------------------------------------
  // Who is known
  // ---------------------------------------------------------------------------

  /** Only those a frame to whom failed are deregistered by the fan-out task. */
  ghost predicate KnownInv(st: State) {
    && (forall c :: Doomed(st.fan, c) ==> c in st.history.failed)
    && (forall c :: c in st.tasks && Registered(st.tasks[c]) && !st.tasks[c].Leaving? && c !in st.history.failed ==>
          c in st.shared.connStreams)
  }

  /** The fan-out task takes on nobody new but by a failed send. */
  lemma StepDoomed(sh: Shards, st: State, step: Step, c: ConnId)
    requires Enabled(sh, st, step) && Doomed(Apply(st, step).fan, c) && !Doomed(st.fan, c)
    ensures c in Apply(st, step).history.failed
  {
    if !step.FanSend? {
      DoomedOnly(sh, st, step, c);
    }
  }

  lemma DoomedOnly(sh: Shards, st: State, step: Step, c: ConnId)
    requires Enabled(sh, st, step) && !step.FanSend? && Doomed(Apply(st, step).fan, c)
    ensures Doomed(st.fan, c)
  {
  }

  /** Only a deregister takes a reverse entry away, and only register and the fan-out task change who is what. */
  predicate Stays(v: View, next: View, failed: bool) {
    Registered(next.pc) && !next.pc.Leaving? && !failed && (Registered(v.pc) ==> v.list.Some?) ==> next.list.Some?
  }

  lemma OwnStepStays(v: View, step: Step, seen: bool)
    requires ConnInv(v) && PcAllows(v.pc, step)
    ensures Stays(v, Moved(v, step, seen), false)
    ensures Moved(v, step, seen).pc.Leaving? || !v.pc.Leaving?
  {
  }

  lemma OwnStepOnList(sh: Shards, st: State, step: Step, o: ConnId, c: ConnId)
    requires Inv(st) && Enabled(sh, st, step) && OwnStep(step, o)
    ensures Stays(ViewOf(st, c), ViewOf(Apply(st, step), c), false)
    ensures ViewOf(st, c).pc.Leaving? ==> ViewOf(Apply(st, step), c).pc.Leaving?
  {
    assert ConnInv(ViewOf(st, o));
    OwnStepMoves(sh, st, step, o);
    if o == c {
      OwnStepStays(ViewOf(st, c), step, step.UnsubBegin? && SawEmpty(st.shared, c, step.s));
    }
  }

  lemma StepStays(sh: Shards, st: State, step: Step, c: ConnId)
    requires Inv(st) && KnownInv(st) && Enabled(sh, st, step)
    ensures Stays(ViewOf(st, c), ViewOf(Apply(st, step), c), c in st.history.failed)
    ensures ViewOf(st, c).pc.Leaving? ==> ViewOf(Apply(st, step), c).pc.Leaving?
  {
    if QuietStep(step) {
      QuietStepMoves(sh, st, step);
    } else if step.LeaveStep? {
      LeaveStepMoves(sh, st, step.c, step.pick);
    } else if step.FanEvictStep? {
      EvictStepMoves(sh, st, step.pick);
      assert Doomed(st.fan, st.fan.conn);
    } else if step.FanEvict? {
      EvictMoves(sh, st, step.c);
    } else {
      OwnStepOnList(sh, st, step, step.c, c);
    }
  }

  lemma FailedGrows(st: State, step: Step)
    ensures st.history.failed <= Apply(st, step).history.failed
  {
  }

  lemma StepKeepsKnown(sh: Shards, st: State, step: Step)
    requires Inv(st) && KnownInv(st) && Enabled(sh, st, step)
    ensures KnownInv(Apply(st, step))
  {
    var next := Apply(st, step);
    FailedGrows(st, step);
    forall c | Doomed(next.fan, c) ensures c in next.history.failed {
      if !Doomed(st.fan, c) {
        StepDoomed(sh, st, step, c);
      }
    }
    StepKeepsInv(sh, st, step);
    forall c | c in next.tasks && Registered(next.tasks[c]) && !next.tasks[c].Leaving? && c !in next.history.failed
      ensures c in next.shared.connStreams
    {
      StepStays(sh, st, step, c);
    }
  }

  lemma {:induction false} RunKeepsKnown(sh: Shards, st: State, run: seq<Step>)
    requires Inv(st) && KnownInv(st) && ValidRun(sh, st, run)
    ensures KnownInv(Execute(st, run))
    decreases |run|
  {
    if run != [] {
      StepKeepsKnown(sh, st, run[0]);
      StepKeepsInv(sh, st, run[0]);
      RunKeepsKnown(sh, Apply(st, run[0]), run[1..]);
    }
  }

  lemma {:induction false} LeavingMeansLeft(sh: Shards, st: State, run: seq<Step>, c: ConnId)
    requires ValidRun(sh, st, run) && !Leaves(st, c) && Leaves(Execute(st, run), c)
    ensures Leave(c) in run
    decreases |run|
  {
    if run != [] && !Leaves(Apply(st, run[0]), c) {
      LeavingMeansLeft(sh, Apply(st, run[0]), run[1..], c);
    }
  }

  // ---------------------------------------------------------------------------
  // Whole runs
  // ---------------------------------------------------------------------------

  /** c asked for s and has not taken it back. */
  ghost predicate Asked(run: seq<Step>, c: ConnId, s: Stream) {
    exists i :: 0 <= i < |run| && run[i] == SubBegin(c, s) && UnsubBegin(c, s) !in run[i..]
  }

  lemma {:induction false} WantsMeansAsked(run: seq<Step>, c: ConnId, s: Stream, want: bool)
    ensures WantsAfter(run, c, s, want) <==> Asked(run, c, s) || (want && UnsubBegin(c, s) !in run)
    decreases |run|
  {
    if run != [] {
      var rest := run[1..];
      WantsMeansAsked(rest, c, s, Wants(run[0], c, s, want));
      AskedLater(run, c, s);
      assert run == [run[0]] + rest;
    }
  }

  lemma AskedLater(run: seq<Step>, c: ConnId, s: Stream)
    requires run != []
    ensures Asked(run, c, s) <==> Asked(run[1..], c, s) || (run[0] == SubBegin(c, s) && UnsubBegin(c, s) !in run[1..])
  {
    var rest := run[1..];
    assert run == [run[0]] + rest;
    if Asked(run, c, s) {
      var i :| 0 <= i < |run| && run[i] == SubBegin(c, s) && UnsubBegin(c, s) !in run[i..];
      if i > 0 {
        assert rest[i - 1..] == run[i..];
      } else {
        assert run[0..] == run;
      }
    }
    if Asked(rest, c, s) {
      var i :| 0 <= i < |rest| && rest[i] == SubBegin(c, s) && UnsubBegin(c, s) !in rest[i..];
      assert run[i + 1..] == rest[i..];
    }
    if run[0] == SubBegin(c, s) && UnsubBegin(c, s) !in rest {
      assert run[0..] == run;
    }
  }

  /** After any run, a known connection between calls is listed on s, and recorded, just if it asked for s. */
  lemma ListedIffAsked(sh: Shards, run: seq<Step>, c: ConnId, s: Stream)
    requires ValidRun(sh, INIT, run)
    requires Is(Execute(INIT, run).tasks, c, Idle) && c in Execute(INIT, run).shared.connStreams
    ensures Listed(Execute(INIT, run), c, s) <==> Asked(run, c, s)
    ensures Recorded(Execute(INIT, run), c, s) <==> Asked(run, c, s)
  {
    InitInv();
    RunKeepsInv(sh, INIT, run);
    RunHeeded(sh, INIT, run, c, s, false);
    WantsMeansAsked(run, c, s, false);
    HeededAtRest(Execute(INIT, run), c, s, Asked(run, c, s));
  }

  /**
   * The registry at rest, after any run: it lists just the subscriptions asked for and not taken back by
   * connections that have not left and to whom no frame has failed.
   */
  lemma RestingRelation(sh: Shards, run: seq<Step>, c: ConnId, s: Stream)
    requires ValidRun(sh, INIT, run) && Quiescent(Execute(INIT, run))
    ensures
      var st := Execute(INIT, run);
      Listed(st, c, s) <==> Asked(run, c, s) && Leave(c) !in run && c !in st.history.failed
  {
    var st := Execute(INIT, run);
    InitDelivery();
    RunKeepsDelivery(sh, INIT, run);
    RunKeepsKnown(sh, INIT, run);
    if c !in st.tasks {
      NeverHandedOut(sh, run, c, s);
    } else if Leave(c) in run {
      LeaveTakesEffect(sh, INIT, run, c);
    } else if c in st.history.failed {
      Gone(st, c);
    } else {
      if Leaves(st, c) {
        LeavingMeansLeft(sh, INIT, run, c);
      }
      ListedIffAsked(sh, run, c, s);
    }
  }

  /** An id nobody has asks for nothing. */
  lemma NeverHandedOut(sh: Shards, run: seq<Step>, c: ConnId, s: Stream)
    requires ValidRun(sh, INIT, run) && c !in Execute(INIT, run).tasks
    ensures !Listed(Execute(INIT, run), c, s) && !Asked(run, c, s)
  {
    var st := Execute(INIT, run);
    InitInv();
    RunKeepsInv(sh, INIT, run);
    RunHeeded(sh, INIT, run, c, s, false);
    WantsMeansAsked(run, c, s, false);
    assert ConnInv(ViewOf(st, c));
    assert Listed(st, c, s) <==> s in ViewOf(st, c).listed;
  }

  // ---------------------------------------------------------------------------
  // A call on its own
  // ---------------------------------------------------------------------------

  /** The call a step begins, if it is one of c's. */
  predicate CallOf(step: Step, c: ConnId) {
    (step.SubBegin? || step.UnsubBegin? || step.Leave?) && step.c == c
  }

  /** Nobody but c has a call in progress. */
  ghost predicate Alone(st: State, c: ConnId) {
    && st.fan == Between(multiset{})
    && (forall o :: o in st.tasks && o != c ==> st.tasks[o].Idle? || st.tasks[o] == Leaving(Finished))
  }

  lemma AloneStep(sh: Shards, st: State, step: Step, c: ConnId, o: ConnId)
    requires Inv(st) && Enabled(sh, st, step) && Alone(st, c) && (!BeginsCall(step) || CallOf(step, c))
    ensures Alone(Apply(st, step), c)
    ensures o != c ==> ViewOf(Apply(st, step), o) == ViewOf(st, o)
    ensures c in st.shared.connStreams && !Leaves(Apply(st, step), c) ==> c in Apply(st, step).shared.connStreams
  {
    assert ConnInv(ViewOf(st, c));
    if step.LeaveStep? {
      LeaveStepMoves(sh, st, c, step.pick);
    } else {
      OwnStepMoves(sh, st, step, c);
    }
  }

  lemma {:induction false} AloneRun(sh: Shards, st: State, run: seq<Step>, c: ConnId, o: ConnId)
    requires Inv(st) && ValidRun(sh, st, run) && Alone(st, c)
    requires forall i :: 0 <= i < |run| ==> !BeginsCall(run[i]) || CallOf(run[i], c)
    ensures o != c ==> ViewOf(Execute(st, run), o) == ViewOf(st, o)
    ensures c in st.shared.connStreams && Leave(c) !in run && !Leaves(st, c) ==>
              c in Execute(st, run).shared.connStreams && !Leaves(Execute(st, run), c)
    decreases |run|
  {
    if run != [] {
      assert run[0] in run;
      AloneStep(sh, st, run[0], c, o);
      StepKeepsInv(sh, st, run[0]);
      AloneRun(sh, Apply(st, run[0]), run[1..], c, o);
    }
  }

  /** The relation after a call of c, as a set of pairs would have it. */
  ghost predicate AfterCall(st: State, call: Step, c: ConnId, o: ConnId, s: Stream) {
    match call
    case SubBegin(_, z) => Listed(st, o, s) || (o == c && s == z && c in st.shared.connStreams)
    case UnsubBegin(_, z) => Listed(st, o, s) && !(o == c && s == z)
    case _ => Listed(st, o, s) && o != c
  }

  /** In a quiescent state the last call on s, whatever it was, shows in the list. */
  lemma HeededQuiescent(st: State, c: ConnId, s: Stream)
    requires Inv(st) && Quiescent(st)
    ensures Heeded(ViewOf(st, c), s, Listed(st, c, s))
  {
    assert ConnInv(ViewOf(st, c));
    assert Listed(st, c, s) <==> s in ViewOf(st, c).listed;
  }

  lemma SubOrUnsubAlone(sh: Shards, st: State, run: seq<Step>, c: ConnId, s: Stream)
    requires Inv(st) && Quiescent(st) && ValidRun(sh, st, run) && Quiescent(Execute(st, run))
    requires run != [] && CallOf(run[0], c) && !run[0].Leave?
    requires forall i :: 0 < i < |run| ==> !BeginsCall(run[i])
    ensures Listed(Execute(st, run), c, s) <==> AfterCall(st, run[0], c, c, s)
  {
    var end, want := Execute(st, run), Listed(st, c, s);
    RunKeepsInv(sh, st, run);
    HeededQuiescent(st, c, s);
    AloneRun(sh, st, run, c, c);
    if c in st.shared.connStreams {
      RunHeeded(sh, st, run, c, s, want);
      WantsKept(run[1..], c, s, Wants(run[0], c, s, want));
      StaysHandedOut(sh, st, run, c);
      HeededAtRest(end, c, s, Wants(run[0], c, s, want));
    } else {
      assert ConnInv(ViewOf(st, c)) && ConnInv(ViewOf(end, c));
      DepartedNeverReturns(sh, st, run, c);
      assert Listed(st, c, s) <==> s in ViewOf(st, c).listed;
      assert Listed(end, c, s) <==> s in ViewOf(end, c).listed;
    }
  }

  lemma {:induction false} StaysHandedOut(sh: Shards, st: State, run: seq<Step>, c: ConnId)
    requires ValidRun(sh, st, run) && c in st.tasks
    ensures c in Execute(st, run).tasks
    decreases |run|
  {
    if run != [] {
      StaysHandedOut(sh, Apply(st, run[0]), run[1..], c);
    }
  }

  /**
   * Run with nobody else at work, from a state at rest to a state at rest, a call does to the relation what
   * it does to a plain set of pairs.
   */
  lemma AloneIsAtomic(sh: Shards, st: State, run: seq<Step>, c: ConnId, o: ConnId, s: Stream)
    requires Inv(st) && Quiescent(st) && ValidRun(sh, st, run) && Quiescent(Execute(st, run))
    requires run != [] && CallOf(run[0], c) && forall i :: 0 < i < |run| ==> !BeginsCall(run[i])
    ensures Listed(Execute(st, run), o, s) <==> AfterCall(st, run[0], c, o, s)
  {
    if o != c {
      AloneRun(sh, st, run, c, o);
      assert Listed(st, o, s) <==> s in ViewOf(st, o).listed;
      assert Listed(Execute(st, run), o, s) <==> s in ViewOf(Execute(st, run), o).listed;
    } else if run[0].Leave? {
      assert run[0] == Leave(c);
      LeaveTakesEffect(sh, st, run, c);
    } else {
      SubOrUnsubAlone(sh, st, run, c, s);
    }
  }

  /** And such a run there is, for every call of a connection that is between calls. */
  lemma CallPossible(sh: Shards, st: State, call: Step, c: ConnId) returns (run: seq<Step>)
    requires Inv(st) && Quiescent(st) && Is(st.tasks, c, Idle) && CallOf(call, c)
    ensures ValidRun(sh, st, run) && Quiescent(Execute(st, run))
    ensures run != [] && run[0] == call && forall i :: 0 < i < |run| ==> !BeginsCall(run[i])
  {
    assert Enabled(sh, st, call);
    StepKeepsInv(sh, st, call);
    var rest := CallsFinish(sh, Apply(st, call));
    run := [call] + rest;
    assert run[1..] == rest;
  }
}
