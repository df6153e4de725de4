/**
 * Live delivery through the registry: what a subscription accepts has no gap.
 */
module RegistryDelivery {
  import opened RegistryModel
  import opened RegistrySafety

  /** The message being fanned out on s has not reached c yet. */
  predicate Due(fan: Fan, c: ConnId, s: Stream) {
    FanOnStream(fan) && fan.stream == s && (c in fan.todo || (fan.Sending? && fan.conn == c))
  }

  /** The fan-out task failed to queue a frame for c and has not finished deregistering it. */
  predicate Doomed(fan: Fan, c: ConnId) {
    c in fan.evicted || (fan.Evicting? && fan.conn == c)
  }

  /** What the subscription accepted is a contiguous piece of what its stream fanned out. */
  predicate Window(hist: History, s: Stream, b: Sub) {
    && b.start + |b.got| <= |Fanned(hist, s)|
    && b.got == Fanned(hist, s)[b.start..b.start + |b.got|]
  }

  /** The subscription accepted everything fanned out since it began. */
  predicate UpToDate(hist: History, fan: Fan, c: ConnId, s: Stream, b: Sub) {
    b.start + |b.got| + (if Due(fan, c, s) then 1 else 0) == |Fanned(hist, s)|
  }

  /** c is subscribed to s, still connected, and no frame to it has failed. */
  predicate Healthy(st: State, c: ConnId, s: Stream) {
    Listed(st, c, s) && c in st.shared.connections && c !in st.history.failed
  }

  ghost predicate SubsInv(st: State) {
    && (forall c, s :: Listed(st, c, s) ==> (c, s) in st.history.subs)
    && (forall c, s :: (c, s) in st.history.subs ==>
          Window(st.history, s, st.history.subs[(c, s)]) && st.history.subs[(c, s)].epoch < st.history.epochs)
    && (forall c, s :: Healthy(st, c, s) && (c, s) in st.history.subs ==>
          UpToDate(st.history, st.fan, c, s, st.history.subs[(c, s)]))
  }

  ghost predicate FailedInv(st: State) {
    forall c :: c in st.history.failed ==>
      && c in st.tasks && Registered(st.tasks[c])
      && (c in st.shared.connections ==> Doomed(st.fan, c))
  }

  predicate MessageInv(st: State) {
    FanOnStream(st.fan) ==>
      var f := Fanned(st.history, st.fan.stream);
      f != [] && f[|f| - 1] == st.fan.msg
  }

  ghost predicate DeliveryInv(st: State) {
    Inv(st) && SubsInv(st) && FailedInv(st) && MessageInv(st)
  }

  lemma InitDelivery()
    ensures DeliveryInv(INIT)
  {
    InitInv();
  }

  predicate HistoryStep(step: Step) {
    step.SubPush? || step.FanBegin? || step.FanSend?
  }

  lemma QuietDue(sh: Shards, st: State, step: Step, c: ConnId, s: Stream)
    requires Enabled(sh, st, step) && !HistoryStep(step)
    requires c in st.shared.connections
    ensures Due(Apply(st, step).fan, c, s) <==> Due(st.fan, c, s)
  {
  }

  lemma QuietSubs(sh: Shards, st: State, step: Step, c: ConnId, s: Stream)
    requires DeliveryInv(st) && Enabled(sh, st, step) && !HistoryStep(step)
    ensures Listed(Apply(st, step), c, s) ==> Listed(st, c, s)
    ensures Healthy(Apply(st, step), c, s) ==>
              Healthy(st, c, s) && (Due(Apply(st, step).fan, c, s) <==> Due(st.fan, c, s))
  {
    var v, w := ViewOf(st, c), ViewOf(Apply(st, step), c);
    StepDrift(sh, st, step, c);
    assert ConnInv(v);
    assert Listed(st, c, s) <==> s in v.listed;
    assert Listed(Apply(st, step), c, s) <==> s in w.listed;
    if Healthy(Apply(st, step), c, s) {
      QuietDue(sh, st, step, c, s);
    }
  }

  lemma QuietDoomed(sh: Shards, st: State, step: Step, c: ConnId)
    requires Enabled(sh, st, step) && !HistoryStep(step)
    requires Doomed(st.fan, c) && ConnInv(ViewOf(st, c)) && Registered(ViewOf(st, c).pc)
    ensures c in Apply(st, step).shared.connections ==> Doomed(Apply(st, step).fan, c)
  {
  }

  lemma QuietFailed(sh: Shards, st: State, step: Step, c: ConnId)
    requires DeliveryInv(st) && Enabled(sh, st, step) && !HistoryStep(step)
    requires c in st.history.failed
    ensures
      var next := Apply(st, step);
      && c in next.tasks && Registered(next.tasks[c])
      && (c in next.shared.connections ==> Doomed(next.fan, c))
  {
    assert ConnInv(ViewOf(st, c));
    StepDrift(sh, st, step, c);
    if Doomed(st.fan, c) {
      QuietDoomed(sh, st, step, c);
    }
  }

  lemma QuietStepSubs(sh: Shards, st: State, step: Step)
    requires DeliveryInv(st) && Enabled(sh, st, step) && !HistoryStep(step)
    ensures SubsInv(Apply(st, step))
  {
    var next := Apply(st, step);
    assert next.history == st.history;
    forall c, s
      ensures Listed(next, c, s) ==> (c, s) in next.history.subs
      ensures Healthy(next, c, s) && (c, s) in next.history.subs ==>
                UpToDate(next.history, next.fan, c, s, next.history.subs[(c, s)])
    {
      QuietSubs(sh, st, step, c, s);
    }
  }

  lemma QuietStepFailed(sh: Shards, st: State, step: Step)
    requires DeliveryInv(st) && Enabled(sh, st, step) && !HistoryStep(step)
    ensures FailedInv(Apply(st, step))
  {
    var next := Apply(st, step);
    forall c | c in next.history.failed
      ensures c in next.tasks && Registered(next.tasks[c]) && (c in next.shared.connections ==> Doomed(next.fan, c))
    {
      QuietFailed(sh, st, step, c);
    }
  }

  lemma QuietStepMessage(sh: Shards, st: State, step: Step)
    requires MessageInv(st) && Enabled(sh, st, step) && !HistoryStep(step)
    ensures MessageInv(Apply(st, step))
  {
  }

  lemma QuietStepDelivery(sh: Shards, st: State, step: Step)
    requires DeliveryInv(st) && Enabled(sh, st, step) && !HistoryStep(step)
    ensures SubsInv(Apply(st, step)) && FailedInv(Apply(st, step)) && MessageInv(Apply(st, step))
  {
    QuietStepSubs(sh, st, step);
    QuietStepFailed(sh, st, step);
    QuietStepMessage(sh, st, step);
  }

  /** The subscription that begins here. */
  lemma SubPushSelf(sh: Shards, st: State, c: ConnId, s: Stream)
    requires DeliveryInv(st) && Enabled(sh, st, SubPush(c)) && st.tasks[c].stream == s
    ensures
      var next := Apply(st, SubPush(c));
      && (Listed(next, c, s) ==> (c, s) in next.history.subs)
      && ((c, s) in next.history.subs ==>
            && Window(next.history, s, next.history.subs[(c, s)])
            && next.history.subs[(c, s)].epoch < next.history.epochs
            && (Healthy(next, c, s) ==> UpToDate(next.history, next.fan, c, s, next.history.subs[(c, s)])))
  {
    var next := Apply(st, SubPush(c));
    assert next.history.subs[(c, s)] == Sub(st.history.epochs, |Fanned(st.history, s)|, []);
  }

  lemma SubPushOther(sh: Shards, st: State, o: ConnId, c: ConnId, s: Stream)
    requires SubsInv(st) && Enabled(sh, st, SubPush(o)) && (c != o || st.tasks[o].stream != s)
    ensures
      var next := Apply(st, SubPush(o));
      && (Listed(next, c, s) ==> (c, s) in next.history.subs)
      && ((c, s) in next.history.subs ==>
            && Window(next.history, s, next.history.subs[(c, s)])
            && next.history.subs[(c, s)].epoch < next.history.epochs
            && (Healthy(next, c, s) ==> UpToDate(next.history, next.fan, c, s, next.history.subs[(c, s)])))
  {
    var next := Apply(st, SubPush(o));
    assert Listed(next, c, s) <==> Listed(st, c, s);
    assert Healthy(next, c, s) <==> Healthy(st, c, s);
  }

  lemma SubPushOn(sh: Shards, st: State, o: ConnId, c: ConnId, s: Stream)
    requires DeliveryInv(st) && Enabled(sh, st, SubPush(o))
    ensures
      var next := Apply(st, SubPush(o));
      && (Listed(next, c, s) ==> (c, s) in next.history.subs)
      && ((c, s) in next.history.subs ==>
            && Window(next.history, s, next.history.subs[(c, s)])
            && next.history.subs[(c, s)].epoch < next.history.epochs
            && (Healthy(next, c, s) ==> UpToDate(next.history, next.fan, c, s, next.history.subs[(c, s)])))
  {
    if c == o && st.tasks[o].stream == s {
      SubPushSelf(sh, st, c, s);
    } else {
      SubPushOther(sh, st, o, c, s);
    }
  }

  lemma SubPushDelivery(sh: Shards, st: State, o: ConnId)
    requires DeliveryInv(st) && Enabled(sh, st, SubPush(o))
    ensures SubsInv(Apply(st, SubPush(o)))
  {
    var next := Apply(st, SubPush(o));
    forall c, s
      ensures Listed(next, c, s) ==> (c, s) in next.history.subs
      ensures (c, s) in next.history.subs ==>
                && Window(next.history, s, next.history.subs[(c, s)])
                && next.history.subs[(c, s)].epoch < next.history.epochs
                && (Healthy(next, c, s) ==> UpToDate(next.history, next.fan, c, s, next.history.subs[(c, s)]))
    {
      SubPushOn(sh, st, o, c, s);
    }
  }

  lemma FanBeginOn(sh: Shards, st: State, s: Stream, m: Msg, c: ConnId, z: Stream)
    requires SubsInv(st) && Enabled(sh, st, FanBegin(s, m)) && (c, z) in st.history.subs
    ensures
      var next := Apply(st, FanBegin(s, m));
      && (c, z) in next.history.subs
      && Window(next.history, z, next.history.subs[(c, z)])
      && next.history.subs[(c, z)].epoch < next.history.epochs
      && (Healthy(next, c, z) ==> UpToDate(next.history, next.fan, c, z, next.history.subs[(c, z)]))
  {
    assert Healthy(Apply(st, FanBegin(s, m)), c, z) <==> Healthy(st, c, z);
  }

  lemma FanBeginDelivery(sh: Shards, st: State, s: Stream, m: Msg)
    requires DeliveryInv(st) && Enabled(sh, st, FanBegin(s, m))
    ensures SubsInv(Apply(st, FanBegin(s, m)))
  {
    var next := Apply(st, FanBegin(s, m));
    forall c, z | (c, z) in next.history.subs
      ensures
        && Window(next.history, z, next.history.subs[(c, z)])
        && next.history.subs[(c, z)].epoch < next.history.epochs
        && (Healthy(next, c, z) ==> UpToDate(next.history, next.fan, c, z, next.history.subs[(c, z)]))
    {
      FanBeginOn(sh, st, s, m, c, z);
    }
  }

  /** A frame the fan-out task is about to queue is exactly the next one its subscription lacks. */
  lemma SendingIsNext(st: State)
    requires DeliveryInv(st) && st.fan.Sending?
    ensures Healthy(st, st.fan.conn, st.fan.stream) && (st.fan.conn, st.fan.stream) in st.history.subs
    ensures
      var b, f := st.history.subs[(st.fan.conn, st.fan.stream)], Fanned(st.history, st.fan.stream);
      b.start + |b.got| == |f| - 1 && f[|f| - 1] == st.fan.msg
  {
    var c := st.fan.conn;
    assert InHand(st.fan)[c] <= 1;
    assert !Doomed(st.fan, c);
    assert Listed(st, c, st.fan.stream);
  }

  /** The subscription the frame is for. */
  lemma FanSendSelf(sh: Shards, st: State, ok: bool, c: ConnId, s: Stream)
    requires DeliveryInv(st) && Enabled(sh, st, FanSend(ok)) && st.fan.conn == c && st.fan.stream == s
    ensures
      var next := Apply(st, FanSend(ok));
      && (c, s) in next.history.subs
      && Window(next.history, s, next.history.subs[(c, s)])
      && next.history.subs[(c, s)].epoch < next.history.epochs
      && (Healthy(next, c, s) ==> UpToDate(next.history, next.fan, c, s, next.history.subs[(c, s)]))
  {
    SendingIsNext(st);
    assert InHand(st.fan)[c] <= 1;
  }

  lemma FanSendOther(sh: Shards, st: State, ok: bool, c: ConnId, s: Stream)
    requires SubsInv(st) && Enabled(sh, st, FanSend(ok)) && (c, s) in st.history.subs
    requires st.fan.conn != c || st.fan.stream != s
    ensures
      var next := Apply(st, FanSend(ok));
      && (c, s) in next.history.subs
      && Window(next.history, s, next.history.subs[(c, s)])
      && next.history.subs[(c, s)].epoch < next.history.epochs
      && (Healthy(next, c, s) ==> UpToDate(next.history, next.fan, c, s, next.history.subs[(c, s)]))
  {
    assert Listed(Apply(st, FanSend(ok)), c, s) <==> Listed(st, c, s);
  }

  lemma FanSendOn(sh: Shards, st: State, ok: bool, c: ConnId, s: Stream)
    requires DeliveryInv(st) && Enabled(sh, st, FanSend(ok)) && (c, s) in st.history.subs
    ensures
      var next := Apply(st, FanSend(ok));
      && (c, s) in next.history.subs
      && Window(next.history, s, next.history.subs[(c, s)])
      && next.history.subs[(c, s)].epoch < next.history.epochs
      && (Healthy(next, c, s) ==> UpToDate(next.history, next.fan, c, s, next.history.subs[(c, s)]))
  {
    if st.fan.conn == c && st.fan.stream == s {
      FanSendSelf(sh, st, ok, c, s);
    } else {
      FanSendOther(sh, st, ok, c, s);
    }
  }

  lemma FanSendDelivery(sh: Shards, st: State, ok: bool)
    requires DeliveryInv(st) && Enabled(sh, st, FanSend(ok))
    ensures SubsInv(Apply(st, FanSend(ok)))
  {
    var next := Apply(st, FanSend(ok));
    forall c, s | (c, s) in st.history.subs
      ensures
        && Window(next.history, s, next.history.subs[(c, s)])
        && next.history.subs[(c, s)].epoch < next.history.epochs
        && (Healthy(next, c, s) ==> UpToDate(next.history, next.fan, c, s, next.history.subs[(c, s)]))
    {
      FanSendOn(sh, st, ok, c, s);
    }
    forall c, s | Listed(next, c, s)
      ensures (c, s) in st.history.subs
    {
      assert Listed(st, c, s);
    }
    SendingIsNext(st);
    assert next.history.subs.Keys == st.history.subs.Keys;
  }

  lemma SubPushFailed(sh: Shards, st: State, o: ConnId)
    requires FailedInv(st) && MessageInv(st) && Enabled(sh, st, SubPush(o))
    ensures FailedInv(Apply(st, SubPush(o))) && MessageInv(Apply(st, SubPush(o)))
  {
  }

  lemma FanBeginFailed(sh: Shards, st: State, s: Stream, m: Msg)
    requires FailedInv(st) && MessageInv(st) && Enabled(sh, st, FanBegin(s, m))
    ensures FailedInv(Apply(st, FanBegin(s, m))) && MessageInv(Apply(st, FanBegin(s, m)))
  {
  }

  lemma FanSendFailed(sh: Shards, st: State, ok: bool)
    requires DeliveryInv(st) && Enabled(sh, st, FanSend(ok))
    ensures FailedInv(Apply(st, FanSend(ok))) && MessageInv(Apply(st, FanSend(ok)))
  {
    assert st.fan.conn in InHand(st.fan);
  }

  lemma HistoryStepFailed(sh: Shards, st: State, step: Step)
    requires DeliveryInv(st) && Enabled(sh, st, step) && HistoryStep(step)
    ensures FailedInv(Apply(st, step)) && MessageInv(Apply(st, step))
  {
    match step {
      case SubPush(c) => SubPushFailed(sh, st, c);
      case FanBegin(s, m) => FanBeginFailed(sh, st, s, m);
      case FanSend(ok) => FanSendFailed(sh, st, ok);
    }
  }

  lemma HistoryStepSubs(sh: Shards, st: State, step: Step)
    requires DeliveryInv(st) && Enabled(sh, st, step) && HistoryStep(step)
    ensures SubsInv(Apply(st, step))
  {
    match step {
      case SubPush(c) => SubPushDelivery(sh, st, c);
      case FanBegin(s, m) => FanBeginDelivery(sh, st, s, m);
      case FanSend(ok) => FanSendDelivery(sh, st, ok);
    }
  }

  lemma StepKeepsDelivery(sh: Shards, st: State, step: Step)
    requires DeliveryInv(st) && Enabled(sh, st, step)
    ensures DeliveryInv(Apply(st, step))
  {
    StepKeepsInv(sh, st, step);
    if !HistoryStep(step) {
      QuietStepDelivery(sh, st, step);
    } else {
      HistoryStepFailed(sh, st, step);
      HistoryStepSubs(sh, st, step);
    }
  }

  lemma {:induction false} RunKeepsDelivery(sh: Shards, st: State, run: seq<Step>)
    requires DeliveryInv(st) && ValidRun(sh, st, run)
    ensures DeliveryInv(Execute(st, run))
    decreases |run|
  {
    if run != [] {
      StepKeepsDelivery(sh, st, run[0]);
      RunKeepsDelivery(sh, Apply(st, run[0]), run[1..]);
    }
  }

  /**
   * After any run, what a subscription accepted is an unbroken piece of its stream starting
   * where the subscription began; and a healthy subscription lacks at most the message that
   * is being fanned out at this moment.
   */
  lemma GapFreeDelivery(sh: Shards, run: seq<Step>, c: ConnId, s: Stream)
    requires ValidRun(sh, INIT, run)
    requires (c, s) in Execute(INIT, run).history.subs
    ensures
      var st := Execute(INIT, run);
      var b, f := st.history.subs[(c, s)], Fanned(st.history, s);
      && b.start + |b.got| <= |f|
      && b.got == f[b.start..b.start + |b.got|]
      && (Healthy(st, c, s) ==>
            || b.got == f[b.start..]
            || (Due(st.fan, c, s) && f != [] && b.got == f[b.start..|f| - 1]))
  {
    InitDelivery();
    RunKeepsDelivery(sh, INIT, run);
  }

  /** A frame to c has failed, and this is everything c's subscriptions can ever hold. */
  predicate Frozen(was: History, now: History, c: ConnId, s: Stream) {
    (c, s) in now.subs ==>
      || ((c, s) in was.subs && now.subs[(c, s)] == was.subs[(c, s)])
      || (now.subs[(c, s)].epoch >= was.epochs && now.subs[(c, s)].got == [])
  }

  lemma FailedStep(sh: Shards, st: State, step: Step, was: History, c: ConnId, s: Stream)
    requires DeliveryInv(st) && Enabled(sh, st, step)
    requires c in st.history.failed && Frozen(was, st.history, c, s) && was.epochs <= st.history.epochs
    ensures c in Apply(st, step).history.failed && Frozen(was, Apply(st, step).history, c, s)
    ensures was.epochs <= Apply(st, step).history.epochs
  {
    if step.FanSend? {
      SendingIsNext(st);
    } else if !step.SubPush? {
      SubsOnlyBy(st, step);
    }
  }

  lemma SubsOnlyBy(st: State, step: Step)
    requires !step.SubPush? && !step.FanSend?
    ensures
      var was, now := st.history, Apply(st, step).history;
      now.subs == was.subs && now.failed == was.failed && now.epochs == was.epochs
  {
  }

  /**
   * After one failed `try_send` no live frame is accepted by the connection again, on any
   * stream, even if its queue drains, it subscribes again, or two deregisters race.
   */
  lemma {:induction false} NothingAfterFailure(sh: Shards, st: State, run: seq<Step>, was: History,
                                               c: ConnId, s: Stream)
    requires DeliveryInv(st) && ValidRun(sh, st, run)
    requires c in st.history.failed && Frozen(was, st.history, c, s) && was.epochs <= st.history.epochs
    ensures c in Execute(st, run).history.failed && Frozen(was, Execute(st, run).history, c, s)
    decreases |run|
  {
    if run != [] {
      FailedStep(sh, st, run[0], was, c, s);
      StepKeepsDelivery(sh, st, run[0]);
      NothingAfterFailure(sh, Apply(st, run[0]), run[1..], was, c, s);
    }
  }

  /** The same from the moment of failure: `before` leads to the failure, `after` is any continuation. */
  lemma EvictedStaysSilent(sh: Shards, before: seq<Step>, after: seq<Step>, c: ConnId, s: Stream)
    requires ValidRun(sh, INIT, before) && c in Execute(INIT, before).history.failed
    requires ValidRun(sh, Execute(INIT, before), after)
    ensures
      var was, now := Execute(INIT, before).history, Execute(Execute(INIT, before), after).history;
      Frozen(was, now, c, s)
  {
    InitDelivery();
    RunKeepsDelivery(sh, INIT, before);
    var st := Execute(INIT, before);
    NothingAfterFailure(sh, st, after, st.history, c, s);
  }
}
