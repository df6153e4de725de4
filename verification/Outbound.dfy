/**
 * The outbound loop of one connection: a biased choice among eviction, urgent close, shutdown,
 * the replay queue and the live queue, with other tasks acting at every point where it waits.
 *
 * What the other tasks do is a schedule, one batch of actions per waiting point.  No new pass is
 * begun where the schedule ends; a pass under way is finished with the other tasks gone quiet, so every
 * execution, cut anywhere, is the beginning of one that the contract describes.
 */
module Outbound {
  import opened Lists
  import opened Wrappers

  const OUTBOUND_REPLAY_BURST: nat := 512

  /** A queued payload; `utf8` is whether its bytes are valid UTF-8. */
  datatype Payload = Payload(bytes: seq<int>, utf8: bool)

  datatype WsMsg = Text(bytes: seq<int>) | Binary(bytes: seq<int>) | GoingAway

  /** A payload that is not UTF-8 is dropped on a JSON connection. */
  function ToWs(p: Payload, isBinary: bool): Option<WsMsg> {
    if isBinary then Some(Binary(p.bytes)) else if p.utf8 then Some(Text(p.bytes)) else None
  }

  function Rendering(p: Payload, isBinary: bool): seq<WsMsg> {
    var m := ToWs(p, isBinary);
    if m.Some? then [m.value] else []
  }

  /** What a run of payloads looks like on the wire. */
  function Rendered(ps: seq<Payload>, isBinary: bool): seq<WsMsg> {
    if ps == [] then [] else Rendered(ps[..|ps| - 1], isBinary) + Rendering(ps[|ps| - 1], isBinary)
  }

  lemma RenderedAppend(ps: seq<Payload>, p: Payload, isBinary: bool)
    ensures Rendered(ps + [p], isBinary) == Rendered(ps, isBinary) + Rendering(p, isBinary)
  {
    assert (ps + [p])[..|ps|] == ps;
  }

  lemma {:induction false} RenderedPrefix(ps: seq<Payload>, n: nat, isBinary: bool)
    requires n <= |ps|
    ensures Rendered(ps[..n], isBinary) <= Rendered(ps, isBinary)
    decreases |ps|
  {
    if n < |ps| {
      RenderedPrefix(ps[..|ps| - 1], n, isBinary);
      assert ps[..|ps| - 1][..n] == ps[..n];
    } else {
      assert ps[..n] == ps;
    }
  }

  /** The one frame p makes: binary bytes on a binary connection, text otherwise. */
  predicate Frames(isBinary: bool, p: Payload, m: WsMsg) {
    if isBinary then m.Binary? && m.bytes == p.bytes else m.Text? && m.bytes == p.bytes && p.utf8
  }

  /** `at` are the payloads on this wire: all of them on a binary connection, the UTF-8 ones on a JSON one. */
  ghost predicate CarriedAt(isBinary: bool, wire: seq<WsMsg>, ps: seq<Payload>, at: seq<nat>) {
    && |at| == |wire| && Ascending(at)
    && (forall i :: 0 <= i < |at| ==> at[i] < |ps| && Frames(isBinary, ps[at[i]], wire[i]))
    && (forall j :: 0 <= j < |ps| && (isBinary || ps[j].utf8) ==> j in at)
  }

  /** The wire carries these payloads, in order. */
  ghost predicate Carries(isBinary: bool, wire: seq<WsMsg>, ps: seq<Payload>) {
    exists at: seq<nat> :: CarriedAt(isBinary, wire, ps, at)
  }

  lemma CarriedOne(isBinary: bool, wire: seq<WsMsg>, ps: seq<Payload>, at: seq<nat>, p: Payload, m: WsMsg)
    requires CarriedAt(isBinary, wire, ps, at) && Frames(isBinary, p, m)
    ensures CarriedAt(isBinary, wire + [m], ps + [p], at + [|ps|])
  {
    var all := at + [|ps|];
    assert all[|at|] == |ps|;
    forall j | 0 <= j < |ps| && (isBinary || ps[j].utf8) ensures j in all {
      assert j in at;
    }
  }

  lemma CarriedNone(wire: seq<WsMsg>, ps: seq<Payload>, at: seq<nat>, p: Payload)
    requires CarriedAt(false, wire, ps, at) && !p.utf8
    ensures CarriedAt(false, wire, ps + [p], at)
  {
  }

  lemma CarriesMore(isBinary: bool, wire: seq<WsMsg>, ps: seq<Payload>, p: Payload)
    requires Carries(isBinary, wire, ps)
    ensures Carries(isBinary, wire + Rendering(p, isBinary), ps + [p])
  {
    var at: seq<nat> :| CarriedAt(isBinary, wire, ps, at);
    if isBinary || p.utf8 {
      CarriedOne(isBinary, wire, ps, at, p, ToWs(p, isBinary).value);
    } else {
      CarriedNone(wire, ps, at, p);
      assert wire + [] == wire;
    }
  }

  lemma {:induction false} RenderedCarries(ps: seq<Payload>, isBinary: bool)
    ensures Carries(isBinary, Rendered(ps, isBinary), ps)
  {
    if ps == [] {
      assert CarriedAt(isBinary, [], ps, []);
    } else {
      var before, p := ps[..|ps| - 1], ps[|ps| - 1];
      var wire := Rendered(before, isBinary);
      assert ps == before + [p] && Rendered(ps, isBinary) == wire + Rendering(p, isBinary);
      RenderedCarries(before, isBinary);
      CarriesMore(isBinary, wire, before, p);
    }
  }

  /** On a binary connection that is one frame for each payload. */
  lemma BinaryCarriesAll(wire: seq<WsMsg>, ps: seq<Payload>)
    requires Carries(true, wire, ps)
    ensures |wire| == |ps| && forall i :: 0 <= i < |ps| ==> wire[i] == Binary(ps[i].bytes)
  {
    var at: seq<nat> :| CarriedAt(true, wire, ps, at);
    OneByOne(at, |ps|);
  }

  /** A beginning of what payloads look like is what the first of them look like. */
  lemma {:induction false} RenderedUpTo(ps: seq<Payload>, isBinary: bool, wire: seq<WsMsg>) returns (n: nat)
    requires wire <= Rendered(ps, isBinary)
    ensures n <= |ps| && wire == Rendered(ps[..n], isBinary)
  {
    if wire == Rendered(ps, isBinary) {
      n := |ps|;
      assert ps[..n] == ps;
    } else {
      var before := ps[..|ps| - 1];
      assert wire <= Rendered(before, isBinary);
      n := RenderedUpTo(before, isBinary, wire);
      assert before[..n] == ps[..n];
    }
  }

  // ---------------------------------------------------------------------------
  // What the loop shares with other tasks
  // ---------------------------------------------------------------------------

  datatype Config = Config(isBinary: bool, replayCapacity: nat, liveCapacity: nat, disconnect: Payload)

  /** How much had been queued when shutdown was signalled. */
  datatype Marks = Marks(replay: nat, live: nat)

  /** The channels; `replayAll` and `liveAll` are everything ever queued. */
  datatype Queues = Queues(
    replay: seq<Payload>, replayAll: seq<Payload>, replayAlive: bool,
    live: seq<Payload>, liveAll: seq<Payload>, liveAlive: bool,
    evict: bool, evictAlive: bool,
    urgent: Option<Payload>, urgentAlive: bool,
    shutdown: Option<Marks>,
    peerGone: bool)

  datatype Action =
    | PushReplay(p: Payload) | DropReplay
    | PushLive(p: Payload) | DropLive
    | Evict | DropEvict
    | Urgent(p: Payload) | DropUrgent
    | Shutdown
    | LosePeer

  /** Sending needs a sender, and room; dropped senders and a lost peer stay so. */
  function Act(cfg: Config, q: Queues, a: Action): Queues {
    match a
    case PushReplay(p) =>
      if q.replayAlive && |q.replay| < cfg.replayCapacity
      then q.(replay := q.replay + [p], replayAll := q.replayAll + [p]) else q
    case PushLive(p) =>
      if q.liveAlive && |q.live| < cfg.liveCapacity
      then q.(live := q.live + [p], liveAll := q.liveAll + [p]) else q
    case DropReplay => q.(replayAlive := false)
    case DropLive => q.(liveAlive := false)
    case Evict => if q.evictAlive then q.(evict := true) else q
    case DropEvict => q.(evictAlive := false)
    case Urgent(p) => if q.urgentAlive && q.urgent.None? then q.(urgent := Some(p)) else q
    case DropUrgent => q.(urgentAlive := false)
    case Shutdown => if q.shutdown.None? then q.(shutdown := Some(Marks(|q.replayAll|, |q.liveAll|))) else q
    case LosePeer => q.(peerGone := true)
  }

  /** `more` was appended to both the queue and its history. */
  predicate Appended(queue: seq<Payload>, all: seq<Payload>, queue': seq<Payload>, all': seq<Payload>) {
    queue <= queue' && all' == all + queue'[|queue|..]
  }

  /** What other tasks can have done between two moments. */
  predicate Onward(cfg: Config, q: Queues, r: Queues) {
    && Appended(q.replay, q.replayAll, r.replay, r.replayAll)
    && Appended(q.live, q.liveAll, r.live, r.liveAll)
    && (|q.replay| <= cfg.replayCapacity ==> |r.replay| <= cfg.replayCapacity)
    && (|q.live| <= cfg.liveCapacity ==> |r.live| <= cfg.liveCapacity)
    && (!q.replayAlive ==> !r.replayAlive && r.replay == q.replay)
    && (!q.liveAlive ==> !r.liveAlive && r.live == q.live)
    && (!q.evictAlive ==> !r.evictAlive && r.evict == q.evict) && (q.evict ==> r.evict)
    && (!q.urgentAlive ==> !r.urgentAlive && r.urgent == q.urgent) && (q.urgent.Some? ==> r.urgent == q.urgent)
    && (q.shutdown.Some? ==> r.shutdown == q.shutdown)
    && (q.shutdown.None? && r.shutdown.Some? ==>
          r.shutdown.value.replay <= |r.replayAll| && r.shutdown.value.live <= |r.liveAll|)
    && (q.peerGone ==> r.peerGone)
  }

  function ActAll(cfg: Config, q: Queues, actions: seq<Action>): Queues {
    if actions == [] then q else Act(cfg, ActAll(cfg, q, actions[..|actions| - 1]), actions[|actions| - 1])
  }

  lemma PushOnward(cfg: Config, q: Queues, a: Action)
    requires a.PushReplay? || a.PushLive?
    ensures Onward(cfg, q, Act(cfg, q, a))
  {
  }

  lemma DropOnward(cfg: Config, q: Queues, a: Action)
    requires a.DropReplay? || a.DropLive? || a.DropEvict? || a.DropUrgent?
    ensures Onward(cfg, q, Act(cfg, q, a))
  {
  }

  lemma SignalOnward(cfg: Config, q: Queues, a: Action)
    requires a.Evict? || a.Urgent? || a.Shutdown? || a.LosePeer?
    ensures Onward(cfg, q, Act(cfg, q, a))
  {
  }

  lemma ActOnward(cfg: Config, q: Queues, a: Action)
    ensures Onward(cfg, q, Act(cfg, q, a))
  {
    if a.PushReplay? || a.PushLive? {
      PushOnward(cfg, q, a);
    } else if a.Evict? || a.Urgent? || a.Shutdown? || a.LosePeer? {
      SignalOnward(cfg, q, a);
    } else {
      DropOnward(cfg, q, a);
    }
  }

  lemma AppendedTransitive(queue: seq<Payload>, all: seq<Payload>, queue': seq<Payload>, all': seq<Payload>,
                           queue'': seq<Payload>, all'': seq<Payload>)
    requires Appended(queue, all, queue', all') && Appended(queue', all', queue'', all'')
    ensures Appended(queue, all, queue'', all'')
  {
    assert queue''[|queue|..] == queue'[|queue|..] + queue''[|queue'|..];
  }

  lemma OnwardTransitive(cfg: Config, p: Queues, q: Queues, r: Queues)
    requires Onward(cfg, p, q) && Onward(cfg, q, r)
    ensures Onward(cfg, p, r)
  {
    AppendedTransitive(p.replay, p.replayAll, q.replay, q.replayAll, r.replay, r.replayAll);
    AppendedTransitive(p.live, p.liveAll, q.live, q.liveAll, r.live, r.liveAll);
  }

  lemma {:induction false} ActAllOnward(cfg: Config, q: Queues, actions: seq<Action>)
    ensures Onward(cfg, q, ActAll(cfg, q, actions))
  {
    if actions != [] {
      var before := ActAll(cfg, q, actions[..|actions| - 1]);
      ActAllOnward(cfg, q, actions[..|actions| - 1]);
      ActOnward(cfg, before, actions[|actions| - 1]);
      OnwardTransitive(cfg, q, before, ActAll(cfg, q, actions));
    }
  }

  // ---------------------------------------------------------------------------
  // The loop's state
  // ---------------------------------------------------------------------------

  datatype Source = FromReplay | FromLive | Drained | Control

  /**
   * A message on the wire.  `stamp` is how much replay had been queued when it was written; for a live
   * message `queued` is how much had been queued one waiting point before the loop took it.
   */
  datatype Entry = Entry(source: Source, msg: WsMsg, stamp: nat, queued: nat)

  datatype Loop = Loop(
    q: Queues,
    written: seq<Entry>,
    replayTaken: seq<Payload>,
    liveTaken: seq<Payload>,
    lost: bool,              // a send failed
    alarm: Option<nat>,      // payloads taken when an eviction or urgent close was first signalled
    raised: Option<nat>,     // the clock when anything was first signalled
    earlier: nat,            // replay queued before the last wait
    mark: nat,               // what `earlier` was when the last live payload was taken
    clock: nat)

  function Taken(w: Loop): nat {
    |w.replayTaken| + |w.liveTaken|
  }

  type Schedule = seq<seq<Action>>

  /** Other tasks take their turn. */
  function Wait(cfg: Config, schedule: Schedule, w: Loop): Loop {
    var q := ActAll(cfg, w.q, if w.clock < |schedule| then schedule[w.clock] else []);
    w.(q := q, clock := w.clock + 1, earlier := |w.q.replayAll|,
       alarm := if w.alarm.None? && (q.evict || q.urgent.Some?) then Some(Taken(w)) else w.alarm,
       raised := if w.raised.None? && !Unsignalled(q) then Some(w.clock) else w.raised)
  }

  predicate Unsignalled(q: Queues) {
    !q.evict && q.urgent.None? && q.shutdown.None?
  }

  predicate FromQueue(s: Source, replay: bool) {
    if replay then s.FromReplay? else s.FromLive? || s.Drained?
  }

  /** The messages written from the replay queue, or from the live queue. */
  function Wire(written: seq<Entry>, replay: bool): seq<WsMsg> {
    if written == [] then []
    else
      var last := written[|written| - 1];
      Wire(written[..|written| - 1], replay) + if FromQueue(last.source, replay) then [last.msg] else []
  }

  lemma WireAppend(written: seq<Entry>, e: Entry, replay: bool)
    ensures Wire(written + [e], replay) == Wire(written, replay) + if FromQueue(e.source, replay) then [e.msg] else []
  {
    assert (written + [e])[..|written|] == written;
  }

  // ---------------------------------------------------------------------------
  // What always holds
  // ---------------------------------------------------------------------------

  /** Nothing queued is lost between the queue and the loop, and the queues are bounded. */
  predicate Conserved(cfg: Config, w: Loop) {
    && w.q.replayAll == w.replayTaken + w.q.replay && |w.q.replay| <= cfg.replayCapacity
    && w.q.liveAll == w.liveTaken + w.q.live && |w.q.live| <= cfg.liveCapacity
    && (w.q.shutdown.Some? ==>
          w.q.shutdown.value.replay <= |w.q.replayAll| && w.q.shutdown.value.live <= |w.q.liveAll|)
    && (w.lost ==> w.q.peerGone)
    && (w.alarm.Some? <==> w.q.evict || w.q.urgent.Some?)
    && (w.raised.Some? <==> !Unsignalled(w.q))
  }

  /** Each queue reaches the wire in order and complete, up to a failed send. */
  predicate Merged(isBinary: bool, written: seq<Entry>, taken: seq<Payload>, replay: bool, lost: bool) {
    if lost then Wire(written, replay) <= Rendered(taken, isBinary)
    else Wire(written, replay) == Rendered(taken, isBinary)
  }

  /** The first n replay payloads are on the wire before entry k. */
  predicate ReplayedBefore(isBinary: bool, written: seq<Entry>, replayTaken: seq<Payload>, n: nat, k: nat)
    requires k <= |written|
  {
    n <= |replayTaken| && Rendered(replayTaken[..n], isBinary) <= Wire(written[..k], true)
  }

  /** How much replay had been queued when the entry before k was written. */
  function QueuedBefore(written: seq<Entry>, start: nat, k: nat): nat
    requires k <= |written|
  {
    if k == 0 then start else written[k - 1].stamp
  }

  /**
   * A live message follows all replay that was queued one waiting point before it was taken, and that
   * is at least what was queued when its predecessor was written; one drained at shutdown follows all
   * replay queued before the signal.
   */
  predicate InTurn(
    isBinary: bool, written: seq<Entry>, replayTaken: seq<Payload>, start: nat, marks: Option<Marks>, k: nat)
    requires k < |written|
  {
    && (written[k].source.FromLive? ==>
          && QueuedBefore(written, start, k) <= written[k].queued
          && ReplayedBefore(isBinary, written, replayTaken, written[k].queued, k))
    && (written[k].source.Drained? ==>
          marks.Some? && ReplayedBefore(isBinary, written, replayTaken, marks.value.replay, k))
  }

  ghost predicate ReplayFirst(
    isBinary: bool, written: seq<Entry>, replayTaken: seq<Payload>, start: nat, marks: Option<Marks>)
  {
    forall k :: 0 <= k < |written| ==> InTurn(isBinary, written, replayTaken, start, marks, k)
  }

  predicate NoControl(written: seq<Entry>) {
    forall k :: 0 <= k < |written| ==> !written[k].source.Control?
  }

  ghost predicate Wired(isBinary: bool, start: nat, written: seq<Entry>, replayTaken: seq<Payload>,
                        liveTaken: seq<Payload>, lost: bool, marks: Option<Marks>)
  {
    && Merged(isBinary, written, replayTaken, true, lost)
    && Merged(isBinary, written, liveTaken, false, lost)
    && ReplayFirst(isBinary, written, replayTaken, start, marks)
  }

  ghost predicate Good(cfg: Config, start: nat, w: Loop) {
    && Conserved(cfg, w)
    && Wired(cfg.isBinary, start, w.written, w.replayTaken, w.liveTaken, w.lost, w.q.shutdown)
    && QueuedBefore(w.written, start, |w.written|) <= |w.q.replayAll|
  }

  /** What is queued later comes after what was queued before. */
  lemma AppendedBehind(taken: seq<Payload>, queue: seq<Payload>, all: seq<Payload>, queue': seq<Payload>,
                       all': seq<Payload>)
    requires all == taken + queue && Appended(queue, all, queue', all')
    ensures all' == taken + queue'
  {
    assert queue' == queue + queue'[|queue|..];
  }

  lemma WaitConserves(cfg: Config, schedule: Schedule, w: Loop)
    requires Conserved(cfg, w)
    ensures Conserved(cfg, Wait(cfg, schedule, w)) && Onward(cfg, w.q, Wait(cfg, schedule, w).q)
  {
    var q := Wait(cfg, schedule, w).q;
    ActAllOnward(cfg, w.q, if w.clock < |schedule| then schedule[w.clock] else []);
    AppendedBehind(w.replayTaken, w.q.replay, w.q.replayAll, q.replay, q.replayAll);
    AppendedBehind(w.liveTaken, w.q.live, w.q.liveAll, q.live, q.liveAll);
  }

  lemma WiredLater(isBinary: bool, start: nat, written: seq<Entry>, replayTaken: seq<Payload>, liveTaken: seq<Payload>,
                   lost: bool, marks: Option<Marks>, marks': Option<Marks>)
    requires Wired(isBinary, start, written, replayTaken, liveTaken, lost, marks) && (marks.Some? ==> marks' == marks)
    ensures Wired(isBinary, start, written, replayTaken, liveTaken, lost, marks')
  {
    forall k | 0 <= k < |written| ensures InTurn(isBinary, written, replayTaken, start, marks', k) {
      assert InTurn(isBinary, written, replayTaken, start, marks, k);
    }
  }

  lemma WaitKeepsGood(cfg: Config, start: nat, schedule: Schedule, w: Loop)
    requires Good(cfg, start, w)
    ensures Good(cfg, start, Wait(cfg, schedule, w)) && Onward(cfg, w.q, Wait(cfg, schedule, w).q)
  {
    WaitConserves(cfg, schedule, w);
    WiredLater(cfg.isBinary, start, w.written, w.replayTaken, w.liveTaken, w.lost, w.q.shutdown,
               Wait(cfg, schedule, w).q.shutdown);
  }

  // ---------------------------------------------------------------------------
  // One more payload taken, or written
  // ---------------------------------------------------------------------------

  /** Entries already written keep their place as more replay is taken and more is written. */
  lemma InTurnGrows(isBinary: bool, written: seq<Entry>, more: seq<Entry>, replayTaken: seq<Payload>,
                    taken: seq<Payload>, start: nat, marks: Option<Marks>, k: nat)
    requires k < |written| && InTurn(isBinary, written, replayTaken, start, marks, k) && replayTaken <= taken
    ensures InTurn(isBinary, written + more, taken, start, marks, k)
  {
    assert (written + more)[..k] == written[..k];
    assert forall n :: 0 <= n <= |replayTaken| ==> taken[..n] == replayTaken[..n];
  }

  lemma ReplayFirstExtends(isBinary: bool, written: seq<Entry>, more: seq<Entry>, replayTaken: seq<Payload>,
                           taken: seq<Payload>, start: nat, marks: Option<Marks>)
    requires ReplayFirst(isBinary, written, replayTaken, start, marks) && replayTaken <= taken
    requires forall k :: 0 <= k < |more| ==> !more[k].source.FromLive? && !more[k].source.Drained?
    ensures ReplayFirst(isBinary, written + more, taken, start, marks)
  {
    forall k | 0 <= k < |written + more| ensures InTurn(isBinary, written + more, taken, start, marks, k) {
      if k < |written| {
        InTurnGrows(isBinary, written, more, replayTaken, taken, start, marks, k);
      }
    }
  }

  /** A replay payload was taken and, if it can be rendered, written. */
  lemma WiredReplay(isBinary: bool, start: nat, written: seq<Entry>, replayTaken: seq<Payload>, liveTaken: seq<Payload>,
                    marks: Option<Marks>, p: Payload, stamp: nat, queued: nat)
    requires Wired(isBinary, start, written, replayTaken, liveTaken, false, marks)
    ensures Wired(isBinary, start, written, replayTaken + [p], liveTaken, true, marks)
    ensures ToWs(p, isBinary).None? ==> Wired(isBinary, start, written, replayTaken + [p], liveTaken, false, marks)
    ensures ToWs(p, isBinary).Some? ==>
              Wired(isBinary, start, written + [Entry(FromReplay, ToWs(p, isBinary).value, stamp, queued)],
                    replayTaken + [p], liveTaken, false, marks)
  {
    RenderedAppend(replayTaken, p, isBinary);
    ReplayFirstExtends(isBinary, written, [], replayTaken, replayTaken + [p], start, marks);
    assert written + [] == written;
    if ToWs(p, isBinary).Some? {
      var e := Entry(FromReplay, ToWs(p, isBinary).value, stamp, queued);
      WireAppend(written, e, true);
      WireAppend(written, e, false);
      ReplayFirstExtends(isBinary, written, [e], replayTaken, replayTaken + [p], start, marks);
    }
  }

  /** A live payload was taken and not written: it was not UTF-8, or the send failed. */
  lemma WiredLiveUnsent(isBinary: bool, start: nat, written: seq<Entry>, replayTaken: seq<Payload>,
                        liveTaken: seq<Payload>, lost: bool, marks: Option<Marks>, p: Payload)
    requires Wired(isBinary, start, written, replayTaken, liveTaken, lost, marks)
    ensures Wired(isBinary, start, written, replayTaken, liveTaken + [p], true, marks)
    ensures ToWs(p, isBinary).None? ==> Wired(isBinary, start, written, replayTaken, liveTaken + [p], lost, marks)
  {
    RenderedAppend(liveTaken, p, isBinary);
  }

  lemma AllBefore(isBinary: bool, written: seq<Entry>, e: Entry, replayTaken: seq<Payload>, n: nat)
    requires Wire(written, true) == Rendered(replayTaken, isBinary) && n <= |replayTaken|
    ensures ReplayedBefore(isBinary, written + [e], replayTaken, n, |written|)
  {
    RenderedPrefix(replayTaken, n, isBinary);
    assert (written + [e])[..|written|] == written;
  }

  /** Enough replay has been taken for e to be written now. */
  predicate MayBeNext(written: seq<Entry>, e: Entry, replayTaken: seq<Payload>, start: nat, marks: Option<Marks>) {
    if e.source.FromLive? then QueuedBefore(written, start, |written|) <= e.queued <= |replayTaken|
    else e.source.Drained? && marks.Some? && marks.value.replay <= |replayTaken|
  }

  lemma ReplayFirstLive(isBinary: bool, written: seq<Entry>, e: Entry, replayTaken: seq<Payload>, start: nat,
                        marks: Option<Marks>)
    requires ReplayFirst(isBinary, written, replayTaken, start, marks)
    requires Wire(written, true) == Rendered(replayTaken, isBinary)
    requires MayBeNext(written, e, replayTaken, start, marks)
    ensures ReplayFirst(isBinary, written + [e], replayTaken, start, marks)
  {
    forall k | 0 <= k < |written + [e]| ensures InTurn(isBinary, written + [e], replayTaken, start, marks, k) {
      if k < |written| {
        InTurnGrows(isBinary, written, [e], replayTaken, replayTaken, start, marks, k);
      } else {
        AllBefore(isBinary, written, e, replayTaken, if e.source.FromLive? then e.queued else marks.value.replay);
      }
    }
  }

  /** A live payload was written, with enough replay before it. */
  lemma WiredLive(isBinary: bool, start: nat, written: seq<Entry>, replayTaken: seq<Payload>, liveTaken: seq<Payload>,
                  marks: Option<Marks>, p: Payload, e: Entry)
    requires Wired(isBinary, start, written, replayTaken, liveTaken, false, marks)
    requires ToWs(p, isBinary) == Some(e.msg) && MayBeNext(written, e, replayTaken, start, marks)
    ensures Wired(isBinary, start, written + [e], replayTaken, liveTaken + [p], false, marks)
  {
    RenderedAppend(liveTaken, p, isBinary);
    WireAppend(written, e, true);
    WireAppend(written, e, false);
    ReplayFirstLive(isBinary, written, e, replayTaken, start, marks);
  }

  lemma WiredControl(isBinary: bool, start: nat, written: seq<Entry>, replayTaken: seq<Payload>,
                     liveTaken: seq<Payload>, marks: Option<Marks>, e: Entry)
    requires Wired(isBinary, start, written, replayTaken, liveTaken, false, marks) && e.source.Control?
    ensures Wired(isBinary, start, written + [e], replayTaken, liveTaken, false, marks)
  {
    WireAppend(written, e, true);
    WireAppend(written, e, false);
    ReplayFirstExtends(isBinary, written, [e], replayTaken, replayTaken, start, marks);
  }

  // ---------------------------------------------------------------------------
  // The loop
  // ---------------------------------------------------------------------------

  /** An alarm already raised is kept; a new one is raised no earlier than now. */
  predicate Alarmed(w: Loop, v: Loop) {
    && (w.alarm.Some? ==> v.alarm == w.alarm)
    && (w.alarm.None? && v.alarm.Some? ==> Taken(w) <= v.alarm.value)
  }

  /** The same for signals of any kind and the clock. */
  predicate Raised(w: Loop, v: Loop) {
    && (w.raised.Some? ==> v.raised == w.raised)
    && (w.raised.None? && v.raised.Some? ==> w.clock <= v.raised.value)
  }

  /** Sends m: other tasks may act, and the peer may be lost, before it is on the wire. */
  function Send(cfg: Config, schedule: Schedule, w: Loop, source: Source, m: WsMsg): Loop {
    var v := Wait(cfg, schedule, w);
    if v.q.peerGone then v.(lost := true)
    else v.(written := v.written + [Entry(source, m, |v.q.replayAll|, v.mark)])
  }

  /** Sends p unless it has to be dropped. */
  function Deliver(cfg: Config, schedule: Schedule, w: Loop, source: Source, p: Payload): Loop {
    var m := ToWs(p, cfg.isBinary);
    if m.None? then w else Send(cfg, schedule, w, source, m.value)
  }

  function TakeReplay(w: Loop): Loop
    requires w.q.replay != []
  {
    w.(q := w.q.(replay := w.q.replay[1..]), replayTaken := w.replayTaken + [w.q.replay[0]])
  }

  function TakeLive(w: Loop): Loop
    requires w.q.live != []
  {
    w.(q := w.q.(live := w.q.live[1..]), liveTaken := w.liveTaken + [w.q.live[0]], mark := w.earlier)
  }

  /** What one delivery, or one wait, leaves in place. */
  predicate Follows(cfg: Config, w: Loop, v: Loop) {
    && Conserved(cfg, v) && Onward(cfg, w.q, v.q) && Alarmed(w, v) && Raised(w, v)
    && v.replayTaken == w.replayTaken && v.liveTaken == w.liveTaken
    && w.clock <= v.clock && (w.lost ==> v.lost) && v.mark == w.mark
  }

  lemma WaitFollows(cfg: Config, schedule: Schedule, w: Loop)
    requires Conserved(cfg, w)
    ensures Follows(cfg, w, Wait(cfg, schedule, w))
  {
    WaitConserves(cfg, schedule, w);
  }

  lemma FollowsItself(cfg: Config, w: Loop)
    requires Conserved(cfg, w)
    ensures Follows(cfg, w, w)
  {
  }

  lemma SendFollows(cfg: Config, schedule: Schedule, w: Loop, source: Source, m: WsMsg)
    requires Conserved(cfg, w)
    ensures Follows(cfg, w, Send(cfg, schedule, w, source, m))
  {
    WaitFollows(cfg, schedule, w);
  }

  lemma DeliverFollows(cfg: Config, schedule: Schedule, w: Loop, source: Source, p: Payload)
    requires Conserved(cfg, w)
    ensures Follows(cfg, w, Deliver(cfg, schedule, w, source, p))
  {
    var m := ToWs(p, cfg.isBinary);
    if m.None? {
      FollowsItself(cfg, w);
    } else {
      SendFollows(cfg, schedule, w, source, m.value);
    }
  }

  lemma TakeConserves(cfg: Config, w: Loop)
    requires Conserved(cfg, w)
    ensures w.q.replay != [] ==> Conserved(cfg, TakeReplay(w))
    ensures w.q.live != [] ==> Conserved(cfg, TakeLive(w))
  {
  }

  /** Either nothing new is written, and then only if p was dropped or the peer is gone, or p is. */
  lemma DeliverShape(cfg: Config, schedule: Schedule, w: Loop, source: Source, p: Payload)
    requires Conserved(cfg, w)
    ensures
      var v, m := Deliver(cfg, schedule, w, source, p), ToWs(p, cfg.isBinary);
      && (m.None? ==> v == w)
      && (m.Some? ==> v.lost == (w.lost || v.q.peerGone) && (w.q.shutdown.Some? ==> v.q.shutdown == w.q.shutdown))
      && v.written == (if m.Some? && !v.q.peerGone
                       then w.written + [Entry(source, m.value, |v.q.replayAll|, w.mark)] else w.written)
      && (source != Control && NoControl(w.written) ==> NoControl(v.written))
  {
    WaitFollows(cfg, schedule, w);
  }

  lemma ReplayDelivered(cfg: Config, start: nat, schedule: Schedule, w: Loop)
    requires Good(cfg, start, w) && !w.lost && w.q.replay != []
    ensures Conserved(cfg, TakeReplay(w))
    ensures Good(cfg, start, Deliver(cfg, schedule, TakeReplay(w), FromReplay, w.q.replay[0]))
  {
    var taken, p := TakeReplay(w), w.q.replay[0];
    TakeConserves(cfg, w);
    var v := Deliver(cfg, schedule, taken, FromReplay, p);
    DeliverFollows(cfg, schedule, taken, FromReplay, p);
    DeliverShape(cfg, schedule, taken, FromReplay, p);
    WiredLater(cfg.isBinary, start, w.written, w.replayTaken, w.liveTaken, false, w.q.shutdown, v.q.shutdown);
    WiredReplay(cfg.isBinary, start, w.written, w.replayTaken, w.liveTaken, v.q.shutdown, p, |v.q.replayAll|, w.mark);
  }

  /** The replay that has to precede a live message has been taken. */
  predicate MayGoLive(start: nat, w: Loop, source: Source) {
    if source.FromLive? then QueuedBefore(w.written, start, |w.written|) <= w.earlier <= |w.replayTaken|
    else source.Drained? && w.q.shutdown.Some? && w.q.shutdown.value.replay <= |w.replayTaken|
  }

  lemma LiveDelivered(cfg: Config, start: nat, schedule: Schedule, w: Loop, source: Source)
    requires Good(cfg, start, w) && w.q.live != [] && (w.lost || MayGoLive(start, w, source))
    ensures Conserved(cfg, TakeLive(w))
    ensures Good(cfg, start, Deliver(cfg, schedule, TakeLive(w), source, w.q.live[0]))
  {
    var taken, p := TakeLive(w), w.q.live[0];
    TakeConserves(cfg, w);
    var v := Deliver(cfg, schedule, taken, source, p);
    DeliverFollows(cfg, schedule, taken, source, p);
    DeliverShape(cfg, schedule, taken, source, p);
    WiredLater(cfg.isBinary, start, w.written, w.replayTaken, w.liveTaken, w.lost, w.q.shutdown, v.q.shutdown);
    WiredLiveUnsent(cfg.isBinary, start, w.written, w.replayTaken, w.liveTaken, w.lost, v.q.shutdown, p);
    if !v.q.peerGone && ToWs(p, cfg.isBinary).Some? {
      var e := Entry(source, ToWs(p, cfg.isBinary).value, |v.q.replayAll|, w.earlier);
      WiredLive(cfg.isBinary, start, w.written, w.replayTaken, w.liveTaken, v.q.shutdown, p, e);
    }
  }

  /** m is the last thing written, the only control message, unless the send failed. */
  predicate EndsWith(w: Loop, m: WsMsg) {
    w.lost || (w.written != [] && w.written[|w.written| - 1].source == Control && w.written[|w.written| - 1].msg == m
               && NoControl(w.written[..|w.written| - 1]))
  }

  lemma ControlSent(cfg: Config, start: nat, schedule: Schedule, w: Loop, m: WsMsg)
    requires Good(cfg, start, w) && NoControl(w.written)
    ensures var v := Send(cfg, schedule, w, Control, m);
            Good(cfg, start, v) && Follows(cfg, w, v) && EndsWith(v, m)
  {
    var v := Wait(cfg, schedule, w);
    WaitFollows(cfg, schedule, w);
    WaitKeepsGood(cfg, start, schedule, w);
    if !v.q.peerGone {
      WiredControl(cfg.isBinary, start, v.written, v.replayTaken, v.liveTaken, v.q.shutdown,
                   Entry(Control, m, |v.q.replayAll|, v.mark));
    }
  }

  // ---------------------------------------------------------------------------
  // The loop
  // ---------------------------------------------------------------------------

  /** What neither other tasks nor the loop can undo. */
  predicate Later(q: Queues, r: Queues) {
    && |q.replayAll| <= |r.replayAll| && |q.liveAll| <= |r.liveAll|
    && (!q.replayAlive ==> !r.replayAlive && |r.replay| <= |q.replay|)
    && (!q.evictAlive ==> !r.evictAlive && r.evict == q.evict)
    && (!q.urgentAlive ==> !r.urgentAlive && r.urgent == q.urgent)
    && (q.evict ==> r.evict) && (q.urgent.Some? ==> r.urgent == q.urgent)
    && (q.shutdown.Some? ==> r.shutdown == q.shutdown)
  }

  predicate Past(w: Loop, v: Loop) {
    && Later(w.q, v.q) && Alarmed(w, v) && Raised(w, v) && w.clock <= v.clock
    && |w.replayTaken| <= |v.replayTaken| && |w.liveTaken| <= |v.liveTaken|
  }

  lemma PastTransitive(w: Loop, u: Loop, v: Loop)
    requires Past(w, u) && Past(u, v)
    ensures Past(w, v)
  {
  }

  ghost predicate Running(cfg: Config, start: nat, w: Loop) {
    Good(cfg, start, w) && NoControl(w.written)
  }

  /** No other task does anything. */
  predicate Quiet(schedule: Schedule) {
    forall i :: 0 <= i < |schedule| ==> schedule[i] == []
  }

  /** Nothing changed but what the loop took. */
  predicate Still(q: Queues, r: Queues) {
    r == q.(replay := r.replay, live := r.live) && |r.replay| <= |q.replay| && |r.live| <= |q.live|
  }

  /** At every wait somebody queues one more replay payload. */
  predicate Feeding(schedule: Schedule) {
    forall i :: 0 <= i < |schedule| ==> |schedule[i]| == 1 && schedule[i][0].PushReplay?
  }

  /** A queue that is fed is never found empty. */
  lemma WaitFed(cfg: Config, schedule: Schedule, w: Loop)
    requires Feeding(schedule)
    ensures Wait(cfg, schedule, w).q.replayAlive == w.q.replayAlive
    ensures w.q.replayAlive && cfg.replayCapacity > 0 && w.clock < |schedule| ==> Wait(cfg, schedule, w).q.replay != []
  {
    if w.clock < |schedule| {
      var batch := schedule[w.clock];
      assert batch[..0] == [];
      assert ActAll(cfg, w.q, batch) == Act(cfg, ActAll(cfg, w.q, batch[..0]), batch[0]);
    }
  }

  lemma DeliverQuiet(cfg: Config, schedule: Schedule, w: Loop, source: Source, p: Payload)
    ensures Deliver(cfg, schedule, w, source, p).clock <= w.clock + 1
    ensures Quiet(schedule) || |schedule| <= w.clock ==> Deliver(cfg, schedule, w, source, p).q == w.q
    ensures Feeding(schedule) ==> Deliver(cfg, schedule, w, source, p).q.replayAlive == w.q.replayAlive
  {
    if Feeding(schedule) {
      WaitFed(cfg, schedule, w);
    }
  }

  method DeliverReplay(cfg: Config, schedule: Schedule, w: Loop, ghost start: nat) returns (v: Loop)
    requires Running(cfg, start, w) && !w.lost && w.q.replay != []
    ensures Running(cfg, start, v) && Past(w, v)
    ensures v.replayTaken == w.replayTaken + [w.q.replay[0]] && v.liveTaken == w.liveTaken
    ensures |schedule| <= w.clock ==> v.q.replay == w.q.replay[1..]
    ensures Feeding(schedule) ==> v.q.replayAlive == w.q.replayAlive
    ensures v.clock <= w.clock + 1 && (Quiet(schedule) ==> Still(w.q, v.q))
  {
    ReplayDelivered(cfg, start, schedule, w);
    DeliverFollows(cfg, schedule, TakeReplay(w), FromReplay, w.q.replay[0]);
    DeliverShape(cfg, schedule, TakeReplay(w), FromReplay, w.q.replay[0]);
    DeliverQuiet(cfg, schedule, TakeReplay(w), FromReplay, w.q.replay[0]);
    v := Deliver(cfg, schedule, TakeReplay(w), FromReplay, w.q.replay[0]);
  }

  method DeliverLive(cfg: Config, schedule: Schedule, w: Loop, source: Source, ghost start: nat)
    returns (v: Loop, sent: bool)
    requires Running(cfg, start, w) && w.q.live != []
    requires source != Control && (w.lost || MayGoLive(start, w, source))
    ensures Running(cfg, start, v) && Past(w, v)
    ensures v.replayTaken == w.replayTaken && v.liveTaken == w.liveTaken + [w.q.live[0]]
    ensures |schedule| <= w.clock ==> v.q.live == w.q.live[1..]
    ensures v.clock <= w.clock + 1 && (Quiet(schedule) ==> Still(w.q, v.q))
    ensures (sent ==> v.lost == w.lost) && (!sent ==> v.lost)
  {
    LiveDelivered(cfg, start, schedule, w, source);
    DeliverFollows(cfg, schedule, TakeLive(w), source, w.q.live[0]);
    DeliverShape(cfg, schedule, TakeLive(w), source, w.q.live[0]);
    DeliverQuiet(cfg, schedule, TakeLive(w), source, w.q.live[0]);
    v := Deliver(cfg, schedule, TakeLive(w), source, w.q.live[0]);
    sent := ToWs(w.q.live[0], cfg.isBinary).None? || !v.q.peerGone;
  }

  predicate Noted(w: Loop) {
    w.raised.Some? <==> !Unsignalled(w.q)
  }

  /** What one wait does, apart from the queues. */
  predicate TurnStep(schedule: Schedule, w: Loop, v: Loop) {
    && Noted(w) && Noted(v) && Past(w, v) && v.clock == w.clock + 1
    && v.replayTaken == w.replayTaken && v.liveTaken == w.liveTaken
    && (Quiet(schedule) ==> v.q == w.q)
  }

  method Turn(cfg: Config, schedule: Schedule, w: Loop, ghost start: nat) returns (v: Loop)
    requires Running(cfg, start, w)
    ensures v == Wait(cfg, schedule, w) && Running(cfg, start, v) && TurnStep(schedule, w, v)
    ensures v.lost == w.lost && v.written == w.written && (|schedule| <= w.clock ==> v.q == w.q)
    ensures Fed(cfg, schedule, w) ==> Fed(cfg, schedule, v) && (v.clock <= |schedule| ==> v.q.replay != [])
  {
    if Feeding(schedule) {
      WaitFed(cfg, schedule, w);
    }
    WaitFollows(cfg, schedule, w);
    WaitKeepsGood(cfg, start, schedule, w);
    v := Wait(cfg, schedule, w);
  }

  /** One more round of the burst: `try_recv` and, if that gave something, a send. */
  method TryReplay(cfg: Config, schedule: Schedule, w: Loop, ghost start: nat) returns (v: Loop, some: bool)
    requires Running(cfg, start, w) && !w.lost
    ensures Running(cfg, start, v) && Past(w, v)
    ensures v.liveTaken == w.liveTaken && |v.replayTaken| == |w.replayTaken| + if some then 1 else 0
    ensures v.clock <= w.clock + (if some then 2 else 1) && (Quiet(schedule) ==> Still(w.q, v.q))
    ensures !some ==> v.q.replay == []
  {
    v := Turn(cfg, schedule, w, start);
    some := v.q.replay != [];
    if some {
      var u := v;
      v := DeliverReplay(cfg, schedule, u, start);
      PastTransitive(w, u, v);
    }
  }

  /** The replay branch: the payload received, then up to a burst's worth more without waiting for any. */
  method ReplayBurst(cfg: Config, schedule: Schedule, w: Loop, ghost start: nat) returns (v: Loop)
    requires Running(cfg, start, w) && !w.lost && w.q.replay != []
    ensures Running(cfg, start, v) && Past(w, v)
    ensures v.liveTaken == w.liveTaken && |w.replayTaken| < |v.replayTaken| <= |w.replayTaken| + OUTBOUND_REPLAY_BURST
    ensures v.clock <= w.clock + 2 * (|v.replayTaken| - |w.replayTaken|) && (Quiet(schedule) ==> Still(w.q, v.q))
    ensures |v.replayTaken| == |w.replayTaken| + OUTBOUND_REPLAY_BURST || v.lost || v.q.replay == []
  {
    v := DeliverReplay(cfg, schedule, w, start);
    var i, some := 0, true;
    while i < OUTBOUND_REPLAY_BURST - 1 && some && !v.lost
      invariant 0 <= i <= OUTBOUND_REPLAY_BURST - 1
      invariant Running(cfg, start, v) && Past(w, v) && v.liveTaken == w.liveTaken
      invariant |w.replayTaken| < |v.replayTaken| <= |w.replayTaken| + 1 + i
      invariant if some then |v.replayTaken| == |w.replayTaken| + 1 + i else v.q.replay == []
      invariant v.clock <= w.clock + 2 * (|v.replayTaken| - |w.replayTaken|) - (if some then 1 else 0)
      invariant Quiet(schedule) ==> Still(w.q, v.q)
    {
      var u := v;
      v, some := TryReplay(cfg, schedule, u, start);
      PastTransitive(w, u, v);
      i := i + 1;
    }
  }

  function Remaining(schedule: Schedule, w: Loop): nat {
    if w.clock < |schedule| then |schedule| - w.clock else 0
  }

  /** One round of the drain: a send, and another `try_recv`. */
  method DrainOne(cfg: Config, schedule: Schedule, w: Loop, ghost start: nat) returns (v: Loop)
    requires Running(cfg, start, w) && !w.lost && w.q.replay != []
    ensures Running(cfg, start, v) && Past(w, v) && v.liveTaken == w.liveTaken
    ensures |v.replayTaken| == |w.replayTaken| + 1 && w.clock < v.clock <= w.clock + 2
    ensures |schedule| <= w.clock ==> |v.q.replay| < |w.q.replay|
    ensures Fed(cfg, schedule, w) ==> Fed(cfg, schedule, v) && (v.clock <= |schedule| ==> v.q.replay != [])
  {
    var u := DeliverReplay(cfg, schedule, w, start);
    v := Turn(cfg, schedule, u, start);
    PastTransitive(w, u, v);
  }

  /** Replay keeps coming. */
  predicate Fed(cfg: Config, schedule: Schedule, w: Loop) {
    Feeding(schedule) && w.q.replayAlive && cfg.replayCapacity > 0
  }

  /** Shutdown, first part: replay until it is seen empty or a send fails; so it lasts as long as it is fed. */
  method DrainReplay(cfg: Config, schedule: Schedule, w: Loop, ghost start: nat) returns (v: Loop)
    requires Running(cfg, start, w) && !w.lost
    ensures Running(cfg, start, v) && Past(w, v)
    ensures v.liveTaken == w.liveTaken && (v.lost || v.q.replay == [])
    ensures v.clock <= w.clock + 1 + 2 * (|v.replayTaken| - |w.replayTaken|)
    ensures Fed(cfg, schedule, w) ==> v.lost || v.clock > |schedule|
  {
    v := Turn(cfg, schedule, w, start);
    while !v.lost && v.q.replay != []
      invariant Running(cfg, start, v) && Past(w, v) && v.liveTaken == w.liveTaken
      invariant v.clock <= w.clock + 1 + 2 * (|v.replayTaken| - |w.replayTaken|)
      invariant Fed(cfg, schedule, w) ==> Fed(cfg, schedule, v) && (v.clock <= |schedule| ==> v.q.replay != [])
      decreases Remaining(schedule, v), |v.q.replay|
    {
      var u := v;
      v := DrainOne(cfg, schedule, u, start);
      PastTransitive(w, u, v);
    }
  }

  /** Shutdown, second part: the same for live. */
  method DrainLive(cfg: Config, schedule: Schedule, w: Loop, ghost start: nat) returns (v: Loop)
    requires Running(cfg, start, w) && (w.lost || MayGoLive(start, w, Drained))
    ensures Running(cfg, start, v) && Past(w, v)
    ensures v.replayTaken == w.replayTaken && (w.lost ==> v.lost) && (v.lost || v.q.live == [])
    ensures v.clock <= w.clock + 1 + 2 * (|v.liveTaken| - |w.liveTaken|)
  {
    v := Turn(cfg, schedule, w, start);
    var sent := true;
    while sent && v.q.live != []
      invariant Running(cfg, start, v) && Past(w, v) && v.replayTaken == w.replayTaken && (w.lost ==> v.lost)
      invariant v.lost || MayGoLive(start, v, Drained)
      invariant !sent ==> v.lost
      invariant v.clock <= w.clock + 1 + 2 * (|v.liveTaken| - |w.liveTaken|)
      decreases Remaining(schedule, v), |v.q.live|
    {
      var u;
      u, sent := DeliverLive(cfg, schedule, v, Drained, start);
      PastTransitive(w, v, u);
      v := Turn(cfg, schedule, u, start);
      PastTransitive(w, u, v);
    }
  }

  datatype Ending = Evicted | UrgentClosed | ShutDown | SendFailed | LiveClosed

  method SendLast(cfg: Config, schedule: Schedule, w: Loop, m: WsMsg, ghost start: nat) returns (v: Loop)
    requires Running(cfg, start, w)
    ensures Good(cfg, start, v) && Past(w, v) && EndsWith(v, m)
    ensures v.replayTaken == w.replayTaken && v.liveTaken == w.liveTaken && (w.lost ==> v.lost)
    ensures v.clock == w.clock + 1
  {
    ControlSent(cfg, start, schedule, w, m);
    v := Send(cfg, schedule, w, Control, m);
  }

  /** Eviction and urgent close: one last message if it can be rendered; then the socket is closed. */
  method CloseWith(cfg: Config, schedule: Schedule, w: Loop, p: Payload, ghost start: nat) returns (v: Loop)
    requires Running(cfg, start, w)
    ensures Good(cfg, start, v) && Past(w, v) && v.replayTaken == w.replayTaken && v.liveTaken == w.liveTaken
    ensures if cfg.isBinary || p.utf8 then LastWords(cfg, v, p) else v == w
    ensures v.clock <= w.clock + 1
  {
    v := w;
    var m := ToWs(p, cfg.isBinary);
    if m.Some? {
      v := SendLast(cfg, schedule, w, m.value, start);
    }
  }

  /** Everything queued before the shutdown signal was taken. */
  predicate SettledBy(w: Loop) {
    w.q.shutdown.Some? && w.q.shutdown.value.replay <= |w.replayTaken| && w.q.shutdown.value.live <= |w.liveTaken|
  }

  /** Shutdown: both queues are drained, then the close frame goes out whether or not the sends worked. */
  method CloseDown(cfg: Config, schedule: Schedule, w: Loop, ghost start: nat) returns (v: Loop)
    requires Running(cfg, start, w) && !w.lost && w.q.shutdown.Some?
    ensures Standing(cfg, start, v, Some(ShutDown)) && Noted(v) && Past(w, v)
    ensures w.clock < v.clock <= w.clock + 3 + 2 * (Taken(v) - Taken(w))
    ensures Fed(cfg, schedule, w) ==> v.lost || v.clock > |schedule|
  {
    var r := DrainReplay(cfg, schedule, w, start);
    assert r.lost || MayGoLive(start, r, Drained);
    var l := DrainLive(cfg, schedule, r, start);
    assert l.lost || SettledBy(l);
    PastTransitive(w, r, l);
    v := SendLast(cfg, schedule, l, GoingAway, start);
    PastTransitive(w, l, v);
  }

  /** A closed guard means that nothing can arrive there any more. */
  predicate Listening(q: Queues, evictOpen: bool, urgentOpen: bool) {
    && (!evictOpen ==> !q.evictAlive && !q.evict)
    && (!urgentOpen ==> !q.urgentAlive && q.urgent.None?)
  }

  /** At most a burst of payloads has been taken since an alarm. */
  predicate Prompt(w: Loop) {
    w.alarm.Some? ==> Taken(w) <= w.alarm.value + OUTBOUND_REPLAY_BURST
  }

  /** Replay is finished for good. */
  predicate ReplayClosed(q: Queues) {
    !q.replayAlive && q.replay == []
  }

  function Opens(evictOpen: bool, urgentOpen: bool): nat {
    (if evictOpen then 1 else 0) + (if urgentOpen then 2 else 0)
  }

  /** How long the loop may still run after a signal: the rest of a burst, and noticing dropped senders. */
  const SIGNAL_LATENCY: nat := 2 * OUTBOUND_REPLAY_BURST + 8

  predicate Timely(w: Loop, evictOpen: bool, urgentOpen: bool) {
    w.raised.Some? ==> w.clock + Opens(evictOpen, urgentOpen) <= w.raised.value + SIGNAL_LATENCY
  }

  /**
   * How long after a signal the loop can be where it is: at most the latency and one closing message,
   * unless shutdown has it drain; then two waits more for every payload.
   */
  predicate InTime(w: Loop, ending: Option<Ending>) {
    w.raised.Some? ==>
      w.clock <= w.raised.value + SIGNAL_LATENCY + if ending == Some(ShutDown) then 6 + 2 * Taken(w) else 3
  }

  /** A pending signal decides how the loop ends, and eviction and urgent close let nothing else through. */
  predicate Preempts(q: Queues, v: Loop, ending: Option<Ending>) {
    && (q.evict ==> v.q.evict && (ending.None? || ending.value.Evicted?) && Taken(v) == 0)
    && (q.urgent.Some? ==>
          && v.q.urgent.Some? && Taken(v) == 0
          && (ending.None? || ending.value.Evicted? || ending.value.UrgentClosed?))
    && (q.shutdown.Some? ==>
          && v.q.shutdown.Some?
          && (ending.Some? ==> !ending.value.SendFailed? && !ending.value.LiveClosed?))
  }

  predicate Waiting(q: Queues) {
    q.replay != [] || q.live != []
  }

  /** How much of the clock the loop still spends on noticing dropped senders. */
  function Closing(q: Queues, evictOpen: bool, urgentOpen: bool): nat {
    (if evictOpen && !q.evictAlive then 1 else 0) + (if urgentOpen && !q.urgentAlive then 2 else 0)
  }

  /** There is something to write, or the end of the live queue to notice. */
  predicate Unfinished(q: Queues) {
    Waiting(q) || !q.liveAlive
  }

  /** If at all, then because the live queue is empty and closed. */
  predicate Ends(q: Queues, ending: Option<Ending>) {
    ending.None? || (ending == Some(LiveClosed) && !Waiting(q) && !q.liveAlive)
  }

  /** No signal, a live peer, and a replay sender. */
  predicate Calm(q: Queues) {
    Unsignalled(q) && !q.peerGone && q.replayAlive
  }

  /** p is the last frame, if it makes one: binary bytes on a binary connection, text otherwise. */
  predicate LastWords(cfg: Config, w: Loop, p: Payload) {
    if cfg.isBinary then EndsWith(w, Binary(p.bytes))
    else if p.utf8 then EndsWith(w, Text(p.bytes))
    else NoControl(w.written)
  }

  /** What was written last, and what it promises, for each way the loop can end. */
  predicate Concluded(cfg: Config, w: Loop, ending: Ending) {
    match ending
    case Evicted => w.q.evict && LastWords(cfg, w, cfg.disconnect)
    case UrgentClosed => w.q.urgent.Some? && LastWords(cfg, w, w.q.urgent.value)
    case ShutDown => EndsWith(w, GoingAway) && (w.lost || SettledBy(w))
    case SendFailed => w.lost && NoControl(w.written)
    case LiveClosed => !w.lost && !w.q.liveAlive && w.liveTaken == w.q.liveAll && NoControl(w.written)
  }

  /** No eviction or urgent close is pending or can still come, and replay is finished. */
  predicate Abandoned(q: Queues) {
    !q.evict && !q.evictAlive && q.urgent.None? && !q.urgentAlive && ReplayClosed(q)
  }

  /** How a run may stand at the top of the loop. */
  ghost predicate Standing(cfg: Config, start: nat, v: Loop, ending: Option<Ending>) {
    && Good(cfg, start, v)
    && (if ending.Some? then Concluded(cfg, v, ending.value) else NoControl(v.written) && !v.lost)
    && (ending != Some(ShutDown) ==> Prompt(v))
  }

  /** Nothing was taken since an alarm. */
  predicate JustAlarmed(w: Loop) {
    w.alarm.Some? ==> Taken(w) <= w.alarm.value
  }

  function AfterSend(lost: bool): Option<Ending> {
    if lost then Some(SendFailed) else None
  }

  /** Up to a burst of payloads later. */
  lemma StandingAfter(cfg: Config, start: nat, w: Loop, v: Loop)
    requires Running(cfg, start, v) && Past(w, v) && JustAlarmed(w) && Taken(v) <= Taken(w) + OUTBOUND_REPLAY_BURST
    ensures Standing(cfg, start, v, AfterSend(v.lost))
  {
  }

  lemma StandingIdle(cfg: Config, start: nat, w: Loop, v: Loop)
    requires Running(cfg, start, v) && !v.lost && Past(w, v) && JustAlarmed(w) && Taken(v) == Taken(w) && v.q.live == []
    ensures Standing(cfg, start, v, if v.q.liveAlive then None else Some(LiveClosed))
  {
  }

  /** What a closing message does, apart from the wire. */
  predicate AnswerStep(w: Loop, v: Loop) {
    && Noted(w) && Noted(v) && Past(w, v) && v.clock <= w.clock + 1
    && v.replayTaken == w.replayTaken && v.liveTaken == w.liveTaken
  }

  method AnswerEviction(cfg: Config, schedule: Schedule, w: Loop, ghost start: nat) returns (v: Loop)
    requires Running(cfg, start, w) && Prompt(w) && w.q.evict
    ensures Standing(cfg, start, v, Some(Evicted)) && AnswerStep(w, v)
  {
    v := CloseWith(cfg, schedule, w, cfg.disconnect, start);
  }

  method AnswerUrgent(cfg: Config, schedule: Schedule, w: Loop, ghost start: nat) returns (v: Loop)
    requires Running(cfg, start, w) && Prompt(w) && w.q.urgent.Some?
    ensures Standing(cfg, start, v, Some(UrgentClosed)) && AnswerStep(w, v)
  {
    v := CloseWith(cfg, schedule, w, w.q.urgent.value, start);
  }

  /** Where the loop stands before a pass, or after the last one. */
  datatype Top = Top(w: Loop, ending: Option<Ending>, evictOpen: bool, urgentOpen: bool)

  /** What looking at the signals does; `on` if none of them stopped the pass. */
  predicate SignalStep(schedule: Schedule, a: Top, b: Top, on: bool) {
    && a.ending.None? && Noted(a.w) && Noted(b.w) && Past(a.w, b.w) && a.w.clock < b.w.clock
    && b.w.clock <= a.w.clock + (if b.ending == Some(ShutDown) then 6 + 2 * (Taken(b.w) - Taken(a.w)) else 3)
    && (b.ending != Some(ShutDown) ==> b.w.replayTaken == a.w.replayTaken && b.w.liveTaken == a.w.liveTaken)
    && (b.ending.Some? ==> !on && !b.ending.value.SendFailed? && !b.ending.value.LiveClosed?)
    && (b.ending == Some(Evicted) ==> b.w.q.evict) && (b.ending == Some(UrgentClosed) ==> b.w.q.urgent.Some?)
    && (a.w.q.evict ==> b.ending == Some(Evicted))
    && (a.w.q.urgent.Some? ==> b.ending != Some(ShutDown))
    && (Quiet(schedule) && !a.w.q.evict ==> b.ending != Some(Evicted) && (b.ending.None? ==> !b.w.q.evict))
    && (!Unsignalled(a.w.q) ==>
          && !on
          && (b.ending.None? ==>
                b.w.clock + Opens(b.evictOpen, b.urgentOpen) == a.w.clock + Opens(a.evictOpen, a.urgentOpen)))
    && (Quiet(schedule) && Unsignalled(a.w.q) ==>
          && b.w.q == a.w.q && b.ending.None?
          && b.w.clock + Closing(b.w.q, b.evictOpen, b.urgentOpen) ==
             a.w.clock + Closing(a.w.q, a.evictOpen, a.urgentOpen) + if on then 3 else 0)
  }

  /** What taking payloads does. */
  predicate PayloadStep(schedule: Schedule, w: Loop, v: Loop, ending: Option<Ending>) {
    && Noted(v) && Past(w, v)
    && Taken(v) <= Taken(w) + OUTBOUND_REPLAY_BURST && v.clock <= w.clock + 2 * OUTBOUND_REPLAY_BURST + 1
    && (ending.Some? ==> ending.value.SendFailed? || ending.value.LiveClosed?)
    && (!w.q.replayAlive ==> ending != Some(LiveClosed) && v.liveTaken == w.liveTaken)
    && (Abandoned(w.q) ==> ending.None?)
    && (Quiet(schedule) ==> v.q.evict == w.q.evict)
    && (Quiet(schedule) && Calm(w.q) ==>
          && Still(w.q, v.q) && Ends(w.q, ending)
          && (ending.None? && Unfinished(w.q) ==>
                Taken(w) < Taken(v) && v.clock <= w.clock + 3 * (Taken(v) - Taken(w))))
  }

  lemma SignalsEvicted(schedule: Schedule, a: Top, e: Loop, v: Loop)
    requires a.ending.None? && TurnStep(schedule, a.w, e) && e.q.evict && AnswerStep(e, v)
    ensures SignalStep(schedule, a, Top(v, Some(Evicted), a.evictOpen, a.urgentOpen), false)
  {
    PastTransitive(a.w, e, v);
  }

  lemma SignalsClosed(schedule: Schedule, a: Top, e: Loop)
    requires a.ending.None? && TurnStep(schedule, a.w, e) && a.evictOpen && !e.q.evict && !e.q.evictAlive
    ensures SignalStep(schedule, a, Top(e, None, false, a.urgentOpen), false)
  {
  }

  /** What looking at the later signals does, with eviction out of the way. */
  predicate LaterStep(schedule: Schedule, w: Loop, urgentOpen: bool, v: Loop, on: bool, ending: Option<Ending>,
                      urgentOpen': bool)
  {
    && Noted(v) && Past(w, v) && w.clock < v.clock
    && v.clock <= w.clock + (if ending == Some(ShutDown) then 5 + 2 * (Taken(v) - Taken(w)) else 2)
    && (ending != Some(ShutDown) ==> v.replayTaken == w.replayTaken && v.liveTaken == w.liveTaken)
    && (ending.Some? ==> !on && (ending.value.UrgentClosed? || ending.value.ShutDown?))
    && (ending == Some(UrgentClosed) ==> v.q.urgent.Some?)
    && (on ==> w.q.urgent.None? && w.q.shutdown.None?)
    && (w.q.urgent.Some? ==> ending == Some(UrgentClosed))
    && (!on && ending.None? ==> urgentOpen && !urgentOpen' && v.clock == w.clock + 1)
    && (Quiet(schedule) && ending.None? ==> v.q == w.q)
    && (Quiet(schedule) && Unsignalled(w.q) ==>
          && ending.None?
          && if urgentOpen && !w.q.urgentAlive then !on else on && urgentOpen' == urgentOpen && v.clock == w.clock + 2)
  }

  lemma SignalsLater(schedule: Schedule, a: Top, e: Loop, v: Loop, on: bool, ending: Option<Ending>, urgentOpen': bool)
    requires a.ending.None? && TurnStep(schedule, a.w, e) && !e.q.evict && (a.evictOpen ==> e.q.evictAlive)
    requires LaterStep(schedule, e, a.urgentOpen, v, on, ending, urgentOpen')
    ensures SignalStep(schedule, a, Top(v, ending, a.evictOpen, urgentOpen'), on)
  {
    PastTransitive(a.w, e, v);
  }

  /** A pass, first half: eviction, then urgent close, then shutdown.  Not `on` when a branch was taken. */
  method Signals(cfg: Config, schedule: Schedule, w: Loop, evictOpen: bool, urgentOpen: bool, ghost start: nat)
    returns (v: Loop, on: bool, ending: Option<Ending>, evictOpen': bool, urgentOpen': bool)
    requires Running(cfg, start, w) && !w.lost && Listening(w.q, evictOpen, urgentOpen) && Prompt(w)
    ensures Standing(cfg, start, v, ending) && (ending.None? ==> Listening(v.q, evictOpen', urgentOpen'))
    ensures SignalStep(schedule, Top(w, None, evictOpen, urgentOpen), Top(v, ending, evictOpen', urgentOpen'), on)
    ensures on ==> JustAlarmed(v)
  {
    evictOpen', urgentOpen', ending, on := evictOpen, urgentOpen, None, false;
    var e := Turn(cfg, schedule, w, start);
    ghost var a := Top(w, None, evictOpen, urgentOpen);
    v := e;
    if evictOpen && e.q.evict {
      v := AnswerEviction(cfg, schedule, e, start);
      SignalsEvicted(schedule, a, e, v);
      ending := Some(Evicted);
      return;
    }
    if evictOpen && !e.q.evictAlive {
      SignalsClosed(schedule, a, e);
      evictOpen' := false;
      return;
    }
    v, on, ending, urgentOpen' := LaterSignals(cfg, schedule, e, urgentOpen, start);
    SignalsLater(schedule, a, e, v, on, ending, urgentOpen');
  }

  lemma LaterUrgent(schedule: Schedule, w: Loop, u: Loop, v: Loop, urgentOpen: bool)
    requires TurnStep(schedule, w, u) && u.q.urgent.Some? && AnswerStep(u, v)
    ensures LaterStep(schedule, w, urgentOpen, v, false, Some(UrgentClosed), urgentOpen)
  {
    PastTransitive(w, u, v);
  }

  lemma LaterClosed(schedule: Schedule, w: Loop, u: Loop, urgentOpen: bool)
    requires TurnStep(schedule, w, u) && urgentOpen && u.q.urgent.None? && !u.q.urgentAlive
    ensures LaterStep(schedule, w, urgentOpen, u, false, None, false)
  {
  }

  lemma LaterShutDown(schedule: Schedule, w: Loop, u: Loop, d: Loop, v: Loop, urgentOpen: bool)
    requires TurnStep(schedule, w, u) && TurnStep(schedule, u, d) && u.q.urgent.None? && d.q.shutdown.Some?
    requires Noted(v) && Past(d, v) && d.clock < v.clock <= d.clock + 3 + 2 * (Taken(v) - Taken(d))
    ensures LaterStep(schedule, w, urgentOpen, v, false, Some(ShutDown), urgentOpen)
  {
    PastTransitive(w, u, d);
    PastTransitive(w, d, v);
  }

  lemma LaterOn(schedule: Schedule, w: Loop, u: Loop, d: Loop, urgentOpen: bool)
    requires TurnStep(schedule, w, u) && TurnStep(schedule, u, d) && u.q.urgent.None? && d.q.shutdown.None?
    requires urgentOpen ==> u.q.urgentAlive
    ensures LaterStep(schedule, w, urgentOpen, d, true, None, urgentOpen)
  {
    PastTransitive(w, u, d);
  }

  /** The same with eviction out of the way. */
  method LaterSignals(cfg: Config, schedule: Schedule, w: Loop, urgentOpen: bool, ghost start: nat)
    returns (v: Loop, on: bool, ending: Option<Ending>, urgentOpen': bool)
    requires Running(cfg, start, w) && !w.lost && Listening(w.q, true, urgentOpen) && Prompt(w) && !w.q.evict
    ensures Standing(cfg, start, v, ending) && (ending.None? ==> Listening(v.q, true, urgentOpen'))
    ensures LaterStep(schedule, w, urgentOpen, v, on, ending, urgentOpen')
    ensures on ==> JustAlarmed(v)
  {
    urgentOpen', ending, on := urgentOpen, None, false;
    var u := Turn(cfg, schedule, w, start);
    v := u;
    if urgentOpen && u.q.urgent.Some? {
      v := AnswerUrgent(cfg, schedule, u, start);
      LaterUrgent(schedule, w, u, v, urgentOpen);
      ending := Some(UrgentClosed);
      return;
    }
    if urgentOpen && !u.q.urgentAlive {
      LaterClosed(schedule, w, u, urgentOpen);
      urgentOpen' := false;
      return;
    }
    var d := Turn(cfg, schedule, u, start);
    v := d;
    if d.q.shutdown.Some? {
      v := CloseDown(cfg, schedule, d, start);
      LaterShutDown(schedule, w, u, d, v, urgentOpen);
      ending := Some(ShutDown);
      return;
    }
    LaterOn(schedule, w, u, d, urgentOpen);
    on := true;
  }

  lemma PayloadBurst(schedule: Schedule, w: Loop, r: Loop, v: Loop)
    requires TurnStep(schedule, w, r) && r.q.replay != [] && Noted(v) && Past(r, v) && (v.lost ==> v.q.peerGone)
    requires v.liveTaken == r.liveTaken
    requires |r.replayTaken| < |v.replayTaken| <= |r.replayTaken| + OUTBOUND_REPLAY_BURST
    requires v.clock <= r.clock + 2 * (|v.replayTaken| - |r.replayTaken|) && (Quiet(schedule) ==> Still(r.q, v.q))
    ensures PayloadStep(schedule, w, v, AfterSend(v.lost))
  {
    PastTransitive(w, r, v);
  }

  lemma PayloadNone(schedule: Schedule, w: Loop, r: Loop)
    requires TurnStep(schedule, w, r) && r.q.replay == [] && !r.q.replayAlive
    ensures PayloadStep(schedule, w, r, None)
  {
  }

  lemma PayloadLive(schedule: Schedule, w: Loop, r: Loop, v: Loop, ending: Option<Ending>)
    requires TurnStep(schedule, w, r) && r.q.replay == [] && r.q.replayAlive && LiveStep(schedule, r, v, ending)
    ensures PayloadStep(schedule, w, v, ending)
  {
    PastTransitive(w, r, v);
  }

  /** A pass, second half: replay, then live. */
  method Payloads(cfg: Config, schedule: Schedule, w: Loop, ghost start: nat) returns (v: Loop, ending: Option<Ending>)
    requires Running(cfg, start, w) && !w.lost && JustAlarmed(w)
    ensures Standing(cfg, start, v, ending) && PayloadStep(schedule, w, v, ending)
  {
    ending := None;
    var r := Turn(cfg, schedule, w, start);
    v := r;
    if r.q.replay != [] {
      v := ReplayBurst(cfg, schedule, r, start);
      PayloadBurst(schedule, w, r, v);
      StandingAfter(cfg, start, w, v);
      ending := AfterSend(v.lost);
      return;
    }
    if !r.q.replayAlive {
      PayloadNone(schedule, w, r);
      return;
    }
    v, ending := LivePayload(cfg, schedule, r, start);
    PayloadLive(schedule, w, r, v, ending);
  }

  /** What the live branch does. */
  predicate LiveStep(schedule: Schedule, w: Loop, v: Loop, ending: Option<Ending>) {
    && Noted(v) && Past(w, v) && Taken(v) <= Taken(w) + 1 && v.clock <= w.clock + 2
    && (ending.Some? ==> ending.value.SendFailed? || ending.value.LiveClosed?)
    && (Quiet(schedule) ==> Still(w.q, v.q))
    && (Quiet(schedule) && !w.q.peerGone ==>
          if w.q.live != [] then ending.None? && Taken(v) == Taken(w) + 1
          else Taken(v) == Taken(w) && ending == if w.q.liveAlive then None else Some(LiveClosed))
  }

  lemma LiveSent(schedule: Schedule, w: Loop, l: Loop, v: Loop, lost: bool)
    requires TurnStep(schedule, w, l) && l.q.live != [] && Noted(v) && Past(l, v) && (lost ==> v.q.peerGone)
    requires v.replayTaken == l.replayTaken && |v.liveTaken| == |l.liveTaken| + 1 && v.clock <= l.clock + 1
    requires Quiet(schedule) ==> Still(l.q, v.q)
    ensures LiveStep(schedule, w, v, AfterSend(lost))
  {
    PastTransitive(w, l, v);
  }

  lemma LiveIdle(schedule: Schedule, w: Loop, l: Loop)
    requires TurnStep(schedule, w, l) && l.q.live == []
    ensures LiveStep(schedule, w, l, if l.q.liveAlive then None else Some(LiveClosed))
  {
  }

  /** Whatever is queued while the loop waits, replay seen empty before that lets a live payload go. */
  lemma EmptyThenLive(cfg: Config, start: nat, schedule: Schedule, w: Loop)
    requires Good(cfg, start, w) && w.q.replay == []
    ensures MayGoLive(start, Wait(cfg, schedule, w), FromLive)
  {
  }

  /** The live branch, with the replay queue just seen empty. */
  method LivePayload(cfg: Config, schedule: Schedule, w: Loop, ghost start: nat)
    returns (v: Loop, ending: Option<Ending>)
    requires Running(cfg, start, w) && !w.lost && JustAlarmed(w) && w.q.replay == []
    ensures Standing(cfg, start, v, ending) && LiveStep(schedule, w, v, ending)
  {
    EmptyThenLive(cfg, start, schedule, w);
    var l := Turn(cfg, schedule, w, start);
    if l.q.live != [] {
      var sent;
      v, sent := DeliverLive(cfg, schedule, l, FromLive, start);
      LiveSent(schedule, w, l, v, !sent);
      StandingAfter(cfg, start, w, v);
      ending := AfterSend(!sent);
    } else {
      LiveIdle(schedule, w, l);
      StandingIdle(cfg, start, w, l);
      v, ending := l, if l.q.liveAlive then None else Some(LiveClosed);
    }
  }

  /** The channels as the loop finds them: nothing taken yet. */
  predicate Initial(cfg: Config, q: Queues) {
    && q.replayAll == q.replay && |q.replay| <= cfg.replayCapacity
    && q.liveAll == q.live && |q.live| <= cfg.liveCapacity
    && (q.shutdown.Some? ==> q.shutdown.value.replay <= |q.replayAll| && q.shutdown.value.live <= |q.liveAll|)
  }

  // ---------------------------------------------------------------------------
  // One pass
  // ---------------------------------------------------------------------------

  /** A pass, signal by signal and channel by channel. */
  predicate Advanced(schedule: Schedule, w: Loop, v: Loop, ending: Option<Ending>) {
    && (!w.q.replayAlive ==> ending != Some(LiveClosed) && (ending != Some(ShutDown) ==> v.liveTaken == w.liveTaken))
    && (Abandoned(w.q) ==> ending.None? || ending.value.ShutDown?)
    && (w.q.evict ==> ending == Some(Evicted))
    && (w.q.urgent.Some? ==> ending.None? || ending.value.Evicted? || ending.value.UrgentClosed?)
    && (!Unsignalled(w.q) ==>
          && (ending.Some? ==> !ending.value.SendFailed? && !ending.value.LiveClosed?)
          && (ending != Some(ShutDown) ==> Taken(v) == Taken(w)))
    && (Quiet(schedule) && !w.q.evict ==> ending != Some(Evicted) && (ending.None? ==> !v.q.evict))
  }

  /** How long it takes. */
  predicate Clocked(a: Top, b: Top) {
    && a.w.clock < b.w.clock
    && b.w.clock <= a.w.clock +
         (if b.ending == Some(ShutDown) then 6 + 2 * (Taken(b.w) - Taken(a.w))
          else if a.w.raised.Some? then 3 else 2 * OUTBOUND_REPLAY_BURST + 4)
    && (b.ending.None? && a.w.raised.Some? ==>
          b.w.clock + Opens(b.evictOpen, b.urgentOpen) == a.w.clock + Opens(a.evictOpen, a.urgentOpen))
  }

  /** What it gets done when nobody interferes. */
  predicate Paced(schedule: Schedule, a: Top, b: Top) {
    Quiet(schedule) && Calm(a.w.q) ==>
      && Still(a.w.q, b.w.q) && Ends(a.w.q, b.ending)
      && (b.ending.None? && Unfinished(a.w.q) ==>
            b.w.clock + Closing(b.w.q, b.evictOpen, b.urgentOpen) <=
            a.w.clock + Closing(a.w.q, a.evictOpen, a.urgentOpen) + 6 * (Taken(b.w) - Taken(a.w)))
  }

  predicate Step(schedule: Schedule, a: Top, b: Top) {
    && a.ending.None? && Noted(a.w) && Noted(b.w) && Past(a.w, b.w)
    && Advanced(schedule, a.w, b.w, b.ending) && Clocked(a, b) && Paced(schedule, a, b)
  }

  /** A pass that stopped at the signals. */
  lemma StepOff(schedule: Schedule, a: Top, b: Top)
    requires SignalStep(schedule, a, b, false)
    ensures Step(schedule, a, b)
  {
    if b.ending.Some? {
      match b.ending.value {
        case Evicted =>
        case UrgentClosed =>
        case ShutDown =>
      }
    }
  }

  lemma AdvancedOn(schedule: Schedule, w: Loop, s: Loop, v: Loop, ending: Option<Ending>)
    requires Past(w, s) && Unsignalled(w.q) && s.liveTaken == w.liveTaken && PayloadStep(schedule, s, v, ending)
    requires Quiet(schedule) && !w.q.evict ==> !s.q.evict
    ensures Advanced(schedule, w, v, ending)
  {
  }

  lemma PacedOn(schedule: Schedule, a: Top, s: Top, b: Top)
    requires SignalStep(schedule, a, s, true) && PayloadStep(schedule, s.w, b.w, b.ending)
    requires b.evictOpen == s.evictOpen && b.urgentOpen == s.urgentOpen
    ensures Paced(schedule, a, b)
  {
  }

  /** A pass that went on from s to the payloads. */
  lemma StepOn(schedule: Schedule, a: Top, s: Top, b: Top)
    requires SignalStep(schedule, a, s, true) && PayloadStep(schedule, s.w, b.w, b.ending)
    requires b.evictOpen == s.evictOpen && b.urgentOpen == s.urgentOpen
    ensures Step(schedule, a, b)
  {
    PastTransitive(a.w, s.w, b.w);
    AdvancedOn(schedule, a.w, s.w, b.w, b.ending);
    PacedOn(schedule, a, s, b);
  }

  /** One pass through the choice: each branch is looked at only if those before it had nothing. */
  method Pass(cfg: Config, schedule: Schedule, w: Loop, evictOpen: bool, urgentOpen: bool, ghost start: nat)
    returns (v: Loop, ending: Option<Ending>, evictOpen': bool, urgentOpen': bool)
    requires Running(cfg, start, w) && !w.lost && Listening(w.q, evictOpen, urgentOpen) && Prompt(w)
    ensures Standing(cfg, start, v, ending) && (ending.None? ==> Listening(v.q, evictOpen', urgentOpen'))
    ensures Step(schedule, Top(w, None, evictOpen, urgentOpen), Top(v, ending, evictOpen', urgentOpen'))
  {
    var on;
    v, on, ending, evictOpen', urgentOpen' := Signals(cfg, schedule, w, evictOpen, urgentOpen, start);
    ghost var a, s := Top(w, None, evictOpen, urgentOpen), Top(v, ending, evictOpen', urgentOpen');
    if on {
      v, ending := Payloads(cfg, schedule, v, start);
      StepOn(schedule, a, s, Top(v, ending, evictOpen', urgentOpen'));
    } else {
      StepOff(schedule, a, s);
    }
  }

  // ---------------------------------------------------------------------------
  // Pass after pass
  // ---------------------------------------------------------------------------

  /** The tops of a run: each pass leads from one to the next. */
  ghost predicate Chained(schedule: Schedule, tops: seq<Top>) {
    tops != [] && forall i :: 0 <= i < |tops| - 1 ==> Step(schedule, tops[i], tops[i + 1])
  }

  lemma ChainStep(schedule: Schedule, tops: seq<Top>, i: nat)
    requires Chained(schedule, tops) && i + 1 < |tops|
    ensures Step(schedule, tops[i], tops[i + 1])
  {
  }

  /** Once a pass begins without replay senders, no live payload is taken and no end of them noticed. */
  lemma {:induction false} OrphanedStays(schedule: Schedule, tops: seq<Top>, i: nat, j: nat)
    requires Chained(schedule, tops) && i < j < |tops| && !tops[i].w.q.replayAlive
    ensures !tops[j].w.q.replayAlive && tops[j].ending != Some(LiveClosed)
    ensures tops[j].ending != Some(ShutDown) ==> tops[j].w.liveTaken == tops[i].w.liveTaken
    decreases j
  {
    ChainStep(schedule, tops, j - 1);
    if i < j - 1 {
      OrphanedStays(schedule, tops, i, j - 1);
    }
  }

  /** Once a pass begins with nothing to come but live payloads and shutdown, only shutdown ends the loop. */
  lemma {:induction false} AbandonedStays(schedule: Schedule, tops: seq<Top>, i: nat, j: nat)
    requires Chained(schedule, tops) && i < j < |tops| && Abandoned(tops[i].w.q)
    ensures Abandoned(tops[j].w.q) && (tops[j].ending.None? || tops[j].ending.value.ShutDown?)
    decreases j
  {
    ChainStep(schedule, tops, j - 1);
    if i < j - 1 {
      AbandonedStays(schedule, tops, i, j - 1);
    }
  }

  lemma {:induction false} PreemptsAll(schedule: Schedule, tops: seq<Top>, j: nat)
    requires Chained(schedule, tops) && j < |tops| && Taken(tops[0].w) == 0 && tops[0].ending.None?
    ensures Preempts(tops[0].w.q, tops[j].w, tops[j].ending)
    decreases j
  {
    if j > 0 {
      ChainStep(schedule, tops, j - 1);
      PreemptsAll(schedule, tops, j - 1);
    }
  }

  lemma {:induction false} NoEvictionAll(schedule: Schedule, tops: seq<Top>, j: nat)
    requires Chained(schedule, tops) && j < |tops| && tops[0].ending.None?
    requires Quiet(schedule) && !tops[0].w.q.evict
    ensures tops[j].ending != Some(Evicted) && (tops[j].ending.None? ==> !tops[j].w.q.evict)
    decreases j
  {
    if j > 0 {
      ChainStep(schedule, tops, j - 1);
      NoEvictionAll(schedule, tops, j - 1);
    }
  }

  lemma TimelyStep(schedule: Schedule, a: Top, b: Top)
    requires Step(schedule, a, b) && Timely(a.w, a.evictOpen, a.urgentOpen)
    ensures InTime(b.w, b.ending) && (b.ending.None? ==> Timely(b.w, b.evictOpen, b.urgentOpen))
  {
  }

  lemma {:induction false} TimelyAll(schedule: Schedule, tops: seq<Top>, j: nat)
    requires Chained(schedule, tops) && j < |tops| && tops[0].ending.None?
    requires Timely(tops[0].w, tops[0].evictOpen, tops[0].urgentOpen)
    ensures InTime(tops[j].w, tops[j].ending)
    ensures tops[j].ending.None? ==> Timely(tops[j].w, tops[j].evictOpen, tops[j].urgentOpen)
    decreases j
  {
    if j > 0 {
      ChainStep(schedule, tops, j - 1);
      TimelyAll(schedule, tops, j - 1);
      TimelyStep(schedule, tops[j - 1], tops[j]);
    }
  }

  /** A signal that was there from the start leaves only the time to notice dropped senders. */
  lemma {:induction false} PromptAll(schedule: Schedule, tops: seq<Top>, j: nat)
    requires Chained(schedule, tops) && j < |tops| && tops[0].ending.None? && tops[0].w.raised.Some?
    ensures tops[j].w.raised.Some?
    ensures tops[j].ending.None? ==>
              tops[j].w.clock + Opens(tops[j].evictOpen, tops[j].urgentOpen) ==
              tops[0].w.clock + Opens(tops[0].evictOpen, tops[0].urgentOpen)
    decreases j
  {
    if j > 0 {
      ChainStep(schedule, tops, j - 1);
      PromptAll(schedule, tops, j - 1);
    }
  }

  /** How far a run has got with nobody else at work. */
  predicate OnPace(a: Top, b: Top) {
    && Still(a.w.q, b.w.q) && Ends(b.w.q, b.ending)
    && (b.ending.None? && Unfinished(b.w.q) ==>
          b.w.clock + Closing(b.w.q, b.evictOpen, b.urgentOpen) <=
          a.w.clock + Closing(a.w.q, a.evictOpen, a.urgentOpen) + 6 * (Taken(b.w) - Taken(a.w)))
  }

  lemma PaceStep(schedule: Schedule, a: Top, b: Top, c: Top)
    requires Quiet(schedule) && Calm(a.w.q) && OnPace(a, b) && Step(schedule, b, c)
    ensures OnPace(a, c)
  {
  }

  lemma {:induction false} PaceAll(schedule: Schedule, tops: seq<Top>, j: nat)
    requires Chained(schedule, tops) && j < |tops| && tops[0].ending.None?
    requires Quiet(schedule) && Calm(tops[0].w.q)
    ensures OnPace(tops[0], tops[j])
    decreases j
  {
    if j > 0 {
      ChainStep(schedule, tops, j - 1);
      PaceAll(schedule, tops, j - 1);
      PaceStep(schedule, tops[0], tops[j - 1], tops[j]);
    }
  }

  // ---------------------------------------------------------------------------
  // The whole loop
  // ---------------------------------------------------------------------------

  function Begin(q: Queues): Loop {
    Loop(q, [], [], [], false, if q.evict || q.urgent.Some? then Some(0) else None,
         if Unsignalled(q) then None else Some(0), 0, 0, 0)
  }

  lemma BeginGood(cfg: Config, q: Queues)
    requires Initial(cfg, q)
    ensures Running(cfg, |q.replayAll|, Begin(q)) && Prompt(Begin(q)) && Listening(q, true, true)
  {
  }

  /** With only the loop at work, what it has taken and what is left make up what was there. */
  lemma TakenAtMost(cfg: Config, q: Queues, v: Loop)
    requires Initial(cfg, q) && Conserved(cfg, v) && Still(q, v.q)
    ensures Taken(v) <= |q.replay| + |q.live|
    ensures !Waiting(v.q) ==> v.replayTaken == q.replay && v.liveTaken == q.live
  {
  }

  /** The loop itself; `tops` are the states before each pass, and the last one. */
  method RunPasses(cfg: Config, q: Queues, schedule: Schedule)
    returns (v: Loop, ending: Option<Ending>, ghost tops: seq<Top>)
    requires Initial(cfg, q)
    ensures Standing(cfg, |q.replayAll|, v, ending) && (ending.None? ==> |schedule| <= v.clock)
    ensures Chained(schedule, tops) && tops[0] == Top(Begin(q), None, true, true)
    ensures tops[|tops| - 1].w == v && tops[|tops| - 1].ending == ending
  {
    ghost var start := |q.replayAll|;
    v := Begin(q);
    BeginGood(cfg, q);
    ending := None;
    var evictOpen, urgentOpen := true, true;
    tops := [Top(v, ending, evictOpen, urgentOpen)];
    while v.clock < |schedule| && ending.None?
      invariant Standing(cfg, start, v, ending) && (ending.None? ==> Listening(v.q, evictOpen, urgentOpen))
      invariant Chained(schedule, tops) && tops[0] == Top(Begin(q), None, true, true)
      invariant tops[|tops| - 1] == Top(v, ending, evictOpen, urgentOpen)
      decreases |schedule| - v.clock
    {
      v, ending, evictOpen, urgentOpen := Pass(cfg, schedule, v, evictOpen, urgentOpen, start);
      tops := tops + [Top(v, ending, evictOpen, urgentOpen)];
    }
  }

  /** Everything about signals, for the last top of a run. */
  lemma SignalsAnswered(schedule: Schedule, q: Queues, tops: seq<Top>, v: Loop, ending: Option<Ending>)
    requires Chained(schedule, tops) && tops[0] == Top(Begin(q), None, true, true)
    requires tops[|tops| - 1].w == v && tops[|tops| - 1].ending == ending && (ending.None? ==> |schedule| <= v.clock)
    ensures Preempts(q, v, ending) && (Quiet(schedule) && !q.evict ==> ending != Some(Evicted))
    ensures !Unsignalled(q) && |schedule| > 3 ==> ending.Some?
    ensures InTime(v, ending) && (v.raised.Some? && |schedule| > v.raised.value + SIGNAL_LATENCY ==> ending.Some?)
  {
    var last := |tops| - 1;
    PreemptsAll(schedule, tops, last);
    TimelyAll(schedule, tops, last);
    if Quiet(schedule) && !q.evict {
      NoEvictionAll(schedule, tops, last);
    }
    if !Unsignalled(q) {
      PromptAll(schedule, tops, last);
    }
  }

  /** Everything about channels without senders, for every top of a run. */
  lemma SendersGone(schedule: Schedule, tops: seq<Top>, i: nat)
    requires Chained(schedule, tops) && i < |tops| && tops[i].ending.None?
    ensures
      var last := tops[|tops| - 1];
      && (!tops[i].w.q.replayAlive ==>
            && last.ending != Some(LiveClosed)
            && (last.ending != Some(ShutDown) ==> last.w.liveTaken == tops[i].w.liveTaken))
      && (Abandoned(tops[i].w.q) ==> last.ending.None? || last.ending.value.ShutDown?)
  {
    if i < |tops| - 1 && !tops[i].w.q.replayAlive {
      OrphanedStays(schedule, tops, i, |tops| - 1);
    }
    if i < |tops| - 1 && Abandoned(tops[i].w.q) {
      AbandonedStays(schedule, tops, i, |tops| - 1);
    }
  }

  /** Left alone for long enough with a replay sender in place, everything is written. */
  lemma AllWritten(cfg: Config, schedule: Schedule, q: Queues, tops: seq<Top>, v: Loop, ending: Option<Ending>)
    requires Initial(cfg, q) && Conserved(cfg, v) && Calm(q) && Quiet(schedule)
    requires Chained(schedule, tops) && tops[0] == Top(Begin(q), None, true, true)
    requires tops[|tops| - 1].w == v && tops[|tops| - 1].ending == ending && (ending.None? ==> |schedule| <= v.clock)
    requires |schedule| > 3 + 6 * (|q.replay| + |q.live|)
    ensures v.replayTaken == q.replay && v.liveTaken == q.live && !v.lost
    ensures ending == Some(LiveClosed) <==> !q.liveAlive
  {
    PaceAll(schedule, tops, |tops| - 1);
    TakenAtMost(cfg, q, v);
  }

  /** For every top but an ending, what follows once senders are gone. */
  ghost predicate NothingAfterSenders(tops: seq<Top>, v: Loop, ending: Option<Ending>) {
    forall i :: 0 <= i < |tops| && tops[i].ending.None? ==>
      && (!tops[i].w.q.replayAlive ==>
            ending != Some(LiveClosed) && (ending != Some(ShutDown) ==> v.liveTaken == tops[i].w.liveTaken))
      && (Abandoned(tops[i].w.q) ==> ending.None? || ending.value.ShutDown?)
  }

  /**
   * What is on the wire from a queue, frame by frame: the payloads taken from it, all of them unless a send
   * failed; on a binary connection one frame for each.
   */
  ghost predicate WireCarries(isBinary: bool, wire: seq<WsMsg>, taken: seq<Payload>, lost: bool) {
    exists n :: 0 <= n <= |taken| && Carries(isBinary, wire, taken[..n]) && (!lost ==> n == |taken|) &&
                (isBinary ==> |wire| == n && forall i :: 0 <= i < n ==> wire[i] == Binary(taken[i].bytes))
  }

  lemma MergedCarries(isBinary: bool, written: seq<Entry>, taken: seq<Payload>, replay: bool, lost: bool)
    requires Merged(isBinary, written, taken, replay, lost)
    ensures WireCarries(isBinary, Wire(written, replay), taken, lost)
  {
    var wire := Wire(written, replay);
    var n := |taken|;
    if lost {
      n := RenderedUpTo(taken, isBinary, wire);
    }
    assert !lost ==> taken[..n] == taken;
    RenderedCarries(taken[..n], isBinary);
    if isBinary {
      BinaryCarriesAll(wire, taken[..n]);
    }
  }

  /**
   * The outbound loop.  `ending` is how it ended, or nothing if the schedule ran out first; `tops` are
   * the states it was in before each pass, and at last.
   *
   * Whatever the schedule: each queue reaches the wire in order and complete up to a failed send,
   * live messages keep behind replay, an alarm is answered within a burst, and each ending writes its
   * last message and nothing after it.  A signal ends the loop in time, but a shutdown drains for as long
   * as others keep queueing.  Left alone for long enough with a replay sender in place, the loop writes
   * everything and ends just if no live sender is left.  From the first pass that begins with the replay
   * senders gone, no live payload is taken and the end of the live queue goes unnoticed.
   */
  method OutboundLoop(cfg: Config, q: Queues, schedule: Schedule)
    returns (v: Loop, ending: Option<Ending>, ghost tops: seq<Top>)
    requires Initial(cfg, q)
    ensures Standing(cfg, |q.replayAll|, v, ending) && (ending.None? ==> |schedule| <= v.clock)
    ensures WireCarries(cfg.isBinary, Wire(v.written, true), v.replayTaken, v.lost)
    ensures WireCarries(cfg.isBinary, Wire(v.written, false), v.liveTaken, v.lost)
    ensures Chained(schedule, tops) && tops[0].w == Begin(q)
    ensures tops[|tops| - 1].w == v && tops[|tops| - 1].ending == ending
    ensures NothingAfterSenders(tops, v, ending)
    ensures Preempts(q, v, ending) && (!Unsignalled(q) && |schedule| > 3 ==> ending.Some?)
    ensures Quiet(schedule) && !q.evict ==> ending != Some(Evicted)
    ensures InTime(v, ending) && (v.raised.Some? <==> !Unsignalled(v.q)) &&
            (v.raised.Some? && |schedule| > v.raised.value + SIGNAL_LATENCY ==> ending.Some?)
    ensures Calm(q) && Quiet(schedule) && |schedule| > 3 + 6 * (|q.replay| + |q.live|) ==>
              && v.replayTaken == q.replay && v.liveTaken == q.live && !v.lost
              && (ending == Some(LiveClosed) <==> !q.liveAlive)
  {
    v, ending, tops := RunPasses(cfg, q, schedule);
    MergedCarries(cfg.isBinary, v.written, v.replayTaken, true, v.lost);
    MergedCarries(cfg.isBinary, v.written, v.liveTaken, false, v.lost);
    SignalsAnswered(schedule, q, tops, v, ending);
    forall i | 0 <= i < |tops| && tops[i].ending.None? {
      SendersGone(schedule, tops, i);
    }
    if Calm(q) && Quiet(schedule) && |schedule| > 3 + 6 * (|q.replay| + |q.live|) {
      AllWritten(cfg, schedule, q, tops, v, ending);
    }
  }
}
