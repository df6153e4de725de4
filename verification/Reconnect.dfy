/**
 * Reconnecting without a gap: the registry, the JetStream log, the fan-out loop's cursor and
 * one client's background replay, interleaved in every way.
 *
 * The client (connection c, last number seen `lastSeq`) subscribes to s; its handler then spawns
 * the replay task, which checks retention, creates its consumer and fetches.  The registry key and
 * the replay subject need not be the same stream; the results say where they have to be.
 */
module Reconnect {
  import opened Wrappers
  import opened RegistryModel
  import opened RegistrySafety
  import opened RegistryDelivery
  import opened Replay

  /** `key` is the stream the registry knows the subscription by, `subject` the one its replay reads. */
  datatype Client = Client(c: ConnId, key: Stream, subject: Stream, lastSeq: nat)

  /** The replay task; `epoch` names the subscription that spawned it. */
  datatype Task =
    | NotSpawned
    | Spawned(epoch: nat)
    | Checked(epoch: nat, seen: Log)       // seen: the log the retention check passed on
    | Refused
    | Fetching(epoch: nat, seen: Log, end: nat, next: nat, events: seq<Event>)  // end: where the log ended at creation

  datatype World = World(
    reg: State,
    log: Log,
    cursor: nat,          // messages the fan-out loop has taken
    dropped: set<nat>,    // taken but not fanned out: rate-limited, or trimmed before they were taken
    task: Task)

  datatype Move =
    | Act(step: Step)                     // a registry step other than a new fan-out
    | FanNext                             // the fan-out loop takes the next message
    | FanDrop                             // ... and drops it
    | Publish(stream: Stream)
    | Trim(first: nat)
    | Spawn                               // the handler, after its subscribe returned
    | Check                               // retention check on the current log
    | Create                              // the ephemeral consumer
    | Fetch(number: nat, encodes: bool)   // the consumer's next message

  const START := World(INIT, Log([], 1), 0, {}, NotSpawned)

  function InfoOf(log: Log): Info
    requires ValidLog(log)
  {
    Info(|log.subjects| + 1 - log.first, log.first)
  }

  predicate OnStream(subjects: seq<Stream>, s: Stream, q: nat) {
    1 <= q <= |subjects| && subjects[q - 1] == s
  }

  /** q is the consumer's next message: the first retained one on s at or after its position. */
  ghost predicate NextOn(log: Log, s: Stream, from: nat, q: nat) {
    && from <= q && OnStream(log.subjects, s, q) && Retained(log, q)
    && (forall p :: from <= p < q && OnStream(log.subjects, s, p) ==> !Retained(log, p))
  }

  ghost predicate Possible(sh: Shards, k: Client, w: World, move: Move) {
    match move
    case Act(step) => !step.FanBegin? && Enabled(sh, w.reg, step)
    case FanNext => w.cursor < |w.log.subjects| && Retained(w.log, w.cursor + 1) && w.reg.fan == Between(multiset{})
    case FanDrop => w.cursor < |w.log.subjects| && w.reg.fan == Between(multiset{})
    case Publish(_) => |w.log.subjects| + 1 < U64_MAX
    case Trim(first) => w.log.first <= first <= |w.log.subjects| + 1
    case Spawn => w.task.NotSpawned? && Is(w.reg.tasks, k.c, Idle) && (k.c, k.key) in w.reg.history.subs
    case Check => w.task.Spawned? && ValidLog(w.log)
    case Create => w.task.Checked?
    case Fetch(q, _) =>
      && w.task.Fetching? && NextOn(w.log, k.subject, w.task.next, q)
      && |Deliverable(w.task.events, k.lastSeq, |w.task.events|)| < MAX_REPLAY_MESSAGES
  }

  ghost function After(k: Client, w: World, move: Move): World
  {
    match move
    case Act(step) => w.(reg := Apply(w.reg, step))
    case FanNext =>
      if w.cursor < |w.log.subjects|
      then w.(reg := Apply(w.reg, FanBegin(w.log.subjects[w.cursor], w.cursor + 1)), cursor := w.cursor + 1)
      else w
    case FanDrop => w.(cursor := w.cursor + 1, dropped := w.dropped + {w.cursor + 1})
    case Publish(z) => w.(log := w.log.(subjects := w.log.subjects + [z]))
    case Trim(first) => w.(log := w.log.(first := first))
    case Spawn =>
      if (k.c, k.key) in w.reg.history.subs then w.(task := Spawned(w.reg.history.subs[(k.c, k.key)].epoch)) else w
    case Check =>
      if w.task.Spawned? && ValidLog(w.log)
      then w.(task := if Passes(InfoOf(w.log), k.lastSeq) then Checked(w.task.epoch, w.log) else Refused)
      else w
    case Create =>
      if w.task.Checked?
      then w.(task := Fetching(w.task.epoch, w.task.seen, |w.log.subjects|, k.lastSeq + 1, []))
      else w
    case Fetch(q, encodes) =>
      if w.task.Fetching?
      then w.(task := w.task.(next := q + 1, events := w.task.events + [Message(Some(q), encodes)]))
      else w
  }

  ghost predicate Happens(sh: Shards, k: Client, w: World, moves: seq<Move>)
    decreases |moves|
  {
    moves == [] || (Possible(sh, k, w, moves[0]) && Happens(sh, k, After(k, w, moves[0]), moves[1..]))
  }

  ghost function Finally(k: Client, w: World, moves: seq<Move>): World
    decreases |moves|
  {
    if moves == [] then w else Finally(k, After(k, w, moves[0]), moves[1..])
  }

  // ---------------------------------------------------------------------------
  // Invariants
  // ---------------------------------------------------------------------------

  /** Of the first n messages, the numbers on z that were fanned out. */
  ghost function FannedOn(subjects: seq<Stream>, dropped: set<nat>, z: Stream, n: nat): (r: seq<nat>)
    requires n <= |subjects|
    ensures forall q :: q in r <==> 1 <= q <= n && subjects[q - 1] == z && q !in dropped
  {
    if n == 0 then []
    else
      FannedOn(subjects, dropped, z, n - 1) +
      if subjects[n - 1] == z && n !in dropped then [n] else []
  }

  lemma {:induction false} FannedOnFrame(subjects: seq<Stream>, more: seq<Stream>, dropped: set<nat>,
                                         dropped': set<nat>, z: Stream, n: nat)
    requires n <= |subjects| && subjects <= more
    requires forall q :: 1 <= q <= n ==> (q in dropped <==> q in dropped')
    ensures FannedOn(subjects, dropped, z, n) == FannedOn(more, dropped', z, n)
  {
    if n > 0 {
      FannedOnFrame(subjects, more, dropped, dropped', z, n - 1);
    }
  }

  ghost predicate LogInv(w: World) {
    && ValidLog(w.log)
    && w.cursor <= |w.log.subjects|
    && (forall q :: q in w.dropped ==> q <= w.cursor)
    && (forall z :: Fanned(w.reg.history, z) == FannedOn(w.log.subjects, w.dropped, z, w.cursor))
  }

  /** What the subscription skipped at its start had been published by then. */
  ghost predicate StartBelow(hist: History, s: Stream, b: Sub, end: nat) {
    b.start <= |Fanned(hist, s)| && forall i :: 0 <= i < b.start ==> Fanned(hist, s)[i] <= end
  }

  ghost predicate EpochInv(k: Client, w: World) {
    !w.task.NotSpawned? && !w.task.Refused? ==>
      && w.task.epoch < w.reg.history.epochs
      && (w.task.Fetching? && (k.c, k.key) in w.reg.history.subs &&
          w.reg.history.subs[(k.c, k.key)].epoch == w.task.epoch ==>
            StartBelow(w.reg.history, k.key, w.reg.history.subs[(k.c, k.key)], w.task.end))
  }

  ghost predicate Fetched(events: seq<Event>, q: nat) {
    exists i :: 0 <= i < |events| && events[i].Message? && events[i].number == Some(q)
  }

  ghost predicate FetchInv(k: Client, w: World) {
    w.task.Fetching? ==>
      && w.task.next > k.lastSeq && w.task.end <= |w.log.subjects|
      && (w.task.next == k.lastSeq + 1 || w.task.next <= |w.log.subjects| + 1)
      && (forall i :: 0 <= i < |w.task.events| ==>
            && Numbered(w.task.events[i]) && k.lastSeq < w.task.events[i].number.value < w.task.next
            && OnStream(w.log.subjects, k.subject, w.task.events[i].number.value))
      && (forall i, j :: 0 <= i < j < |w.task.events| ==> w.task.events[i].number.value < w.task.events[j].number.value)
      && (forall q :: k.lastSeq < q < w.task.next && OnStream(w.log.subjects, k.subject, q) ==>
            Fetched(w.task.events, q) || q < w.log.first)
  }

  predicate CheckInv(k: Client, w: World) {
    w.task.Checked? || w.task.Fetching? ==> ValidLog(w.task.seen) && Passes(InfoOf(w.task.seen), k.lastSeq)
  }

  ghost predicate OuterInv(k: Client, w: World) {
    LogInv(w) && EpochInv(k, w) && FetchInv(k, w) && CheckInv(k, w)
  }

  ghost predicate WorldInv(k: Client, w: World) {
    DeliveryInv(w.reg) && OuterInv(k, w)
  }

  lemma StartInv(k: Client)
    ensures WorldInv(k, START)
  {
    InitDelivery();
  }

  // ---------------------------------------------------------------------------
  // Steps
  // ---------------------------------------------------------------------------

  /** Histories only grow: streams get longer, subscriptions keep their start, new ones get new epochs. */
  lemma HistoryGrows(st: State, step: Step, key: (ConnId, Stream))
    ensures
      var was, now := st.history, Apply(st, step).history;
      && was.epochs <= now.epochs
      && Fanned(was, key.1) <= Fanned(now, key.1)
      && (key in now.subs ==>
            || (key in was.subs && now.subs[key].epoch == was.subs[key].epoch &&
                now.subs[key].start == was.subs[key].start)
            || now.subs[key].epoch == was.epochs)
  {
  }

  lemma RegistryMoveEpoch(k: Client, w: World, step: Step)
    requires EpochInv(k, w)
    ensures EpochInv(k, w.(reg := Apply(w.reg, step)))
  {
    HistoryGrows(w.reg, step, (k.c, k.key));
  }

  lemma FannedOnlyByFanBegin(st: State, step: Step)
    requires !step.FanBegin?
    ensures Apply(st, step).history.fanned == st.history.fanned
  {
  }

  lemma ActOuter(k: Client, w: World, step: Step)
    requires OuterInv(k, w) && !step.FanBegin?
    ensures OuterInv(k, After(k, w, Act(step)))
  {
    RegistryMoveEpoch(k, w, step);
    FannedOnlyByFanBegin(w.reg, step);
  }

  lemma FanNextOuter(k: Client, w: World)
    requires OuterInv(k, w) && w.cursor < |w.log.subjects|
    ensures OuterInv(k, After(k, w, FanNext))
  {
    var step := FanBegin(w.log.subjects[w.cursor], w.cursor + 1);
    RegistryMoveEpoch(k, w, step);
    FanNextLog(w);
    assert After(k, w, FanNext) == w.(reg := Apply(w.reg, step), cursor := w.cursor + 1);
  }

  lemma FanNextOn(st: State, subjects: seq<Stream>, dropped: set<nat>, n: nat, y: Stream)
    requires n < |subjects| && n + 1 !in dropped && Fanned(st.history, y) == FannedOn(subjects, dropped, y, n)
    ensures Fanned(Apply(st, FanBegin(subjects[n], n + 1)).history, y) == FannedOn(subjects, dropped, y, n + 1)
  {
  }

  lemma FanNextLog(w: World)
    requires LogInv(w) && w.cursor < |w.log.subjects|
    ensures LogInv(w.(reg := Apply(w.reg, FanBegin(w.log.subjects[w.cursor], w.cursor + 1)), cursor := w.cursor + 1))
  {
    var next := Apply(w.reg, FanBegin(w.log.subjects[w.cursor], w.cursor + 1));
    forall y
      ensures Fanned(next.history, y) == FannedOn(w.log.subjects, w.dropped, y, w.cursor + 1)
    {
      FanNextOn(w.reg, w.log.subjects, w.dropped, w.cursor, y);
    }
  }

  lemma DroppedNotFanned(subjects: seq<Stream>, dropped: set<nat>, z: Stream, n: nat)
    requires n < |subjects|
    ensures FannedOn(subjects, dropped, z, n) == FannedOn(subjects, dropped + {n + 1}, z, n + 1)
  {
    FannedOnFrame(subjects, subjects, dropped, dropped + {n + 1}, z, n);
  }

  lemma FanDropOuter(k: Client, w: World)
    requires OuterInv(k, w) && w.cursor < |w.log.subjects|
    ensures OuterInv(k, After(k, w, FanDrop))
  {
    var next := w.(cursor := w.cursor + 1, dropped := w.dropped + {w.cursor + 1});
    assert After(k, w, FanDrop) == next;
    FanDropLog(w);
    SameTask(k, w, next);
  }

  lemma SameTask(k: Client, w: World, v: World)
    requires v.reg == w.reg && v.log == w.log && v.task == w.task
    requires EpochInv(k, w) && FetchInv(k, w) && CheckInv(k, w)
    ensures EpochInv(k, v) && FetchInv(k, v) && CheckInv(k, v)
  {
  }

  lemma FanDropLog(w: World)
    requires LogInv(w) && w.cursor < |w.log.subjects|
    ensures LogInv(w.(cursor := w.cursor + 1, dropped := w.dropped + {w.cursor + 1}))
  {
    forall z
      ensures FannedOn(w.log.subjects, w.dropped, z, w.cursor) ==
              FannedOn(w.log.subjects, w.dropped + {w.cursor + 1}, z, w.cursor + 1)
    {
      DroppedNotFanned(w.log.subjects, w.dropped, z, w.cursor);
    }
  }

  lemma PublishOuter(k: Client, w: World, z: Stream)
    requires OuterInv(k, w) && |w.log.subjects| + 1 < U64_MAX
    ensures OuterInv(k, After(k, w, Publish(z)))
  {
    forall y
      ensures FannedOn(w.log.subjects, w.dropped, y, w.cursor) == FannedOn(w.log.subjects + [z], w.dropped, y, w.cursor)
    {
      FannedOnFrame(w.log.subjects, w.log.subjects + [z], w.dropped, w.dropped, y, w.cursor);
    }
    assert forall q: nat :: q <= |w.log.subjects| ==>
      (OnStream(w.log.subjects + [z], k.subject, q) <==> OnStream(w.log.subjects, k.subject, q));
  }

  /** The consumer is created after the subscription, so everything it skipped lies below the log's end. */
  lemma CreateOuter(k: Client, w: World)
    requires WorldInv(k, w) && w.task.Checked?
    ensures OuterInv(k, After(k, w, Create))
  {
    var f := Fanned(w.reg.history, k.key);
    assert f == FannedOn(w.log.subjects, w.dropped, k.key, w.cursor);
    forall i | 0 <= i < |f|
      ensures f[i] <= w.cursor
    {
      assert f[i] in f;
    }
  }

  lemma TaskMoveOuter(sh: Shards, k: Client, w: World, move: Move)
    requires WorldInv(k, w) && Possible(sh, k, w, move)
    requires move.Trim? || move.Spawn? || move.Check?
    ensures OuterInv(k, After(k, w, move))
  {
  }

  /** What is skipped between two fetches had been trimmed. */
  lemma FetchedUpTo(k: Client, w: World, q: nat, now: seq<Event>, p: nat)
    requires FetchInv(k, w) && w.task.Fetching? && NextOn(w.log, k.subject, w.task.next, q)
    requires w.task.events < now && Fetched(now, q)
    requires k.lastSeq < p <= q && OnStream(w.log.subjects, k.subject, p)
    ensures Fetched(now, p) || p < w.log.first
  {
    var was := w.task.events;
    if p < w.task.next && Fetched(was, p) {
      var i :| 0 <= i < |was| && was[i].Message? && was[i].number == Some(p);
      assert now[i].number == Some(p);
    } else if w.task.next <= p < q {
      assert !Retained(w.log, p);
    }
  }

  lemma FetchKeeps(k: Client, w: World, q: nat, encodes: bool)
    requires FetchInv(k, w) && w.task.Fetching? && NextOn(w.log, k.subject, w.task.next, q)
    ensures FetchInv(k, After(k, w, Fetch(q, encodes)))
  {
    var now := w.task.events + [Message(Some(q), encodes)];
    assert now[|w.task.events|].number == Some(q);
    forall p | k.lastSeq < p < q + 1 && OnStream(w.log.subjects, k.subject, p)
      ensures Fetched(now, p) || p < w.log.first
    {
      FetchedUpTo(k, w, q, now, p);
    }
  }

  lemma FetchOuter(k: Client, w: World, q: nat, encodes: bool)
    requires OuterInv(k, w) && w.task.Fetching? && NextOn(w.log, k.subject, w.task.next, q)
    ensures OuterInv(k, After(k, w, Fetch(q, encodes)))
  {
    FetchKeeps(k, w, q, encodes);
  }

  lemma ActKeeps(sh: Shards, k: Client, w: World, step: Step)
    requires WorldInv(k, w) && Possible(sh, k, w, Act(step))
    ensures WorldInv(k, After(k, w, Act(step)))
  {
    StepKeepsDelivery(sh, w.reg, step);
    ActOuter(k, w, step);
  }

  lemma FanNextKeeps(sh: Shards, k: Client, w: World)
    requires WorldInv(k, w) && Possible(sh, k, w, FanNext)
    ensures WorldInv(k, After(k, w, FanNext))
  {
    var step := FanBegin(w.log.subjects[w.cursor], w.cursor + 1);
    assert After(k, w, FanNext).reg == Apply(w.reg, step);
    FanNextOuter(k, w);
    StepKeepsDelivery(sh, w.reg, step);
  }

  lemma MoveKeepsWorld(sh: Shards, k: Client, w: World, move: Move)
    requires WorldInv(k, w) && Possible(sh, k, w, move)
    ensures WorldInv(k, After(k, w, move))
  {
    match move {
      case Act(step) => ActKeeps(sh, k, w, step);
      case FanNext => FanNextKeeps(sh, k, w);
      case FanDrop => FanDropOuter(k, w);
      case Publish(z) => PublishOuter(k, w, z);
      case Create => CreateOuter(k, w);
      case Fetch(q, encodes) => FetchOuter(k, w, q, encodes);
      case _ => TaskMoveOuter(sh, k, w, move);
    }
  }

  lemma {:induction false} MovesKeepWorld(sh: Shards, k: Client, w: World, moves: seq<Move>)
    requires WorldInv(k, w) && Happens(sh, k, w, moves)
    ensures WorldInv(k, Finally(k, w, moves))
    decreases |moves|
  {
    if moves != [] {
      MoveKeepsWorld(sh, k, w, moves[0]);
      MovesKeepWorld(sh, k, After(k, w, moves[0]), moves[1..]);
    }
  }

  /** No replay delivers more than the cap. */
  ghost predicate Capped(k: Client, w: World) {
    w.task.Fetching? ==> |Deliverable(w.task.events, k.lastSeq, |w.task.events|)| <= MAX_REPLAY_MESSAGES
  }

  lemma {:induction false} DeliverableKept(events: seq<Event>, e: Event, lastSeq: nat, n: nat)
    requires n <= |events|
    ensures Deliverable(events + [e], lastSeq, n) == Deliverable(events, lastSeq, n)
  {
    if n > 0 {
      DeliverableKept(events, e, lastSeq, n - 1);
      assert forall j :: 0 <= j < |events| ==> (events + [e])[j] == events[j];
      assert IsRecord(events + [e], lastSeq, n - 1) <==> IsRecord(events, lastSeq, n - 1);
    }
  }

  lemma {:induction false} ReplayCapped(sh: Shards, k: Client, w: World, moves: seq<Move>)
    requires Happens(sh, k, w, moves) && Capped(k, w)
    ensures Capped(k, Finally(k, w, moves))
    decreases |moves|
  {
    if moves != [] {
      if moves[0].Fetch? {
        DeliverableKept(w.task.events, Message(Some(moves[0].number), moves[0].encodes), k.lastSeq, |w.task.events|);
      }
      ReplayCapped(sh, k, After(k, w, moves[0]), moves[1..]);
    }
  }

  // ---------------------------------------------------------------------------
  // Coverage
  // ---------------------------------------------------------------------------

  /** The subscription that spawned the replay is still in place and healthy, and the replay has
      read everything retained up to the log end it saw when its consumer was created. */
  ghost predicate CaughtUp(k: Client, w: World) {
    && Healthy(w.reg, k.c, k.key) && (k.c, k.key) in w.reg.history.subs
    && w.task.Fetching? && w.task.epoch == w.reg.history.subs[(k.c, k.key)].epoch
    && (forall q :: w.task.next <= q <= w.task.end && OnStream(w.log.subjects, k.subject, q) ==> q < w.log.first)
  }

  predicate Encodable(e: Event) {
    e.Message? ==> e.encodes
  }

  ghost predicate ReplayedTo(k: Client, w: World, q: nat)
    requires w.task.Fetching?
  {
    q in Deliverable(w.task.events, k.lastSeq, |w.task.events|)
  }

  predicate LiveTo(k: Client, w: World, q: nat)
    requires (k.c, k.key) in w.reg.history.subs
  {
    q in w.reg.history.subs[(k.c, k.key)].got
  }

  /** The frame for q is the one the fan-out loop is about to offer the client. */
  predicate Underway(k: Client, w: World, q: nat) {
    Due(w.reg.fan, k.c, k.key) && w.reg.fan.msg == q
  }

  lemma {:induction false} AllAscendingDelivered(events: seq<Event>, lastSeq: nat, n: nat, i: nat)
    requires i < n <= |events|
    requires forall j :: 0 <= j < |events| ==> Numbered(events[j]) && events[j].number.value > lastSeq
    requires forall a, b :: 0 <= a < b < |events| && Numbered(events[a]) && Numbered(events[b]) ==>
               events[a].number.value < events[b].number.value
    requires Numbered(events[i]) && events[i].encodes
    ensures events[i].number.value in Deliverable(events, lastSeq, n)
  {
    if i + 1 < n {
      AllAscendingDelivered(events, lastSeq, n - 1, i);
    } else {
      assert IsRecord(events, lastSeq, i);
    }
  }

  lemma {:induction false} DeliverableFetched(events: seq<Event>, lastSeq: nat, n: nat, q: nat)
    requires n <= |events| && q in Deliverable(events, lastSeq, n)
    ensures Fetched(events, q)
  {
    if q in Deliverable(events, lastSeq, n - 1) {
      DeliverableFetched(events, lastSeq, n - 1, q);
    } else {
      assert events[n - 1].Message? && events[n - 1].number == Some(q);
    }
  }

  /** With every message encodable, what was replayed is exactly what was fetched. */
  lemma ReplayedIffFetched(k: Client, w: World, q: nat)
    requires FetchInv(k, w) && w.task.Fetching? && forall e :: e in w.task.events ==> Encodable(e)
    ensures ReplayedTo(k, w, q) <==> Fetched(w.task.events, q)
  {
    if Fetched(w.task.events, q) {
      var i :| 0 <= i < |w.task.events| && w.task.events[i].Message? && w.task.events[i].number == Some(q);
      assert w.task.events[i] in w.task.events;
      AllAscendingDelivered(w.task.events, k.lastSeq, |w.task.events|, i);
    }
    if ReplayedTo(k, w, q) {
      DeliverableFetched(w.task.events, k.lastSeq, |w.task.events|, q);
    }
  }

  /**
   * A message the replay was responsible for: it was replayed unless it was trimmed before it could be
   * fetched.  What is trimmed afterwards does not matter.
   */
  lemma OldMessageReplayed(k: Client, w: World, q: nat)
    requires FetchInv(k, w) && CaughtUp(k, w)
    requires k.lastSeq < q <= w.task.end && OnStream(w.log.subjects, k.subject, q)
    requires forall e :: e in w.task.events ==> Encodable(e)
    ensures ReplayedTo(k, w, q) || (!Retained(w.log, q) && !Fetched(w.task.events, q))
  {
    ReplayedIffFetched(k, w, q);
    if Retained(w.log, q) {
      assert q < w.task.next;
    }
  }

  /** What is known of the subscription that spawned the replay. */
  lemma Spawner(k: Client, w: World)
    requires SubsInv(w.reg) && EpochInv(k, w) && CaughtUp(k, w)
    ensures
      var b := w.reg.history.subs[(k.c, k.key)];
      && Window(w.reg.history, k.key, b) && UpToDate(w.reg.history, w.reg.fan, k.c, k.key, b)
      && StartBelow(w.reg.history, k.key, b, w.task.end)
  {
  }

  /** A message published after the consumer was created. */
  lemma NewMessageLive(k: Client, w: World, b: Sub, end: nat, q: nat)
    requires (k.c, k.key) in w.reg.history.subs && b == w.reg.history.subs[(k.c, k.key)]
    requires Window(w.reg.history, k.key, b) && UpToDate(w.reg.history, w.reg.fan, k.c, k.key, b)
    requires StartBelow(w.reg.history, k.key, b, end) && MessageInv(w.reg)
    requires q in Fanned(w.reg.history, k.key) && end < q
    ensures LiveTo(k, w, q) || Underway(k, w, q)
  {
    InWindow(Fanned(w.reg.history, k.key), b.start, b.got, end, q);
  }

  lemma PassedMessageLive(k: Client, w: World, q: nat)
    requires WorldInv(k, w) && CaughtUp(k, w)
    requires w.task.end < q <= w.cursor && OnStream(w.log.subjects, k.key, q) && q !in w.dropped
    ensures LiveTo(k, w, q) || Underway(k, w, q)
  {
    Spawner(k, w);
    assert Fanned(w.reg.history, k.key) == FannedOn(w.log.subjects, w.dropped, k.key, w.cursor);
    NewMessageLive(k, w, w.reg.history.subs[(k.c, k.key)], w.task.end, q);
  }

  /** A number above what the window skipped is in the window, or is the one element after it. */
  lemma InWindow(f: seq<nat>, start: nat, got: seq<nat>, end: nat, q: nat)
    requires start + |got| <= |f| <= start + |got| + 1 && got == f[start..start + |got|]
    requires forall i :: 0 <= i < start ==> f[i] <= end
    requires q in f && q > end
    ensures q in got || (start + |got| + 1 == |f| && q == f[|f| - 1])
  {
    var i :| 0 <= i < |f| && f[i] == q;
    if i < start + |got| {
      assert got[i - start] == q;
    }
  }

  /** A message missing from the log was retained when the check passed, but for the purged log and `last_seq` 0. */
  lemma SeenByCheck(k: Client, w: World, q: nat)
    requires CheckInv(k, w) && w.task.Fetching? && q > k.lastSeq
    ensures Retained(w.task.seen, q) || (Empty(w.task.seen) && k.lastSeq == 0)
  {
    RetentionExact(w.task.seen, InfoOf(w.task.seen), k.lastSeq);
    if q <= |w.task.seen.subjects| && Covered(w.task.seen, k.lastSeq) {
      assert Retained(w.task.seen, q);
    }
  }

  /**
   * Reconnect coverage: whatever the interleaving, every message on the stream after `last_seq`
   * that the fan-out loop has passed or that was published before the replay's consumer was created
   * is replayed, queued live, or both, unless it was trimmed
   * between the retention check and its fetch, the check met a purged log with `last_seq` 0, or
   * the fan-out loop dropped a message published after the replay's end.
   */
  lemma ReconnectCoverage(sh: Shards, k: Client, moves: seq<Move>, q: nat)
    requires k.key == k.subject && Happens(sh, k, START, moves)
    requires CaughtUp(k, Finally(k, START, moves))
    requires
      var w := Finally(k, START, moves);
      && k.lastSeq < q && (q <= w.cursor || q <= w.task.end) && OnStream(w.log.subjects, k.key, q)
      && (forall e :: e in w.task.events ==> Encodable(e))
    ensures
      var w := Finally(k, START, moves);
      || ReplayedTo(k, w, q) || LiveTo(k, w, q) || Underway(k, w, q)
      || (w.task.seen.first <= q < w.log.first && q <= w.task.end && !Fetched(w.task.events, q))
      || (Empty(w.task.seen) && k.lastSeq == 0 && q < w.task.seen.first && !Fetched(w.task.events, q))
      || (q > w.task.end && q in w.dropped)
  {
    StartInv(k);
    MovesKeepWorld(sh, k, START, moves);
    var w := Finally(k, START, moves);
    SeenByCheck(k, w, q);
    if q <= w.task.end {
      OldMessageReplayed(k, w, q);
    } else if q !in w.dropped {
      PassedMessageLive(k, w, q);
    }
  }

  /** Nothing the replay was to read was trimmed before it read it. */
  ghost predicate FetchedInTime(k: Client, w: World)
    requires w.task.Fetching?
  {
    forall p :: k.lastSeq < p <= w.task.end && OnStream(w.log.subjects, k.subject, p) && !Retained(w.log, p) ==>
      Fetched(w.task.events, p)
  }

  /** Nothing published on the stream after the replay's end was dropped by the fan-out loop. */
  ghost predicate NoneDropped(k: Client, w: World)
    requires w.task.Fetching?
  {
    forall p :: p in w.dropped && OnStream(w.log.subjects, k.key, p) ==> p <= w.task.end
  }

  /** With nothing trimmed before its fetch and nothing dropped after the replay's end there is no gap at all. */
  lemma NoGapAfterReconnect(sh: Shards, k: Client, moves: seq<Move>, q: nat)
    requires k.key == k.subject && Happens(sh, k, START, moves)
    requires CaughtUp(k, Finally(k, START, moves))
    requires
      var w := Finally(k, START, moves);
      && k.lastSeq < q && (q <= w.cursor || q <= w.task.end) && OnStream(w.log.subjects, k.key, q)
      && (forall e :: e in w.task.events ==> Encodable(e))
      && FetchedInTime(k, w) && NoneDropped(k, w)
    ensures
      var w := Finally(k, START, moves);
      ReplayedTo(k, w, q) || LiveTo(k, w, q) || Underway(k, w, q)
  {
    StartInv(k);
    MovesKeepWorld(sh, k, START, moves);
    var w := Finally(k, START, moves);
    if q <= w.task.end {
      OldMessageReplayed(k, w, q);
    } else {
      PassedMessageLive(k, w, q);
    }
  }

  /**
   * Why the key and the subject have to agree: a replay delivers only messages on its subject.  With
   * another key, none of the subscription's own messages from before the replay's end come back.
   */
  lemma ReplayStaysOnSubject(sh: Shards, k: Client, moves: seq<Move>, q: nat)
    requires Happens(sh, k, START, moves) && Finally(k, START, moves).task.Fetching?
    requires ReplayedTo(k, Finally(k, START, moves), q)
    ensures
      var subjects := Finally(k, START, moves).log.subjects;
      OnStream(subjects, k.subject, q) && (k.key != k.subject ==> !OnStream(subjects, k.key, q))
  {
    StartInv(k);
    MovesKeepWorld(sh, k, START, moves);
    var w := Finally(k, START, moves);
    DeliverableFetched(w.task.events, k.lastSeq, |w.task.events|, q);
    var i :| 0 <= i < |w.task.events| && w.task.events[i].Message? && w.task.events[i].number == Some(q);
    assert Numbered(w.task.events[i]);
  }
}
