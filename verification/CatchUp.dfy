/**
 * Catching up in rounds.  A replay cut at the cap closes the socket by the urgent path, which
 * overtakes whatever is still queued for replay; the client then reconnects from the last number it
 * received.  How much each round gains, and how many rounds there can be.
 */
module CatchUp {
  import opened Lists
  import opened Wrappers
  import opened RegistryModel
  import opened Replay
  import Outbound

  // ---------------------------------------------------------------------------
  // One round: what the urgent close leaves behind
  // ---------------------------------------------------------------------------

  function One(number: Option<nat>): seq<nat> {
    if number.Some? then [number.value] else []
  }

  /** What a client reads off a run of messages: the numbers of those that belong to this replay. */
  function Numbers(ms: seq<Outbound.WsMsg>, read: Outbound.WsMsg -> Option<nat>): (r: seq<nat>)
    ensures |r| <= |ms|
  {
    if ms == [] then [] else One(read(ms[0])) + Numbers(ms[1..], read)
  }

  lemma {:induction false} NumbersConcat(a: seq<Outbound.WsMsg>, b: seq<Outbound.WsMsg>,
                                         read: Outbound.WsMsg -> Option<nat>)
    ensures Numbers(a + b, read) == Numbers(a, read) + Numbers(b, read)
  {
    if a == [] {
      assert a + b == b;
    } else {
      NumbersConcat(a[1..], b, read);
      assert (a + b)[1..] == a[1..] + b && (a + b)[0] == a[0];
      Associative(One(read(a[0])), Numbers(a[1..], read), Numbers(b, read));
    }
  }

  lemma NumbersPrefix(a: seq<Outbound.WsMsg>, b: seq<Outbound.WsMsg>, read: Outbound.WsMsg -> Option<nat>)
    requires a <= b
    ensures Numbers(a, read) <= Numbers(b, read)
  {
    assert b == a + b[|a|..];
    NumbersConcat(a, b[|a|..], read);
  }

  lemma {:induction false} RenderedConcat(ps: seq<Outbound.Payload>, qs: seq<Outbound.Payload>, isBinary: bool)
    ensures Outbound.Rendered(ps + qs, isBinary) == Outbound.Rendered(ps, isBinary) + Outbound.Rendered(qs, isBinary)
    decreases |qs|
  {
    if qs == [] {
      assert ps + qs == ps;
    } else {
      var init, last := qs[..|qs| - 1], qs[|qs| - 1];
      RenderedConcat(ps, init, isBinary);
      Outbound.RenderedAppend(ps + init, last, isBinary);
      assert qs == init + [last];
      Associative(ps, init, [last]);
      Associative(Outbound.Rendered(ps, isBinary), Outbound.Rendered(init, isBinary),
                  Outbound.Rendering(last, isBinary));
    }
  }

  lemma {:induction false} RenderedShorter(ps: seq<Outbound.Payload>, isBinary: bool)
    ensures |Outbound.Rendered(ps, isBinary)| <= |ps|
  {
    if ps != [] {
      RenderedShorter(ps[..|ps| - 1], isBinary);
    }
  }

  /** The numbers a replay queued, as a client would read them. */
  function Queued(cfg: Outbound.Config, w: Outbound.Loop, read: Outbound.WsMsg -> Option<nat>): seq<nat> {
    Numbers(Outbound.Rendered(w.q.replayAll, cfg.isBinary), read)
  }

  /** The numbers that reached the client. */
  function Received(w: Outbound.Loop, read: Outbound.WsMsg -> Option<nat>): seq<nat> {
    Numbers(Outbound.Wire(w.written, true), read)
  }

  /**
   * At any moment of the outbound loop the client has the oldest of the numbers a replay queued, and on a
   * socket whose sends have worked all but the last `replayCapacity` of them.
   */
  lemma RoundGains(cfg: Outbound.Config, start: nat, w: Outbound.Loop, read: Outbound.WsMsg -> Option<nat>)
    requires Outbound.Good(cfg, start, w)
    ensures Received(w, read) <= Queued(cfg, w, read)
    ensures !w.lost ==> |Received(w, read)| + cfg.replayCapacity >= |Queued(cfg, w, read)|
  {
    var taken, left := Outbound.Rendered(w.replayTaken, cfg.isBinary), Outbound.Rendered(w.q.replay, cfg.isBinary);
    RenderedConcat(w.replayTaken, w.q.replay, cfg.isBinary);
    RenderedShorter(w.q.replay, cfg.isBinary);
    NumbersConcat(taken, left, read);
    NumbersPrefix(Outbound.Wire(w.written, true), taken, read);
  }

  // ---------------------------------------------------------------------------
  // All rounds
  // ---------------------------------------------------------------------------

  ghost function Missed(subjects: seq<Stream>, s: Stream, lastSeq: nat): seq<nat> {
    NumbersOn(subjects, s, lastSeq + 1, |subjects|)
  }

  /** The client's number after receiving the first k of what it missed. */
  ghost function Resumed(subjects: seq<Stream>, s: Stream, lastSeq: nat, k: nat): nat
    requires k <= |Missed(subjects, s, lastSeq)|
  {
    if k == 0 then lastSeq else Missed(subjects, s, lastSeq)[k - 1]
  }

  lemma {:induction false} NumbersSplit(subjects: seq<Stream>, s: Stream, lo: nat, m: nat, hi: nat)
    requires lo <= m + 1 && m <= hi <= |subjects|
    ensures NumbersOn(subjects, s, lo, hi) == NumbersOn(subjects, s, lo, m) + NumbersOn(subjects, s, m + 1, hi)
    decreases hi
  {
    if m < hi {
      NumbersSplit(subjects, s, lo, m, hi - 1);
    }
  }

  /** Reconnecting from the last number received asks for exactly the rest. */
  lemma ResumeExact(subjects: seq<Stream>, s: Stream, lastSeq: nat, k: nat)
    requires k <= |Missed(subjects, s, lastSeq)|
    ensures Missed(subjects, s, Resumed(subjects, s, lastSeq, k)) == Missed(subjects, s, lastSeq)[k..]
  {
    var missed := Missed(subjects, s, lastSeq);
    if k > 0 {
      var m := missed[k - 1];
      assert m in missed;
      NumbersSplit(subjects, s, lastSeq + 1, m, |subjects|);
      var before := NumbersOn(subjects, s, lastSeq + 1, m);
      assert m in before;
      var i :| 0 <= i < |before| && before[i] == m;
      var x := before[|before| - 1];
      assert x in before;
      assert missed[|before| - 1] == x == m;
    }
  }

  /** Truncated rounds in a row, each delivering its share of the oldest MAX, at least MAX less the queue's capacity. */
  ghost predicate Rounds(subjects: seq<Stream>, s: Stream, lastSeq: nat, capacity: nat, shares: seq<nat>)
    decreases |shares|
  {
    shares == [] ||
    (&& |Missed(subjects, s, lastSeq)| > MAX_REPLAY_MESSAGES
     && shares[0] <= MAX_REPLAY_MESSAGES <= shares[0] + capacity
     && Rounds(subjects, s, Resumed(subjects, s, lastSeq, shares[0]), capacity, shares[1..]))
  }

  ghost function Total(shares: seq<nat>): nat {
    if shares == [] then 0 else shares[0] + Total(shares[1..])
  }

  /** Rounds never repeat a message and leave a backlog smaller by what they delivered. */
  lemma {:induction false} BacklogShrinks(subjects: seq<Stream>, s: Stream, lastSeq: nat, capacity: nat,
                                          shares: seq<nat>)
    requires Rounds(subjects, s, lastSeq, capacity, shares)
    ensures Total(shares) <= |Missed(subjects, s, lastSeq)|
    ensures capacity < MAX_REPLAY_MESSAGES ==>
              |shares| * (MAX_REPLAY_MESSAGES - capacity) <= |Missed(subjects, s, lastSeq)|
    decreases |shares|
  {
    if shares != [] {
      var k := shares[0];
      ResumeExact(subjects, s, lastSeq, k);
      BacklogShrinks(subjects, s, Resumed(subjects, s, lastSeq, k), capacity, shares[1..]);
    }
  }

  lemma {:induction false} NoGain(subjects: seq<Stream>, s: Stream, lastSeq: nat, capacity: nat, n: nat)
    requires |Missed(subjects, s, lastSeq)| > MAX_REPLAY_MESSAGES && capacity >= MAX_REPLAY_MESSAGES
    ensures Rounds(subjects, s, lastSeq, capacity, seq(n, _ => 0))
  {
    if n > 0 {
      NoGain(subjects, s, lastSeq, capacity, n - 1);
      assert seq(n, _ => 0)[1..] == seq(n - 1, _ => 0);
    }
  }

  ghost predicate AtMost(subjects: seq<Stream>, s: Stream, lastSeq: nat, capacity: nat, n: nat) {
    forall shares :: Rounds(subjects, s, lastSeq, capacity, shares) ==> |shares| <= n
  }

  lemma Scaled(a: nat, gain: nat)
    requires gain >= 1
    ensures a <= a * gain
  {
  }

  lemma CatchUpBounded(subjects: seq<Stream>, s: Stream, lastSeq: nat, capacity: nat)
    requires capacity < MAX_REPLAY_MESSAGES
    ensures AtMost(subjects, s, lastSeq, capacity, |Missed(subjects, s, lastSeq)|)
  {
    forall shares | Rounds(subjects, s, lastSeq, capacity, shares) ensures |shares| <= |Missed(subjects, s, lastSeq)| {
      BacklogShrinks(subjects, s, lastSeq, capacity, shares);
      Scaled(|shares|, MAX_REPLAY_MESSAGES - capacity);
    }
  }

  lemma CatchUpUnbounded(subjects: seq<Stream>, s: Stream, lastSeq: nat, capacity: nat, n: nat)
    requires |Missed(subjects, s, lastSeq)| > MAX_REPLAY_MESSAGES && capacity >= MAX_REPLAY_MESSAGES
    ensures !AtMost(subjects, s, lastSeq, capacity, n)
  {
    NoGain(subjects, s, lastSeq, capacity, n + 1);
    assert |seq(n + 1, _ => 0)| > n;
  }

  /**
   * A client with more than one replay's worth to catch up on is sure to finish, after a bounded number
   * of truncated rounds, exactly if the replay queue is smaller than the cap.
   */
  lemma CatchUpFinishes(subjects: seq<Stream>, s: Stream, lastSeq: nat, capacity: nat)
    requires |Missed(subjects, s, lastSeq)| > MAX_REPLAY_MESSAGES
    ensures capacity < MAX_REPLAY_MESSAGES <==> exists n: nat :: AtMost(subjects, s, lastSeq, capacity, n)
  {
    if capacity < MAX_REPLAY_MESSAGES {
      CatchUpBounded(subjects, s, lastSeq, capacity);
    } else {
      forall n: nat ensures !AtMost(subjects, s, lastSeq, capacity, n) {
        CatchUpUnbounded(subjects, s, lastSeq, capacity, n);
      }
    }
  }

  /** A truncated replay and the healthy socket it was cut on make one such round, of what the client received. */
  lemma TruncatedRound(log: Log, info: Info, s: Stream, lastSeq: nat, events: seq<Event>,
                       outcome: Outcome, sent: seq<nat>, consumed: nat,
                       cfg: Outbound.Config, start: nat, w: Outbound.Loop, read: Outbound.WsMsg -> Option<nat>)
    requires ValidLog(log) && Snapshot(log, info) && Passes(info, lastSeq) && !(Empty(log) && |log.subjects| > 0)
    requires Faithful(events, Available(log, s, lastSeq))
    requires StoppedAt(events, lastSeq, sent, consumed) && LoopOutcome(outcome, events, lastSeq, sent, consumed, None)
    requires outcome.Truncated? && Outbound.Good(cfg, start, w) && !w.lost && Queued(cfg, w, read) == sent
    ensures
      var got := Received(w, read);
      && got <= Missed(log.subjects, s, lastSeq) && |got| >= MAX_REPLAY_MESSAGES - cfg.replayCapacity
      && Rounds(log.subjects, s, lastSeq, cfg.replayCapacity, [|got|])
  {
    ReplayMissesNothing(log, info, s, lastSeq, events, outcome, sent, consumed);
    RoundGains(cfg, start, w, read);
  }

  // ---------------------------------------------------------------------------
  // The last round
  // ---------------------------------------------------------------------------

  /** The client's number after these rounds. */
  ghost function After(subjects: seq<Stream>, s: Stream, lastSeq: nat, capacity: nat, shares: seq<nat>): nat
    requires Rounds(subjects, s, lastSeq, capacity, shares)
    decreases |shares|
  {
    if shares == [] then lastSeq
    else After(subjects, s, Resumed(subjects, s, lastSeq, shares[0]), capacity, shares[1..])
  }

  /** What the client received in these rounds, one after the other. */
  ghost function Delivered(subjects: seq<Stream>, s: Stream, lastSeq: nat, capacity: nat, shares: seq<nat>): seq<nat>
    requires Rounds(subjects, s, lastSeq, capacity, shares)
    decreases |shares|
  {
    if shares == [] then []
    else
      Missed(subjects, s, lastSeq)[..shares[0]] +
      Delivered(subjects, s, Resumed(subjects, s, lastSeq, shares[0]), capacity, shares[1..])
  }

  /** Rounds and what is left after them are what was missed, in order, nothing twice. */
  lemma {:induction false} RoundsAddUp(subjects: seq<Stream>, s: Stream, lastSeq: nat, capacity: nat, shares: seq<nat>)
    requires Rounds(subjects, s, lastSeq, capacity, shares)
    ensures Delivered(subjects, s, lastSeq, capacity, shares) +
            Missed(subjects, s, After(subjects, s, lastSeq, capacity, shares)) == Missed(subjects, s, lastSeq)
    decreases |shares|
  {
    if shares != [] {
      var missed, k := Missed(subjects, s, lastSeq), shares[0];
      var next := Resumed(subjects, s, lastSeq, k);
      ResumeExact(subjects, s, lastSeq, k);
      RoundsAddUp(subjects, s, next, capacity, shares[1..]);
      Associative(missed[..k], Delivered(subjects, s, next, capacity, shares[1..]),
                  Missed(subjects, s, After(subjects, s, next, capacity, shares[1..])));
      assert missed == missed[..k] + missed[k..];
    }
  }

  /** A complete last replay and the rounds before it. */
  lemma LastRound(log: Log, info: Info, s: Stream, lastSeq: nat, from: nat, delivered: seq<nat>,
                  events: seq<Event>, outcome: Outcome, sent: seq<nat>, consumed: nat)
    requires ValidLog(log) && Snapshot(log, info) && Passes(info, from) && !(Empty(log) && |log.subjects| > 0)
    requires Faithful(events, Available(log, s, from))
    requires StoppedAt(events, from, sent, consumed) && LoopOutcome(outcome, events, from, sent, consumed, None)
    requires delivered + Missed(log.subjects, s, from) == Missed(log.subjects, s, lastSeq)
    ensures outcome.Truncated? ||
            (outcome == Replayed(|sent|, false) && delivered + sent == Missed(log.subjects, s, lastSeq))
    ensures outcome.Truncated? <==> |Missed(log.subjects, s, from)| > MAX_REPLAY_MESSAGES
  {
    ReplayMissesNothing(log, info, s, from, events, outcome, sent, consumed);
  }

  /**
   * The replay after the last truncated round is complete, the rounds and it together give the client
   * exactly what it missed, and there were at most |missed| / (cap - capacity) rounds before it.
   */
  lemma CatchUpCompletes(log: Log, info: Info, s: Stream, lastSeq: nat, capacity: nat, shares: seq<nat>,
                         events: seq<Event>, outcome: Outcome, sent: seq<nat>, consumed: nat)
    requires capacity < MAX_REPLAY_MESSAGES && Rounds(log.subjects, s, lastSeq, capacity, shares)
    requires
      var from := After(log.subjects, s, lastSeq, capacity, shares);
      && ValidLog(log) && Snapshot(log, info) && Passes(info, from) && !(Empty(log) && |log.subjects| > 0)
      && Faithful(events, Available(log, s, from))
      && StoppedAt(events, from, sent, consumed) && LoopOutcome(outcome, events, from, sent, consumed, None)
    ensures outcome.Truncated? || (outcome == Replayed(|sent|, false) &&
              Delivered(log.subjects, s, lastSeq, capacity, shares) + sent == Missed(log.subjects, s, lastSeq))
    ensures outcome.Truncated? <==>
              |Missed(log.subjects, s, After(log.subjects, s, lastSeq, capacity, shares))| > MAX_REPLAY_MESSAGES
    ensures |shares| * (MAX_REPLAY_MESSAGES - capacity) <= |Missed(log.subjects, s, lastSeq)|
  {
    var from := After(log.subjects, s, lastSeq, capacity, shares);
    var delivered := Delivered(log.subjects, s, lastSeq, capacity, shares);
    RoundsAddUp(log.subjects, s, lastSeq, capacity, shares);
    LastRound(log, info, s, lastSeq, from, delivered, events, outcome, sent, consumed);
    BacklogShrinks(log.subjects, s, lastSeq, capacity, shares);
  }

  // ---------------------------------------------------------------------------
  // The round that gains nothing
  // ---------------------------------------------------------------------------

  function Pushes(ps: seq<Outbound.Payload>): seq<Outbound.Action> {
    seq(|ps|, i requires 0 <= i < |ps| => Outbound.PushReplay(ps[i]))
  }

  lemma {:induction false} Overtaken(cfg: Outbound.Config, q: Outbound.Queues, ps: seq<Outbound.Payload>)
    requires q.replayAlive && q.replay == [] && q.replayAll == [] && |ps| <= cfg.replayCapacity
    ensures Outbound.ActAll(cfg, q, Pushes(ps)) == q.(replay := ps, replayAll := ps)
    decreases |ps|
  {
    if ps != [] {
      var before := ps[..|ps| - 1];
      Overtaken(cfg, q, before);
      assert Pushes(ps)[..|ps| - 1] == Pushes(before);
      assert before + [ps[|ps| - 1]] == ps;
    } else {
      assert Pushes(ps) == [];
    }
  }

  /** A queue with room for a whole replay can hold it all, with the close pending, before anything is taken. */
  lemma OvertakenAtOnce(cfg: Outbound.Config, q: Outbound.Queues, ps: seq<Outbound.Payload>, close: Outbound.Payload)
    requires Outbound.Initial(cfg, q) && q.replay == [] && q.replayAlive && q.urgentAlive && q.urgent.None?
    requires |ps| <= cfg.replayCapacity
    ensures
      var full := Outbound.ActAll(cfg, q, Pushes(ps) + [Outbound.Urgent(close)]);
      full == q.(replay := ps, replayAll := ps, urgent := Some(close)) && Outbound.Initial(cfg, full)
  {
    Overtaken(cfg, q, ps);
    var actions := Pushes(ps) + [Outbound.Urgent(close)];
    assert actions[..|actions| - 1] == Pushes(ps);
  }

  /**
   * The outbound loop in that state: it ends by the urgent close and the client received nothing of the
   * replay, however much was queued.
   */
  method NothingGained(cfg: Outbound.Config, q: Outbound.Queues, schedule: Outbound.Schedule,
                       read: Outbound.WsMsg -> Option<nat>)
    returns (v: Outbound.Loop, ending: Option<Outbound.Ending>, got: seq<nat>)
    requires Outbound.Initial(cfg, q) && q.urgent.Some? && !q.evict && Outbound.Quiet(schedule) && |schedule| > 3
    ensures ending == Some(Outbound.UrgentClosed) && v.replayTaken == [] && v.liveTaken == []
    ensures got == Received(v, read) == []
  {
    ghost var tops;
    v, ending, tops := Outbound.OutboundLoop(cfg, q, schedule);
    got := Received(v, read);
  }
}
