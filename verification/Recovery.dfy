/**
 * A reconnecting client can always be served: when the retention check lets it in, and that from every
 * state in which it should, the moves exist that bring it everything it missed and everything after.
 */
module Recovery {
  import opened Wrappers
  import opened RegistryModel
  import opened RegistrySafety
  import opened RegistryDelivery
  import opened RegistryProgress
  import opened Replay
  import opened Reconnect

  // ---------------------------------------------------------------------------
  // Who is let in
  // ---------------------------------------------------------------------------

  /** The check lets a client in just if nothing it has not seen was trimmed; with an empty log, just at 0. */
  lemma CheckExact(k: Client, w: World)
    requires w.task.Spawned? && ValidLog(w.log)
    ensures
      var task, fine := After(k, w, Check).task, if Empty(w.log) then k.lastSeq == 0 else Covered(w.log, k.lastSeq);
      && (fine ==> task == Checked(w.task.epoch, w.log))
      && (!fine ==> task == Refused)
  {
    RetentionExact(w.log, InfoOf(w.log), k.lastSeq);
  }

  // ---------------------------------------------------------------------------
  // Runs of moves
  // ---------------------------------------------------------------------------

  lemma {:induction false} HappensConcat(sh: Shards, k: Client, w: World, a: seq<Move>, b: seq<Move>)
    requires Happens(sh, k, w, a) && Happens(sh, k, Finally(k, w, a), b)
    ensures Happens(sh, k, w, a + b) && Finally(k, w, a + b) == Finally(k, Finally(k, w, a), b)
    decreases |a|
  {
    if a == [] {
      assert a + b == b;
    } else {
      HappensConcat(sh, k, After(k, w, a[0]), a[1..], b);
      assert (a + b)[1..] == a[1..] + b && (a + b)[0] == a[0];
    }
  }

  lemma HappensFirst(sh: Shards, k: Client, w: World, move: Move, rest: seq<Move>)
    requires Possible(sh, k, w, move) && Happens(sh, k, After(k, w, move), rest)
    ensures
      var moves := [move] + rest;
      Happens(sh, k, w, moves) && Finally(k, w, moves) == Finally(k, After(k, w, move), rest)
  {
    assert ([move] + rest)[1..] == rest;
  }

  // ---------------------------------------------------------------------------
  // The replay
  // ---------------------------------------------------------------------------

  ghost function MissedBy(k: Client, log: Log): seq<nat> {
    NumbersOn(log.subjects, k.subject, k.lastSeq + 1, |log.subjects|)
  }

  /** The replay has fetched the first n of the numbers missed. */
  ghost predicate FetchedFirst(k: Client, w: World, n: nat) {
    && n <= |MissedBy(k, w.log)| && w.task.Fetching? && Faithful(w.task.events, MissedBy(k, w.log)[..n])
    && w.task.next == if n == 0 then k.lastSeq + 1 else MissedBy(k, w.log)[n - 1] + 1
  }

  lemma MissedNumber(k: Client, log: Log, i: nat)
    requires i < |MissedBy(k, log)|
    ensures MissedBy(k, log)[i] > k.lastSeq && OnStream(log.subjects, k.subject, MissedBy(k, log)[i])
  {
    assert MissedBy(k, log)[i] in MissedBy(k, log);
  }

  lemma FirstDelivered(k: Client, w: World, n: nat)
    requires FetchedFirst(k, w, n)
    ensures Deliverable(w.task.events, k.lastSeq, |w.task.events|) == MissedBy(k, w.log)[..n]
  {
    var missed := MissedBy(k, w.log);
    forall i | 0 <= i < n ensures missed[..n][i] > k.lastSeq {
      MissedNumber(k, w.log, i);
    }
    FaithfulDelivery(w.task.events, missed[..n], k.lastSeq, n);
    assert missed[..n][..n] == missed[..n];
  }

  /** Nothing on the subject lies between one missed number and the next. */
  lemma NextMissed(k: Client, w: World, n: nat)
    requires FetchedFirst(k, w, n) && n < |MissedBy(k, w.log)| && Covered(w.log, k.lastSeq)
    ensures NextOn(w.log, k.subject, w.task.next, MissedBy(k, w.log)[n])
  {
    var missed := MissedBy(k, w.log);
    var q := missed[n];
    MissedNumber(k, w.log, n);
    if n > 0 {
      MissedNumber(k, w.log, n - 1);
    }
    forall p: nat | w.task.next <= p < q && OnStream(w.log.subjects, k.subject, p) ensures false {
      assert p in missed;
      var i :| 0 <= i < |missed| && missed[i] == p;
    }
  }

  lemma FetchNext(sh: Shards, k: Client, w: World, n: nat)
    requires FetchedFirst(k, w, n) && n < |MissedBy(k, w.log)| <= MAX_REPLAY_MESSAGES && Covered(w.log, k.lastSeq)
    ensures
      var move := Fetch(MissedBy(k, w.log)[n], true);
      && Possible(sh, k, w, move) && FetchedFirst(k, After(k, w, move), n + 1)
      && After(k, w, move) == w.(task := w.task.(next := After(k, w, move).task.next,
                                                 events := After(k, w, move).task.events))
  {
    NextMissed(k, w, n);
    FirstDelivered(k, w, n);
  }

  lemma {:induction false} FetchRest(sh: Shards, k: Client, w: World, n: nat) returns (moves: seq<Move>)
    requires FetchedFirst(k, w, n) && |MissedBy(k, w.log)| <= MAX_REPLAY_MESSAGES && Covered(w.log, k.lastSeq)
    ensures Happens(sh, k, w, moves)
    ensures
      var v := Finally(k, w, moves);
      && FetchedFirst(k, v, |MissedBy(k, w.log)|)
      && v == w.(task := w.task.(next := v.task.next, events := v.task.events))
    decreases |MissedBy(k, w.log)| - n
  {
    if n == |MissedBy(k, w.log)| {
      moves := [];
    } else {
      var move := Fetch(MissedBy(k, w.log)[n], true);
      FetchNext(sh, k, w, n);
      var rest := FetchRest(sh, k, After(k, w, move), n + 1);
      HappensFirst(sh, k, w, move, rest);
      moves := [move] + rest;
    }
  }

  /** Every number missed was replayed. */
  ghost predicate AllReplayed(k: Client, w: World, subjects: seq<Stream>)
    requires w.task.Fetching?
  {
    forall q :: k.lastSeq < q && OnStream(subjects, k.subject, q) ==> ReplayedTo(k, w, q)
  }

  lemma OnSubject(k: Client, log: Log, q: nat)
    requires k.lastSeq < q
    ensures OnStream(log.subjects, k.subject, q) <==> q in MissedBy(k, log)
  {
  }

  lemma FetchedAll(k: Client, w: World)
    requires FetchedFirst(k, w, |MissedBy(k, w.log)|)
    ensures AllReplayed(k, w, w.log.subjects)
    ensures forall q :: w.task.next <= q ==> !OnStream(w.log.subjects, k.subject, q)
  {
    var missed := MissedBy(k, w.log);
    FirstDelivered(k, w, |missed|);
    assert missed[..|missed|] == missed;
    if |missed| > 0 {
      MissedNumber(k, w.log, |missed| - 1);
    }
    assert forall i :: 0 <= i < |missed| ==> missed[i] < w.task.next;
    forall q: nat | w.task.next <= q ensures !OnStream(w.log.subjects, k.subject, q) {
      assert q !in missed;
      OnSubject(k, w.log, q);
    }
    forall q: nat | k.lastSeq < q && OnStream(w.log.subjects, k.subject, q) ensures ReplayedTo(k, w, q) {
      OnSubject(k, w.log, q);
    }
  }

  /** The client's subscription is in place, and healthy. */
  predicate Attached(k: Client, w: World) {
    Healthy(w.reg, k.c, k.key) && (k.c, k.key) in w.reg.history.subs
  }

  /** The log still holds everything the client has not seen, and not more of it than one replay may carry. */
  ghost predicate Recoverable(k: Client, w: World) {
    && ValidLog(w.log) && Covered(w.log, k.lastSeq) && (Empty(w.log) ==> k.lastSeq == 0)
    && |MissedBy(k, w.log)| <= MAX_REPLAY_MESSAGES
  }

  /** The replay is about to be spawned, or was, by the subscription that is still in place. */
  predicate Ready(k: Client, w: World)
    requires Attached(k, w)
  {
    || (w.task.NotSpawned? && Is(w.reg.tasks, k.c, Idle))
    || w.task == Spawned(w.reg.history.subs[(k.c, k.key)].epoch)
  }

  lemma SpawnedCatchesUp(sh: Shards, k: Client, w: World) returns (moves: seq<Move>)
    requires Attached(k, w) && Recoverable(k, w) && w.task == Spawned(w.reg.history.subs[(k.c, k.key)].epoch)
    ensures Happens(sh, k, w, moves)
    ensures
      var v := Finally(k, w, moves);
      CaughtUp(k, v) && AllReplayed(k, v, w.log.subjects) && v == w.(task := v.task) && v.task.end == |w.log.subjects|
  {
    CheckExact(k, w);
    var checked := After(k, w, Check);
    var created := After(k, checked, Create);
    assert created.task == Fetching(w.task.epoch, w.log, |w.log.subjects|, k.lastSeq + 1, []);
    var rest := FetchRest(sh, k, created, 0);
    FetchedAll(k, Finally(k, created, rest));
    HappensFirst(sh, k, checked, Create, rest);
    HappensFirst(sh, k, w, Check, [Create] + rest);
    moves := [Check] + ([Create] + rest);
  }

  /** From every such world the replay can catch up, with every number missed replayed. */
  lemma CanCatchUp(sh: Shards, k: Client, w: World) returns (moves: seq<Move>)
    requires Attached(k, w) && Recoverable(k, w) && Ready(k, w)
    ensures Happens(sh, k, w, moves)
    ensures
      var v := Finally(k, w, moves);
      CaughtUp(k, v) && AllReplayed(k, v, w.log.subjects) && v == w.(task := v.task) && v.task.end == |w.log.subjects|
  {
    if w.task.NotSpawned? {
      var rest := SpawnedCatchesUp(sh, k, After(k, w, Spawn));
      HappensFirst(sh, k, w, Spawn, rest);
      moves := [Spawn] + rest;
    } else {
      moves := SpawnedCatchesUp(sh, k, w);
    }
  }

  // ---------------------------------------------------------------------------
  // What is published meanwhile
  // ---------------------------------------------------------------------------

  /** Nobody came or went, no frame failed, and the subscriptions are the same ones. */
  ghost predicate Undisturbed(st: State, end: State) {
    && end.shared == st.shared && end.tasks == st.tasks && end.history.failed == st.history.failed
    && (forall key :: key in st.history.subs ==>
          key in end.history.subs && end.history.subs[key].epoch == st.history.subs[key].epoch)
  }

  lemma FanBeginUndisturbed(st: State, s: Stream, m: Msg)
    ensures Undisturbed(st, Apply(st, FanBegin(s, m)))
  {
  }

  /** The next step of a fan-out whose frames are all accepted. */
  ghost function WalkOn(fan: Fan): Step
    requires FanOnStream(fan)
  {
    if fan.Sending? then FanSend(true)
    else if fan.todo == multiset{} then FanRelease
    else
      SomeConn(fan.todo);
      var c :| c in fan.todo; FanLookup(c)
  }

  lemma WalkStep(sh: Shards, st: State)
    requires FanOnStream(st.fan) && st.fan.evicted == multiset{}
    ensures
      var step := WalkOn(st.fan);
      var next := Apply(st, step);
      && Enabled(sh, st, step) && !step.FanBegin? && Undisturbed(st, next)
      && next.fan.evicted == multiset{} && (FanOnStream(next.fan) || next.fan.Between?)
      && FanWeight(next.fan) < FanWeight(st.fan)
  {
  }

  lemma {:induction false} FanOutEnds(sh: Shards, k: Client, w: World) returns (moves: seq<Move>)
    requires FanOnStream(w.reg.fan) && w.reg.fan.evicted == multiset{}
    ensures Happens(sh, k, w, moves)
    ensures
      var v := Finally(k, w, moves);
      v == w.(reg := v.reg) && v.reg.fan == Between(multiset{}) && Undisturbed(w.reg, v.reg)
    decreases FanWeight(w.reg.fan)
  {
    var step := WalkOn(w.reg.fan);
    var next := After(k, w, Act(step));
    WalkStep(sh, w.reg);
    var rest: seq<Move> := [];
    if FanOnStream(next.reg.fan) {
      rest := FanOutEnds(sh, k, next);
    }
    HappensFirst(sh, k, w, Act(step), rest);
    moves := [Act(step)] + rest;
  }

  /** One message passes the fan-out loop; one that was trimmed is skipped. */
  lemma FanOutOne(sh: Shards, k: Client, w: World) returns (moves: seq<Move>)
    requires w.reg.fan == Between(multiset{}) && w.cursor < |w.log.subjects|
    ensures Happens(sh, k, w, moves)
    ensures
      var v := Finally(k, w, moves);
      && v.log == w.log && v.task == w.task && v.cursor == w.cursor + 1 && v.reg.fan == Between(multiset{})
      && Undisturbed(w.reg, v.reg)
      && v.dropped == w.dropped + if Retained(w.log, w.cursor + 1) then {} else {w.cursor + 1}
  {
    var move := if Retained(w.log, w.cursor + 1) then FanNext else FanDrop;
    var next := After(k, w, move);
    FanBeginUndisturbed(w.reg, w.log.subjects[w.cursor], w.cursor + 1);
    var rest: seq<Move> := [];
    if FanOnStream(next.reg.fan) {
      rest := FanOutEnds(sh, k, next);
    }
    HappensFirst(sh, k, w, move, rest);
    moves := [move] + rest;
  }

  lemma {:induction false} FanOutAll(sh: Shards, k: Client, w: World) returns (moves: seq<Move>)
    requires w.reg.fan == Between(multiset{}) && w.cursor <= |w.log.subjects|
    ensures Happens(sh, k, w, moves)
    ensures
      var v := Finally(k, w, moves);
      && v.log == w.log && v.task == w.task && v.cursor == |w.log.subjects| && v.reg.fan == Between(multiset{})
      && Undisturbed(w.reg, v.reg)
      && (forall p :: p in v.dropped ==> p in w.dropped || !Retained(w.log, p))
    decreases |w.log.subjects| - w.cursor
  {
    if w.cursor == |w.log.subjects| {
      moves := [];
    } else {
      var one := FanOutOne(sh, k, w);
      var rest := FanOutAll(sh, k, Finally(k, w, one));
      HappensConcat(sh, k, w, one, rest);
      moves := one + rest;
    }
  }

  lemma {:induction false} PublishAll(sh: Shards, k: Client, w: World, more: seq<Stream>) returns (moves: seq<Move>)
    requires |w.log.subjects| + |more| < U64_MAX
    ensures Happens(sh, k, w, moves)
    ensures Finally(k, w, moves) == w.(log := w.log.(subjects := w.log.subjects + more))
    decreases |more|
  {
    if more == [] {
      moves := [];
      assert w.log.subjects + more == w.log.subjects;
    } else {
      var next := After(k, w, Publish(more[0]));
      var rest := PublishAll(sh, k, next, more[1..]);
      HappensFirst(sh, k, w, Publish(more[0]), rest);
      moves := [Publish(more[0])] + rest;
      assert w.log.subjects + more == (w.log.subjects + [more[0]]) + more[1..];
    }
  }

  // ---------------------------------------------------------------------------
  // All of it
  // ---------------------------------------------------------------------------

  lemma StillCaughtUp(k: Client, w: World, v: World, more: seq<Stream>)
    requires CaughtUp(k, w) && AllReplayed(k, w, w.log.subjects) && w.task.end == |w.log.subjects|
    requires v.log == w.log.(subjects := w.log.subjects + more) && v.task == w.task && Undisturbed(w.reg, v.reg)
    ensures CaughtUp(k, v) && AllReplayed(k, v, w.log.subjects)
  {
    assert forall q: nat :: q <= w.task.end ==>
      (OnStream(v.log.subjects, k.subject, q) <==> OnStream(w.log.subjects, k.subject, q));
  }

  /** Everything after the client's number was replayed or is queued live. */
  ghost predicate AllServed(k: Client, w: World)
    requires CaughtUp(k, w)
  {
    forall q :: k.lastSeq < q && OnStream(w.log.subjects, k.key, q) ==> ReplayedTo(k, w, q) || LiveTo(k, w, q)
  }

  lemma ServedWhenPassed(k: Client, w: World, subjects: seq<Stream>)
    requires WorldInv(k, w) && CaughtUp(k, w) && k.key == k.subject && w.task.end == |subjects|
    requires subjects <= w.log.subjects && AllReplayed(k, w, subjects)
    requires w.cursor == |w.log.subjects| && w.reg.fan == Between(multiset{})
    requires forall p :: p in w.dropped ==> p <= w.task.end
    ensures AllServed(k, w)
  {
    forall q: nat | k.lastSeq < q && OnStream(w.log.subjects, k.key, q)
      ensures ReplayedTo(k, w, q) || LiveTo(k, w, q)
    {
      if q <= w.task.end {
        assert OnStream(subjects, k.subject, q);
      } else {
        PassedMessageLive(k, w, q);
      }
    }
  }

  /**
   * Recovery: from every reachable world in which the client's subscription is in place, its replay about to
   * start, the log still covers it and the fan-out task is between messages, and whatever is published then,
   * there is a continuation at whose end the client has been sent everything after its number.
   */
  lemma EverythingServed(sh: Shards, k: Client, past: seq<Move>, more: seq<Stream>) returns (moves: seq<Move>)
    requires k.key == k.subject && Happens(sh, k, START, past)
    requires
      var w := Finally(k, START, past);
      && Attached(k, w) && Recoverable(k, w) && Ready(k, w) && w.reg.fan == Between(multiset{})
      && |w.log.subjects| + |more| < U64_MAX
    ensures
      var w := Finally(k, START, past);
      && Happens(sh, k, w, moves)
      && CaughtUp(k, Finally(k, w, moves)) && AllServed(k, Finally(k, w, moves))
      && Finally(k, w, moves).log.subjects == w.log.subjects + more
  {
    var w := Finally(k, START, past);
    StartInv(k);
    MovesKeepWorld(sh, k, START, past);
    var a := CanCatchUp(sh, k, w);
    var caught := Finally(k, w, a);
    var b := PublishAll(sh, k, caught, more);
    var published := Finally(k, caught, b);
    var c := FanOutAll(sh, k, published);
    HappensConcat(sh, k, caught, b, c);
    HappensConcat(sh, k, w, a, b + c);
    moves := a + (b + c);
    var v := Finally(k, w, moves);
    StillCaughtUp(k, caught, v, more);
    MovesKeepWorld(sh, k, w, moves);
    ServedWhenPassed(k, v, w.log.subjects);
  }
}
