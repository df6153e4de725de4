/**
 * One connection's inbound side: the hello handshake, command dispatch, and the whole life of a
 * socket around it.  The handler's few mutable variables are proved to be an exact summary of the
 * frames received so far, so that what it answers is a function of that history alone.
 */
module Handler {
  import opened Lists
  import opened Wrappers
  import opened RegistryModel
  import R = Registry
  import L = IpLimiter

  datatype Enforcement = Compat | SoftEnforce | HardEnforce

  predicate RequiresHelloFirst(e: Enforcement) {
    e == SoftEnforce || e == HardEnforce
  }

  predicate RejectsNonReplaySubscribe(e: Enforcement) {
    e == HardEnforce
  }

  /** A frame after decoding. */
  datatype Frame =
    | Hello(lastSeq: Option<nat>, replayCapable: bool)
    | Subscribe(identifier: string)
    | Unsubscribe(identifier: string)
    | Publish(identifier: string, data: string)
    | Garbled

  predicate IsCommand(f: Frame) {
    f.Subscribe? || f.Unsubscribe? || f.Publish?
  }

  /** What the client, the replay task pool and NATS get to see. */
  datatype Effect =
    | Reject(identifier: string)
    | Confirm(identifier: string)
    | Replay(identifier: string, lastSeq: nat)   // a replay task, which will confirm by itself
    | Forward(identifier: string, data: string)

  datatype Policy = Policy(
    enforcement: Enforcement,
    nats: bool,                      // a NATS connection exists
    allowed: seq<string>,            // stream patterns granted to the client
    encodes: Effect -> bool,         // whether the codec can encode this reply
    key: string -> Stream)           // registry key of an identifier

  predicate Matches(pattern: string, stream: string) {
    if pattern == "*" then true
    else if pattern != "" && pattern[|pattern| - 1] == '*' then pattern[..|pattern| - 1] <= stream
    else pattern == stream
  }

  predicate IsAllowed(allowed: seq<string>, stream: string) {
    exists i :: 0 <= i < |allowed| && Matches(allowed[i], stream)
  }

  // ---------------------------------------------------------------------------
  // What the history entitles the client to
  // ---------------------------------------------------------------------------

  /** The most recent hello. */
  function Latest(frames: seq<Frame>): (r: Option<Frame>)
    ensures r.Some? ==> r.value.Hello?
  {
    if frames == [] then None
    else if frames[|frames| - 1].Hello? then Some(frames[|frames| - 1])
    else Latest(frames[..|frames| - 1])
  }

  /** There is one just if some frame is a hello, and it is the last of them. */
  lemma {:induction false} LatestMeans(frames: seq<Frame>)
    ensures Latest(frames).Some? <==> exists i :: 0 <= i < |frames| && frames[i].Hello?
    ensures Latest(frames).Some? ==>
              exists i :: 0 <= i < |frames| && frames[i].Hello? && Latest(frames) == Some(frames[i]) &&
                          forall j :: i < j < |frames| ==> !frames[j].Hello?
  {
    if frames != [] {
      var before, last := frames[..|frames| - 1], |frames| - 1;
      if frames[last].Hello? {
        assert Latest(frames) == Some(frames[last]);
      } else {
        LatestMeans(before);
        assert forall i :: 0 <= i < |before| ==> before[i] == frames[i];
        if Latest(before).Some? {
          var i :| 0 <= i < |before| && before[i].Hello? && Latest(before) == Some(before[i]) &&
                   forall j :: i < j < |before| ==> !before[j].Hello?;
          assert frames[i].Hello? && forall j :: i < j < |frames| ==> !frames[j].Hello?;
        }
      }
    }
  }

  /** Commands are acted on. */
  predicate Heard(policy: Policy, before: seq<Frame>) {
    policy.enforcement == Compat || Latest(before).Some?
  }

  predicate Capable(before: seq<Frame>) {
    Latest(before).Some? && Latest(before).value.replayCapable
  }

  predicate Entitled(policy: Policy, before: seq<Frame>, identifier: string) {
    && Heard(policy, before)
    && (policy.enforcement == HardEnforce ==> Capable(before))
    && IsAllowed(policy.allowed, identifier)
  }

  function Encoded(policy: Policy, e: Effect): seq<Effect> {
    if policy.encodes(e) then [e] else []
  }

  /** The answer to f after the frames before it. */
  function Answer(policy: Policy, before: seq<Frame>, f: Frame): seq<Effect> {
    match f
    case Subscribe(id) =>
      if !Entitled(policy, before, id) then Encoded(policy, Reject(id))
      else if policy.nats && Latest(before).Some? && Latest(before).value.lastSeq.Some?
      then [Replay(id, Latest(before).value.lastSeq.value)]
      else Encoded(policy, Confirm(id))
    case Publish(id, data) => if Heard(policy, before) && policy.nats then [Forward(id, data)] else []
    case _ => []
  }

  function Answers(policy: Policy, frames: seq<Frame>): seq<Effect> {
    if frames == [] then []
    else
      var before := frames[..|frames| - 1];
      Answers(policy, before) + Answer(policy, before, frames[|frames| - 1])
  }

  predicate JoinsAt(policy: Policy, frames: seq<Frame>, i: nat, s: Stream)
    requires i < |frames|
  {
    frames[i].Subscribe? && policy.key(frames[i].identifier) == s && Entitled(policy, frames[..i], frames[i].identifier)
  }

  predicate LeavesAt(policy: Policy, frames: seq<Frame>, i: nat, s: Stream)
    requires i < |frames|
  {
    frames[i].Unsubscribe? && policy.key(frames[i].identifier) == s && Heard(policy, frames[..i])
  }

  /** Joined, and not left since. */
  ghost predicate Subscribed(policy: Policy, frames: seq<Frame>, s: Stream) {
    exists i :: 0 <= i < |frames| && JoinsAt(policy, frames, i, s) &&
                (forall j :: i < j < |frames| ==> !LeavesAt(policy, frames, j, s))
  }

  /** A command came before any hello. */
  predicate LegacyStart(frames: seq<Frame>) {
    frames != [] &&
    var before, last := frames[..|frames| - 1], frames[|frames| - 1];
    LegacyStart(before) || (IsCommand(last) && Latest(before).None?)
  }

  /** Frame i is a command, and no hello comes before it. */
  ghost predicate Early(frames: seq<Frame>, i: nat)
    requires i < |frames|
  {
    IsCommand(frames[i]) && forall j :: 0 <= j < i ==> !frames[j].Hello?
  }

  lemma EarlyLast(frames: seq<Frame>)
    requires frames != []
    ensures Early(frames, |frames| - 1) <==> IsCommand(frames[|frames| - 1]) && Latest(frames[..|frames| - 1]).None?
  {
    var before := frames[..|frames| - 1];
    LatestMeans(before);
    assert forall j :: 0 <= j < |before| ==> before[j] == frames[j];
  }

  lemma {:induction false} LegacyStartMeans(frames: seq<Frame>)
    ensures LegacyStart(frames) <==> exists i :: 0 <= i < |frames| && Early(frames, i)
  {
    if frames != [] {
      var before := frames[..|frames| - 1];
      LegacyStartMeans(before);
      EarlyLast(frames);
      assert forall i :: 0 <= i < |before| ==> (Early(before, i) <==> Early(frames, i));
    }
  }

  // ---------------------------------------------------------------------------
  // One more frame
  // ---------------------------------------------------------------------------

  lemma PrefixKept<T>(frames: seq<T>, f: T, i: nat)
    requires i <= |frames|
    ensures (frames + [f])[..i] == frames[..i]
  {
  }

  lemma SubscribedStep(policy: Policy, frames: seq<Frame>, f: Frame, s: Stream)
    ensures
      var now := frames + [f];
      Subscribed(policy, now, s) <==>
      JoinsAt(policy, now, |frames|, s) || (Subscribed(policy, frames, s) && !LeavesAt(policy, now, |frames|, s))
  {
    var now := frames + [f];
    forall i | 0 <= i < |frames|
      ensures JoinsAt(policy, now, i, s) <==> JoinsAt(policy, frames, i, s)
      ensures LeavesAt(policy, now, i, s) <==> LeavesAt(policy, frames, i, s)
    {
      PrefixKept(frames, f, i);
    }
    if JoinsAt(policy, now, |frames|, s) {
      assert Subscribed(policy, now, s);
    }
    if Subscribed(policy, frames, s) && !LeavesAt(policy, now, |frames|, s) {
      var i :| 0 <= i < |frames| && JoinsAt(policy, frames, i, s) &&
               (forall j :: i < j < |frames| ==> !LeavesAt(policy, frames, j, s));
      assert JoinsAt(policy, now, i, s);
    }
  }

  lemma LegacyStep(frames: seq<Frame>, f: Frame)
    ensures LegacyStart(frames + [f]) <==> LegacyStart(frames) || (IsCommand(f) && Latest(frames).None?)
  {
    assert (frames + [f])[..|frames|] == frames;
  }

  lemma AnswersStep(policy: Policy, frames: seq<Frame>, f: Frame)
    ensures Answers(policy, frames + [f]) == Answers(policy, frames) + Answer(policy, frames, f)
    ensures Latest(frames + [f]) == if f.Hello? then Some(f) else Latest(frames)
  {
    assert (frames + [f])[..|frames|] == frames;
  }

  // ---------------------------------------------------------------------------
  // The handler
  // ---------------------------------------------------------------------------

  datatype ConnectionState = AwaitingHello | Active

  /** What the inbound loop can wake up to. */
  datatype Event =
    | Received(frame: Frame)
    | PingPong
    | Tick(lost: bool)       // the ping timer; `lost` if the live queue no longer takes the ping
    | Ended                  // close frame, end of the stream or receive error
    | ShuttingDown
    | Other(op: Op)          // no wake-up: another task uses the registry meanwhile

  /**
   * What other tasks do with the registry: other handlers register, subscribe and unsubscribe their own
   * connection and deregister it, and the fan-out task deregisters anyone, this connection included.
   */
  datatype Op =
    | Arrive(isBinary: bool, capacity: nat)
    | Join(o: ConnId, s: Stream)
    | Leave(o: ConnId, s: Stream)
    | Depart(o: ConnId)

  predicate Stops(e: Event) {
    e.Ended? || e.ShuttingDown? || (e.Tick? && e.lost)
  }

  function FramesOf(e: Event): seq<Frame> {
    if e.Received? then [e.frame] else []
  }

  /** The frames handled before the loop stops. */
  function Handled(events: seq<Event>): seq<Frame> {
    if events == [] || Stops(events[0]) then []
    else FramesOf(events[0]) + Handled(events[1..])
  }

  /** The loop ends with event n: the first close, shutdown or failed ping, or nothing if there is none. */
  ghost predicate FirstStop(events: seq<Event>, n: nat) {
    && n <= |events|
    && (n < |events| ==> events[n] == Ended || events[n] == ShuttingDown || events[n] == Tick(true))
    && (forall i :: 0 <= i < n ==> events[i] != Ended && events[i] != ShuttingDown && events[i] != Tick(true))
  }

  /** `at` are the positions of the frames received among the first n events. */
  ghost predicate ReceivedAt(events: seq<Event>, n: nat, frames: seq<Frame>, at: seq<nat>)
    requires n <= |events|
  {
    && |at| == |frames| && Ascending(at)
    && (forall i :: 0 <= i < |at| ==> at[i] < n && events[at[i]] == Received(frames[i]))
    && (forall j :: 0 <= j < n && events[j].Received? ==> j in at)
  }

  /** These are the frames received before the loop's end, in order. */
  ghost predicate HandledUpToStop(events: seq<Event>, frames: seq<Frame>) {
    exists n: nat, at :: FirstStop(events, n) && ReceivedAt(events, n, frames, at)
  }

  lemma ShiftedFrame(events: seq<Event>, at: seq<nat>, i: nat, f: Frame)
    requires events != [] && i < |at| && at[i] < |events| - 1 && events[1..][at[i]] == Received(f)
    ensures events[Shifted(at)[i]] == Received(f)
  {
  }

  lemma ShiftedCovers(events: seq<Event>, n: nat, at: seq<nat>, j: nat)
    requires n < |events| && 0 < j < n + 1 && events[j].Received?
    requires forall i :: 0 <= i < n && events[1..][i].Received? ==> i in at
    ensures j in Shifted(at) && j in [0] + Shifted(at)
  {
    assert events[1..][j - 1] == events[j];
    InShifted(at, j - 1);
  }

  lemma OneMoreFrame(events: seq<Event>, n: nat, frames: seq<Frame>, at: seq<nat>)
    requires events != [] && n < |events| && events[0].Received? && ReceivedAt(events[1..], n, frames, at)
    ensures ReceivedAt(events, n + 1, [events[0].frame] + frames, [0] + Shifted(at))
  {
    var all, handled := [0] + Shifted(at), [events[0].frame] + frames;
    ShiftedAscends(at);
    forall i | 0 <= i < |all| ensures all[i] < n + 1 && events[all[i]] == Received(handled[i]) {
      if i > 0 {
        ShiftedFrame(events, at, i - 1, frames[i - 1]);
      }
    }
    forall j | 0 <= j < n + 1 && events[j].Received? ensures j in all {
      if j > 0 {
        ShiftedCovers(events, n, at, j);
      }
    }
  }

  lemma OneMoreEvent(events: seq<Event>, n: nat, frames: seq<Frame>, at: seq<nat>)
    requires events != [] && n < |events| && !events[0].Received? && ReceivedAt(events[1..], n, frames, at)
    ensures ReceivedAt(events, n + 1, frames, Shifted(at))
  {
    ShiftedAscends(at);
    forall i | 0 <= i < |at| ensures events[Shifted(at)[i]] == Received(frames[i]) {
      ShiftedFrame(events, at, i, frames[i]);
    }
    forall j | 0 <= j < n + 1 && events[j].Received? ensures j in Shifted(at) {
      ShiftedCovers(events, n, at, j);
    }
  }

  lemma OneMoreBeforeStop(events: seq<Event>, n: nat)
    requires events != [] && !Stops(events[0]) && FirstStop(events[1..], n)
    ensures FirstStop(events, n + 1)
  {
    assert forall i :: 0 < i < |events| ==> events[i] == events[1..][i - 1];
  }

  lemma {:induction false} HandledMeans(events: seq<Event>)
    ensures HandledUpToStop(events, Handled(events))
  {
    if events == [] || Stops(events[0]) {
      assert FirstStop(events, 0) && ReceivedAt(events, 0, [], []);
    } else {
      var rest := events[1..];
      HandledMeans(rest);
      var n: nat, at :| FirstStop(rest, n) && ReceivedAt(rest, n, Handled(rest), at);
      OneMoreBeforeStop(events, n);
      if events[0].Received? {
        OneMoreFrame(events, n, Handled(rest), at);
      } else {
        OneMoreEvent(events, n, Handled(rest), at);
        assert [] + Handled(rest) == Handled(rest);
      }
    }
  }

  /** The registry as the others would leave it. */
  datatype Others = Others(relation: iset<(ConnId, Stream)>, connections: map<ConnId, bool>, nextId: ConnId)

  ghost function AfterOp(a: Others, op: Op): Others {
    match op
    case Arrive(isBinary, _) => a.(connections := a.connections[a.nextId := isBinary], nextId := a.nextId + 1)
    case Join(o, s) => if o in a.connections then a.(relation := a.relation + iset{(o, s)}) else a
    case Leave(o, s) => a.(relation := a.relation - iset{(o, s)})
    case Depart(o) => a.(relation := a.relation - R.AllOf(o), connections := a.connections - {o})
  }

  predicate About(op: Op, c: ConnId) {
    !op.Arrive? && op.o == c
  }

  /** One event, as far as others are concerned: nothing about c counts. */
  ghost function AfterEvent(a: Others, e: Event, c: ConnId): Others {
    if e.Other? && !About(e.op, c) then AfterOp(a, e.op) else a
  }

  ghost function AfterEvents(a: Others, events: seq<Event>, c: ConnId): Others
    decreases |events|
  {
    if events == [] || Stops(events[0]) then a else AfterEvents(AfterEvent(a, events[0], c), events[1..], c)
  }

  /** The handler's variables are a summary of the history. */
  ghost predicate Summarises(policy: Policy, frames: seq<Frame>, connState: ConnectionState, replayCapable: bool,
                             lastSeq: Option<nat>, legacyWarnings: nat, sent: seq<Effect>)
  {
    && (connState == AwaitingHello <==>
          Latest(frames).None? && !(policy.enforcement == Compat && LegacyStart(frames)))
    && (replayCapable <==> Capable(frames))
    && lastSeq == (if Latest(frames).Some? then Latest(frames).value.lastSeq else None)
    && legacyWarnings == (if policy.enforcement == Compat && LegacyStart(frames) then 1 else 0)
    && sent == Answers(policy, frames)
  }

  lemma HelloStep(policy: Policy, frames: seq<Frame>, f: Frame, connState: ConnectionState, replayCapable: bool,
                  lastSeq: Option<nat>, legacyWarnings: nat, sent: seq<Effect>)
    requires f.Hello? && Summarises(policy, frames, connState, replayCapable, lastSeq, legacyWarnings, sent)
    ensures Summarises(policy, frames + [f], Active, f.replayCapable, f.lastSeq, legacyWarnings, sent)
  {
    AnswersStep(policy, frames, f);
    LegacyStep(frames, f);
  }

  lemma GarbledStep(policy: Policy, frames: seq<Frame>, f: Frame, connState: ConnectionState, replayCapable: bool,
                    lastSeq: Option<nat>, legacyWarnings: nat, sent: seq<Effect>)
    requires f.Garbled? && Summarises(policy, frames, connState, replayCapable, lastSeq, legacyWarnings, sent)
    ensures Summarises(policy, frames + [f], connState, replayCapable, lastSeq, legacyWarnings, sent)
  {
    AnswersStep(policy, frames, f);
    LegacyStep(frames, f);
  }

  /** A command before hello under enforcement: only a subscribe is answered, by a rejection. */
  lemma RefusedStep(policy: Policy, frames: seq<Frame>, f: Frame, replayCapable: bool,
                    lastSeq: Option<nat>, legacyWarnings: nat, sent: seq<Effect>)
    requires IsCommand(f) && RequiresHelloFirst(policy.enforcement)
    requires Summarises(policy, frames, AwaitingHello, replayCapable, lastSeq, legacyWarnings, sent)
    ensures Summarises(policy, frames + [f], AwaitingHello, replayCapable, lastSeq, legacyWarnings,
                       if f.Subscribe? then sent + Encoded(policy, Reject(f.identifier)) else sent)
    ensures !Heard(policy, frames)
  {
    AnswersStep(policy, frames, f);
    LegacyStep(frames, f);
  }

  /** A command that is acted on. */
  lemma CommandStep(policy: Policy, frames: seq<Frame>, f: Frame, connState: ConnectionState, replayCapable: bool,
                    lastSeq: Option<nat>, legacyWarnings: nat, sent: seq<Effect>)
    requires IsCommand(f) && (connState == Active || !RequiresHelloFirst(policy.enforcement))
    requires Summarises(policy, frames, connState, replayCapable, lastSeq, legacyWarnings, sent)
    ensures Heard(policy, frames) && (replayCapable <==> Capable(frames))
    ensures lastSeq == if Latest(frames).Some? then Latest(frames).value.lastSeq else None
    ensures Summarises(policy, frames + [f], Active, replayCapable, lastSeq,
                       legacyWarnings + (if connState == AwaitingHello then 1 else 0), sent + Answer(policy, frames, f))
  {
    AnswersStep(policy, frames, f);
    LegacyStep(frames, f);
  }

  /** Unless it was evicted, the relation lists c just where the history says. */
  ghost predicate ListsJust(relation: iset<(ConnId, Stream)>, connections: map<ConnId, bool>,
                            policy: Policy, c: ConnId, frames: seq<Frame>)
  {
    forall s :: (c, s) in relation <==> c in connections && Subscribed(policy, frames, s)
  }

  /** What one frame does to the relation; a connection that was evicted is not listed any more. */
  ghost function RelationAfter(relation: iset<(ConnId, Stream)>, known: bool, policy: Policy, c: ConnId,
                               before: seq<Frame>, f: Frame): iset<(ConnId, Stream)>
  {
    if f.Subscribe? && Entitled(policy, before, f.identifier)
    then relation + (if known then iset{(c, policy.key(f.identifier))} else iset{})
    else if f.Unsubscribe? && Heard(policy, before) then relation - iset{(c, policy.key(f.identifier))}
    else relation
  }

  lemma FrameLists(relation: iset<(ConnId, Stream)>, connections: map<ConnId, bool>, policy: Policy, c: ConnId,
                   frames: seq<Frame>, f: Frame)
    requires ListsJust(relation, connections, policy, c, frames)
    ensures ListsJust(RelationAfter(relation, c in connections, policy, c, frames, f), connections,
                      policy, c, frames + [f])
  {
    var now := RelationAfter(relation, c in connections, policy, c, frames, f);
    assert (frames + [f])[..|frames|] == frames;
    forall s ensures (c, s) in now <==> c in connections && Subscribed(policy, frames + [f], s) {
      SubscribedStep(policy, frames, f, s);
    }
  }

  lemma FrameBeside(a: Others, others: Others, known: bool, policy: Policy, c: ConnId, frames: seq<Frame>, f: Frame)
    requires LeavesOthers(a, others, c)
    ensures LeavesOthers(a.(relation := RelationAfter(a.relation, known, policy, c, frames, f)), others, c)
  {
  }

  /** Apart from c, this is what the others alone would have left. */
  ghost predicate LeavesOthers(a: Others, others: Others, c: ConnId) {
    && a.relation - R.AllOf(c) == others.relation
    && a.connections - {c} == others.connections
    && c < a.nextId == others.nextId
  }

  /** An operation that is not about c, on the whole and beside c. */
  lemma BesideStep(a: Others, others: Others, op: Op, c: ConnId)
    requires LeavesOthers(a, others, c) && !About(op, c)
    ensures LeavesOthers(AfterOp(a, op), AfterOp(others, op), c)
  {
  }

  lemma ListsStep(a: Others, op: Op, policy: Policy, c: ConnId, frames: seq<Frame>)
    requires ListsJust(a.relation, a.connections, policy, c, frames) && c < a.nextId
    requires !About(op, c) || op.Depart?
    ensures ListsJust(AfterOp(a, op).relation, AfterOp(a, op).connections, policy, c, frames)
  {
  }

  /** c's own departure leaves the others alone. */
  lemma OwnDeparture(a: Others, others: Others, c: ConnId)
    requires LeavesOthers(a, others, c)
    ensures LeavesOthers(AfterOp(a, Depart(c)), others, c)
  {
  }

  /** What a registry holds. */
  ghost function Left(registry: R.Registry): Others
    reads registry
  {
    Others(registry.Relation(), registry.connections, registry.nextId)
  }

  class Session {
    const policy: Policy
    const c: ConnId
    const registry: R.Registry
    var connState: ConnectionState
    var replayCapable: bool
    var lastSeq: Option<nat>
    var legacyWarnings: nat
    var sent: seq<Effect>
    ghost var frames: seq<Frame>
    ghost var others: Others

    ghost predicate Summary()
      reads this
    {
      Summarises(policy, frames, connState, replayCapable, lastSeq, legacyWarnings, sent)
    }

    ghost predicate Joined()
      reads this, registry
    {
      registry.Valid() && ListsJust(registry.Relation(), registry.connections, policy, c, frames)
    }

    ghost predicate Beside()
      reads this, registry
    {
      LeavesOthers(Left(registry), others, c)
    }

    constructor (policy: Policy, c: ConnId, registry: R.Registry)
      requires registry.Valid() && c in registry.connections && forall s :: (c, s) !in registry.Relation()
      ensures Summary() && Joined() && Beside() && frames == []
      ensures this.policy == policy && this.c == c && this.registry == registry
      ensures others == Others(registry.Relation() - R.AllOf(c), registry.connections - {c}, registry.nextId)
    {
      this.policy, this.c, this.registry := policy, c, registry;
      connState, replayCapable, lastSeq := AwaitingHello, false, None;
      legacyWarnings, sent, frames := 0, [], [];
      others := Others(registry.Relation() - R.AllOf(c), registry.connections - {c}, registry.nextId);
    }

    /** `dispatch_command`, after the handshake checks. */
    method DispatchCommand(f: Frame)
      requires IsCommand(f) && registry.Valid()
      requires Heard(policy, frames) && (replayCapable <==> Capable(frames))
      requires lastSeq == if Latest(frames).Some? then Latest(frames).value.lastSeq else None
      modifies this`sent, registry`streams, registry`connStreams
      ensures sent == old(sent) + Answer(policy, frames, f)
      ensures registry.Valid() &&
              registry.Relation() ==
              RelationAfter(old(registry.Relation()), c in registry.connections, policy, c, frames, f)
    {
      match f
      case Subscribe(id) =>
        if RejectsNonReplaySubscribe(policy.enforcement) && !replayCapable {
          Reply(Reject(id));
          return;
        }
        if !IsAllowed(policy.allowed, id) {
          Reply(Reject(id));
          return;
        }
        registry.Subscribe(c, policy.key(id));
        if lastSeq.Some? && policy.nats {
          sent := sent + [Replay(id, lastSeq.value)];
        } else {
          Reply(Confirm(id));
        }
      case Unsubscribe(id) =>
        registry.Unsubscribe(c, policy.key(id));
      case Publish(id, data) =>
        if policy.nats {
          sent := sent + [Forward(id, data)];
        }
    }

    method Reply(e: Effect)
      modifies this`sent
      ensures sent == old(sent) + Encoded(policy, e)
    {
      if policy.encodes(e) {
        sent := sent + [e];
      }
    }

    method HandleHello(f: Frame)
      requires f.Hello? && Summary()
      modifies this`lastSeq, this`replayCapable, this`connState, this`frames
      ensures Summary() && frames == old(frames) + [f]
    {
      HelloStep(policy, frames, f, connState, replayCapable, lastSeq, legacyWarnings, sent);
      lastSeq := f.lastSeq;
      replayCapable := f.replayCapable;
      connState := Active;
      frames := frames + [f];
    }

    method RefuseCommand(f: Frame)
      requires IsCommand(f) && Summary() && connState == AwaitingHello && RequiresHelloFirst(policy.enforcement)
      modifies this`sent, this`frames
      ensures Summary() && frames == old(frames) + [f]
      ensures forall relation, known :: RelationAfter(relation, known, policy, c, old(frames), f) == relation
    {
      RefusedStep(policy, frames, f, replayCapable, lastSeq, legacyWarnings, sent);
      if f.Subscribe? {
        Reply(Reject(f.identifier));
      }
      frames := frames + [f];
    }

    /** In compat mode the first command of a client that has not said hello is let through with a warning. */
    method NoteLegacy(f: Frame)
      requires IsCommand(f) && Summary() && (connState == Active || !RequiresHelloFirst(policy.enforcement))
      modifies this`connState, this`legacyWarnings
      ensures Ready(f) && Heard(policy, frames)
    {
      CommandStep(policy, frames, f, connState, replayCapable, lastSeq, legacyWarnings, sent);
      if connState == AwaitingHello {
        legacyWarnings := legacyWarnings + 1;
        connState := Active;
      }
    }

    /** All is set for f but its answer. */
    ghost predicate Ready(f: Frame)
      reads this
    {
      && (replayCapable <==> Capable(frames))
      && lastSeq == (if Latest(frames).Some? then Latest(frames).value.lastSeq else None)
      && Summarises(policy, frames + [f], connState, replayCapable, lastSeq, legacyWarnings,
                    sent + Answer(policy, frames, f))
    }

    method AcceptCommand(f: Frame)
      requires IsCommand(f) && registry.Valid() && Ready(f) && Heard(policy, frames)
      modifies this`sent, this`frames, registry`streams, registry`connStreams
      ensures Summary() && frames == old(frames) + [f]
      ensures registry.Valid() &&
              registry.Relation() ==
              RelationAfter(old(registry.Relation()), c in registry.connections, policy, c, old(frames), f)
    {
      DispatchCommand(f);
      frames := frames + [f];
    }

    method HandleCommand(f: Frame)
      requires IsCommand(f) && Summary() && registry.Valid()
      modifies this`connState, this`legacyWarnings, this`sent, this`frames, registry`streams, registry`connStreams
      ensures Summary() && frames == old(frames) + [f]
      ensures registry.Valid() &&
              registry.Relation() ==
              RelationAfter(old(registry.Relation()), c in registry.connections, policy, c, old(frames), f)
    {
      if connState == AwaitingHello && RequiresHelloFirst(policy.enforcement) {
        RefuseCommand(f);
      } else {
        NoteLegacy(f);
        AcceptCommand(f);
      }
    }

    method HandleClientFrame(f: Frame)
      requires Summary() && registry.Valid()
      modifies this`lastSeq, this`replayCapable, this`connState, this`legacyWarnings, this`sent, this`frames
      modifies registry`streams, registry`connStreams
      ensures Summary() && frames == old(frames) + [f]
      ensures registry.Valid() &&
              registry.Relation() ==
              RelationAfter(old(registry.Relation()), c in registry.connections, policy, c, old(frames), f)
    {
      if f.Hello? {
        HandleHello(f);
      } else if IsCommand(f) {
        HandleCommand(f);
      } else {
        GarbledStep(policy, frames, f, connState, replayCapable, lastSeq, legacyWarnings, sent);
        frames := frames + [f];
      }
    }

    /** A frame, with the registry seen through the history. */
    method Receive(f: Frame)
      requires Summary() && Joined() && Beside()
      modifies this, registry
      ensures Summary() && Joined() && Beside() && frames == old(frames) + [f] && others == old(others)
    {
      FrameLists(registry.Relation(), registry.connections, policy, c, frames, f);
      FrameBeside(Left(registry), others, c in registry.connections, policy, c, frames, f);
      HandleClientFrame(f);
    }

    /** An operation of the registry itself, told as a value. */
    method Perform(op: Op)
      requires registry.Valid()
      modifies registry
      ensures registry.Valid() && Left(registry) == AfterOp(old(Left(registry)), op)
    {
      match op
      case Arrive(isBinary, capacity) =>
        var id := registry.AllocateId();
        registry.Register(id, isBinary, capacity);
      case Join(o, s) =>
        registry.Subscribe(o, s);
      case Leave(o, s) =>
        registry.Unsubscribe(o, s);
      case Depart(o) =>
        registry.Deregister(o);
    }

    /** Another task's turn. */
    method Interfere(op: Op)
      requires Joined() && Beside()
      modifies this`others, registry
      ensures Joined() && Beside() && others == AfterEvent(old(others), Other(op), c)
    {
      ghost var was := Left(registry);
      if !About(op, c) || op.Depart? {
        ListsStep(was, op, policy, c, frames);
        if !About(op, c) {
          BesideStep(was, others, op, c);
        } else {
          OwnDeparture(was, others, c);
        }
        Perform(op);
      }
      others := AfterEvent(others, Other(op), c);
    }

    method HandleEvent(e: Event)
      requires Summary() && Joined() && Beside() && !Stops(e)
      modifies this, registry
      ensures Summary() && Joined() && Beside() && frames == old(frames) + FramesOf(e)
      ensures others == AfterEvent(old(others), e, c)
    {
      match e
      case Received(f) => Receive(f);
      case Other(op) => Interfere(op);
      case _ =>
    }

    /** Runs until an event stops it, or until there are no more: a connection still open. */
    method InboundLoop(events: seq<Event>)
      requires Summary() && Joined() && Beside() && frames == []
      modifies this, registry
      ensures Summary() && Joined() && Beside() && frames == Handled(events) && HandledUpToStop(events, frames)
      ensures others == AfterEvents(old(others), events, c)
    {
      var i := 0;
      ghost var first := others;
      assert events[0..] == events;
      while i < |events| && !Stops(events[i])
        invariant 0 <= i <= |events|
        invariant Summary() && Joined() && Beside()
        invariant frames + Handled(events[i..]) == Handled(events)
        invariant AfterEvents(others, events[i..], c) == AfterEvents(first, events, c)
      {
        HandledNext(events, i);
        Associative(frames, FramesOf(events[i]), Handled(events[i + 1..]));
        AfterNext(others, events, i, c);
        HandleEvent(events[i]);
        i := i + 1;
      }
      HandledMeans(events);
    }
  }

  lemma AfterNext(a: Others, events: seq<Event>, i: nat, c: ConnId)
    requires i < |events| && !Stops(events[i])
    ensures AfterEvents(a, events[i..], c) == AfterEvents(AfterEvent(a, events[i], c), events[i + 1..], c)
  {
    assert events[i..][1..] == events[i + 1..];
  }

  lemma HandledNext(events: seq<Event>, i: nat)
    requires i < |events| && !Stops(events[i])
    ensures Handled(events[i..]) == FramesOf(events[i]) + Handled(events[i + 1..])
  {
    assert events[i..][1..] == events[i + 1..];
  }

  // ---------------------------------------------------------------------------
  // Whole runs
  // ---------------------------------------------------------------------------

  /** Under enforcement nobody is subscribed who had not said hello; under hard enforcement, as capable of replay. */
  lemma SubscribedMeansGreeted(policy: Policy, frames: seq<Frame>, s: Stream)
    requires policy.enforcement != Compat && Subscribed(policy, frames, s)
    ensures
      exists i, j :: 0 <= i < j < |frames| && frames[i].Hello? && JoinsAt(policy, frames, j, s) &&
                     (policy.enforcement == HardEnforce ==>
                        Latest(frames[..j]) == Some(frames[i]) && frames[i].replayCapable)
  {
    var j :| 0 <= j < |frames| && JoinsAt(policy, frames, j, s);
    var i := LatestAt(frames[..j]);
    assert frames[..j][i] == frames[i];
  }

  lemma {:induction false} LatestAt(frames: seq<Frame>) returns (i: nat)
    requires Latest(frames).Some?
    ensures i < |frames| && frames[i].Hello? && Latest(frames) == Some(frames[i])
  {
    if frames[|frames| - 1].Hello? {
      i := |frames| - 1;
    } else {
      i := LatestAt(frames[..|frames| - 1]);
    }
  }

  /** Whether e settles a subscribe to this identifier. */
  function Settles(e: Effect, identifier: string): nat {
    if !e.Forward? && e.identifier == identifier then 1 else 0
  }

  function Settled(effects: seq<Effect>, identifier: string): nat {
    if effects == [] then 0
    else Settled(effects[..|effects| - 1], identifier) + Settles(effects[|effects| - 1], identifier)
  }

  function Requests(frames: seq<Frame>, identifier: string): nat {
    if frames == [] then 0
    else
      Requests(frames[..|frames| - 1], identifier) +
      if frames[|frames| - 1] == Subscribe(identifier) then 1 else 0
  }

  lemma SettledAppend(effects: seq<Effect>, answer: seq<Effect>, identifier: string)
    requires |answer| <= 1
    ensures Settled(effects + answer, identifier) ==
            Settled(effects, identifier) + if answer == [] then 0 else Settles(answer[0], identifier)
  {
    if answer == [] {
      assert effects + answer == effects;
    } else {
      assert (effects + answer)[..|effects|] == effects;
    }
  }

  lemma AnswerSettles(policy: Policy, before: seq<Frame>, f: Frame, identifier: string)
    requires policy.encodes(Reject(identifier)) && policy.encodes(Confirm(identifier))
    ensures
      var answer := Answer(policy, before, f);
      |answer| <= 1 && (f == Subscribe(identifier) <==> answer != [] && Settles(answer[0], identifier) == 1)
  {
  }

  /** Every subscribe is settled exactly once: a rejection, a confirmation or a replay task. */
  lemma {:induction false} EverySubscribeAnswered(policy: Policy, frames: seq<Frame>, identifier: string)
    requires policy.encodes(Reject(identifier)) && policy.encodes(Confirm(identifier))
    ensures Settled(Answers(policy, frames), identifier) == Requests(frames, identifier)
  {
    if frames != [] {
      var before, f := frames[..|frames| - 1], frames[|frames| - 1];
      EverySubscribeAnswered(policy, before, identifier);
      AnswerSettles(policy, before, f, identifier);
      SettledAppend(Answers(policy, before), Answer(policy, before, f), identifier);
    }
  }

  // ---------------------------------------------------------------------------
  // What is sent, in terms of the frames alone
  // ---------------------------------------------------------------------------

  /** Frame j is the last hello before frame i. */
  ghost predicate LastHello(frames: seq<Frame>, i: nat, j: nat)
    requires i <= |frames|
  {
    j < i && frames[j].Hello? && forall m :: j < m < i ==> !frames[m].Hello?
  }

  /** Commands at i are acted on: always in compat mode, else once there was a hello. */
  ghost predicate Greeted(policy: Policy, frames: seq<Frame>, i: nat)
    requires i <= |frames|
  {
    policy.enforcement.Compat? || exists j :: 0 <= j < i && frames[j].Hello?
  }

  /** The identifier is one of the patterns, or begins with what stands before a pattern's final star. */
  ghost predicate GrantedBy(pattern: string, identifier: string) {
    pattern == identifier || exists prefix :: pattern == prefix + "*" && prefix <= identifier
  }

  /** The subscribe at i is let in. */
  ghost predicate LetIn(policy: Policy, frames: seq<Frame>, i: nat, identifier: string)
    requires i <= |frames|
  {
    && Greeted(policy, frames, i)
    && (policy.enforcement.HardEnforce? ==> exists j: nat :: LastHello(frames, i, j) && frames[j].replayCapable)
    && (exists pattern :: pattern in policy.allowed && GrantedBy(pattern, identifier))
  }

  /** At i the client's number, as of the last hello, is n. */
  ghost predicate ResumesFrom(frames: seq<Frame>, i: nat, n: nat)
    requires i <= |frames|
  {
    exists j: nat :: LastHello(frames, i, j) && frames[j].lastSeq == Some(n)
  }

  /** Frame i calls for e. */
  ghost predicate DueAt(policy: Policy, frames: seq<Frame>, i: nat, e: Effect)
    requires i < |frames|
  {
    match e
    case Replay(id, n) =>
      frames[i] == Subscribe(id) && LetIn(policy, frames, i, id) && policy.nats && ResumesFrom(frames, i, n)
    case Confirm(id) =>
      && frames[i] == Subscribe(id) && LetIn(policy, frames, i, id) && policy.encodes(e)
      && !(policy.nats && exists n: nat :: ResumesFrom(frames, i, n))
    case Reject(id) => frames[i] == Subscribe(id) && !LetIn(policy, frames, i, id) && policy.encodes(e)
    case Forward(id, data) => frames[i] == Publish(id, data) && Greeted(policy, frames, i) && policy.nats
  }

  lemma MatchesMeans(pattern: string, identifier: string)
    ensures Matches(pattern, identifier) <==> GrantedBy(pattern, identifier)
  {
    if pattern != "" && pattern[|pattern| - 1] == '*' {
      var prefix := pattern[..|pattern| - 1];
      assert pattern == prefix + "*";
      assert forall other :: pattern == other + "*" ==> other == prefix;
    }
  }

  lemma AllowedMeans(allowed: seq<string>, identifier: string)
    ensures IsAllowed(allowed, identifier) <==>
            exists pattern :: pattern in allowed && GrantedBy(pattern, identifier)
  {
    forall i | 0 <= i < |allowed| ensures Matches(allowed[i], identifier) <==> GrantedBy(allowed[i], identifier) {
      MatchesMeans(allowed[i], identifier);
    }
  }

  lemma LatestIs(frames: seq<Frame>, i: nat)
    requires i <= |frames|
    ensures Latest(frames[..i]).Some? <==> exists j :: 0 <= j < i && frames[j].Hello?
    ensures Latest(frames[..i]).Some? ==> exists j: nat :: LastHello(frames, i, j)
    ensures forall j: nat :: LastHello(frames, i, j) ==> Latest(frames[..i]) == Some(frames[j])
  {
    var before := frames[..i];
    LatestMeans(before);
    assert forall j :: 0 <= j < i ==> before[j] == frames[j];
    if Latest(before).Some? {
      var j: nat :| 0 <= j < |before| && before[j].Hello? && Latest(before) == Some(before[j]) &&
                    forall m :: j < m < |before| ==> !before[m].Hello?;
      assert LastHello(frames, i, j);
      forall k: nat | LastHello(frames, i, k) ensures k == j {
      }
    }
  }

  lemma HelloMeans(frames: seq<Frame>, i: nat)
    requires i <= |frames|
    ensures Capable(frames[..i]) <==> exists j: nat :: LastHello(frames, i, j) && frames[j].replayCapable
    ensures forall n: nat :: ResumesFrom(frames, i, n) <==>
              Latest(frames[..i]).Some? && Latest(frames[..i]).value.lastSeq == Some(n)
  {
    LatestIs(frames, i);
  }

  /** Who is let in, without the handler's own tests. */
  lemma EntitledMeans(policy: Policy, frames: seq<Frame>, i: nat, identifier: string)
    requires i <= |frames|
    ensures Heard(policy, frames[..i]) <==> Greeted(policy, frames, i)
    ensures Entitled(policy, frames[..i], identifier) <==> LetIn(policy, frames, i, identifier)
  {
    LatestIs(frames, i);
    HelloMeans(frames, i);
    AllowedMeans(policy.allowed, identifier);
  }

  lemma NumberAt(frames: seq<Frame>, i: nat)
    requires i <= |frames|
    ensures Latest(frames[..i]).Some? && Latest(frames[..i]).value.lastSeq.Some? <==>
            exists n: nat :: ResumesFrom(frames, i, n)
  {
    HelloMeans(frames, i);
    if Latest(frames[..i]).Some? && Latest(frames[..i]).value.lastSeq.Some? {
      assert ResumesFrom(frames, i, Latest(frames[..i]).value.lastSeq.value);
    }
  }

  /** The answer to a frame is the one effect it calls for. */
  lemma AnswerIsDue(policy: Policy, frames: seq<Frame>, i: nat, e: Effect)
    requires i < |frames|
    ensures Answer(policy, frames[..i], frames[i]) == [e] <==> DueAt(policy, frames, i, e)
    ensures |Answer(policy, frames[..i], frames[i])| <= 1
  {
    var f := frames[i];
    if f.Subscribe? || f.Publish? {
      EntitledMeans(policy, frames, i, f.identifier);
      HelloMeans(frames, i);
      NumberAt(frames, i);
    }
  }

  /** What a frame calls for depends on the frames before it only. */
  lemma DueKept(policy: Policy, frames: seq<Frame>, f: Frame, i: nat, e: Effect)
    requires i < |frames|
    ensures DueAt(policy, frames + [f], i, e) <==> DueAt(policy, frames, i, e)
  {
    AnswerIsDue(policy, frames, i, e);
    AnswerIsDue(policy, frames + [f], i, e);
    PrefixKept(frames, f, i);
  }

  /** `at` are the frames that called for what was sent, in order, and all of them. */
  ghost predicate SentFor(policy: Policy, frames: seq<Frame>, sent: seq<Effect>, at: seq<nat>) {
    && |at| == |sent| && Ascending(at)
    && (forall k :: 0 <= k < |at| ==> at[k] < |frames| && DueAt(policy, frames, at[k], sent[k]))
    && (forall i, e :: 0 <= i < |frames| && DueAt(policy, frames, i, e) ==> i in at)
  }

  lemma SentForNothing(policy: Policy, frames: seq<Frame>, f: Frame, sent: seq<Effect>, at: seq<nat>)
    requires SentFor(policy, frames, sent, at) && Answer(policy, frames, f) == []
    ensures SentFor(policy, frames + [f], sent, at)
  {
    var now := frames + [f];
    assert now[..|frames|] == frames;
    forall k | 0 <= k < |at| ensures DueAt(policy, now, at[k], sent[k]) {
      DueKept(policy, frames, f, at[k], sent[k]);
    }
    forall i, e | 0 <= i < |now| && DueAt(policy, now, i, e) ensures i in at {
      AnswerIsDue(policy, now, i, e);
      if i < |frames| {
        DueKept(policy, frames, f, i, e);
      }
    }
  }

  lemma SentForOne(policy: Policy, frames: seq<Frame>, f: Frame, sent: seq<Effect>, at: seq<nat>, e: Effect)
    requires SentFor(policy, frames, sent, at) && Answer(policy, frames, f) == [e]
    ensures SentFor(policy, frames + [f], sent + [e], at + [|frames|])
  {
    var now, all := frames + [f], at + [|frames|];
    assert now[..|frames|] == frames;
    AnswerIsDue(policy, now, |frames|, e);
    forall k | 0 <= k < |all| ensures DueAt(policy, now, all[k], (sent + [e])[k]) {
      if k < |at| {
        DueKept(policy, frames, f, at[k], sent[k]);
      }
    }
    forall i, x | 0 <= i < |now| && DueAt(policy, now, i, x) ensures i in all {
      if i < |frames| {
        DueKept(policy, frames, f, i, x);
      } else {
        assert all[|at|] == i;
      }
    }
  }

  /**
   * Over a whole connection, what is sent is what the frames call for: each frame that calls for an effect
   * gets that one, in the order of the frames, and nothing else is sent.
   */
  lemma {:induction false} AnswersExact(policy: Policy, frames: seq<Frame>) returns (at: seq<nat>)
    ensures SentFor(policy, frames, Answers(policy, frames), at)
  {
    if frames == [] {
      at := [];
    } else {
      var before, f := frames[..|frames| - 1], frames[|frames| - 1];
      at := AnswersExact(policy, before);
      var sent, answer := Answers(policy, before), Answer(policy, before, f);
      assert before + [f] == frames;
      if answer == [] {
        SentForNothing(policy, before, f, sent, at);
        assert sent + answer == sent;
      } else {
        AnswerIsDue(policy, frames, |before|, answer[0]);
        assert answer == [answer[0]];
        SentForOne(policy, before, f, sent, at, answer[0]);
        at := at + [|before|];
      }
    }
  }

  /** The frames that call for e. */
  ghost function CallersOf(policy: Policy, frames: seq<Frame>, e: Effect): set<nat> {
    set i: nat | i < |frames| && DueAt(policy, frames, i, e)
  }

  lemma CallersStep(policy: Policy, frames: seq<Frame>, f: Frame, e: Effect)
    ensures |CallersOf(policy, frames + [f], e)| ==
            |CallersOf(policy, frames, e)| + if Answer(policy, frames, f) == [e] then 1 else 0
  {
    var was, now := CallersOf(policy, frames, e), CallersOf(policy, frames + [f], e);
    forall i: nat | i < |frames| ensures i in now <==> i in was {
      DueKept(policy, frames, f, i, e);
    }
    assert (frames + [f])[..|frames|] == frames;
    AnswerIsDue(policy, frames + [f], |frames|, e);
    assert now - {|frames|} == was - {|frames|};
    CardToggle(was, now, |frames|);
  }

  lemma CountStep(policy: Policy, frames: seq<Frame>, f: Frame, e: Effect)
    ensures multiset(Answers(policy, frames + [f]))[e] ==
            multiset(Answers(policy, frames))[e] + if Answer(policy, frames, f) == [e] then 1 else 0
  {
    assert (frames + [f])[..|frames|] == frames;
    AnswersStep(policy, frames, f);
    AnswerIsDue(policy, frames + [f], |frames|, e);
    CountAppend(Answers(policy, frames), Answer(policy, frames, f), e);
  }

  /** e is sent as often as frames call for it. */
  ghost predicate SentAsDue(policy: Policy, frames: seq<Frame>, e: Effect) {
    multiset(Answers(policy, frames))[e] == |CallersOf(policy, frames, e)|
  }

  lemma SentAsDueStep(policy: Policy, frames: seq<Frame>, f: Frame, e: Effect)
    requires SentAsDue(policy, frames, e)
    ensures SentAsDue(policy, frames + [f], e)
  {
    CallersStep(policy, frames, f, e);
    CountStep(policy, frames, f, e);
  }

  /** Every replay, confirmation, rejection and forwarded publish is sent as often as frames call for it. */
  lemma {:induction false} AnswersCounted(policy: Policy, frames: seq<Frame>, e: Effect)
    ensures SentAsDue(policy, frames, e)
  {
    if frames == [] {
      assert CallersOf(policy, frames, e) == {};
    } else {
      var before, f := frames[..|frames| - 1], frames[|frames| - 1];
      AnswersCounted(policy, before, e);
      SentAsDueStep(policy, before, f, e);
      assert before + [f] == frames;
    }
  }

  /** Which frames join and leave a stream, in the same terms. */
  lemma JoinsMeans(policy: Policy, frames: seq<Frame>, i: nat, s: Stream)
    requires i < |frames|
    ensures JoinsAt(policy, frames, i, s) <==>
            frames[i].Subscribe? && policy.key(frames[i].identifier) == s &&
            LetIn(policy, frames, i, frames[i].identifier)
    ensures LeavesAt(policy, frames, i, s) <==>
            frames[i].Unsubscribe? && policy.key(frames[i].identifier) == s && Greeted(policy, frames, i)
  {
    if frames[i].Subscribe? || frames[i].Unsubscribe? {
      EntitledMeans(policy, frames, i, frames[i].identifier);
    }
  }

  // ---------------------------------------------------------------------------
  // The life of a socket
  // ---------------------------------------------------------------------------

  /** Authentication: what the verifier says about the token, if there is a verifier. */
  datatype Auth =
    | NoVerifier
    | Verifier(token: Option<string>, claims: Option<seq<string>>)  // claims: granted streams, if the token is good

  datatype Served =
    | TooMany
    | AuthFailed
    | Closed(c: ConnId, sent: seq<Effect>)

  /** A new connection, known and listed nowhere. */
  method Open(registry: R.Registry, isBinary: bool, capacity: nat) returns (c: ConnId)
    requires registry.Valid()
    modifies registry
    ensures registry.Valid() && c == old(registry.nextId) && c !in old(registry.connections)
    ensures Left(registry) == Others(old(registry.Relation()), old(registry.connections)[c := isBinary], c + 1)
    ensures registry.channels == old(registry.channels)[c := R.Channel([], capacity, true, 0)]
    ensures (forall s :: (c, s) !in registry.Relation()) &&
            registry.Relation() - R.AllOf(c) == registry.Relation()
  {
    c := registry.AllocateId();
    NoPairs(registry, c);
    registry.Register(c, isBinary, capacity);
  }

  /**
   * An accepted socket, from its registration to its deregistration: it leaves what the others alone leave.
   * `begun` and `channel` are the registry, and the socket's queue in it, as the session finds them.
   */
  method Serve(registry: R.Registry, isBinary: bool, capacity: nat, policy: Policy, events: seq<Event>)
    returns (c: ConnId, sent: seq<Effect>, ghost begun: Others, ghost channel: R.Channel)
    requires registry.Valid()
    modifies registry
    ensures begun == Others(old(registry.Relation()), old(registry.connections)[c := isBinary], c + 1)
    ensures channel == R.Channel([], capacity, true, 0)
    ensures c == old(registry.nextId) && sent == Answers(policy, Handled(events))
    ensures registry.Valid() && Left(registry) == AfterEvents(Newcomer(old(Left(registry))), events, c)
  {
    c := Open(registry, isBinary, capacity);
    begun, channel := Left(registry), registry.channels[c];
    var session := new Session(policy, c, registry);
    assert old(registry.connections)[c := isBinary] - {c} == old(registry.connections);
    assert session.others == Newcomer(old(Left(registry)));
    session.InboundLoop(events);
    sent := session.sent;
    registry.Deregister(c);
  }

  /** An id is handed out to somebody who then leaves no trace. */
  ghost function Newcomer(a: Others): Others {
    a.(nextId := a.nextId + 1)
  }

  /**
   * Whatever happens on the socket, afterwards the limiter and the registry are as the other tasks alone
   * would have left them, except that until then the others had one slot less of this address; refused
   * sockets never reach the registry.  `calls` are the others' between the acquire and the release.
   */
  method HandleSocket(limiter: L.ConnectionLimiter, registry: R.Registry, ip: L.Ip, auth: Auth, isBinary: bool,
                      capacity: nat, policy: Policy, events: seq<Event>, calls: seq<L.Call>)
    returns (served: Served)
    requires registry.Valid()
    modifies limiter, registry
    ensures served.TooMany? <==> L.CountFor(old(limiter.counts), ip) >= limiter.maxPerIp
    ensures served.TooMany? ==> forall o :: L.CountFor(limiter.counts, o) == L.CountFor(old(limiter.counts), o)
    ensures !served.TooMany? ==> L.LeftToOthers(limiter.maxPerIp, old(limiter.counts), limiter.counts, ip, calls)
    ensures served.AuthFailed? <==>
              !served.TooMany? && auth.Verifier? &&
              (auth.token.None? || auth.token.value == "" || auth.claims.None?)
    ensures registry.Valid() && registry.active == |registry.connections|
    ensures !served.Closed? ==> Left(registry) == old(Left(registry))
    ensures served.Closed? ==>
              && served.c == old(registry.nextId)
              && served.sent ==
                 Answers(policy.(allowed := if auth.Verifier? then auth.claims.value else ["*"]), Handled(events))
              && Left(registry) == AfterEvents(Newcomer(old(Left(registry))), events, served.c)
  {
    var ok := limiter.TryAcquire(ip);
    if !ok {
      return TooMany;
    }
    ghost var taken := limiter.counts;
    limiter.Serve(calls);
    ghost var held := limiter.counts;
    var allowed := ["*"];
    if auth.Verifier? {
      if auth.token.None? || auth.token.value == "" || auth.claims.None? {
        limiter.Release(ip);
        L.SlotUsed(limiter.maxPerIp, old(limiter.counts), taken, held, limiter.counts, ip, calls);
        return AuthFailed;
      }
      allowed := auth.claims.value;
    }
    ghost var begun, channel;
    var c, sent;
    c, sent, begun, channel := Serve(registry, isBinary, capacity, policy.(allowed := allowed), events);
    limiter.Release(ip);
    L.SlotUsed(limiter.maxPerIp, old(limiter.counts), taken, held, limiter.counts, ip, calls);
    served := Closed(c, sent);
  }

  /** With nobody else at work the registry is as before. */
  lemma {:induction false} AloneLeavesNothing(a: Others, events: seq<Event>, c: ConnId)
    requires forall i :: 0 <= i < |events| ==> !events[i].Other?
    ensures AfterEvents(a, events, c) == a
  {
    if events != [] && !Stops(events[0]) {
      AloneLeavesNothing(a, events[1..], c);
    }
  }

  lemma NoPairs(registry: R.Registry, c: ConnId)
    requires registry.Valid() && c !in registry.connections
    ensures forall s :: (c, s) !in registry.Relation()
    ensures registry.Relation() - R.AllOf(c) == registry.Relation()
  {
    forall s ensures (c, s) !in registry.Relation() {
      assert !R.Listed(registry.streams, c, s);
    }
    forall p | p in registry.Relation() ensures p.0 != c {
      assert R.Listed(registry.streams, p.0, p.1);
    }
  }
}
