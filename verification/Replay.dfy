/**
 * Reconnect replay: the retention check, the bounded delivery loop and the truncation
 * probe of `replay_since`, against a declarative account of what should be delivered.
 */
module Replay {
  import opened Wrappers
  import opened RegistryModel

  const MAX_REPLAY_MESSAGES: nat := 10_000

  /** What the JetStream client hands the loop: a message, perhaps without its number, an error, or nothing. */
  datatype Event =
    | Message(number: Option<nat>, encodes: bool)
    | FetchError
    | End

  /** The stream state the retention check looks at. */
  datatype Info = Info(messages: nat, first: nat)

  datatype Outcome =
    | Replayed(delivered: nat, peerGone: bool)
    | WindowExceeded(requested: nat, oldest: nat)
    | Truncated(delivered: nat, limit: nat)
    | JetStreamError

  /** `last_seq.saturating_add(1)`. */
  function Requested(lastSeq: nat): nat {
    if lastSeq >= U64_MAX then U64_MAX else lastSeq + 1
  }

  predicate Passes(info: Info, lastSeq: nat) {
    && !(info.messages > 0 && Requested(lastSeq) < info.first)
    && !(info.messages == 0 && lastSeq > 0)
  }

  /** Past the end of the list the fetch times out. */
  function Next(events: seq<Event>, i: nat): Event {
    if i < |events| then events[i] else End
  }

  // ---------------------------------------------------------------------------
  // What should be delivered
  // ---------------------------------------------------------------------------

  predicate Numbered(e: Event) {
    e.Message? && e.number.Some?
  }

  /** Event i carries a number above the client's and above every number before it. */
  ghost predicate IsRecord(events: seq<Event>, lastSeq: nat, i: nat)
    requires i < |events|
  {
    && Numbered(events[i]) && events[i].number.value > lastSeq
    && (forall j :: 0 <= j < i && Numbered(events[j]) ==> events[j].number.value < events[i].number.value)
  }

  /** The encodable running-maximum subsequence of the first n events. */
  ghost function Deliverable(events: seq<Event>, lastSeq: nat, n: nat): (r: seq<nat>)
    requires n <= |events|
    ensures |r| <= n
  {
    if n == 0 then []
    else
      Deliverable(events, lastSeq, n - 1) +
      if IsRecord(events, lastSeq, n - 1) && events[n - 1].encodes then [events[n - 1].number.value] else []
  }

  /** The greatest number seen, starting from the client's. */
  ghost function Peak(events: seq<Event>, lastSeq: nat, n: nat): (p: nat)
    requires n <= |events|
    ensures p >= lastSeq
    ensures forall j :: 0 <= j < n && Numbered(events[j]) ==> events[j].number.value <= p
    ensures p > lastSeq ==> exists j :: 0 <= j < n && Numbered(events[j]) && events[j].number.value == p
  {
    if n == 0 then lastSeq
    else
      var p := Peak(events, lastSeq, n - 1);
      if Numbered(events[n - 1]) && events[n - 1].number.value > p then events[n - 1].number.value else p
  }

  lemma RecordIffAbovePeak(events: seq<Event>, lastSeq: nat, i: nat)
    requires i < |events| && Numbered(events[i])
    ensures IsRecord(events, lastSeq, i) <==> events[i].number.value > Peak(events, lastSeq, i)
  {
  }

  /** One more numbered event. */
  lemma DeliverOne(events: seq<Event>, lastSeq: nat, i: nat)
    requires i < |events| && Numbered(events[i])
    ensures
      var number, peak := events[i].number.value, Peak(events, lastSeq, i);
      && (number > peak <==> IsRecord(events, lastSeq, i))
      && Deliverable(events, lastSeq, i + 1) ==
         Deliverable(events, lastSeq, i) + (if number > peak && events[i].encodes then [number] else [])
      && Peak(events, lastSeq, i + 1) == if number > peak then number else peak
  {
    RecordIffAbovePeak(events, lastSeq, i);
  }

  predicate Increasing(s: seq<nat>) {
    forall i, j :: 0 <= i < j < |s| ==> s[i] < s[j]
  }

  /** Deliveries ascend strictly, start above the client's number and never pass the peak. */
  lemma {:induction false} DeliverableAscends(events: seq<Event>, lastSeq: nat, n: nat)
    requires n <= |events|
    ensures
      var r := Deliverable(events, lastSeq, n);
      Increasing(r) && forall q :: q in r ==> lastSeq < q <= Peak(events, lastSeq, n)
  {
    if n > 0 {
      DeliverableAscends(events, lastSeq, n - 1);
      var before := Deliverable(events, lastSeq, n - 1);
      assert forall i :: 0 <= i < |before| ==> before[i] in before;
      if Numbered(events[n - 1]) {
        RecordIffAbovePeak(events, lastSeq, n - 1);
      }
    }
  }

  lemma {:induction false} DeliverableGrows(events: seq<Event>, lastSeq: nat, m: nat, n: nat)
    requires m <= n <= |events|
    ensures Deliverable(events, lastSeq, m) <= Deliverable(events, lastSeq, n)
    decreases n
  {
    if m < n {
      DeliverableGrows(events, lastSeq, m, n - 1);
    }
  }

  // ---------------------------------------------------------------------------
  // The loop
  // ---------------------------------------------------------------------------

  /** The loop stopped at its first reason to stop. */
  ghost predicate StoppedAt(events: seq<Event>, lastSeq: nat, sent: seq<nat>, consumed: nat) {
    && consumed <= |events| && |sent| <= MAX_REPLAY_MESSAGES
    && sent == Deliverable(events, lastSeq, consumed)
    && (forall j :: 0 <= j < consumed ==> Numbered(events[j]))
    && (consumed > 0 ==> |Deliverable(events, lastSeq, consumed - 1)| < MAX_REPLAY_MESSAGES)
  }

  /**
   * The outcome follows from the event the loop stopped before: none left, the probe's find at
   * the cap, a message without its number, or one the peer was gone for.
   */
  ghost predicate LoopOutcome(outcome: Outcome, events: seq<Event>, lastSeq: nat, sent: seq<nat>, consumed: nat,
                              room: Option<nat>)
  {
    var next := Next(events, consumed);
    if !next.Message? then outcome == Replayed(|sent|, false)
    else if |sent| == MAX_REPLAY_MESSAGES then outcome == Truncated(MAX_REPLAY_MESSAGES, MAX_REPLAY_MESSAGES)
    else if next.number.None? then outcome == JetStreamError
    else
      && outcome == Replayed(|sent|, true) && room == Some(|sent|)
      && consumed < |events| && IsRecord(events, lastSeq, consumed) && next.encodes
  }

  /**
   * The delivery loop and the probe.  `room` is how many sends succeed before the peer is gone, if it
   * ever is; `consumed` counts the messages the loop took; `sent` are the numbers it delivered.
   */
  method DeliverAll(lastSeq: nat, events: seq<Event>, room: Option<nat>)
    returns (outcome: Outcome, sent: seq<nat>, consumed: nat)
    ensures StoppedAt(events, lastSeq, sent, consumed)
    ensures LoopOutcome(outcome, events, lastSeq, sent, consumed, room)
    ensures room.Some? ==> |sent| <= room.value
  {
    outcome, sent, consumed := JetStreamError, [], 0;
    var count, prev := 0, lastSeq;
    while count < MAX_REPLAY_MESSAGES
      invariant StoppedAt(events, lastSeq, sent, consumed)
      invariant count == |sent| && prev == Peak(events, lastSeq, consumed)
      invariant room.Some? ==> |sent| <= room.value
      decreases |events| - consumed
    {
      var event := Next(events, consumed);
      if !event.Message? {
        break;
      }
      if event.number.None? {
        return;
      }
      DeliverOne(events, lastSeq, consumed);
      var number := event.number.value;
      if number > prev {
        if event.encodes {
          if room == Some(count) {
            outcome := Replayed(count, true);
            return;
          }
          sent := sent + [number];
          count := count + 1;
        }
        prev := number;
      }
      consumed := consumed + 1;
    }
    if count == MAX_REPLAY_MESSAGES && Next(events, consumed).Message? {
      outcome := Truncated(count, MAX_REPLAY_MESSAGES);
    } else {
      outcome := Replayed(count, false);
    }
  }

  /**
   * The whole call.  `setup` is the stream state, or nothing if it could not be fetched; `consumerOk`
   * is whether the ephemeral consumer came up.
   */
  method ReplaySince(setup: Option<Info>, consumerOk: bool, lastSeq: nat, events: seq<Event>, room: Option<nat>)
    returns (outcome: Outcome, sent: seq<nat>, consumed: nat)
    ensures outcome.WindowExceeded? <==> setup.Some? && !Passes(setup.value, lastSeq)
    ensures outcome.WindowExceeded? ==>
              && outcome.requested == Requested(lastSeq)
              && outcome.oldest ==
                 (if setup.value.messages > 0 || setup.value.first > 1 then setup.value.first else 1)
    ensures setup.None? || !Passes(setup.value, lastSeq) || !consumerOk ==> sent == [] && consumed == 0
    ensures setup.None? || (Passes(setup.value, lastSeq) && !consumerOk) ==> outcome == JetStreamError
    ensures setup.Some? && Passes(setup.value, lastSeq) && consumerOk ==>
              && StoppedAt(events, lastSeq, sent, consumed)
              && LoopOutcome(outcome, events, lastSeq, sent, consumed, room)
              && (room.Some? ==> |sent| <= room.value)
  {
    outcome, sent, consumed := JetStreamError, [], 0;
    if setup.None? {
      return;
    }
    var info := setup.value;
    var requested := Requested(lastSeq);
    if info.messages > 0 && requested < info.first {
      outcome := WindowExceeded(requested, info.first);
      return;
    }
    if info.messages == 0 && lastSeq > 0 {
      outcome := WindowExceeded(requested, if info.first > 1 then info.first else 1);
      return;
    }
    if !consumerOk {
      return;
    }
    outcome, sent, consumed := DeliverAll(lastSeq, events, room);
  }

  // ---------------------------------------------------------------------------
  // The log behind the events
  // ---------------------------------------------------------------------------

  /** Every message ever published, oldest first, message i + 1 at index i; those below `first` are trimmed. */
  datatype Log = Log(subjects: seq<Stream>, first: nat)

  predicate ValidLog(log: Log) {
    1 <= log.first <= |log.subjects| + 1 && |log.subjects| < U64_MAX
  }

  predicate Empty(log: Log) {
    log.first == |log.subjects| + 1
  }

  predicate Snapshot(log: Log, info: Info) {
    && info.messages == |log.subjects| + 1 - log.first
    && (info.messages > 0 ==> info.first == log.first)
  }

  /** Nothing the client has not seen was trimmed. */
  ghost predicate Covered(log: Log, lastSeq: nat) {
    forall q :: lastSeq < q <= |log.subjects| ==> Retained(log, q)
  }

  predicate Retained(log: Log, q: nat) {
    log.first <= q
  }

  /**
   * On a log with retained messages the check is exact.  On an empty log it passes just for
   * `last_seq` 0, where it is wrong exactly when something had been published and purged.
   */
  lemma RetentionExact(log: Log, info: Info, lastSeq: nat)
    requires ValidLog(log) && Snapshot(log, info)
    ensures !Empty(log) ==> (Passes(info, lastSeq) <==> Covered(log, lastSeq))
    ensures Empty(log) ==> (Passes(info, lastSeq) <==> lastSeq == 0)
    ensures Empty(log) && Passes(info, lastSeq) ==> (Covered(log, lastSeq) <==> |log.subjects| == 0)
  {
    assert Covered(log, lastSeq) && lastSeq < |log.subjects| ==> Retained(log, lastSeq + 1);
  }

  /** The check at its worst: the one message ever published was purged, and a client at 0 is let through. */
  lemma RetentionMisses(s: Stream)
    ensures
      var log, info := Log([s], 2), Info(0, 2);
      ValidLog(log) && Snapshot(log, info) && Passes(info, 0) && !Covered(log, 0)
  {
    assert !Retained(Log([s], 2), 1);
  }

  /** Numbers in lo..hi whose message is on s. */
  ghost function NumbersOn(subjects: seq<Stream>, s: Stream, lo: nat, hi: nat): (r: seq<nat>)
    requires hi <= |subjects|
    ensures forall q :: q in r <==> lo <= q <= hi && q >= 1 && subjects[q - 1] == s
    ensures Increasing(r)
    decreases hi
  {
    if hi == 0 || hi < lo then []
    else
      var before := NumbersOn(subjects, s, lo, hi - 1);
      assert forall i :: 0 <= i < |before| ==> before[i] in before;
      if subjects[hi - 1] == s then before + [hi] else before
  }

  /** What a consumer on s starting just after `lastSeq` finds. */
  ghost function Available(log: Log, s: Stream, lastSeq: nat): seq<nat> {
    NumbersOn(log.subjects, s, if log.first > lastSeq + 1 then log.first else lastSeq + 1, |log.subjects|)
  }

  /** A well-behaved consumer's events: these numbers in order, all encodable. */
  ghost predicate Faithful(events: seq<Event>, numbers: seq<nat>) {
    |events| == |numbers| && forall i :: 0 <= i < |events| ==> events[i] == Message(Some(numbers[i]), true)
  }

  lemma {:induction false} FaithfulDelivery(events: seq<Event>, numbers: seq<nat>, lastSeq: nat, n: nat)
    requires Faithful(events, numbers) && Increasing(numbers) && n <= |events|
    requires forall i :: 0 <= i < |numbers| ==> numbers[i] > lastSeq
    ensures Deliverable(events, lastSeq, n) == numbers[..n]
  {
    if n > 0 {
      FaithfulDelivery(events, numbers, lastSeq, n - 1);
      assert IsRecord(events, lastSeq, n - 1);
      assert numbers[..n] == numbers[..n - 1] + [numbers[n - 1]];
    }
  }

  /**
   * When the check passes and the consumer is well behaved, a replay that reports success
   * delivered every message published on the stream after `last_seq`, and a truncated one
   * delivered exactly the oldest MAX of them.
   */
  lemma ReplayMissesNothing(log: Log, info: Info, s: Stream, lastSeq: nat, events: seq<Event>,
                            outcome: Outcome, sent: seq<nat>, consumed: nat)
    requires ValidLog(log) && Snapshot(log, info) && Passes(info, lastSeq)
    requires !(Empty(log) && |log.subjects| > 0)
    requires Faithful(events, Available(log, s, lastSeq))
    requires StoppedAt(events, lastSeq, sent, consumed) && LoopOutcome(outcome, events, lastSeq, sent, consumed, None)
    ensures
      var missed := NumbersOn(log.subjects, s, lastSeq + 1, |log.subjects|);
      && (|missed| <= MAX_REPLAY_MESSAGES ==> outcome == Replayed(|sent|, false) && sent == missed)
      && (|missed| > MAX_REPLAY_MESSAGES ==>
            outcome == Truncated(MAX_REPLAY_MESSAGES, MAX_REPLAY_MESSAGES) && sent == missed[..MAX_REPLAY_MESSAGES])
  {
    RetentionExact(log, info, lastSeq);
    var missed := NumbersOn(log.subjects, s, lastSeq + 1, |log.subjects|);
    assert forall i :: 0 <= i < |missed| ==> missed[i] in missed;
    FaithfulDelivery(events, missed, lastSeq, consumed);
    if consumed > 0 {
      FaithfulDelivery(events, missed, lastSeq, consumed - 1);
    }
    assert missed[..|missed|] == missed;
  }
}
