/**
 * From the log to the socket: what the registry and a replay queued for a reconnecting client, followed
 * through the outbound loop's two queues onto the wire.
 */
module EndToEnd {
  import opened Wrappers
  import CatchUp
  import Outbound
  import Reconnect
  import RegistryModel
  import Replay

  /** The numbers a client reads off one of the queues' messages: those on the wire, and those still waiting. */
  function OnWire(v: Outbound.Loop, replay: bool, read: Outbound.WsMsg -> Option<nat>): seq<nat> {
    CatchUp.Numbers(Outbound.Wire(v.written, replay), read)
  }

  function Waiting(cfg: Outbound.Config, v: Outbound.Loop, replay: bool,
                   read: Outbound.WsMsg -> Option<nat>): seq<nat> {
    CatchUp.Numbers(Outbound.Rendered(if replay then v.q.replay else v.q.live, cfg.isBinary), read)
  }

  /** ... and those ever queued. */
  function EverQueued(cfg: Outbound.Config, v: Outbound.Loop, replay: bool,
                      read: Outbound.WsMsg -> Option<nat>): seq<nat> {
    CatchUp.Numbers(Outbound.Rendered(if replay then v.q.replayAll else v.q.liveAll, cfg.isBinary), read)
  }

  /** While sends work, what was queued is on the wire or still waiting, in the order it was queued. */
  lemma WiredOrWaiting(cfg: Outbound.Config, start: nat, v: Outbound.Loop, replay: bool,
                       read: Outbound.WsMsg -> Option<nat>)
    requires Outbound.Good(cfg, start, v) && !v.lost
    ensures EverQueued(cfg, v, replay, read) == OnWire(v, replay, read) + Waiting(cfg, v, replay, read)
  {
    var taken, left := if replay then v.replayTaken else v.liveTaken, if replay then v.q.replay else v.q.live;
    CatchUp.RenderedConcat(taken, left, cfg.isBinary);
    CatchUp.NumbersConcat(Outbound.Rendered(taken, cfg.isBinary), Outbound.Rendered(left, cfg.isBinary), read);
  }

  /** What this connection's two queues were given is what the replay delivered and the registry sent. */
  ghost predicate Feeds(cfg: Outbound.Config, k: Reconnect.Client, w: Reconnect.World, v: Outbound.Loop,
                        readReplay: Outbound.WsMsg -> Option<nat>, readLive: Outbound.WsMsg -> Option<nat>)
    requires w.task.Fetching? && (k.c, k.key) in w.reg.history.subs
  {
    && EverQueued(cfg, v, true, readReplay) == Replay.Deliverable(w.task.events, k.lastSeq, |w.task.events|)
    && EverQueued(cfg, v, false, readLive) == w.reg.history.subs[(k.c, k.key)].got
  }

  /**
   * No gap, end to end: on a socket whose sends have worked, every message a reconnecting client is due has
   * been written to it or waits in one of its queues, but for the one frame the fan-out loop is about to offer;
   * once both queues are empty, it has been written.
   */
  lemma NoGapOnTheWire(sh: RegistryModel.Shards, k: Reconnect.Client, moves: seq<Reconnect.Move>, q: nat,
                       cfg: Outbound.Config, start: nat, v: Outbound.Loop,
                       readReplay: Outbound.WsMsg -> Option<nat>, readLive: Outbound.WsMsg -> Option<nat>)
    requires k.key == k.subject && Reconnect.Happens(sh, k, Reconnect.START, moves)
    requires Reconnect.CaughtUp(k, Reconnect.Finally(k, Reconnect.START, moves))
    requires
      var w := Reconnect.Finally(k, Reconnect.START, moves);
      && k.lastSeq < q && (q <= w.cursor || q <= w.task.end) && Reconnect.OnStream(w.log.subjects, k.key, q)
      && (forall e :: e in w.task.events ==> Reconnect.Encodable(e))
      && Reconnect.FetchedInTime(k, w) && Reconnect.NoneDropped(k, w)
      && Feeds(cfg, k, w, v, readReplay, readLive)
    requires Outbound.Good(cfg, start, v) && !v.lost
    ensures
      || q in OnWire(v, true, readReplay) || q in OnWire(v, false, readLive)
      || q in Waiting(cfg, v, true, readReplay) || q in Waiting(cfg, v, false, readLive)
      || Reconnect.Underway(k, Reconnect.Finally(k, Reconnect.START, moves), q)
    ensures v.q.replay == [] && v.q.live == [] ==>
              || q in OnWire(v, true, readReplay) || q in OnWire(v, false, readLive)
              || Reconnect.Underway(k, Reconnect.Finally(k, Reconnect.START, moves), q)
  {
    Reconnect.NoGapAfterReconnect(sh, k, moves, q);
    WiredOrWaiting(cfg, start, v, true, readReplay);
    WiredOrWaiting(cfg, start, v, false, readLive);
  }

  // ---------------------------------------------------------------------------
  // The confirmation comes last
  // ---------------------------------------------------------------------------

  /** What was on the wire when entry k was written, and that entry, begin what is on it now. */
  lemma {:induction false} WirePrefix(written: seq<Outbound.Entry>, replay: bool, k: nat)
    requires k < |written| && Outbound.FromQueue(written[k].source, replay)
    ensures Outbound.Wire(written[..k], replay) + [written[k].msg] <= Outbound.Wire(written, replay)
    decreases |written|
  {
    var init := written[..|written| - 1];
    if k < |init| {
      WirePrefix(init, replay, k);
      assert init[..k] == written[..k];
    }
  }

  /** A run ending in m that begins a longer one, where m first comes after `head`, contains `head`. */
  lemma FirstAfter<T>(run: seq<T>, m: T, head: seq<T>, tail: seq<T>)
    requires run + [m] <= head + [m] + tail && m !in head
    ensures head <= run
  {
    var whole := head + [m] + tail;
    forall i | 0 <= i < |head| ensures whole[i] == head[i] != m {
    }
    assert whole[|run|] == (run + [m])[|run|];
    forall i | 0 <= i < |run| ensures whole[i] == run[i] {
      assert (run + [m])[i] == run[i];
    }
  }

  /**
   * A replay's confirmation travels behind its messages: when it is written, everything queued for replay
   * ahead of it has been written, whatever happens to the socket later.
   */
  lemma ConfirmAfterReplay(cfg: Outbound.Config, start: nat, v: Outbound.Loop, before: seq<Outbound.Payload>,
                           confirm: Outbound.Payload, after: seq<Outbound.Payload>, k: nat,
                           read: Outbound.WsMsg -> Option<nat>)
    requires Outbound.Good(cfg, start, v) && v.q.replayAll == before + [confirm] + after
    requires k < |v.written| && v.written[k].source.FromReplay?
    requires Outbound.Rendering(confirm, cfg.isBinary) == [v.written[k].msg]
    requires v.written[k].msg !in Outbound.Rendered(before, cfg.isBinary)
    ensures Outbound.Rendered(before, cfg.isBinary) <= Outbound.Wire(v.written[..k], true)
    ensures CatchUp.Numbers(Outbound.Rendered(before, cfg.isBinary), read) <=
            CatchUp.Numbers(Outbound.Wire(v.written[..k], true), read)
  {
    var m, head := v.written[k].msg, Outbound.Rendered(before, cfg.isBinary);
    var tail := Outbound.Rendered(after, cfg.isBinary);
    WirePrefix(v.written, true, k);
    CatchUp.RenderedConcat(v.replayTaken, v.q.replay, cfg.isBinary);
    CatchUp.RenderedConcat(before + [confirm], after, cfg.isBinary);
    Outbound.RenderedAppend(before, confirm, cfg.isBinary);
    FirstAfter(Outbound.Wire(v.written[..k], true), m, head, tail);
    CatchUp.NumbersPrefix(head, Outbound.Wire(v.written[..k], true), read);
  }
}
