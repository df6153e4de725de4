/**
 * The registry as one caller at a time sees it: a class over the three maps and the
 * two counters, proved to be a plain set of (connection, stream) pairs.
 */
module Registry {
  import opened Lists
  import opened RegistryModel

  type Bytes = seq<int>

  /** The live queue of a connection and its one-slot eviction channel, seen from the sending side. */
  datatype Channel = Channel(queue: seq<Bytes>, capacity: nat, open: bool, evictSignals: nat)

  /** Would `try_send` succeed? */
  predicate Accepts(ch: Channel) {
    ch.open && |ch.queue| < ch.capacity
  }

  /** A failed `try_send` and the best-effort eviction signal that follows it. */
  function Signalled(ch: Channel): Channel {
    if ch.open && ch.evictSignals < 1 then ch.(evictSignals := ch.evictSignals + 1) else ch
  }

  /** What one fan-out attempt does to a queue. */
  function Offered(ch: Channel, payload: Bytes): Channel {
    if Accepts(ch) then ch.(queue := ch.queue + [payload]) else Signalled(ch)
  }

  /**
   * One fan-out attempt, in terms of the channel alone: a payload that fits an open queue is appended; any
   * other is not queued, and an open channel then has its one eviction signal pending.
   */
  predicate Attempted(was: Channel, now: Channel, payload: Bytes) {
    if was.open && |was.queue| < was.capacity
    then now.queue == was.queue + [payload] && now.evictSignals == was.evictSignals &&
         now.capacity == was.capacity && now.open
    else now.queue == was.queue && now.capacity == was.capacity && now.open == was.open &&
         now.evictSignals == (if was.open then 1 else was.evictSignals)
  }

  lemma OfferedMeans(ch: Channel, payload: Bytes)
    requires ch.evictSignals <= 1
    ensures Attempted(ch, Offered(ch, payload), payload) && Offered(ch, payload).evictSignals <= 1
  {
  }

  predicate Listed(streams: map<Stream, seq<ConnId>>, c: ConnId, s: Stream) {
    s in streams && c in streams[s]
  }

  /** Every pair of one connection. */
  ghost function AllOf(c: ConnId): iset<(ConnId, Stream)> {
    iset p: (ConnId, Stream) | p.0 == c
  }

  class Registry {
    var connections: map<ConnId, bool>            // id to "uses the binary codec"
    var streams: map<Stream, seq<ConnId>>
    var connStreams: map<ConnId, seq<Stream>>
    var channels: map<ConnId, Channel>            // one per id ever registered
    var nextId: ConnId
    var active: int

    // -------------------------------------------------------------------------
    // Abstract value and representation invariant
    // -------------------------------------------------------------------------

    /** The relation the registry stands for. */
    ghost function Relation(): iset<(ConnId, Stream)>
      reads this
    {
      iset p: (ConnId, Stream) | Listed(streams, p.0, p.1)
    }

    function Subscribers(s: Stream): seq<ConnId>
      reads this
    {
      if s in streams then streams[s] else []
    }

    ghost predicate Lists()
      reads this
    {
      && (forall s :: s in streams ==> streams[s] != [] && NoDup(streams[s]))
      && (forall c :: c in connStreams ==> NoDup(connStreams[c]))
    }

    ghost predicate Table()
      reads this
    {
      && (forall c :: c in connections <==> c in connStreams)
      && active == |connections|
      && (forall c :: c in connections ==> c < nextId && c in channels)
    }

    /** The eviction channel holds one signal. */
    ghost predicate Slots()
      reads this
    {
      forall c :: c in channels ==> channels[c].evictSignals <= 1
    }

    ghost predicate Valid()
      reads this
    {
      && Lists() && Table() && Slots()
      && (forall c, s :: Listed(streams, c, s) <==> c in connStreams && s in connStreams[c])
    }

    constructor ()
      ensures Valid()
      ensures Relation() == iset{} && connections == map[] && active == 0 && nextId == 1
    {
      connections, streams, connStreams, channels := map[], map[], map[], map[];
      nextId, active := 1, 0;
    }

    method AllocateId() returns (c: ConnId)
      requires Valid()
      modifies this
      ensures Valid() && c == old(nextId) && nextId == old(nextId) + 1 && c !in connections
      ensures Relation() == old(Relation()) && connections == old(connections) && channels == old(channels)
    {
      c := nextId;
      nextId := nextId + 1;
    }

    /** The id comes from `AllocateId` and is registered once. */
    method Register(c: ConnId, isBinary: bool, capacity: nat)
      requires Valid() && c < nextId && c !in connections
      modifies this
      ensures Valid()
      ensures connections == old(connections)[c := isBinary] && active == old(active) + 1
      ensures channels == old(channels)[c := Channel([], capacity, true, 0)]
      ensures Relation() == old(Relation()) && nextId == old(nextId)
    {
      connections := connections[c := isBinary];
      channels := channels[c := Channel([], capacity, true, 0)];
      connStreams := connStreams[c := []];
      active := active + 1;
    }

    /** `remove_subscriber_from_stream`: no entry is left empty. */
    method RemoveSubscriberFromStream(s: Stream, c: ConnId)
      requires Lists()
      modifies this`streams
      ensures Lists()
      ensures forall o, z :: Listed(streams, o, z) <==> Listed(old(streams), o, z) && !(o == c && z == s)
    {
      var shouldRemove := false;
      if s in streams {
        streams := streams[s := Without(streams[s], c)];
        shouldRemove := streams[s] == [];
      }
      if shouldRemove {
        streams := streams - {s};
      }
    }

    /** Cleans up after a reverse entry that was just taken out. */
    method RemoveFromAll(list: seq<Stream>, c: ConnId)
      requires Lists()
      modifies this`streams
      ensures Lists()
      ensures forall o, s :: Listed(streams, o, s) <==> Listed(old(streams), o, s) && !(o == c && s in list)
    {
      for i := 0 to |list|
        invariant Lists()
        invariant forall o, s :: Listed(streams, o, s) <==> Listed(old(streams), o, s) && !(o == c && s in list[..i])
      {
        RemoveSubscriberFromStream(list[i], c);
        assert list[..i + 1] == list[..i] + [list[i]];
      }
      assert list[..|list|] == list;
    }

    /** The index part of `deregister`: the reverse entry goes first, then every list it names. */
    method RemoveFromIndex(c: ConnId)
      requires Valid()
      modifies this`streams, this`connStreams
      ensures Lists() && connStreams == old(connStreams) - {c}
      ensures forall o, s :: Listed(streams, o, s) <==> Listed(old(streams), o, s) && o != c
    {
      if c in connStreams {
        var list := connStreams[c];
        connStreams := connStreams - {c};
        RemoveFromAll(list, c);
      } else {
        assert connStreams - {c} == connStreams;
      }
    }

    /** Idempotent: the connection loses every pair, and is counted out once. */
    method Deregister(c: ConnId)
      requires Valid()
      modifies this`connections, this`streams, this`connStreams, this`active
      ensures Valid()
      ensures connections == old(connections) - {c}
      ensures active == old(active) - (if c in old(connections) then 1 else 0)
      ensures Relation() == old(Relation()) - AllOf(c)
    {
      RemoveFromIndex(c);
      assert c !in connections ==> connections - {c} == connections;
      if c in connections {
        assert connections.Keys == (connections - {c}).Keys + {c};
        connections := connections - {c};
        active := active - 1;
      }
    }

    /** Idempotent; an unknown connection is ignored. */
    method Subscribe(c: ConnId, s: Stream)
      requires Valid()
      modifies this`streams, this`connStreams
      ensures Valid()
      ensures Relation() == old(Relation()) + (if c in connections then iset{(c, s)} else iset{})
    {
      if c in connStreams {
        if s in connStreams[c] {
          return;
        }
        assert !Listed(streams, c, s);
        NoDupAppend(Subscribers(s), c);
        NoDupAppend(connStreams[c], s);
        streams := streams[s := Subscribers(s) + [c]];
        assert forall o, z :: Listed(streams, o, z) <==> Listed(old(streams), o, z) || (o == c && z == s);
        connStreams := connStreams[c := connStreams[c] + [s]];
      }
    }

    method Unsubscribe(c: ConnId, s: Stream)
      requires Valid()
      modifies this`streams, this`connStreams
      ensures Valid()
      ensures Relation() == old(Relation()) - iset{(c, s)}
    {
      RemoveSubscriberFromStream(s, c);
      if c in connStreams {
        connStreams := connStreams[c := Without(connStreams[c], s)];
      }
    }

    /**
     * One attempt per subscriber, with the payload of its own codec; whoever cannot take it is
     * signalled, reported once and loses every subscription.
     */
    method FanoutEncoded(s: Stream, json: Bytes, binary: Bytes)
      returns (sent: nat, dropped: nat, evicted: seq<ConnId>)
      requires Valid()
      modifies this`connections, this`streams, this`connStreams, this`active, this`channels
      ensures Valid()
      ensures NoDup(evicted) && dropped == |evicted| && sent + dropped == |old(Subscribers(s))|
      ensures forall c :: c in evicted <==>
                Listed(old(streams), c, s) &&
                !(old(channels)[c].open && |old(channels)[c].queue| < old(channels)[c].capacity)
      ensures channels.Keys == old(channels).Keys
      ensures forall c :: Listed(old(streams), c, s) && c !in evicted ==>
                channels[c] ==
                old(channels)[c].(queue := old(channels)[c].queue + [if old(connections)[c] then binary else json])
      ensures forall c :: c in evicted ==>
                channels[c] ==
                if old(channels)[c].open then old(channels)[c].(evictSignals := 1) else old(channels)[c]
      ensures forall c :: c in channels && !Listed(old(streams), c, s) ==> channels[c] == old(channels)[c]
      ensures Relation() == old(Relation()) - (iset p: (ConnId, Stream) | p.0 in evicted)
      ensures forall c :: c in connections <==> c in old(connections) && c !in evicted
      ensures forall c :: c in connections ==> connections[c] == old(connections)[c]
      ensures active == old(active) - dropped
    {
      var ids := Subscribers(s);
      assert forall c :: c in ids <==> Listed(streams, c, s);
      sent, evicted := OfferAll(ids, json, binary);
      DeregisterAll(evicted);
      dropped := |evicted|;
    }

    /** The first loop of the fan-out, under the stream's guard. */
    method OfferAll(ids: seq<ConnId>, json: Bytes, binary: Bytes) returns (sent: nat, evicted: seq<ConnId>)
      requires Slots() && NoDup(ids) && (forall c :: c in ids ==> c in connections && c in channels)
      modifies this`channels
      ensures Slots() && sent + |evicted| == |ids| && NoDup(evicted)
      ensures forall c :: c in evicted <==>
                c in ids && !(old(channels)[c].open && |old(channels)[c].queue| < old(channels)[c].capacity)
      ensures channels.Keys == old(channels).Keys
      ensures forall c :: c in ids ==>
                Attempted(old(channels)[c], channels[c], if connections[c] then binary else json)
      ensures forall c :: c in channels && c !in ids ==> channels[c] == old(channels)[c]
    {
      sent, evicted := 0, [];
      for i := 0 to |ids|
        invariant sent + |evicted| == i
        invariant NoDup(evicted)
        invariant forall c :: c in evicted <==> c in ids[..i] && !Accepts(old(channels)[c])
        invariant channels.Keys == old(channels).Keys
        invariant forall c :: c in channels ==>
                    channels[c] ==
                    if c in ids[..i]
                    then Offered(old(channels)[c], if connections[c] then binary else json)
                    else old(channels)[c]
      {
        var c := ids[i];
        assert c in ids && c !in ids[..i];
        assert ids[..i + 1] == ids[..i] + [c];
        if c in connections {
          var payload := if connections[c] then binary else json;
          if Accepts(channels[c]) {
            channels := channels[c := channels[c].(queue := channels[c].queue + [payload])];
            sent := sent + 1;
          } else {
            channels := channels[c := Signalled(channels[c])];
            NoDupAppend(evicted, c);
            evicted := evicted + [c];
          }
        }
      }
      assert ids[..|ids|] == ids;
      forall c | c in ids
        ensures Attempted(old(channels)[c], channels[c], if connections[c] then binary else json)
        ensures channels[c].evictSignals <= 1
      {
        OfferedMeans(old(channels)[c], if connections[c] then binary else json);
      }
    }

    /** The second loop of the fan-out, after its guards are released. */
    method DeregisterAll(evicted: seq<ConnId>)
      requires Valid() && NoDup(evicted) && (forall c :: c in evicted ==> c in connections)
      modifies this`connections, this`streams, this`connStreams, this`active
      ensures Valid()
      ensures Relation() == old(Relation()) - (iset p: (ConnId, Stream) | p.0 in evicted)
      ensures forall c :: c in connections <==> c in old(connections) && c !in evicted
      ensures forall c :: c in connections ==> connections[c] == old(connections)[c]
      ensures active == old(active) - |evicted|
    {
      for i := 0 to |evicted|
        invariant Valid()
        invariant forall p :: p in Relation() <==> p in old(Relation()) && p.0 !in evicted[..i]
        invariant forall c :: c in connections <==> c in old(connections) && c !in evicted[..i]
        invariant forall c :: c in connections ==> connections[c] == old(connections)[c]
        invariant active == old(active) - i
      {
        assert evicted[i] !in evicted[..i];
        assert evicted[..i + 1] == evicted[..i] + [evicted[i]];
        Deregister(evicted[i]);
      }
      assert evicted[..|evicted|] == evicted;
    }
  }
}
