/**
 * Per-IP connection slots: `ConnectionLimiter` as a class, and every interleaving of the
 * connections that share it, with the two steps of `release` apart.
 */
module IpLimiter {
  import opened Lists

  type Ip = string

  function CountFor(counts: map<Ip, nat>, ip: Ip): nat {
    if ip in counts then counts[ip] else 0
  }

  /** `saturating_sub(1)`. */
  function Less(n: nat): nat {
    if n == 0 then 0 else n - 1
  }

  /** `remove_if(ip, |v| v == 0)`. */
  function RemoveIfZero(counts: map<Ip, nat>, ip: Ip): map<Ip, nat> {
    if ip in counts && counts[ip] == 0 then counts - {ip} else counts
  }

  /** A whole call some other socket makes. */
  datatype Call = Enter(ip: Ip) | Leave(ip: Ip)

  function CountNext(max: nat, n: nat, call: Call, ip: Ip): nat {
    if call.ip != ip then n else if call.Leave? then Less(n) else if n < max then n + 1 else n
  }

  /** The count of an address after these calls. */
  function CountAfter(max: nat, n: nat, calls: seq<Call>, ip: Ip): nat
    decreases |calls|
  {
    if calls == [] then n else CountAfter(max, CountNext(max, n, calls[0], ip), calls[1..], ip)
  }

  /** Every release of the address's slots among these calls gives back a slot that is counted. */
  predicate Backed(max: nat, n: nat, calls: seq<Call>, ip: Ip)
    decreases |calls|
  {
    calls == [] ||
    ((calls[0] == Leave(ip) ==> n > 0) && Backed(max, CountNext(max, n, calls[0], ip), calls[1..], ip))
  }

  /** While somebody holds a slot the others are served as under a limit lower by one. */
  lemma {:induction false} OneSlotTaken(max: nat, n: nat, calls: seq<Call>, ip: Ip)
    requires n < max && Backed(max - 1, n, calls, ip)
    ensures CountAfter(max, n + 1, calls, ip) == CountAfter(max - 1, n, calls, ip) + 1
    decreases |calls|
  {
    if calls != [] {
      OneSlotTaken(max, CountNext(max - 1, n, calls[0], ip), calls[1..], ip);
    }
  }

  /**
   * What the others' calls leave when one socket of this address held a slot meanwhile: on its own address, what
   * they leave under a limit lower by one.
   */
  ghost predicate LeftToOthers(max: nat, was: map<Ip, nat>, now: map<Ip, nat>, ip: Ip, calls: seq<Call>) {
    && (forall o :: o != ip ==> CountFor(now, o) == CountAfter(max, CountFor(was, o), calls, o))
    && (max > 0 && Backed(max - 1, CountFor(was, ip), calls, ip) ==>
          CountFor(now, ip) == CountAfter(max - 1, CountFor(was, ip), calls, ip))
  }

  /** A slot is taken, the others come and go, and it is given back. */
  lemma SlotUsed(max: nat, was: map<Ip, nat>, taken: map<Ip, nat>, held: map<Ip, nat>, now: map<Ip, nat>, ip: Ip,
                 calls: seq<Call>)
    requires CountFor(was, ip) < max && taken == was[ip := CountFor(was, ip) + 1]
    requires forall o :: CountFor(held, o) == CountAfter(max, CountFor(taken, o), calls, o)
    requires CountFor(now, ip) == Less(CountFor(held, ip))
    requires forall o :: o != ip ==> CountFor(now, o) == CountFor(held, o)
    ensures LeftToOthers(max, was, now, ip, calls)
  {
    if Backed(max - 1, CountFor(was, ip), calls, ip) {
      OneSlotTaken(max, CountFor(was, ip), calls, ip);
    }
  }

  class ConnectionLimiter {
    const maxPerIp: nat
    var counts: map<Ip, nat>

    constructor (max: nat)
      ensures maxPerIp == max && counts == map[]
    {
      maxPerIp := max;
      counts := map[];
    }

    method TryAcquire(ip: Ip) returns (ok: bool)
      modifies this
      ensures ok <==> CountFor(old(counts), ip) < maxPerIp
      ensures counts == old(counts)[ip := CountFor(old(counts), ip) + if ok then 1 else 0]
    {
      if ip !in counts {
        counts := counts[ip := 0];
      }
      if counts[ip] >= maxPerIp {
        return false;
      }
      counts := counts[ip := counts[ip] + 1];
      return true;
    }

    /** Also safe without an acquire: the count stops at zero and no zero entry is left for the address. */
    method Release(ip: Ip)
      modifies this
      ensures CountFor(counts, ip) == Less(CountFor(old(counts), ip))
      ensures forall o :: o != ip ==>
                (o in counts <==> o in old(counts)) && CountFor(counts, o) == CountFor(old(counts), o)
      ensures ip in counts ==> counts[ip] > 0
    {
      var shouldRemove := false;
      if ip in counts {
        counts := counts[ip := Less(counts[ip])];
        shouldRemove := counts[ip] == 0;
      }
      if shouldRemove {
        counts := RemoveIfZero(counts, ip);
      }
    }

    /** Other sockets come and go. */
    method Serve(calls: seq<Call>)
      modifies this
      ensures forall o :: CountFor(counts, o) == CountAfter(maxPerIp, CountFor(old(counts), o), calls, o)
    {
      for i := 0 to |calls|
        invariant forall o :: CountAfter(maxPerIp, CountFor(counts, o), calls[i..], o) ==
                              CountAfter(maxPerIp, CountFor(old(counts), o), calls, o)
      {
        assert calls[i..][1..] == calls[i + 1..];
        match calls[i] {
          case Enter(ip) => var _ := TryAcquire(ip);
          case Leave(ip) => Release(ip);
        }
      }
    }
  }

  // ---------------------------------------------------------------------------
  // Interleaved connections
  // ---------------------------------------------------------------------------

  /** Where a connection's task stands. */
  datatype Pc =
    | Arrived
    | Refused              // over the limit: closed with 1008, nothing to release
    | Held                 // owns a slot: authenticating or serving
    | Releasing            // some path has called release; the subtraction is next
    | Cleaning             // saw zero; remove_if is next
    | Gone

  datatype Conn = Conn(ip: Ip, pc: Pc)

  datatype State = State(counts: map<Ip, nat>, conns: map<int, Conn>, nextId: int)

  datatype Step =
    | Accept(ip: Ip)
    | Acquire(h: int)
    | Finish(h: int)       // missing token, failed verification, or the end of the inbound loop
    | Subtract(h: int)
    | Reap(h: int)

  const INIT := State(map[], map[], 0)

  predicate At(st: State, h: int, pc: Pc) {
    h in st.conns && st.conns[h].pc == pc
  }

  predicate Enabled(st: State, step: Step) {
    match step
    case Accept(_) => true
    case Acquire(h) => At(st, h, Arrived)
    case Finish(h) => At(st, h, Held)
    case Subtract(h) => At(st, h, Releasing)
    case Reap(h) => At(st, h, Cleaning)
  }

  function Move(st: State, h: int, pc: Pc): State {
    if h in st.conns then st.(conns := st.conns[h := st.conns[h].(pc := pc)]) else st
  }

  function Apply(max: nat, st: State, step: Step): State {
    match step
    case Accept(ip) => st.(conns := st.conns[st.nextId := Conn(ip, Arrived)], nextId := st.nextId + 1)
    case Acquire(h) =>
      if h !in st.conns then st
      else
        var ip := st.conns[h].ip;
        if CountFor(st.counts, ip) >= max
        then Move(st, h, Refused).(counts := st.counts[ip := CountFor(st.counts, ip)])
        else Move(st, h, Held).(counts := st.counts[ip := CountFor(st.counts, ip) + 1])
    case Finish(h) => Move(st, h, Releasing)
    case Subtract(h) =>
      if h !in st.conns then st
      else
        var ip := st.conns[h].ip;
        if ip !in st.counts then Move(st, h, Gone)
        else
          Move(st, h, if Less(st.counts[ip]) == 0 then Cleaning else Gone)
            .(counts := st.counts[ip := Less(st.counts[ip])])
    case Reap(h) =>
      if h !in st.conns then st
      else Move(st, h, Gone).(counts := RemoveIfZero(st.counts, st.conns[h].ip))
  }

  ghost predicate ValidRun(max: nat, st: State, run: seq<Step>)
    decreases |run|
  {
    run == [] || (Enabled(st, run[0]) && ValidRun(max, Apply(max, st, run[0]), run[1..]))
  }

  function Execute(max: nat, st: State, run: seq<Step>): State
    decreases |run|
  {
    if run == [] then st else Execute(max, Apply(max, st, run[0]), run[1..])
  }

  /** Connections that own one of the address's slots. */
  ghost function Holders(st: State, ip: Ip): set<int> {
    set h | h in st.conns && st.conns[h].ip == ip && (st.conns[h].pc.Held? || st.conns[h].pc.Releasing?)
  }

  ghost predicate SomeCleaner(st: State, ip: Ip) {
    exists h :: h in st.conns && st.conns[h] == Conn(ip, Cleaning)
  }

  ghost predicate Inv(max: nat, st: State) {
    && (forall h :: h in st.conns ==> h < st.nextId)
    && (forall ip :: CountFor(st.counts, ip) == |Holders(st, ip)| && |Holders(st, ip)| <= max)
    && (forall ip :: max > 0 && ip in st.counts && st.counts[ip] == 0 ==> SomeCleaner(st, ip))
  }

  lemma InitInv(max: nat)
    ensures Inv(max, INIT)
  {
    assert forall ip :: Holders(INIT, ip) == {};
  }

  /** A step of h changes at most whether h holds a slot of its own address. */
  lemma HoldersStep(max: nat, st: State, step: Step, h: int, ip: Ip)
    requires Inv(max, st) && Enabled(st, step) && !step.Accept? && step.h == h
    ensures
      var next := Apply(max, st, step);
      && Holders(next, ip) - {h} == Holders(st, ip) - {h}
      && (h in Holders(st, ip) <==> st.conns[h].ip == ip && (step.Finish? || step.Subtract?))
      && (h in Holders(next, ip) <==>
            st.conns[h].ip == ip && (step.Finish? || (step.Acquire? && CountFor(st.counts, ip) < max)))
  {
  }

  lemma StepCounts(max: nat, st: State, step: Step, ip: Ip)
    requires Inv(max, st) && Enabled(st, step)
    ensures
      var next := Apply(max, st, step);
      CountFor(next.counts, ip) == |Holders(next, ip)| && |Holders(next, ip)| <= max
  {
    var next := Apply(max, st, step);
    if step.Accept? {
      assert Holders(next, ip) == Holders(st, ip);
    } else {
      HoldersStep(max, st, step, step.h, ip);
      CardToggle(Holders(st, ip), Holders(next, ip), step.h);
    }
  }

  lemma StepCleaner(max: nat, st: State, step: Step, ip: Ip)
    requires Inv(max, st) && Enabled(st, step)
    requires
      var next := Apply(max, st, step);
      max > 0 && ip in next.counts && next.counts[ip] == 0
    ensures SomeCleaner(Apply(max, st, step), ip)
  {
    var next := Apply(max, st, step);
    if step.Subtract? && st.conns[step.h].ip == ip {
      assert next.conns[step.h] == Conn(ip, Cleaning);
    } else {
      assert ip in st.counts && st.counts[ip] == 0;
      var h :| h in st.conns && st.conns[h] == Conn(ip, Cleaning);
      assert next.conns[h] == Conn(ip, Cleaning);
    }
  }

  lemma {:induction false} RunKeepsInv(max: nat, st: State, run: seq<Step>)
    requires Inv(max, st) && ValidRun(max, st, run)
    ensures Inv(max, Execute(max, st, run))
    decreases |run|
  {
    if run != [] {
      var next := Apply(max, st, run[0]);
      forall ip {
        StepCounts(max, st, run[0], ip);
      }
      forall ip | max > 0 && ip in next.counts && next.counts[ip] == 0
        ensures SomeCleaner(next, ip)
      {
        StepCleaner(max, st, run[0], ip);
      }
      RunKeepsInv(max, next, run[1..]);
    }
  }

  /** The count of an address is the number of connections that own its slots, never above the limit. */
  lemma SlotsConserved(max: nat, run: seq<Step>, ip: Ip)
    requires ValidRun(max, INIT, run)
    ensures
      var st := Execute(max, INIT, run);
      CountFor(st.counts, ip) == |Holders(st, ip)| && |Holders(st, ip)| <= max
  {
    InitInv(max);
    RunKeepsInv(max, INIT, run);
  }

  /** The saturating subtraction never saturates: a release always finds its own slot counted. */
  lemma NeverSaturates(max: nat, run: seq<Step>, h: int)
    requires ValidRun(max, INIT, run) && At(Execute(max, INIT, run), h, Releasing)
    ensures CountFor(Execute(max, INIT, run).counts, Execute(max, INIT, run).conns[h].ip) > 0
  {
    InitInv(max);
    RunKeepsInv(max, INIT, run);
    var st := Execute(max, INIT, run);
    assert h in Holders(st, st.conns[h].ip);
  }

  /** An arrival gets a slot just below the limit, and no other address is concerned. */
  lemma ArrivalDecided(max: nat, st: State, h: int)
    requires At(st, h, Arrived)
    ensures
      var ip, next := st.conns[h].ip, Apply(max, st, Acquire(h));
      && Enabled(st, Acquire(h))
      && (if CountFor(st.counts, ip) < max
          then At(next, h, Held) && CountFor(next.counts, ip) == CountFor(st.counts, ip) + 1
          else At(next, h, Refused) && CountFor(next.counts, ip) == CountFor(st.counts, ip))
      && (forall o :: o != ip ==> CountFor(next.counts, o) == CountFor(st.counts, o))
  {
  }

  /** The release of h, on its own. */
  function ReleaseRun(max: nat, st: State, h: int): seq<Step> {
    if At(Execute(max, st, [Finish(h), Subtract(h)]), h, Cleaning)
    then [Finish(h), Subtract(h), Reap(h)] else [Finish(h), Subtract(h)]
  }

  /** Whoever holds a slot can always give it back: one less for the address, and no zero entry is left. */
  lemma SlotGivenBack(max: nat, st: State, h: int)
    requires Inv(max, st) && At(st, h, Held)
    ensures
      var ip, end := st.conns[h].ip, Execute(max, st, ReleaseRun(max, st, h));
      && ValidRun(max, st, ReleaseRun(max, st, h)) && At(end, h, Gone)
      && CountFor(end.counts, ip) == CountFor(st.counts, ip) - 1
      && (ip in end.counts ==> end.counts[ip] > 0)
      && (forall o :: o != ip ==> CountFor(end.counts, o) == CountFor(st.counts, o))
  {
    assert h in Holders(st, st.conns[h].ip);
    var one := Apply(max, st, Finish(h));
    var two := Apply(max, one, Subtract(h));
    assert [Finish(h), Subtract(h)][1..] == [Subtract(h)] && [Subtract(h)][1..] == [];
    assert Execute(max, one, [Subtract(h)]) == two;
    assert Execute(max, st, [Finish(h), Subtract(h)]) == two;
    if At(two, h, Cleaning) {
      assert [Finish(h), Subtract(h), Reap(h)][1..] == [Subtract(h), Reap(h)];
      assert [Subtract(h), Reap(h)][1..] == [Reap(h)] && [Reap(h)][1..] == [];
      assert ValidRun(max, two, [Reap(h)]) && ValidRun(max, one, [Subtract(h), Reap(h)]);
      assert Execute(max, two, [Reap(h)]) == Apply(max, two, Reap(h));
      assert Execute(max, one, [Subtract(h), Reap(h)]) == Apply(max, two, Reap(h));
    } else {
      assert ValidRun(max, one, [Subtract(h)]);
    }
  }

  /** Every zero entry waits for a `remove_if` that is on its way. */
  ghost predicate NoStrayZero(st: State) {
    forall ip :: ip in st.counts && st.counts[ip] == 0 ==> SomeCleaner(st, ip)
  }

  /** Zero entries are always about to be removed exactly when the limit is not zero. */
  lemma ZeroEntriesAreTransient(max: nat)
    ensures (forall run :: ValidRun(max, INIT, run) ==> NoStrayZero(Execute(max, INIT, run))) <==> max > 0
  {
    if max > 0 {
      forall run | ValidRun(max, INIT, run)
        ensures NoStrayZero(Execute(max, INIT, run))
      {
        InitInv(max);
        RunKeepsInv(max, INIT, run);
      }
    } else {
      ZeroLimitLeaks();
    }
  }

  /** With a limit of zero the first refused address keeps a zero entry for ever. */
  lemma ZeroLimitLeaks()
    ensures exists run :: ValidRun(0, INIT, run) && !NoStrayZero(Execute(0, INIT, run))
  {
    var run := [Accept("a"), Acquire(0)];
    var one := Apply(0, INIT, run[0]);
    var two := Apply(0, one, run[1]);
    assert run[1..] == [Acquire(0)] && run[1..][1..] == [];
    assert ValidRun(0, two, []) && ValidRun(0, one, [Acquire(0)]);
    assert Execute(0, one, [Acquire(0)]) == two;
    assert ValidRun(0, INIT, run) && Execute(0, INIT, run) == two;
    assert two.counts["a"] == 0 && two.conns == map[0 := Conn("a", Refused)];
    assert !SomeCleaner(two, "a");
    assert !NoStrayZero(two);
  }
}
