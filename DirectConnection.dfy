/**
 * The direct connection: a fixed set of registered ports, each with its own
 * bounded end buffer on the sending side. `Send` validates the wiring,
 * applies backpressure when the sender's end is full, buffers the message
 * and asks the engine for one secondary tick at the send time. `Handle`
 * runs when such a tick fires: in registration order, each non-empty end
 * offers its head to the destination's `Recv`; an accepted head is stamped
 * with the receive time and popped, and a sender whose end was marked busy
 * is told that room is available again. The tick that fired is no longer
 * pending; a tick that delivered anything, or after which a message is
 * still buffered, asks for another tick one cycle later.
 *
 * The pure functions (SendStep, HandleStep and their parts) are the
 * specification; the class Connection is the stateful object, whose methods
 * are proved to follow them.
 */
module DirectConnection {
  import opened Sim

  /**
   * The delivery state of one registered port: the buffer of messages it has
   * sent that are not delivered yet, whether a sender is waiting to be told
   * that room is available, and the buffer's capacity.
   */
  datatype End = End(port: PortId, buf: seq<Msg>, busy: bool, cap: nat)

  /** Wiring mistakes, which abort the simulation. */
  datatype WiringError = NilSource | UnpluggedSource | SendToSelf | NilDestination

  datatype SendResult = Sent | BufferFull | Panic(reason: WiringError)

  /** A NotifyAvailable(time) call made on a port. */
  datatype Notice = Notice(port: PortId, time: nat)

  /** The value held by a connection: its ends in registration order and the times of its pending ticks. */
  datatype Conn = Conn(ends: seq<End>, pending: set<nat>)

  ghost predicate DistinctPorts(ends: seq<End>)
  {
    forall i, j :: 0 <= i < j < |ends| ==> ends[i].port != ends[j].port
  }

  /** The connection's invariant: one end per registered port and no end over capacity. */
  ghost predicate WellFormed(c: Conn)
  {
    DistinctPorts(c.ends) && forall i :: 0 <= i < |c.ends| ==> |c.ends[i].buf| <= c.ends[i].cap
  }

  /** Where `p`'s end is, if `p` is registered. */
  function Find(ends: seq<End>, p: PortId): (r: Option<nat>)
    ensures r.Some? ==> r.value < |ends| && ends[r.value].port == p
    ensures r.None? ==> forall j :: 0 <= j < |ends| ==> ends[j].port != p
  {
    if ends == [] then None
    else if ends[0].port == p then Some(0)
    else match Find(ends[1..], p)
      case None => None
      case Some(j) => Some(j + 1)
  }

  /** With distinct ports, the registered end of `p` is the only one `Find` can report. */
  lemma FindUnique(ends: seq<End>, i: nat)
    requires DistinctPorts(ends) && i < |ends|
    ensures Find(ends, ends[i].port) == Some(i)
  {
  }

  /** Messages held in all ends. */
  function Buffered(ends: seq<End>): nat
  {
    if ends == [] then 0 else |ends[0].buf| + Buffered(ends[1..])
  }

  // ---------------------------------------------------------------------
  // Scheduling

  datatype Scheduled = Scheduled(pending: set<nat>, events: seq<TickEvent>)

  /** Ask the engine for a secondary tick at `t`, unless a tick at `t` is already pending. */
  function ScheduleTick(pending: set<nat>, t: nat): (r: Scheduled)
    ensures r.pending == pending + {t}
    ensures r.events == [] || r.events == [TickEvent(t, true)]
    ensures r.events == [] <==> t in pending
  {
    if t in pending then Scheduled(pending, []) else Scheduled(pending + {t}, [TickEvent(t, true)])
  }

  // ---------------------------------------------------------------------
  // Send

  /** The wiring checks made before anything else, in order. */
  function Check(ends: seq<End>, m: Msg): (r: Option<WiringError>)
    ensures r.None? <==> m.src.Some? && Find(ends, m.src.value).Some? && m.src != m.dst && m.dst.Some?
    ensures r == Some(SendToSelf) ==> m.src.Some? && Find(ends, m.src.value).Some?
    ensures r == Some(NilDestination) ==> m.src.Some? && Find(ends, m.src.value).Some? && m.src != m.dst
  {
    if m.src.None? then Some(NilSource)
    else if Find(ends, m.src.value).None? then Some(UnpluggedSource)
    else if m.src == m.dst then Some(SendToSelf)
    else if m.dst.None? then Some(NilDestination)
    else None
  }

  datatype SendOutcome = SendOutcome(conn: Conn, result: SendResult, events: seq<TickEvent>)

  function SendStep(c: Conn, m: Msg): (r: SendOutcome)
    ensures r.result.Panic? <==>
              m.src.None? || Find(c.ends, m.src.value).None? || m.src == m.dst || m.dst.None?
    ensures r.result.Panic? ==> r.conn == c && r.events == []
    ensures !r.result.Panic? ==>
              var i := Find(c.ends, m.src.value).value;
              && |r.conn.ends| == |c.ends|
              && (forall j :: 0 <= j < |c.ends| && j != i ==> r.conn.ends[j] == c.ends[j])
              && r.conn.ends[i].port == c.ends[i].port && r.conn.ends[i].cap == c.ends[i].cap
              && (r.result == BufferFull <==> |c.ends[i].buf| >= c.ends[i].cap)
              && (r.result == BufferFull ==>
                    r.conn.ends[i].buf == c.ends[i].buf && r.conn.ends[i].busy
                    && r.conn.pending == c.pending && r.events == [])
              && (r.result == Sent ==>
                    r.conn.ends[i].buf == c.ends[i].buf + [m] && r.conn.ends[i].busy == c.ends[i].busy
                    && r.conn.pending == c.pending + {m.sendTime}
                    && r.events == (if m.sendTime in c.pending then [] else [TickEvent(m.sendTime, true)]))
    ensures WellFormed(c) ==> WellFormed(r.conn)
  {
    match Check(c.ends, m)
    case Some(err) => SendOutcome(c, Panic(err), [])
    case None =>
      var i := Find(c.ends, m.src.value).value;
      var e := c.ends[i];
      if |e.buf| >= e.cap then
        SendOutcome(c.(ends := c.ends[i := e.(busy := true)]), BufferFull, [])
      else
        var s := ScheduleTick(c.pending, m.sendTime);
        SendOutcome(Conn(c.ends[i := e.(buf := e.buf + [m])], s.pending), Sent, s.events)
  }

  datatype Batch = Batch(conn: Conn, results: seq<SendResult>, events: seq<TickEvent>)

  /** Several sends, one after the other. */
  function SendAll(c: Conn, ms: seq<Msg>): (b: Batch)
    ensures |b.results| == |ms| && |b.conn.ends| == |c.ends|
    ensures forall j :: 0 <= j < |c.ends| ==> b.conn.ends[j].port == c.ends[j].port
    ensures WellFormed(c) ==> WellFormed(b.conn)
    decreases |ms|
  {
    if ms == [] then Batch(c, [], [])
    else
      var o := SendStep(c, ms[0]);
      var b := SendAll(o.conn, ms[1..]);
      Batch(b.conn, [o.result] + b.results, o.events + b.events)
  }

  // ---------------------------------------------------------------------
  // Handle

  datatype Forward = Forward(end: End, delivered: seq<Msg>, notices: seq<Notice>, progress: bool)

  /** One end's share of a tick: offer the head to the destination's Recv, which answers `accepted`. */
  function ForwardHead(e: End, accepted: bool, now: nat): (f: Forward)
    ensures f.end.port == e.port && f.end.cap == e.cap
    ensures f.progress <==> e.buf != [] && accepted
    ensures f.progress ==> e.buf == [e.buf[0]] + f.end.buf && f.delivered == [StampRecv(e.buf[0], now)] && !f.end.busy
    ensures !f.progress ==> f.end.buf == e.buf && f.delivered == []
    ensures e.buf != [] && !accepted ==> f.end.busy
    ensures f.notices == (if f.progress && e.busy then [Notice(e.port, now)] else [])
  {
    if e.buf == [] then Forward(e, [], [], false)
    else if accepted then
      Forward(e.(buf := e.buf[1..], busy := false), [StampRecv(e.buf[0], now)],
              if e.busy then [Notice(e.port, now)] else [], true)
    else Forward(e.(busy := true), [], [], false)
  }

  datatype Round = Round(ends: seq<End>, delivered: seq<Msg>, notices: seq<Notice>, progress: bool)

  /**
   * The first `k` ends of a tick, in registration order. `accepts(j)` is what
   * the destination's Recv answers for the head of the `j`-th end.
   */
  function RoundUpTo(ends: seq<End>, accepts: nat -> bool, now: nat, k: nat): (r: Round)
    requires k <= |ends|
    ensures |r.ends| == |ends|
    decreases k
  {
    if k == 0 then Round(ends, [], [], false)
    else
      var r := RoundUpTo(ends, accepts, now, k - 1);
      var f := ForwardHead(r.ends[k - 1], accepts(k - 1), now);
      Round(r.ends[k - 1 := f.end], r.delivered + f.delivered, r.notices + f.notices, r.progress || f.progress)
  }

  datatype HandleOutcome = HandleOutcome(conn: Conn, round: Round, events: seq<TickEvent>)

  /** Some end still holds a message. */
  predicate Pending(ends: seq<End>)
  {
    exists j :: 0 <= j < |ends| && ends[j].buf != []
  }

  /**
   * A tick of the connection at `now`; the next cycle is `now + 1`. The tick
   * at `now` stops being pending. A tick that delivered something, or after
   * which a message is still buffered, asks for the next one.
   */
  function HandleStep(c: Conn, now: nat, accepts: nat -> bool): (h: HandleOutcome)
    ensures |h.conn.ends| == |c.ends|
    ensures now !in h.conn.pending
    ensures h.conn.pending == c.pending - {now} || h.conn.pending == c.pending - {now} + {now + 1}
    ensures h.events == [] || h.events == [TickEvent(now + 1, true)]
    ensures h.events != [] ==> now + 1 !in c.pending && now + 1 in h.conn.pending
  {
    var r := RoundUpTo(c.ends, accepts, now, |c.ends|);
    var rest := c.pending - {now};
    var s := if r.progress || Pending(r.ends) then ScheduleTick(rest, now + 1) else Scheduled(rest, []);
    HandleOutcome(Conn(r.ends, s.pending), r, s.events)
  }

  // ---------------------------------------------------------------------
  // The connection object

  class Connection {
    var ends: seq<End>
    var pending: set<nat>
    /** Every Schedule call made on the engine. */
    ghost var events: seq<TickEvent>
    /** Every NotifyAvailable call made on a port. */
    ghost var notices: seq<Notice>
    /** Every message a destination's Recv accepted. */
    ghost var delivered: seq<Msg>

    function State(): Conn
      reads this
    {
      Conn(ends, pending)
    }

    ghost predicate Valid()
      reads this
    {
      WellFormed(State())
    }

    constructor ()
      ensures Valid()
      ensures State() == Conn([], {})
      ensures events == [] && notices == [] && delivered == []
    {
      ends, pending := [], {};
      events, notices, delivered := [], [], [];
    }

    /** Register `port` with an empty end of capacity `cap`; a port cannot be registered twice. */
    method PlugIn(port: PortId, cap: nat) returns (ok: bool)
      requires Valid()
      modifies this
      ensures Valid()
      ensures ok <==> Find(old(ends), port).None?
      ensures ends == if ok then old(ends) + [End(port, [], false, cap)] else old(ends)
      ensures pending == old(pending)
      ensures events == old(events) && notices == old(notices) && delivered == old(delivered)
    {
      ok := Find(ends, port).None?;
      if ok {
        ends := ends + [End(port, [], false, cap)];
      }
    }

    method Send(m: Msg) returns (result: SendResult)
      requires Valid()
      modifies this
      ensures Valid()
      ensures var o := SendStep(old(State()), m);
              State() == o.conn && result == o.result && events == old(events) + o.events
      ensures notices == old(notices) && delivered == old(delivered)
    {
      var err := Check(ends, m);
      if err.Some? {
        return Panic(err.value);
      }
      var i := Find(ends, m.src.value).value;
      var e := ends[i];
      if |e.buf| >= e.cap {
        ends := ends[i := e.(busy := true)];
        return BufferFull;
      }
      ends := ends[i := e.(buf := e.buf + [m])];
      TickAt(m.sendTime);
      result := Sent;
    }

    /** The tick de-duplication: schedule a secondary tick at `t` unless a tick at `t` is pending. */
    method TickAt(t: nat)
      modifies this`pending, this`events
      ensures var s := ScheduleTick(old(pending), t);
              pending == s.pending && events == old(events) + s.events
    {
      if t !in pending {
        pending := pending + {t};
        events := events + [TickEvent(t, true)];
      }
    }

    method Handle(now: nat, accepts: nat -> bool) returns (madeProgress: bool)
      requires Valid()
      modifies this
      ensures Valid()
      ensures var h := HandleStep(old(State()), now, accepts);
              && State() == h.conn && madeProgress == h.round.progress
              && delivered == old(delivered) + h.round.delivered
              && notices == old(notices) + h.round.notices
              && events == old(events) + h.events
    {
      ghost var c := State();
      ghost var h := HandleStep(c, now, accepts);
      pending := pending - {now};
      var es, got, told;
      es, got, told, madeProgress := ForwardAll(ends, accepts, now);
      assert h.round == Round(es, got, told, madeProgress);
      ends := es;
      delivered := delivered + got;
      notices := notices + told;
      if madeProgress || Pending(es) {
        TickAt(now + 1);
      }
      assert State() == h.conn && events == old(events) + h.events;
      HandleKeepsWellFormed(c, now, accepts);
    }
  }

  /**
   * One pass over the ends in registration order, each offering its head to
   * its destination once; `accepts(k)` is the answer of the Recv made for the
   * `k`-th end. Returns the new ends, the accepted messages, the notices sent
   * and whether anything moved.
   */
  method ForwardAll(ends: seq<End>, accepts: nat -> bool, now: nat)
    returns (es: seq<End>, got: seq<Msg>, told: seq<Notice>, madeProgress: bool)
    ensures RoundUpTo(ends, accepts, now, |ends|) == Round(es, got, told, madeProgress)
  {
    var k := 0;
    var r := Round(ends, [], [], false);
    while k < |ends|
      invariant 0 <= k <= |ends|
      invariant RoundUpTo(ends, accepts, now, k) == r
    {
      RoundAdvance(ends, accepts, now, k, r);
      var f := ForwardHead(r.ends[k], accepts(k), now);
      r := Round(r.ends[k := f.end], r.delivered + f.delivered, r.notices + f.notices, r.progress || f.progress);
      k := k + 1;
    }
    es, got, told, madeProgress := r.ends, r.delivered, r.notices, r.progress;
  }

  // ---------------------------------------------------------------------
  // Properties of a tick

  /** Each end is touched only by its own step: ends before `k` are forwarded, the rest untouched. */
  lemma {:induction false} RoundEnds(ends: seq<End>, accepts: nat -> bool, now: nat, k: nat)
    requires k <= |ends|
    ensures var r := RoundUpTo(ends, accepts, now, k);
            && (forall j :: 0 <= j < k ==> r.ends[j] == ForwardHead(ends[j], accepts(j), now).end)
            && (forall j :: k <= j < |ends| ==> r.ends[j] == ends[j])
    decreases k
  {
    if k > 0 {
      RoundEnds(ends, accepts, now, k - 1);
    }
  }

  lemma HandleKeepsWellFormed(c: Conn, now: nat, accepts: nat -> bool)
    requires WellFormed(c)
    ensures WellFormed(HandleStep(c, now, accepts).conn)
  {
    RoundEnds(c.ends, accepts, now, |c.ends|);
  }

  /** The heads a tick hands over, in registration order, judged on the ends as the tick found them. */
  function Heads(ends: seq<End>, accepts: nat -> bool, now: nat, k: nat): seq<Msg>
    requires k <= |ends|
  {
    if k == 0 then []
    else
      var e := ends[k - 1];
      Heads(ends, accepts, now, k - 1) + (if e.buf != [] && accepts(k - 1) then [StampRecv(e.buf[0], now)] else [])
  }

  /** The NotifyAvailable calls a tick makes: one per busy end whose head was accepted. */
  function Notified(ends: seq<End>, accepts: nat -> bool, now: nat, k: nat): seq<Notice>
    requires k <= |ends|
  {
    if k == 0 then []
    else
      var e := ends[k - 1];
      Notified(ends, accepts, now, k - 1) + (if e.buf != [] && accepts(k - 1) && e.busy then [Notice(e.port, now)] else [])
  }

  /**
   * Handling the ends one after another is the same as handling each end on
   * its own against the state the tick started from: the same heads are
   * delivered in registration order, the same ports are notified, and
   * progress is made exactly when some non-empty end's head is accepted.
   */
  lemma RoundIsolated(ends: seq<End>, accepts: nat -> bool, now: nat, k: nat)
    requires k <= |ends|
    ensures var r := RoundUpTo(ends, accepts, now, k);
            && r.delivered == Heads(ends, accepts, now, k)
            && r.notices == Notified(ends, accepts, now, k)
            && (r.progress <==> exists j :: 0 <= j < k && ends[j].buf != [] && accepts(j))
  {
    RoundDelivers(ends, accepts, now, k);
    RoundNotifies(ends, accepts, now, k);
    RoundProgress(ends, accepts, now, k);
  }

  /** The `k`-th end's step of a tick sees that end as the tick found it. */
  lemma RoundStep(ends: seq<End>, accepts: nat -> bool, now: nat, k: nat)
    requires 0 < k <= |ends|
    ensures var r := RoundUpTo(ends, accepts, now, k - 1);
            var f := ForwardHead(ends[k - 1], accepts(k - 1), now);
            RoundUpTo(ends, accepts, now, k) ==
              Round(r.ends[k - 1 := f.end], r.delivered + f.delivered, r.notices + f.notices, r.progress || f.progress)
  {
    RoundUntouched(ends, accepts, now, k - 1, k - 1);
    RoundUnfold(ends, accepts, now, k);
  }

  lemma {:induction false} RoundDelivers(ends: seq<End>, accepts: nat -> bool, now: nat, k: nat)
    requires k <= |ends|
    ensures RoundUpTo(ends, accepts, now, k).delivered == Heads(ends, accepts, now, k)
    decreases k
  {
    if k > 0 {
      RoundDelivers(ends, accepts, now, k - 1);
      RoundStep(ends, accepts, now, k);
    }
  }

  lemma {:induction false} RoundNotifies(ends: seq<End>, accepts: nat -> bool, now: nat, k: nat)
    requires k <= |ends|
    ensures RoundUpTo(ends, accepts, now, k).notices == Notified(ends, accepts, now, k)
    decreases k
  {
    if k > 0 {
      RoundNotifies(ends, accepts, now, k - 1);
      RoundStep(ends, accepts, now, k);
    }
  }

  lemma {:induction false} RoundProgress(ends: seq<End>, accepts: nat -> bool, now: nat, k: nat)
    requires k <= |ends|
    ensures RoundUpTo(ends, accepts, now, k).progress <==> exists j :: 0 <= j < k && ends[j].buf != [] && accepts(j)
    decreases k
  {
    if k > 0 {
      RoundProgress(ends, accepts, now, k - 1);
      RoundStep(ends, accepts, now, k);
      if ends[k - 1].buf != [] && accepts(k - 1) {
        assert exists j :: 0 <= j < k && ends[j].buf != [] && accepts(j) by {
          assert ends[k - 1].buf != [] && accepts(k - 1);
        }
      }
    }
  }

  lemma {:induction false} HeadsStamped(ends: seq<End>, accepts: nat -> bool, now: nat, k: nat)
    requires k <= |ends|
    ensures forall m :: m in Heads(ends, accepts, now, k) ==> m.recvTime == Some(now)
    ensures forall j :: 0 <= j < k && ends[j].buf != [] && accepts(j) ==>
              StampRecv(ends[j].buf[0], now) in Heads(ends, accepts, now, k)
    decreases k
  {
    if k > 0 {
      HeadsStamped(ends, accepts, now, k - 1);
    }
  }

  lemma {:induction false} NotifiedExactly(ends: seq<End>, accepts: nat -> bool, now: nat, k: nat)
    requires k <= |ends| && DistinctPorts(ends)
    ensures forall n :: n in Notified(ends, accepts, now, k) ==> n.time == now
    ensures forall j :: 0 <= j < |ends| ==>
              (Notice(ends[j].port, now) in Notified(ends, accepts, now, k) <==>
               j < k && ends[j].buf != [] && accepts(j) && ends[j].busy)
    decreases k
  {
    if k > 0 {
      NotifiedExactly(ends, accepts, now, k - 1);
    }
  }

  /** Replacing one end changes the buffered count by exactly that end's difference. */
  lemma {:induction false} BufferedUpdate(ends: seq<End>, i: nat, e: End)
    requires i < |ends|
    ensures Buffered(ends[i := e]) + |ends[i].buf| == Buffered(ends) + |e.buf|
    decreases i
  {
    if i > 0 {
      BufferedUpdate(ends[1..], i - 1, e);
      assert ends[i := e][1..] == ends[1..][i - 1 := e];
    } else {
      assert ends[i := e][1..] == ends[1..];
    }
  }

  /** A tick keeps the number of messages: as many leave the ends as are delivered. */
  lemma {:induction false} RoundConserves(ends: seq<End>, accepts: nat -> bool, now: nat, k: nat)
    requires k <= |ends|
    ensures var r := RoundUpTo(ends, accepts, now, k);
            Buffered(ends) == Buffered(r.ends) + |r.delivered|
    decreases k
  {
    if k > 0 {
      RoundConserves(ends, accepts, now, k - 1);
      var r := RoundUpTo(ends, accepts, now, k - 1);
      var f := ForwardHead(r.ends[k - 1], accepts(k - 1), now);
      BufferedUpdate(r.ends, k - 1, f.end);
    }
  }

  /** The identities of the messages held in all ends, counted with their repetitions. */
  function Held(ends: seq<End>): (r: multiset<string>)
    ensures |r| == Buffered(ends)
  {
    if ends == [] then multiset{} else Ids(ends[0].buf) + Held(ends[1..])
  }

  /** Replacing one end changes the held identities by exactly that end's difference. */
  lemma {:induction false} HeldUpdate(ends: seq<End>, i: nat, e: End)
    requires i < |ends|
    ensures Held(ends[i := e]) + Ids(ends[i].buf) == Held(ends) + Ids(e.buf)
    decreases i
  {
    if i > 0 {
      HeldUpdate(ends[1..], i - 1, e);
      assert ends[i := e][1..] == ends[1..][i - 1 := e];
      assert Held(ends[i := e]) == Ids(ends[0].buf) + Held(ends[1..][i - 1 := e]);
      assert Held(ends) == Ids(ends[0].buf) + Held(ends[1..]);
      AddToBoth(Ids(ends[0].buf), Held(ends[1..][i - 1 := e]), Ids(ends[i].buf), Held(ends[1..]), Ids(e.buf));
    } else {
      assert ends[i := e][1..] == ends[1..];
    }
  }

  /** One end's share of a tick hands over exactly the message it removes, under the same identity. */
  lemma ForwardKeepsIds(e: End, accepted: bool, now: nat)
    ensures var f := ForwardHead(e, accepted, now);
            Ids(e.buf) == Ids(f.end.buf) + Ids(f.delivered)
  {
    var f := ForwardHead(e, accepted, now);
    if f.progress {
      assert e.buf[1..] == f.end.buf;
      assert Ids(f.delivered) == multiset{e.buf[0].id} by {
        assert f.delivered[1..] == [];
      }
    }
  }

  /**
   * No message is lost or duplicated by a tick: the identities that leave
   * the ends are exactly those of the delivered messages.
   */
  lemma {:induction false} RoundKeepsIds(ends: seq<End>, accepts: nat -> bool, now: nat, k: nat)
    requires k <= |ends|
    ensures Held(ends) == Held(RoundUpTo(ends, accepts, now, k).ends) + Ids(RoundUpTo(ends, accepts, now, k).delivered)
    decreases k
  {
    if k > 0 {
      RoundKeepsIds(ends, accepts, now, k - 1);
      RoundNextKeepsIds(Held(ends), ends, accepts, now, k);
    }
  }

  /** What a round held and handed over so far, it holds or has handed over after its `k`-th end's step. */
  lemma RoundNextKeepsIds(all: multiset<string>, ends: seq<End>, accepts: nat -> bool, now: nat, k: nat)
    requires 0 < k <= |ends|
    requires all == Held(RoundUpTo(ends, accepts, now, k - 1).ends) + Ids(RoundUpTo(ends, accepts, now, k - 1).delivered)
    ensures all == Held(RoundUpTo(ends, accepts, now, k).ends) + Ids(RoundUpTo(ends, accepts, now, k).delivered)
  {
    var r := RoundUpTo(ends, accepts, now, k - 1);
    RoundAdvance(ends, accepts, now, k - 1, r);
    RoundStepKeepsIds(all, r, RoundUpTo(ends, accepts, now, k), r.ends[k - 1], k - 1, accepts(k - 1), now);
  }

  /** The ends and deliveries of a round after its `k`-th end's step. */
  lemma RoundUnfold(ends: seq<End>, accepts: nat -> bool, now: nat, k: nat)
    requires 0 < k <= |ends|
    ensures var r := RoundUpTo(ends, accepts, now, k - 1);
            var f := ForwardHead(r.ends[k - 1], accepts(k - 1), now);
            RoundUpTo(ends, accepts, now, k) ==
              Round(r.ends[k - 1 := f.end], r.delivered + f.delivered, r.notices + f.notices, r.progress || f.progress)
  {
  }

  /** The round after `k + 1` steps is the round after `k` steps, followed by the next end's step. */
  lemma RoundAdvance(ends: seq<End>, accepts: nat -> bool, now: nat, k: nat, r: Round)
    requires k < |ends| && RoundUpTo(ends, accepts, now, k) == r
    ensures var f := ForwardHead(r.ends[k], accepts(k), now);
            RoundUpTo(ends, accepts, now, k + 1) ==
              Round(r.ends[k := f.end], r.delivered + f.delivered, r.notices + f.notices, r.progress || f.progress)
  {
    RoundUnfold(ends, accepts, now, k + 1);
  }

  /** The ends from the `k`-th on are not yet touched by the first `k` steps of a round. */
  lemma {:induction false} RoundUntouched(ends: seq<End>, accepts: nat -> bool, now: nat, k: nat, j: nat)
    requires k <= j < |ends|
    ensures RoundUpTo(ends, accepts, now, k).ends[j] == ends[j]
    decreases k
  {
    if k > 0 {
      RoundUntouched(ends, accepts, now, k - 1, j);
      RoundUnfold(ends, accepts, now, k);
    }
  }

  lemma AddToBoth(p: multiset<string>, a: multiset<string>, x: multiset<string>, b: multiset<string>, y: multiset<string>)
    requires a + x == b + y
    ensures (p + a) + x == (p + b) + y
  {
    forall z ensures ((p + a) + x)[z] == ((p + b) + y)[z] {
      assert (a + x)[z] == (b + y)[z];
    }
  }

  /** One end's share of a tick moves exactly the identity it delivers out of what the ends hold. */
  lemma ForwardKeepsHeld(ends: seq<End>, i: nat, accepted: bool, now: nat)
    requires i < |ends|
    ensures var f := ForwardHead(ends[i], accepted, now);
            Held(ends) == Held(ends[i := f.end]) + Ids(f.delivered)
  {
    var f := ForwardHead(ends[i], accepted, now);
    HeldUpdate(ends, i, f.end);
    ForwardKeepsIds(ends[i], accepted, now);
    forall z ensures Held(ends)[z] == (Held(ends[i := f.end]) + Ids(f.delivered))[z] {
      assert (Held(ends[i := f.end]) + Ids(ends[i].buf))[z] == (Held(ends) + Ids(f.end.buf))[z];
    }
  }

  /** A round that kept the identities so far keeps them through its next end's step. */
  lemma RoundStepKeepsIds(all: multiset<string>, r: Round, next: Round, e: End, i: nat, accepted: bool, now: nat)
    requires i < |r.ends| && r.ends[i] == e
    requires all == Held(r.ends) + Ids(r.delivered)
    requires var f := ForwardHead(e, accepted, now);
             next.ends == r.ends[i := f.end] && next.delivered == r.delivered + f.delivered
    ensures all == Held(next.ends) + Ids(next.delivered)
  {
    var f := ForwardHead(e, accepted, now);
    ForwardKeepsHeld(r.ends, i, accepted, now);
    IdsAppend(r.delivered, f.delivered);
    Chain(all, Held(r.ends), Ids(r.delivered), Held(r.ends[i := f.end]), Ids(f.delivered));
  }

  /** Two moves in a row: what left in the first and what left in the second together left. */
  lemma Chain(all: multiset<string>, held: multiset<string>, gone: multiset<string>, held': multiset<string>, moved: multiset<string>)
    requires all == held + gone
    requires held == held' + moved
    ensures all == held' + (gone + moved)
  {
  }

  /** What a tick does to each registered end, as the forwarding test expects. */
  lemma HandleUpdatesEnds(c: Conn, now: nat, accepts: nat -> bool)
    requires WellFormed(c)
    ensures var h := HandleStep(c, now, accepts);
            && |h.conn.ends| == |c.ends|
            && forall j :: 0 <= j < |c.ends| ==>
                 var e, e' := c.ends[j], h.conn.ends[j];
                 && e'.port == e.port && e'.cap == e.cap
                 && (e.buf == [] ==> e' == e)
                 && (e.buf != [] && accepts(j) ==>
                       e'.buf == e.buf[1..] && !e'.busy
                       && StampRecv(e.buf[0], now) in h.round.delivered
                       && (Notice(e.port, now) in h.round.notices <==> e.busy))
                 && (e.buf != [] && !accepts(j) ==>
                       e'.buf == e.buf && e'.busy && Notice(e.port, now) !in h.round.notices)
  {
    var n := |c.ends|;
    RoundEnds(c.ends, accepts, now, n);
    RoundIsolated(c.ends, accepts, now, n);
    HeadsStamped(c.ends, accepts, now, n);
    NotifiedExactly(c.ends, accepts, now, n);
  }

  /**
   * A tick stamps every delivered message with `now`, notifies only busy
   * senders, and loses or duplicates no message.
   */
  lemma HandleDelivers(c: Conn, now: nat, accepts: nat -> bool)
    requires WellFormed(c)
    ensures var h := HandleStep(c, now, accepts);
            && (forall m :: m in h.round.delivered ==> m.recvTime == Some(now))
            && (forall nt :: nt in h.round.notices ==>
                  nt.time == now && exists j :: 0 <= j < |c.ends| && c.ends[j].port == nt.port && c.ends[j].busy)
            && Buffered(c.ends) == Buffered(h.conn.ends) + |h.round.delivered|
            && Held(c.ends) == Held(h.conn.ends) + Ids(h.round.delivered)
  {
    var n := |c.ends|;
    RoundKeepsIds(c.ends, accepts, now, n);
    RoundIsolated(c.ends, accepts, now, n);
    HeadsStamped(c.ends, accepts, now, n);
    NotifiedFrom(c.ends, accepts, now, n);
    RoundConserves(c.ends, accepts, now, n);
  }

  lemma {:induction false} NotifiedFrom(ends: seq<End>, accepts: nat -> bool, now: nat, k: nat)
    requires k <= |ends|
    ensures forall nt :: nt in Notified(ends, accepts, now, k) ==>
              nt.time == now && exists j :: 0 <= j < k && ends[j].port == nt.port && ends[j].busy
    decreases k
  {
    if k > 0 {
      NotifiedFrom(ends, accepts, now, k - 1);
    }
  }

  /**
   * A tick that delivered something, or that leaves a message buffered,
   * leaves a secondary tick pending one cycle later, scheduling it unless it
   * is already pending; any other tick schedules nothing, and the tick that
   * fired is pending no more. It delivers
   * something exactly when some non-empty end's head is accepted, and leaves
   * a message buffered exactly when some end's head is refused or an
   * accepted end held more than its head: a refused head is retried on the
   * next cycle.
   */
  lemma HandleReschedules(c: Conn, now: nat, accepts: nat -> bool)
    ensures var h := HandleStep(c, now, accepts);
            && (h.round.progress <==> exists j :: 0 <= j < |c.ends| && c.ends[j].buf != [] && accepts(j))
            && (Pending(h.conn.ends) <==>
                  exists j :: 0 <= j < |c.ends| && c.ends[j].buf != [] && (!accepts(j) || |c.ends[j].buf| > 1))
            && (h.round.progress || Pending(h.conn.ends) ==>
                  h.conn.pending == c.pending - {now} + {now + 1}
                  && h.events == (if now + 1 in c.pending then [] else [TickEvent(now + 1, true)]))
            && (!h.round.progress && !Pending(h.conn.ends) ==>
                  h.conn.pending == c.pending - {now} && h.events == [])
  {
    RoundIsolated(c.ends, accepts, now, |c.ends|);
    RoundLeavesPending(c.ends, accepts, now);
  }

  /**
   * Once the tick at `now` has fired, a message sent at `now` that is
   * buffered asks the engine for a new tick at `now`, so it is never left
   * buffered with no tick to deliver it.
   */
  lemma SendAfterTick(c: Conn, now: nat, accepts: nat -> bool, m: Msg)
    requires m.sendTime == now
    ensures var o := SendStep(HandleStep(c, now, accepts).conn, m);
            o.result == Sent ==> o.events == [TickEvent(now, true)] && now in o.conn.pending
  {
  }

  // ---------------------------------------------------------------------
  // No tick is asked for twice

  /** What the engine and the ports do to a connection: a Send, or the firing of its tick at `now`. */
  datatype Op = DoSend(m: Msg) | DoTick(now: nat, accepts: nat -> bool)

  datatype StepOutcome = StepOutcome(conn: Conn, events: seq<TickEvent>)

  /**
   * One operation. A tick is requested only for a time that was not pending,
   * and it is pending afterwards; a pending tick stays pending until the
   * tick at that time fires.
   */
  function Step(c: Conn, op: Op): (r: StepOutcome)
    ensures forall e :: e in r.events ==> e.time !in c.pending && e.time in r.conn.pending
    ensures forall t :: t in c.pending && !(op.DoTick? && op.now == t) ==> t in r.conn.pending
  {
    match op
    case DoSend(m) =>
      var o := SendStep(c, m);
      StepOutcome(o.conn, o.events)
    case DoTick(now, accepts) =>
      var h := HandleStep(c, now, accepts);
      StepOutcome(h.conn, h.events)
  }

  /** The connection after the first `k` operations. */
  function After(c: Conn, ops: seq<Op>, k: nat): Conn
    requires k <= |ops|
  {
    if k == 0 then c else Step(After(c, ops, k - 1), ops[k - 1]).conn
  }

  /** The events requested by the `k`-th operation. */
  function Requested(c: Conn, ops: seq<Op>, k: nat): seq<TickEvent>
    requires k < |ops|
  {
    Step(After(c, ops, k), ops[k]).events
  }

  /** A time pending after `i` operations and not after `j` had its tick fire in between. */
  lemma {:induction false} FiredBetween(c: Conn, ops: seq<Op>, i: nat, j: nat, t: nat)
    requires i < j <= |ops|
    requires t in After(c, ops, i).pending && t !in After(c, ops, j).pending
    ensures exists k :: i <= k < j && ops[k].DoTick? && ops[k].now == t
    decreases j
  {
    var before := After(c, ops, j - 1);
    assert After(c, ops, j) == Step(before, ops[j - 1]).conn;
    if t in before.pending {
      assert ops[j - 1].DoTick? && ops[j - 1].now == t;
    } else {
      FiredBetween(c, ops, i, j - 1, t);
    }
  }

  /**
   * Whatever the sends and ticks, the connection never asks the engine for a
   * tick at a time whose tick it asked for and that has not fired yet.
   */
  lemma NoDoubleRequest(c: Conn, ops: seq<Op>, i: nat, j: nat, t: nat)
    requires i < j < |ops|
    requires TickEvent(t, true) in Requested(c, ops, i) && TickEvent(t, true) in Requested(c, ops, j)
    ensures exists k :: i < k < j && ops[k].DoTick? && ops[k].now == t
  {
    var r := Step(After(c, ops, i), ops[i]);
    assert After(c, ops, i + 1) == r.conn;
    assert t in r.conn.pending;
    assert t !in After(c, ops, j).pending;
    FiredBetween(c, ops, i + 1, j, t);
  }

  /** After a round, an end still holds a message exactly when its head was refused or it held more than its head. */
  lemma RoundLeavesPending(ends: seq<End>, accepts: nat -> bool, now: nat)
    ensures Pending(RoundUpTo(ends, accepts, now, |ends|).ends) <==>
              exists j :: 0 <= j < |ends| && ends[j].buf != [] && (!accepts(j) || |ends[j].buf| > 1)
  {
    var r := RoundUpTo(ends, accepts, now, |ends|);
    RoundEnds(ends, accepts, now, |ends|);
    if Pending(r.ends) {
      var j :| 0 <= j < |r.ends| && r.ends[j].buf != [];
      assert ends[j].buf != [] && (!accepts(j) || |ends[j].buf| > 1);
    }
    if exists j :: 0 <= j < |ends| && ends[j].buf != [] && (!accepts(j) || |ends[j].buf| > 1) {
      var j :| 0 <= j < |ends| && ends[j].buf != [] && (!accepts(j) || |ends[j].buf| > 1);
      assert r.ends[j].buf != [];
    }
  }


  // ---------------------------------------------------------------------
  // Properties of sending

  /**
   * Sends that share one send time ask the engine for one tick at most, and
   * for exactly one when one of them was buffered and no tick at that time
   * was pending before.
   */
  lemma {:induction false} SameTimeSendsTickOnce(c: Conn, ms: seq<Msg>, t: nat)
    requires forall i :: 0 <= i < |ms| ==> ms[i].sendTime == t
    ensures var b := SendAll(c, ms);
            && b.events == (if t !in c.pending && Sent in b.results then [TickEvent(t, true)] else [])
            && b.conn.pending == (if Sent in b.results then c.pending + {t} else c.pending)
    decreases |ms|
  {
    if ms != [] {
      var o := SendStep(c, ms[0]);
      SameTimeSendsTickOnce(o.conn, ms[1..], t);
      var b := SendAll(o.conn, ms[1..]);
      assert SendAll(c, ms).results == [o.result] + b.results;
    }
  }

  /** One correctly wired send from the `i`-th end's port, as the backpressure argument uses it. */
  lemma SendFromEnd(c: Conn, i: nat, m: Msg)
    requires WellFormed(c) && i < |c.ends|
    requires m.src == Some(c.ends[i].port) && m.dst.Some? && m.dst != m.src
    ensures var o := SendStep(c, m);
            && WellFormed(o.conn) && |o.conn.ends| == |c.ends|
            && o.result == (if |c.ends[i].buf| < c.ends[i].cap then Sent else BufferFull)
            && o.conn.ends[i] == (if o.result == Sent then c.ends[i].(buf := c.ends[i].buf + [m])
                                  else c.ends[i].(busy := true))
            && (forall j :: 0 <= j < |c.ends| && j != i ==> o.conn.ends[j] == c.ends[j])
  {
    FindUnique(c.ends, i);
  }

  /** A Send from a registered end adds the message's identity to what the connection holds exactly when it is accepted. */
  lemma SendKeepsIds(c: Conn, i: nat, m: Msg)
    requires WellFormed(c) && i < |c.ends|
    requires m.src == Some(c.ends[i].port) && m.dst.Some? && m.dst != m.src
    ensures var o := SendStep(c, m);
            Held(o.conn.ends) == Held(c.ends) + (if o.result == Sent then multiset{m.id} else multiset{})
  {
    SendFromEnd(c, i, m);
    var o := SendStep(c, m);
    HeldChange(c.ends, o.conn.ends, i);
    var added := if o.result == Sent then multiset{m.id} else multiset{};
    assert Ids(o.conn.ends[i].buf) == Ids(c.ends[i].buf) + added by {
      if o.result == Sent {
        IdsAppend(c.ends[i].buf, [m]);
        IdsOne(m);
      }
    }
    Cancel(Held(c.ends), Held(o.conn.ends), Ids(c.ends[i].buf), Ids(o.conn.ends[i].buf), added);
  }

  /** Ends that differ in one place hold identities that differ by that end's. */
  lemma HeldChange(ends: seq<End>, ends': seq<End>, i: nat)
    requires i < |ends| == |ends'|
    requires forall j :: 0 <= j < |ends| && j != i ==> ends'[j] == ends[j]
    ensures Held(ends') + Ids(ends[i].buf) == Held(ends) + Ids(ends'[i].buf)
  {
    assert ends' == ends[i := ends'[i]];
    HeldUpdate(ends, i, ends'[i]);
  }

  lemma Cancel(held: multiset<string>, held': multiset<string>, before: multiset<string>, after: multiset<string>, added: multiset<string>)
    requires held' + before == held + after
    requires after == before + added
    ensures held' == held + added
  {
    forall z ensures held'[z] == (held + added)[z] {
      assert (held' + before)[z] == (held + after)[z];
    }
  }

  /**
   * Backpressure: of a run of correctly wired sends from the `i`-th end's
   * port, exactly those that fit into the end's free room are accepted;
   * every later one is refused with BufferFull and marks the end busy.
   * No other end changes; SendsBufferInOrder says what the end then holds.
   */
  lemma SendsFillThenRefuse(c: Conn, i: nat, ms: seq<Msg>)
    requires WellFormed(c) && i < |c.ends|
    requires forall k :: 0 <= k < |ms| ==>
               ms[k].src == Some(c.ends[i].port) && ms[k].dst.Some? && ms[k].dst != ms[k].src
    ensures var b := SendAll(c, ms);
            var free := c.ends[i].cap - |c.ends[i].buf|;
            && (forall k :: 0 <= k < |ms| ==> b.results[k] == (if k < free then Sent else BufferFull))
            && b.conn.ends[i].busy == (c.ends[i].busy || |ms| > free)
            && b.conn.ends[i].cap == c.ends[i].cap
            && (forall j :: 0 <= j < |c.ends| && j != i ==> b.conn.ends[j] == c.ends[j])
  {
    SendsReachEnd(c, i, ms);
    FillMarksBusy(c.ends[i], ms);
    SendsResults(c, i, ms);
    SendsLeaveOthers(c, i, ms);
  }

  lemma {:induction false} SendsResults(c: Conn, i: nat, ms: seq<Msg>)
    requires WellFormed(c) && i < |c.ends|
    requires forall k :: 0 <= k < |ms| ==>
               ms[k].src == Some(c.ends[i].port) && ms[k].dst.Some? && ms[k].dst != ms[k].src
    ensures var free := c.ends[i].cap - |c.ends[i].buf|;
            forall k :: 0 <= k < |ms| ==> SendAll(c, ms).results[k] == (if k < free then Sent else BufferFull)
    decreases |ms|
  {
    if ms != [] {
      SendFromEnd(c, i, ms[0]);
      var o := SendStep(c, ms[0]);
      SendsResults(o.conn, i, ms[1..]);
      var b := SendAll(o.conn, ms[1..]);
      assert SendAll(c, ms).results == [o.result] + b.results;
    }
  }

  lemma {:induction false} SendsLeaveOthers(c: Conn, i: nat, ms: seq<Msg>)
    requires WellFormed(c) && i < |c.ends|
    requires forall k :: 0 <= k < |ms| ==>
               ms[k].src == Some(c.ends[i].port) && ms[k].dst.Some? && ms[k].dst != ms[k].src
    ensures forall j :: 0 <= j < |c.ends| && j != i ==> SendAll(c, ms).conn.ends[j] == c.ends[j]
    decreases |ms|
  {
    if ms != [] {
      SendFromEnd(c, i, ms[0]);
      var o := SendStep(c, ms[0]);
      SendsLeaveOthers(o.conn, i, ms[1..]);
      assert SendAll(c, ms).conn == SendAll(o.conn, ms[1..]).conn;
    }
  }

  lemma {:induction false} FillMarksBusy(e: End, ms: seq<Msg>)
    requires |e.buf| <= e.cap
    ensures Fill(e, ms).busy == (e.busy || |ms| > e.cap - |e.buf|)
    ensures Fill(e, ms).cap == e.cap && Fill(e, ms).port == e.port
    decreases |ms|
  {
    if ms != [] {
      if |e.buf| >= e.cap {
        FillMarksBusy(e.(busy := true), ms[1..]);
      } else {
        assert |e.buf + [ms[0]]| == |e.buf| + 1;
        FillMarksBusy(e.(buf := e.buf + [ms[0]]), ms[1..]);
      }
    }
  }

  /** The accepted sends of such a run are appended to the end's buffer in send order, and nothing else is. */
  lemma {:induction false} SendsBufferInOrder(c: Conn, i: nat, ms: seq<Msg>)
    requires WellFormed(c) && i < |c.ends|
    requires forall k :: 0 <= k < |ms| ==>
               ms[k].src == Some(c.ends[i].port) && ms[k].dst.Some? && ms[k].dst != ms[k].src
    ensures var free := c.ends[i].cap - |c.ends[i].buf|;
            SendAll(c, ms).conn.ends[i].buf == c.ends[i].buf + ms[..if |ms| < free then |ms| else free]
    decreases |ms|
  {
    SendsReachEnd(c, i, ms);
    FillKeepsOrder(c.ends[i], ms);
  }

  /** What a run of sends does to the one end they all come from. */
  function Fill(e: End, ms: seq<Msg>): End
    decreases |ms|
  {
    if ms == [] then e
    else if |e.buf| >= e.cap then Fill(e.(busy := true), ms[1..])
    else Fill(e.(buf := e.buf + [ms[0]]), ms[1..])
  }

  lemma {:induction false} SendsReachEnd(c: Conn, i: nat, ms: seq<Msg>)
    requires WellFormed(c) && i < |c.ends|
    requires forall k :: 0 <= k < |ms| ==>
               ms[k].src == Some(c.ends[i].port) && ms[k].dst.Some? && ms[k].dst != ms[k].src
    ensures SendAll(c, ms).conn.ends[i] == Fill(c.ends[i], ms)
    decreases |ms|
  {
    if ms != [] {
      SendFromEnd(c, i, ms[0]);
      var o := SendStep(c, ms[0]);
      SendsReachEnd(o.conn, i, ms[1..]);
      assert SendAll(c, ms).conn == SendAll(o.conn, ms[1..]).conn;
    }
  }

  lemma {:induction false} FillKeepsOrder(e: End, ms: seq<Msg>)
    requires |e.buf| <= e.cap
    ensures var free := e.cap - |e.buf|;
            Fill(e, ms).buf == e.buf + ms[..if |ms| < free then |ms| else free]
    decreases |ms|
  {
    if ms != [] {
      var free := e.cap - |e.buf|;
      var n := if |ms| < free then |ms| else free;
      if free > 0 {
        assert |e.buf + [ms[0]]| == |e.buf| + 1;
        FillKeepsOrder(e.(buf := e.buf + [ms[0]]), ms[1..]);
        assert ms[..n] == [ms[0]] + ms[1..][..n - 1];
      } else {
        FillKeepsOrder(e.(busy := true), ms[1..]);
      }
    }
  }
}
