/**
 * The ticking agent of the direct-connection integration scenario, and the
 * conservation of messages over a whole run of such agents sharing one
 * connection.
 *
 * A tick of an agent takes at most one message out of its port (what
 * Retrieve hands over) into `msgsIn`, and offers the head of `msgsOut`,
 * stamped with the current time, to the connection; the head is dropped
 * when the connection accepts it. The tick reports progress when it
 * received or sent a message.
 *
 * A run is modelled as any interleaving of agent ticks and connection ticks
 * (the engine's ordering and the Recv answers of the destination ports are
 * left free). Agent `k` owns port `k`, plugged in as the `k`-th end; the
 * messages delivered to a port wait in that port's incoming queue until the
 * agent retrieves them. Over any such run no message is lost or duplicated:
 * a run that drains every queue leaves every sent message in some agent's
 * `msgsIn`.
 */
module Integration {
  import opened Sim
  import opened DirectConnection

  // ---------------------------------------------------------------------
  // One agent

  datatype AgentState = AgentState(port: PortId, msgsOut: seq<Msg>, msgsIn: seq<Msg>)

  /**
   * What a tick did: the agent and the connection afterwards, the ticks it
   * asked the engine for, whether it made progress, and the wiring error
   * that aborted it, if any.
   */
  datatype AgentOutcome = AgentOutcome(
    agent: AgentState, conn: Conn, events: seq<TickEvent>, progress: bool, fault: Option<WiringError>)

  /** The message an agent sends on a tick at `now`, if it has one to send. */
  function Outgoing(a: AgentState, now: nat): (r: Option<Msg>)
    ensures r.Some? <==> a.msgsOut != []
    ensures r.Some? ==> r.value.(sendTime := a.msgsOut[0].sendTime) == a.msgsOut[0] && r.value.sendTime == now
  {
    if a.msgsOut == [] then None else Some(StampSend(a.msgsOut[0], now))
  }

  /**
   * A tick of agent `a` at `now`, with `incoming` the message the port's
   * Retrieve handed over. A wiring error aborts the tick after the head was
   * stamped, the stamp staying on the message.
   */
  function AgentStep(a: AgentState, c: Conn, now: nat, incoming: Option<Msg>): (o: AgentOutcome)
    ensures o.agent.port == a.port
    ensures o.agent.msgsIn == a.msgsIn + (if incoming.Some? then [incoming.value] else [])
    ensures a.msgsOut == [] ==> o.agent.msgsOut == [] && o.conn == c && o.events == [] && o.fault.None?
    ensures a.msgsOut != [] ==>
              var m := StampSend(a.msgsOut[0], now);
              var s := SendStep(c, m);
              && o.conn == s.conn && o.events == s.events
              && (s.result == Sent ==> o.agent.msgsOut == a.msgsOut[1..])
              && (s.result != Sent ==> o.agent.msgsOut == [m] + a.msgsOut[1..] && |o.agent.msgsOut| == |a.msgsOut|)
              && (o.fault.Some? <==> s.result.Panic?)
    ensures o.progress <==> incoming.Some? || (a.msgsOut != [] && SendStep(c, Outgoing(a, now).value).result == Sent)
    ensures WellFormed(c) ==> WellFormed(o.conn)
  {
    var msgsIn := a.msgsIn + (if incoming.Some? then [incoming.value] else []);
    match Outgoing(a, now)
    case None => AgentOutcome(a.(msgsIn := msgsIn), c, [], incoming.Some?, None)
    case Some(m) =>
      var s := SendStep(c, m);
      var fault := if s.result.Panic? then Some(s.result.reason) else None;
      var msgsOut := if s.result == Sent then a.msgsOut[1..] else [m] + a.msgsOut[1..];
      AgentOutcome(AgentState(a.port, msgsOut, msgsIn), s.conn, s.events, incoming.Some? || s.result == Sent, fault)
  }

  class Agent {
    const port: PortId
    var msgsOut: seq<Msg>
    var msgsIn: seq<Msg>

    function State(): AgentState
      reads this
    {
      AgentState(port, msgsOut, msgsIn)
    }

    constructor (port: PortId, msgsOut: seq<Msg>)
      ensures State() == AgentState(port, msgsOut, [])
    {
      this.port, this.msgsOut, this.msgsIn := port, msgsOut, [];
    }

    /**
     * A tick at `now`; `incoming` is what the port's Retrieve returned. The
     * outgoing head goes through the connection's Send (the port passes it
     * on unchanged).
     */
    method Tick(now: nat, incoming: Option<Msg>, conn: Connection) returns (madeProgress: bool, fault: Option<WiringError>)
      requires conn.Valid()
      modifies this, conn
      ensures conn.Valid()
      ensures var o := AgentStep(old(State()), old(conn.State()), now, incoming);
              && State() == o.agent && conn.State() == o.conn
              && madeProgress == o.progress && fault == o.fault
              && conn.events == old(conn.events) + o.events
      ensures conn.notices == old(conn.notices) && conn.delivered == old(conn.delivered)
    {
      madeProgress, fault := false, None;
      if incoming.Some? {
        msgsIn := msgsIn + [incoming.value];
        madeProgress := true;
      }
      if |msgsOut| > 0 {
        var head := StampSend(msgsOut[0], now);
        msgsOut := [head] + msgsOut[1..];
        var result := conn.Send(head);
        if result.Panic? {
          fault := Some(result.reason);
          return;
        }
        if result == Sent {
          madeProgress := true;
          msgsOut := msgsOut[1..];
        }
      }
    }
  }

  // ---------------------------------------------------------------------
  // A whole run

  /**
   * The agents' outgoing lists, the connection, the ports' incoming queues
   * and the agents' received lists; agent `k` owns port `k`.
   */
  datatype World = World(outs: seq<seq<Msg>>, conn: Conn, inboxes: seq<seq<Msg>>, ins: seq<seq<Msg>>)

  /** One event of a run: agent `k` ticks, or the connection ticks with `accepts` giving the Recv answers. */
  datatype Step = AgentTick(k: nat, now: nat) | ConnTick(now: nat, accepts: nat -> bool)

  /** A message agent `k` may send in a world of `n` agents: from its own port to another agent's. */
  predicate Wired(m: Msg, k: nat, n: nat)
  {
    m.src == Some(k) && m.dst.Some? && m.dst.value < n && m.dst.value != k
  }

  predicate Addressed(m: Msg, n: nat)
  {
    m.dst.Some? && m.dst.value < n
  }

  ghost predicate Inv(w: World)
  {
    var n := |w.outs|;
    && |w.conn.ends| == n && |w.inboxes| == n && |w.ins| == n
    && (forall k :: 0 <= k < n ==> w.conn.ends[k].port == k)
    && WellFormed(w.conn)
    && (forall k, m :: 0 <= k < n && m in w.outs[k] ==> Wired(m, k, n))
    && (forall k, m :: 0 <= k < n && m in w.conn.ends[k].buf ==> Addressed(m, n))
  }

  /** The messages of `ds` addressed to port `p`, in order. */
  function ToPort(ds: seq<Msg>, p: PortId): (r: seq<Msg>)
    ensures |r| <= |ds|
  {
    if ds == [] then [] else (if ds[0].dst == Some(p) then [ds[0]] else []) + ToPort(ds[1..], p)
  }

  /** A message is routed to port `p` exactly when it is one of the delivered ones and is addressed to `p`. */
  lemma {:induction false} ToPortFilters(ds: seq<Msg>, p: PortId, m: Msg)
    ensures m in ToPort(ds, p) <==> m in ds && m.dst == Some(p)
    decreases |ds|
  {
    if ds != [] {
      ToPortFilters(ds[1..], p, m);
      assert m in ds <==> m == ds[0] || m in ds[1..];
    }
  }

  /** Append every delivered message to its destination's incoming queue, in order. */
  function Route(inboxes: seq<seq<Msg>>, ds: seq<Msg>): (r: seq<seq<Msg>>)
    requires forall i :: 0 <= i < |ds| ==> Addressed(ds[i], |inboxes|)
    ensures |r| == |inboxes|
    ensures forall p :: 0 <= p < |inboxes| ==> r[p] == inboxes[p] + ToPort(ds, p)
    decreases |ds|
  {
    if ds == [] then
      assert forall p :: 0 <= p < |inboxes| ==> inboxes[p] + ToPort(ds, p) == inboxes[p];
      inboxes
    else
      assert Addressed(ds[0], |inboxes|);
      var d := ds[0].dst.value;
      var r := Route(inboxes[d := inboxes[d] + [ds[0]]], ds[1..]);
      RouteStep(inboxes, ds, r);
      r
  }

  /** Routing the first message, then the rest, routes every message to its own port. */
  lemma RouteStep(inboxes: seq<seq<Msg>>, ds: seq<Msg>, r: seq<seq<Msg>>)
    requires ds != [] && Addressed(ds[0], |inboxes|) && |r| == |inboxes|
    requires var d := ds[0].dst.value;
             forall p :: 0 <= p < |inboxes| ==> r[p] == inboxes[d := inboxes[d] + [ds[0]]][p] + ToPort(ds[1..], p)
    ensures forall p :: 0 <= p < |inboxes| ==> r[p] == inboxes[p] + ToPort(ds, p)
  {
    var d := ds[0].dst.value;
    forall p | 0 <= p < |inboxes| ensures r[p] == inboxes[p] + ToPort(ds, p) {
      assert inboxes[d := inboxes[d] + [ds[0]]][p] == if p == d then inboxes[p] + [ds[0]] else inboxes[p];
      RouteStepAt(inboxes[p], ds, p, r[p]);
    }
  }

  /** One queue's share of routing the first message, then the rest. */
  lemma RouteStepAt(box: seq<Msg>, ds: seq<Msg>, p: PortId, got: seq<Msg>)
    requires ds != []
    requires got == (if ds[0].dst == Some(p) then box + [ds[0]] else box) + ToPort(ds[1..], p)
    ensures got == box + ToPort(ds, p)
  {
    var rest := ToPort(ds[1..], p);
    if ds[0].dst == Some(p) {
      assert ToPort(ds, p) == [ds[0]] + rest;
      AppendAssoc(box, [ds[0]], rest);
    } else {
      assert ToPort(ds, p) == [] + rest;
      assert [] + rest == rest;
    }
  }

  lemma AppendAssoc(a: seq<Msg>, b: seq<Msg>, c: seq<Msg>)
    ensures a + b + c == a + (b + c)
  {
  }

  function Next(w: World, s: Step): (r: World)
    requires Inv(w)
    ensures |r.outs| == |w.outs| && |r.inboxes| == |w.inboxes| && |r.ins| == |w.ins|
    ensures s.ConnTick? ==> r.outs == w.outs && r.ins == w.ins
    ensures s.AgentTick? ==>
              forall j :: 0 <= j < |w.outs| && j != s.k ==> r.outs[j] == w.outs[j] && r.inboxes[j] == w.inboxes[j] && r.ins[j] == w.ins[j]
    ensures s.AgentTick? && s.k < |w.outs| ==>
              r.ins[s.k] + r.inboxes[s.k] == w.ins[s.k] + w.inboxes[s.k] && |r.inboxes[s.k]| == |w.inboxes[s.k]| - (if w.inboxes[s.k] == [] then 0 else 1)
  {
    match s
    case AgentTick(k, now) =>
      if k >= |w.outs| then w
      else
        var incoming := if w.inboxes[k] == [] then None else Some(w.inboxes[k][0]);
        var o := AgentStep(AgentState(k, w.outs[k], w.ins[k]), w.conn, now, incoming);
        var inbox := if w.inboxes[k] == [] then [] else w.inboxes[k][1..];
        assert w.inboxes[k] != [] ==> w.inboxes[k] == [w.inboxes[k][0]] + inbox;
        assert o.agent.msgsIn + inbox == w.ins[k] + w.inboxes[k];
        World(w.outs[k := o.agent.msgsOut], o.conn, w.inboxes[k := inbox], w.ins[k := o.agent.msgsIn])
    case ConnTick(now, accepts) =>
      var h := HandleStep(w.conn, now, accepts);
      HeadsAddressed(w.conn.ends, accepts, now, |w.conn.ends|, |w.outs|);
      RoundIsolated(w.conn.ends, accepts, now, |w.conn.ends|);
      World(w.outs, h.conn, Route(w.inboxes, h.round.delivered), w.ins)
  }

  function Sum(ss: seq<seq<Msg>>): nat
  {
    if ss == [] then 0 else |ss[0]| + Sum(ss[1..])
  }

  /** Every message of a world, wherever it is. */
  function Count(w: World): nat
  {
    Sum(w.outs) + Buffered(w.conn.ends) + Sum(w.inboxes) + Sum(w.ins)
  }

  /** The identities of the messages of every list, counted with their repetitions. */
  function AllIds(ss: seq<seq<Msg>>): (r: multiset<string>)
    ensures |r| == Sum(ss)
  {
    if ss == [] then multiset{} else Ids(ss[0]) + AllIds(ss[1..])
  }

  /** The identities of every message of a world, wherever it is. */
  function Pool(w: World): (r: multiset<string>)
    ensures |r| == Count(w)
  {
    AllIds(w.outs) + Held(w.conn.ends) + AllIds(w.inboxes) + AllIds(w.ins)
  }

  // ---------------------------------------------------------------------
  // Properties

  lemma {:induction false} SumUpdate(ss: seq<seq<Msg>>, k: nat, s: seq<Msg>)
    requires k < |ss|
    ensures Sum(ss[k := s]) + |ss[k]| == Sum(ss) + |s|
    decreases k
  {
    if k > 0 {
      SumUpdate(ss[1..], k - 1, s);
      assert ss[k := s][1..] == ss[1..][k - 1 := s];
    } else {
      assert ss[k := s][1..] == ss[1..];
    }
  }

  /** Routing adds each delivered message to exactly one queue. */
  lemma {:induction false} RouteAdds(inboxes: seq<seq<Msg>>, ds: seq<Msg>)
    requires forall i :: 0 <= i < |ds| ==> Addressed(ds[i], |inboxes|)
    ensures Sum(Route(inboxes, ds)) == Sum(inboxes) + |ds|
    decreases |ds|
  {
    if ds != [] {
      var d := ds[0].dst.value;
      SumUpdate(inboxes, d, inboxes[d] + [ds[0]]);
      RouteAdds(inboxes[d := inboxes[d] + [ds[0]]], ds[1..]);
    }
  }

  /** A tick of the connection hands over only messages it held, so only addressed ones. */
  lemma {:induction false} HeadsAddressed(ends: seq<End>, accepts: nat -> bool, now: nat, k: nat, n: nat)
    requires k <= |ends|
    requires forall j, m :: 0 <= j < |ends| && m in ends[j].buf ==> Addressed(m, n)
    ensures forall m :: m in Heads(ends, accepts, now, k) ==> Addressed(m, n)
    decreases k
  {
    if k > 0 {
      HeadsAddressed(ends, accepts, now, k - 1, n);
      var e := ends[k - 1];
      if e.buf != [] {
        assert Addressed(e.buf[0], n) by {
          assert e.buf[0] in ends[k - 1].buf;
        }
      }
    }
  }

  /** An agent of an invariant world sends only well-wired messages, so its tick never aborts. */
  lemma AgentTickSound(w: World, k: nat, now: nat, incoming: Option<Msg>)
    requires Inv(w) && k < |w.outs|
    ensures var o := AgentStep(AgentState(k, w.outs[k], w.ins[k]), w.conn, now, incoming);
            && o.fault.None?
            && |o.agent.msgsOut| + Buffered(o.conn.ends) == |w.outs[k]| + Buffered(w.conn.ends)
            && |o.conn.ends| == |w.conn.ends|
            && (forall j :: 0 <= j < |w.conn.ends| && j != k ==> o.conn.ends[j] == w.conn.ends[j])
            && o.conn.ends[k].port == k
            && (forall m :: m in o.conn.ends[k].buf ==> m in w.conn.ends[k].buf || Wired(m, k, |w.outs|))
            && (forall m :: m in o.agent.msgsOut ==> Wired(m, k, |w.outs|))
  {
    var a := AgentState(k, w.outs[k], w.ins[k]);
    if a.msgsOut != [] {
      var m := StampSend(a.msgsOut[0], now);
      assert Wired(a.msgsOut[0], k, |w.outs|) by {
        assert a.msgsOut[0] in w.outs[k];
      }
      assert w.conn.ends[k].port == k;
      SendFromEnd(w.conn, k, m);
      var s := SendStep(w.conn, m);
      BufferedUpdate(w.conn.ends, k, s.conn.ends[k]);
      KeptWired(w, k, m, s.result == Sent);
    }
  }

  /** What an agent keeps to send after a send attempt is still well wired. */
  lemma KeptWired(w: World, k: nat, m: Msg, sent: bool)
    requires Inv(w) && k < |w.outs| && w.outs[k] != []
    requires m == StampSend(w.outs[k][0], m.sendTime)
    ensures forall x :: x in (if sent then w.outs[k][1..] else [m] + w.outs[k][1..]) ==> Wired(x, k, |w.outs|)
  {
    assert w.outs[k][0] in w.outs[k];
    forall x | x in w.outs[k][1..] ensures Wired(x, k, |w.outs|) {
      assert x in w.outs[k];
    }
  }

  /** An agent tick moves messages between places but never creates or destroys one. */
  lemma AgentTickConserves(w: World, k: nat, now: nat)
    requires Inv(w)
    ensures Inv(Next(w, AgentTick(k, now))) && Count(Next(w, AgentTick(k, now))) == Count(w)
  {
    if k < |w.outs| {
      AgentTickKeepsInv(w, k, now);
      AgentTickCounts(w, k, now);
    }
  }

  lemma AgentTickCounts(w: World, k: nat, now: nat)
    requires Inv(w) && k < |w.outs|
    ensures Count(Next(w, AgentTick(k, now))) == Count(w)
  {
    var incoming := if w.inboxes[k] == [] then None else Some(w.inboxes[k][0]);
    var o := AgentStep(AgentState(k, w.outs[k], w.ins[k]), w.conn, now, incoming);
    AgentTickSound(w, k, now, incoming);
    var inbox := if w.inboxes[k] == [] then [] else w.inboxes[k][1..];
    SumUpdate(w.outs, k, o.agent.msgsOut);
    SumUpdate(w.inboxes, k, inbox);
    SumUpdate(w.ins, k, o.agent.msgsIn);
  }

  lemma AgentTickKeepsInv(w: World, k: nat, now: nat)
    requires Inv(w) && k < |w.outs|
    ensures Inv(Next(w, AgentTick(k, now)))
  {
    var incoming := if w.inboxes[k] == [] then None else Some(w.inboxes[k][0]);
    AgentTickSound(w, k, now, incoming);
    var w' := Next(w, AgentTick(k, now));
    OutsStayWired(w.outs, k, w'.outs[k]);
    EndsStayAddressed(w.conn.ends, w'.conn.ends, k, |w.outs|);
  }

  lemma OutsStayWired(outs: seq<seq<Msg>>, k: nat, s: seq<Msg>)
    requires k < |outs|
    requires forall j, m :: 0 <= j < |outs| && m in outs[j] ==> Wired(m, j, |outs|)
    requires forall m :: m in s ==> Wired(m, k, |outs|)
    ensures forall j, m :: 0 <= j < |outs| && m in outs[k := s][j] ==> Wired(m, j, |outs|)
  {
    forall j, m | 0 <= j < |outs| && m in outs[k := s][j] ensures Wired(m, j, |outs|) {
      if j != k {
        assert m in outs[j];
      }
    }
  }

  lemma EndsStayAddressed(ends: seq<End>, ends': seq<End>, k: nat, n: nat)
    requires k < |ends| == |ends'| == n
    requires forall j, m :: 0 <= j < n && m in ends[j].buf ==> Addressed(m, n)
    requires forall j :: 0 <= j < n && j != k ==> ends'[j] == ends[j]
    requires forall m :: m in ends'[k].buf ==> m in ends[k].buf || Wired(m, k, n)
    ensures forall j, m :: 0 <= j < n && m in ends'[j].buf ==> Addressed(m, n)
  {
    forall j, m | 0 <= j < n && m in ends'[j].buf ensures Addressed(m, n) {
      if j != k || m in ends[k].buf {
        assert m in ends[j].buf;
      }
    }
  }

  /** A connection tick moves messages from the ends into incoming queues, one for one. */
  lemma ConnTickConserves(w: World, now: nat, accepts: nat -> bool)
    requires Inv(w)
    ensures Inv(Next(w, ConnTick(now, accepts))) && Count(Next(w, ConnTick(now, accepts))) == Count(w)
  {
    ConnTickKeepsInv(w, now, accepts);
    ConnTickCounts(w, now, accepts);
  }

  lemma ConnTickCounts(w: World, now: nat, accepts: nat -> bool)
    requires Inv(w)
    ensures Count(Next(w, ConnTick(now, accepts))) == Count(w)
  {
    var n := |w.outs|;
    var h := HandleStep(w.conn, now, accepts);
    HandleDelivers(w.conn, now, accepts);
    HeadsAddressed(w.conn.ends, accepts, now, n, n);
    RoundIsolated(w.conn.ends, accepts, now, n);
    RouteAdds(w.inboxes, h.round.delivered);
  }

  lemma ConnTickKeepsInv(w: World, now: nat, accepts: nat -> bool)
    requires Inv(w)
    ensures Inv(Next(w, ConnTick(now, accepts)))
  {
    var n := |w.outs|;
    var h := HandleStep(w.conn, now, accepts);
    HandleKeepsWellFormed(w.conn, now, accepts);
    HandleUpdatesEnds(w.conn, now, accepts);
    HeadsAddressed(w.conn.ends, accepts, now, n, n);
    RoundIsolated(w.conn.ends, accepts, now, n);
    HandleKeepsAddressed(w.conn.ends, h.conn.ends, accepts, n);
  }

  /** A tick only drops buffer heads, so what stays buffered was buffered before. */
  lemma HandleKeepsAddressed(ends: seq<End>, ends': seq<End>, accepts: nat -> bool, n: nat)
    requires |ends| == |ends'| == n
    requires forall j, m :: 0 <= j < n && m in ends[j].buf ==> Addressed(m, n)
    requires forall j :: 0 <= j < n ==>
               && (ends[j].buf == [] ==> ends'[j] == ends[j])
               && (ends[j].buf != [] && accepts(j) ==> ends'[j].buf == ends[j].buf[1..])
               && (ends[j].buf != [] && !accepts(j) ==> ends'[j].buf == ends[j].buf)
    ensures forall j, m :: 0 <= j < n && m in ends'[j].buf ==> Addressed(m, n)
  {
    forall j, m | 0 <= j < n && m in ends'[j].buf ensures Addressed(m, n) {
      var e := ends[j];
      if e.buf != [] && accepts(j) {
        assert m in e.buf[1..];
      }
      assert m in e.buf;
    }
  }

  // ---------------------------------------------------------------------
  // No message is lost or duplicated

  lemma {:induction false} AllIdsUpdate(ss: seq<seq<Msg>>, k: nat, s: seq<Msg>)
    requires k < |ss|
    ensures AllIds(ss[k := s]) + Ids(ss[k]) == AllIds(ss) + Ids(s)
    decreases k
  {
    if k > 0 {
      AllIdsUpdate(ss[1..], k - 1, s);
      assert ss[k := s][1..] == ss[1..][k - 1 := s];
      assert AllIds(ss[k := s]) == Ids(ss[0]) + AllIds(ss[1..][k - 1 := s]);
      AddToBoth(Ids(ss[0]), AllIds(ss[1..][k - 1 := s]), Ids(ss[k]), AllIds(ss[1..]), Ids(s));
    } else {
      assert ss[k := s][1..] == ss[1..];
    }
  }

  /** Routing adds the identities of exactly the delivered messages to the queues. */
  lemma {:induction false} RouteKeepsIds(inboxes: seq<seq<Msg>>, ds: seq<Msg>)
    requires forall i :: 0 <= i < |ds| ==> Addressed(ds[i], |inboxes|)
    ensures AllIds(Route(inboxes, ds)) == AllIds(inboxes) + Ids(ds)
    decreases |ds|
  {
    if ds != [] {
      assert Addressed(ds[0], |inboxes|);
      var d := ds[0].dst.value;
      var next := inboxes[d := inboxes[d] + [ds[0]]];
      RouteKeepsIds(next, ds[1..]);
      AllIdsUpdate(inboxes, d, inboxes[d] + [ds[0]]);
      IdsAppend(inboxes[d], [ds[0]]);
      IdsOne(ds[0]);
      assert Ids(ds) == multiset{ds[0].id} + Ids(ds[1..]);
      var all, all', box := AllIds(inboxes), AllIds(next), Ids(inboxes[d]);
      var r := AllIds(Route(next, ds[1..]));
      forall z ensures r[z] == (all + Ids(ds))[z] {
        assert (all' + box)[z] == (all + (box + multiset{ds[0].id}))[z];
      }
    }
  }

  /** An agent's send moves its head, under the same identity, from its outgoing list into its end, or leaves both alone. */
  lemma AgentSendKeepsIds(a: AgentState, c: Conn, now: nat, incoming: Option<Msg>)
    requires WellFormed(c) && a.port < |c.ends| && c.ends[a.port].port == a.port
    requires a.msgsOut != [] ==> a.msgsOut[0].src == Some(a.port) && a.msgsOut[0].dst.Some? && a.msgsOut[0].dst != a.msgsOut[0].src
    ensures var o := AgentStep(a, c, now, incoming);
            Ids(o.agent.msgsOut) + Held(o.conn.ends) == Ids(a.msgsOut) + Held(c.ends)
  {
    if a.msgsOut != [] {
      var m := StampSend(a.msgsOut[0], now);
      SendKeepsIds(c, a.port, m);
      var s := SendStep(c, m);
      HeadMoves(a.msgsOut, m, s.result == Sent, Held(c.ends), Held(s.conn.ends));
    }
  }

  /** Sending the stamped head moves its identity into the connection; keeping it back moves nothing. */
  lemma HeadMoves(out: seq<Msg>, m: Msg, sent: bool, held: multiset<string>, held': multiset<string>)
    requires out != [] && m.id == out[0].id
    requires held' == held + (if sent then multiset{m.id} else multiset{})
    ensures Ids(if sent then out[1..] else [m] + out[1..]) + held' == Ids(out) + held
  {
    IdsOne(m);
    assert Ids(out) == multiset{m.id} + Ids(out[1..]);
    if !sent {
      IdsAppend([m], out[1..]);
    }
  }

  /** The bookkeeping of an agent tick on identities: the head moves into the end, the retrieved message from the queue into the received list. */
  lemma AgentTickAlgebra(outs: multiset<string>, outs': multiset<string>, out: multiset<string>, out': multiset<string>,
                         held: multiset<string>, held': multiset<string>,
                         boxes: multiset<string>, boxes': multiset<string>, box: multiset<string>, box': multiset<string>,
                         ins: multiset<string>, ins': multiset<string>, got: multiset<string>, in0: multiset<string>, in': multiset<string>)
    requires outs' + out == outs + out'
    requires out' + held' == out + held
    requires boxes' + box == boxes + box'
    requires box == got + box'
    requires ins' + in0 == ins + in'
    requires in' == in0 + got
    ensures outs' + held' + boxes' + ins' == outs + held + boxes + ins
  {
    forall z ensures (outs' + held' + boxes' + ins')[z] == (outs + held + boxes + ins)[z] {
      assert (outs' + out)[z] == (outs + out')[z];
      assert (out' + held')[z] == (out + held)[z];
      assert (boxes' + box)[z] == (boxes + box')[z];
      assert (ins' + in0)[z] == (ins + in')[z];
    }
  }

  /** An agent tick moves messages between places under their identities, losing and duplicating none. */
  lemma AgentTickKeepsIds(w: World, k: nat, now: nat)
    requires Inv(w)
    ensures Pool(Next(w, AgentTick(k, now))) == Pool(w)
  {
    if k < |w.outs| {
      var incoming := if w.inboxes[k] == [] then None else Some(w.inboxes[k][0]);
      var got := if incoming.Some? then [incoming.value] else [];
      var a := AgentState(k, w.outs[k], w.ins[k]);
      var o := AgentStep(a, w.conn, now, incoming);
      var inbox := if w.inboxes[k] == [] then [] else w.inboxes[k][1..];
      if a.msgsOut != [] {
        assert Wired(a.msgsOut[0], k, |w.outs|) by {
          assert a.msgsOut[0] in w.outs[k];
        }
      }
      AgentSendKeepsIds(a, w.conn, now, incoming);
      AllIdsUpdate(w.outs, k, o.agent.msgsOut);
      AllIdsUpdate(w.inboxes, k, inbox);
      AllIdsUpdate(w.ins, k, o.agent.msgsIn);
      IdsAppend(w.ins[k], got);
      assert Ids(w.inboxes[k]) == Ids(got) + Ids(inbox) by {
        if incoming.Some? {
          IdsOne(incoming.value);
        }
      }
      var w' := Next(w, AgentTick(k, now));
      assert w' == World(w.outs[k := o.agent.msgsOut], o.conn, w.inboxes[k := inbox], w.ins[k := o.agent.msgsIn]);
      AgentTickAlgebra(AllIds(w.outs), AllIds(w'.outs), Ids(w.outs[k]), Ids(o.agent.msgsOut),
                       Held(w.conn.ends), Held(o.conn.ends),
                       AllIds(w.inboxes), AllIds(w'.inboxes), Ids(w.inboxes[k]), Ids(inbox),
                       AllIds(w.ins), AllIds(w'.ins), Ids(got), Ids(w.ins[k]), Ids(o.agent.msgsIn));
    }
  }

  /** A connection tick moves messages, under their identities, from the ends into the destinations' queues. */
  lemma ConnTickKeepsIds(w: World, now: nat, accepts: nat -> bool)
    requires Inv(w)
    ensures Pool(Next(w, ConnTick(now, accepts))) == Pool(w)
  {
    var n := |w.outs|;
    var h := HandleStep(w.conn, now, accepts);
    HandleDelivers(w.conn, now, accepts);
    HeadsAddressed(w.conn.ends, accepts, now, n, n);
    RoundIsolated(w.conn.ends, accepts, now, n);
    RouteKeepsIds(w.inboxes, h.round.delivered);
    var w' := Next(w, ConnTick(now, accepts));
    assert w' == World(w.outs, h.conn, Route(w.inboxes, h.round.delivered), w.ins);
    ConnTickAlgebra(AllIds(w.outs), Held(w.conn.ends), Held(h.conn.ends), AllIds(w.inboxes), AllIds(w'.inboxes),
                    AllIds(w.ins), Ids(h.round.delivered));
  }

  /** The bookkeeping of a connection tick on identities: what leaves the ends arrives in the queues. */
  lemma ConnTickAlgebra(outs: multiset<string>, held: multiset<string>, held': multiset<string>,
                        boxes: multiset<string>, boxes': multiset<string>, ins: multiset<string>, moved: multiset<string>)
    requires held == held' + moved
    requires boxes' == boxes + moved
    ensures outs + held' + boxes' + ins == outs + held + boxes + ins
  {
    forall z ensures (outs + held' + boxes' + ins)[z] == (outs + held + boxes + ins)[z] {
    }
  }

  lemma StepKeepsIds(w: World, s: Step)
    requires Inv(w)
    ensures Pool(Next(w, s)) == Pool(w)
  {
    match s
    case AgentTick(k, now) => AgentTickKeepsIds(w, k, now);
    case ConnTick(now, accepts) => ConnTickKeepsIds(w, now, accepts);
  }

  /** Any run, under any engine order and any Recv answers, loses and duplicates no message. */
  lemma {:induction false} RunKeepsIds(w: World, steps: seq<Step>)
    requires Inv(w)
    ensures Pool(Run(w, steps)) == Pool(w)
    decreases |steps|
  {
    if steps != [] {
      StepConserves(w, steps[0]);
      StepKeepsIds(w, steps[0]);
      RunKeepsIds(Next(w, steps[0]), steps[1..]);
    }
  }

  lemma StepConserves(w: World, s: Step)
    requires Inv(w)
    ensures Inv(Next(w, s)) && Count(Next(w, s)) == Count(w) && |Next(w, s).outs| == |w.outs|
  {
    match s
    case AgentTick(k, now) => AgentTickConserves(w, k, now);
    case ConnTick(now, accepts) => ConnTickConserves(w, now, accepts);
  }

  function Run(w: World, steps: seq<Step>): (r: World)
    requires Inv(w)
    ensures Inv(r) && |r.outs| == |w.outs|
    decreases |steps|
  {
    if steps == [] then w
    else
      StepConserves(w, steps[0]);
      Run(Next(w, steps[0]), steps[1..])
  }

  /** Any run, under any engine order and any Recv answers, keeps the invariant and every message. */
  lemma {:induction false} RunConserves(w: World, steps: seq<Step>)
    requires Inv(w)
    ensures Inv(Run(w, steps)) && Count(Run(w, steps)) == Count(w) && |Run(w, steps).outs| == |w.outs|
    decreases |steps|
  {
    if steps != [] {
      StepConserves(w, steps[0]);
      RunConserves(Next(w, steps[0]), steps[1..]);
    }
  }

  /** The scenario's start: each agent holds its messages to send, every end (capacity 1) and queue is empty. */
  ghost predicate Initial(w: World, perAgent: nat)
  {
    var n := |w.outs|;
    && |w.inboxes| == n && |w.ins| == n
    && w.conn.ends == seq(n, k requires 0 <= k < n => End(k, [], false, 1))
    && (forall k :: 0 <= k < n ==> |w.outs[k]| == perAgent && w.inboxes[k] == [] && w.ins[k] == [])
    && (forall k, m :: 0 <= k < n && m in w.outs[k] ==> Wired(m, k, n))
  }

  /** Nothing is left to send, to deliver or to retrieve. */
  predicate Drained(w: World)
  {
    Sum(w.outs) == 0 && Buffered(w.conn.ends) == 0 && Sum(w.inboxes) == 0
  }

  lemma {:induction false} SumConst(ss: seq<seq<Msg>>, c: nat)
    requires forall k :: 0 <= k < |ss| ==> |ss[k]| == c
    ensures Sum(ss) == |ss| * c
    decreases |ss|
  {
    if ss != [] {
      SumConst(ss[1..], c);
    }
  }

  lemma {:induction false} BufferedEmpty(ends: seq<End>)
    requires forall k :: 0 <= k < |ends| ==> ends[k].buf == []
    ensures Buffered(ends) == 0
    decreases |ends|
  {
    if ends != [] {
      BufferedEmpty(ends[1..]);
    }
  }

  /**
   * Conservation: after any run from the scenario's start, the agents have
   * received no more than agents × messages-per-agent messages, and exactly
   * that many once every queue is drained.
   */
  lemma Conservation(w: World, perAgent: nat, steps: seq<Step>)
    requires Initial(w, perAgent)
    ensures Inv(w)
    ensures Sum(Run(w, steps).ins) <= |w.outs| * perAgent
    ensures Drained(Run(w, steps)) ==> Sum(Run(w, steps).ins) == |w.outs| * perAgent
  {
    var n := |w.outs|;
    assert forall k :: 0 <= k < n ==> w.conn.ends[k] == End(k, [], false, 1);
    SumConst(w.outs, perAgent);
    SumConst(w.inboxes, 0);
    SumConst(w.ins, 0);
    BufferedEmpty(w.conn.ends);
    RunConserves(w, steps);
  }

  /**
   * No message is lost or duplicated: after any run from the scenario's
   * start, every message an agent received is one that was to be sent, each
   * at most as often as it was to be sent, and once every queue is drained
   * the agents have received exactly the messages that were to be sent.
   */
  lemma ConservationIds(w: World, perAgent: nat, steps: seq<Step>)
    requires Initial(w, perAgent)
    ensures Inv(w)
    ensures AllIds(Run(w, steps).ins) <= AllIds(w.outs)
    ensures Drained(Run(w, steps)) ==> AllIds(Run(w, steps).ins) == AllIds(w.outs)
  {
    var n := |w.outs|;
    Conservation(w, perAgent, steps);
    assert forall k :: 0 <= k < n ==> w.conn.ends[k] == End(k, [], false, 1);
    SumConst(w.inboxes, 0);
    SumConst(w.ins, 0);
    BufferedEmpty(w.conn.ends);
    assert Pool(w) == AllIds(w.outs);
    RunKeepsIds(w, steps);
    RunConserves(w, steps);
  }
}
