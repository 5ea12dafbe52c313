/**
 * The simulation kernel's vocabulary: port references, timed messages and
 * the tick events a component asks the engine to schedule. Virtual time is
 * counted in whole cycles (a frequency of 1 makes the next tick `now + 1`).
 */
module Sim {

  datatype Option<T> = None | Some(value: T)

  /** A port is known to the connection by an identity. */
  type PortId = nat

  /**
   * A message envelope. `src` and `dst` may be absent (a nil port in the
   * source); `recvTime` is absent until the connection delivers the message.
   */
  datatype Msg = Msg(
    id: string,
    src: Option<PortId>,
    dst: Option<PortId>,
    sendTime: nat,
    recvTime: Option<nat>)

  /** An event handed to the engine's Schedule: its time and whether it is secondary. */
  datatype TickEvent = TickEvent(time: nat, secondary: bool)

  /** The message as the sender stamps it before sending. */
  function StampSend(m: Msg, now: nat): Msg
  {
    m.(sendTime := now)
  }

  /** The message as the connection stamps it on delivery. */
  function StampRecv(m: Msg, now: nat): Msg
  {
    m.(recvTime := Some(now))
  }

  /** The identities of a list of messages, counted with their repetitions. */
  function Ids(ms: seq<Msg>): (r: multiset<string>)
    ensures |r| == |ms|
  {
    if ms == [] then multiset{} else multiset{ms[0].id} + Ids(ms[1..])
  }

  lemma {:induction false} IdsAppend(a: seq<Msg>, b: seq<Msg>)
    ensures Ids(a + b) == Ids(a) + Ids(b)
    decreases |a|
  {
    if a == [] {
      assert a + b == b;
    } else {
      IdsAppend(a[1..], b);
      assert (a + b)[0] == a[0] && (a + b)[1..] == a[1..] + b;
      assert Ids(a + b) == multiset{a[0].id} + Ids(a[1..] + b);
      assert Ids(a) == multiset{a[0].id} + Ids(a[1..]);
    }
  }

  lemma IdsOne(m: Msg)
    ensures Ids([m]) == multiset{m.id}
  {
    assert [m][1..] == [];
  }
}
