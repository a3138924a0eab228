/**
 * SyncManager: the delayed replication relay. A FIFO buffer of samples; a
 * sample is handed out only once `simulatedDelay` seconds have passed since
 * its capture, at most one per call, always the oldest one first.
 */
module Sync {
  import opened Vectors
  import opened SyncMessages

  /** The inspector default of `simulatedDelay`. */
  const DefaultDelay: real := 0.2

  /** A sample is due at clock `now` once the delay has fully elapsed (inclusive bound). */
  predicate Due(m: SyncMessage, now: real, delay: real) {
    now - m.time >= delay
  }

  /** What one TryGetMessage call yields: the return value, the out parameter and the remaining buffer. */
  datatype Poll = Poll(ok: bool, msg: SyncMessage, rest: seq<SyncMessage>)

  /** The messages a poll hands out: none or exactly one. */
  function Released(p: Poll): seq<SyncMessage> {
    if p.ok then [p.msg] else []
  }

  /** The effect of TryGetMessage on buffer contents `q` at clock `now`. */
  function TryRelease(q: seq<SyncMessage>, now: real, delay: real): (p: Poll)
    ensures p.ok <==> q != [] && Due(q[0], now, delay)
    ensures Released(p) + p.rest == q
    ensures !p.ok ==> p.msg == Default
  {
    if |q| == 0 then Poll(false, Default, q)
    else if Due(q[0], now, delay) then Poll(true, q[0], q[1..])
    else Poll(false, Default, q)
  }

  // ---------------------------------------------------------------------
  // Traces of calls into the relay

  /** A call into the relay: SendMessage(m), or TryGetMessage at clock `now`. */
  datatype Call = Send(m: SyncMessage) | Try(now: real)

  /** A message handed out, with the clock value of the call that released it. */
  datatype Delivery = Delivery(at: real, msg: SyncMessage)

  /** The outcome of a trace: what was delivered, in order, and what is still buffered. */
  datatype Trace = Trace(delivered: seq<Delivery>, rest: seq<SyncMessage>)

  /** The messages a call sends: the one SendMessage(m) sends, or none. */
  function SentBy(c: Call): seq<SyncMessage> {
    if c.Send? then [c.m] else []
  }

  /** One call against a buffer holding `q`: what it delivers and the buffer afterwards. */
  function Step(q: seq<SyncMessage>, c: Call, delay: real): (t: Trace)
    ensures |t.delivered| <= (if c.Try? then 1 else 0)
    ensures forall d :: d in t.delivered ==> Due(d.msg, d.at, delay)
  {
    match c
    case Send(m) => Trace([], q + [m])
    case Try(now) =>
      var p := TryRelease(q, now, delay);
      Trace(if p.ok then [Delivery(now, p.msg)] else [], p.rest)
  }

  /** Runs `calls`, in order, against a buffer holding `q`. */
  function Replay(q: seq<SyncMessage>, calls: seq<Call>, delay: real): Trace
    decreases |calls|
  {
    if calls == [] then Trace([], q)
    else
      var s := Step(q, calls[0], delay);
      var t := Replay(s.rest, calls[1..], delay);
      Trace(s.delivered + t.delivered, t.rest)
  }

  function Msgs(ds: seq<Delivery>): (ms: seq<SyncMessage>)
    ensures |ms| == |ds|
  {
    if ds == [] then [] else [ds[0].msg] + Msgs(ds[1..])
  }

  lemma {:induction false} MsgsAppend(a: seq<Delivery>, b: seq<Delivery>)
    ensures Msgs(a + b) == Msgs(a) + Msgs(b)
    decreases |a|
  {
    if a == [] {
      assert a + b == b;
    } else {
      assert (a + b)[1..] == a[1..] + b;
      MsgsAppend(a[1..], b);
    }
  }

  lemma Assoc<T>(a: seq<T>, b: seq<T>, c: seq<T>)
    ensures a + b + c == a + (b + c)
  {
  }

  /** The messages sent by a trace, in send order. */
  function Sent(calls: seq<Call>): seq<SyncMessage> {
    if calls == [] then [] else SentBy(calls[0]) + Sent(calls[1..])
  }

  /** The number of TryGetMessage calls in a trace. */
  function Tries(calls: seq<Call>): nat {
    if calls == [] then 0
    else (if calls[0].Try? then 1 else 0) + Tries(calls[1..])
  }

  /** One call neither loses, duplicates nor reorders anything. */
  lemma StepExactlyOnce(q: seq<SyncMessage>, c: Call, delay: real)
    ensures var s := Step(q, c, delay); Msgs(s.delivered) + s.rest == q + SentBy(c)
  {
  }

  /**
   * Exactly-once, in order: the delivered messages followed by the ones still
   * buffered are precisely the initial buffer followed by every message sent.
   * Nothing is lost, duplicated or reordered, whatever the timestamps are.
   */
  lemma {:induction false} ReplayExactlyOnce(q: seq<SyncMessage>, calls: seq<Call>, delay: real)
    ensures var t := Replay(q, calls, delay); Msgs(t.delivered) + t.rest == q + Sent(calls)
    decreases |calls|
  {
    if calls != [] {
      var s := Step(q, calls[0], delay);
      var t := Replay(s.rest, calls[1..], delay);
      StepExactlyOnce(q, calls[0], delay);
      ReplayExactlyOnce(s.rest, calls[1..], delay);
      MsgsAppend(s.delivered, t.delivered);
      var ms, mt := Msgs(s.delivered), Msgs(t.delivered);
      var sb, sr := SentBy(calls[0]), Sent(calls[1..]);
      Assoc(ms, mt, t.rest);
      Assoc(ms, s.rest, sr);
      Assoc(q, sb, sr);
    }
  }

  /** A message is only ever handed out by a call whose clock shows it due. */
  lemma {:induction false} ReplayDeliversOnlyDue(q: seq<SyncMessage>, calls: seq<Call>, delay: real)
    ensures forall d :: d in Replay(q, calls, delay).delivered ==> Due(d.msg, d.at, delay)
    decreases |calls|
  {
    if calls != [] {
      var s := Step(q, calls[0], delay);
      ReplayDeliversOnlyDue(s.rest, calls[1..], delay);
    }
  }

  /** At most one message is released per TryGetMessage call. */
  lemma {:induction false} ReplayAtMostOnePerTry(q: seq<SyncMessage>, calls: seq<Call>, delay: real)
    ensures |Replay(q, calls, delay).delivered| <= Tries(calls)
    decreases |calls|
  {
    if calls != [] {
      var s := Step(q, calls[0], delay);
      ReplayAtMostOnePerTry(s.rest, calls[1..], delay);
    }
  }

  /**
   * Head-of-line blocking: while the oldest buffered message is not due at
   * any poll, nothing at all is released, even messages behind it whose
   * timestamps are already old enough.
   */
  lemma {:induction false} HeadBlocks(q: seq<SyncMessage>, calls: seq<Call>, delay: real)
    requires q != []
    requires forall c :: c in calls && c.Try? ==> !Due(q[0], c.now, delay)
    ensures var t := Replay(q, calls, delay); t.delivered == [] && t.rest == q + Sent(calls)
    decreases |calls|
  {
    if calls != [] {
      assert calls[0] in calls;
      var s := Step(q, calls[0], delay);
      assert s.delivered == [] && s.rest == q + SentBy(calls[0]);
      assert s.rest[0] == q[0];
      assert forall c :: c in calls[1..] ==> c in calls;
      HeadBlocks(s.rest, calls[1..], delay);
      Assoc(q, SentBy(calls[0]), Sent(calls[1..]));
    }
  }

  /**
   * Eventual delivery: once every buffered message is due, as many polls as
   * there are messages drain the buffer, delivering it in order.
   */
  lemma {:induction false} DrainsWhenDue(q: seq<SyncMessage>, calls: seq<Call>, delay: real)
    requires forall c :: c in calls ==> c.Try?
    requires |calls| >= |q|
    requires forall c, m :: c in calls && m in q ==> Due(m, c.now, delay)
    ensures var t := Replay(q, calls, delay); t.rest == [] && Msgs(t.delivered) == q
    decreases |calls|
  {
    if calls != [] {
      assert calls[0] in calls;
      assert forall c :: c in calls[1..] ==> c in calls;
      var s := Step(q, calls[0], delay);
      var t := Replay(s.rest, calls[1..], delay);
      if q != [] {
        assert q[0] in q;
        assert forall m :: m in q[1..] ==> m in q;
        assert s.delivered == [Delivery(calls[0].now, q[0])] && s.rest == q[1..];
        DrainsWhenDue(q[1..], calls[1..], delay);
        MsgsAppend(s.delivered, t.delivered);
        assert Msgs(s.delivered) == [q[0]];
      } else {
        DrainsWhenDue(q, calls[1..], delay);
        MsgsAppend(s.delivered, t.delivered);
      }
    }
  }

  /**
   * The relay object. `buffer` is the Queue<SyncMessage>; the ghost fields
   * record every message ever sent and every message ever released, and the
   * invariant says that the released ones followed by the buffer are exactly
   * the sent ones.
   */
  class SyncManager {
    var simulatedDelay: real
    /** The SyncInterval property: at most about 33 samples per second. */
    const SyncInterval: real := 0.03
    var buffer: seq<SyncMessage>
    ghost var sent: seq<SyncMessage>
    ghost var released: seq<SyncMessage>

    ghost predicate Valid()
      reads this
    {
      released + buffer == sent
    }

    constructor (delay: real)
      ensures Valid()
      ensures simulatedDelay == delay && buffer == [] && sent == [] && released == []
    {
      simulatedDelay := delay;
      buffer := [];
      sent, released := [], [];
    }

    method SendMessage(msg: SyncMessage)
      requires Valid()
      modifies this
      ensures Valid()
      ensures buffer == old(buffer) + [msg]
      ensures sent == old(sent) + [msg] && released == old(released)
      ensures simulatedDelay == old(simulatedDelay)
    {
      buffer := buffer + [msg];
      sent := sent + [msg];
    }

    method TryGetMessage(now: real) returns (ok: bool, msg: SyncMessage)
      requires Valid()
      modifies this
      ensures Valid()
      ensures var p := TryRelease(old(buffer), now, simulatedDelay);
        ok == p.ok && msg == p.msg && buffer == p.rest
      ensures released == old(released) + (if ok then [msg] else [])
      ensures sent == old(sent) && simulatedDelay == old(simulatedDelay)
    {
      if |buffer| == 0 {
        msg := Default;
        return false, msg;
      }
      var peek := buffer[0];
      if now - peek.time >= simulatedDelay {
        msg := buffer[0];
        buffer := buffer[1..];
        released := released + [msg];
        return true, msg;
      }
      msg := Default;
      return false, msg;
    }
  }

  /**
   * A relay with the default delay of 0.2: a sample captured at 1.0 is held
   * at 1.1, released at 1.25, and a second poll right after finds the buffer
   * empty.
   */
  method DelayScenario(pos: Vec3)
  {
    var relay := new SyncManager(DefaultDelay);
    var m := Create(1.0, pos, false);
    relay.SendMessage(m);
    var ok, got := relay.TryGetMessage(1.1);
    assert !ok && relay.buffer == [m];
    ok, got := relay.TryGetMessage(1.25);
    assert ok && got == m && relay.buffer == [];
    ok, got := relay.TryGetMessage(1.25);
    assert !ok && relay.released == [m];
  }
}
