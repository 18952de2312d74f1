/** No message is lost, doubled or overtaken but by a cut connection: the Rust
    client's queue and connection in order (rust-jfs/src/utils.rs). */
module ReconnectOrder {
  import opened Mapping
  import opened Reconnect

  // ---------------------------------------------------------------- history

  /** What a step puts into the queue: a call, or the whole local set. */
  function Puts(s: State, step: Step): seq<Msg> {
    match step
    case Finish(c) => if c in s.calls then [MsgOf(s.calls[c])] else []
    case Replay => if s.phase.Replaying? then [Keys(Edit(true, s.phase.order))] else []
    case _ => []
  }

  /** What it takes out. */
  function Takes(s: State, step: Step): seq<Msg> {
    if step.Take? && s.queue != [] then [s.queue[0]] else []
  }

  /** All messages put into the queue, the clear signal first. */
  function PutIn(steps: seq<Step>): seq<Msg> {
    if steps == [] then [Clear]
    else
      var front := steps[..|steps| - 1];
      PutIn(front) + match Exec(front) case None => [] case Some(s) => Puts(s, steps[|steps| - 1])
  }

  /** All that the writers of all connections have taken. */
  function TakenOut(steps: seq<Step>): seq<Msg> {
    if steps == [] then []
    else
      var front := steps[..|steps| - 1];
      TakenOut(front) +
      match Exec(front)
      case None => []
      case Some(s) => Takes(s, steps[|steps| - 1])
  }

  /** Those that the writer of the current connection has taken. */
  function TakenHere(steps: seq<Step>): seq<Msg> {
    if steps == [] || steps[|steps| - 1].Dial? then []
    else
      var front := steps[..|steps| - 1];
      TakenHere(front) +
      match Exec(front)
      case None => []
      case Some(s) => Takes(s, steps[|steps| - 1])
  }

  /** Those of them that have reached the proxy, handled or refused. */
  function Arrived(steps: seq<Step>): seq<Msg> {
    if steps == [] || steps[|steps| - 1].Dial? then []
    else
      var front := steps[..|steps| - 1];
      Arrived(front) +
      match Exec(front)
      case None => []
      case Some(s) => if steps[|steps| - 1].Handle? && s.conn.wire != [] then [s.conn.wire[0]] else []
  }

  // --------------------------------------------------------------- theorems

  lemma StepInQueue(s: State, step: Step)
    requires Next(s, step).Some?
    ensures s.queue + Puts(s, step) == Takes(s, step) + Next(s, step).value.queue
    ensures |s.queue| <= 100 ==> |Next(s, step).value.queue| <= 100
  {
    if step.Take? {
      assert s.queue == [s.queue[0]] + s.queue[1..];
    }
  }

  /** The queue is first in, first out, across all connections, and bounded. */
  lemma {:induction false} QueueInOrder(steps: seq<Step>)
    requires Exec(steps).Some?
    ensures PutIn(steps) == TakenOut(steps) + Exec(steps).value.queue
    ensures |Exec(steps).value.queue| <= 100
  {
    if steps != [] {
      var front, step := steps[..|steps| - 1], steps[|steps| - 1];
      QueueInOrder(front);
      var s, s' := Exec(front).value, Exec(steps).value;
      StepInQueue(s, step);
      assert TakenOut(front) + s.queue + Puts(s, step) == TakenOut(front) + (s.queue + Puts(s, step));
      assert TakenOut(front) + (Takes(s, step) + s'.queue) == TakenOut(front) + Takes(s, step) + s'.queue;
    }
  }

  function HeldBy(k: Conn): seq<Msg> {
    if k.held.Some? then [k.held.value] else []
  }

  /** Taken, arrived, on the wire and held: in order; all of them accounted for
      while the connection is not broken, and no more on the wire afterwards than
      was before. */
  predicate InOrder(taken: seq<Msg>, arrived: seq<Msg>, k: Conn) {
    arrived + k.wire <= taken && (!k.broken ==> taken == arrived + k.wire + HeldBy(k))
  }

  lemma {:induction false} WireInOrder(steps: seq<Step>)
    requires Exec(steps).Some? && !Exec(steps).value.phase.Down?
    ensures InOrder(TakenHere(steps), Arrived(steps), Exec(steps).value.conn)
    ensures !Exec(steps).value.conn.refused ==> Arrived(steps) == Exec(steps).value.conn.handled
  {
    var front, step := steps[..|steps| - 1], steps[|steps| - 1];
    var s := Exec(front).value;
    if !step.Dial? {
      WireInOrder(front);
      StepInOrder(s, step, TakenHere(front), Arrived(front));
    }
  }

  lemma StepInOrder(s: State, step: Step, taken: seq<Msg>, arrived: seq<Msg>)
    requires Next(s, step).Some? && !step.Dial? && InOrder(taken, arrived, s.conn)
    ensures InOrder(taken + Takes(s, step),
                    arrived + (if step.Handle? && s.conn.wire != [] then [s.conn.wire[0]] else []),
                    Next(s, step).value.conn)
  {
    var k, k' := s.conn, Next(s, step).value.conn;
    assert taken + [] == taken && arrived + [] == arrived;
    if step.Handle? {
      assert arrived + [k.wire[0]] + k.wire[1..] == arrived + k.wire;
    } else if step.Take? {
      assert arrived + k.wire + [] == arrived + k.wire;
      assert k'.wire == k.wire && k'.broken == k.broken && HeldBy(k) == [] && HeldBy(k') == Takes(s, step);
    } else if step.Write? {
      assert !k.broken ==> arrived + k.wire + HeldBy(k) == arrived + (k.wire + HeldBy(k)) + [];
    } else {
      assert k'.wire == k.wire && (k'.broken || (k'.held == k.held && k'.broken == k.broken));
    }
  }
}
