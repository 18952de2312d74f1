/** What reaches a client: every Deliver visits every client that is registered
    while it collects (k8s/pkg/multicast/server.go). */
module ProxyDelivery {
  import opened Wire
  import opened ProxyClient
  import opened ProxySystem

  // ------------------------------------------------------------- one Deliver

  /** Whatever state a registered client is in, its queue full or its teardown
      begun, collecting asks for its visit with the whole payload; nobody else
      is asked. */
  lemma CollectReachesAll(steps: seq<Step>, order: seq<Cid>, c: Cid)
    requires Exec(steps).Some? && c in Exec(steps).value.clients
    requires SysNext(Exec(steps).value, Step.Collect(order)).Some?
    ensures var s, s' := Exec(steps).value, SysNext(Exec(steps).value, Step.Collect(order)).value;
            && s.fan.Collecting? && c in s'.clients && s'.fan.Visiting?
            && (c in s'.fan.todo <==> s.clients[c].life.published)
            && (s.clients[c].life.published ==>
                  && FanIs(s'.clients[c], Queued(s.fan.p))
                  && s'.clients[c].order.delivered == s.clients[c].order.delivered + EventsOf(s.fan.p))
            && (!s.clients[c].life.published ==> s'.clients[c] == s.clients[c])
  {
    var s := Exec(steps).value;
    assert forall x | x in order :: x in Published(s);
    assert s.clients[c].life.published ==> c in Published(s);
  }

  // -------------------------------------------------------------- all of them

  /** The payload of the last Deliver. */
  function LastPayload(steps: seq<Step>): Payload {
    if steps == [] then Malformed
    else if steps[|steps| - 1].Deliver? then steps[|steps| - 1].p
    else LastPayload(steps[..|steps| - 1])
  }

  /** The events of all payloads that were collected while the client was in
      watchClients, in order. */
  function DeliveredTo(steps: seq<Step>, c: Cid): seq<Event> {
    if steps == [] then []
    else
      var front, step := steps[..|steps| - 1], steps[|steps| - 1];
      DeliveredTo(front, c) +
      match Exec(front)
      case None => []
      case Some(s) =>
        if step.Collect? && c in s.clients && s.clients[c].life.published then EventsOf(LastPayload(front)) else []
  }

  lemma {:induction false} PayloadAtHand(steps: seq<Step>)
    requires Exec(steps).Some? && (Exec(steps).value.fan.DeliverWant? || Exec(steps).value.fan.Collecting?)
    ensures Exec(steps).value.fan.p == LastPayload(steps)
  {
    var front, step := steps[..|steps| - 1], steps[|steps| - 1];
    if !step.Deliver? {
      FanKeepsPayload(Exec(front).value, step);
      PayloadAtHand(front);
    }
  }

  lemma FanKeepsPayload(s: Sys, step: Step)
    requires SysNext(s, step).Some? && !step.Deliver?
    requires var fan := SysNext(s, step).value.fan; fan.DeliverWant? || fan.Collecting?
    ensures (s.fan.DeliverWant? || s.fan.Collecting?) && SysNext(s, step).value.fan.p == s.fan.p
  {
  }

  /** A thread adds nothing to what was delivered, and does not undo the first
      step of a teardown. */
  predicate NoneDelivered(c: Client, c': Client) {
    c'.order.delivered == c.order.delivered && (c.life.done ==> c'.life.done)
  }

  lemma SendDeliversNone(c: Client, t: Tid, s: SendPc, k: Kont, ch: Choice)
    requires SendStep(c, t, s, k, ch).Some?
    ensures NoneDelivered(c, SendStep(c, t, s, k, ch).value)
  {
  }

  lemma ShutDeliversNone(c: Client, t: Tid, x: ShutPc, k: Kont)
    requires ShutStep(c, t, x, k).Some?
    ensures NoneDelivered(c, ShutStep(c, t, x, k).value)
  {
  }

  lemma RunDeliversNone(c: Client, t: Tid, ch: Choice)
    requires ThreadStep(c, t, ch).Some?
    ensures NoneDelivered(c, ThreadStep(c, t, ch).value)
  {
    if c.threads[t].Send? {
      SendDeliversNone(c, t, c.threads[t].s, c.threads[t].k, ch);
    } else if c.threads[t].Shut? {
      ShutDeliversNone(c, t, c.threads[t].x, c.threads[t].k);
    }
  }

  lemma OthersKeepDelivered(s: Sys, step: Step, c: Cid)
    requires c in s.clients && SysNext(s, step).Some? && !step.Collect?
    ensures c in SysNext(s, step).value.clients
    ensures SysNext(s, step).value.clients[c].order.delivered == s.clients[c].order.delivered
  {
    if step.Local? && step.c == c && step.l.Run? {
      RunDeliversNone(s.clients[c], step.l.t, step.l.ch);
    }
  }

  lemma {:induction false} DeliveredIsAll(steps: seq<Step>, c: Cid)
    requires Exec(steps).Some?
    ensures c in Exec(steps).value.clients ==>
              Exec(steps).value.clients[c].order.delivered == DeliveredTo(steps, c)
    ensures c !in Exec(steps).value.clients ==> DeliveredTo(steps, c) == []
  {
    if steps != [] {
      var front, step := steps[..|steps| - 1], steps[|steps| - 1];
      var s := Exec(front).value;
      DeliveredIsAll(front, c);
      if c in s.clients {
        if step.Collect? {
          CollectReachesAll(front, step.order, c);
          PayloadAtHand(front);
        } else {
          OthersKeepDelivered(s, step, c);
        }
      } else if c in Exec(steps).value.clients {
        OnlyAcceptAdds(s, step, c);
      }
    }
  }
}
