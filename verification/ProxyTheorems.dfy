/** What holds for each client in every run of the proxy. */
module ProxyTheorems {
  import opened Prelude
  import opened Wire
  import opened Mapping
  import D = Debounce
  import opened ProxyClient
  import opened ProxyClientInv
  import opened ProxyOrder
  import opened ProxySystem
  import opened ProxyDelivery

  // ------------------------------------------------------ ordered delivery

  /** In every reachable state the frames on the wire whose Op is not exactly
      WRITE are a prefix of the translations of what the fan-out translated, and
      that is a prefix of the events of all payloads delivered while the client
      was registered. */
  lemma OrderedDelivery(steps: seq<Step>, c: Cid)
    requires Exec(steps).Some? && c in Exec(steps).value.clients
    ensures var cl := Exec(steps).value.clients[c];
            && NonWrite(cl.queue.written) <= Expected(cl.order.offered)
            && OfferedEvents(cl.order.offered) <= NonWrite(DeliveredTo(steps, c))
  {
    RunKeepsInv(steps);
    DeliveredIsAll(steps, c);
    var cl := Exec(steps).value.clients[c];
    assert ClientInv(cl);
    WrittenIsAccepted(cl);
    NonWritePrefix(cl.queue.written, cl.queue.accepted);
  }

  lemma WrittenIsAccepted(cl: Client)
    requires QueueInv(cl)
    ensures cl.queue.written <= cl.queue.accepted
  {
  }

  /** The mapped ones of `es`, translated by `m`. */
  function TranslateAll(m: PathMap, es: seq<Event>): seq<Event> {
    if es == [] then []
    else
      var e := es[|es| - 1];
      TranslateAll(m, es[..|es| - 1]) + (if e.key in m then [Translate(e, m)] else [])
  }

  lemma {:induction false} ExpectedByOneMap(os: seq<(Event, PathMap)>, m: PathMap)
    requires forall o | o in os :: o.1 == m
    ensures Expected(os) == TranslateAll(m, OfferedEvents(os))
  {
    if os != [] {
      var front, o := os[..|os| - 1], os[|os| - 1];
      assert forall x | x in front :: x in os;
      ExpectedByOneMap(front, m);
      assert o in os;
      assert OfferedEvents(os)[..|os| - 1] == OfferedEvents(front);
    }
  }

  lemma {:induction false} TranslateAllPrefix(m: PathMap, a: seq<Event>, b: seq<Event>)
    requires a <= b
    ensures TranslateAll(m, a) <= TranslateAll(m, b)
    decreases |b|
  {
    if a != b {
      assert a <= b[..|b| - 1];
      TranslateAllPrefix(m, a, b[..|b| - 1]);
    }
  }

  /** With the path map unchanged while the fan-out translates, what is on the
      wire (WRITEs aside) is a prefix of all mapped events delivered, translated,
      in order: no gap, even when the queue overflows in the middle of a batch. */
  lemma FixedMapDelivery(steps: seq<Step>, c: Cid, m: PathMap)
    requires Exec(steps).Some? && c in Exec(steps).value.clients
    requires forall o | o in Exec(steps).value.clients[c].order.offered :: o.1 == m
    ensures var cl := Exec(steps).value.clients[c];
            NonWrite(cl.queue.written) <= TranslateAll(m, NonWrite(DeliveredTo(steps, c)))
  {
    var cl := Exec(steps).value.clients[c];
    OrderedDelivery(steps, c);
    ExpectedByOneMap(cl.order.offered, m);
    TranslateAllPrefix(m, OfferedEvents(cl.order.offered), NonWrite(DeliveredTo(steps, c)));
  }

  /** While the connection is up and the fan-out is not at work on the client,
      every mapped event delivered so far has been queued. */
  lemma NothingIsSkipped(steps: seq<Step>, c: Cid)
    requires Exec(steps).Some? && c in Exec(steps).value.clients
    requires var cl := Exec(steps).value.clients[c]; !cl.life.done && FanIs(cl, Away)
    ensures var cl := Exec(steps).value.clients[c];
            && OfferedEvents(cl.order.offered) == NonWrite(DeliveredTo(steps, c))
            && NonWrite(cl.queue.accepted) == Expected(cl.order.offered)
  {
    RunKeepsInv(steps);
    DeliveredIsAll(steps, c);
    var cl := Exec(steps).value.clients[c];
    assert ClientInv(cl);
    AllTaken(cl);
  }

  lemma AllTaken(cl: Client)
    requires OrderInv(cl) && !cl.life.done && FanIs(cl, Away)
    ensures OfferedEvents(cl.order.offered) == NonWrite(cl.order.delivered)
    ensures NonWrite(cl.queue.accepted) == Expected(cl.order.offered)
  {
    assert OfferedEvents(cl.order.offered) + [] == OfferedEvents(cl.order.offered);
    assert NonWrite(cl.queue.accepted) + [] == NonWrite(cl.queue.accepted);
  }

  // ----------------------------------------------------------- the queue

  /** Accepted frames = written ++ (at most one held or lost by the writer) ++
      queued, in order, and the queue never holds more than 255. */
  lemma QueueConservation(steps: seq<Step>, c: Cid)
    requires Exec(steps).Some? && c in Exec(steps).value.clients
    ensures var cl := Exec(steps).value.clients[c];
            && |cl.queue.q| <= 255
            && |Held(cl) + cl.queue.lost| <= 1
            && cl.queue.accepted == cl.queue.written + (Held(cl) + cl.queue.lost) + cl.queue.q
  {
    RunKeepsInv(steps);
    var cl := Exec(steps).value.clients[c];
    assert ClientInv(cl);
  }

  /** Nothing is written, or the held frame on an open connection that no write
      has failed on. */
  predicate WritesHeld(cl: Client, cl': Client) {
    || cl'.queue.written == cl.queue.written
    || (cl.life.connOpen && cl.queue.lost == [] && Held(cl) != [] && cl'.queue.written == cl.queue.written + Held(cl))
  }

  /** A step writes at most the frame the writer holds, and only while the
      connection is open and no write has failed. */
  lemma WrittenOnlyWhileOpen(steps: seq<Step>, step: Step, c: Cid)
    requires Exec(steps).Some? && c in Exec(steps).value.clients && SysNext(Exec(steps).value, step).Some?
    ensures c in SysNext(Exec(steps).value, step).value.clients
    ensures WritesHeld(Exec(steps).value.clients[c], SysNext(Exec(steps).value, step).value.clients[c])
  {
    RunKeepsInv(steps);
    var s := Exec(steps).value;
    var l := ClientMoves(s, step, c);
    if l.Some? {
      ClientWrites(s.clients[c], l.value);
    }
  }

  lemma ClientWrites(cl: Client, l: Label)
    requires ClientInv(cl) && ProxyClient.Next(cl, l).Some?
    ensures WritesHeld(cl, ProxyClient.Next(cl, l).value)
  {
    if l.Run? {
      WrittenByWriter(cl, l.t, l.ch);
    }
  }

  lemma WrittenByWriter(cl: Client, t: Tid, ch: Choice)
    requires ClientInv(cl) && ThreadStep(cl, t, ch).Some?
    ensures WritesHeld(cl, ThreadStep(cl, t, ch).value)
  {
    MoveKeepsCommon(cl, t, ch);
    if cl.threads[t].Loop? {
      assert Typed(t, cl.threads[t]);
      LoopWrites(cl, cl.threads[t].o, ch);
    }
  }

  lemma LoopWrites(cl: Client, o: LoopPc, ch: Choice)
    requires Writer in cl.threads && cl.threads[Writer] == Loop(o) && QueueInv(cl) && LoopStep(cl, o, ch).Some?
    ensures WritesHeld(cl, LoopStep(cl, o, ch).value)
  {
  }

  // ----------------------------------------------------------- lifecycle

  /** A client in watchClients has its frame connection and its helper; one not
      yet published has an empty queue, nothing pending, and is not being shut
      down; Remove runs at most once; a finished teardown has left the map, closed
      the watcher with nothing pending and run Remove exactly once. */
  lemma Lifecycle(steps: seq<Step>, c: Cid)
    requires Exec(steps).Some? && c in Exec(steps).value.clients
    ensures var cl := Exec(steps).value.clients[c];
            && Reader in cl.threads
            && (cl.life.published ==> cl.life.fconn && cl.life.helper)
            && (Unpublished(cl.threads[Reader]) ==>
                  && !cl.life.published && cl.queue.q == [] && cl.w.state.timers == []
                  && cl.life.once.Fresh? && forall t | t in cl.threads :: !cl.threads[t].Shut?)
            && cl.life.removes <= 1
            && (cl.life.once.Over? ==>
                  && !cl.life.published && cl.life.done && !cl.life.connOpen
                  && cl.w.state.closed && cl.w.state.pending == map[] && cl.life.removes == 1)
  {
    RunKeepsInv(steps);
    var cl := Exec(steps).value.clients[c];
    assert ClientInv(cl);
    if Unpublished(cl.threads[Reader]) {
      forall t | t in cl.threads ensures !cl.threads[t].Shut? {
        assert Typed(t, cl.threads[t]);
        assert t.Callback? ==> CallbackFits(cl, t.id);
      }
    }
    assert cl.life.once.Running? ==> OnceFits(cl, cl.life.once.t);
  }

  lemma OverStays(cl: Client, l: Label)
    requires ClientInv(cl) && cl.life.once.Over? && ProxyClient.Next(cl, l).Some?
    ensures ProxyClient.Next(cl, l).value.life.once.Over?
  {
    if l.Run? {
      MoveKeepsCommon(cl, l.t, l.ch);
    }
  }

  /** A finished teardown stays finished: whatever happens later, the client is
      never in watchClients again and Remove does not run a second time. */
  lemma {:induction false} TeardownIsFinal(steps: seq<Step>, more: seq<Step>, c: Cid)
    requires Exec(steps + more).Some?
    requires Exec(steps).Some? && c in Exec(steps).value.clients && Exec(steps).value.clients[c].life.once.Over?
    ensures c in Exec(steps + more).value.clients
    ensures var cl := Exec(steps + more).value.clients[c];
            cl.life.once.Over? && !cl.life.published && cl.life.removes == 1 && cl.w.state.pending == map[]
    decreases |more|
  {
    if more == [] {
      assert steps + more == steps;
    } else {
      var front, step := more[..|more| - 1], more[|more| - 1];
      assert (steps + more)[..|steps + more| - 1] == steps + front;
      TeardownIsFinal(steps, front, c);
      RunKeepsInv(steps + front);
      var s := Exec(steps + front).value;
      assert ClientInv(s.clients[c]);
      var l := ClientMoves(s, step, c);
      if l.Some? {
        OverStays(s.clients[c], l.value);
      }
    }
    Lifecycle(steps + more, c);
  }

  // -------------------------------------------------------------- writes

  /** No WRITE is lost inside the proxy either: a pending write's timer is
      scheduled, or its callback is a thread that has yet to take the mutex. */
  lemma PendingIsServed(steps: seq<Step>, c: Cid, n: Str)
    requires Exec(steps).Some? && c in Exec(steps).value.clients
    requires n in Exec(steps).value.clients[c].w.state.pending
    ensures var cl := Exec(steps).value.clients[c];
            var e := cl.w.state.pending[n];
            && e.timer < |cl.w.state.timers| && cl.w.state.timers[e.timer].gen == e.gen
            && (cl.w.state.timers[e.timer].phase.Scheduled?
                || (Callback(e.timer) in cl.threads && cl.threads[Callback(e.timer)].Flush?))
  {
    RunKeepsInv(steps);
    var cl := Exec(steps).value.clients[c];
    assert ClientInv(cl);
    assert D.EntryServed(cl.w.state, n);
    var id := cl.w.state.pending[n].timer;
    assert cl.w.state.timers[id].phase.Fired? ==> CallbackFits(cl, id);
  }

  /** A callback that flushes takes exactly the event armed last under its
      name, and goes on to send it; otherwise it ends. */
  lemma FlushSendsLatest(steps: seq<Step>, c: Cid, id: nat)
    requires Exec(steps).Some? && c in Exec(steps).value.clients
    requires var cl := Exec(steps).value.clients[c];
             Callback(id) in cl.threads && cl.threads[Callback(id)] == Flush(Flushing)
    ensures var cl := Exec(steps).value.clients[c];
            && id < |cl.w.state.timers| && FlushStep(cl, id, Flushing).Some?
            && Callback(id) in FlushStep(cl, id, Flushing).value.threads
            && FlushOutcome(cl, id, FlushStep(cl, id, Flushing).value)
  {
    RunKeepsInv(steps);
    var cl := Exec(steps).value.clients[c];
    assert ClientInv(cl);
    assert CallbackFits(cl, id);
    FlushesLatest(cl, id);
  }

  predicate FlushOutcome(cl: Client, id: nat, cl': Client)
    requires id < |cl.w.state.timers| && Callback(id) in cl'.threads
  {
    var name := cl.w.state.timers[id].name;
    match D.Due(cl.w.state, id)
    case None => cl'.threads[Callback(id)] == Ended && cl'.w.state.pending == cl.w.state.pending
    case Some(e) =>
      && D.EndsArmed(D.Of(cl.w.state, name), e)
      && cl'.threads[Callback(id)] == Send(TransWant(e), ForCallback)
      && cl'.w.state.pending == cl.w.state.pending - {name}
  }

  lemma FlushesLatest(cl: Client, id: nat)
    requires id < |cl.w.state.timers| && D.Accounted(cl.w.state)
    ensures FlushStep(cl, id, Flushing).Some? && Callback(id) in FlushStep(cl, id, Flushing).value.threads
    ensures FlushOutcome(cl, id, FlushStep(cl, id, Flushing).value)
  {
    assert D.NameAccounted(cl.w.state, cl.w.state.timers[id].name);
  }
}
