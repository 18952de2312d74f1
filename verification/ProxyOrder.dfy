/** Ordered delivery to one client, and the invariant of a client as a whole. */
module ProxyOrder {
  import opened Wire
  import opened Mapping
  import D = Debounce
  import opened ProxyClient
  import opened ProxyClientInv

  /** The events of the current visit the fan-out has still to translate. */
  function ToTranslate(pc: Pc): seq<Event> {
    match pc
    case Visit(Queued(p)) => NonWrite(EventsOf(p))
    case Visit(CheckWant(p)) => NonWrite(EventsOf(p))
    case Visit(Checking(p)) => NonWrite(EventsOf(p))
    case Visit(Batch(es)) => NonWrite(es)
    case Visit(ArmWant(_, rest)) => NonWrite(rest)
    case Visit(Arming(_, rest)) => NonWrite(rest)
    case Send(s, ForBatch(rest)) =>
      if s.TransWant? || s.Translating? then [s.event] + NonWrite(rest) else NonWrite(rest)
    case _ => []
  }

  /** The frame it has translated and not yet queued. */
  function ToQueue(pc: Pc): seq<Event> {
    match pc
    case Send(Probe(f), ForBatch(_)) => [f]
    case Send(Offer(f), ForBatch(_)) => [f]
    case _ => []
  }

  /** No gap: while the fan-out has given up on nothing, everything delivered is
      either translated or still ahead of it, and everything translated is
      queued or in its hands. Once it has, the client is going down. */
  predicate OrderFits(order: Order, accepted: seq<Event>, done: bool, pc: Pc) {
    && OfferedEvents(order.offered) <= NonWrite(order.delivered)
    && NonWrite(accepted) <= Expected(order.offered)
    && (!order.broken ==>
          && OfferedEvents(order.offered) + ToTranslate(pc) == NonWrite(order.delivered)
          && NonWrite(accepted) + ToQueue(pc) == Expected(order.offered))
    && (order.broken ==> done || pc.Shut?)
    && (pc.Shut? ==> order.broken)
    && (pc.Send? && pc.s.Offer? ==> !order.broken)
  }

  predicate OrderInv(c: Client) {
    Fan in c.threads && OrderFits(c.order, c.queue.accepted, c.life.done, c.threads[Fan])
  }

  /** Taking the next event of a batch off the list. */
  lemma BatchOpens(e: Event, rest: seq<Event>)
    ensures NonWrite([e] + rest) == if e.op == OP_WRITE then NonWrite(rest) else [e] + NonWrite(rest)
  {
    NonWriteAppend([e], rest);
    NonWriteOne(e);
  }

  lemma Translated(o: Order, accepted: seq<Event>, done: bool, e: Event, rest: seq<Event>, m: PathMap)
    requires OrderFits(o, accepted, done, Send(Translating(e), ForBatch(rest)))
    ensures OrderFits(
              if o.broken then o else o.(offered := o.offered + [(e, m)]), accepted, done,
              if e.key in m then Send(Probe(Translate(e, m)), ForBatch(rest)) else Visit(Batch(rest)))
  {
    if !o.broken {
      TranslatedOnce(o, accepted, done, e, rest, m);
    }
  }

  lemma TranslatedOnce(o: Order, accepted: seq<Event>, done: bool, e: Event, rest: seq<Event>, m: PathMap)
    requires OrderFits(o, accepted, done, Send(Translating(e), ForBatch(rest))) && !o.broken
    ensures OrderFits(
              o.(offered := o.offered + [(e, m)]), accepted, done,
              if e.key in m then Send(Probe(Translate(e, m)), ForBatch(rest)) else Visit(Batch(rest)))
  {
    ExpectedOne(o.offered, e, m);
    MovesOver(OfferedEvents(o.offered), [e], NonWrite(rest));
    EndsHere(NonWrite(accepted));
    EndsHere(Expected(o.offered));
  }

  lemma MovesOver(a: seq<Event>, b: seq<Event>, c: seq<Event>)
    ensures a + (b + c) == a + b + c && a + b <= a + b + c
  {
  }

  lemma EndsHere(a: seq<Event>)
    ensures a + [] == a
  {
  }

  lemma Queues(o: Order, accepted: seq<Event>, done: bool, f: Event, rest: seq<Event>)
    requires OrderFits(o, accepted, done, Send(Offer(f), ForBatch(rest))) && f.op != OP_WRITE
    ensures OrderFits(o, accepted + [f], done, Visit(Batch(rest)))
  {
    NonWriteAppend(accepted, [f]);
    NonWriteOne(f);
    EndsHere(NonWrite(accepted + [f]));
  }

  lemma BatchKeepsOrder(c: Client, es: seq<Event>)
    requires OrderInv(c) && c.threads[Fan] == Visit(Batch(es)) && VisitStep(c, Batch(es)).Some?
    ensures OrderInv(VisitStep(c, Batch(es)).value)
  {
    if es != [] {
      var e, rest := es[0], es[1..];
      assert es == [e] + rest;
      BatchOpens(e, rest);
      var pc' := if e.op == OP_WRITE then Visit(ArmWant(e, rest)) else Send(TransWant(e), ForBatch(rest));
      assert OrderFits(c.order, c.queue.accepted, c.life.done, pc');
    }
  }

  lemma CheckKeepsOrder(c: Client, p: Payload)
    requires OrderInv(c) && Shape(c) && c.threads[Fan] == Visit(Checking(p)) && VisitStep(c, Checking(p)).Some?
    ensures OrderInv(VisitStep(c, Checking(p)).value)
  {
    ClosedIsDone(c);
  }

  lemma VisitKeepsOrder(c: Client, v: VisitPc)
    requires OrderInv(c) && Shape(c) && c.threads[Fan] == Visit(v) && VisitStep(c, v).Some?
    ensures OrderInv(VisitStep(c, v).value)
  {
    match v
    case Checking(p) => CheckKeepsOrder(c, p);
    case Batch(es) => BatchKeepsOrder(c, es);
    case _ => LockingKeepsOrder(c, v);
  }

  lemma LockingKeepsOrder(c: Client, v: VisitPc)
    requires OrderInv(c) && c.threads[Fan] == Visit(v) && VisitStep(c, v).Some? && !v.Checking? && !v.Batch?
    ensures OrderInv(VisitStep(c, v).value)
  {
    var c' := VisitStep(c, v).value;
    assert c'.order == c.order && c'.queue == c.queue && c'.life == c.life;
    assert ToTranslate(c'.threads[Fan]) == ToTranslate(Visit(v));
  }

  lemma ClosedIsDone(c: Client)
    requires Shape(c)
    ensures c.w.state.closed ==> c.life.done
  {
    assert c.life.once.Running? ==> OnceFits(c, c.life.once.t);
  }

  lemma FanSendKeepsOrder(c: Client, s: SendPc, k: Kont, ch: Choice)
    requires OrderInv(c) && c.threads[Fan] == Send(s, k) && k.ForBatch? && OpFits(c.threads[Fan])
    requires SendStep(c, Fan, s, k, ch).Some?
    ensures OrderInv(SendStep(c, Fan, s, k, ch).value)
  {
    if s.Translating? {
      Translated(c.order, c.queue.accepted, c.life.done, s.event, k.rest, c.w.podPathMap);
    } else if s.Offer? {
      OfferKeepsOrder(c, s.frame, k, ch);
    }
  }

  lemma OfferKeepsOrder(c: Client, f: Event, k: Kont, ch: Choice)
    requires OrderInv(c) && c.threads[Fan] == Send(Offer(f), k) && k.ForBatch? && f.op != OP_WRITE
    requires SendStep(c, Fan, Offer(f), k, ch).Some?
    ensures OrderInv(SendStep(c, Fan, Offer(f), k, ch).value)
  {
    if !ch.SeeDone? && |c.queue.q| < DEPTH {
      Queues(c.order, c.queue.accepted, c.life.done, f, k.rest);
    }
  }

  /** What a callback queues is a WRITE, which the order does not count. */
  lemma CallbackSendKeepsOrder(c: Client, t: Tid, s: SendPc, k: Kont, ch: Choice)
    requires OrderInv(c) && t in c.threads && t != Fan && c.threads[t] == Send(s, k) && !k.ForBatch?
    requires OpFits(c.threads[t]) && SendStep(c, t, s, k, ch).Some?
    ensures OrderInv(SendStep(c, t, s, k, ch).value)
  {
    CallbackSendEffect(c, t, s, k, ch);
    if s.Offer? {
      NonWriteAppend(c.queue.accepted, [s.frame]);
      NonWriteOne(s.frame);
    }
  }

  lemma CallbackSendEffect(c: Client, t: Tid, s: SendPc, k: Kont, ch: Choice)
    requires t in c.threads && t != Fan && Fan in c.threads && !k.ForBatch? && SendStep(c, t, s, k, ch).Some?
    ensures var c' := SendStep(c, t, s, k, ch).value;
            && c'.life == c.life && c'.order == c.order && Fan in c'.threads && c'.threads[Fan] == c.threads[Fan]
            && (c'.queue.accepted == c.queue.accepted
                || (s.Offer? && c'.queue.accepted == c.queue.accepted + [s.frame]))
  {
  }

  lemma ShutKeepsOrder(c: Client, t: Tid, x: ShutPc, k: Kont)
    requires OrderInv(c) && Shape(c) && t in c.threads && c.threads[t] == Shut(x, k) && Typed(t, c.threads[t])
    requires ShutStep(c, t, x, k).Some?
    ensures OrderInv(ShutStep(c, t, x, k).value)
  {
    assert OnceFits(c, t);
  }

  lemma QuietKeepsOrder(c: Client, c': Client, t: Tid)
    requires OrderInv(c) && Ready(c, t) && Moves(c, c', t) && t != Fan
    requires c'.order == c.order && c'.queue.accepted == c.queue.accepted && c'.life.done == c.life.done
    ensures OrderInv(c')
  {
  }

  // ------------------------------------------------ the whole invariant

  ghost predicate ClientInv(c: Client) {
    Shape(c) && QueueInv(c) && DebounceInv(c) && OrderInv(c)
  }

  lemma NewClientInv()
    ensures ClientInv(NEW_CLIENT)
  {
  }

  lemma InvReady(c: Client, t: Tid)
    requires ClientInv(c) && t in c.threads
    ensures Ready(c, t)
  {
    DebounceReady(c.w.state);
    assert OnceFits(c, t) && LockFits(c.w.mu, t, c.threads[t]);
    assert t.Callback? ==> CallbackFits(c, t.id);
  }

  lemma MoveKeepsCommon(c: Client, t: Tid, ch: Choice)
    requires ClientInv(c) && ThreadStep(c, t, ch).Some?
    ensures t in c.threads && Ready(c, t)
    ensures var c' := ThreadStep(c, t, ch).value;
            Moves(c, c', t) && ThreadsInv(c') && OnceInv(c') && LockInv(c') && DebounceInv(c')
  {
    InvReady(c, t);
    ThreadMoves(c, t, ch);
    var c' := ThreadStep(c, t, ch).value;
    MoveKeepsThreads(c, c', t);
    MoveKeepsOnce(c, c', t);
    MoveKeepsLocks(c, c', t);
    MoveKeepsDebounce(c, c', t);
  }

  lemma ListenKeepsInv(c: Client, l: ListenPc, ch: Choice)
    requires ClientInv(c) && c.threads[Reader] == Listen(l) && ListenStep(c, l, ch).Some?
    ensures ClientInv(ListenStep(c, l, ch).value)
  {
    MoveKeepsCommon(c, Reader, ch);
    var c' := ListenStep(c, l, ch).value;
    ListenKeepsStage(c, l, ch);
    ListenKeepsPublish(c, l, ch);
    assert c'.queue == c.queue && c'.order == c.order && c'.life.done == c.life.done;
    QuietKeepsQueue(c, c', Reader);
    QuietKeepsOrder(c, c', Reader);
  }

  lemma LoopKeepsInv(c: Client, o: LoopPc, ch: Choice)
    requires ClientInv(c) && Writer in c.threads && c.threads[Writer] == Loop(o) && LoopStep(c, o, ch).Some?
    ensures ClientInv(LoopStep(c, o, ch).value)
  {
    MoveKeepsCommon(c, Writer, ch);
    if Unpublished(c.threads[Reader]) {
      OnlyReaderBeforePublication(c, Writer, ch);
    }
    var c' := LoopStep(c, o, ch).value;
    assert c'.life == c.life && c'.order == c.order && c'.queue.accepted == c.queue.accepted;
    QuietKeepsStage(c, c', Writer);
    QuietKeepsPublish(c, c', Writer);
    LoopKeepsQueue(c, o, ch);
    QuietKeepsOrder(c, c', Writer);
  }

  lemma VisitKeepsInv(c: Client, v: VisitPc, ch: Choice)
    requires ClientInv(c) && c.threads[Fan] == Visit(v) && VisitStep(c, v).Some?
    ensures ClientInv(VisitStep(c, v).value)
  {
    MoveKeepsCommon(c, Fan, ch);
    if Unpublished(c.threads[Reader]) {
      OnlyReaderBeforePublication(c, Fan, ch);
    }
    var c' := VisitStep(c, v).value;
    assert c'.life == c.life && c'.queue == c.queue;
    QuietKeepsStage(c, c', Fan);
    QuietKeepsPublish(c, c', Fan);
    QuietKeepsQueue(c, c', Fan);
    VisitKeepsOrder(c, v);
  }

  lemma FlushKeepsInv(c: Client, id: nat, f: FlushPc, ch: Choice)
    requires ClientInv(c) && Callback(id) in c.threads && c.threads[Callback(id)] == Flush(f)
    requires FlushStep(c, id, f).Some?
    ensures ClientInv(FlushStep(c, id, f).value)
  {
    var t := Callback(id);
    MoveKeepsCommon(c, t, ch);
    if Unpublished(c.threads[Reader]) {
      OnlyReaderBeforePublication(c, t, ch);
    }
    var c' := FlushStep(c, id, f).value;
    assert c'.life == c.life && c'.queue == c.queue && c'.order == c.order;
    QuietKeepsStage(c, c', t);
    QuietKeepsPublish(c, c', t);
    QuietKeepsQueue(c, c', t);
    QuietKeepsOrder(c, c', t);
  }

  lemma SendKeepsInv(c: Client, t: Tid, s: SendPc, k: Kont, ch: Choice)
    requires ClientInv(c) && t in c.threads && c.threads[t] == Send(s, k) && SendStep(c, t, s, k, ch).Some?
    ensures ClientInv(SendStep(c, t, s, k, ch).value)
  {
    MoveKeepsCommon(c, t, ch);
    if Unpublished(c.threads[Reader]) {
      OnlyReaderBeforePublication(c, t, ch);
    }
    var c' := SendStep(c, t, s, k, ch).value;
    assert c'.life == c.life;
    assert t != Reader && t != Writer;
    QuietKeepsStage(c, c', t);
    QuietKeepsPublish(c, c', t);
    SendKeepsQueue(c, t, s, k, ch);
    if t == Fan {
      FanSendKeepsOrder(c, s, k, ch);
    } else {
      CallbackSendKeepsOrder(c, t, s, k, ch);
    }
  }

  lemma ShutKeepsInv(c: Client, t: Tid, x: ShutPc, k: Kont, ch: Choice)
    requires ClientInv(c) && t in c.threads && c.threads[t] == Shut(x, k) && ShutStep(c, t, x, k).Some?
    ensures ClientInv(ShutStep(c, t, x, k).value)
  {
    MoveKeepsCommon(c, t, ch);
    if Unpublished(c.threads[Reader]) {
      OnlyReaderBeforePublication(c, t, ch);
    }
    var c' := ShutStep(c, t, x, k).value;
    ShutEffect(c, t, x, k);
    ShutKeepsStage(c, t, x, k);
    QuietKeepsPublish(c, c', t);
    QuietKeepsQueue(c, c', t);
    ShutKeepsOrder(c, t, x, k);
  }

  lemma ShutEffect(c: Client, t: Tid, x: ShutPc, k: Kont)
    requires ShutStep(c, t, x, k).Some?
    ensures var c' := ShutStep(c, t, x, k).value;
            c'.queue == c.queue && c'.life.fconn == c.life.fconn && c'.life.helper == c.life.helper
  {
  }

  // ----------------------------------------------- steps of no own thread

  lemma CollectKeepsInv(c: Client, p: Payload)
    requires ClientInv(c) && Next(c, Collect(p)).Some?
    ensures ClientInv(Next(c, Collect(p)).value)
  {
    FanSwitches(c, Next(c, Collect(p)).value, Queued(p));
    CollectKeepsOrder(c, p);
  }

  lemma CollectKeepsOrder(c: Client, p: Payload)
    requires OrderInv(c) && Next(c, Collect(p)).Some?
    ensures OrderInv(Next(c, Collect(p)).value)
  {
    NonWriteAppend(c.order.delivered, EventsOf(p));
    assert OfferedEvents(c.order.offered) + [] == OfferedEvents(c.order.offered);
  }

  lemma StartKeepsInv(c: Client)
    requires ClientInv(c) && Next(c, Start).Some?
    ensures ClientInv(Next(c, Start).value)
  {
    FanSwitches(c, Next(c, Start).value, CheckWant(c.threads[Fan].v.payload));
  }

  /** The fan-out goes from one visit state to another outside any lock. */
  lemma FanSwitches(c: Client, c': Client, v: VisitPc)
    requires ClientInv(c) && !Unpublished(c.threads[Reader])
    requires FanIs(c, Away) || FanQueued(c)
    requires v.Queued? || v.CheckWant?
    requires c' == At(c.(order := c'.order), Fan, Visit(v))
    ensures Shape(c') && QueueInv(c') && DebounceInv(c')
  {
    InvReady(c, Fan);
    forall t | t in c'.threads
      ensures Typed(t, c'.threads[t]) && OnceFits(c', t) && LockFits(c'.w.mu, t, c'.threads[t])
    {
      InvReady(c, t);
    }
    forall t | t in c'.threads && t.Callback? ensures CallbackFits(c', t.id) {
      assert CallbackFits(c, t.id);
    }
    forall id: nat
      | id < |c'.w.state.timers| && (c'.w.state.timers[id].phase.Fired? || c'.w.state.timers[id].phase.Ran?)
      ensures CallbackFits(c', id)
    {
      assert CallbackFits(c, id);
    }
  }

  /** Time passes, and a timer may start its callback. */
  predicate ClockStep(c: Client, c': Client, step: D.Step) {
    && (step.DoTick? || step.DoFire?) && D.TimersKnown(c.w.state) && D.Enabled(c.w.state, step)
    && c' == c.(w := c.w.(state := D.Next(c.w.state, step)),
                threads := if step.DoFire? then c.threads[Callback(step.id) := Flush(FlushWant)] else c.threads)
  }

  lemma ClockKeepsCallbacks(c: Client, c': Client, step: D.Step)
    requires ThreadsInv(c) && ClockStep(c, c', step)
    ensures ThreadsInv(c')
    ensures step.DoFire? ==> Callback(step.id) !in c.threads
  {
    D.PhasesMove(c.w.state, step);
    assert step.DoFire? ==> (Callback(step.id) in c.threads ==> CallbackFits(c, step.id));
    forall t | t in c'.threads && t.Callback? ensures CallbackFits(c', t.id) {
      assert t in c.threads ==> CallbackFits(c, t.id);
    }
    forall id: nat
      | id < |c'.w.state.timers| && (c'.w.state.timers[id].phase.Fired? || c'.w.state.timers[id].phase.Ran?)
      ensures CallbackFits(c', id)
    {
      assert step == D.DoFire(id) || CallbackFits(c, id);
    }
  }

  lemma ClockKeepsLocks(c: Client, c': Client, step: D.Step)
    requires ThreadsInv(c) && OnceInv(c) && LockInv(c) && ClockStep(c, c', step)
    ensures OnceInv(c') && LockInv(c')
  {
    ClockKeepsCallbacks(c, c', step);
    forall t | t in c'.threads ensures OnceFits(c', t) && LockFits(c'.w.mu, t, c'.threads[t]) {
      assert t in c.threads ==> OnceFits(c, t) && LockFits(c.w.mu, t, c.threads[t]);
    }
  }

  lemma ClockKeepsInv(c: Client, c': Client, step: D.Step)
    requires ClientInv(c) && ClockStep(c, c', step)
    ensures ClientInv(c')
  {
    D.NextKeepsInv(c.w.state, step);
    ClockKeepsCallbacks(c, c', step);
    ClockKeepsLocks(c, c', step);
    assert c.life.once.Running? ==> OnceFits(c, c.life.once.t) && OnceFits(c', c.life.once.t);
  }

  lemma TickKeepsInv(c: Client, d: nat)
    requires ClientInv(c)
    ensures ClientInv(Next(c, Tick(d)).value)
  {
    DebounceReady(c.w.state);
    ClockKeepsInv(c, Next(c, Tick(d)).value, D.DoTick(d));
  }

  lemma FireKeepsInv(c: Client, id: nat)
    requires ClientInv(c) && Next(c, Fire(id)).Some?
    ensures ClientInv(Next(c, Fire(id)).value)
  {
    ClockKeepsInv(c, Next(c, Fire(id)).value, D.DoFire(id));
  }

  // ------------------------------------------------------------- all steps

  lemma ThreadKeepsInv(c: Client, t: Tid, ch: Choice)
    requires ClientInv(c) && ThreadStep(c, t, ch).Some?
    ensures ClientInv(ThreadStep(c, t, ch).value)
  {
    match (t, c.threads[t])
    case (Reader, Listen(l)) => ListenKeepsInv(c, l, ch);
    case (Writer, Loop(o)) => LoopKeepsInv(c, o, ch);
    case (Fan, Visit(v)) => VisitKeepsInv(c, v, ch);
    case (Callback(id), Flush(f)) => FlushKeepsInv(c, id, f, ch);
    case (_, Send(s, k)) => SendKeepsInv(c, t, s, k, ch);
    case (_, Shut(x, k)) => ShutKeepsInv(c, t, x, k, ch);
    case _ =>
  }

  /** Every step of a client keeps the whole invariant. */
  lemma StepKeepsInv(c: Client, l: Label)
    requires ClientInv(c) && Next(c, l).Some?
    ensures ClientInv(Next(c, l).value)
  {
    match l
    case Collect(p) => CollectKeepsInv(c, p);
    case Start => StartKeepsInv(c);
    case Tick(d) => TickKeepsInv(c, d);
    case Fire(id) => FireKeepsInv(c, id);
    case Run(t, ch) => ThreadKeepsInv(c, t, ch);
  }
}
