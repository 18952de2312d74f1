/** Where the WRITE frames on a client's wire come from: every flushed WRITE is
    followed from the debounce map to the queue
    (k8s/cmd/fsnotify-proxy/app/helper.go, k8s/pkg/multicast/tcpserver.go). */
module ProxyWrites {
  import opened Prelude
  import opened Wire
  import opened Mapping
  import D = Debounce
  import opened ProxyClient
  import opened ProxyClientInv
  import opened ProxyOrder
  import Y = ProxySystem

  /** What has become of a flushed event. */
  datatype Outcome = InHand | Unmapped | Refused | Enqueued

  /** The event a callback has flushed, and the map it was translated with. */
  datatype Tale = Tale(event: Event, m: Option<PathMap>, outcome: Outcome)

  /** The tale of each callback that flushed, and those whose frame was queued, in
      order. */
  datatype Log = Log(tales: map<nat, Tale>, accepted: seq<nat>)

  const NO_TALES := Log(map[], [])

  // ------------------------------------------------------------ the history

  /** What a step of callback `id` adds: a flush begins its tale, the translation,
      the refusal or the queueing of its frame continues it. */
  function LogNext(log: Log, c: Client, id: nat, ch: Choice): Log {
    if Callback(id) !in c.threads then log
    else
      match c.threads[Callback(id)]
      case Flush(Flushing) =>
        if id < |c.w.state.timers| && D.Due(c.w.state, id).Some?
        then log.(tales := log.tales[id := Tale(D.Due(c.w.state, id).value, None, InHand)])
        else log
      case Send(s, _) => if id in log.tales then SendLog(log, c, id, s, ch) else log
      case _ => log
  }

  function SendLog(log: Log, c: Client, id: nat, s: SendPc, ch: Choice): Log
    requires id in log.tales
  {
    var t := log.tales[id];
    match s
    case TransWant(_) => log
    case Translating(_) =>
      var m := c.w.podPathMap;
      log.(tales := log.tales[id := Tale(t.event, Some(m), if t.event.key in m then InHand else Unmapped)])
    case Probe(_) => if c.life.done then Ends(log, id, Refused) else log
    case Offer(_) =>
      if !ch.SeeDone? && |c.queue.q| < DEPTH then Ends(log, id, Enqueued).(accepted := log.accepted + [id])
      else Ends(log, id, Refused)
  }

  function Ends(log: Log, id: nat, outcome: Outcome): Log
    requires id in log.tales
  {
    log.(tales := log.tales[id := log.tales[id].(outcome := outcome)])
  }

  function LogOf(steps: seq<Y.Step>, c: Y.Cid): Log {
    if steps == [] then NO_TALES
    else
      var front, step := steps[..|steps| - 1], steps[|steps| - 1];
      var log := LogOf(front, c);
      match Y.Exec(front)
      case None => log
      case Some(s) =>
        if step.Local? && step.c == c && c in s.clients && step.l.Run? && step.l.t.Callback?
        then LogNext(log, s.clients[c], step.l.t.id, step.l.ch)
        else log
  }

  // -------------------------------------------------------------- threads

  predicate Gone(pc: Pc) {
    pc.Ended? || pc.Shut?
  }

  /** The frame of a tale, once it is translated. */
  function TaleFrame(t: Tale): Event {
    if t.m.Some? && t.event.key in t.m.value then Translate(t.event, t.m.value) else t.event
  }

  /** The callback is where its tale says. */
  predicate TaleFits(pc: Pc, t: Tale) {
    match t.outcome
    case InHand =>
      && pc.Send? && pc.k.ForCallback?
      && (match pc.s
          case TransWant(e) => e == t.event
          case Translating(e) => e == t.event
          case Probe(f) => t.m.Some? && t.event.key in t.m.value && f == TaleFrame(t)
          case Offer(f) => t.m.Some? && t.event.key in t.m.value && f == TaleFrame(t))
    case Unmapped => Gone(pc) && t.m.Some? && t.event.key !in t.m.value
    case Refused => Gone(pc)
    case Enqueued => Gone(pc) && t.m.Some? && t.event.key in t.m.value
  }

  predicate Told(threads: map<Tid, Pc>, log: Log, id: nat)
    requires id in log.tales
  {
    Callback(id) in threads && TaleFits(threads[Callback(id)], log.tales[id])
  }

  predicate TalesInv(threads: map<Tid, Pc>, log: Log) {
    && (forall id | id in log.tales :: Told(threads, log, id))
    && (forall t | t in threads && t.Callback? && threads[t].Send? :: t.id in log.tales)
  }

  /** A step of another thread leaves the tales alone. */
  lemma OthersKeepTales(c: Client, c': Client, t: Tid, log: Log)
    requires t in c.threads && Moves(c, c', t) && !t.Callback? && TalesInv(c.threads, log)
    ensures TalesInv(c'.threads, log)
  {
    forall id | id in log.tales ensures Told(c'.threads, log, id) {
      assert Told(c.threads, log, id);
    }
  }

  /** Where the callback's own step takes it, and what that does to its tale. */
  lemma OwnTale(c: Client, id: nat, ch: Choice, log: Log)
    requires ThreadStep(c, Callback(id), ch).Some? && Typed(Callback(id), c.threads[Callback(id)])
    requires id in log.tales ==> Told(c.threads, log, id)
    requires c.threads[Callback(id)].Send? ==> id in log.tales
    ensures var c', log' := ThreadStep(c, Callback(id), ch).value, LogNext(log, c, id, ch);
            && Callback(id) in c'.threads
            && (id in log'.tales ==> Told(c'.threads, log', id))
            && (c'.threads[Callback(id)].Send? ==> id in log'.tales)
  {
    match c.threads[Callback(id)]
    case Flush(f) => FlushTale(c, id, f, log);
    case Send(s, k) => SendTale(c, id, s, k, ch, log);
    case _ =>
  }

  lemma FlushTale(c: Client, id: nat, f: FlushPc, log: Log)
    requires Callback(id) in c.threads && c.threads[Callback(id)] == Flush(f) && FlushStep(c, id, f).Some?
    requires id in log.tales ==> Told(c.threads, log, id)
    ensures var c', log' := FlushStep(c, id, f).value, LogNext(log, c, id, Go);
            && Callback(id) in c'.threads
            && (id in log'.tales ==> Told(c'.threads, log', id))
            && (c'.threads[Callback(id)].Send? ==> id in log'.tales)
  {
  }

  lemma SendTale(c: Client, id: nat, s: SendPc, k: Kont, ch: Choice, log: Log)
    requires Callback(id) in c.threads && c.threads[Callback(id)] == Send(s, k) && k.ForCallback?
    requires SendStep(c, Callback(id), s, k, ch).Some?
    requires id in log.tales && Told(c.threads, log, id)
    ensures var c', log' := SendStep(c, Callback(id), s, k, ch).value, SendLog(log, c, id, s, ch);
            id in log'.tales && Told(c'.threads, log', id)
  {
  }

  lemma OnlyOwnTale(log: Log, c: Client, id: nat, ch: Choice, x: nat)
    requires x != id
    ensures var log' := LogNext(log, c, id, ch);
            (x in log'.tales <==> x in log.tales) && (x in log.tales ==> log'.tales[x] == log.tales[x])
  {
  }

  lemma OwnStepKeepsTales(c: Client, c': Client, id: nat, ch: Choice, log: Log)
    requires Callback(id) in c.threads && Moves(c, c', Callback(id)) && ThreadStep(c, Callback(id), ch) == Some(c')
    requires TalesInv(c.threads, log) && Typed(Callback(id), c.threads[Callback(id)])
    ensures TalesInv(c'.threads, LogNext(log, c, id, ch))
  {
    var log' := LogNext(log, c, id, ch);
    OwnTale(c, id, ch, log);
    forall x | x in log'.tales ensures Told(c'.threads, log', x) {
      if x != id {
        OnlyOwnTale(log, c, id, ch, x);
        assert Told(c.threads, log, x);
      }
    }
    forall t | t in c'.threads && t.Callback? && c'.threads[t].Send? ensures t.id in log'.tales {
      if t != Callback(id) {
        OnlyOwnTale(log, c, id, ch, t.id);
      }
    }
  }

  // ---------------------------------------------------------------- queue

  function OnlyWrite(es: seq<Event>): seq<Event> {
    if es == [] then []
    else
      var e := es[|es| - 1];
      OnlyWrite(es[..|es| - 1]) + (if e.op == OP_WRITE then [e] else [])
  }

  lemma OnlyWriteSnoc(es: seq<Event>, e: Event)
    ensures OnlyWrite(es + [e]) == OnlyWrite(es) + (if e.op == OP_WRITE then [e] else [])
  {
    assert (es + [e])[..|es|] == es;
  }

  lemma {:induction false} OnlyWritePrefix(a: seq<Event>, b: seq<Event>)
    requires a <= b
    ensures OnlyWrite(a) <= OnlyWrite(b)
    decreases |b|
  {
    if a != b {
      OnlyWritePrefix(a, b[..|b| - 1]);
    }
  }

  predicate AcceptedKnown(log: Log) {
    forall id | id in log.accepted :: id in log.tales && log.tales[id].outcome.Enqueued?
  }

  /** The frames that the callbacks have queued. */
  function Frames(log: Log): seq<Event>
    requires AcceptedKnown(log)
  {
    seq(|log.accepted|, i requires 0 <= i < |log.accepted| =>
      assert log.accepted[i] in log.accepted; TaleFrame(log.tales[log.accepted[i]]))
  }

  /** The WRITE frames accepted are those of the tales, each callback's once. */
  predicate QueueTold(accepted: seq<Event>, log: Log) {
    && AcceptedKnown(log)
    && (forall i, j | 0 <= i < j < |log.accepted| :: log.accepted[i] != log.accepted[j])
    && (forall id | id in log.tales && log.tales[id].outcome.Enqueued? :: id in log.accepted)
    && OnlyWrite(accepted) == Frames(log)
  }

  /** The frame that a step puts into the queue. */
  function Accepts(c: Client, t: Tid, ch: Choice): seq<Event>
    requires t in c.threads
  {
    match c.threads[t]
    case Send(Offer(f), _) => if !ch.SeeDone? && |c.queue.q| < DEPTH then [f] else []
    case _ => []
  }

  lemma StepAccepts(c: Client, t: Tid, ch: Choice)
    requires ThreadStep(c, t, ch).Some?
    ensures ThreadStep(c, t, ch).value.queue.accepted == c.queue.accepted + Accepts(c, t, ch)
  {
    assert c.queue.accepted + [] == c.queue.accepted;
  }

  lemma OthersKeepQueue(c: Client, t: Tid, ch: Choice, log: Log)
    requires QueueTold(c.queue.accepted, log) && ThreadStep(c, t, ch).Some?
    requires !t.Callback? && Typed(t, c.threads[t]) && OpFits(c.threads[t])
    ensures QueueTold(ThreadStep(c, t, ch).value.queue.accepted, log)
  {
    StepAccepts(c, t, ch);
    if Accepts(c, t, ch) != [] {
      OnlyWriteSnoc(c.queue.accepted, Accepts(c, t, ch)[0]);
    } else {
      assert c.queue.accepted + [] == c.queue.accepted;
    }
  }

  /** A tale goes on, and its frame is not queued. */
  lemma TaleGoesOn(accepted: seq<Event>, log: Log, id: nat, t: Tale)
    requires QueueTold(accepted, log) && !t.outcome.Enqueued?
    requires id in log.tales ==> !log.tales[id].outcome.Enqueued?
    ensures QueueTold(accepted, log.(tales := log.tales[id := t]))
  {
    var log' := log.(tales := log.tales[id := t]);
    assert Frames(log') == Frames(log);
  }

  /** Its frame is queued. */
  lemma TaleIsQueued(accepted: seq<Event>, log: Log, id: nat)
    requires QueueTold(accepted, log) && id in log.tales && !log.tales[id].outcome.Enqueued?
    requires TaleFrame(log.tales[id]).op == OP_WRITE
    ensures QueueTold(accepted + [TaleFrame(log.tales[id])],
                      Ends(log, id, Enqueued).(accepted := log.accepted + [id]))
  {
    var f, log' := TaleFrame(log.tales[id]), Ends(log, id, Enqueued).(accepted := log.accepted + [id]);
    OnlyWriteSnoc(accepted, f);
    assert forall x | x in log.accepted :: x != id;
    assert Frames(log') == Frames(log) + [f];
  }

  lemma OwnStepKeepsQueue(c: Client, id: nat, ch: Choice, log: Log)
    requires QueueTold(c.queue.accepted, log) && ThreadStep(c, Callback(id), ch).Some?
    requires Typed(Callback(id), c.threads[Callback(id)]) && OpFits(c.threads[Callback(id)])
    requires TalesInv(c.threads, log)
    ensures QueueTold(ThreadStep(c, Callback(id), ch).value.queue.accepted, LogNext(log, c, id, ch))
  {
    StepAccepts(c, Callback(id), ch);
    assert id in log.tales ==> Told(c.threads, log, id);
    assert c.queue.accepted + [] == c.queue.accepted;
    match c.threads[Callback(id)]
    case Flush(Flushing) =>
      if id < |c.w.state.timers| && D.Due(c.w.state, id).Some? {
        TaleGoesOn(c.queue.accepted, log, id, Tale(D.Due(c.w.state, id).value, None, InHand));
      }
    case Send(Offer(f), _) =>
      if !ch.SeeDone? && |c.queue.q| < DEPTH {
        TaleIsQueued(c.queue.accepted, log, id);
      } else {
        TaleGoesOn(c.queue.accepted, log, id, log.tales[id].(outcome := Refused));
      }
    case Send(Translating(e), _) =>
      TaleGoesOn(c.queue.accepted, log, id, SendLog(log, c, id, Translating(e), ch).tales[id]);
    case Send(Probe(f), _) =>
      TaleGoesOn(c.queue.accepted, log, id, log.tales[id].(outcome := if c.life.done then Refused else InHand));
      assert !c.life.done ==> log.(tales := log.tales[id := log.tales[id].(outcome := InHand)]) == log;
    case _ =>
  }

  // --------------------------------------------------------------- counts

  /** The callbacks that flushed under a name, and those with a given outcome. */
  function Of(log: Log, n: Str): set<nat> {
    set id | id in log.tales && log.tales[id].event.name == n
  }

  function By(log: Log, n: Str, o: Outcome): set<nat> {
    set id | id in log.tales && log.tales[id].event.name == n && log.tales[id].outcome == o
  }

  predicate NamesTold(s: D.State, log: Log) {
    forall id | id in log.tales ::
      id < |s.timers| && log.tales[id].event.op == OP_WRITE && log.tales[id].event.name == s.timers[id].name
  }

  ghost predicate Counted(s: D.State, log: Log) {
    forall n :: D.Flushes(D.Of(s, n)) == |Of(log, n)|
  }

  lemma FlushesSnoc(l: seq<D.Obs>, o: D.Obs)
    ensures D.Flushes(l + [o]) == D.Flushes(l) + (if o.Flushed? then 1 else 0)
  {
    assert (l + [o])[..|l|] == l;
  }

  /** What a step lets be observed of a name. */
  function Observed(s: D.State, step: D.Step, n: Str): seq<D.Obs>
    requires D.Enabled(s, step)
  {
    match step
    case DoArm(e) => if !s.closed && n == e.name then [D.Armed(e)] else []
    case DoRun(id) =>
      if D.Due(s, id).Some? && n == s.timers[id].name then [D.Flushed(D.Due(s, id).value)] else []
    case _ => []
  }

  lemma StepObserves(s: D.State, step: D.Step, n: Str)
    requires D.TimersKnown(s) && D.Enabled(s, step)
    ensures D.Of(D.Next(s, step), n) == D.Of(s, n) + Observed(s, step, n)
  {
    assert D.Of(s, n) + [] == D.Of(s, n);
  }

  /** Only a callback that finds its entry flushes, and only under its name. */
  lemma StepFlushes(s: D.State, step: D.Step, n: Str)
    requires D.TimersKnown(s) && D.Enabled(s, step)
    ensures D.Flushes(D.Of(D.Next(s, step), n)) ==
            D.Flushes(D.Of(s, n)) +
            (if step.DoRun? && D.Due(s, step.id).Some? && s.timers[step.id].name == n then 1 else 0)
  {
    StepObserves(s, step, n);
    var l, more := D.Of(s, n), Observed(s, step, n);
    if more == [] {
      assert l + more == l;
    } else {
      assert more == [more[0]];
      FlushesSnoc(l, more[0]);
    }
  }

  lemma StepKeepsNames(s: D.State, step: D.Step)
    requires D.Served(s) && D.TimersKnown(s) && D.Enabled(s, step)
    ensures var s' := D.Next(s, step);
            |s.timers| <= |s'.timers| && forall i: nat | i < |s.timers| :: s'.timers[i].name == s.timers[i].name
  {
    D.TimersAge(s, step);
  }

  /** A step of the debounce that flushes nothing. */
  lemma QuietKeepsCounts(s: D.State, step: D.Step, log: Log)
    requires D.Served(s) && D.TimersKnown(s) && D.Enabled(s, step) && (step.DoRun? ==> D.Due(s, step.id).None?)
    requires NamesTold(s, log) && Counted(s, log)
    ensures NamesTold(D.Next(s, step), log) && Counted(D.Next(s, step), log)
  {
    StepKeepsNames(s, step);
    forall n ensures D.Flushes(D.Of(D.Next(s, step), n)) == |Of(log, n)| {
      StepFlushes(s, step, n);
    }
  }

  /** A flush begins a tale. */
  lemma FlushKeepsCounts(s: D.State, id: nat, log: Log)
    requires D.Served(s) && D.TimersKnown(s) && PendingWrites(s) && D.Enabled(s, D.DoRun(id)) && D.Due(s, id).Some?
    requires NamesTold(s, log) && Counted(s, log) && id !in log.tales
    ensures var log' := log.(tales := log.tales[id := Tale(D.Due(s, id).value, None, InHand)]);
            NamesTold(D.Next(s, D.DoRun(id)), log') && Counted(D.Next(s, D.DoRun(id)), log')
  {
    StepKeepsNames(s, D.DoRun(id));
    assert D.EntryServed(s, s.timers[id].name);
    TaleBegins(s, D.Next(s, D.DoRun(id)), id, D.Due(s, id).value, log);
  }

  lemma TaleBegins(s: D.State, s': D.State, id: nat, e: Event, log: Log)
    requires NamesTold(s, log) && Counted(s, log) && id !in log.tales && id < |s.timers| <= |s'.timers|
    requires forall i: nat | i < |s.timers| :: s'.timers[i].name == s.timers[i].name
    requires D.TimersKnown(s) && D.Enabled(s, D.DoRun(id)) && s' == D.Next(s, D.DoRun(id)) && D.Due(s, id) == Some(e)
    requires e.op == OP_WRITE && e.name == s.timers[id].name
    ensures var log' := log.(tales := log.tales[id := Tale(e, None, InHand)]);
            NamesTold(s', log') && Counted(s', log')
  {
    var log' := log.(tales := log.tales[id := Tale(e, None, InHand)]);
    NewName(s, s', id, e, log);
    forall n ensures D.Flushes(D.Of(s', n)) == |Of(log', n)| {
      StepFlushes(s, D.DoRun(id), n);
      OneMore(log, id, e, n);
    }
  }

  lemma NewName(s: D.State, s': D.State, id: nat, e: Event, log: Log)
    requires NamesTold(s, log) && id < |s.timers| <= |s'.timers|
    requires forall i: nat | i < |s.timers| :: s'.timers[i].name == s.timers[i].name
    requires e.op == OP_WRITE && e.name == s.timers[id].name
    ensures NamesTold(s', log.(tales := log.tales[id := Tale(e, None, InHand)]))
  {
  }

  lemma OneMore(log: Log, id: nat, e: Event, n: Str)
    requires id !in log.tales
    ensures |Of(log.(tales := log.tales[id := Tale(e, None, InHand)]), n)| ==
            |Of(log, n)| + (if n == e.name then 1 else 0)
  {
    var log' := log.(tales := log.tales[id := Tale(e, None, InHand)]);
    assert Of(log', n) == if n == e.name then Of(log, n) + {id} else Of(log, n);
  }

  /** Later chapters of a tale do not count again. */
  lemma SendKeepsCounts(s: D.State, log: Log, c: Client, id: nat, pc: SendPc, ch: Choice)
    requires NamesTold(s, log) && Counted(s, log) && id in log.tales
    ensures NamesTold(s, SendLog(log, c, id, pc, ch)) && Counted(s, SendLog(log, c, id, pc, ch))
  {
    var log' := SendLog(log, c, id, pc, ch);
    forall n ensures D.Flushes(D.Of(s, n)) == |Of(log', n)| {
      assert Of(log', n) == Of(log, n);
    }
  }

  lemma OthersKeepCounts(c: Client, c': Client, t: Tid, log: Log)
    requires t in c.threads && Moves(c, c', t) && DebounceInv(c)
    requires NamesTold(c.w.state, log) && Counted(c.w.state, log)
    requires DebounceStep(t, c.threads[t]).Some? && DebounceStep(t, c.threads[t]).value.DoRun? ==>
               D.Due(c.w.state, DebounceStep(t, c.threads[t]).value.id).None?
    ensures NamesTold(c'.w.state, log) && Counted(c'.w.state, log)
  {
    var step := DebounceStep(t, c.threads[t]);
    if step.Some? {
      QuietKeepsCounts(c.w.state, step.value, log);
    }
  }

  lemma OwnStepKeepsCounts(c: Client, c': Client, id: nat, ch: Choice, log: Log)
    requires Callback(id) in c.threads && Moves(c, c', Callback(id)) && DebounceInv(c)
    requires TalesInv(c.threads, log) && NamesTold(c.w.state, log) && Counted(c.w.state, log)
    ensures NamesTold(c'.w.state, LogNext(log, c, id, ch)) && Counted(c'.w.state, LogNext(log, c, id, ch))
  {
    var pc := c.threads[Callback(id)];
    assert id in log.tales ==> Told(c.threads, log, id);
    if pc == Flush(Flushing) && D.Due(c.w.state, id).Some? {
      FlushKeepsCounts(c.w.state, id, log);
    } else {
      OthersKeepCounts(c, c', Callback(id), log);
      if pc.Send? {
        SendKeepsCounts(c.w.state, log, c, id, pc.s, ch);
      }
    }
  }

  // ---------------------------------------------------------------- runs

  ghost predicate LogInv(c: Client, log: Log) {
    && TalesInv(c.threads, log) && QueueTold(c.queue.accepted, log)
    && NamesTold(c.w.state, log) && Counted(c.w.state, log)
  }

  lemma NewLog()
    ensures LogInv(NEW_CLIENT, NO_TALES)
  {
    forall n ensures D.Flushes(D.Of(NEW_CLIENT.w.state, n)) == |Of(NO_TALES, n)| {
      assert Of(NO_TALES, n) == {};
    }
  }

  lemma RunKeepsLog(c: Client, t: Tid, ch: Choice, log: Log)
    requires ClientInv(c) && LogInv(c, log) && ThreadStep(c, t, ch).Some?
    ensures LogInv(ThreadStep(c, t, ch).value, if t.Callback? then LogNext(log, c, t.id, ch) else log)
  {
    MoveKeepsCommon(c, t, ch);
    var c' := ThreadStep(c, t, ch).value;
    if t.Callback? {
      OwnStepKeepsTales(c, c', t.id, ch, log);
      OwnStepKeepsQueue(c, t.id, ch, log);
      OwnStepKeepsCounts(c, c', t.id, ch, log);
    } else {
      OthersKeepTales(c, c', t, log);
      OthersKeepQueue(c, t, ch, log);
      OthersKeepCounts(c, c', t, log);
    }
  }

  /** The clock, a timer that starts its callback, the fan-out coming and going. */
  lemma QuietKeepsLog(c: Client, l: Label, log: Log)
    requires ClientInv(c) && LogInv(c, log) && Next(c, l).Some? && !l.Run?
    ensures LogInv(Next(c, l).value, log)
  {
    if l.Fire? {
      FireKeepsLog(c, l.id, log);
    } else {
      if l.Tick? {
        DebounceReady(c.w.state);
        QuietKeepsCounts(c.w.state, D.DoTick(l.d), log);
      }
      forall id | id in log.tales ensures Told(Next(c, l).value.threads, log, id) {
        assert Told(c.threads, log, id);
      }
    }
  }

  lemma FireKeepsLog(c: Client, id: nat, log: Log)
    requires ClientInv(c) && LogInv(c, log) && Next(c, Fire(id)).Some?
    ensures LogInv(Next(c, Fire(id)).value, log)
  {
    var c' := Next(c, Fire(id)).value;
    QuietKeepsCounts(c.w.state, D.DoFire(id), log);
    ClockKeepsCallbacks(c, c', D.DoFire(id));
    NewCallbackKeepsTales(c.threads, id, log);
  }

  lemma NewCallbackKeepsTales(threads: map<Tid, Pc>, id: nat, log: Log)
    requires TalesInv(threads, log) && Callback(id) !in threads
    ensures TalesInv(threads[Callback(id) := Flush(FlushWant)], log)
  {
    var threads' := threads[Callback(id) := Flush(FlushWant)];
    forall x | x in log.tales ensures Told(threads', log, x) {
      assert Told(threads, log, x);
    }
  }

  lemma {:induction false} RunsKeepLog(steps: seq<Y.Step>, c: Y.Cid)
    requires Y.Exec(steps).Some?
    ensures c in Y.Exec(steps).value.clients ==> LogInv(Y.Exec(steps).value.clients[c], LogOf(steps, c))
    ensures c !in Y.Exec(steps).value.clients ==> LogOf(steps, c) == NO_TALES
  {
    if steps != [] {
      var front, step := steps[..|steps| - 1], steps[|steps| - 1];
      var s := Y.Exec(front).value;
      RunsKeepLog(front, c);
      Y.RunKeepsInv(front);
      if c in s.clients {
        assert ClientInv(s.clients[c]);
        StepKeepsLog(s, step, c, LogOf(front, c));
      } else if c in Y.Exec(steps).value.clients {
        Y.OnlyAcceptAdds(s, step, c);
        NewLog();
      }
    }
  }

  lemma StepKeepsLog(s: Y.Sys, step: Y.Step, c: Y.Cid, log: Log)
    requires c in s.clients && Y.SysNext(s, step).Some? && ClientInv(s.clients[c]) && LogInv(s.clients[c], log)
    ensures c in Y.SysNext(s, step).value.clients
    ensures LogInv(Y.SysNext(s, step).value.clients[c],
                   if step.Local? && step.c == c && step.l.Run? && step.l.t.Callback?
                   then LogNext(log, s.clients[c], step.l.t.id, step.l.ch) else log)
  {
    var s' := Y.SysNext(s, step).value;
    if step.Local? && step.c == c && step.l.Run? {
      OwnRun(s, c, step.l.t, step.l.ch);
      RunKeepsLog(s.clients[c], step.l.t, step.l.ch, log);
    } else {
      var l := OtherMoves(s, step, c);
      if l.Some? {
        QuietKeepsLog(s.clients[c], l.value, log);
      }
    }
  }

  lemma OwnRun(s: Y.Sys, c: Y.Cid, t: Tid, ch: Choice)
    requires c in s.clients && Y.SysNext(s, Y.Local(c, Run(t, ch))).Some?
    ensures c in Y.SysNext(s, Y.Local(c, Run(t, ch))).value.clients
    ensures ThreadStep(s.clients[c], t, ch) == Some(Y.SysNext(s, Y.Local(c, Run(t, ch))).value.clients[c])
  {
  }

  lemma OtherMoves(s: Y.Sys, step: Y.Step, c: Y.Cid) returns (l: Option<Label>)
    requires c in s.clients && Y.SysNext(s, step).Some? && !(step.Local? && step.c == c && step.l.Run?)
    ensures c in Y.SysNext(s, step).value.clients
    ensures l.None? ==> Y.SysNext(s, step).value.clients[c] == s.clients[c]
    ensures l.Some? ==> !l.value.Run? && Next(s.clients[c], l.value) == Some(Y.SysNext(s, step).value.clients[c])
  {
    l := None;
    match step
    case Local(c2, l2) => if c2 == c { l := Some(l2); }
    case Collect(order) => if c in order { l := Some(Label.Collect(s.fan.p)); }
    case StartVisit => if s.fan.todo[0] == c { l := Some(Start); }
    case _ =>
  }

  /** In every run the WRITE frames a client's queue has accepted are the
      translations, each with the map in force at its translation, of events that
      callbacks flushed, one frame for each callback; those on the wire are a
      prefix of them. */
  lemma WriteFramesWereFlushed(steps: seq<Y.Step>, c: Y.Cid)
    requires Y.Exec(steps).Some? && c in Y.Exec(steps).value.clients
    ensures var cl, log := Y.Exec(steps).value.clients[c], LogOf(steps, c);
            && AcceptedKnown(log)
            && (forall i, j | 0 <= i < j < |log.accepted| :: log.accepted[i] != log.accepted[j])
            && (forall id | id in log.accepted ::
                  var t := log.tales[id];
                  t.event.op == OP_WRITE && t.m.Some? && t.event.key in t.m.value)
            && OnlyWrite(cl.queue.accepted) == Frames(log)
            && OnlyWrite(cl.queue.written) <= Frames(log)
  {
    RunsKeepLog(steps, c);
    Y.RunKeepsInv(steps);
    var cl, log := Y.Exec(steps).value.clients[c], LogOf(steps, c);
    assert ClientInv(cl);
    forall id | id in log.accepted
      ensures var t := log.tales[id]; t.event.op == OP_WRITE && t.m.Some? && t.event.key in t.m.value
    {
      assert Told(cl.threads, log, id);
    }
    assert cl.queue.written <= cl.queue.accepted;
    OnlyWritePrefix(cl.queue.written, cl.queue.accepted);
  }

  /** Per name, flushed = accepted + unmapped + refused + in the hands of a
      callback that has yet to send it. */
  lemma FlushesAreConserved(steps: seq<Y.Step>, c: Y.Cid, n: Str)
    requires Y.Exec(steps).Some? && c in Y.Exec(steps).value.clients
    ensures var cl, log := Y.Exec(steps).value.clients[c], LogOf(steps, c);
            && D.Flushes(D.Of(cl.w.state, n)) ==
               |By(log, n, Enqueued)| + |By(log, n, Unmapped)| + |By(log, n, Refused)| + |By(log, n, InHand)|
            && forall id | id in By(log, n, InHand) ::
                 Callback(id) in cl.threads && cl.threads[Callback(id)].Send?
  {
    RunsKeepLog(steps, c);
    var cl, log := Y.Exec(steps).value.clients[c], LogOf(steps, c);
    var a, b, d, e := By(log, n, Enqueued), By(log, n, Unmapped), By(log, n, Refused), By(log, n, InHand);
    assert Of(log, n) == a + b + d + e;
    assert a !! b && (a + b) !! d && (a + b + d) !! e;
    forall id | id in e ensures Callback(id) in cl.threads && cl.threads[Callback(id)].Send? {
      assert Told(cl.threads, log, id);
    }
  }
}
