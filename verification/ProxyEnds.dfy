/** No half-dead clients: a thread that stops serving a client takes the client
    down with it (k8s/pkg/multicast/tcpserver.go,
    k8s/cmd/fsnotify-proxy/app/helper.go). */
module ProxyEnds {
  import opened Prelude
  import opened Wire
  import D = Debounce
  import opened ProxyClient
  import opened ProxyClientInv
  import opened ProxyOrder
  import opened ProxySystem
  import opened ProxyDelivery
  import W = ProxyWrites

  /** A reader that has ended, or a writer that has ended after a failed write,
      leaves a finished teardown; a writer ends otherwise only on seeing one begun. */
  predicate EndFits(c: Client) {
    && (Reader in c.threads && c.threads[Reader].Ended? ==> c.life.once.Over?)
    && (Writer in c.threads && c.threads[Writer].Ended? ==>
          c.life.once.Over? || (c.life.done && c.queue.lost == []))
  }

  /** What a step does to this: nothing comes back to life, and only the writer's
      own failed write loses a frame. */
  predicate EndMoves(c: Client, c': Client, t: Tid) {
    && (c.life.once.Over? ==> c'.life.once.Over?) && (c.life.done ==> c'.life.done)
    && (c'.queue.lost == c.queue.lost || (t == Writer && t in c'.threads && c'.threads[t].Shut?))
    && (t in c'.threads && c'.threads[t].Ended? && (t == Reader || t == Writer) ==>
          c'.life.once.Over? || (t == Writer && c'.life.done && c'.queue.lost == []))
  }

  lemma LoopEndMoves(c: Client, o: LoopPc, ch: Choice)
    requires QueueInv(c) && Writer in c.threads && c.threads[Writer] == Loop(o) && LoopStep(c, o, ch).Some?
    ensures EndMoves(c, LoopStep(c, o, ch).value, Writer)
  {
  }

  lemma ShutEndMoves(c: Client, t: Tid, x: ShutPc, k: Kont)
    requires t in c.threads && c.threads[t] == Shut(x, k) && ShutStep(c, t, x, k).Some?
    ensures EndMoves(c, ShutStep(c, t, x, k).value, t)
  {
  }

  lemma SendEndMoves(c: Client, t: Tid, s: SendPc, k: Kont, ch: Choice)
    requires t != Reader && t != Writer && SendStep(c, t, s, k, ch).Some?
    ensures EndMoves(c, SendStep(c, t, s, k, ch).value, t)
  {
  }

  lemma VisitEndMoves(c: Client, v: VisitPc)
    requires VisitStep(c, v).Some?
    ensures EndMoves(c, VisitStep(c, v).value, Fan)
  {
  }

  lemma RunEndMoves(c: Client, t: Tid, ch: Choice)
    requires QueueInv(c) && t in c.threads && Typed(t, c.threads[t]) && ThreadStep(c, t, ch).Some?
    ensures EndMoves(c, ThreadStep(c, t, ch).value, t)
  {
    match c.threads[t]
    case Loop(o) => LoopEndMoves(c, o, ch);
    case Shut(x, k) => ShutEndMoves(c, t, x, k);
    case Send(s, k) => SendEndMoves(c, t, s, k, ch);
    case Visit(v) => VisitEndMoves(c, v);
    case _ =>
  }

  lemma MovesKeepEnds(c: Client, c': Client, t: Tid)
    requires EndFits(c) && t in c.threads && Moves(c, c', t) && EndMoves(c, c', t)
    ensures EndFits(c')
  {
  }

  lemma RunKeepsEnds(c: Client, t: Tid, ch: Choice)
    requires ClientInv(c) && EndFits(c) && ThreadStep(c, t, ch).Some?
    ensures EndFits(ThreadStep(c, t, ch).value)
  {
    MoveKeepsCommon(c, t, ch);
    RunEndMoves(c, t, ch);
    MovesKeepEnds(c, ThreadStep(c, t, ch).value, t);
  }

  lemma QuietKeepsEnds(c: Client, l: Label)
    requires EndFits(c) && !l.Run? && Next(c, l).Some?
    ensures EndFits(Next(c, l).value)
  {
  }

  lemma StepKeepsEnds(c: Client, l: Label)
    requires ClientInv(c) && EndFits(c) && Next(c, l).Some?
    ensures EndFits(Next(c, l).value)
  {
    match l
    case Run(t, ch) => RunKeepsEnds(c, t, ch);
    case _ => QuietKeepsEnds(c, l);
  }

  /** In every run: the reader has ended only when the teardown is finished; the
      writer only when it has begun, and after a failed write only when it is
      finished. */
  lemma {:induction false} EndedMeansDown(steps: seq<Step>, c: Cid)
    requires Exec(steps).Some? && c in Exec(steps).value.clients
    ensures EndFits(Exec(steps).value.clients[c])
  {
    var front, step := steps[..|steps| - 1], steps[|steps| - 1];
    var s := Exec(front).value;
    if c in s.clients {
      EndedMeansDown(front, c);
      RunKeepsInv(front);
      assert ClientInv(s.clients[c]);
      var l := ClientMoves(s, step, c);
      if l.Some? {
        StepKeepsEnds(s.clients[c], l.value);
      }
    } else {
      OnlyAcceptAdds(s, step, c);
    }
  }

  /** From every state: a read that fails, a write that fails, and a full queue
      lead into shutdown, whoever meets them; and a thread that is refused stops,
      with the rest of its batch. */
  lemma FailuresGoDown(c: Client, t: Tid, k: Kont, f: Event)
    ensures Reader in c.threads && c.threads[Reader] == Listen(Reading) ==>
              var c' := ThreadStep(c, Reader, Fail);
              c'.Some? && Reader in c'.value.threads && c'.value.threads[Reader] == Shut(Enter, ForReader)
    ensures Writer in c.threads && c.threads[Writer] == Loop(Writing(f)) ==>
              var c' := ThreadStep(c, Writer, Fail);
              && c'.Some? && Writer in c'.value.threads && c'.value.threads[Writer] == Shut(Enter, ForWriter)
              && c'.value.queue == c.queue.(lost := c.queue.lost + [f])
    ensures t in c.threads && c.threads[t] == Send(Offer(f), k) && |c.queue.q| >= 255 && !c.life.done ==>
              var c' := ThreadStep(c, t, Go);
              c'.Some? && t in c'.value.threads && c'.value.threads[t] == Shut(Enter, k) && c'.value.queue == c.queue
    ensures t in c.threads && c.threads[t] == Send(Probe(f), k) && c.life.done ==>
              var c' := ThreadStep(c, t, Go);
              && c'.Some? && t in c'.value.threads && c'.value.queue == c.queue
              && c'.value.threads[t] == if k.ForBatch? then Visit(Away) else Ended
  {
  }

  // --------------------------------------------------------- refused WRITEs

  predicate RefusedFits(c: Client, log: W.Log) {
    forall id | id in log.tales && log.tales[id].outcome.Refused? ::
      c.life.done || (Callback(id) in c.threads && c.threads[Callback(id)].Shut?)
  }

  /** A refused callback is on its way through shutdown, or has found the client
      going down. */
  lemma OwnRefusal(c: Client, id: nat, ch: Choice, log: W.Log)
    requires ThreadStep(c, Callback(id), ch).Some? && LateIsDone(c, Callback(id))
    requires id in log.tales ==> W.Told(c.threads, log, id)
    requires id in log.tales && log.tales[id].outcome.Refused? ==> c.life.done || c.threads[Callback(id)].Shut?
    ensures var c', log' := ThreadStep(c, Callback(id), ch).value, W.LogNext(log, c, id, ch);
            id in log'.tales && log'.tales[id].outcome.Refused? ==>
              c'.life.done || (Callback(id) in c'.threads && c'.threads[Callback(id)].Shut?)
  {
    match c.threads[Callback(id)]
    case Send(s, k) => if id in log.tales { SendRefusal(c, id, s, k, ch, log); }
    case Shut(x, k) => ShutRefusal(c, Callback(id), x, k);
    case _ =>
  }

  lemma SendRefusal(c: Client, id: nat, s: SendPc, k: Kont, ch: Choice, log: W.Log)
    requires Callback(id) in c.threads && c.threads[Callback(id)] == Send(s, k)
    requires SendStep(c, Callback(id), s, k, ch).Some?
    requires id in log.tales && W.Told(c.threads, log, id)
    ensures var c', log' := SendStep(c, Callback(id), s, k, ch).value, W.SendLog(log, c, id, s, ch);
            log'.tales[id].outcome.Refused? ==> c'.life.done || c'.threads[Callback(id)].Shut?
  {
  }

  lemma ShutRefusal(c: Client, t: Tid, x: ShutPc, k: Kont)
    requires t in c.threads && c.threads[t] == Shut(x, k) && ShutStep(c, t, x, k).Some? && LateIsDone(c, t)
    ensures var c' := ShutStep(c, t, x, k).value;
            c'.life.done || c'.threads[t].Shut?
  {
  }

  predicate LateIsDone(c: Client, t: Tid) {
    c.life.once.Over? || (t in c.threads && c.threads[t].Shut? && c.threads[t].x.Leaving?) ==> c.life.done
  }

  lemma LateDone(c: Client, t: Tid)
    requires Shape(c)
    ensures LateIsDone(c, t)
  {
    assert t in c.threads ==> OnceFits(c, t);
  }

  lemma CallbackKeepsRefused(c: Client, c': Client, id: nat, ch: Choice, log: W.Log)
    requires RefusedFits(c, log) && W.TalesInv(c.threads, log) && LateIsDone(c, Callback(id))
    requires ThreadStep(c, Callback(id), ch) == Some(c')
    requires Moves(c, c', Callback(id)) && NoneDelivered(c, c')
    ensures RefusedFits(c', W.LogNext(log, c, id, ch))
  {
    var log' := W.LogNext(log, c, id, ch);
    assert id in log.tales ==> W.Told(c.threads, log, id);
    OwnRefusal(c, id, ch, log);
    forall x | x in log'.tales && log'.tales[x].outcome.Refused? && x != id
      ensures c'.life.done || (Callback(x) in c'.threads && c'.threads[Callback(x)].Shut?)
    {
      W.OnlyOwnTale(log, c, id, ch, x);
    }
  }

  lemma OthersKeepRefused(c: Client, c': Client, t: Tid, log: W.Log)
    requires RefusedFits(c, log) && t in c.threads && !t.Callback? && Moves(c, c', t) && NoneDelivered(c, c')
    ensures RefusedFits(c', log)
  {
  }

  lemma RunKeepsRefused(c: Client, t: Tid, ch: Choice, log: W.Log)
    requires ClientInv(c) && RefusedFits(c, log) && W.TalesInv(c.threads, log) && ThreadStep(c, t, ch).Some?
    ensures RefusedFits(ThreadStep(c, t, ch).value, if t.Callback? then W.LogNext(log, c, t.id, ch) else log)
  {
    var c' := ThreadStep(c, t, ch).value;
    MoveKeepsCommon(c, t, ch);
    RunDeliversNone(c, t, ch);
    LateDone(c, t);
    if t.Callback? {
      CallbackKeepsRefused(c, c', t.id, ch, log);
    } else {
      OthersKeepRefused(c, c', t, log);
    }
  }

  lemma QuietKeepsRefused(c: Client, l: Label, log: W.Log)
    requires RefusedFits(c, log) && W.TalesInv(c.threads, log) && Next(c, l).Some? && !l.Run?
    requires l.Fire? ==> Callback(l.id) !in c.threads
    ensures RefusedFits(Next(c, l).value, log)
  {
  }

  lemma StepKeepsRefused(s: Sys, step: Step, c: Cid, log: W.Log)
    requires c in s.clients && SysNext(s, step).Some? && ClientInv(s.clients[c])
    requires W.LogInv(s.clients[c], log) && RefusedFits(s.clients[c], log)
    ensures c in SysNext(s, step).value.clients
    ensures RefusedFits(SysNext(s, step).value.clients[c],
                        if step.Local? && step.c == c && step.l.Run? && step.l.t.Callback?
                        then W.LogNext(log, s.clients[c], step.l.t.id, step.l.ch) else log)
  {
    if step.Local? && step.c == c && step.l.Run? {
      W.OwnRun(s, c, step.l.t, step.l.ch);
      RunKeepsRefused(s.clients[c], step.l.t, step.l.ch, log);
    } else {
      var l := W.OtherMoves(s, step, c);
      if l.Some? {
        NewCallback(s.clients[c], l.value);
        QuietKeepsRefused(s.clients[c], l.value, log);
      }
    }
  }

  lemma NewCallback(c: Client, l: Label)
    requires ClientInv(c) && Next(c, l).Some?
    ensures l.Fire? ==> Callback(l.id) !in c.threads
  {
    if l.Fire? {
      ClockKeepsCallbacks(c, Next(c, l).value, D.DoFire(l.id));
    }
  }

  /** In every run, a flushed WRITE is refused only by a client whose teardown has
      begun, or whose callback is on its way to begin it. */
  lemma {:induction false} RefusedMeansDown(steps: seq<Step>, c: Cid)
    requires Exec(steps).Some? && c in Exec(steps).value.clients
    ensures RefusedFits(Exec(steps).value.clients[c], W.LogOf(steps, c))
  {
    var front, step := steps[..|steps| - 1], steps[|steps| - 1];
    var s := Exec(front).value;
    W.RunsKeepLog(front, c);
    if c in s.clients {
      RefusedMeansDown(front, c);
      RunKeepsInv(front);
      assert ClientInv(s.clients[c]);
      StepKeepsRefused(s, step, c, W.LogOf(front, c));
    } else {
      OnlyAcceptAdds(s, step, c);
    }
  }
}
