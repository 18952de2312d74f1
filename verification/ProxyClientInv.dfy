/** What every step of a client keeps, and what follows for every run. */
module ProxyClientInv {
  import opened Prelude
  import opened Wire
  import D = Debounce
  import opened ProxyClient

  // -------------------------------------------------------------- threads

  /** Each thread stays in its own code. */
  predicate Typed(t: Tid, pc: Pc) {
    match t
    case Reader => pc.Listen? || (pc.Shut? && pc.k.ForReader?) || pc.Ended?
    case Writer => pc.Loop? || (pc.Shut? && pc.k.ForWriter?) || pc.Ended?
    case Fan => pc.Visit? || ((pc.Send? || pc.Shut?) && pc.k.ForBatch?)
    case Callback(_) => pc.Flush? || ((pc.Send? || pc.Shut?) && pc.k.ForCallback?) || pc.Ended?
  }

  /** A callback thread has yet to take the mutex exactly while its timer is
      fired and not run. */
  predicate CallbackFits(c: Client, id: nat) {
    && id < |c.w.state.timers|
    && Callback(id) in c.threads
    && (c.w.state.timers[id].phase.Fired? || c.w.state.timers[id].phase.Ran?)
    && (c.w.state.timers[id].phase.Fired? <==> c.threads[Callback(id)].Flush?)
  }

  predicate ThreadsInv(c: Client) {
    && Reader in c.threads && Fan in c.threads
    && (forall t | t in c.threads :: Typed(t, c.threads[t]))
    && (Writer in c.threads <==> !(c.threads[Reader] in {Listen(Accepted), Listen(Wired)}))
    && (forall t | t in c.threads && t.Callback? :: CallbackFits(c, t.id))
    && (forall id: nat
          | id < |c.w.state.timers| && (c.w.state.timers[id].phase.Fired? || c.w.state.timers[id].phase.Ran?) ::
          CallbackFits(c, id))
  }

  // ----------------------------------------------------------- publication

  predicate Unpublished(pc: Pc) {
    pc.Listen? && (pc.l.Accepted? || pc.l.Wired? || pc.l.Greeting? || pc.l.PublishWant? || pc.l.Publishing?)
  }

  /** Before publication nobody can have sent anything. */
  predicate PublishInv(c: Client)
    requires Reader in c.threads
  {
    var r := c.threads[Reader];
    && (c.life.fconn <==> r != Listen(Accepted))
    && (c.life.helper <==> !(r in {Listen(Accepted), Listen(Wired), Listen(Greeting)}))
    && (Unpublished(r) ==>
          && !c.life.published && c.life.once.Fresh? && c.queue == Queue([], [], [], []) && c.w.state.timers == []
          && FanIs(c, Away) && (Writer in c.threads ==> c.threads[Writer] == Loop(Select)))
  }

  // ------------------------------------------------------------- teardown

  predicate InOnce(pc: Pc) {
    pc.Shut? && !pc.x.Enter?
  }

  predicate OnceFits(c: Client, t: Tid)
    requires t in c.threads
  {
    InOnce(c.threads[t]) <==> c.life.once == Running(t)
  }

  predicate OnceInv(c: Client) {
    && (forall t | t in c.threads :: OnceFits(c, t))
    && (c.life.once.Running? ==> c.life.once.t in c.threads)
  }

  /** How far the teardown has come. */
  predicate StageInv(c: Client)
    requires Reader in c.threads && OnceInv(c)
  {
    match c.life.once
    case Fresh =>
      && !c.life.done && c.life.connOpen && !c.w.state.closed && c.life.removes == 0
      && (c.life.published <==> !Unpublished(c.threads[Reader]))
    case Over =>
      c.life.done && !c.life.connOpen && c.w.state.closed && c.life.removes == 1 && !c.life.published
    case Running(t) =>
      assert OnceFits(c, t);
      Stage(c, c.threads[t].x)
  }

  predicate Stage(c: Client, x: ShutPc) {
    && (c.life.done <==> !x.CloseDone?)
    && (c.life.connOpen <==> x.CloseDone? || x.CloseConn?)
    && (c.w.state.closed <==> x.Removing? || x.DropWant? || x.Dropping? || x.Leaving?)
    && c.life.removes == (if x.DropWant? || x.Dropping? || x.Leaving? then 1 else 0)
    && (c.life.published <==> !x.Leaving?)
  }

  // ---------------------------------------------------------------- locks

  predicate ReadsLocked(pc: Pc) {
    (pc.Visit? && pc.v.Checking?) || (pc.Send? && pc.s.Translating?)
  }

  predicate WritesLocked(pc: Pc) {
    || (pc.Listen? && pc.l.Editing?) || (pc.Visit? && pc.v.Arming?)
    || (pc.Flush? && pc.f.Flushing?) || (pc.Shut? && pc.x.Closing?)
  }

  predicate LockFits(mu: Lock, t: Tid, pc: Pc) {
    && (t in mu.readers <==> ReadsLocked(pc))
    && (mu.writer == Some(t) <==> WritesLocked(pc))
  }

  /** The watcher mutex is held by exactly the threads inside its critical
      sections, and never by a writer and someone else. */
  predicate LockInv(c: Client) {
    && (forall t | t in c.threads :: LockFits(c.w.mu, t, c.threads[t]))
    && c.w.mu.readers <= c.threads.Keys
    && (c.w.mu.writer.Some? ==> c.w.mu.writer.value in c.threads && c.w.mu.readers == {})
  }

  // ---------------------------------------------------------------- queue

  /** The frame the writer has taken and not yet written. */
  function Held(c: Client): seq<Event> {
    if Writer in c.threads && c.threads[Writer].Loop? && c.threads[Writer].o.Writing? then [c.threads[Writer].o.frame]
    else []
  }

  predicate Balanced(u: Queue, held: seq<Event>) {
    u.accepted == u.written + (held + u.lost) + u.q
  }

  /** Accepted frames = written ++ held ++ lost to a failed write ++ queued, in order. */
  predicate QueueInv(c: Client) {
    && |c.queue.q| <= DEPTH
    && Balanced(c.queue, Held(c))
    && |c.queue.lost| <= 1
    && (c.queue.lost != [] ==> Writer in c.threads && !c.threads[Writer].Loop?)
  }

  // ------------------------------------------------------------ operations

  /** What is armed is a WRITE; what is sent is one exactly if a callback sends it. */
  predicate OpFits(pc: Pc) {
    match pc
    case Visit(ArmWant(e, _)) => e.op == OP_WRITE
    case Visit(Arming(e, _)) => e.op == OP_WRITE
    case Send(TransWant(e), k) => e.op == OP_WRITE <==> !k.ForBatch?
    case Send(Translating(e), k) => e.op == OP_WRITE <==> !k.ForBatch?
    case Send(Probe(f), k) => f.op == OP_WRITE <==> !k.ForBatch?
    case Send(Offer(f), k) => f.op == OP_WRITE <==> !k.ForBatch?
    case _ => true
  }

  predicate PendingWrites(s: D.State) {
    forall n | n in s.pending :: s.pending[n].event.op == OP_WRITE
  }

  /** Only events whose Op is exactly WRITE are delayed, and none is forgotten. */
  ghost predicate DebounceInv(c: Client) {
    && D.Inv(c.w.state) && PendingWrites(c.w.state)
    && forall t | t in c.threads :: OpFits(c.threads[t])
  }

  lemma DebounceReady(s: D.State)
    requires D.Inv(s)
    ensures D.TimersKnown(s)
  {
    forall n | n in s.pending ensures s.pending[n].timer < |s.timers| {
      assert D.EntryServed(s, n);
    }
  }

  // ------------------------------------------ one thread moves at a time

  /** The debounce step a thread is about to make, if any. */
  function DebounceStep(t: Tid, pc: Pc): Option<D.Step> {
    match pc
    case Visit(Arming(e, _)) => Some(D.DoArm(e))
    case Flush(Flushing) => if t.Callback? then Some(D.DoRun(t.id)) else None
    case Shut(Closing, _) => Some(D.DoClose)
    case _ => None
  }

  /** What the invariants let a thread count on before its own step. */
  predicate Ready(c: Client, t: Tid) {
    && t in c.threads && Typed(t, c.threads[t]) && OnceFits(c, t) && LockFits(c.w.mu, t, c.threads[t])
    && (c.w.mu.writer.Some? ==> c.w.mu.readers == {})
    && D.TimersKnown(c.w.state) && PendingWrites(c.w.state) && OpFits(c.threads[t])
    && (t.Callback? ==> CallbackFits(c, t.id))
  }

  /** A step of `t` moves `t` alone (the reader also starts the writer); `t`
      takes and gives up the once and the mutex only for itself; the debounce
      state moves by its own steps. */
  predicate Moves(c: Client, c': Client, t: Tid)
    requires t in c.threads
  {
    && t in c'.threads
    && c'.threads == (if t == Reader && c.threads[t] == Listen(Wired)
                      then c.threads[Writer := Loop(Select)][Reader := Listen(Greeting)]
                      else c.threads[t := c'.threads[t]])
    && Typed(t, c'.threads[t]) && OpFits(c'.threads[t]) && OnceFits(c', t)
    && (c'.threads[t].Listen? ==> c.threads[t].Listen?) && (c'.threads[t].Loop? ==> c.threads[t].Loop?)
    && (t.Callback? ==> (c'.threads[t].Flush? <==> c.threads[t] == Flush(FlushWant)))
    && (t.Reader? ==> (c'.threads[t] in {Listen(Accepted), Listen(Wired)} <==> c.threads[t] == Listen(Accepted)))
    && (c'.life.once == c.life.once || (c.life.once.Fresh? && c'.life.once == Running(t))
        || (c.life.once == Running(t) && c'.life.once.Over?))
    && LockMoves(c.w.mu, c'.w.mu, t, c'.threads[t])
    && (HoldsServer(c'.threads[t]) <==> WantsServer(c.threads[t]))
    && (c.threads[t].Loop? || c'.queue.written == c.queue.written)
    && var step := DebounceStep(t, c.threads[t]);
       if step.None? then c'.w.state == c.w.state
       else D.Enabled(c.w.state, step.value) && D.TimersKnown(c.w.state) && c'.w.state == D.Next(c.w.state, step.value)
  }

  predicate LockMoves(mu: Lock, mu': Lock, t: Tid, pc': Pc) {
    && LockFits(mu', t, pc')
    && mu'.readers - {t} == mu.readers - {t}
    && (|| mu'.writer == mu.writer
        || (mu.writer == None && mu'.writer == Some(t))
        || (mu.writer == Some(t) && mu'.writer == None))
    && (mu'.writer.Some? ==> mu'.readers == {})
  }

  lemma ListenMoves(c: Client, l: ListenPc, ch: Choice)
    requires Ready(c, Reader) && c.threads[Reader] == Listen(l) && ListenStep(c, l, ch).Some?
    ensures Moves(c, ListenStep(c, l, ch).value, Reader)
  {
  }

  lemma LoopMoves(c: Client, o: LoopPc, ch: Choice)
    requires Ready(c, Writer) && c.threads[Writer] == Loop(o) && LoopStep(c, o, ch).Some?
    ensures Moves(c, LoopStep(c, o, ch).value, Writer)
  {
  }

  lemma VisitMoves(c: Client, v: VisitPc)
    requires Ready(c, Fan) && c.threads[Fan] == Visit(v) && VisitStep(c, v).Some?
    ensures Moves(c, VisitStep(c, v).value, Fan)
  {
  }

  lemma FlushMoves(c: Client, id: nat, f: FlushPc)
    requires Ready(c, Callback(id)) && c.threads[Callback(id)] == Flush(f) && FlushStep(c, id, f).Some?
    ensures Moves(c, FlushStep(c, id, f).value, Callback(id))
  {
  }

  lemma SendMoves(c: Client, t: Tid, s: SendPc, k: Kont, ch: Choice)
    requires Ready(c, t) && c.threads[t] == Send(s, k) && SendStep(c, t, s, k, ch).Some?
    ensures Moves(c, SendStep(c, t, s, k, ch).value, t)
  {
  }

  lemma ShutMovesOnce(c: Client, t: Tid, x: ShutPc, k: Kont)
    requires Ready(c, t) && c.threads[t] == Shut(x, k) && ShutStep(c, t, x, k).Some?
    requires x.Enter? || x.Leaving?
    ensures Moves(c, ShutStep(c, t, x, k).value, t)
  {
  }

  lemma ShutMovesLocked(c: Client, t: Tid, x: ShutPc, k: Kont)
    requires Ready(c, t) && c.threads[t] == Shut(x, k) && ShutStep(c, t, x, k).Some?
    requires x.CloseWant? || x.Closing?
    ensures Moves(c, ShutStep(c, t, x, k).value, t)
  {
  }

  lemma ShutMoves(c: Client, t: Tid, x: ShutPc, k: Kont)
    requires Ready(c, t) && c.threads[t] == Shut(x, k) && ShutStep(c, t, x, k).Some?
    ensures Moves(c, ShutStep(c, t, x, k).value, t)
  {
    if x.Enter? || x.Leaving? {
      ShutMovesOnce(c, t, x, k);
    } else if x.CloseWant? || x.Closing? {
      ShutMovesLocked(c, t, x, k);
    }
  }

  lemma ThreadMoves(c: Client, t: Tid, ch: Choice)
    requires Ready(c, t) && ThreadStep(c, t, ch).Some?
    ensures Moves(c, ThreadStep(c, t, ch).value, t)
  {
    match (t, c.threads[t])
    case (Reader, Listen(l)) => ListenMoves(c, l, ch);
    case (Writer, Loop(o)) => LoopMoves(c, o, ch);
    case (Fan, Visit(v)) => VisitMoves(c, v);
    case (Callback(id), Flush(f)) => FlushMoves(c, id, f);
    case (_, Send(s, k)) => SendMoves(c, t, s, k, ch);
    case (_, Shut(x, k)) => ShutMoves(c, t, x, k);
    case _ =>
  }

  lemma MoveKeepsThreads(c: Client, c': Client, t: Tid)
    requires ThreadsInv(c) && Ready(c, t) && Moves(c, c', t)
    ensures ThreadsInv(c')
  {
    var step := DebounceStep(t, c.threads[t]);
    if step.Some? {
      D.PhasesMove(c.w.state, step.value);
    }
    forall x | x in c'.threads ensures Typed(x, c'.threads[x]) {
      assert x in c.threads ==> Typed(x, c.threads[x]);
    }
    forall x | x in c'.threads && x.Callback? ensures CallbackFits(c', x.id) {
      assert CallbackFits(c, x.id);
    }
    forall id: nat
      | id < |c'.w.state.timers| && (c'.w.state.timers[id].phase.Fired? || c'.w.state.timers[id].phase.Ran?)
      ensures CallbackFits(c', id)
    {
      assert CallbackFits(c, id);
    }
  }

  lemma MoveKeepsOnce(c: Client, c': Client, t: Tid)
    requires OnceInv(c) && ThreadsInv(c) && Ready(c, t) && Moves(c, c', t)
    ensures OnceInv(c')
  {
    forall x | x in c'.threads ensures OnceFits(c', x) {
      if x != t && x in c.threads {
        assert OnceFits(c, x);
      }
    }
  }

  lemma MoveKeepsLocks(c: Client, c': Client, t: Tid)
    requires LockInv(c) && ThreadsInv(c) && Ready(c, t) && Moves(c, c', t)
    ensures LockInv(c')
  {
    forall x | x in c'.threads ensures LockFits(c'.w.mu, x, c'.threads[x]) {
      if x != t && x in c.threads {
        assert LockFits(c.w.mu, x, c.threads[x]);
        assert x in c'.w.mu.readers - {t} <==> x in c.w.mu.readers - {t};
      }
    }
    forall x | x in c'.w.mu.readers ensures x in c'.threads {
      assert x == t || x in c.w.mu.readers - {t};
    }
  }

  predicate Shape(c: Client) {
    ThreadsInv(c) && OnceInv(c) && LockInv(c) && PublishInv(c) && StageInv(c)
  }

  /** Threads outside listen and shutdown leave the life of the connection alone. */
  lemma QuietKeepsStage(c: Client, c': Client, t: Tid)
    requires Shape(c) && Ready(c, t) && Moves(c, c', t) && OnceInv(c') && Reader in c'.threads
    requires c'.life == c.life && t != Reader && !c.threads[t].Shut?
    ensures StageInv(c')
  {
    assert OnceFits(c, t);
    if c.life.once.Running? {
      assert OnceFits(c, c.life.once.t) && OnceFits(c', c.life.once.t);
    }
  }

  lemma ListenKeepsStage(c: Client, l: ListenPc, ch: Choice)
    requires Shape(c) && Ready(c, Reader) && c.threads[Reader] == Listen(l) && ListenStep(c, l, ch).Some?
    requires var c' := ListenStep(c, l, ch).value; Moves(c, c', Reader) && OnceInv(c') && Reader in c'.threads
    ensures StageInv(ListenStep(c, l, ch).value)
  {
    var c' := ListenStep(c, l, ch).value;
    if c.life.once.Running? {
      assert OnceFits(c, c.life.once.t) && OnceFits(c', c.life.once.t) && OnceFits(c, Reader);
    }
  }

  lemma ShutKeepsStage(c: Client, t: Tid, x: ShutPc, k: Kont)
    requires Shape(c) && Ready(c, t) && c.threads[t] == Shut(x, k) && ShutStep(c, t, x, k).Some?
    requires var c' := ShutStep(c, t, x, k).value; Moves(c, c', t) && OnceInv(c') && Reader in c'.threads
    ensures StageInv(ShutStep(c, t, x, k).value)
  {
    var c' := ShutStep(c, t, x, k).value;
    assert OnceFits(c, t) && OnceFits(c', t);
    if t.Callback? {
      assert CallbackFits(c, t.id);
    }
  }

  // ----------------------------------------------------------- publication

  /** Until the client is published only the reader can move. */
  lemma OnlyReaderBeforePublication(c: Client, t: Tid, ch: Choice)
    requires Shape(c) && Unpublished(c.threads[Reader]) && ThreadStep(c, t, ch).Some?
    ensures t == Reader
  {
    assert Typed(t, c.threads[t]);
    assert t.Callback? ==> CallbackFits(c, t.id);
  }

  lemma ListenKeepsPublish(c: Client, l: ListenPc, ch: Choice)
    requires Shape(c) && c.threads[Reader] == Listen(l) && ListenStep(c, l, ch).Some?
    ensures Reader in ListenStep(c, l, ch).value.threads && PublishInv(ListenStep(c, l, ch).value)
  {
  }

  lemma QuietKeepsPublish(c: Client, c': Client, t: Tid)
    requires Shape(c) && Ready(c, t) && Moves(c, c', t) && Reader in c'.threads
    requires !Unpublished(c.threads[Reader]) && !c.threads[t].Listen?
    requires c'.life.fconn == c.life.fconn && c'.life.helper == c.life.helper
    ensures PublishInv(c')
  {
  }

  // ---------------------------------------------------------------- queue

  lemma TakeBalances(u: Queue)
    requires Balanced(u, []) && u.lost == [] && u.q != []
    ensures Balanced(u.(q := u.q[1..]), [u.q[0]])
  {
    assert u.q == [u.q[0]] + u.q[1..];
    assert u.written + ([] + []) + u.q == u.written + ([u.q[0]] + []) + u.q[1..];
  }

  lemma WriteBalances(u: Queue, f: Event)
    requires Balanced(u, [f]) && u.lost == []
    ensures Balanced(u.(written := u.written + [f]), []) && Balanced(u.(lost := u.lost + [f]), [])
  {
    assert u.written + ([f] + []) + u.q == u.written + [f] + ([] + []) + u.q == u.written + ([] + ([] + [f])) + u.q;
  }

  lemma LoopKeepsQueue(c: Client, o: LoopPc, ch: Choice)
    requires QueueInv(c) && Writer in c.threads && c.threads[Writer] == Loop(o) && LoopStep(c, o, ch).Some?
    ensures QueueInv(LoopStep(c, o, ch).value)
  {
    assert c.queue.lost == [];
    match o
    case Select => if !ch.SeeDone? { TakeBalances(c.queue); }
    case Writing(f) => WriteBalances(c.queue, f);
  }

  lemma SendKeepsQueue(c: Client, t: Tid, s: SendPc, k: Kont, ch: Choice)
    requires QueueInv(c) && t in c.threads && t != Writer && c.threads[t] == Send(s, k)
    requires SendStep(c, t, s, k, ch).Some?
    ensures QueueInv(SendStep(c, t, s, k, ch).value)
  {
    var c' := SendStep(c, t, s, k, ch).value;
    assert Held(c') == Held(c);
  }

  lemma QuietKeepsQueue(c: Client, c': Client, t: Tid)
    requires QueueInv(c) && ThreadsInv(c) && Ready(c, t) && Moves(c, c', t) && c'.queue == c.queue
    requires !c.threads[t].Loop?
    ensures QueueInv(c')
  {
  }

  // ------------------------------------------------------------- debounce

  lemma MoveKeepsDebounce(c: Client, c': Client, t: Tid)
    requires DebounceInv(c) && ThreadsInv(c) && Ready(c, t) && Moves(c, c', t)
    ensures DebounceInv(c')
  {
    var step := DebounceStep(t, c.threads[t]);
    if step.Some? {
      D.NextKeepsInv(c.w.state, step.value);
      assert PendingWrites(c'.w.state);
    }
  }
}
