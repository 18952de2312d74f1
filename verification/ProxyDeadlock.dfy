/** Teardown cannot deadlock: who waits for whom over closeOnce, the watcher
    mutexes and the server mutex (k8s/pkg/multicast/tcpserver.go,
    k8s/pkg/multicast/server.go, k8s/cmd/fsnotify-proxy/app/helper.go). */
module ProxyDeadlock {
  import opened Prelude
  import opened ProxyClient
  import opened ProxyClientInv
  import opened ProxyOrder
  import opened ProxySystem

  /** The step before RLock of the watcher mutex, and the one before Lock. */
  predicate WantsRead(pc: Pc) {
    (pc.Visit? && pc.v.CheckWant?) || (pc.Send? && pc.s.TransWant?)
  }

  predicate WantsWrite(pc: Pc) {
    || (pc.Listen? && pc.l.EditWant?) || (pc.Visit? && pc.v.ArmWant?)
    || (pc.Flush? && pc.f.FlushWant?) || (pc.Shut? && pc.x.CloseWant?)
  }

  /** The critical section that a thread wants to enter. */
  function Inside(pc: Pc): Pc
    requires WantsRead(pc) || WantsWrite(pc)
  {
    match pc
    case Visit(CheckWant(p)) => Visit(Checking(p))
    case Visit(ArmWant(e, rest)) => Visit(Arming(e, rest))
    case Send(TransWant(e), k) => Send(Translating(e), k)
    case Flush(FlushWant) => Flush(Flushing)
    case Shut(CloseWant, k) => Shut(Closing, k)
    case _ => Listen(Editing)
  }

  /** A thread that wants the watcher mutex goes on exactly when it can have it,
      into its critical section and holding it; nothing else changes. */
  lemma WaitsForMutex(c: Client, t: Tid, ch: Choice)
    requires t in c.threads && Typed(t, c.threads[t]) && (WantsRead(c.threads[t]) || WantsWrite(c.threads[t]))
    ensures var pc := c.threads[t];
            ThreadStep(c, t, ch) ==
            if (if WantsRead(pc) then CanRead(c.w.mu) else CanWrite(c.w.mu))
            then Some(c.(w := if WantsRead(pc) then RLock(c.w, t) else WLock(c.w, t),
                         threads := c.threads[t := Inside(pc)]))
            else None
  {
  }

  predicate WantsOnce(pc: Pc) {
    pc.Shut? && pc.x.Enter?
  }

  /** Thread `t` of client `c` waits for thread `u` of the same client: for the
      watcher mutex, for a writer queued before it as Go's RWMutex lets it, or
      for the end of closeOnce.Do. */
  predicate WaitsInside(cl: Client, t: Tid, u: Tid)
    requires t in cl.threads && u in cl.threads
  {
    var pc := cl.threads[t];
    || (WantsRead(pc) && (cl.w.mu.writer == Some(u) || WantsWrite(cl.threads[u])))
    || (WantsWrite(pc) && (cl.w.mu.writer == Some(u) || u in cl.w.mu.readers))
    || (WantsOnce(pc) && cl.life.once == Running(u))
  }

  predicate Alive(s: Sys, a: Agent) {
    a.Of? ==> a.c in s.clients && a.t in s.clients[a.c].threads
  }

  function PcOf(s: Sys, a: Agent): Pc
    requires Alive(s, a) && a.Of?
  {
    s.clients[a.c].threads[a.t]
  }

  /** Agent `a` cannot go on until agent `b` has. */
  predicate WaitsFor(s: Sys, a: Agent, b: Agent)
    requires Alive(s, a) && Alive(s, b)
  {
    || (a.Of? && b.Of? && a.c == b.c && WaitsInside(s.clients[a.c], a.t, b.t))
    || (a.Of? && WantsServer(PcOf(s, a)) && (s.smu.writer == Some(b) || b in s.smu.readers))
    || (a == FanOut && s.fan.DeliverWant? && (s.smu.writer == Some(b) || (b.Of? && WantsServer(PcOf(s, b)))))
  }

  /** 0: waits for nothing; 1: wants to write under a mutex; 2: wants to read
      under one, or waits for a teardown to end. */
  function RankOf(pc: Pc): nat {
    if WantsRead(pc) || WantsOnce(pc) then 2 else if WantsWrite(pc) || WantsServer(pc) then 1 else 0
  }

  function Rank(s: Sys, a: Agent): nat
    requires Alive(s, a)
  {
    match a
    case FanOut => if s.fan.DeliverWant? then 2 else 0
    case Of(_, _) => RankOf(PcOf(s, a))
  }

  /** The wait-for relation over {once, watcher mutexes, server mutex} is acyclic
      in every reachable state: waiting leads to a strictly lower rank. */
  lemma WaitsAreAcyclic(steps: seq<Step>, a: Agent, b: Agent)
    requires Exec(steps).Some? && Alive(Exec(steps).value, a) && Alive(Exec(steps).value, b)
    requires WaitsFor(Exec(steps).value, a, b)
    ensures Rank(Exec(steps).value, a) > Rank(Exec(steps).value, b)
  {
    RunKeepsInv(steps);
    var s := Exec(steps).value;
    if a.Of? && b.Of? && a.c == b.c && WaitsInside(s.clients[a.c], a.t, b.t) {
      assert ClientInv(s.clients[a.c]);
      WaitsInsideGoDown(s.clients[a.c], a.t, b.t);
    } else {
      ServerWaitsGoDown(s, a, b);
    }
  }

  lemma ServerWaitsGoDown(s: Sys, a: Agent, b: Agent)
    requires ServerInv(s) && Alive(s, a) && Alive(s, b) && WaitsFor(s, a, b)
    requires !(a.Of? && b.Of? && a.c == b.c && WaitsInside(s.clients[a.c], a.t, b.t))
    ensures Rank(s, a) > Rank(s, b)
  {
    assert b.Of? ==> ServerFits(s, b.c, b.t);
  }

  lemma WaitsInsideGoDown(cl: Client, t: Tid, u: Tid)
    requires LockInv(cl) && OnceInv(cl) && t in cl.threads && u in cl.threads && WaitsInside(cl, t, u)
    ensures RankOf(cl.threads[t]) > RankOf(cl.threads[u])
  {
    assert LockFits(cl.w.mu, u, cl.threads[u]) && OnceFits(cl, u);
  }

  /** Nobody holds a mutex on entering shutdown, or while waiting in it. */
  lemma EntersShutdownUnlocked(steps: seq<Step>, c: Cid, t: Tid)
    requires Exec(steps).Some? && c in Exec(steps).value.clients && t in Exec(steps).value.clients[c].threads
    requires var pc := Exec(steps).value.clients[c].threads[t];
             pc.Shut? && !pc.x.Closing? && !pc.x.Dropping?
    ensures var s := Exec(steps).value;
            && t !in s.clients[c].w.mu.readers && s.clients[c].w.mu.writer != Some(t)
            && Of(c, t) !in s.smu.readers && s.smu.writer != Some(Of(c, t))
  {
    RunKeepsInv(steps);
    var s := Exec(steps).value;
    UnlockedInside(s.clients[c], t);
    UnlockedOutside(s, c, t);
  }

  lemma UnlockedOutside(s: Sys, c: Cid, t: Tid)
    requires ServerInv(s) && Alive(s, Of(c, t)) && !HoldsServer(PcOf(s, Of(c, t)))
    ensures Of(c, t) !in s.smu.readers && s.smu.writer != Some(Of(c, t))
  {
    assert ServerFits(s, c, t);
  }

  lemma UnlockedInside(cl: Client, t: Tid)
    requires ClientInv(cl) && t in cl.threads && cl.threads[t].Shut? && !cl.threads[t].x.Closing?
    ensures t !in cl.w.mu.readers && cl.w.mu.writer != Some(t)
  {
    assert LockFits(cl.w.mu, t, cl.threads[t]);
  }

  // ------------------------------------------------------------- progress

  ghost predicate CanStep(s: Sys, a: Agent) {
    match a
    case FanOut => exists order :: SysNext(s, Step.Collect(order)).Some?
    case Of(c, t) => exists ch :: SysNext(s, Local(c, Run(t, ch))).Some?
  }

  /** A choice that suits the state the thread is in. */
  function SomeChoice(cl: Client, pc: Pc): Choice {
    if pc.Listen? && pc.l.Editing? then SetMap(map[], false)
    else if pc.Loop? && pc.o.Writing? then Fail
    else if cl.life.done then SeeDone
    else Go
  }

  /** Nothing to do, for now or for good. */
  predicate Idle(cl: Client, pc: Pc) {
    || pc.Ended? || pc == Visit(Away) || (pc.Visit? && pc.v.Queued?)
    || (pc == Loop(Select) && cl.queue.q == [] && !cl.life.done)
  }

  /** Neither a mutex of the watcher nor the once stands in the way. */
  predicate Unobstructed(cl: Client, pc: Pc) {
    && (WantsRead(pc) ==> CanRead(cl.w.mu))
    && (WantsWrite(pc) ==> CanWrite(cl.w.mu))
    && (WantsOnce(pc) ==> !cl.life.once.Running?)
  }

  lemma ObstructedWaits(cl: Client, t: Tid) returns (u: Tid)
    requires LockInv(cl) && OnceInv(cl) && t in cl.threads && !Unobstructed(cl, cl.threads[t])
    ensures u in cl.threads && WaitsInside(cl, t, u)
  {
    if WantsOnce(cl.threads[t]) {
      u := cl.life.once.t;
    } else if cl.w.mu.writer.Some? {
      u := cl.w.mu.writer.value;
    } else {
      u :| u in cl.w.mu.readers;
    }
  }

  lemma ThreadCanStep(cl: Client, t: Tid)
    requires ClientInv(cl) && t in cl.threads && !Idle(cl, cl.threads[t]) && Unobstructed(cl, cl.threads[t])
    ensures ThreadStep(cl, t, SomeChoice(cl, cl.threads[t])).Some?
  {
    InvReady(cl, t);
    ReadyCanStep(cl, t);
  }

  lemma ReadyCanStep(cl: Client, t: Tid)
    requires Ready(cl, t) && !Idle(cl, cl.threads[t]) && Unobstructed(cl, cl.threads[t])
    ensures ThreadStep(cl, t, SomeChoice(cl, cl.threads[t])).Some?
  {
  }

  lemma FanOutCanCollectOne(s: Sys, c: Cid)
    requires ClientsInv(s) && FanInv(s) && s.fan.Collecting? && c in Published(s)
    ensures ProxyClient.Next(s.clients[c], ProxyClient.Collect(s.fan.p)).Some?
  {
    assert FanFits(s, c);
    PublishedIsReady(s.clients[c], s.fan.p);
  }

  lemma PublishedIsReady(cl: Client, p: Payload)
    requires Shape(cl) && cl.life.published && FanIs(cl, Away)
    ensures ProxyClient.Next(cl, ProxyClient.Collect(p)).Some?
  {
    assert cl.life.once.Running? ==> OnceFits(cl, cl.life.once.t);
  }

  lemma FanOutCanCollect(s: Sys)
    requires ClientsInv(s) && FanInv(s) && s.fan.Collecting?
    ensures CanStep(s, FanOut)
  {
    var order := Enumeration(Published(s));
    forall c | c in order
      ensures c in s.clients && ProxyClient.Next(s.clients[c], ProxyClient.Collect(s.fan.p)).Some?
    {
      assert c in Elems(order);
      FanOutCanCollectOne(s, c);
    }
    CollectEnabled(s, order);
  }

  lemma CollectEnabled(s: Sys, order: seq<Cid>)
    requires CanCollect(s, order)
    ensures CanStep(s, FanOut)
  {
    assert SysNext(s, Step.Collect(order)).Some?;
  }

  /** What the fan-out thread does next, wherever it is: it takes a payload, waits
      for the server mutex only while that is held for writing, collects, starts
      the next visit, leaves a visit that is over, and returns. */
  ghost predicate FanOutMoves(s: Sys) {
    match s.fan
    case Idle => forall p :: SysNext(s, Step.Deliver(p)) == Some(s.(fan := DeliverWant(p)))
    case DeliverWant(_) => SysNext(s, RLockServer).Some? <==> s.smu.writer.None?
    case Collecting(_) => CanStep(s, FanOut)
    case Visiting(todo) => if todo == [] then SysNext(s, EndDeliver).Some? else VisitMovesOn(s, todo[0])
  }

  predicate VisitMovesOn(s: Sys, c: Cid) {
    && c in s.clients && Fan in s.clients[c].threads
    && (FanQueued(s.clients[c]) ==> SysNext(s, StartVisit).Some?)
    && (FanIs(s.clients[c], Away) ==> SysNext(s, EndVisit).Some?)
    && (!FanQueued(s.clients[c]) && !FanIs(s.clients[c], Away) ==>
          !Idle(s.clients[c], s.clients[c].threads[Fan]))
  }

  lemma VisitGoesOn(s: Sys, c: Cid)
    requires c in s.clients && Fan in s.clients[c].threads && Typed(Fan, s.clients[c].threads[Fan])
    requires s.fan.Visiting? && s.fan.todo != [] && s.fan.todo[0] == c
    ensures VisitMovesOn(s, c)
  {
  }

  lemma HeadIsTyped(s: Sys)
    requires ClientsInv(s) && FanInv(s) && s.fan.Visiting? && s.fan.todo != []
    ensures var c := s.fan.todo[0];
            c in s.clients && Fan in s.clients[c].threads && Typed(Fan, s.clients[c].threads[Fan])
  {
    var c := s.fan.todo[0];
    assert c in Elems(s.fan.todo);
    assert ClientInv(s.clients[c]);
  }

  /** So in every reachable state the fan-out can go on, or waits for a thread that
      holds the server mutex, or one of its visits is under way, for which
      BlockedMeansWaiting speaks. */
  lemma FanOutGoesOn(steps: seq<Step>)
    requires Exec(steps).Some?
    ensures FanOutMoves(Exec(steps).value)
  {
    RunKeepsInv(steps);
    var s := Exec(steps).value;
    if s.fan.Collecting? {
      FanOutCanCollect(s);
    } else if s.fan.Visiting? && s.fan.todo != [] {
      HeadIsTyped(s);
      VisitGoesOn(s, s.fan.todo[0]);
    } else {
      AtRest(s);
    }
  }

  lemma AtRest(s: Sys)
    requires s.fan.Idle? || s.fan.DeliverWant? || s.fan == Visiting([])
    ensures FanOutMoves(s)
  {
  }

  /** The fan-out is at work on one client only. */
  lemma BusyFanIsHere(s: Sys, c: Cid)
    requires FanInv(s) && c in s.clients && Fan in s.clients[c].threads
    requires !Idle(s.clients[c], s.clients[c].threads[Fan])
    ensures s.fan.Visiting? && s.fan.todo != [] && s.fan.todo[0] == c
  {
    assert FanFits(s, c);
  }

  /** In every reachable state a thread of a client is idle, or waits for some
      agent, or can take its next step. */
  lemma BlockedMeansWaiting(steps: seq<Step>, c: Cid, t: Tid)
    requires Exec(steps).Some? && Alive(Exec(steps).value, Of(c, t))
    requires !Idle(Exec(steps).value.clients[c], PcOf(Exec(steps).value, Of(c, t)))
    ensures var s := Exec(steps).value;
            CanStep(s, Of(c, t)) || exists b | Alive(s, b) :: WaitsFor(s, Of(c, t), b)
  {
    RunKeepsInv(steps);
    var s := Exec(steps).value;
    NotWaitingCanStep(s, c, t);
  }

  lemma NotWaitingCanStep(s: Sys, c: Cid, t: Tid)
    requires SysInv(s) && Alive(s, Of(c, t)) && !Idle(s.clients[c], PcOf(s, Of(c, t)))
    ensures CanStep(s, Of(c, t)) || exists b | Alive(s, b) :: WaitsFor(s, Of(c, t), b)
  {
    var cl, a := s.clients[c], Of(c, t);
    if !Unobstructed(cl, cl.threads[t]) {
      assert ClientInv(cl);
      var u := ObstructedWaits(cl, t);
      assert Alive(s, Of(c, u)) && WaitsFor(s, a, Of(c, u));
    } else if WantsServer(cl.threads[t]) && s.smu.writer.Some? {
      assert Alive(s, s.smu.writer.value) && WaitsFor(s, a, s.smu.writer.value);
    } else if WantsServer(cl.threads[t]) && s.smu.readers != {} {
      assert Alive(s, FanOut) && WaitsFor(s, a, FanOut);
    } else {
      UnobstructedCanStep(s, c, t);
    }
  }

  lemma UnobstructedCanStep(s: Sys, c: Cid, t: Tid)
    requires ClientsInv(s) && FanInv(s) && Alive(s, Of(c, t)) && !Idle(s.clients[c], PcOf(s, Of(c, t)))
    requires Unobstructed(s.clients[c], PcOf(s, Of(c, t)))
    requires WantsServer(PcOf(s, Of(c, t))) ==> s.smu == ServerLock({}, None)
    ensures CanStep(s, Of(c, t))
  {
    ThreadCanStep(s.clients[c], t);
    if t == Fan {
      BusyFanIsHere(s, c);
    }
    LocalEnabled(s, c, t, SomeChoice(s.clients[c], PcOf(s, Of(c, t))));
  }

  lemma LocalEnabled(s: Sys, c: Cid, t: Tid, ch: Choice)
    requires Alive(s, Of(c, t)) && ThreadStep(s.clients[c], t, ch).Some?
    requires WantsServer(PcOf(s, Of(c, t))) ==> s.smu == ServerLock({}, None)
    requires t == Fan ==> s.fan.Visiting? && s.fan.todo != [] && s.fan.todo[0] == c
    ensures CanStep(s, Of(c, t))
  {
    NextIsThreadStep(s.clients[c], t, ch);
    LocalRuns(s, c, t, ch);
    assert SysNext(s, Local(c, Run(t, ch))).Some?;
  }

  lemma NextIsThreadStep(cl: Client, t: Tid, ch: Choice)
    ensures ProxyClient.Next(cl, Run(t, ch)) == ThreadStep(cl, t, ch)
  {
  }

  lemma LocalRuns(s: Sys, c: Cid, t: Tid, ch: Choice)
    requires Alive(s, Of(c, t)) && ProxyClient.Next(s.clients[c], Run(t, ch)).Some?
    requires ServerAfter(s.smu, c, t, PcOf(s, Of(c, t))).Some?
    requires t == Fan ==> s.fan.Visiting? && s.fan.todo != [] && s.fan.todo[0] == c
    ensures LocalStep(s, c, Run(t, ch)).Some?
  {
  }

  /** An agent that others wait for and that itself waits for nothing can take
      its next step. With WaitsAreAcyclic: every chain of waits is at most two
      long and ends in an agent that can step. */
  lemma AwaitedCanStep(steps: seq<Step>, a: Agent, b: Agent)
    requires Exec(steps).Some? && Alive(Exec(steps).value, a) && Alive(Exec(steps).value, b)
    requires WaitsFor(Exec(steps).value, a, b) && Rank(Exec(steps).value, b) == 0
    ensures CanStep(Exec(steps).value, b)
  {
    RunKeepsInv(steps);
    var s := Exec(steps).value;
    AwaitedIsBusy(s, a, b);
    match b
    case FanOut =>
      FanOutCanCollect(s);
    case Of(c, t) =>
      NotWaitingCanStep(s, c, t);
      if x :| Alive(s, x) && WaitsFor(s, b, x) {
        WaitsAreAcyclic(steps, b, x);
      }
  }

  /** Whoever holds what another wants is in the middle of something. */
  lemma AwaitedIsBusy(s: Sys, a: Agent, b: Agent)
    requires ClientsInv(s) && ServerInv(s) && Alive(s, a) && Alive(s, b) && WaitsFor(s, a, b) && Rank(s, b) == 0
    ensures b.Of? ==> !Idle(s.clients[b.c], PcOf(s, b))
    ensures b == FanOut ==> s.fan.Collecting?
  {
    if a.Of? && b.Of? && a.c == b.c && WaitsInside(s.clients[a.c], a.t, b.t) {
      AwaitedInsideIsBusy(s.clients[a.c], a.t, b.t);
    } else {
      AwaitedForServerIsBusy(s, a, b);
    }
  }

  lemma AwaitedForServerIsBusy(s: Sys, a: Agent, b: Agent)
    requires ServerInv(s) && Alive(s, a) && Alive(s, b) && WaitsFor(s, a, b)
    requires !(a.Of? && b.Of? && a.c == b.c && WaitsInside(s.clients[a.c], a.t, b.t))
    ensures b.Of? ==> !Idle(s.clients[b.c], PcOf(s, b))
    ensures b == FanOut ==> s.fan.Collecting?
  {
    if b.Of? {
      AwaitedServerIsBusy(s, b.c, b.t);
    }
  }

  lemma AwaitedInsideIsBusy(cl: Client, t: Tid, u: Tid)
    requires ClientInv(cl) && t in cl.threads && u in cl.threads && WaitsInside(cl, t, u)
    ensures !Idle(cl, cl.threads[u])
  {
    assert LockFits(cl.w.mu, u, cl.threads[u]) && OnceFits(cl, u);
  }

  lemma AwaitedServerIsBusy(s: Sys, c: Cid, t: Tid)
    requires ServerInv(s) && Alive(s, Of(c, t))
    requires s.smu.writer == Some(Of(c, t)) || WantsServer(s.clients[c].threads[t])
    ensures !Idle(s.clients[c], s.clients[c].threads[t])
  {
    assert ServerFits(s, c, t);
  }
}
