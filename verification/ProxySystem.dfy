/** All clients together: the fan-out thread, the map of published clients and
    the server mutex of k8s/pkg/multicast/server.go. */
module ProxySystem {
  import opened Prelude
  import D = Debounce
  import opened ProxyClient
  import opened ProxyOrder

  type Cid = nat

  /** Who can hold or want the server mutex. The fan-out thread is FanOut in
      Deliver itself and Of(c, Fan) while it runs WriteMsg of client c. */
  datatype Agent = FanOut | Of(c: Cid, t: Tid)

  datatype ServerLock = ServerLock(readers: set<Agent>, writer: Option<Agent>)

  /** Deliver: waiting for s.mu, holding it, then the closures one by one. */
  datatype FanPc = Idle | DeliverWant(p: Payload) | Collecting(p: Payload) | Visiting(todo: seq<Cid>)

  datatype Sys = Sys(clients: map<Cid, Client>, fan: FanPc, smu: ServerLock)

  const INIT := Sys(map[], Idle, ServerLock({}, None))

  datatype Step =
    | Accept(c: Cid)                  // a connection arrives, under a new id
    | Local(c: Cid, l: Label)         // a thread, the clock or a timer of one client
    | Deliver(p: Payload)             // the subscription calls Deliver
    | RLockServer
    | Collect(order: seq<Cid>)        // build the closures, in map order, and unlock
    | StartVisit | EndVisit | EndDeliver

  /** The server mutex after thread `t` of client `c` steps from `pc`; None if
      the step needs the mutex and it is taken. */
  function ServerAfter(smu: ServerLock, c: Cid, t: Tid, pc: Pc): Option<ServerLock> {
    if WantsServer(pc) then
      if smu.writer.None? && smu.readers == {} then Some(ServerLock({}, Some(Of(c, t)))) else None
    else if HoldsServer(pc) then Some(smu.(writer := None))
    else Some(smu)
  }

  function Published(s: Sys): set<Cid> {
    set c | c in s.clients && s.clients[c].life.published
  }

  predicate Distinct(order: seq<Cid>) {
    forall i, j | 0 <= i < j < |order| :: order[i] != order[j]
  }

  function LocalStep(s: Sys, c: Cid, l: Label): Option<Sys> {
    if c !in s.clients || !(l.Run? || l.Tick? || l.Fire?) then None
    else if l.Run? && l.t == Fan && !(s.fan.Visiting? && s.fan.todo != [] && s.fan.todo[0] == c) then None
    else
      var next := ProxyClient.Next(s.clients[c], l);
      if next.None? then None
      else if !l.Run? then Some(s.(clients := s.clients[c := next.value]))
      else
        var smu := ServerAfter(s.smu, c, l.t, s.clients[c].threads[l.t]);
        if smu.None? then None else Some(Sys(s.clients[c := next.value], s.fan, smu.value))
  }

  /** Collecting asks every published client for its next visit. */
  predicate CanCollect(s: Sys, order: seq<Cid>) {
    && s.fan.Collecting? && Distinct(order) && Elems(order) == Published(s)
    && forall c | c in order ::
         c in s.clients && ProxyClient.Next(s.clients[c], ProxyClient.Collect(s.fan.p)).Some?
  }

  function Collected(s: Sys, order: seq<Cid>): map<Cid, Client>
    requires CanCollect(s, order)
  {
    map c | c in s.clients ::
      if c in order then ProxyClient.Next(s.clients[c], ProxyClient.Collect(s.fan.p)).value else s.clients[c]
  }

  function SysNext(s: Sys, step: Step): Option<Sys> {
    match step
    case Accept(c) => if c in s.clients then None else Some(s.(clients := s.clients[c := NEW_CLIENT]))
    case Local(c, l) => LocalStep(s, c, l)
    case Deliver(p) => if s.fan.Idle? then Some(s.(fan := DeliverWant(p))) else None
    case RLockServer =>
      if s.fan.DeliverWant? && s.smu.writer.None? then
        Some(s.(fan := Collecting(s.fan.p), smu := s.smu.(readers := s.smu.readers + {FanOut})))
      else None
    case Collect(order) =>
      if CanCollect(s, order) then
        Some(Sys(Collected(s, order), Visiting(order), s.smu.(readers := s.smu.readers - {FanOut})))
      else None
    case StartVisit =>
      if s.fan.Visiting? && s.fan.todo != [] && s.fan.todo[0] in s.clients then
        var c := s.fan.todo[0];
        var next := ProxyClient.Next(s.clients[c], ProxyClient.Start);
        if next.Some? then Some(s.(clients := s.clients[c := next.value])) else None
      else None
    case EndVisit =>
      if s.fan.Visiting? && s.fan.todo != [] && s.fan.todo[0] in s.clients && FanIs(s.clients[s.fan.todo[0]], Away)
      then Some(s.(fan := Visiting(s.fan.todo[1..])))
      else None
    case EndDeliver => if s.fan == Visiting([]) then Some(s.(fan := Idle)) else None
  }

  function Exec(steps: seq<Step>): Option<Sys> {
    if steps == [] then Some(INIT)
    else
      match Exec(steps[..|steps| - 1])
      case None => None
      case Some(s) => SysNext(s, steps[|steps| - 1])
  }

  // ------------------------------------------------------------ invariant

  ghost predicate ClientsInv(s: Sys) {
    forall c | c in s.clients :: ClientInv(s.clients[c])
  }

  /** Where the fan-out is, seen from every client. */
  predicate FanFits(s: Sys, c: Cid)
    requires c in s.clients
  {
    match s.fan
    case Visiting(todo) =>
      && (c !in todo ==> FanIs(s.clients[c], Away))
      && (c in todo && c != todo[0] ==> FanQueued(s.clients[c]))
    case _ => FanIs(s.clients[c], Away)
  }

  predicate FanInv(s: Sys) {
    && (forall c | c in s.clients :: FanFits(s, c))
    && (s.fan.Visiting? ==> Distinct(s.fan.todo) && Elems(s.fan.todo) <= s.clients.Keys)
  }

  predicate ServerFits(s: Sys, c: Cid, t: Tid)
    requires c in s.clients && t in s.clients[c].threads
  {
    s.smu.writer == Some(Of(c, t)) <==> HoldsServer(s.clients[c].threads[t])
  }

  /** The server mutex is held by exactly the agents inside its critical sections. */
  predicate ServerInv(s: Sys) {
    && (forall c, t | c in s.clients && t in s.clients[c].threads :: ServerFits(s, c, t))
    && s.smu.readers == (if s.fan.Collecting? then {FanOut} else {})
    && (s.smu.writer.Some? ==>
          && s.smu.readers == {} && s.smu.writer.value.Of?
          && s.smu.writer.value.c in s.clients && s.smu.writer.value.t in s.clients[s.smu.writer.value.c].threads)
  }

  ghost predicate SysInv(s: Sys) {
    ClientsInv(s) && FanInv(s) && ServerInv(s)
  }

  /** Seen from one client, a step of the system is a step of that client alone
      or none at all. */
  lemma ClientMoves(s: Sys, step: Step, c: Cid) returns (l: Option<Label>)
    requires c in s.clients && SysNext(s, step).Some?
    ensures c in SysNext(s, step).value.clients
    ensures l.None? ==> SysNext(s, step).value.clients[c] == s.clients[c]
    ensures l.Some? ==> ProxyClient.Next(s.clients[c], l.value) == Some(SysNext(s, step).value.clients[c])
  {
    l := None;
    match step
    case Local(c2, l2) => if c2 == c { l := Some(l2); }
    case Collect(order) => if c in order { l := Some(ProxyClient.Collect(s.fan.p)); }
    case StartVisit => if s.fan.todo[0] == c { l := Some(ProxyClient.Start); }
    case _ =>
  }

  lemma StepKeepsClient(s: Sys, step: Step, c: Cid)
    requires c in s.clients && ClientInv(s.clients[c]) && SysNext(s, step).Some?
    ensures c in SysNext(s, step).value.clients
    ensures ClientInv(SysNext(s, step).value.clients[c])
  {
    var l := ClientMoves(s, step, c);
    if l.Some? {
      StepKeepsInv(s.clients[c], l.value);
    }
  }

  lemma OnlyAcceptAdds(s: Sys, step: Step, c: Cid)
    requires SysNext(s, step).Some? && c in SysNext(s, step).value.clients && c !in s.clients
    ensures step == Accept(c) && SysNext(s, step).value.clients[c] == NEW_CLIENT
  {
  }

  lemma StepKeepsClients(s: Sys, step: Step)
    requires ClientsInv(s) && SysNext(s, step).Some?
    ensures ClientsInv(SysNext(s, step).value)
  {
    var s' := SysNext(s, step).value;
    forall c | c in s'.clients ensures ClientInv(s'.clients[c]) {
      if c in s.clients {
        StepKeepsClient(s, step, c);
      } else {
        OnlyAcceptAdds(s, step, c);
        NewClientInv();
      }
    }
  }

  /** Where the threads of a client are after its own step by label `l`. */
  predicate ThreadsAfter(c: Client, c': Client, l: Label) {
    && Fan in c.threads && Fan in c'.threads
    && (l == Run(Fan, if l.Run? then l.ch else Go) || c'.threads[Fan] == c.threads[Fan])
    && (l.Run? ==> l.t in c.threads && l.t in c'.threads
                   && (HoldsServer(c'.threads[l.t]) <==> WantsServer(c.threads[l.t])))
    && c.threads.Keys <= c'.threads.Keys
    && (forall t | t in c'.threads && !(l.Run? && t == l.t) ::
          if t in c.threads then HoldsServer(c'.threads[t]) == HoldsServer(c.threads[t])
          else !HoldsServer(c'.threads[t]))
  }

  lemma RunThreads(c: Client, t: Tid, ch: Choice)
    requires ClientInv(c) && ThreadStep(c, t, ch).Some?
    ensures ThreadsAfter(c, ThreadStep(c, t, ch).value, Run(t, ch))
  {
    MoveKeepsCommon(c, t, ch);
  }

  lemma LocalThreads(c: Client, l: Label)
    requires ClientInv(c) && (l.Run? || l.Tick? || l.Fire?) && ProxyClient.Next(c, l).Some?
    ensures ThreadsAfter(c, ProxyClient.Next(c, l).value, l)
  {
    match l
    case Run(t, ch) => RunThreads(c, t, ch);
    case Fire(id) => ClockKeepsCallbacks(c, ProxyClient.Next(c, l).value, D.DoFire(id));
    case Tick(_) =>
  }

  /** What a local step does to the system. */
  predicate LocalEffect(s: Sys, s': Sys, c: Cid, l: Label) {
    && c in s.clients && c in s'.clients && s'.fan == s.fan && s'.clients == s.clients[c := s'.clients[c]]
    && ThreadsAfter(s.clients[c], s'.clients[c], l)
    && (l.Run? && l.t == Fan ==> s.fan.Visiting? && s.fan.todo != [] && s.fan.todo[0] == c)
    && (if l.Run? then ServerAfter(s.smu, c, l.t, s.clients[c].threads[l.t]) == Some(s'.smu) else s'.smu == s.smu)
  }

  lemma LocalHasEffect(s: Sys, c: Cid, l: Label)
    requires ClientsInv(s) && LocalStep(s, c, l).Some?
    ensures LocalEffect(s, LocalStep(s, c, l).value, c, l)
  {
    LocalThreads(s.clients[c], l);
  }

  lemma LocalKeepsFan(s: Sys, s': Sys, c: Cid, l: Label)
    requires FanInv(s) && LocalEffect(s, s', c, l)
    ensures FanInv(s')
  {
    forall x | x in s'.clients ensures FanFits(s', x) {
      assert FanFits(s, x);
    }
  }

  lemma LocalKeepsServer(s: Sys, s': Sys, c: Cid, l: Label)
    requires ServerInv(s) && LocalEffect(s, s', c, l)
    ensures ServerInv(s')
  {
    assert l.Run? ==> ServerFits(s, c, l.t);
    forall x, t | x in s'.clients && t in s'.clients[x].threads ensures ServerFits(s', x, t) {
      assert t in s.clients[x].threads ==> ServerFits(s, x, t);
    }
  }

  lemma CollectKeepsFan(s: Sys, order: seq<Cid>)
    requires FanInv(s) && CanCollect(s, order)
    ensures FanInv(SysNext(s, Step.Collect(order)).value)
  {
    var s' := SysNext(s, Step.Collect(order)).value;
    forall x | x in s'.clients ensures FanFits(s', x) {
      assert FanFits(s, x);
    }
    assert forall c | c in Elems(order) :: c in order;
  }

  lemma VisitKeepsFan(s: Sys, step: Step)
    requires FanInv(s) && SysNext(s, step).Some? && (step.StartVisit? || step.EndVisit?)
    ensures FanInv(SysNext(s, step).value)
  {
    var s' := SysNext(s, step).value;
    assert forall c | c in s.fan.todo :: c in Elems(s.fan.todo);
    assert forall c | c in s.fan.todo[1..] :: c in s.fan.todo;
    forall x | x in s'.clients ensures FanFits(s', x) {
      assert FanFits(s, x);
    }
  }

  lemma StepKeepsFan(s: Sys, step: Step)
    requires ClientsInv(s) && FanInv(s) && SysNext(s, step).Some?
    ensures FanInv(SysNext(s, step).value)
  {
    match step
    case Local(c, l) =>
      LocalHasEffect(s, c, l);
      LocalKeepsFan(s, SysNext(s, step).value, c, l);
    case Collect(order) => CollectKeepsFan(s, order);
    case StartVisit => VisitKeepsFan(s, step);
    case EndVisit => VisitKeepsFan(s, step);
    case _ => QuietKeepsFan(s, step);
  }

  lemma QuietKeepsFan(s: Sys, step: Step)
    requires FanInv(s) && SysNext(s, step).Some?
    requires step.Accept? || step.Deliver? || step.RLockServer? || step.EndDeliver?
    ensures FanInv(SysNext(s, step).value)
  {
    var s' := SysNext(s, step).value;
    forall x | x in s'.clients ensures FanFits(s', x) {
      assert x in s.clients ==> FanFits(s, x);
    }
  }

  lemma StepKeepsServer(s: Sys, step: Step)
    requires ClientsInv(s) && FanInv(s) && ServerInv(s) && SysNext(s, step).Some?
    ensures ServerInv(SysNext(s, step).value)
  {
    if step.Local? {
      LocalHasEffect(s, step.c, step.l);
      LocalKeepsServer(s, SysNext(s, step).value, step.c, step.l);
    } else {
      QuietKeepsServer(s, step);
    }
  }

  /** The fan-out's own steps leave the threads of all clients outside the server mutex. */
  lemma QuietKeepsServer(s: Sys, step: Step)
    requires FanInv(s) && ServerInv(s) && SysNext(s, step).Some? && !step.Local?
    ensures ServerInv(SysNext(s, step).value)
  {
    var s' := SysNext(s, step).value;
    forall x, t | x in s'.clients && t in s'.clients[x].threads ensures ServerFits(s', x, t) {
      if x in s.clients {
        assert FanFits(s, x);
        assert t in s.clients[x].threads ==> ServerFits(s, x, t);
      }
    }
  }

  lemma {:induction false} RunKeepsInv(steps: seq<Step>)
    requires Exec(steps).Some?
    ensures SysInv(Exec(steps).value)
  {
    if steps != [] {
      var front, step := steps[..|steps| - 1], steps[|steps| - 1];
      RunKeepsInv(front);
      var s := Exec(front).value;
      StepKeepsClients(s, step);
      StepKeepsFan(s, step);
      StepKeepsServer(s, step);
    }
  }
}
