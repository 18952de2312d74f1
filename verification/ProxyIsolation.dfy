/** Clients do not influence each other (Deliver in k8s/pkg/multicast/server.go):
    any run over n clients, projected to one, is a run of that client alone. */
module ProxyIsolation {
  import opened Prelude
  import opened ProxyClient
  import opened ProxySystem

  /** What is left of a system when all clients but `c` are taken away. */
  function Restrict(s: Sys, c: Cid): Sys {
    Sys(if c in s.clients then map[c := s.clients[c]] else map[], RestrictFan(s.fan, c), RestrictLock(s.smu, c))
  }

  function Only(todo: seq<Cid>, c: Cid): seq<Cid> {
    if c in todo then [c] else []
  }

  function RestrictFan(fan: FanPc, c: Cid): FanPc {
    match fan
    case Visiting(todo) => Visiting(Only(todo, c))
    case _ => fan
  }

  function RestrictLock(smu: ServerLock, c: Cid): ServerLock {
    match smu.writer
    case Some(Of(c2, _)) => if c2 == c then smu else smu.(writer := None)
    case _ => smu
  }

  /** What client `c` sees of a step: nothing, or a step of its own. */
  function Project(s: Sys, step: Step, c: Cid): Option<Step> {
    match step
    case Accept(c2) => if c2 == c then Some(step) else None
    case Local(c2, _) => if c2 == c then Some(step) else None
    case Collect(order) => Some(Step.Collect(Only(order, c)))
    case StartVisit => if s.fan.Visiting? && s.fan.todo != [] && s.fan.todo[0] == c then Some(step) else None
    case EndVisit => if s.fan.Visiting? && s.fan.todo != [] && s.fan.todo[0] == c then Some(step) else None
    case _ => Some(step)
  }

  predicate Projects(s: Sys, step: Step, c: Cid)
    requires SysNext(s, step).Some?
  {
    match Project(s, step, c)
    case None => Restrict(SysNext(s, step).value, c) == Restrict(s, c)
    case Some(own) => SysNext(Restrict(s, c), own) == Some(Restrict(SysNext(s, step).value, c))
  }

  lemma StepProjects(s: Sys, step: Step, c: Cid)
    requires FanInv(s) && ServerInv(s) && SysNext(s, step).Some?
    ensures Projects(s, step, c)
  {
    match step
    case Local(c2, l) => LocalProjects(s, c2, l, c);
    case Collect(order) => CollectProjects(s, order, c);
    case StartVisit => VisitProjects(s, step, c);
    case EndVisit => VisitProjects(s, step, c);
    case Accept(c2) => AcceptProjects(s, c2, c);
    case _ =>
  }

  lemma AcceptProjects(s: Sys, c2: Cid, c: Cid)
    requires SysNext(s, Accept(c2)).Some?
    ensures Projects(s, Accept(c2), c)
  {
    var s' := SysNext(s, Accept(c2)).value;
    assert c2 == c ==> Restrict(s', c).clients == map[][c := NEW_CLIENT];
  }

  lemma LocalProjects(s: Sys, c2: Cid, l: Label, c: Cid)
    requires FanInv(s) && ServerInv(s) && SysNext(s, Local(c2, l)).Some?
    ensures Projects(s, Local(c2, l), c)
  {
    if c2 == c {
      OwnStep(s, c, l);
    } else {
      OthersStep(s, c2, l, c);
    }
  }

  lemma OwnStep(s: Sys, c: Cid, l: Label)
    requires FanInv(s) && ServerInv(s) && LocalStep(s, c, l).Some?
    ensures LocalStep(Restrict(s, c), c, l) == Some(Restrict(LocalStep(s, c, l).value, c))
  {
    var s' := LocalStep(s, c, l).value;
    assert l.Run? && l.t in s.clients[c].threads ==> ServerFits(s, c, l.t);
    assert Restrict(s', c).clients == Restrict(s, c).clients[c := s'.clients[c]];
  }

  lemma OthersStep(s: Sys, c2: Cid, l: Label, c: Cid)
    requires ServerInv(s) && LocalStep(s, c2, l).Some? && c2 != c
    ensures Restrict(LocalStep(s, c2, l).value, c) == Restrict(s, c)
  {
    var s' := LocalStep(s, c2, l).value;
    assert l.Run? && l.t in s.clients[c2].threads ==> ServerFits(s, c2, l.t);
    assert Restrict(s', c).clients == Restrict(s, c).clients;
  }

  lemma CollectProjects(s: Sys, order: seq<Cid>, c: Cid)
    requires CanCollect(s, order)
    ensures Projects(s, Step.Collect(order), c)
  {
    var s', alone := SysNext(s, Step.Collect(order)).value, Restrict(s, c);
    assert forall x | x in order :: x in Elems(order);
    assert forall x | x in Elems(order) :: x in order;
    assert Elems(Only(order, c)) == Published(alone);
    assert CanCollect(alone, Only(order, c));
    assert Collected(alone, Only(order, c)) == Restrict(s', c).clients;
  }

  lemma VisitProjects(s: Sys, step: Step, c: Cid)
    requires FanInv(s) && SysNext(s, step).Some? && (step.StartVisit? || step.EndVisit?)
    ensures Projects(s, step, c)
  {
    var s' := SysNext(s, step).value;
    assert c in s.fan.todo[1..] <==> c in s.fan.todo && c != s.fan.todo[0];
    assert c in s.clients ==> Restrict(s', c).clients == Restrict(s, c).clients[c := s'.clients[c]];
    assert [c][1..] == [];
  }

  function ProjectRun(steps: seq<Step>, c: Cid): seq<Step> {
    if steps == [] then []
    else
      var front := steps[..|steps| - 1];
      ProjectRun(front, c) +
      match Exec(front)
      case None => []
      case Some(s) =>
        match Project(s, steps[|steps| - 1], c)
        case None => []
        case Some(own) => [own]
  }

  /** Isolation: what one client goes through among others, however they
      overflow, close or fail and in whatever order they are visited, it goes
      through in a proxy that never had another client. */
  lemma {:induction false} RunProjects(steps: seq<Step>, c: Cid)
    requires Exec(steps).Some?
    ensures Exec(ProjectRun(steps, c)) == Some(Restrict(Exec(steps).value, c))
  {
    if steps == [] {
      assert Restrict(INIT, c) == INIT;
    } else {
      var front, step := steps[..|steps| - 1], steps[|steps| - 1];
      RunProjects(front, c);
      RunKeepsInv(front);
      var s := Exec(front).value;
      StepProjects(s, step, c);
      match Project(s, step, c)
      case None =>
        assert ProjectRun(steps, c) == ProjectRun(front, c);
      case Some(own) =>
        assert ProjectRun(steps, c)[..|ProjectRun(steps, c)| - 1] == ProjectRun(front, c);
    }
  }

  /** So the other clients, what happens to them and the order of the visits
      cannot change what becomes of a client. */
  lemma OthersDoNotMatter(steps: seq<Step>, steps': seq<Step>, c: Cid)
    requires Exec(steps).Some? && Exec(steps').Some?
    requires ProjectRun(steps, c) == ProjectRun(steps', c)
    ensures c in Exec(steps).value.clients <==> c in Exec(steps').value.clients
    ensures c in Exec(steps).value.clients ==>
              Exec(steps).value.clients[c] == Exec(steps').value.clients[c]
  {
    RunProjects(steps, c);
    RunProjects(steps', c);
    var s, s' := Exec(steps).value, Exec(steps').value;
    assert Restrict(s, c).clients == Restrict(s', c).clients;
    assert c in Restrict(s, c).clients <==> c in s.clients;
  }
}
