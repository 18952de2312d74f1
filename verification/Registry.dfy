/** The FSWatcher objects that the proxy keeps for its connections
    (k8s/cmd/fsnotify-proxy/app/app.go), as steps of many connections over one
    API server: handlers read and write in separate calls, and a teardown's
    delete runs later on its own. */
module Registry {
  import opened Prelude
  import opened Mapping
  import Text

  /** namespace and name */
  type Id = (Str, Str)

  datatype FSWatcher = FSWatcher(pod: Str, container: Str, paths: seq<Str>)

  /** getPodName: at least three tokens. */
  predicate HasPod(channel: Str) {
    |Text.Split(channel, SLASH)| >= 3
  }

  /** getWatcher: at least two tokens; the first, and the others joined by hyphens. */
  predicate HasName(channel: Str) {
    |Text.Split(channel, SLASH)| >= 2
  }

  function CrId(channel: Str): Id {
    var tokens := Text.Split(channel, SLASH);
    (tokens[0], Text.Join(tokens[1..], HYPHEN))
  }

  /** Where the handler is: between messages; with a message read and the pod
      being looked up; with the map updated and about to read the object; about to
      write it; or, for CLEAR, about to delete it. */
  datatype Phase =
    | Ready
    | Looking(id: Id, edit: Edit)
    | Getting(id: Id)
    | Writing(id: Id, found: bool)
    | Clearing(id: Id)

  /** `id` is CRNamespace and CRName once set. `agreed` is history: the connection
      is live and its last handler, of WATCH or UNWATCH, has returned nil. */
  datatype Conn = Conn(podPathMap: PathMap, live: bool, id: Option<Id>, phase: Phase, agreed: bool)

  /** `deletes`: teardowns whose delete has not run. `failed` is history. */
  datatype State = State(conns: map<nat, Conn>, store: map<Id, FSWatcher>, deletes: multiset<Id>, failed: set<Id>)

  const INIT := State(map[], map[], multiset{}, {})

  datatype Step =
    | Connect(c: nat)
    | Receive(c: nat, channel: Str, edit: Edit)           // WATCH or UNWATCH, up to the pod lookup
    | Map(c: nat, binds: seq<Bind>, fails: bool)          // the lookup returns; up to the check for an empty map
    | Get(c: nat, fails: bool)
    | Put(c: nat, cr: FSWatcher, fails: bool)             // Create or Update
    | Clear(c: nat, channel: Str, fails: bool)            // its Get
    | ClearDelete(c: nat, fails: bool)
    | Teardown(c: nat)
    | RunDelete(id: Id, fails: bool)

  function With(s: State, c: nat, conn: Conn): State {
    s.(conns := s.conns[c := conn])
  }

  function Next(s: State, step: Step): Option<State> {
    match step
    case Connect(c) => if c in s.conns then None else Some(With(s, c, Conn(map[], true, None, Ready, false)))
    case Receive(c, channel, edit) =>
      if c in s.conns && s.conns[c].phase.Ready? && HasPod(channel) then
        Some(With(s, c, s.conns[c].(agreed := false, phase := Looking(CrId(channel), edit))))
      else None
    case Map(c, binds, fails) =>
      if c in s.conns && s.conns[c].phase.Looking? && HostsGiven(binds) then
        if fails then Some(With(s, c, s.conns[c].(phase := Ready)))
        else
          var m := PutMounts(s.conns[c].podPathMap, binds, s.conns[c].phase.edit);
          Some(With(s, c, s.conns[c].(podPathMap := m,
                                      phase := if m == map[] then Ready else Getting(s.conns[c].phase.id))))
      else None
    case Get(c, fails) =>
      if c in s.conns && s.conns[c].phase.Getting? then
        var id := s.conns[c].phase.id;
        Some(With(s, c, s.conns[c].(id := Some(id), phase := if fails then Ready else Writing(id, id in s.store))))
      else None
    case Put(c, cr, fails) =>
      if c in s.conns && s.conns[c].phase.Writing? && Elems(cr.paths) == s.conns[c].podPathMap.Keys then
        var (id, found) := (s.conns[c].phase.id, s.conns[c].phase.found);
        if fails || found != (id in s.store) then Some(With(s, c, s.conns[c].(phase := Ready)))
        else Some(With(s, c, s.conns[c].(phase := Ready, agreed := s.conns[c].live)).(store := s.store[id := cr]))
      else None
    case Clear(c, channel, fails) =>
      if c in s.conns && s.conns[c].phase.Ready? && HasName(channel) then
        var id := CrId(channel);
        Some(With(s, c, s.conns[c].(agreed := false,
                                    phase := if fails || id !in s.store then Ready else Clearing(id))))
      else None
    case ClearDelete(c, fails) =>
      if c in s.conns && s.conns[c].phase.Clearing? then
        Some(With(s, c, s.conns[c].(phase := Ready))
             .(store := if fails then s.store else s.store - {s.conns[c].phase.id}))
      else None
    case Teardown(c) =>
      if c in s.conns && s.conns[c].live then
        var conn := s.conns[c];
        Some(With(s, c, conn.(live := false, agreed := false))
             .(deletes := if conn.id.Some? then s.deletes + multiset{conn.id.value} else s.deletes))
      else None
    case RunDelete(id, fails) =>
      if id in s.deletes then
        Some(s.(deletes := s.deletes - multiset{id},
                store := if fails then s.store else s.store - {id},
                failed := if fails then s.failed + {id} else s.failed))
      else None
  }

  function Exec(steps: seq<Step>): Option<State> {
    if steps == [] then Some(INIT)
    else
      match Exec(steps[..|steps| - 1])
      case None => None
      case Some(s) => Next(s, steps[|steps| - 1])
  }

  // ----------------------------------------------------------- conditions

  /** The object of a live connection, or the one a handler is at work on. */
  predicate Uses(conn: Conn, id: Id) {
    (conn.live && conn.id == Some(id)) || (!conn.phase.Ready? && conn.phase.id == id)
  }

  /** The object of a live connection, named or about to be. */
  predicate Needs(conn: Conn, id: Id) {
    conn.live && (conn.id == Some(id) || (!conn.phase.Ready? && !conn.phase.Clearing? && conn.phase.id == id))
  }

  predicate OthersFree(s: State, c: nat, id: Id) {
    forall o | o in s.conns && o != c :: !Uses(s.conns[o], id)
  }

  /** The handler may still create an object: it has not found one, or has yet to
      look, and its map is not empty or need not stay so. */
  predicate MayCreate(conn: Conn) {
    match conn.phase
    case Looking(_, e) => MayMap(conn.podPathMap, e)
    case Getting(_) => true
    case Writing(_, found) => !found
    case _ => false
  }

  /** Some pod would leave the map not empty. */
  predicate MayMap(m: PathMap, e: Edit) {
    m != map[] || (e.watch && e.keys != [])
  }

  /** One connection per object, each keeping to its channel; no delete of that
      object pending; no teardown while a handler may yet create it; and no
      WATCH or UNWATCH read after the connection's teardown. */
  predicate Exclusive(s: State, step: Step) {
    match step
    case Receive(c, channel, _) =>
      && c in s.conns && s.conns[c].live
      && (s.conns[c].id == None || s.conns[c].id == Some(CrId(channel)))
      && CrId(channel) !in s.deletes && OthersFree(s, c, CrId(channel))
    case Clear(c, channel, _) => OthersFree(s, c, CrId(channel))
    case Teardown(c) => c in s.conns && !MayCreate(s.conns[c])
    case _ => true
  }

  predicate ExclusiveRun(steps: seq<Step>) {
    steps == [] ||
    (var front := steps[..|steps| - 1];
     ExclusiveRun(front) && Exec(front).Some? && Exclusive(Exec(front).value, steps[|steps| - 1]))
  }

  // ------------------------------------------------------------ invariant

  predicate Agrees(s: State, id: Id, keys: set<Str>) {
    (if id in s.store then Elems(s.store[id].paths) else {}) == keys
  }

  predicate ConnFits(s: State, c: nat)
    requires c in s.conns
  {
    var conn := s.conns[c];
    && (!conn.live ==> !MayCreate(conn) && !conn.agreed)
    && (conn.phase.Writing? ==> conn.id == Some(conn.phase.id))
    && (conn.phase.Getting? || conn.phase.Writing? ==> conn.podPathMap != map[])
    && (!conn.phase.Ready? && !conn.phase.Clearing? ==> conn.id == None || conn.id == Some(conn.phase.id))
    && (conn.agreed ==> conn.phase.Ready? && AgreesHere(s, conn))
  }

  /** The object a connection has named lists the keys of its map. */
  predicate AgreesHere(s: State, conn: Conn) {
    && conn.podPathMap != map[] && conn.id.Some?
    && conn.id.value in s.store && Elems(s.store[conn.id.value].paths) == conn.podPathMap.Keys
  }

  predicate Apart(s: State, c: nat, o: nat)
    requires c in s.conns && o in s.conns
  {
    var a, b := s.conns[c], s.conns[o];
    && (a.live && a.id.Some? && c != o ==> !Uses(b, a.id.value))
    && (!a.phase.Ready? && c != o ==> !Uses(b, a.phase.id))
  }

  predicate Undeleted(s: State, c: nat)
    requires c in s.conns
  {
    forall id | id in s.deletes :: !Needs(s.conns[c], id)
  }

  /** Whatever is stored has a connection, or a delete to come, or a delete
      that the API server refused. */
  predicate Owned(s: State, id: Id) {
    (exists c :: c in s.conns && s.conns[c].live && s.conns[c].id == Some(id)) || id in s.deletes || id in s.failed
  }

  predicate Inv(s: State) {
    && (forall c | c in s.conns :: ConnFits(s, c))
    && (forall c, o | c in s.conns && o in s.conns :: Apart(s, c, o))
    && (forall c | c in s.conns :: Undeleted(s, c))
    && (forall id | id in s.store :: Owned(s, id))
  }

  /** The step is one of connection `c`. */
  predicate Moves(step: Step, c: nat) {
    !step.RunDelete? && step.c == c
  }

  lemma OthersStay(s: State, step: Step, o: nat)
    requires Next(s, step).Some? && o in s.conns && !Moves(step, o)
    ensures o in Next(s, step).value.conns && Next(s, step).value.conns[o] == s.conns[o]
  {
  }

  predicate SameAt(store: map<Id, FSWatcher>, store': map<Id, FSWatcher>, id: Id) {
    (id in store' <==> id in store) && (id in store ==> store'[id] == store[id])
  }

  /** Nobody else's step, and no delete, touches the object of a live connection. */
  lemma OthersLeaveObject(s: State, step: Step, o: nat)
    requires Inv(s) && Next(s, step).Some?
    requires o in s.conns && s.conns[o].live && s.conns[o].id.Some? && !Moves(step, o)
    ensures SameAt(s.store, Next(s, step).value.store, s.conns[o].id.value)
  {
    assert Undeleted(s, o);
    assert (step.Put? || step.ClearDelete?) ==> Apart(s, o, step.c) && ConnFits(s, step.c);
  }

  /** A message that can map nothing leaves an empty map empty. */
  lemma StaysUnmapped(m: PathMap, binds: seq<Bind>, e: Edit)
    requires HostsGiven(binds) && !MayMap(m, e)
    ensures PutMounts(m, binds, e) == map[]
  {
    PutMountsKeys(m, binds, e);
    assert e.keys == [] ==> AllImages(binds, Elems(e.keys)) == {};
    assert PutMounts(m, binds, e).Keys == {};
  }

  lemma StepKeepsFits(s: State, step: Step, c: nat)
    requires Inv(s) && Next(s, step).Some? && Exclusive(s, step) && c in Next(s, step).value.conns
    ensures ConnFits(Next(s, step).value, c)
  {
    if c in s.conns {
      assert ConnFits(s, c);
      if Moves(step, c) {
        OwnStepFits(s, step, c);
      } else {
        OthersStay(s, step, c);
        if s.conns[c].agreed {
          OthersLeaveObject(s, step, c);
        }
      }
    }
  }

  lemma OwnStepFits(s: State, step: Step, c: nat)
    requires c in s.conns && ConnFits(s, c) && Moves(step, c) && Next(s, step).Some? && Exclusive(s, step)
    ensures c in Next(s, step).value.conns && ConnFits(Next(s, step).value, c)
  {
    if step.Map? && !MayCreate(s.conns[c]) {
      StaysUnmapped(s.conns[c].podPathMap, step.binds, s.conns[c].phase.edit);
    }
  }

  lemma StepKeepsApart(s: State, step: Step, c: nat, o: nat)
    requires Inv(s) && Next(s, step).Some? && Exclusive(s, step)
    requires c in Next(s, step).value.conns && o in Next(s, step).value.conns
    ensures Apart(Next(s, step).value, c, o)
  {
    if c in s.conns && o in s.conns && c != o {
      assert Apart(s, c, o) && Apart(s, o, c) && ConnFits(s, c) && ConnFits(s, o);
      PairStaysApart(s, step, c, o);
    }
  }

  lemma PairStaysApart(s: State, step: Step, c: nat, o: nat)
    requires c in s.conns && o in s.conns && c != o
    requires Apart(s, c, o) && Apart(s, o, c) && ConnFits(s, c) && ConnFits(s, o)
    requires Next(s, step).Some? && Exclusive(s, step)
    ensures c in Next(s, step).value.conns && o in Next(s, step).value.conns
    ensures Apart(Next(s, step).value, c, o)
  {
    var a := s.conns[c];
    if Moves(step, c) {
      OthersStay(s, step, o);
      OwnUses(s, step, c, o);
    } else if Moves(step, o) {
      OthersStay(s, step, c);
      if a.live && a.id.Some? {
        OwnUsesNot(s, step, o, c, a.id.value);
      }
      if !a.phase.Ready? {
        OwnUsesNot(s, step, o, c, a.phase.id);
      }
    } else {
      OthersStay(s, step, c);
      OthersStay(s, step, o);
    }
  }

  /** By its own step a connection comes to use only what the others do not. */
  lemma OwnUses(s: State, step: Step, c: nat, o: nat)
    requires c in s.conns && o in s.conns && c != o && Apart(s, c, o) && ConnFits(s, c)
    requires Next(s, step).Some? && Exclusive(s, step) && Moves(step, c)
    ensures c in Next(s, step).value.conns
    ensures var a := Next(s, step).value.conns[c];
            && (a.live && a.id.Some? ==> !Uses(s.conns[o], a.id.value))
            && (!a.phase.Ready? ==> !Uses(s.conns[o], a.phase.id))
  {
  }

  lemma OwnUsesNot(s: State, step: Step, o: nat, c: nat, id: Id)
    requires c in s.conns && o in s.conns && c != o && ConnFits(s, o)
    requires Uses(s.conns[c], id) && !Uses(s.conns[o], id)
    requires Next(s, step).Some? && Exclusive(s, step) && Moves(step, o)
    ensures o in Next(s, step).value.conns && !Uses(Next(s, step).value.conns[o], id)
  {
  }

  lemma StepKeepsUndeleted(s: State, step: Step, c: nat)
    requires Inv(s) && Next(s, step).Some? && Exclusive(s, step) && c in Next(s, step).value.conns
    ensures Undeleted(Next(s, step).value, c)
  {
    if c in s.conns {
      assert Undeleted(s, c) && ConnFits(s, c);
      if step.Teardown? {
        assert Apart(s, step.c, c);
      } else if Moves(step, c) {
        OwnStepUndeleted(s, step, c);
      } else {
        OthersStay(s, step, c);
      }
    }
  }

  lemma OwnStepUndeleted(s: State, step: Step, c: nat)
    requires c in s.conns && ConnFits(s, c) && Undeleted(s, c) && Moves(step, c)
    requires Next(s, step).Some? && Exclusive(s, step)
    ensures c in Next(s, step).value.conns && Undeleted(Next(s, step).value, c)
  {
  }

  lemma StepKeepsOwned(s: State, step: Step, id: Id)
    requires Inv(s) && Next(s, step).Some? && Exclusive(s, step) && id in Next(s, step).value.store
    ensures Owned(Next(s, step).value, id)
  {
    if id in s.store {
      assert Owned(s, id);
      if c :| c in s.conns && s.conns[c].live && s.conns[c].id == Some(id) {
        assert ConnFits(s, c);
        OwnerStays(s, step, id, c);
      }
    } else {
      NewIsOwned(s, step, id);
    }
  }

  lemma NewIsOwned(s: State, step: Step, id: Id)
    requires (forall c | c in s.conns :: ConnFits(s, c))
    requires Next(s, step).Some? && id !in s.store && id in Next(s, step).value.store
    ensures Owned(Next(s, step).value, id)
  {
    assert step.Put?;
    assert ConnFits(s, step.c);
    assert Next(s, step).value.conns[step.c].id == Some(id);
  }

  lemma OwnerStays(s: State, step: Step, id: Id, c: nat)
    requires c in s.conns && s.conns[c].live && s.conns[c].id == Some(id) && ConnFits(s, c)
    requires Next(s, step).Some? && Exclusive(s, step)
    ensures Owned(Next(s, step).value, id)
  {
    var s' := Next(s, step).value;
    if step == Teardown(c) {
      assert id in s'.deletes;
    } else {
      assert c in s'.conns && s'.conns[c].live && s'.conns[c].id == Some(id);
    }
  }

  lemma StepKeepsInv(s: State, step: Step)
    requires Inv(s) && Next(s, step).Some? && Exclusive(s, step)
    ensures Inv(Next(s, step).value)
  {
    var s' := Next(s, step).value;
    forall c | c in s'.conns ensures ConnFits(s', c) { StepKeepsFits(s, step, c); }
    forall c, o | c in s'.conns && o in s'.conns ensures Apart(s', c, o) { StepKeepsApart(s, step, c, o); }
    forall c | c in s'.conns ensures Undeleted(s', c) { StepKeepsUndeleted(s, step, c); }
    forall id | id in s'.store ensures Owned(s', id) { StepKeepsOwned(s, step, id); }
  }

  lemma {:induction false} RunKeepsInv(steps: seq<Step>)
    requires Exec(steps).Some? && ExclusiveRun(steps)
    ensures Inv(Exec(steps).value)
  {
    if steps != [] {
      var front := steps[..|steps| - 1];
      RunKeepsInv(front);
      StepKeepsInv(Exec(front).value, steps[|steps| - 1]);
    }
  }

  // ------------------------------------------------------------- theorems

  /** Whenever the last handler has returned nil, the stored FSWatcher named by
      CRNamespace and CRName lists exactly the keys of podPathMap, whatever the
      other connections have done since. */
  lemma RegistryAgreement(steps: seq<Step>, c: nat)
    requires Exec(steps).Some? && ExclusiveRun(steps)
    requires c in Exec(steps).value.conns && Exec(steps).value.conns[c].agreed
    ensures var s := Exec(steps).value;
            && s.conns[c].live && s.conns[c].id.Some? && s.conns[c].id.value in s.store
            && Elems(s.store[s.conns[c].id.value].paths) == s.conns[c].podPathMap.Keys
  {
    RunKeepsInv(steps);
    assert ConnFits(Exec(steps).value, c);
  }

  /** Nothing is left behind: every stored object has its live connection, or a
      delete to come or refused. */
  lemma NoOrphans(steps: seq<Step>, id: Id)
    requires Exec(steps).Some? && ExclusiveRun(steps) && id in Exec(steps).value.store
    ensures Owned(Exec(steps).value, id)
  {
    RunKeepsInv(steps);
  }

  /** A delete that is still to run never hits an object that a live connection
      has named or is about to. */
  lemma DeletesSpareTheLiving(steps: seq<Step>, c: nat, id: Id)
    requires Exec(steps).Some? && ExclusiveRun(steps)
    requires c in Exec(steps).value.conns && id in Exec(steps).value.deletes
    ensures !Needs(Exec(steps).value.conns[c], id)
  {
    RunKeepsInv(steps);
    assert Undeleted(Exec(steps).value, c);
  }

  lemma PrefixRuns(steps: seq<Step>, more: seq<Step>)
    requires more != [] && Exec(steps + more).Some? && ExclusiveRun(steps + more)
    ensures var front, step := steps + more[..|more| - 1], more[|more| - 1];
            && Exec(front).Some? && ExclusiveRun(front) && Exclusive(Exec(front).value, step)
            && Next(Exec(front).value, step) == Exec(steps + more)
  {
    assert (steps + more)[..|steps + more| - 1] == steps + more[..|more| - 1];
  }

  /** As long as a connection in agreement does nothing itself, its object stays
      as it is, whatever handlers, teardowns and deletes the others run. */
  lemma {:induction false} ObjectStays(steps: seq<Step>, more: seq<Step>, o: nat)
    requires Exec(steps + more).Some? && ExclusiveRun(steps + more)
    requires Exec(steps).Some? && o in Exec(steps).value.conns && Exec(steps).value.conns[o].agreed
    requires forall step | step in more :: !Moves(step, o)
    ensures var s, s' := Exec(steps).value, Exec(steps + more).value;
            && s.conns[o].live && s.conns[o].id.Some?
            && o in s'.conns && s'.conns[o] == s.conns[o]
            && SameAt(s.store, s'.store, s.conns[o].id.value)
    decreases |more|
  {
    if more == [] {
      assert steps + more == steps;
      RunKeepsInv(steps);
      assert ConnFits(Exec(steps).value, o);
    } else {
      var front, step := more[..|more| - 1], more[|more| - 1];
      PrefixRuns(steps, more);
      assert step in more && forall x | x in front :: x in more;
      ObjectStays(steps, front, o);
      RunKeepsInv(steps + front);
      OthersStay(Exec(steps + front).value, step, o);
      OthersLeaveObject(Exec(steps + front).value, step, o);
    }
  }

  /** Nobody can bring the object back: it has no live connection, and whatever
      handler is at work on it will only update what it found, or delete. */
  predicate NoCreator(s: State, id: Id) {
    forall o | o in s.conns && Uses(s.conns[o], id) ::
      !Needs(s.conns[o], id) && !MayCreate(s.conns[o])
  }

  lemma TeardownLeavesNoCreator(s: State, c: nat)
    requires Inv(s) && Next(s, Teardown(c)).Some? && Exclusive(s, Teardown(c)) && s.conns[c].id.Some?
    ensures NoCreator(Next(s, Teardown(c)).value, s.conns[c].id.value)
    ensures s.conns[c].id.value in Next(s, Teardown(c)).value.deletes
  {
    var s', id := Next(s, Teardown(c)).value, s.conns[c].id.value;
    forall o | o in s'.conns && Uses(s'.conns[o], id)
      ensures !Needs(s'.conns[o], id) && !MayCreate(s'.conns[o])
    {
      assert Apart(s, c, o);
    }
  }

  lemma NoCreatorStays(s: State, step: Step, id: Id)
    requires Inv(s) && Next(s, step).Some? && Exclusive(s, step)
    requires NoCreator(s, id) && !(step.Receive? && CrId(step.channel) == id)
    ensures NoCreator(Next(s, step).value, id)
    ensures id !in s.store ==> id !in Next(s, step).value.store
  {
    var s' := Next(s, step).value;
    forall o | o in s'.conns && Uses(s'.conns[o], id)
      ensures !Needs(s'.conns[o], id) && !MayCreate(s'.conns[o])
    {
      if o in s.conns {
        assert ConnFits(s, o);
        HelplessStays(s, step, o, id);
      }
    }
    if step.Put? {
      assert ConnFits(s, step.c);
    }
  }

  predicate Helpless(conn: Conn, id: Id) {
    Uses(conn, id) ==> !Needs(conn, id) && !MayCreate(conn)
  }

  lemma HelplessStays(s: State, step: Step, o: nat, id: Id)
    requires o in s.conns && ConnFits(s, o) && Helpless(s.conns[o], id)
    requires Next(s, step).Some? && !(step.Receive? && CrId(step.channel) == id)
    ensures o in Next(s, step).value.conns && Helpless(Next(s, step).value.conns[o], id)
  {
    if step.Map? && step.c == o && !MayCreate(s.conns[o]) {
      StaysUnmapped(s.conns[o].podPathMap, step.binds, s.conns[o].phase.edit);
    }
  }

  /** The teardown's delete runs whenever it runs. Once it has succeeded, the
      object is gone, and it stays gone until a WATCH for that channel. */
  lemma {:induction false} TornDownIsGone(steps: seq<Step>, c: nat, more: seq<Step>)
    requires Exec(steps).Some? && c in Exec(steps).value.conns && Exec(steps).value.conns[c].id.Some?
    requires Exec(steps + [Teardown(c)] + more).Some? && ExclusiveRun(steps + [Teardown(c)] + more)
    requires forall step | step in more && step.Receive? ::
               CrId(step.channel) != Exec(steps).value.conns[c].id.value
    ensures var s', id := Exec(steps + [Teardown(c)] + more).value, Exec(steps).value.conns[c].id.value;
            NoCreator(s', id) && (RunDelete(id, false) in more ==> id !in s'.store)
    decreases |more|
  {
    var torn, id := steps + [Teardown(c)], Exec(steps).value.conns[c].id.value;
    if more == [] {
      assert torn + more == torn;
      PrefixRuns(steps, [Teardown(c)]);
      assert steps + [Teardown(c)][..0] == steps;
      RunKeepsInv(steps);
      TeardownLeavesNoCreator(Exec(steps).value, c);
    } else {
      var front, step := more[..|more| - 1], more[|more| - 1];
      PrefixRuns(torn, more);
      assert more == front + [step];
      TornDownIsGone(steps, c, front);
      RunKeepsInv(torn + front);
      NoCreatorStays(Exec(torn + front).value, step, id);
    }
  }

  lemma ExecSnoc(steps: seq<Step>, step: Step)
    requires Exec(steps).Some?
    ensures Exec(steps + [step]) == Next(Exec(steps).value, step)
  {
    assert (steps + [step])[..|steps|] == steps;
  }

  // ------------------------------------------------------ what was asked

  /** The last message about the connection's watches. */
  function LastMessage(steps: seq<Step>, c: nat): (Id, Edit) {
    if steps == [] then (([], []), Edit(false, []))
    else
      match steps[|steps| - 1]
      case Receive(c', channel, edit) =>
        if c' == c && HasPod(channel) then (CrId(channel), edit) else LastMessage(steps[..|steps| - 1], c)
      case _ => LastMessage(steps[..|steps| - 1], c)
  }

  /** All messages of the connection that got past the pod lookup, applied in order,
      each under the binds of its pod. */
  function MapOf(steps: seq<Step>, c: nat): PathMap {
    if steps == [] then map[]
    else
      var front := steps[..|steps| - 1];
      match steps[|steps| - 1]
      case Map(c', binds, fails) =>
        if c' == c && !fails && HostsGiven(binds) then PutMounts(MapOf(front, c), binds, LastMessage(front, c).1)
        else MapOf(front, c)
      case _ => MapOf(front, c)
  }

  /** The name the connection's object has got: that of the last message to have
      come as far as reading the object, whether the read succeeded or not. */
  function ObjectNamed(steps: seq<Step>, c: nat): Option<Id> {
    if steps == [] then None
    else
      var front, step := steps[..|steps| - 1], steps[|steps| - 1];
      if step.Get? && step.c == c then Some(LastMessage(front, c).0) else ObjectNamed(front, c)
  }

  predicate AsAsked(conn: Conn, m: PathMap, last: (Id, Edit), id: Option<Id>) {
    && conn.podPathMap == m && conn.id == id
    && (conn.phase.Looking? ==> conn.phase.id == last.0 && conn.phase.edit == last.1)
    && (conn.phase.Getting? || conn.phase.Writing? ==> conn.phase.id == last.0)
  }

  /** In every run, exclusive or not, the path map of a connection is what its
      messages make of it, refused ones left out, and its object's name is that of
      the last that was let through to the object. */
  lemma {:induction false} ConnIsAsAsked(steps: seq<Step>, c: nat)
    requires Exec(steps).Some?
    ensures c in Exec(steps).value.conns ==>
              AsAsked(Exec(steps).value.conns[c], MapOf(steps, c), LastMessage(steps, c), ObjectNamed(steps, c))
    ensures c !in Exec(steps).value.conns ==> MapOf(steps, c) == map[] && ObjectNamed(steps, c) == None
  {
    if steps != [] {
      var front, step := steps[..|steps| - 1], steps[|steps| - 1];
      ConnIsAsAsked(front, c);
      if Moves(step, c) && !step.Connect? {
        StepAsAsked(Exec(front).value, step, c, MapOf(front, c), LastMessage(front, c), ObjectNamed(front, c));
      }
    }
  }

  lemma StepAsAsked(s: State, step: Step, c: nat, m: PathMap, last: (Id, Edit), id: Option<Id>)
    requires c in s.conns && AsAsked(s.conns[c], m, last, id)
    requires Next(s, step).Some? && Moves(step, c) && !step.Connect?
    ensures c in Next(s, step).value.conns
    ensures AsAsked(Next(s, step).value.conns[c],
                    if step.Map? && !step.fails then PutMounts(m, step.binds, last.1) else m,
                    if step.Receive? then (CrId(step.channel), step.edit) else last,
                    if step.Get? then Some(last.0) else id)
  {
  }

  /** A teardown asks for the delete of just that object, if there is a name. */
  lemma TeardownDeletesExactly(steps: seq<Step>, c: nat)
    requires Exec(steps + [Teardown(c)]).Some?
    ensures Exec(steps).Some?
    ensures var s, s' := Exec(steps).value, Exec(steps + [Teardown(c)]).value;
            && s'.store == s.store && c in s'.conns && !s'.conns[c].live
            && var id := ObjectNamed(steps, c);
               s'.deletes == s.deletes + (if id.Some? then multiset{id.value} else multiset{})
  {
    assert (steps + [Teardown(c)])[..|steps|] == steps;
    ConnIsAsAsked(steps, c);
    TeardownStep(Exec(steps).value, c);
  }

  lemma TeardownStep(s: State, c: nat)
    requires Next(s, Teardown(c)).Some?
    ensures var s' := Next(s, Teardown(c)).value;
            && s'.store == s.store && c in s.conns && c in s'.conns && !s'.conns[c].live
            && s'.deletes == s.deletes + (if s.conns[c].id.Some? then multiset{s.conns[c].id.value} else multiset{})
  {
  }

  /** The write of a handler takes effect exactly when the object is there or not
      as the handler found it: it creates none over another, and updates none that
      has gone. */
  lemma WriteExactly(s: State, c: nat, cr: FSWatcher)
    requires c in s.conns && s.conns[c].phase.Writing? && Elems(cr.paths) == s.conns[c].podPathMap.Keys
    ensures var id, s' := s.conns[c].phase.id, Next(s, Put(c, cr, false));
            && s'.Some? && s'.value.conns[c].phase.Ready?
            && (s.conns[c].phase.found && id !in s.store ==> s'.value.store == s.store)
            && (!s.conns[c].phase.found && id in s.store ==> s'.value.store == s.store)
            && ((s.conns[c].phase.found <==> id in s.store) ==> s'.value.store == s.store[id := cr])
  {
  }

  /** A CLEAR takes away its channel's object, if there is one, and nothing else;
      it does nothing when a call fails. */
  lemma ClearExactly(s: State, c: nat, channel: Str)
    requires c in s.conns && s.conns[c].phase.Ready? && HasName(channel)
    ensures var id, s1 := CrId(channel), Next(s, Clear(c, channel, false));
            && s1.Some? && Next(s, Clear(c, channel, true)).Some?
            && Next(s, Clear(c, channel, true)).value.store == s.store
            && s1.value.store == s.store
            && (if id in s.store then
                  && Next(s1.value, ClearDelete(c, false)).Some? && Next(s1.value, ClearDelete(c, true)).Some?
                  && Next(s1.value, ClearDelete(c, false)).value ==
                     s.(conns := s.conns[c := s.conns[c].(agreed := false)], store := s.store - {id})
                  && Next(s1.value, ClearDelete(c, true)).value.store == s.store
                else s1.value.conns[c].phase.Ready?)
  {
    var id, s1 := CrId(channel), Next(s, Clear(c, channel, false)).value;
    if id in s.store {
      assert Next(s1, ClearDelete(c, false)).value.conns == s.conns[c := s.conns[c].(agreed := false)];
    }
  }

  /** A WATCH or UNWATCH that every API call lets through. */
  function Handled(s: State, c: nat, channel: Str, binds: seq<Bind>, edit: Edit, cr: FSWatcher): Option<State> {
    match Next(s, Receive(c, channel, edit))
    case None => None
    case Some(s0) =>
      match Next(s0, Map(c, binds, false))
      case None => None
      case Some(s1) =>
        if c !in s1.conns || s1.conns[c].phase.Ready? then Some(s1)
        else
          match Next(s1, Get(c, false))
          case None => None
          case Some(s2) => Next(s2, Put(c, cr, false))
  }

  /** After such a message the object agrees with the map exactly when the map
      is not empty, or there was nothing stored: an UNWATCH of the last path is
      refused and leaves the old paths in place. */
  lemma AgreesUnlessEmptied(s: State, c: nat, channel: Str, binds: seq<Bind>, edit: Edit, cr: FSWatcher)
    requires Handled(s, c, channel, binds, edit, cr).Some?
    ensures var s' := Handled(s, c, channel, binds, edit, cr).value;
            && c in s'.conns
            && (Agrees(s', CrId(channel), s'.conns[c].podPathMap.Keys) <==>
                s'.conns[c].podPathMap != map[] || Agrees(s, CrId(channel), {}))
  {
  }
}
