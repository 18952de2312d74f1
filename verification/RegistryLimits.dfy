/** When the promises about the FSWatcher objects fail
    (k8s/cmd/fsnotify-proxy/app/app.go): for each condition of an exclusive run,
    exactly when its absence costs the object, and a run that gets there. */
module RegistryLimits {
  import opened Prelude
  import opened Mapping
  import opened Registry
  import Text

  // ---------------------------------------------------------- shared names

  /** The text with hyphens for slashes. */
  function Flat(s: Str): Str {
    seq(|s|, i requires 0 <= i < |s| => if s[i] == SLASH then HYPHEN else s[i])
  }

  lemma {:induction false} JoinedIsFlat(s: Str)
    ensures Text.Join(Text.Split(s, SLASH), HYPHEN) == Flat(s)
  {
    if s != [] {
      JoinedIsFlat(s[1..]);
      var rest := Text.Split(s[1..], SLASH);
      assert Flat(s) == [if s[0] == SLASH then HYPHEN else s[0]] + Flat(s[1..]);
      if s[0] == SLASH {
        assert ([[]] + rest)[1..] == rest;
      } else {
        var parts := [[s[0]] + rest[0]] + rest[1..];
        assert parts[1..] == rest[1..];
        if |rest| > 1 {
          assert [s[0]] + rest[0] + [HYPHEN] + Text.Join(rest[1..], HYPHEN) ==
                 [s[0]] + (rest[0] + [HYPHEN] + Text.Join(rest[1..], HYPHEN));
        }
      }
    }
  }

  lemma NameOf(ns: Str, x: Str)
    requires SLASH !in ns
    ensures HasName(ns + [SLASH] + x) && CrId(ns + [SLASH] + x) == (ns, Flat(x))
  {
    assert ns + [SLASH] + x == ns + ([SLASH] + x);
    Text.SplitHead(ns, x, SLASH);
    assert ([ns] + Text.Split(x, SLASH))[1..] == Text.Split(x, SLASH);
    JoinedIsFlat(x);
  }

  /** Every channel that has a name is a namespace, a slash and the rest. */
  lemma ChannelSplits(channel: Str) returns (ns: Str, x: Str)
    requires HasName(channel)
    ensures SLASH !in ns && channel == ns + [SLASH] + x
  {
    var tokens := Text.Split(channel, SLASH);
    ns, x := tokens[0], Text.Join(tokens[1..], SLASH);
    Text.JoinSplit(channel, SLASH);
  }

  /** Two channels share an FSWatcher exactly when their namespaces are equal and
      the rests are equal up to hyphens for slashes. */
  lemma NameSharedExactly(ns: Str, x: Str, ns': Str, y: Str)
    requires SLASH !in ns && SLASH !in ns'
    ensures CrId(ns + [SLASH] + x) == CrId(ns' + [SLASH] + y) <==> ns == ns' && Flat(x) == Flat(y)
  {
    NameOf(ns, x);
    NameOf(ns', y);
  }

  /** Pod names have hyphens of their own, so "n/a-b/c" and "n/a/b-c" do. */
  lemma ChannelsShareName(n: Str, a: Str, b: Str, c: Str)
    requires SLASH !in n
    ensures var x := n + [SLASH] + (a + [HYPHEN] + b + [SLASH] + c);
            var y := n + [SLASH] + (a + [SLASH] + b + [HYPHEN] + c);
            x != y && CrId(x) == CrId(y)
  {
    var x, y := a + [HYPHEN] + b + [SLASH] + c, a + [SLASH] + b + [HYPHEN] + c;
    NameSharedExactly(n, x, n, y);
    assert Flat(x) == Flat(y);
    assert (n + [SLASH] + x)[|n| + 1 + |a|] == HYPHEN && (n + [SLASH] + y)[|n| + 1 + |a|] == SLASH;
  }

  /** When the handler of another connection returns nil on the same object, a
      connection still agrees with it exactly when their maps have the same keys. */
  lemma SharedObjectExactly(s: State, c: nat, o: nat, channel: Str, binds: seq<Bind>, edit: Edit, cr: FSWatcher)
    requires c in s.conns && o in s.conns && c != o && AgreesHere(s, s.conns[c])
    requires s.conns[c].id == Some(CrId(channel))
    requires Handled(s, o, channel, binds, edit, cr).Some?
    requires var s' := Handled(s, o, channel, binds, edit, cr).value; o in s'.conns && s'.conns[o].agreed
    ensures var s' := Handled(s, o, channel, binds, edit, cr).value;
            && c in s'.conns && s'.conns[c] == s.conns[c]
            && (AgreesHere(s', s'.conns[c]) <==> s'.conns[o].podPathMap.Keys == s.conns[c].podPathMap.Keys)
  {
  }

  // --------------------------------------------------------- stale deletes

  /** A connection in agreement stays so, whichever pending delete runs next,
      exactly when none is for its object. */
  lemma DeleteDecides(s: State, c: nat)
    requires c in s.conns && AgreesHere(s, s.conns[c])
    ensures (forall id | id in s.deletes :: AgreesAfterDelete(s, c, id)) <==> s.conns[c].id.value !in s.deletes
  {
    var own := s.conns[c].id.value;
    if own in s.deletes {
      assert !AgreesAfterDelete(s, c, own);
    }
  }

  predicate AgreesAfterDelete(s: State, c: nat, id: Id)
    requires c in s.conns && id in s.deletes
  {
    AgreesHere(Next(s, RunDelete(id, false)).value, s.conns[c])
  }

  // ------------------------------------------------ teardown in a handler

  /** The object a connection's teardown should leave nothing of. */
  function Target(conn: Conn): Option<Id> {
    if conn.phase.Ready? || conn.phase.Clearing? then conn.id else Some(conn.phase.id)
  }

  /** What is still to come of a connection after its teardown: the rest of its
      handler, whatever pod it finds, and its delete, which succeeds. */
  predicate Aftermath(step: Step, c: nat, id: Id) {
    || ((step.Map? || step.Get? || step.Put? || step.ClearDelete?) && step.c == c)
    || step == RunDelete(id, false)
  }

  function RunFrom(s: State, steps: seq<Step>): Option<State> {
    if steps == [] then Some(s)
    else
      match RunFrom(s, steps[..|steps| - 1])
      case None => None
      case Some(s1) => Next(s1, steps[|steps| - 1])
  }

  /** All of that has run, and the object is there. */
  predicate LeftBehind(s: State, c: nat, id: Id, steps: seq<Step>) {
    && (forall step | step in steps :: Aftermath(step, c, id))
    && RunFrom(s, steps).Some?
    && var s' := RunFrom(s, steps).value;
       c in s'.conns && s'.conns[c].phase.Ready? && id !in s'.deletes && id in s'.store
  }

  lemma RunFromSnoc(s: State, steps: seq<Step>, step: Step)
    requires RunFrom(s, steps).Some?
    ensures RunFrom(s, steps + [step]) == Next(RunFrom(s, steps).value, step)
  {
    assert (steps + [step])[..|steps|] == steps;
  }

  /** The delete will come, or has come and nobody can undo it. */
  predicate Doomed(s: State, c: nat, id: Id) {
    && c in s.conns && !s.conns[c].live && !MayCreate(s.conns[c])
    && (s.conns[c].phase.Writing? ==> s.conns[c].phase.id == id)
    && (id in s.deletes || id !in s.store)
  }

  lemma DoomedStays(s: State, c: nat, id: Id, step: Step)
    requires Doomed(s, c, id) && Aftermath(step, c, id) && Next(s, step).Some?
    ensures Doomed(Next(s, step).value, c, id)
  {
    if step.Map? {
      StaysUnmapped(s.conns[c].podPathMap, step.binds, s.conns[c].phase.edit);
    }
  }

  lemma {:induction false} DoomedForGood(s: State, c: nat, id: Id, steps: seq<Step>)
    requires Doomed(s, c, id) && RunFrom(s, steps).Some?
    requires forall step | step in steps :: Aftermath(step, c, id)
    ensures Doomed(RunFrom(s, steps).value, c, id)
  {
    if steps != [] {
      var front, step := steps[..|steps| - 1], steps[|steps| - 1];
      assert step in steps && forall x | x in front :: x in steps;
      DoomedForGood(s, c, id, front);
      DoomedStays(RunFrom(s, front).value, c, id, step);
    }
  }

  lemma NeverLeftBehind(s: State, c: nat, id: Id)
    requires Doomed(s, c, id)
    ensures !exists steps :: LeftBehind(s, c, id, steps)
  {
    forall steps ensures !LeftBehind(s, c, id, steps) {
      if RunFrom(s, steps).Some? && forall step | step in steps :: Aftermath(step, c, id) {
        DoomedForGood(s, c, id, steps);
      }
    }
  }

  /** After a teardown its connection's object can be there for good exactly when
      the handler may still create it (the pod is being looked up for a message
      that can leave the map not empty, or the object is about to be read, or has
      not been found), or when it was there before and the teardown knows no name
      to delete. */
  lemma TeardownLeaksExactly(s: State, c: nat)
    requires Inv(s) && c in s.conns && s.conns[c].live && Target(s.conns[c]).Some?
    ensures Next(s, Teardown(c)).Some?
    ensures var id := Target(s.conns[c]).value;
            (exists steps :: LeftBehind(Next(s, Teardown(c)).value, c, id, steps)) <==>
            MayCreate(s.conns[c]) || (s.conns[c].id.None? && id in s.store)
  {
    var s1, id := Next(s, Teardown(c)).value, Target(s.conns[c]).value;
    assert ConnFits(s, c) && Undeleted(s, c);
    if MayCreate(s.conns[c]) {
      var steps := LeakRuns(s, c);
    } else if s.conns[c].id.None? && id in s.store {
      StaysUnmapped(s.conns[c].podPathMap, [], s.conns[c].phase.edit);
      RunFromSnoc(s1, [], Map(c, [], false));
      assert LeftBehind(s1, c, id, [] + [Map(c, [], false)]);
    } else {
      NeverLeftBehind(s1, c, id);
    }
  }

  /** A message read after the teardown and its delete can bring the object back
      exactly when it can leave the map not empty, or the object is there. */
  lemma LateMessageLeaksExactly(s: State, c: nat, channel: Str, edit: Edit)
    requires c in s.conns && !s.conns[c].live && CrId(channel) !in s.deletes
    requires Next(s, Receive(c, channel, edit)).Some?
    ensures (exists steps :: LeftBehind(Next(s, Receive(c, channel, edit)).value, c, CrId(channel), steps)) <==>
            MayMap(s.conns[c].podPathMap, edit) || CrId(channel) in s.store
  {
    var s1, id := Next(s, Receive(c, channel, edit)).value, CrId(channel);
    if MayMap(s.conns[c].podPathMap, edit) {
      var steps := CreatedLate(s1, [], c, id);
    } else if id in s.store {
      StaysUnmapped(s.conns[c].podPathMap, [], edit);
      RunFromSnoc(s1, [], Map(c, [], false));
      assert LeftBehind(s1, c, id, [] + [Map(c, [], false)]);
    } else {
      NeverLeftBehind(s1, c, id);
    }
  }

  lemma LeakRuns(s: State, c: nat) returns (steps: seq<Step>)
    requires c in s.conns && s.conns[c].live && MayCreate(s.conns[c])
    requires ConnFits(s, c) && Undeleted(s, c)
    ensures LeftBehind(Next(s, Teardown(c)).value, c, s.conns[c].phase.id, steps)
  {
    var s1, id := Next(s, Teardown(c)).value, s.conns[c].phase.id;
    assert Needs(s.conns[c], id);
    if s.conns[c].id.Some? {
      DeleteRuns(s1, id);
      steps := CreatedLate(s1, [RunDelete(id, false)], c, id);
    } else {
      steps := CreatedLate(s1, [], c, id);
    }
  }

  lemma DeleteRuns(s1: State, id: Id)
    requires s1.deletes[id] == 1
    ensures RunFrom(s1, [RunDelete(id, false)]).Some?
    ensures var s2 := RunFrom(s1, [RunDelete(id, false)]).value;
            s2.conns == s1.conns && s2.store == s1.store - {id} && id !in s2.deletes
  {
    assert [RunDelete(id, false)] == [] + [RunDelete(id, false)];
    RunFromSnoc(s1, [], RunDelete(id, false));
  }

  /** A pod for which the map does not stay empty. */
  lemma SomePod(m: PathMap, e: Edit) returns (binds: seq<Bind>)
    requires MayMap(m, e)
    ensures HostsGiven(binds) && PutMounts(m, binds, e) != map[]
  {
    if m != map[] {
      binds := [];
    } else {
      var b := Bind([SLASH], e.keys[0]);
      binds := [b];
      PutMountsKeys(m, binds, e);
      assert b in binds && Image(b, e.keys[0]) == Some(([SLASH], e.keys[0]));
      assert [SLASH] in Images(binds, e.keys[0]) && e.keys[0] in Elems(e.keys);
      assert [SLASH] in PutMounts(m, binds, e).Keys;
    }
  }

  /** `before` has run, and has left the connection in this phase. */
  predicate HasCome(s1: State, before: seq<Step>, c: nat, id: Id) {
    && (forall step | step in before :: Aftermath(step, c, id))
    && RunFrom(s1, before).Some?
    && var s2 := RunFrom(s1, before).value;
       c in s2.conns && id !in s2.deletes && !s2.conns[c].phase.Ready? && s2.conns[c].phase.id == id
  }

  lemma PutLate(s1: State, before: seq<Step>, c: nat, id: Id) returns (steps: seq<Step>)
    requires HasCome(s1, before, c, id)
    requires RunFrom(s1, before).value.conns[c].phase == Writing(id, id in RunFrom(s1, before).value.store)
    ensures LeftBehind(s1, c, id, steps)
  {
    var order := Enumeration(RunFrom(s1, before).value.conns[c].podPathMap.Keys);
    RunFromSnoc(s1, before, Put(c, FSWatcher([], [], order), false));
    steps := before + [Put(c, FSWatcher([], [], order), false)];
  }

  lemma GetLate(s1: State, before: seq<Step>, c: nat, id: Id) returns (steps: seq<Step>)
    requires HasCome(s1, before, c, id) && RunFrom(s1, before).value.conns[c].phase.Getting?
    ensures LeftBehind(s1, c, id, steps)
  {
    RunFromSnoc(s1, before, Get(c, false));
    steps := PutLate(s1, before + [Get(c, false)], c, id);
  }

  /** The rest of the handler, after the delete if there is one. */
  lemma CreatedLate(s1: State, before: seq<Step>, c: nat, id: Id) returns (steps: seq<Step>)
    requires HasCome(s1, before, c, id) && MayCreate(RunFrom(s1, before).value.conns[c])
    requires RunFrom(s1, before).value.conns[c].phase.Writing? ==> id !in RunFrom(s1, before).value.store
    ensures LeftBehind(s1, c, id, steps)
  {
    var conn := RunFrom(s1, before).value.conns[c];
    if conn.phase.Writing? {
      steps := PutLate(s1, before, c, id);
    } else if conn.phase.Getting? {
      steps := GetLate(s1, before, c, id);
    } else {
      var binds := SomePod(conn.podPathMap, conn.phase.edit);
      RunFromSnoc(s1, before, Map(c, binds, false));
      steps := GetLate(s1, before + [Map(c, binds, false)], c, id);
    }
  }

  // ------------------------------------------------- runs that get there

  lemma WatchRuns(steps: seq<Step>, c: nat, channel: Str, binds: seq<Bind>, edit: Edit, cr: FSWatcher)
    returns (more: seq<Step>)
    requires Exec(steps).Some? && HostsGiven(binds) && HasPod(channel)
    requires c in Exec(steps).value.conns && Exec(steps).value.conns[c].live && Exec(steps).value.conns[c].phase.Ready?
    requires PutMounts(Exec(steps).value.conns[c].podPathMap, binds, edit) != map[]
    requires Elems(cr.paths) == PutMounts(Exec(steps).value.conns[c].podPathMap, binds, edit).Keys
    ensures var s := Exec(steps).value;
            Exec(more) == Some(s.(
                 conns := s.conns[c := s.conns[c].(podPathMap := PutMounts(s.conns[c].podPathMap, binds, edit),
                                                    id := Some(CrId(channel)), agreed := true)],
                 store := s.store[CrId(channel) := cr]))
  {
    ExecSnoc(steps, Receive(c, channel, edit));
    more := steps + [Receive(c, channel, edit)];
    ExecSnoc(more, Map(c, binds, false));
    more := more + [Map(c, binds, false)];
    ExecSnoc(more, Get(c, false));
    more := more + [Get(c, false)];
    ExecSnoc(more, Put(c, cr, false));
    more := more + [Put(c, cr, false)];
    var s, s' := Exec(steps).value, Exec(more).value;
    assert s'.conns == s.conns[c := s'.conns[c]];
  }

  /** A volume mounted at `mount`, and a WATCH of the mount itself. */
  lemma MountWatched(host: Str, mount: Str)
    requires host != []
    ensures PutMounts(map[], [Bind(host, mount)], Edit(true, [mount])) == map[host := mount] != map[]
  {
    assert host in map[host := mount];
    var b, e := Bind(host, mount), Edit(true, [mount]);
    assert [b][..0] == [] && [mount][..0] == [];
    assert PutKeys(map[], b, [mount], true) == map[host := mount];
  }

  lemma Connected(steps: seq<Step>, c: nat)
    requires Exec(steps).Some? && c !in Exec(steps).value.conns
    ensures Exec(steps + [Connect(c)]) == Some(With(Exec(steps).value, c, Conn(map[], true, None, Ready, false)))
  {
    ExecSnoc(steps, Connect(c));
  }

  /** The handler returns nil for a first WATCH of a mount. */
  lemma FirstWatch(steps: seq<Step>, c: nat, channel: Str, host: Str, mount: Str) returns (more: seq<Step>)
    requires Exec(steps).Some? && HasPod(channel) && host != []
    requires c !in Exec(steps).value.conns
    ensures var s := Exec(steps).value;
            Exec(more) == Some(s.(conns := s.conns[c :=
                                    Conn(map[host := mount], true, Some(CrId(channel)), Ready, true)],
                                  store := s.store[CrId(channel) := FSWatcher([], [], [host])]))
  {
    Connected(steps, c);
    MountWatched(host, mount);
    assert Elems([host]) == {host};
    var cr := FSWatcher([], [], [host]);
    more := WatchRuns(steps + [Connect(c)], c, channel, [Bind(host, mount)], Edit(true, [mount]), cr);
    assert Exec(more).value.conns == Exec(steps).value.conns[c := Exec(more).value.conns[c]];
  }

  /** Two channels with one object name: both handlers return nil, and the
      first connection's paths are no longer listed. */
  lemma SharedNameLosesPaths(a: Str, b: Str, host1: Str, host2: Str, mount: Str) returns (steps: seq<Step>)
    requires HasPod(a) && HasPod(b) && CrId(a) == CrId(b) && host1 != [] && host2 != [] && host1 != host2
    ensures Exec(steps).Some?
    ensures var s := Exec(steps).value;
            && 0 in s.conns && s.conns[0].live && s.conns[0].agreed
            && 1 in s.conns && s.conns[1].live && s.conns[1].agreed
            && !Agrees(s, CrId(a), s.conns[0].podPathMap.Keys)
  {
    steps := FirstWatch([], 0, a, host1, mount);
    steps := FirstWatch(steps, 1, b, host2, mount);
    assert host2 in Elems([host2]);
  }

  /** A client that reconnects before the delete of its last connection has run
      loses its object, although its handler returned nil. */
  lemma StaleDeleteWins(channel: Str, host: Str, mount: Str) returns (steps: seq<Step>)
    requires HasPod(channel) && host != []
    ensures Exec(steps).Some?
    ensures var s := Exec(steps).value;
            1 in s.conns && s.conns[1].live && s.conns[1].agreed && s.conns[1].id == Some(CrId(channel))
            && CrId(channel) !in s.store
  {
    var id := CrId(channel);
    steps := FirstWatch([], 0, channel, host, mount);
    ExecSnoc(steps, Teardown(0));
    steps := FirstWatch(steps + [Teardown(0)], 1, channel, host, mount);
    ExecSnoc(steps, RunDelete(id, false));
    steps := steps + [RunDelete(id, false)];
  }

  lemma HalfWatched(channel: Str, host: Str, mount: Str) returns (steps: seq<Step>)
    requires HasPod(channel) && host != []
    ensures var id := CrId(channel);
            Exec(steps) == Some(State(map[0 := Conn(map[host := mount], true, Some(id), Writing(id, false), false)],
                                      map[], multiset{}, {}))
  {
    Connected([], 0);
    MountWatched(host, mount);
    var receive, look := Receive(0, channel, Edit(true, [mount])), Map(0, [Bind(host, mount)], false);
    steps := [] + [Connect(0)];
    ExecSnoc(steps, receive);       steps := steps + [receive];
    ExecSnoc(steps, look);          steps := steps + [look];
    ExecSnoc(steps, Get(0, false)); steps := steps + [Get(0, false)];
    assert Exec(steps).value.conns == map[0 := Exec(steps).value.conns[0]];
  }

  /** A teardown in the middle of the handler that creates the object leaves it
      behind: no connection, no delete to come. */
  lemma MidHandlerTeardownLeaks(channel: Str, host: Str, mount: Str) returns (steps: seq<Step>)
    requires HasPod(channel) && host != []
    ensures Exec(steps).Some?
    ensures CrId(channel) in Exec(steps).value.store && !Owned(Exec(steps).value, CrId(channel))
  {
    var id, cr := CrId(channel), FSWatcher([], [], [host]);
    steps := HalfWatched(channel, host, mount);
    ExecSnoc(steps, Teardown(0));          steps := steps + [Teardown(0)];
    ExecSnoc(steps, RunDelete(id, false)); steps := steps + [RunDelete(id, false)];
    assert Elems([host]) == {host};
    ExecSnoc(steps, Put(0, cr, false));    steps := steps + [Put(0, cr, false)];
    assert Exec(steps).value.conns.Keys == {0};
  }
}
