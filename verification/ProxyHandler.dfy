/** The reader of ProxyClient leaves open what map the handler computes. Here it
    is the handler's: over runs of the whole proxy the path map of a client is
    the one of Mapping, and events get the names of Naming
    (k8s/cmd/fsnotify-proxy/app/app.go, k8s/cmd/fsnotify-proxy/app/helper.go). */
module ProxyHandler {
  import opened Prelude
  import opened Wire
  import opened Mapping
  import opened ProxyClient
  import opened ProxySystem
  import L = LastWatch
  import N = Naming

  /** The map that client `c`'s reader installs in a step, if it does. */
  function SetBy(s: Sys, step: Step, c: Cid): Option<PathMap> {
    if step.Local? && step.c == c && step.l.Run? && step.l.ch.SetMap? && c in s.clients
       && step.l.t == Reader && Reader in s.clients[c].threads && s.clients[c].threads[Reader] == Listen(Editing)
    then Some(step.l.ch.m)
    else None
  }

  /** All maps it has installed, in order. */
  function MapsSet(steps: seq<Step>, c: Cid): seq<PathMap> {
    if steps == [] then []
    else
      var front := steps[..|steps| - 1];
      MapsSet(front, c) +
      match Exec(front)
      case None => []
      case Some(s) =>
        match SetBy(s, steps[|steps| - 1], c)
        case None => []
        case Some(m) => [m]
  }

  function LastOr(ms: seq<PathMap>, m: PathMap): PathMap {
    if ms == [] then m else ms[|ms| - 1]
  }

  lemma ThreadSetsMap(c: Client, t: Tid, ch: Choice)
    requires ThreadStep(c, t, ch).Some?
    ensures ThreadStep(c, t, ch).value.w.podPathMap ==
            if t == Reader && c.threads[t] == Listen(Editing) && ch.SetMap? then ch.m else c.w.podPathMap
  {
  }

  lemma StepSetsMap(s: Sys, step: Step, c: Cid)
    requires c in s.clients && SysNext(s, step).Some?
    ensures c in SysNext(s, step).value.clients
    ensures SysNext(s, step).value.clients[c].w.podPathMap ==
            match SetBy(s, step, c) { case Some(m) => m case None => s.clients[c].w.podPathMap }
  {
    if step.Local? && step.c == c {
      if step.l.Run? {
        ThreadSetsMap(s.clients[c], step.l.t, step.l.ch);
      }
    } else {
      var l := ClientMoves(s, step, c);
    }
  }

  /** The fan-out, the timers and the other clients never touch the map. */
  lemma {:induction false} MapIsLastSet(steps: seq<Step>, c: Cid)
    requires Exec(steps).Some?
    ensures c !in Exec(steps).value.clients ==> MapsSet(steps, c) == []
    ensures c in Exec(steps).value.clients ==>
              Exec(steps).value.clients[c].w.podPathMap == LastOr(MapsSet(steps, c), map[])
  {
    if steps != [] {
      var front, step := steps[..|steps| - 1], steps[|steps| - 1];
      var s := Exec(front).value;
      MapIsLastSet(front, c);
      if c in s.clients {
        StepSetsMap(s, step, c);
      } else if c in Exec(steps).value.clients {
        OnlyAcceptAdds(s, step, c);
      }
    }
  }

  // ------------------------------------------------------------ the handler

  /** The maps one message installs: one for each mount, under the mutex. */
  function MountMaps(m: PathMap, binds: seq<Bind>, e: Edit): seq<PathMap>
    requires HostsGiven(binds)
  {
    if binds == [] then [] else MountMaps(m, binds[..|binds| - 1], e) + [PutMounts(m, binds, e)]
  }

  function HandlerMaps(binds: seq<Bind>, edits: seq<Edit>): seq<PathMap>
    requires HostsGiven(binds)
  {
    if edits == [] then []
    else
      var front := edits[..|edits| - 1];
      HandlerMaps(binds, front) + MountMaps(MapAfter(binds, front), binds, edits[|edits| - 1])
  }

  lemma {:induction false} HandlerEndsIn(binds: seq<Bind>, edits: seq<Edit>)
    requires HostsGiven(binds)
    ensures LastOr(HandlerMaps(binds, edits), map[]) == MapAfter(binds, edits)
  {
    if edits != [] {
      HandlerEndsIn(binds, edits[..|edits| - 1]);
    }
  }

  /** When the reader has installed what the handler computes for the messages so
      far, the map in force is MapAfter of those messages. */
  lemma RunningMap(steps: seq<Step>, c: Cid, binds: seq<Bind>, edits: seq<Edit>)
    requires Exec(steps).Some? && c in Exec(steps).value.clients
    requires HostsGiven(binds) && MapsSet(steps, c) == HandlerMaps(binds, edits)
    ensures Exec(steps).value.clients[c].w.podPathMap == MapAfter(binds, edits)
  {
    MapIsLastSet(steps, c);
    HandlerEndsIn(binds, edits);
  }

  /** Then, whoever sends it, an event on an entry `b` of node path `p` leaves the
      translation as the entry `b` of the path watched last for `p`. */
  lemma RunningTranslation(steps: seq<Step>, c: Cid, t: Tid, k: Kont, binds: seq<Bind>, edits: seq<Edit>,
      n: nat, i: nat, j: nat, p: Str, b: Str, op: uint32)
    requires Exec(steps).Some? && c in Exec(steps).value.clients
    requires HostsGiven(binds) && MapsSet(steps, c) == HandlerMaps(binds, edits)
    requires L.LastWatched(binds, edits, n, i, j, p) && !LosesSlash(binds[i], edits[n].keys[j]) && SLASH !in b
    requires var name := p + [SLASH] + b;
             SendStep(Exec(steps).value.clients[c], t, Translating(Event(name, op, N.KeyOf(name))), k, Go).Some?
    ensures var name, cl := p + [SLASH] + b, Exec(steps).value.clients[c];
            var cl' := SendStep(cl, t, Translating(Event(name, op, N.KeyOf(name))), k, Go).value;
            && t in cl'.threads
            && cl'.threads[t] == Send(Probe(Event(edits[n].keys[j] + [SLASH] + b, op, p)), k)
  {
    RunningMap(steps, c, binds, edits);
    L.LastWatchWins(binds, edits, n, i, j, p);
    StoredPathIsWatchedPath(binds[i], edits[n].keys[j]);
    N.KeyOfEntry(p, b);
    N.TranslatesEntry(MapAfter(binds, edits), edits[n].keys[j], p, b, op);
  }

  // ------------------------------------------- the handler is such a reader

  /** The reader alone takes these steps. */
  function ReaderRuns(c: Client, choices: seq<Choice>): Option<Client> {
    if choices == [] then Some(c)
    else
      match ReaderRuns(c, choices[..|choices| - 1])
      case None => None
      case Some(c1) => ThreadStep(c1, Reader, choices[|choices| - 1])
  }

  /** After the message is read: for each mount, lock and install. */
  function MountChoices(m: PathMap, binds: seq<Bind>, e: Edit, more: bool): seq<Choice>
    requires HostsGiven(binds)
  {
    if binds == [] then []
    else MountChoices(m, binds[..|binds| - 1], e, true) + [Go] + [SetMap(PutMounts(m, binds, e), more)]
  }

  lemma ReaderSnoc(c: Client, choices: seq<Choice>, ch: Choice)
    requires ReaderRuns(c, choices).Some?
    ensures ReaderRuns(c, choices + [ch]) == ThreadStep(ReaderRuns(c, choices).value, Reader, ch)
  {
    assert (choices + [ch])[..|choices|] == choices;
  }

  predicate ReaderAt(c: Client, l: ListenPc, m: PathMap) {
    Reader in c.threads && c.threads[Reader] == Listen(l) && c.w.mu == Lock({}, None) && c.w.podPathMap == m
  }

  lemma OneMountRuns(c: Client, before: seq<Choice>, m: PathMap, more: bool)
    requires ReaderRuns(c, before).Some?
    requires ReaderAt(ReaderRuns(c, before).value, EditWant, ReaderRuns(c, before).value.w.podPathMap)
    ensures var c2 := ReaderRuns(c, before + [Go] + [SetMap(m, more)]);
            c2.Some? && ReaderAt(c2.value, if more then EditWant else Reading, m)
  {
    LocksAndSets(ReaderRuns(c, before).value, m, more);
    ReaderSnoc(c, before, Go);
    ReaderSnoc(c, before + [Go], SetMap(m, more));
  }

  lemma LocksAndSets(c: Client, m: PathMap, more: bool)
    requires ReaderAt(c, EditWant, c.w.podPathMap)
    ensures ThreadStep(c, Reader, Go).Some?
    ensures var c2 := ThreadStep(ThreadStep(c, Reader, Go).value, Reader, SetMap(m, more));
            c2.Some? && ReaderAt(c2.value, if more then EditWant else Reading, m)
  {
  }

  lemma {:induction false} MountsRun(c: Client, binds: seq<Bind>, e: Edit, more: bool)
    requires HostsGiven(binds) && binds != [] && ReaderAt(c, EditWant, c.w.podPathMap)
    ensures var choices := MountChoices(c.w.podPathMap, binds, e, more);
            ReaderRuns(c, choices).Some?
            && ReaderAt(ReaderRuns(c, choices).value, if more then EditWant else Reading,
                        PutMounts(c.w.podPathMap, binds, e))
    decreases |binds|
  {
    var m, front := c.w.podPathMap, binds[..|binds| - 1];
    var before := MountChoices(m, front, e, true);
    if front != [] {
      MountsRun(c, front, e, true);
    }
    OneMountRuns(c, before, PutMounts(m, binds, e), more);
  }

  /** The handler's own steps, uninterrupted: the reader is back at reading with
      the message applied under all mounts. */
  lemma HandlerIsARun(c: Client, binds: seq<Bind>, e: Edit)
    requires HostsGiven(binds) && binds != [] && ReaderAt(c, Reading, c.w.podPathMap)
    ensures var c1 := ThreadStep(c, Reader, Go);
            c1.Some? && ReaderAt(c1.value, EditWant, c.w.podPathMap)
    ensures var c1 := ThreadStep(c, Reader, Go).value;
            var c2 := ReaderRuns(c1, MountChoices(c.w.podPathMap, binds, e, false));
            c2.Some? && ReaderAt(c2.value, Reading, PutMounts(c.w.podPathMap, binds, e))
  {
    MountsRun(ThreadStep(c, Reader, Go).value, binds, e, false);
  }
}
