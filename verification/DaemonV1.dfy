/** The first daemon's incremental watch diff
    (k8s/cmd/fsnotify-daemon/app/app.go): an incremental form of "watch the
    union of all FSWatcher paths". */
module DaemonV1 {
  import opened Prelude
  import opened Wire
  import W = WatchMessage
  import Registry
  import ChannelId

  datatype Action = Add | Update | Delete

  /** The objects in the lister's cache, or in the cluster. */
  type Objects = map<Registry.Id, Registry.FSWatcher>

  /** The paths of all objects. */
  function Union(objs: Objects): set<Str> {
    set id, p | id in objs && p in objs[id].paths :: p
  }

  /** watchedPaths: the paths of all objects but one. */
  function Others(objs: Objects, id: Registry.Id): set<Str> {
    Union(objs - {id})
  }

  // ---------------------------------------------------- what an action does

  function AfterAdd(j: set<Str>, others: set<Str>, paths: seq<Str>): set<Str> {
    j + (Elems(paths) - others)
  }

  function AfterDel(j: set<Str>, others: set<Str>, paths: seq<Str>): set<Str> {
    j - (Elems(paths) - others)
  }

  /** The set JuiceFS watches after an action, given what the lister holds and
      the object handed over: the old one for an UPDATE. An UPDATE whose object
      the lister no longer has dereferences nil after the first half. */
  function Diff(j: set<Str>, lister: Objects, action: Action, id: Registry.Id, paths: seq<Str>): set<Str> {
    var others := Others(lister, id);
    match action
    case Add => AfterAdd(j, others, paths)
    case Delete => AfterDel(j, others, paths)
    case Update =>
      if id in lister then AfterAdd(AfterDel(j, others, paths), others, lister[id].paths)
      else AfterDel(j, others, paths)
  }

  lemma UnionSplit(objs: Objects, id: Registry.Id)
    ensures Union(objs) == Others(objs, id) + (if id in objs then Elems(objs[id].paths) else {})
  {
    if id in objs {
      assert objs == (objs - {id})[id := objs[id]];
      forall p | p in objs[id].paths ensures p in Union(objs) {}
    } else {
      assert objs - {id} == objs;
    }
  }

  /** Whatever object is handed over and whatever the lister shows by then: ADD
      ends in the union exactly when the paths of the others were watched and no
      path of nobody, when the object has no path that is not listed, and when the
      listed paths were watched or are its own. */
  lemma AddExactly(j: set<Str>, lister: Objects, id: Registry.Id, paths: seq<Str>)
    ensures Diff(j, lister, Add, id, paths) == Union(lister) <==>
            && Others(lister, id) <= j <= Union(lister)
            && Elems(paths) <= Union(lister) <= j + Elems(paths)
  {
    UnionSplit(lister, id);
    var o, u, p := Others(lister, id), Union(lister), Elems(paths);
    forall x ensures (x in AfterAdd(j, o, paths) <==> x in u) <==>
                     (x in o ==> x in j) && (x in j ==> x in u) && (x in p ==> x in u) && (x in u ==> x in j || x in p)
    {
    }
  }

  /** DELETE, when all listed paths were watched and nothing but the deleted
      object's besides, and of those paths only others' are listed. */
  lemma DeleteExactly(j: set<Str>, lister: Objects, id: Registry.Id, paths: seq<Str>)
    ensures Diff(j, lister, Delete, id, paths) == Union(lister) <==>
            && Union(lister) <= j <= Union(lister) + Elems(paths)
            && Elems(paths) * Union(lister) <= Others(lister, id)
  {
    UnionSplit(lister, id);
    var o, u, p := Others(lister, id), Union(lister), Elems(paths);
    forall x ensures (x in AfterDel(j, o, paths) <==> x in u) <==>
                     (x in u ==> x in j) && (x in j ==> x in u || x in p) && (x in p && x in u ==> x in o)
    {
    }
  }

  /** UPDATE, listed or gone, when the paths of the others were watched and
      nothing but listed paths and the old object's besides. */
  lemma UpdateExactly(j: set<Str>, lister: Objects, id: Registry.Id, paths: seq<Str>)
    ensures Diff(j, lister, Update, id, paths) == Union(lister) <==>
            Others(lister, id) <= j <= Union(lister) + Elems(paths)
  {
    UnionSplit(lister, id);
    var o, u, p, r := Others(lister, id), Union(lister), Elems(paths), Diff(j, lister, Update, id, paths);
    forall x ensures (x in r <==> x in u) <==> (x in o ==> x in j) && (x in j ==> x in u || x in p) {
    }
  }

  // ------------------------------------------------------------------ runs

  datatype State = State(objs: Objects, connected: bool, juice: set<Str>)

  const INIT := State(map[], false, {})

  /** A change of the cluster, handled while the lister shows just that change;
      or JuiceFS going away, to come back with whatever set. */
  datatype Change =
    | Created(id: Registry.Id, w: Registry.FSWatcher)
    | Changed(id: Registry.Id, w: Registry.FSWatcher)
    | Removed(id: Registry.Id)
    | Disconnected(left: set<Str>)
    | Reconnected

  predicate Enabled(s: State, c: Change) {
    match c
    case Created(id, _) => id !in s.objs
    case Changed(id, _) => id in s.objs
    case Removed(id) => id in s.objs
    case _ => true
  }

  /** Without a connection the messages are lost. */
  function Handled(s: State, objs: Objects, action: Action, id: Registry.Id, paths: seq<Str>): State {
    State(objs, s.connected, if s.connected then Diff(s.juice, objs, action, id, paths) else s.juice)
  }

  function Next(s: State, c: Change): State
    requires Enabled(s, c)
  {
    match c
    case Created(id, w) => Handled(s, s.objs[id := w], Add, id, w.paths)
    case Changed(id, w) => Handled(s, s.objs[id := w], Update, id, s.objs[id].paths)
    case Removed(id) => Handled(s, s.objs - {id}, Delete, id, s.objs[id].paths)
    case Disconnected(left) => State(s.objs, false, left)
    case Reconnected => State(s.objs, true, Union(s.objs))
  }

  function Exec(changes: seq<Change>): Option<State> {
    if changes == [] then Some(INIT)
    else
      match Exec(changes[..|changes| - 1])
      case None => None
      case Some(s) => if Enabled(s, changes[|changes| - 1]) then Some(Next(s, changes[|changes| - 1])) else None
  }

  lemma OthersUnchanged(objs: Objects, id: Registry.Id, w: Registry.FSWatcher)
    ensures Others(objs[id := w], id) == Others(objs, id) == Others(objs - {id}, id)
  {
    assert objs[id := w] - {id} == objs - {id} == objs - {id} - {id};
  }

  lemma NextKeepsUnion(s: State, c: Change)
    requires Enabled(s, c) && (s.connected ==> s.juice == Union(s.objs))
    ensures Next(s, c).connected ==> Next(s, c).juice == Union(Next(s, c).objs)
  {
    match c
    case Created(id, w) =>
      OthersUnchanged(s.objs, id, w);
      UnionSplit(s.objs, id);
      UnionSplit(s.objs[id := w], id);
      AddExactly(s.juice, s.objs[id := w], id, w.paths);
    case Changed(id, w) =>
      OthersUnchanged(s.objs, id, w);
      UnionSplit(s.objs, id);
      UpdateExactly(s.juice, s.objs[id := w], id, s.objs[id].paths);
    case Removed(id) =>
      OthersUnchanged(s.objs, id, s.objs[id]);
      UnionSplit(s.objs, id);
      DeleteExactly(s.juice, s.objs - {id}, id, s.objs[id].paths);
    case _ =>
  }

  /** With the lister in step, what JuiceFS watches while connected is the union
      of all objects' paths, after any history of changes and reconnects. */
  lemma {:induction false} DiffIsUnion(changes: seq<Change>)
    requires Exec(changes).Some? && Exec(changes).value.connected
    ensures Exec(changes).value.juice == Union(Exec(changes).value.objs)
  {
    if changes != [] {
      if Exec(changes[..|changes| - 1]).value.connected {
        DiffIsUnion(changes[..|changes| - 1]);
      }
      NextKeepsUnion(Exec(changes[..|changes| - 1]).value, changes[|changes| - 1]);
    }
  }

  /** A lister ahead of the queue breaks it: when two new objects share a path
      and both are listed before the first ADD is handled, each ADD leaves the
      path to the other, and nobody watches it. */
  lemma ListerAheadLosesWatch(a: Registry.Id, b: Registry.Id, w: Registry.FSWatcher)
    requires a != b && w.paths != []
    ensures var lister := map[a := w, b := w];
            var j := Diff(Diff({}, lister, Add, a, w.paths), lister, Add, b, w.paths);
            j == {} != Union(lister)
  {
    var lister := map[a := w, b := w];
    assert lister - {a} == map[b := w] && lister - {b} == map[a := w];
    assert Others(lister, a) == Elems(w.paths) by { assert b in map[b := w]; }
    assert Others(lister, b) == Elems(w.paths) by { assert a in map[a := w]; }
    assert w.paths[0] in lister[a].paths;
    assert w.paths[0] in Union(lister);
  }

  // -------------------------------------------------- the code's own loops

  /** What JuiceFS at the other end of the pipe makes of a message. */
  function Juice(j: set<Str>, msgType: int, data: Str): set<Str> {
    var (_, paths) := W.NameAndKeys(W.SlotStrings(data));
    if msgType == MSG_CLEAR then {}
    else if msgType == MSG_WATCH then j + Elems(paths)
    else if msgType == MSG_UNWATCH then j - Elems(paths)
    else j
  }

  lemma JuiceReads(name: Str, paths: seq<Str>)
    requires W.AllSlotValid(paths)
    ensures W.NameAndKeys(W.SlotStrings(W.Payload(name, paths))).1 == paths
  {
    var all := [name] + paths;
    W.SlotStringsOfSlots(all);
    forall i | 0 <= i < |paths| ensures Trim(Slot(all[i + 1])) == paths[i] {
      SlotRoundTrip(paths[i]);
    }
    assert W.SlotStrings(W.Payload(name, paths))[1..] == paths;
  }

  /** The paths nobody else watches, in order. */
  function Missing(paths: seq<Str>, watched: set<Str>): seq<Str> {
    if paths == [] then []
    else
      var p := paths[|paths| - 1];
      Missing(paths[..|paths| - 1], watched) + (if p in watched then [] else [p])
  }

  lemma {:induction false} MissingElems(paths: seq<Str>, watched: set<Str>)
    ensures Elems(Missing(paths, watched)) == Elems(paths) - watched
  {
    if paths != [] {
      var front, p := paths[..|paths| - 1], paths[|paths| - 1];
      MissingElems(front, watched);
      assert paths == front + [p];
      assert Elems(paths) == Elems(front) + {p};
      if p in watched {
        assert Missing(paths, watched) == Missing(front, watched);
      } else {
        assert Elems(Missing(front, watched) + [p]) == Elems(Missing(front, watched)) + {p};
      }
    }
  }

  predicate Plain(objs: Objects, paths: seq<Str>) {
    W.AllSlotValid(paths) && forall id | id in objs :: W.AllSlotValid(objs[id].paths)
  }

  /** "cluster", the name that stands for all channels. */
  const CLUSTER: Str := [99, 108, 117, 115, 116, 101, 114]

  /** One message asks for the given paths of an object that nobody else watches,
      under the object's own channel. */
  predicate Asks(m: (int, Str), msgType: int, id: Registry.Id, w: Registry.FSWatcher, others: set<Str>) {
    && m.0 == msgType
    && W.SlotStrings(m.1) ==
       [Trim(Slot(ChannelId.GetChanId(id.0, id.1, w.pod, w.container)))] + Slotted(Missing(w.paths, others))
  }

  /** Strings as they fit their slots. */
  function Slotted(ss: seq<Str>): seq<Str> {
    seq(|ss|, i requires 0 <= i < |ss| => Trim(Slot(ss[i])))
  }

  lemma PayloadReads(name: Str, paths: seq<Str>)
    ensures W.SlotStrings(W.Payload(name, paths)) == [Trim(Slot(name))] + Slotted(paths)
  {
    W.SlotStringsOfSlots([name] + paths);
  }

  /** What a message channel to JuiceFS has taken since. */
  function Since(sent: seq<(int, Str)>, was: seq<(int, Str)>): seq<(int, Str)>
    requires was <= sent
  {
    sent[|was|..]
  }

  /** `piped` is history: the messages written to JuiceFS. */
  class App {
    var lister: Objects
    var connected: bool
    var juice: set<Str>
    ghost var piped: seq<(int, Str)>

    constructor (lister: Objects)
      ensures this.lister == lister && !connected && juice == {} && piped == []
    {
      this.lister, connected, juice, piped := lister, false, {}, [];
    }

    /** ipcClient.Write; its error is only logged. */
    method Write(msgType: int, data: Str, fails: bool)
      modifies this`juice, this`piped
      ensures juice == if fails then old(juice) else Juice(old(juice), msgType, data)
      ensures piped == old(piped) + (if fails then [] else [(msgType, data)])
    {
      if !fails {
        juice := Juice(juice, msgType, data);
        piped := piped + [(msgType, data)];
      }
    }

    /** The loop over the lister at the head of SyncWatches. */
    method WatchedPaths(id: Registry.Id) returns (watched: set<Str>, self: Option<Registry.FSWatcher>)
      ensures watched == Others(lister, id)
      ensures self == if id in lister then Some(lister[id]) else None
    {
      watched, self := {}, None;
      var rest := lister.Keys;
      while rest != {}
        invariant rest <= lister.Keys
        invariant watched == Union(map l | l in lister && l !in rest && l != id :: lister[l])
        invariant self == if id in lister && id !in rest then Some(lister[id]) else None
        decreases rest
      {
        var l :| l in rest;
        ghost var seen := map x | x in lister && x !in rest && x != id :: lister[x];
        if l == id {
          self := Some(lister[l]);
          assert seen == map x | x in lister && x !in rest - {l} && x != id :: lister[x];
        } else {
          watched := watched + Elems(lister[l].paths);
          ghost var more := map x | x in lister && x !in rest - {l} && x != id :: lister[x];
          UnionSplit(more, l);
          assert more - {l} == seen;
        }
        rest := rest - {l};
      }
      assert (map l | l in lister && l !in {} && l != id :: lister[l]) == lister - {id};
    }

    /** addWatch and delWatch: a slot for the channel, then one for each path
        that is not watched for anyone else. */
    method Pack(chanId: Str, paths: seq<Str>, watched: set<Str>) returns (data: Str)
      ensures data == W.Payload(chanId, Missing(paths, watched))
    {
      data := FillSlot(chanId);
      assert W.Slots([chanId]) == Slot(chanId) + W.Slots([]) == Slot(chanId);
      assert [chanId] + [] == [chanId];
      for i := 0 to |paths|
        invariant data == W.Payload(chanId, Missing(paths[..i], watched))
      {
        assert paths[..i + 1][..i] == paths[..i];
        if paths[i] !in watched {
          var b := FillSlot(paths[i]);
          data := data + b;
          W.SlotsAppend([chanId] + Missing(paths[..i], watched), paths[i]);
          assert [chanId] + (Missing(paths[..i], watched) + [paths[i]]) ==
                 [chanId] + Missing(paths[..i], watched) + [paths[i]];
        } else {
          assert Missing(paths[..i], watched) + [] == Missing(paths[..i], watched);
        }
      }
      assert paths[..|paths|] == paths;
    }

    method Send(msgType: int, id: Registry.Id, w: Registry.FSWatcher, watched: set<Str>)
      requires msgType == MSG_WATCH || msgType == MSG_UNWATCH
      modifies this`juice, this`piped
      ensures !connected ==> juice == old(juice) && piped == old(piped)
      ensures connected ==>
                && old(piped) <= piped
                && var sent := Since(piped, old(piped)); |sent| == 1 && Asks(sent[0], msgType, id, w, watched)
      ensures connected && W.AllSlotValid(w.paths) ==>
                juice == if msgType == MSG_WATCH then AfterAdd(old(juice), watched, w.paths)
                         else AfterDel(old(juice), watched, w.paths)
    {
      var data := Pack(ChannelId.GetChanId(id.0, id.1, w.pod, w.container), w.paths, watched);
      MissingElems(w.paths, watched);
      if W.AllSlotValid(w.paths) {
        forall p | p in Missing(w.paths, watched) ensures SlotValid(p) { assert p in Elems(Missing(w.paths, watched)); }
        JuiceReads(ChannelId.GetChanId(id.0, id.1, w.pod, w.container), Missing(w.paths, watched));
      }
      PayloadReads(ChannelId.GetChanId(id.0, id.1, w.pod, w.container), Missing(w.paths, watched));
      Write(msgType, data, !connected);
    }

    /** SyncWatches; `panics` is the nil watcherSelf of an UPDATE whose object has
        left the lister. */
    method SyncWatches(action: Action, id: Registry.Id, w: Registry.FSWatcher, listFails: bool) returns (panics: bool)
      modifies this`juice, this`piped
      ensures panics <==> !listFails && action == Update && id !in lister
      ensures !connected || listFails ==> juice == old(juice) && piped == old(piped)
      ensures connected && !listFails ==> old(piped) <= piped
      ensures connected && !listFails ==>
                var sent, others := Since(piped, old(piped)), Others(lister, id);
                match action
                case Add => |sent| == 1 && Asks(sent[0], MSG_WATCH, id, w, others)
                case Delete => |sent| == 1 && Asks(sent[0], MSG_UNWATCH, id, w, others)
                case Update =>
                  && |sent| == (if id in lister then 2 else 1) && Asks(sent[0], MSG_UNWATCH, id, w, others)
                  && (id in lister ==> Asks(sent[1], MSG_WATCH, id, lister[id], others))
      ensures connected && !listFails && Plain(lister, w.paths) ==>
                juice == Diff(old(juice), lister, action, id, w.paths)
    {
      if listFails {
        return false;
      }
      var watched, self := WatchedPaths(id);
      panics := false;
      match action
      case Add => Send(MSG_WATCH, id, w, watched);
      case Delete => Send(MSG_UNWATCH, id, w, watched);
      case Update =>
        Send(MSG_UNWATCH, id, w, watched);
        if self.None? {
          return true;
        }
        Send(MSG_WATCH, id, self.value, watched);
    }

    /** addWatchers: the pathSet of all objects. */
    method PathSet() returns (paths: set<Str>)
      ensures paths == Union(lister)
    {
      paths := {};
      var rest := lister.Keys;
      while rest != {}
        invariant rest <= lister.Keys
        invariant paths == Union(lister - rest)
        decreases rest
      {
        var l :| l in rest;
        paths := paths + Elems(lister[l].paths);
        UnionSplit(lister - (rest - {l}), l);
        assert lister - (rest - {l}) - {l} == lister - rest;
        rest := rest - {l};
      }
      assert lister - {} == lister;
    }

    /** The paths of all objects in the name of the cluster, as addWatchers packs them. */
    method PackAll() returns (data: Str, ghost list: seq<Str>)
      ensures Elems(list) == Union(lister) && data == W.Payload(CLUSTER, list)
    {
      var pathSet := PathSet();
      var all: seq<Str>, rest := [], pathSet;
      while rest != {}
        invariant Elems(all) + rest == pathSet
        decreases rest
      {
        var p :| p in rest;
        assert Elems(all + [p]) == Elems(all) + {p};
        all, rest := all + [p], rest - {p};
      }
      data := Pack(CLUSTER, all, {});
      MissingElems(all, {});
      list := Missing(all, {});
    }

    /** A WATCH, in the name of the cluster, of the paths of all objects. */
    ghost predicate AsksForAll(m: (int, Str))
      reads this
    {
      && m.0 == MSG_WATCH
      && exists list :: Elems(list) == Union(lister) && W.SlotStrings(m.1) == [CLUSTER] + Slotted(list)
    }

    lemma PackedAll(data: Str, list: seq<Str>)
      requires Elems(list) == Union(lister) && data == W.Payload(CLUSTER, list)
      ensures AsksForAll((MSG_WATCH, data))
      ensures Plain(lister, []) ==> forall j :: Juice(j, MSG_WATCH, data) == j + Union(lister)
    {
      PayloadReads(CLUSTER, list);
      SlotRoundTrip(CLUSTER);
      if Plain(lister, []) {
        forall p | p in list ensures SlotValid(p) { assert p in Elems(list); }
        JuiceReads(CLUSTER, list);
      }
    }

    /** addWatchers, the callback for a new connection to JuiceFS: CLEAR, then
        WATCH of every path, unless the lister fails. A message that is not
        written changes nothing, and the next is sent all the same. */
    method AddWatchers(clearFails: bool, listFails: bool, watchFails: bool)
      modifies this`juice, this`piped
      ensures old(piped) <= piped
      ensures var sent := Since(piped, old(piped));
              && (!clearFails ==> sent != [] && sent[0] == (MSG_CLEAR, []))
              && |sent| == (if clearFails then 0 else 1) + (if listFails || watchFails then 0 else 1)
              && (!listFails && !watchFails ==> AsksForAll(sent[|sent| - 1]))
      ensures var cleared := if clearFails then old(juice) else {};
              Plain(lister, []) ==> juice == if listFails || watchFails then cleared else cleared + Union(lister)
    {
      Write(MSG_CLEAR, [], clearFails);
      if listFails {
        return;
      }
      var data, list := PackAll();
      PackedAll(data, list);
      Write(MSG_WATCH, data, watchFails);
    }
  }
}
