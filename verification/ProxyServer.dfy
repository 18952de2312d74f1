/** The proxy's objects one call at a time: the watcher of
    k8s/cmd/fsnotify-proxy/app/helper.go, the client of
    k8s/pkg/multicast/tcpserver.go and the server of
    k8s/pkg/multicast/server.go. ProxyClient and ProxySystem interleave the
    same operations step by step. */
module ProxyServer {
  import opened Prelude
  import opened Wire
  import opened Mapping
  import D = Debounce
  import P = ProxyClient
  import Text

  datatype SendError = NoError | ErrParse | ErrClientClosed | ErrSlowConsumer

  /** A client with its watcher, without the path map. */
  datatype Side = Side(state: D.State, q: seq<Str>, done: bool, open: bool, once: bool, removes: nat)

  // --------------------------------------------------------- specification

  function FrameOf(e: Event): Str {
    PackageMsg(MSG_EVENT, Record(e))
  }

  /** shutdown */
  function Down(s: Side): Side {
    if s.once then s
    else Side(D.Close(s.state), s.q, true, false, true, if s.state.closed then s.removes else s.removes + 1)
  }

  /** SendBytes */
  function Sent(s: Side, b: Str): (Side, SendError) {
    if s.done then (s, ErrClientClosed)
    else if |s.q| < P.DEPTH then (s.(q := s.q + [b]), NoError)
    else (Down(s), ErrSlowConsumer)
  }

  /** sendEvent */
  function EventSent(s: Side, m: PathMap, e: Event): (Side, SendError) {
    if e.key in m then Sent(s, FrameOf(P.Translate(e, m))) else (s, NoError)
  }

  lemma ArmKeepsKnown(s: D.State, e: Event)
    requires D.TimersKnown(s)
    ensures D.TimersKnown(D.Arm(s, e))
  {
  }

  /** One event of a batch. */
  function One(s: Side, m: PathMap, e: Event): (r: (Side, SendError))
    requires D.TimersKnown(s.state)
    ensures D.TimersKnown(r.0.state)
  {
    if e.op == OP_WRITE then
      ArmKeepsKnown(s.state, e);
      (s.(state := D.Arm(s.state, e)), NoError)
    else EventSent(s, m, e)
  }

  /** The loop of WriteMsg: it stops at the first error. */
  function Batch(s: Side, m: PathMap, es: seq<Event>): (r: (Side, SendError))
    requires D.TimersKnown(s.state)
    ensures D.TimersKnown(r.0.state)
  {
    if es == [] then (s, NoError)
    else
      var (s1, err) := Batch(s, m, es[..|es| - 1]);
      var e := es[|es| - 1];
      if err != NoError then (s1, err)
      else One(s1, m, e)
  }

  /** WriteMsg */
  function Written(s: Side, m: PathMap, p: P.Payload): (r: (Side, SendError))
    requires D.TimersKnown(s.state)
    ensures D.TimersKnown(r.0.state)
  {
    if s.state.closed then (s, NoError) else if p.Malformed? then (s, ErrParse) else Batch(s, m, p.events)
  }

  /** flushWriteDebounce with its send. */
  function Flushed(s: Side, m: PathMap, id: nat): Side
    requires id < |s.state.timers|
  {
    var s1 := s.(state := D.RunCallback(s.state, id));
    match D.Due(s.state, id)
    case None => s1
    case Some(e) => EventSent(s1, m, e).0
  }

  lemma BatchSnoc(s: Side, m: PathMap, es: seq<Event>, e: Event)
    requires D.TimersKnown(s.state) && Batch(s, m, es).1 == NoError
    ensures Batch(s, m, es + [e]) == One(Batch(s, m, es).0, m, e)
  {
    assert (es + [e])[..|es|] == es;
  }

  /** After an error the rest of the batch has nowhere to go. */
  lemma {:induction false} StopsHere(s: Side, m: PathMap, es: seq<Event>, i: nat)
    requires D.TimersKnown(s.state) && i <= |es| && Batch(s, m, es[..i]).1 != NoError
    ensures Batch(s, m, es) == Batch(s, m, es[..i])
    decreases |es|
  {
    if i == |es| {
      assert es[..i] == es;
    } else {
      var front := es[..|es| - 1];
      assert front[..i] == es[..i];
      StopsHere(s, m, front, i);
    }
  }

  // ---------------------------------------------- what one WriteMsg achieves

  /** The frames a batch asks for: mapped and not exactly WRITE, in order. */
  function Frames(m: PathMap, es: seq<Event>): seq<Str> {
    if es == [] then []
    else
      var e := es[|es| - 1];
      Frames(m, es[..|es| - 1]) + (if e.op != OP_WRITE && e.key in m then [FrameOf(P.Translate(e, m))] else [])
  }

  predicate Healthy(s: Side) {
    !s.done && !s.once && !s.state.closed && D.TimersKnown(s.state) && |s.q| <= P.DEPTH
  }

  /** Nothing but the debounce state and the queue has changed. */
  predicate StillUp(s: Side, s': Side, frames: seq<Str>) {
    s' == s.(state := s'.state, q := s.q + frames) && !s'.state.closed
  }

  /** The queue was filled up with the first frames and the client torn down. */
  predicate Dropped(s: Side, s': Side, frames: seq<Str>) {
    && |s.q| <= P.DEPTH < |s.q| + |frames|
    && s'.q == s.q + frames[..P.DEPTH - |s.q|]
    && s'.done && !s'.open && s'.once && s'.state.closed && s'.state.pending == map[] && s'.removes == s.removes + 1
  }

  /** One batch: every frame is queued, in order, exactly when all of them fit;
      otherwise the queue is filled to 255 without a gap, and the client dropped. */
  lemma {:induction false} BatchAllOrDropped(s: Side, m: PathMap, es: seq<Event>)
    requires Healthy(s)
    ensures var (s', err) := Batch(s, m, es);
            var frames := Frames(m, es);
            && (err == NoError <==> |s.q| + |frames| <= 255)
            && (err == NoError ==> StillUp(s, s', frames))
            && (err != NoError ==> err == ErrSlowConsumer && Dropped(s, s', frames))
  {
    if es == [] {
      assert s.q + [] == s.q;
    } else {
      var front := es[..|es| - 1];
      BatchAllOrDropped(s, m, front);
      var (s1, err) := Batch(s, m, front);
      var done, all := Frames(m, front), Frames(m, es);
      assert done <= all;
      if err == NoError {
        assert s.q + done + all[|done|..] == s.q + all;
        assert |s1.q| == P.DEPTH ==> all[..P.DEPTH - |s.q|] == done;
      } else {
        assert all[..P.DEPTH - |s.q|] == done[..P.DEPTH - |s.q|];
      }
    }
  }

  /** The bytes of one event under a new name: type 6, then name, Op and Key. */
  function Renamed(e: Event, name: Str): Str {
    U32(MSG_EVENT) + (Slot(name) + U32(e.op) + Slot(e.key))
  }

  /** What a callback does to a client that is up: nothing, if its entry is gone
      or replaced; otherwise the entry is gone, and the event armed last under the
      name is queued with its Key replaced by what the Key is mapped to, left out
      if the Key is not mapped, and the end of the client if the queue is full. */
  lemma FlushedExactly(s: Side, m: PathMap, id: nat)
    requires Healthy(s) && D.Inv(s.state) && id < |s.state.timers|
    ensures var s', n := Flushed(s, m, id), s.state.timers[id].name;
            match D.Due(s.state, id)
            case None => s'.state.pending == s.state.pending && StillUp(s, s', [])
            case Some(e) =>
              && D.EndsArmed(D.Of(s.state, n), e) && n in s.state.pending
              && s'.state.pending == (if s'.done then map[] else s.state.pending - {n})
              && (e.key !in m ==> StillUp(s, s', []))
              && (e.key in m ==>
                    var frame := Renamed(e, Text.ReplaceFirst(e.name, e.key, m[e.key]));
                    && (|s.q| < 255 ==> StillUp(s, s', [frame]))
                    && (|s.q| == 255 ==> Dropped(s, s', [frame])))
  {
    assert s.q + [] == s.q;
    assert D.NameAccounted(s.state, s.state.timers[id].name);
  }

  /** The timers of some of the pending writes. */
  function Ids(pending: map<Str, D.Entry>, names: set<Str>): set<nat>
    requires names <= pending.Keys
  {
    set n | n in names :: pending[n].timer
  }

  lemma StopOneMore(timers: seq<D.Timer>, pending: map<Str, D.Entry>, gone: set<Str>, name: Str)
    requires gone <= pending.Keys && name in pending
    ensures D.StopAll(timers, Ids(pending, gone + {name})) ==
            if pending[name].timer < |timers|
            then D.StopTimer(D.StopAll(timers, Ids(pending, gone)), pending[name].timer)
            else D.StopAll(timers, Ids(pending, gone))
  {
    assert Ids(pending, gone + {name}) == Ids(pending, gone) + {pending[name].timer};
  }

  /** The loop of Close over the pending writes, in any order. */
  method StopPending(timers: seq<D.Timer>, pending: map<Str, D.Entry>) returns (stopped: seq<D.Timer>)
    ensures stopped == D.StopAll(timers, set n | n in pending :: pending[n].timer)
  {
    stopped := timers;
    var gone: set<Str>, rest := {}, pending.Keys;
    assert stopped == D.StopAll(timers, Ids(pending, gone));
    while rest != {}
      invariant gone + rest == pending.Keys
      invariant stopped == D.StopAll(timers, Ids(pending, gone))
      decreases rest
    {
      var name :| name in rest;
      StopOneMore(timers, pending, gone, name);
      if pending[name].timer < |stopped| {
        stopped := D.StopTimer(stopped, pending[name].timer);
      }
      gone, rest := gone + {name}, rest - {name};
    }
    assert gone == pending.Keys;
    assert Ids(pending, gone) == set n | n in pending :: pending[n].timer;
  }

  // ---------------------------------------------------------------- objects

  /** What a watcher has been told to watch, and the object that says so. */
  datatype Target = Target(channelID: Str, podNS: Str, podName: Str, container: Str, crNamespace: Str, crName: Str)

  /** watcher. `timers` belongs to the runtime; `now`, `lives` and `seen` are history. */
  class Watcher {
    const client: Client
    var podPathMap: PathMap
    var target: Target
    var delayedWrites: map<Str, D.Entry>
    var closed: bool
    var removes: nat
    var timers: seq<D.Timer>
    var now: nat
    var lives: nat
    ghost var seen: map<Str, seq<D.Obs>>

    ghost function View(): D.State
      reads this
    {
      D.State(closed, delayedWrites, timers, now, lives, seen)
    }

    /** NewWatcher */
    constructor (client: Client)
      ensures this.client == client && podPathMap == map[] && View() == D.INIT && removes == 0
    {
      this.client := client;
      target := Target([], [], [], [], [], []);
      podPathMap, delayedWrites, closed, removes := map[], map[], false, 0;
      timers, now, lives, seen := [], 0, 0, map[];
    }

    method ArmWriteDebounce(event: Event)
      requires D.TimersKnown(View())
      modifies this
      ensures View() == D.Arm(old(View()), event) && D.TimersKnown(View())
      ensures podPathMap == old(podPathMap) && target == old(target) && removes == old(removes)
    {
      ghost var was := View();
      ArmKeepsKnown(was, event);
      if closed {
        return;
      }
      var name := event.name;
      var known := name in delayedWrites;
      var d: D.Entry;
      if known {
        d := delayedWrites[name];
        timers := D.StopTimer(timers, d.timer);
      } else {
        d := D.Entry(event, 0, |timers|, now, lives, 0);
        lives := lives + 1;
      }
      var gen := (d.gen + 1) % D.GENERATIONS;
      d := D.Entry(event, gen, |timers|, now, d.life, d.arms + 1);
      timers := timers + [D.Timer(name, gen, now + D.QUIET, D.Scheduled, d.life, d.arms)];
      delayedWrites := delayedWrites[name := d];
      seen := seen[name := D.Of(was, name) + [D.Armed(event)]];
    }

    /** flushWriteDebounce up to the unlock. */
    method TakeDue(id: nat) returns (due: Option<Event>)
      requires id < |timers|
      modifies this
      ensures View() == D.RunCallback(old(View()), id) && due == D.Due(old(View()), id)
      ensures podPathMap == old(podPathMap) && target == old(target) && removes == old(removes)
    {
      ghost var was := View();
      var t := timers[id];
      timers := timers[id := t.(phase := D.Ran)];
      if t.name !in delayedWrites || delayedWrites[t.name].gen != t.gen || closed {
        return None;
      }
      due := Some(delayedWrites[t.name].event);
      delayedWrites := delayedWrites - {t.name};
      seen := seen[t.name := D.Of(was, t.name) + [D.Flushed(due.value)]];
    }

    method Close()
      modifies this
      ensures View() == D.Close(old(View()))
      ensures podPathMap == old(podPathMap) && target == old(target)
      ensures removes == if old(closed) then old(removes) else old(removes) + 1
    {
      if closed {
        return;
      }
      closed := true;
      timers := StopPending(timers, delayedWrites);
      delayedWrites := map[];
      removes := removes + 1;
    }

    /** translateEventNameInCluster */
    method TranslateEventNameInCluster(event: Event) returns (data: Option<Str>)
      ensures data == if event.key in podPathMap then Some(FrameOf(P.Translate(event, podPathMap))) else None
    {
      if event.key !in podPathMap {
        return None;
      }
      var renamed := event.(name := Text.ReplaceFirst(event.name, event.key, podPathMap[event.key]));
      var packed := PackEvent(renamed);
      return Some(PackageMsg(MSG_EVENT, packed));
    }

    /** sendEvent */
    method SendEvent(event: Event) returns (err: SendError)
      requires client.helper == this
      modifies this, client, client.server
      ensures client.helper == this && podPathMap == old(podPathMap) && target == old(target)
      ensures (client.View(), err) == EventSent(old(client.View()), podPathMap, event)
      ensures client.server.watchClients ==
              Remaining(old(client.server.watchClients), client.cid, old(client.once), client.once)
    {
      var data := TranslateEventNameInCluster(event);
      if data.None? {
        return NoError;
      }
      err := client.SendBytes(data.value);
    }

    /** flushWriteDebounce; a send error is only logged. */
    method FlushWriteDebounce(id: nat)
      requires client.helper == this && id < |timers|
      modifies this, client, client.server
      ensures client.helper == this && podPathMap == old(podPathMap) && target == old(target)
      ensures client.View() == Flushed(old(client.View()), podPathMap, id)
      ensures client.server.watchClients ==
              Remaining(old(client.server.watchClients), client.cid, old(client.once), client.once)
    {
      var due := TakeDue(id);
      if due.Some? {
        var _ := SendEvent(due.value);
      }
    }

    /** The switch on the Op inside WriteMsg. */
    method HandleEvent(event: Event) returns (err: SendError)
      requires client.helper == this && D.TimersKnown(View())
      modifies this, client, client.server
      ensures client.helper == this && podPathMap == old(podPathMap) && target == old(target) && D.TimersKnown(View())
      ensures (client.View(), err) == One(old(client.View()), podPathMap, event)
      ensures err == NoError ==> client.once == old(client.once)
      ensures client.server.watchClients ==
              Remaining(old(client.server.watchClients), client.cid, old(client.once), client.once)
    {
      if event.op == OP_WRITE {
        ArmWriteDebounce(event);
        err := NoError;
      } else {
        err := SendEvent(event);
      }
    }

    /** The loop of WriteMsg. */
    method WriteEvents(events: seq<Event>) returns (err: SendError)
      requires client.helper == this && D.TimersKnown(View())
      modifies this, client, client.server
      ensures client.helper == this && podPathMap == old(podPathMap) && target == old(target)
      ensures (client.View(), err) == Batch(old(client.View()), podPathMap, events)
      ensures client.server.watchClients ==
              Remaining(old(client.server.watchClients), client.cid, old(client.once), client.once)
    {
      ghost var was, m := client.View(), podPathMap;
      for i := 0 to |events|
        invariant client.helper == this && podPathMap == m && target == old(target) && D.TimersKnown(View())
        invariant Batch(was, m, events[..i]) == (client.View(), NoError)
        invariant client.once == was.once && client.server.watchClients == old(client.server.watchClients)
      {
        BatchSnoc(was, m, events[..i], events[i]);
        assert events[..i + 1] == events[..i] + [events[i]];
        err := HandleEvent(events[i]);
        if err != NoError {
          StopsHere(was, m, events, i + 1);
          return;
        }
      }
      assert events[..|events|] == events;
      err := NoError;
    }

    method WriteMsg(p: P.Payload) returns (err: SendError)
      requires client.helper == this && D.TimersKnown(View())
      modifies this, client, client.server
      ensures client.helper == this && podPathMap == old(podPathMap) && target == old(target)
      ensures (client.View(), err) == Written(old(client.View()), podPathMap, p)
      ensures client.server.watchClients ==
              Remaining(old(client.server.watchClients), client.cid, old(client.once), client.once)
    {
      if closed {
        return NoError;
      }
      if p.Malformed? {
        return ErrParse;
      }
      err := WriteEvents(p.events);
    }
  }

  class Client {
    const cid: nat
    const server: Server
    var helper: Watcher?
    var sendQ: seq<Str>
    var done: bool
    var connOpen: bool
    var once: bool

    ghost function View(): Side
      requires helper != null
      reads this, helper
    {
      Side(helper.View(), sendQ, done, connOpen, once, helper.removes)
    }

    constructor (cid: nat, server: Server)
      ensures this.cid == cid && this.server == server && helper == null
      ensures sendQ == [] && !done && connOpen && !once
    {
      this.cid, this.server := cid, server;
      helper, sendQ, done, connOpen, once := null, [], false, true, false;
    }

    /** shutdown: once only, through the server back to the watcher. */
    method Shutdown()
      modifies this, helper, server
      ensures helper == old(helper)
      ensures helper != null ==>
                && View() == Down(old(View()))
                && helper.podPathMap == old(helper.podPathMap) && helper.target == old(helper.target)
      ensures server.watchClients == if old(once) then old(server.watchClients) else old(server.watchClients) - {cid}
    {
      if once {
        return;
      }
      once := true;
      done := true;
      connOpen := false;
      server.RemoveChannel(this);
    }

    method SendBytes(b: Str) returns (err: SendError)
      requires helper != null
      modifies this, helper, server
      ensures helper == old(helper)
      ensures helper.podPathMap == old(helper.podPathMap) && helper.target == old(helper.target)
      ensures (View(), err) == Sent(old(View()), b)
      ensures server.watchClients == Remaining(old(server.watchClients), cid, old(once), once)
    {
      if done {
        return ErrClientClosed;
      }
      if |sendQ| < P.DEPTH {
        sendQ := sendQ + [b];
        return NoError;
      }
      Shutdown();
      return ErrSlowConsumer;
    }
  }

  /** watchClients once a client has gone through shutdown, or not. */
  ghost function Remaining(clients: map<nat, Client>, cid: nat, was: bool, now: bool): map<nat, Client> {
    if now && !was then clients - {cid} else clients
  }

  lemma DropMore(clients: map<nat, Client>, gone: set<nat>, more: set<nat>)
    ensures clients - gone - more == clients - (gone + more)
  {
  }

  class Server {
    var watchClients: map<nat, Client>

    /** Registered clients are live, each under its own id, with its own helper. */
    ghost predicate Valid()
      reads this, watchClients.Values, Helpers()
    {
      forall id | id in watchClients :: Fits(id, watchClients[id])
    }

    ghost predicate Fits(id: nat, c: Client)
      reads c, c.helper
    {
      && c.cid == id && c.server == this && !c.once
      && (c.helper != null ==> c.helper.client == c && D.TimersKnown(c.helper.View()))
    }

    ghost function Helpers(): set<Watcher>
      reads this, watchClients.Values
    {
      set c | c in watchClients.Values && c.helper != null :: c.helper
    }

    constructor ()
      ensures Valid() && watchClients == map[]
    {
      watchClients := map[];
    }

    /** removeChannel */
    method RemoveChannel(c: Client)
      modifies this, c.helper
      ensures watchClients == old(watchClients) - {c.cid}
      ensures c.helper != null ==>
                && c.helper.View() == D.Close(old(c.helper.View()))
                && c.helper.podPathMap == old(c.helper.podPathMap) && c.helper.target == old(c.helper.target)
                && c.helper.removes == if old(c.helper.closed) then old(c.helper.removes) else old(c.helper.removes) + 1
    {
      if c.helper != null {
        c.helper.Close();
      }
      watchClients := watchClients - {c.cid};
    }

    /** onNewClientCallback: the helper is set before the client is published. */
    method OnNewClient(c: Client)
      requires Valid() && c.cid !in watchClients && c.server == this && c.helper == null && !c.once
      requires c !in watchClients.Values
      modifies this, c
      ensures Valid() && watchClients == old(watchClients)[c.cid := c]
      ensures c.helper != null && fresh(c.helper) && c.helper.podPathMap == map[]
      ensures c.View() == Side(D.INIT, old(c.sendQ), old(c.done), old(c.connOpen), false, 0)
    {
      c.helper := new Watcher(c);
      watchClients := watchClients[c.cid := c];
      forall id | id in watchClients ensures Fits(id, watchClients[id]) {
        assert id != c.cid ==> watchClients[id] in old(watchClients).Values;
      }
    }

    /** A closure belongs to a registered client. */
    ghost predicate Registered(w: Watcher)
      reads this, watchClients.Values, w, w.client, w.client.helper
    {
      && w.client.cid in watchClients && watchClients[w.client.cid] == w.client && Fits(w.client.cid, w.client)
      && w.client.helper == w
    }

    /** The closures of Deliver, one for each client with a helper. Their order is
        that of the map, which is any. */
    method Collect() returns (funcs: set<Watcher>)
      requires Valid()
      ensures forall w | w in funcs :: Registered(w)
      ensures forall id | id in watchClients && watchClients[id].helper != null :: watchClients[id].helper in funcs
    {
      funcs := {};
      var rest := watchClients.Keys;
      while rest != {}
        invariant rest <= watchClients.Keys
        invariant forall w | w in funcs :: Registered(w)
        invariant forall id | id in watchClients && id !in rest && watchClients[id].helper != null ::
                    watchClients[id].helper in funcs
        decreases rest
      {
        var id :| id in rest;
        assert Fits(id, watchClients[id]);
        var writer := watchClients[id].helper;
        if writer != null {
          funcs := funcs + {writer};
        }
        rest := rest - {id};
      }
    }

    /** The visited clients that went down. */
    ghost function Lost(visited: set<Watcher>): set<nat>
      reads visited, set w | w in visited :: w.client
    {
      set w | w in visited && w.client.once :: w.client.cid
    }

    /** A client whose closure has yet to run and will leave it as `goal`. */
    ghost predicate Waiting(w: Watcher, p: P.Payload, goal: Side)
      reads w, w.client, w.client.helper
    {
      && w.client.helper == w && w.client.server == this && !w.client.once && D.TimersKnown(w.View())
      && Written(w.client.View(), w.podPathMap, p).0 == goal
    }

    ghost predicate Served(w: Watcher, goal: Side)
      reads w, w.client, w.client.helper
    {
      w.client.helper == w && w.client.View() == goal
    }

    /** One closure: it touches one client and nothing of the others. */
    method VisitOne(w: Watcher, p: P.Payload, ghost visited: set<Watcher>, ghost others: set<Watcher>,
        ghost all: map<nat, Client>, ghost goals: map<Watcher, Side>)
      requires w in goals && Waiting(w, p, goals[w]) && others <= goals.Keys
      requires forall v | v in others :: v != w && v.client.helper == v
      requires visited <= others && watchClients == all - Lost(visited)
      modifies this, w, w.client
      ensures Served(w, goals[w])
      ensures forall v | v in others :: v.client.helper == v
      ensures forall v | v in others && old(Waiting(v, p, goals[v])) :: Waiting(v, p, goals[v])
      ensures forall v | v in others && old(Served(v, goals[v])) :: Served(v, goals[v])
      ensures watchClients == all - Lost(visited + {w})
    {
      ghost var lost := Lost(visited);
      var _ := w.WriteMsg(p);
      assert forall v | v in others :: v.client != w.client;
      assert Lost(visited + {w}) == lost + (if w.client.once then {w.client.cid} else {});
      DropMore(all, lost, if w.client.once then {w.client.cid} else {});
    }

    /** The closures, run one after the other in any order. */
    method RunAll(funcs: set<Watcher>, p: P.Payload, ghost goals: map<Watcher, Side>)
      requires funcs <= goals.Keys
      requires forall w | w in funcs :: w.client.helper == w && Waiting(w, p, goals[w])
      modifies this, funcs, set w | w in funcs :: w.client
      ensures forall w | w in funcs :: Served(w, goals[w])
      ensures watchClients == old(watchClients) - Lost(funcs)
    {
      ghost var all, visited: set<Watcher> := watchClients, {};
      var todo := funcs;
      assert all - Lost(visited) == all;
      while todo != {}
        invariant visited + todo == funcs && visited !! todo
        invariant forall w | w in funcs :: w.client.helper == w
        invariant forall w | w in visited :: Served(w, goals[w])
        invariant forall w | w in todo :: Waiting(w, p, goals[w])
        invariant watchClients == all - Lost(visited)
        decreases todo
      {
        var w :| w in todo;
        VisitOne(w, p, visited, visited + todo - {w}, all, goals);
        visited, todo := visited + {w}, todo - {w};
      }
      assert visited == funcs;
    }

    method RunCollected(funcs: set<Watcher>, p: P.Payload)
      requires forall w | w in funcs :: Registered(w)
      modifies this, funcs, set w | w in funcs :: w.client
      ensures forall w | w in funcs ::
                old(Registered(w)) && Served(w, Written(old(w.client.View()), old(w.podPathMap), p).0)
      ensures watchClients == old(watchClients) - Lost(funcs)
    {
      RunAll(funcs, p, map w: Watcher | w in funcs :: Written(w.client.View(), w.podPathMap, p).0);
    }

    /** Deliver: every client that has a helper gets the payload as if it were
        alone, whatever the order and whatever happens to the others; those that
        went down are no longer registered. */
    method Deliver(p: P.Payload)
      requires Valid()
      modifies this, Helpers(), set w | w in Helpers() :: w.client
      ensures Valid()
      ensures forall id | id in old(watchClients) ::
                var c := old(watchClients)[id];
                && c.helper == old(c.helper)
                && (c.helper == null ==> !c.once)
                && (c.helper != null ==> c.View() == Written(old(c.View()), old(c.helper.podPathMap), p).0)
      ensures forall id :: id in watchClients <==> id in old(watchClients) && !old(watchClients)[id].once
      ensures forall id | id in watchClients :: watchClients[id] == old(watchClients)[id]
    {
      ghost var all, helpers := watchClients, Helpers();
      var funcs := Collect();
      forall w | w in funcs ensures w in helpers {
        assert Registered(w) && all[w.client.cid] in all.Values;
      }
      forall id | id in all ensures Fits(id, all[id]) {}
      RunCollected(funcs, p);
    }
  }
}
