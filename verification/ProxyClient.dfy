/** One connected client of the proxy as a step machine
    (k8s/pkg/multicast/tcpserver.go, k8s/pkg/multicast/server.go,
    k8s/cmd/fsnotify-proxy/app/helper.go). Its threads are the reader, the
    writer, the fan-out when it visits this client, and one callback per fired
    timer. Every lock operation, channel operation and close is one step. */
module ProxyClient {
  import opened Prelude
  import opened Wire
  import Text
  import D = Debounce
  import opened Mapping

  /** sendQueueDepth */
  const DEPTH: nat := 255

  /** What Deliver hands to WriteMsg: JSON that parses, or not. */
  datatype Payload = Malformed | Events(events: seq<Event>)

  datatype Tid = Reader | Writer | Fan | Callback(id: nat)

  /** Who called SendBytes or shutdown, and what is left to do after it. */
  datatype Kont = ForReader | ForWriter | ForBatch(rest: seq<Event>) | ForCallback

  /** listen */
  datatype ListenPc = Accepted | Wired | Greeting | PublishWant | Publishing | Reading | EditWant | Editing

  /** writeLoop */
  datatype LoopPc = Select | Writing(frame: Event)

  /** WriteMsg and armWriteDebounce, run by the fan-out; Away is elsewhere,
      Queued is collected by Deliver and not yet visited. */
  datatype VisitPc =
    | Away | Queued(payload: Payload) | CheckWant(payload: Payload) | Checking(payload: Payload)
    | Batch(events: seq<Event>) | ArmWant(event: Event, rest: seq<Event>) | Arming(event: Event, rest: seq<Event>)

  /** flushWriteDebounce */
  datatype FlushPc = FlushWant | Flushing

  /** sendEvent: translate, then SendBytes with its two selects. */
  datatype SendPc = TransWant(event: Event) | Translating(event: Event) | Probe(frame: Event) | Offer(frame: Event)

  /** shutdown: all but Enter are inside closeOnce.Do. */
  datatype ShutPc =
    | Enter | CloseDone | CloseConn | CloseWant | Closing | Removing | DropWant | Dropping | Leaving

  datatype Pc =
    | Listen(l: ListenPc)
    | Loop(o: LoopPc)
    | Visit(v: VisitPc)
    | Flush(f: FlushPc)
    | Send(s: SendPc, k: Kont)
    | Shut(x: ShutPc, k: Kont)
    | Ended

  datatype Lock = Lock(readers: set<Tid>, writer: Option<Tid>)

  datatype Once = Fresh | Running(t: Tid) | Over

  /** The connection and its teardown. `published`: in watchClients; `removes`:
      how often Remove has run. */
  datatype Life = Life(
    fconn: bool, helper: bool, published: bool,
    done: bool, connOpen: bool, once: Once, removes: nat)

  /** sendQ, and as history the frames ever put in, those written, and the one
      whose WriteFrame failed. A frame is named by the event it carries. */
  datatype Queue = Queue(q: seq<Event>, accepted: seq<Event>, written: seq<Event>, lost: seq<Event>)

  /** The watcher helper: its debounce state, its mutex, its path map. */
  datatype Helper = Helper(state: D.State, mu: Lock, podPathMap: PathMap)

  /** History of the fan-out: the events of every Deliver since registration,
      those translated, with the map in force, and whether it has given up on a
      frame or a batch. */
  datatype Order = Order(delivered: seq<Event>, offered: seq<(Event, PathMap)>, broken: bool)

  datatype Client = Client(life: Life, queue: Queue, w: Helper, order: Order, threads: map<Tid, Pc>)

  const NEW_CLIENT := Client(
    Life(false, false, false, false, true, Fresh, 0),
    Queue([], [], [], []),
    Helper(D.INIT, Lock({}, None), map[]),
    Order([], [], false),
    map[Reader := Listen(Accepted), Fan := Visit(Away)])

  // ------------------------------------------------------------- helpers

  function At(c: Client, t: Tid, pc: Pc): Client {
    c.(threads := c.threads[t := pc])
  }

  predicate CanRead(l: Lock) {
    l.writer.None?
  }

  predicate CanWrite(l: Lock) {
    l.writer.None? && l.readers == {}
  }

  function RLock(w: Helper, t: Tid): Helper {
    w.(mu := Lock(w.mu.readers + {t}, w.mu.writer))
  }

  function RUnlock(w: Helper, t: Tid): Helper {
    w.(mu := Lock(w.mu.readers - {t}, w.mu.writer))
  }

  function WLock(w: Helper, t: Tid): Helper {
    w.(mu := Lock(w.mu.readers, Some(t)))
  }

  /** Unlock after changing the guarded state. */
  function WUnlock(w: Helper, state: D.State): Helper {
    w.(mu := Lock(w.mu.readers, None), state := state)
  }

  /** Where the caller goes on after SendBytes returned nil. */
  function AfterOk(k: Kont): Pc {
    match k
    case ForBatch(rest) => Visit(Batch(rest))
    case _ => Ended
  }

  /** Where it goes on after an error or a shutdown. */
  function AfterErr(k: Kont): Pc {
    match k
    case ForBatch(_) => Visit(Away)
    case _ => Ended
  }

  /** translateEventNameInCluster, for a mapped key. */
  function Translate(event: Event, m: PathMap): Event
    requires event.key in m
  {
    event.(name := Text.ReplaceFirst(event.name, event.key, m[event.key]))
  }

  function EventsOf(p: Payload): seq<Event> {
    match p
    case Malformed => []
    case Events(events) => events
  }

  // --------------------------------------------------------------- steps

  /** The outcome of a step that can go more than one way. */
  datatype Choice = Go | Fail | SeeDone | SetMap(m: PathMap, more: bool)

  function ListenStep(c: Client, l: ListenPc, ch: Choice): Option<Client> {
    match l
    case Accepted => Some(At(c.(life := c.life.(fconn := true)), Reader, Listen(Wired)))
    case Wired => Some(At(At(c, Writer, Loop(Select)), Reader, Listen(Greeting)))
    case Greeting => Some(At(c.(life := c.life.(helper := true)), Reader, Listen(PublishWant)))
    case PublishWant => Some(At(c, Reader, Listen(Publishing)))
    case Publishing => Some(At(c.(life := c.life.(published := true)), Reader, Listen(Reading)))
    case Reading => Some(At(c, Reader, if ch.Fail? then Shut(Enter, ForReader) else Listen(EditWant)))
    case EditWant =>
      if CanWrite(c.w.mu) then Some(At(c.(w := WLock(c.w, Reader)), Reader, Listen(Editing))) else None
    case Editing =>
      if ch.SetMap? then
        Some(At(c.(w := WUnlock(c.w, c.w.state).(podPathMap := ch.m)), Reader,
                Listen(if ch.more then EditWant else Reading)))
      else None
  }

  function LoopStep(c: Client, o: LoopPc, ch: Choice): Option<Client> {
    var u := c.queue;
    match o
    case Select =>
      if ch.SeeDone? then (if c.life.done then Some(At(c, Writer, Ended)) else None)
      else if u.q != [] then Some(At(c.(queue := u.(q := u.q[1..])), Writer, Loop(Writing(u.q[0]))))
      else None
    case Writing(f) =>
      if ch.Fail? then Some(At(c.(queue := u.(lost := u.lost + [f])), Writer, Shut(Enter, ForWriter)))
      else if c.life.connOpen then Some(At(c.(queue := u.(written := u.written + [f])), Writer, Loop(Select)))
      else None
  }

  function VisitStep(c: Client, v: VisitPc): Option<Client> {
    match v
    case CheckWant(p) =>
      if CanRead(c.w.mu) then Some(At(c.(w := RLock(c.w, Fan)), Fan, Visit(Checking(p)))) else None
    case Checking(p) =>
      Some(At(
        c.(w := RUnlock(c.w, Fan), order := if c.w.state.closed then c.order.(broken := true) else c.order),
        Fan,
        Visit(if c.w.state.closed || p.Malformed? then Away else Batch(p.events))))
    case Batch(es) =>
      Some(At(c, Fan,
        if es == [] then Visit(Away)
        else if es[0].op == OP_WRITE then Visit(ArmWant(es[0], es[1..]))
        else Send(TransWant(es[0]), ForBatch(es[1..]))))
    case ArmWant(e, rest) =>
      if CanWrite(c.w.mu) then Some(At(c.(w := WLock(c.w, Fan)), Fan, Visit(Arming(e, rest)))) else None
    case Arming(e, rest) =>
      if D.TimersKnown(c.w.state) then
        Some(At(c.(w := WUnlock(c.w, D.Arm(c.w.state, e))), Fan, Visit(Batch(rest))))
      else None
    case _ => None
  }

  function FlushStep(c: Client, id: nat, f: FlushPc): Option<Client> {
    var t := Callback(id);
    match f
    case FlushWant => if CanWrite(c.w.mu) then Some(At(c.(w := WLock(c.w, t)), t, Flush(Flushing))) else None
    case Flushing =>
      if id >= |c.w.state.timers| then None
      else
        var due := D.Due(c.w.state, id);
        Some(At(c.(w := WUnlock(c.w, D.RunCallback(c.w.state, id))), t,
          if due.Some? then Send(TransWant(due.value), ForCallback) else Ended))
  }

  function SendStep(c: Client, t: Tid, s: SendPc, k: Kont, ch: Choice): Option<Client> {
    match s
    case TransWant(e) =>
      if CanRead(c.w.mu) then Some(At(c.(w := RLock(c.w, t)), t, Send(Translating(e), k))) else None
    case Translating(e) =>
      var m := c.w.podPathMap;
      Some(At(
        c.(w := RUnlock(c.w, t),
           order := if k.ForBatch? && !c.order.broken then c.order.(offered := c.order.offered + [(e, m)])
                    else c.order),
        t,
        if e.key in m then Send(Probe(Translate(e, m)), k) else AfterOk(k)))
    case Probe(f) =>
      Some(if c.life.done then At(GiveUp(c, k), t, AfterErr(k)) else At(c, t, Send(Offer(f), k)))
    case Offer(f) =>
      var u := c.queue;
      if ch.SeeDone? then (if c.life.done then Some(At(GiveUp(c, k), t, AfterErr(k))) else None)
      else if |u.q| < DEPTH then
        Some(At(c.(queue := u.(q := u.q + [f], accepted := u.accepted + [f])), t, AfterOk(k)))
      else if !c.life.done then Some(At(GiveUp(c, k), t, Shut(Enter, k)))
      else None
  }

  /** A frame is refused. */
  function GiveUp(c: Client, k: Kont): Client {
    if k.ForBatch? then c.(order := c.order.(broken := true)) else c
  }

  function ShutStep(c: Client, t: Tid, x: ShutPc, k: Kont): Option<Client> {
    var l := c.life;
    match x
    case Enter =>
      (match l.once
       case Fresh => Some(At(c.(life := l.(once := Running(t))), t, Shut(CloseDone, k)))
       case Over => Some(At(c, t, AfterErr(k)))
       case Running(_) => None)
    case CloseDone => Some(At(c.(life := l.(done := true)), t, Shut(CloseConn, k)))
    case CloseConn => Some(At(c.(life := l.(connOpen := false)), t, Shut(if l.helper then CloseWant else DropWant, k)))
    case CloseWant => if CanWrite(c.w.mu) then Some(At(c.(w := WLock(c.w, t)), t, Shut(Closing, k))) else None
    case Closing =>
      Some(At(c.(w := WUnlock(c.w, D.Close(c.w.state))), t, Shut(if c.w.state.closed then DropWant else Removing, k)))
    case Removing => Some(At(c.(life := l.(removes := l.removes + 1)), t, Shut(DropWant, k)))
    case DropWant => Some(At(c, t, Shut(Dropping, k)))
    case Dropping => Some(At(c.(life := l.(published := false)), t, Shut(Leaving, k)))
    case Leaving => Some(At(c.(life := l.(once := Over)), t, AfterErr(k)))
  }

  /** One step of thread `t`; None if it cannot take it now. The server mutex,
      wanted at PublishWant and DropWant, is not part of the client. */
  function ThreadStep(c: Client, t: Tid, ch: Choice): Option<Client> {
    if t !in c.threads then None
    else
      match (t, c.threads[t])
      case (Reader, Listen(l)) => ListenStep(c, l, ch)
      case (Writer, Loop(o)) => LoopStep(c, o, ch)
      case (Fan, Visit(v)) => VisitStep(c, v)
      case (Callback(id), Flush(f)) => FlushStep(c, id, f)
      case (_, Send(s, k)) => SendStep(c, t, s, k, ch)
      case (_, Shut(x, k)) => ShutStep(c, t, x, k)
      case _ => None
  }

  /** The two places where a client's thread takes the server mutex, and the two
      where it holds it. */
  predicate WantsServer(pc: Pc) {
    pc == Listen(PublishWant) || (pc.Shut? && pc.x.DropWant?)
  }

  predicate HoldsServer(pc: Pc) {
    pc == Listen(Publishing) || (pc.Shut? && pc.x.Dropping?)
  }

  datatype Label = Run(t: Tid, ch: Choice) | Collect(p: Payload) | Start | Tick(d: nat) | Fire(id: nat)

  /** The fan-out has been elsewhere, or has collected the client for a payload. */
  predicate FanIs(c: Client, v: VisitPc) {
    Fan in c.threads && c.threads[Fan] == Visit(v)
  }

  predicate FanQueued(c: Client) {
    Fan in c.threads && c.threads[Fan].Visit? && c.threads[Fan].v.Queued?
  }

  /** A step of the client: one of its threads, the fan-out collecting it for a
      payload or starting its visit, the clock, a timer. */
  function Next(c: Client, l: Label): Option<Client> {
    match l
    case Run(t, ch) => ThreadStep(c, t, ch)
    case Collect(p) =>
      if c.life.published && c.life.helper && FanIs(c, Away) then
        Some(At(c.(order := c.order.(delivered := c.order.delivered + EventsOf(p))), Fan, Visit(Queued(p))))
      else None
    case Start => if FanQueued(c) then Some(At(c, Fan, Visit(CheckWant(c.threads[Fan].v.payload)))) else None
    case Tick(d) => Some(c.(w := c.w.(state := c.w.state.(now := c.w.state.now + d))))
    case Fire(id) =>
      if D.Enabled(c.w.state, D.DoFire(id)) && D.TimersKnown(c.w.state) then
        Some(At(c.(w := c.w.(state := D.Next(c.w.state, D.DoFire(id)))), Callback(id), Flush(FlushWant)))
      else None
  }

  // ------------------------------------------------------------- history

  function NonWrite(es: seq<Event>): seq<Event> {
    if es == [] then []
    else
      var e := es[|es| - 1];
      NonWrite(es[..|es| - 1]) + (if e.op == OP_WRITE then [] else [e])
  }

  /** The events, and the frames, of what the fan-out has translated. */
  function OfferedEvents(os: seq<(Event, PathMap)>): seq<Event> {
    seq(|os|, i requires 0 <= i < |os| => os[i].0)
  }

  function Expected(os: seq<(Event, PathMap)>): seq<Event> {
    if os == [] then []
    else
      var (e, m) := os[|os| - 1];
      Expected(os[..|os| - 1]) + (if e.key in m then [Translate(e, m)] else [])
  }

  lemma {:induction false} NonWriteAppend(a: seq<Event>, b: seq<Event>)
    ensures NonWrite(a + b) == NonWrite(a) + NonWrite(b)
  {
    if b == [] {
      assert a + b == a;
    } else {
      NonWriteAppend(a, b[..|b| - 1]);
      assert (a + b)[..|a + b| - 1] == a + b[..|b| - 1];
    }
  }

  lemma NonWriteOne(e: Event)
    ensures NonWrite([e]) == if e.op == OP_WRITE then [] else [e]
  {
    assert [e][..0] == [];
  }

  lemma ExpectedOne(os: seq<(Event, PathMap)>, e: Event, m: PathMap)
    ensures Expected(os + [(e, m)]) == Expected(os) + (if e.key in m then [Translate(e, m)] else [])
    ensures OfferedEvents(os + [(e, m)]) == OfferedEvents(os) + [e]
  {
    assert (os + [(e, m)])[..|os|] == os;
  }

  /** What passes the filter of a prefix is a prefix of what passes the filter. */
  lemma NonWritePrefix(a: seq<Event>, b: seq<Event>)
    requires a <= b
    ensures NonWrite(a) <= NonWrite(b)
  {
    assert b == a + b[|a|..];
    NonWriteAppend(a, b[|a|..]);
  }
}
