/** Watch-set synchronisation of the Rust client (rust-jfs/src/watcher.rs,
    rust-jfs/src/utils.rs): a local set, a persistent queue of messages, lossy
    connections, and a replay of the whole set on each new connection, where the
    proxy starts with an empty set. */
module Reconnect {
  import opened Prelude
  import opened Mapping

  /** bounded(100) */
  const CAPACITY: nat := 100

  datatype Msg = Clear | Keys(edit: Edit)

  /** An add or remove that has changed the local set and not yet sent. */
  datatype Call = Call(watch: bool, path: Str)

  /** connect_and_run: not connected; connected; holding the read lock with the
      replay packed but not yet queued; reader and writer running. */
  datatype Phase = Down | Dialed | Replaying(order: seq<Str>) | Up

  /** The current connection: the message the writer has taken, those written and
      not yet handled, those the proxy has handled, and whether it has been cut.
      `refused` is history: the proxy has refused a message, as it does when the
      pod lookup fails; it only logs that, and its path map stays as it was. */
  datatype Conn = Conn(held: Option<Msg>, wire: seq<Msg>, handled: seq<Msg>, broken: bool, refused: bool)

  const NEW_CONN := Conn(None, [], [], false, false)

  datatype State = State(local: set<Str>, calls: map<nat, Call>, queue: seq<Msg>, phase: Phase, conn: Conn)

  /** send_clear_signal comes before the reconnect loop. */
  const INIT := State({}, map[], [Clear], Down, NEW_CONN)

  datatype Step =
    | Begin(caller: nat, call: Call)   // first half of add_with or remove, under the write lock
    | Finish(caller: nat)              // its send returns
    | Dial                             // TcpStream::connect succeeds
    | Lock(order: seq<Str>)            // resend_watches: read lock, collect the set
    | Replay                           // its send returns, the lock is dropped
    | Take | Write | WriteFails        // the writer
    | Handle(refused: bool)            // the proxy handles the next message, or refuses it
    | Cut                              // the connection is lost
    | HangUp                           // reader and writer have both ended

  function MsgOf(call: Call): Msg {
    Keys(Edit(call.watch, [call.path]))
  }

  function Next(s: State, step: Step): Option<State> {
    var k := s.conn;
    match step
    case Begin(c, call) =>
      if c in s.calls || s.phase.Replaying? then None
      else Some(s.(local := if call.watch then s.local + {call.path} else s.local - {call.path},
                   calls := s.calls[c := call]))
    case Finish(c) =>
      if c in s.calls && |s.queue| < CAPACITY then
        Some(s.(queue := s.queue + [MsgOf(s.calls[c])], calls := s.calls - {c}))
      else None
    case Dial => if s.phase.Down? then Some(s.(phase := Dialed, conn := NEW_CONN)) else None
    case Lock(order) =>
      if s.phase.Dialed? && Elems(order) == s.local then
        Some(s.(phase := if s.local == {} then Up else Replaying(order)))
      else None
    case Replay =>
      if s.phase.Replaying? && |s.queue| < CAPACITY then
        Some(s.(queue := s.queue + [Keys(Edit(true, s.phase.order))], phase := Up))
      else None
    case Take =>
      if s.phase.Up? && k.held.None? && s.queue != [] then
        Some(s.(queue := s.queue[1..], conn := k.(held := Some(s.queue[0]))))
      else None
    case Write =>
      if s.phase.Up? && k.held.Some? then
        Some(s.(conn := k.(held := None, wire := if k.broken then k.wire else k.wire + [k.held.value])))
      else None
    case WriteFails =>
      if s.phase.Up? && k.held.Some? then Some(s.(conn := k.(held := None, broken := true))) else None
    case Handle(refused) =>
      if !s.phase.Down? && k.wire != [] then
        Some(s.(conn := k.(wire := k.wire[1..], handled := if refused then k.handled else k.handled + [k.wire[0]],
                           refused := k.refused || refused)))
      else None
    case Cut => if s.phase.Down? then None else Some(s.(conn := k.(broken := true)))
    case HangUp => if s.phase.Up? && k.broken && k.held.None? then Some(s.(phase := Down)) else None
  }

  function Exec(steps: seq<Step>): Option<State> {
    if steps == [] then Some(INIT)
    else
      match Exec(steps[..|steps| - 1])
      case None => None
      case Some(s) => Next(s, steps[|steps| - 1])
  }

  // ------------------------------------------------------------- replaying

  function Apply(ks: set<Str>, m: Msg): set<Str> {
    match m
    case Clear => ks
    case Keys(e) => ApplyEdit(ks, e)
  }

  function ApplyAll(ks: set<Str>, ms: seq<Msg>): set<Str> {
    if ms == [] then ks else Apply(ApplyAll(ks, ms[..|ms| - 1]), ms[|ms| - 1])
  }

  function Paths(calls: map<nat, Call>, watch: bool): set<Str> {
    set c | c in calls && calls[c].watch == watch :: calls[c].path
  }

  /** A set once the unfinished calls have reached it as well. */
  function Settle(ks: set<Str>, calls: map<nat, Call>): set<Str> {
    (ks + Paths(calls, true)) - Paths(calls, false)
  }

  /** Everything between the client and the set of the current connection. */
  function InFlight(s: State): seq<Msg> {
    s.conn.handled + s.conn.wire + (if s.conn.held.Some? then [s.conn.held.value] else []) + s.queue
  }

  /** The set the proxy has for this connection. */
  function Server(s: State): set<Str> {
    ApplyAll({}, s.conn.handled)
  }

  lemma ApplyAllSnoc(ks: set<Str>, ms: seq<Msg>, m: Msg)
    ensures ApplyAll(ks, ms + [m]) == Apply(ApplyAll(ks, ms), m)
  {
    assert (ms + [m])[..|ms|] == ms;
  }

  /** Starting from less, a history leads to less. */
  lemma {:induction false} ApplyAllMonotone(ks: set<Str>, ks': set<Str>, ms: seq<Msg>)
    requires ks <= ks'
    ensures ApplyAll(ks, ms) <= ApplyAll(ks', ms)
  {
    if ms != [] {
      ApplyAllMonotone(ks, ks', ms[..|ms| - 1]);
    }
  }

  lemma {:induction false} ApplyAllCons(ks: set<Str>, ms: seq<Msg>)
    requires ms != []
    ensures ApplyAll(ks, ms) == ApplyAll(Apply(ks, ms[0]), ms[1..])
  {
    if |ms| > 1 {
      ApplyAllCons(ks, ms[..|ms| - 1]);
      assert ms[..|ms| - 1][1..] == ms[1..][..|ms| - 2];
    } else {
      assert ms[..0] == [];
    }
  }

  /** What survives of a queue whose head is lost asks for no more than before. */
  lemma LosingTheHead(ms: seq<Msg>)
    requires ms != []
    ensures ApplyAll({}, ms[1..]) <= ApplyAll({}, ms)
  {
    ApplyAllCons({}, ms);
    ApplyAllMonotone({}, Apply({}, ms[0]), ms[1..]);
  }

  // ------------------------------------------------------------- invariant

  /** No two callers are in the middle of an add and a remove of the same path. */
  predicate Calm(calls: map<nat, Call>) {
    forall c, d | c in calls && d in calls && calls[c].path == calls[d].path :: calls[c].watch == calls[d].watch
  }

  /** The local set already has what unfinished calls are about to send. */
  predicate CallsInv(s: State) {
    Paths(s.calls, true) <= s.local && Paths(s.calls, false) !! s.local
  }

  /** The queue alone, replayed on a new connection, asks for nothing that is
      not watched locally. */
  predicate QueueInv(s: State) {
    Settle(ApplyAll({}, s.queue), s.calls) <= s.local
  }

  predicate PhaseInv(s: State) {
    && (s.phase.Dialed? || s.phase.Replaying? ==> s.conn == NEW_CONN.(broken := s.conn.broken))
    && (s.phase.Replaying? ==> Elems(s.phase.order) == s.local)
  }

  /** Replaying all that is under way on the proxy's set gives the local set. */
  predicate Synced(s: State) {
    Settle(ApplyAll({}, InFlight(s)), s.calls) == s.local
  }

  predicate Inv(s: State) {
    && CallsInv(s) && QueueInv(s) && PhaseInv(s)
    && (s.phase.Up? && !s.conn.broken && !s.conn.refused ==> Synced(s))
  }

  lemma BeginSettles(ks: set<Str>, calls: map<nat, Call>, c: nat, call: Call)
    requires c !in calls && Calm(calls[c := call])
    ensures Paths(calls[c := call], call.watch) == Paths(calls, call.watch) + {call.path}
    ensures Paths(calls[c := call], !call.watch) == Paths(calls, !call.watch)
    ensures call.path !in Paths(calls, !call.watch)
    ensures Settle(ks, calls[c := call]) ==
            if call.watch then Settle(ks, calls) + {call.path} else Settle(ks, calls) - {call.path}
  {
    var calls' := calls[c := call];
    forall d | d in calls ensures d in calls' && calls'[d] == calls[d] {}
    assert c in calls' && calls'[c] == call;
  }

  lemma FinishSettles(ks: set<Str>, calls: map<nat, Call>, c: nat)
    requires c in calls && Calm(calls)
    ensures Paths(calls - {c}, true) <= Paths(calls, true) && Paths(calls - {c}, false) <= Paths(calls, false)
    ensures Settle(Apply(ks, MsgOf(calls[c])), calls - {c}) == Settle(ks, calls)
  {
    var rest, call := calls - {c}, calls[c];
    assert calls == rest[c := call];
    BeginSettles(ks, rest, c, call);
    assert Elems([call.path]) == {call.path};
  }

  lemma BeginKeepsInv(s: State, c: nat, call: Call)
    requires Inv(s) && Next(s, Begin(c, call)).Some? && Calm(s.calls[c := call])
    ensures Inv(Next(s, Begin(c, call)).value)
  {
    BeginSettles(ApplyAll({}, s.queue), s.calls, c, call);
    BeginSettles(ApplyAll({}, InFlight(s)), s.calls, c, call);
  }

  lemma FinishKeepsInv(s: State, c: nat)
    requires Inv(s) && Next(s, Finish(c)).Some? && Calm(s.calls)
    ensures Inv(Next(s, Finish(c)).value)
  {
    var s', m := Next(s, Finish(c)).value, MsgOf(s.calls[c]);
    ApplyAllSnoc({}, s.queue, m);
    FinishSettles(ApplyAll({}, s.queue), s.calls, c);
    assert InFlight(s') == InFlight(s) + [m];
    ApplyAllSnoc({}, InFlight(s), m);
    FinishSettles(ApplyAll({}, InFlight(s)), s.calls, c);
  }

  /** Queuing the replay makes all earlier losses good. */
  lemma ReplayKeepsInv(s: State)
    requires Inv(s) && Next(s, Replay).Some?
    ensures Inv(Next(s, Replay).value)
  {
    var s', m := Next(s, Replay).value, Keys(Edit(true, s.phase.order));
    ApplyAllSnoc({}, s.queue, m);
    assert InFlight(s') == s'.queue;
  }

  lemma LockKeepsInv(s: State, order: seq<Str>)
    requires Inv(s) && Next(s, Lock(order)).Some?
    ensures Inv(Next(s, Lock(order)).value)
  {
    var s' := Next(s, Lock(order)).value;
    assert InFlight(s') == s'.queue;
  }

  /** Taking, writing and handling move messages along and lose none. */
  lemma MovingKeepsInv(s: State, step: Step)
    requires Inv(s) && Next(s, step).Some? && (step.Take? || step.Write? || step.Handle?)
    ensures Inv(Next(s, step).value)
  {
    var s' := Next(s, step).value;
    if step.Take? {
      LosingTheHead(s.queue);
    }
    if !s.conn.broken && !s'.conn.refused {
      MovingKeepsFlight(s, step);
    }
  }

  lemma MovingKeepsFlight(s: State, step: Step)
    requires Next(s, step).Some? && (step.Take? || step.Write? || step.Handle?)
    requires !s.conn.broken && !Next(s, step).value.conn.refused
    ensures InFlight(Next(s, step).value) == InFlight(s)
  {
    match step
    case Take => assert s.queue == [s.queue[0]] + s.queue[1..];
    case Handle(_) => assert s.conn.wire == [s.conn.wire[0]] + s.conn.wire[1..];
    case _ =>
  }

  lemma StepKeepsInv(s: State, step: Step)
    requires Inv(s) && Next(s, step).Some? && Calm(s.calls) && Calm(Next(s, step).value.calls)
    ensures Inv(Next(s, step).value)
  {
    match step
    case Begin(c, call) => BeginKeepsInv(s, c, call);
    case Finish(c) => FinishKeepsInv(s, c);
    case Lock(order) => LockKeepsInv(s, order);
    case Replay => ReplayKeepsInv(s);
    case Take => MovingKeepsInv(s, step);
    case Write => MovingKeepsInv(s, step);
    case Handle(_) => MovingKeepsInv(s, step);
    case _ =>
  }

  // ------------------------------------------------------------------ runs

  /** A run in which callers do not work against each other on one path. */
  predicate CalmRun(steps: seq<Step>) {
    || steps == []
    || (CalmRun(steps[..|steps| - 1]) && Exec(steps).Some? && Calm(Exec(steps).value.calls))
  }

  lemma {:induction false} RunKeepsInv(steps: seq<Step>)
    requires Exec(steps).Some? && CalmRun(steps)
    ensures Inv(Exec(steps).value) && Calm(Exec(steps).value.calls)
  {
    if steps == [] {
      assert ApplyAll({}, [Clear]) == {} by { ApplyAllSnoc({}, [], Clear); assert [] + [Clear] == [Clear]; }
    } else {
      RunKeepsInv(steps[..|steps| - 1]);
      StepKeepsInv(Exec(steps[..|steps| - 1]).value, steps[|steps| - 1]);
    }
  }

  /** One API caller is always calm. */
  lemma {:induction false} OneCallerIsCalm(steps: seq<Step>, caller: nat)
    requires Exec(steps).Some?
    requires forall step | step in steps && step.Begin? :: step.caller == caller
    ensures CalmRun(steps) && Exec(steps).value.calls.Keys <= {caller}
  {
    if steps != [] {
      assert forall step | step in steps[..|steps| - 1] :: step in steps;
      OneCallerIsCalm(steps[..|steps| - 1], caller);
      assert steps[|steps| - 1] in steps;
    }
  }

  /** Whatever was lost or refused on earlier connections: while a connection is
      up, not cut, and nothing has been refused on it, the messages handled, on
      the wire, held, queued and still to be sent lead exactly to the local watch
      set. */
  lemma Convergence(steps: seq<Step>)
    requires Exec(steps).Some? && CalmRun(steps)
    requires Exec(steps).value.phase.Up? && !Exec(steps).value.conn.broken && !Exec(steps).value.conn.refused
    ensures var s := Exec(steps).value;
            Settle(ApplyAll({}, InFlight(s)), s.calls) == s.local
  {
    RunKeepsInv(steps);
  }

  predicate Drained(s: State) {
    && s.phase.Up? && !s.conn.broken
    && s.calls == map[] && s.queue == [] && s.conn.held.None? && s.conn.wire == []
  }

  /** So once everything has drained, and nothing was refused, the proxy watches
      exactly the local set. */
  lemma DrainedIsEqual(steps: seq<Step>)
    requires Exec(steps).Some? && CalmRun(steps) && Drained(Exec(steps).value) && !Exec(steps).value.conn.refused
    ensures Server(Exec(steps).value) == Exec(steps).value.local
  {
    var s := Exec(steps).value;
    Convergence(steps);
    assert InFlight(s) == s.conn.handled;
  }

  // ---------------------------------------------------- refused messages

  function KeysOf(m: Msg): set<Str> {
    match m
    case Clear => {}
    case Keys(e) => Elems(e.keys)
  }

  function Touched(ms: seq<Msg>): set<Str> {
    if ms == [] then {} else Touched(ms[..|ms| - 1]) + KeysOf(ms[|ms| - 1])
  }

  /** What a history says of a path depends on the start only if no message is
      about the path. */
  lemma {:induction false} HistoryDecides(ks: set<Str>, ks': set<Str>, ms: seq<Msg>, x: Str)
    ensures x in Touched(ms) ==> (x in ApplyAll(ks, ms) <==> x in ApplyAll(ks', ms))
    ensures x !in Touched(ms) ==> (x in ApplyAll(ks, ms) <==> x in ks)
  {
    if ms != [] {
      HistoryDecides(ks, ks', ms[..|ms| - 1], x);
    }
  }

  lemma {:induction false} ApplyAllAppends(ks: set<Str>, ms: seq<Msg>, more: seq<Msg>)
    ensures ApplyAll(ks, ms + more) == ApplyAll(ApplyAll(ks, ms), more)
  {
    if more == [] {
      assert ms + more == ms;
    } else {
      assert (ms + more)[..|ms + more| - 1] == ms + more[..|more| - 1];
      ApplyAllAppends(ks, ms, more[..|more| - 1]);
    }
  }

  /** Everything under way after the message that the proxy is about to handle. */
  function Behind(s: State): seq<Msg>
    requires s.conn.wire != []
  {
    s.conn.wire[1..] + (if s.conn.held.Some? then [s.conn.held.value] else []) + s.queue
  }

  /** The proxy could do without the message as far as this path goes: it has the
      path as the message wants it, or a later message or call will say. */
  predicate Spared(s: State, m: Msg, x: Str)
    requires s.conn.wire != []
  {
    || (m.Keys? && (x in Server(s) <==> m.edit.watch))
    || x in Touched(Behind(s)) || x in Paths(s.calls, true) || x in Paths(s.calls, false)
  }

  /** What a refusal costs: what is under way still leads to the local set exactly
      when the proxy could do without the message for each of its paths. */
  lemma RefusalCostsExactly(steps: seq<Step>)
    requires Exec(steps).Some? && CalmRun(steps) && Exec(steps).value.conn.wire != []
    requires Exec(steps).value.phase.Up? && !Exec(steps).value.conn.broken && !Exec(steps).value.conn.refused
    ensures Next(Exec(steps).value, Handle(true)).Some?
    ensures var s := Exec(steps).value;
            Synced(Next(s, Handle(true)).value) <==>
            forall x | x in KeysOf(s.conn.wire[0]) :: Spared(s, s.conn.wire[0], x)
  {
    Convergence(steps);
    var s := Exec(steps).value;
    HeadSplits(s);
    SameWithout(s, s.conn.wire[0]);
  }

  lemma HeadSplits(s: State)
    requires s.conn.wire != [] && s.phase.Up?
    ensures ApplyAll({}, InFlight(s)) == ApplyAll(Apply(Server(s), s.conn.wire[0]), Behind(s))
    ensures Next(s, Handle(true)).Some?
    ensures var s' := Next(s, Handle(true)).value;
            s'.calls == s.calls && s'.local == s.local && ApplyAll({}, InFlight(s')) == ApplyAll(Server(s), Behind(s))
  {
    var handled, m := s.conn.handled, s.conn.wire[0];
    assert InFlight(Next(s, Handle(true)).value) == handled + Behind(s);
    assert InFlight(s) == handled + [m] + Behind(s);
    ApplyAllAppends({}, handled, Behind(s));
    ApplyAllAppends({}, handled + [m], Behind(s));
    ApplyAllSnoc({}, handled, m);
  }

  lemma SameWithout(s: State, m: Msg)
    requires s.conn.wire != []
    ensures Settle(ApplyAll(Server(s), Behind(s)), s.calls) ==
            Settle(ApplyAll(Apply(Server(s), m), Behind(s)), s.calls) <==>
            forall x | x in KeysOf(m) :: Spared(s, m, x)
  {
    var ks, rest := Server(s), Behind(s);
    forall x
      ensures (x in Settle(ApplyAll(ks, rest), s.calls) <==> x in Settle(ApplyAll(Apply(ks, m), rest), s.calls)) <==>
              (x in KeysOf(m) ==> Spared(s, m, x))
    {
      HistoryDecides(ks, Apply(ks, m), rest, x);
      HistoryDecides(Apply(ks, m), ks, rest, x);
    }
  }

  // ------------------------------------------------------- and the path map

  function EditsOf(ms: seq<Msg>): seq<Edit> {
    if ms == [] then []
    else
      var m := ms[|ms| - 1];
      EditsOf(ms[..|ms| - 1]) + (if m.Keys? then [m.edit] else [])
  }

  lemma {:induction false} HandledIsWatched(ms: seq<Msg>)
    ensures Watched(EditsOf(ms)) == ApplyAll({}, ms)
  {
    if ms != [] {
      var front, m := ms[..|ms| - 1], ms[|ms| - 1];
      HandledIsWatched(front);
      if m.Keys? {
        assert EditsOf(ms)[..|EditsOf(ms)| - 1] == EditsOf(front);
      } else {
        assert EditsOf(ms) == EditsOf(front);
      }
    }
  }

  /** The node paths the proxy translates for this client are then the images
      of the local set, neither more nor fewer. */
  lemma DrainedMapIsExact(steps: seq<Step>, binds: seq<Bind>, universe: set<Str>)
    requires Exec(steps).Some? && CalmRun(steps) && Drained(Exec(steps).value) && !Exec(steps).value.conn.refused
    requires HostsGiven(binds) && NoCollision(binds, universe)
    requires Over(EditsOf(Exec(steps).value.conn.handled), universe)
    ensures var s := Exec(steps).value;
            MapAfter(binds, EditsOf(s.conn.handled)).Keys == AllImages(binds, s.local)
  {
    var s := Exec(steps).value;
    DrainedIsEqual(steps);
    HandledIsWatched(s.conn.handled);
    KeysOfWatched(binds, EditsOf(s.conn.handled), universe);
  }

  lemma ExecSnoc(steps: seq<Step>, step: Step)
    requires Exec(steps).Some?
    ensures Exec(steps + [step]) == Next(Exec(steps).value, step)
  {
    assert (steps + [step])[..|steps|] == steps;
  }
}
