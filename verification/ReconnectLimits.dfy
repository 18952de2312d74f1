/** When the synchronisation of the Rust client fails (rust-jfs/src/watcher.rs,
    rust-jfs/src/utils.rs): callers that work against each other, and a replay
    that meets a full queue. For each, exactly when. */
module ReconnectLimits {
  import opened Prelude
  import opened Reconnect

  // ------------------------------------------------------------- full queue

  /** The next replay, or the one at hand, will wait for room that nobody makes. */
  predicate Stuck(s: State) {
    !s.phase.Up? && |s.queue| >= CAPACITY && (s.phase.Replaying? || s.local != {})
  }

  function Run(s: State, steps: seq<Step>): Option<State> {
    if steps == [] then Some(s)
    else
      match Run(s, steps[..|steps| - 1])
      case None => None
      case Some(t) => Next(t, steps[|steps| - 1])
  }

  lemma {:induction false} RunAppends(steps: seq<Step>, more: seq<Step>)
    requires Exec(steps).Some?
    ensures Exec(steps + more) == Run(Exec(steps).value, more)
  {
    if more == [] {
      assert steps + more == steps;
    } else {
      assert (steps + more)[..|steps + more| - 1] == steps + more[..|more| - 1];
      RunAppends(steps, more[..|more| - 1]);
    }
  }

  lemma {:induction false} WaitsForGood(s: State, more: seq<Step>)
    requires s.phase.Replaying? && |s.queue| >= CAPACITY && Run(s, more).Some?
    ensures var t := Run(s, more).value;
            t.phase == s.phase && t.queue == s.queue && t.local == s.local && t.calls == s.calls
  {
    if more != [] {
      WaitsForGood(s, more[..|more| - 1]);
    }
  }

  ghost predicate CanLeaveReplay(s: State) {
    exists more :: Run(s, more).Some? && !Run(s, more).value.phase.Replaying?
  }

  /** The replay is queued before the writer starts, so it gets through exactly
      when there is room at once. */
  lemma ReplayLeavesExactly(s: State)
    requires s.phase.Replaying?
    ensures CanLeaveReplay(s) <==> |s.queue| < 100
  {
    if |s.queue| < CAPACITY {
      assert [Replay][..0] == [];
      assert Run(s, [Replay]).Some? && !Run(s, [Replay]).value.phase.Replaying?;
    } else {
      forall more | Run(s, more).Some? ensures Run(s, more).value.phase.Replaying? {
        WaitsForGood(s, more);
      }
    }
  }

  /** And it gets there: ninety-nine adds while no connection is up. */
  lemma QueueFillsUp(p: Str) returns (steps: seq<Step>)
    ensures Exec(steps).Some?
    ensures Exec(steps).value.phase.Replaying? && |Exec(steps).value.queue| == CAPACITY
  {
    var add := Call(true, p);
    steps := [];
    for i := 0 to CAPACITY - 1
      invariant Exec(steps).Some?
      invariant var s := Exec(steps).value;
                && s.local == (if i == 0 then {} else {p}) && s.calls == map[]
                && |s.queue| == i + 1 && s.phase.Down? && s.conn == NEW_CONN
    {
      ExecSnoc(steps, Begin(0, add));
      steps := steps + [Begin(0, add)];
      ExecSnoc(steps, Finish(0));
      steps := steps + [Finish(0)];
    }
    ExecSnoc(steps, Dial);
    steps := steps + [Dial];
    ExecSnoc(steps, Lock([p]));
    steps := steps + [Lock([p])];
    assert Elems([p]) == {p};
  }

  // -------------------------------------------------------- crossed callers

  /** Nobody begins another call: the local set and its watchers rest. */
  predicate Quiet(steps: seq<Step>) {
    forall step | step in steps :: !step.Begin?
  }

  predicate Reaches(s: State, steps: seq<Step>, t: State) {
    Quiet(steps) && Run(s, steps) == Some(t) && t.local == s.local
  }

  /** Everything drains, with nothing refused on the connection, and the proxy
      watches something else than the client. */
  predicate Diverges(s: State, steps: seq<Step>) {
    && Quiet(steps) && Run(s, steps).Some?
    && Drained(Run(s, steps).value) && !Run(s, steps).value.conn.refused
    && Server(Run(s, steps).value) != Run(s, steps).value.local
  }

  lemma Then(s: State, steps: seq<Step>, t: State, step: Step) returns (more: seq<Step>, t': State)
    requires Reaches(s, steps, t) && !step.Begin? && Next(t, step).Some?
    ensures more == steps + [step] && t' == Next(t, step).value && Reaches(s, more, t')
  {
    more, t' := steps + [step], Next(t, step).value;
    RunSnoc(s, steps, step);
    LocalRests(t, step);
    forall x | x in more ensures !x.Begin? { assert x in steps || x == step; }
  }

  lemma RunSnoc(s: State, steps: seq<Step>, step: Step)
    requires Run(s, steps).Some?
    ensures Run(s, steps + [step]) == Next(Run(s, steps).value, step)
  {
    assert (steps + [step])[..|steps|] == steps;
  }

  lemma LocalRests(s: State, step: Step)
    requires !step.Begin? && Next(s, step).Some?
    ensures Next(s, step).value.local == s.local
  {
  }

  /** The connection comes up, whatever it was in the middle of. */
  lemma ComesUp(s: State, steps: seq<Step>, t: State) returns (more: seq<Step>, t': State)
    requires Reaches(s, steps, t) && !Stuck(t)
    ensures Reaches(s, more, t') && t'.phase.Up? && t'.calls == t.calls
    ensures t.queue == [] && t.phase.Down? ==> |t'.queue| <= 1 && t'.conn == NEW_CONN
  {
    more, t' := steps, t;
    if t'.phase.Down? {
      more, t' := Then(s, more, t', Dial);
    }
    if t'.phase.Dialed? {
      var order := Enumeration(t'.local);
      more, t' := Then(s, more, t', Lock(order));
    }
    if t'.phase.Replaying? {
      more, t' := Then(s, more, t', Replay);
    }
  }

  /** A connection is lost with everything that was queued. */
  lemma GoesDown(s: State, steps: seq<Step>, t: State) returns (more: seq<Step>, t': State)
    requires Reaches(s, steps, t) && t.phase.Up?
    ensures Reaches(s, more, t') && t'.phase.Down? && t'.queue == [] && t'.calls == t.calls
  {
    more, t' := Then(s, steps, t, Cut);
    if t'.conn.held.Some? {
      more, t' := Then(s, more, t', Write);
    }
    while t'.queue != []
      invariant Reaches(s, more, t') && t'.phase.Up? && t'.conn.broken && t'.conn.held.None? && t'.calls == t.calls
      decreases |t'.queue|
    {
      more, t' := Then(s, more, t', Take);
      more, t' := Then(s, more, t', Write);
    }
    more, t' := Then(s, more, t', HangUp);
  }

  /** Nothing is under way but unfinished calls. */
  predicate Resting(t: State) {
    t.phase.Up? && !t.conn.broken && !t.conn.refused && t.conn.held.None? && t.conn.wire == [] && t.queue == []
  }

  /** The one queued message reaches the proxy. */
  lemma Pumped(s: State, steps: seq<Step>, t: State, m: Msg) returns (more: seq<Step>, t': State)
    requires Reaches(s, steps, t) && Resting(t.(queue := [])) && t.queue == [m]
    ensures Reaches(s, more, t') && Resting(t') && t'.calls == t.calls
    ensures Server(t') == Apply(Server(t), m)
  {
    more, t' := Then(s, steps, t, Take);
    more, t' := Then(s, more, t', Write);
    assert ([] + [m])[1..] == [];
    more, t' := Then(s, more, t', Handle(false));
    ApplyAllSnoc({}, t.conn.handled, m);
  }

  lemma ComesToRest(s: State) returns (more: seq<Step>, t': State)
    requires !Stuck(s)
    ensures Reaches(s, more, t') && Resting(t') && t'.calls == s.calls
  {
    more, t' := ComesUp(s, [], s);
    more, t' := GoesDown(s, more, t');
    more, t' := ComesUp(s, more, t');
    if t'.queue != [] {
      assert t'.queue == [t'.queue[0]];
      more, t' := Pumped(s, more, t', t'.queue[0]);
    }
  }

  lemma FinishedNext(s: State, steps: seq<Step>, t: State, c: nat) returns (more: seq<Step>, t': State)
    requires Reaches(s, steps, t) && Resting(t) && c in t.calls
    ensures Reaches(s, more, t') && Resting(t') && t'.calls == t.calls - {c}
    ensures Server(t') == Apply(Server(t), MsgOf(t.calls[c]))
  {
    more, t' := Then(s, steps, t, Finish(c));
    more, t' := Pumped(s, more, t', MsgOf(t.calls[c]));
  }

  /** The calls finish in an order that leaves one of them for the end. */
  lemma FinishedLast(s: State, steps: seq<Step>, t: State, last: nat) returns (more: seq<Step>, t': State)
    requires Reaches(s, steps, t) && Resting(t) && last in t.calls
    ensures Reaches(s, more, t') && Drained(t') && !t'.conn.refused
    ensures t.calls[last].path in Server(t') <==> t.calls[last].watch
  {
    more, t' := steps, t;
    while t'.calls.Keys - {last} != {}
      invariant Reaches(s, more, t') && Resting(t') && last in t'.calls && t'.calls[last] == t.calls[last]
      decreases t'.calls.Keys - {last}
    {
      var c :| c in t'.calls.Keys - {last};
      more, t' := FinishedNext(s, more, t', c);
    }
    assert t'.calls - {last} == map[];
    var call := t.calls[last];
    assert call.path in Elems([call.path]);
    more, t' := FinishedNext(s, more, t', last);
  }

  /** An unfinished add and remove of one path can always be finished in an order
      that leaves the proxy with the opposite of the local set. */
  lemma CrossedDiverge(s: State) returns (more: seq<Step>)
    requires !Calm(s.calls) && !Stuck(s)
    ensures Diverges(s, more)
  {
    var c, d :|
      c in s.calls && d in s.calls && s.calls[c].path == s.calls[d].path && s.calls[c].watch != s.calls[d].watch;
    var t: State;
    more, t := ComesToRest(s);
    var last := if s.calls[c].watch == (s.calls[c].path !in s.local) then c else d;
    more, t := FinishedLast(s, more, t, last);
  }

  /** The proxy gets the next queued message. */
  lemma Pump(steps: seq<Step>) returns (more: seq<Step>)
    requires Exec(steps).Some?
    requires var s := Exec(steps).value;
             s.phase.Up? && !s.conn.broken && s.conn.held.None? && s.conn.wire == [] && s.queue != []
    ensures var s := Exec(steps).value;
            Exec(more) == Some(s.(queue := s.queue[1..], conn := s.conn.(handled := s.conn.handled + [s.queue[0]])))
  {
    ExecSnoc(steps, Take);
    ExecSnoc(steps + [Take], Write);
    ExecSnoc(steps + [Take] + [Write], Handle(false));
    more := steps + [Take] + [Write] + [Handle(false)];
    var m := Exec(steps).value.queue[0];
    assert ([] + [m])[1..] == [] && ([] + [m])[0] == m;
  }

  /** Two callers that add and remove one path at a time can send in the other
      order: everything drains, and the proxy watches what the client does not. */
  lemma CrossedCallersDiverge(p: Str) returns (steps: seq<Step>)
    ensures Exec(steps).Some? && Drained(Exec(steps).value)
    ensures Exec(steps).value.local == {} && Server(Exec(steps).value) == {p}
  {
    var add, remove := Call(true, p), Call(false, p);
    steps := [];
    ExecSnoc(steps, Begin(0, add));    steps := steps + [Begin(0, add)];
    ExecSnoc(steps, Begin(1, remove)); steps := steps + [Begin(1, remove)];
    ExecSnoc(steps, Finish(1));        steps := steps + [Finish(1)];
    ExecSnoc(steps, Finish(0));        steps := steps + [Finish(0)];
    ExecSnoc(steps, Dial);             steps := steps + [Dial];
    ExecSnoc(steps, Lock([]));         steps := steps + [Lock([])];
    assert Exec(steps).value.queue == [Clear, MsgOf(remove), MsgOf(add)];
    steps := Pump(steps);
    steps := Pump(steps);
    steps := Pump(steps);
    ApplyAllSnoc({}, [Clear, MsgOf(remove)], MsgOf(add));
    ApplyAllSnoc({}, [Clear], MsgOf(remove));
    ApplyAllSnoc({}, [], Clear);
    assert Exec(steps).value.conn.handled == [Clear, MsgOf(remove)] + [MsgOf(add)];
    assert [Clear, MsgOf(remove)] == [Clear] + [MsgOf(remove)] && [Clear] == [] + [Clear];
    assert Elems([p]) == {p};
  }

  lemma {:induction false} QuietStaysCalm(s: State, more: seq<Step>)
    requires Calm(s.calls) && Quiet(more) && Run(s, more).Some?
    ensures Calm(Run(s, more).value.calls)
  {
    if more != [] {
      assert more[|more| - 1] in more && forall x | x in more[..|more| - 1] :: x in more;
      QuietStaysCalm(s, more[..|more| - 1]);
    }
  }

  lemma {:induction false} CalmAppends(steps: seq<Step>, more: seq<Step>)
    requires Exec(steps).Some? && CalmRun(steps) && Calm(Exec(steps).value.calls)
    requires Quiet(more) && Run(Exec(steps).value, more).Some?
    ensures CalmRun(steps + more)
  {
    if more == [] {
      assert steps + more == steps;
    } else {
      var front := more[..|more| - 1];
      assert forall x | x in front :: x in more;
      CalmAppends(steps, front);
      RunAppends(steps, more);
      QuietStaysCalm(Exec(steps).value, more);
      assert (steps + more)[..|steps + more| - 1] == steps + front;
    }
  }

  lemma {:induction false} StuckStays(s: State, more: seq<Step>)
    requires Stuck(s) && Quiet(more) && Run(s, more).Some?
    ensures Stuck(Run(s, more).value)
  {
    if more != [] {
      assert more[|more| - 1] in more && forall x | x in more[..|more| - 1] :: x in more;
      StuckStays(s, more[..|more| - 1]);
    }
  }

  /** After a calm run, a call can make the proxy end up with something else than
      the local set exactly when it begins while another caller is in the middle
      of the opposite call on that path, and the queue can still drain. */
  lemma LastBeginExactly(steps: seq<Step>, caller: nat, call: Call)
    requires Exec(steps).Some? && CalmRun(steps) && Next(Exec(steps).value, Begin(caller, call)).Some?
    ensures var s := Next(Exec(steps).value, Begin(caller, call)).value;
            (exists more :: Diverges(s, more)) <==> !Calm(s.calls) && !Stuck(s)
  {
    var s := Next(Exec(steps).value, Begin(caller, call)).value;
    var begun := steps + [Begin(caller, call)];
    ExecSnoc(steps, Begin(caller, call));
    if !Calm(s.calls) && !Stuck(s) {
      var more := CrossedDiverge(s);
    }
    if more :| Diverges(s, more) {
      if Stuck(s) {
        StuckStays(s, more);
      } else if Calm(s.calls) {
        assert begun[..|begun| - 1] == steps;
        CalmAppends(begun, more);
        RunAppends(begun, more);
        DrainedIsEqual(begun + more);
      }
    }
  }
}
