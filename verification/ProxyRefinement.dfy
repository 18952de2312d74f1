/** The objects of ProxyServer and the step machine of ProxyClient are the same
    code: one WriteMsg, run without interruption, is a run of the fan-out thread,
    and one flushWriteDebounce a run of the callback's. */
module ProxyRefinement {
  import opened Prelude
  import opened Wire
  import opened Mapping
  import D = Debounce
  import opened ProxyClient
  import S = ProxyServer
  import N = Naming

  /** Thread `t` takes `n` steps, nobody else any. */
  function Follow(c: Client, t: Tid, n: nat): Option<Client>
    decreases n
  {
    if n == 0 then Some(c)
    else
      match ThreadStep(c, t, Go)
      case None => None
      case Some(c1) => Follow(c1, t, n - 1)
  }

  lemma {:induction false} FollowAdd(c: Client, t: Tid, a: nat, b: nat)
    requires Follow(c, t, a).Some?
    ensures Follow(c, t, a + b) == Follow(Follow(c, t, a).value, t, b)
    decreases a
  {
    if a > 0 {
      FollowAdd(ThreadStep(c, t, Go).value, t, a - 1, b);
    }
  }

  lemma FollowOne(c: Client, t: Tid, n: nat, c1: Client, c2: Client)
    requires Follow(c, t, n) == Some(c1) && ThreadStep(c1, t, Go) == Some(c2)
    ensures Follow(c, t, n + 1) == Some(c2)
  {
    FollowAdd(c, t, n, 1);
    assert Follow(c1, t, 1) == Follow(c2, t, 0);
  }

  /** A client of the step machine as an object's state. */
  function Abs(c: Client): S.Side {
    S.Side(c.w.state, N.Frames(c.queue.q), c.life.done, c.life.connOpen, !c.life.once.Fresh?, c.life.removes)
  }

  /** No other thread is in a critical section or in shutdown. */
  predicate Calm(c: Client) {
    && c.w.mu == Lock({}, None) && D.TimersKnown(c.w.state)
    && |c.queue.q| <= DEPTH
    && (if c.life.done then c.life.once.Over? else c.life.once.Fresh? && c.life.helper && !c.w.state.closed)
  }

  predicate GoesOn(c: Client, t: Tid, pc: Pc) {
    Calm(c) && t in c.threads && c.threads[t] == pc
  }

  predicate AtBatch(c: Client, es: seq<Event>) {
    FanIs(c, Batch(es)) && Calm(c)
  }

  // ----------------------------------------------------------- shutdown

  /** One step of a thread inside shutdown. */
  lemma ShutOne(c: Client, t: Tid, n: nat, c1: Client, x: ShutPc, k: Kont, c2: Client)
    requires Follow(c, t, n) == Some(c1) && t in c1.threads && c1.threads[t] == Shut(x, k)
    requires ShutStep(c1, t, x, k) == Some(c2)
    ensures Follow(c, t, n + 1) == Some(c2)
  {
    assert ThreadStep(c1, t, Go) == ShutStep(c1, t, x, k);
    FollowOne(c, t, n, c1, c2);
  }

  /** The client while a thread is in shutdown. */
  function InShut(c: Client, t: Tid, life: Life, w: Helper, pc: Pc): Client {
    Client(life, c.queue, w, c.order, c.threads[t := pc])
  }

  lemma InShutTwice(c: Client, t: Tid, life1: Life, w: Helper, pc1: Pc, life2: Life, pc2: Pc)
    ensures InShut(InShut(c, t, life1, w, pc1), t, life2, w, pc2) == InShut(c, t, life2, w, pc2)
  {
    assert c.threads[t := pc1][t := pc2] == c.threads[t := pc2];
  }

  lemma ShutBegins(c: Client, t: Tid, k: Kont) returns (c': Client)
    requires t in c.threads && c.threads[t] == Shut(Enter, k)
    requires Calm(c) && !c.life.done
    ensures Follow(c, t, 3) == Some(c')
    ensures c' == InShut(c, t, c.life.(once := Running(t), done := true, connOpen := false), c.w, Shut(CloseWant, k))
  {
    var l1 := c.life.(once := Running(t));
    var c1 := InShut(c, t, l1, c.w, Shut(CloseDone, k));
    ShutOne(c, t, 0, c, Enter, k, c1);
    var c2 := InShut(c, t, l1.(done := true), c.w, Shut(CloseConn, k));
    assert c2.threads == c1.threads[t := Shut(CloseConn, k)];
    ShutOne(c, t, 1, c1, CloseDone, k, c2);
    c' := InShut(c, t, l1.(done := true, connOpen := false), c.w, Shut(CloseWant, k));
    assert c'.threads == c2.threads[t := Shut(CloseWant, k)];
    ShutOne(c, t, 2, c2, CloseConn, k, c');
  }

  lemma ShutCloses(c: Client, t: Tid, k: Kont) returns (c': Client)
    requires t in c.threads && c.threads[t] == Shut(CloseWant, k)
    requires c.w.mu == Lock({}, None) && !c.w.state.closed
    ensures Follow(c, t, 3) == Some(c')
    ensures c' == InShut(c, t, c.life.(removes := c.life.removes + 1), c.w.(state := D.Close(c.w.state)),
                         Shut(DropWant, k))
  {
    var c2 := ShutClosesFirst(c, t, k);
    c' := InShut(c2, t, c2.life.(removes := c2.life.removes + 1), c2.w, Shut(DropWant, k));
    RemovingStep(c2, t, k);
    ShutOne(c, t, 2, c2, Removing, k, c');
    InShutTwice(c, t, c.life, c2.w, Shut(Removing, k), c'.life, Shut(DropWant, k));
  }

  lemma RemovingStep(c: Client, t: Tid, k: Kont)
    ensures ShutStep(c, t, Removing, k) ==
            Some(InShut(c, t, c.life.(removes := c.life.removes + 1), c.w, Shut(DropWant, k)))
  {
  }

  lemma ShutClosesFirst(c: Client, t: Tid, k: Kont) returns (c': Client)
    requires t in c.threads && c.threads[t] == Shut(CloseWant, k)
    requires c.w.mu == Lock({}, None) && !c.w.state.closed
    ensures Follow(c, t, 2) == Some(c')
    ensures c' == InShut(c, t, c.life, c.w.(state := D.Close(c.w.state)), Shut(Removing, k))
  {
    var c1 := InShut(c, t, c.life, WLock(c.w, t), Shut(Closing, k));
    ShutOne(c, t, 0, c, CloseWant, k, c1);
    c' := InShut(c, t, c.life, c.w.(state := D.Close(c.w.state)), Shut(Removing, k));
    assert c'.threads == c1.threads[t := Shut(Removing, k)];
    ShutOne(c, t, 1, c1, Closing, k, c');
  }

  lemma ShutEnds(c: Client, t: Tid, k: Kont) returns (c': Client)
    requires t in c.threads && c.threads[t] == Shut(DropWant, k)
    ensures Follow(c, t, 3) == Some(c')
    ensures c' == InShut(c, t, c.life.(published := false, once := Over), c.w, AfterErr(k))
  {
    var c1 := InShut(c, t, c.life, c.w, Shut(Dropping, k));
    ShutOne(c, t, 0, c, DropWant, k, c1);
    var c2 := InShut(c, t, c.life.(published := false), c.w, Shut(Leaving, k));
    assert c2.threads == c1.threads[t := Shut(Leaving, k)];
    ShutOne(c, t, 1, c1, Dropping, k, c2);
    c' := InShut(c, t, c.life.(published := false, once := Over), c.w, AfterErr(k));
    assert c'.threads == c2.threads[t := AfterErr(k)];
    ShutOne(c, t, 2, c2, Leaving, k, c');
  }

  /** shutdown, from start to end. */
  lemma ShutdownRuns(c: Client, t: Tid, k: Kont) returns (c': Client)
    requires t in c.threads && c.threads[t] == Shut(Enter, k)
    requires Calm(c) && !c.life.done
    ensures Follow(c, t, 9) == Some(c') && GoesOn(c', t, AfterErr(k))
    ensures c'.w.podPathMap == c.w.podPathMap && Abs(c') == S.Down(Abs(c))
  {
    var c1 := ShutBegins(c, t, k);
    var c2 := ShutCloses(c1, t, k);
    c' := ShutEnds(c2, t, k);
    FollowThrice(c, t, c1, c2, c');
    IsDown(c, c', t);
  }

  lemma FollowThrice(c: Client, t: Tid, c1: Client, c2: Client, c3: Client)
    requires Follow(c, t, 3) == Some(c1) && Follow(c1, t, 3) == Some(c2) && Follow(c2, t, 3) == Some(c3)
    ensures Follow(c, t, 9) == Some(c3)
  {
    FollowAdd(c, t, 3, 3);
    FollowAdd(c, t, 6, 3);
  }

  lemma IsDown(c: Client, c': Client, t: Tid)
    requires Calm(c) && !c.life.done
    requires c'.life == c.life.(once := Over, done := true, connOpen := false, published := false,
                                removes := c.life.removes + 1)
    requires c'.w == c.w.(state := D.Close(c.w.state)) && c'.queue == c.queue
    ensures Calm(c') && Abs(c') == S.Down(Abs(c))
  {
  }

  // ------------------------------------------------------------ sendEvent

  /** Take the read lock, translate, let go. */
  lemma TranslateRuns(c: Client, t: Tid, e: Event, k: Kont) returns (c': Client)
    requires GoesOn(c, t, Send(TransWant(e), k))
    ensures Follow(c, t, 2) == Some(c') && Abs(c') == Abs(c) && c'.w == c.w && c'.queue == c.queue
    ensures GoesOn(c', t, if e.key in c.w.podPathMap then Send(Probe(Translate(e, c.w.podPathMap)), k) else AfterOk(k))
  {
    var c1 := At(c.(w := RLock(c.w, t)), t, Send(Translating(e), k));
    c' := ThreadStep(c1, t, Go).value;
    FollowOne(c, t, 0, c, c1);
    FollowOne(c, t, 1, c1, c');
    assert c'.w.mu == c.w.mu;
  }

  /** SendBytes, with the frame in hand. */
  lemma SendRuns(c: Client, t: Tid, f: Event, k: Kont) returns (n: nat, c': Client)
    requires GoesOn(c, t, Send(Probe(f), k))
    ensures Follow(c, t, n) == Some(c') && c'.w.podPathMap == c.w.podPathMap
    ensures var (s, err) := S.Sent(Abs(c), S.FrameOf(f));
            Abs(c') == s && GoesOn(c', t, if err == S.NoError then AfterOk(k) else AfterErr(k))
  {
    var c1 := ThreadStep(c, t, Go).value;
    FollowOne(c, t, 0, c, c1);
    if c.life.done {
      n, c' := 1, c1;
    } else {
      var c2 := ThreadStep(c1, t, Go).value;
      FollowOne(c, t, 1, c1, c2);
      if |c.queue.q| < DEPTH {
        n, c' := 2, c2;
        assert N.Frames(c.queue.q + [f]) == N.Frames(c.queue.q) + [S.FrameOf(f)];
      } else {
        c' := ShutdownRuns(c2, t, k);
        FollowAdd(c, t, 2, 9);
        n := 11;
      }
    }
  }

  lemma SendEventRuns(c: Client, t: Tid, e: Event, k: Kont) returns (n: nat, c': Client)
    requires GoesOn(c, t, Send(TransWant(e), k))
    ensures Follow(c, t, n) == Some(c') && c'.w.podPathMap == c.w.podPathMap
    ensures var (s, err) := S.EventSent(Abs(c), c.w.podPathMap, e);
            Abs(c') == s && GoesOn(c', t, if err == S.NoError then AfterOk(k) else AfterErr(k))
  {
    var c1 := TranslateRuns(c, t, e, k);
    if e.key in c.w.podPathMap {
      var m: nat;
      m, c' := SendRuns(c1, t, Translate(e, c.w.podPathMap), k);
      FollowAdd(c, t, 2, m);
      n := 2 + m;
    } else {
      n, c' := 2, c1;
    }
  }

  // --------------------------------------------------- one callback's flush

  /** A callback that nothing interrupts ends, and leaves the client as
      flushWriteDebounce of the object would. */
  lemma FlushIsARun(c: Client, id: nat) returns (n: nat, c': Client)
    requires GoesOn(c, Callback(id), Flush(FlushWant)) && id < |c.w.state.timers|
    ensures Follow(c, Callback(id), n) == Some(c') && GoesOn(c', Callback(id), Ended)
    ensures Abs(c') == S.Flushed(Abs(c), c.w.podPathMap, id)
  {
    var t := Callback(id);
    var c1 := At(c.(w := WLock(c.w, t)), t, Flush(Flushing));
    var c2 := ThreadStep(c1, t, Go).value;
    FollowOne(c, t, 0, c, c1);
    FollowOne(c, t, 1, c1, c2);
    assert c2.w.mu == c.w.mu;
    match D.Due(c.w.state, id)
    case None => n, c' := 2, c2;
    case Some(e) =>
      var m: nat;
      m, c' := SendEventRuns(c2, t, e, ForCallback);
      FollowAdd(c, t, 2, m);
      n := 2 + m;
  }

  // --------------------------------------------------------- one event

  lemma ArmRuns(c: Client, e: Event, rest: seq<Event>) returns (c': Client)
    requires AtBatch(c, [e] + rest) && e.op == OP_WRITE
    ensures Follow(c, Fan, 3) == Some(c') && AtBatch(c', rest) && c'.w.podPathMap == c.w.podPathMap
    ensures (Abs(c'), S.NoError) == S.One(Abs(c), c.w.podPathMap, e)
  {
    assert ([e] + rest)[1..] == rest;
    var c1 := At(c, Fan, Visit(ArmWant(e, rest)));
    var c2 := At(c1.(w := WLock(c1.w, Fan)), Fan, Visit(Arming(e, rest)));
    c' := At(c2.(w := WUnlock(c2.w, D.Arm(c2.w.state, e))), Fan, Visit(Batch(rest)));
    FollowOne(c, Fan, 0, c, c1);
    FollowOne(c, Fan, 1, c1, c2);
    FollowOne(c, Fan, 2, c2, c');
    S.ArmKeepsKnown(c.w.state, e);
  }

  lemma EventRuns(c: Client, e: Event, rest: seq<Event>) returns (n: nat, c': Client)
    requires AtBatch(c, [e] + rest)
    ensures Follow(c, Fan, n) == Some(c') && c'.w.podPathMap == c.w.podPathMap
    ensures var (s, err) := S.One(Abs(c), c.w.podPathMap, e);
            Abs(c') == s && Calm(c') && FanIs(c', if err == S.NoError then Batch(rest) else Away)
  {
    if e.op == OP_WRITE {
      n := 3;
      c' := ArmRuns(c, e, rest);
    } else {
      assert ([e] + rest)[1..] == rest;
      var c1 := At(c, Fan, Send(TransWant(e), ForBatch(rest)));
      FollowOne(c, Fan, 0, c, c1);
      n, c' := SendEventRuns(c1, Fan, e, ForBatch(rest));
      FollowAdd(c, Fan, 1, n);
      n := 1 + n;
    }
  }

  // -------------------------------------------------------- a whole visit

  /** The batch loop of ProxyServer, read from the front. */
  lemma {:induction false} BatchCons(s: S.Side, m: PathMap, e: Event, rest: seq<Event>)
    requires D.TimersKnown(s.state)
    ensures var (s1, err) := S.One(s, m, e);
            S.Batch(s, m, [e] + rest) == if err == S.NoError then S.Batch(s1, m, rest) else (s1, err)
    decreases rest
  {
    if rest == [] {
      assert [e] + rest == [] + [e];
      S.BatchSnoc(s, m, [], e);
    } else {
      var front := rest[..|rest| - 1];
      BatchCons(s, m, e, front);
      assert ([e] + rest)[..|[e] + rest| - 1] == [e] + front;
      assert ([e] + rest)[|[e] + rest| - 1] == rest[|rest| - 1];
    }
  }

  lemma {:induction false} BatchRuns(c: Client, es: seq<Event>) returns (n: nat, c': Client)
    requires AtBatch(c, es)
    ensures Follow(c, Fan, n) == Some(c') && c'.w.podPathMap == c.w.podPathMap
    ensures Abs(c') == S.Batch(Abs(c), c.w.podPathMap, es).0 && FanIs(c', Away) && Calm(c')
    decreases es
  {
    if es == [] {
      n, c' := 1, At(c, Fan, Visit(Away));
      FollowOne(c, Fan, 0, c, c');
    } else {
      var e, rest := es[0], es[1..];
      assert es == [e] + rest;
      BatchCons(Abs(c), c.w.podPathMap, e, rest);
      n, c' := EventRuns(c, e, rest);
      if FanIs(c', Batch(rest)) {
        var k: nat, c2 := BatchRuns(c', rest);
        FollowAdd(c, Fan, n, k);
        n, c' := n + k, c2;
      }
    }
  }

  /** A visit of the fan-out that nothing interrupts ends, and leaves the client
      as WriteMsg of the object would. */
  lemma WriteMsgIsARun(c: Client, p: Payload) returns (n: nat, c': Client)
    requires FanIs(c, CheckWant(p)) && Calm(c)
    ensures Follow(c, Fan, n) == Some(c') && FanIs(c', Away) && Calm(c')
    ensures Abs(c') == S.Written(Abs(c), c.w.podPathMap, p).0
  {
    var c1 := At(c.(w := RLock(c.w, Fan)), Fan, Visit(Checking(p)));
    var c2 := ThreadStep(c1, Fan, Go).value;
    FollowOne(c, Fan, 0, c, c1);
    FollowOne(c, Fan, 1, c1, c2);
    assert c2.w.mu == c.w.mu;
    if c.w.state.closed || p.Malformed? {
      n, c' := 2, c2;
    } else {
      var k: nat;
      k, c' := BatchRuns(c2, p.events);
      FollowAdd(c, Fan, 2, k);
      n := 2 + k;
    }
  }
}
