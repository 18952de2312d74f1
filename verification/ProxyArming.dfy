/** Where the pending WRITEs of a client come from: every delivered WRITE is
    armed, in order, and accounted for from there to the queue
    (k8s/cmd/fsnotify-proxy/app/helper.go). */
module ProxyArming {
  import opened Prelude
  import opened Wire
  import D = Debounce
  import opened ProxyClient
  import opened ProxyClientInv
  import opened ProxyOrder
  import opened ProxySystem
  import opened ProxyDelivery
  import W = ProxyWrites

  // ----------------------------------------------------------- subsequences

  /** `a` is `b` with some elements left out. */
  predicate Within(a: seq<Event>, b: seq<Event>)
    decreases |b|
  {
    || a == []
    || (b != [] && (|| Within(a, b[..|b| - 1])
                    || (a[|a| - 1] == b[|b| - 1] && Within(a[..|a| - 1], b[..|b| - 1]))))
  }

  lemma {:induction false} WithinItself(a: seq<Event>)
    ensures Within(a, a)
  {
    if a != [] {
      WithinItself(a[..|a| - 1]);
    }
  }

  lemma {:induction false} WithinAppend(a: seq<Event>, b: seq<Event>, more: seq<Event>)
    requires Within(a, b)
    ensures Within(a + more, b + more)
    decreases |more|
  {
    if more == [] {
      assert a + more == a && b + more == b;
    } else {
      WithinAppend(a, b, more[..|more| - 1]);
      assert (a + more)[..|a + more| - 1] == a + more[..|more| - 1];
      assert (b + more)[..|b + more| - 1] == b + more[..|more| - 1];
    }
  }

  /** Leaving out one more. */
  lemma {:induction false} WithinDrop(x: seq<Event>, e: Event, z: seq<Event>, b: seq<Event>)
    requires Within(x + [e] + z, b)
    ensures Within(x + z, b)
    decreases |b|
  {
    var a, front := x + [e] + z, b[..|b| - 1];
    if Within(a, front) {
      WithinDrop(x, e, z, front);
    } else if z == [] {
      assert a[..|a| - 1] == x && x + z == x;
    } else {
      assert a[..|a| - 1] == x + [e] + z[..|z| - 1];
      WithinDrop(x, e, z[..|z| - 1], front);
      assert (x + z)[..|x + z| - 1] == x + z[..|z| - 1];
    }
  }

  lemma {:induction false} WithinPrefix(x: seq<Event>, z: seq<Event>, b: seq<Event>)
    requires Within(x + z, b)
    ensures Within(x, b)
    decreases |z|
  {
    if z == [] {
      assert x + z == x;
    } else {
      var front := z[..|z| - 1];
      assert x + z == x + front + [z[|z| - 1]] + [];
      WithinDrop(x + front, z[|z| - 1], [], b);
      assert x + front + [] == x + front;
      WithinPrefix(x, front, b);
    }
  }

  // ---------------------------------------------------------------- history

  /** What was armed under a name. */
  function ArmedIn(l: seq<D.Obs>): seq<Event> {
    if l == [] then []
    else ArmedIn(l[..|l| - 1]) + (if l[|l| - 1].Armed? then [l[|l| - 1].event] else [])
  }

  /** The WRITEs of a name. */
  function WritesOf(es: seq<Event>, n: Str): seq<Event> {
    if es == [] then []
    else
      var e := es[|es| - 1];
      WritesOf(es[..|es| - 1], n) + (if e.op == OP_WRITE && e.name == n then [e] else [])
  }

  /** The events of the current visit that the fan-out has still to take up. */
  function Ahead(pc: Pc): seq<Event> {
    match pc
    case Visit(Queued(p)) => EventsOf(p)
    case Visit(CheckWant(p)) => EventsOf(p)
    case Visit(Checking(p)) => EventsOf(p)
    case Visit(Batch(es)) => es
    case Visit(ArmWant(e, rest)) => [e] + rest
    case Visit(Arming(e, rest)) => [e] + rest
    case Send(_, ForBatch(rest)) => rest
    case Shut(_, ForBatch(rest)) => rest
    case _ => []
  }

  lemma ArmedSnoc(l: seq<D.Obs>, o: D.Obs)
    ensures ArmedIn(l + [o]) == ArmedIn(l) + (if o.Armed? then [o.event] else [])
  {
    assert (l + [o])[..|l|] == l;
  }

  lemma {:induction false} ArmedAreCounted(l: seq<D.Obs>)
    ensures |ArmedIn(l)| == D.Arms(l)
  {
    if l != [] {
      ArmedAreCounted(l[..|l| - 1]);
    }
  }

  lemma {:induction false} WritesAppend(a: seq<Event>, b: seq<Event>, n: Str)
    ensures WritesOf(a + b, n) == WritesOf(a, n) + WritesOf(b, n)
  {
    if b == [] {
      assert a + b == a;
    } else {
      WritesAppend(a, b[..|b| - 1], n);
      assert (a + b)[..|a + b| - 1] == a + b[..|b| - 1];
    }
  }

  lemma WritesCons(e: Event, rest: seq<Event>, n: Str)
    ensures WritesOf([e] + rest, n) == (if e.op == OP_WRITE && e.name == n then [e] else []) + WritesOf(rest, n)
  {
    WritesAppend([e], rest, n);
    assert [e][..0] == [];
  }

  // -------------------------------------------------------------- invariant

  /** Armed and still ahead, together: some of the delivered WRITEs in their
      order, and all of them until the teardown has begun. */
  predicate Adds(armed: seq<Event>, ahead: seq<Event>, delivered: seq<Event>, done: bool) {
    Within(armed + ahead, delivered) && (!done ==> armed + ahead == delivered)
  }

  predicate ArmFits(c: Client, n: Str)
    requires Fan in c.threads
  {
    Adds(ArmedIn(D.Of(c.w.state, n)), WritesOf(Ahead(c.threads[Fan]), n), WritesOf(c.order.delivered, n), c.life.done)
  }

  /** What a step arms under a name. */
  function Arms(s: D.State, step: Option<D.Step>, n: Str): seq<Event> {
    if step.Some? && step.value.DoArm? && !s.closed && step.value.event.name == n then [step.value.event] else []
  }

  lemma StepArms(s: D.State, step: D.Step, n: Str)
    requires D.TimersKnown(s) && D.Enabled(s, step)
    ensures ArmedIn(D.Of(D.Next(s, step), n)) == ArmedIn(D.Of(s, n)) + Arms(s, Some(step), n)
  {
    W.StepObserves(s, step, n);
    var l, more := D.Of(s, n), W.Observed(s, step, n);
    if more == [] {
      assert l + more == l;
    } else {
      assert more == [more[0]];
      ArmedSnoc(l, more[0]);
    }
  }

  lemma MoveArms(c: Client, c': Client, t: Tid, n: Str)
    requires t in c.threads && Moves(c, c', t)
    ensures ArmedIn(D.Of(c'.w.state, n)) ==
            ArmedIn(D.Of(c.w.state, n)) + Arms(c.w.state, DebounceStep(t, c.threads[t]), n)
  {
    var step := DebounceStep(t, c.threads[t]);
    if step.Some? {
      StepArms(c.w.state, step.value, n);
    }
  }

  lemma OthersKeepArms(c: Client, t: Tid, ch: Choice, n: Str)
    requires ClientInv(c) && ArmFits(c, n) && ThreadStep(c, t, ch).Some? && t != Fan
    ensures Fan in ThreadStep(c, t, ch).value.threads && ArmFits(ThreadStep(c, t, ch).value, n)
  {
    MoveKeepsCommon(c, t, ch);
    RunDeliversNone(c, t, ch);
    OtherMoveKeepsArms(c, ThreadStep(c, t, ch).value, t, n);
  }

  lemma OtherMoveKeepsArms(c: Client, c': Client, t: Tid, n: Str)
    requires Fan in c.threads && t in c.threads && t != Fan && Typed(t, c.threads[t])
    requires ArmFits(c, n) && Moves(c, c', t) && NoneDelivered(c, c')
    ensures Fan in c'.threads && ArmFits(c', n)
  {
    MoveArms(c, c', t, n);
    assert ArmedIn(D.Of(c.w.state, n)) + [] == ArmedIn(D.Of(c.w.state, n));
  }

  /** What the fan-out arms leaves the list ahead of it; all else that leaves is
      no WRITE, or is dropped by a teardown. */
  predicate FanTakes(c: Client, pc': Pc, n: Str)
    requires Fan in c.threads
  {
    var ahead, ahead' := WritesOf(Ahead(c.threads[Fan]), n), WritesOf(Ahead(pc'), n);
    if c.threads[Fan].Visit? && c.threads[Fan].v.Arming? then
      var e := c.threads[Fan].v.event;
      e.op == OP_WRITE && ahead == (if e.name == n then [e] else []) + ahead'
    else
      ahead' == ahead || (c.life.done && ahead' == [])
  }

  lemma VisitTakes(c: Client, v: VisitPc, n: Str)
    requires Fan in c.threads && c.threads[Fan] == Visit(v) && OpFits(Visit(v)) && VisitStep(c, v).Some?
    requires c.w.state.closed ==> c.life.done
    ensures FanTakes(c, VisitStep(c, v).value.threads[Fan], n)
  {
    if v.Batch? {
      BatchTakes(c, v.events, n);
    } else if v.Arming? {
      ArmingTakes(c, v.event, v.rest, n);
    } else {
      LockingTakes(c, v, n);
    }
  }

  lemma LockingTakes(c: Client, v: VisitPc, n: Str)
    requires Fan in c.threads && c.threads[Fan] == Visit(v) && !v.Batch? && !v.Arming? && VisitStep(c, v).Some?
    requires c.w.state.closed ==> c.life.done
    ensures FanTakes(c, VisitStep(c, v).value.threads[Fan], n)
  {
    var ahead' := Ahead(VisitStep(c, v).value.threads[Fan]);
    assert ahead' == Ahead(Visit(v)) || (c.life.done && ahead' == []);
  }

  lemma ArmingTakes(c: Client, e: Event, rest: seq<Event>, n: Str)
    requires Fan in c.threads && c.threads[Fan] == Visit(Arming(e, rest)) && e.op == OP_WRITE
    requires VisitStep(c, Arming(e, rest)).Some?
    ensures FanTakes(c, VisitStep(c, Arming(e, rest)).value.threads[Fan], n)
  {
    WritesCons(e, rest, n);
  }

  lemma BatchTakes(c: Client, es: seq<Event>, n: Str)
    requires Fan in c.threads && c.threads[Fan] == Visit(Batch(es))
    ensures FanTakes(c, VisitStep(c, Batch(es)).value.threads[Fan], n)
  {
    if es != [] {
      assert es == [es[0]] + es[1..];
      WritesCons(es[0], es[1..], n);
    }
  }

  lemma SendTakes(c: Client, s: SendPc, k: Kont, ch: Choice, n: Str)
    requires Fan in c.threads && c.threads[Fan] == Send(s, k) && k.ForBatch? && SendStep(c, Fan, s, k, ch).Some?
    ensures FanTakes(c, SendStep(c, Fan, s, k, ch).value.threads[Fan], n)
  {
    var rest, pc' := k.rest, SendStep(c, Fan, s, k, ch).value.threads[Fan];
    assert Ahead(pc') == rest || (c.life.done && Ahead(pc') == []);
  }

  lemma ShutTakes(c: Client, x: ShutPc, k: Kont, n: Str)
    requires Fan in c.threads && c.threads[Fan] == Shut(x, k) && k.ForBatch? && ShutStep(c, Fan, x, k).Some?
    requires c.life.once.Over? || x.Leaving? ==> c.life.done
    ensures FanTakes(c, ShutStep(c, Fan, x, k).value.threads[Fan], n)
  {
  }

  lemma LateIsDone(c: Client)
    requires Shape(c)
    ensures c.life.once.Over? || (c.threads[Fan].Shut? && c.threads[Fan].x.Leaving?) ==> c.life.done
  {
    assert OnceFits(c, Fan);
  }

  lemma FanStepTakes(c: Client, ch: Choice, n: Str)
    requires Fan in c.threads && Typed(Fan, c.threads[Fan]) && OpFits(c.threads[Fan]) && ThreadStep(c, Fan, ch).Some?
    requires c.w.state.closed ==> c.life.done
    requires c.life.once.Over? || (c.threads[Fan].Shut? && c.threads[Fan].x.Leaving?) ==> c.life.done
    ensures Fan in ThreadStep(c, Fan, ch).value.threads
    ensures FanTakes(c, ThreadStep(c, Fan, ch).value.threads[Fan], n)
  {
    match c.threads[Fan]
    case Visit(v) => VisitTakes(c, v, n);
    case Send(s, k) => SendTakes(c, s, k, ch, n);
    case Shut(x, k) => ShutTakes(c, x, k, n);
    case _ =>
  }

  lemma FanKeepsArms(c: Client, ch: Choice, n: Str)
    requires ClientInv(c) && ArmFits(c, n) && ThreadStep(c, Fan, ch).Some?
    ensures Fan in ThreadStep(c, Fan, ch).value.threads && ArmFits(ThreadStep(c, Fan, ch).value, n)
  {
    MoveKeepsCommon(c, Fan, ch);
    LateIsDone(c);
    ClosedIsDone(c);
    FanStepTakes(c, ch, n);
    RunDeliversNone(c, Fan, ch);
    TakingKeepsArms(c, ThreadStep(c, Fan, ch).value, n);
  }

  lemma TakingKeepsArms(c: Client, c': Client, n: Str)
    requires Fan in c.threads && ArmFits(c, n) && Moves(c, c', Fan) && NoneDelivered(c, c')
    requires FanTakes(c, c'.threads[Fan], n) && (c.w.state.closed ==> c.life.done)
    ensures ArmFits(c', n)
  {
    MoveArms(c, c', Fan, n);
    var pc := c.threads[Fan];
    var armed := ArmedIn(D.Of(c.w.state, n));
    var ahead, ahead' := WritesOf(Ahead(pc), n), WritesOf(Ahead(c'.threads[Fan]), n);
    var d := WritesOf(c.order.delivered, n);
    if pc.Visit? && pc.v.Arming? {
      ArmMoves(armed, pc.v.event, ahead', d, c.w.state.closed, c.life.done, n);
    } else {
      assert armed + [] == armed;
      WithinPrefix(armed, ahead, d);
    }
  }

  /** The next event of a batch is armed, or found too late. */
  lemma ArmMoves(armed: seq<Event>, e: Event, rest: seq<Event>, d: seq<Event>, closed: bool, done: bool, n: Str)
    requires closed ==> done
    requires Adds(armed, (if e.name == n then [e] else []) + rest, d, done)
    ensures Adds(armed + (if !closed && e.name == n then [e] else []), rest, d, done)
  {
    if e.name == n {
      assert armed + ([e] + rest) == armed + [e] + rest;
      if closed {
        WithinDrop(armed, e, rest, d);
        assert armed + [] == armed;
      }
    } else {
      assert [] + rest == rest && armed + [] == armed;
    }
  }

  /** Delivered to a fan-out that has nothing ahead of it. */
  lemma AddMore(armed: seq<Event>, ahead: seq<Event>, d: seq<Event>, done: bool, more: seq<Event>)
    requires ahead == [] && Adds(armed, ahead, d, done)
    ensures Adds(armed, more, d + more, done)
  {
    assert armed + [] == armed;
    WithinAppend(armed, d, more);
  }

  lemma CollectKeepsArms(c: Client, c': Client, p: Payload, n: Str)
    requires FanIs(c, Away) && ArmFits(c, n)
    requires c' == At(c.(order := c.order.(delivered := c.order.delivered + EventsOf(p))), Fan, Visit(Queued(p)))
    ensures ArmFits(c', n)
  {
    var armed, d, more := ArmedIn(D.Of(c.w.state, n)), WritesOf(c.order.delivered, n), WritesOf(EventsOf(p), n);
    WritesAppend(c.order.delivered, EventsOf(p), n);
    AddMore(armed, WritesOf(Ahead(c.threads[Fan]), n), d, c.life.done, more);
  }

  lemma QuietKeepsArms(c: Client, l: Label, n: Str)
    requires Fan in c.threads && ArmFits(c, n) && Next(c, l).Some? && (l.Start? || l.Tick? || l.Fire?)
    ensures Fan in Next(c, l).value.threads && ArmFits(Next(c, l).value, n)
  {
  }

  lemma StepKeepsArms(c: Client, l: Label, n: Str)
    requires ClientInv(c) && ArmFits(c, n) && Next(c, l).Some?
    ensures Fan in Next(c, l).value.threads && ArmFits(Next(c, l).value, n)
  {
    match l
    case Run(t, ch) => if t == Fan { FanKeepsArms(c, ch, n); } else { OthersKeepArms(c, t, ch, n); }
    case Collect(p) => CollectKeepsArms(c, Next(c, l).value, p, n);
    case _ => QuietKeepsArms(c, l, n);
  }

  lemma {:induction false} RunKeepsArms(steps: seq<Step>, c: Cid, n: Str)
    requires Exec(steps).Some? && c in Exec(steps).value.clients
    ensures Fan in Exec(steps).value.clients[c].threads && ArmFits(Exec(steps).value.clients[c], n)
  {
    var front, step := steps[..|steps| - 1], steps[|steps| - 1];
    var s := Exec(front).value;
    if c in s.clients {
      RunKeepsArms(front, c, n);
      RunKeepsInv(front);
      assert ClientInv(s.clients[c]);
      var l := ClientMoves(s, step, c);
      if l.Some? {
        StepKeepsArms(s.clients[c], l.value, n);
      }
    } else {
      OnlyAcceptAdds(s, step, c);
    }
  }

  // --------------------------------------------------------------- theorems

  /** In every run the WRITEs armed under a name are delivered ones, in order.
      Until the client's teardown has begun they are all of them, but for those
      still ahead of the fan-out in its visit; so none, when it is elsewhere. */
  lemma WritesAreArmed(steps: seq<Step>, c: Cid, n: Str)
    requires Exec(steps).Some? && c in Exec(steps).value.clients
    ensures var cl, delivered := Exec(steps).value.clients[c], WritesOf(DeliveredTo(steps, c), n);
            var armed := ArmedIn(D.Of(cl.w.state, n));
            && Fan in cl.threads
            && Within(armed, delivered)
            && (!cl.life.done ==> armed + WritesOf(Ahead(cl.threads[Fan]), n) == delivered)
            && (!cl.life.done && FanIs(cl, Away) ==>
                  armed == delivered && D.Arms(D.Of(cl.w.state, n)) == |delivered|)
  {
    RunKeepsArms(steps, c, n);
    DeliveredIsAll(steps, c);
    var cl := Exec(steps).value.clients[c];
    var armed := ArmedIn(D.Of(cl.w.state, n));
    WithinPrefix(armed, WritesOf(Ahead(cl.threads[Fan]), n), WritesOf(DeliveredTo(steps, c), n));
    ArmedAreCounted(D.Of(cl.w.state, n));
    assert armed + [] == armed;
  }

  /** From delivery to the queue, per name: while the client is up and the fan-out
      elsewhere, delivered WRITEs = replaced by a later one before any flush +
      pending + queued + unmapped + refused + in the hands of a callback. */
  lemma WritesAreConserved(steps: seq<Step>, c: Cid, n: Str)
    requires Exec(steps).Some? && c in Exec(steps).value.clients
    requires var cl := Exec(steps).value.clients[c]; !cl.life.done && FanIs(cl, Away)
    ensures var cl, log := Exec(steps).value.clients[c], W.LogOf(steps, c);
            |WritesOf(DeliveredTo(steps, c), n)| ==
            D.Superseded(D.Of(cl.w.state, n)) + (if n in cl.w.state.pending then 1 else 0) +
            |W.By(log, n, W.Enqueued)| + |W.By(log, n, W.Unmapped)| +
            |W.By(log, n, W.Refused)| + |W.By(log, n, W.InHand)|
  {
    WritesAreArmed(steps, c, n);
    W.FlushesAreConserved(steps, c, n);
    RunKeepsInv(steps);
    var cl := Exec(steps).value.clients[c];
    assert ClientInv(cl);
    ClosedIsDone(cl);
    assert D.NameAccounted(cl.w.state, n);
    D.ArmsAreConserved(D.Of(cl.w.state, n));
  }
}
