/** The WRITE debounce of k8s/cmd/fsnotify-proxy/app/helper.go as a step
    machine: a map of pending writes, resettable timers, and generation numbers
    by which callbacks of replaced timers are meant to be recognised. */
module Debounce {
  import opened Prelude
  import opened Wire

  /** writeDebounce, in nanoseconds. */
  const QUIET: nat := 1_000_000_000

  /** The generation is a uint64. */
  const GENERATIONS: nat := 0x1_0000_0000_0000_0000

  /** A fired timer's callback has started but not yet taken the mutex. */
  datatype Phase = Scheduled | Fired | Stopped | Ran

  /** `life` and `arms` are history: which entry the timer was made for, and the
      how-manieth arm of that entry it was. */
  datatype Timer = Timer(name: Str, gen: nat, due: nat, phase: Phase, life: nat, arms: nat)

  /** A delayedWrite. `armedAt`, `life` and `arms` are history. */
  datatype Entry = Entry(event: Event, gen: nat, timer: nat, armedAt: nat, life: nat, arms: nat)

  datatype Obs = Armed(event: Event) | Flushed(event: Event)

  /** The generation of an entry after so many arms. */
  function Gen(arms: nat): nat {
    arms % GENERATIONS
  }

  /** `lives` and `seen` are history: entries made so far, and what was armed
      and flushed under each name. */
  datatype State = State(
    closed: bool,
    pending: map<Str, Entry>,
    timers: seq<Timer>,
    now: nat,
    lives: nat,
    seen: map<Str, seq<Obs>>)

  const INIT := State(false, map[], [], 0, 0, map[])

  /** What was observed of one name. */
  function Of(s: State, n: Str): seq<Obs> {
    if n in s.seen then s.seen[n] else []
  }

  // ---------------------------------------------------------------- steps

  function StopTimer(timers: seq<Timer>, id: nat): (r: seq<Timer>)
    requires id < |timers|
    ensures |r| == |timers|
  {
    if timers[id].phase.Scheduled? then timers[id := timers[id].(phase := Stopped)] else timers
  }

  predicate TimersKnown(s: State) {
    forall n | n in s.pending :: s.pending[n].timer < |s.timers|
  }

  /** armWriteDebounce, one critical section. */
  function Arm(s: State, event: Event): State
    requires TimersKnown(s)
  {
    if s.closed then s
    else
      var n := event.name;
      var known := n in s.pending;
      var timers := if known then StopTimer(s.timers, s.pending[n].timer) else s.timers;
      var gen := if known then (s.pending[n].gen + 1) % GENERATIONS else 1;
      var life := if known then s.pending[n].life else s.lives;
      var arms := if known then s.pending[n].arms + 1 else 1;
      s.(pending := s.pending[n := Entry(event, gen, |timers|, s.now, life, arms)],
         timers := timers + [Timer(n, gen, s.now + QUIET, Scheduled, life, arms)],
         lives := if known then s.lives else s.lives + 1,
         seen := s.seen[n := Of(s, n) + [Armed(event)]])
  }

  /** What the callback of timer `id` finds to flush once it has the mutex. */
  function Due(s: State, id: nat): Option<Event>
    requires id < |s.timers|
  {
    var t := s.timers[id];
    if t.name !in s.pending || s.pending[t.name].gen != t.gen || s.closed then None
    else Some(s.pending[t.name].event)
  }

  /** flushWriteDebounce up to the unlock. */
  function RunCallback(s: State, id: nat): State
    requires id < |s.timers|
  {
    var s' := s.(timers := s.timers[id := s.timers[id].(phase := Ran)]);
    match Due(s, id)
    case None => s'
    case Some(ev) => s'.(pending := s.pending - {s.timers[id].name},
                          seen := s.seen[s.timers[id].name := Of(s, s.timers[id].name) + [Flushed(ev)]])
  }

  /** Close up to the unlock: every pending timer is stopped, nothing stays pending. */
  function Close(s: State): State {
    if s.closed then s
    else s.(closed := true, pending := map[], timers := StopAll(s.timers, set n | n in s.pending :: s.pending[n].timer))
  }

  function StopAll(timers: seq<Timer>, ids: set<nat>): (r: seq<Timer>)
    ensures |r| == |timers|
  {
    seq(|timers|, i requires 0 <= i < |timers| =>
      if i in ids && timers[i].phase.Scheduled? then timers[i].(phase := Stopped) else timers[i])
  }

  datatype Step = DoArm(event: Event) | DoTick(d: nat) | DoFire(id: nat) | DoRun(id: nat) | DoClose

  predicate Enabled(s: State, step: Step) {
    match step
    case DoFire(id) => id < |s.timers| && s.timers[id].phase.Scheduled? && s.timers[id].due <= s.now
    case DoRun(id) => id < |s.timers| && s.timers[id].phase.Fired?
    case _ => true
  }

  function Next(s: State, step: Step): State
    requires TimersKnown(s) && Enabled(s, step)
  {
    match step
    case DoArm(event) => Arm(s, event)
    case DoTick(d) => s.(now := s.now + d)
    case DoFire(id) => s.(timers := s.timers[id := s.timers[id].(phase := Fired)])
    case DoRun(id) => RunCallback(s, id)
    case DoClose => Close(s)
  }

  // ------------------------------------------------------------ invariant

  /** The pending entry has a callback to come that will recognise it. */
  predicate EntryServed(s: State, n: Str)
    requires n in s.pending
  {
    var e := s.pending[n];
    && e.timer < |s.timers|
    && s.timers[e.timer].name == n == e.event.name
    && s.timers[e.timer].gen == e.gen
    && (s.timers[e.timer].phase.Scheduled? || s.timers[e.timer].phase.Fired?)
  }

  /** No WRITE is lost: every pending entry is served, and a closed watcher has none. */
  predicate Served(s: State) {
    && (forall n | n in s.pending :: EntryServed(s, n))
    && (s.closed ==> s.pending == map[])
  }

  predicate EntryDated(s: State, n: Str)
    requires n in s.pending
  {
    var e := s.pending[n];
    && e.timer < |s.timers|
    && s.timers[e.timer].due == e.armedAt + QUIET
    && s.timers[e.timer].life == e.life < s.lives
    && s.timers[e.timer].arms == e.arms >= 1
    && e.gen == Gen(e.arms)
  }

  predicate TimerDated(s: State, i: nat)
    requires i < |s.timers|
  {
    var t := s.timers[i];
    && (t.phase.Fired? || t.phase.Ran? ==> t.due <= s.now)
    && t.life < s.lives && t.arms >= 1 && t.gen == Gen(t.arms)
  }

  /** Of the timers made for one entry, the entry's own is the newest. */
  predicate Newest(s: State, n: Str, i: nat)
    requires n in s.pending && i < |s.timers|
  {
    s.timers[i].life == s.pending[n].life ==>
      s.timers[i].name == n && (i == s.pending[n].timer || s.timers[i].arms < s.pending[n].arms)
  }

  /** Histories and clocks fit the data they describe. */
  predicate Dated(s: State) {
    && (forall n | n in s.pending :: EntryDated(s, n))
    && (forall i: nat | i < |s.timers| :: TimerDated(s, i))
    && (forall n, i: nat | n in s.pending && i < |s.timers| :: Newest(s, n, i))
  }

  predicate EndsArmed(l: seq<Obs>, event: Event) {
    l != [] && l[|l| - 1] == Armed(event)
  }

  /** Each flush carries the event armed just before it. */
  predicate FlushesFollowArms(l: seq<Obs>) {
    forall i | 0 <= i < |l| && l[i].Flushed? :: i > 0 && l[i - 1] == Armed(l[i].event)
  }

  /** Every armed event is pending, or has been replaced by the next arm, or
      flushed, or was pending when the watcher closed. */
  predicate NameAccounted(s: State, n: Str) {
    && FlushesFollowArms(Of(s, n))
    && (n in s.pending ==> EndsArmed(Of(s, n), s.pending[n].event))
    && (!s.closed && n !in s.pending ==> Of(s, n) == [] || Of(s, n)[|Of(s, n)| - 1].Flushed?)
  }

  ghost predicate Accounted(s: State) {
    forall n :: NameAccounted(s, n)
  }

  ghost predicate Inv(s: State) {
    Served(s) && Dated(s) && Accounted(s)
  }

  lemma NextKeepsServed(s: State, step: Step)
    requires Served(s) && Enabled(s, step)
    ensures TimersKnown(s) && Served(Next(s, step))
  {
    forall n | n in s.pending ensures s.pending[n].timer < |s.timers| {
      assert EntryServed(s, n);
    }
    var s' := Next(s, step);
    forall n | n in s'.pending ensures EntryServed(s', n) {
      if n in s.pending {
        assert EntryServed(s, n);
        if step.DoArm? && step.event.name in s.pending {
          assert EntryServed(s, step.event.name);
        }
      }
    }
  }

  /** A step changes nothing of an old timer but its phase. */
  lemma TimersAge(s: State, step: Step)
    requires Served(s) && Enabled(s, step)
    ensures TimersKnown(s)
    ensures var s' := Next(s, step);
            && |s.timers| <= |s'.timers| <= |s.timers| + 1 && s.now <= s'.now && s.lives <= s'.lives
            && forall i: nat | i < |s.timers| ::
                 s'.timers[i] == s.timers[i].(phase := s'.timers[i].phase)
  {
    forall n | n in s.pending ensures EntryServed(s, n) {}
  }

  /** A timer fires and runs only by its own steps. */
  lemma PhasesMove(s: State, step: Step)
    requires TimersKnown(s) && Enabled(s, step)
    ensures var s' := Next(s, step);
            && |s.timers| <= |s'.timers|
            && (forall i: nat | i < |s.timers| ::
                  && (s'.timers[i].phase.Ran? <==> s.timers[i].phase.Ran? || step == DoRun(i))
                  && (s'.timers[i].phase.Fired? <==>
                      step == DoFire(i) || (s.timers[i].phase.Fired? && step != DoRun(i))))
            && (forall i: nat | |s.timers| <= i < |s'.timers| :: s'.timers[i].phase.Scheduled?)
  {
  }

  lemma NextKeepsEntryDated(s: State, step: Step, n: Str)
    requires Served(s) && Dated(s) && Enabled(s, step) && TimersKnown(s)
    requires n in Next(s, step).pending
    ensures EntryDated(Next(s, step), n)
  {
    TimersAge(s, step);
    if n in s.pending {
      assert EntryDated(s, n);
      GenNext(s.pending[n].arms);
    }
  }

  lemma NextKeepsTimerDated(s: State, step: Step, i: nat)
    requires Served(s) && Dated(s) && Enabled(s, step) && TimersKnown(s)
    requires i < |Next(s, step).timers|
    ensures TimerDated(Next(s, step), i)
  {
    TimersAge(s, step);
    if i < |s.timers| {
      assert TimerDated(s, i);
      PhasesMove(s, step);
    } else {
      assert step.DoArm?;
      NewTimerDated(s, step.event);
    }
  }

  lemma GenNext(arms: nat)
    ensures Gen(arms + 1) == (Gen(arms) + 1) % GENERATIONS && Gen(1) == 1
  {
  }

  lemma NewTimerDated(s: State, event: Event)
    requires Dated(s) && TimersKnown(s) && !s.closed
    ensures |Arm(s, event).timers| == |s.timers| + 1 && TimerDated(Arm(s, event), |s.timers|)
  {
    if event.name in s.pending {
      assert EntryDated(s, event.name);
      GenNext(s.pending[event.name].arms);
    }
  }

  lemma NextKeepsNewest(s: State, step: Step, n: Str, i: nat)
    requires Served(s) && Dated(s) && Enabled(s, step) && TimersKnown(s)
    requires n in Next(s, step).pending && i < |Next(s, step).timers|
    ensures Newest(Next(s, step), n, i)
  {
    TimersAge(s, step);
    if n in s.pending {
      assert EntryDated(s, n);
      if i < |s.timers| {
        assert Newest(s, n, i);
      } else if step.event.name in s.pending {
        var m := step.event.name;
        assert EntryDated(s, m) && Newest(s, n, s.pending[m].timer);
      }
    } else if i < |s.timers| {
      assert TimerDated(s, i);
    }
  }

  lemma NextKeepsDated(s: State, step: Step)
    requires Served(s) && Dated(s) && Enabled(s, step)
    ensures TimersKnown(s) && Dated(Next(s, step))
  {
    TimersAge(s, step);
    var s' := Next(s, step);
    forall n | n in s'.pending ensures EntryDated(s', n) {
      NextKeepsEntryDated(s, step, n);
    }
    forall i: nat | i < |s'.timers| ensures TimerDated(s', i) {
      NextKeepsTimerDated(s, step, i);
    }
    forall n, i: nat | n in s'.pending && i < |s'.timers| ensures Newest(s', n, i) {
      NextKeepsNewest(s, step, n, i);
    }
  }

  lemma NextKeepsAccounted(s: State, step: Step)
    requires Served(s) && Accounted(s) && Enabled(s, step)
    ensures TimersKnown(s) && Accounted(Next(s, step))
  {
    forall n | n in s.pending ensures EntryServed(s, n) {}
    var s' := Next(s, step);
    forall n ensures NameAccounted(s', n) {
      assert NameAccounted(s, n);
    }
  }

  /** Over any run: nothing pending is ever forgotten, and every armed event is
      accounted for. */
  lemma NextKeepsInv(s: State, step: Step)
    requires Inv(s) && Enabled(s, step)
    ensures Inv(Next(s, step))
  {
    NextKeepsServed(s, step);
    NextKeepsDated(s, step);
    NextKeepsAccounted(s, step);
  }

  // ---------------------------------------------------------------- runs

  /** The state after a run, if each step was enabled when taken. */
  function Exec(steps: seq<Step>): Option<State> {
    if steps == [] then Some(INIT)
    else
      var last := steps[|steps| - 1];
      match Exec(steps[..|steps| - 1])
      case None => None
      case Some(s) => if TimersKnown(s) && Enabled(s, last) then Some(Next(s, last)) else None
  }

  lemma {:induction false} RunKeepsInv(steps: seq<Step>)
    requires Exec(steps).Some?
    ensures Inv(Exec(steps).value)
  {
    if steps != [] {
      RunKeepsInv(steps[..|steps| - 1]);
      NextKeepsInv(Exec(steps[..|steps| - 1]).value, steps[|steps| - 1]);
    }
  }

  /** In every run, a pending write of a watcher that is still open has a
      callback scheduled or started that carries its current generation. */
  lemma NoWriteIsLost(steps: seq<Step>, n: Str)
    requires Exec(steps).Some? && n in Exec(steps).value.pending
    ensures !Exec(steps).value.closed
    ensures EntryServed(Exec(steps).value, n)
  {
    RunKeepsInv(steps);
  }

  /** Whichever callback flushes, it hands on exactly the event armed last under
      that name, which no earlier flush has handed on. */
  lemma FlushIsLatest(steps: seq<Step>, id: nat)
    requires Exec(steps).Some? && Enabled(Exec(steps).value, DoRun(id))
    requires Due(Exec(steps).value, id).Some?
    ensures var s := Exec(steps).value;
            EndsArmed(Of(s, s.timers[id].name), Due(s, id).value)
  {
    RunKeepsInv(steps);
    var s := Exec(steps).value;
    assert NameAccounted(s, s.timers[id].name);
  }

  // --------------------------------------------------------- live timers

  /** A timer that is still to fire is its entry's own, or its entry is gone. */
  predicate Lone(s: State, i: nat)
    requires i < |s.timers|
  {
    var t := s.timers[i];
    t.phase.Scheduled? && t.name in s.pending && t.life == s.pending[t.name].life ==> i == s.pending[t.name].timer
  }

  lemma NextKeepsLone(s: State, step: Step, i: nat)
    requires Inv(s) && Enabled(s, step) && TimersKnown(s) && (forall j: nat | j < |s.timers| :: Lone(s, j))
    requires i < |Next(s, step).timers|
    ensures Lone(Next(s, step), i)
  {
    TimersAge(s, step);
    if i < |s.timers| {
      assert Lone(s, i) && TimerDated(s, i);
      if step.DoArm? && step.event.name in s.pending {
        assert EntryServed(s, step.event.name);
      }
    }
  }

  /** Each arm stops the timer of the arm before: in every run, of all timers made
      for an entry only the newest is still to fire. */
  lemma {:induction false} OneTimerPerEntry(steps: seq<Step>)
    requires Exec(steps).Some?
    ensures forall i: nat | i < |Exec(steps).value.timers| :: Lone(Exec(steps).value, i)
  {
    if steps != [] {
      var front := steps[..|steps| - 1];
      OneTimerPerEntry(front);
      RunKeepsInv(front);
      forall i: nat | i < |Exec(steps).value.timers| ensures Lone(Exec(steps).value, i) {
        NextKeepsLone(Exec(front).value, steps[|steps| - 1], i);
      }
    }
  }

  /** Close stops the timers of all pending writes and no other; what is still to
      fire afterwards was made for an entry that had been flushed. */
  lemma CloseStopsExactly(steps: seq<Step>, i: nat)
    requires Exec(steps).Some? && !Exec(steps).value.closed && i < |Exec(steps).value.timers|
    ensures var s, s' := Exec(steps).value, Close(Exec(steps).value);
            && s'.closed && s'.pending == map[] && |s'.timers| == |s.timers|
            && s'.timers[i] ==
               (if s.timers[i].phase.Scheduled? && exists n :: n in s.pending && s.pending[n].timer == i
                then s.timers[i].(phase := Stopped) else s.timers[i])
            && (s'.timers[i].phase.Scheduled? ==>
                  s.timers[i].name !in s.pending || s.pending[s.timers[i].name].life != s.timers[i].life)
  {
    OneTimerPerEntry(steps);
    assert Lone(Exec(steps).value, i);
  }

  // -------------------------------------------------------- conservation

  function Arms(l: seq<Obs>): nat {
    if l == [] then 0 else Arms(l[..|l| - 1]) + (if l[|l| - 1].Armed? then 1 else 0)
  }

  function Flushes(l: seq<Obs>): nat {
    if l == [] then 0 else Flushes(l[..|l| - 1]) + (if l[|l| - 1].Flushed? then 1 else 0)
  }

  /** Arms that the next arm replaced before any flush. */
  function Superseded(l: seq<Obs>): nat {
    if |l| < 2 then 0
    else Superseded(l[..|l| - 1]) + (if l[|l| - 2].Armed? && l[|l| - 1].Armed? then 1 else 0)
  }

  lemma {:induction false} ArmsAreConserved(l: seq<Obs>)
    requires FlushesFollowArms(l)
    ensures Arms(l) == Superseded(l) + Flushes(l) + (if l != [] && l[|l| - 1].Armed? then 1 else 0)
  {
    if l != [] {
      ArmsAreConserved(l[..|l| - 1]);
      if |l| == 1 {
        assert l[..0] == [];
      } else {
        assert l[..|l| - 1][|l| - 2] == l[|l| - 2];
      }
    }
  }

  /** Per name: accepted arms = superseded + flushed + cancelled by Close + pending. */
  lemma WriteConservation(steps: seq<Step>, n: Str)
    requires Exec(steps).Some?
    ensures var s := Exec(steps).value;
            var l := Of(s, n);
            var pending := if n in s.pending then 1 else 0;
            var cancelled := if s.closed && l != [] && l[|l| - 1].Armed? then 1 else 0;
            Arms(l) == Superseded(l) + Flushes(l) + cancelled + pending
  {
    RunKeepsInv(steps);
    var s := Exec(steps).value;
    assert NameAccounted(s, n);
    ArmsAreConserved(Of(s, n));
  }

  // --------------------------------------------------------- quiet period

  /** A callback of some other timer that would pass the generation check. */
  predicate StaleMatch(s: State, n: Str, id: nat) {
    && n in s.pending && id < |s.timers| && id != s.pending[n].timer
    && s.timers[id].phase.Fired? && s.timers[id].name == n && s.timers[id].gen == s.pending[n].gen
  }

  /** A callback that can flush `n` now, sooner than QUIET after its last arm. */
  predicate FlushesEarly(s: State, n: Str, id: nat) {
    && n in s.pending && Enabled(s, DoRun(id)) && s.timers[id].name == n
    && Due(s, id).Some? && s.now < s.pending[n].armedAt + QUIET
  }

  /** A pending write can be flushed before its quiet period is over exactly
      when the period is not over and a stale callback carries its generation. */
  lemma EarlyFlushExactly(s: State, n: Str)
    requires Inv(s) && n in s.pending
    ensures (exists id :: FlushesEarly(s, n, id)) <==>
            s.now < s.pending[n].armedAt + QUIET && exists id :: StaleMatch(s, n, id)
  {
    assert EntryDated(s, n) && EntryServed(s, n);
    if id :| FlushesEarly(s, n, id) {
      assert TimerDated(s, id);
      assert StaleMatch(s, n, id);
    }
    if id :| s.now < s.pending[n].armedAt + QUIET && StaleMatch(s, n, id) {
      assert FlushesEarly(s, n, id);
    }
  }

  /** A stale callback that matches comes from another entry of the name, or
      from 2^64 arms ago. */
  lemma StaleMatchOrigin(s: State, n: Str, id: nat)
    requires Inv(s) && StaleMatch(s, n, id)
    ensures s.timers[id].life != s.pending[n].life || s.pending[n].arms > 0x1_0000_0000_0000_0000
  {
    assert EntryDated(s, n) && TimerDated(s, id) && Newest(s, n, id);
  }

  /** Once the callbacks of earlier entries have run, only the newest arm's
      callback flushes, at least QUIET after the name's last WRITE. */
  lemma QuietPeriod(s: State, id: nat)
    requires Inv(s) && Enabled(s, DoRun(id)) && Due(s, id).Some?
    requires var n := s.timers[id].name;
             && s.pending[n].arms <= GENERATIONS
             && forall i: nat | i < |s.timers| && s.timers[i].phase.Fired? && s.timers[i].name == n ::
                  s.timers[i].life == s.pending[n].life
    ensures var e := s.pending[s.timers[id].name];
            id == e.timer && s.now >= e.armedAt + 1_000_000_000
  {
    var n := s.timers[id].name;
    assert EntryDated(s, n) && TimerDated(s, id);
    if id != s.pending[n].timer {
      StaleMatchOrigin(s, n, id);
    }
  }

  lemma ExecOne(steps: seq<Step>, step: Step)
    requires Exec(steps).Some? && Enabled(Exec(steps).value, step)
    ensures TimersKnown(Exec(steps).value)
    ensures Exec(steps + [step]) == Some(Next(Exec(steps).value, step))
  {
    RunKeepsInv(steps);
    var s := Exec(steps).value;
    forall n | n in s.pending ensures s.pending[n].timer < |s.timers| { assert EntryServed(s, n); }
    assert (steps + [step])[..|steps|] == steps;
  }

  /** It does happen: generations restart at 1 with each new entry, so the
      callback of a first arm, held up past a flush, flushes the third arm the
      moment it is made. */
  lemma EarlyFlushHappens(event: Event) returns (steps: seq<Step>)
    ensures Exec(steps).Some? && FlushesEarly(Exec(steps).value, event.name, 0)
    ensures Exec(steps).value.now == Exec(steps).value.pending[event.name].armedAt
  {
    steps := [];
    ExecOne(steps, DoArm(event));  steps := steps + [DoArm(event)];
    ExecOne(steps, DoTick(QUIET)); steps := steps + [DoTick(QUIET)];
    ExecOne(steps, DoFire(0));     steps := steps + [DoFire(0)];
    ExecOne(steps, DoArm(event));  steps := steps + [DoArm(event)];
    ExecOne(steps, DoTick(QUIET)); steps := steps + [DoTick(QUIET)];
    ExecOne(steps, DoFire(1));     steps := steps + [DoFire(1)];
    ExecOne(steps, DoRun(1));      steps := steps + [DoRun(1)];
    ExecOne(steps, DoArm(event));  steps := steps + [DoArm(event)];
  }
}
