/** Progress and speed callbacks (`CallbackThrottle` and the notify functions in
    `state.rs`): at most one emission per interval, with a timer for the change
    that came too early. Threads interleave between any two lock acquisitions;
    times are in nanoseconds. */
module Throttle {
  import opened Basics

  const INTERVAL: nat := 1_000_000_000 / 60

  datatype Gate = Gate(lastEmitAt: Option<nat>, trailing: bool, generation: u64)

  datatype Verdict = Emit | Schedule(delay: nat, generation: u64) | Skip

  // ---- the gate ----

  function Elapsed(now: nat, since: nat): nat {
    if now >= since then now - since else 0
  }

  function Decided(g: Gate, now: nat): (Gate, Verdict) {
    if g.trailing then (g, Skip)
    else if g.lastEmitAt.None? || Elapsed(now, g.lastEmitAt.value) >= INTERVAL then (g.(lastEmitAt := Some(now)), Emit)
    else (g.(trailing := true), Schedule(INTERVAL - Elapsed(now, g.lastEmitAt.value), g.generation))
  }

  function Rearmed(g: Gate): Gate {
    Gate(None, false, (g.generation + 1) % U64_LIMIT)
  }

  /** The gate as the program keeps it, under its mutex. */
  class CallbackThrottle {
    var lastEmitAt: Option<nat>
    var trailingScheduled: bool
    var generation: u64

    function Value(): Gate
      reads this
    {
      Gate(lastEmitAt, trailingScheduled, generation)
    }

    constructor ()
      ensures Value() == Gate(None, false, 0)
    {
      lastEmitAt, trailingScheduled, generation := None, false, 0;
    }

    method Reset()
      modifies this
      ensures Value() == Rearmed(old(Value()))
    {
      lastEmitAt := None;
      trailingScheduled := false;
      generation := (generation + 1) % U64_LIMIT;
    }

    method Decide(now: nat) returns (verdict: Verdict)
      modifies this
      ensures (Value(), verdict) == Decided(old(Value()), now)
      ensures verdict.Skip? <==> old(trailingScheduled)
      ensures verdict.Emit? <==>
                !old(trailingScheduled) && (old(lastEmitAt) == None || old(lastEmitAt).value + INTERVAL <= now)
      ensures verdict.Emit? ==> lastEmitAt == Some(now) && !trailingScheduled
      ensures verdict.Schedule? ==>
                trailingScheduled && lastEmitAt == old(lastEmitAt) && verdict.generation == generation
                && verdict.delay == lastEmitAt.value + INTERVAL - Max(now, lastEmitAt.value)
                && 0 < verdict.delay <= INTERVAL
      ensures generation == old(generation)
    {
      if trailingScheduled {
        return Skip;
      }
      if lastEmitAt.None? {
        lastEmitAt := Some(now);
        return Emit;
      }
      var elapsed := Elapsed(now, lastEmitAt.value);
      if elapsed >= INTERVAL {
        lastEmitAt := Some(now);
        return Emit;
      }
      trailingScheduled := true;
      return Schedule(INTERVAL - elapsed, generation);
    }

    /** A timer fires: it counts only if the gate was not reset meanwhile. */
    method TakeDue(timer: u64, now: nat) returns (emit: bool)
      modifies this
      ensures emit <==> timer == old(generation)
      ensures Value() == if emit then old(Value()).(trailing := false, lastEmitAt := Some(now)) else old(Value())
    {
      if generation != timer {
        return false;
      }
      trailingScheduled := false;
      lastEmitAt := Some(now);
      return true;
    }
  }

  // ---- everybody around it ----

  /** A sleeping timer. `born` counts the resets before it was scheduled. */
  datatype Timer = Timer(due: nat, generation: u64, born: nat)

  /** A thread between two locks: about to look for a callback, about to ask the
      gate, about to fetch the callback, about to take a snapshot for it, or done
      with replacing the callback and about to reset the gate. */
  datatype Thread = Looking | Asking | Fetching | Taking(callback: nat) | Replacing(installed: bool)

  datatype Emission = Emission(at: nat, born: nat)

  /** `version` counts the changes of the reported state; `seen` is the version
      of the last snapshot taken for each callback. */
  datatype State = State(
    clock: nat, version: nat, callback: Option<nat>, seen: map<nat, nat>, next: nat,
    gate: Gate, resets: nat, timers: map<nat, Timer>, threads: map<nat, Thread>, emissions: seq<Emission>)

  datatype Action =
    | Tick(d: nat)
    | Change(id: nat)
    | Look(id: nat)
    | Ask(id: nat, now: nat, timer: nat)
    | Fire(timer: nat, id: nat)
    | Fetch(id: nat)
    | Take(id: nat)
    | Replace(id: nat, install: bool)
    | Reset(id: nat)

  function Init(): State {
    State(0, 0, None, map[], 0, Gate(None, false, 0), 0, map[], map[], [])
  }

  predicate At(s: State, id: nat, t: Thread) {
    id in s.threads && s.threads[id] == t
  }

  predicate Enabled(s: State, a: Action) {
    match a
    case Tick(_) => true
    case Change(id) => id !in s.threads
    case Look(id) => At(s, id, Looking)
    case Ask(id, now, timer) => At(s, id, Asking) && now <= s.clock && timer !in s.timers
    case Fire(timer, id) => timer in s.timers && s.timers[timer].due <= s.clock && id !in s.threads
    case Fetch(id) => At(s, id, Fetching)
    case Take(id) => id in s.threads && s.threads[id].Taking?
    case Replace(id, _) => id !in s.threads
    case Reset(id) => id in s.threads && s.threads[id].Replacing?
  }

  function AfterAsk(s: State, id: nat, now: nat, timer: nat): State {
    var d := Decided(s.gate, now);
    match d.1
    case Skip => s.(threads := s.threads - {id})
    case Emit => s.(gate := d.0, threads := s.threads[id := Fetching],
                    emissions := s.emissions + [Emission(now, s.resets)])
    case Schedule(delay, generation) =>
      s.(gate := d.0, threads := s.threads - {id},
         timers := s.timers[timer := Timer(s.clock + delay, generation, s.resets)])
  }

  function AfterFire(s: State, timer: nat, id: nat): State
    requires timer in s.timers
  {
    var r := s.(timers := s.timers - {timer});
    if s.timers[timer].generation != s.gate.generation then r
    else r.(gate := s.gate.(trailing := false, lastEmitAt := Some(s.clock)), threads := s.threads[id := Fetching],
            emissions := s.emissions + [Emission(s.clock, s.resets)])
  }

  function Next(s: State, a: Action): State
    requires Enabled(s, a)
  {
    match a
    case Tick(d) => s.(clock := s.clock + d)
    case Change(id) => s.(version := s.version + 1, threads := s.threads[id := Looking])
    case Look(id) =>
      if s.callback.None? then s.(threads := s.threads - {id}) else s.(threads := s.threads[id := Asking])
    case Ask(id, now, timer) => AfterAsk(s, id, now, timer)
    case Fire(timer, id) => AfterFire(s, timer, id)
    case Fetch(id) =>
      if s.callback.None? then s.(threads := s.threads - {id})
      else s.(threads := s.threads[id := Taking(s.callback.value)])
    case Take(id) => s.(seen := s.seen[s.threads[id].callback := s.version], threads := s.threads - {id})
    case Replace(id, install) =>
      s.(callback := if install then Some(s.next) else None, next := s.next + 1,
         threads := s.threads[id := Replacing(install)])
    case Reset(id) =>
      s.(gate := Rearmed(s.gate), resets := s.resets + 1,
         threads := if s.threads[id].installed then s.threads[id := Looking] else s.threads - {id})
  }

  // ---- spacing and timers ----

  predicate Current(s: State, timer: nat) {
    timer in s.timers && s.timers[timer].born == s.resets
  }

  /** One live timer of the current generation while a trailing emission is
      scheduled, none otherwise. */
  ghost predicate TimersOk(s: State) {
    (forall t | t in s.timers :: s.timers[t].born <= s.resets && s.timers[t].generation == s.timers[t].born % U64_LIMIT)
    && (s.gate.trailing <==> exists t :: Current(s, t))
    && (forall t, u | Current(s, t) && Current(s, u) :: t == u)
    && s.gate.generation == s.resets % U64_LIMIT
  }

  /** The gate remembers the last emission since the last reset, and the timer
      for the next one is far enough away. */
  ghost predicate LastOk(s: State) {
    (forall e | e in s.emissions :: e.at <= s.clock && e.born <= s.resets)
    && (s.gate.lastEmitAt.None? ==> !s.gate.trailing && forall e | e in s.emissions :: e.born < s.resets)
    && (s.gate.lastEmitAt.Some? ==>
          s.gate.lastEmitAt.value <= s.clock
          && (forall e | e in s.emissions && e.born == s.resets :: e.at <= s.gate.lastEmitAt.value)
          && forall t | Current(s, t) :: s.gate.lastEmitAt.value + INTERVAL <= s.timers[t].due)
  }

  ghost predicate Spaced(emissions: seq<Emission>) {
    forall i, j | 0 <= i < j < |emissions| && emissions[i].born == emissions[j].born ::
         emissions[i].at + INTERVAL <= emissions[j].at
  }

  ghost predicate Inv(s: State) {
    TimersOk(s) && LastOk(s) && Spaced(s.emissions)
  }

  lemma SmallResets(a: nat, b: nat)
    requires a <= b < U64_LIMIT
    ensures a % U64_LIMIT == a && b % U64_LIMIT == b
  {
  }

  lemma AskKeepsInv(s: State, id: nat, now: nat, timer: nat)
    requires Inv(s) && Enabled(s, Ask(id, now, timer)) && s.resets < U64_LIMIT
    ensures Inv(Next(s, Ask(id, now, timer)))
  {
    var n := Next(s, Ask(id, now, timer));
    if Decided(s.gate, now).1.Schedule? {
      assert Current(n, timer);
      assert forall t | t != timer :: Current(n, t) == Current(s, t);
    } else {
      assert forall t :: Current(n, t) == Current(s, t);
    }
  }

  lemma FireKeepsInv(s: State, timer: nat, id: nat)
    requires Inv(s) && Enabled(s, Fire(timer, id)) && s.resets < U64_LIMIT
    ensures Inv(Next(s, Fire(timer, id)))
  {
    var n := Next(s, Fire(timer, id));
    SmallResets(s.timers[timer].born, s.resets);
    assert forall t | t != timer :: Current(n, t) == Current(s, t);
    assert !Current(n, timer);
    if Current(s, timer) {
      assert forall t :: !Current(n, t);
    }
  }

  lemma ResetKeepsInv(s: State, id: nat)
    requires Inv(s) && Enabled(s, Reset(id))
    ensures Inv(Next(s, Reset(id)))
  {
    var n := Next(s, Reset(id));
    assert forall t :: !Current(n, t);
  }

  lemma StepKeepsInv(s: State, a: Action)
    requires Inv(s) && Enabled(s, a) && s.resets < U64_LIMIT
    ensures Inv(Next(s, a))
  {
    match a
    case Ask(id, now, timer) => AskKeepsInv(s, id, now, timer);
    case Fire(timer, id) => FireKeepsInv(s, timer, id);
    case Reset(id) => ResetKeepsInv(s, id);
    case _ => assert forall t :: Current(Next(s, a), t) == Current(s, t);
  }

  // ---- nobody misses a change ----

  predicate UpToDate(s: State) {
    s.callback.None? || (s.callback.value in s.seen && s.seen[s.callback.value] == s.version)
  }

  /** This thread will get the installed callback a snapshot, or will find that
      somebody else does. */
  predicate Carries(s: State, t: Thread) {
    t.Looking? || t.Asking? || t.Fetching? || (t.Taking? && Some(t.callback) == s.callback)
    || (t.Replacing? && t.installed)
  }

  ghost predicate Carried(s: State) {
    exists id :: id in s.threads && Carries(s, s.threads[id])
  }

  /** A snapshot that is still owed is on its way. */
  ghost predicate Attended(s: State) {
    UpToDate(s) || Carried(s) || s.gate.trailing
  }

  ghost predicate SeenOk(s: State) {
    (forall c | c in s.seen :: s.seen[c] <= s.version && c < s.next) && (s.callback.Some? ==> s.callback.value < s.next)
    && (forall id | id in s.threads && s.threads[id].Taking? :: s.threads[id].callback < s.next)
  }

  /** Removing a callback resets the gate only after the removal; if another
      thread has installed one in between, its trailing timer goes stale. Every
      other step is undisturbed. */
  predicate Undisturbed(s: State, a: Action) {
    a.Reset? && a.id in s.threads && s.threads[a.id] == Replacing(false) ==> s.callback == None
  }

  lemma StaysCarried(s: State, n: State, other: nat)
    requires Carried(s) && n.callback == s.callback
    requires forall id | id in s.threads && id != other :: id in n.threads && n.threads[id] == s.threads[id]
    requires other in s.threads && Carries(s, s.threads[other]) ==> other in n.threads && Carries(n, n.threads[other])
    ensures Carried(n)
  {
    var id :| id in s.threads && Carries(s, s.threads[id]);
    assert id in n.threads && Carries(n, n.threads[id]);
  }

  lemma AskAttended(s: State, id: nat, now: nat, timer: nat)
    requires Inv(s) && SeenOk(s) && Attended(s) && Enabled(s, Ask(id, now, timer))
    ensures Attended(Next(s, Ask(id, now, timer)))
  {
    var n := Next(s, Ask(id, now, timer));
    if Decided(s.gate, now).1.Emit? {
      assert Carries(n, n.threads[id]);
    }
  }

  lemma FireAttended(s: State, timer: nat, id: nat)
    requires Inv(s) && SeenOk(s) && Attended(s) && Enabled(s, Fire(timer, id)) && s.resets < U64_LIMIT
    ensures Attended(Next(s, Fire(timer, id)))
  {
    var n := Next(s, Fire(timer, id));
    if s.timers[timer].generation == s.gate.generation {
      assert Carries(n, n.threads[id]);
    } else if Carried(s) {
      StaysCarried(s, n, id);
    }
  }

  lemma ReplaceAttended(s: State, a: Action)
    requires Inv(s) && SeenOk(s) && Attended(s) && Enabled(s, a) && Undisturbed(s, a) && (a.Replace? || a.Reset?)
    ensures Attended(Next(s, a))
  {
    var n := Next(s, a);
    if n.callback.Some? && a.id in n.threads {
      assert Carries(n, n.threads[a.id]);
    }
  }

  lemma ThreadAttended(s: State, a: Action)
    requires Inv(s) && SeenOk(s) && Attended(s) && Enabled(s, a)
             && (a.Look? || a.Fetch? || a.Take? || a.Change? || a.Tick?)
    ensures Attended(Next(s, a))
  {
    var n := Next(s, a);
    if a.Change? {
      assert Carries(n, n.threads[a.id]);
    } else if a.Tick? {
      if Carried(s) {
        StaysCarried(s, n, s.clock);
      }
    } else if n.callback.Some? && !s.gate.trailing && !UpToDate(n) {
      StaysCarried(s, n, a.id);
    }
  }

  lemma SeenKept(s: State, a: Action)
    requires SeenOk(s) && Enabled(s, a)
    ensures SeenOk(Next(s, a))
  {
  }

  lemma StepKeepsAttended(s: State, a: Action)
    requires Inv(s) && SeenOk(s) && Attended(s) && Enabled(s, a) && s.resets < U64_LIMIT && Undisturbed(s, a)
    ensures Attended(Next(s, a))
  {
    hide Inv, SeenOk, Attended, Enabled, Next, Undisturbed;
    match a
    case Ask(id, now, timer) => AskAttended(s, id, now, timer);
    case Fire(timer, id) => FireAttended(s, timer, id);
    case Reset(_) => ReplaceAttended(s, a);
    case Replace(_, _) => ReplaceAttended(s, a);
    case _ => ThreadAttended(s, a);
  }

  // ---- runs ----

  ghost predicate IsRun(states: seq<State>, actions: seq<Action>) {
    |states| == |actions| + 1 && states[0] == Init()
    && (forall k | 0 <= k < |actions| :: Enabled(states[k], actions[k]) && states[k + 1] == Next(states[k], actions[k]))
    && forall k | 0 <= k < |states| :: states[k].resets < U64_LIMIT
  }

  lemma {:induction false} RunsKeepInv(states: seq<State>, actions: seq<Action>, k: nat)
    requires IsRun(states, actions) && k < |states|
    ensures Inv(states[k]) && SeenOk(states[k])
    decreases k
  {
    hide Enabled, Next;
    if k > 0 {
      hide Inv, SeenOk;
      RunsKeepInv(states, actions, k - 1);
      StepKeepsInv(states[k - 1], actions[k - 1]);
      SeenKept(states[k - 1], actions[k - 1]);
    } else {
      assert forall t :: !Current(states[0], t);
    }
  }

  /** Between two resets, emissions are at least one interval apart, whichever
      threads and timers produced them and however stale their clocks were. */
  lemma EmissionsAreSpaced(states: seq<State>, actions: seq<Action>, k: nat, i: nat, j: nat)
    requires IsRun(states, actions) && k < |states| && i < j < |states[k].emissions|
    requires states[k].emissions[i].born == states[k].emissions[j].born
    ensures states[k].emissions[i].at + INTERVAL <= states[k].emissions[j].at
  {
    hide Enabled, Next, IsRun;
    RunsKeepInv(states, actions, k);
  }

  /** So no more than sixty intervals fit into a second: the sixtieth emission after
      one comes a second later, less the rounding of the interval. */
  lemma SixtyASecond(states: seq<State>, actions: seq<Action>, k: nat, i: nat)
    requires IsRun(states, actions) && k < |states| && i + 60 < |states[k].emissions|
    requires forall x | i <= x <= i + 60 :: states[k].emissions[x].born == states[k].emissions[i].born
    ensures states[k].emissions[i].at + 999_999_960 <= states[k].emissions[i + 60].at
  {
    hide IsRun;
    ManyAreSpaced(states, actions, k, i, 60);
  }

  lemma {:induction false} ManyAreSpaced(states: seq<State>, actions: seq<Action>, k: nat, i: nat, n: nat)
    requires IsRun(states, actions) && k < |states| && i + n < |states[k].emissions|
    requires forall x | i <= x <= i + n :: states[k].emissions[x].born == states[k].emissions[i].born
    ensures states[k].emissions[i].at + n * INTERVAL <= states[k].emissions[i + n].at
    decreases n
  {
    hide IsRun;
    if n > 0 {
      ManyAreSpaced(states, actions, k, i, n - 1);
      EmissionsAreSpaced(states, actions, k, i + n - 1, i + n);
      assert n * INTERVAL == (n - 1) * INTERVAL + INTERVAL;
    }
  }

  /** A timer is never more than one interval away, */
  lemma {:induction false} TimersAreSoon(states: seq<State>, actions: seq<Action>, k: nat)
    requires IsRun(states, actions) && k < |states|
    ensures forall t | t in states[k].timers :: states[k].timers[t].due <= states[k].clock + 16_666_666
    decreases k
  {
    hide Enabled, Next;
    if k > 0 {
      TimersAreSoon(states, actions, k - 1);
      StepKeepsSoon(states[k - 1], actions[k - 1]);
    }
  }

  lemma StepKeepsSoon(s: State, a: Action)
    requires Enabled(s, a) && forall t | t in s.timers :: s.timers[t].due <= s.clock + INTERVAL
    ensures forall t | t in Next(s, a).timers :: Next(s, a).timers[t].due <= Next(s, a).clock + INTERVAL
  {
  }

  /** and one that was set by a fresh reading of the clock ends with the interval. */
  lemma FreshTimerIsExact(s: State, id: nat, timer: nat)
    requires Inv(s) && Enabled(s, Ask(id, s.clock, timer)) && timer in Next(s, Ask(id, s.clock, timer)).timers
    ensures s.gate.lastEmitAt.Some?
            && Next(s, Ask(id, s.clock, timer)).timers[timer].due == s.gate.lastEmitAt.value + INTERVAL
  {
  }

  /** A trailing emission is scheduled exactly while one live timer carries the
      current generation, and a timer emits only if it is that one. */
  lemma OneLiveTimer(states: seq<State>, actions: seq<Action>, k: nat)
    requires IsRun(states, actions) && k < |states|
    ensures states[k].gate.trailing <==> exists t :: Current(states[k], t)
    ensures forall t, u | Current(states[k], t) && Current(states[k], u) :: t == u
    ensures k < |actions| && actions[k].Fire? ==>
              (states[k + 1].emissions != states[k].emissions <==> Current(states[k], actions[k].timer))
  {
    RunsKeepInv(states, actions, k);
    if k < |actions| && actions[k].Fire? {
      var t := states[k].timers[actions[k].timer];
      SmallResets(t.born, states[k].resets);
    }
  }

  /** The reset that belongs to a removal finds a callback installed: it came late. */
  predicate Late(s: State, a: Action) {
    a.Reset? && a.id in s.threads && s.threads[a.id] == Replacing(false) && s.callback.Some?
  }

  /** A late reset that finds a report still owed, and no thread bringing it. */
  ghost predicate Loses(s: State, a: Action) {
    Late(s, a) && !UpToDate(s) && !Carried(s)
  }

  lemma LateResetLosesTimer(s: State, id: nat)
    requires Inv(s) && Enabled(s, Reset(id)) && Late(s, Reset(id))
    ensures Attended(Next(s, Reset(id))) <==> UpToDate(s) || Carried(s)
  {
    var n := Next(s, Reset(id));
    if Carried(s) {
      StaysCarried(s, n, id);
    }
    if Carried(n) {
      var x :| x in n.threads && Carries(n, n.threads[x]);
      assert x in s.threads && Carries(s, s.threads[x]);
    }
  }

  /** Only such a reset makes an owed report forgotten. */
  lemma StepLoses(s: State, a: Action)
    requires Inv(s) && SeenOk(s) && Attended(s) && Enabled(s, a) && s.resets < U64_LIMIT && !Attended(Next(s, a))
    ensures Loses(s, a)
  {
    hide Inv, SeenOk, Attended, Enabled, Next;
    if Undisturbed(s, a) {
      StepKeepsAttended(s, a);
    } else {
      LateResetLosesTimer(s, a.id);
    }
  }

  /** A forgotten report stays forgotten until the state changes again or the
      callback is replaced. */
  lemma LostStays(s: State, a: Action)
    requires Inv(s) && !Attended(s) && Enabled(s, a) && s.resets < U64_LIMIT && !a.Change? && !a.Replace?
    ensures !Attended(Next(s, a))
  {
    var n := Next(s, a);
    assert forall id | id in s.threads :: !Carries(s, s.threads[id]);
    if a.Fire? {
      SmallResets(s.timers[a.timer].born, s.resets);
      assert !Current(s, a.timer);
    }
    forall id | id in n.threads
      ensures !Carries(n, n.threads[id])
    {
      assert id in s.threads && n.threads[id] == s.threads[id];
    }
  }

  /** The next change or replacement is attended to. */
  lemma RecoversBy(s: State, a: Action)
    requires Enabled(s, a) && (a.Change? || a.Replace?)
    ensures Attended(Next(s, a))
  {
    var n := Next(s, a);
    if n.callback.Some? {
      assert Carries(n, n.threads[a.id]);
    }
  }

  /** Step j lost a report that nothing has brought back before state k. */
  ghost predicate LostAt(states: seq<State>, actions: seq<Action>, j: nat, k: nat) {
    j < k <= |actions| && j < |states| && Loses(states[j], actions[j])
    && forall x | j < x < k :: !actions[x].Change? && !actions[x].Replace?
  }

  lemma {:induction false} MissedMeansLost(states: seq<State>, actions: seq<Action>, k: nat)
    requires IsRun(states, actions) && k < |states| && !Attended(states[k])
    ensures exists j: nat :: LostAt(states, actions, j, k)
    decreases k
  {
    hide Enabled, Next, Inv, SeenOk, Loses;
    assert k > 0;
    RunsKeepInv(states, actions, k - 1);
    if Attended(states[k - 1]) {
      hide Attended;
      StepLoses(states[k - 1], actions[k - 1]);
      assert LostAt(states, actions, k - 1, k);
    } else {
      hide Attended;
      if actions[k - 1].Change? || actions[k - 1].Replace? {
        RecoversBy(states[k - 1], actions[k - 1]);
      } else {
        MissedMeansLost(states, actions, k - 1);
        var j: nat :| LostAt(states, actions, j, k - 1);
        assert LostAt(states, actions, j, k);
      }
    }
  }

  lemma {:induction false} LostForGood(states: seq<State>, actions: seq<Action>, j: nat, k: nat)
    requires IsRun(states, actions) && k < |states| && LostAt(states, actions, j, k)
    ensures !Attended(states[k])
    decreases k
  {
    hide Enabled, Next, Inv, SeenOk, Attended;
    RunsKeepInv(states, actions, k - 1);
    if j == k - 1 {
      LateResetLosesTimer(states[j], actions[j].id);
    } else {
      LostForGood(states, actions, j, k - 1);
      LostStays(states[k - 1], actions[k - 1]);
    }
  }

  /** At rest nothing is on its way. */
  predicate AtRest(s: State) {
    s.threads == map[] && s.timers == map[] && s.callback.Some?
  }

  lemma AttendedAtRest(s: State)
    requires Inv(s) && AtRest(s)
    ensures Attended(s) <==> UpToDate(s)
  {
  }

  /** Exactly which changes are missed. Once the threads and timers have come to
      rest, the installed callback has seen the latest version, if and only if no
      earlier removal's reset found a callback installed, a report owed to it and
      no thread bringing it, with no change and no replacement since. */
  lemma ExactlyMissed(states: seq<State>, actions: seq<Action>, k: nat)
    requires IsRun(states, actions) && k < |states| && AtRest(states[k])
    ensures UpToDate(states[k]) <==> !exists j: nat :: LostAt(states, actions, j, k)
  {
    hide IsRun, LostAt, Attended, UpToDate;
    RunsKeepInv(states, actions, k);
    AttendedAtRest(states[k]);
    if !Attended(states[k]) {
      MissedMeansLost(states, actions, k);
    }
    if exists j: nat :: LostAt(states, actions, j, k) {
      var j: nat :| LostAt(states, actions, j, k);
      LostForGood(states, actions, j, k);
    }
  }

  /** For a caller: if no removal's reset comes late, then no change is missed. */
  lemma NoChangeIsMissed(states: seq<State>, actions: seq<Action>, k: nat)
    requires IsRun(states, actions) && k < |states| && AtRest(states[k])
    requires forall x | 0 <= x < k :: !Late(states[x], actions[x])
    ensures UpToDate(states[k])
  {
    hide IsRun, UpToDate, LostAt;
    ExactlyMissed(states, actions, k);
    forall j: nat
      ensures !LostAt(states, actions, j, k)
    {
      if LostAt(states, actions, j, k) {
        LostIsLate(states, actions, j, k);
      }
    }
  }

  lemma LostIsLate(states: seq<State>, actions: seq<Action>, j: nat, k: nat)
    requires LostAt(states, actions, j, k)
    ensures j < k && j < |states| && j < |actions| && Late(states[j], actions[j])
  {
  }

  /** Some sequence of steps leads from one state to the other. */
  least predicate Reaches(s: State, t: State) {
    s == t || exists a :: Enabled(s, a) && Reaches(Next(s, a), t)
  }

  lemma Step(s: State, a: Action, n: State, t: State)
    requires Enabled(s, a) && Next(s, a) == n && Reaches(n, t)
    ensures Reaches(s, t)
  {
  }

  /** The installed callback has missed the latest change, for good: nothing is
      left that could report it. */
  predicate Missed(s: State) {
    s.threads == map[] && s.timers == map[] && s.callback.Some?
    && s.callback.value in s.seen && s.seen[s.callback.value] < s.version
  }

  const Removal := Replacing(false)

  /** The first half of the mishap: a callback is removed and another installed
      by a second thread, which also gets its first snapshot. */
  function Installed(): State {
    State(0, 0, Some(1), map[1 := 0], 2, Gate(Some(0), false, 1), 1, map[], map[0 := Removal], [Emission(0, 1)])
  }

  lemma InstalledReachable(t: State)
    requires Reaches(Installed(), t)
    ensures Reaches(Init(), t)
  {
    hide Reaches;
    var s1 := State(0, 0, None, map[], 1, Gate(None, false, 0), 0, map[], map[0 := Removal], []);
    var s2 := s1.(callback := Some(1), next := 2, threads := map[0 := Removal, 1 := Replacing(true)]);
    var s3 := s2.(gate := Gate(None, false, 1), resets := 1, threads := map[0 := Removal, 1 := Looking]);
    var s4 := s3.(threads := map[0 := Removal, 1 := Asking]);
    var s5 := s4.(gate := Gate(Some(0), false, 1), emissions := [Emission(0, 1)],
                  threads := map[0 := Removal, 1 := Fetching]);
    var s6 := s5.(threads := map[0 := Removal, 1 := Taking(1)]);
    assert map[0 := Removal, 1 := Taking(1)] - {1} == map[0 := Removal];
    Step(s6, Take(1), Installed(), t);
    Step(s5, Fetch(1), s6, t);
    Step(s4, Ask(1, 0, 0), s5, t);
    Step(s3, Look(1), s4, t);
    Step(s2, Reset(1), s3, t);
    Step(s1, Replace(1, true), s2, t);
    Step(Init(), Replace(0, false), s1, t);
  }

  /** It happens: the state changes, a timer is set, and the reset that belongs
      to the removal arrives last. */
  lemma ChangeCanBeMissed()
    ensures exists t :: Reaches(Init(), t) && Missed(t)
  {
    hide Reaches;
    var s := Installed();
    var s1 := s.(version := 1, threads := map[0 := Removal, 2 := Looking]);
    var s2 := s1.(threads := map[0 := Removal, 2 := Asking]);
    var s3 := s2.(gate := Gate(Some(0), true, 1), timers := map[0 := Timer(INTERVAL, 1, 1)],
                  threads := map[0 := Removal]);
    var s4 := s3.(gate := Gate(None, false, 2), resets := 2, threads := map[]);
    var s5 := s4.(clock := INTERVAL);
    var t := s5.(timers := map[]);
    assert map[0 := Removal, 2 := Asking] - {2} == map[0 := Removal];
    Here(t);
    Step(s5, Fire(0, 3), t, t);
    Step(s4, Tick(INTERVAL), s5, t);
    Step(s3, Reset(0), s4, t);
    Step(s2, Ask(2, 0, 0), s3, t);
    Step(s1, Look(2), s2, t);
    Step(s, Change(2), s1, t);
    InstalledReachable(t);
    assert Missed(t);
  }

  lemma Here(t: State)
    ensures Reaches(t, t)
  {
  }
}
