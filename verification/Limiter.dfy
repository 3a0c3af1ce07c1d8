/** The I/O limiter (`limiter.rs`): permits counted under a mutex, waiters woken
    through a `Notify`. `notify_one` wakes the oldest queued waiter, or stores one
    wakeup if nobody is queued; `notify_waiters` wakes everyone who asked to be
    notified before it, queued or not; a waiter that is dropped after `notify_one`
    chose it passes the wakeup on. */
module Limiter {
  import opened Basics

  /** Between taking the lock and parking, an `acquire` cannot be dropped. */
  datatype Waiter = Trying | Asked(seen: nat) | Queued | Woken(one: bool)

  datatype State = State(
    max: nat, inFlight: nat, holders: set<nat>, waiters: map<nat, Waiter>,
    queue: seq<nat>, stored: bool, calls: nat, releases: nat, updates: nat)

  datatype Action =
    | Arrive(id: nat)
    | Try(id: nat)
    | Poll(id: nat)
    | Drop(id: nat)
    | Release(id: nat)
    | NotifyOne
    | SetMax(max: nat)
    | NotifyAll

  function Init(max: nat): State {
    State(Max(max, 1), 0, {}, map[], [], false, 0, 0, 0)
  }

  // ---- Notify ----

  function Notified(s: State): State {
    if s.queue == [] then s.(stored := true)
    else s.(queue := s.queue[1..], waiters := s.waiters[s.queue[0] := Woken(true)])
  }

  function AllNotified(s: State): State {
    s.(calls := s.calls + 1, queue := [],
       waiters := map id | id in s.waiters :: if s.waiters[id].Queued? then Woken(false) else s.waiters[id])
  }

  function Without(queue: seq<nat>, id: nat): seq<nat> {
    if queue == [] then []
    else if queue[0] == id then queue[1..]
    else [queue[0]] + Without(queue[1..], id)
  }

  // ---- steps ----

  predicate Enabled(s: State, a: Action) {
    match a
    case Arrive(id) => id !in s.waiters && id !in s.holders
    case Try(id) => id in s.waiters && s.waiters[id].Trying?
    case Poll(id) => id in s.waiters && (s.waiters[id].Asked? || s.waiters[id].Woken?)
    case Drop(id) => id in s.waiters && !s.waiters[id].Trying?
    case Release(id) => id in s.holders
    case NotifyOne => s.releases > 0
    case SetMax(_) => true
    case NotifyAll => s.updates > 0
  }

  function Next(s: State, a: Action): State
    requires Enabled(s, a)
  {
    match a
    case Arrive(id) => s.(waiters := s.waiters[id := Trying])
    case Try(id) =>
      if s.inFlight < s.max
        then s.(inFlight := s.inFlight + 1, holders := s.holders + {id}, waiters := s.waiters - {id})
      else s.(waiters := s.waiters[id := Asked(s.calls)])
    case Poll(id) =>
      if s.waiters[id].Woken? then s.(waiters := s.waiters[id := Trying])
      else if s.stored then s.(stored := false, waiters := s.waiters[id := Trying])
      else if s.waiters[id].seen != s.calls then s.(waiters := s.waiters[id := Trying])
      else s.(queue := s.queue + [id], waiters := s.waiters[id := Queued])
    case Drop(id) =>
      var r := s.(waiters := s.waiters - {id}, queue := Without(s.queue, id));
      if s.waiters[id] == Woken(true) then Notified(r) else r
    case Release(id) => s.(inFlight := Max(s.inFlight - 1, 0), holders := s.holders - {id}, releases := s.releases + 1)
    case NotifyOne => Notified(s.(releases := s.releases - 1))
    case SetMax(m) => s.(max := Max(m, 1), updates := s.updates + 1)
    case NotifyAll => AllNotified(s.(updates := s.updates - 1))
  }

  // ---- what every run keeps ----

  /** Nothing has been done yet to wake this waiter. */
  predicate Unnotified(s: State, id: nat) {
    id in s.waiters && (s.waiters[id].Queued? || s.waiters[id] == Asked(s.calls))
  }

  /** A wakeup is stored, about to be issued, or on its way to someone. */
  ghost predicate WakeupAbout(s: State) {
    s.stored || s.releases > 0
    || exists id :: id in s.waiters && (s.waiters[id] == Woken(true) || s.waiters[id].Trying?)
  }

  predicate NoDuplicates(queue: seq<nat>) {
    forall i, j | 0 <= i < j < |queue| :: queue[i] != queue[j]
  }

  ghost predicate QueueOk(queue: seq<nat>, waiters: map<nat, Waiter>) {
    NoDuplicates(queue) && forall id :: id in queue <==> id in waiters && waiters[id].Queued?
  }

  ghost predicate PermitsOk(s: State) {
    s.max >= 1 && s.inFlight == |s.holders| && forall id | id in s.holders :: id !in s.waiters
  }

  /** No waiter is stranded: while nobody holds a permit, somebody who waits can
      rely on a wakeup that is stored, on its way or about to be issued. */
  ghost predicate NobodyStranded(s: State) {
    s.holders == {} && (exists id :: Unnotified(s, id)) ==> WakeupAbout(s)
  }

  predicate SeenOk(s: State) {
    forall id | id in s.waiters && s.waiters[id].Asked? :: s.waiters[id].seen <= s.calls
  }

  ghost predicate Inv(s: State) {
    PermitsOk(s) && SeenOk(s) && QueueOk(s.queue, s.waiters) && (s.stored ==> s.queue == []) && NobodyStranded(s)
  }

  ghost predicate IsRun(states: seq<State>, actions: seq<Action>) {
    |states| == |actions| + 1 && (exists max :: states[0] == Init(max))
    && forall k | 0 <= k < |actions| :: Enabled(states[k], actions[k]) && states[k + 1] == Next(states[k], actions[k])
  }

  lemma NotifiedWakes(s: State)
    requires s.queue != [] ==> s.queue[0] in s.waiters
    ensures WakeupAbout(Notified(s))
  {
    if s.queue != [] {
      assert Notified(s).waiters[s.queue[0]] == Woken(true);
    }
  }

  lemma NotifiedKeepsQueue(s: State)
    requires QueueOk(s.queue, s.waiters) && (s.stored ==> s.queue == [])
    ensures QueueOk(Notified(s).queue, Notified(s).waiters) && (Notified(s).stored ==> Notified(s).queue == [])
  {
    if s.queue != [] {
      assert forall x :: x in s.queue <==> x == s.queue[0] || x in s.queue[1..];
    }
  }

  lemma {:induction false} WithoutRemoves(queue: seq<nat>, id: nat)
    requires NoDuplicates(queue)
    ensures NoDuplicates(Without(queue, id)) && forall x :: x in Without(queue, id) <==> x in queue && x != id
  {
    if queue != [] {
      assert forall x :: x in queue <==> x == queue[0] || x in queue[1..];
      assert forall i | 0 < i < |queue| :: queue[i] == queue[1..][i - 1];
      assert queue[0] !in queue[1..];
      WithoutRemoves(queue[1..], id);
    }
  }

  lemma StepKeepsPermits(s: State, a: Action)
    requires Inv(s) && Enabled(s, a)
    ensures PermitsOk(Next(s, a))
  {
    hide PermitsOk, Next;
    if a.Drop? || a.NotifyOne? {
      NotifyKeepsPermits(s, a);
    } else {
      CountKeepsPermits(s, a);
    }
  }

  lemma CountKeepsPermits(s: State, a: Action)
    requires PermitsOk(s) && Enabled(s, a) && !a.Drop? && !a.NotifyOne?
    ensures PermitsOk(Next(s, a))
  {
    hide Notified, Without;
  }

  lemma NotifyKeepsPermits(s: State, a: Action)
    requires Inv(s) && Enabled(s, a) && (a.Drop? || a.NotifyOne?)
    ensures PermitsOk(Next(s, a))
  {
    hide SeenOk, NobodyStranded, Without, Notified;
    if a.Drop? {
      WithoutRemoves(s.queue, a.id);
      NotifiedKeepsPermits(s.(waiters := s.waiters - {a.id}, queue := Without(s.queue, a.id)));
    } else {
      NotifiedKeepsPermits(s.(releases := s.releases - 1));
    }
  }

  lemma NotifiedKeepsPermits(s: State)
    requires PermitsOk(s) && forall id | id in s.queue :: id in s.waiters
    ensures PermitsOk(Notified(s))
  {
    if s.queue != [] {
      assert s.queue[0] in s.queue;
    }
  }

  lemma StepKeepsSeen(s: State, a: Action)
    requires Inv(s) && Enabled(s, a)
    ensures SeenOk(Next(s, a))
  {
    var n := Next(s, a);
    forall id | id in n.waiters && n.waiters[id].Asked?
      ensures n.waiters[id].seen <= n.calls
    {
      if id in s.waiters && s.waiters[id].Asked? {
        assert s.waiters[id].seen <= s.calls;
      }
    }
  }

  lemma StepKeepsQueue(s: State, a: Action)
    requires Inv(s) && Enabled(s, a)
    ensures QueueOk(Next(s, a).queue, Next(s, a).waiters) && (Next(s, a).stored ==> Next(s, a).queue == [])
  {
    match a
    case Drop(id) =>
      WithoutRemoves(s.queue, id);
      NotifiedKeepsQueue(s.(waiters := s.waiters - {id}, queue := Without(s.queue, id)));
    case NotifyOne => NotifiedKeepsQueue(s.(releases := s.releases - 1));
    case _ =>
  }

  /** A wakeup that is about stays about unless it reaches someone. */
  lemma WakeupStays(s: State, n: State)
    requires WakeupAbout(s) && (s.stored ==> n.stored) && s.releases <= n.releases
    requires forall id | id in s.waiters && (s.waiters[id] == Woken(true) || s.waiters[id].Trying?) ::
               id in n.waiters && (n.waiters[id] == Woken(true) || n.waiters[id].Trying?)
    ensures WakeupAbout(n)
  {
    if !s.stored && s.releases == 0 {
      var id :| id in s.waiters && (s.waiters[id] == Woken(true) || s.waiters[id].Trying?);
      assert n.waiters[id] == Woken(true) || n.waiters[id].Trying?;
    }
  }

  lemma StepStrandsNobody(s: State, a: Action)
    requires Inv(s) && Enabled(s, a)
    ensures NobodyStranded(Next(s, a))
  {
    hide PermitsOk, QueueOk;
    var n := Next(s, a);
    match a
    case Arrive(id) => assert n.waiters[id].Trying?;
    case Try(id) => TryHolds(s, id);
    case Poll(id) =>
      if n.waiters[id].Trying? {
      } else if n.holders == {} {
        assert Unnotified(s, id);
        WakeupStays(s, n);
      }
    case Drop(id) => DropStrandsNobody(s, id);
    case Release(id) =>
    case NotifyOne => QueuedWaits(s); NotifiedWakes(s.(releases := s.releases - 1));
    case SetMax(_) => UnnotifiedBefore(s, n);
    case NotifyAll => assert forall id :: !Unnotified(n, id);
  }

  lemma QueuedWaits(s: State)
    requires QueueOk(s.queue, s.waiters)
    ensures forall id | id in s.queue :: id in s.waiters
  {
  }

  lemma TryHolds(s: State, id: nat)
    requires Inv(s) && Enabled(s, Try(id))
    ensures Next(s, Try(id)).holders != {}
  {
    if s.inFlight < s.max {
      assert id in Next(s, Try(id)).holders;
    }
  }

  lemma UnnotifiedBefore(s: State, n: State)
    requires NobodyStranded(s) && n.holders == s.holders && n.calls == s.calls && (s.stored ==> n.stored)
             && s.releases <= n.releases
    requires forall id | id in n.waiters :: id in s.waiters && n.waiters[id] == s.waiters[id]
    requires forall id | id in s.waiters && (s.waiters[id] == Woken(true) || s.waiters[id].Trying?) :: id in n.waiters
    ensures NobodyStranded(n)
  {
    if n.holders == {} && exists id :: Unnotified(n, id) {
      var id :| Unnotified(n, id);
      assert Unnotified(s, id);
      WakeupStays(s, n);
    }
  }

  lemma DropStrandsNobody(s: State, id: nat)
    requires Inv(s) && Enabled(s, Drop(id))
    ensures NobodyStranded(Next(s, Drop(id)))
  {
    var r := s.(waiters := s.waiters - {id}, queue := Without(s.queue, id));
    if s.waiters[id] == Woken(true) {
      WithoutRemoves(s.queue, id);
      NotifiedWakes(r);
    } else {
      UnnotifiedBefore(s, r);
    }
  }

  lemma StepKeepsInv(s: State, a: Action)
    requires Inv(s) && Enabled(s, a)
    ensures Inv(Next(s, a))
  {
    hide Inv, Enabled, Next, QueueOk, PermitsOk, SeenOk, NobodyStranded;
    StepKeepsPermits(s, a);
    StepKeepsSeen(s, a);
    StepKeepsQueue(s, a);
    StepStrandsNobody(s, a);
    InvParts(Next(s, a));
  }

  lemma InvParts(s: State)
    requires PermitsOk(s) && SeenOk(s) && QueueOk(s.queue, s.waiters) && (s.stored ==> s.queue == [])
             && NobodyStranded(s)
    ensures Inv(s)
  {
  }

  lemma {:induction false} RunsKeepInv(states: seq<State>, actions: seq<Action>, k: nat)
    requires IsRun(states, actions) && k < |states|
    ensures Inv(states[k])
    decreases k
  {
    hide Inv, Enabled, Next;
    if k == 0 {
      InitKeepsInv();
    } else {
      RunsKeepInv(states, actions, k - 1);
      StepKeepsInv(states[k - 1], actions[k - 1]);
    }
  }

  lemma InitKeepsInv()
    ensures forall max :: Inv(Init(max))
  {
  }

  // ---- the guarantees ----

  /** The count is the number of live permits, and a release never finds it at
      zero: the saturating subtraction does not saturate. */
  lemma CountIsExact(states: seq<State>, actions: seq<Action>, k: nat)
    requires IsRun(states, actions) && k < |states|
    ensures states[k].inFlight == |states[k].holders|
    ensures k < |actions| && actions[k].Release? ==>
              states[k].inFlight >= 1 && states[k + 1].inFlight == states[k].inFlight - 1
  {
    hide QueueOk, NobodyStranded;
    RunsKeepInv(states, actions, k);
    if k < |actions| && actions[k].Release? {
      assert Enabled(states[k], actions[k]) && states[k + 1] == Next(states[k], actions[k]);
      assert actions[k].id in states[k].holders;
    }
  }

  /** A permit is granted only below the limit that holds at that moment. */
  lemma GrantsRespectLimit(states: seq<State>, actions: seq<Action>, k: nat, id: nat)
    requires IsRun(states, actions) && k < |actions| && id !in states[k].holders && id in states[k + 1].holders
    ensures actions[k] == Try(id) && |states[k].holders| < states[k].max && |states[k + 1].holders| <= states[k + 1].max
  {
    hide QueueOk, NobodyStranded;
    RunsKeepInv(states, actions, k);
    assert Enabled(states[k], actions[k]) && states[k + 1] == Next(states[k], actions[k]);
    RunsKeepInv(states, actions, k + 1);
  }

  /** And it is granted at once whenever a waiter asks below the limit. */
  lemma AsksAreGranted(states: seq<State>, actions: seq<Action>, k: nat, id: nat)
    requires IsRun(states, actions) && k < |actions| && actions[k] == Try(id)
    ensures id in states[k + 1].holders <==> |states[k].holders| < states[k].max
    ensures id !in states[k + 1].holders ==> Unnotified(states[k + 1], id)
  {
    hide QueueOk, NobodyStranded;
    RunsKeepInv(states, actions, k);
    assert Enabled(states[k], actions[k]) && states[k + 1] == Next(states[k], actions[k]);
  }

  /** The limit is the one that was set last, and at least one. */
  lemma {:induction false} LimitIsLastSet(states: seq<State>, actions: seq<Action>, j: nat, k: nat)
    requires IsRun(states, actions) && j < k < |states| && actions[j].SetMax?
    requires forall x | j < x < k :: !actions[x].SetMax?
    ensures states[k].max == if actions[j].max == 0 then 1 else actions[j].max
    decreases k
  {
    assert Enabled(states[k - 1], actions[k - 1]) && states[k] == Next(states[k - 1], actions[k - 1]);
    if j < k - 1 {
      LimitIsLastSet(states, actions, j, k - 1);
    }
  }

  // ---- no slot idles ----

  /** Those who wait and have not been told of anything. */
  ghost function Sleeping(s: State): set<nat> {
    set id | id in s.waiters && Unnotified(s, id)
  }

  /** Those who are about to try. */
  ghost function Awake(s: State): set<nat> {
    set id | id in s.waiters && (s.waiters[id].Trying? || s.waiters[id] == Woken(true))
  }

  /** The tries that are stored, on their way or about to be made. */
  ghost function Wakeups(s: State): nat {
    |Awake(s)| + s.releases + if s.stored then 1 else 0
  }

  /** Unless a change of the limit is about to wake everyone, there is a try for
      each free slot while somebody sleeps. */
  ghost predicate Enough(s: State) {
    s.updates == 0 && Sleeping(s) != {} ==> s.max - s.inFlight <= Wakeups(s)
  }

  /** This wakeup finds nobody parked and another one already stored, so two
      become one. */
  predicate Merges(s: State, a: Action) {
    s.stored && (a.NotifyOne? || (a.Drop? && a.id in s.waiters && s.waiters[a.id] == Woken(true)))
  }

  /** A wakeup that is issued is one more, unless it merges with a stored one. */
  lemma NotifiedAdds(s: State)
    requires QueueOk(s.queue, s.waiters) && (s.stored ==> s.queue == [])
    ensures Wakeups(Notified(s)) == Wakeups(s) + if s.stored then 0 else 1
    ensures Sleeping(Notified(s)) <= Sleeping(s)
  {
    if s.queue != [] {
      assert s.queue[0] in s.queue;
      assert Awake(Notified(s)) == Awake(s) + {s.queue[0]};
    } else {
      assert Awake(Notified(s)) == Awake(s);
    }
  }

  lemma TryKeepsEnough(s: State, id: nat)
    requires Inv(s) && Enough(s) && Enabled(s, Try(id))
    ensures Enough(Next(s, Try(id)))
  {
    var n := Next(s, Try(id));
    if s.inFlight < s.max {
      assert Awake(n) == Awake(s) - {id} && id in Awake(s);
      assert Sleeping(n) == Sleeping(s);
    }
  }

  lemma PollKeepsEnough(s: State, id: nat)
    requires Inv(s) && Enough(s) && Enabled(s, Poll(id))
    ensures Enough(Next(s, Poll(id)))
  {
    var n := Next(s, Poll(id));
    assert Sleeping(n) <= Sleeping(s);
    if n.waiters[id].Trying? {
      assert Awake(n) == Awake(s) + {id};
      if id in Awake(s) {
        assert Awake(n) == Awake(s) && n.stored == s.stored;
      } else {
        assert |Awake(n)| == |Awake(s)| + 1;
      }
      assert Wakeups(n) >= Wakeups(s);
    } else {
      assert Awake(n) == Awake(s);
    }
  }

  lemma DropKeepsEnough(s: State, id: nat)
    requires Inv(s) && Enough(s) && Enabled(s, Drop(id)) && !Merges(s, Drop(id))
    ensures Enough(Next(s, Drop(id)))
  {
    var r := s.(waiters := s.waiters - {id}, queue := Without(s.queue, id));
    WithoutRemoves(s.queue, id);
    assert Sleeping(r) <= Sleeping(s);
    if s.waiters[id] == Woken(true) {
      assert Awake(r) == Awake(s) - {id} && id in Awake(s);
      NotifiedAdds(r);
    } else {
      assert Awake(r) == Awake(s);
    }
  }

  lemma NotifyAllWakes(s: State)
    requires Inv(s) && Enabled(s, NotifyAll)
    ensures Sleeping(Next(s, NotifyAll)) == {}
  {
  }

  lemma StepKeepsEnough(s: State, a: Action)
    requires Inv(s) && Enough(s) && Enabled(s, a) && !Merges(s, a)
    ensures Enough(Next(s, a))
  {
    hide Inv, Enough, Merges;
    match a
    case Try(id) => TryKeepsEnough(s, id);
    case Poll(id) => PollKeepsEnough(s, id);
    case Drop(id) => DropKeepsEnough(s, id);
    case _ => OthersKeepEnough(s, a);
  }

  lemma ArriveKeepsEnough(s: State, id: nat)
    requires Inv(s) && Enough(s) && Enabled(s, Arrive(id))
    ensures Enough(Next(s, Arrive(id)))
  {
    var n := Next(s, Arrive(id));
    assert Awake(n) == Awake(s) + {id} && Sleeping(n) == Sleeping(s);
  }

  lemma ReleaseKeepsEnough(s: State, id: nat)
    requires Inv(s) && Enough(s) && Enabled(s, Release(id))
    ensures Enough(Next(s, Release(id)))
  {
    var n := Next(s, Release(id));
    assert Awake(n) == Awake(s) && Sleeping(n) == Sleeping(s);
  }

  lemma NotifyOneKeepsEnough(s: State)
    requires Inv(s) && Enough(s) && Enabled(s, NotifyOne) && !s.stored
    ensures Enough(Next(s, NotifyOne))
  {
    hide Notified;
    var r := s.(releases := s.releases - 1);
    assert Awake(r) == Awake(s) && Sleeping(r) == Sleeping(s);
    NotifiedAdds(r);
    NotifiedKeepsCount(r);
  }

  lemma NotifiedKeepsCount(s: State)
    ensures Notified(s).max == s.max && Notified(s).inFlight == s.inFlight && Notified(s).updates == s.updates
  {
  }

  lemma SetMaxKeepsEnough(s: State, max: nat)
    ensures Enough(Next(s, Action.SetMax(max)))
  {
    hide Sleeping, Awake;
  }

  lemma NotifyAllKeepsEnough(s: State)
    requires Inv(s) && Enabled(s, NotifyAll)
    ensures Enough(Next(s, NotifyAll))
  {
    hide Sleeping, Awake;
    NotifyAllWakes(s);
  }

  lemma OthersKeepEnough(s: State, a: Action)
    requires Inv(s) && Enough(s) && Enabled(s, a) && !Merges(s, a) && !a.Try? && !a.Poll? && !a.Drop?
    ensures Enough(Next(s, a))
  {
    hide Inv, Enough, Enabled, Next;
    match a
    case Arrive(id) => ArriveKeepsEnough(s, id);
    case Release(id) => ReleaseKeepsEnough(s, id);
    case NotifyOne => NotifyOneKeepsEnough(s);
    case SetMax(max) => SetMaxKeepsEnough(s, max);
    case NotifyAll => NotifyAllKeepsEnough(s);
  }

  /** The one way to lose a try that was needed: a wakeup merges with a stored one
      while somebody sleeps and there are no more tries about than free slots. */
  ghost predicate Starves(s: State, a: Action) {
    Merges(s, a) && s.updates == 0 && Sleeping(s) != {} && s.max - s.inFlight == Wakeups(s)
  }

  /** A step loses a try that was needed exactly if it is of that kind. */
  lemma StarvesExactly(s: State, a: Action)
    requires Inv(s) && Enough(s) && Enabled(s, a)
    ensures Enough(Next(s, a)) <==> !Starves(s, a)
  {
    if Merges(s, a) {
      MergeLosesOne(s, a);
    } else {
      StepKeepsEnough(s, a);
    }
  }

  lemma MergeLosesOne(s: State, a: Action)
    requires Inv(s) && Enabled(s, a) && Merges(s, a)
    ensures var n := Next(s, a);
            Sleeping(n) == Sleeping(s) && Wakeups(n) == Wakeups(s) - 1 && n.updates == s.updates
            && n.max == s.max && n.inFlight == s.inFlight
  {
    var n := Next(s, a);
    if a.Drop? {
      WithoutRemoves(s.queue, a.id);
      assert Awake(n) == Awake(s) - {a.id} && a.id in Awake(s);
    } else {
      assert Awake(n) == Awake(s);
    }
    assert Sleeping(n) == Sleeping(s);
  }

  lemma {:induction false} RunsKeepEnough(states: seq<State>, actions: seq<Action>, k: nat)
    requires IsRun(states, actions) && k < |states| && forall j | 0 <= j < k :: !Starves(states[j], actions[j])
    ensures Enough(states[k])
    decreases k
  {
    hide Inv, Enabled, Next, Enough, Starves;
    if k == 0 {
      InitHasEnough();
    } else {
      RunsKeepInv(states, actions, k - 1);
      RunsKeepEnough(states, actions, k - 1);
      StarvesExactly(states[k - 1], actions[k - 1]);
    }
  }

  lemma InitHasEnough()
    ensures forall max :: Enough(Init(max))
  {
    assert forall max :: Sleeping(Init(max)) == {};
  }

  /** Everybody who waits is parked, and nothing is about to wake them. */
  predicate AtRest(s: State) {
    s.releases == 0 && s.updates == 0 && s.waiters != map[] && forall id | id in s.waiters :: s.waiters[id].Queued?
  }

  /** No slot idles: whenever somebody is left waiting at rest, every slot is
      taken, unless a wakeup was lost on the way. */
  lemma NoSlotIdles(states: seq<State>, actions: seq<Action>, k: nat)
    requires IsRun(states, actions) && k < |states| && AtRest(states[k])
    requires forall j | 0 <= j < k :: !Starves(states[j], actions[j])
    ensures |states[k].holders| >= states[k].max
  {
    hide IsRun, Starves;
    RunsKeepInv(states, actions, k);
    RunsKeepEnough(states, actions, k);
    var s := states[k];
    var id :| id in s.waiters;
    assert id in Sleeping(s) && id in s.queue;
    assert Awake(s) == {};
  }

  ghost predicate Reachable(s: State) {
    exists states, actions :: IsRun(states, actions) && states[|states| - 1] == s
  }

  lemma StartReachable(max: nat)
    ensures Reachable(Init(max))
  {
    assert IsRun([Init(max)], []);
  }

  lemma StepReachable(s: State, a: Action, n: State)
    requires Reachable(s) && Enabled(s, a) && Next(s, a) == n
    ensures Reachable(n)
  {
    hide Enabled, Next;
    var states, actions :| IsRun(states, actions) && states[|states| - 1] == s;
    assert IsRun(states + [n], actions + [a]);
  }

  lemma EnterReachable(s: State, id: nat, n: State)
    requires Reachable(s) && id !in s.waiters && id !in s.holders
    requires n == if s.inFlight < s.max then s.(inFlight := s.inFlight + 1, holders := s.holders + {id})
                  else s.(waiters := s.waiters[id := Asked(s.calls)])
    ensures Reachable(n)
  {
    hide Reachable;
    var t := s.(waiters := s.waiters[id := Trying]);
    StepReachable(s, Arrive(id), t);
    assert s.waiters[id := Trying] - {id} == s.waiters;
    assert s.waiters[id := Trying][id := Asked(s.calls)] == s.waiters[id := Asked(s.calls)];
    StepReachable(t, Try(id), n);
  }

  /** It can happen: two releases before either of two new waiters has parked
      leave one wakeup, one waiter takes it, and the other sleeps beside a slot
      that nobody holds. */
  lemma SlotCanIdle()
    ensures exists s :: Reachable(s) && AtRest(s) && |s.holders| < s.max
  {
    hide Reachable;
    StartReachable(2);
    var s0 := Init(2);
    EnterReachable(s0, 0, s0.(inFlight := 1, holders := {0}));
    EnterReachable(s0.(inFlight := 1, holders := {0}), 1, s0.(inFlight := 2, holders := {0, 1}));
    var s1 := s0.(inFlight := 2, holders := {0, 1});
    var s2 := s1.(waiters := map[2 := Asked(0)]);
    assert s1.waiters[2 := Asked(0)] == s2.waiters;
    EnterReachable(s1, 2, s2);
    var s3 := s1.(waiters := map[2 := Asked(0), 3 := Asked(0)]);
    assert s2.waiters[3 := Asked(0)] == s3.waiters;
    EnterReachable(s2, 3, s3);
    TwoReleases(s3);
  }

  lemma LeaveReachable(s: State, id: nat)
    requires Reachable(s) && id in s.holders && s.inFlight > 0
    ensures Reachable(s.(inFlight := s.inFlight - 1, holders := s.holders - {id}, releases := s.releases + 1))
  {
    hide Reachable;
    StepReachable(s, Release(id), Next(s, Release(id)));
  }

  lemma StoreReachable(s: State)
    requires Reachable(s) && s.queue == [] && s.releases > 0
    ensures Reachable(s.(releases := s.releases - 1, stored := true))
  {
    hide Reachable;
    StepReachable(s, NotifyOne, Next(s, NotifyOne));
  }

  lemma TwoReleases(s: State)
    requires Reachable(s) && s == State(2, 2, {0, 1}, map[2 := Asked(0), 3 := Asked(0)], [], false, 0, 0, 0)
    ensures exists s :: Reachable(s) && AtRest(s) && |s.holders| < s.max
  {
    hide Reachable, AtRest;
    LeaveReachable(s, 0);
    var s1 := s.(inFlight := 1, holders := s.holders - {0}, releases := 1);
    LeaveReachable(s1, 1);
    var s2 := s1.(inFlight := 0, holders := s1.holders - {1}, releases := 2);
    StoreReachable(s2);
    var s3 := s2.(releases := 1, stored := true);
    StoreReachable(s3);
    assert s2.holders == {};
    OneWakeup(s3.(releases := 0));
  }

  lemma OneWakeup(s: State)
    requires Reachable(s) && s == State(2, 0, {}, map[2 := Asked(0), 3 := Asked(0)], [], true, 0, 0, 0)
    ensures exists s :: Reachable(s) && AtRest(s) && |s.holders| < s.max
  {
    hide Reachable;
    var s5 := s.(stored := false, waiters := map[2 := Trying, 3 := Asked(0)]);
    assert s.waiters[2 := Trying] == s5.waiters;
    StepReachable(s, Poll(2), s5);
    var s6 := s5.(inFlight := 1, holders := {2}, waiters := map[3 := Asked(0)]);
    assert s5.waiters - {2} == s6.waiters && {} + {2} == {2};
    StepReachable(s5, Try(2), s6);
    ParkedBeside(s6);
  }

  lemma ParkedBeside(s: State)
    requires Reachable(s) && s == State(2, 1, {2}, map[3 := Asked(0)], [], false, 0, 0, 0)
    ensures exists s :: Reachable(s) && AtRest(s) && |s.holders| < s.max
  {
    hide Reachable;
    var n := s.(queue := [3], waiters := map[3 := Queued]);
    assert s.waiters[3 := Queued] == n.waiters && [] + [3] == [3];
    StepReachable(s, Poll(3), n);
    assert 3 in n.waiters && AtRest(n) && |n.holders| == 1;
  }

  /** A change of the limit reaches everyone: until all waiters have been woken
      after it, the wakeup is still to come. */
  lemma {:induction false} ChangesReachEveryone(states: seq<State>, actions: seq<Action>, j: nat, k: nat)
    requires IsRun(states, actions) && j < k < |states| && actions[j].SetMax?
    ensures states[k].updates > 0
            || exists x :: j < x < k && actions[x].NotifyAll? && Sleeping(states[x + 1]) == {}
    decreases k
  {
    hide Sleeping, Inv;
    RunsKeepInv(states, actions, k - 1);
    assert Enabled(states[k - 1], actions[k - 1]) && states[k] == Next(states[k - 1], actions[k - 1]);
    if j < k - 1 {
      hide IsRun;
      ChangesReachEveryone(states, actions, j, k - 1);
      if actions[k - 1].NotifyAll? {
        NotifyAllWakes(states[k - 1]);
      }
    }
  }

  predicate Internal(a: Action) {
    a.Try? || a.Poll? || a.NotifyOne?
  }

  /** `path` is a sequence of steps that the limiter and its waiters can take on
      their own, and it ends with a grant. */
  ghost predicate Grants(s: State, path: seq<Action>)
    decreases |path|
  {
    path != [] && Internal(path[0]) && Enabled(s, path[0])
    && (if |path| == 1 then Next(s, path[0]).holders != {} else Grants(Next(s, path[0]), path[1..]))
  }

  lemma TryGrants(s: State, id: nat)
    requires PermitsOk(s) && s.holders == {} && id in s.waiters && s.waiters[id].Trying?
    ensures Grants(s, [Try(id)])
  {
    assert id in Next(s, Try(id)).holders;
  }

  lemma PollThenTry(s: State, id: nat)
    requires PermitsOk(s) && s.holders == {} && id in s.waiters
    requires s.waiters[id].Woken? || (s.waiters[id].Asked? && (s.stored || s.waiters[id].seen != s.calls))
    ensures Grants(s, [Poll(id), Try(id)])
  {
    var n := Next(s, Poll(id));
    TryGrants(n, id);
    assert [Poll(id), Try(id)][1..] == [Try(id)];
  }

  lemma NotifyPollTry(s: State, id: nat)
    requires Inv(s) && s.holders == {} && Unnotified(s, id) && s.releases > 0
    ensures exists path :: Grants(s, path) && |path| <= 3
  {
    var n := Next(s, NotifyOne);
    var next := if s.queue == [] then id else s.queue[0];
    if s.queue == [] {
      assert id !in s.queue;
    } else {
      assert s.queue[0] in s.queue;
    }
    PollThenTry(n, next);
    var path := [NotifyOne, Poll(next), Try(next)];
    assert path[1..] == [Poll(next), Try(next)];
    assert Grants(s, path);
  }

  /** Whoever waits while no permit is held is never stuck: the limiter and its
      waiters can grant a permit within three steps of their own, without any
      new arrival, release or change of the limit. */
  lemma NoPermitMeansProgress(states: seq<State>, actions: seq<Action>, k: nat)
    requires IsRun(states, actions) && k < |states|
    requires states[k].holders == {} && states[k].waiters != map[]
    ensures exists path :: Grants(states[k], path) && |path| <= 3
  {
    hide IsRun;
    var s := states[k];
    RunsKeepInv(states, actions, k);
    var id :| id in s.waiters;
    if s.waiters[id].Trying? {
      TryGrants(s, id);
    } else if !Unnotified(s, id) {
      PollThenTry(s, id);
    } else if s.stored {
      assert id !in s.queue;
      PollThenTry(s, id);
    } else if s.releases > 0 {
      NotifyPollTry(s, id);
    } else {
      var other :| other in s.waiters && (s.waiters[other] == Woken(true) || s.waiters[other].Trying?);
      if s.waiters[other].Trying? {
        TryGrants(s, other);
      } else {
        PollThenTry(s, other);
      }
    }
  }

  // ---- the critical sections ----

  /** The state behind the mutex, updated in place. */
  class Slots {
    var max: nat
    var inFlight: nat

    constructor (max: nat)
      ensures this.max == Init(max).max && inFlight == Init(max).inFlight
    {
      this.max := Max(max, 1);
      inFlight := 0;
    }

    /** One round of `acquire` under the lock. */
    method TryEnter(ghost s: State, ghost id: nat) returns (entered: bool)
      requires max == s.max && inFlight == s.inFlight && Enabled(s, Try(id)) && id !in s.holders
      modifies this
      ensures max == Next(s, Try(id)).max && inFlight == Next(s, Try(id)).inFlight
      ensures entered <==> id in Next(s, Try(id)).holders
    {
      entered := inFlight < max;
      if entered {
        inFlight := inFlight + 1;
      }
    }

    method Leave(ghost s: State, ghost id: nat)
      requires max == s.max && inFlight == s.inFlight && Enabled(s, Release(id))
      modifies this
      ensures max == Next(s, Release(id)).max && inFlight == Next(s, Release(id)).inFlight
    {
      inFlight := if inFlight > 0 then inFlight - 1 else 0;
    }

    method SetMax(limit: nat, ghost s: State)
      requires max == s.max && inFlight == s.inFlight
      modifies this
      ensures max == Next(s, Action.SetMax(limit)).max && inFlight == s.inFlight
    {
      max := Max(limit, 1);
    }
  }
}
