/** Any number of requests sharing one account's lock, as a state machine over the turns of
    Node's event loop. A request acquires once, calls its action at levels 0, 1, ... and, when
    its last level ends, every level it entered releases. Those releases are separated only
    by promise jobs, so they form one step. */
module RequestProtocol {
  import opened Basics
  import opened Locking
  import RetryPolicy

  const MAX_RETRIES := RetryPolicy.MAX_RETRIES

  /** `Running(k)`: the action of level k is in flight. `Sleeping(k)`: the timer that will
      enter level k is set. */
  datatype Phase = Waiting | Running(level: nat) | Sleeping(level: nat) | Finished

  datatype Request = Request(phase: Phase, acquires: nat, actions: nat, releases: nat)

  /** Three histories: who had to wait, which of those got the lock, and everyone who got it. */
  datatype System = System(lock: LockState, requests: seq<Request>, registered: seq<nat>, granted: seq<nat>, acquired: seq<nat>)

  datatype Event =
    | Arrive                            // a request is made, through either client
    | Respond(r: nat, limited: bool)    // its action ends: with a 429, or with anything else
    | TimerFires(r: nat)
    | ImmediateFires

  const IDLE := System(UNLOCKED, [], [], [], [])

  predicate Enabled(s: System, e: Event) {
    match e
    case Arrive => true
    case Respond(r, _) => r < |s.requests| && s.requests[r].phase.Running?
    case TimerFires(r) => r < |s.requests| && s.requests[r].phase.Sleeping?
    case ImmediateFires =>
      s.lock.pending > 0 && (Woken(s.lock).Some? ==> Woken(s.lock).value < |s.requests|)
  }

  function Next(s: System, e: Event): System
    requires Enabled(s, e)
  {
    match e
    case Arrive => Arrived(s)
    case Respond(r, limited) =>
      var level := s.requests[r].phase.level;
      if limited then s.(requests := s.requests[r := s.requests[r].(phase := Sleeping(level + 1))])
      else Unwound(s, r, level + 1)
    case TimerFires(r) =>
      var level := s.requests[r].phase.level;
      if level == MAX_RETRIES then Unwound(s, r, level)  // this level throws before its try block
      else s.(requests := s.requests[r := s.requests[r].(phase := Running(level), actions := s.requests[r].actions + 1)])
    case ImmediateFires =>
      match Woken(s.lock) {
        case None => s.(lock := Emitted(s.lock))
        case Some(w) => s.(lock := Emitted(s.lock), requests := s.requests[w := Request(Running(0), 1, 1, 0)],
                           granted := s.granted + [w], acquired := s.acquired + [w])
      }
  }

  function Arrived(s: System): System {
    var me := |s.requests|;
    if s.lock.isLocked then
      s.(lock := Acquired(s.lock, me), requests := s.requests + [Request(Waiting, 1, 0, 0)], registered := s.registered + [me])
    else
      s.(lock := Acquired(s.lock, me), requests := s.requests + [Request(Running(0), 1, 1, 0)], acquired := s.acquired + [me])
  }

  function Unwound(s: System, r: nat, levels: nat): System
    requires r < |s.requests|
  {
    s.(lock := ReleasedTimes(s.lock, levels),
       requests := s.requests[r := s.requests[r].(phase := Finished, releases := s.requests[r].releases + levels)])
  }

  /** Between its acquire and its last release. */
  ghost predicate Holds(s: System, r: nat) {
    r < |s.requests| && (s.requests[r].phase.Running? || s.requests[r].phase.Sleeping?)
  }

  ghost predicate Waits(s: System, r: nat) {
    r < |s.requests| && s.requests[r].phase.Waiting?
  }

  ghost predicate MutualExclusion(s: System) {
    forall r1: nat, r2: nat :: Holds(s, r1) && Holds(s, r2) ==> r1 == r2
  }

  ghost predicate NoLostWakeUp(s: System) {
    s.lock.waiters != [] ==> s.lock.isLocked || s.lock.pending > 0
  }

  /** One acquire, at most five action calls, one release for each level entered. */
  ghost predicate Accounted(q: Request) {
    && q.acquires == 1
    && match q.phase
       case Waiting => q.actions == 0 && q.releases == 0
       case Running(k) => k < MAX_RETRIES && q.actions == k + 1 && q.releases == 0
       case Sleeping(k) => 1 <= k <= MAX_RETRIES && q.actions == k && q.releases == 0
       case Finished => 1 <= q.actions <= MAX_RETRIES && q.releases == q.actions
  }

  ghost predicate Inv(s: System) {
    && Distinct(s.lock.waiters)
    && (forall r: nat :: r in s.lock.waiters <==> Waits(s, r))
    && MutualExclusion(s)
    && (s.lock.isLocked <==> exists r: nat :: Holds(s, r))
    && NoLostWakeUp(s)
    && (forall r: nat :: r < |s.requests| ==> Accounted(s.requests[r]))
    && s.granted + s.lock.waiters == s.registered
  }

  lemma {:induction false} InvArrive(s: System)
    requires Inv(s)
    ensures Inv(Arrived(s))
  {
    var t := Arrived(s);
    var me := |s.requests|;
    assert me !in s.lock.waiters;
    forall r: nat | r != me
      ensures Holds(t, r) == Holds(s, r) && Waits(t, r) == Waits(s, r)
    {
    }
    if s.lock.isLocked {
      var h: nat :| Holds(s, h);
      assert Holds(t, h);
      assert t.granted + t.lock.waiters == t.registered;
    } else {
      assert Holds(t, me);
    }
  }

  lemma {:induction false} InvUnwound(s: System, r: nat, levels: nat)
    requires Inv(s) && Holds(s, r) && levels > 0
    requires levels == s.requests[r].actions
    ensures Inv(Unwound(s, r, levels))
  {
    var t := Unwound(s, r, levels);
    forall q: nat | q != r
      ensures Holds(t, q) == Holds(s, q) && Waits(t, q) == Waits(s, q)
    {
    }
    assert !Holds(t, r);
    assert forall q: nat :: !Holds(t, q);
  }

  lemma {:induction false} InvHolderMoves(s: System, r: nat, q: Request)
    requires Inv(s) && Holds(s, r)
    requires (q.phase.Running? || q.phase.Sleeping?) && Accounted(q)
    ensures Inv(s.(requests := s.requests[r := q]))
  {
    var t := s.(requests := s.requests[r := q]);
    assert Holds(t, r);
    forall p: nat
      ensures Holds(t, p) == Holds(s, p) && Waits(t, p) == Waits(s, p)
    {
    }
  }

  lemma {:induction false} InvSpurious(s: System)
    requires Inv(s) && Enabled(s, ImmediateFires) && Woken(s.lock) == None
    ensures Inv(Next(s, ImmediateFires))
  {
    var t := Next(s, ImmediateFires);
    forall p: nat
      ensures Holds(t, p) == Holds(s, p) && Waits(t, p) == Waits(s, p)
    {
    }
  }

  lemma {:induction false} InvWoken(s: System, w: nat)
    requires Inv(s) && Enabled(s, ImmediateFires) && Woken(s.lock) == Some(w)
    ensures Inv(Next(s, ImmediateFires))
  {
    var t := Next(s, ImmediateFires);
    assert s.lock.waiters == [w] + t.lock.waiters;
    assert w !in t.lock.waiters;
    assert Holds(t, w) && !Waits(t, w);
    forall p: nat | p != w
      ensures !Holds(t, p) && Waits(t, p) == Waits(s, p)
      ensures p in t.lock.waiters <==> p in s.lock.waiters
    {
      assert !Holds(s, p);
    }
    assert t.granted + t.lock.waiters == s.granted + s.lock.waiters;
  }

  lemma {:induction false} HoldersAreAccounted(s: System, r: nat)
    requires Inv(s) && Holds(s, r)
    ensures Accounted(s.requests[r])
  {
  }

  lemma {:induction false} InvRespond(s: System, r: nat, limited: bool)
    requires Inv(s) && Enabled(s, Respond(r, limited))
    ensures Inv(Next(s, Respond(r, limited)))
  {
    var q := s.requests[r];
    HoldersAreAccounted(s, r);
    if limited {
      InvHolderMoves(s, r, q.(phase := Sleeping(q.phase.level + 1)));
    } else {
      InvUnwound(s, r, q.phase.level + 1);
    }
  }

  lemma {:induction false} InvTimer(s: System, r: nat)
    requires Inv(s) && Enabled(s, TimerFires(r))
    ensures Inv(Next(s, TimerFires(r)))
  {
    var q := s.requests[r];
    HoldersAreAccounted(s, r);
    if q.phase.level == MAX_RETRIES {
      InvUnwound(s, r, q.phase.level);
      assert Next(s, TimerFires(r)) == Unwound(s, r, q.phase.level);
    } else {
      var again := q.(phase := Running(q.phase.level), actions := q.actions + 1);
      InvHolderMoves(s, r, again);
      assert Next(s, TimerFires(r)) == s.(requests := s.requests[r := again]);
    }
  }

  lemma {:induction false} InvNext(s: System, e: Event)
    requires Inv(s) && Enabled(s, e)
    ensures Inv(Next(s, e))
  {
    match e {
      case Arrive => InvArrive(s);
      case Respond(r, limited) => InvRespond(s, r, limited);
      case TimerFires(r) => InvTimer(s, r);
      case ImmediateFires =>
        if Woken(s.lock).Some? {
          InvWoken(s, Woken(s.lock).value);
        } else {
          InvSpurious(s);
        }
    }
  }

  // ---- Whole runs ----

  predicate ValidRun(s: System, events: seq<Event>)
    decreases |events|
  {
    events == [] || (Enabled(s, events[0]) && ValidRun(Next(s, events[0]), events[1..]))
  }

  function Run(s: System, events: seq<Event>): System
    requires ValidRun(s, events)
    decreases |events|
  {
    if events == [] then s else Run(Next(s, events[0]), events[1..])
  }

  lemma {:induction false} InvRun(s: System, events: seq<Event>)
    requires Inv(s) && ValidRun(s, events)
    ensures Inv(Run(s, events))
    decreases |events|
  {
    if events == [] {
    } else {
      InvNext(s, events[0]);
      InvRun(Next(s, events[0]), events[1..]);
    }
  }

  /** In every run: one holder at most, and every finished request released exactly once for
      each of its at most five action calls, after a single acquire. */
  lemma {:induction false} ExclusionInEveryRun(events: seq<Event>)
    requires ValidRun(IDLE, events)
    ensures MutualExclusion(Run(IDLE, events))
    ensures forall q <- Run(IDLE, events).requests :: Accounted(q)
  {
    InvRun(IDLE, events);
  }

  /** In every run: nobody waits on a free lock with no release event on its way, and those who
      had to wait got the lock in the order in which they started waiting. */
  lemma {:induction false} WaitersAreServedInOrder(events: seq<Event>)
    requires ValidRun(IDLE, events)
    ensures NoLostWakeUp(Run(IDLE, events))
    ensures Run(IDLE, events).granted <= Run(IDLE, events).registered
    ensures Run(IDLE, events).registered == Run(IDLE, events).granted + Run(IDLE, events).lock.waiters
  {
    InvRun(IDLE, events);
  }

  /** A release event that fires while some request holds the lock wakes nobody: every request
      stays in its phase, the wait list is kept, and that request remains the only holder. */
  lemma {:induction false} SpuriousReleaseWakesNobody(s: System, h: nat)
    requires Inv(s) && Enabled(s, ImmediateFires) && Holds(s, h)
    ensures var t := Next(s, ImmediateFires);
            && t.requests == s.requests && t.lock.waiters == s.lock.waiters
            && forall r: nat :: Holds(t, r) <==> r == h
  {
    var t := Next(s, ImmediateFires);
    assert forall r: nat :: Holds(t, r) == Holds(s, r);
  }

  // ---- Progress ----

  function Weight(q: Request): nat {
    match q.phase
    case Waiting => 20
    case Running(k) => if k <= 5 then 18 - 2 * k else 0
    case Sleeping(k) => if k <= 5 then 19 - 2 * k else 0
    case Finished => 0
  }

  function TotalWeight(requests: seq<Request>): nat {
    if requests == [] then 0 else Weight(requests[0]) + TotalWeight(requests[1..])
  }

  function Measure(s: System): nat {
    TotalWeight(s.requests) + s.lock.pending
  }

  lemma {:induction false} TotalWeightUpdate(requests: seq<Request>, r: nat, q: Request)
    requires r < |requests|
    ensures TotalWeight(requests[r := q]) == TotalWeight(requests) - Weight(requests[r]) + Weight(q)
  {
    if r == 0 {
      assert requests[r := q][1..] == requests[1..];
    } else {
      assert requests[r := q][1..] == requests[1..][r - 1 := q];
      TotalWeightUpdate(requests[1..], r - 1, q);
    }
  }

  lemma {:induction false} HolderMakesProgress(s: System, e: Event, r: nat)
    requires r < |s.requests| && Enabled(s, e) && Accounted(s.requests[r])
    requires e == TimerFires(r) || e == Respond(r, true) || e == Respond(r, false)
    ensures Measure(Next(s, e)) < Measure(s)
  {
    TotalWeightUpdate(s.requests, r, Next(s, e).requests[r]);
  }

  lemma {:induction false} WakingMakesProgress(s: System)
    requires Enabled(s, ImmediateFires) && (Woken(s.lock).Some? ==> Waits(s, Woken(s.lock).value))
    ensures Measure(Next(s, ImmediateFires)) < Measure(s)
  {
    if Woken(s.lock).Some? {
      var w := Woken(s.lock).value;
      TotalWeightUpdate(s.requests, w, Next(s, ImmediateFires).requests[w]);
    }
  }

  lemma {:induction false} EveryStepMakesProgress(s: System, e: Event)
    requires Inv(s) && Enabled(s, e) && !e.Arrive?
    ensures Measure(Next(s, e)) < Measure(s)
  {
    match e {
      case Respond(r, limited) =>
        HoldersAreAccounted(s, r);
        HolderMakesProgress(s, e, r);
      case TimerFires(r) =>
        HoldersAreAccounted(s, r);
        HolderMakesProgress(s, e, r);
      case ImmediateFires =>
        if Woken(s.lock).Some? {
          assert Woken(s.lock).value in s.lock.waiters;
        }
        WakingMakesProgress(s);
    }
  }

  /** An unfinished request always leaves something to happen that is not a new arrival. */
  lemma {:induction false} NeverStuck(s: System, r: nat) returns (e: Event)
    requires Inv(s) && r < |s.requests| && s.requests[r].phase != Finished
    ensures !e.Arrive? && Enabled(s, e)
  {
    if s.lock.isLocked {
      var h: nat :| Holds(s, h);
      e := if s.requests[h].phase.Running? then Respond(h, false) else TimerFires(h);
    } else {
      assert !Holds(s, r);
      assert Waits(s, r) && r in s.lock.waiters;
      e := ImmediateFires;
      assert s.lock.waiters[0] in s.lock.waiters && Waits(s, s.lock.waiters[0]);
    }
  }

  ghost predicate NoArrivals(events: seq<Event>) {
    forall e <- events :: !e.Arrive?
  }

  /** Once arrivals stop, a run has at most `Measure` further steps, and a run that cannot be
      continued has finished every request. */
  lemma {:induction false} EveryRequestFinishes(s: System, events: seq<Event>)
    requires Inv(s) && ValidRun(s, events) && NoArrivals(events)
    ensures |events| <= Measure(s)
    ensures (forall e: Event :: !e.Arrive? ==> !Enabled(Run(s, events), e))
        ==> forall q <- Run(s, events).requests :: q.phase == Finished
    decreases |events|
  {
    if events == [] {
      if exists q <- s.requests :: q.phase != Finished {
        var r :| 0 <= r < |s.requests| && s.requests[r].phase != Finished;
        var e := NeverStuck(s, r);
      }
    } else {
      assert events[0] in events;
      EveryStepMakesProgress(s, events[0]);
      InvNext(s, events[0]);
      EveryRequestFinishes(Next(s, events[0]), events[1..]);
    }
  }

  // ---- What does not hold ----

  /** Whether an event is an arrival in a state where the lock is free although somebody waits. */
  predicate Overtakes(s: System, e: Event) {
    e.Arrive? && !s.lock.isLocked && s.lock.waiters != []
  }

  /** A newcomer gets the lock while an earlier request waits exactly when it arrives between a
      release and the event that the release has set off. */
  lemma {:induction false} NewcomerOvertakesIff(s: System)
    requires Inv(s)
    ensures Overtakes(s, Arrive)
       <==> Holds(Arrived(s), |s.requests|) && exists w: nat :: w < |s.requests| && Waits(Arrived(s), w)
    ensures Overtakes(s, Arrive) ==> s.lock.pending > 0
  {
    var t := Arrived(s);
    assert forall w: nat :: w < |s.requests| ==> Waits(t, w) == Waits(s, w);
    if s.lock.waiters != [] {
      assert s.lock.waiters[0] in s.lock.waiters;
    }
  }

  /** Everyone who has the lock behind them, in the order they got it, then those who wait. */
  function Queue(s: System): seq<nat> {
    s.acquired + s.lock.waiters
  }

  /** The history names exactly the requests that got the lock. */
  ghost predicate HistoryIsComplete(s: System) {
    forall r: nat :: r in s.acquired <==> r < |s.requests| && !Waits(s, r)
  }

  lemma {:induction false} StepKeepsHistory(s: System, e: Event)
    requires Enabled(s, e) && HistoryIsComplete(s)
    ensures HistoryIsComplete(Next(s, e))
  {
    var t := Next(s, e);
    match e {
      case Arrive =>
        assert forall r: nat :: r < |s.requests| ==> Waits(t, r) == Waits(s, r);
      case Respond(r, _) => assert forall q: nat :: Waits(t, q) == Waits(s, q);
      case TimerFires(r) => assert forall q: nat :: Waits(t, q) == Waits(s, q);
      case ImmediateFires =>
        if Woken(s.lock).Some? {
          var w := Woken(s.lock).value;
          assert forall q: nat :: q != w ==> Waits(t, q) == Waits(s, q);
          assert !Waits(t, w);
        } else {
          assert t.requests == s.requests;
        }
    }
  }

  ghost predicate Increasing(s: seq<nat>) {
    forall i, j :: 0 <= i < j < |s| ==> s[i] < s[j]
  }

  predicate NoOvertaking(s: System, events: seq<Event>)
    requires ValidRun(s, events)
    decreases |events|
  {
    events == [] || (!Overtakes(s, events[0]) && NoOvertaking(Next(s, events[0]), events[1..]))
  }

  lemma {:induction false} IncreasingInsert(a: seq<nat>, x: nat, b: seq<nat>)
    requires forall y <- a + b :: y < x
    ensures Increasing(a + [x] + b) <==> Increasing(a + b) && b == []
  {
    if b == [] {
      var all := a + [x] + b;
      assert all == a + [x] && a + b == a;
      assert forall i :: 0 <= i < |a| ==> a[i] in a + b;
      if Increasing(all) {
        forall i, j | 0 <= i < j < |a|
          ensures a[i] < a[j]
        {
          assert all[i] < all[j];
        }
      }
    } else {
      var all := a + [x] + b;
      assert b[0] in a + b;
      assert all[|a|] == x && all[|a| + 1] == b[0];
    }
  }

  /** A step keeps the requests in the order in which they arrived, unless it overtakes; an order
      that is lost is never restored. */
  lemma {:induction false} StepKeepsOrderIff(s: System, e: Event)
    requires Inv(s) && HistoryIsComplete(s) && Enabled(s, e)
    ensures Increasing(Queue(Next(s, e))) <==> Increasing(Queue(s)) && !Overtakes(s, e)
  {
    var t := Next(s, e);
    match e {
      case Arrive =>
        var me := |s.requests|;
        assert forall y <- Queue(s) :: y < me;
        if s.lock.isLocked {
          assert Queue(t) == Queue(s) + [me] + [] && Queue(s) + [] == Queue(s);
          IncreasingInsert(Queue(s), me, []);
        } else {
          assert Queue(t) == s.acquired + [me] + s.lock.waiters;
          IncreasingInsert(s.acquired, me, s.lock.waiters);
        }
      case Respond(_, _) => assert Queue(t) == Queue(s);
      case TimerFires(_) => assert Queue(t) == Queue(s);
      case ImmediateFires => assert Queue(t) == Queue(s);
    }
  }

  lemma {:induction false} RunKeepsOrderIff(s: System, events: seq<Event>)
    requires Inv(s) && HistoryIsComplete(s) && ValidRun(s, events)
    ensures Increasing(Queue(Run(s, events))) <==> Increasing(Queue(s)) && NoOvertaking(s, events)
    ensures HistoryIsComplete(Run(s, events))
    decreases |events|
  {
    if events == [] {
    } else {
      StepKeepsOrderIff(s, events[0]);
      StepKeepsHistory(s, events[0]);
      InvNext(s, events[0]);
      RunKeepsOrderIff(Next(s, events[0]), events[1..]);
    }
  }

  /** First come, first served, exactly for the runs without an overtaking arrival: the requests
      that got the lock, then those that wait, are in order of arrival. */
  lemma {:induction false} FirstComeFirstServedIff(events: seq<Event>)
    requires ValidRun(IDLE, events)
    ensures Increasing(Queue(Run(IDLE, events))) <==> NoOvertaking(IDLE, events)
    ensures forall r: nat :: r in Queue(Run(IDLE, events)) <==> r < |Run(IDLE, events).requests|
  {
    RunKeepsOrderIff(IDLE, events);
    InvRun(IDLE, events);
  }

  /** A newcomer takes the free lock, the event of the last release finds it held, and the
      newcomer's action ends. */
  function OneOvertaking(me: nat): seq<Event> {
    [Arrive, ImmediateFires, Respond(me, false)]
  }

  function OvertakingRun(me: nat, n: nat): seq<Event>
    decreases n
  {
    if n == 0 then [] else OneOvertaking(me) + OvertakingRun(me + 1, n - 1)
  }

  /** One request waits, the lock is free, and the event of one release is still to come. */
  ghost predicate PassedOver(s: System, w: nat) {
    !s.lock.isLocked && s.lock.waiters == [w] && s.lock.pending == 1 && Waits(s, w)
  }

  lemma {:induction false} RunConcat(s: System, first: seq<Event>, rest: seq<Event>)
    requires ValidRun(s, first) && ValidRun(Run(s, first), rest)
    ensures ValidRun(s, first + rest) && Run(s, first + rest) == Run(Run(s, first), rest)
    decreases |first|
  {
    if first == [] {
      assert first + rest == rest;
    } else {
      assert (first + rest)[1..] == first[1..] + rest;
      RunConcat(Next(s, first[0]), first[1..], rest);
    }
  }

  lemma {:induction false} OneMoreOvertakes(s: System, w: nat)
    requires PassedOver(s, w)
    ensures var me := |s.requests|;
            && ValidRun(s, OneOvertaking(me))
            && var t := Run(s, OneOvertaking(me));
               PassedOver(t, w) && t.requests == s.requests + [SERVED]
  {
    var me := |s.requests|;
    var s1 := Next(s, Arrive);
    var s2 := Next(s1, ImmediateFires);
    var s3 := Next(s2, Respond(me, false));
    assert ValidRun(s3, []) && Run(s3, []) == s3;
    assert ValidRun(s2, [Respond(me, false)]) && Run(s2, [Respond(me, false)]) == s3;
    assert [ImmediateFires, Respond(me, false)][1..] == [Respond(me, false)];
    assert ValidRun(s1, [ImmediateFires, Respond(me, false)]) && Run(s1, [ImmediateFires, Respond(me, false)]) == s3;
    assert OneOvertaking(me)[1..] == [ImmediateFires, Respond(me, false)];
  }

  const SERVED := Request(Finished, 1, 1, 1)

  function ServedRequests(n: nat): seq<Request> {
    seq(n, _ => SERVED)
  }

  /** There is no bound on overtaking, even when every release event fires before the next reply:
      from any such state, n newcomers can come and finish while the same request still waits. */
  lemma {:induction false} OvertakingIsUnbounded(s: System, w: nat, n: nat)
    requires PassedOver(s, w)
    ensures var events := OvertakingRun(|s.requests|, n);
            && ValidRun(s, events) && PassedOver(Run(s, events), w)
            && Run(s, events).requests == s.requests + ServedRequests(n)
    decreases n
  {
    if n == 0 {
      assert s.requests + ServedRequests(0) == s.requests;
    } else {
      var first := OneOvertaking(|s.requests|);
      OneMoreOvertakes(s, w);
      var t := Run(s, first);
      OvertakingIsUnbounded(t, w, n - 1);
      RunConcat(s, first, OvertakingRun(|t.requests|, n - 1));
      assert s.requests + [SERVED] + ServedRequests(n - 1) == s.requests + ServedRequests(n);
    }
  }

  /** Such a state is reached as soon as one request waits and the first one ends. */
  lemma PassedOverIsReachable()
    ensures var run := [Arrive, Arrive, Respond(0, false)]; ValidRun(IDLE, run) && PassedOver(Run(IDLE, run), 1)
  {
    var s1 := Next(IDLE, Arrive);
    var s2 := Next(s1, Arrive);
    var s3 := Next(s2, Respond(0, false));
    assert ValidRun(s3, []) && Run(s3, []) == s3;
    assert ValidRun(s2, [Respond(0, false)]) && Run(s2, [Respond(0, false)]) == s3;
    assert [Arrive, Respond(0, false)][1..] == [Respond(0, false)];
    assert ValidRun(s1, [Arrive, Respond(0, false)]) && Run(s1, [Arrive, Respond(0, false)]) == s3;
    assert [Arrive, Arrive, Respond(0, false)][1..] == [Arrive, Respond(0, false)];
  }

  /** The first of the releases of one unwinding, taken alone. */
  function FirstReleaseOnly(s: System, r: nat): System
    requires r < |s.requests|
  {
    s.(lock := Released(s.lock), requests := s.requests[r := s.requests[r].(releases := s.requests[r].releases + 1)])
  }

  /** Why one unwinding has to be one step: in any state, if a retried request has released one
      level and two requests arrive around its remaining releases, both of them hold the lock. */
  lemma {:induction false} ArrivalInsideUnwindingBreaksExclusion(s: System, r: nat)
    requires Inv(s) && r < |s.requests| && s.requests[r].phase.Running? && s.requests[r].phase.level >= 1
    ensures var between := Arrived(FirstReleaseOnly(s, r));
            var after := Arrived(Unwound(between, r, s.requests[r].phase.level));
            !MutualExclusion(after)
  {
    var between := Arrived(FirstReleaseOnly(s, r));
    var after := Arrived(Unwound(between, r, s.requests[r].phase.level));
    var first, second := |s.requests|, |s.requests| + 1;
    assert Holds(after, first);
    assert Holds(after, second);
  }
}
