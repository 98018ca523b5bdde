/** The state machine of requests and the recursive retry describe the same thing: what one request
    does in a run, event by event, is what the clients' levels do for the replies it gets. */
module RequestTraces {
  import opened Basics
  import opened Locking
  import opened RequestProtocol
  import opened RetryPolicy

  function Releases(n: nat): seq<Effect> {
    if n == 0 then [] else Releases(n - 1) + [Release]
  }

  function SleepAfter(limit: Option<JsNumber>, extra: real): seq<Effect> {
    if limit.Some? then [Sleep(SleepFor(limit.value, extra))] else []
  }

  /** The effects of an event on request r; `limits` are the replies to its calls. */
  function StepEffects(s: System, e: Event, r: nat, limits: Limits, extra: real): seq<Effect>
    requires Enabled(s, e)
  {
    match e
    case Arrive => if r != |s.requests| then [] else if s.lock.isLocked then [Acquire] else [Acquire, Call]
    case Respond(q, limited) =>
      if q != r then []
      else if !limited then Releases(s.requests[q].phase.level + 1)
      else if s.requests[q].phase.level < |limits| then SleepAfter(limits[s.requests[q].phase.level], extra) else []
    case TimerFires(q) =>
      if q != r then []
      else if s.requests[q].phase.level == RetryPolicy.MAX_RETRIES then Releases(s.requests[q].phase.level)
      else [Call]
    case ImmediateFires => if Woken(s.lock) == Some(r) then [Call] else []
  }

  /** A reply to request r is a 429 exactly where `limits` has one. */
  predicate Agrees(s: System, e: Event, r: nat, limits: Limits)
    requires Enabled(s, e)
  {
    e.Respond? && e.r == r ==>
      s.requests[r].phase.level < |limits| && (limits[s.requests[r].phase.level].Some? <==> e.limited)
  }

  predicate RunAgrees(s: System, events: seq<Event>, r: nat, limits: Limits)
    requires ValidRun(s, events)
    decreases |events|
  {
    events == [] || (Agrees(s, events[0], r, limits) && RunAgrees(Next(s, events[0]), events[1..], r, limits))
  }

  function Trace(s: System, events: seq<Event>, r: nat, limits: Limits, extra: real): seq<Effect>
    requires ValidRun(s, events)
    decreases |events|
  {
    if events == [] then [] else StepEffects(s, events[0], r, limits, extra) + Trace(Next(s, events[0]), events[1..], r, limits, extra)
  }

  // ---- Levels one after another ----

  /** The calls of the first k levels, each with the sleep that follows. */
  function Attempts(limits: Limits, k: nat, extra: real): seq<Effect>
    requires k <= |limits|
    decreases k
  {
    if k == 0 then [] else [Call] + SleepAfter(limits[0], extra) + Attempts(limits[1..], k - 1, extra)
  }

  ghost predicate AllLimited(limits: Limits, k: nat) {
    k <= |limits| && forall i :: 0 <= i < k ==> limits[i].Some?
  }

  lemma {:induction false} AttemptsSnoc(limits: Limits, k: nat, extra: real)
    requires k < |limits|
    ensures Attempts(limits, k + 1, extra) == Attempts(limits, k, extra) + [Call] + SleepAfter(limits[k], extra)
    decreases k
  {
    if k == 0 {
      assert Attempts(limits[1..], 0, extra) == [];
    } else {
      AttemptsSnoc(limits[1..], k - 1, extra);
      Regrouped([Call] + SleepAfter(limits[0], extra), Attempts(limits[1..], k - 1, extra), [Call], SleepAfter(limits[k], extra));
    }
  }

  lemma {:induction false} Regrouped(a: seq<Effect>, b: seq<Effect>, c: seq<Effect>, d: seq<Effect>)
    ensures a + (b + c + d) == (a + b) + c + d
  {
  }

  /** Nested levels, flattened: k attempts, the levels after them, and k releases. */
  lemma {:induction false} LevelsFlattened(limits: Limits, k: nat, extra: real)
    requires AllLimited(limits, k)
    ensures LevelEffects(limits, extra) == Attempts(limits, k, extra) + LevelEffects(limits[k..], extra) + Releases(k)
    decreases k
  {
    if k == 0 {
      assert limits[0..] == limits;
    } else {
      assert AllLimited(limits[1..], k - 1) by {
        assert forall i :: 0 <= i < k - 1 ==> limits[1..][i] == limits[i + 1];
      }
      LevelsFlattened(limits[1..], k - 1, extra);
      assert limits[1..][k - 1..] == limits[k..];
      Nested(SleepAfter(limits[0], extra), Attempts(limits[1..], k - 1, extra), LevelEffects(limits[k..], extra), Releases(k - 1));
    }
  }

  lemma {:induction false} Nested(sleep: seq<Effect>, attempts: seq<Effect>, inner: seq<Effect>, releases: seq<Effect>)
    ensures [Call] + (sleep + (attempts + inner + releases)) + [Release] == [Call] + sleep + attempts + inner + (releases + [Release])
  {
  }

  // ---- One request in a run ----

  /** What request r has done by the time it is in its present phase. */
  function SoFar(s: System, r: nat, limits: Limits, extra: real): seq<Effect>
    requires |limits| == RetryPolicy.MAX_RETRIES
  {
    if r >= |s.requests| then []
    else
      match s.requests[r].phase
      case Waiting => [Acquire]
      case Running(k) => if k < |limits| then [Acquire] + Attempts(limits, k, extra) + [Call] else []
      case Sleeping(k) => if k <= |limits| then [Acquire] + Attempts(limits, k, extra) else []
      case Finished => RequestEffects(limits, extra)
  }

  /** The levels that request r has left behind got a 429. */
  ghost predicate Answered(s: System, r: nat, limits: Limits) {
    r < |s.requests| ==>
      match s.requests[r].phase
      case Running(k) => k < RetryPolicy.MAX_RETRIES && AllLimited(limits, k)
      case Sleeping(k) => k <= RetryPolicy.MAX_RETRIES && AllLimited(limits, k)
      case _ => true
  }

  lemma {:induction false} LastReply(limits: Limits, k: nat, extra: real)
    requires AllLimited(limits, k) && k < |limits| && limits[k].None?
    ensures [Acquire] + Attempts(limits, k, extra) + [Call] + Releases(k + 1) == RequestEffects(limits, extra)
  {
    LevelsFlattened(limits, k, extra);
    assert LevelEffects(limits[k..], extra) == [Call] + [] + [Release];
    ReleaseFirst(k);
    assert [Call] + [] + [Release] + Releases(k) == [Call] + Releases(k + 1);
  }

  lemma {:induction false} ReleaseFirst(n: nat)
    ensures [Release] + Releases(n) == Releases(n + 1)
  {
    if n == 0 {
    } else {
      ReleaseFirst(n - 1);
    }
  }

  lemma {:induction false} NoReplyLeft(limits: Limits, extra: real)
    requires AllLimited(limits, |limits|)
    ensures [Acquire] + Attempts(limits, |limits|, extra) + Releases(|limits|) == RequestEffects(limits, extra)
  {
    LevelsFlattened(limits, |limits|, extra);
    assert limits[|limits|..] == [];
  }

  /** A release event wakes only a request that waits. */
  ghost predicate WakesAWaiter(s: System) {
    Woken(s.lock).Some? ==> Waits(s, Woken(s.lock).value)
  }

  lemma {:induction false} ReplyTrace(s: System, limited: bool, r: nat, limits: Limits, extra: real)
    requires Enabled(s, Respond(r, limited)) && |limits| == RetryPolicy.MAX_RETRIES
    requires Answered(s, r, limits) && Agrees(s, Respond(r, limited), r, limits)
    ensures var e := Respond(r, limited);
            && Answered(Next(s, e), r, limits)
            && SoFar(Next(s, e), r, limits, extra) == SoFar(s, r, limits, extra) + StepEffects(s, e, r, limits, extra)
  {
    var k := s.requests[r].phase.level;
    if limited {
      AttemptsSnoc(limits, k, extra);
      Regrouped([Acquire], Attempts(limits, k, extra), [Call], SleepAfter(limits[k], extra));
    } else {
      LastReply(limits, k, extra);
    }
  }

  lemma {:induction false} TimerTrace(s: System, r: nat, limits: Limits, extra: real)
    requires Enabled(s, TimerFires(r)) && |limits| == RetryPolicy.MAX_RETRIES
    requires Answered(s, r, limits)
    ensures var e := TimerFires(r);
            && Answered(Next(s, e), r, limits)
            && SoFar(Next(s, e), r, limits, extra) == SoFar(s, r, limits, extra) + StepEffects(s, e, r, limits, extra)
  {
    if s.requests[r].phase.level == RetryPolicy.MAX_RETRIES {
      NoReplyLeft(limits, extra);
    }
  }

  /** An event that is about no other request's call or timer. */
  lemma {:induction false} LockTrace(s: System, e: Event, r: nat, limits: Limits, extra: real)
    requires Enabled(s, e) && WakesAWaiter(s) && |limits| == RetryPolicy.MAX_RETRIES
    requires Answered(s, r, limits) && (e.Arrive? || e.ImmediateFires?)
    ensures Answered(Next(s, e), r, limits)
    ensures SoFar(Next(s, e), r, limits, extra) == SoFar(s, r, limits, extra) + StepEffects(s, e, r, limits, extra)
  {
    assert Attempts(limits, 0, extra) == [];
    assert [Acquire] + [] + [Call] == [Acquire, Call];
  }

  /** Each step adds its effects on request r to what it has done so far. */
  lemma {:induction false} StepTrace(s: System, e: Event, r: nat, limits: Limits, extra: real)
    requires Enabled(s, e) && WakesAWaiter(s) && |limits| == RetryPolicy.MAX_RETRIES
    requires Answered(s, r, limits) && Agrees(s, e, r, limits)
    ensures Answered(Next(s, e), r, limits)
    ensures SoFar(Next(s, e), r, limits, extra) == SoFar(s, r, limits, extra) + StepEffects(s, e, r, limits, extra)
  {
    match e {
      case Respond(q, limited) =>
        if q == r {
          ReplyTrace(s, limited, r, limits, extra);
        } else {
          OtherRequestStays(s, e, q, r);
        }
      case TimerFires(q) =>
        if q == r {
          TimerTrace(s, r, limits, extra);
        } else {
          OtherRequestStays(s, e, q, r);
        }
      case _ => LockTrace(s, e, r, limits, extra);
    }
  }

  lemma {:induction false} OtherRequestStays(s: System, e: Event, q: nat, r: nat)
    requires Enabled(s, e) && q != r && (e == TimerFires(q) || e == Respond(q, true) || e == Respond(q, false))
    ensures |Next(s, e).requests| == |s.requests|
    ensures r < |s.requests| ==> Next(s, e).requests[r] == s.requests[r]
  {
  }

  ghost predicate RunWakesWaiters(s: System, events: seq<Event>)
    requires ValidRun(s, events)
    decreases |events|
  {
    events == [] || (WakesAWaiter(s) && RunWakesWaiters(Next(s, events[0]), events[1..]))
  }

  lemma {:induction false} EveryRunWakesWaiters(s: System, events: seq<Event>)
    requires Inv(s) && ValidRun(s, events)
    ensures RunWakesWaiters(s, events)
    decreases |events|
  {
    if events == [] {
    } else {
      if Woken(s.lock).Some? {
        assert Woken(s.lock).value in s.lock.waiters;
      }
      InvNext(s, events[0]);
      EveryRunWakesWaiters(Next(s, events[0]), events[1..]);
    }
  }

  lemma {:induction false} RunTrace(s: System, events: seq<Event>, r: nat, limits: Limits, extra: real)
    requires ValidRun(s, events) && RunWakesWaiters(s, events) && |limits| == RetryPolicy.MAX_RETRIES
    requires Answered(s, r, limits) && RunAgrees(s, events, r, limits)
    ensures Answered(Run(s, events), r, limits)
    ensures SoFar(Run(s, events), r, limits, extra) == SoFar(s, r, limits, extra) + Trace(s, events, r, limits, extra)
    decreases |events|
  {
    if events == [] {
    } else {
      var t := Next(s, events[0]);
      StepTrace(s, events[0], r, limits, extra);
      RunTrace(t, events[1..], r, limits, extra);
      Joined(SoFar(s, r, limits, extra), StepEffects(s, events[0], r, limits, extra), Trace(t, events[1..], r, limits, extra));
    }
  }

  lemma {:induction false} Joined(a: seq<Effect>, b: seq<Effect>, c: seq<Effect>)
    ensures a + b + c == a + (b + c)
  {
  }

  /** In every run, whatever else happens in between, a request does what a client's levels do for
      the same replies: all of it once it has finished, and a first part of it before. */
  lemma {:induction false} RequestDoesWhatItsClientDoes(events: seq<Event>, r: nat, limits: Limits, extra: real)
    requires ValidRun(IDLE, events) && |limits| == RetryPolicy.MAX_RETRIES && RunAgrees(IDLE, events, r, limits)
    ensures Trace(IDLE, events, r, limits, extra) <= RequestEffects(limits, extra)
    ensures r < |Run(IDLE, events).requests| && Run(IDLE, events).requests[r].phase.Finished? ==>
              Trace(IDLE, events, r, limits, extra) == RequestEffects(limits, extra)
  {
    var s := Run(IDLE, events);
    EveryRunWakesWaiters(IDLE, events);
    RunTrace(IDLE, events, r, limits, extra);
    assert SoFar(IDLE, r, limits, extra) == [];
    SoFarIsFirstPart(s, r, limits, extra);
  }

  lemma {:induction false} SoFarIsFirstPart(s: System, r: nat, limits: Limits, extra: real)
    requires |limits| == RetryPolicy.MAX_RETRIES && Answered(s, r, limits)
    ensures SoFar(s, r, limits, extra) <= RequestEffects(limits, extra)
  {
    if r < |s.requests| && (s.requests[r].phase.Running? || s.requests[r].phase.Sleeping?) {
      var k := s.requests[r].phase.level;
      LevelsFlattened(limits, k, extra);
      if k < |limits| {
        assert LevelEffects(limits[k..], extra)[0] == Call;
      }
    }
  }
}
