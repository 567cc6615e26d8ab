/** How many retries can fail: as many as fit into EXPIRE, and any number if RETRY is zero. */
module RetryLimit {
  import opened Options
  import opened RefreshZone
  import RefreshBounds
  import opened RefreshStates
  import opened RefreshTimers
  import opened MaintainerSteps
  import MaintainerHistory
  import opened MaintainerSegments
  import opened RetryExpiry

  /** The request for a retry of the zone is all that is queued, and there is neither a timer nor a task for it. */
  ghost predicate Ready(st: State, z: ZoneId) {
    && Retrying(st, z) && (z in st.pending || z in st.active)
    && st.events == [ZoneRefreshRequested(z, SoaRetryTimer, Some(st.tracking[z].retry))]
    && TasksFor(st, z) == {} && !Has(st.timers, z)
    && st.nextTask !in st.tasks
    && (forall id :: id in st.tasks ==> id < st.nextTask)
  }

  lemma {:induction false} NewTimer(ts: seq<Timer>, t: Timer)
    requires !Has(ts, t.zone)
    ensures RefreshAt(ts, t) == ts + [t]
  {
    if ts != [] {
      assert ts[0] in ts && forall x :: x in ts[1..] ==> x in ts;
      NewTimer(ts[1..], t);
    }
  }

  function Due(st: State, z: ZoneId): Timer
    requires z in st.tracking
  {
    Timer(z, SoaRetryTimer, st.now + Nanos(st.tracking[z].retry))
  }

  //// Building runs ////

  /** The silent stretch of actions leads to this state, with so many failing retries and no expiry. */
  ghost predicate Reaches(st: State, actions: seq<Action>, st': State, z: ZoneId, failures: nat) {
    && IsSegment(st, actions) && StateAfter(st, actions) == st' && AllSilent(st, actions, z)
    && Failures(st, actions, z) == failures && !MarksExpired(ObservedIn(st, actions), z)
  }

  lemma {:induction false} Joined(st: State, first: seq<Action>, st': State, second: seq<Action>, st'': State,
                                  z: ZoneId, n: nat, m: nat)
    requires Reaches(st, first, st', z, n) && Reaches(st', second, st'', z, m)
    ensures Reaches(st, first + second, st'', z, n + m)
    decreases |first|
  {
    if first == [] {
      assert first + second == second;
    } else {
      var next, rest := Next(st, first[0]), first[1..];
      assert (first + second)[0] == first[0] && (first + second)[1..] == rest + second;
      assert forall o :: o in ObservedIn(next, rest) ==> o in ObservedIn(st, first);
      assert forall o :: o in Observed(st, first[0]) ==> o in ObservedIn(st, first);
      Joined(next, rest, st', second, st'', z, Failures(next, rest, z), m);
    }
  }

  lemma Single(st: State, a: Action, z: ZoneId)
    requires Enabled(st, a) && Silent(st, a, z) && !MarksExpired(Observed(st, a), z)
    ensures Reaches(st, [a], Next(st, a), z, if FailureOf(st, a, z) then 1 else 0)
  {
    assert [a][1..] == [] && Observed(st, a) + [] == Observed(st, a);
  }

  lemma Then(st: State, actions: seq<Action>, st': State, z: ZoneId, n: nat, a: Action)
    requires Reaches(st, actions, st', z, n)
    requires Enabled(st', a) && Silent(st', a, z) && !MarksExpired(Observed(st', a), z)
    ensures Reaches(st, actions + [a], Next(st', a), z, n + if FailureOf(st', a, z) then 1 else 0)
  {
    Single(st', a, z);
    Joined(st, actions, st', [a], Next(st', a), z, n, if FailureOf(st', a, z) then 1 else 0);
  }

  //// One retry ////

  function Spawned(st: State, z: ZoneId): State
    requires z in st.tracking
  {
    st.(now := st.now + Nanos(st.tracking[z].retry), events := [], nextTask := st.nextTask + 1,
        tasks := st.tasks[st.nextTask := Task(z, SoaRetryTimer, false, Looking(st.active))])
  }

  /** The state after a retry that fails RETRY after the one before. */
  function Retried(st: State, z: ZoneId): State
    requires z in st.tracking
  {
    var now := st.now + Nanos(st.tracking[z].retry);
    st.(now := now, nextTask := st.nextTask + 1,
        tracking := st.tracking[z := st.tracking[z].Started(SoaRetryTimer, now)])
  }

  /** The request is handled, its timer is waited for, and it fires. */
  lemma TimerSpawns(st: State, z: ZoneId) returns (actions: seq<Action>)
    requires Ready(st, z)
    ensures Reaches(st, actions, Spawned(st, z), z, 0)
  {
    var st1 := st.(events := [], timers := st.timers + [Due(st, z)]);
    var st2 := st1.(now := st.now + Nanos(st.tracking[z].retry));
    NewTimer(st.timers, Due(st, z));
    Single(st, Handle(None), z);
    var wait, fire := Wait(Nanos(st.tracking[z].retry)), Action.Fire(|st.timers|);
    Then(st, [Handle(None)], st1, z, 0, wait);
    assert Without(st2.timers, |st.timers|) == st.timers;
    Then(st, [Handle(None)] + [wait], st2, z, 0, fire);
    actions := [Handle(None)] + [wait] + [fire];
  }

  function WithTask(st: State, z: ZoneId, phase: Phase): State
    requires z in st.tracking
  {
    var spawned := Spawned(st, z);
    spawned.(tasks := spawned.tasks[st.nextTask := Task(z, SoaRetryTimer, z in st.pending, phase)])
  }

  function Failing(st: State, z: ZoneId): State
    requires z in st.tracking
  {
    WithTask(st, z, Refreshing([], Failed(ABSENT_SOA))).(
      tracking := st.tracking[z := st.tracking[z].Started(SoaRetryTimer, st.now + Nanos(st.tracking[z].retry))])
  }

  lemma TaskFinds(st: State, z: ZoneId)
    requires Ready(st, z)
    ensures Reaches(Spawned(st, z), [Look(st.nextTask, true)], WithTask(st, z, Found), z, 0)
  {
    var look := Look(st.nextTask, true);
    Single(Spawned(st, z), look, z);
    assert Next(Spawned(st, z), look) == WithTask(st, z, Found);
  }

  lemma TaskStarts(st: State, z: ZoneId, visits: seq<Visit>)
    requires Ready(st, z) && VisitsAll(visits, None, st.configs[z])
    requires forall v :: v in visits ==> v.script.soa.NoAnswer?
    ensures Reaches(WithTask(st, z, Found), [Start(st.nextTask, OutOfZone, visits)], Failing(st, z), z, 0)
  {
    Single(WithTask(st, z, Found), Start(st.nextTask, OutOfZone, visits), z);
    StartsFailing(st, z, visits);
  }

  lemma StartsFailing(st: State, z: ZoneId, visits: seq<Visit>)
    requires Ready(st, z)
    ensures StartRefresh(WithTask(st, z, Found), st.nextTask, OutOfZone, visits) == Failing(st, z)
  {
  }

  lemma TaskEnds(st: State, z: ZoneId)
    requires Ready(st, z)
    requires st.now + Nanos(st.tracking[z].retry) <= st.tracking[z].LastContact() + Nanos(st.tracking[z].expire)
    ensures Reaches(Failing(st, z), [Finish(st.nextTask)], Retried(st, z), z, 1)
  {
    FailsQuietly(st, z);
    Single(Failing(st, z), Finish(st.nextTask), z);
  }

  lemma TaskFails(st: State, z: ZoneId) returns (actions: seq<Action>)
    requires Ready(st, z)
    requires st.now + Nanos(st.tracking[z].retry) <= st.tracking[z].LastContact() + Nanos(st.tracking[z].expire)
    ensures Reaches(Spawned(st, z), actions, Retried(st, z), z, 1)
  {
    var visits := UnansweredVisits(st.configs[z]);
    var look, finish := [Look(st.nextTask, true)], [Finish(st.nextTask)];
    var start := [Start(st.nextTask, OutOfZone, visits)];
    TaskFinds(st, z);
    TaskStarts(st, z, visits);
    TaskEnds(st, z);
    ThreeSteps(Spawned(st, z), look, WithTask(st, z, Found), start, Failing(st, z), finish, Retried(st, z), z);
    actions := look + start + finish;
  }

  lemma ThreeSteps(st: State, a: seq<Action>, st1: State, b: seq<Action>, st2: State, c: seq<Action>, st3: State,
                   z: ZoneId)
    requires Reaches(st, a, st1, z, 0) && Reaches(st1, b, st2, z, 0) && Reaches(st2, c, st3, z, 1)
    ensures Reaches(st, a + b + c, st3, z, 1)
  {
    Joined(st, a, st1, b, st2, z, 0, 0);
    Joined(st, a + b, st2, c, st3, z, 0, 1);
  }

  lemma UnansweredVisits(primaries: map<Addr, XfrConfig>) returns (visits: seq<Visit>)
    requires primaries != map[]
    ensures VisitsAll(visits, None, primaries) && forall v :: v in visits ==> v.script.soa.NoAnswer?
  {
    var a :| a in primaries;
    visits := RefreshBounds.VisitsWith(None, primaries, a, RefreshBounds.Unanswering());
  }

  lemma FailsQuietly(st: State, z: ZoneId)
    requires Ready(st, z)
    requires st.now + Nanos(st.tracking[z].retry) <= st.tracking[z].LastContact() + Nanos(st.tracking[z].expire)
    ensures var failing, a := Failing(st, z), Finish(st.nextTask);
            && Enabled(failing, a) && Next(failing, a) == Retried(st, z) && Observed(failing, a) == []
            && FailureOf(failing, a, z)
  {
    assert Failing(st, z).tasks - {st.nextTask} == st.tasks;
  }

  lemma StaysReady(st: State, z: ZoneId)
    requires Ready(st, z)
    ensures Ready(Retried(st, z), z) && SameTerms(st, Retried(st, z), z)
  {
    forall id | id in st.tasks ensures st.tasks[id].zone != z {
      assert id !in TasksFor(st, z);
    }
  }

  /** The bound on failing retries is met: as many as fit before the expiry can fail, for any number if RETRY is
      zero. */
  lemma {:induction false} RetriesCanFail(st: State, z: ZoneId, n: nat) returns (actions: seq<Action>, last: State)
    requires Ready(st, z)
    requires st.now + n * Nanos(st.tracking[z].retry) <= st.tracking[z].LastContact() + Nanos(st.tracking[z].expire)
    ensures Reaches(st, actions, last, z, n)
    decreases n
  {
    if n == 0 {
      actions, last := [], st;
    } else {
      OneLess(n, Nanos(st.tracking[z].retry));
      var first := OneCanFail(st, z);
      StaysReady(st, z);
      var rest, end := RetriesCanFail(Retried(st, z), z, n - 1);
      Joined(st, first, Retried(st, z), rest, end, z, 1, n - 1);
      actions, last := first + rest, end;
    }
  }

  lemma OneLess(n: nat, pace: nat)
    requires n > 0
    ensures pace <= n * pace == pace + (n - 1) * pace
  {
    assert (n - 1) * pace >= 0;
  }

  lemma OneCanFail(st: State, z: ZoneId) returns (actions: seq<Action>)
    requires Ready(st, z)
    requires st.now + Nanos(st.tracking[z].retry) <= st.tracking[z].LastContact() + Nanos(st.tracking[z].expire)
    ensures Reaches(st, actions, Retried(st, z), z, 1)
  {
    var spawning := TimerSpawns(st, z);
    var failing := TaskFails(st, z);
    Joined(st, spawning, Spawned(st, z), failing, Retried(st, z), z, 0, 1);
    actions := spawning + failing;
  }

  ghost predicate CanFail(st: State, z: ZoneId, n: nat) {
    exists actions, last :: Reaches(st, actions, last, z, n)
  }

  /** With a RETRY of zero there is no bound: any number of retries can fail without expiry. */
  lemma ZeroRetryIsUnbounded(st: State, z: ZoneId, n: nat)
    requires Ready(st, z) && st.tracking[z].retry == 0
    requires st.now <= st.tracking[z].LastContact() + Nanos(st.tracking[z].expire)
    ensures CanFail(st, z, n)
  {
    assert n * Nanos(0) == 0;
    var actions, last := RetriesCanFail(st, z, n);
  }

  /** With a positive RETRY the bound cannot be improved: right after an answer of the primaries, floor(EXPIRE /
      RETRY) retries can fail without expiry, and no more. */
  lemma RetriesThatFit(w: World, z: ZoneId, n: nat)
    requires MaintainerHistory.Reachable(w) && Ready(w.st, z) && w.st.tracking[z].retry > 0
    requires w.st.now == w.st.tracking[z].LastContact()
    ensures CanFail(w.st, z, n) <==> n <= w.st.tracking[z].expire / w.st.tracking[z].retry
  {
    var rs := w.st.tracking[z];
    if n <= rs.expire / rs.retry {
      Fits(n, rs.retry, rs.expire);
      var actions, last := RetriesCanFail(w.st, z, n);
    }
    if CanFail(w.st, z, n) {
      var actions, last :| Reaches(w.st, actions, last, z, n);
      DeadlineHas(w.st.timers, z);
      RetryingEnds(w, actions, z);
    }
  }

  lemma Fits(n: nat, retry: nat, expire: nat)
    requires retry > 0 && n <= expire / retry
    ensures n * Nanos(retry) <= Nanos(expire)
  {
    assert n * retry <= expire / retry * retry <= expire;
    assert n * Nanos(retry) == n * retry * 1_000_000_000;
  }
}
