/** How long a secondary zone is retried when its primaries stay silent (section 4.3.5 of RFC 1034). */
module RetryExpiry {
  import opened Options
  import Serials
  import opened RefreshZone
  import opened RefreshStates
  import opened RefreshTimers
  import opened MaintainerSteps
  import opened MaintainerProofs
  import opened MaintainerHistory
  import opened MaintainerSegments

  //// Only retries are left ////

  /** Events that make something happen to the zone. */
  predicate Concerns(e: Event, z: ZoneId) {
    e.zone == z && !(e.ZoneChanged? && e.source.None?)
  }

  /** A task of the retry timer that has seen nothing but silence. */
  ghost predicate IsRetry(t: Task) {
    && t.cause.SoaRetryTimer?
    && match t.phase
       case Looking(_) => true
       case Found => true
       case Refreshing(effects, outcome) => outcome.Failed? && forall e :: e in effects ==> e.SoaSeen?
       case Promoting => false
  }

  /** The timer, the queued requests and the tasks of the zone are all about retries: no manual refresh, no
      NOTIFY and no adding of the zone is under way. */
  ghost predicate Retrying(st: State, z: ZoneId) {
    && z in st.tracking && IsSecondary(st, z)
    && (forall e :: e in st.events && Concerns(e, z) ==>
          e == ZoneRefreshRequested(z, SoaRetryTimer, Some(st.tracking[z].retry)))
    && (forall t :: t in st.timers && t.zone == z ==> t.cause.SoaRetryTimer?)
    && (forall id :: id in st.tasks && st.tasks[id].zone == z ==>
          && IsRetry(st.tasks[id])
          && (st.tasks[id].phase.Refreshing? ==> st.tracking[z].status == RetryInProgress))
  }

  /** Nothing from outside concerns the zone, and every SOA query for it fails. */
  ghost predicate Silent(st: State, a: Action, z: ZoneId) {
    match a
    case Receive(e) => !Concerns(e, z)
    case Start(id, _, visits) =>
      id in st.tasks && st.tasks[id].zone == z ==> forall v :: v in visits ==> v.script.soa.NoAnswer?
    case Progress(id, _) => id in st.tasks ==> st.tasks[id].zone != z
    case _ => true
  }

  ghost predicate AllSilent(st: State, actions: seq<Action>, z: ZoneId)
    requires IsSegment(st, actions)
    decreases |actions|
  {
    actions == [] || (Silent(st, actions[0], z) && AllSilent(Next(st, actions[0]), actions[1..], z))
  }

  /** What decides about retries and expiry stays on record. */
  predicate SameTerms(st: State, st': State, z: ZoneId)
    requires z in st.tracking
  {
    && z in st'.tracking
    && st'.tracking[z].retry == st.tracking[z].retry && st'.tracking[z].expire == st.tracking[z].expire
    && st'.tracking[z].LastContact() == st.tracking[z].LastContact()
  }

  lemma {:induction false} SilenceFails(vs: seq<Visit>, primaries: map<Addr, XfrConfig>,
                                        current: Option<Serials.Serial>, lastError: Option<Error>)
    requires forall v :: v in vs ==> v.script.soa.NoAnswer?
    ensures !Visits(vs, primaries, current, false, lastError).0.Done?
    ensures Visits(vs, primaries, current, false, lastError).1 == []
    decreases |vs|
  {
    if vs != [] {
      assert vs[0] in vs && forall v :: v in vs[1..] ==> v in vs;
      if vs[0].addr in primaries {
        var outcome := FromAddr(vs[0], primaries[vs[0].addr], current).0;
        SilenceFails(vs[1..], primaries, current, Some(outcome.error));
      } else {
        SilenceFails(vs[1..], primaries, current, lastError);
      }
    }
  }

  /** A refresh that gets no answer fails, having seen no more than the zone's own SOA. */
  lemma SilentRefresh(local: LocalSoa, visits: seq<Visit>, initial: Option<Addr>, primaries: map<Addr, XfrConfig>)
    requires VisitsAll(visits, initial, primaries) && primaries != map[]
    requires forall v :: v in visits ==> v.script.soa.NoAnswer?
    ensures var (outcome, effects) := Refresh(local, visits, primaries);
            outcome.Failed? && forall e :: e in effects ==> e.SoaSeen?
  {
    PanicsOnlyWithoutPrimaries(local, visits, initial, primaries);
    SilenceFails(visits, primaries, if local.HasSoa? then Some(local.serial) else None, None);
  }

  //// Steps ////

  lemma TaskKeeps(st: State, a: Action, z: ZoneId)
    requires Retrying(st, z) && Enabled(st, a) && Silent(st, a, z) && IsTaskStep(a)
    requires st.tasks[TaskOf(a)].zone == z
    ensures Retrying(Next(st, a), z) && SameTerms(st, Next(st, a), z)
  {
    var id := TaskOf(a);
    assert IsRetry(st.tasks[id]);
    match a {
      case Look(_, _) => LookKeeps(st, a, z);
      case Start(_, local, visits) =>
        SilentRefresh(local, visits, InitialXfrAddr(st.tasks[id].cause), st.configs[z]);
        StartKeeps(st, a, z);
      case Act(_) => ActKeeps(st, a, z);
      case Finish(_) => FinishKeeps(st, a, z);
      case Progress(_, _) =>
      case Promote(_) =>
      case _ =>
    }
  }

  lemma LookKeeps(st: State, a: Action, z: ZoneId)
    requires Retrying(st, z) && Enabled(st, a) && a.Look? && st.tasks[a.id].zone == z
    ensures Retrying(Next(st, a), z) && SameTerms(st, Next(st, a), z)
  {
    assert IsRetry(st.tasks[a.id]);
  }

  lemma StartKeeps(st: State, a: Action, z: ZoneId)
    requires Retrying(st, z) && Enabled(st, a) && a.Start? && st.tasks[a.id].zone == z
    requires var (outcome, effects) := Refresh(a.local, a.visits, st.configs[z]);
             outcome.Failed? && forall e :: e in effects ==> e.SoaSeen?
    ensures Retrying(Next(st, a), z) && SameTerms(st, Next(st, a), z)
  {
    assert IsRetry(st.tasks[a.id]);
  }

  lemma ActKeeps(st: State, a: Action, z: ZoneId)
    requires Retrying(st, z) && Enabled(st, a) && a.Act? && st.tasks[a.id].zone == z
    ensures Retrying(Next(st, a), z) && SameTerms(st, Next(st, a), z)
  {
    assert IsRetry(st.tasks[a.id]);
    assert st.tasks[a.id].phase.effects[0].SoaSeen?;
  }

  lemma FinishKeeps(st: State, a: Action, z: ZoneId)
    requires Retrying(st, z) && Enabled(st, a) && a.Finish? && st.tasks[a.id].zone == z
    ensures Retrying(Next(st, a), z) && SameTerms(st, Next(st, a), z)
  {
    assert IsRetry(st.tasks[a.id]);
  }

  lemma OtherTaskKeeps(st: State, a: Action, z: ZoneId)
    requires Retrying(st, z) && Enabled(st, a) && IsTaskStep(a) && st.tasks[TaskOf(a)].zone != z
    ensures Retrying(Next(st, a), z) && SameTerms(st, Next(st, a), z)
    ensures Next(st, a).tracking[z] == st.tracking[z]
  {
    OtherTaskFrame(st, a, z);
    TaskStepFrame(st, a);
    OtherStepsKeepZones(st, a);
  }

  /** The step of a task of another zone leaves this zone's entry alone and asks for nothing for it. */
  lemma OtherTaskFrame(st: State, a: Action, z: ZoneId)
    requires Enabled(st, a) && IsTaskStep(a) && st.tasks[TaskOf(a)].zone != z && z in st.tracking
    ensures var st' := Next(st, a);
            && z in st'.tracking && st'.tracking[z] == st.tracking[z]
            && (forall e :: e in st'.events && Concerns(e, z) ==> e in st.events)
            && (TaskOf(a) in st'.tasks ==> st'.tasks[TaskOf(a)].zone == st.tasks[TaskOf(a)].zone)
  {
    EventsFrame(st, a);
    match a {
      case Look(_, _) =>
      case Start(_, _, _) =>
      case Progress(_, _) =>
      case Act(_) =>
      case Finish(_) =>
      case Promote(_) =>
      case _ =>
    }
  }

  lemma HandleKeeps(st: State, a: Action, z: ZoneId)
    requires Retrying(st, z) && TimersOk(st) && Enabled(st, a) && a.Handle?
    ensures Retrying(Next(st, a), z) && SameTerms(st, Next(st, a), z)
  {
    var rest := st.(events := st.events[1..]);
    assert st.events[0] in st.events && forall e :: e in rest.events ==> e in st.events;
    match st.events[0]
    case ZoneAdded(y) =>
      assert y != z;
      if y in st.pending && IsSecondary(st, y) {
        AddingKeeps(st, rest, y, a.soa, z);
      }
    case ZoneRefreshRequested(y, cause, at) =>
      RefreshAtElements(st.timers, Timer(y, cause, st.now + Nanos(at.UnwrapOr(0))));
    case ZoneChanged(y, source) =>
  }

  lemma AddingKeeps(st: State, rest: State, y: ZoneId, soa: Option<Soa>, z: ZoneId)
    requires Retrying(st, z) && y != z && y in st.pending && IsSecondary(st, y)
    requires st.events != [] && rest == st.(events := st.events[1..])
    ensures Retrying(OnZoneAdded(rest, y, soa), z) && SameTerms(st, OnZoneAdded(rest, y, soa), z)
  {
    assert forall e :: e in rest.events ==> e in st.events;
    var refresh := TrackZoneFreshness(rest, y, soa).1;
    RefreshAtElements(st.timers, Timer(y, SoaRefreshTimerAfterZoneAdded, st.now + Nanos(refresh.UnwrapOr(0))));
  }

  lemma FireKeeps(st: State, a: Action, z: ZoneId)
    requires Retrying(st, z) && Enabled(st, a) && a.Fire?
    ensures Retrying(Next(st, a), z) && SameTerms(st, Next(st, a), z)
  {
    assert st.timers[a.timer] in st.timers;
    assert forall t :: t in Without(st.timers, a.timer) ==> t in st.timers;
  }

  lemma StepKeeps(st: State, a: Action, z: ZoneId)
    requires Retrying(st, z) && TimersOk(st) && Enabled(st, a) && Silent(st, a, z)
    ensures Retrying(Next(st, a), z) && SameTerms(st, Next(st, a), z)
  {
    if IsTaskStep(a) {
      if st.tasks[TaskOf(a)].zone == z {
        TaskKeeps(st, a, z);
      } else {
        OtherTaskKeeps(st, a, z);
      }
    } else if a.Handle? {
      HandleKeeps(st, a, z);
    } else if a.Fire? {
      FireKeeps(st, a, z);
    } else {
      OutsideKeeps(st, a, z);
    }
  }

  lemma OutsideKeeps(st: State, a: Action, z: ZoneId)
    requires Retrying(st, z) && Enabled(st, a) && Silent(st, a, z) && (a.Insert? || a.Receive? || a.Wait?)
    ensures Retrying(Next(st, a), z) && SameTerms(st, Next(st, a), z)
  {
  }

  //// The clock ////

  /** No timer of the zone fires before this instant. */
  predicate NotBefore(st: State, z: ZoneId, t: int) {
    Deadline(st.timers, z).None? || t <= Deadline(st.timers, z).value || t <= st.now
  }

  /** So many retries after `base` have been due, each after the one before it. */
  ghost predicate Paced(st: State, z: ZoneId, base: int, fires: int)
    requires z in st.tracking
  {
    var pace := Nanos(st.tracking[z].retry);
    base + fires * pace <= st.now && NotBefore(st, z, base + fires * pace + pace)
  }

  predicate FiresFor(st: State, a: Action, z: ZoneId) {
    a.Fire? && a.timer < |st.timers| && st.timers[a.timer].zone == z
  }

  lemma {:induction false} DeadlineOf(ts: seq<Timer>, i: nat)
    requires Unique(ts) && i < |ts|
    ensures Deadline(ts, ts[i].zone) == Some(ts[i].deadline)
  {
    if i > 0 {
      assert ts[i] == ts[1..][i - 1] && ts[i] in ts[1..];
      DeadlineOf(ts[1..], i - 1);
    }
  }

  /** How a step changes the timer of a zone that is only retried. */
  lemma TimerMoves(st: State, a: Action, z: ZoneId)
    requires Retrying(st, z) && TimersOk(st) && Enabled(st, a)
    ensures var st' := Next(st, a);
            && st.now <= st'.now
            && (FiresFor(st, a, z) ==>
                  && Deadline(st.timers, z).Some? && Deadline(st.timers, z).value <= st.now
                  && Deadline(st'.timers, z).None?)
            && (!FiresFor(st, a, z) ==>
                  Deadline(st'.timers, z) == Deadline(st.timers, z)
                  || Deadline(st'.timers, z) == Min(Deadline(st.timers, z), st.now + Nanos(st.tracking[z].retry)))
  {
    if a.Handle? {
      TimerHandled(st, a, z);
    } else if a.Fire? {
      DeadlineOf(st.timers, a.timer);
      FiringKeeps(st.timers, a.timer, z);
    } else if IsTaskStep(a) {
      TaskStepFrame(st, a);
    }
  }

  lemma TimerHandled(st: State, a: Action, z: ZoneId)
    requires Retrying(st, z) && TimersOk(st) && Enabled(st, a) && a.Handle?
    ensures var st' := Next(st, a);
            && st'.now == st.now
            && (Deadline(st'.timers, z) == Deadline(st.timers, z)
                || Deadline(st'.timers, z) == Min(Deadline(st.timers, z), st.now + Nanos(st.tracking[z].retry)))
  {
    var rest := st.(events := st.events[1..]);
    assert st.events[0] in st.events;
    match st.events[0]
    case ZoneAdded(y) =>
      if y in st.pending && IsSecondary(st, y) {
        TimerAfterAdding(rest, y, a.soa, z);
      }
    case ZoneRefreshRequested(y, cause, at) =>
      TimerAfterRequest(rest, cause, y, at, z);
    case ZoneChanged(_, _) =>
  }

  lemma TimerAfterRequest(st: State, cause: Cause, y: ZoneId, at: Option<nat>, z: ZoneId)
    requires Unique(st.timers) && (y == z ==> z in st.tracking && at == Some(st.tracking[z].retry))
    ensures RefreshZoneAt(st, cause, y, at).now == st.now
    ensures var deadline := Deadline(RefreshZoneAt(st, cause, y, at).timers, z);
            if y == z then deadline == Min(Deadline(st.timers, z), st.now + Nanos(st.tracking[z].retry))
            else deadline == Deadline(st.timers, z)
  {
    RefreshAtKeeps(st.timers, Timer(y, cause, st.now + Nanos(at.UnwrapOr(0))), z);
  }

  lemma TimerAfterAdding(st: State, y: ZoneId, soa: Option<Soa>, z: ZoneId)
    requires Unique(st.timers) && y in st.pending && IsSecondary(st, y) && y != z
    ensures Deadline(OnZoneAdded(st, y, soa).timers, z) == Deadline(st.timers, z)
    ensures OnZoneAdded(st, y, soa).now == st.now
  {
    var refresh := TrackZoneFreshness(st, y, soa).1;
    RefreshAtKeeps(st.timers, Timer(y, SoaRefreshTimerAfterZoneAdded, st.now + Nanos(refresh.UnwrapOr(0))), z);
  }

  lemma PacedStep(st: State, a: Action, z: ZoneId, base: int, fires: int)
    requires Retrying(st, z) && TimersOk(st) && Enabled(st, a) && Silent(st, a, z) && Paced(st, z, base, fires)
    ensures z in Next(st, a).tracking
    ensures Paced(Next(st, a), z, base, if FiresFor(st, a, z) then fires + 1 else fires)
  {
    StepKeeps(st, a, z);
    TimerMoves(st, a, z);
    var pace := Nanos(st.tracking[z].retry);
    assert (fires + 1) * pace == fires * pace + pace;
  }

  //// Failing retries ////

  /** The step is the failure of a retry of the zone. */
  predicate FailureOf(st: State, a: Action, z: ZoneId) {
    a.Finish? && a.id in st.tasks && st.tasks[a.id].zone == z
  }

  ghost function Failures(st: State, actions: seq<Action>, z: ZoneId): nat
    requires IsSegment(st, actions)
    decreases |actions|
  {
    if actions == [] then 0
    else (if FailureOf(st, actions[0], z) then 1 else 0) + Failures(Next(st, actions[0]), actions[1..], z)
  }

  predicate MarksExpired(observed: seq<Observation>, z: ZoneId) {
    exists o :: o in observed && o.MarkedExpired? && o.zone == z
  }

  function TasksFor(st: State, z: ZoneId): set<nat> {
    set id | id in st.tasks && st.tasks[id].zone == z
  }

  lemma FailureExpiresOrNot(st: State, a: Action, z: ZoneId)
    requires Retrying(st, z) && Enabled(st, a) && FailureOf(st, a, z) && !MarksExpired(Observed(st, a), z)
    ensures st.now <= st.tracking[z].LastContact() + Nanos(st.tracking[z].expire)
  {
    ExpiryIsObserved(st, a, z);
  }

  lemma ExpiryIsObserved(st: State, a: Action, z: ZoneId)
    requires Retrying(st, z) && Enabled(st, a) && FailureOf(st, a, z)
    ensures MarksExpired(Observed(st, a), z) <==>
              st.now > st.tracking[z].LastContact() + Nanos(st.tracking[z].expire)
  {
    assert IsRetry(st.tasks[a.id]);
    var rs := st.tracking[z];
    var o := MarkedExpired(z, st.now, rs.expire, rs.metrics.zoneCreatedAt);
    assert Observed(st, a) == if rs.ExpiresOnFailure(st.now) then [o] else [];
  }

  /** How many tasks a zone has: one more when its timer fires, one less when a task fails. */
  lemma TasksStepFor(st: State, a: Action, z: ZoneId)
    requires Retrying(st, z) && TasksOk(st) && Enabled(st, a) && Silent(st, a, z)
    ensures |TasksFor(Next(st, a), z)| + (if FailureOf(st, a, z) then 1 else 0) <=
              |TasksFor(st, z)| + if FiresFor(st, a, z) then 1 else 0
  {
    var before, after := TasksFor(st, z), TasksFor(Next(st, a), z);
    if a.Fire? {
      FiringSpawnsOne(st, a, z);
      Smaller(after, before, if FiresFor(st, a, z) then {st.nextTask} else {});
    } else if IsTaskStep(a) {
      TasksOnlyEnd(st, a, z);
      Smaller(after, before - (if FailureOf(st, a, z) then {a.id} else {}), {});
    } else {
      HandlingSpawnsNone(st, a, z);
      Smaller(after, before, {});
    }
  }

  lemma FiringSpawnsOne(st: State, a: Action, z: ZoneId)
    requires Enabled(st, a) && a.Fire?
    ensures TasksFor(Next(st, a), z) <= TasksFor(st, z) + if FiresFor(st, a, z) then {st.nextTask} else {}
  {
  }

  lemma TasksOnlyEnd(st: State, a: Action, z: ZoneId)
    requires Retrying(st, z) && Enabled(st, a) && Silent(st, a, z) && IsTaskStep(a)
    ensures TasksFor(Next(st, a), z) <= TasksFor(st, z) - if FailureOf(st, a, z) then {a.id} else {}
    ensures FailureOf(st, a, z) ==> a.id in TasksFor(st, z)
  {
    TaskStepFrame(st, a);
    if TaskOf(a) in Next(st, a).tasks {
      OwnTaskZone(st, a);
    }
    if FailureOf(st, a, z) {
      assert IsRetry(st.tasks[a.id]);
    }
  }

  lemma Smaller(a: set<nat>, b: set<nat>, c: set<nat>)
    requires a <= b + c
    ensures |a| <= |b| + |c|
  {
    assert |b + c| <= |b| + |c|;
    Subset(a, b + c);
  }

  lemma {:induction false} Subset(a: set<nat>, b: set<nat>)
    requires a <= b
    ensures |a| <= |b|
  {
    assert b == a + (b - a);
  }

  lemma OwnTaskZone(st: State, a: Action)
    requires Enabled(st, a) && IsTaskStep(a) && TaskOf(a) in Next(st, a).tasks
    ensures Next(st, a).tasks[TaskOf(a)].zone == st.tasks[TaskOf(a)].zone
  {
    match a {
      case Look(_, _) =>
      case Start(_, _, _) =>
      case Progress(_, _) =>
      case Act(_) =>
      case Finish(_) =>
      case Promote(_) =>
      case _ =>
    }
  }

  lemma HandlingSpawnsNone(st: State, a: Action, z: ZoneId)
    requires Retrying(st, z) && Enabled(st, a) && !a.Fire? && !IsTaskStep(a)
    ensures TasksFor(Next(st, a), z) <= TasksFor(st, z)
  {
    if a.Handle? {
      assert st.events[0] in st.events;
    }
  }

  /** The retries so far: `fires` counts the timers fired, minus those due too early; `failures` those that
      failed without expiring the zone. */
  ghost predicate Counted(st: State, z: ZoneId, base: Instant, fires: int, failures: nat, spare: nat)
    requires z in st.tracking
  {
    && Paced(st, z, base, fires)
    && st.tracking[z].LastContact() == base
    && failures + |TasksFor(st, z)| <= spare + fires
    && (st.tracking[z].retry > 0 ==> failures <= spare + st.tracking[z].expire / st.tracking[z].retry)
  }

  lemma FitsInto(n: int, retry: nat, expire: nat)
    requires retry > 0 && n * Nanos(retry) <= Nanos(expire)
    ensures n <= expire / retry
  {
    if n >= 0 {
      assert n * Nanos(retry) == n * retry * 1_000_000_000;
      assert n * retry <= expire;
      assert (expire / retry + 1) * retry == expire / retry * retry + retry > expire;
    }
  }

  lemma CountedStep(w: World, a: Action, z: ZoneId, base: Instant, fires: int, failures: nat, spare: nat)
    requires Reachable(w) && Retrying(w.st, z) && Enabled(w.st, a) && Silent(w.st, a, z)
    requires Counted(w.st, z, base, fires, failures, spare) && w.st.tracking[z].retry > 0
    requires !MarksExpired(Observed(w.st, a), z)
    ensures z in Next(w.st, a).tracking
    ensures Counted(Next(w.st, a), z, base, if FiresFor(w.st, a, z) then fires + 1 else fires,
                    if FailureOf(w.st, a, z) then failures + 1 else failures, spare)
  {
    ReachableWorlds(w);
    var st := w.st;
    StepKeeps(st, a, z);
    PacedStep(st, a, z, base, fires);
    TasksStepFor(st, a, z);
    if FailureOf(st, a, z) {
      FailureExpiresOrNot(st, a, z);
      FitsInto(fires, st.tracking[z].retry, st.tracking[z].expire);
      assert a.id in TasksFor(st, z);
    }
  }

  lemma {:induction false} RetriesFit(w: World, actions: seq<Action>, z: ZoneId, base: Instant, fires: int,
                                      failures: nat, spare: nat)
    requires Reachable(w) && Retrying(w.st, z) && w.st.tracking[z].retry > 0
    requires IsSegment(w.st, actions) && AllSilent(w.st, actions, z)
    requires Counted(w.st, z, base, fires, failures, spare)
    requires !MarksExpired(ObservedIn(w.st, actions), z)
    ensures failures + Failures(w.st, actions, z) <= spare + w.st.tracking[z].expire / w.st.tracking[z].retry
    decreases |actions|
  {
    if actions != [] {
      var a := actions[0];
      var next := World(Next(w.st, a), w.history + Observed(w.st, a));
      assert forall o :: o in Observed(w.st, a) ==> o in ObservedIn(w.st, actions);
      assert forall o :: o in ObservedIn(next.st, actions[1..]) ==> o in ObservedIn(w.st, actions);
      ReachableWorlds(w);
      StepReachable(w, a);
      StepKeeps(w.st, a, z);
      CountedStep(w, a, z, base, fires, failures, spare);
      RetriesFit(next, actions[1..], z, base, if FiresFor(w.st, a, z) then fires + 1 else fires,
                 if FailureOf(w.st, a, z) then failures + 1 else failures, spare);
    }
  }

  //// The theorems ////

  /** In every run: two firings of the timer of a zone that is only retried are RETRY apart, whatever happens in
      between to this zone and others. */
  lemma RetriesAreSpaced(w: World, first: Action, actions: seq<Action>, second: Action, z: ZoneId)
    requires Reachable(w) && Retrying(w.st, z) && Enabled(w.st, first) && FiresFor(w.st, first, z)
    requires IsSegment(Next(w.st, first), actions) && AllSilent(Next(w.st, first), actions, z)
    requires var st' := StateAfter(Next(w.st, first), actions); Enabled(st', second) && FiresFor(st', second, z)
    ensures StateAfter(Next(w.st, first), actions).now >= w.st.now + Nanos(w.st.tracking[z].retry)
  {
    ReachableWorlds(w);
    StepKeeps(w.st, first, z);
    TimerMoves(w.st, first, z);
    StepReachable(w, first);
    var next := World(Next(w.st, first), w.history + Observed(w.st, first));
    StaysPaced(next, actions, z, w.st.now, 0);
    SegmentReachable(next, actions);
    var last := World(StateAfter(next.st, actions), next.history + ObservedIn(next.st, actions));
    ReachableWorlds(last);
    DeadlineOf(last.st.timers, second.timer);
  }

  lemma PacedMeans(st: State, z: ZoneId, base: int, fires: nat)
    requires z in st.tracking && Paced(st, z, base, fires)
    ensures NotBefore(st, z, base + Nanos(st.tracking[z].retry))
  {
    assert fires * Nanos(st.tracking[z].retry) >= 0;
  }

  lemma {:induction false} StaysPaced(w: World, actions: seq<Action>, z: ZoneId, base: int, fires: nat)
    requires Reachable(w) && Retrying(w.st, z) && IsSegment(w.st, actions) && AllSilent(w.st, actions, z)
    requires Paced(w.st, z, base, fires)
    ensures var st' := StateAfter(w.st, actions);
            && Retrying(st', z) && SameTerms(w.st, st', z) && NotBefore(st', z, base + Nanos(w.st.tracking[z].retry))
    decreases |actions|
  {
    if actions == [] {
      PacedMeans(w.st, z, base, fires);
    } else {
      PacedWorld(w, actions[0], z, base, fires);
      var next := World(Next(w.st, actions[0]), w.history + Observed(w.st, actions[0]));
      StaysPaced(next, actions[1..], z, base, if FiresFor(w.st, actions[0], z) then fires + 1 else fires);
    }
  }

  lemma PacedWorld(w: World, a: Action, z: ZoneId, base: int, fires: nat)
    requires Reachable(w) && Retrying(w.st, z) && Enabled(w.st, a) && Silent(w.st, a, z) && Paced(w.st, z, base, fires)
    ensures var w' := World(Next(w.st, a), w.history + Observed(w.st, a));
            && Reachable(w') && Retrying(w'.st, z) && SameTerms(w.st, w'.st, z)
            && Paced(w'.st, z, base, if FiresFor(w.st, a, z) then fires + 1 else fires)
  {
    ReachableWorlds(w);
    StepReachable(w, a);
    StepKeeps(w.st, a, z);
    PacedStep(w.st, a, z, base, fires);
  }

  /** The zone's timer, if it has one, is due sooner than RETRY after its primaries last answered. */
  predicate DueEarly(st: State, z: ZoneId)
    requires z in st.tracking
  {
    !NotBefore(st, z, st.tracking[z].LastContact() + Nanos(st.tracking[z].retry))
  }

  /**
   Retrying ends.  In every run, once only retries are left for a zone, and while its primaries are silent and
   nobody asks for it: floor(EXPIRE / RETRY) retries can fail without the zone being marked expired, and those
   that were under way already, and one more if its timer was due early; the next failure marks it expired.
   */
  lemma RetryingEnds(w: World, actions: seq<Action>, z: ZoneId)
    requires Reachable(w) && Retrying(w.st, z) && w.st.tracking[z].retry > 0
    requires IsSegment(w.st, actions) && AllSilent(w.st, actions, z)
    ensures var rs := w.st.tracking[z];
            !MarksExpired(ObservedIn(w.st, actions), z) ==>
              Failures(w.st, actions, z) <=
                rs.expire / rs.retry + |TasksFor(w.st, z)| + if DueEarly(w.st, z) then 1 else 0
  {
    if !MarksExpired(ObservedIn(w.st, actions), z) {
      var early := DueEarly(w.st, z);
      ContactIsPast(w, z);
      StartsCounted(w.st, z);
      RetriesFit(w, actions, z, w.st.tracking[z].LastContact(), if early then -1 else 0, 0,
                 |TasksFor(w.st, z)| + if early then 1 else 0);
    }
  }

  lemma StartsCounted(st: State, z: ZoneId)
    requires z in st.tracking && st.tracking[z].retry > 0 && st.tracking[z].LastContact() <= st.now
    ensures var early := DueEarly(st, z);
            Counted(st, z, st.tracking[z].LastContact(), if early then -1 else 0, 0,
                    |TasksFor(st, z)| + if early then 1 else 0)
  {
    assert st.tracking[z].expire / st.tracking[z].retry >= 0;
    StartsPaced(st, z, st.tracking[z].LastContact(), DueEarly(st, z));
  }

  lemma ContactIsPast(w: World, z: ZoneId)
    requires Reachable(w) && z in w.st.tracking
    ensures w.st.tracking[z].LastContact() <= w.st.now
  {
    ReachableWorlds(w);
  }

  lemma StartsPaced(st: State, z: ZoneId, base: int, early: bool)
    requires z in st.tracking && base <= st.now
    requires !early ==> NotBefore(st, z, base + Nanos(st.tracking[z].retry))
    ensures Paced(st, z, base, if early then -1 else 0)
  {
  }

  /** A zone whose refresh has just failed, with nothing else under way for it, is only retried from then on. */
  lemma FirstFailureStartsRetrying(w: World, id: nat)
    requires Reachable(w) && Enabled(w.st, Finish(id)) && w.st.tasks[id].phase.outcome.Failed?
    requires var z := w.st.tasks[id].zone;
             && TasksFor(w.st, z) == {id} && !Has(w.st.timers, z) && (forall e :: e in w.st.events ==> !Concerns(e, z))
    ensures var z, st' := w.st.tasks[id].zone, Next(w.st, Finish(id));
            Retrying(st', z) && TasksFor(st', z) == {} && !DueEarly(st', z)
  {
    ReachableWorlds(w);
    assert TaskOk(w.st, id) && w.st.tasks[id].zone in w.st.tracking.Keys;
    OnlyRetriesLeft(w.st, id, w.st.tasks[id].zone);
  }

  lemma OnlyRetriesLeft(st: State, id: nat, z: ZoneId)
    requires Enabled(st, Finish(id)) && st.tasks[id].phase.outcome.Failed? && st.tasks[id].zone == z
    requires TaskOk(st, id) && z in st.tracking && IsSecondary(st, z)
    requires TasksFor(st, z) == {id} && !Has(st.timers, z) && (forall e :: e in st.events ==> !Concerns(e, z))
    ensures Retrying(Next(st, Finish(id)), z)
    ensures TasksFor(Next(st, Finish(id)), z) == {} && !DueEarly(Next(st, Finish(id)), z)
  {
    var st' := Next(st, Finish(id));
    DeadlineHas(st.timers, z);
    forall k | k in st'.tasks ensures st'.tasks[k].zone != z {
      assert k != id && k in st.tasks;
      assert k !in TasksFor(st, z);
    }
    forall t | t in st'.timers ensures t.zone != z {
      assert t in st.timers;
    }
  }

  /** So at most floor(EXPIRE / RETRY) + 1 retries follow the first failure: that many mark the zone expired. */
  lemma RetriesAfterFirstFailure(w: World, id: nat, actions: seq<Action>)
    requires Reachable(w) && Enabled(w.st, Finish(id)) && w.st.tasks[id].phase.outcome.Failed?
    requires var z := w.st.tasks[id].zone;
             && TasksFor(w.st, z) == {id} && !Has(w.st.timers, z) && (forall e :: e in w.st.events ==> !Concerns(e, z))
             && w.st.tracking[z].retry > 0
    requires var st' := Next(w.st, Finish(id));
             IsSegment(st', actions) && AllSilent(st', actions, w.st.tasks[id].zone)
    ensures var z, rs, st' := w.st.tasks[id].zone, w.st.tracking[w.st.tasks[id].zone], Next(w.st, Finish(id));
            Failures(st', actions, z) >= rs.expire / rs.retry + 1 ==> MarksExpired(ObservedIn(st', actions), z)
  {
    FirstFailureStartsRetrying(w, id);
    StepReachable(w, Finish(id));
    RetryingEnds(World(Next(w.st, Finish(id)), w.history + Observed(w.st, Finish(id))), actions, w.st.tasks[id].zone);
  }

  /** A zone that never got any data is retried at most 13 times after its first failure. */
  lemma EmptyZoneGivesUp(w: World, id: nat, actions: seq<Action>)
    requires Reachable(w) && Enabled(w.st, Finish(id)) && w.st.tasks[id].phase.outcome.Failed?
    requires var z := w.st.tasks[id].zone;
             && TasksFor(w.st, z) == {id} && !Has(w.st.timers, z) && (forall e :: e in w.st.events ==> !Concerns(e, z))
             && w.st.tracking[z].retry == DefaultState(0).retry && w.st.tracking[z].expire == DefaultState(0).expire
    requires var st' := Next(w.st, Finish(id));
             IsSegment(st', actions) && AllSilent(st', actions, w.st.tasks[id].zone)
    ensures var st' := Next(w.st, Finish(id));
            Failures(st', actions, w.st.tasks[id].zone) >= 13 ==>
              MarksExpired(ObservedIn(st', actions), w.st.tasks[id].zone)
  {
    RetriesAfterFirstFailure(w, id, actions);
    assert 3600 / 300 + 1 == 13;
  }
}
