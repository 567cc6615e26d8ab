/** The zone maintainer itself: its handlers update its sets, table, timers and queue in place. */
module ZoneMaintainer {
  import opened Options
  import opened RefreshZone
  import opened RefreshStates
  import opened RefreshTimers
  import S = MaintainerSteps

  function InsertAll(st: S.State, zones: seq<(ZoneId, S.Primaries)>): S.State {
    if zones == [] then st
    else
      var (z, primaries) := zones[|zones| - 1];
      S.InsertZone(InsertAll(st, zones[..|zones| - 1]), z, primaries)
  }

  class ZoneMaintainer {
    var now: Instant
    var configs: map<ZoneId, S.Primaries>
    var pendingZones: set<ZoneId>
    var memberZones: set<ZoneId>
    var expired: set<ZoneId>
    var timeTracking: map<ZoneId, RefreshState>
    var refreshTimers: seq<Timer>
    var events: seq<S.Event>
    var tasks: map<nat, S.Task>
    var nextTask: nat

    function Value(): S.State
      reads this
    {
      S.State(now, configs, pendingZones, memberZones, expired, timeTracking, refreshTimers, events, tasks, nextTask)
    }

    constructor ()
      ensures Value() == S.INITIAL
    {
      now, configs, pendingZones, memberZones, expired := 0, map[], {}, {}, {};
      timeTracking, refreshTimers, events, tasks, nextTask := map[], [], [], map[], 0;
    }

    method InsertZones(zones: seq<(ZoneId, S.Primaries)>)
      modifies this
      ensures Value() == InsertAll(old(Value()), zones)
    {
      var i := 0;
      while i < |zones|
        invariant 0 <= i <= |zones|
        invariant Value() == InsertAll(old(Value()), zones[..i])
      {
        var (z, primaries) := zones[i];
        assert zones[..i + 1][..i] == zones[..i];
        configs := configs[z := primaries];
        if primaries != map[] {
          pendingZones := pendingZones + {z};
        } else {
          memberZones := memberZones + {z};
        }
        events := events + [S.ZoneAdded(z)];
        i := i + 1;
      }
      assert zones[..i] == zones;
    }

    method OnEvent(soa: Option<Soa>)
      requires events != []
      modifies this
      ensures Value() == S.OnEvent(old(Value()), soa)
    {
      var event := events[0];
      events := events[1..];
      match event {
        case ZoneAdded(z) => OnZoneAdded(z, soa);
        case ZoneRefreshRequested(z, cause, at) => RefreshZoneAt(cause, z, at);
        case ZoneChanged(z, source) =>
          if source.Some? {
            Spawn(z, NotifyFromPrimary(source.value));
          }
      }
    }

    method OnZoneAdded(z: ZoneId, soa: Option<Soa>)
      modifies this
      ensures Value() == S.OnZoneAdded(old(Value()), z, soa)
    {
      if z in pendingZones && S.IsSecondary(Value(), z) {
        var refresh := TrackZoneFreshness(z, soa);
        if refresh.Some? {
          pendingZones := pendingZones - {z};
          memberZones := memberZones + {z};
        }
        RefreshZoneAt(SoaRefreshTimerAfterZoneAdded, z, refresh);
      }
    }

    method TrackZoneFreshness(z: ZoneId, soa: Option<Soa>) returns (refresh: Option<nat>)
      modifies this`timeTracking
      ensures (Value(), refresh) == S.TrackZoneFreshness(old(Value()), z, soa)
    {
      if z in timeTracking {
        refresh := Some(timeTracking[z].refresh);
      } else if soa.Some? {
        timeTracking := timeTracking[z := NewState(soa.value, now)];
        refresh := Some(soa.value.refresh);
      } else {
        timeTracking := timeTracking[z := DefaultState(now)];
        refresh := None;
      }
    }

    method RefreshZoneAt(cause: Cause, z: ZoneId, at: Option<nat>)
      modifies this`refreshTimers
      ensures Value() == S.RefreshZoneAt(old(Value()), cause, z, at)
    {
      refreshTimers := AddTimer(refreshTimers, Timer(z, cause, now + Nanos(at.UnwrapOr(0))));
    }

    method Spawn(z: ZoneId, cause: Cause)
      modifies this`tasks, this`nextTask
      ensures Value() == S.Spawn(old(Value()), z, cause)
    {
      tasks := tasks[nextTask := S.Task(z, cause, false, S.Looking(memberZones))];
      nextTask := nextTask + 1;
    }

    method OnRefreshTimer(i: nat)
      requires i < |refreshTimers|
      modifies this
      ensures Value() == S.OnRefreshTimer(old(Value()), i)
    {
      var fired := refreshTimers[i];
      refreshTimers := refreshTimers[..i] + refreshTimers[i + 1..];
      Spawn(fired.zone, fired.cause);
    }

    method LookForZone(id: nat, knownPrimary: bool)
      requires id in tasks && tasks[id].phase.Looking?
      modifies this`tasks, this`timeTracking
      ensures Value() == S.LookForZone(old(Value()), id, knownPrimary)
    {
      var t := tasks[id];
      var zones := t.phase.zones;
      if t.cause.NotifyFromPrimary? {
        if (t.zone in zones || t.zone in pendingZones) && knownPrimary && t.zone in timeTracking
           && timeTracking[t.zone].status != NotifyInProgress {
          timeTracking := timeTracking[t.zone := timeTracking[t.zone].SetStatus(NotifyInProgress)];
          tasks := tasks[id := t.(wasPending := t.zone !in zones, phase := S.Found)];
          return;
        }
      } else if t.zone in timeTracking && (t.zone in pendingZones || t.zone in zones) &&
                S.IsSecondary(Value(), t.zone) {
        tasks := tasks[id := t.(wasPending := t.zone in pendingZones, phase := S.Found)];
        return;
      }
      tasks := tasks - {id};
    }

    method StartRefresh(id: nat, local: LocalSoa, visits: seq<Visit>)
      requires id in tasks && tasks[id].zone in timeTracking && tasks[id].zone in configs
      modifies this`tasks, this`timeTracking
      ensures Value() == S.StartRefresh(old(Value()), id, local, visits)
    {
      var t := tasks[id];
      timeTracking := timeTracking[t.zone := timeTracking[t.zone].Started(t.cause, now)];
      var outcome, effects := RefreshPrimaries(local, visits, configs[t.zone]);
      tasks := tasks[id := t.(phase := S.Refreshing(effects, outcome))];
    }

    method PerformEffect(id: nat)
      requires id in tasks && tasks[id].zone in timeTracking
      requires tasks[id].phase.Refreshing? && tasks[id].phase.effects != []
      modifies this`tasks, this`timeTracking
      ensures Value() == S.PerformEffect(old(Value()), id)
    {
      var t := tasks[id];
      var effects := t.phase.effects;
      match effects[0] {
        case SerialChecked(serial) =>
          timeTracking := timeTracking[t.zone := timeTracking[t.zone].SoaSerialCheckSucceeded(serial, now)];
        case Committed(soa) =>
          timeTracking := timeTracking[t.zone := timeTracking[t.zone].RefreshSucceeded(soa, now)];
        case SoaSeen =>
        case Requested(_, _, _) =>
      }
      tasks := tasks[id := t.(phase := S.Refreshing(effects[1..], t.phase.outcome))];
    }

    method FinishRefresh(id: nat)
      requires id in tasks && tasks[id].zone in timeTracking && tasks[id].phase.Refreshing?
      modifies this`tasks, this`timeTracking, this`events, this`expired
      ensures Value() == S.FinishRefresh(old(Value()), id)
    {
      var t := tasks[id];
      var rs := timeTracking[t.zone];
      match t.phase.outcome {
        case Done(soa) =>
          rs := rs.Succeeded(soa, now);
          timeTracking := timeTracking[t.zone := rs];
          events := events + [S.ZoneRefreshRequested(t.zone, SoaRefreshTimer, Some(rs.refresh))];
          if t.wasPending {
            tasks := tasks[id := t.(phase := S.Promoting)];
            return;
          }
        case Failed(_) =>
          if rs.status == RetryInProgress && rs.IsExpired(now) {
            expired := expired + {t.zone};
          } else {
            if rs.status != RetryInProgress {
              rs := rs.SetStatus(RetryPending);
            }
            timeTracking := timeTracking[t.zone := rs];
            events := events + [S.ZoneRefreshRequested(t.zone, SoaRetryTimer, Some(rs.retry))];
          }
        case Panicked =>
      }
      tasks := tasks - {id};
    }

    method AskForPromotion(id: nat)
      requires id in tasks
      modifies this`tasks, this`events
      ensures Value() == S.AskForPromotion(old(Value()), id)
    {
      events := events + [S.ZoneAdded(tasks[id].zone)];
      tasks := tasks - {id};
    }
  }
}
