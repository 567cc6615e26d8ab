/** The theorems about whole runs of the zone maintainer. */
module MaintainerHistory {
  import opened Options
  import opened RefreshZone
  import opened RefreshStates
  import opened RefreshTimers
  import opened MaintainerSteps
  import opened MaintainerProofs

  //// Promotion needs an SOA ////

  /** Every primary of the zone is asked for a transfer even while the zone is empty. */
  predicate Strict(st: State, z: ZoneId) {
    z in st.configs && forall a :: a in st.configs[z] ==> AlwaysTransfers(st.configs[z][a])
  }

  ghost predicate TaskSawSoa(st: State, history: seq<Observation>, id: nat)
    requires id in st.tasks
  {
    var t := st.tasks[id];
    Strict(st, t.zone) ==>
      && (t.phase.Promoting? ==> SawSoa(t.zone) in history)
      && (t.phase.Refreshing? && t.phase.outcome.Done? ==> SawSoa(t.zone) in history || SomeSeen(t.phase.effects))
  }

  ghost predicate SoaOk(st: State, history: seq<Observation>) {
    && (forall z :: Strict(st, z) && z in st.active && IsSecondary(st, z) ==> SawSoa(z) in history)
    && (forall z :: Strict(st, z) && z in st.tracking && ZoneAdded(z) in st.events ==> SawSoa(z) in history)
    && (forall id :: id in st.tasks ==> TaskSawSoa(st, history, id))
  }

  lemma SoaInserting(st: State, history: seq<Observation>, z: ZoneId, primaries: Primaries)
    requires ZonesOk(st) && TasksOk(st) && SoaOk(st, history) && z !in st.configs
    ensures SoaOk(InsertZone(st, z, primaries), history)
  {
    var st' := InsertZone(st, z, primaries);
    forall x | Strict(st', x) && x != z ensures Strict(st, x) {}
    forall id | id in st'.tasks ensures TaskSawSoa(st', history, id) {
      assert TaskOk(st, id) && TaskSawSoa(st, history, id);
      assert st.tasks[id].zone in st.tracking ==> st.tasks[id].zone in st.tracking.Keys;
    }
  }

  /** Steps that change no zone set: what they append to the queue and do to their task decides. */
  lemma SoaSame(st: State, st': State, history: seq<Observation>, more: seq<Observation>, events: seq<Event>)
    requires SoaOk(st, history) && SameZones(st, st')
    requires st'.events == st.events + events || (st.events != [] && st'.events == st.events[1..])
    requires forall z :: ZoneAdded(z) in events && Strict(st, z) ==> SawSoa(z) in history
    requires forall id :: id in st'.tasks && (id !in st.tasks || st'.tasks[id] != st.tasks[id]) ==>
               TaskSawSoa(st', history + more, id)
    ensures SoaOk(st', history + more)
  {
    forall id | id in st'.tasks ensures TaskSawSoa(st', history + more, id) {
      if id in st.tasks && st'.tasks[id] == st.tasks[id] {
        assert TaskSawSoa(st, history, id);
        assert Strict(st', st.tasks[id].zone) ==> Strict(st, st.tasks[id].zone);
      }
    }
    forall z | Strict(st', z) ensures Strict(st, z) {}
    forall z | Strict(st', z) && z in st'.tracking && ZoneAdded(z) in st'.events
      ensures SawSoa(z) in history + more
    {
      assert z in st'.tracking.Keys && z in st.tracking;
    }
  }

  lemma SoaAddingTasks(st: State, history: seq<Observation>, a: Action)
    requires ZonesOk(st) && SoaOk(st, history) && Enabled(st, a)
    requires a.Handle? && st.events[0].ZoneAdded? && st.events[0].zone in st.pending
    ensures var st' := Next(st, a);
            forall id :: id in st'.tasks ==> TaskSawSoa(st', history + Observed(st, a), id)
  {
    var st', obs := Next(st, a), Observed(st, a);
    ZoneAddedFrame(st.(events := st.events[1..]), st.events[0].zone, a.soa);
    forall id | id in st'.tasks ensures TaskSawSoa(st', history + obs, id) {
      assert TaskSawSoa(st, history, id);
    }
  }

  lemma SoaAddingEvents(st: State, history: seq<Observation>, a: Action)
    requires ZonesOk(st) && AddedOnce(st) && SoaOk(st, history) && Enabled(st, a)
    requires a.Handle? && st.events[0].ZoneAdded? && st.events[0].zone in st.pending
    ensures var st' := Next(st, a);
            forall z :: Strict(st', z) && z in st'.tracking && ZoneAdded(z) in st'.events ==>
              SawSoa(z) in history + Observed(st, a)
  {
    var z := st.events[0].zone;
    var st', obs := Next(st, a), Observed(st, a);
    ZoneAddedFrame(st.(events := st.events[1..]), z, a.soa);
    assert st.events == [st.events[0]] + st.events[1..];
    assert multiset(st.events) == multiset{st.events[0]} + multiset(st.events[1..]);
    assert z !in st.tracking ==> ZoneAdded(z) !in multiset(st.events[1..]);
    forall x | Strict(st', x) && x in st'.tracking && ZoneAdded(x) in st'.events ensures SawSoa(x) in history + obs {
      assert x in st'.tracking.Keys && Strict(st, x);
    }
  }

  lemma SoaAdding(st: State, history: seq<Observation>, a: Action)
    requires ZonesOk(st) && AddedOnce(st) && SoaOk(st, history) && Enabled(st, a)
    requires a.Handle? && st.events[0].ZoneAdded? && st.events[0].zone in st.pending
    ensures SoaOk(Next(st, a), history + Observed(st, a))
    ensures Promoted(st.events[0].zone) in Observed(st, a) && Strict(st, st.events[0].zone) ==>
            SawSoa(st.events[0].zone) in history || Observed(st, a)[0] == SawSoa(st.events[0].zone)
  {
    var z := st.events[0].zone;
    var st', obs := Next(st, a), Observed(st, a);
    ZoneAddedFrame(st.(events := st.events[1..]), z, a.soa);
    forall x | Strict(st', x) ensures Strict(st, x) {}
    SoaAddingTasks(st, history, a);
    SoaAddingEvents(st, history, a);
  }

  lemma StartSawSoa(st: State, history: seq<Observation>, a: Action)
    requires Enabled(st, a) && a.Start?
    ensures TaskSawSoa(Next(st, a), history, a.id)
  {
    var z := st.tasks[a.id].zone;
    if Strict(st, z) && Refresh(a.local, a.visits, st.configs[z]).0.Done? {
      SuccessHasSeenSoa(a.local, a.visits, st.configs[z]);
    }
  }

  lemma ActSawSoa(st: State, history: seq<Observation>, a: Action)
    requires Enabled(st, a) && a.Act? && TaskSawSoa(st, history, a.id)
    ensures TaskSawSoa(Next(st, a), history + Observed(st, a), a.id)
  {
    var effects := st.tasks[a.id].phase.effects;
    assert effects == [effects[0]] + effects[1..];
    if SomeSeen(effects) && !Sees(effects[0]) {
      var e :| e in effects && Sees(e);
      assert e in effects[1..];
    }
  }

  lemma OwnTaskSawSoa(st: State, history: seq<Observation>, a: Action)
    requires SoaOk(st, history) && Enabled(st, a) && IsTaskStep(a)
    ensures TaskOf(a) in Next(st, a).tasks ==> TaskSawSoa(Next(st, a), history + Observed(st, a), TaskOf(a))
  {
    assert TaskSawSoa(st, history, TaskOf(a));
    if a.Start? {
      StartSawSoa(st, history, a);
      assert history + Observed(st, a) == history;
    } else if a.Act? {
      ActSawSoa(st, history, a);
    } else {
      OtherStepsKeepZones(st, a);
      assert Strict(Next(st, a), st.tasks[TaskOf(a)].zone) ==> Strict(st, st.tasks[TaskOf(a)].zone);
    }
  }

  lemma SoaTaskStep(st: State, history: seq<Observation>, a: Action)
    requires SoaOk(st, history) && Enabled(st, a) && IsTaskStep(a)
    ensures SoaOk(Next(st, a), history + Observed(st, a))
  {
    EventsFrame(st, a);
    OtherStepsKeepZones(st, a);
    TaskStepFrame(st, a);
    OwnTaskSawSoa(st, history, a);
    if a.Promote? {
      assert TaskSawSoa(st, history, a.id);
    }
    SoaSame(st, Next(st, a), history, Observed(st, a), Appended(st, a));
  }

  lemma SoaStep(st: State, history: seq<Observation>, a: Action)
    requires ZonesOk(st) && TasksOk(st) && AddedOnce(st) && SoaOk(st, history) && Enabled(st, a)
    ensures SoaOk(Next(st, a), history + Observed(st, a))
  {
    if a.Insert? {
      assert history + [] == history;
      SoaInserting(st, history, a.zone, a.primaries);
    } else if AddsZone(st, a) && st.events[0].zone in st.pending {
      SoaAdding(st, history, a);
    } else if IsTaskStep(a) {
      SoaTaskStep(st, history, a);
    } else {
      SoaOtherStep(st, history, a);
    }
  }

  lemma SoaOtherStep(st: State, history: seq<Observation>, a: Action)
    requires ZonesOk(st) && TasksOk(st) && AddedOnce(st) && SoaOk(st, history) && Enabled(st, a)
    requires !a.Insert? && !IsTaskStep(a) && !(AddsZone(st, a) && st.events[0].zone in st.pending)
    ensures SoaOk(Next(st, a), history + Observed(st, a))
  {
    EventsFrame(st, a);
    if AddsZone(st, a) {
      assert SameZones(st, Next(st, a));
    } else {
      OtherStepsKeepZones(st, a);
    }
    SoaSame(st, Next(st, a), history, Observed(st, a), if a.Handle? then [] else Appended(st, a));
  }

  /** A strict zone was promoted only after its SOA had been seen. */
  ghost predicate PromotedOk(st: State, history: seq<Observation>) {
    forall i :: 0 <= i < |history| && history[i].Promoted? ==>
      && history[i].zone in st.configs
      && (Strict(st, history[i].zone) ==> SawSoa(history[i].zone) in history[..i])
  }

  lemma ConfigsGrow(st: State, a: Action)
    requires Enabled(st, a)
    ensures st.configs.Keys <= Next(st, a).configs.Keys
    ensures forall z :: z in st.configs ==> Next(st, a).configs[z] == st.configs[z]
  {
    if a.Handle? && AddsZone(st, a) {
      if st.events[0].zone in st.pending && IsSecondary(st, st.events[0].zone) {
        ZoneAddedFrame(st.(events := st.events[1..]), st.events[0].zone, a.soa);
      }
    } else if !a.Insert? {
      OtherStepsKeepZones(st, a);
    }
  }

  lemma PromotedByHandling(st: State, a: Action, z: ZoneId)
    requires Enabled(st, a) && Promoted(z) in Observed(st, a)
    ensures a.Handle? && st.events[0].ZoneAdded? && st.events[0].zone in st.pending && st.events[0].zone == z
  {
    match a {
      case Act(_) =>
      case Finish(_) =>
      case _ =>
    }
  }

  lemma PromotedStep(st: State, history: seq<Observation>, a: Action)
    requires ZonesOk(st) && TasksOk(st) && AddedOnce(st) && SoaOk(st, history) && PromotedOk(st, history)
    requires Enabled(st, a)
    ensures PromotedOk(Next(st, a), history + Observed(st, a))
  {
    var st', obs := Next(st, a), Observed(st, a);
    var h := history + obs;
    ConfigsGrow(st, a);
    forall i | 0 <= i < |h| && h[i].Promoted?
      ensures h[i].zone in st'.configs && (Strict(st', h[i].zone) ==> SawSoa(h[i].zone) in h[..i])
    {
      if i < |history| {
        assert h[..i] == history[..i];
        assert history[i].zone in st.configs.Keys;
      } else {
        assert obs[i - |history|] in obs && h[..i] == history + obs[..i - |history|];
        PromotedByHandling(st, a, h[i].zone);
        SoaAdding(st, history, a);
      }
    }
  }

  //// Expiry needs silence ////

  /** Instants on record are not in the future, and no successful check is later than the one on record. */
  ghost predicate TimeOk(st: State, history: seq<Observation>) {
    && (forall z :: z in st.tracking ==>
          st.tracking[z].metrics.zoneCreatedAt <= st.tracking[z].LastContact() <= st.now)
    && (forall o :: o in history && o.Checked? ==>
          o.zone in st.tracking && o.at <= st.tracking[o.zone].LastContact())
  }

  /** How a step changes what is recorded for a zone: at most the last contact moves to now. */
  ghost predicate ContactMoves(st: State, st': State, obs: seq<Observation>, z: ZoneId) {
    && (z in st.tracking ==>
          && z in st'.tracking
          && var rs, rs' := st.tracking[z], st'.tracking[z];
             && rs'.metrics.zoneCreatedAt == rs.metrics.zoneCreatedAt
             && rs'.LastContact() == (if Checked(z, st.now) in obs then st.now else rs.LastContact()))
    && (z !in st.tracking && z in st'.tracking ==>
          st'.tracking[z].metrics.zoneCreatedAt == st.now && st'.tracking[z].LastContact() == st.now)
  }

  lemma ContactTaskStep(st: State, a: Action, z: ZoneId)
    requires Enabled(st, a) && IsTaskStep(a)
    ensures ContactMoves(st, Next(st, a), Observed(st, a), z)
  {
    match a {
      case Look(_, _) =>
      case Start(_, _, _) =>
      case Progress(_, _) =>
      case Act(_) =>
      case Finish(_) =>
      case Promote(_) =>
      case _ =>
    }
  }

  lemma ContactFrame(st: State, a: Action, z: ZoneId)
    requires Enabled(st, a)
    ensures st.now <= Next(st, a).now
    ensures ContactMoves(st, Next(st, a), Observed(st, a), z)
    ensures forall o :: o in Observed(st, a) && o.Checked? ==> o.at == st.now && o.zone in st.tracking
  {
    if IsTaskStep(a) {
      TaskStepFrame(st, a);
      ContactTaskStep(st, a, z);
    }
  }

  lemma TimeStep(st: State, history: seq<Observation>, a: Action)
    requires TimeOk(st, history) && Enabled(st, a)
    ensures TimeOk(Next(st, a), history + Observed(st, a))
  {
    var st', obs := Next(st, a), Observed(st, a);
    forall z | z in st'.tracking
      ensures st'.tracking[z].metrics.zoneCreatedAt <= st'.tracking[z].LastContact() <= st'.now
    {
      ContactFrame(st, a, z);
    }
    forall o | o in history + obs && o.Checked?
      ensures o.zone in st'.tracking && o.at <= st'.tracking[o.zone].LastContact()
    {
      ContactFrame(st, a, o.zone);
    }
  }

  /** A zone was marked expired only more than EXPIRE after it was first tracked and after every
      serial check of it, by whatever task, that had succeeded by then. */
  ghost predicate ExpiredOk(history: seq<Observation>) {
    forall i :: 0 <= i < |history| && history[i].MarkedExpired? ==>
      && history[i].created + Nanos(history[i].expire) < history[i].at
      && forall t: nat :: Checked(history[i].zone, t) in history[..i] ==> t + Nanos(history[i].expire) < history[i].at
  }

  lemma ExpiredStep(st: State, history: seq<Observation>, a: Action)
    requires TimeOk(st, history) && ExpiredOk(history) && Enabled(st, a)
    ensures ExpiredOk(history + Observed(st, a))
  {
    var obs := Observed(st, a);
    var h := history + obs;
    forall i | 0 <= i < |h| && h[i].MarkedExpired?
      ensures h[i].created + Nanos(h[i].expire) < h[i].at
      ensures forall t: nat :: Checked(h[i].zone, t) in h[..i] ==> t + Nanos(h[i].expire) < h[i].at
    {
      if i < |history| {
        assert h[..i] == history[..i];
      } else {
        assert a.Finish? && i == |history| && h[..i] == history;
        var rs := st.tracking[h[i].zone];
        assert rs.IsExpired(st.now) && h[i].at == st.now && h[i].expire == rs.expire;
      }
    }
  }

  //// Runs ////

  ghost predicate Invariant(w: World) {
    && ZonesOk(w.st) && TasksOk(w.st) && AddedOnce(w.st) && TimersOk(w.st) && CoverOk(w.st)
    && SoaOk(w.st, w.history) && PromotedOk(w.st, w.history)
    && TimeOk(w.st, w.history) && ExpiredOk(w.history)
  }

  lemma {:induction false} RunsKeepInvariant(actions: seq<Action>)
    requires Run(actions).Some?
    ensures Invariant(Run(actions).value)
    decreases |actions|
  {
    if actions != [] {
      var before, a := actions[..|actions| - 1], actions[|actions| - 1];
      RunsKeepInvariant(before);
      var w := Run(before).value;
      InvariantStep(w, a);
    }
  }

  lemma InvariantStep(w: World, a: Action)
    requires Invariant(w) && Enabled(w.st, a)
    ensures Invariant(World(Next(w.st, a), w.history + Observed(w.st, a)))
  {
    ZonesStep(w.st, a);
    TasksStep(w.st, a);
    AddedOnceStep(w.st, a);
    TimersStep(w.st, a);
    CoverStep(w.st, a);
    SoaStep(w.st, w.history, a);
    PromotedStep(w.st, w.history, a);
    TimeStep(w.st, w.history, a);
    ExpiredStep(w.st, w.history, a);
  }

  ghost predicate Reachable(w: World) {
    exists actions :: Run(actions) == Some(w)
  }

  lemma ReachableWorlds(w: World)
    requires Reachable(w)
    ensures Invariant(w)
  {
    var actions :| Run(actions) == Some(w);
    RunsKeepInvariant(actions);
  }

  /**
   No secondary zone is forgotten.  In every reachable state, one that was inserted still has its
   adding event queued, or is marked expired, or has a timer, a queued request for its refresh, or a
   task that is refreshing it or is bound to find it.
   */
  lemma NoZoneIsForgotten(w: World, z: ZoneId)
    requires Reachable(w) && IsSecondary(w.st, z)
    ensures if z in w.st.tracking then z in w.st.expired || Covered(w.st, z)
            else z in w.st.pending && ZoneAdded(z) in w.st.events
  {
    ReachableWorlds(w);
    if z !in w.st.tracking {
      assert z in w.st.configs.Keys && z in w.st.pending;
      assert multiset(w.st.events)[ZoneAdded(z)] == 1;
      assert ZoneAdded(z) in multiset(w.st.events);
    }
  }

  /** Every zone ever inserted is in exactly one of the two sets, and a step moves it, if at all, from
      pending to active; so the insertion of a promoted zone never finds it active already. */
  lemma ZonesOnlyMoveToActive(w: World, a: Action, z: ZoneId)
    requires Reachable(w) && Enabled(w.st, a) && z in w.st.configs
    ensures var st, st' := w.st, Next(w.st, a);
            && (z in st.pending <==> z !in st.active)
            && (z in st'.pending <==> z !in st'.active)
            && (z in st.active ==> z in st'.active)
  {
    ReachableWorlds(w);
    var st, st' := w.st, Next(w.st, a);
    ZonesStep(st, a);
    assert z in st.configs.Keys;
    ConfigsGrow(st, a);
    if AddsZone(st, a) {
      if a.Handle? && st.events[0].zone in st.pending {
        ZoneAddedFrame(st.(events := st.events[1..]), st.events[0].zone, a.soa);
      }
    } else {
      OtherStepsKeepZones(st, a);
    }
  }

  /** With transfers enabled at all its primaries, a secondary is promoted only after a step that saw
      an SOA in it. */
  lemma PromotionNeedsSoa(w: World, i: nat)
    requires Reachable(w) && i < |w.history| && w.history[i].Promoted?
    requires Strict(w.st, w.history[i].zone)
    ensures SawSoa(w.history[i].zone) in w.history[..i]
  {
    ReachableWorlds(w);
  }

  /** When a zone is marked expired, no serial check of it, by any task, has succeeded within EXPIRE,
      and it has been tracked for longer than that. */
  lemma ExpiryNeedsSilence(w: World, i: nat, j: nat)
    requires Reachable(w) && j < i < |w.history| && w.history[i].MarkedExpired?
    ensures var expired, earlier := w.history[i], w.history[j];
            && expired.created + Nanos(expired.expire) < expired.at
            && (earlier.Checked? && earlier.zone == expired.zone ==> earlier.at + Nanos(expired.expire) < expired.at)
  {
    ReachableWorlds(w);
    assert w.history[..i][j] == w.history[j];
  }

  /** The guards of the steps of a task never stop it: its zone stays tracked, and has primaries. */
  lemma TasksAreNeverStuck(w: World, id: nat)
    requires Reachable(w) && id in w.st.tasks && !w.st.tasks[id].phase.Looking?
    ensures var z := w.st.tasks[id].zone;
            && z in w.st.tracking && z in w.st.configs && IsSecondary(w.st, z)
            && (w.st.tasks[id].phase.Refreshing? ==> !w.st.tasks[id].phase.outcome.Panicked?)
  {
    ReachableWorlds(w);
    assert TaskOk(w.st, id) && w.st.tasks[id].zone in w.st.tracking.Keys;
  }
}
