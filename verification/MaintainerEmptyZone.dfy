/** When an empty secondary can be promoted: exactly if one of its primaries need not be asked for a transfer. */
module MaintainerEmptyZone {
  import opened Options
  import opened RefreshZone
  import RefreshBounds
  import opened RefreshStates
  import opened RefreshTimers
  import opened MaintainerSteps
  import MaintainerHistory

  //// A refresh that is fine and sees nothing ////

  const EFFECTS: seq<Effect> := [SerialChecked(Some(5))]

  /** The visits are those of one refresh of an empty zone, which is fine although no SOA was seen. */
  ghost predicate Unseen(c: Primaries, visits: seq<Visit>) {
    c != map[] && VisitsAll(visits, None, c) && Refresh(NoSoa, visits, c) == (Done(None), EFFECTS)
  }

  lemma {:induction false} QuietRest(vs: seq<Visit>, c: Primaries, lastError: Option<Error>)
    requires forall v :: v in vs ==> v.script.soa.NoAnswer?
    ensures Visits(vs, c, None, true, lastError) == (Done(None), [])
    decreases |vs|
  {
    if vs != [] {
      assert vs[0] in vs && forall v :: v in vs[1..] ==> v in vs;
      QuietRest(vs[1..], c, if vs[0].addr in c then Some(vs[0].script.soa.error) else lastError);
      var none: seq<Effect> := [];
      assert none + none == none;
    }
  }

  lemma UnseenRefresh(c: Primaries, a: Addr) returns (visits: seq<Visit>)
    requires a in c && !AlwaysTransfers(c[a])
    ensures Unseen(c, visits)
  {
    var script := Script(PrimarySerial(5), (i: nat) => NotSent(ABSENT_SOA));
    visits := RefreshBounds.VisitsWith(None, c, a, script);
    forall v | v in visits[1..] ensures v.script.soa.NoAnswer? {
      var i :| 0 < i < |visits| && visits[i] == v;
      assert v in visits && visits[i].addr != visits[0].addr;
    }
    assert visits[0] in visits && visits[0] == Visit(a, script);
    assert Transfers(a, c[a], None, script.xfrs, 1) == (Done(None), []);
    assert Transfers(a, c[a], None, script.xfrs, 0) == (Done(None), []);
    assert [SerialChecked(Some(5))] + [] == EFFECTS && EFFECTS + [] == EFFECTS;
    assert FromAddr(visits[0], c[a], None) == (Done(None), EFFECTS);
    QuietRest(visits[1..], c, None);
  }

  //// The run ////

  function Actions(z: ZoneId, c: Primaries, visits: seq<Visit>): seq<Action> {
    [Insert(z, c), Handle(None), Action.Fire(0), Look(0, true), Start(0, NoSoa, visits),
     Act(0), Finish(0), Promote(0), Handle(None), Handle(None)]
  }

  /** The states of the run, with what changes in it. */
  function At(z: ZoneId, c: Primaries, promoted: bool, tracking: map<ZoneId, RefreshState>,
              timers: seq<Timer>, events: seq<Event>, tasks: map<nat, Task>, nextTask: nat): State {
    State(0, map[z := c], if promoted then {} else {z}, if promoted then {z} else {}, {}, tracking, timers, events,
          tasks, nextTask)
  }

  const PENDING: RefreshState := DefaultState(0)
  const STARTED: RefreshState := PENDING.Started(SoaRefreshTimerAfterZoneAdded, 0)
  const CHECKED: RefreshState := STARTED.SoaSerialCheckSucceeded(Some(5), 0)
  const FINISHED: RefreshState := CHECKED.Succeeded(None, 0)

  function NextRefresh(z: ZoneId): Event {
    ZoneRefreshRequested(z, SoaRefreshTimer, Some(0))
  }

  function First(z: ZoneId): Timer {
    Timer(z, SoaRefreshTimerAfterZoneAdded, 0)
  }

  function Only(z: ZoneId, wasPending: bool, phase: Phase): map<nat, Task> {
    map[0 := Task(z, SoaRefreshTimerAfterZoneAdded, wasPending, phase)]
  }

  /** The state before the `n`th action. */
  function Before(z: ZoneId, c: Primaries, n: nat): State {
    match n
    case 0 => INITIAL
    case 1 => At(z, c, false, map[], [], [ZoneAdded(z)], map[], 0)
    case 2 => At(z, c, false, map[z := PENDING], [First(z)], [], map[], 0)
    case 3 => At(z, c, false, map[z := PENDING], [], [], Only(z, false, Looking({})), 1)
    case 4 => At(z, c, false, map[z := PENDING], [], [], Only(z, true, Found), 1)
    case 5 => At(z, c, false, map[z := STARTED], [], [], Only(z, true, Refreshing(EFFECTS, Done(None))), 1)
    case 6 => At(z, c, false, map[z := CHECKED], [], [], Only(z, true, Refreshing([], Done(None))), 1)
    case 7 => At(z, c, false, map[z := FINISHED], [], [NextRefresh(z)], Only(z, true, Promoting), 1)
    case 8 => At(z, c, false, map[z := FINISHED], [], [NextRefresh(z), ZoneAdded(z)], map[], 1)
    case 9 => At(z, c, false, map[z := FINISHED], [Timer(z, SoaRefreshTimer, 0)], [ZoneAdded(z)], map[], 1)
    case _ => At(z, c, true, map[z := FINISHED], [First(z)], [], map[], 1)
  }

  function HistoryThen(z: ZoneId, n: nat): seq<Observation> {
    if n < 6 then [] else if n < 10 then [Checked(z, 0)] else [Checked(z, 0), Promoted(z)]
  }

  ghost predicate Step(z: ZoneId, c: Primaries, visits: seq<Visit>, n: nat)
    requires n < 10
  {
    var a := Actions(z, c, visits)[n];
    && Enabled(Before(z, c, n), a)
    && Next(Before(z, c, n), a) == Before(z, c, n + 1)
    && HistoryThen(z, n) + Observed(Before(z, c, n), a) == HistoryThen(z, n + 1)
  }

  lemma InsertingStep(z: ZoneId, c: Primaries, visits: seq<Visit>)
    requires c != map[]
    ensures Step(z, c, visits, 0)
  {
    assert INITIAL.configs[z := c] == map[z := c];
  }

  lemma AddingStep(z: ZoneId, c: Primaries, visits: seq<Visit>)
    requires c != map[]
    ensures Step(z, c, visits, 1)
  {
  }

  lemma FiringStep(z: ZoneId, c: Primaries, visits: seq<Visit>)
    requires c != map[]
    ensures Step(z, c, visits, 2)
  {
    assert Without([First(z)], 0) == [];
  }

  lemma LookingStep(z: ZoneId, c: Primaries, visits: seq<Visit>)
    requires c != map[]
    ensures Step(z, c, visits, 3)
  {
  }

  lemma StartingStep(z: ZoneId, c: Primaries, visits: seq<Visit>)
    requires Unseen(c, visits)
    ensures Step(z, c, visits, 4)
  {
    assert Actions(z, c, visits)[4] == Start(0, NoSoa, visits);
    assert StartRefresh(Before(z, c, 4), 0, NoSoa, visits) == Before(z, c, 5);
  }

  lemma CheckingStep(z: ZoneId, c: Primaries, visits: seq<Visit>)
    ensures Step(z, c, visits, 5)
  {
    assert EFFECTS[1..] == [];
  }

  lemma FinishingStep(z: ZoneId, c: Primaries, visits: seq<Visit>)
    ensures Step(z, c, visits, 6)
  {
    assert Only(z, true, Refreshing([], Done(None)))[0 := Task(z, SoaRefreshTimerAfterZoneAdded, true, Promoting)] ==
           Only(z, true, Promoting);
    assert FinishRefresh(Before(z, c, 6), 0) == Before(z, c, 7);
  }

  lemma PromotionStep(z: ZoneId, c: Primaries, visits: seq<Visit>)
    ensures Step(z, c, visits, 7)
  {
    assert Only(z, true, Promoting) - {0} == map[];
  }

  lemma RequestStep(z: ZoneId, c: Primaries, visits: seq<Visit>)
    ensures Step(z, c, visits, 8)
  {
  }

  lemma LastStep(z: ZoneId, c: Primaries, visits: seq<Visit>)
    requires c != map[]
    ensures Step(z, c, visits, 9)
  {
    assert {z} - {z} == {};
  }

  lemma EveryStep(z: ZoneId, c: Primaries, visits: seq<Visit>, n: nat)
    requires n < 10 && Unseen(c, visits)
    ensures Step(z, c, visits, n)
  {
    match n
    case 0 => InsertingStep(z, c, visits);
    case 1 => AddingStep(z, c, visits);
    case 2 => FiringStep(z, c, visits);
    case 3 => LookingStep(z, c, visits);
    case 4 => StartingStep(z, c, visits);
    case 5 => CheckingStep(z, c, visits);
    case 6 => FinishingStep(z, c, visits);
    case 7 => PromotionStep(z, c, visits);
    case 8 => RequestStep(z, c, visits);
    case _ => LastStep(z, c, visits);
  }

  lemma Extend(actions: seq<Action>, n: nat)
    requires n < |actions| && Run(actions[..n]).Some? && Enabled(Run(actions[..n]).value.st, actions[n])
    ensures var w := Run(actions[..n]).value;
            Run(actions[..n + 1]) == Some(World(Next(w.st, actions[n]), w.history + Observed(w.st, actions[n])))
  {
    assert actions[..n + 1][..n] == actions[..n];
  }

  lemma {:induction false} RunTo(z: ZoneId, c: Primaries, visits: seq<Visit>, n: nat)
    requires n <= 10 && Unseen(c, visits)
    ensures Run(Actions(z, c, visits)[..n]) == Some(World(Before(z, c, n), HistoryThen(z, n)))
  {
    if n == 0 {
      assert Actions(z, c, visits)[..0] == [];
    } else {
      RunTo(z, c, visits, n - 1);
      EveryStep(z, c, visits, n - 1);
      Extend(Actions(z, c, visits), n - 1);
    }
  }

  //// The exact condition ////

  /** In some reachable world the zone, configured with these primaries, was promoted before anyone saw an SOA in
      it. */
  ghost predicate PromotedUnseen(w: World, z: ZoneId, c: Primaries, i: nat) {
    && MaintainerHistory.Reachable(w) && i < |w.history| && w.history[i] == Promoted(z) && SawSoa(z) !in w.history[..i]
    && z in w.st.configs && w.st.configs[z] == c
  }

  ghost predicate CanBePromotedUnseen(z: ZoneId, c: Primaries) {
    exists w, i :: PromotedUnseen(w, z, c, i)
  }

  lemma EmptyZoneCanBePromoted(z: ZoneId, c: Primaries, a: Addr)
    requires a in c && !AlwaysTransfers(c[a])
    ensures CanBePromotedUnseen(z, c)
  {
    var visits := UnseenRefresh(c, a);
    RunTo(z, c, visits, 10);
    assert Actions(z, c, visits)[..10] == Actions(z, c, visits);
    LastWorld(z, c, Actions(z, c, visits));
  }

  lemma LastWorld(z: ZoneId, c: Primaries, actions: seq<Action>)
    requires Run(actions) == Some(World(Before(z, c, 10), HistoryThen(z, 10)))
    ensures CanBePromotedUnseen(z, c)
  {
    var w := World(Before(z, c, 10), HistoryThen(z, 10));
    assert w.history[..1] == [Checked(z, 0)];
    assert PromotedUnseen(w, z, c, 1);
  }

  /** A zone can be promoted although nobody saw an SOA in it, exactly if one of its primaries has a strategy that
      never transfers. */
  lemma PromotedUnseenIff(z: ZoneId, c: Primaries)
    ensures CanBePromotedUnseen(z, c) <==> exists a :: a in c && !AlwaysTransfers(c[a])
  {
    if a :| a in c && !AlwaysTransfers(c[a]) {
      EmptyZoneCanBePromoted(z, c, a);
    } else {
      forall w, i | PromotedUnseen(w, z, c, i) ensures false {
        MaintainerHistory.PromotionNeedsSoa(w, i);
      }
    }
  }
}
