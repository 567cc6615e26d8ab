/** Stretches of runs of the zone maintainer. */
module MaintainerSegments {
  import opened MaintainerSteps
  import MaintainerHistory
  import opened Options

  ghost predicate IsSegment(st: State, actions: seq<Action>)
    decreases |actions|
  {
    actions == [] || (Enabled(st, actions[0]) && IsSegment(Next(st, actions[0]), actions[1..]))
  }

  ghost function StateAfter(st: State, actions: seq<Action>): State
    requires IsSegment(st, actions)
    decreases |actions|
  {
    if actions == [] then st else StateAfter(Next(st, actions[0]), actions[1..])
  }

  ghost function ObservedIn(st: State, actions: seq<Action>): seq<Observation>
    requires IsSegment(st, actions)
    decreases |actions|
  {
    if actions == [] then [] else Observed(st, actions[0]) + ObservedIn(Next(st, actions[0]), actions[1..])
  }

  lemma StepReachable(w: World, a: Action)
    requires MaintainerHistory.Reachable(w) && Enabled(w.st, a)
    ensures MaintainerHistory.Reachable(World(Next(w.st, a), w.history + Observed(w.st, a)))
  {
    var actions :| Run(actions) == Some(w);
    var more := actions + [a];
    assert more[..|more| - 1] == actions;
    assert Run(more) == Some(World(Next(w.st, a), w.history + Observed(w.st, a)));
  }

  /** The world after a stretch of actions. */
  ghost function Follow(w: World, actions: seq<Action>): World
    requires IsSegment(w.st, actions)
    decreases |actions|
  {
    if actions == [] then w
    else Follow(World(Next(w.st, actions[0]), w.history + Observed(w.st, actions[0])), actions[1..])
  }

  lemma {:induction false} FollowIs(w: World, actions: seq<Action>)
    requires IsSegment(w.st, actions)
    ensures Follow(w, actions) == World(StateAfter(w.st, actions), w.history + ObservedIn(w.st, actions))
    decreases |actions|
  {
    if actions == [] {
      assert w.history + [] == w.history;
    } else {
      var observed := Observed(w.st, actions[0]);
      var next := World(Next(w.st, actions[0]), w.history + observed);
      FollowIs(next, actions[1..]);
      Regroup(w.history, observed, ObservedIn(next.st, actions[1..]));
    }
  }

  lemma Regroup(a: seq<Observation>, b: seq<Observation>, c: seq<Observation>)
    ensures (a + b) + c == a + (b + c)
  {
  }

  /** What a reachable world can go on to is reachable. */
  lemma {:induction false} FollowReachable(w: World, actions: seq<Action>)
    requires MaintainerHistory.Reachable(w) && IsSegment(w.st, actions)
    ensures MaintainerHistory.Reachable(Follow(w, actions))
    decreases |actions|
  {
    if actions != [] {
      StepReachable(w, actions[0]);
      FollowReachable(World(Next(w.st, actions[0]), w.history + Observed(w.st, actions[0])), actions[1..]);
    }
  }

  lemma SegmentReachable(w: World, actions: seq<Action>)
    requires MaintainerHistory.Reachable(w) && IsSegment(w.st, actions)
    ensures MaintainerHistory.Reachable(World(StateAfter(w.st, actions), w.history + ObservedIn(w.st, actions)))
  {
    FollowReachable(w, actions);
    FollowIs(w, actions);
  }
}
