/** The central command, the forwarder of commands and the publication of zones, working in place on the state of
    the pipeline. */
module CentralCommand {
  import opened Options
  import Payload
  import opened ReviewServer
  import opened Pipeline
  import PipelineRouting

  /** The same action so many times. */
  function Repeated(a: Action, n: nat): seq<Action> {
    seq(n, i requires 0 <= i < n => a)
  }

  lemma {:induction false} RunExtends(st: State, actions: seq<Action>, a: Action, hooks: map<Unit, nat>)
    requires IsRun(st, actions, hooks) && Enabled(Run(st, actions, hooks), a, hooks)
    ensures IsRun(st, actions + [a], hooks)
    ensures Run(st, actions + [a], hooks) == Next(Run(st, actions, hooks), a, hooks)
    decreases |actions|
  {
    if actions == [] {
      assert [] + [a] == [a] && [a][1..] == [];
    } else {
      assert (actions + [a])[0] == actions[0] && (actions + [a])[1..] == actions[1..] + [a];
      RunExtends(Next(st, actions[0], hooks), actions[1..], a, hooks);
    }
  }

  /** The state is what running the action so many times leads to. */
  ghost predicate RunsTo(st: State, a: Action, n: nat, st': State) {
    IsRun(st, Repeated(a, n), map[]) && Run(st, Repeated(a, n), map[]) == st'
  }

  lemma RunsOn(st: State, a: Action, n: nat, st': State)
    requires RunsTo(st, a, n, st') && Enabled(st', a, map[])
    ensures RunsTo(st, a, n + 1, Next(st', a, map[]))
  {
    assert Repeated(a, n + 1) == Repeated(a, n) + [a];
    RunExtends(st, Repeated(a, n), a, map[]);
  }

  /** Each unit gets just the commands that answer to the update. */
  ghost predicate Answers(before: seq<Addressed>, after: seq<Addressed>, update: Payload.Update) {
    forall unit, command ::
      multiset(after)[(unit, command)] == multiset(before)[(unit, command)]
        + if PipelineRouting.CauseOf(unit, command) == Some(update) then 1 else 0
  }

  lemma DirectAnswers(commands: seq<Addressed>, update: Payload.Update)
    ensures Answers(commands, commands + Direct(update), update)
  {
    forall unit, command
      ensures multiset(commands + Direct(update))[(unit, command)] == multiset(commands)[(unit, command)]
                + if PipelineRouting.CauseOf(unit, command) == Some(update) then 1 else 0
    {
      PipelineRouting.RoutedOnce(update, unit, command);
    }
  }

  class Center {
    var updates: seq<Payload.Update>
    var commands: seq<Addressed>
    var inboxes: map<Unit, seq<Command>>
    var reviews: map<Unit, Reviews>
    var unsignedZones: map<string, nat>
    var signedZones: map<string, ZoneObject>
    var publishedZones: map<string, ZoneObject>
    var contents: seq<Option<Version>>
    var versions: nat
    var signing: Option<Signing>
    var panicked: bool
    ghost var history: seq<Deed>

    ghost function Abstract(): State
      reads this
    {
      State(updates, commands, inboxes, reviews, unsignedZones, signedZones, publishedZones, contents, versions,
            signing, panicked, history)
    }

    constructor ()
      ensures Abstract() == INIT
    {
      updates, commands, unsignedZones, signedZones, publishedZones := [], [], map[], map[], map[];
      inboxes := map[ZL := [], KM := [], ZS := [], RS := [], RS2 := [], PS := []];
      reviews := map[RS := NO_REVIEWS, RS2 := NO_REVIEWS, PS := NO_REVIEWS];
      contents, versions, signing, panicked, history := [], 0, None, false, [];
    }

    /** Sends the commands of an update: each unit gets just those that answer to it. */
    method DirectUpdate(update: Payload.Update)
      modifies this`commands
      ensures Abstract() == old(Abstract()).(commands := old(commands) + Direct(update))
      ensures Answers(old(commands), commands, update)
    {
      DirectAnswers(commands, update);
      var to, command;
      match update {
        case Changed(change) =>
          InformAllUnits(change);
          return;
        case RefreshZone(zone, source, serial) => to, command := ZL, Command.RefreshZone(zone, source, serial);
        case UnsignedZoneUpdated(key) => to, command := RS, SeekApprovalForUnsignedZone(key);
        case UnsignedZoneApproved(key) => to, command := ZS, SignZone(key.zone, Some(key.serial));
        case ResignZone(zone) => to, command := ZS, SignZone(zone, None);
        case ZoneSigned(key) => to, command := RS2, SeekApprovalForSignedZone(key);
        case SignedZoneApproved(key) => to, command := PS, PublishSignedZone(key);
      }
      commands := commands + [(to, command)];
    }

    method InformAllUnits(change: Payload.Change)
      modifies this`commands
      ensures commands == old(commands) + Direct(Payload.Changed(change))
    {
      var names := [ZL, RS, KM, ZS, RS2, PS];
      ghost var all := Direct(Payload.Changed(change));
      assert |names| == |all| && forall j :: 0 <= j < |names| ==> (names[j], Command.Changed(change)) == all[j];
      var i := 0;
      while i < |names|
        invariant 0 <= i <= |names|
        invariant commands == old(commands) + all[..i]
      {
        commands := commands + [(names[i], Command.Changed(change))];
        i := i + 1;
      }
      assert all[..i] == all;
    }

    /** Takes one update and directs it. */
    method ProcessEvent()
      requires !panicked && updates != []
      modifies this`updates, this`commands
      ensures Abstract() == Next(old(Abstract()), TakeUpdate, map[])
    {
      var update := updates[0];
      updates := updates[1..];
      DirectUpdate(update);
    }

    /** The receive loop, until no update is left: the pipeline takes one update after the other. */
    method ProcessEvents()
      requires !panicked
      modifies this`updates, this`commands
      ensures updates == [] && RunsTo(old(Abstract()), TakeUpdate, |old(updates)|, Abstract())
    {
      ghost var n := 0;
      assert Repeated(TakeUpdate, 0) == [];
      while updates != []
        invariant n + |updates| == |old(updates)|
        invariant RunsTo(old(Abstract()), TakeUpdate, n, Abstract())
        decreases |updates|
      {
        RunsOn(old(Abstract()), TakeUpdate, n, Abstract());
        ProcessEvent();
        n := n + 1;
      }
    }

    /** The forwarding loop, until no command is left: the pipeline forwards one command after the other. */
    method ForwardAppCmds()
      requires !panicked
      modifies this`commands, this`inboxes
      ensures commands == [] && RunsTo(old(Abstract()), Forward, |old(commands)|, Abstract())
    {
      ghost var n := 0;
      assert Repeated(Forward, 0) == [];
      while commands != []
        invariant n + |commands| == |old(commands)|
        invariant RunsTo(old(Abstract()), Forward, n, Abstract())
        decreases |commands|
      {
        RunsOn(old(Abstract()), Forward, n, Abstract());
        var (to, command) := commands[0];
        commands := commands[1..];
        var inbox := if to in inboxes then inboxes[to] else [];
        inboxes := inboxes[to := inbox + [command]];
        n := n + 1;
      }
    }

    /** Moves a zone from the signed to the published zones, as the publication server does in the pipeline. */
    method OnPublishSignedZone(key: Payload.Key)
      requires PS in reviews
      modifies this`signedZones, this`publishedZones, this`history
      ensures Abstract() == HandleReview(old(Abstract()), PS, PublishSignedZone(key), [])
    {
      if key.zone in signedZones {
        var newPublishedZones := publishedZones - {key.zone};
        newPublishedZones := newPublishedZones[key.zone := signedZones[key.zone]];
        publishedZones := newPublishedZones;
        var newSignedZones := signedZones - {key.zone};
        signedZones := newSignedZones;
        history := history + [Deed.Published(key)];
      }
    }
  }
}
