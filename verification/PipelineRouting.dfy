/** Where each update arrives, told from the commands that the units take. */
module PipelineRouting {
  import opened Options
  import opened Payload
  import opened Pipeline
  import PipelineQueues

  /** The update that a command of a unit answers to, if any does. */
  function CauseOf(unit: Unit, command: Command): Option<Update> {
    match command
    case Changed(change) => Some(Update.Changed(change))
    case RefreshZone(zone, source, serial) =>
      if unit == ZL then Some(Update.RefreshZone(zone, source, serial)) else None
    case SeekApprovalForUnsignedZone(key) => if unit == RS then Some(UnsignedZoneUpdated(key)) else None
    case SignZone(zone, serial) =>
      if unit != ZS then None
      else if serial.Some? then Some(UnsignedZoneApproved(Key(zone, serial.value)))
      else Some(ResignZone(zone))
    case SeekApprovalForSignedZone(key) => if unit == RS2 then Some(ZoneSigned(key)) else None
    case PublishSignedZone(key) => if unit == PS then Some(SignedZoneApproved(key)) else None
    case HandleZoneReview(_, _, _) => None
  }

  /** How often a unit took a command. */
  function Taken(h: seq<Deed>, unit: Unit, command: Command): nat {
    multiset(h)[Handled(unit, command)]
  }

  function TimesSent(h: seq<Deed>, update: Update): nat {
    multiset(h)[Sent(update)]
  }

  //// Counting ////

  lemma CountFirst<T>(s: seq<T>, x: T)
    requires s != []
    ensures multiset(s)[x] == (if s[0] == x then 1 else 0) + multiset(s[1..])[x]
  {
    assert s == [s[0]] + s[1..];
  }

  lemma {:induction false} CountHandled(h: seq<Deed>, unit: Unit, command: Command)
    requires !command.HandleZoneReview?
    ensures multiset(PipelineQueues.HandledIn(h, unit))[command] == Taken(h, unit, command)
    decreases |h|
  {
    if h != [] {
      CountFirst(h, Handled(unit, command));
      CountHandled(h[1..], unit, command);
    }
  }

  lemma {:induction false} CountSent(h: seq<Deed>, update: Update)
    ensures multiset(PipelineQueues.SentIn(h))[update] == TimesSent(h, update)
    decreases |h|
  {
    if h != [] {
      CountFirst(h, Sent(update));
      CountSent(h[1..], update);
    }
  }

  lemma {:induction false} CountForUnit(commands: seq<Addressed>, unit: Unit, command: Command)
    requires !command.HandleZoneReview?
    ensures multiset(PipelineQueues.ForUnit(commands, unit))[command] == multiset(commands)[(unit, command)]
    decreases |commands|
  {
    if commands != [] {
      CountFirst(commands, (unit, command));
      CountForUnit(commands[1..], unit, command);
    }
  }

  lemma ChangeRoutedOnce(change: Change, unit: Unit, command: Command)
    ensures multiset(Direct(Update.Changed(change)))[(unit, command)] ==
              if command == Command.Changed(change) then 1 else 0
  {
    var all := Direct(Update.Changed(change));
    assert forall i :: 0 <= i < 6 ==> all[i].1 == Command.Changed(change);
    assert [all[0].0, all[1].0, all[2].0, all[3].0, all[4].0, all[5].0] == [ZL, RS, KM, ZS, RS2, PS];
    CountDifferent(all, (unit, command));
    AmongAll(all, change, unit);
  }

  lemma AmongAll(all: seq<Addressed>, change: Change, unit: Unit)
    requires |all| == 6 && forall i :: 0 <= i < 6 ==> all[i].1 == Command.Changed(change)
    requires [all[0].0, all[1].0, all[2].0, all[3].0, all[4].0, all[5].0] == [ZL, RS, KM, ZS, RS2, PS]
    ensures (unit, Command.Changed(change)) in all
  {
    var i := match unit case ZL => 0 case RS => 1 case KM => 2 case ZS => 3 case RS2 => 4 case PS => 5;
    assert all[i] == (unit, Command.Changed(change));
  }

  lemma {:induction false} CountDifferent<T>(s: seq<T>, x: T)
    requires forall i, j :: 0 <= i < j < |s| ==> s[i] != s[j]
    ensures multiset(s)[x] == if x in s then 1 else 0
    decreases |s|
  {
    if s != [] {
      CountFirst(s, x);
      CountDifferent(s[1..], x);
      assert s == [s[0]] + s[1..];
      assert s[0] !in s[1..];
    }
  }

  lemma OthersRoutedOnce(update: Update, unit: Unit, command: Command)
    requires !update.Changed?
    ensures multiset(Direct(update))[(unit, command)] == if CauseOf(unit, command) == Some(update) then 1 else 0
  {
    assert |Direct(update)| == 1;
    assert (unit, command) == Direct(update)[0] <==> CauseOf(unit, command) == Some(update);
    CountFirst(Direct(update), (unit, command));
  }

  /** An update is routed to a unit as just the command that answers to it. */
  lemma RoutedOnce(update: Update, unit: Unit, command: Command)
    ensures multiset(Direct(update))[(unit, command)] == if CauseOf(unit, command) == Some(update) then 1 else 0
  {
    if update.Changed? {
      ChangeRoutedOnce(update.change, unit, command);
    } else {
      OthersRoutedOnce(update, unit, command);
    }
  }

  lemma {:induction false} CountRouted(updates: seq<Update>, unit: Unit, command: Command)
    ensures multiset(PipelineQueues.DirectAll(updates))[(unit, command)] ==
              match CauseOf(unit, command)
              case Some(u) => multiset(updates)[u]
              case None => 0
    decreases |updates|
  {
    if updates != [] {
      RoutedOnce(updates[0], unit, command);
      CountRouted(updates[1..], unit, command);
      if CauseOf(unit, command).Some? {
        CountFirst(updates, CauseOf(unit, command).value);
      }
    }
  }

  /** What the updates sent have for a unit, counted. */
  lemma CountMeant(h: seq<Deed>, unit: Unit, command: Command)
    requires !command.HandleZoneReview?
    ensures multiset(PipelineQueues.ForUnit(PipelineQueues.DirectAll(PipelineQueues.SentIn(h)), unit))[command] ==
              match CauseOf(unit, command)
              case Some(u) => TimesSent(h, u)
              case None => 0
  {
    var sent := PipelineQueues.SentIn(h);
    CountForUnit(PipelineQueues.DirectAll(sent), unit, command);
    CountRouted(sent, unit, command);
    if CauseOf(unit, command).Some? {
      CountSent(h, CauseOf(unit, command).value);
    }
  }

  lemma CountPrefix<T>(a: seq<T>, b: seq<T>, x: T)
    requires a <= b
    ensures multiset(a)[x] <= multiset(b)[x]
  {
    assert b == a + b[|a|..];
  }

  //// The theorems ////

  /** Nothing waits in a queue for the unit. */
  predicate Drained(st: State, unit: Unit) {
    st.updates == [] && st.commands == [] && PipelineQueues.Inbox(st, unit) == []
  }

  /** In every run a unit takes a command at most as often as the update that it answers to was sent, and never if it
      answers to none; once the unit's queues are empty, it took it just as often. */
  lemma TakenAsOftenAsSent(actions: seq<Action>, hooks: map<Unit, nat>, unit: Unit, command: Command)
    requires IsRun(INIT, actions, hooks) && !command.HandleZoneReview?
    ensures var st := Run(INIT, actions, hooks);
            var meant := match CauseOf(unit, command) case Some(u) => TimesSent(st.history, u) case None => 0;
            && Taken(st.history, unit, command) <= meant
            && (Drained(st, unit) ==> Taken(st.history, unit, command) == meant)
  {
    var st := Run(INIT, actions, hooks);
    PipelineQueues.NothingIsLostOrOvertaken(actions, hooks, unit);
    CountHandled(st.history, unit, command);
    CountMeant(st.history, unit, command);
    CountPrefix(PipelineQueues.HandledIn(st.history, unit),
                PipelineQueues.ForUnit(PipelineQueues.DirectAll(PipelineQueues.SentIn(st.history)), unit), command);
  }

  /** The unit took the command as often as the update was sent. */
  predicate Arrived(h: seq<Deed>, unit: Unit, command: Command, update: Update) {
    Taken(h, unit, command) == TimesSent(h, update)
  }

  lemma AnswersArrived(actions: seq<Action>, hooks: map<Unit, nat>, unit: Unit, command: Command, update: Update)
    requires IsRun(INIT, actions, hooks) && Drained(Run(INIT, actions, hooks), unit)
    requires CauseOf(unit, command) == Some(update)
    ensures Arrived(Run(INIT, actions, hooks).history, unit, command, update)
  {
    TakenAsOftenAsSent(actions, hooks, unit, command);
  }

  /**
   Once all queues are empty, every update has arrived as often as it was sent: each change at all six units, each
   request for a refresh at the loader, each new version and each signed one at its review server, each approval of
   an unsigned zone at the signer with its serial, each request to sign again there without one, and each approval
   of a signed zone at the publication server.
   */
  lemma EveryUpdateArrives(actions: seq<Action>, hooks: map<Unit, nat>)
    requires IsRun(INIT, actions, hooks) && forall unit :: Drained(Run(INIT, actions, hooks), unit)
    ensures var h := Run(INIT, actions, hooks).history;
            && (forall change, unit :: Arrived(h, unit, Command.Changed(change), Update.Changed(change)))
            && (forall z, source, serial ::
                  Arrived(h, ZL, Command.RefreshZone(z, source, serial), Update.RefreshZone(z, source, serial)))
            && (forall key :: Arrived(h, RS, SeekApprovalForUnsignedZone(key), UnsignedZoneUpdated(key)))
            && (forall z, serial :: Arrived(h, ZS, SignZone(z, Some(serial)), UnsignedZoneApproved(Key(z, serial))))
            && (forall z :: Arrived(h, ZS, SignZone(z, None), ResignZone(z)))
            && (forall key :: Arrived(h, RS2, SeekApprovalForSignedZone(key), ZoneSigned(key)))
            && (forall key :: Arrived(h, PS, PublishSignedZone(key), SignedZoneApproved(key)))
  {
    var h := Run(INIT, actions, hooks).history;
    forall change, unit ensures Arrived(h, unit, Command.Changed(change), Update.Changed(change)) {
      AnswersArrived(actions, hooks, unit, Command.Changed(change), Update.Changed(change));
    }
    forall z, source, serial
      ensures Arrived(h, ZL, Command.RefreshZone(z, source, serial), Update.RefreshZone(z, source, serial))
    {
      AnswersArrived(actions, hooks, ZL, Command.RefreshZone(z, source, serial), Update.RefreshZone(z, source, serial));
    }
    forall z, serial ensures Arrived(h, ZS, SignZone(z, Some(serial)), UnsignedZoneApproved(Key(z, serial))) {
      AnswersArrived(actions, hooks, ZS, SignZone(z, Some(serial)), UnsignedZoneApproved(Key(z, serial)));
    }
    forall z ensures Arrived(h, ZS, SignZone(z, None), ResignZone(z)) {
      AnswersArrived(actions, hooks, ZS, SignZone(z, None), ResignZone(z));
    }
    forall key
      ensures Arrived(h, RS, SeekApprovalForUnsignedZone(key), UnsignedZoneUpdated(key))
      ensures Arrived(h, RS2, SeekApprovalForSignedZone(key), ZoneSigned(key))
      ensures Arrived(h, PS, PublishSignedZone(key), SignedZoneApproved(key))
    {
      AnswersArrived(actions, hooks, RS, SeekApprovalForUnsignedZone(key), UnsignedZoneUpdated(key));
      AnswersArrived(actions, hooks, RS2, SeekApprovalForSignedZone(key), ZoneSigned(key));
      AnswersArrived(actions, hooks, PS, PublishSignedZone(key), SignedZoneApproved(key));
    }
  }
}
