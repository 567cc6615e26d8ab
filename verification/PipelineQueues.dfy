/** No update is lost, doubled or overtaken on its way through the central command to the units. */
module PipelineQueues {
  import opened Options
  import opened Payload
  import opened ReviewServer
  import opened Pipeline

  /** The updates sent so far. */
  function SentIn(h: seq<Deed>): seq<Update> {
    if h == [] then []
    else (match h[0] case Sent(u) => [u] case _ => []) + SentIn(h[1..])
  }

  function Plain(command: Command): seq<Command> {
    if command.HandleZoneReview? then [] else [command]
  }

  /** The commands that a unit took, except for tokens handed back over HTTP. */
  function HandledIn(h: seq<Deed>, unit: Unit): seq<Command> {
    if h == [] then []
    else
      (match h[0] case Handled(to, c) => (if to == unit then Plain(c) else []) case _ => []) +
      HandledIn(h[1..], unit)
  }

  function Waiting(inbox: seq<Command>): seq<Command> {
    if inbox == [] then [] else Plain(inbox[0]) + Waiting(inbox[1..])
  }

  function ForUnit(commands: seq<Addressed>, unit: Unit): seq<Command> {
    if commands == [] then []
    else (if commands[0].0 == unit then Plain(commands[0].1) else []) + ForUnit(commands[1..], unit)
  }

  function DirectAll(updates: seq<Update>): seq<Addressed> {
    if updates == [] then [] else Direct(updates[0]) + DirectAll(updates[1..])
  }

  function Inbox(st: State, unit: Unit): seq<Command> {
    if unit in st.inboxes then st.inboxes[unit] else []
  }

  /** What the updates sent so far have for a unit is what it took, then what waits in its inbox, in the
      command queue and in the update queue. */
  ghost predicate Conserved(st: State, unit: Unit) {
    ForUnit(DirectAll(SentIn(st.history)), unit) ==
      HandledIn(st.history, unit)
      + (Waiting(Inbox(st, unit)) + (ForUnit(st.commands, unit) + ForUnit(DirectAll(st.updates), unit)))
  }

  //// Concatenation ////

  lemma {:induction false} SentConcat(a: seq<Deed>, b: seq<Deed>)
    ensures SentIn(a + b) == SentIn(a) + SentIn(b)
  {
    if a == [] {
      assert a + b == b;
    } else {
      assert (a + b)[0] == a[0] && (a + b)[1..] == a[1..] + b;
      SentConcat(a[1..], b);
    }
  }

  lemma {:induction false} HandledConcat(a: seq<Deed>, b: seq<Deed>, unit: Unit)
    ensures HandledIn(a + b, unit) == HandledIn(a, unit) + HandledIn(b, unit)
  {
    if a == [] {
      assert a + b == b;
    } else {
      assert (a + b)[0] == a[0] && (a + b)[1..] == a[1..] + b;
      HandledConcat(a[1..], b, unit);
    }
  }

  lemma {:induction false} WaitingConcat(a: seq<Command>, b: seq<Command>)
    ensures Waiting(a + b) == Waiting(a) + Waiting(b)
  {
    if a == [] {
      assert a + b == b;
    } else {
      assert (a + b)[0] == a[0] && (a + b)[1..] == a[1..] + b;
      WaitingConcat(a[1..], b);
    }
  }

  lemma {:induction false} ForUnitConcat(a: seq<Addressed>, b: seq<Addressed>, unit: Unit)
    ensures ForUnit(a + b, unit) == ForUnit(a, unit) + ForUnit(b, unit)
  {
    if a == [] {
      assert a + b == b;
    } else {
      assert (a + b)[0] == a[0] && (a + b)[1..] == a[1..] + b;
      ForUnitConcat(a[1..], b, unit);
    }
  }

  lemma {:induction false} DirectConcat(a: seq<Update>, b: seq<Update>)
    ensures DirectAll(a + b) == DirectAll(a) + DirectAll(b)
  {
    if a == [] {
      assert a + b == b;
    } else {
      assert (a + b)[0] == a[0] && (a + b)[1..] == a[1..] + b;
      DirectConcat(a[1..], b);
      assert Direct(a[0]) + (DirectAll(a[1..]) + DirectAll(b)) == Direct(a[0]) + DirectAll(a[1..]) + DirectAll(b);
    }
  }

  lemma Associate(a: seq<Command>, b: seq<Command>, c: seq<Command>, d: seq<Command>, e: seq<Command>)
    ensures (a + (b + (c + d))) + e == a + (b + (c + (d + e)))
  {
  }

  /** Moving `b` from the front of one queue to the end of the one before. */
  lemma Shift(a: seq<Command>, b: seq<Command>, c: seq<Command>, d: seq<Command>)
    ensures a + ((b + c) + d) == (a + b) + (c + d)
  {
  }

  lemma Regroup(a: seq<Command>, b: seq<Command>, c: seq<Command>)
    ensures (a + b) + c == a + (b + c)
  {
  }

  lemma NothingAdded(a: seq<Command>)
    ensures [] + a == a && a + [] == a
  {
  }

  lemma WaitingOne(command: Command)
    ensures Waiting([command]) == Plain(command)
  {
    NothingAdded(Plain(command));
  }

  lemma HandledOne(to: Unit, command: Command, unit: Unit)
    ensures SentIn([Handled(to, command)]) == []
    ensures HandledIn([Handled(to, command)], unit) == if to == unit then Plain(command) else []
  {
    var deed := Handled(to, command);
    assert [deed][1..] == [];
    NothingAdded(Plain(command));
    assert [] + SentIn([]) == [];
    assert HandledIn([deed], unit) == (if to == unit then Plain(command) else []) + HandledIn([], unit);
  }

  //// Steps ////

  lemma {:induction false} SentDeeds(updates: seq<Update>, deeds: seq<Deed>, unit: Unit)
    requires |deeds| == |updates| && forall i :: 0 <= i < |deeds| ==> deeds[i] == Sent(updates[i])
    ensures SentIn(deeds) == updates && HandledIn(deeds, unit) == []
  {
    if deeds != [] {
      SentDeeds(updates[1..], deeds[1..], unit);
    }
  }

  lemma SendConserves(st: State, updates: seq<Update>, unit: Unit)
    requires Conserved(st, unit)
    ensures Conserved(Send(st, updates), unit)
  {
    var deeds := seq(|updates|, i requires 0 <= i < |updates| => Sent(updates[i]));
    SentDeeds(updates, deeds, unit);
    SentConcat(st.history, deeds);
    HandledConcat(st.history, deeds, unit);
    DirectConcat(SentIn(st.history), updates);
    DirectConcat(st.updates, updates);
    ForUnitConcat(DirectAll(SentIn(st.history)), DirectAll(updates), unit);
    ForUnitConcat(DirectAll(st.updates), DirectAll(updates), unit);
    assert HandledIn(st.history, unit) + [] == HandledIn(st.history, unit);
    Associate(HandledIn(st.history, unit), Waiting(Inbox(st, unit)), ForUnit(st.commands, unit),
              ForUnit(DirectAll(st.updates), unit), ForUnit(DirectAll(updates), unit));
  }

  lemma RecordConserves(st: State, deed: Deed, unit: Unit)
    requires Conserved(st, unit) && !deed.Sent? && !deed.Handled?
    ensures Conserved(Record(st, deed), unit)
  {
    SentConcat(st.history, [deed]);
    HandledConcat(st.history, [deed], unit);
    assert SentIn([deed]) == [] && HandledIn([deed], unit) == [];
    assert SentIn(st.history) + [] == SentIn(st.history);
    assert HandledIn(st.history, unit) + [] == HandledIn(st.history, unit);
  }

  lemma ReviewConserves(st: State, c: Addressed, unit: Unit)
    requires Conserved(st, unit) && c.1.HandleZoneReview?
    ensures Conserved(st.(commands := st.commands + [c]), unit)
  {
    ForUnitConcat(st.commands, [c], unit);
    assert [c][1..] == [] && ForUnit([c], unit) == [];
    assert ForUnit(st.commands, unit) + [] == ForUnit(st.commands, unit);
  }

  lemma TakeConserves(st: State, unit: Unit)
    requires Conserved(st, unit) && st.updates != []
    ensures Conserved(st.(updates := st.updates[1..], commands := st.commands + Direct(st.updates[0])), unit)
  {
    var direct := Direct(st.updates[0]);
    ForUnitConcat(st.commands, direct, unit);
    ForUnitConcat(direct, DirectAll(st.updates[1..]), unit);
    Regroup(ForUnit(st.commands, unit), ForUnit(direct, unit), ForUnit(DirectAll(st.updates[1..]), unit));
  }

  lemma ForwardConserves(st: State, a: Action, hooks: map<Unit, nat>, unit: Unit)
    requires Conserved(st, unit) && a.Forward? && Enabled(st, a, hooks)
    ensures Conserved(Next(st, a, hooks), unit)
  {
    var (to, command) := st.commands[0];
    var st' := Next(st, a, hooks);
    var (queued, coming) := (ForUnit(st.commands[1..], unit), ForUnit(DirectAll(st.updates), unit));
    if to == unit {
      ForwardedHere(st, st', command, unit);
    } else {
      NothingAdded(queued);
      assert Inbox(st', unit) == Inbox(st, unit);
    }
  }

  lemma ForwardedHere(st: State, st': State, command: Command, unit: Unit)
    requires Conserved(st, unit) && st.commands != [] && st.commands[0] == (unit, command)
    requires st' == st.(commands := st.commands[1..], inboxes := st.inboxes[unit := Inbox(st, unit) + [command]])
    ensures Conserved(st', unit)
  {
    var (queued, coming) := (ForUnit(st.commands[1..], unit), ForUnit(DirectAll(st.updates), unit));
    var waiting := Waiting(Inbox(st, unit));
    WaitingConcat(Inbox(st, unit), [command]);
    WaitingOne(command);
    assert Waiting(Inbox(st', unit)) == waiting + Plain(command);
    assert ForUnit(st.commands, unit) == Plain(command) + queued;
    Shift(waiting, Plain(command), queued, coming);
  }

  lemma HandledConserves(st: State, to: Unit, unit: Unit)
    requires Conserved(st, unit) && to in st.inboxes && st.inboxes[to] != []
    ensures var taken := st.(inboxes := st.inboxes[to := st.inboxes[to][1..]]);
            Conserved(Record(taken, Handled(to, st.inboxes[to][0])), unit)
  {
    var command := st.inboxes[to][0];
    var deed := Handled(to, command);
    var done := HandledIn(st.history, unit);
    SentConcat(st.history, [deed]);
    HandledConcat(st.history, [deed], unit);
    HandledOne(to, command, unit);
    assert SentIn(st.history) + [] == SentIn(st.history);
    if to == unit {
      var rest := ForUnit(st.commands, unit) + ForUnit(DirectAll(st.updates), unit);
      Shift(done, Plain(command), Waiting(st.inboxes[to][1..]), rest);
    } else {
      NothingAdded(done);
    }
  }

  lemma HandleConserves(st: State, a: Action, hooks: map<Unit, nat>, unit: Unit)
    requires Conserved(st, unit) && a.Handle? && Enabled(st, a, hooks)
    ensures Conserved(Next(st, a, hooks), unit)
  {
    var command := st.inboxes[a.unit][0];
    HandledConserves(st, a.unit, unit);
    var st' := Record(st.(inboxes := st.inboxes[a.unit := st.inboxes[a.unit][1..]]), Handled(a.unit, command));
    if a.unit in REVIEWERS {
      HandleReviewConserves(st', a.unit, command, a.started, unit);
    } else if a.unit == ZS {
      HandleSigningConserves(st', command, a.soa, unit);
    }
  }

  lemma HandleSigningConserves(st: State, command: Command, soa: bool, unit: Unit)
    requires Conserved(st, unit)
    ensures Conserved(HandleSigning(st, command, soa), unit)
  {
    match command {
      case SignZone(zone, serial) =>
        var toSign := SerialToSign(st, zone, serial.None?);
        if toSign.Some? {
          var found := GetOrInsertSigned(st, zone);
          RecordConserves(found.(signing := Some(Signing(zone, found.signed[zone], toSign.value))),
                          SigningStarted(zone, serial.None?), unit);
        }
      case _ =>
    }
  }

  lemma HandleReviewConserves(st: State, to: Unit, command: Command, started: seq<bool>, unit: Unit)
    requires Conserved(st, unit) && to in st.reviews
    ensures Conserved(HandleReview(st, to, command, started), unit)
  {
    match command {
      case SeekApprovalForUnsignedZone(key) =>
        SettleConserves(st, to, Seek(st.reviews[to], key, started), unit);
      case SeekApprovalForSignedZone(key) =>
        SettleConserves(st, to, Seek(st.reviews[to], key, started), unit);
      case HandleZoneReview(key, token, operation) =>
        SettleConserves(st, to, ProcessRequest(st.reviews[to], key, token, operation), unit);
      case PublishSignedZone(key) =>
        if key.zone in st.signed {
          RecordConserves(Publish(st, key.zone), Deed.Published(key), unit);
        }
      case _ =>
    }
  }

  lemma SettleConserves(st: State, to: Unit, result: Result, unit: Unit)
    requires Conserved(st, unit)
    ensures Conserved(Settle(st, to, result), unit)
  {
    if SourceOf(to) != PublishedZones {
      SendConserves(st.(reviews := st.reviews[to := result.reviews]), Updates(SourceOf(to), result.observed), unit);
    }
  }

  lemma StepConserves(st: State, a: Action, hooks: map<Unit, nat>, unit: Unit)
    requires Conserved(st, unit) && Enabled(st, a, hooks)
    ensures Conserved(Next(st, a, hooks), unit)
  {
    match a {
      case Load(key) =>
        SendConserves(st.(unsigned := st.unsigned[key.zone := key.serial]), [UnsignedZoneUpdated(key)], unit);
      case Notice(update) => SendConserves(st, [update], unit);
      case Review(to, key, token, operation) =>
        ReviewConserves(st, (to, HandleZoneReview(key, token, operation)), unit);
      case TakeUpdate => TakeConserves(st, unit);
      case Forward => ForwardConserves(st, a, hooks, unit);
      case Handle(_, _, _) => HandleConserves(st, a, hooks, unit);
      case EndSigning(succeeded) =>
        if succeeded {
          var done := st.signing.value;
          RecordConserves(st.(signing := None), Committed(done.zone, Version(done.serial, st.versions)), unit);
          SendConserves(Commit(st.(signing := None), done), [ZoneSigned(Key(done.zone, done.serial))], unit);
        }
    }
  }

  lemma {:induction false} RunConserves(st: State, actions: seq<Action>, hooks: map<Unit, nat>, unit: Unit)
    requires Conserved(st, unit) && IsRun(st, actions, hooks)
    ensures Conserved(Run(st, actions, hooks), unit)
    decreases |actions|
  {
    if actions != [] {
      StepConserves(st, actions[0], hooks, unit);
      RunConserves(Next(st, actions[0], hooks), actions[1..], hooks, unit);
    }
  }

  /** In every run and for every unit: what the updates sent have for the unit is what it took and what is
      still queued for it, in the order of sending.  Once its queues are empty, it took exactly that. */
  lemma NothingIsLostOrOvertaken(actions: seq<Action>, hooks: map<Unit, nat>, unit: Unit)
    requires IsRun(INIT, actions, hooks)
    ensures var st := Run(INIT, actions, hooks);
            && Conserved(st, unit)
            && HandledIn(st.history, unit) <= ForUnit(DirectAll(SentIn(st.history)), unit)
            && (st.updates == [] && st.commands == [] && Inbox(st, unit) == [] ==>
                  HandledIn(st.history, unit) == ForUnit(DirectAll(SentIn(st.history)), unit))
  {
    RunConserves(INIT, actions, hooks, unit);
  }
}
