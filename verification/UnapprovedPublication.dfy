/** A run in which content is published whose signed form nobody approved. */
module UnapprovedPublication {
  import opened Options
  import opened Payload
  import opened ReviewServer
  import opened Pipeline
  import opened PublishedContent

  const Z: string := "example"
  const FIRST: Key := Key(Z, 1)
  const SECOND: Key := Key(Z, 2)
  const NO_HOOKS: map<Unit, nat> := map[RS := 0, RS2 := 0, PS := 0]

  /** The zone's second version is signed while the approval of the first signed version is under way. */
  function Overtaking(): seq<Action> {
    [Load(FIRST), TakeUpdate, Forward, Handle(RS, [], true), TakeUpdate, Forward, Handle(ZS, [], true),
     EndSigning(true), Load(SECOND), TakeUpdate, Forward, TakeUpdate, Forward, Handle(RS, [], true), TakeUpdate,
     Forward, Handle(ZS, [], true), EndSigning(true), Handle(RS2, [], true), TakeUpdate, Forward, TakeUpdate, Forward,
     Handle(PS, [], true)]
  }

  datatype View = View(updates: seq<Update>, commands: seq<Addressed>, rs: seq<Command>, zs: seq<Command>,
                       rs2: seq<Command>, ps: seq<Command>)

  /** The queues after so many steps. */
  function Queues(n: nat): View {
    match n
    case 1 => View([UnsignedZoneUpdated(FIRST)], [], [], [], [], [])
    case 2 => View([], [(RS, SeekApprovalForUnsignedZone(FIRST))], [], [], [], [])
    case 3 => View([], [], [SeekApprovalForUnsignedZone(FIRST)], [], [], [])
    case 4 => View([UnsignedZoneApproved(FIRST)], [], [], [], [], [])
    case 5 => View([], [(ZS, SignZone(Z, Some(1)))], [], [], [], [])
    case 6 => View([], [], [], [SignZone(Z, Some(1))], [], [])
    case 8 => View([ZoneSigned(FIRST)], [], [], [], [], [])
    case 9 => View([ZoneSigned(FIRST), UnsignedZoneUpdated(SECOND)], [], [], [], [], [])
    case 10 => View([UnsignedZoneUpdated(SECOND)], [(RS2, SeekApprovalForSignedZone(FIRST))], [], [], [], [])
    case 11 => View([UnsignedZoneUpdated(SECOND)], [], [], [], [SeekApprovalForSignedZone(FIRST)], [])
    case 12 => View([], [(RS, SeekApprovalForUnsignedZone(SECOND))], [], [], [SeekApprovalForSignedZone(FIRST)], [])
    case 13 => View([], [], [SeekApprovalForUnsignedZone(SECOND)], [], [SeekApprovalForSignedZone(FIRST)], [])
    case 14 => View([UnsignedZoneApproved(SECOND)], [], [], [], [SeekApprovalForSignedZone(FIRST)], [])
    case 15 => View([], [(ZS, SignZone(Z, Some(2)))], [], [], [SeekApprovalForSignedZone(FIRST)], [])
    case 16 => View([], [], [], [SignZone(Z, Some(2))], [SeekApprovalForSignedZone(FIRST)], [])
    case 17 => View([], [], [], [], [SeekApprovalForSignedZone(FIRST)], [])
    case 18 => View([ZoneSigned(SECOND)], [], [], [], [SeekApprovalForSignedZone(FIRST)], [])
    case 19 => View([ZoneSigned(SECOND), SignedZoneApproved(FIRST)], [], [], [], [], [])
    case 20 => View([SignedZoneApproved(FIRST)], [(RS2, SeekApprovalForSignedZone(SECOND))], [], [], [], [])
    case 21 => View([SignedZoneApproved(FIRST)], [], [], [], [SeekApprovalForSignedZone(SECOND)], [])
    case 22 => View([], [(PS, PublishSignedZone(FIRST))], [], [], [SeekApprovalForSignedZone(SECOND)], [])
    case 23 => View([], [], [], [], [SeekApprovalForSignedZone(SECOND)], [PublishSignedZone(FIRST)])
    case 24 => View([], [], [], [], [SeekApprovalForSignedZone(SECOND)], [])
    case _ => View([], [], [], [], [], [])
  }

  ghost predicate Reached(st: State, n: nat) {
    && st.inboxes.Keys == {ZL, KM, ZS, RS, RS2, PS}
    && View(st.updates, st.commands, st.inboxes[RS], st.inboxes[ZS], st.inboxes[RS2], st.inboxes[PS]) == Queues(n)
    && st.reviews == INIT.reviews && !st.panicked && Sent(SignedZoneApproved(SECOND)) !in st.history
    && st.unsigned == (if n == 0 then map[] else if n <= 8 then map[Z := 1] else map[Z := 2])
    && st.signed == (if 7 <= n <= 23 then map[Z := 0] else map[])
    && st.published == (if n == 24 then map[Z := 0] else map[])
    && st.contents == (if n < 7 then [] else if n == 7 then [None]
                       else if n < 18 then [Some(Version(1, 0))] else [Some(Version(2, 1))])
    && st.versions == (if n < 8 then 0 else if n < 18 then 1 else 2)
    && st.signing == (if n == 7 then Some(Signing(Z, 0, 1)) else if n == 17 then Some(Signing(Z, 0, 2)) else None)
  }

  ghost predicate Advances(st: State, n: nat)
    requires n < 24
  {
    Enabled(st, Overtaking()[n], NO_HOOKS) && Reached(Next(st, Overtaking()[n], NO_HOOKS), n + 1)
  }

  lemma OneSent(st: State, u: Update)
    ensures Send(st, [u]).updates == st.updates + [u] && Send(st, [u]).history == st.history + [Sent(u)]
  {
  }

  lemma LoadsAdvance(st: State, n: nat)
    requires n in {0, 8} && Reached(st, n)
    ensures Advances(st, n)
  {
    var key := if n == 0 then FIRST else SECOND;
    OneSent(st.(unsigned := st.unsigned[Z := key.serial]), UnsignedZoneUpdated(key));
  }

  /** Taking the first update, which becomes one command. */
  lemma TakesAs(st: State, update: Update, rest: seq<Update>, to: Addressed)
    requires st.updates == [update] + rest && st.commands == [] && Direct(update) == [to] && !st.panicked
    ensures Enabled(st, TakeUpdate, NO_HOOKS)
    ensures Next(st, TakeUpdate, NO_HOOKS) == st.(updates := rest, commands := [to])
  {
    assert ([update] + rest)[1..] == rest;
    var none: seq<Addressed> := [];
    assert none + [to] == [to];
  }

  lemma TakingEarlyAdvances(st: State, n: nat)
    requires n in {1, 4, 9, 11} && Reached(st, n)
    ensures Advances(st, n)
  {
    if n == 1 {
      TakesAs(st, UnsignedZoneUpdated(FIRST), [], (RS, SeekApprovalForUnsignedZone(FIRST)));
    } else if n == 4 {
      TakesAs(st, UnsignedZoneApproved(FIRST), [], (ZS, SignZone(Z, Some(1))));
    } else if n == 9 {
      TakesAs(st, ZoneSigned(FIRST), [UnsignedZoneUpdated(SECOND)], (RS2, SeekApprovalForSignedZone(FIRST)));
    } else {
      TakesAs(st, UnsignedZoneUpdated(SECOND), [], (RS, SeekApprovalForUnsignedZone(SECOND)));
    }
  }

  lemma TakingLateAdvances(st: State, n: nat)
    requires n in {14, 19, 21} && Reached(st, n)
    ensures Advances(st, n)
  {
    if n == 14 {
      TakesAs(st, UnsignedZoneApproved(SECOND), [], (ZS, SignZone(Z, Some(2))));
    } else if n == 19 {
      TakesAs(st, ZoneSigned(SECOND), [SignedZoneApproved(FIRST)], (RS2, SeekApprovalForSignedZone(SECOND)));
    } else {
      TakesAs(st, SignedZoneApproved(FIRST), [], (PS, PublishSignedZone(FIRST)));
    }
  }

  /** Forwarding the only command to an empty inbox. */
  lemma ForwardsAs(st: State, unit: Unit, command: Command)
    requires st.commands == [(unit, command)] && unit in st.inboxes && st.inboxes[unit] == [] && !st.panicked
    ensures Enabled(st, Forward, NO_HOOKS)
    ensures Next(st, Forward, NO_HOOKS) == st.(commands := [], inboxes := st.inboxes[unit := [command]])
  {
    assert st.commands[1..] == [];
    assert st.inboxes[unit] + [command] == [command];
  }

  lemma ForwardingEarlyAdvances(st: State, n: nat)
    requires n in {2, 5, 10} && Reached(st, n)
    ensures Advances(st, n)
  {
    if n == 2 {
      ForwardsAs(st, RS, SeekApprovalForUnsignedZone(FIRST));
    } else if n == 5 {
      ForwardsAs(st, ZS, SignZone(Z, Some(1)));
    } else {
      ForwardsAs(st, RS2, SeekApprovalForSignedZone(FIRST));
    }
  }

  lemma ForwardingLateAdvances(st: State, n: nat)
    requires n in {12, 15, 20, 22} && Reached(st, n)
    ensures Advances(st, n)
  {
    if n == 12 {
      ForwardsAs(st, RS, SeekApprovalForUnsignedZone(SECOND));
    } else if n == 15 {
      ForwardsAs(st, ZS, SignZone(Z, Some(2)));
    } else if n == 20 {
      ForwardsAs(st, RS2, SeekApprovalForSignedZone(SECOND));
    } else {
      ForwardsAs(st, PS, PublishSignedZone(FIRST));
    }
  }

  lemma ApprovedAtOnce(st: State, unit: Unit, key: Key)
    requires unit in {RS, RS2} && unit in st.reviews && st.reviews[unit] == NO_REVIEWS
    ensures var approval := if unit == RS then UnsignedZoneApproved(key) else SignedZoneApproved(key);
            Settle(st, unit, Seek(st.reviews[unit], key, [])) ==
              st.(updates := st.updates + [approval], history := st.history + [Sent(approval)])
  {
    var observed := [Announced(key)];
    assert observed[1..] == [];
    var approval := if unit == RS then UnsignedZoneApproved(key) else SignedZoneApproved(key);
    assert Updates(SourceOf(unit), observed) == [approval] + [] == [approval];
    OneSent(st.(reviews := st.reviews[unit := NO_REVIEWS]), approval);
    assert st.reviews[unit := NO_REVIEWS] == st.reviews;
  }

  /** Taking and approving at once. */
  lemma ApprovesAs(st: State, unit: Unit, key: Key)
    requires unit in {RS, RS2} && st.reviews == INIT.reviews && !st.panicked && unit in st.inboxes
    requires st.inboxes[unit] ==
               [if unit == RS then SeekApprovalForUnsignedZone(key) else SeekApprovalForSignedZone(key)]
    ensures var a := Handle(unit, [], true);
            var taken := Record(st.(inboxes := st.inboxes[unit := []]), Handled(unit, st.inboxes[unit][0]));
            var approval := if unit == RS then UnsignedZoneApproved(key) else SignedZoneApproved(key);
            && Enabled(st, a, NO_HOOKS)
            && Next(st, a, NO_HOOKS) ==
                 taken.(updates := taken.updates + [approval], history := taken.history + [Sent(approval)])
  {
    assert st.inboxes[unit][1..] == [];
    var taken := Record(st.(inboxes := st.inboxes[unit := []]), Handled(unit, st.inboxes[unit][0]));
    ApprovedAtOnce(taken, unit, key);
  }

  lemma FirstReviewAdvances(st: State)
    requires Reached(st, 3)
    ensures Advances(st, 3)
  {
    ApprovesAs(st, RS, FIRST);
  }

  lemma SecondReviewAdvances(st: State)
    requires Reached(st, 13)
    ensures Advances(st, 13)
  {
    ApprovesAs(st, RS, SECOND);
  }

  lemma SignedReviewAdvances(st: State)
    requires Reached(st, 18)
    ensures Advances(st, 18)
  {
    ApprovesAs(st, RS2, FIRST);
  }

  /** Taking and starting to sign, for a zone that is signed already or is not. */
  lemma StartsAs(st: State, serial: nat)
    requires ZS in st.inboxes && st.inboxes[ZS] == [SignZone(Z, Some(serial))] && st.signing.None? && !st.panicked
    requires st.unsigned == map[Z := serial]
    ensures var a := Handle(ZS, [], true);
            var taken := Record(st.(inboxes := st.inboxes[ZS := []]), Handled(ZS, SignZone(Z, Some(serial))));
            var found := GetOrInsertSigned(taken, Z);
            && Enabled(st, a, NO_HOOKS)
            && Next(st, a, NO_HOOKS) ==
                 Record(found.(signing := Some(Signing(Z, found.signed[Z], serial))), SigningStarted(Z, false))
  {
    assert st.inboxes[ZS][1..] == [];
  }

  lemma FirstSigningStarts(st: State)
    requires Reached(st, 6)
    ensures Advances(st, 6)
  {
    StartsAs(st, 1);
  }

  lemma SecondSigningStarts(st: State)
    requires Reached(st, 16)
    ensures Advances(st, 16)
  {
    StartsAs(st, 2);
  }

  /** Ending the signing of the only object there is. */
  lemma EndsAs(st: State, key: Key)
    requires st.signing == Some(Signing(key.zone, 0, key.serial)) && |st.contents| == 1 && !st.panicked
    ensures Enabled(st, EndSigning(true), NO_HOOKS)
    ensures var version := Version(key.serial, st.versions);
            Next(st, EndSigning(true), NO_HOOKS) ==
              st.(signing := None, contents := [Some(version)], versions := st.versions + 1,
                  updates := st.updates + [ZoneSigned(key)],
                  history := st.history + [Committed(key.zone, version)] + [Sent(ZoneSigned(key))])
  {
    OneSent(Commit(st.(signing := None), st.signing.value), ZoneSigned(key));
    assert st.contents[0 := Some(Version(key.serial, st.versions))] == [Some(Version(key.serial, st.versions))];
  }

  lemma FirstSigningEnds(st: State)
    requires Reached(st, 7)
    ensures Advances(st, 7)
  {
    EndsAs(st, FIRST);
  }

  lemma SecondSigningEnds(st: State)
    requires Reached(st, 17)
    ensures Advances(st, 17)
  {
    EndsAs(st, SECOND);
  }

  /** Taking and publishing. */
  lemma PublishesAs(st: State)
    requires PS in st.inboxes && st.inboxes[PS] == [PublishSignedZone(FIRST)] && Z in st.signed && !st.panicked
    requires st.reviews == INIT.reviews
    ensures var a := Handle(PS, [], true);
            var taken := Record(st.(inboxes := st.inboxes[PS := []]), Handled(PS, PublishSignedZone(FIRST)));
            && Enabled(st, a, NO_HOOKS)
            && Next(st, a, NO_HOOKS) == Record(Publish(taken, Z), Deed.Published(FIRST))
  {
    assert st.inboxes[PS][1..] == [];
  }

  lemma PublishingAdvances(st: State)
    requires Reached(st, 23)
    ensures Advances(st, 23)
  {
    PublishesAs(st);
    assert map[Z := 0] - {Z} == map[];
  }

  lemma OneMoreStep(st: State, n: nat)
    requires n < 24 && Reached(st, n)
    ensures Advances(st, n)
  {
    if n in {0, 8} {
      LoadsAdvance(st, n);
    } else if n == 3 {
      FirstReviewAdvances(st);
    } else if n == 13 {
      SecondReviewAdvances(st);
    } else if n == 18 {
      SignedReviewAdvances(st);
    } else if n == 6 {
      FirstSigningStarts(st);
    } else if n == 16 {
      SecondSigningStarts(st);
    } else if n == 7 {
      FirstSigningEnds(st);
    } else if n == 17 {
      SecondSigningEnds(st);
    } else if n == 23 {
      PublishingAdvances(st);
    } else if n in {1, 4, 9, 11} {
      TakingEarlyAdvances(st, n);
    } else if n in {14, 19, 21} {
      TakingLateAdvances(st, n);
    } else if n <= 10 {
      ForwardingEarlyAdvances(st, n);
    } else {
      ForwardingLateAdvances(st, n);
    }
  }

  lemma OneStepThen(st: State, actions: seq<Action>, n: nat)
    requires n < |actions| && Enabled(st, actions[n], NO_HOOKS)
    requires IsRun(Next(st, actions[n], NO_HOOKS), actions[n + 1..], NO_HOOKS)
    ensures IsRun(st, actions[n..], NO_HOOKS)
    ensures Run(st, actions[n..], NO_HOOKS) == Run(Next(st, actions[n], NO_HOOKS), actions[n + 1..], NO_HOOKS)
  {
    assert actions[n..][0] == actions[n] && actions[n..][1..] == actions[n + 1..];
  }

  lemma {:induction false} RunFrom(st: State, n: nat)
    requires n <= 24 && Reached(st, n)
    ensures IsRun(st, Overtaking()[n..], NO_HOOKS) && Reached(Run(st, Overtaking()[n..], NO_HOOKS), 24)
    decreases 24 - n
  {
    if n < 24 {
      OneMoreStep(st, n);
      RunFrom(Next(st, Overtaking()[n], NO_HOOKS), n + 1);
      OneStepThen(st, Overtaking(), n);
    }
  }

  /** The condition on publication is needed: here the zone is published at its first version, with the content
      of the second one, whose signed form nobody approved. */
  lemma UnapprovedContentCanBePublished()
    ensures IsRun(INIT, Overtaking(), NO_HOOKS)
    ensures var st := Run(INIT, Overtaking(), NO_HOOKS);
            Shows(st, Z, Version(2, 1)) && Sent(SignedZoneApproved(SECOND)) !in st.history
  {
    RunFrom(INIT, 0);
    assert Overtaking()[0..] == Overtaking();
  }
}
