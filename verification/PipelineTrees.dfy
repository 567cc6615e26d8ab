/** Which zones are signed and which are published, told from what was done. */
module PipelineTrees {
  import opened Options
  import opened Payload
  import opened ReviewServer
  import opened Pipeline

  /** The deed changes where the zone is. */
  predicate Moves(deed: Deed, zone: string) {
    (deed.SigningStarted? && deed.zone == zone) || (deed.Published? && deed.key.zone == zone)
  }

  /** The last of a zone's signings and publications was a signing. */
  predicate AwaitsPublication(h: seq<Deed>, zone: string) {
    h != [] &&
    var last := h[|h| - 1];
    if Moves(last, zone) then last.SigningStarted? else AwaitsPublication(h[..|h| - 1], zone)
  }

  predicate EverPublished(h: seq<Deed>, zone: string) {
    h != [] &&
    var last := h[|h| - 1];
    (last.Published? && last.key.zone == zone) || EverPublished(h[..|h| - 1], zone)
  }

  predicate Placed(st: State, zone: string) {
    && (zone in st.signed <==> AwaitsPublication(st.history, zone))
    && (zone in st.published <==> EverPublished(st.history, zone))
  }

  lemma {:induction false} NoMove(h: seq<Deed>, more: seq<Deed>, zone: string)
    requires forall d :: d in more ==> !Moves(d, zone)
    ensures AwaitsPublication(h + more, zone) == AwaitsPublication(h, zone)
    ensures EverPublished(h + more, zone) == EverPublished(h, zone)
    decreases |more|
  {
    if more == [] {
      assert h + more == h;
    } else {
      var n := |more| - 1;
      assert (h + more)[..|h + more| - 1] == h + more[..n] && (h + more)[|h + more| - 1] == more[n];
      NoMove(h, more[..n], zone);
    }
  }

  lemma Recorded(h: seq<Deed>, deed: Deed, zone: string)
    requires Moves(deed, zone)
    ensures AwaitsPublication(h + [deed], zone) == deed.SigningStarted?
    ensures EverPublished(h + [deed], zone) == (deed.Published? || EverPublished(h, zone))
  {
    assert (h + [deed])[..|h|] == h;
  }

  lemma SendKeeps(st: State, updates: seq<Update>, zone: string)
    requires Placed(st, zone)
    ensures Placed(Send(st, updates), zone)
  {
    var deeds := seq(|updates|, i requires 0 <= i < |updates| => Sent(updates[i]));
    NoMove(st.history, deeds, zone);
  }

  lemma SettleKeeps(st: State, unit: Unit, result: Result, zone: string)
    requires Placed(st, zone)
    ensures Placed(Settle(st, unit, result), zone)
  {
    if SourceOf(unit) != PublishedZones {
      SendKeeps(st.(reviews := st.reviews[unit := result.reviews]), Updates(SourceOf(unit), result.observed), zone);
    }
  }

  lemma HandleReviewKeeps(st: State, unit: Unit, command: Command, started: seq<bool>, zone: string)
    requires Placed(st, zone) && unit in st.reviews
    ensures Placed(HandleReview(st, unit, command, started), zone)
  {
    match command {
      case SeekApprovalForUnsignedZone(key) => SettleKeeps(st, unit, Seek(st.reviews[unit], key, started), zone);
      case SeekApprovalForSignedZone(key) => SettleKeeps(st, unit, Seek(st.reviews[unit], key, started), zone);
      case HandleZoneReview(key, token, operation) =>
        SettleKeeps(st, unit, ProcessRequest(st.reviews[unit], key, token, operation), zone);
      case PublishSignedZone(key) =>
        if key.zone in st.signed {
          if key.zone == zone {
            Recorded(st.history, Deed.Published(key), zone);
          } else {
            NoMove(st.history, [Deed.Published(key)], zone);
          }
        }
      case _ =>
    }
  }

  lemma HandleSigningKeeps(st: State, command: Command, soa: bool, zone: string)
    requires Placed(st, zone)
    ensures Placed(HandleSigning(st, command, soa), zone)
  {
    match command {
      case SignZone(z, serial) =>
        var deed := SigningStarted(z, serial.None?);
        var found := GetOrInsertSigned(st, z);
        assert zone in found.signed <==> zone in st.signed || z == zone;
        if z == zone {
          Recorded(st.history, deed, zone);
        } else {
          NoMove(st.history, [deed], zone);
        }
      case _ =>
    }
  }

  lemma HandleKeeps(st: State, a: Action, hooks: map<Unit, nat>, zone: string)
    requires Placed(st, zone) && Enabled(st, a, hooks) && a.Handle?
    ensures Placed(Next(st, a, hooks), zone)
  {
    var command := st.inboxes[a.unit][0];
    var taken := Record(st.(inboxes := st.inboxes[a.unit := st.inboxes[a.unit][1..]]), Handled(a.unit, command));
    NoMove(st.history, [Handled(a.unit, command)], zone);
    if a.unit in REVIEWERS {
      HandleReviewKeeps(taken, a.unit, command, a.started, zone);
    } else if a.unit == ZS {
      HandleSigningKeeps(taken, command, a.soa, zone);
    }
  }

  lemma StepKeeps(st: State, a: Action, hooks: map<Unit, nat>, zone: string)
    requires Placed(st, zone) && Enabled(st, a, hooks)
    ensures Placed(Next(st, a, hooks), zone)
  {
    match a {
      case Load(key) =>
        SendKeeps(st.(unsigned := st.unsigned[key.zone := key.serial]), [UnsignedZoneUpdated(key)], zone);
      case Notice(update) => SendKeeps(st, [update], zone);
      case Review(_, _, _, _) =>
      case TakeUpdate =>
      case Forward =>
      case Handle(unit, started, soa) =>
        HandleKeeps(st, a, hooks, zone);
      case EndSigning(succeeded) =>
        if succeeded {
          var done := st.signing.value;
          NoMove(st.history, [Committed(done.zone, Version(done.serial, st.versions))], zone);
          SendKeeps(Commit(st.(signing := None), done), [ZoneSigned(Key(done.zone, done.serial))], zone);
        }
    }
  }

  lemma {:induction false} RunKeeps(st: State, actions: seq<Action>, hooks: map<Unit, nat>, zone: string)
    requires Placed(st, zone) && IsRun(st, actions, hooks)
    ensures Placed(Run(st, actions, hooks), zone)
    decreases |actions|
  {
    if actions != [] {
      StepKeeps(st, actions[0], hooks, zone);
      RunKeeps(Next(st, actions[0], hooks), actions[1..], hooks, zone);
    }
  }

  /** In every run a zone is among the signed zones exactly if it was last signed after it was last published,
      whether or not that signing succeeded, and among the published zones exactly if it was ever published:
      nothing takes a zone back. */
  lemma TreesFollowHistory(actions: seq<Action>, hooks: map<Unit, nat>, zone: string)
    requires IsRun(INIT, actions, hooks)
    ensures var st := Run(INIT, actions, hooks);
            && (zone in st.signed <==> AwaitsPublication(st.history, zone))
            && (zone in st.published <==> EverPublished(st.history, zone))
  {
    RunKeeps(INIT, actions, hooks, zone);
  }
}
