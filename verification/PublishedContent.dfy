/** When the published content of a zone is the content that was approved. */
module PublishedContent {
  import opened Options
  import opened Payload
  import opened ReviewServer
  import opened Pipeline

  /** No two zones share an object, no signed zone is a published one, and the signer's object is that of its
      own zone. */
  ghost predicate ObjectsOk(st: State) {
    && (forall z :: z in st.signed ==> st.signed[z] < |st.contents|)
    && (forall z :: z in st.published ==> st.published[z] < |st.contents|)
    && (forall z, y :: z in st.signed && y in st.signed && st.signed[z] == st.signed[y] ==> z == y)
    && (forall z, y :: z in st.published && y in st.published && st.published[z] == st.published[y] ==> z == y)
    && (forall z, y :: z in st.signed && y in st.published ==> st.signed[z] != st.published[y])
    && (st.signing.Some? ==>
          var (z, o) := (st.signing.value.zone, st.signing.value.target);
          (z in st.signed && st.signed[z] == o) || (z in st.published && st.published[z] == o))
  }

  lemma PublishKeepsObjects(st: State, zone: string)
    requires ObjectsOk(st) && zone in st.signed
    requires st.signing.Some? && zone in st.published ==> st.signing.value.target != st.published[zone]
    ensures ObjectsOk(Publish(st, zone))
  {
  }

  /** While the signer works on a published object, its zone has no other object to publish. */
  ghost predicate SignerOk(st: State) {
    st.signing.Some? && st.signing.value.zone in st.published
    && st.published[st.signing.value.zone] == st.signing.value.target ==>
      st.signing.value.zone !in st.signed
  }

  /** Contents are of versions made so far, and those of signed zones were committed for their zones. */
  ghost predicate VersionsOk(st: State) {
    && (forall o: nat :: o < |st.contents| && st.contents[o].Some? ==> st.contents[o].value.number < st.versions)
    && (forall z :: z in st.signed && Content(st, st.signed[z]).Some? ==>
          Committed(z, Content(st, st.signed[z]).value) in st.history)
  }

  ghost predicate Ok(st: State) {
    ObjectsOk(st) && SignerOk(st) && VersionsOk(st)
  }

  ghost predicate SameObjects(st: State, st': State) {
    && st'.signed == st.signed && st'.published == st.published && st'.contents == st.contents
    && st'.versions == st.versions && st'.signing == st.signing
    && (forall d :: d in st.history ==> d in st'.history)
  }

  lemma OkSame(st: State, st': State)
    requires Ok(st) && SameObjects(st, st')
    ensures Ok(st')
  {
  }

  lemma SettleKeepsObjects(st: State, unit: Unit, result: Result)
    ensures SameObjects(st, Settle(st, unit, result))
  {
  }

  lemma InsertKeepsOk(st: State, zone: string)
    requires Ok(st) && st.signing.None?
    ensures Ok(GetOrInsertSigned(st, zone))
  {
    var found := GetOrInsertSigned(st, zone);
    if zone !in st.signed {
      InsertKeepsVersions(st, zone);
      forall z, y | z in found.signed && y in found.published ensures found.signed[z] != found.published[y] {
        assert z != zone ==> z in st.signed;
      }
      forall z, y | z in found.signed && y in found.signed && found.signed[z] == found.signed[y] ensures z == y {
        assert (z != zone ==> z in st.signed) && (y != zone ==> y in st.signed);
      }
    }
  }

  lemma InsertKeepsVersions(st: State, zone: string)
    requires Ok(st) && zone !in st.signed
    ensures VersionsOk(GetOrInsertSigned(st, zone))
  {
    var found := GetOrInsertSigned(st, zone);
    assert forall o: nat :: Content(found, o) == Content(st, o);
  }

  lemma WorkKeepsOk(st: State, zone: string, serial: nat)
    requires Ok(st) && st.signing.None? && zone in st.signed
    ensures Ok(st.(signing := Some(Signing(zone, st.signed[zone], serial))))
  {
  }

  lemma SigningKeepsOk(st: State, command: Command, soa: bool)
    requires Ok(st) && st.signing.None?
    ensures Ok(HandleSigning(st, command, soa))
  {
    match command
    case SignZone(zone, serial) =>
      InsertKeepsOk(st, zone);
      var toSign := SerialToSign(st, zone, serial.None?);
      if toSign.Some? {
        var found := GetOrInsertSigned(st, zone);
        WorkKeepsOk(found, zone, toSign.value);
        var working := found.(signing := Some(Signing(zone, found.signed[zone], toSign.value)));
        OkSame(working, Record(working, SigningStarted(zone, serial.None?)));
      }
    case _ =>
  }

  lemma StepKeepsOk(st: State, a: Action, hooks: map<Unit, nat>)
    requires Ok(st) && Enabled(st, a, hooks)
    ensures Ok(Next(st, a, hooks))
  {
    if a.Handle? {
      HandleKeepsOk(st, a, hooks);
    } else if a.EndSigning? {
      EndKeepsOk(st, a.succeeded, hooks);
    } else {
      OthersKeepObjects(st, a, hooks);
      OkSame(st, Next(st, a, hooks));
    }
  }

  lemma EndKeepsOk(st: State, succeeded: bool, hooks: map<Unit, nat>)
    requires Ok(st) && Enabled(st, EndSigning(succeeded), hooks)
    ensures Ok(Next(st, EndSigning(succeeded), hooks))
  {
    if succeeded {
      var done, idle := st.signing.value, st.(signing := None);
      var committed := Commit(idle, done);
      CommitKeepsObjects(st, done);
      CommitKeepsVersions(st, done);
      OkSame(committed, Send(committed, [ZoneSigned(Key(done.zone, done.serial))]));
    }
  }

  lemma CommitKeepsObjects(st: State, done: Signing)
    requires ObjectsOk(st)
    ensures ObjectsOk(Commit(st.(signing := None), done))
  {
    assert |Commit(st, done).contents| == |st.contents|;
  }

  lemma CommitKeepsVersions(st: State, done: Signing)
    requires Ok(st) && st.signing == Some(done)
    ensures VersionsOk(Commit(st.(signing := None), done))
  {
    var st' := Commit(st.(signing := None), done);
    var version := Version(done.serial, st.versions);
    forall o: nat | o < |st'.contents| && st'.contents[o].Some?
      ensures st'.contents[o].value.number < st'.versions
    {
      assert o != done.target ==> st'.contents[o] == st.contents[o];
    }
    forall z | z in st'.signed && Content(st', st'.signed[z]).Some?
      ensures Committed(z, Content(st', st'.signed[z]).value) in st'.history
    {
      if st.signed[z] == done.target {
        assert z == done.zone;
      } else {
        assert Content(st', st.signed[z]) == Content(st, st.signed[z]);
      }
    }
  }

  lemma OthersKeepObjects(st: State, a: Action, hooks: map<Unit, nat>)
    requires Enabled(st, a, hooks) && !a.Handle? && !a.EndSigning?
    ensures SameObjects(st, Next(st, a, hooks))
  {
  }

  lemma HandleKeepsOk(st: State, a: Action, hooks: map<Unit, nat>)
    requires Ok(st) && Enabled(st, a, hooks) && a.Handle?
    ensures Ok(Next(st, a, hooks))
  {
    var command := st.inboxes[a.unit][0];
    var taken := Record(st.(inboxes := st.inboxes[a.unit := st.inboxes[a.unit][1..]]), Handled(a.unit, command));
    OkSame(st, taken);
    if a.unit in REVIEWERS {
      ReviewKeepsOk(taken, a.unit, command, a.started);
    } else if a.unit == ZS {
      SigningKeepsOk(taken, command, a.soa);
    }
  }

  lemma SettleKeepsOk(st: State, unit: Unit, result: Result)
    requires Ok(st)
    ensures Ok(Settle(st, unit, result))
  {
    SettleKeepsObjects(st, unit, result);
    OkSame(st, Settle(st, unit, result));
  }

  lemma PublishKeepsOk(st: State, zone: string)
    requires Ok(st) && zone in st.signed
    ensures Ok(Publish(st, zone))
  {
    PublishKeepsObjects(st, zone);
    assert forall o: nat :: Content(Publish(st, zone), o) == Content(st, o);
  }

  lemma ReviewKeepsOk(st: State, unit: Unit, command: Command, started: seq<bool>)
    requires Ok(st) && unit in st.reviews
    ensures Ok(HandleReview(st, unit, command, started))
  {
    match command {
      case SeekApprovalForUnsignedZone(key) => SettleKeepsOk(st, unit, Seek(st.reviews[unit], key, started));
      case SeekApprovalForSignedZone(key) => SettleKeepsOk(st, unit, Seek(st.reviews[unit], key, started));
      case HandleZoneReview(key, token, operation) =>
        SettleKeepsOk(st, unit, ProcessRequest(st.reviews[unit], key, token, operation));
      case PublishSignedZone(key) =>
        if key.zone in st.signed {
          PublishKeepsOk(st, key.zone);
          OkSame(Publish(st, key.zone), Record(Publish(st, key.zone), Deed.Published(key)));
        }
      case _ =>
    }
  }

  lemma {:induction false} RunKeepsOk(st: State, actions: seq<Action>, hooks: map<Unit, nat>)
    requires Ok(st) && IsRun(st, actions, hooks)
    ensures Ok(Run(st, actions, hooks))
    decreases |actions|
  {
    if actions != [] {
      StepKeepsOk(st, actions[0], hooks);
      RunKeepsOk(Next(st, actions[0], hooks), actions[1..], hooks);
    }
  }

  //// What is shown ////

  /** The published zone has this content. */
  predicate Shows(st: State, zone: string, version: Version) {
    zone in st.published && Content(st, st.published[zone]) == Some(version)
  }

  /** ... and the signer is not about to change it. */
  predicate Settled(st: State, zone: string, version: Version) {
    Shows(st, zone, version) && !(st.signing.Some? && st.signing.value.target == st.published[zone])
  }

  /** The step publishes the zone anew. */
  predicate Publishes(st: State, a: Action, zone: string) {
    && a.Handle? && a.unit in REVIEWERS && a.unit in st.inboxes && st.inboxes[a.unit] != []
    && st.inboxes[a.unit][0].PublishSignedZone? && st.inboxes[a.unit][0].key.zone == zone
  }

  /** A run in which the zone is not published anew. */
  predicate Undisturbed(st: State, actions: seq<Action>, hooks: map<Unit, nat>, zone: string)
    requires IsRun(st, actions, hooks)
    decreases |actions|
  {
    actions == [] ||
    (!Publishes(st, actions[0], zone) && Undisturbed(Next(st, actions[0], hooks), actions[1..], hooks, zone))
  }

  lemma SettledByHandling(st: State, a: Action, hooks: map<Unit, nat>, zone: string, version: Version)
    requires Ok(st) && Enabled(st, a, hooks) && a.Handle? && Settled(st, zone, version) && !Publishes(st, a, zone)
    ensures Settled(Next(st, a, hooks), zone, version)
  {
    var command := st.inboxes[a.unit][0];
    var taken := Record(st.(inboxes := st.inboxes[a.unit := st.inboxes[a.unit][1..]]), Handled(a.unit, command));
    OkSame(st, taken);
    if a.unit in REVIEWERS {
      SettledByReview(taken, a.unit, command, a.started, zone, version);
    } else if a.unit == ZS {
      SettledBySigning(taken, command, a.soa, zone, version);
    }
  }

  lemma SettledByReview(st: State, unit: Unit, command: Command, started: seq<bool>, zone: string, version: Version)
    requires Ok(st) && unit in st.reviews && Settled(st, zone, version)
    requires !(command.PublishSignedZone? && command.key.zone == zone)
    ensures Settled(HandleReview(st, unit, command, started), zone, version)
  {
    match command {
      case SeekApprovalForUnsignedZone(key) => SettleKeepsObjects(st, unit, Seek(st.reviews[unit], key, started));
      case SeekApprovalForSignedZone(key) => SettleKeepsObjects(st, unit, Seek(st.reviews[unit], key, started));
      case HandleZoneReview(key, token, operation) =>
        SettleKeepsObjects(st, unit, ProcessRequest(st.reviews[unit], key, token, operation));
      case _ =>
    }
  }

  lemma SettledBySigning(st: State, command: Command, soa: bool, zone: string, version: Version)
    requires Ok(st) && st.signing.None? && Settled(st, zone, version)
    ensures Settled(HandleSigning(st, command, soa), zone, version)
  {
  }

  lemma SettledStays(st: State, a: Action, hooks: map<Unit, nat>, zone: string, version: Version)
    requires Ok(st) && Enabled(st, a, hooks) && Settled(st, zone, version) && !Publishes(st, a, zone)
    ensures Settled(Next(st, a, hooks), zone, version)
  {
    if a.Handle? {
      SettledByHandling(st, a, hooks, zone, version);
    } else if !a.EndSigning? {
      OthersKeepObjects(st, a, hooks);
    }
  }

  lemma {:induction false} SettledInRuns(st: State, actions: seq<Action>, hooks: map<Unit, nat>, zone: string,
                                         version: Version)
    requires Ok(st) && IsRun(st, actions, hooks) && Undisturbed(st, actions, hooks, zone) && Settled(st, zone, version)
    ensures Settled(Run(st, actions, hooks), zone, version)
    decreases |actions|
  {
    if actions != [] {
      StepKeepsOk(st, actions[0], hooks);
      SettledStays(st, actions[0], hooks, zone, version);
      SettledInRuns(Next(st, actions[0], hooks), actions[1..], hooks, zone, version);
    }
  }

  /** The zone shows this content now and until it is published anew. */
  ghost predicate ShowsFromNowOn(st: State, hooks: map<Unit, nat>, zone: string, version: Version) {
    forall actions :: IsRun(st, actions, hooks) && Undisturbed(st, actions, hooks, zone) ==>
      Shows(Run(st, actions, hooks), zone, version)
  }

  lemma ShowsFromNowOnIffSettled(st: State, hooks: map<Unit, nat>, zone: string, version: Version)
    requires Ok(st) && !st.panicked
    ensures ShowsFromNowOn(st, hooks, zone, version) <==> Settled(st, zone, version)
  {
    if Settled(st, zone, version) {
      forall actions | IsRun(st, actions, hooks) && Undisturbed(st, actions, hooks, zone)
        ensures Shows(Run(st, actions, hooks), zone, version)
      {
        SettledInRuns(st, actions, hooks, zone, version);
      }
    } else if !Shows(st, zone, version) {
      assert IsRun(st, [], hooks) && Undisturbed(st, [], hooks, zone) && Run(st, [], hooks) == st;
    } else {
      var end := [EndSigning(true)];
      assert end[1..] == [];
      assert IsRun(st, end, hooks) && Undisturbed(st, end, hooks, zone);
      assert Run(st, end, hooks) == Next(st, end[0], hooks);
    }
  }

  /** What publication would have to check: the signed zone still has this content, and the signer is not about to
      give it another. */
  predicate Unchanged(st: State, zone: string, version: Version)
    requires zone in st.signed
  {
    && Content(st, st.signed[zone]) == Some(version)
    && !(st.signing.Some? && st.signing.value.target == st.signed[zone])
  }

  /** In every run: publishing a zone shows a version of it, until the zone is published anew, exactly if the
      signed zone still has this version, and not just its serial, and is not being signed again. */
  lemma PublicationShowsVersionIff(actions: seq<Action>, hooks: map<Unit, nat>, a: Action, zone: string,
                                   version: Version)
    requires IsRun(INIT, actions, hooks)
    requires var st := Run(INIT, actions, hooks);
             Enabled(st, a, hooks) && Publishes(st, a, zone) && zone in st.signed
    ensures var st := Run(INIT, actions, hooks);
            ShowsFromNowOn(Next(st, a, hooks), hooks, zone, version) <==> Unchanged(st, zone, version)
  {
    ReachableIsOk(actions, hooks);
    PublishingSettlesIff(Run(INIT, actions, hooks), a, hooks, zone, version);
  }

  lemma PublishingSettlesIff(st: State, a: Action, hooks: map<Unit, nat>, zone: string, version: Version)
    requires Ok(st) && Enabled(st, a, hooks) && Publishes(st, a, zone) && zone in st.signed
    ensures ShowsFromNowOn(Next(st, a, hooks), hooks, zone, version) <==> Unchanged(st, zone, version)
  {
    StepKeepsOk(st, a, hooks);
    ShowsFromNowOnIffSettled(Next(st, a, hooks), hooks, zone, version);
  }

  /** The version is one that was announced as this zone at this serial: by then it had been committed. */
  predicate Announced(h: seq<Deed>, key: Key, version: Version) {
    version.serial == key.serial && Committed(key.zone, version) in h
  }

  ghost predicate ShowsAnnounced(st: State, hooks: map<Unit, nat>, h: seq<Deed>, key: Key) {
    exists version: Version :: Announced(h, key, version) && ShowsFromNowOn(st, hooks, key.zone, version)
  }

  /** In every run: publishing at an approved serial shows a version announced at this serial, until the zone is
      published anew, exactly if the signed zone has content of this serial and is not being signed again. */
  lemma PublicationShowsTheApprovedIff(actions: seq<Action>, hooks: map<Unit, nat>, a: Action, key: Key)
    requires IsRun(INIT, actions, hooks)
    requires var st := Run(INIT, actions, hooks);
             && Enabled(st, a, hooks) && Publishes(st, a, key.zone) && st.inboxes[a.unit][0].key == key
             && key.zone in st.signed
    ensures var st := Run(INIT, actions, hooks);
            ShowsAnnounced(Next(st, a, hooks), hooks, st.history, key) <==>
              exists version: Version :: version.serial == key.serial && Unchanged(st, key.zone, version)
  {
    ReachableIsOk(actions, hooks);
    var st := Run(INIT, actions, hooks);
    if version: Version :| version.serial == key.serial && Unchanged(st, key.zone, version) {
      PublishingSettlesIff(st, a, hooks, key.zone, version);
      assert Announced(st.history, key, version);
    }
    if ShowsAnnounced(Next(st, a, hooks), hooks, st.history, key) {
      var version :| Announced(st.history, key, version)
                     && ShowsFromNowOn(Next(st, a, hooks), hooks, key.zone, version);
      PublishingSettlesIff(st, a, hooks, key.zone, version);
    }
  }

  /** In every run signed and published zones share no object, and the signer writes to an object of its zone. */
  lemma ReachableIsOk(actions: seq<Action>, hooks: map<Unit, nat>)
    requires IsRun(INIT, actions, hooks)
    ensures Ok(Run(INIT, actions, hooks))
  {
    RunKeepsOk(INIT, actions, hooks);
  }
}
