/**
 The way of a zone from loading to publication: units with their own command queues, a central command
 that turns each update into a command, and three review servers of which the last publishes.
 */
module Pipeline {
  import opened Options
  import opened Payload
  import opened ReviewServer

  /** Zone loader, key manager, zone signer, the review servers of unsigned and of signed zones, and the
      server of published zones. */
  datatype Unit = ZL | KM | ZS | RS | RS2 | PS

  datatype Command =
    | Changed(change: Change)
    | RefreshZone(zone: string, source: Option<string>, serial: Option<nat>)
    | SeekApprovalForUnsignedZone(key: Key)
    | SignZone(zone: string, serial: Option<nat>)
    | SeekApprovalForSignedZone(key: Key)
    | PublishSignedZone(key: Key)
    | HandleZoneReview(key: Key, token: Option<Token>, operation: Operation)

  type Addressed = (Unit, Command)

  /** The routing of the central command. */
  function Direct(update: Update): seq<Addressed> {
    match update
    case Changed(change) =>
      [(ZL, Command.Changed(change)), (RS, Command.Changed(change)), (KM, Command.Changed(change)),
       (ZS, Command.Changed(change)), (RS2, Command.Changed(change)), (PS, Command.Changed(change))]
    case RefreshZone(zone, source, serial) => [(ZL, Command.RefreshZone(zone, source, serial))]
    case UnsignedZoneUpdated(key) => [(RS, SeekApprovalForUnsignedZone(key))]
    case UnsignedZoneApproved(key) => [(ZS, SignZone(key.zone, Some(key.serial)))]
    case ResignZone(zone) => [(ZS, SignZone(zone, None))]
    case ZoneSigned(key) => [(RS2, SeekApprovalForSignedZone(key))]
    case SignedZoneApproved(key) => [(PS, PublishSignedZone(key))]
  }

  datatype Deed =
    | Sent(update: Update)
    | Handled(to: Unit, command: Command)
    | SigningStarted(zone: string, again: bool)
    | Committed(zone: string, version: Version)
    | Published(key: Key)

  type ZoneObject = nat

  /** One signing's content: its serial, and a number that no other signing has. */
  datatype Version = Version(serial: nat, number: nat)

  /** The signer at work: it writes to the object it found, wherever that object goes meanwhile. */
  datatype Signing = Signing(zone: string, target: ZoneObject, serial: nat)

  /**
   The unsigned zones have the serial of their content.  A signed zone is an object that the trees of signed
   and of published zones can share; `contents` has the version of each object's content, if it has any, and
   `versions` counts the versions made.
   */
  datatype State = State(
    updates: seq<Update>,
    commands: seq<Addressed>,
    inboxes: map<Unit, seq<Command>>,
    reviews: map<Unit, Reviews>,
    unsigned: map<string, nat>,
    signed: map<string, ZoneObject>,
    published: map<string, ZoneObject>,
    contents: seq<Option<Version>>,
    versions: nat,
    signing: Option<Signing>,
    panicked: bool,
    history: seq<Deed>)

  const REVIEWERS: set<Unit> := {RS, RS2, PS}

  const INIT := State([], [], map[ZL := [], KM := [], ZS := [], RS := [], RS2 := [], PS := []],
                      map[RS := NO_REVIEWS, RS2 := NO_REVIEWS, PS := NO_REVIEWS],
                      map[], map[], map[], [], 0, None, false, [])

  function SourceOf(unit: Unit): Source {
    match unit
    case RS => UnsignedZones
    case RS2 => SignedZones
    case _ => PublishedZones
  }

  datatype Action =
    /** The loader has a new version of a zone. */
    | Load(key: Key)
    /** The key manager, the publication server or the registry sends an update. */
    | Notice(update: Update)
    /** Someone hands back an approval token over HTTP. */
    | Review(unit: Unit, key: Key, token: Option<Token>, operation: Operation)
    /** The central command takes an update, or the forwarder a command. */
    | TakeUpdate
    | Forward
    /** A unit takes a command; `started` tells which hooks could be started, `soa` whether the zone to sign
        has an SOA. */
    | Handle(unit: Unit, started: seq<bool>, soa: bool)
    /** The signer is done; only if it succeeded has it changed the zone. */
    | EndSigning(succeeded: bool)

  predicate Enabled(st: State, a: Action, hooks: map<Unit, nat>) {
    && !st.panicked
    && match a
       case Load(_) => true
       case Notice(update) => update.Changed? || update.RefreshZone? || update.ResignZone?
       case Review(unit, _, _, _) => unit in REVIEWERS
       case TakeUpdate => st.updates != []
       case Forward => st.commands != []
       case Handle(unit, started, _) =>
         && unit in st.inboxes && st.inboxes[unit] != []
         && (unit in REVIEWERS ==> unit in st.reviews && unit in hooks && |started| == hooks[unit])
         && (unit == ZS ==> st.signing.None?)
       case EndSigning(_) => st.signing.Some?
  }

  function Send(st: State, updates: seq<Update>): State {
    var deeds := seq(|updates|, i requires 0 <= i < |updates| => Sent(updates[i]));
    st.(updates := st.updates + updates, history := st.history + deeds)
  }

  function Record(st: State, deed: Deed): State {
    st.(history := st.history + [deed])
  }

  /** The zone's object goes from the signed to the published zones. */
  function Publish(st: State, zone: string): State
    requires zone in st.signed
  {
    st.(published := st.published[zone := st.signed[zone]], signed := st.signed - {zone})
  }

  function Content(st: State, target: ZoneObject): Option<Version> {
    if target < |st.contents| then st.contents[target] else None
  }

  /** The signed zone's new content, with the serial found when signing started. */
  function Commit(st: State, done: Signing): State {
    var version := Version(done.serial, st.versions);
    var contents := if done.target < |st.contents| then st.contents[done.target := Some(version)] else st.contents;
    Record(st.(contents := contents, versions := st.versions + 1), Committed(done.zone, version))
  }

  /** The serial of the zone to sign: that of the published zone to sign it again, else of the unsigned one. */
  function SerialToSign(st: State, zone: string, again: bool): Option<nat> {
    if !again then (if zone in st.unsigned then Some(st.unsigned[zone]) else None)
    else if zone !in st.published then None
    else match Content(st, st.published[zone])
         case Some(version) => Some(version.serial)
         case None => None
  }

  /** The signed zone of this name, or a new and empty one. */
  function GetOrInsertSigned(st: State, zone: string): (st': State)
    ensures zone in st'.signed
  {
    if zone in st.signed then st
    else st.(signed := st.signed[zone := |st.contents|], contents := st.contents + [None])
  }

  /** A review server's handling of a command. */
  function HandleReview(st: State, unit: Unit, command: Command, started: seq<bool>): State
    requires unit in st.reviews
  {
    match command
    case SeekApprovalForUnsignedZone(key) => Settle(st, unit, Seek(st.reviews[unit], key, started))
    case SeekApprovalForSignedZone(key) => Settle(st, unit, Seek(st.reviews[unit], key, started))
    case HandleZoneReview(key, token, operation) =>
      Settle(st, unit, ProcessRequest(st.reviews[unit], key, token, operation))
    case PublishSignedZone(key) =>
      if key.zone in st.signed then
        Record(Publish(st, key.zone), Deed.Published(key))
      else
        st
    case _ => st
  }

  /** Takes over what a review server did: the new reviews, and the updates it sends or its panic. */
  function Settle(st: State, unit: Unit, result: Result): State {
    if SourceOf(unit) == PublishedZones then
      st.(reviews := st.reviews[unit := result.reviews], panicked := Announces(result.observed))
    else
      Send(st.(reviews := st.reviews[unit := result.reviews]), Updates(SourceOf(unit), result.observed))
  }

  /** The zone signer's handling of a command: it looks the zone up, among the published zones if it is to
      be signed again, and makes an empty signed zone if there is none. */
  function HandleSigning(st: State, command: Command, soa: bool): State {
    match command
    case SignZone(zone, serial) =>
      var toSign := SerialToSign(st, zone, serial.None?);
      if toSign.Some? && soa then
        var st' := GetOrInsertSigned(st, zone);
        Record(st'.(signing := Some(Signing(zone, st'.signed[zone], toSign.value))), SigningStarted(zone, serial.None?))
      else
        st
    case _ => st
  }

  function Next(st: State, a: Action, hooks: map<Unit, nat>): State
    requires Enabled(st, a, hooks)
  {
    match a
    case Load(key) => Send(st.(unsigned := st.unsigned[key.zone := key.serial]), [UnsignedZoneUpdated(key)])
    case Notice(update) => Send(st, [update])
    case Review(unit, key, token, operation) =>
      st.(commands := st.commands + [(unit, HandleZoneReview(key, token, operation))])
    case TakeUpdate => st.(updates := st.updates[1..], commands := st.commands + Direct(st.updates[0]))
    case Forward =>
      var (unit, command) := st.commands[0];
      var inbox := if unit in st.inboxes then st.inboxes[unit] else [];
      st.(commands := st.commands[1..], inboxes := st.inboxes[unit := inbox + [command]])
    case Handle(unit, started, soa) =>
      var command := st.inboxes[unit][0];
      var st' := Record(st.(inboxes := st.inboxes[unit := st.inboxes[unit][1..]]), Handled(unit, command));
      if unit in REVIEWERS then HandleReview(st', unit, command, started)
      else if unit == ZS then HandleSigning(st', command, soa)
      else st'
    case EndSigning(succeeded) =>
      var done := st.signing.value;
      var st' := st.(signing := None);
      if succeeded then Send(Commit(st', done), [ZoneSigned(Key(done.zone, done.serial))]) else st'
  }

  predicate IsRun(st: State, actions: seq<Action>, hooks: map<Unit, nat>)
    decreases |actions|
  {
    actions == [] || (Enabled(st, actions[0], hooks) && IsRun(Next(st, actions[0], hooks), actions[1..], hooks))
  }

  function Run(st: State, actions: seq<Action>, hooks: map<Unit, nat>): State
    requires IsRun(st, actions, hooks)
    decreases |actions|
  {
    if actions == [] then st else Run(Next(st, actions[0], hooks), actions[1..], hooks)
  }
}
