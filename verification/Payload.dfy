/** What the units, the registry and the central command tell each other. */
module Payload {
  import opened Options

  /** A zone at a serial. */
  datatype Key = Key(zone: string, serial: nat)

  /** `settings` stands for the fields of a policy file. */
  datatype PolicyVersion = PolicyVersion(name: string, settings: nat)

  datatype Change =
    | ConfigChanged
    | ZoneAdded(zone: string)
    | ZonePolicyChanged(zone: string, policy: PolicyVersion)
    | ZoneRemoved(zone: string)

  datatype Update =
    | Changed(change: Change)
    | RefreshZone(zone: string, source: Option<string>, serial: Option<nat>)
    | UnsignedZoneUpdated(key: Key)
    | UnsignedZoneApproved(key: Key)
    | ZoneSigned(key: Key)
    | SignedZoneApproved(key: Key)
    | ResignZone(zone: string)
}
