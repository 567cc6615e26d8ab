/** The registry of zones and policies, each of which refers to the other. */
module Registry {
  import opened Options
  import opened Payload

  type Name = string

  /** The zones using a policy are kept with it. */
  datatype Policy = Policy(latest: PolicyVersion, midDeletion: bool, zones: set<Name>)

  /** Each zone with the version of the policy it uses. */
  datatype State = State(zones: map<Name, Option<PolicyVersion>>, policies: map<Name, Policy>)

  const EMPTY := State(map[], map[])

  datatype Error = AlreadyExists | NotFound | NoSuchZone | NoSuchPolicy | PolicyMidDeletion | Io

  /** What an action gives: the new state, whether it failed, the updates sent, and what was marked as to be
      saved; or a panic. */
  datatype Outcome =
    | Done(state: State, error: Option<Error>, sent: seq<Update>, globalDirty: bool, zoneDirty: bool)
    | Panic

  /** A zone is in a policy's set exactly if its state names that policy, every named policy exists, and a
      policy is filed under its own name. */
  ghost predicate Consistent(st: State) {
    && (forall z :: z in st.zones && st.zones[z].Some? ==>
          var p := st.zones[z].value.name; p in st.policies && z in st.policies[p].zones)
    && (forall p, z :: p in st.policies && z in st.policies[p].zones ==>
          z in st.zones && st.zones[z].Some? && st.zones[z].value.name == p)
    && (forall p :: p in st.policies ==> st.policies[p].latest.name == p)
  }

  //// Zones ////

  function Added(st: State, name: Name): Outcome {
    if name in st.zones then Done(st, Some(AlreadyExists), [], false, false)
    else Done(st.(zones := st.zones[name := None]), None, [Changed(ZoneAdded(name))], true, true)
  }

  /** Whether a zone can be taken out of its policy's set: otherwise unlinking panics. */
  predicate Linked(st: State, zone: Name)
    requires zone in st.zones
  {
    st.zones[zone].Some? ==>
      st.zones[zone].value.name in st.policies && zone in st.policies[st.zones[zone].value.name].zones
  }

  function Unlink(st: State, zone: Name): map<Name, Policy>
    requires zone in st.zones && Linked(st, zone)
  {
    match st.zones[zone]
    case None => st.policies
    case Some(version) =>
      var policy := st.policies[version.name];
      st.policies[version.name := policy.(zones := policy.zones - {zone})]
  }

  function Removed(st: State, name: Name): Outcome {
    var sent := [Changed(ZoneRemoved(name))];
    if name !in st.zones then Done(st, Some(NotFound), sent, false, false)
    else if !Linked(st, name) then Panic
    else Done(State(st.zones - {name}, Unlink(st, name)), None, sent, st.zones[name].Some?, false)
  }

  function PolicyChanged(st: State, name: Name, policy: Name): Outcome {
    if name !in st.zones then Done(st, Some(NoSuchZone), [], false, false)
    else if policy !in st.policies then Done(st, Some(NoSuchPolicy), [], false, false)
    else if st.policies[policy].midDeletion then Done(st, Some(PolicyMidDeletion), [], false, false)
    else if !Linked(st, name) then Panic
    else
      var unlinked := Unlink(st, name);
      var chosen := unlinked[policy];
      Done(State(st.zones[name := Some(chosen.latest)],
                 unlinked[policy := chosen.(zones := chosen.zones + {name})]),
           None, [Changed(ZonePolicyChanged(name, chosen.latest))], false, true)
  }

  //// Policy files ////

  datatype Load = Parsed(settings: nat) | IsADirectory | Unreadable

  /** What the policy directory lists: an entry may be unreadable itself, or have a name that is not UTF-8. */
  datatype Entry = Unlisted | NonUtf8 | Object(name: string, load: Load)

  /** The last dot, if it is not at the front of the name. */
  function LastDot(name: string): (r: Option<nat>)
    ensures r.Some? ==> 0 < r.value < |name| && name[r.value] == '.'
  {
    if |name| <= 1 then None
    else if name[|name| - 1] == '.' then Some(|name| - 1)
    else LastDot(name[..|name| - 1])
  }

  function Lower(c: char): char {
    if 'A' <= c <= 'Z' then c - 'A' + 'a' else c
  }

  predicate EqIgnoreAsciiCase(a: string, b: string) {
    |a| == |b| && forall i :: 0 <= i < |a| ==> Lower(a[i]) == Lower(b[i])
  }

  function Stem(name: string): string {
    match LastDot(name)
    case Some(i) => name[..i]
    case None => name
  }

  /** Hidden files and files that do not end in `.toml` are skipped. */
  predicate Candidate(name: string) {
    && (name != "" ==> name[0] != '.')
    && LastDot(name).Some?
    && EqIgnoreAsciiCase(name[LastDot(name).value + 1..], "toml")
  }

  /** A policy built from a file, or an existing one merged with it. */
  function FromFile(policies: map<Name, Policy>, stem: Name, settings: nat): Policy {
    if stem in policies then policies[stem].(latest := PolicyVersion(policies[stem].latest.name, settings))
    else Policy(PolicyVersion(stem, settings), false, {})
  }

  /** While reading: policies move from `left` to `read`. */
  datatype Reading = Reading(left: map<Name, Policy>, read: map<Name, Policy>) | Broken(left: map<Name, Policy>) | Clash

  function ReadFiles(entries: seq<Entry>, left: map<Name, Policy>, read: map<Name, Policy>): Reading {
    if entries == [] then Reading(left, read)
    else
      match entries[0]
      case Unlisted => Broken(left)
      case NonUtf8 => ReadFiles(entries[1..], left, read)
      case Object(name, load) =>
        if !Candidate(name) || load.IsADirectory? then ReadFiles(entries[1..], left, read)
        else if load.Unreadable? then Broken(left)
        else
          var stem := Stem(name);
          if stem in read then Clash
          else ReadFiles(entries[1..], left - {stem}, read[stem := FromFile(left, stem, load.settings)])
  }

  function Used(policies: map<Name, Policy>): map<Name, Policy> {
    map p | p in policies && policies[p].zones != {} :: policies[p]
  }

  /** `entries` is `None` if the directory cannot be listed at all. */
  function Reloaded(st: State, entries: Option<seq<Entry>>): Outcome {
    match entries
    case None => Done(st, Some(Io), [], false, false)
    case Some(es) =>
      match ReadFiles(es, st.policies, map[])
      case Reading(left, read) => Done(st.(policies := read + Used(left)), None, [], false, false)
      case Broken(left) => Done(st.(policies := left), Some(Io), [], false, false)
      case Clash => Panic
  }

  //// The registry as it is updated ////

  /** A state with the updates sent and what is to be saved. */
  datatype Books = Registered(state: State, sent: seq<Update>, globalDirty: bool, dirtyZones: set<Name>)

  /** What is on the books after an action on a zone: its outcome, and nothing else. */
  function After(books: Books, outcome: Outcome, name: Name): Books
    requires outcome.Done?
  {
    Registered(outcome.state, books.sent + outcome.sent, books.globalDirty || outcome.globalDirty,
               books.dirtyZones + if outcome.zoneDirty then {name} else {})
  }

  class Center {
    var zones: map<Name, Option<PolicyVersion>>
    var policies: map<Name, Policy>
    var sent: seq<Update>
    var globalDirty: bool
    var dirtyZones: set<Name>

    constructor ()
      ensures Abstract() == EMPTY && sent == [] && !globalDirty && dirtyZones == {}
    {
      zones, policies, sent, globalDirty, dirtyZones := map[], map[], [], false, {};
    }

    function Abstract(): State
      reads this`zones, this`policies
    {
      State(zones, policies)
    }

    function Books(): Books
      reads this
    {
      Registered(Abstract(), sent, globalDirty, dirtyZones)
    }

    method AddZone(name: Name) returns (error: Option<Error>)
      modifies this
      ensures Added(old(Abstract()), name).Done?
      ensures Books() == After(old(Books()), Added(old(Abstract()), name), name)
      ensures error == Added(old(Abstract()), name).error
    {
      if name in zones {
        return Some(AlreadyExists);
      }
      zones := zones[name := None];
      sent := sent + [Changed(ZoneAdded(name))];
      globalDirty := true;
      dirtyZones := dirtyZones + {name};
      return None;
    }

    /** Takes a zone out of the set of its policy, if it has one. */
    method TakeFromPolicy(name: Name) returns (panicked: bool, had: bool)
      requires name in zones
      modifies this`policies
      ensures panicked <==> !Linked(old(Abstract()), name)
      ensures !panicked ==> policies == Unlink(old(Abstract()), name)
      ensures had <==> zones[name].Some?
    {
      had := zones[name].Some?;
      if had {
        var version := zones[name].value;
        if version.name !in policies {
          return true, had;
        }
        var policy := policies[version.name];
        if name !in policy.zones {
          return true, had;
        }
        policies := policies[version.name := policy.(zones := policy.zones - {name})];
      }
      panicked := false;
    }

    method RemoveZone(name: Name) returns (panicked: bool, error: Option<Error>)
      modifies this
      ensures panicked <==> Removed(old(Abstract()), name).Panic?
      ensures !panicked ==> Books() == After(old(Books()), Removed(old(Abstract()), name), name)
      ensures !panicked ==> error == Removed(old(Abstract()), name).error
    {
      panicked, error := false, None;
      sent := sent + [Changed(ZoneRemoved(name))];
      if name !in zones {
        return false, Some(NotFound);
      }
      var had;
      panicked, had := TakeFromPolicy(name);
      if panicked {
        return;
      }
      zones := zones - {name};
      if had {
        globalDirty := true;
      }
    }

    method ChangePolicy(name: Name, policy: Name) returns (panicked: bool, error: Option<Error>)
      modifies this
      ensures panicked <==> PolicyChanged(old(Abstract()), name, policy).Panic?
      ensures !panicked ==> Books() == After(old(Books()), PolicyChanged(old(Abstract()), name, policy), name)
      ensures !panicked ==> error == PolicyChanged(old(Abstract()), name, policy).error
    {
      panicked, error := false, None;
      if name !in zones {
        return false, Some(NoSuchZone);
      }
      if policy !in policies {
        return false, Some(NoSuchPolicy);
      }
      if policies[policy].midDeletion {
        return false, Some(PolicyMidDeletion);
      }
      var had;
      panicked, had := TakeFromPolicy(name);
      if panicked {
        return;
      }
      var chosen := policies[policy];
      zones := zones[name := Some(chosen.latest)];
      policies := policies[policy := chosen.(zones := chosen.zones + {name})];
      sent := sent + [Changed(ZonePolicyChanged(name, chosen.latest))];
      dirtyZones := dirtyZones + {name};
    }

    method ReloadAll(entries: Option<seq<Entry>>) returns (panicked: bool, error: Option<Error>)
      modifies this`policies
      ensures panicked <==> Reloaded(old(Abstract()), entries).Panic?
      ensures !panicked ==> Books() == After(old(Books()), Reloaded(old(Abstract()), entries), "")
      ensures !panicked ==> error == Reloaded(old(Abstract()), entries).error
    {
      panicked, error := false, None;
      if entries.None? {
        return false, Some(Io);
      }
      var newPolicies: map<Name, Policy> := map[];
      var i := 0;
      while i < |entries.value|
        invariant 0 <= i <= |entries.value|
        invariant newPolicies.Keys !! policies.Keys
        invariant ReadFiles(entries.value, old(policies), map[]) == ReadFiles(entries.value[i..], policies, newPolicies)
      {
        var entry := entries.value[i];
        assert entries.value[i..][0] == entry && entries.value[i..][1..] == entries.value[i + 1..];
        i := i + 1;
        if entry.Unlisted? {
          return false, Some(Io);
        }
        if entry.NonUtf8? || !Candidate(entry.name) || entry.load.IsADirectory? {
          continue;
        }
        if entry.load.Unreadable? {
          return false, Some(Io);
        }
        var name := Stem(entry.name);
        var policy := FromFile(policies, name, entry.load.settings);
        policies := policies - {name};
        if name in newPolicies {
          return true, None;
        }
        newPolicies := newPolicies[name := policy];
      }
      assert entries.value[i..] == [];
      newPolicies := KeepUsed(newPolicies);
      policies := newPolicies;
    }

    /** Policies whose files are gone stay if zones use them. */
    method KeepUsed(read: map<Name, Policy>) returns (kept: map<Name, Policy>)
      requires read.Keys !! policies.Keys
      ensures kept == read + Used(policies)
    {
      kept := read;
      var rest := policies.Keys;
      while rest != {}
        invariant rest <= policies.Keys
        invariant forall p :: p in kept <==> p in read || (p in policies && p !in rest && policies[p].zones != {})
        invariant forall p :: p in kept ==> kept[p] == if p in read then read[p] else policies[p]
        decreases |rest|
      {
        var name :| name in rest;
        if policies[name].zones != {} {
          assert name !in kept;
          kept := kept[name := policies[name]];
        }
        rest := rest - {name};
      }
    }
  }
}
