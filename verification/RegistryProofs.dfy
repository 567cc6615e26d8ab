/** When the registry stays consistent, and what reloading the policies does. */
module RegistryProofs {
  import opened Options
  import opened Payload
  import opened Registry

  //// Zones ////

  lemma ConsistentIsLinked(st: State, zone: Name)
    requires Consistent(st) && zone in st.zones
    ensures Linked(st, zone)
  {
  }

  /** A zone is added without a policy, and is to be saved, unless there is one of its name. */
  lemma AddKeeps(st: State, name: Name)
    requires Consistent(st)
    ensures var outcome := Added(st, name);
            && outcome.Done? && Consistent(outcome.state) && outcome.state.policies == st.policies
            && outcome.error == (if name in st.zones then Some(AlreadyExists) else None)
            && (outcome.globalDirty <==> name !in st.zones) && (outcome.zoneDirty <==> name !in st.zones)
            && (if name in st.zones then outcome.state == st && outcome.sent == []
                else outcome.state.zones == st.zones[name := None] && outcome.sent == [Changed(ZoneAdded(name))])
  {
  }

  /** A zone without its policy. */
  function Unlinked(st: State, name: Name): State
    requires name in st.zones && Linked(st, name)
  {
    State(st.zones[name := None], Unlink(st, name))
  }

  function Link(st: State, name: Name, policy: Name): State
    requires policy in st.policies
  {
    var chosen := st.policies[policy];
    State(st.zones[name := Some(chosen.latest)], st.policies[policy := chosen.(zones := chosen.zones + {name})])
  }

  lemma UnlinkKeeps(st: State, name: Name)
    requires Consistent(st) && name in st.zones
    ensures Linked(st, name) && Consistent(Unlinked(st, name))
    ensures Unlink(st, name).Keys == st.policies.Keys
    ensures forall p :: p in st.policies ==>
              Unlink(st, name)[p] == st.policies[p].(zones := st.policies[p].zones - {name})
  {
    ConsistentIsLinked(st, name);
    forall p | p in st.policies && !(st.zones[name].Some? && st.zones[name].value.name == p)
      ensures st.policies[p].zones - {name} == st.policies[p].zones
    {
      assert name !in st.policies[p].zones;
    }
  }

  /** A zone is removed, from its policy's users too; its removal is announced even if there is no such zone, but the
      change is to be saved only if the zone had a policy. */
  lemma RemoveKeeps(st: State, name: Name)
    requires Consistent(st)
    ensures var outcome := Removed(st, name);
            && outcome.Done? && Consistent(outcome.state) && outcome.sent == [Changed(ZoneRemoved(name))]
            && outcome.error == (if name in st.zones then None else Some(NotFound))
            && (outcome.globalDirty <==> name in st.zones && st.zones[name].Some?) && !outcome.zoneDirty
            && outcome.state.zones == st.zones - {name}
            && outcome.state.policies.Keys == st.policies.Keys
            && forall p :: p in st.policies ==>
                 outcome.state.policies[p] == st.policies[p].(zones := st.policies[p].zones - {name})
  {
    if name in st.zones {
      UnlinkKeeps(st, name);
    } else {
      assert st.zones - {name} == st.zones;
      forall p | p in st.policies ensures st.policies[p].zones - {name} == st.policies[p].zones {
        assert name !in st.policies[p].zones;
      }
    }
  }

  lemma LinkKeeps(st: State, name: Name, policy: Name)
    requires Consistent(st) && name in st.zones && st.zones[name].None? && policy in st.policies
    ensures Consistent(Link(st, name, policy))
  {
    assert forall p :: p in st.policies ==> name !in st.policies[p].zones;
  }

  /** Why a zone cannot get a policy, if so. */
  function Refusal(st: State, name: Name, policy: Name): Option<Error> {
    if name !in st.zones then Some(NoSuchZone)
    else if policy !in st.policies then Some(NoSuchPolicy)
    else if st.policies[policy].midDeletion then Some(PolicyMidDeletion)
    else None
  }

  /** Changing a zone's policy never panics; it fails without any change, or links exactly this zone anew. */
  lemma ChangeKeeps(st: State, name: Name, policy: Name)
    requires Consistent(st)
    ensures var outcome := PolicyChanged(st, name, policy);
            && outcome.Done? && Consistent(outcome.state)
            && (outcome.error.Some? ==> outcome.state == st && outcome.sent == [])
            && outcome.error == Refusal(st, name, policy)
            && !outcome.globalDirty && (outcome.zoneDirty <==> outcome.error.None?)
            && (outcome.error.None? ==>
                  && outcome.state.zones == st.zones[name := Some(st.policies[policy].latest)]
                  && outcome.sent == [Changed(ZonePolicyChanged(name, st.policies[policy].latest))]
                  && outcome.state.policies.Keys == st.policies.Keys
                  && forall p :: p in st.policies ==>
                       outcome.state.policies[p] == st.policies[p].(zones :=
                         if p == policy then st.policies[p].zones + {name} else st.policies[p].zones - {name}))
  {
    if name in st.zones && policy in st.policies {
      UnlinkKeeps(st, name);
      LinkKeeps(Unlinked(st, name), name, policy);
      if !st.policies[policy].midDeletion {
        var st' := PolicyChanged(st, name, policy).state;
        assert st'.zones == Link(Unlinked(st, name), name, policy).zones;
        assert st.policies[policy].zones - {name} + {name} == st.policies[policy].zones + {name};
      }
    }
  }

  //// Names of policy files ////

  predicate IsToml(extension: string) {
    && |extension| == 4
    && extension[0] in "tT" && extension[1] in "oO" && extension[2] in "mM" && extension[3] in "lL"
  }

  lemma {:induction false} LastDotIsLast(name: string, i: nat)
    requires 0 < i < |name| && name[i] == '.' && forall j :: i < j < |name| ==> name[j] != '.'
    ensures LastDot(name) == Some(i)
    decreases |name|
  {
    if i < |name| - 1 {
      LastDotIsLast(name[..|name| - 1], i);
    }
  }

  lemma TomlIffEqual(extension: string)
    ensures EqIgnoreAsciiCase(extension, "toml") <==> IsToml(extension)
  {
    if |extension| == 4 {
      assert forall i :: 0 <= i < 4 ==> Lower("toml"[i]) == "toml"[i];
      assert (forall i :: 0 <= i < 4 ==> Lower(extension[i]) == "toml"[i]) <==>
        Lower(extension[0]) == 't' && Lower(extension[1]) == 'o' && Lower(extension[2]) == 'm'
        && Lower(extension[3]) == 'l';
    }
  }

  predicate IsPolicyFile(name: string, stem: string, extension: string) {
    name == stem + "." + extension && stem != "" && stem[0] != '.' && IsToml(extension)
  }

  lemma PolicyFileIsRead(name: string, stem: string, extension: string)
    requires IsPolicyFile(name, stem, extension)
    ensures Candidate(name) && Stem(name) == stem
  {
    assert forall j :: |stem| < j < |name| ==> name[j] == extension[j - |stem| - 1];
    LastDotIsLast(name, |stem|);
    TomlIffEqual(extension);
    assert name[|stem| + 1..] == extension && name[..|stem|] == stem;
  }

  lemma CandidateIsPolicyFile(name: string) returns (extension: string)
    requires Candidate(name)
    ensures IsPolicyFile(name, Stem(name), extension)
  {
    var i := LastDot(name).value;
    extension := name[i + 1..];
    TomlIffEqual(extension);
    assert name == name[..i] + "." + extension;
  }

  /** A file is read as policy `stem` exactly if its name is the stem, which is not hidden, a dot, and `toml` in upper
      or lower case. */
  lemma PolicyFileIff(name: string, stem: string)
    ensures Candidate(name) && Stem(name) == stem <==> exists extension :: IsPolicyFile(name, stem, extension)
  {
    if Candidate(name) {
      var extension := CandidateIsPolicyFile(name);
    }
    if extension :| IsPolicyFile(name, stem, extension) {
      PolicyFileIsRead(name, stem, extension);
    }
  }

  //// Reading policy files ////

  /** The policies read, with their settings, until reading ends or breaks. */
  function Loaded(entries: seq<Entry>): seq<(Name, nat)> {
    if entries == [] then []
    else
      match entries[0]
      case Unlisted => []
      case NonUtf8 => Loaded(entries[1..])
      case Object(name, load) =>
        if !Candidate(name) || load.IsADirectory? then Loaded(entries[1..])
        else if load.Unreadable? then []
        else [(Stem(name), load.settings)] + Loaded(entries[1..])
  }

  /** Some entry cannot be read. */
  predicate Breaks(entries: seq<Entry>) {
    entries != [] &&
    match entries[0]
    case Unlisted => true
    case NonUtf8 => Breaks(entries[1..])
    case Object(name, load) => (Candidate(name) && load.Unreadable?) || Breaks(entries[1..])
  }

  /** Two files are for the same policy, or one is for a policy in `seen`. */
  predicate Repeats(loaded: seq<(Name, nat)>, seen: set<Name>)
    decreases |loaded|
  {
    loaded != [] && (loaded[0].0 in seen || Repeats(loaded[1..], seen + {loaded[0].0}))
  }

  function Names(loaded: seq<(Name, nat)>): (names: set<Name>)
    ensures forall p :: p in names <==> exists i :: 0 <= i < |loaded| && loaded[i].0 == p
  {
    set i | 0 <= i < |loaded| :: loaded[i].0
  }

  function SettingsOf(loaded: seq<(Name, nat)>, p: Name): nat {
    if loaded == [] then 0 else if loaded[0].0 == p then loaded[0].1 else SettingsOf(loaded[1..], p)
  }

  lemma NamesStep(loaded: seq<(Name, nat)>)
    requires loaded != []
    ensures Names(loaded) == {loaded[0].0} + Names(loaded[1..])
  {
    assert forall i :: 0 < i < |loaded| ==> loaded[i] == loaded[1..][i - 1];
    forall p | p in Names(loaded[1..]) ensures p in Names(loaded) {
      var i :| 0 <= i < |loaded[1..]| && loaded[1..][i].0 == p;
      assert loaded[i + 1].0 == p;
    }
  }

  lemma {:induction false} RepeatsAvoids(loaded: seq<(Name, nat)>, seen: set<Name>)
    requires !Repeats(loaded, seen)
    ensures Names(loaded) !! seen
    decreases |loaded|
  {
    if loaded != [] {
      RepeatsAvoids(loaded[1..], seen + {loaded[0].0});
      NamesStep(loaded);
    }
  }

  const NOTHING_READ: map<Name, Policy> := map[]

  /** The policies read so far and those still left, after some files. */
  ghost predicate ReadIs(reading: Reading, left: map<Name, Policy>, read: map<Name, Policy>, loaded: seq<(Name, nat)>)
    requires reading.Reading?
  {
    && reading.left == left - Names(loaded)
    && reading.read.Keys == read.Keys + Names(loaded)
    && (forall p :: p in Names(loaded) ==> reading.read[p] == FromFile(left, p, SettingsOf(loaded, p)))
    && (forall p :: p in read && p !in Names(loaded) ==> reading.read[p] == read[p])
  }

  lemma {:induction false} ReadFilesMeans(entries: seq<Entry>, left: map<Name, Policy>, read: map<Name, Policy>)
    ensures var (reading, loaded) := (ReadFiles(entries, left, read), Loaded(entries));
            && (reading.Clash? <==> Repeats(loaded, read.Keys))
            && (!Repeats(loaded, read.Keys) ==>
                  if Breaks(entries) then reading == Broken(left - Names(loaded))
                  else reading.Reading? && ReadIs(reading, left, read, loaded))
    decreases |entries|, 1
  {
    if entries == [] || entries[0].Unlisted? {
      assert Names([]) == {};
    } else if entries[0].NonUtf8? || !Candidate(entries[0].name) || entries[0].load.IsADirectory? {
      ReadFilesMeans(entries[1..], left, read);
    } else if entries[0].load.Unreadable? {
      assert Names([]) == {};
    } else {
      ReadOneMore(entries, left, read);
    }
  }

  lemma {:induction false} ReadOneMore(entries: seq<Entry>, left: map<Name, Policy>, read: map<Name, Policy>)
    requires entries != [] && entries[0].Object? && Candidate(entries[0].name) && entries[0].load.Parsed?
    ensures var (reading, loaded) := (ReadFiles(entries, left, read), Loaded(entries));
            && (reading.Clash? <==> Repeats(loaded, read.Keys))
            && (!Repeats(loaded, read.Keys) ==>
                  if Breaks(entries) then reading == Broken(left - Names(loaded))
                  else reading.Reading? && ReadIs(reading, left, read, loaded))
    decreases |entries|, 0
  {
    var stem, loaded := Stem(entries[0].name), Loaded(entries);
    if stem !in read {
      var left', read' := left - {stem}, read[stem := FromFile(left, stem, entries[0].load.settings)];
      ReadFilesMeans(entries[1..], left', read');
      assert read'.Keys == read.Keys + {stem};
      assert loaded[1..] == Loaded(entries[1..]);
      NamesStep(loaded);
      if !Repeats(loaded, read.Keys) {
        RepeatsAvoids(loaded[1..], read'.Keys);
        assert left' - Names(loaded[1..]) == left - Names(loaded);
        if !Breaks(entries) {
          ReadIsOneMore(ReadFiles(entries, left, read), left, read, loaded);
        }
      }
    }
  }

  lemma ReadIsOneMore(reading: Reading, left: map<Name, Policy>, read: map<Name, Policy>, loaded: seq<(Name, nat)>)
    requires loaded != [] && reading.Reading? && !Repeats(loaded, read.Keys)
    requires var (stem, settings) := loaded[0];
             ReadIs(reading, left - {stem}, read[stem := FromFile(left, stem, settings)], loaded[1..])
    ensures ReadIs(reading, left, read, loaded)
  {
    var (stem, settings) := loaded[0];
    NamesStep(loaded);
    RepeatsAvoids(loaded[1..], read.Keys + {stem});
    assert stem !in Names(loaded[1..]);
    assert (left - {stem}) - Names(loaded[1..]) == left - Names(loaded);
    assert reading.read.Keys == read.Keys + Names(loaded);
  }

  //// Reloading ////

  /** Reloading panics exactly if two policy files have the same name but for the case of `.toml`. */
  lemma ReloadPanicsIff(st: State, entries: seq<Entry>)
    ensures Reloaded(st, Some(entries)).Panic? <==> Repeats(Loaded(entries), {})
  {
    assert NOTHING_READ.Keys == {};
    ReadFilesMeans(entries, st.policies, NOTHING_READ);
  }

  /** Two different files of a directory can make it panic. */
  lemma TwoFilesMayClash(st: State)
    ensures var entries := [Object("a.toml", Parsed(0)), Object("a.TOML", Parsed(0))];
            Reloaded(st, Some(entries)).Panic?
  {
    var first, second := Object("a.toml", Parsed(0)), Object("a.TOML", Parsed(0));
    StemOfToml(first.name);
    StemOfToml(second.name);
    assert [first, second][1..] == [second];
    assert "a" in NOTHING_READ["a" := FromFile(st.policies, "a", 0)];
    assert ReadFiles([first, second], st.policies, NOTHING_READ).Clash?;
  }

  lemma StemOfToml(name: string)
    requires name in {"a.toml", "a.TOML"}
    ensures Candidate(name) && Stem(name) == "a"
  {
    assert LastDot(name[..2]) == Some(1);
    assert name[..5][..4] == name[..4] && name[..4][..3] == name[..3] && name[..3][..2] == name[..2];
    assert LastDot(name[..3]) == Some(1);
    assert LastDot(name[..4]) == Some(1);
    assert LastDot(name[..5]) == Some(1);
  }

  /** The policy has the settings that were read, and keeps its users and its fate. */
  predicate HasSettings(policy: Policy, p: Name, settings: nat, policies: map<Name, Policy>) {
    && policy.latest == PolicyVersion(p, settings)
    && policy.zones == (if p in policies then policies[p].zones else {})
    && policy.midDeletion == (p in policies && policies[p].midDeletion)
  }

  /** After a successful reload there is a policy for each file, with the file's settings and the zones it
      had, and every other policy that zones use is as it was.  No zone changes. */
  lemma ReloadMeans(st: State, entries: seq<Entry>)
    requires Consistent(st) && !Breaks(entries) && !Repeats(Loaded(entries), {})
    ensures var (outcome, loaded) := (Reloaded(st, Some(entries)), Loaded(entries));
            && outcome.Done? && outcome.error.None? && outcome.state.zones == st.zones
            && (forall p :: p in outcome.state.policies <==>
                              p in Names(loaded) || (p in st.policies && st.policies[p].zones != {}))
            && (forall p :: p in Names(loaded) ==>
                              HasSettings(outcome.state.policies[p], p, SettingsOf(loaded, p), st.policies))
            && (forall p :: p in outcome.state.policies && p !in Names(loaded) ==>
                              outcome.state.policies[p] == st.policies[p])
  {
    assert NOTHING_READ.Keys == {};
    ReadFilesMeans(entries, st.policies, NOTHING_READ);
  }

  lemma {:induction false} SettingsAreRead(loaded: seq<(Name, nat)>, seen: set<Name>, p: Name, settings: nat)
    requires !Repeats(loaded, seen) && (p, settings) in loaded
    ensures SettingsOf(loaded, p) == settings
    decreases |loaded|
  {
    if loaded[0] != (p, settings) {
      assert (p, settings) in loaded[1..];
      RepeatsAvoids(loaded[1..], seen + {loaded[0].0});
      var i :| 0 <= i < |loaded[1..]| && loaded[1..][i] == (p, settings);
      assert p in Names(loaded[1..]);
      SettingsAreRead(loaded[1..], seen + {loaded[0].0}, p, settings);
    }
  }

  lemma {:induction false} FileIsLoaded(entries: seq<Entry>, name: string, settings: nat)
    requires !Breaks(entries) && Object(name, Parsed(settings)) in entries && Candidate(name)
    ensures (Stem(name), settings) in Loaded(entries)
    decreases |entries|
  {
    if entries[0] != Object(name, Parsed(settings)) {
      assert Object(name, Parsed(settings)) in entries[1..];
      FileIsLoaded(entries[1..], name, settings);
    }
  }

  /** What a policy file says reaches a zone once it is read and the zone is given the policy, and not before: the
      zones that use the policy keep the version they have. */
  lemma FilesReachZones(st: State, entries: seq<Entry>, name: string, settings: nat, zone: Name)
    requires Consistent(st) && !Breaks(entries) && !Repeats(Loaded(entries), {})
    requires Object(name, Parsed(settings)) in entries && Candidate(name) && zone in st.zones
    requires Stem(name) in st.policies ==> !st.policies[Stem(name)].midDeletion
    ensures var reloaded := Reloaded(st, Some(entries));
            && reloaded.Done? && reloaded.state.zones == st.zones
            && var changed := PolicyChanged(reloaded.state, zone, Stem(name));
               && changed.Done? && changed.error.None?
               && changed.state.zones == st.zones[zone := Some(PolicyVersion(Stem(name), settings))]
  {
    var loaded, reloaded := Loaded(entries), Reloaded(st, Some(entries));
    FileIsLoaded(entries, name, settings);
    SettingsAreRead(loaded, {}, Stem(name), settings);
    ReloadMeans(st, entries);
    SuccessKeeps(st, entries);
    var i :| 0 <= i < |loaded| && loaded[i] == (Stem(name), settings);
    assert Stem(name) in Names(loaded);
    ChangeKeeps(reloaded.state, zone, Stem(name));
  }

  /** A reload that breaks off has lost every policy it read before. */
  lemma BrokenReloadMeans(st: State, entries: seq<Entry>)
    requires Breaks(entries) && !Repeats(Loaded(entries), {})
    ensures Reloaded(st, Some(entries)) ==
              Done(st.(policies := st.policies - Names(Loaded(entries))), Some(Io), [], false, false)
  {
    assert NOTHING_READ.Keys == {};
    ReadFilesMeans(entries, st.policies, NOTHING_READ);
  }

  /** What is asked of a policy directory: no two files for a policy, and if reading breaks off, the policies
      read before are not in use. */
  ghost predicate Harmless(st: State, entries: Option<seq<Entry>>) {
    entries.Some? ==>
      && !Repeats(Loaded(entries.value), {})
      && (Breaks(entries.value) ==>
            forall p :: p in Names(Loaded(entries.value)) && p in st.policies ==> st.policies[p].zones == {})
  }

  lemma SuccessKeeps(st: State, entries: seq<Entry>)
    requires Consistent(st) && !Breaks(entries) && !Repeats(Loaded(entries), {})
    ensures Reloaded(st, Some(entries)).Done? && Consistent(Reloaded(st, Some(entries)).state)
  {
    ReloadMeans(st, entries);
    var st' := Reloaded(st, Some(entries)).state;
    UsersStay(st, st');
  }

  /** A state with the same zones in which each policy in use remains, and with the same users. */
  lemma UsersStay(st: State, st': State)
    requires Consistent(st) && st'.zones == st.zones
    requires forall p :: p in st.policies && st.policies[p].zones != {} ==>
               p in st'.policies && st'.policies[p].zones == st.policies[p].zones
    requires forall p :: p in st'.policies && st'.policies[p].zones != {} ==>
               p in st.policies && st.policies[p].zones == st'.policies[p].zones
    requires forall p :: p in st'.policies ==> st'.policies[p].latest.name == p
    ensures Consistent(st')
  {
    forall z | z in st'.zones && st'.zones[z].Some?
      ensures var p := st'.zones[z].value.name; p in st'.policies && z in st'.policies[p].zones
    {
      var p := st.zones[z].value.name;
      assert z in st.policies[p].zones;
    }
  }

  lemma ReloadKeepsIff(st: State, entries: Option<seq<Entry>>)
    requires Consistent(st)
    ensures Reloaded(st, entries).Done? && Consistent(Reloaded(st, entries).state) <==> Harmless(st, entries)
  {
    if entries.Some? && !Repeats(Loaded(entries.value), {}) {
      if Breaks(entries.value) {
        BrokenReloadMeans(st, entries.value);
        LossKeepsIff(st, Names(Loaded(entries.value)));
      } else {
        SuccessKeeps(st, entries.value);
        ReloadMeans(st, entries.value);
      }
    } else if entries.Some? {
      ReloadPanicsIff(st, entries.value);
    }
  }

  lemma LossKeepsIff(st: State, lost: set<Name>)
    requires Consistent(st)
    ensures Consistent(st.(policies := st.policies - lost)) <==>
              forall p :: p in lost && p in st.policies ==> st.policies[p].zones == {}
  {
    var st' := st.(policies := st.policies - lost);
    if p :| p in lost && p in st.policies && st.policies[p].zones != {} {
      var z :| z in st.policies[p].zones;
      assert st'.zones[z].value.name == p && p !in st'.policies;
    }
  }

  //// Runs ////

  datatype Action =
    | Add(name: Name)
    | Remove(name: Name)
    | Change(name: Name, policy: Name)
    | Reload(entries: Option<seq<Entry>>)

  function Act(st: State, a: Action): Outcome {
    match a
    case Add(name) => Added(st, name)
    case Remove(name) => Removed(st, name)
    case Change(name, policy) => PolicyChanged(st, name, policy)
    case Reload(entries) => Reloaded(st, entries)
  }

  /** One action neither panics nor breaks the link between zones and policies exactly if it is not a harmful
      reload. */
  lemma ActKeepsIff(st: State, a: Action)
    requires Consistent(st)
    ensures Act(st, a).Done? && Consistent(Act(st, a).state) <==> (a.Reload? ==> Harmless(st, a.entries))
  {
    match a {
      case Add(name) => AddKeeps(st, name);
      case Remove(name) => RemoveKeeps(st, name);
      case Change(name, policy) => ChangeKeeps(st, name, policy);
      case Reload(entries) => ReloadKeepsIff(st, entries);
    }
  }

  /** The state after a run, or `None` if an action panicked. */
  function Run(st: State, actions: seq<Action>): Option<State>
    decreases |actions|
  {
    if actions == [] then Some(st)
    else match Act(st, actions[0])
         case Done(st', _, _, _, _) => Run(st', actions[1..])
         case Panic => None
  }

  /** Every reload of a run reads its whole directory, with one file for each policy. */
  predicate Reads(actions: seq<Action>) {
    forall a :: a in actions && a.Reload? && a.entries.Some? ==>
      !Breaks(a.entries.value) && !Repeats(Loaded(a.entries.value), {})
  }

  /** In every run, from no zones and no policies, in which reloads succeed, zones and policies stay
      consistent and nothing panics. */
  lemma {:induction false} RunsStayConsistent(st: State, actions: seq<Action>)
    requires Consistent(st) && Reads(actions)
    ensures Run(st, actions).Some? && Consistent(Run(st, actions).value)
    decreases |actions|
  {
    if actions != [] {
      assert actions[0] in actions && forall a :: a in actions[1..] ==> a in actions;
      ActKeepsIff(st, actions[0]);
      RunsStayConsistent(Act(st, actions[0]).state, actions[1..]);
    }
  }

  //// Zones restored from a file ////

  /** Loading a zone's saved state restores its policy but does not enter the zone with the policy. */
  function Restored(st: State, zone: Name, version: Option<PolicyVersion>): State
    requires zone in st.zones
  {
    match version
    case None => st.(zones := st.zones[zone := None])
    case Some(v) =>
      if v.name in st.policies then
        st.(zones := st.zones[zone := Some(st.policies[v.name].latest)])
      else
        State(st.zones[zone := Some(v)], st.policies[v.name := Policy(v, false, {})])
  }

  /** A zone restored with a policy breaks the link, and panics when it is removed or given a policy. */
  lemma RestoringKeepsIff(st: State, zone: Name, version: Option<PolicyVersion>)
    requires Consistent(st) && zone in st.zones && st.zones[zone].None?
    ensures Consistent(Restored(st, zone, version)) <==> version.None?
    ensures Removed(Restored(st, zone, version), zone).Panic? <==> version.Some?
  {
    var st' := Restored(st, zone, version);
    if version.Some? {
      var p := version.value.name;
      assert st'.zones[zone].value.name == p;
      assert zone !in st'.policies[p].zones;
    }
  }
}
