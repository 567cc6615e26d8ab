/** A zone kept as a tree from owner names to sets of RRsets, of which a set has one of each type. */
module LightWeightZone {
  import opened Options

  /** The labels of a name, its own first. */
  type Name = seq<string>

  datatype Rtype = DNSKEY | RRSIG | NSEC | NSEC3 | NSEC3PARAM | Other(code: nat)

  datatype Rrset = Rrset(rtype: Rtype, ttl: nat, data: seq<string>)

  /** The types that a zone without DNSSEC does not take. */
  predicate IsDnssec(t: Rtype) {
    !t.Other?
  }

  //// One node: a set of RRsets in which RRsets of one type are equal ////

  predicate OnePerType(rrsets: seq<Rrset>) {
    forall i, j :: 0 <= i < j < |rrsets| ==> rrsets[i].rtype != rrsets[j].rtype
  }

  function Find(rrsets: seq<Rrset>, t: Rtype): (r: Option<Rrset>)
    ensures r.Some? <==> exists i :: 0 <= i < |rrsets| && rrsets[i].rtype == t
    ensures r.Some? ==> r.value in rrsets && r.value.rtype == t
  {
    if rrsets == [] then None
    else if rrsets[0].rtype == t then Some(rrsets[0])
    else
      assert forall i :: 0 < i < |rrsets| ==> rrsets[i] == rrsets[1..][i - 1];
      Find(rrsets[1..], t)
  }

  function Replace(rrsets: seq<Rrset>, rrset: Rrset): seq<Rrset> {
    if rrsets == [] then [rrset]
    else if rrsets[0].rtype == rrset.rtype then [rrset] + rrsets[1..]
    else [rrsets[0]] + Replace(rrsets[1..], rrset)
  }

  function Retain(rrsets: seq<Rrset>, without: Rtype): seq<Rrset> {
    if rrsets == [] then []
    else (if rrsets[0].rtype == without then [] else [rrsets[0]]) + Retain(rrsets[1..], without)
  }

  lemma {:induction false} ReplaceMeans(rrsets: seq<Rrset>, rrset: Rrset)
    requires OnePerType(rrsets)
    ensures OnePerType(Replace(rrsets, rrset))
    ensures forall t :: Find(Replace(rrsets, rrset), t) == if t == rrset.rtype then Some(rrset) else Find(rrsets, t)
  {
    if rrsets != [] && rrsets[0].rtype != rrset.rtype {
      var rest := Replace(rrsets[1..], rrset);
      ReplaceMeans(rrsets[1..], rrset);
      Prepend(rrsets[0], rest);
    } else if rrsets != [] {
      assert Find(rrsets[1..], rrset.rtype).None?;
      assert Replace(rrsets, rrset)[1..] == rrsets[1..];
    } else {
      assert [rrset][1..] == [];
    }
  }

  lemma Prepend(first: Rrset, rest: seq<Rrset>)
    requires OnePerType(rest) && Find(rest, first.rtype).None?
    ensures OnePerType([first] + rest)
    ensures forall t :: Find([first] + rest, t) == if t == first.rtype then Some(first) else Find(rest, t)
  {
    assert ([first] + rest)[1..] == rest;
  }

  lemma {:induction false} RetainMeans(rrsets: seq<Rrset>, without: Rtype)
    requires OnePerType(rrsets)
    ensures OnePerType(Retain(rrsets, without))
    ensures forall t :: Find(Retain(rrsets, without), t) == if t == without then None else Find(rrsets, t)
  {
    if rrsets != [] {
      RetainMeans(rrsets[1..], without);
      var rest := Retain(rrsets[1..], without);
      if rrsets[0].rtype == without {
        assert [] + rest == rest;
      } else {
        Prepend(rrsets[0], rest);
      }
    }
  }

  //// The whole tree ////

  type Tree = map<Name, seq<Rrset>>

  type Content = map<(Name, Rtype), Rrset>

  function Get(tree: Tree, name: Name, t: Rtype): Option<Rrset> {
    if name in tree then Find(tree[name], t) else None
  }

  function Entry(content: Content, name: Name, t: Rtype): Option<Rrset> {
    if (name, t) in content then Some(content[(name, t)]) else None
  }

  /** The tree holds just the RRsets of a map from owner and type. */
  ghost predicate Represents(tree: Tree, content: Content) {
    && (forall name :: name in tree ==> OnePerType(tree[name]))
    && (forall name, t :: Get(tree, name, t) == Entry(content, name, t))
  }

  class LightWeightZone {
    const root: Name
    const skipSigned: bool
    var tree: Tree
    var skipped: nat
    ghost var content: Content

    ghost predicate Valid()
      reads this
    {
      Represents(tree, content)
    }

    constructor (root: Name, skipSigned: bool)
      ensures Valid() && content == map[] && skipped == 0
      ensures this.root == root && this.skipSigned == skipSigned
    {
      this.root, this.skipSigned := root, skipSigned;
      tree, skipped, content := map[], 0, map[];
    }

    method Open() returns (node: SimpleZoneNode)
      requires Valid()
      modifies this`skipped
      ensures Valid() && skipped == 0
      ensures node.zone == this && node.name == root
    {
      skipped := 0;
      node := new SimpleZoneNode(this, root);
    }

    /** A query is answered without error, with the RRset of the type if there is one. */
    method Query(qname: Name, qtype: Rtype) returns (answer: Option<Rrset>)
      requires Valid()
      ensures answer == Entry(content, qname, qtype)
    {
      answer := Get(tree, qname, qtype);
    }

    /** Visits each RRset once. */
    method Walk() returns (visited: seq<(Name, Rrset)>)
      requires Valid()
      ensures forall name, rrset :: (name, rrset) in visited <==> Entry(content, name, rrset.rtype) == Some(rrset)
      ensures forall i, j :: 0 <= i < j < |visited| ==>
                visited[i].0 != visited[j].0 || visited[i].1.rtype != visited[j].1.rtype
    {
      visited := [];
      var names := tree.Keys;
      while names != {}
        invariant names <= tree.Keys
        invariant forall v :: v in visited ==> v.0 in tree && v.0 !in names && v.1 in tree[v.0]
        invariant forall name, rrset :: name in tree && name !in names && rrset in tree[name] ==>
                    (name, rrset) in visited
        invariant OncePerEntry(visited)
        decreases |names|
      {
        var name :| name in names;
        visited := WalkNode(name, tree[name], visited);
        names := names - {name};
      }
      forall name, rrset ensures (name, rrset) in visited <==> Entry(content, name, rrset.rtype) == Some(rrset) {
        if name in tree {
          FindIsMember(tree[name], rrset);
        }
        assert Get(tree, name, rrset.rtype) == Entry(content, name, rrset.rtype);
      }
    }
  }

  ghost predicate OncePerEntry(visited: seq<(Name, Rrset)>) {
    forall i, j :: 0 <= i < j < |visited| ==>
      visited[i].0 != visited[j].0 || visited[i].1.rtype != visited[j].1.rtype
  }

  lemma {:induction false} FindIsMember(rrsets: seq<Rrset>, rrset: Rrset)
    requires OnePerType(rrsets)
    ensures rrset in rrsets <==> Find(rrsets, rrset.rtype) == Some(rrset)
  {
    if rrsets != [] {
      FindIsMember(rrsets[1..], rrset);
      assert rrsets == [rrsets[0]] + rrsets[1..];
      if rrset in rrsets[1..] {
        var i :| 0 < i < |rrsets| && rrsets[i] == rrset;
      }
    }
  }

  method WalkNode(name: Name, rrsets: seq<Rrset>, before: seq<(Name, Rrset)>) returns (visited: seq<(Name, Rrset)>)
    requires OnePerType(rrsets) && OncePerEntry(before) && forall v :: v in before ==> v.0 != name
    ensures OncePerEntry(visited)
    ensures forall v :: v in visited <==> v in before || (v.0 == name && v.1 in rrsets)
  {
    visited := before;
    var i := 0;
    while i < |rrsets|
      invariant 0 <= i <= |rrsets|
      invariant |visited| == |before| + i && visited[..|before|] == before
      invariant forall k :: 0 <= k < i ==> visited[|before| + k] == (name, rrsets[k])
    {
      visited := visited + [(name, rrsets[i])];
      i := i + 1;
    }
    forall v | v in visited ensures v in before || (v.0 == name && v.1 in rrsets) {
      var k :| 0 <= k < |visited| && visited[k] == v;
      if k < |before| {
        assert before[k] == v;
      } else {
        assert rrsets[k - |before|] == v.1;
      }
    }
    forall rrset | rrset in rrsets ensures (name, rrset) in visited {
      var k :| 0 <= k < |rrsets| && rrsets[k] == rrset;
      assert visited[|before| + k] == (name, rrset);
    }
    assert forall v :: v in before ==> v in visited[..|before|];
    WalkedOnce(name, rrsets, before, visited);
  }

  lemma WalkedOnce(name: Name, rrsets: seq<Rrset>, before: seq<(Name, Rrset)>, visited: seq<(Name, Rrset)>)
    requires OnePerType(rrsets) && OncePerEntry(before) && forall v :: v in before ==> v.0 != name
    requires |visited| == |before| + |rrsets| && visited[..|before|] == before
    requires forall k :: 0 <= k < |rrsets| ==> visited[|before| + k] == (name, rrsets[k])
    ensures OncePerEntry(visited)
  {
    forall i, j | 0 <= i < j < |visited|
      ensures visited[i].0 != visited[j].0 || visited[i].1.rtype != visited[j].1.rtype
    {
      if i < |before| {
        assert visited[i] == before[i];
        if j < |before| {
          assert visited[j] == before[j];
        } else {
          assert visited[|before| + (j - |before|)] == (name, rrsets[j - |before|]);
          assert before[i] in before;
        }
      } else {
        assert visited[|before| + (i - |before|)] == (name, rrsets[i - |before|]);
        assert visited[|before| + (j - |before|)] == (name, rrsets[j - |before|]);
      }
    }
  }

  /** A node only knows its name: all nodes of a zone work on the one tree. */
  class SimpleZoneNode {
    const zone: LightWeightZone
    const name: Name

    constructor (zone: LightWeightZone, name: Name)
      ensures this.zone == zone && this.name == name
    {
      this.zone, this.name := zone, name;
    }

    method UpdateChild(child: string) returns (node: SimpleZoneNode)
      ensures node.zone == zone && node.name == [child] + name
    {
      node := new SimpleZoneNode(zone, [child] + name);
    }

    method GetRrset(rtype: Rtype) returns (rrset: Option<Rrset>)
      requires zone.Valid()
      ensures rrset == Entry(zone.content, name, rtype)
    {
      rrset := Get(zone.tree, name, rtype);
    }

    method UpdateRrset(rrset: Rrset)
      requires zone.Valid()
      modifies zone
      ensures zone.Valid()
      ensures Zone(zone.content, zone.skipped) ==
                Apply(zone.skipSigned, Zone(old(zone.content), old(zone.skipped)), Update(name, rrset))
    {
      if zone.skipSigned && IsDnssec(rrset.rtype) {
        zone.skipped := zone.skipped + 1;
        return;
      }
      ghost var before, was := zone.tree, zone.content;
      if name !in zone.tree {
        zone.tree := zone.tree[name := [rrset]];
        ReplaceMeans([], rrset);
      } else {
        ReplaceMeans(zone.tree[name], rrset);
        zone.tree := zone.tree[name := Replace(zone.tree[name], rrset)];
      }
      zone.content := zone.content[(name, rrset.rtype) := rrset];
      forall n, t ensures Get(zone.tree, n, t) == Entry(zone.content, n, t) {
        assert Get(before, n, t) == Entry(was, n, t);
      }
    }

    method RemoveRrset(rtype: Rtype)
      requires zone.Valid()
      modifies zone
      ensures zone.Valid()
      ensures Zone(zone.content, zone.skipped) ==
                Apply(zone.skipSigned, Zone(old(zone.content), old(zone.skipped)), Remove(name, rtype))
    {
      ghost var before, was := zone.tree, zone.content;
      if name in zone.tree {
        RetainMeans(zone.tree[name], rtype);
        zone.tree := zone.tree[name := Retain(zone.tree[name], rtype)];
      }
      zone.content := zone.content - {(name, rtype)};
      forall n, t ensures Get(zone.tree, n, t) == Entry(zone.content, n, t) {
        assert Get(before, n, t) == Entry(was, n, t);
      }
    }

    /** Clears the whole zone, whatever the node. */
    method RemoveAll()
      requires zone.Valid()
      modifies zone
      ensures zone.Valid()
      ensures Zone(zone.content, zone.skipped) ==
                Apply(zone.skipSigned, Zone(old(zone.content), old(zone.skipped)), Clear)
    {
      zone.tree := map[];
      zone.content := map[];
    }
  }

  //// Runs ////

  datatype Zone = Zone(content: Content, skipped: nat)

  datatype Action = Reopen | Update(name: Name, rrset: Rrset) | Remove(name: Name, rtype: Rtype) | Clear

  predicate Filtered(skipSigned: bool, a: Action) {
    skipSigned && a.Update? && IsDnssec(a.rrset.rtype)
  }

  function Apply(skipSigned: bool, zone: Zone, a: Action): Zone {
    match a
    case Reopen => zone.(skipped := 0)
    case Update(name, rrset) =>
      if Filtered(skipSigned, a) then zone.(skipped := zone.skipped + 1)
      else zone.(content := zone.content[(name, rrset.rtype) := rrset])
    case Remove(name, rtype) => zone.(content := zone.content - {(name, rtype)})
    case Clear => zone.(content := map[])
  }

  function Run(skipSigned: bool, actions: seq<Action>): Zone {
    if actions == [] then Zone(map[], 0)
    else Apply(skipSigned, Run(skipSigned, actions[..|actions| - 1]), actions[|actions| - 1])
  }

  /** What the last action that concerns an owner and a type left there. */
  function Latest(skipSigned: bool, actions: seq<Action>, name: Name, t: Rtype): Option<Rrset> {
    if actions == [] then None
    else
      var earlier, last := actions[..|actions| - 1], actions[|actions| - 1];
      match last
      case Clear => None
      case Remove(n, r) => if n == name && r == t then None else Latest(skipSigned, earlier, name, t)
      case Update(n, rrset) =>
        if n == name && rrset.rtype == t && !(skipSigned && IsDnssec(t)) then Some(rrset)
        else Latest(skipSigned, earlier, name, t)
      case Reopen => Latest(skipSigned, earlier, name, t)
  }

  function SkippedSinceOpen(skipSigned: bool, actions: seq<Action>): nat {
    if actions == [] || actions[|actions| - 1].Reopen? then 0
    else
      SkippedSinceOpen(skipSigned, actions[..|actions| - 1])
      + if Filtered(skipSigned, actions[|actions| - 1]) then 1 else 0
  }

  /** After any updates, removals and clears, the zone has for each owner and type what the last one left. */
  lemma {:induction false} HoldsTheLatest(skipSigned: bool, actions: seq<Action>, name: Name, t: Rtype)
    ensures Entry(Run(skipSigned, actions).content, name, t) == Latest(skipSigned, actions, name, t)
  {
    if actions != [] {
      HoldsTheLatest(skipSigned, actions[..|actions| - 1], name, t);
    }
  }

  lemma {:induction false} LatestIsNoDnssec(actions: seq<Action>, name: Name, t: Rtype)
    requires IsDnssec(t)
    ensures Latest(true, actions, name, t).None?
  {
    if actions != [] {
      LatestIsNoDnssec(actions[..|actions| - 1], name, t);
    }
  }

  /** A zone that skips signatures holds none of the DNSSEC types, and counts just what it skipped since it
      was last opened. */
  lemma {:induction false} SkipsAndCounts(skipSigned: bool, actions: seq<Action>)
    ensures Run(skipSigned, actions).skipped == SkippedSinceOpen(skipSigned, actions)
    ensures skipSigned ==> forall k :: k in Run(skipSigned, actions).content ==> k.1.Other?
  {
    if actions != [] {
      SkipsAndCounts(skipSigned, actions[..|actions| - 1]);
    }
  }
}
