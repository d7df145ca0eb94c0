/**
 What the panel does to its tables when it starts: legacy AmneziaWG names are
 migrated, connections of protocols that a server does not have are dropped, and
 protocols whose container is gone are dropped with their connections
 (app/core/config.py, app/services/startup_reconciliation.py, app/main.py).
 */
module Startup {
  import opened Tables

  /** A server's protocols in insertion order, as a JSON object keeps them; values are not looked into. */
  type Dict = seq<(string, string)>

  ghost predicate IsDict(d: Dict) {
    forall i, j :: 0 <= i < j < |d| ==> d[i].0 != d[j].0
  }

  predicate IsAlias(p: string) {
    p == "awg2" || p == "awg_legacy"
  }

  const AWG := "awg"

  lemma {:induction false} Normalizing(p: string)
    ensures NormalizeProtocol(p) == if IsAlias(p) then AWG else p
    ensures !IsAlias(AWG) && !IsAlias(NormalizeProtocol(p))
  {
  }

  function Lookup(d: Dict, k: string): (r: Option<string>)
    ensures r.Some? <==> exists i :: 0 <= i < |d| && d[i].0 == k
  {
    if d == [] then None
    else if d[|d| - 1].0 == k then Some(d[|d| - 1].1)
    else
      var rest := d[..|d| - 1];
      assert forall i :: 0 <= i < |rest| ==> rest[i] == d[i];
      Lookup(rest, k)
  }

  /** Assignment to a key: in place when it is there, at the end when not. */
  function Put(d: Dict, k: string, v: string): Dict {
    if d == [] then [(k, v)]
    else if d[|d| - 1].0 == k then d[..|d| - 1] + [(k, v)]
    else if Lookup(d, k).Some? then Put(d[..|d| - 1], k, v) + [d[|d| - 1]]
    else d + [(k, v)]
  }

  lemma {:induction false} LookupLast(d: Dict, e: (string, string), k: string)
    ensures Lookup(d + [e], k) == if e.0 == k then Some(e.1) else Lookup(d, k)
  {
    assert (d + [e])[..|d|] == d;
  }

  lemma {:induction false} PutThenLookup(d: Dict, k: string, v: string, x: string)
    ensures Lookup(Put(d, k, v), x) == if x == k then Some(v) else Lookup(d, x)
  {
    if d != [] {
      var rest, e := d[..|d| - 1], d[|d| - 1];
      assert d == rest + [e];
      LookupLast(rest, e, x);
      LookupLast(rest, (k, v), x);
      LookupLast(d, (k, v), x);
      if e.0 != k && Lookup(d, k).Some? {
        PutThenLookup(rest, k, v, x);
        LookupLast(Put(rest, k, v), e, x);
      }
    } else {
      LookupLast([], (k, v), x);
      assert [] + [(k, v)] == [(k, v)];
    }
  }

  lemma {:induction false} DictLast(d: Dict, e: (string, string))
    requires IsDict(d) && Lookup(d, e.0).None?
    ensures IsDict(d + [e])
  {
  }

  lemma {:induction false} PutIsDict(d: Dict, k: string, v: string)
    requires IsDict(d)
    ensures IsDict(Put(d, k, v))
  {
    if d != [] {
      var rest, e := d[..|d| - 1], d[|d| - 1];
      assert d == rest + [e];
      if e.0 == k {
        assert Lookup(rest, k).None?;
        DictLast(rest, (k, v));
      } else if Lookup(d, k).Some? {
        PutIsDict(rest, k, v);
        assert Lookup(rest, e.0).None?;
        PutThenLookup(rest, k, v, e.0);
        DictLast(Put(rest, k, v), e);
      } else {
        DictLast(d, (k, v));
      }
    }
  }

  // ----- Migration -----

  predicate HasAlias(d: Dict) {
    exists i :: 0 <= i < |d| && IsAlias(d[i].0)
  }

  /** The value of the first legacy key. */
  function FirstAlias(d: Dict): Option<string> {
    if d == [] then None
    else
      var before := FirstAlias(d[..|d| - 1]);
      if before.Some? then before
      else if IsAlias(d[|d| - 1].0) then Some(d[|d| - 1].1)
      else None
  }

  /** What a key must hold afterwards: an existing "awg" entry wins over any legacy one. */
  function MigratedValue(d: Dict, k: string): Option<string> {
    if k == AWG then if Lookup(d, AWG).Some? then Lookup(d, AWG) else FirstAlias(d)
    else if IsAlias(k) then None
    else Lookup(d, k)
  }

  ghost predicate Holds(after: Dict, before: Dict) {
    IsDict(after) && forall k :: Lookup(after, k) == MigratedValue(before, k)
  }

  /** One more entry of the old dictionary. */
  lemma {:induction false} MigratedLast(d: Dict, e: (string, string), k: string)
    requires IsDict(d + [e])
    ensures MigratedValue(d + [e], k) ==
      if IsAlias(e.0) then if k == AWG && MigratedValue(d, AWG).None? then Some(e.1) else MigratedValue(d, k)
      else if k == e.0 then Some(e.1)
      else MigratedValue(d, k)
  {
    Normalizing(e.0);
    assert (d + [e])[..|d|] == d;
    LookupLast(d, e, k);
    LookupLast(d, e, AWG);
  }

  lemma {:induction false} AliasLast(d: Dict, e: (string, string))
    ensures HasAlias(d + [e]) == (HasAlias(d) || IsAlias(e.0))
  {
    var more := d + [e];
    if HasAlias(d) {
      var i :| 0 <= i < |d| && IsAlias(d[i].0);
      assert more[i] == d[i];
    }
    if IsAlias(e.0) { assert more[|d|] == e; }
  }

  /** The loop over one server's protocols. */
  method MigrateServer(d: Dict) returns (renamed: Dict, needsWrite: bool)
    requires IsDict(d)
    ensures Holds(renamed, d)
    ensures needsWrite == HasAlias(d)
  {
    renamed, needsWrite := [], false;
    for i := 0 to |d|
      invariant Holds(renamed, d[..i])
      invariant needsWrite == HasAlias(d[..i])
    {
      renamed, needsWrite := MigrateEntry(d[..i], d[i], renamed, needsWrite);
      assert d[..i + 1] == d[..i] + [d[i]];
    }
    assert d[..|d|] == d;
  }

  method MigrateEntry(ghost done: Dict, e: (string, string), before: Dict, wrote: bool)
    returns (after: Dict, needsWrite: bool)
    requires IsDict(done + [e]) && Holds(before, done) && wrote == HasAlias(done)
    ensures Holds(after, done + [e]) && needsWrite == HasAlias(done + [e])
  {
    after, needsWrite := before, wrote;
    if IsAlias(e.0) {
      if Lookup(after, AWG).None? { after := Put(after, AWG, e.1); }
      needsWrite := true;
    } else {
      after := Put(after, e.0, e.1);
    }
    AliasLast(done, e);
    PutIsDict(before, AWG, e.1);
    PutIsDict(before, e.0, e.1);
    forall k ensures Lookup(after, k) == MigratedValue(done + [e], k) {
      MigratedLast(done, e, k);
      PutThenLookup(before, AWG, e.1, k);
      PutThenLookup(before, e.0, e.1, k);
    }
  }

  ghost predicate MigratedServer(before: Dict, after: Dict) {
    if HasAlias(before) then Holds(after, before) else after == before
  }

  ghost predicate MigratedServers(before: map<ServerId, Dict>, after: map<ServerId, Dict>) {
    after.Keys == before.Keys && forall s :: s in before ==> MigratedServer(before[s], after[s])
  }

  ghost predicate RenamedAll(before: Connections, after: Connections) {
    && after.Keys == before.Keys
    && forall c :: c in before ==> after[c] == before[c].(protocol := NormalizeProtocol(before[c].protocol))
  }

  /** A name some key of the server normalizes to. */
  predicate NormalKey(d: Dict, k: string) {
    exists i :: 0 <= i < |d| && NormalizeProtocol(d[i].0) == k
  }

  lemma {:induction false} FirstAliasIff(d: Dict)
    ensures FirstAlias(d).Some? <==> HasAlias(d)
  {
    if d != [] {
      var rest, e := d[..|d| - 1], d[|d| - 1];
      assert d == rest + [e];
      FirstAliasIff(rest);
      AliasLast(rest, e);
    }
  }

  /** After the migration a server's keys are exactly its keys before, normalized. */
  lemma {:induction false} KeysAreNormalized(before: Dict, after: Dict, k: string)
    requires MigratedServer(before, after)
    ensures Lookup(after, k).Some? <==> NormalKey(before, k)
  {
    Normalizing(k);
    FirstAliasIff(before);
    if NormalKey(before, k) {
      var i :| 0 <= i < |before| && NormalizeProtocol(before[i].0) == k;
      Normalizing(before[i].0);
      if !IsAlias(before[i].0) { assert Lookup(before, k).Some?; }
    }
    if Lookup(after, k).Some? {
      if Lookup(before, k).Some? {
        var i :| 0 <= i < |before| && before[i].0 == k;
        Normalizing(before[i].0);
      } else {
        assert k == AWG && HasAlias(before);
        var i :| 0 <= i < |before| && IsAlias(before[i].0);
        Normalizing(before[i].0);
      }
    }
  }

  lemma {:induction false} NoAliasLeft(before: Dict, after: Dict)
    requires MigratedServer(before, after)
    ensures !HasAlias(after)
  {
    if HasAlias(after) {
      var i :| 0 <= i < |after| && IsAlias(after[i].0);
      assert Lookup(after, after[i].0).Some?;
      KeysAreNormalized(before, after, after[i].0);
      var j :| 0 <= j < |before| && NormalizeProtocol(before[j].0) == after[i].0;
      Normalizing(before[j].0);
      assert false;
    }
  }

  /** Migrating again changes nothing. */
  lemma {:induction false} MigrationIsIdempotent(s0: map<ServerId, Dict>, s1: map<ServerId, Dict>, s2: map<ServerId, Dict>,
                                                 c0: Connections, c1: Connections, c2: Connections)
    requires MigratedServers(s0, s1) && MigratedServers(s1, s2)
    requires RenamedAll(c0, c1) && RenamedAll(c1, c2)
    ensures s2 == s1 && c2 == c1
  {
    forall s | s in s1 ensures s2[s] == s1[s] { NoAliasLeft(s0[s], s1[s]); }
    forall c | c in c1 ensures c2[c] == c1[c] {
      Normalizing(c0[c].protocol);
      Normalizing(c1[c].protocol);
    }
  }

  // ----- Container checks -----

  datatype Check = Present | Absent | Failed

  /** What the start-up check of one server brought. A protocol without a result could not be checked. */
  datatype Probe = Unreachable | Checked(results: map<string, Check>)

  predicate Gone(p: Probe, k: string) {
    p.Checked? && k in p.results && p.results[k] == Absent
  }

  function ProbeOf(probes: map<ServerId, Probe>, s: ServerId): Probe {
    if s in probes then probes[s] else Unreachable
  }

  /** The protocols of the dictionary that are gone, in order. */
  function StaleKeys(d: Dict, p: Probe): (r: seq<string>)
    ensures forall k :: k in r <==> Lookup(d, k).Some? && Gone(p, k)
  {
    if d == [] then []
    else
      var e := d[|d| - 1];
      var rest := StaleKeys(d[..|d| - 1], p);
      assert d == d[..|d| - 1] + [e];
      if Gone(p, e.0) then rest + [e.0] else rest
  }

  function Remove(d: Dict, k: string): Dict {
    if d == [] then []
    else
      var e := d[|d| - 1];
      if e.0 == k then Remove(d[..|d| - 1], k) else Remove(d[..|d| - 1], k) + [e]
  }

  lemma {:induction false} RemoveThenLookup(d: Dict, k: string, x: string)
    ensures Lookup(Remove(d, k), x) == if x == k then None else Lookup(d, x)
  {
    if d != [] {
      var rest, e := d[..|d| - 1], d[|d| - 1];
      RemoveThenLookup(rest, k, x);
      LookupLast(Remove(rest, k), e, x);
    }
  }

  ghost predicate Cleaned(before: Dict, after: Dict, p: Probe) {
    && (forall k :: Lookup(after, k) == if Gone(p, k) then None else Lookup(before, k))
    && (StaleKeys(before, p) == [] ==> after == before)
  }

  // ----- The tables -----

  class Panel {
    var servers: map<ServerId, Dict>
    var connections: Connections

    constructor (ss: map<ServerId, Dict>, cs: Connections)
      ensures servers == ss && connections == cs
    {
      servers, connections := ss, cs;
    }

    method DeleteByServerAndProtocol(sid: ServerId, proto: string)
      modifies this`connections
      ensures forall c :: c in connections <==>
        c in old(connections) && !(old(connections)[c].serverId == sid && old(connections)[c].protocol == proto)
      ensures forall c :: c in connections ==> connections[c] == old(connections)[c]
    {
      var before := connections;
      connections := map c | c in before && !(before[c].serverId == sid && before[c].protocol == proto) :: before[c];
    }

    method RenameProtocol(alias: string)
      modifies this`connections
      ensures connections.Keys == old(connections).Keys
      ensures forall c :: c in connections ==>
        connections[c] == if old(connections)[c].protocol == alias then old(connections)[c].(protocol := AWG) else old(connections)[c]
    {
      var before := connections;
      connections := map c | c in before :: if before[c].protocol == alias then before[c].(protocol := AWG) else before[c];
    }

    /** migrate_awg_protocol_names; `order` lists the servers. */
    method MigrateNames(order: seq<ServerId>)
      requires forall s :: s in order <==> s in servers
      requires Distinct(order) && forall s :: s in servers ==> IsDict(servers[s])
      modifies this
      ensures MigratedServers(old(servers), servers)
      ensures RenamedAll(old(connections), connections)
    {
      ghost var before, conns := servers, connections;
      for i := 0 to |order|
        invariant servers.Keys == before.Keys && connections == conns
        invariant forall s :: s in before ==>
          if s in order[..i] then MigratedServer(before[s], servers[s]) else servers[s] == before[s]
      {
        var sid := order[i];
        assert sid !in order[..i];
        var renamed, needsWrite := MigrateServer(servers[sid]);
        if needsWrite { servers := servers[sid := renamed]; }
        assert order[..i + 1] == order[..i] + [sid];
      }
      assert order[..|order|] == order;
      RenameProtocol("awg2");
      RenameProtocol("awg_legacy");
    }

    /** Phase 1: connections over protocols that their server does not list are deleted. */
    method DropOrphans(order: seq<ServerId>)
      requires forall s :: s in order ==> s in servers
      modifies this`connections
      ensures forall c :: c in connections <==>
        c in old(connections) && (old(connections)[c].serverId in order ==> Listed(servers, old(connections)[c]))
      ensures forall c :: c in connections ==> connections[c] == old(connections)[c]
    {
      ghost var conns := connections;
      for i := 0 to |order|
        invariant forall c :: c in connections <==>
          c in conns && (conns[c].serverId in order[..i] ==> Listed(servers, conns[c]))
        invariant forall c :: c in connections ==> connections[c] == conns[c]
      {
        DropOrphansOf(order[i]);
        assert order[..i + 1] == order[..i] + [order[i]];
      }
      assert order[..|order|] == order;
    }

    method DropOrphansOf(sid: ServerId)
      requires sid in servers
      modifies this`connections
      ensures forall c :: c in connections <==>
        c in old(connections) && (old(connections)[c].serverId == sid ==> Listed(servers, old(connections)[c]))
      ensures forall c :: c in connections ==> connections[c] == old(connections)[c]
    {
      var before := connections;
      var orphans := set c | c in before && before[c].serverId == sid && Lookup(servers[sid], before[c].protocol).None? ::
        before[c].protocol;
      var left := orphans;
      while left != {}
        invariant left <= orphans
        invariant forall c :: c in connections <==>
          c in before && !(before[c].serverId == sid && before[c].protocol in orphans && before[c].protocol !in left)
        invariant forall c :: c in connections ==> connections[c] == before[c]
      {
        var proto :| proto in left;
        DeleteByServerAndProtocol(sid, proto);
        left := left - {proto};
      }
    }

    /** Phase 2: protocols whose check says absent go, with their connections; any error changes nothing. */
    method DropStale(order: seq<ServerId>, probes: map<ServerId, Probe>)
      requires Distinct(order) && forall s :: s in order <==> s in servers
      modifies this
      ensures servers.Keys == old(servers).Keys
      ensures forall s :: s in servers ==> Cleaned(old(servers)[s], servers[s], ProbeOf(probes, s))
      ensures forall c :: c in connections <==>
        c in old(connections) && !IsStale(old(servers), probes, old(connections)[c].serverId, old(connections)[c].protocol)
      ensures forall c :: c in connections ==> connections[c] == old(connections)[c]
    {
      ghost var before, conns := servers, connections;
      for i := 0 to |order|
        invariant servers.Keys == before.Keys
        invariant forall s :: s in before ==>
          if s in order[..i] then Cleaned(before[s], servers[s], ProbeOf(probes, s)) else servers[s] == before[s]
        invariant forall c :: c in connections <==>
          c in conns && !(conns[c].serverId in order[..i] && IsStale(before, probes, conns[c].serverId, conns[c].protocol))
        invariant forall c :: c in connections ==> connections[c] == conns[c]
      {
        assert order[i] !in order[..i];
        DropStaleOf(order[i], ProbeOf(probes, order[i]));
        assert order[..i + 1] == order[..i] + [order[i]];
      }
      assert order[..|order|] == order;
    }

    method DropStaleOf(sid: ServerId, probe: Probe)
      requires sid in servers
      modifies this
      ensures servers.Keys == old(servers).Keys && Cleaned(old(servers)[sid], servers[sid], probe)
      ensures forall s :: s in servers && s != sid ==> servers[s] == old(servers)[s]
      ensures forall c :: c in connections <==>
        c in old(connections) && !StaleRow(old(servers)[sid], probe, sid, old(connections)[c])
      ensures forall c :: c in connections ==> connections[c] == old(connections)[c]
    {
      var protocols := servers[sid];
      var stale := StaleKeys(protocols, probe);
      ghost var conns, before := connections, servers;
      for i := 0 to |stale|
        invariant servers == before
        invariant forall c :: c in connections <==>
          c in conns && !(conns[c].serverId == sid && conns[c].protocol in stale[..i])
        invariant forall c :: c in connections ==> connections[c] == conns[c]
        invariant forall k :: Lookup(protocols, k) == if k in stale[..i] then None else Lookup(before[sid], k)
        invariant i == 0 ==> protocols == before[sid]
      {
        DeleteByServerAndProtocol(sid, stale[i]);
        forall k { RemoveThenLookup(protocols, stale[i], k); }
        protocols := Remove(protocols, stale[i]);
        assert stale[..i + 1] == stale[..i] + [stale[i]];
      }
      assert stale[..|stale|] == stale;
      if stale != [] { servers := servers[sid := protocols]; }
    }

    /** The order of the application's start-up: migration, then both phases. */
    method StartUp(order: seq<ServerId>, probes: map<ServerId, Probe>)
      requires forall s :: s in order <==> s in servers
      requires Distinct(order) && forall s :: s in servers ==> IsDict(servers[s])
      modifies this
      ensures servers.Keys == old(servers).Keys
      ensures forall s, k :: s in servers ==>
        (Lookup(servers[s], k).Some? <==> NormalKey(old(servers)[s], k) && !Gone(ProbeOf(probes, s), k))
      ensures forall c :: c in connections <==>
        c in old(connections) && Survives(old(servers), probes, old(connections)[c])
      ensures forall c :: c in connections ==>
        connections[c] == old(connections)[c].(protocol := NormalizeProtocol(old(connections)[c].protocol))
    {
      ghost var servers0, conns0 := servers, connections;
      MigrateNames(order);
      ghost var servers1 := servers;
      DropOrphans(order);
      DropStale(order, probes);
      forall s, k | s in servers0 ensures Lookup(servers1[s], k).Some? <==> NormalKey(servers0[s], k) {
        KeysAreNormalized(servers0[s], servers1[s], k);
      }
    }
  }

  /** The connection's protocol is a key of its server. */
  ghost predicate Listed(servers: map<ServerId, Dict>, c: Connection) {
    c.serverId in servers && Lookup(servers[c.serverId], c.protocol).Some?
  }

  ghost predicate StaleRow(d: Dict, probe: Probe, sid: ServerId, c: Connection) {
    c.serverId == sid && Lookup(d, c.protocol).Some? && Gone(probe, c.protocol)
  }

  ghost predicate IsStale(servers: map<ServerId, Dict>, probes: map<ServerId, Probe>, s: ServerId, k: string) {
    s in servers && Lookup(servers[s], k).Some? && Gone(ProbeOf(probes, s), k)
  }

  /** Its normalized protocol is a normalized key of its server and was not found absent. */
  ghost predicate Survives(servers: map<ServerId, Dict>, probes: map<ServerId, Probe>, c: Connection) {
    var k := NormalizeProtocol(c.protocol);
    c.serverId in servers ==> NormalKey(servers[c.serverId], k) && !Gone(ProbeOf(probes, c.serverId), k)
  }
}
