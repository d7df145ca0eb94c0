/**
 The collecting half of the periodic traffic job: every reachable server is asked
 for its clients' counters, and each connection it reports becomes one update
 (app/services/background_orchestrator.py).
 */
module TrafficPolling {
  import opened Tables
  import opened Accounting

  /** A server's answer for one protocol: its clients in order, or None when the query failed. */
  type Answers = map<string, Option<seq<(string, Reading)>>>

  /** One server of the poll; the answers hold one entry per installed protocol. */
  datatype Polled = Polled(id: ServerId, reachable: bool, answers: Answers)

  const POLLED_PROTOCOLS: seq<string> := ["awg", "xray", "telemt"]

  /** The reading of a client: a later entry for the same client replaces an earlier one. */
  function ReadingOf(clients: seq<(string, Reading)>, clientId: string): Option<Reading> {
    if clients == [] then None
    else
      var last := clients[|clients| - 1];
      if last.0 == clientId then Some(last.1) else ReadingOf(clients[..|clients| - 1], clientId)
  }

  function ClientTable(clients: seq<(string, Reading)>): (r: map<string, Reading>)
    ensures forall id :: id in r <==> ReadingOf(clients, id).Some?
    ensures forall id :: id in r ==> ReadingOf(clients, id) == Some(r[id])
  {
    if clients == [] then map[]
    else ClientTable(clients[..|clients| - 1])[clients[|clients| - 1].0 := clients[|clients| - 1].1]
  }

  /** What server `s` reports for connection `c`, if it reports anything. */
  function Reported(s: Polled, c: Connection): Option<Reading> {
    var p := NormalizeProtocol(c.protocol);
    if c.serverId == s.id && s.reachable && p in POLLED_PROTOCOLS && p in s.answers && s.answers[p].Some?
    then ReadingOf(s.answers[p].value, c.clientId)
    else None
  }

  predicate Due(servers: seq<Polled>, c: Connection) {
    exists i :: 0 <= i < |servers| && Reported(servers[i], c).Some?
  }

  predicate Answered(servers: seq<Polled>, c: Connection, u: Update) {
    exists i :: 0 <= i < |servers| && Reported(servers[i], c).Some?
      && u == UpdateFor(u.conn, c, Reported(servers[i], c).value)
  }

  predicate Updates(updates: seq<Update>, c: Id) {
    exists i :: 0 <= i < |updates| && updates[i].conn == c
  }

  ghost predicate OncePerConnection(updates: seq<Update>) {
    forall i, j :: 0 <= i < j < |updates| ==> updates[i].conn != updates[j].conn
  }

  /** Every connection that some server reports has exactly one update, made from that report. */
  ghost predicate Collected(servers: seq<Polled>, conns: Connections, updates: seq<Update>) {
    && OncePerConnection(updates)
    && (forall i :: 0 <= i < |updates| ==> updates[i].conn in conns && Answered(servers, conns[updates[i].conn], updates[i]))
    && (forall c :: c in conns && Due(servers, conns[c]) ==> Updates(updates, c))
  }

  ghost predicate SomeOf(updates: seq<Update>, rows: seq<Id>, conns: Connections, proto: string, table: map<string, Reading>) {
    && OncePerConnection(updates)
    && (forall c :: Updates(updates, c) <==>
          c in rows && c in conns && NormalizeProtocol(conns[c].protocol) == proto && conns[c].clientId in table)
    && (forall i :: 0 <= i < |updates| && updates[i].conn in conns && conns[updates[i].conn].clientId in table ==>
          updates[i] == UpdateFor(updates[i].conn, conns[updates[i].conn], table[conns[updates[i].conn].clientId]))
  }

  /** The innermost loop: the updates of one server's connections over one protocol. */
  method CollectProtocol(conns: Connections, rows: seq<Id>, proto: string, clients: seq<(string, Reading)>)
    returns (updates: seq<Update>)
    requires Distinct(rows) && forall c :: c in rows ==> c in conns
    ensures SomeOf(updates, rows, conns, proto, ClientTable(clients))
  {
    var table := ClientTable(clients);
    updates := [];
    for i := 0 to |rows|
      invariant SomeOf(updates, rows[..i], conns, proto, table)
    {
      var c := rows[i];
      assert rows[..i + 1] == rows[..i] + [c];
      assert c !in rows[..i];
      if NormalizeProtocol(conns[c].protocol) == proto && conns[c].clientId in table {
        ghost var before := updates;
        var u := MeasureConnection(c, conns[c], table[conns[c].clientId]);
        updates := updates + [u];
        UpdatesMore(before, updates[|before|]);
      }
    }
    assert rows[..|rows|] == rows;
  }

  /** The bytes since the last readings; a combined count from before they were kept apart is halved. */
  method MeasureConnection(id: Id, c: Connection, curr: Reading) returns (u: Update)
    ensures u == UpdateFor(id, c, curr)
  {
    var lastRx, lastTx := 0, 0;
    if c.lastRx.None? && c.lastTx.None? {
      lastRx := c.lastBytes / 2;
      lastTx := c.lastBytes - lastRx;
    } else {
      if c.lastRx.Some? { lastRx := c.lastRx.value; }
      if c.lastTx.Some? { lastTx := c.lastTx.value; }
    }
    var rx := if curr.rx >= lastRx then curr.rx - lastRx else curr.rx;
    var tx := if curr.tx >= lastTx then curr.tx - lastTx else curr.tx;
    u := Update(id, rx, tx, curr.rx, curr.tx);
  }

  lemma {:induction false} UpdatesMore(updates: seq<Update>, u: Update)
    ensures forall c :: Updates(updates + [u], c) <==> Updates(updates, c) || c == u.conn
  {
    forall c ensures Updates(updates + [u], c) <==> Updates(updates, c) || c == u.conn {
      var more := updates + [u];
      assert more[|updates|] == u;
      assert forall i :: 0 <= i < |updates| ==> more[i] == updates[i];
    }
  }

  lemma {:induction false} UpdatesBoth(one: seq<Update>, two: seq<Update>, c: Id)
    ensures Updates(one + two, c) <==> Updates(one, c) || Updates(two, c)
  {
    var both := one + two;
    assert forall i :: 0 <= i < |one| ==> both[i] == one[i];
    assert forall i :: 0 <= i < |two| ==> both[|one| + i] == two[i];
  }

  lemma {:induction false} OnceInBoth(one: seq<Update>, two: seq<Update>)
    requires OncePerConnection(one) && OncePerConnection(two)
    requires forall c :: Updates(one, c) ==> !Updates(two, c)
    ensures OncePerConnection(one + two)
  {
    forall i, j | 0 <= i < j < |one + two| ensures (one + two)[i].conn != (one + two)[j].conn {
      if i < |one| && j >= |one| {
        assert Updates(one, one[i].conn);
        assert (one + two)[j] == two[j - |one|];
      }
    }
  }

  /** Exactly the connections that server `s` reports, among the protocols in `protos`. */
  ghost predicate FromServer(updates: seq<Update>, s: Polled, conns: Connections, protos: seq<string>) {
    && OncePerConnection(updates)
    && (forall c :: Updates(updates, c) <==>
          c in conns && Reported(s, conns[c]).Some? && NormalizeProtocol(conns[c].protocol) in protos)
    && (forall i :: 0 <= i < |updates| && updates[i].conn in conns && Reported(s, conns[updates[i].conn]).Some? ==>
          updates[i] == UpdateFor(updates[i].conn, conns[updates[i].conn], Reported(s, conns[updates[i].conn]).value))
  }

  /** Exactly the connections that server `s` reports. */
  ghost predicate AllFrom(updates: seq<Update>, s: Polled, conns: Connections) {
    && OncePerConnection(updates)
    && (forall c :: Updates(updates, c) <==> c in conns && Reported(s, conns[c]).Some?)
    && (forall i :: 0 <= i < |updates| && updates[i].conn in conns && Reported(s, conns[updates[i].conn]).Some? ==>
          updates[i] == UpdateFor(updates[i].conn, conns[updates[i].conn], Reported(s, conns[updates[i].conn]).value))
  }

  /** One server: its protocols in turn, a failing query skipping that protocol only. */
  method CollectServer(conns: Connections, rows: seq<Id>, s: Polled) returns (updates: seq<Update>)
    requires Distinct(rows) && forall c :: c in rows <==> c in conns && conns[c].serverId == s.id
    ensures AllFrom(updates, s, conns)
  {
    updates := [];
    if !s.reachable { return; }
    for j := 0 to |POLLED_PROTOCOLS|
      invariant FromServer(updates, s, conns, POLLED_PROTOCOLS[..j])
    {
      var proto := POLLED_PROTOCOLS[j];
      var part := [];
      if proto in s.answers && s.answers[proto].Some? {
        part := CollectProtocol(conns, rows, proto, s.answers[proto].value);
        PartIsReported(part, rows, conns, s, proto);
      }
      JoinParts(updates, part, s, conns, POLLED_PROTOCOLS[..j], proto);
      updates := updates + part;
      assert POLLED_PROTOCOLS[..j + 1] == POLLED_PROTOCOLS[..j] + [proto];
    }
    assert POLLED_PROTOCOLS[..|POLLED_PROTOCOLS|] == POLLED_PROTOCOLS;
  }

  lemma {:induction false} PartIsReported(part: seq<Update>, rows: seq<Id>, conns: Connections, s: Polled, proto: string)
    requires s.reachable && proto in POLLED_PROTOCOLS && proto in s.answers && s.answers[proto].Some?
    requires forall c :: c in rows <==> c in conns && conns[c].serverId == s.id
    requires SomeOf(part, rows, conns, proto, ClientTable(s.answers[proto].value))
    ensures FromServer(part, s, conns, [proto])
  {
  }

  lemma {:induction false} JoinParts(one: seq<Update>, two: seq<Update>, s: Polled, conns: Connections,
                                     protos: seq<string>, proto: string)
    requires FromServer(one, s, conns, protos) && FromServer(two, s, conns, [proto])
    requires proto !in protos
    ensures FromServer(one + two, s, conns, protos + [proto])
  {
    OnceInBoth(one, two);
    forall c { UpdatesBoth(one, two, c); }
  }

  /** All servers of the poll, in order. */
  method CollectUpdates(db: Database, servers: seq<Polled>) returns (updates: seq<Update>)
    requires forall i, j :: 0 <= i < j < |servers| ==> servers[i].id != servers[j].id
    ensures Collected(servers, db.connections, updates)
  {
    var conns := db.connections;
    var all := ListKeys(conns);
    var byServer := GroupByServer(conns, all);
    updates := [];
    for i := 0 to |servers|
      invariant Collected(servers[..i], conns, updates)
    {
      updates := CollectNext(conns, byServer, servers[..i], servers[i], updates);
      assert servers[..i + 1] == servers[..i] + [servers[i]];
    }
    assert servers[..|servers|] == servers;
  }

  ghost predicate Grouped(conns: Connections, groups: map<ServerId, seq<Id>>) {
    && (forall s :: s in groups ==>
          Distinct(groups[s]) && forall c :: c in groups[s] <==> c in conns && conns[c].serverId == s)
    && (forall c :: c in conns ==> conns[c].serverId in groups)
  }

  /** One round of the loop over the servers. */
  method CollectNext(conns: Connections, byServer: map<ServerId, seq<Id>>, ghost done: seq<Polled>, s: Polled,
                     before: seq<Update>)
    returns (updates: seq<Update>)
    requires Grouped(conns, byServer)
    requires forall i :: 0 <= i < |done| ==> done[i].id != s.id
    requires Collected(done, conns, before)
    ensures Collected(done + [s], conns, updates)
  {
    var part := [];
    if s.id in byServer {
      part := CollectServer(conns, byServer[s.id], s);
    } else {
      NobodyReported(conns, s);
    }
    JoinServers(done, s, conns, before, part);
    updates := before + part;
  }

  lemma {:induction false} NobodyReported(conns: Connections, s: Polled)
    requires forall c :: c in conns ==> conns[c].serverId != s.id
    ensures AllFrom([], s, conns)
  {
  }

  method GroupByServer(conns: Connections, all: seq<Id>) returns (groups: map<ServerId, seq<Id>>)
    requires Lists(all, conns)
    ensures Grouped(conns, groups)
  {
    groups := map[];
    for i := 0 to |all|
      invariant forall s :: s in groups ==>
        Distinct(groups[s]) && forall c :: c in groups[s] <==> c in all[..i] && conns[c].serverId == s
      invariant forall c :: c in all[..i] ==> conns[c].serverId in groups
    {
      var s := conns[all[i]].serverId;
      assert all[i] !in all[..i];
      groups := groups[s := (if s in groups then groups[s] else []) + [all[i]]];
      assert all[..i + 1] == all[..i] + [all[i]];
    }
    assert all[..|all|] == all;
  }

  lemma {:induction false} JoinServers(servers: seq<Polled>, s: Polled, conns: Connections, one: seq<Update>, two: seq<Update>)
    requires forall i :: 0 <= i < |servers| ==> servers[i].id != s.id
    requires Collected(servers, conns, one) && AllFrom(two, s, conns)
    ensures Collected(servers + [s], conns, one + two)
  {
    forall c | Updates(one, c) ensures !Updates(two, c) {
      var i :| 0 <= i < |one| && one[i].conn == c;
      assert Answered(servers, conns[c], one[i]);
    }
    OnceInBoth(one, two);
    forall i | 0 <= i < |one + two|
      ensures (one + two)[i].conn in conns && Answered(servers + [s], conns[(one + two)[i].conn], (one + two)[i])
    {
      if i < |one| {
        AnsweredMore(servers, s, conns[one[i].conn], one[i]);
      } else {
        var u := two[i - |one|];
        assert Updates(two, u.conn);
        assert (servers + [s])[|servers|] == s;
      }
    }
    forall c | c in conns && Due(servers + [s], conns[c]) ensures Updates(one + two, c) {
      UpdatesBoth(one, two, c);
      var i :| 0 <= i < |servers + [s]| && Reported((servers + [s])[i], conns[c]).Some?;
      if i < |servers| { assert Due(servers, conns[c]); }
    }
  }

  lemma {:induction false} AnsweredMore(servers: seq<Polled>, s: Polled, c: Connection, u: Update)
    requires Answered(servers, c, u)
    ensures Answered(servers + [s], c, u)
  {
    var i :| 0 <= i < |servers| && Reported(servers[i], c).Some?
      && u == UpdateFor(u.conn, c, Reported(servers[i], c).value);
    assert (servers + [s])[i] == servers[i];
  }
}
