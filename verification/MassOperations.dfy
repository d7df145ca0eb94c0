/**
 Mass deletion, toggling and creation of connections: operations are grouped by
 server, the servers' task lists run in parallel and may fail anywhere, and the
 user rows are settled at the end (app/services/user_operations.py).
 */
module MassOperations {
  import opened Tables

  datatype CreateRequest = CreateRequest(userId: Id, serverId: ServerId, protocol: string, name: string)

  /** One remote call of a server's task list, in the order deletes, toggles, creates. */
  datatype Action =
    | RemovePeer(conn: Id, row: Connection)
    | TogglePeer(conn: Id, row: Connection, enabled: bool)
    | AddPeer(req: CreateRequest)

  datatype ServerOps = ServerOps(deletes: seq<Action>, toggles: seq<Action>, creates: seq<Action>)

  const NO_OPS := ServerOps([], [], [])

  /**
   One step of the scheduler: the next action of `server` runs, or raises.
   A finished AddPeer reports the client id it got (possibly empty) and the id of the new row.
   */
  datatype Turn = Turn(server: ServerId, result: Outcome)
  datatype Outcome = Raises | Completes(clientId: string, newId: Id)

  /** A finished call, with what the server answered. */
  datatype Call = Call(server: ServerId, action: Action, clientId: string, newId: Id)

  /** What the running tasks can change: the connection rows, what is left to do, and the calls made. */
  datatype Progress = Progress(
    connections: Connections,
    pending: map<ServerId, seq<Action>>,
    calls: seq<Call>)

  function Plan(ops: ServerOps): seq<Action> {
    ops.deletes + ops.toggles + ops.creates
  }

  function NewRow(req: CreateRequest, server: ServerId, clientId: string): Connection {
    Connection(req.userId, server, req.protocol, clientId, req.name, Some(0), Some(0), 0, 0, 0, 0)
  }

  /** The server's remaining list is dropped: the task's exception handler ran. */
  function Abandon(p: Progress, server: ServerId): Progress {
    p.(pending := p.pending[server := []])
  }

  /** One scheduler step. Inserting a row fails when its id is taken or its user is gone. */
  function RunTurn(users: Users, p: Progress, t: Turn): Progress {
    if t.server !in p.pending || p.pending[t.server] == [] then p
    else if t.result.Raises? then Abandon(p, t.server)
    else
      var action := p.pending[t.server][0];
      var q := p.(pending := p.pending[t.server := p.pending[t.server][1..]],
                  calls := p.calls + [Call(t.server, action, t.result.clientId, t.result.newId)]);
      match action
      case RemovePeer(c, _) => q.(connections := q.connections - {c})
      case TogglePeer(_, _, _) => q
      case AddPeer(req) =>
        if t.result.clientId == "" then q
        else if t.result.newId in q.connections || req.userId !in users then Abandon(q, t.server)
        else q.(connections := q.connections[t.result.newId := NewRow(req, t.server, t.result.clientId)])
  }

  function RunTurns(users: Users, p: Progress, turns: seq<Turn>): Progress
    decreases |turns|
  {
    if turns == [] then p
    else RunTurns(users, RunTurn(users, p, turns[0]), turns[1..])
  }

  lemma {:induction false} RunTurnsLast(users: Users, p: Progress, turns: seq<Turn>, t: Turn)
    ensures RunTurns(users, p, turns + [t]) == RunTurn(users, RunTurns(users, p, turns), t)
    decreases |turns|
  {
    if turns == [] {
      assert turns + [t] == [t];
      assert [t][1..] == [];
    } else {
      assert (turns + [t])[1..] == turns[1..] + [t];
      RunTurnsLast(users, RunTurn(users, p, turns[0]), turns[1..], t);
    }
  }

  /** An action names the connection row it acts on, and sits on that row's own server. */
  ghost predicate OnOwnServer(server: ServerId, action: Action) {
    match action
    case RemovePeer(_, row) => row.serverId == server
    case TogglePeer(_, row, _) => row.serverId == server
    case AddPeer(req) => req.serverId == server
  }

  /** Every deletion that is still to be done is of a row of a user in the delete list. */
  ghost predicate Justified(action: Action, before: Connections, doomed: seq<Id>, creates: seq<CreateRequest>) {
    match action
    case RemovePeer(c, row) => c in before && before[c] == row && row.userId in doomed
    case TogglePeer(c, row, _) => c in before && before[c] == row
    case AddPeer(req) => req in creates
  }

  /** What holds after any number of scheduler steps, whatever the order and whichever raised. */
  ghost predicate Safe(users: Users, before: Connections, doomed: seq<Id>, creates: seq<CreateRequest>,
                       issued: set<Id>, p: Progress)
  {
    SafeLists(before, doomed, creates, p) && SafeRows(users, before, doomed, creates, issued, p.connections)
  }

  ghost predicate SafeLists(before: Connections, doomed: seq<Id>, creates: seq<CreateRequest>, p: Progress) {
    && (forall s, i :: s in p.pending && 0 <= i < |p.pending[s]| ==>
          OnOwnServer(s, p.pending[s][i]) && Justified(p.pending[s][i], before, doomed, creates))
    && (forall i :: 0 <= i < |p.calls| ==> OnOwnServer(p.calls[i].server, p.calls[i].action))
  }

  ghost predicate SafeRows(users: Users, before: Connections, doomed: seq<Id>, creates: seq<CreateRequest>,
                           issued: set<Id>, rows: Connections)
  {
    && (forall c :: c in before && before[c].userId !in doomed ==> c in rows)
    && (forall c :: c in before && c in rows ==> rows[c] == before[c])
    && (forall c :: c in rows && c !in before ==> FromRequest(rows[c], users, creates) && c !in issued)
  }

  ghost predicate FromRequest(row: Connection, users: Users, creates: seq<CreateRequest>) {
    && row.userId in users
    && row.clientId != ""
    && CreateRequest(row.userId, row.serverId, row.protocol, row.name) in creates
    && row == NewRow(CreateRequest(row.userId, row.serverId, row.protocol, row.name), row.serverId, row.clientId)
  }

  /** uuid4 never hands out an id that was issued before. */
  ghost predicate FreshIds(turns: seq<Turn>, issued: set<Id>) {
    forall i :: 0 <= i < |turns| && turns[i].result.Completes? ==> turns[i].result.newId !in issued
  }

  lemma {:induction false} TurnKeepsLists(users: Users, before: Connections, doomed: seq<Id>, creates: seq<CreateRequest>,
                      p: Progress, t: Turn, q: Progress)
    requires SafeLists(before, doomed, creates, p) && q == RunTurn(users, p, t)
    ensures SafeLists(before, doomed, creates, q)
  {
    TurnShape(users, p, t, q);
    if Took(p, t.server, q) { assert OnOwnServer(t.server, p.pending[t.server][0]); }
  }

  lemma {:induction false} TurnKeepsRows(users: Users, before: Connections, doomed: seq<Id>, creates: seq<CreateRequest>,
                      issued: set<Id>, p: Progress, t: Turn)
    requires SafeLists(before, doomed, creates, p) && SafeRows(users, before, doomed, creates, issued, p.connections)
    requires t.result.Completes? ==> before.Keys <= issued && t.result.newId !in issued
    ensures SafeRows(users, before, doomed, creates, issued, RunTurn(users, p, t).connections)
  {
    if t.server in p.pending && p.pending[t.server] != [] && t.result.Completes? {
      var action := p.pending[t.server][0];
      assert OnOwnServer(t.server, action) && Justified(action, before, doomed, creates);
    }
  }

  lemma {:induction false} TurnKeepsSafe(users: Users, before: Connections, doomed: seq<Id>, creates: seq<CreateRequest>,
                      issued: set<Id>, p: Progress, t: Turn)
    requires Safe(users, before, doomed, creates, issued, p)
    requires t.result.Completes? ==> before.Keys <= issued && t.result.newId !in issued
    ensures Safe(users, before, doomed, creates, issued, RunTurn(users, p, t))
  {
    TurnKeepsLists(users, before, doomed, creates, p, t, RunTurn(users, p, t));
    TurnKeepsRows(users, before, doomed, creates, issued, p, t);
  }

  /** Safety over every interleaving and every pattern of failures. */
  lemma {:induction false} EveryInterleavingIsSafe(
      users: Users, before: Connections, doomed: seq<Id>, creates: seq<CreateRequest>, issued: set<Id>,
      p: Progress, turns: seq<Turn>)
    requires Safe(users, before, doomed, creates, issued, p)
    requires before.Keys <= issued && FreshIds(turns, issued)
    ensures Safe(users, before, doomed, creates, issued, RunTurns(users, p, turns))
    decreases |turns|
  {
    if turns != [] {
      TurnKeepsSafe(users, before, doomed, creates, issued, p, turns[0]);
      EveryInterleavingIsSafe(users, before, doomed, creates, issued, RunTurn(users, p, turns[0]), turns[1..]);
    }
  }

  /** The actions that were called on one server, in order. */
  function CallsOn(calls: seq<Call>, server: ServerId): seq<Action> {
    if calls == [] then []
    else
      var last := calls[|calls| - 1];
      CallsOn(calls[..|calls| - 1], server) + (if last.server == server then [last.action] else [])
  }

  /** One server's calls so far are a prefix of its plan, and a list that never raised is still complete. */
  ghost predicate FollowsPlan(p: Progress, server: ServerId, plan: seq<Action>) {
    && server in p.pending
    && CallsOn(p.calls, server) + p.pending[server] <= plan
    && (p.pending[server] != [] ==> CallsOn(p.calls, server) + p.pending[server] == plan)
  }

  /** A turn leaves the lists alone, or takes the head of one list, or drops one list with or without its call. */
  lemma {:induction false} TurnShape(users: Users, p: Progress, t: Turn, q: Progress)
    requires q == RunTurn(users, p, t)
    ensures (q.calls == p.calls && q.pending == p.pending) || Took(p, t.server, q)
  {
    if t.server in p.pending && p.pending[t.server] != [] {
      var rest := p.pending[t.server][1..];
      assert p.pending[t.server := rest][t.server := []] == p.pending[t.server := []];
    }
  }

  /** The head of the server's list was called, and nothing else. */
  ghost predicate Called(p: Progress, s: ServerId, q: Progress) {
    && s in p.pending && p.pending[s] != []
    && |q.calls| == |p.calls| + 1 && q.calls[..|p.calls|] == p.calls
    && q.calls[|p.calls|].server == s && q.calls[|p.calls|].action == p.pending[s][0]
  }

  ghost predicate Took(p: Progress, s: ServerId, q: Progress) {
    && s in p.pending && p.pending[s] != []
    && (q.calls == p.calls || Called(p, s, q))
    && (q.pending == p.pending[s := []] || (q.calls != p.calls && q.pending == p.pending[s := p.pending[s][1..]]))
  }

  lemma {:induction false} CallsOnLast(p: Progress, s: ServerId, q: Progress, server: ServerId)
    requires Called(p, s, q)
    ensures CallsOn(q.calls, server) == CallsOn(p.calls, server) + (if s == server then [p.pending[s][0]] else [])
  {
  }

  lemma {:induction false} TookFollowsPlan(p: Progress, s: ServerId, q: Progress, server: ServerId, plan: seq<Action>)
    requires FollowsPlan(p, server, plan) && Took(p, s, q)
    ensures FollowsPlan(q, server, plan)
  {
    var head := p.pending[s][0];
    if q.calls != p.calls { CallsOnLast(p, s, q, server); }
    if s == server {
      assert CallsOn(p.calls, server) + [head] + p.pending[s][1..] == CallsOn(p.calls, server) + p.pending[s];
    }
  }

  lemma {:induction false} TurnFollowsPlan(users: Users, p: Progress, t: Turn, server: ServerId, plan: seq<Action>)
    requires FollowsPlan(p, server, plan)
    ensures FollowsPlan(RunTurn(users, p, t), server, plan)
  {
    var q := RunTurn(users, p, t);
    TurnShape(users, p, t, q);
    if Took(p, t.server, q) { TookFollowsPlan(p, t.server, q, server, plan); }
  }

  /** In every interleaving each server still sees its own deletes, toggles and creates in order. */
  lemma {:induction false} EveryServerFollowsItsPlan(
      users: Users, p: Progress, turns: seq<Turn>, server: ServerId, plan: seq<Action>)
    requires FollowsPlan(p, server, plan)
    ensures FollowsPlan(RunTurns(users, p, turns), server, plan)
    decreases |turns|
  {
    if turns != [] {
      TurnFollowsPlan(users, p, turns[0], server, plan);
      EveryServerFollowsItsPlan(users, RunTurn(users, p, turns[0]), turns[1..], server, plan);
    }
  }

  /** The turn does not make `server` give up its list: nothing raises and a new row can be inserted. */
  ghost predicate Untroubled(users: Users, p: Progress, t: Turn, server: ServerId) {
    t.server == server && server in p.pending && p.pending[server] != [] ==>
      && t.result.Completes?
      && (p.pending[server][0].AddPeer? && t.result.clientId != "" ==>
            t.result.newId !in p.connections && p.pending[server][0].req.userId in users)
  }

  ghost predicate AllUntroubled(users: Users, p: Progress, turns: seq<Turn>, server: ServerId)
    decreases |turns|
  {
    turns != [] ==>
      Untroubled(users, p, turns[0], server) && AllUntroubled(users, RunTurn(users, p, turns[0]), turns[1..], server)
  }

  /** What was called and what is left make up the whole plan. */
  ghost predicate Whole(p: Progress, server: ServerId, plan: seq<Action>) {
    server in p.pending && CallsOn(p.calls, server) + p.pending[server] == plan
  }

  lemma {:induction false} UntroubledShape(users: Users, p: Progress, t: Turn, q: Progress)
    requires q == RunTurn(users, p, t) && Untroubled(users, p, t, t.server)
    ensures if t.server in p.pending && p.pending[t.server] != []
      then Called(p, t.server, q) && q.pending == p.pending[t.server := p.pending[t.server][1..]]
      else q == p
  {
  }

  lemma {:induction false} CalledKeepsWhole(p: Progress, q: Progress, server: ServerId, plan: seq<Action>)
    requires Whole(p, server, plan) && Called(p, server, q) && q.pending == p.pending[server := p.pending[server][1..]]
    ensures Whole(q, server, plan)
  {
    var head, rest := p.pending[server][0], p.pending[server][1..];
    CallsOnLast(p, server, q, server);
    assert p.pending[server] == [head] + rest;
    assert CallsOn(p.calls, server) + [head] + rest == CallsOn(p.calls, server) + ([head] + rest);
  }

  lemma {:induction false} OthersKeepWhole(p: Progress, s: ServerId, q: Progress, server: ServerId, plan: seq<Action>)
    requires Whole(p, server, plan) && s != server && Took(p, s, q)
    ensures Whole(q, server, plan)
  {
    if q.calls != p.calls { CallsOnLast(p, s, q, server); }
  }

  lemma {:induction false} TurnKeepsWhole(users: Users, p: Progress, t: Turn, server: ServerId, plan: seq<Action>)
    requires Whole(p, server, plan) && Untroubled(users, p, t, server)
    ensures Whole(RunTurn(users, p, t), server, plan)
  {
    var q := RunTurn(users, p, t);
    if t.server == server {
      UntroubledShape(users, p, t, q);
      if q != p { CalledKeepsWhole(p, q, server, plan); }
    } else {
      TurnShape(users, p, t, q);
      if Took(p, t.server, q) { OthersKeepWhole(p, t.server, q, server, plan); }
    }
  }

  /** A server that is not troubled has made exactly its planned calls once its list is empty, whatever the others do. */
  lemma {:induction false} UntroubledServerDoesAll(users: Users, p: Progress, turns: seq<Turn>, server: ServerId, plan: seq<Action>)
    requires Whole(p, server, plan) && AllUntroubled(users, p, turns, server)
    ensures Whole(RunTurns(users, p, turns), server, plan)
    ensures RunTurns(users, p, turns).pending[server] == [] ==> CallsOn(RunTurns(users, p, turns).calls, server) == plan
    decreases |turns|
  {
    if turns != [] {
      TurnKeepsWhole(users, p, turns[0], server, plan);
      UntroubledServerDoesAll(users, RunTurn(users, p, turns[0]), turns[1..], server, plan);
    }
  }

  // ----- Bucketing -----

  function OpsOf(ops: map<ServerId, ServerOps>, server: ServerId): ServerOps {
    if server in ops then ops[server] else NO_OPS
  }

  function PutOps(ops: map<ServerId, ServerOps>, server: ServerId, bucket: ServerOps): (r: map<ServerId, ServerOps>)
    ensures OpsOf(r, server) == bucket
    ensures forall s :: s != server ==> OpsOf(r, s) == OpsOf(ops, s)
  {
    ops[server := bucket]
  }

  /** A bucket of removals holds exactly the rows of the listed users on that server. */
  ghost predicate DeletesBucketed(ops: map<ServerId, ServerOps>, cs: Connections, uids: seq<Id>) {
    forall s, a :: a in OpsOf(ops, s).deletes <==>
      a.RemovePeer? && a.conn in cs && a.row == cs[a.conn] && a.row.serverId == s && a.row.userId in uids
  }

  ghost predicate TogglesBucketed(ops: map<ServerId, ServerOps>, cs: Connections, toggles: seq<(Id, bool)>) {
    forall s, a :: a in OpsOf(ops, s).toggles <==>
      a.TogglePeer? && a.conn in cs && a.row == cs[a.conn] && a.row.serverId == s && (a.row.userId, a.enabled) in toggles
  }

  /** The flag that the list sets last for a connection, if any. */
  function LastFlag(actions: seq<Action>, c: Id): Option<bool> {
    if actions == [] then None
    else
      var last := actions[|actions| - 1];
      if last.TogglePeer? && last.conn == c then Some(last.enabled) else LastFlag(actions[..|actions| - 1], c)
  }

  /** In every bucket the last flag of a connection is the last one requested for its user. */
  ghost predicate FlagsBucketed(ops: map<ServerId, ServerOps>, cs: Connections, toggles: seq<(Id, bool)>) {
    forall c :: c in cs ==> LastFlag(OpsOf(ops, cs[c].serverId).toggles, c) == LastToggle(toggles, cs[c].userId)
  }

  lemma {:induction false} LastFlagOf(actions: seq<Action>, a: Action, c: Id)
    ensures LastFlag(actions + [a], c) == if a.TogglePeer? && a.conn == c then Some(a.enabled) else LastFlag(actions, c)
  {
    assert (actions + [a])[..|actions|] == actions;
  }

  lemma {:induction false} LastToggleOf(toggles: seq<(Id, bool)>, t: (Id, bool), uid: Id)
    ensures LastToggle(toggles + [t], uid) == if t.0 == uid then Some(t.1) else LastToggle(toggles, uid)
  {
    assert (toggles + [t])[..|toggles|] == toggles;
  }

  function RequestsFor(creates: seq<CreateRequest>, server: ServerId): seq<Action> {
    if creates == [] then []
    else
      var last := creates[|creates| - 1];
      RequestsFor(creates[..|creates| - 1], server) + (if last.serverId == server then [AddPeer(last)] else [])
  }

  lemma {:induction false} RequestsForMembers(creates: seq<CreateRequest>, server: ServerId)
    ensures forall a :: a in RequestsFor(creates, server) <==>
      a.AddPeer? && a.req.serverId == server && a.req in creates
  {
    if creates != [] {
      RequestsForMembers(creates[..|creates| - 1], server);
      assert creates == creates[..|creates| - 1] + [creates[|creates| - 1]];
    }
  }

  method BuildServerOps(db: Database, deletes: seq<Id>, toggles: seq<(Id, bool)>, creates: seq<CreateRequest>)
    returns (ops: map<ServerId, ServerOps>)
    ensures DeletesBucketed(ops, db.connections, deletes)
    ensures TogglesBucketed(ops, db.connections, toggles) && FlagsBucketed(ops, db.connections, toggles)
    ensures forall s :: OpsOf(ops, s).creates == RequestsFor(creates, s)
  {
    ops := BucketDeletes(db, deletes);
    ops := BucketToggles(db, ops, deletes, toggles);
    ops := BucketCreates(ops, db.connections, deletes, toggles, creates);
  }

  method BucketDeletes(db: Database, deletes: seq<Id>) returns (ops: map<ServerId, ServerOps>)
    ensures DeletesBucketed(ops, db.connections, deletes)
    ensures forall s :: OpsOf(ops, s).toggles == [] && OpsOf(ops, s).creates == []
  {
    ops := map[];
    for i := 0 to |deletes|
      invariant DeletesBucketed(ops, db.connections, deletes[..i])
      invariant forall s :: OpsOf(ops, s).toggles == [] && OpsOf(ops, s).creates == []
    {
      var rows := db.GetConnectionsByUser(deletes[i]);
      ops := AddDeletes(db.connections, ops, deletes[..i], deletes[i], rows);
      assert deletes[..i + 1] == deletes[..i] + [deletes[i]];
    }
    assert deletes[..|deletes|] == deletes;
  }

  method BucketToggles(db: Database, before: map<ServerId, ServerOps>, deletes: seq<Id>, toggles: seq<(Id, bool)>)
    returns (ops: map<ServerId, ServerOps>)
    requires DeletesBucketed(before, db.connections, deletes)
    requires forall s :: OpsOf(before, s).toggles == [] && OpsOf(before, s).creates == []
    ensures DeletesBucketed(ops, db.connections, deletes) && TogglesBucketed(ops, db.connections, toggles)
    ensures FlagsBucketed(ops, db.connections, toggles)
    ensures forall s :: OpsOf(ops, s).creates == []
  {
    ops := before;
    for i := 0 to |toggles|
      invariant DeletesBucketed(ops, db.connections, deletes)
      invariant TogglesBucketed(ops, db.connections, toggles[..i])
      invariant FlagsBucketed(ops, db.connections, toggles[..i])
      invariant forall s :: OpsOf(ops, s).creates == []
    {
      var rows := db.GetConnectionsByUser(toggles[i].0);
      ops := AddToggles(db.connections, ops, deletes, toggles[..i], toggles[i], rows);
      assert toggles[..i + 1] == toggles[..i] + [toggles[i]];
    }
    assert toggles[..|toggles|] == toggles;
  }

  method BucketCreates(before: map<ServerId, ServerOps>, cs: Connections, deletes: seq<Id>, toggles: seq<(Id, bool)>,
                       creates: seq<CreateRequest>)
    returns (ops: map<ServerId, ServerOps>)
    requires DeletesBucketed(before, cs, deletes) && TogglesBucketed(before, cs, toggles) && FlagsBucketed(before, cs, toggles)
    requires forall s :: OpsOf(before, s).creates == []
    ensures DeletesBucketed(ops, cs, deletes) && TogglesBucketed(ops, cs, toggles) && FlagsBucketed(ops, cs, toggles)
    ensures forall s :: OpsOf(ops, s).creates == RequestsFor(creates, s)
  {
    ops := before;
    for i := 0 to |creates|
      invariant forall s :: OpsOf(ops, s).deletes == OpsOf(before, s).deletes && OpsOf(ops, s).toggles == OpsOf(before, s).toggles
      invariant forall s :: OpsOf(ops, s).creates == RequestsFor(creates[..i], s)
    {
      var bucket := OpsOf(ops, creates[i].serverId);
      ops := PutOps(ops, creates[i].serverId, bucket.(creates := bucket.creates + [AddPeer(creates[i])]));
      assert creates[..i + 1][..i] == creates[..i];
    }
    assert creates[..|creates|] == creates;
  }

  method AddDeletes(cs: Connections, before: map<ServerId, ServerOps>, done: seq<Id>, uid: Id, rows: seq<Id>)
    returns (ops: map<ServerId, ServerOps>)
    requires DeletesBucketed(before, cs, done)
    requires forall s :: OpsOf(before, s).toggles == [] && OpsOf(before, s).creates == []
    requires forall c :: c in rows <==> c in cs && cs[c].userId == uid
    ensures DeletesBucketed(ops, cs, done + [uid])
    ensures forall s :: OpsOf(ops, s).toggles == [] && OpsOf(ops, s).creates == []
  {
    ops := before;
    for i := 0 to |rows|
      invariant forall s :: OpsOf(ops, s).toggles == [] && OpsOf(ops, s).creates == []
      invariant forall s, a :: a in OpsOf(ops, s).deletes <==>
        a in OpsOf(before, s).deletes
        || (a.RemovePeer? && a.conn in rows[..i] && a.row == cs[a.conn] && a.row.serverId == s)
    {
      var row := cs[rows[i]];
      var bucket := OpsOf(ops, row.serverId);
      ops := PutOps(ops, row.serverId, bucket.(deletes := bucket.deletes + [RemovePeer(rows[i], row)]));
      assert rows[..i + 1] == rows[..i] + [rows[i]];
    }
    assert rows[..|rows|] == rows;
  }

  method AddToggles(cs: Connections, before: map<ServerId, ServerOps>, deletes: seq<Id>,
                    done: seq<(Id, bool)>, toggle: (Id, bool), rows: seq<Id>)
    returns (ops: map<ServerId, ServerOps>)
    requires DeletesBucketed(before, cs, deletes) && TogglesBucketed(before, cs, done) && FlagsBucketed(before, cs, done)
    requires forall s :: OpsOf(before, s).creates == []
    requires forall c :: c in rows <==> c in cs && cs[c].userId == toggle.0
    ensures DeletesBucketed(ops, cs, deletes) && TogglesBucketed(ops, cs, done + [toggle])
    ensures FlagsBucketed(ops, cs, done + [toggle])
    ensures forall s :: OpsOf(ops, s).creates == []
  {
    ops := AppendToggles(cs, before, toggle.1, rows);
    forall c | c in cs
      ensures LastFlag(OpsOf(ops, cs[c].serverId).toggles, c) == LastToggle(done + [toggle], cs[c].userId)
    {
      LastToggleOf(done, toggle, cs[c].userId);
    }
  }

  /** The listed rows have the flag as their last, all others what they had. */
  ghost predicate FlagsSet(cs: Connections, before: map<ServerId, ServerOps>, ops: map<ServerId, ServerOps>, enabled: bool, rows: seq<Id>) {
    forall c :: c in cs ==>
      (LastFlag(OpsOf(ops, cs[c].serverId).toggles, c)
       == if c in rows then Some(enabled) else LastFlag(OpsOf(before, cs[c].serverId).toggles, c))
  }

  /** The row's toggle, behind all that its server's bucket already has. */
  function WithToggle(cs: Connections, ops: map<ServerId, ServerOps>, enabled: bool, c: Id): map<ServerId, ServerOps>
    requires c in cs
  {
    var bucket := OpsOf(ops, cs[c].serverId);
    PutOps(ops, cs[c].serverId, bucket.(toggles := bucket.toggles + [TogglePeer(c, cs[c], enabled)]))
  }

  lemma {:induction false} FlagAfter(cs: Connections, ops: map<ServerId, ServerOps>, enabled: bool, c: Id, d: Id)
    requires c in cs && d in cs
    ensures LastFlag(OpsOf(WithToggle(cs, ops, enabled, c), cs[d].serverId).toggles, d)
      == if d == c then Some(enabled) else LastFlag(OpsOf(ops, cs[d].serverId).toggles, d)
  {
    LastFlagOf(OpsOf(ops, cs[c].serverId).toggles, TogglePeer(c, cs[c], enabled), d);
  }

  lemma {:induction false} FlagsStep(cs: Connections, before: map<ServerId, ServerOps>, ops: map<ServerId, ServerOps>, enabled: bool,
                                     rows: seq<Id>, c: Id, next: map<ServerId, ServerOps>)
    requires FlagsSet(cs, before, ops, enabled, rows) && c in cs && next == WithToggle(cs, ops, enabled, c)
    ensures FlagsSet(cs, before, next, enabled, rows + [c])
  {
    forall d | d in cs
      ensures LastFlag(OpsOf(next, cs[d].serverId).toggles, d)
        == if d in rows + [c] then Some(enabled) else LastFlag(OpsOf(before, cs[d].serverId).toggles, d)
    {
      FlagAfter(cs, ops, enabled, c, d);
    }
  }

  /** Every listed row got its toggle on its own server, and nothing else was added. */
  ghost predicate TogglesAdded(cs: Connections, before: map<ServerId, ServerOps>, ops: map<ServerId, ServerOps>, enabled: bool, rows: seq<Id>)
    requires forall c :: c in rows ==> c in cs
  {
    && (forall s :: OpsOf(ops, s).creates == OpsOf(before, s).creates && OpsOf(ops, s).deletes == OpsOf(before, s).deletes)
    && (forall s, a :: a in OpsOf(ops, s).toggles <==>
          a in OpsOf(before, s).toggles
          || (a.TogglePeer? && a.conn in rows && a.row == cs[a.conn] && a.row.serverId == s && a.enabled == enabled))
  }

  lemma {:induction false} BucketAfter(cs: Connections, ops: map<ServerId, ServerOps>, enabled: bool, c: Id, s: ServerId, a: Action)
    requires c in cs
    ensures var next := OpsOf(WithToggle(cs, ops, enabled, c), s);
      && next.creates == OpsOf(ops, s).creates && next.deletes == OpsOf(ops, s).deletes
      && (a in next.toggles <==> a in OpsOf(ops, s).toggles || (s == cs[c].serverId && a == TogglePeer(c, cs[c], enabled)))
  {
  }

  lemma {:induction false} TogglesStep(cs: Connections, before: map<ServerId, ServerOps>, ops: map<ServerId, ServerOps>, enabled: bool,
                                       rows: seq<Id>, c: Id, next: map<ServerId, ServerOps>)
    requires c in cs && (forall d :: d in rows ==> d in cs) && TogglesAdded(cs, before, ops, enabled, rows)
    requires next == WithToggle(cs, ops, enabled, c)
    ensures TogglesAdded(cs, before, next, enabled, rows + [c])
  {
    forall s ensures OpsOf(next, s).creates == OpsOf(before, s).creates && OpsOf(next, s).deletes == OpsOf(before, s).deletes {
      BucketAfter(cs, ops, enabled, c, s, TogglePeer(c, cs[c], enabled));
    }
    forall s, a ensures a in OpsOf(next, s).toggles <==>
      a in OpsOf(before, s).toggles
      || (a.TogglePeer? && a.conn in rows + [c] && a.row == cs[a.conn] && a.row.serverId == s && a.enabled == enabled)
    {
      BucketAfter(cs, ops, enabled, c, s, a);
    }
  }

  ghost predicate Appended(cs: Connections, before: map<ServerId, ServerOps>, ops: map<ServerId, ServerOps>, enabled: bool, rows: seq<Id>) {
    && (forall c :: c in rows ==> c in cs)
    && TogglesAdded(cs, before, ops, enabled, rows) && FlagsSet(cs, before, ops, enabled, rows)
  }

  /** The toggles of all listed rows, one after the other. */
  function WithToggles(cs: Connections, ops: map<ServerId, ServerOps>, enabled: bool, rows: seq<Id>): map<ServerId, ServerOps>
    requires forall i :: 0 <= i < |rows| ==> rows[i] in cs
  {
    if rows == [] then ops
    else WithToggle(cs, WithToggles(cs, ops, enabled, rows[..|rows| - 1]), enabled, rows[|rows| - 1])
  }

  lemma {:induction false} NothingAppended(cs: Connections, before: map<ServerId, ServerOps>, enabled: bool)
    ensures Appended(cs, before, before, enabled, [])
  {
  }

  lemma {:induction false} AppendedNext(cs: Connections, before: map<ServerId, ServerOps>, ops: map<ServerId, ServerOps>, enabled: bool,
                                        rows: seq<Id>, c: Id, more: seq<Id>)
    requires Appended(cs, before, ops, enabled, rows) && c in cs && more == rows + [c]
    ensures Appended(cs, before, WithToggle(cs, ops, enabled, c), enabled, more)
  {
    TogglesStep(cs, before, ops, enabled, rows, c, WithToggle(cs, ops, enabled, c));
    FlagsStep(cs, before, ops, enabled, rows, c, WithToggle(cs, ops, enabled, c));
  }

  lemma {:induction false} AllAppended(cs: Connections, before: map<ServerId, ServerOps>, enabled: bool, rows: seq<Id>)
    requires forall i :: 0 <= i < |rows| ==> rows[i] in cs
    ensures Appended(cs, before, WithToggles(cs, before, enabled, rows), enabled, rows)
    decreases |rows|
  {
    if rows == [] {
      NothingAppended(cs, before, enabled);
    } else {
      var front := rows[..|rows| - 1];
      AllAppended(cs, before, enabled, front);
      AppendedNext(cs, before, WithToggles(cs, before, enabled, front), enabled, front, rows[|rows| - 1], rows);
    }
  }

  method AppendToggles(cs: Connections, before: map<ServerId, ServerOps>, enabled: bool, rows: seq<Id>)
    returns (ops: map<ServerId, ServerOps>)
    requires forall i :: 0 <= i < |rows| ==> rows[i] in cs
    ensures Appended(cs, before, ops, enabled, rows)
  {
    ops := before;
    for i := 0 to |rows|
      invariant ops == WithToggles(cs, before, enabled, rows[..i])
    {
      assert rows[..i + 1][..i] == rows[..i];
      ops := WithToggle(cs, ops, enabled, rows[i]);
    }
    assert rows[..|rows|] == rows;
    AllAppended(cs, before, enabled, rows);
  }

  // ----- The whole operation -----

  /** The flag requested last for a user, if any. */
  function LastToggle(toggles: seq<(Id, bool)>, uid: Id): (r: Option<bool>)
    ensures r.Some? <==> exists i :: 0 <= i < |toggles| && toggles[i].0 == uid
    ensures r.Some? ==> (uid, r.value) in toggles
  {
    if toggles == [] then None
    else if toggles[|toggles| - 1].0 == uid then Some(toggles[|toggles| - 1].1)
    else LastToggle(toggles[..|toggles| - 1], uid)
  }

  /** The user table that every run must end with. */
  function SettledUsers(users: Users, deletes: seq<Id>, toggles: seq<(Id, bool)>): Users {
    map u | u in users && u !in deletes ::
      var flag := LastToggle(toggles, u);
      if flag.Some? then users[u].(enabled := flag.value) else users[u]
  }

  /** Rows that existed before survive exactly when their owner does, and new rows answer a request. */
  ghost predicate SettledConnections(users: Users, before: Connections, deletes: seq<Id>,
                                     creates: seq<CreateRequest>, after: Connections) {
    && (forall c :: c in before ==> (c in after <==> before[c].userId !in deletes))
    && (forall c :: c in before && c in after ==> after[c] == before[c])
    && (forall c :: c in after && c !in before ==>
          FromRequest(after[c], users, creates) && after[c].userId !in deletes)
  }

  // ----- What the calls come to -----

  function Rank(a: Action): nat {
    match a
    case RemovePeer(_, _) => 0
    case TogglePeer(_, _, _) => 1
    case AddPeer(_) => 2
  }

  /** The requests among the actions, in order. */
  function Requests(actions: seq<Action>): seq<CreateRequest> {
    if actions == [] then []
    else
      var last := actions[|actions| - 1];
      Requests(actions[..|actions| - 1]) + if last.AddPeer? then [last.req] else []
  }

  /** The requests for one server, in order. */
  function ForServer(creates: seq<CreateRequest>, server: ServerId): seq<CreateRequest> {
    if creates == [] then []
    else
      var last := creates[|creates| - 1];
      ForServer(creates[..|creates| - 1], server) + if last.serverId == server then [last] else []
  }

  /**
   The calls that one server owes: a removal for every row of a deleted user, then a toggle for every row of a
   toggled user, then an addition for every request, and nothing else; the last toggle of a peer is the last
   one requested for its user.
   */
  ghost predicate Owed(actions: seq<Action>, before: Connections, s: ServerId, deletes: seq<Id>, toggles: seq<(Id, bool)>,
                       creates: seq<CreateRequest>)
  {
    && (forall i, j :: 0 <= i < j < |actions| ==> Rank(actions[i]) <= Rank(actions[j]))
    && (forall c, row :: RemovePeer(c, row) in actions <==>
          c in before && row == before[c] && row.serverId == s && row.userId in deletes)
    && (forall c, row, f :: TogglePeer(c, row, f) in actions <==>
          c in before && row == before[c] && row.serverId == s && (row.userId, f) in toggles)
    && (forall c :: c in before && before[c].serverId == s ==> LastFlag(actions, c) == LastToggle(toggles, before[c].userId))
    && Requests(actions) == ForServer(creates, s)
  }

  lemma {:induction false} RequestsAppend(a: seq<Action>, b: seq<Action>)
    ensures Requests(a + b) == Requests(a) + Requests(b)
    decreases |b|
  {
    if b == [] {
      assert a + b == a;
    } else {
      assert (a + b)[..|a + b| - 1] == a + b[..|b| - 1];
      RequestsAppend(a, b[..|b| - 1]);
    }
  }

  lemma {:induction false} NoRequests(a: seq<Action>)
    requires forall i :: 0 <= i < |a| ==> !a[i].AddPeer?
    ensures Requests(a) == []
  {
    if a != [] { NoRequests(a[..|a| - 1]); }
  }

  lemma {:induction false} RequestsOfCreates(creates: seq<CreateRequest>, s: ServerId)
    ensures Requests(RequestsFor(creates, s)) == ForServer(creates, s)
  {
    if creates != [] {
      var rest, last := creates[..|creates| - 1], creates[|creates| - 1];
      RequestsOfCreates(rest, s);
      if last.serverId == s {
        RequestsAppend(RequestsFor(rest, s), [AddPeer(last)]);
        assert [AddPeer(last)][..0] == [];
        assert Requests([AddPeer(last)]) == [last];
      } else {
        assert RequestsFor(rest, s) + [] == RequestsFor(rest, s);
      }
    }
  }

  lemma {:induction false} LastFlagAppend(a: seq<Action>, b: seq<Action>, c: Id)
    requires forall i :: 0 <= i < |b| ==> !b[i].TogglePeer?
    ensures LastFlag(a + b, c) == LastFlag(a, c)
    decreases |b|
  {
    if b == [] {
      assert a + b == a;
    } else {
      assert (a + b)[..|a + b| - 1] == a + b[..|b| - 1];
      LastFlagAppend(a, b[..|b| - 1], c);
    }
  }

  lemma {:induction false} LastFlagAfter(a: seq<Action>, b: seq<Action>, c: Id)
    requires forall i :: 0 <= i < |a| ==> !a[i].TogglePeer?
    ensures LastFlag(a + b, c) == LastFlag(b, c)
    decreases |b|
  {
    if b == [] {
      LastFlagAppend([], a, c);
      assert a + b == a && [] + a == a;
    } else {
      assert (a + b)[..|a + b| - 1] == a + b[..|b| - 1];
      LastFlagAfter(a, b[..|b| - 1], c);
    }
  }

  lemma {:induction false} RequestsMembers(actions: seq<Action>, r: CreateRequest)
    ensures r in Requests(actions) <==> AddPeer(r) in actions
  {
    if actions != [] {
      RequestsMembers(actions[..|actions| - 1], r);
      assert actions == actions[..|actions| - 1] + [actions[|actions| - 1]];
    }
  }

  lemma {:induction false} ForServerMembers(creates: seq<CreateRequest>, s: ServerId, r: CreateRequest)
    ensures r in ForServer(creates, s) <==> r in creates && r.serverId == s
  {
    if creates != [] {
      ForServerMembers(creates[..|creates| - 1], s, r);
      assert creates == creates[..|creates| - 1] + [creates[|creates| - 1]];
    }
  }

  /** Exactly the requests for the server are added there. */
  lemma {:induction false} OwedAdds(actions: seq<Action>, before: Connections, s: ServerId, deletes: seq<Id>, toggles: seq<(Id, bool)>,
                                    creates: seq<CreateRequest>, a: Action)
    requires Owed(actions, before, s, deletes, toggles, creates)
    ensures a.AddPeer? ==> (a in actions <==> a.req in creates && a.req.serverId == s)
  {
    if a.AddPeer? {
      RequestsMembers(actions, a.req);
      ForServerMembers(creates, s, a.req);
    }
  }

  /** A bucket in three parts. */
  ghost predicate Sorted(ops: ServerOps) {
    && (forall i :: 0 <= i < |ops.deletes| ==> ops.deletes[i].RemovePeer?)
    && (forall i :: 0 <= i < |ops.toggles| ==> ops.toggles[i].TogglePeer?)
    && (forall i :: 0 <= i < |ops.creates| ==> ops.creates[i].AddPeer?)
  }

  lemma {:induction false} BucketsAreSorted(ops: map<ServerId, ServerOps>, before: Connections, s: ServerId, deletes: seq<Id>,
                                            toggles: seq<(Id, bool)>, creates: seq<CreateRequest>)
    requires DeletesBucketed(ops, before, deletes) && TogglesBucketed(ops, before, toggles)
    requires OpsOf(ops, s).creates == RequestsFor(creates, s)
    ensures Sorted(OpsOf(ops, s))
  {
    var b := OpsOf(ops, s);
    RequestsForMembers(creates, s);
    forall i | 0 <= i < |b.deletes| ensures b.deletes[i].RemovePeer? { assert b.deletes[i] in b.deletes; }
    forall i | 0 <= i < |b.toggles| ensures b.toggles[i].TogglePeer? { assert b.toggles[i] in b.toggles; }
    forall i | 0 <= i < |b.creates| ensures b.creates[i].AddPeer? { assert b.creates[i] in b.creates; }
  }

  lemma {:induction false} PlanParts(b: ServerOps, c: Id)
    requires Sorted(b)
    ensures forall i, j :: 0 <= i < j < |Plan(b)| ==> Rank(Plan(b)[i]) <= Rank(Plan(b)[j])
    ensures Requests(Plan(b)) == Requests(b.creates)
    ensures LastFlag(Plan(b), c) == LastFlag(b.toggles, c)
  {
    RequestsAppend(b.deletes + b.toggles, b.creates);
    NoRequests(b.deletes + b.toggles);
    LastFlagAppend(b.deletes + b.toggles, b.creates, c);
    LastFlagAfter(b.deletes, b.toggles, c);
  }

  lemma {:induction false} PlanMembers(b: ServerOps, a: Action)
    requires Sorted(b)
    ensures a in Plan(b) <==> (match a
      case RemovePeer(_, _) => a in b.deletes
      case TogglePeer(_, _, _) => a in b.toggles
      case AddPeer(_) => a in b.creates)
  {
  }

  /** The list that a server is given is what it owes. */
  lemma {:induction false} PlanIsOwed(ops: map<ServerId, ServerOps>, before: Connections, s: ServerId, deletes: seq<Id>,
                                      toggles: seq<(Id, bool)>, creates: seq<CreateRequest>)
    requires DeletesBucketed(ops, before, deletes) && TogglesBucketed(ops, before, toggles) && FlagsBucketed(ops, before, toggles)
    requires OpsOf(ops, s).creates == RequestsFor(creates, s)
    ensures Owed(Plan(OpsOf(ops, s)), before, s, deletes, toggles, creates)
  {
    var b := OpsOf(ops, s);
    BucketsAreSorted(ops, before, s, deletes, toggles, creates);
    PlanParts(b, 0);
    RequestsOfCreates(creates, s);
    forall c, row ensures RemovePeer(c, row) in Plan(b) <==>
      c in before && row == before[c] && row.serverId == s && row.userId in deletes
    {
      PlanMembers(b, RemovePeer(c, row));
    }
    forall c, row, f ensures TogglePeer(c, row, f) in Plan(b) <==>
      c in before && row == before[c] && row.serverId == s && (row.userId, f) in toggles
    {
      PlanMembers(b, TogglePeer(c, row, f));
    }
    forall c | c in before && before[c].serverId == s ensures LastFlag(Plan(b), c) == LastToggle(toggles, before[c].userId) {
      PlanParts(b, c);
    }
  }

  // ----- Servers that nothing troubles -----

  /** No two turns report the same new row id. */
  ghost predicate DistinctNew(turns: seq<Turn>) {
    forall i, j :: 0 <= i < j < |turns| && turns[i].result.Completes? && turns[j].result.Completes? ==>
      turns[i].result.newId != turns[j].result.newId
  }

  /** Nothing raises on the server, and ids are new. */
  ghost predicate Quiet(turns: seq<Turn>, s: ServerId) {
    DistinctNew(turns) && forall i :: 0 <= i < |turns| && turns[i].server == s ==> turns[i].result.Completes?
  }

  /** The server is quiet, and everyone it should add a peer for exists. */
  ghost predicate Calm(users: Users, creates: seq<CreateRequest>, turns: seq<Turn>, s: ServerId) {
    Quiet(turns, s) && forall r :: r in creates && r.serverId == s ==> r.userId in users
  }

  function Used(used: set<Id>, t: Turn): set<Id> {
    if t.result.Completes? then used + {t.result.newId} else used
  }

  lemma {:induction false} TurnUses(users: Users, p: Progress, t: Turn, used: set<Id>)
    requires p.connections.Keys <= used
    ensures RunTurn(users, p, t).connections.Keys <= Used(used, t)
  {
  }

  lemma {:induction false} CalmTurn(users: Users, before: Connections, doomed: seq<Id>, creates: seq<CreateRequest>, p: Progress,
                                    turns: seq<Turn>, s: ServerId, used: set<Id>)
    requires SafeLists(before, doomed, creates, p) && turns != [] && Calm(users, creates, turns, s)
    requires p.connections.Keys <= used && FreshIds(turns, used)
    ensures Untroubled(users, p, turns[0], s)
  {
    if turns[0].server == s && s in p.pending && p.pending[s] != [] { assert Justified(p.pending[s][0], before, doomed, creates); }
  }

  lemma {:induction false} FreshRest(turns: seq<Turn>, used: set<Id>)
    requires turns != [] && DistinctNew(turns) && FreshIds(turns, used)
    ensures DistinctNew(turns[1..]) && FreshIds(turns[1..], Used(used, turns[0]))
  {
    assert forall i :: 0 <= i < |turns[1..]| ==> turns[1..][i] == turns[i + 1];
  }

  lemma {:induction false} CalmIsUntroubled(users: Users, before: Connections, doomed: seq<Id>, creates: seq<CreateRequest>, p: Progress,
                                            turns: seq<Turn>, s: ServerId, used: set<Id>)
    requires SafeLists(before, doomed, creates, p) && Calm(users, creates, turns, s)
    requires p.connections.Keys <= used && FreshIds(turns, used)
    ensures AllUntroubled(users, p, turns, s)
    decreases |turns|
  {
    if turns != [] {
      var q := RunTurn(users, p, turns[0]);
      CalmTurn(users, before, doomed, creates, p, turns, s, used);
      FreshRest(turns, used);
      TurnUses(users, p, turns[0], used);
      TurnKeepsLists(users, before, doomed, creates, p, turns[0], q);
      CalmIsUntroubled(users, before, doomed, creates, q, turns[1..], s, Used(used, turns[0]));
    }
  }

  /** How often the scheduler turned to the server. */
  function TurnsOf(turns: seq<Turn>, s: ServerId): nat {
    if turns == [] then 0 else (if turns[0].server == s then 1 else 0) + TurnsOf(turns[1..], s)
  }

  lemma {:induction false} OthersKeepList(users: Users, p: Progress, t: Turn, s: ServerId)
    requires s in p.pending && t.server != s
    ensures s in RunTurn(users, p, t).pending && RunTurn(users, p, t).pending[s] == p.pending[s]
  {
    TurnShape(users, p, t, RunTurn(users, p, t));
  }

  /** Every turn of an untroubled server does one call, until its list is done. */
  lemma {:induction false} TurnsAreUsed(users: Users, p: Progress, turns: seq<Turn>, s: ServerId)
    requires s in p.pending && AllUntroubled(users, p, turns, s)
    ensures var q := RunTurns(users, p, turns);
      s in q.pending && |q.pending[s]| == if TurnsOf(turns, s) >= |p.pending[s]| then 0 else |p.pending[s]| - TurnsOf(turns, s)
    decreases |turns|
  {
    if turns != [] {
      var q := RunTurn(users, p, turns[0]);
      if turns[0].server == s { UntroubledShape(users, p, turns[0], q); } else { OthersKeepList(users, p, turns[0], s); }
      TurnsAreUsed(users, q, turns[1..], s);
    }
  }

  // ----- Rows follow the calls -----

  /** The fields of a row that was added for a request. */
  ghost predicate AnswersCall(row: Connection, call: Call) {
    && call.action.AddPeer?
    && row.userId == call.action.req.userId && row.serverId == call.server
    && row.protocol == call.action.req.protocol && row.name == call.action.req.name && row.clientId == call.clientId
    && row.lastRx == Some(0) && row.lastTx == Some(0) && row.totalRx == 0 && row.totalTx == 0 && row.total == 0
  }

  /** A call that ended with a new row: the server gave a client id and the user exists. */
  predicate Adds(call: Call, users: Users) {
    call.action.AddPeer? && call.clientId != "" && call.action.req.userId in users
  }

  /** Removed rows are gone, and every addition that succeeded has its row. */
  ghost predicate RowsFollow(users: Users, rows: Connections, calls: seq<Call>) {
    && (forall i :: 0 <= i < |calls| && calls[i].action.RemovePeer? ==> calls[i].action.conn !in rows)
    && (forall i :: 0 <= i < |calls| && Adds(calls[i], users) ==> calls[i].newId in rows && AnswersCall(rows[calls[i].newId], calls[i]))
  }

  /** Where the ids in play come from: rows and calls use issued or reported ones, removals name issued ones. */
  ghost predicate IdsFit(before: Connections, issued: set<Id>, p: Progress, used: set<Id>) {
    && before.Keys <= issued <= used && p.connections.Keys <= used
    && (forall i :: 0 <= i < |p.calls| ==> p.calls[i].newId in used && p.calls[i].newId !in issued)
    && (forall i :: 0 <= i < |p.calls| && p.calls[i].action.RemovePeer? ==> p.calls[i].action.conn in issued)
    && (forall s, i :: s in p.pending && 0 <= i < |p.pending[s]| && p.pending[s][i].RemovePeer? ==> p.pending[s][i].conn in issued)
  }

  lemma {:induction false} TurnKeepsFit(users: Users, before: Connections, issued: set<Id>, p: Progress, t: Turn, used: set<Id>, q: Progress)
    requires IdsFit(before, issued, p, used) && q == RunTurn(users, p, t)
    requires t.result.Completes? ==> t.result.newId !in used
    ensures IdsFit(before, issued, q, Used(used, t))
  {
  }

  lemma {:induction false} TurnRowsFollow(users: Users, before: Connections, issued: set<Id>, p: Progress, t: Turn, used: set<Id>, q: Progress)
    requires IdsFit(before, issued, p, used) && RowsFollow(users, p.connections, p.calls) && q == RunTurn(users, p, t)
    requires t.result.Completes? ==> t.result.newId !in used
    ensures RowsFollow(users, q.connections, q.calls)
  {
  }

  /** With ids that differ, every interleaving leaves a row for each addition that succeeded and none for a removal. */
  lemma {:induction false} EveryCallHasItsRow(users: Users, before: Connections, issued: set<Id>, p: Progress, turns: seq<Turn>, used: set<Id>)
    requires IdsFit(before, issued, p, used) && RowsFollow(users, p.connections, p.calls)
    requires DistinctNew(turns) && FreshIds(turns, used)
    ensures var q := RunTurns(users, p, turns); RowsFollow(users, q.connections, q.calls)
    decreases |turns|
  {
    if turns != [] {
      var q := RunTurn(users, p, turns[0]);
      FreshRest(turns, used);
      TurnKeepsFit(users, before, issued, p, turns[0], used, q);
      TurnRowsFollow(users, before, issued, p, turns[0], used, q);
      EveryCallHasItsRow(users, before, issued, q, turns[1..], Used(used, turns[0]));
    }
  }

  // ----- The run -----

  /** The calls are the first ones of what the server owes. */
  ghost predicate Begun(actions: seq<Action>, before: Connections, s: ServerId, deletes: seq<Id>, toggles: seq<(Id, bool)>,
                        creates: seq<CreateRequest>)
  {
    exists plan :: Owed(plan, before, s, deletes, toggles, creates) && actions <= plan
  }

  /** A calm server has done all it owes, or one call in each of its turns. */
  ghost predicate Served(actions: seq<Action>, n: nat, before: Connections, s: ServerId, deletes: seq<Id>, toggles: seq<(Id, bool)>,
                         creates: seq<CreateRequest>)
  {
    |actions| <= n && (|actions| < n ==> Owed(actions, before, s, deletes, toggles, creates))
  }

  /** The server's turns all completed and it had one to spare, so its list is done. */
  ghost predicate Done(calls: seq<Call>, turns: seq<Turn>, s: ServerId) {
    Quiet(turns, s) && |CallsOn(calls, s)| < TurnsOf(turns, s)
  }

  lemma {:induction false} NothingOwed(before: Connections, s: ServerId, n: nat)
    ensures Begun([], before, s, [], [], []) && Served([], n, before, s, [], [], [])
  {
    assert Owed([], before, s, [], [], []);
  }

  /** Lists are for the given servers, and calls are made on these alone. */
  ghost predicate OnServers(p: Progress, servers: set<ServerId>) {
    p.pending.Keys == servers && forall i :: 0 <= i < |p.calls| ==> p.calls[i].server in servers
  }

  lemma {:induction false} TurnOnServers(users: Users, p: Progress, t: Turn, servers: set<ServerId>)
    requires OnServers(p, servers)
    ensures OnServers(RunTurn(users, p, t), servers)
  {
    var q := RunTurn(users, p, t);
    TurnShape(users, p, t, q);
    if q.calls != p.calls {
      forall i | 0 <= i < |q.calls| ensures q.calls[i].server in servers {
        if i < |p.calls| { assert q.calls[..|p.calls|][i] == p.calls[i]; }
      }
    }
  }

  lemma {:induction false} RunOnServers(users: Users, p: Progress, turns: seq<Turn>, servers: set<ServerId>)
    requires OnServers(p, servers)
    ensures OnServers(RunTurns(users, p, turns), servers)
    decreases |turns|
  {
    if turns != [] {
      TurnOnServers(users, p, turns[0], servers);
      RunOnServers(users, RunTurn(users, p, turns[0]), turns[1..], servers);
    }
  }

  lemma {:induction false} RunIsBegun(users: Users, before: Connections, deletes: seq<Id>, toggles: seq<(Id, bool)>, creates: seq<CreateRequest>,
                                      start: Progress, turns: seq<Turn>, s: ServerId, plan: seq<Action>)
    requires Owed(plan, before, s, deletes, toggles, creates)
    requires start.calls == [] && s in start.pending && start.pending[s] == plan
    ensures Begun(CallsOn(RunTurns(users, start, turns).calls, s), before, s, deletes, toggles, creates)
  {
    EveryServerFollowsItsPlan(users, start, turns, s, plan);
  }

  lemma {:induction false} RunIsServed(users: Users, before: Connections, deletes: seq<Id>, toggles: seq<(Id, bool)>, creates: seq<CreateRequest>,
                                       start: Progress, turns: seq<Turn>, s: ServerId, plan: seq<Action>)
    requires Owed(plan, before, s, deletes, toggles, creates)
    requires start.calls == [] && s in start.pending && start.pending[s] == plan
    requires AllUntroubled(users, start, turns, s)
    ensures Served(CallsOn(RunTurns(users, start, turns).calls, s), TurnsOf(turns, s), before, s, deletes, toggles, creates)
  {
    var q := RunTurns(users, start, turns);
    assert CallsOn(start.calls, s) + plan == plan;
    UntroubledServerDoesAll(users, start, turns, s, plan);
    TurnsAreUsed(users, start, turns, s);
    assert |CallsOn(q.calls, s)| + |q.pending[s]| == |plan|;
  }

  /**
   Removes, toggles and adds peers on all servers and settles the users. Whatever raises, each server gets a
   beginning of what it owes; a server where nothing raises gets all of it, if it has the turns.
   */
  method PerformMassOperations(db: Database, deletes: seq<Id>, toggles: seq<(Id, bool)>,
                               creates: seq<CreateRequest>, servers: set<ServerId>, turns: seq<Turn>, ghost issued: set<Id>)
    returns (calls: seq<Call>)
    requires ReferencesHold(db.users, db.connections)
    requires db.connections.Keys <= issued && FreshIds(turns, issued)
    modifies db
    ensures ReferencesHold(db.users, db.connections)
    ensures db.users == SettledUsers(old(db.users), deletes, toggles)
    ensures SettledConnections(old(db.users), old(db.connections), deletes, creates, db.connections)
    ensures forall c :: c in db.connections ==> c in old(db.connections) || c !in issued
    ensures forall i :: 0 <= i < |calls| ==> calls[i].server in servers && OnOwnServer(calls[i].server, calls[i].action)
    ensures forall s :: s in servers ==> Begun(CallsOn(calls, s), old(db.connections), s, deletes, toggles, creates)
    ensures forall s :: s in servers && Calm(old(db.users), creates, turns, s) ==>
      Served(CallsOn(calls, s), TurnsOf(turns, s), old(db.connections), s, deletes, toggles, creates)
    ensures DistinctNew(turns) ==> forall i :: 0 <= i < |calls| && Adds(calls[i], db.users) ==>
      calls[i].newId in db.connections && AnswersCall(db.connections[calls[i].newId], calls[i])
  {
    var ops := BuildServerOps(db, deletes, toggles, creates);
    var p := RunServerTasks(db, ops, deletes, toggles, creates, servers, turns, issued);
    SettleUsers(db, deletes, toggles);
    calls := p.calls;
  }

  /** All servers' task lists, interleaved by `turns`; a list that is not finished stopped with an error. */
  method RunServerTasks(db: Database, ops: map<ServerId, ServerOps>, deletes: seq<Id>, toggles: seq<(Id, bool)>,
                        creates: seq<CreateRequest>, servers: set<ServerId>, turns: seq<Turn>, ghost issued: set<Id>)
    returns (p: Progress)
    requires DeletesBucketed(ops, db.connections, deletes) && TogglesBucketed(ops, db.connections, toggles)
    requires FlagsBucketed(ops, db.connections, toggles) && forall s :: OpsOf(ops, s).creates == RequestsFor(creates, s)
    requires db.connections.Keys <= issued && FreshIds(turns, issued)
    modifies db`connections
    ensures db.connections == p.connections
    ensures Safe(db.users, old(db.connections), deletes, creates, issued, p) && OnServers(p, servers)
    ensures forall s :: s in servers ==> Begun(CallsOn(p.calls, s), old(db.connections), s, deletes, toggles, creates)
    ensures forall s :: s in servers && Calm(db.users, creates, turns, s) ==>
      Served(CallsOn(p.calls, s), TurnsOf(turns, s), old(db.connections), s, deletes, toggles, creates)
    ensures DistinctNew(turns) ==> RowsFollow(db.users, p.connections, p.calls)
  {
    var start := Progress(db.connections, map s | s in servers :: Plan(OpsOf(ops, s)), []);
    RunMeets(db.users, db.connections, deletes, toggles, creates, ops, issued, start, servers, turns);
    p := TakeTurns(db, start, turns);
  }

  /** The scheduler's loop. */
  method TakeTurns(db: Database, start: Progress, turns: seq<Turn>) returns (p: Progress)
    requires db.connections == start.connections
    modifies db`connections
    ensures p == RunTurns(db.users, start, turns) && db.connections == p.connections
  {
    p := start;
    for i := 0 to |turns|
      invariant p == RunTurns(db.users, start, turns[..i])
      invariant db.connections == p.connections
    {
      p := RunTurn(db.users, p, turns[i]);
      db.connections := p.connections;
      RunTurnsLast(db.users, start, turns[..i], turns[i]);
      assert turns[..i + 1] == turns[..i] + [turns[i]];
    }
    assert turns[..|turns|] == turns;
  }

  /** What every run from the bucketed lists comes to. */
  lemma {:induction false} RunMeets(users: Users, before: Connections, deletes: seq<Id>, toggles: seq<(Id, bool)>,
                    creates: seq<CreateRequest>, ops: map<ServerId, ServerOps>, issued: set<Id>, start: Progress,
                    servers: set<ServerId>, turns: seq<Turn>)
    requires DeletesBucketed(ops, before, deletes) && TogglesBucketed(ops, before, toggles) && FlagsBucketed(ops, before, toggles)
    requires forall s :: OpsOf(ops, s).creates == RequestsFor(creates, s)
    requires start.connections == before && start.calls == [] && start.pending.Keys == servers
    requires forall s :: s in start.pending ==> start.pending[s] == Plan(OpsOf(ops, s))
    requires before.Keys <= issued && FreshIds(turns, issued)
    ensures Safe(users, before, deletes, creates, issued, RunTurns(users, start, turns))
    ensures OnServers(RunTurns(users, start, turns), servers)
    ensures forall s :: s in servers ==> Begun(CallsOn(RunTurns(users, start, turns).calls, s), before, s, deletes, toggles, creates)
    ensures forall s :: s in servers && Calm(users, creates, turns, s) ==>
      Served(CallsOn(RunTurns(users, start, turns).calls, s), TurnsOf(turns, s), before, s, deletes, toggles, creates)
    ensures DistinctNew(turns) ==> RowsFollow(users, RunTurns(users, start, turns).connections, RunTurns(users, start, turns).calls)
  {
    StartIsSafe(users, before, deletes, toggles, creates, ops, issued, start);
    EveryInterleavingIsSafe(users, before, deletes, creates, issued, start, turns);
    RunOnServers(users, start, turns, servers);
    forall s | s in servers ensures Begun(CallsOn(RunTurns(users, start, turns).calls, s), before, s, deletes, toggles, creates) {
      PlanIsOwed(ops, before, s, deletes, toggles, creates);
      RunIsBegun(users, before, deletes, toggles, creates, start, turns, s, Plan(OpsOf(ops, s)));
    }
    forall s | s in servers && Calm(users, creates, turns, s)
      ensures Served(CallsOn(RunTurns(users, start, turns).calls, s), TurnsOf(turns, s), before, s, deletes, toggles, creates)
    {
      PlanIsOwed(ops, before, s, deletes, toggles, creates);
      CalmIsUntroubled(users, before, deletes, creates, start, turns, s, issued);
      RunIsServed(users, before, deletes, toggles, creates, start, turns, s, Plan(OpsOf(ops, s)));
    }
    if DistinctNew(turns) {
      StartFits(before, deletes, creates, issued, start);
      EveryCallHasItsRow(users, before, issued, start, turns, issued);
    }
  }

  lemma {:induction false} StartFits(before: Connections, deletes: seq<Id>, creates: seq<CreateRequest>, issued: set<Id>, p: Progress)
    requires SafeLists(before, deletes, creates, p) && p.connections == before && p.calls == [] && before.Keys <= issued
    ensures IdsFit(before, issued, p, issued)
  {
    forall s, i | s in p.pending && 0 <= i < |p.pending[s]| && p.pending[s][i].RemovePeer? ensures p.pending[s][i].conn in issued {
      assert Justified(p.pending[s][i], before, deletes, creates);
    }
  }

  /** The user-level clean-up after all servers are done. */
  method SettleUsers(db: Database, deletes: seq<Id>, toggles: seq<(Id, bool)>)
    modifies db
    ensures db.users == SettledUsers(old(db.users), deletes, toggles)
    ensures forall c :: c in db.connections <==>
      c in old(db.connections) && (old(db.connections)[c].userId in old(db.users) ==> old(db.connections)[c].userId !in deletes)
    ensures forall c :: c in db.connections ==> db.connections[c] == old(db.connections)[c]
  {
    ghost var users0 := db.users;
    DeleteUsers(db, deletes);
    assert db.users == SettledUsers(users0, deletes, []);
    ToggleUsers(db, deletes, toggles, users0);
  }

  method DeleteUsers(db: Database, deletes: seq<Id>)
    modifies db
    ensures forall u :: u in db.users <==> u in old(db.users) && u !in deletes
    ensures forall u :: u in db.users ==> db.users[u] == old(db.users)[u]
    ensures forall c :: c in db.connections <==>
      c in old(db.connections) && (old(db.connections)[c].userId in old(db.users) ==> old(db.connections)[c].userId !in deletes)
    ensures forall c :: c in db.connections ==> db.connections[c] == old(db.connections)[c]
  {
    ghost var users0, conns0 := db.users, db.connections;
    for i := 0 to |deletes|
      invariant forall u :: u in db.users <==> u in users0 && u !in deletes[..i]
      invariant forall u :: u in db.users ==> db.users[u] == users0[u]
      invariant forall c :: c in db.connections <==>
        c in conns0 && (conns0[c].userId in users0 ==> conns0[c].userId !in deletes[..i])
      invariant forall c :: c in db.connections ==> db.connections[c] == conns0[c]
    {
      var _ := db.DeleteUser(deletes[i]);
      assert deletes[..i + 1] == deletes[..i] + [deletes[i]];
    }
    assert deletes[..|deletes|] == deletes;
  }

  method ToggleUsers(db: Database, ghost deletes: seq<Id>, toggles: seq<(Id, bool)>, ghost users0: Users)
    requires db.users == SettledUsers(users0, deletes, [])
    modifies db`users
    ensures db.users == SettledUsers(users0, deletes, toggles)
  {
    for i := 0 to |toggles|
      invariant db.users == SettledUsers(users0, deletes, toggles[..i])
    {
      var uid := toggles[i].0;
      assert toggles[..i + 1][..i] == toggles[..i];
      if uid in db.users {
        db.UpdateUser(uid, db.users[uid].(enabled := toggles[i].1));
      }
    }
    assert toggles[..|toggles|] == toggles;
  }

  lemma {:induction false} StartIsSafe(users: Users, before: Connections, deletes: seq<Id>, toggles: seq<(Id, bool)>,
                    creates: seq<CreateRequest>, ops: map<ServerId, ServerOps>, issued: set<Id>, p: Progress)
    requires DeletesBucketed(ops, before, deletes) && TogglesBucketed(ops, before, toggles)
    requires forall s :: OpsOf(ops, s).creates == RequestsFor(creates, s)
    requires p.connections == before && p.calls == []
    requires forall s :: s in p.pending ==> p.pending[s] == Plan(OpsOf(ops, s))
    ensures Safe(users, before, deletes, creates, issued, p)
  {
    forall s, i | s in p.pending && 0 <= i < |p.pending[s]|
      ensures OnOwnServer(s, p.pending[s][i])
      ensures Justified(p.pending[s][i], before, deletes, creates)
    {
      var a := p.pending[s][i];
      RequestsForMembers(creates, s);
      assert a in OpsOf(ops, s).deletes || a in OpsOf(ops, s).toggles || a in OpsOf(ops, s).creates;
    }
  }

  // ----- Deleting one user -----

  /** The listed rows of one server, in order. */
  function RowsOn(cs: Connections, rows: seq<Id>, s: ServerId): seq<Id> {
    if rows == [] then []
    else
      var c := rows[|rows| - 1];
      RowsOn(cs, rows[..|rows| - 1], s) + if c in cs && cs[c].serverId == s then [c] else []
  }

  lemma {:induction false} RowsOnMembers(cs: Connections, rows: seq<Id>, s: ServerId, c: Id)
    ensures c in RowsOn(cs, rows, s) <==> c in rows && c in cs && cs[c].serverId == s
  {
    if rows != [] {
      RowsOnMembers(cs, rows[..|rows| - 1], s, c);
      assert rows == rows[..|rows| - 1] + [rows[|rows| - 1]];
    }
  }

  lemma {:induction false} RowsOnAppend(cs: Connections, a: seq<Id>, b: seq<Id>, s: ServerId)
    ensures RowsOn(cs, a + b, s) == RowsOn(cs, a, s) + RowsOn(cs, b, s)
    decreases |b|
  {
    if b == [] {
      assert a + b == a;
    } else {
      assert (a + b)[..|a + b| - 1] == a + b[..|b| - 1];
      RowsOnAppend(cs, a, b[..|b| - 1], s);
    }
  }

  lemma {:induction false} RowsOnOne(cs: Connections, rows: seq<Id>, s: ServerId, t: ServerId)
    requires forall i :: 0 <= i < |rows| ==> rows[i] in cs && cs[rows[i]].serverId == t
    ensures RowsOn(cs, rows, s) == if s == t then rows else []
  {
    if rows != [] {
      RowsOnOne(cs, rows[..|rows| - 1], s, t);
      assert rows == rows[..|rows| - 1] + [rows[|rows| - 1]];
    }
  }

  function WithRow(groups: map<ServerId, seq<Id>>, s: ServerId, c: Id): map<ServerId, seq<Id>> {
    groups[s := (if s in groups then groups[s] else []) + [c]]
  }

  /** The rows grouped one after the other. */
  function Grouping(cs: Connections, rows: seq<Id>): map<ServerId, seq<Id>>
    requires forall i :: 0 <= i < |rows| ==> rows[i] in cs
  {
    if rows == [] then map[]
    else WithRow(Grouping(cs, rows[..|rows| - 1]), cs[rows[|rows| - 1]].serverId, rows[|rows| - 1])
  }

  lemma {:induction false} GroupIsRows(cs: Connections, rows: seq<Id>, s: ServerId)
    requires forall i :: 0 <= i < |rows| ==> rows[i] in cs
    ensures if s in Grouping(cs, rows) then Grouping(cs, rows)[s] == RowsOn(cs, rows, s) else RowsOn(cs, rows, s) == []
    decreases |rows|
  {
    if rows != [] { GroupIsRows(cs, rows[..|rows| - 1], s); }
  }

  /** Groups the rows by server; `order` lists the servers as they first occur. */
  method GroupRows(cs: Connections, rows: seq<Id>) returns (groups: map<ServerId, seq<Id>>, order: seq<ServerId>)
    requires forall i :: 0 <= i < |rows| ==> rows[i] in cs
    ensures groups == Grouping(cs, rows)
    ensures Distinct(order) && forall s :: s in order <==> s in groups
  {
    groups, order := map[], [];
    for i := 0 to |rows|
      invariant groups == Grouping(cs, rows[..i])
      invariant Distinct(order) && forall s :: s in order <==> s in groups
    {
      var s := cs[rows[i]].serverId;
      assert rows[..i + 1][..i] == rows[..i];
      if s !in groups { order := order + [s]; }
      groups := groups[s := (if s in groups then groups[s] else []) + [rows[i]]];
    }
    assert rows[..|rows|] == rows;
  }

  /** How many of `n` removals a server does: all, or as many as it did before it failed. */
  function Reached(failsAfter: map<ServerId, nat>, s: ServerId, n: nat): (r: nat)
    ensures r <= n && (s !in failsAfter ==> r == n) && (s in failsAfter && failsAfter[s] <= n ==> r == failsAfter[s])
    ensures s in failsAfter && n < failsAfter[s] ==> r == n
  {
    if s in failsAfter && failsAfter[s] < n then failsAfter[s] else n
  }

  /** The first rows of the server, as far as it gets. */
  function Removable(cs: Connections, rows: seq<Id>, failsAfter: map<ServerId, nat>, s: ServerId): seq<Id> {
    RowsOn(cs, rows, s)[..Reached(failsAfter, s, |RowsOn(cs, rows, s)|)]
  }

  /** On every existing server the first rows are removed, as far as it gets, and on no other server any. */
  ghost predicate RemovedRows(cs: Connections, rows: seq<Id>, servers: set<ServerId>, failsAfter: map<ServerId, nat>, removed: seq<Id>) {
    && (forall s :: RowsOn(cs, removed, s) == if s in servers then Removable(cs, rows, failsAfter, s) else [])
    && (forall c :: c in removed ==> c in rows)
  }

  /** The rows removed so far: those of the servers done. */
  ghost predicate RemovedFrom(cs: Connections, rows: seq<Id>, servers: set<ServerId>, failsAfter: map<ServerId, nat>, removed: seq<Id>,
                              done: seq<ServerId>)
  {
    && (forall s :: RowsOn(cs, removed, s) == if s in servers && s in done then Removable(cs, rows, failsAfter, s) else [])
    && (forall c :: c in removed ==> c in rows)
  }

  lemma {:induction false} RemovableIsThere(cs: Connections, rows: seq<Id>, failsAfter: map<ServerId, nat>, s: ServerId, c: Id)
    requires c in Removable(cs, rows, failsAfter, s)
    ensures c in rows && c in cs && cs[c].serverId == s
  {
    RowsOnMembers(cs, rows, s, c);
  }

  lemma {:induction false} PartGoesTo(cs: Connections, removed: seq<Id>, part: seq<Id>, s: ServerId, t: ServerId)
    requires forall i :: 0 <= i < |part| ==> part[i] in cs && cs[part[i]].serverId == s
    ensures RowsOn(cs, removed + part, t) == RowsOn(cs, removed, t) + if t == s then part else []
  {
    RowsOnAppend(cs, removed, part, t);
    RowsOnOne(cs, part, t, s);
  }

  lemma {:induction false} RemovesGroup(cs: Connections, rows: seq<Id>, servers: set<ServerId>, failsAfter: map<ServerId, nat>, removed: seq<Id>,
                                        done: seq<ServerId>, s: ServerId, part: seq<Id>)
    requires RemovedFrom(cs, rows, servers, failsAfter, removed, done) && s in servers && s !in done
    requires part == Removable(cs, rows, failsAfter, s)
    ensures RemovedFrom(cs, rows, servers, failsAfter, removed + part, done + [s])
  {
    forall c | c in part ensures c in rows && c in cs && cs[c].serverId == s { RemovableIsThere(cs, rows, failsAfter, s, c); }
    var all := removed + part;
    forall t ensures RowsOn(cs, all, t) == if t in servers && t in done + [s] then Removable(cs, rows, failsAfter, t) else [] {
      PartGoesTo(cs, removed, part, s, t);
    }
  }

  lemma {:induction false} SkipsGroup(cs: Connections, rows: seq<Id>, servers: set<ServerId>, failsAfter: map<ServerId, nat>, removed: seq<Id>,
                                      done: seq<ServerId>, s: ServerId)
    requires RemovedFrom(cs, rows, servers, failsAfter, removed, done) && s !in servers
    ensures RemovedFrom(cs, rows, servers, failsAfter, removed, done + [s])
  {
  }

  lemma {:induction false} NoGroupLeft(cs: Connections, rows: seq<Id>, servers: set<ServerId>, failsAfter: map<ServerId, nat>, removed: seq<Id>,
                                       done: seq<ServerId>)
    requires forall i :: 0 <= i < |rows| ==> rows[i] in cs
    requires RemovedFrom(cs, rows, servers, failsAfter, removed, done) && forall s :: s in done <==> s in Grouping(cs, rows)
    ensures RemovedRows(cs, rows, servers, failsAfter, removed)
  {
    forall s | s !in done ensures Removable(cs, rows, failsAfter, s) == [] { GroupIsRows(cs, rows, s); }
  }

  lemma {:induction false} NothingRemoved(cs: Connections, rows: seq<Id>, servers: set<ServerId>, failsAfter: map<ServerId, nat>)
    ensures RemovedFrom(cs, rows, servers, failsAfter, [], [])
  {
  }

  /** One round of the loop over the servers. */
  method RemoveGroup(cs: Connections, ghost rows: seq<Id>, servers: set<ServerId>, failsAfter: map<ServerId, nat>, before: seq<Id>,
                     ghost done: seq<ServerId>, s: ServerId, group: seq<Id>)
    returns (removed: seq<Id>)
    requires RemovedFrom(cs, rows, servers, failsAfter, before, done) && s !in done && group == RowsOn(cs, rows, s)
    ensures RemovedFrom(cs, rows, servers, failsAfter, removed, done + [s])
  {
    removed := before;
    if s in servers {
      var part := group;
      if s in failsAfter && failsAfter[s] < |part| { part := part[..failsAfter[s]]; }
      assert part == Removable(cs, rows, failsAfter, s);
      RemovesGroup(cs, rows, servers, failsAfter, removed, done, s, part);
      removed := removed + part;
    } else {
      SkipsGroup(cs, rows, servers, failsAfter, removed, done, s);
    }
  }

  /** Peers are removed server by server; a server that fails, after some number of removals, is skipped. */
  method RemovePeers(cs: Connections, rows: seq<Id>, servers: set<ServerId>, failsAfter: map<ServerId, nat>)
    returns (removed: seq<Id>)
    requires forall i :: 0 <= i < |rows| ==> rows[i] in cs
    ensures RemovedRows(cs, rows, servers, failsAfter, removed)
  {
    removed := [];
    NothingRemoved(cs, rows, servers, failsAfter);
    var groups, order := GroupRows(cs, rows);
    for i := 0 to |order|
      invariant RemovedFrom(cs, rows, servers, failsAfter, removed, order[..i])
    {
      assert order[i] in order && order[i] !in order[..i] && order[..i + 1] == order[..i] + [order[i]];
      GroupIsRows(cs, rows, order[i]);
      removed := RemoveGroup(cs, rows, servers, failsAfter, removed, order[..i], order[i], groups[order[i]]);
    }
    assert order[..|order|] == order;
    NoGroupLeft(cs, rows, servers, failsAfter, removed, order);
  }

  /** Deletes one user: peers where the servers allow it, and the user's rows in any case. */
  method PerformDeleteUser(db: Database, uid: Id, servers: set<ServerId>, failsAfter: map<ServerId, nat>)
    returns (found: bool, removed: seq<Id>, ghost rows: seq<Id>)
    modifies db
    ensures found == (uid in old(db.users))
    ensures db.users == old(db.users) - {uid}
    ensures db.connections == if found then WithoutUser(old(db.connections), uid) else old(db.connections)
    ensures !found ==> removed == []
    ensures found ==> Distinct(rows) && forall c :: c in rows <==> c in old(db.connections) && old(db.connections)[c].userId == uid
    ensures found ==> RemovedRows(old(db.connections), rows, servers, failsAfter, removed)
  {
    removed, rows := [], [];
    found := uid in db.users;
    if !found { return; }
    var all := db.GetConnectionsByUser(uid);
    rows := all;
    removed := RemovePeers(db.connections, all, servers, failsAfter);
    var _ := db.DeleteUser(uid);
  }
}
