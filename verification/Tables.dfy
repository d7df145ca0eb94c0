/**
 The panel's SQLite tables as maps from row ids to rows, and the row operations
 that the services are written in (app/core/database.py, app/core/schema.sql).

 Row ids are UUIDs that are only ever compared, so they are natural numbers here.
 A query that fetches one of several matching rows may return any of them.
 */
module Tables {
  datatype Option<+T> = None | Some(value: T)

  type Id = nat
  type ServerId = int

  /** A point in local time. `isoWeek` is the ISO week number of that day. */
  datatype DateTime = DateTime(year: int, month: int, day: int, isoWeek: int, second: int)

  /** A timestamp column: empty, a readable ISO time, or text that does not parse. */
  datatype Stamp = NoStamp | At(time: DateTime) | Unreadable

  datatype ResetStrategy = Never | Daily | Weekly | Monthly

  datatype User = User(
    username: string,
    remnawaveUuid: Option<string>,
    telegramId: Option<string>,
    email: Option<string>,
    description: Option<string>,
    enabled: bool,
    trafficLimit: int,
    trafficUsed: nat,
    trafficTotal: nat,
    trafficTotalRx: nat,
    trafficTotalTx: nat,
    monthlyRx: nat,
    monthlyTx: nat,
    monthlyResetAt: Stamp,
    resetStrategy: ResetStrategy,
    lastResetAt: Stamp,
    expiresAt: Stamp)

  datatype Connection = Connection(
    userId: Id,
    serverId: ServerId,
    protocol: string,
    clientId: string,
    name: string,
    lastRx: Option<nat>,
    lastTx: Option<nat>,
    lastBytes: nat,
    totalRx: nat,
    totalTx: nat,
    total: nat)

  type Users = map<Id, User>
  type Connections = map<Id, Connection>

  /** The foreign key of user_connections: every connection belongs to a user row. */
  ghost predicate ReferencesHold(users: Users, connections: Connections) {
    forall c :: c in connections ==> connections[c].userId in users
  }

  /** Legacy names of the AmneziaWG protocol count as "awg" (app/models/schemas.py). */
  function NormalizeProtocol(p: string): string {
    if p == "awg2" || p == "awg_legacy" then "awg" else p
  }

  ghost predicate Distinct<T(!new)>(s: seq<T>) {
    forall i, j :: 0 <= i < j < |s| ==> s[i] != s[j]
  }

  /** `keys` lists every key of the map once, in any order. */
  ghost predicate Lists<V>(keys: seq<Id>, m: map<Id, V>) {
    Distinct(keys) && forall k :: k in keys <==> k in m
  }

  /** A row id that no row uses: what uuid4 provides. */
  method FreshId(taken: set<Id>) returns (id: Id)
    ensures id !in taken
  {
    var rest := taken;
    id := 0;
    while rest != {}
      invariant rest <= taken
      invariant forall x :: x in taken ==> x in rest || x < id
    {
      var x :| x in rest;
      if id <= x { id := x + 1; }
      rest := rest - {x};
    }
  }

  method ListKeys<V>(m: map<Id, V>) returns (keys: seq<Id>)
    ensures Lists(keys, m)
  {
    keys := [];
    var rest := m.Keys;
    while rest != {}
      invariant rest <= m.Keys
      invariant Distinct(keys)
      invariant forall k :: k in keys <==> k in m && k !in rest
    {
      var k :| k in rest;
      assert k !in keys;
      keys := keys + [k];
      rest := rest - {k};
    }
  }

  class Database {
    var users: Users
    var connections: Connections

    constructor (us: Users, cs: Connections)
      ensures users == us && connections == cs
    {
      users, connections := us, cs;
    }

    method GetUserByUuid(uuid: string) returns (found: Option<Id>)
      ensures found.Some? ==> found.value in users && users[found.value].remnawaveUuid == Some(uuid)
      ensures found.None? ==> forall u :: u in users ==> users[u].remnawaveUuid != Some(uuid)
    {
      if u :| u in users && users[u].remnawaveUuid == Some(uuid) {
        found := Some(u);
      } else {
        found := None;
      }
    }

    method GetUserByUsername(name: string) returns (found: Option<Id>)
      ensures found.Some? ==> found.value in users && users[found.value].username == name
      ensures found.None? ==> forall u :: u in users ==> users[u].username != name
    {
      if u :| u in users && users[u].username == name {
        found := Some(u);
      } else {
        found := None;
      }
    }

    method GetConnectionsByUser(uid: Id) returns (rows: seq<Id>)
      ensures Distinct(rows)
      ensures forall c :: c in rows <==> c in connections && connections[c].userId == uid
    {
      rows := ListKeys(map c | c in connections && connections[c].userId == uid :: connections[c]);
    }

    /** UPDATE of one user row: a no-op when the row is missing. */
    method UpdateUser(uid: Id, row: User)
      modifies this`users
      ensures users == if uid in old(users) then old(users)[uid := row] else old(users)
    {
      if uid in users { users := users[uid := row]; }
    }

    /** Deletes a user row together with all of the user's connections. */
    method DeleteUser(uid: Id) returns (found: bool)
      modifies this
      ensures found == (uid in old(users))
      ensures users == old(users) - {uid}
      ensures connections == if found then WithoutUser(old(connections), uid) else old(connections)
    {
      found := uid in users;
      if found {
        connections := WithoutUser(connections, uid);
        users := users - {uid};
      }
    }
  }

  function WithoutUser(cs: Connections, uid: Id): (r: Connections)
    ensures forall c :: c in r <==> c in cs && cs[c].userId != uid
    ensures forall c :: c in r ==> r[c] == cs[c]
  {
    map c | c in cs && cs[c].userId != uid :: cs[c]
  }
}
