/**
 The monthly leaderboard and its snapshots, which are inserted once and never
 replaced (app/core/database.py).
 */
module Leaderboard {
  import opened Tables
  import opened Accounting

  datatype Place = Place(rank: nat, download: nat, upload: nat, total: nat)

  /** Snapshot rows; (year, month, username) is unique. */
  type Snapshots = map<(Month, string), Place>

  predicate Eligible(u: User) {
    u.enabled && u.monthlyTx + u.monthlyRx > 0
  }

  function MonthlyTotal(u: User): nat {
    u.monthlyTx + u.monthlyRx
  }

  function PlaceOf(u: User, rank: nat): Place {
    Place(rank, u.monthlyTx, u.monthlyRx, MonthlyTotal(u))
  }

  /** The query's answer: every eligible user once, by falling total. */
  ghost predicate Ranking(users: Users, ranked: seq<Id>) {
    && Distinct(ranked)
    && (forall u :: u in ranked <==> u in users && Eligible(users[u]))
    && (forall i, j :: 0 <= i < j < |ranked| ==> MonthlyTotal(users[ranked[i]]) >= MonthlyTotal(users[ranked[j]]))
  }

  /** The user at position `i` is the first of that name. */
  ghost predicate FirstOfName(users: Users, ranked: seq<Id>, i: int, name: string)
    requires forall u :: u in ranked ==> u in users
  {
    && 0 <= i < |ranked|
    && users[ranked[i]].username == name
    && forall j :: 0 <= j < i ==> users[ranked[j]].username != name
  }

  /** `after` is `before` with the ranked users' rows for `m` added where there was none. */
  ghost predicate Saved(before: Snapshots, after: Snapshots, m: Month, users: Users, ranked: seq<Id>)
    requires forall u :: u in ranked ==> u in users
  {
    && (forall k :: k in before ==> k in after && after[k] == before[k])
    && (forall i :: 0 <= i < |ranked| ==> (m, users[ranked[i]].username) in after)
    && (forall k :: k in after && k !in before ==> k.0 == m && NewPlace(k.1, after[k], users, ranked))
  }

  ghost predicate NewPlace(name: string, place: Place, users: Users, ranked: seq<Id>)
    requires forall u :: u in ranked ==> u in users
  {
    exists i :: FirstOfName(users, ranked, i, name) && place == PlaceOf(users[ranked[i]], i + 1)
  }

  class Board {
    var rows: Snapshots

    constructor ()
      ensures rows == map[]
    {
      rows := map[];
    }

    /** INSERT OR IGNORE of every entry; counts the rows that were really inserted. */
    method SaveSnapshot(m: Month, users: Users, ranked: seq<Id>) returns (saved: nat)
      requires forall u :: u in ranked ==> u in users
      modifies this
      ensures Saved(old(rows), rows, m, users, ranked)
      ensures saved == |rows| - |old(rows)|
    {
      saved := 0;
      ghost var before := rows;
      for i := 0 to |ranked|
        invariant Saved(before, rows, m, users, ranked[..i])
        invariant saved == |rows| - |before|
      {
        var u := users[ranked[i]];
        ghost var middle := rows;
        if (m, u.username) !in rows {
          rows := rows[(m, u.username) := PlaceOf(u, i + 1)];
          saved := saved + 1;
        }
        SavedMore(before, middle, rows, m, users, ranked[..i], ranked[i]);
        assert ranked[..i + 1] == ranked[..i] + [ranked[i]];
      }
      assert ranked[..|ranked|] == ranked;
    }
  }

  lemma {:induction false} NewPlaceStays(users: Users, done: seq<Id>, u: Id, name: string, place: Place)
    requires (forall x :: x in done ==> x in users) && u in users && NewPlace(name, place, users, done)
    ensures NewPlace(name, place, users, done + [u])
  {
    var i :| FirstOfName(users, done, i, name) && place == PlaceOf(users[done[i]], i + 1);
    assert FirstOfName(users, done + [u], i, name);
  }

  lemma {:induction false} NewPlaceOfLast(users: Users, done: seq<Id>, u: Id)
    requires (forall x :: x in done ==> x in users) && u in users
    requires forall i :: 0 <= i < |done| ==> users[done[i]].username != users[u].username
    ensures NewPlace(users[u].username, PlaceOf(users[u], |done| + 1), users, done + [u])
  {
    assert FirstOfName(users, done + [u], |done|, users[u].username);
  }

  lemma {:induction false} SavedMore(before: Snapshots, middle: Snapshots, after: Snapshots, m: Month,
                                     users: Users, done: seq<Id>, u: Id)
    requires forall x :: x in done ==> x in users
    requires u in users
    requires Saved(before, middle, m, users, done)
    requires var key := (m, users[u].username);
      after == if key in middle then middle else middle[key := PlaceOf(users[u], |done| + 1)]
    ensures Saved(before, after, m, users, done + [u])
  {
    forall k | k in after && k !in before ensures k.0 == m && NewPlace(k.1, after[k], users, done + [u]) {
      if k in middle {
        NewPlaceStays(users, done, u, k.1, middle[k]);
      } else {
        NewPlaceOfLast(users, done, u);
      }
    }
  }

  /** When several users share a name, the row kept is the one with the largest total. */
  lemma {:induction false} BestOfNameIsKept(before: Snapshots, after: Snapshots, m: Month, users: Users,
                                            ranked: seq<Id>, u: Id)
    requires Ranking(users, ranked) && Saved(before, after, m, users, ranked)
    requires u in users && Eligible(users[u]) && (m, users[u].username) !in before
    ensures (m, users[u].username) in after
    ensures after[(m, users[u].username)].total >= MonthlyTotal(users[u])
    ensures (forall v :: v in users && Eligible(users[v]) && users[v].username == users[u].username ==> v == u) ==>
      after[(m, users[u].username)] == PlaceOf(users[u], after[(m, users[u].username)].rank)
  {
    var name := users[u].username;
    var k :| 0 <= k < |ranked| && ranked[k] == u;
    assert NewPlace(name, after[(m, name)], users, ranked);
    var i :| FirstOfName(users, ranked, i, name) && after[(m, name)] == PlaceOf(users[ranked[i]], i + 1);
    assert ranked[i] in users && Eligible(users[ranked[i]]);
    assert i <= k;
  }
}
