/**
 Whole runs of the panel: traffic cycles interleaved with users being added,
 removed and edited. What the monthly counters and the leaderboard snapshots mean
 is stated against the bytes charged over the run
 (app/services/background_orchestrator.py, app/core/database.py).
 */
module MonthlyRun {
  import opened Tables
  import opened Accounting
  import opened Leaderboard
  import opened TrafficCycle

  datatype Panel = Panel(users: Users, rows: Snapshots)

  datatype Event =
    | Cycle(now: DateTime, updates: seq<Update>, conns: Connections, ranked: seq<Id>)
    | Add(uid: Id, row: User)
    | Drop(uid: Id)
    | Edit(uid: Id, row: User)

  predicate NewRow(u: User) {
    u.monthlyResetAt.NoStamp? && u.monthlyRx == 0 && u.monthlyTx == 0
  }

  predicate SameMonthly(u: User, v: User) {
    u.monthlyResetAt == v.monthlyResetAt && u.monthlyRx == v.monthlyRx && u.monthlyTx == v.monthlyTx
  }

  ghost predicate Step(p: Panel, e: Event, q: Panel) {
    match e
    case Cycle(now, updates, conns, ranked) =>
      Ranking(p.users, ranked) && Cycled(p.users, q.users, now, updates, conns)
      && SnapshotTaken(p.users, now, ranked, p.rows, q.rows)
    case Add(uid, row) => NewRow(row) && q == p.(users := p.users[uid := row])
    case Drop(uid) => q == p.(users := p.users - {uid})
    case Edit(uid, row) =>
      uid in p.users && SameMonthly(p.users[uid], row) && q == p.(users := p.users[uid := row])
  }

  /**
   A run from a panel that has not counted anything yet, with a clock whose months
   never go back and user ids that are never issued twice.
   */
  ghost predicate Run(panels: seq<Panel>, events: seq<Event>) {
    && |panels| == |events| + 1
    && panels[0].rows == map[] && (forall u :: u in panels[0].users ==> NewRow(panels[0].users[u]))
    && (forall i :: 0 <= i < |events| ==> Step(panels[i], events[i], panels[i + 1]))
    && (forall i, j :: 0 <= i < j < |events| && events[i].Cycle? && events[j].Cycle? ==>
          !Precedes(MonthOf(events[j].now), MonthOf(events[i].now)))
    && (forall i, j :: 0 <= j <= i < |events| && events[i].Add? ==> events[i].uid !in panels[j].users)
  }

  /** The bytes charged to a user by the first `n` events in cycles of month `m`. */
  function ChargedIn(panels: seq<Panel>, events: seq<Event>, n: nat, uid: Id, m: Month): Reading
    requires n <= |events| && |panels| == |events| + 1
  {
    if n == 0 then Reading(0, 0)
    else Plus(ChargedIn(panels, events, n - 1, uid, m), ChargedBy(panels[n - 1], events[n - 1], uid, m))
  }

  function ChargedBy(p: Panel, e: Event, uid: Id, m: Month): Reading {
    if e.Cycle? && MonthOf(e.now) == m && uid in p.users then Share(e.updates, e.conns, uid) else Reading(0, 0)
  }

  /** The month of the latest cycle. */
  function LastMonth(events: seq<Event>, n: nat): Option<Month>
    requires n <= |events|
  {
    if n == 0 then None
    else if events[n - 1].Cycle? then Some(MonthOf(events[n - 1].now))
    else LastMonth(events, n - 1)
  }

  lemma {:induction false} NothingCharged(panels: seq<Panel>, events: seq<Event>, n: nat, uid: Id, m: Month)
    requires n <= |events| && |panels| == |events| + 1
    requires forall j :: 0 <= j < n ==> ChargedBy(panels[j], events[j], uid, m) == Reading(0, 0)
    ensures ChargedIn(panels, events, n, uid, m) == Reading(0, 0)
  {
    if n > 0 { NothingCharged(panels, events, n - 1, uid, m); }
  }

  lemma {:induction false} LastIsLatest(panels: seq<Panel>, events: seq<Event>, n: nat, j: nat)
    requires Run(panels, events) && j < n <= |events| && events[j].Cycle?
    ensures LastMonth(events, n).Some? && !Precedes(LastMonth(events, n).value, MonthOf(events[j].now))
  {
    if !events[n - 1].Cycle? { LastIsLatest(panels, events, n - 1, j); }
  }

  /** A month after that of the latest cycle has no bytes yet. */
  lemma {:induction false} NewMonthIsEmpty(panels: seq<Panel>, events: seq<Event>, n: nat, uid: Id, m: Month)
    requires Run(panels, events) && n <= |events|
    requires LastMonth(events, n).Some? ==> Precedes(LastMonth(events, n).value, m)
    ensures ChargedIn(panels, events, n, uid, m) == Reading(0, 0)
  {
    forall j | 0 <= j < n ensures ChargedBy(panels[j], events[j], uid, m) == Reading(0, 0) {
      if events[j].Cycle? { LastIsLatest(panels, events, n, j); }
    }
    NothingCharged(panels, events, n, uid, m);
  }

  /** No cycle has seen the user yet. */
  ghost predicate Unseen(panels: seq<Panel>, events: seq<Event>, n: nat, uid: Id)
    requires n <= |events| && |panels| == |events| + 1
  {
    forall j :: 0 <= j < n && events[j].Cycle? ==> uid !in panels[j].users
  }

  /** A user's monthly counters are what was charged in the month of the latest cycle. */
  ghost predicate CountsMonth(panels: seq<Panel>, events: seq<Event>, n: nat, uid: Id, u: User)
    requires n <= |events| && |panels| == |events| + 1
  {
    match u.monthlyResetAt
    case NoStamp => u.monthlyRx == 0 && u.monthlyTx == 0 && Unseen(panels, events, n, uid)
    case Unreadable => false
    case At(t) =>
      LastMonth(events, n) == Some(MonthOf(t))
      && Reading(u.monthlyRx, u.monthlyTx) == ChargedIn(panels, events, n, uid, MonthOf(t))
  }

  /** Some user of that name was charged exactly the snapshot's bytes in the snapshot's month. */
  ghost predicate TrueTo(panels: seq<Panel>, events: seq<Event>, n: nat, m: Month, name: string, place: Place)
    requires n <= |events| && |panels| == |events| + 1
  {
    exists j, uid :: SavedFrom(panels, events, j, uid, n, m, name, place)
  }

  ghost predicate SavedFrom(panels: seq<Panel>, events: seq<Event>, j: int, uid: Id, n: nat, m: Month, name: string, place: Place)
    requires n <= |events| && |panels| == |events| + 1
  {
    && 0 <= j < n && events[j].Cycle? && LastMonth(events, j) == Some(m)
    && uid in panels[j].users && panels[j].users[uid].username == name && panels[j].users[uid].enabled
    && place == PlaceOf(panels[j].users[uid], place.rank)
    && Reading(place.upload, place.download) == ChargedIn(panels, events, n, uid, m)
  }

  ghost predicate UsersCount(panels: seq<Panel>, events: seq<Event>, n: nat)
    requires n <= |events| && |panels| == |events| + 1
  {
    forall uid :: uid in panels[n].users ==> CountsMonth(panels, events, n, uid, panels[n].users[uid])
  }

  ghost predicate SnapshotsTrue(panels: seq<Panel>, events: seq<Event>, n: nat)
    requires n <= |events| && |panels| == |events| + 1
  {
    forall k :: k in panels[n].rows ==>
      && LastMonth(events, n).Some? && Precedes(k.0, LastMonth(events, n).value)
      && TrueTo(panels, events, n, k.0, k.1, panels[n].rows[k])
  }

  // ----- The user rows -----

  lemma {:induction false} SettledMonth(u: User, now: DateTime, touched: bool, share: Reading)
    requires !u.monthlyResetAt.Unreadable?
    requires !touched ==> share == Reading(0, 0)
    ensures var v := Settled(u, now, touched, share);
      (if u.monthlyResetAt.NoStamp? || Stale(u.monthlyResetAt, now)
       then v.monthlyResetAt == At(now) && Reading(v.monthlyRx, v.monthlyTx) == share
       else v.monthlyResetAt == u.monthlyResetAt
            && Reading(v.monthlyRx, v.monthlyTx) == Plus(Reading(u.monthlyRx, u.monthlyTx), share))
  {
  }

  /** The counters a cycle leaves, whatever the user's stamp was. */
  lemma {:induction false} CycleCounts(panels: seq<Panel>, events: seq<Event>, n: nat, uid: Id)
    requires Run(panels, events) && n < |events| && events[n].Cycle?
    requires UsersCount(panels, events, n) && uid in panels[n].users
    ensures uid in panels[n + 1].users && CountsMonth(panels, events, n + 1, uid, panels[n + 1].users[uid])
  {
    var e, u := events[n], panels[n].users[uid];
    assert Step(panels[n], e, panels[n + 1]);
    var share, touched := Share(e.updates, e.conns, uid), Touched(e.updates, e.conns, uid);
    if !touched { UntouchedPaysNothing(e.updates, e.conns, uid); }
    SettledMonth(u, e.now, touched, share);
    var m := MonthOf(e.now);
    assert CountsMonth(panels, events, n, uid, u);
    if u.monthlyResetAt.NoStamp? {
      UnseenPaysNothing(panels, events, n, uid, m);
    } else if Stale(u.monthlyResetAt, e.now) {
      ClockAdvances(panels, events, n);
      NewMonthIsEmpty(panels, events, n, uid, m);
    }
    assert ChargedBy(panels[n], e, uid, m) == share;
    assert panels[n + 1].users[uid] == Settled(u, e.now, touched, share);
  }

  lemma {:induction false} UnseenPaysNothing(panels: seq<Panel>, events: seq<Event>, n: nat, uid: Id, m: Month)
    requires n <= |events| && |panels| == |events| + 1
    requires Unseen(panels, events, n, uid)
    ensures ChargedIn(panels, events, n, uid, m) == Reading(0, 0)
  {
    NothingCharged(panels, events, n, uid, m);
  }

  lemma {:induction false} ClockAdvances(panels: seq<Panel>, events: seq<Event>, n: nat)
    requires Run(panels, events) && n < |events| && events[n].Cycle? && LastMonth(events, n).Some?
    ensures var last := LastMonth(events, n).value;
      last == MonthOf(events[n].now) || Precedes(last, MonthOf(events[n].now))
  {
    LastIsACycle(panels, events, n);
  }

  lemma {:induction false} LastIsACycle(panels: seq<Panel>, events: seq<Event>, n: nat)
    requires Run(panels, events) && n <= |events| && LastMonth(events, n).Some?
    ensures exists j :: 0 <= j < n && events[j].Cycle? && LastMonth(events, n) == Some(MonthOf(events[j].now))
  {
    if !events[n - 1].Cycle? { LastIsACycle(panels, events, n - 1); }
  }

  /** Adding, dropping and editing users leaves every counter true. */
  lemma {:induction false} OtherStepsCount(panels: seq<Panel>, events: seq<Event>, n: nat, uid: Id)
    requires Run(panels, events) && n < |events| && !events[n].Cycle?
    requires UsersCount(panels, events, n) && uid in panels[n + 1].users
    ensures CountsMonth(panels, events, n + 1, uid, panels[n + 1].users[uid])
  {
    assert Step(panels[n], events[n], panels[n + 1]);
    var u := panels[n + 1].users[uid];
    if events[n].Add? && events[n].uid == uid {
      forall j | 0 <= j < n + 1 ensures uid !in panels[j].users { }
    } else {
      assert uid in panels[n].users && SameMonthly(panels[n].users[uid], u);
      assert CountsMonth(panels, events, n, uid, panels[n].users[uid]);
      if u.monthlyResetAt.At? {
        var m := MonthOf(u.monthlyResetAt.time);
        assert ChargedBy(panels[n], events[n], uid, m) == Reading(0, 0);
      }
    }
  }

  // ----- The snapshots -----

  /** Bytes of a past month do not change any more. */
  lemma {:induction false} PastIsFixed(panels: seq<Panel>, events: seq<Event>, n: nat, uid: Id, m: Month)
    requires Run(panels, events) && n < |events|
    requires LastMonth(events, n).Some? && Precedes(m, LastMonth(events, n).value)
    ensures ChargedIn(panels, events, n + 1, uid, m) == ChargedIn(panels, events, n, uid, m)
    ensures LastMonth(events, n + 1).Some? && Precedes(m, LastMonth(events, n + 1).value)
  {
    if events[n].Cycle? { ClockAdvances(panels, events, n); }
  }

  lemma {:induction false} StaysTrue(panels: seq<Panel>, events: seq<Event>, n: nat, m: Month, name: string, place: Place)
    requires Run(panels, events) && n < |events|
    requires LastMonth(events, n).Some? && Precedes(m, LastMonth(events, n).value)
    requires TrueTo(panels, events, n, m, name, place)
    ensures LastMonth(events, n + 1).Some? && Precedes(m, LastMonth(events, n + 1).value)
    ensures TrueTo(panels, events, n + 1, m, name, place)
  {
    var j, uid :| SavedFrom(panels, events, j, uid, n, m, name, place);
    PastIsFixed(panels, events, n, uid, m);
    assert SavedFrom(panels, events, j, uid, n + 1, m, name, place);
  }

  /** A new snapshot row holds the counters of the month that just ended. */
  lemma {:induction false} NewRowIsTrue(panels: seq<Panel>, events: seq<Event>, n: nat, uid: Id, m: Month, place: Place)
    requires Run(panels, events) && n < |events| && events[n].Cycle?
    requires UsersCount(panels, events, n)
    requires LastMonth(events, n) == Some(m) && Precedes(m, MonthOf(events[n].now))
    requires uid in panels[n].users && Eligible(panels[n].users[uid])
    requires place == PlaceOf(panels[n].users[uid], place.rank)
    ensures TrueTo(panels, events, n + 1, m, panels[n].users[uid].username, place)
  {
    var u := panels[n].users[uid];
    assert CountsMonth(panels, events, n, uid, u);
    assert ChargedBy(panels[n], events[n], uid, m) == Reading(0, 0);
    assert ChargedIn(panels, events, n + 1, uid, m) == ChargedIn(panels, events, n, uid, m);
    assert SavedFrom(panels, events, n, uid, n + 1, m, u.username, place);
  }

  /** The month under which a cycle saves is the month of the latest cycle before it. */
  lemma {:induction false} StaleMonthIsLast(panels: seq<Panel>, events: seq<Event>, n: nat, u: Id)
    requires Run(panels, events) && n < |events| && events[n].Cycle?
    requires UsersCount(panels, events, n) && IsStale(panels[n].users, u, events[n].now)
    ensures LastMonth(events, n) == Some(MonthOf(panels[n].users[u].monthlyResetAt.time))
    ensures Precedes(LastMonth(events, n).value, MonthOf(events[n].now))
  {
    assert CountsMonth(panels, events, n, u, panels[n].users[u]);
    ClockAdvances(panels, events, n);
  }

  lemma {:induction false} CycleSnapshotsTrue(panels: seq<Panel>, events: seq<Event>, n: nat, k: (Month, string))
    requires Run(panels, events) && n < |events| && events[n].Cycle?
    requires UsersCount(panels, events, n)
    requires k in panels[n + 1].rows && k !in panels[n].rows
    ensures LastMonth(events, n) == Some(k.0) && Precedes(k.0, MonthOf(events[n].now))
    ensures TrueTo(panels, events, n + 1, k.0, k.1, panels[n + 1].rows[k])
  {
    var e := events[n];
    assert Step(panels[n], e, panels[n + 1]);
    var users := panels[n].users;
    var u :| IsStale(users, u, e.now)
      && Saved(panels[n].rows, panels[n + 1].rows, MonthOf(users[u].monthlyResetAt.time), users, e.ranked);
    StaleMonthIsLast(panels, events, n, u);
    var place := panels[n + 1].rows[k];
    assert NewPlace(k.1, place, users, e.ranked);
    var i :| FirstOfName(users, e.ranked, i, k.1) && place == PlaceOf(users[e.ranked[i]], i + 1);
    assert e.ranked[i] in users && Eligible(users[e.ranked[i]]);
    NewRowIsTrue(panels, events, n, e.ranked[i], k.0, place);
  }

  lemma {:induction false} RowsOnlyGrow(panels: seq<Panel>, events: seq<Event>, n: nat, k: (Month, string))
    requires Run(panels, events) && n < |events| && k in panels[n].rows
    ensures k in panels[n + 1].rows && panels[n + 1].rows[k] == panels[n].rows[k]
    ensures !events[n].Cycle? ==> panels[n + 1].rows == panels[n].rows
  {
    assert Step(panels[n], events[n], panels[n + 1]);
  }

  lemma {:induction false} SnapshotsNext(panels: seq<Panel>, events: seq<Event>, n: nat)
    requires Run(panels, events) && n < |events|
    requires UsersCount(panels, events, n) && SnapshotsTrue(panels, events, n)
    ensures SnapshotsTrue(panels, events, n + 1)
  {
    forall k | k in panels[n + 1].rows
      ensures LastMonth(events, n + 1).Some? && Precedes(k.0, LastMonth(events, n + 1).value)
      ensures TrueTo(panels, events, n + 1, k.0, k.1, panels[n + 1].rows[k])
    {
      assert Step(panels[n], events[n], panels[n + 1]);
      if k in panels[n].rows {
        RowsOnlyGrow(panels, events, n, k);
        StaysTrue(panels, events, n, k.0, k.1, panels[n].rows[k]);
      } else {
        CycleSnapshotsTrue(panels, events, n, k);
      }
    }
  }

  // ----- Main results -----

  lemma {:induction false} UsersNext(panels: seq<Panel>, events: seq<Event>, n: nat)
    requires Run(panels, events) && n < |events| && UsersCount(panels, events, n)
    ensures UsersCount(panels, events, n + 1)
  {
    var next := n + 1;
    forall uid | uid in panels[next].users ensures CountsMonth(panels, events, next, uid, panels[next].users[uid]) {
      assert Step(panels[n], events[n], panels[n + 1]);
      if events[n].Cycle? {
        CycleCounts(panels, events, n, uid);
      } else {
        OtherStepsCount(panels, events, n, uid);
      }
    }
  }

  /**
   At every point of every run all stamps agree on the month of the latest cycle,
   every monthly counter is the bytes charged in that month, and every snapshot row
   holds the bytes charged in the month it is filed under.
   */
  lemma {:induction false} RunIsTrue(panels: seq<Panel>, events: seq<Event>, n: nat)
    requires Run(panels, events) && n <= |events|
    ensures UsersCount(panels, events, n) && SnapshotsTrue(panels, events, n)
  {
    if n > 0 {
      RunIsTrue(panels, events, n - 1);
      SnapshotsNext(panels, events, n - 1);
      UsersNext(panels, events, n - 1);
    }
  }

  lemma {:induction false} StampsAgree(panels: seq<Panel>, events: seq<Event>, n: nat, a: Id, b: Id)
    requires Run(panels, events) && n <= |events|
    requires a in panels[n].users && panels[n].users[a].monthlyResetAt.At?
    requires b in panels[n].users && panels[n].users[b].monthlyResetAt.At?
    ensures MonthOf(panels[n].users[a].monthlyResetAt.time) == MonthOf(panels[n].users[b].monthlyResetAt.time)
  {
    RunIsTrue(panels, events, n);
    assert CountsMonth(panels, events, n, a, panels[n].users[a]);
    assert CountsMonth(panels, events, n, b, panels[n].users[b]);
  }

  /** A snapshot row, once saved, is never changed or removed. */
  lemma {:induction false} SnapshotsStay(panels: seq<Panel>, events: seq<Event>, i: nat, j: nat, k: (Month, string))
    requires Run(panels, events) && i <= j <= |events| && k in panels[i].rows
    ensures k in panels[j].rows && panels[j].rows[k] == panels[i].rows[k]
    decreases j - i
  {
    if i < j {
      SnapshotsStay(panels, events, i, j - 1, k);
      RowsOnlyGrow(panels, events, j - 1, k);
    }
  }

  /** The first cycle of a new month saves every enabled user who had traffic in the month that ended. */
  lemma {:induction false} RolloverSavesEveryone(panels: seq<Panel>, events: seq<Event>, n: nat, uid: Id)
    requires Run(panels, events) && n < |events| && events[n].Cycle?
    requires LastMonth(events, n).Some? && LastMonth(events, n).value != MonthOf(events[n].now)
    requires uid in panels[n].users && panels[n].users[uid].enabled
    requires ChargedIn(panels, events, n, uid, LastMonth(events, n).value) != Reading(0, 0)
    ensures var key := (LastMonth(events, n).value, panels[n].users[uid].username);
      var c := ChargedIn(panels, events, n, uid, key.0);
      && key !in panels[n].rows
      && key in panels[n + 1].rows
      && panels[n + 1].rows[key].total >= c.rx + c.tx
  {
    RunIsTrue(panels, events, n);
    var e, users, m := events[n], panels[n].users, LastMonth(events, n).value;
    var name := users[uid].username;
    assert Step(panels[n], e, panels[n + 1]);
    assert CountsMonth(panels, events, n, uid, users[uid]);
    if users[uid].monthlyResetAt.NoStamp? { UnseenPaysNothing(panels, events, n, uid, m); }
    assert IsStale(users, uid, e.now);
    var u :| IsStale(users, u, e.now)
      && Saved(panels[n].rows, panels[n + 1].rows, MonthOf(users[u].monthlyResetAt.time), users, e.ranked);
    StaleMonthIsLast(panels, events, n, u);
    assert !Precedes(m, m);
    assert (m, name) !in panels[n].rows;
    BestOfNameIsKept(panels[n].rows, panels[n + 1].rows, m, users, e.ranked, uid);
  }
}
