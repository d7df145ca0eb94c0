/**
 The settling half of the periodic traffic job: the month is rolled over after
 the leaderboard is saved, the bytes are charged through a cache of the user
 table, and users over their limit or past their expiry are disabled
 (app/services/background_orchestrator.py).
 */
module TrafficCycle {
  import opened Tables
  import opened Accounting
  import opened Leaderboard
  import MassOperations

  // ----- Monthly rollover -----

  predicate IsStale(users: Users, u: Id, now: DateTime) {
    u in users && Stale(users[u].monthlyResetAt, now)
  }

  /** A snapshot under the month of some stale stamp, or nothing when no stamp is stale. */
  ghost predicate SnapshotTaken(users: Users, now: DateTime, ranked: seq<Id>, before: Snapshots, after: Snapshots)
    requires forall u :: u in ranked ==> u in users
  {
    || (exists u :: IsStale(users, u, now) && Saved(before, after, MonthOf(users[u].monthlyResetAt.time), users, ranked))
    || (before == after && forall u :: !IsStale(users, u, now))
  }

  /** Step 1: the first stale stamp in the order of `keys` names the month of the snapshot. */
  method SaveBeforeRollover(db: Database, board: Board, keys: seq<Id>, cache: Users, ranked: seq<Id>, now: DateTime)
    requires cache == db.users && Lists(keys, cache)
    requires forall u :: u in ranked ==> u in db.users
    modifies board
    ensures SnapshotTaken(db.users, now, ranked, old(board.rows), board.rows)
  {
    for i := 0 to |keys|
      invariant board.rows == old(board.rows)
      invariant forall u :: u in keys[..i] ==> !IsStale(cache, u, now)
    {
      var stamp := cache[keys[i]].monthlyResetAt;
      if Stale(stamp, now) {
        var _ := board.SaveSnapshot(MonthOf(stamp.time), db.users, ranked);
        assert IsStale(cache, keys[i], now);
        return;
      }
      assert keys[..i + 1] == keys[..i] + [keys[i]];
    }
    assert keys[..|keys|] == keys;
  }

  ghost predicate RolledAll(before: Users, after: Users, now: DateTime, done: set<Id>) {
    && after.Keys == before.Keys
    && forall u :: u in before ==> after[u] == if u in done then Rolled(before[u], now) else before[u]
  }

  /** Step 2: counters are zeroed in the table and in the cache alike. */
  method RollOver(db: Database, keys: seq<Id>, now: DateTime, users: Users) returns (cache: Users)
    requires users == db.users && Lists(keys, users)
    modifies db`users
    ensures cache == db.users
    ensures RolledAll(users, cache, now, users.Keys)
  {
    cache := users;
    for i := 0 to |keys|
      invariant cache == db.users
      invariant RolledAll(users, cache, now, set u | u in keys[..i])
    {
      var uid := keys[i];
      var u := cache[uid];
      assert keys[i] !in keys[..i];
      if u.monthlyResetAt.NoStamp? || Stale(u.monthlyResetAt, now) {
        db.UpdateUser(uid, db.users[uid].(monthlyRx := 0, monthlyTx := 0, monthlyResetAt := At(now)));
        cache := cache[uid := u.(monthlyRx := 0, monthlyTx := 0, monthlyResetAt := At(now))];
      }
      assert keys[..i + 1] == keys[..i] + [uid];
    }
    assert keys[..|keys|] == keys;
  }

  // ----- Charging the updates -----

  function MeterNext(conns: Connections, u: Update): Connections {
    if u.conn in conns then conns[u.conn := Metered(conns[u.conn], u)] else conns
  }

  /** The connection rows after the updates; a connection deleted since the poll is skipped. */
  function MeterAll(conns: Connections, updates: seq<Update>): (r: Connections)
    ensures r.Keys == conns.Keys
    ensures forall c :: c in conns ==> r[c].userId == conns[c].userId
  {
    if updates == [] then conns
    else MeterNext(MeterAll(conns, updates[..|updates| - 1]), updates[|updates| - 1])
  }

  function BilledUser(u: User, now: DateTime, updates: seq<Update>, conns: Connections, uid: Id): User {
    Billed(u, now, Touched(updates, conns, uid), Share(updates, conns, uid).rx, Share(updates, conns, uid).tx)
  }

  ghost predicate BilledAll(before: Users, after: Users, now: DateTime, updates: seq<Update>, conns: Connections) {
    && after.Keys == before.Keys
    && forall u :: u in before ==> after[u] == BilledUser(before[u], now, updates, conns, u)
  }

  /** Exactly the users whose updates took them to their limit are queued, each once. */
  ghost predicate QueuedForTraffic(queue: seq<Id>, users: Users, updates: seq<Update>, conns: Connections) {
    && Distinct(queue)
    && forall u :: u in queue <==> u in users && Touched(updates, conns, u) && OverLimit(users[u])
  }

  /** The user's part of one update: reset if due, add the bytes, queue at the limit; table and cache alike. */
  method ChargeUser(db: Database, cache: Users, queue: seq<Id>, uid: Id, rx: nat, tx: nat, now: DateTime)
    returns (next: Users, longer: seq<Id>)
    requires cache == db.users && uid in cache
    modifies db`users
    ensures next == db.users
    ensures next == cache[uid := WithBytes(QuotaReset(cache[uid], now), rx, tx)]
    ensures longer == if OverLimit(next[uid]) && uid !in queue then queue + [uid] else queue
  {
    next, longer := cache, queue;
    var u := next[uid];
    var due := false;
    if u.resetStrategy != Never && u.lastResetAt.At? {
      var last := u.lastResetAt.time;
      match u.resetStrategy
      case Daily => due := LaterDay(now, last);
      case Weekly => due := now.isoWeek != last.isoWeek || now.year != last.year;
      case Monthly => due := now.month != last.month || now.year != last.year;
    }
    if due {
      db.UpdateUser(uid, db.users[uid].(trafficUsed := 0, lastResetAt := At(now)));
      u := u.(trafficUsed := 0, lastResetAt := At(now));
    }
    var newUsed := u.trafficUsed + (rx + tx);
    var newTotal := u.trafficTotal + (rx + tx);
    var newRx, newTx := u.trafficTotalRx + rx, u.trafficTotalTx + tx;
    var monthRx, monthTx := u.monthlyRx + rx, u.monthlyTx + tx;
    db.UpdateUser(uid, db.users[uid].(trafficUsed := newUsed, trafficTotal := newTotal, trafficTotalRx := newRx,
      trafficTotalTx := newTx, monthlyRx := monthRx, monthlyTx := monthTx));
    u := u.(trafficUsed := newUsed, trafficTotal := newTotal, trafficTotalRx := newRx,
      trafficTotalTx := newTx, monthlyRx := monthRx, monthlyTx := monthTx);
    next := next[uid := u];
    if u.trafficLimit > 0 && newUsed >= u.trafficLimit && u.enabled {
      if uid !in longer { longer := longer + [uid]; }
    }
  }

  lemma {:induction false} TouchedNext(updates: seq<Update>, u: Update, conns: Connections, uid: Id)
    ensures Touched(updates + [u], conns, uid) == (Touched(updates, conns, uid) || Belongs(u, conns, uid))
  {
    var more := updates + [u];
    if Touched(updates, conns, uid) {
      var i :| 0 <= i < |updates| && Belongs(updates[i], conns, uid);
      assert more[i] == updates[i];
    }
    if Belongs(u, conns, uid) { assert more[|updates|] == u; }
  }

  /** What one update does to a user's share. */
  lemma {:induction false} ShareNext(updates: seq<Update>, u: Update, conns: Connections, uid: Id)
    ensures Touched(updates + [u], conns, uid) == (Touched(updates, conns, uid) || Belongs(u, conns, uid))
    ensures Share(updates + [u], conns, uid) == Plus(Share(updates, conns, uid), BytesFor(u, conns, uid))
  {
    ShareLast(updates, u, conns, uid);
    TouchedNext(updates, u, conns, uid);
  }

  lemma {:induction false} BilledValuesNext(row: User, now: DateTime, touched: bool, own: bool, share: Reading, more: Reading)
    requires !touched ==> share == Reading(0, 0)
    requires !own ==> more == Reading(0, 0)
    ensures var billed := Billed(row, now, touched, share.rx, share.tx);
      Billed(row, now, touched || own, Plus(share, more).rx, Plus(share, more).tx)
        == if own then WithBytes(QuotaReset(billed, now), more.rx, more.tx) else billed
  {
    BilledAgain(row, now, touched, share.rx, share.tx, more.rx, more.tx);
  }

  lemma {:induction false} BilledUserNext(row: User, now: DateTime, updates: seq<Update>, more: seq<Update>, u: Update,
                                          conns: Connections, uid: Id)
    requires more == updates + [u]
    ensures var billed := BilledUser(row, now, updates, conns, uid);
      BilledUser(row, now, more, conns, uid)
        == if Belongs(u, conns, uid) then WithBytes(QuotaReset(billed, now), u.rx, u.tx) else billed
  {
    ShareNext(updates, u, conns, uid);
    var share, touched := Share(updates, conns, uid), Touched(updates, conns, uid);
    if !touched { UntouchedPaysNothing(updates, conns, uid); }
    BilledValuesNext(row, now, touched, Belongs(u, conns, uid), share, BytesFor(u, conns, uid));
  }

  lemma {:induction false} BilledNext(before: Users, cache: Users, next: Users, now: DateTime, updates: seq<Update>,
                                      u: Update, conns: Connections)
    requires BilledAll(before, cache, now, updates, conns)
    requires u.conn in conns && conns[u.conn].userId in before
    requires var uid := conns[u.conn].userId;
      next == cache[uid := WithBytes(QuotaReset(cache[uid], now), u.rx, u.tx)]
    ensures BilledAll(before, next, now, updates + [u], conns)
  {
    forall uid | uid in before ensures next[uid] == BilledUser(before[uid], now, updates + [u], conns, uid) {
      BilledUserNext(before[uid], now, updates, updates + [u], u, conns, uid);
    }
  }

  lemma {:induction false} BilledSame(before: Users, cache: Users, now: DateTime, updates: seq<Update>,
                                      u: Update, conns: Connections)
    requires BilledAll(before, cache, now, updates, conns)
    requires forall uid :: uid in before ==> !Belongs(u, conns, uid)
    ensures BilledAll(before, cache, now, updates + [u], conns)
  {
    forall uid | uid in before ensures cache[uid] == BilledUser(before[uid], now, updates + [u], conns, uid) {
      BilledUserNext(before[uid], now, updates, updates + [u], u, conns, uid);
    }
  }

  /** After the first update a user's usage only grows. */
  lemma {:induction false} UsageGrows(row: User, now: DateTime, updates: seq<Update>, conns: Connections, uid: Id, rx: nat, tx: nat)
    requires Touched(updates, conns, uid)
    ensures var billed := BilledUser(row, now, updates, conns, uid);
      OverLimit(billed) ==> OverLimit(WithBytes(QuotaReset(billed, now), rx, tx))
  {
    var share := Share(updates, conns, uid);
    BilledAgain(row, now, true, share.rx, share.tx, rx, tx);
  }

  lemma {:induction false} QueueNext(before: Users, cache: Users, next: Users, now: DateTime, updates: seq<Update>,
                                     u: Update, conns: Connections, queue: seq<Id>, longer: seq<Id>)
    requires BilledAll(before, cache, now, updates, conns) && QueuedForTraffic(queue, cache, updates, conns)
    requires u.conn in conns && conns[u.conn].userId in before
    requires var uid := conns[u.conn].userId;
      next == cache[uid := WithBytes(QuotaReset(cache[uid], now), u.rx, u.tx)]
      && longer == if OverLimit(next[uid]) && uid !in queue then queue + [uid] else queue
    ensures QueuedForTraffic(longer, next, updates + [u], conns)
  {
    var uid := conns[u.conn].userId;
    if Touched(updates, conns, uid) { UsageGrows(before[uid], now, updates, conns, uid, u.rx, u.tx); }
    forall x ensures x in longer <==> x in next && Touched(updates + [u], conns, x) && OverLimit(next[x]) {
      TouchedNext(updates, u, conns, x);
    }
  }

  /** The connection's part of one update, in one write; says whose connection it is, if it still exists. */
  method MeterConnection(db: Database, u: Update) returns (owner: Option<Id>)
    modifies db`connections
    ensures db.connections == MeterNext(old(db.connections), u)
    ensures owner == if u.conn in old(db.connections) then Some(old(db.connections)[u.conn].userId) else None
  {
    if u.conn !in db.connections { return None; }
    var uc := db.connections[u.conn];
    var newRx, newTx, newTotal := uc.totalRx + u.rx, uc.totalTx + u.tx, uc.total + u.rx + u.tx;
    db.connections := db.connections[u.conn := uc.(lastRx := Some(u.currRx), lastTx := Some(u.currTx),
      totalRx := newRx, totalTx := newTx, total := newTotal)];
    return Some(uc.userId);
  }

  lemma {:induction false} NobodyCharged(before: Users, cache: Users, now: DateTime, updates: seq<Update>,
                                         u: Update, conns: Connections, queue: seq<Id>)
    requires BilledAll(before, cache, now, updates, conns) && QueuedForTraffic(queue, cache, updates, conns)
    requires u.conn in conns ==> conns[u.conn].userId !in cache
    ensures BilledAll(before, cache, now, updates + [u], conns) && QueuedForTraffic(queue, cache, updates + [u], conns)
  {
    BilledSame(before, cache, now, updates, u, conns);
    forall x | x in cache { TouchedNext(updates, u, conns, x); }
  }

  /** One round of the loop over the updates. */
  method ApplyUpdate(db: Database, cache: Users, queue: seq<Id>, u: Update, now: DateTime,
                     ghost before: Users, ghost conns: Connections, ghost done: seq<Update>)
    returns (next: Users, longer: seq<Id>)
    requires cache == db.users && db.connections == MeterAll(conns, done)
    requires BilledAll(before, cache, now, done, conns) && QueuedForTraffic(queue, cache, done, conns)
    modifies db
    ensures next == db.users && db.connections == MeterNext(old(db.connections), u)
    ensures BilledAll(before, next, now, done + [u], conns)
    ensures QueuedForTraffic(longer, next, done + [u], conns)
  {
    next, longer := cache, queue;
    var owner := MeterConnection(db, u);
    if owner.Some? && owner.value in cache {
      next, longer := ChargeUser(db, cache, queue, owner.value, u.rx, u.tx, now);
      BilledNext(before, cache, next, now, done, u, conns);
      QueueNext(before, cache, next, now, done, u, conns, queue, longer);
    } else {
      NobodyCharged(before, cache, now, done, u, conns, queue);
    }
  }

  method ApplyUpdates(db: Database, users: Users, updates: seq<Update>, now: DateTime)
    returns (cache: Users, queue: seq<Id>)
    requires users == db.users
    modifies db
    ensures cache == db.users && db.connections == MeterAll(old(db.connections), updates)
    ensures BilledAll(users, cache, now, updates, old(db.connections))
    ensures QueuedForTraffic(queue, cache, updates, old(db.connections))
  {
    cache, queue := users, [];
    ghost var conns := db.connections;
    for i := 0 to |updates|
      invariant cache == db.users && db.connections == MeterAll(conns, updates[..i])
      invariant BilledAll(users, cache, now, updates[..i], conns)
      invariant QueuedForTraffic(queue, cache, updates[..i], conns)
    {
      assert updates[..i + 1] == updates[..i] + [updates[i]];
      assert updates[..i + 1][..i] == updates[..i];
      cache, queue := ApplyUpdate(db, cache, queue, updates[i], now, users, conns, updates[..i]);
    }
    assert updates[..|updates|] == updates;
  }

  // ----- Expiry and disabling -----

  method QueueExpired(cache: Users, keys: seq<Id>, now: DateTime, queue: seq<Id>) returns (all: seq<Id>)
    requires Lists(keys, cache) && Distinct(queue)
    ensures Distinct(all)
    ensures forall u :: u in all <==> u in queue || (u in cache && Expired(cache[u], now))
  {
    all := queue;
    for i := 0 to |keys|
      invariant Distinct(all)
      invariant forall u :: u in all <==> u in queue || (u in keys[..i] && Expired(cache[u], now))
    {
      if Expired(cache[keys[i]], now) && keys[i] !in all { all := all + [keys[i]]; }
      assert keys[..i + 1] == keys[..i] + [keys[i]];
    }
    assert keys[..|keys|] == keys;
  }

  /** The toggles that switch every queued user off. */
  function Disabling(queue: seq<Id>): seq<(Id, bool)> {
    if queue == [] then [] else Disabling(queue[..|queue| - 1]) + [(queue[|queue| - 1], false)]
  }

  lemma {:induction false} DisablesExactly(queue: seq<Id>, u: Id)
    ensures MassOperations.LastToggle(Disabling(queue), u) == if u in queue then Some(false) else None
  {
    if queue != [] {
      var rest := queue[..|queue| - 1];
      DisablesExactly(rest, u);
      assert Disabling(queue)[..|Disabling(queue)| - 1] == Disabling(rest);
      assert queue == rest + [queue[|queue| - 1]];
    }
  }

  /** The user row after the whole job, from the user's share of the updates. */
  function Settled(u: User, now: DateTime, touched: bool, share: Reading): User {
    var billed := Billed(Rolled(u, now), now, touched, share.rx, share.tx);
    billed.(enabled := u.enabled && !(touched && OverLimit(billed)) && !Expired(billed, now))
  }

  function AfterCycle(u: User, now: DateTime, updates: seq<Update>, conns: Connections, uid: Id): User {
    Settled(u, now, Touched(updates, conns, uid), Share(updates, conns, uid))
  }

  ghost predicate Cycled(before: Users, after: Users, now: DateTime, updates: seq<Update>, conns: Connections) {
    && after.Keys == before.Keys
    && forall u :: u in before ==> after[u] == AfterCycle(before[u], now, updates, conns, u)
  }

  /** The flag after the toggles is the one that the job means. */
  lemma {:induction false} UserSettles(u: User, now: DateTime, touched: bool, share: Reading, queued: bool)
    requires var billed := Billed(Rolled(u, now), now, touched, share.rx, share.tx);
      queued <==> (touched && OverLimit(billed)) || Expired(billed, now)
    ensures var billed := Billed(Rolled(u, now), now, touched, share.rx, share.tx);
      (if queued then billed.(enabled := false) else billed) == Settled(u, now, touched, share)
  {
  }

  lemma {:induction false} CycleSettles(users: Users, rolled: Users, billed: Users, now: DateTime, updates: seq<Update>,
                                        conns: Connections, queue: seq<Id>, all: seq<Id>, after: Users)
    requires RolledAll(users, rolled, now, users.Keys) && BilledAll(rolled, billed, now, updates, conns)
    requires QueuedForTraffic(queue, billed, updates, conns)
    requires forall u :: u in all <==> u in queue || (u in billed && Expired(billed[u], now))
    requires after == MassOperations.SettledUsers(billed, [], Disabling(all))
    ensures Cycled(users, after, now, updates, conns)
  {
    forall u | u in users ensures u in after && after[u] == AfterCycle(users[u], now, updates, conns, u) {
      DisablesExactly(all, u);
      assert billed[u] == BilledUser(Rolled(users[u], now), now, updates, conns, u);
      UserSettles(users[u], now, Touched(updates, conns, u), Share(updates, conns, u), u in all);
    }
  }

  // ----- The calls that switch users off -----

  /** The user was enabled before the job and is not any more. */
  predicate SwitchedOff(before: Users, after: Users, u: Id) {
    u in before && u in after && before[u].enabled && !after[u].enabled
  }

  /** A toggle that switches off the peer of a connection of such a user. */
  ghost predicate SwitchesOff(before: Users, after: Users, conns: Connections, s: ServerId, a: MassOperations.Action) {
    && a.TogglePeer? && a.conn in conns && a.row == conns[a.conn] && a.row.serverId == s
    && !a.enabled && SwitchedOff(before, after, a.row.userId)
  }

  /** Only such toggles are called on a server, and all of them once its list is done. */
  ghost predicate CutsOff(calls: seq<MassOperations.Call>, turns: seq<MassOperations.Turn>, s: ServerId, before: Users, after: Users,
                          conns: Connections)
  {
    && (forall a :: a in MassOperations.CallsOn(calls, s) ==> SwitchesOff(before, after, conns, s, a))
    && (MassOperations.Done(calls, turns, s) ==>
          forall a :: SwitchesOff(before, after, conns, s, a) ==> a in MassOperations.CallsOn(calls, s))
  }

  lemma {:induction false} DisablingMembers(queue: seq<Id>, u: Id, f: bool)
    ensures (u, f) in Disabling(queue) <==> u in queue && !f
  {
    if queue != [] {
      DisablingMembers(queue[..|queue| - 1], u, f);
      assert queue == queue[..|queue| - 1] + [queue[|queue| - 1]];
    }
  }

  lemma {:induction false} OwedSwitchesOff(actions: seq<MassOperations.Action>, before: Users, after: Users, conns: Connections, s: ServerId,
                                           all: seq<Id>, a: MassOperations.Action)
    requires MassOperations.Owed(actions, conns, s, [], Disabling(all), []) && forall u :: u in all <==> SwitchedOff(before, after, u)
    ensures a in actions <==> SwitchesOff(before, after, conns, s, a)
  {
    MassOperations.OwedAdds(actions, conns, s, [], Disabling(all), [], a);
    match a
    case RemovePeer(c, row) =>
    case TogglePeer(c, row, f) => DisablingMembers(all, row.userId, f);
    case AddPeer(r) =>
  }

  lemma {:induction false} ServerCutsOff(calls: seq<MassOperations.Call>, turns: seq<MassOperations.Turn>, s: ServerId, before: Users,
                                         after: Users, conns: Connections, all: seq<Id>)
    requires forall u :: u in all <==> SwitchedOff(before, after, u)
    requires MassOperations.Begun(MassOperations.CallsOn(calls, s), conns, s, [], Disabling(all), [])
    requires MassOperations.Quiet(turns, s) ==>
      MassOperations.Served(MassOperations.CallsOn(calls, s), MassOperations.TurnsOf(turns, s), conns, s, [], Disabling(all), [])
    ensures CutsOff(calls, turns, s, before, after, conns)
  {
    var actions := MassOperations.CallsOn(calls, s);
    var plan :| MassOperations.Owed(plan, conns, s, [], Disabling(all), []) && actions <= plan;
    forall a | a in actions ensures SwitchesOff(before, after, conns, s, a) {
      assert a in plan;
      OwedSwitchesOff(plan, before, after, conns, s, all, a);
    }
    if MassOperations.Done(calls, turns, s) {
      forall a | SwitchesOff(before, after, conns, s, a) ensures a in actions {
        OwedSwitchesOff(actions, before, after, conns, s, all, a);
      }
    }
  }

  /** The queue is exactly the users whom the job switches off. */
  lemma {:induction false} QueueIsSwitchedOff(users: Users, rolled: Users, billed: Users, now: DateTime, updates: seq<Update>,
                                              conns: Connections, queue: seq<Id>, all: seq<Id>, after: Users, u: Id)
    requires RolledAll(users, rolled, now, users.Keys) && BilledAll(rolled, billed, now, updates, conns)
    requires QueuedForTraffic(queue, billed, updates, conns)
    requires forall u :: u in all <==> u in queue || (u in billed && Expired(billed[u], now))
    requires Cycled(users, after, now, updates, conns)
    ensures u in all <==> SwitchedOff(users, after, u)
  {
    if u in users { assert billed[u] == BilledUser(Rolled(users[u], now), now, updates, conns, u); }
  }

  /** The whole settling half, with the updates collected before. */
  method SyncTraffic(db: Database, board: Board, updates: seq<Update>, ranked: seq<Id>, now: DateTime,
                     servers: set<ServerId>, turns: seq<MassOperations.Turn>, ghost issued: set<Id>)
    returns (calls: seq<MassOperations.Call>)
    requires ReferencesHold(db.users, db.connections) && Ranking(db.users, ranked)
    requires db.connections.Keys <= issued && MassOperations.FreshIds(turns, issued)
    modifies db, board
    ensures Cycled(old(db.users), db.users, now, updates, old(db.connections))
    ensures db.connections == MeterAll(old(db.connections), updates)
    ensures SnapshotTaken(old(db.users), now, ranked, old(board.rows), board.rows)
    ensures forall s :: s in servers ==> CutsOff(calls, turns, s, old(db.users), db.users, db.connections)
  {
    var cache := db.users;
    var keys := ListKeys(cache);
    ghost var users, conns := db.users, db.connections;
    SaveBeforeRollover(db, board, keys, cache, ranked, now);
    cache := RollOver(db, keys, now, cache);
    ghost var rolled := cache;
    var queue, all;
    cache, queue := ApplyUpdates(db, cache, updates, now);
    ghost var billed, metered := cache, db.connections;
    all := QueueExpired(cache, keys, now, queue);
    calls := SwitchOff(db, all, servers, turns, issued);
    CycleSettles(users, rolled, billed, now, updates, conns, queue, all, db.users);
    forall u ensures u in all <==> SwitchedOff(users, db.users, u) {
      QueueIsSwitchedOff(users, rolled, billed, now, updates, conns, queue, all, db.users, u);
    }
    forall s | s in servers ensures CutsOff(calls, turns, s, users, db.users, db.connections) {
      ServerCutsOff(calls, turns, s, users, db.users, db.connections, all);
    }
  }

  /** Disables the queued users, if there are any, and their peers. */
  method SwitchOff(db: Database, all: seq<Id>, servers: set<ServerId>, turns: seq<MassOperations.Turn>, ghost issued: set<Id>)
    returns (calls: seq<MassOperations.Call>)
    requires ReferencesHold(db.users, db.connections)
    requires db.connections.Keys <= issued && MassOperations.FreshIds(turns, issued)
    modifies db
    ensures db.users == MassOperations.SettledUsers(old(db.users), [], Disabling(all)) && db.connections == old(db.connections)
    ensures forall s :: s in servers ==>
      && MassOperations.Begun(MassOperations.CallsOn(calls, s), db.connections, s, [], Disabling(all), [])
      && (MassOperations.Quiet(turns, s) ==>
            MassOperations.Served(MassOperations.CallsOn(calls, s), MassOperations.TurnsOf(turns, s), db.connections, s, [], Disabling(all), []))
  {
    calls := [];
    if all != [] {
      ghost var users, conns := db.users, db.connections;
      calls := MassOperations.PerformMassOperations(db, [], Disabling(all), [], servers, turns, issued);
      SameConnections(users, conns, db.connections);
      forall s | MassOperations.Quiet(turns, s) ensures MassOperations.Calm(users, [], turns, s) { }
    } else {
      forall s { MassOperations.NothingOwed(db.connections, s, MassOperations.TurnsOf(turns, s)); }
    }
  }

  lemma {:induction false} SameConnections(users: Users, before: Connections, after: Connections)
    requires MassOperations.SettledConnections(users, before, [], [], after)
    ensures after == before
  {
  }

  // ----- What a cycle keeps -----

  /** The order in which the updates arrive does not matter to any user. */
  lemma {:induction false} CycleIgnoresOrder(before: Users, one: seq<Update>, two: seq<Update>, now: DateTime,
                                             conns: Connections, after1: Users, after2: Users)
    requires multiset(one) == multiset(two)
    requires Cycled(before, after1, now, one, conns) && Cycled(before, after2, now, two, conns)
    ensures after1 == after2
  {
    forall u | u in before ensures after1[u] == after2[u] {
      ShareIgnoresOrder(one, two, conns, u);
      SameMembers(one, two, conns, u);
      SameMembers(two, one, conns, u);
    }
  }

  predicate BooksHold(u: User) {
    && u.trafficTotal == u.trafficTotalRx + u.trafficTotalTx
    && u.monthlyRx <= u.trafficTotalRx && u.monthlyTx <= u.trafficTotalTx
    && u.trafficUsed <= u.trafficTotal
  }

  lemma {:induction false} CycleKeepsBooks(before: Users, after: Users, now: DateTime, updates: seq<Update>,
                                           conns: Connections)
    requires Cycled(before, after, now, updates, conns)
    requires forall u :: u in before ==> BooksHold(before[u])
    ensures forall u :: u in after ==> BooksHold(after[u])
  {
    forall u | u in before ensures BooksHold(after[u]) {
      assert BooksHold(Rolled(before[u], now));
      assert BooksHold(QuotaReset(Rolled(before[u], now), now));
    }
  }

  /** How much a list of connections grew. */
  datatype Growth = Growth(rx: int, tx: int, total: int)

  function Grown(keys: seq<Id>, before: Connections, after: Connections, uid: Id): Growth
    requires forall c :: c in keys ==> c in before && c in after
  {
    if keys == [] then Growth(0, 0, 0)
    else
      var c := keys[|keys| - 1];
      var g := Grown(keys[..|keys| - 1], before, after, uid);
      if before[c].userId != uid then g
      else Growth(g.rx + after[c].totalRx - before[c].totalRx, g.tx + after[c].totalTx - before[c].totalTx,
                  g.total + after[c].total - before[c].total)
  }

  lemma {:induction false} GrownNowhere(keys: seq<Id>, before: Connections, uid: Id)
    requires forall c :: c in keys ==> c in before
    ensures Grown(keys, before, before, uid) == Growth(0, 0, 0)
  {
    if keys != [] { GrownNowhere(keys[..|keys| - 1], before, uid); }
  }

  lemma {:induction false} GrownElsewhere(keys: seq<Id>, before: Connections, middle: Connections, u: Update, uid: Id)
    requires before.Keys == middle.Keys && forall c :: c in keys ==> c in before
    requires u.conn !in keys
    ensures Grown(keys, before, MeterNext(middle, u), uid) == Grown(keys, before, middle, uid)
  {
    if keys != [] { GrownElsewhere(keys[..|keys| - 1], before, middle, u, uid); }
  }

  lemma {:induction false} GrownNext(keys: seq<Id>, before: Connections, middle: Connections, u: Update, uid: Id)
    requires before.Keys == middle.Keys && forall c :: c in keys ==> c in before
    requires Distinct(keys) && u.conn in keys
    ensures var g := Grown(keys, before, middle, uid);
      var b := BytesFor(u, before, uid);
      Grown(keys, before, MeterNext(middle, u), uid) == Growth(g.rx + b.rx, g.tx + b.tx, g.total + b.rx + b.tx)
  {
    var rest, c := keys[..|keys| - 1], keys[|keys| - 1];
    assert keys == rest + [c];
    assert c !in rest;
    if c == u.conn {
      GrownElsewhere(rest, before, middle, u, uid);
    } else {
      GrownNext(rest, before, middle, u, uid);
    }
  }

  function GrowthOf(share: Reading): Growth {
    Growth(share.rx, share.tx, share.rx + share.tx)
  }

  lemma {:induction false} GrowthPlus(g: Growth, share: Reading, b: Reading)
    requires g == GrowthOf(share)
    ensures Growth(g.rx + b.rx, g.tx + b.tx, g.total + b.rx + b.tx) == GrowthOf(Plus(share, b))
  {
  }

  lemma {:induction false} GrownByMissing(keys: seq<Id>, conns: Connections, middle: Connections, u: Update, uid: Id)
    requires (forall c :: c in keys ==> c in conns) && middle.Keys == conns.Keys && u.conn !in conns
    ensures MeterNext(middle, u) == middle && BytesFor(u, conns, uid) == Reading(0, 0)
  {
  }

  lemma {:induction false} GrownByPresent(keys: seq<Id>, conns: Connections, middle: Connections, share: Reading,
                                          u: Update, uid: Id, g: Growth)
    requires (forall c :: c in keys ==> c in conns) && Distinct(keys) && u.conn in keys && middle.Keys == conns.Keys
    requires g == Grown(keys, conns, middle, uid) && g == GrowthOf(share)
    ensures Grown(keys, conns, MeterNext(middle, u), uid) == GrowthOf(Plus(share, BytesFor(u, conns, uid)))
  {
    GrownNext(keys, conns, middle, u, uid);
    GrowthPlus(g, share, BytesFor(u, conns, uid));
  }

  lemma {:induction false} GrownByUpdate(keys: seq<Id>, conns: Connections, middle: Connections, share: Reading,
                                         u: Update, uid: Id)
    requires (forall c :: c in keys ==> c in conns) && Distinct(keys) && (u.conn in conns ==> u.conn in keys)
    requires middle.Keys == conns.Keys && Grown(keys, conns, middle, uid) == GrowthOf(share)
    ensures Grown(keys, conns, MeterNext(middle, u), uid) == GrowthOf(Plus(share, BytesFor(u, conns, uid)))
  {
    if u.conn in conns {
      GrownByPresent(keys, conns, middle, share, u, uid, Grown(keys, conns, middle, uid));
    } else {
      GrownByMissing(keys, conns, middle, u, uid);
    }
  }

  /** A user is charged exactly what the user's own connections grew by. */
  lemma {:induction false} UsersPayForTheirConnections(keys: seq<Id>, conns: Connections, updates: seq<Update>, uid: Id)
    requires Lists(keys, conns)
    ensures Grown(keys, conns, MeterAll(conns, updates), uid) == GrowthOf(Share(updates, conns, uid))
    decreases |updates|
  {
    if updates == [] {
      GrownNowhere(keys, conns, uid);
    } else {
      var rest, u := updates[..|updates| - 1], updates[|updates| - 1];
      UsersPayForTheirConnections(keys, conns, rest, uid);
      GrownByUpdate(keys, conns, MeterAll(conns, rest), Share(rest, conns, uid), u, uid);
    }
  }

  ghost predicate Gained(before: User, after: User, g: Growth) {
    && after.trafficTotalRx - before.trafficTotalRx == g.rx
    && after.trafficTotalTx - before.trafficTotalTx == g.tx
    && after.trafficTotal - before.trafficTotal == g.total
  }

  lemma {:induction false} SettledGains(u: User, now: DateTime, touched: bool, share: Reading)
    requires !touched ==> share == Reading(0, 0)
    ensures Gained(u, Settled(u, now, touched, share), GrowthOf(share))
  {
  }

  lemma {:induction false} RowGains(u: User, now: DateTime, updates: seq<Update>, conns: Connections, uid: Id)
    ensures Gained(u, AfterCycle(u, now, updates, conns, uid), GrowthOf(Share(updates, conns, uid)))
  {
    var share, touched := Share(updates, conns, uid), Touched(updates, conns, uid);
    if !touched { UntouchedPaysNothing(updates, conns, uid); }
    SettledGains(u, now, touched, share);
  }

  /** Over a cycle each user's totals rise by the growth of the user's connections. */
  lemma {:induction false} CycleConserves(keys: seq<Id>, before: Users, after: Users, now: DateTime,
                                          updates: seq<Update>, conns: Connections, uid: Id)
    requires Cycled(before, after, now, updates, conns) && Lists(keys, conns) && uid in before
    ensures Gained(before[uid], after[uid], Grown(keys, conns, MeterAll(conns, updates), uid))
  {
    UsersPayForTheirConnections(keys, conns, updates, uid);
    RowGains(before[uid], now, updates, conns, uid);
  }

  /** Each connection row takes exactly its own update. */
  lemma {:induction false} EachTakesItsOwn(conns: Connections, updates: seq<Update>, k: nat)
    requires forall i, j :: 0 <= i < j < |updates| ==> updates[i].conn != updates[j].conn
    requires k < |updates| && updates[k].conn in conns
    ensures MeterAll(conns, updates)[updates[k].conn] == Metered(conns[updates[k].conn], updates[k])
    decreases |updates|
  {
    var rest, u := updates[..|updates| - 1], updates[|updates| - 1];
    if k == |updates| - 1 {
      OthersKeepTheirRow(conns, rest, u.conn);
    } else {
      assert rest[k] == updates[k];
      EachTakesItsOwn(conns, rest, k);
    }
  }

  lemma {:induction false} OthersKeepTheirRow(conns: Connections, updates: seq<Update>, c: Id)
    requires c in conns && forall i :: 0 <= i < |updates| ==> updates[i].conn != c
    ensures MeterAll(conns, updates)[c] == conns[c]
  {
    if updates != [] {
      OthersKeepTheirRow(conns, updates[..|updates| - 1], c);
    }
  }
}
