/**
 What one traffic cycle does to a connection row and to a user row: the delta
 between two counter readings, the quota reset, the monthly rollover and the
 bytes charged (app/services/background_orchestrator.py).
 */
module Accounting {
  import opened Tables

  /** What a server reports for one client: bytes received and sent since its counter started. */
  datatype Reading = Reading(rx: nat, tx: nat)

  datatype Update = Update(conn: Id, rx: nat, tx: nat, currRx: nat, currTx: nat)

  datatype Month = Month(year: int, number: int)

  function MonthOf(t: DateTime): Month {
    Month(t.year, t.month)
  }

  predicate Precedes(a: Month, b: Month) {
    a.year < b.year || (a.year == b.year && a.number < b.number)
  }

  predicate LaterDay(a: DateTime, b: DateTime) {
    Precedes(MonthOf(b), MonthOf(a)) || (MonthOf(a) == MonthOf(b) && a.day > b.day)
  }

  predicate Later(a: DateTime, b: DateTime) {
    || LaterDay(a, b)
    || (MonthOf(a) == MonthOf(b) && a.day == b.day && a.second > b.second)
  }

  // ----- One connection -----

  /** A reading below the last one means that the counter restarted at zero. */
  function Delta(last: nat, curr: nat): nat {
    if curr >= last then curr - last else curr
  }

  /** The last readings; a row from before they were kept apart halves its combined count. */
  function Baseline(c: Connection): (r: Reading)
    ensures c.lastRx.None? && c.lastTx.None? ==> r.rx + r.tx == c.lastBytes && r.rx <= r.tx <= r.rx + 1
    ensures c.lastRx.Some? ==> c.lastRx == Some(r.rx) && (c.lastTx.None? ==> r.tx == 0)
    ensures c.lastTx.Some? ==> c.lastTx == Some(r.tx) && (c.lastRx.None? ==> r.rx == 0)
  {
    if c.lastRx.None? && c.lastTx.None? then Reading(c.lastBytes / 2, c.lastBytes - c.lastBytes / 2)
    else Reading(if c.lastRx.Some? then c.lastRx.value else 0, if c.lastTx.Some? then c.lastTx.value else 0)
  }

  /** The bytes since the last reading; after a restart, all that the counter shows. */
  function UpdateFor(id: Id, c: Connection, curr: Reading): (u: Update)
    ensures u.conn == id && u.currRx == curr.rx && u.currTx == curr.tx
    ensures c.lastRx.Some? ==> if c.lastRx.value <= curr.rx then c.lastRx.value + u.rx == curr.rx else u.rx == curr.rx
    ensures c.lastTx.Some? ==> if c.lastTx.value <= curr.tx then c.lastTx.value + u.tx == curr.tx else u.tx == curr.tx
  {
    Update(id, Delta(Baseline(c).rx, curr.rx), Delta(Baseline(c).tx, curr.tx), curr.rx, curr.tx)
  }

  /** The connection row after an update. */
  function Metered(c: Connection, u: Update): Connection {
    c.(lastRx := Some(u.currRx), lastTx := Some(u.currTx),
       totalRx := c.totalRx + u.rx, totalTx := c.totalTx + u.tx, total := c.total + u.rx + u.tx)
  }

  /** What happens between a server's counter and the panel. */
  datatype Event = Transfer(rx: nat, tx: nat) | Restart | Poll

  /** A connection's row, the server's counter and the bytes that really went through. */
  datatype Meter = Meter(row: Connection, counter: Reading, moved: Reading)

  function Happen(m: Meter, e: Event): Meter {
    match e
    case Transfer(rx, tx) =>
      m.(counter := Reading(m.counter.rx + rx, m.counter.tx + tx), moved := Reading(m.moved.rx + rx, m.moved.tx + tx))
    case Restart => m.(counter := Reading(0, 0))
    case Poll => m.(row := Metered(m.row, UpdateFor(0, m.row, m.counter)))
  }

  function HappenAll(m: Meter, events: seq<Event>): Meter
    decreases |events|
  {
    if events == [] then m
    else Happen(HappenAll(m, events[..|events| - 1]), events[|events| - 1])
  }

  function Unpolled(m: Meter): Reading {
    Reading(Delta(Baseline(m.row).rx, m.counter.rx), Delta(Baseline(m.row).tx, m.counter.tx))
  }

  /** With every run of transfers, counter restarts and polls, no byte is charged that was not transferred. */
  lemma {:induction false} ChargedIsTransferred(m: Meter, events: seq<Event>)
    requires m.moved == Unpolled(m)
    ensures var n := HappenAll(m, events);
      && n.row.totalRx - m.row.totalRx + Unpolled(n).rx <= n.moved.rx
      && n.row.totalTx - m.row.totalTx + Unpolled(n).tx <= n.moved.tx
      && n.row.total - m.row.total == n.row.totalRx - m.row.totalRx + n.row.totalTx - m.row.totalTx
    decreases |events|
  {
    if events != [] { ChargedIsTransferred(m, events[..|events| - 1]); }
  }

  predicate Ahead(m: Meter) {
    m.counter.rx >= Baseline(m.row).rx && m.counter.tx >= Baseline(m.row).tx
  }

  /** Without a restart the bytes charged and the bytes not yet polled are exactly the bytes transferred. */
  lemma {:induction false} ChargedIsExact(m: Meter, events: seq<Event>)
    requires m.moved == Unpolled(m) && Ahead(m)
    requires Restart !in events
    ensures var n := HappenAll(m, events);
      && Ahead(n)
      && n.row.totalRx - m.row.totalRx + Unpolled(n).rx == n.moved.rx
      && n.row.totalTx - m.row.totalTx + Unpolled(n).tx == n.moved.tx
    ensures events != [] && events[|events| - 1] == Poll ==> Unpolled(HappenAll(m, events)) == Reading(0, 0)
    decreases |events|
  {
    if events != [] { ChargedIsExact(m, events[..|events| - 1]); }
  }

  /** After a restart that lost nothing, fewer bytes than the last reading are all charged by the next poll. */
  lemma {:induction false} RestartIsCharged(m: Meter, rx: nat, tx: nat)
    requires m.row.lastRx.Some? && m.row.lastTx.Some? && rx < m.row.lastRx.value && tx < m.row.lastTx.value
    ensures var row := HappenAll(m, [Restart, Transfer(rx, tx), Poll]).row;
      row == m.row.(lastRx := Some(rx), lastTx := Some(tx), totalRx := m.row.totalRx + rx, totalTx := m.row.totalTx + tx,
                    total := m.row.total + rx + tx)
  {
    ThreeEvents(m, Restart, Transfer(rx, tx), Poll);
  }

  lemma {:induction false} ThreeEvents(m: Meter, a: Event, b: Event, c: Event)
    ensures HappenAll(m, [a, b, c]) == Happen(Happen(Happen(m, a), b), c)
  {
    assert [a][..0] == [] && [a, b][..1] == [a] && [a, b, c][..2] == [a, b];
    assert HappenAll(m, [a]) == Happen(m, a);
    assert HappenAll(m, [a, b]) == Happen(HappenAll(m, [a]), b);
  }

  /** The event loses no bytes: a counter restarts only when all of it was polled, and then does not overtake the last reading unpolled. */
  predicate Keeps(m: Meter, e: Event) {
    var last := Baseline(m.row);
    match e
    case Transfer(rx, tx) =>
      && (m.counter.rx < last.rx ==> m.counter.rx + rx < last.rx)
      && (m.counter.tx < last.tx ==> m.counter.tx + tx < last.tx)
    case Restart => m.counter.rx in {0, last.rx} && m.counter.tx in {0, last.tx}
    case Poll => true
  }

  predicate AllKeep(m: Meter, events: seq<Event>) {
    events == [] ||
    (AllKeep(m, events[..|events| - 1]) && Keeps(HappenAll(m, events[..|events| - 1]), events[|events| - 1]))
  }

  lemma {:induction false} EventLoses(m: Meter, e: Event)
    ensures var n := Happen(m, e);
      && n.row.totalRx + Unpolled(n).rx - n.moved.rx <= m.row.totalRx + Unpolled(m).rx - m.moved.rx
      && n.row.totalTx + Unpolled(n).tx - n.moved.tx <= m.row.totalTx + Unpolled(m).tx - m.moved.tx
      && (Keeps(m, e) <==>
            n.row.totalRx + Unpolled(n).rx - n.moved.rx == m.row.totalRx + Unpolled(m).rx - m.moved.rx
            && n.row.totalTx + Unpolled(n).tx - n.moved.tx == m.row.totalTx + Unpolled(m).tx - m.moved.tx)
  {
  }

  /** The bytes charged and the bytes not yet polled are the bytes transferred exactly when no event lost any. */
  lemma {:induction false} ChargedIsExactIff(m: Meter, events: seq<Event>)
    requires m.moved == Unpolled(m)
    ensures var n := HappenAll(m, events);
      && n.row.totalRx - m.row.totalRx + Unpolled(n).rx <= n.moved.rx
      && n.row.totalTx - m.row.totalTx + Unpolled(n).tx <= n.moved.tx
      && (AllKeep(m, events) <==>
            n.row.totalRx - m.row.totalRx + Unpolled(n).rx == n.moved.rx
            && n.row.totalTx - m.row.totalTx + Unpolled(n).tx == n.moved.tx)
    decreases |events|
  {
    if events != [] {
      ChargedIsExactIff(m, events[..|events| - 1]);
      EventLoses(HappenAll(m, events[..|events| - 1]), events[|events| - 1]);
    }
  }

  // ----- One user -----

  predicate ResetNeeded(strategy: ResetStrategy, last: Stamp, now: DateTime) {
    last.At? &&
    match strategy
    case Never => false
    case Daily => LaterDay(now, last.time)
    case Weekly => now.isoWeek != last.time.isoWeek || now.year != last.time.year
    case Monthly => MonthOf(now) != MonthOf(last.time)
  }

  predicate Stale(stamp: Stamp, now: DateTime) {
    stamp.At? && MonthOf(stamp.time) != MonthOf(now)
  }

  /** The user row after the monthly rollover: an unreadable stamp is left alone. */
  function Rolled(u: User, now: DateTime): User {
    if u.monthlyResetAt.NoStamp? || Stale(u.monthlyResetAt, now)
    then u.(monthlyRx := 0, monthlyTx := 0, monthlyResetAt := At(now))
    else u
  }

  /** The user row after the quota reset that precedes an update's bytes. */
  function QuotaReset(u: User, now: DateTime): User {
    if ResetNeeded(u.resetStrategy, u.lastResetAt, now) then u.(trafficUsed := 0, lastResetAt := At(now)) else u
  }

  function WithBytes(u: User, rx: nat, tx: nat): User {
    u.(trafficUsed := u.trafficUsed + rx + tx, trafficTotal := u.trafficTotal + rx + tx,
       trafficTotalRx := u.trafficTotalRx + rx, trafficTotalTx := u.trafficTotalTx + tx,
       monthlyRx := u.monthlyRx + rx, monthlyTx := u.monthlyTx + tx)
  }

  /** The user row after a whole cycle's bytes: reset once, then all bytes added. */
  function Billed(u: User, now: DateTime, touched: bool, rx: nat, tx: nat): User {
    if touched then WithBytes(QuotaReset(u, now), rx, tx) else u
  }

  /** Resetting before every update is the same as resetting once before the first. */
  lemma {:induction false} BilledAgain(u: User, now: DateTime, touched: bool, rx: nat, tx: nat, moreRx: nat, moreTx: nat)
    requires !touched ==> rx == 0 && tx == 0
    ensures WithBytes(QuotaReset(Billed(u, now, touched, rx, tx), now), moreRx, moreTx)
      == Billed(u, now, true, rx + moreRx, tx + moreTx)
    ensures touched ==> QuotaReset(Billed(u, now, touched, rx, tx), now) == Billed(u, now, touched, rx, tx)
  {
  }

  predicate OverLimit(u: User) {
    u.trafficLimit > 0 && u.trafficUsed >= u.trafficLimit && u.enabled
  }

  predicate Expired(u: User, now: DateTime) {
    u.enabled && u.expiresAt.At? && Later(now, u.expiresAt.time)
  }

  // ----- The share of one user in a cycle's updates -----

  predicate Belongs(u: Update, conns: Connections, uid: Id) {
    u.conn in conns && conns[u.conn].userId == uid
  }

  predicate Touched(updates: seq<Update>, conns: Connections, uid: Id) {
    exists i :: 0 <= i < |updates| && Belongs(updates[i], conns, uid)
  }

  function Plus(a: Reading, b: Reading): Reading {
    Reading(a.rx + b.rx, a.tx + b.tx)
  }

  function BytesFor(u: Update, conns: Connections, uid: Id): Reading {
    if Belongs(u, conns, uid) then Reading(u.rx, u.tx) else Reading(0, 0)
  }

  /** The bytes of the user's own connections. */
  function Share(updates: seq<Update>, conns: Connections, uid: Id): Reading {
    if updates == [] then Reading(0, 0)
    else Plus(Share(updates[..|updates| - 1], conns, uid), BytesFor(updates[|updates| - 1], conns, uid))
  }

  lemma {:induction false} UntouchedPaysNothing(updates: seq<Update>, conns: Connections, uid: Id)
    requires !Touched(updates, conns, uid)
    ensures Share(updates, conns, uid) == Reading(0, 0)
  {
    if updates != [] {
      var rest := updates[..|updates| - 1];
      assert !Belongs(updates[|updates| - 1], conns, uid);
      assert forall i :: 0 <= i < |rest| ==> rest[i] == updates[i];
      UntouchedPaysNothing(rest, conns, uid);
    }
  }

  lemma {:induction false} ShareLast(one: seq<Update>, u: Update, conns: Connections, uid: Id)
    ensures Share(one + [u], conns, uid) == Plus(Share(one, conns, uid), BytesFor(u, conns, uid))
  {
    assert (one + [u])[..|one|] == one;
  }

  lemma {:induction false} AppendLast(one: seq<Update>, two: seq<Update>)
    requires two != []
    ensures one + two == one + two[..|two| - 1] + [two[|two| - 1]]
  {
  }

  lemma {:induction false} ShareAppend(one: seq<Update>, two: seq<Update>, conns: Connections, uid: Id)
    ensures Share(one + two, conns, uid) == Plus(Share(one, conns, uid), Share(two, conns, uid))
    decreases |two|
  {
    if two == [] {
      assert one + two == one;
    } else {
      var rest, u := two[..|two| - 1], two[|two| - 1];
      ShareAppend(one, rest, conns, uid);
      ShareLast(one + rest, u, conns, uid);
      AppendLast(one, two);
    }
  }

  /** Taking an update out from anywhere takes its bytes out of the sum. */
  lemma {:induction false} TakeOut(updates: seq<Update>, conns: Connections, uid: Id, k: nat)
    requires k < |updates|
    ensures Share(updates, conns, uid)
      == Plus(Share(updates[..k] + updates[k + 1..], conns, uid), BytesFor(updates[k], conns, uid))
  {
    ShareAppend(updates[..k], updates[k + 1..], conns, uid);
    ShareAppend(updates[..k + 1], updates[k + 1..], conns, uid);
    assert updates[..k + 1] + updates[k + 1..] == updates;
    assert updates[..k + 1][..k] == updates[..k];
  }

  lemma {:induction false} DropOne(s: seq<Update>, k: nat)
    requires k < |s|
    ensures multiset(s[..k] + s[k + 1..]) == multiset(s) - multiset{s[k]}
  {
    assert s == s[..k] + [s[k]] + s[k + 1..];
  }

  /** A user's share depends on which updates there are, not on their order. */
  lemma {:induction false} ShareIgnoresOrder(one: seq<Update>, two: seq<Update>, conns: Connections, uid: Id)
    requires multiset(one) == multiset(two)
    ensures Share(one, conns, uid) == Share(two, conns, uid)
    decreases |one|
  {
    assert |one| == |multiset(one)| == |multiset(two)| == |two|;
    if one != [] {
      var n := |one| - 1;
      assert one[n] in multiset(two);
      var k :| 0 <= k < |two| && two[k] == one[n];
      DropOne(one, n);
      DropOne(two, k);
      assert one[..n] + one[n + 1..] == one[..n];
      ShareIgnoresOrder(one[..n], two[..k] + two[k + 1..], conns, uid);
      TakeOut(two, conns, uid, k);
    }
  }

  lemma {:induction false} SameMembers(one: seq<Update>, two: seq<Update>, conns: Connections, uid: Id)
    requires multiset(one) == multiset(two)
    ensures Touched(one, conns, uid) ==> Touched(two, conns, uid)
  {
    if Touched(one, conns, uid) {
      var i :| 0 <= i < |one| && Belongs(one[i], conns, uid);
      assert one[i] in multiset(two);
      assert one[i] in two;
    }
  }
}
