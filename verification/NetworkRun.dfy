/**
 Counters, polls and cycles together: over whole runs in which connections and
 users come and go, bytes flow, counters restart, and polls and cycles interleave
 with all of it, what users are charged against what their connections really
 transferred (app/services/background_orchestrator.py).
 */
module NetworkRun {
  import opened Tables
  import opened Accounting
  import opened TrafficCycle

  /**
   The tables, the counters on the servers and the poll in progress. For every connection that ever was:
   whose it is, the bytes that went through and the bytes charged. For every user that ever was: the first row.
   */
  datatype Net = Net(
    users: Users,
    conns: Connections,
    counters: map<Id, Reading>,
    pending: seq<Update>,
    owner: map<Id, Id>,
    moved: map<Id, Reading>,
    paid: map<Id, Reading>,
    joined: map<Id, User>)

  datatype Event =
    | Moves(conn: Id, bytes: Reading)
    | Restarts(conn: Id)
    | Reads(conn: Id)
    | Settles(now: DateTime)
    | Connects(conn: Id, row: Connection, counter: Reading)
    | Disconnects(conn: Id)
    | Joins(uid: Id, user: User)
    | Leaves(uid: Id)

  ghost predicate Waits(n: Net, c: Id, k: int) {
    0 <= k < |n.pending| && n.pending[k].conn == c
  }

  ghost predicate IsPending(n: Net, c: Id) {
    exists k :: Waits(n, c, k)
  }

  function DeltaOf(last: Reading, curr: Reading): Reading {
    Reading(Delta(last.rx, curr.rx), Delta(last.tx, curr.tx))
  }

  // ----- Steps -----

  /** One charge of the cycle; a connection deleted since it was read is skipped. */
  function PayNext(paid: map<Id, Reading>, u: Update, conns: Connections): map<Id, Reading> {
    if u.conn in conns && u.conn in paid then paid[u.conn := Plus(paid[u.conn], Reading(u.rx, u.tx))] else paid
  }

  function PayAll(paid: map<Id, Reading>, updates: seq<Update>, conns: Connections): (r: map<Id, Reading>)
    ensures r.Keys == paid.Keys
  {
    if updates == [] then paid else PayNext(PayAll(paid, updates[..|updates| - 1], conns), updates[|updates| - 1], conns)
  }

  function Settle(n: Net, now: DateTime): Net {
    n.(users := map u | u in n.users :: AfterCycle(n.users[u], now, n.pending, n.conns, u),
       conns := MeterAll(n.conns, n.pending), pending := [], paid := PayAll(n.paid, n.pending, n.conns))
  }

  function Connect(n: Net, c: Id, row: Connection, counter: Reading): Net {
    n.(conns := n.conns[c := row], counters := n.counters[c := counter], owner := n.owner[c := row.userId],
       moved := n.moved[c := DeltaOf(Baseline(row), counter)], paid := n.paid[c := Reading(0, 0)])
  }

  /** An event that cannot happen changes nothing: ids are never reused, and a poll reads a connection once. */
  ghost function Next(n: Net, e: Event): Net {
    match e
    case Moves(c, b) =>
      if c in n.conns && c in n.counters && c in n.moved
      then n.(counters := n.counters[c := Plus(n.counters[c], b)], moved := n.moved[c := Plus(n.moved[c], b)])
      else n
    case Restarts(c) => if c in n.conns then n.(counters := n.counters[c := Reading(0, 0)]) else n
    case Reads(c) =>
      if c in n.conns && c in n.counters && !IsPending(n, c)
      then n.(pending := n.pending + [UpdateFor(c, n.conns[c], n.counters[c])])
      else n
    case Settles(now) => Settle(n, now)
    case Connects(c, row, counter) => if c !in n.owner && row.userId in n.users then Connect(n, c, row, counter) else n
    case Disconnects(c) => n.(conns := n.conns - {c}, counters := n.counters - {c})
    case Joins(uid, user) =>
      if uid !in n.joined then n.(users := n.users[uid := user], joined := n.joined[uid := user]) else n
    case Leaves(uid) =>
      n.(users := n.users - {uid}, conns := WithoutUser(n.conns, uid),
         counters := map c | c in n.counters && c in n.conns && n.conns[c].userId != uid :: n.counters[c])
  }

  ghost function RunOf(n: Net, events: seq<Event>): Net
    decreases |events|
  {
    if events == [] then n else Next(RunOf(n, events[..|events| - 1]), events[|events| - 1])
  }

  // ----- The tables fit together -----

  ghost predicate Fits(n: Net) {
    RowsFit(n) && PeopleFit(n) && PollFits(n)
  }

  ghost predicate RowsFit(n: Net) {
    && n.counters.Keys == n.conns.Keys && n.moved.Keys == n.owner.Keys && n.paid.Keys == n.owner.Keys
    && (forall c :: c in n.conns ==> c in n.owner && n.conns[c].userId == n.owner[c])
  }

  ghost predicate PeopleFit(n: Net) {
    (forall c :: c in n.owner ==> n.owner[c] in n.joined) && n.users.Keys <= n.joined.Keys
  }

  ghost predicate PollFits(n: Net) {
    && (forall i, j :: 0 <= i < j < |n.pending| ==> n.pending[i].conn != n.pending[j].conn)
    && (forall i :: 0 <= i < |n.pending| ==> n.pending[i].conn in n.owner)
  }

  lemma {:induction false} RowsFitAfterConnect(n: Net, c: Id, row: Connection, counter: Reading)
    requires RowsFit(n)
    ensures RowsFit(Connect(n, c, row, counter))
  {
  }

  lemma {:induction false} RowsFitAfterSettle(n: Net, now: DateTime)
    requires RowsFit(n)
    ensures RowsFit(Settle(n, now))
  {
  }

  lemma {:induction false} RowsStayFit(n: Net, e: Event, m: Net)
    requires RowsFit(n) && m == Next(n, e)
    ensures RowsFit(m)
  {
    if e.Settles? {
      RowsFitAfterSettle(n, e.now);
    } else if e.Connects? && m != n {
      RowsFitAfterConnect(n, e.conn, e.row, e.counter);
    }
  }

  lemma {:induction false} PeopleStayFit(n: Net, e: Event, m: Net)
    requires PeopleFit(n) && m == Next(n, e)
    ensures PeopleFit(m)
  {
  }

  lemma {:induction false} PollStaysFit(n: Net, e: Event, m: Net)
    requires PollFits(n) && RowsFit(n) && m == Next(n, e)
    ensures PollFits(m)
  {
    if e.Reads? && m != n {
      forall i | 0 <= i < |n.pending| ensures n.pending[i].conn != e.conn { assert !Waits(n, e.conn, i); }
    }
  }

  lemma {:induction false} NextFits(n: Net, e: Event, m: Net)
    requires Fits(n) && m == Next(n, e)
    ensures Fits(m)
  {
    RowsStayFit(n, e, m);
    PeopleStayFit(n, e, m);
    PollStaysFit(n, e, m);
  }

  // ----- One connection -----

  /** The reading that the next charge starts from. */
  ghost function Base(n: Net, c: Id): Reading
    requires c in n.conns
  {
    if IsPending(n, c) then var k :| Waits(n, c, k); Reading(n.pending[k].currRx, n.pending[k].currTx)
    else Baseline(n.conns[c])
  }

  /** The bytes already read but not charged. */
  ghost function ReadBytes(n: Net, c: Id): Reading {
    if IsPending(n, c) then var k :| Waits(n, c, k); Reading(n.pending[k].rx, n.pending[k].tx) else Reading(0, 0)
  }

  /** Bytes that the counter shows and that are not charged yet. */
  ghost function Due(n: Net, c: Id): Reading
    requires c in n.conns && c in n.counters
  {
    Plus(ReadBytes(n, c), DeltaOf(Base(n, c), n.counters[c]))
  }

  predicate AtMost(a: Reading, b: Reading) {
    a.rx <= b.rx && a.tx <= b.tx
  }

  /** Charged and due bytes are covered by transferred ones; of a deleted connection, the charged ones. */
  ghost predicate Covered(n: Net, c: Id) {
    && c in n.moved && c in n.paid && AtMost(n.paid[c], n.moved[c])
    && (c in n.conns && c in n.counters ==> AtMost(Plus(n.paid[c], Due(n, c)), n.moved[c]))
  }

  /** And they are exactly the transferred ones. */
  ghost predicate Exact(n: Net, c: Id) {
    && c in n.moved && c in n.paid
    && (if c in n.conns && c in n.counters
        then Plus(n.paid[c], Due(n, c)) == n.moved[c]
        else n.paid[c] == n.moved[c])
  }

  lemma {:induction false} BaseOf(n: Net, c: Id, k: int)
    requires Fits(n) && Waits(n, c, k)
    ensures IsPending(n, c) && ReadBytes(n, c) == Reading(n.pending[k].rx, n.pending[k].tx)
    ensures c in n.conns ==> Base(n, c) == Reading(n.pending[k].currRx, n.pending[k].currTx)
  {
    forall j | Waits(n, c, j) ensures j == k { }
  }

  /** More bytes do not take a counter that fell behind its last reading past that reading. */
  predicate CountsOn(last: nat, curr: nat, bytes: nat) {
    curr >= last || curr + bytes < last
  }

  /** The counter stands where it was read last, or has just restarted. */
  predicate ShowsNothing(last: Reading, curr: Reading) {
    (curr.rx == last.rx || curr.rx == 0) && (curr.tx == last.tx || curr.tx == 0)
  }

  /** Nothing is waiting to be charged for the connection. */
  ghost predicate Clear(n: Net, c: Id)
    requires c in n.conns && c in n.counters
  {
    ReadBytes(n, c) == Reading(0, 0) && ShowsNothing(Base(n, c), n.counters[c])
  }

  /**
   The event loses none of the connection's bytes: a counter restarts only when it shows nothing unread and then
   stays behind the last reading until it is read again, and the connection goes only when nothing waits.
   */
  ghost predicate GentleTo(n: Net, e: Event, c: Id) {
    c in n.conns && c in n.counters ==>
      match e
      case Moves(x, b) => x == c ==>
        CountsOn(Base(n, c).rx, n.counters[c].rx, b.rx) && CountsOn(Base(n, c).tx, n.counters[c].tx, b.tx)
      case Restarts(x) => x == c ==> ShowsNothing(Base(n, c), n.counters[c])
      case Disconnects(x) => x == c ==> Clear(n, c)
      case Leaves(uid) => n.conns[c].userId == uid ==> Clear(n, c)
      case _ => true
  }

  lemma {:induction false} DeltaGrows(last: Reading, curr: Reading, bytes: Reading)
    ensures AtMost(DeltaOf(last, Plus(curr, bytes)), Plus(DeltaOf(last, curr), bytes))
    ensures DeltaOf(last, Plus(curr, bytes)) == Plus(DeltaOf(last, curr), bytes) <==>
      CountsOn(last.rx, curr.rx, bytes.rx) && CountsOn(last.tx, curr.tx, bytes.tx)
    ensures DeltaOf(last, Reading(0, 0)) == Reading(0, 0)
    ensures DeltaOf(curr, curr) == Reading(0, 0)
  {
  }

  /** With the same row and the same poll, a connection starts from the same reading. */
  lemma {:induction false} SameBase(n: Net, m: Net, c: Id)
    requires Fits(n) && Fits(m) && m.pending == n.pending
    ensures IsPending(m, c) == IsPending(n, c) && ReadBytes(m, c) == ReadBytes(n, c)
    ensures c in n.conns && c in m.conns && m.conns[c] == n.conns[c] ==> Base(m, c) == Base(n, c)
  {
    if IsPending(n, c) {
      var k :| Waits(n, c, k);
      assert Waits(m, c, k);
      BaseOf(n, c, k);
      BaseOf(m, c, k);
    } else {
      assert forall k :: Waits(m, c, k) ==> Waits(n, c, k);
    }
  }

  /** Nothing that concerns the connection changed but, perhaps, that it is gone. */
  ghost predicate Alike(n: Net, m: Net, c: Id) {
    && m.pending == n.pending
    && c in n.moved && c in n.paid && c in m.moved && c in m.paid && m.moved[c] == n.moved[c] && m.paid[c] == n.paid[c]
    && (c in m.conns ==> c in n.conns && m.conns[c] == n.conns[c])
    && (c in m.counters ==> c in n.counters && m.counters[c] == n.counters[c])
  }

  lemma {:induction false} NothingDue(paid: Reading, due: Reading, moved: Reading)
    requires AtMost(Plus(paid, due), moved)
    ensures paid == moved <==> Plus(paid, due) == moved && due == Reading(0, 0)
  {
  }

  lemma {:induction false} DeltaZero(last: nat, curr: nat)
    ensures Delta(last, curr) == 0 <==> curr == last || curr == 0
  {
  }

  lemma {:induction false} DueSplits(read: Reading, last: Reading, curr: Reading, delta: Reading, due: Reading)
    requires delta == DeltaOf(last, curr) && due == Plus(read, delta)
    ensures due == Reading(0, 0) <==> read == Reading(0, 0) && ShowsNothing(last, curr)
  {
    assert due.rx == read.rx + delta.rx && due.tx == read.tx + delta.tx;
    assert delta.rx == 0 <==> curr.rx == last.rx || curr.rx == 0 by { DeltaZero(last.rx, curr.rx); }
    assert delta.tx == 0 <==> curr.tx == last.tx || curr.tx == 0 by { DeltaZero(last.tx, curr.tx); }
  }

  lemma {:induction false} PaidInFullIff(paid: Reading, read: Reading, last: Reading, curr: Reading, due: Reading, moved: Reading)
    requires due == Plus(read, DeltaOf(last, curr)) && AtMost(Plus(paid, due), moved)
    ensures paid == moved <==> Plus(paid, due) == moved && read == Reading(0, 0) && ShowsNothing(last, curr)
  {
    assert due == Reading(0, 0) <==> read == Reading(0, 0) && ShowsNothing(last, curr) by {
      DueSplits(read, last, curr, DeltaOf(last, curr), due);
    }
    NothingDue(paid, due, moved);
  }

  /** A restart drops what the counter shows beyond the last reading. */
  lemma {:induction false} RestartDrops(paid: Reading, read: Reading, last: Reading, curr: Reading, moved: Reading)
    requires AtMost(Plus(paid, Plus(read, DeltaOf(last, curr))), moved)
    ensures AtMost(Plus(paid, Plus(read, DeltaOf(last, Reading(0, 0)))), moved)
    ensures Plus(paid, Plus(read, DeltaOf(last, Reading(0, 0)))) == moved <==>
      Plus(paid, Plus(read, DeltaOf(last, curr))) == moved && ShowsNothing(last, curr)
  {
    DeltaZero(last.rx, curr.rx);
    DeltaZero(last.tx, curr.tx);
  }

  lemma {:induction false} AlikeCovers(n: Net, m: Net, c: Id)
    requires Fits(n) && Fits(m) && Alike(n, m, c) && Covered(n, c)
    ensures Covered(m, c)
    ensures Exact(m, c) <==> Exact(n, c) && (c in n.conns && c !in m.conns ==> Clear(n, c))
  {
    SameBase(n, m, c);
    if c in n.conns { PaidInFullIff(n.paid[c], ReadBytes(n, c), Base(n, c), n.counters[c], Due(n, c), n.moved[c]); }
  }

  lemma {:induction false} OwnMoveCovers(n: Net, b: Reading, m: Net, c: Id)
    requires Fits(n) && Fits(m) && Covered(n, c) && c in n.conns
    requires m == n.(counters := n.counters[c := Plus(n.counters[c], b)], moved := n.moved[c := Plus(n.moved[c], b)])
    ensures Covered(m, c) && (Exact(m, c) <==> Exact(n, c) && GentleTo(n, Moves(c, b), c))
  {
    SameBase(n, m, c);
    DeltaGrows(Base(n, c), n.counters[c], b);
  }

  lemma {:induction false} MoveCovers(n: Net, x: Id, b: Reading, m: Net, c: Id)
    requires Fits(n) && Fits(m) && Covered(n, c) && m == Next(n, Moves(x, b))
    ensures Covered(m, c) && (Exact(m, c) <==> Exact(n, c) && GentleTo(n, Moves(x, b), c))
  {
    if x == c && c in n.conns {
      OwnMoveCovers(n, b, m, c);
    } else {
      assert Alike(n, m, c);
      AlikeCovers(n, m, c);
    }
  }

  lemma {:induction false} RestartCovers(n: Net, x: Id, m: Net, c: Id)
    requires Fits(n) && Fits(m) && Covered(n, c) && m == Next(n, Restarts(x))
    ensures Covered(m, c) && (Exact(m, c) <==> Exact(n, c) && GentleTo(n, Restarts(x), c))
  {
    if x == c && c in n.conns {
      SameBase(n, m, c);
      RestartDrops(n.paid[c], ReadBytes(n, c), Base(n, c), n.counters[c], n.moved[c]);
    } else {
      AlikeCovers(n, m, c);
    }
  }

  /** A poll that grows by one other update says the same about this connection. */
  lemma {:induction false} OtherReadSame(n: Net, u: Update, m: Net, c: Id)
    requires Fits(n) && Fits(m) && m == n.(pending := n.pending + [u]) && u.conn != c
    ensures ReadBytes(m, c) == ReadBytes(n, c) && (c in n.conns ==> Base(m, c) == Base(n, c))
  {
    if IsPending(n, c) {
      var k :| Waits(n, c, k);
      assert Waits(m, c, k);
      BaseOf(n, c, k);
      BaseOf(m, c, k);
    } else {
      assert forall k :: Waits(m, c, k) ==> Waits(n, c, k);
      assert !IsPending(m, c);
    }
  }

  /** Reading a counter moves bytes from the counter to the poll. */
  lemma {:induction false} OwnReadSame(n: Net, m: Net, c: Id)
    requires Fits(n) && Fits(m) && c in n.conns && !IsPending(n, c)
    requires m == n.(pending := n.pending + [UpdateFor(c, n.conns[c], n.counters[c])])
    ensures Due(m, c) == Due(n, c)
  {
    var k := |n.pending|;
    assert Waits(m, c, k);
    BaseOf(m, c, k);
    DeltaGrows(Base(n, c), n.counters[c], Reading(0, 0));
  }

  lemma {:induction false} ReadCovers(n: Net, x: Id, m: Net, c: Id)
    requires Fits(n) && Fits(m) && Covered(n, c) && m == Next(n, Reads(x))
    ensures Covered(m, c) && (Exact(m, c) <==> Exact(n, c))
  {
    if m != n {
      if x == c {
        OwnReadSame(n, m, c);
      } else {
        OtherReadSame(n, UpdateFor(x, n.conns[x], n.counters[x]), m, c);
      }
    }
  }

  // ----- Settling one connection -----

  lemma {:induction false} OthersPayNothing(paid: map<Id, Reading>, updates: seq<Update>, conns: Connections, c: Id)
    requires c in paid && (c !in conns || forall i :: 0 <= i < |updates| ==> updates[i].conn != c)
    ensures PayAll(paid, updates, conns)[c] == paid[c]
  {
    if updates != [] { OthersPayNothing(paid, updates[..|updates| - 1], conns, c); }
  }

  lemma {:induction false} EachPaysItsOwn(paid: map<Id, Reading>, updates: seq<Update>, conns: Connections, k: nat)
    requires forall i, j :: 0 <= i < j < |updates| ==> updates[i].conn != updates[j].conn
    requires k < |updates| && updates[k].conn in conns && updates[k].conn in paid
    ensures PayAll(paid, updates, conns)[updates[k].conn] == Plus(paid[updates[k].conn], Reading(updates[k].rx, updates[k].tx))
    decreases |updates|
  {
    var rest, u := updates[..|updates| - 1], updates[|updates| - 1];
    if k == |updates| - 1 {
      OthersPayNothing(paid, rest, conns, u.conn);
    } else {
      assert rest[k] == updates[k];
      EachPaysItsOwn(paid, rest, conns, k);
    }
  }

  /** The row's next baseline and the charge, from the poll. */
  lemma {:induction false} RowSettles(n: Net, c: Id)
    requires Fits(n) && c in n.conns
    ensures Baseline(MeterAll(n.conns, n.pending)[c]) == Base(n, c)
    ensures PayAll(n.paid, n.pending, n.conns)[c] == Plus(n.paid[c], ReadBytes(n, c))
  {
    if IsPending(n, c) {
      var k :| Waits(n, c, k);
      BaseOf(n, c, k);
      EachTakesItsOwn(n.conns, n.pending, k);
      EachPaysItsOwn(n.paid, n.pending, n.conns, k);
    } else {
      forall i | 0 <= i < |n.pending| ensures n.pending[i].conn != c { assert !Waits(n, c, i); }
      OthersKeepTheirRow(n.conns, n.pending, c);
      OthersPayNothing(n.paid, n.pending, n.conns, c);
    }
  }

  lemma {:induction false} NothingPending(m: Net, c: Id)
    requires m.pending == []
    ensures !IsPending(m, c) && ReadBytes(m, c) == Reading(0, 0) && (c in m.conns ==> Base(m, c) == Baseline(m.conns[c]))
  {
  }

  lemma {:induction false} SettleCovers(n: Net, now: DateTime, m: Net, c: Id)
    requires Fits(n) && Fits(m) && Covered(n, c) && m == Settle(n, now)
    ensures Covered(m, c) && (Exact(m, c) <==> Exact(n, c))
  {
    NothingPending(m, c);
    if c in n.conns {
      RowSettles(n, c);
    } else {
      OthersPayNothing(n.paid, n.pending, n.conns, c);
    }
  }

  lemma {:induction false} NewIsNotPending(n: Net, c: Id, m: Net)
    requires PollFits(n) && c !in n.owner && m.pending == n.pending
    ensures !IsPending(m, c)
  {
    forall k | 0 <= k < |m.pending| ensures m.pending[k].conn != c { assert m.pending[k].conn in n.owner; }
  }

  /** A new connection starts with what its counter shows beyond its row. */
  lemma {:induction false} NewIsCovered(n: Net, c: Id, row: Connection, counter: Reading, m: Net)
    requires Fits(n) && Fits(m) && c !in n.owner && m == Connect(n, c, row, counter)
    ensures Covered(m, c) && Exact(m, c)
  {
    NewIsNotPending(n, c, m);
    assert Due(m, c) == DeltaOf(Baseline(row), counter);
  }

  lemma {:induction false} ConnectCovers(n: Net, x: Id, row: Connection, counter: Reading, m: Net, c: Id)
    requires Fits(n) && Fits(m) && m == Next(n, Connects(x, row, counter)) && (c in n.owner ==> Covered(n, c)) && c in m.owner
    ensures Covered(m, c)
    ensures Exact(m, c) <==> (c in n.owner ==> Exact(n, c))
  {
    if c in n.owner {
      AlikeCovers(n, m, c);
    } else {
      NewIsCovered(n, c, row, counter, m);
    }
  }

  // ----- One event -----

  /** The connection goes with the event. */
  ghost predicate Departs(n: Net, e: Event, c: Id) {
    c in n.conns && ((e.Disconnects? && e.conn == c) || (e.Leaves? && n.conns[c].userId == e.uid))
  }

  lemma {:induction false} DepartureShape(n: Net, e: Event, m: Net, c: Id)
    requires Fits(n) && m == Next(n, e) && (e.Disconnects? || e.Joins? || e.Leaves?) && c in n.owner
    ensures Alike(n, m, c) && (c in m.conns <==> c in n.conns && !Departs(n, e, c))
  {
    match e
    case Disconnects(x) => assert m == n.(conns := n.conns - {x}, counters := n.counters - {x});
    case Joins(uid, user) => assert m.conns == n.conns && m.counters == n.counters;
    case Leaves(uid) => assert m.conns == WithoutUser(n.conns, uid);
  }

  lemma {:induction false} DepartureIsGentle(n: Net, e: Event, c: Id)
    requires Fits(n) && (e.Disconnects? || e.Joins? || e.Leaves?)
    ensures GentleTo(n, e, c) <==> (Departs(n, e, c) ==> Clear(n, c))
  {
  }

  lemma {:induction false} DepartureCovers(n: Net, e: Event, m: Net, c: Id)
    requires Fits(n) && Fits(m) && m == Next(n, e) && (e.Disconnects? || e.Joins? || e.Leaves?) && c in n.owner && Covered(n, c)
    ensures Covered(m, c) && (Exact(m, c) <==> Exact(n, c) && GentleTo(n, e, c))
  {
    DepartureShape(n, e, m, c);
    DepartureIsGentle(n, e, c);
    AlikeCovers(n, m, c);
  }

  lemma {:induction false} BytesCover(n: Net, e: Event, m: Net, c: Id)
    requires Fits(n) && Fits(m) && m == Next(n, e) && Covered(n, c)
    requires e.Moves? || e.Restarts? || e.Reads? || e.Settles?
    ensures Covered(m, c) && (Exact(m, c) <==> Exact(n, c) && GentleTo(n, e, c))
  {
    match e
    case Moves(x, b) => MoveCovers(n, x, b, m, c);
    case Restarts(x) => RestartCovers(n, x, m, c);
    case Reads(x) => ReadCovers(n, x, m, c);
    case Settles(now) => SettleCovers(n, now, m, c);
  }

  lemma {:induction false} SameOwners(n: Net, e: Event, m: Net)
    requires m == Next(n, e) && !e.Connects?
    ensures m.owner == n.owner
  {
  }

  lemma {:induction false} OldCovers(n: Net, e: Event, m: Net, c: Id)
    requires Fits(n) && Fits(m) && m == Next(n, e) && !e.Connects? && c in n.owner && Covered(n, c)
    ensures Covered(m, c) && (Exact(m, c) <==> Exact(n, c) && GentleTo(n, e, c))
  {
    if e.Disconnects? || e.Joins? || e.Leaves? {
      DepartureCovers(n, e, m, c);
    } else {
      BytesCover(n, e, m, c);
    }
  }

  lemma {:induction false} NextCovers(n: Net, e: Event, m: Net, c: Id)
    requires Fits(n) && Fits(m) && m == Next(n, e) && c in m.owner && (c in n.owner ==> Covered(n, c))
    ensures Covered(m, c)
    ensures Exact(m, c) <==> (c in n.owner ==> Exact(n, c)) && GentleTo(n, e, c)
  {
    if e.Connects? {
      ConnectCovers(n, e.conn, e.row, e.counter, m, c);
    } else {
      SameOwners(n, e, m);
      OldCovers(n, e, m, c);
    }
  }

  lemma {:induction false} ReadShows(n: Net, c: Id, r: Net)
    requires Fits(n) && Fits(r) && c in n.conns && !IsPending(n, c) && r == Next(n, Reads(c))
    ensures c in r.conns && r.counters == n.counters && r.paid == n.paid
    ensures Base(r, c) == n.counters[c] && ReadBytes(r, c) == DeltaOf(Baseline(n.conns[c]), n.counters[c])
  {
    var k := |n.pending|;
    assert Waits(r, c, k);
    BaseOf(r, c, k);
  }

  lemma {:induction false} SettleClears(r: Net, c: Id, now: DateTime, m: Net)
    requires Fits(r) && Fits(m) && c in r.conns && m == Settle(r, now)
    ensures c in m.conns && m.counters == r.counters && ReadBytes(m, c) == Reading(0, 0) && Base(m, c) == Base(r, c)
    ensures c in m.paid && m.paid[c] == Plus(r.paid[c], ReadBytes(r, c))
  {
    RowSettles(r, c);
    NothingPending(m, c);
  }

  lemma {:induction false} SettledReadClears(n: Net, c: Id, now: DateTime, r: Net, m: Net)
    requires Fits(n) && Fits(r) && Fits(m) && c in n.conns && !IsPending(n, c) && r == Next(n, Reads(c)) && m == Settle(r, now)
    ensures c in m.conns && c in m.counters && Clear(m, c)
    ensures c in m.paid && m.paid[c] == Plus(n.paid[c], DeltaOf(Baseline(n.conns[c]), n.counters[c]))
  {
    ReadShows(n, c, r);
    SettleClears(r, c, now, m);
  }

  /** Reading a connection and settling charges what its counter shows beyond the row, and leaves nothing waiting. */
  lemma {:induction false} ReadAndSettled(n: Net, c: Id, now: DateTime, r: Net, m: Net)
    requires Fits(n) && c in n.conns && !IsPending(n, c) && r == Next(n, Reads(c)) && m == Settle(r, now)
    ensures c in m.conns && c in m.counters && Clear(m, c)
    ensures c in m.paid && m.paid[c] == Plus(n.paid[c], DeltaOf(Baseline(n.conns[c]), n.counters[c]))
  {
    NextFits(n, Reads(c), r);
    assert m == Next(r, Settles(now));
    NextFits(r, Settles(now), m);
    SettledReadClears(n, c, now, r, m);
  }

  // ----- All connections of a user -----

  function At(m: map<Id, Reading>, owner: map<Id, Id>, c: Id, uid: Id): Reading {
    if c in owner && c in m && owner[c] == uid then m[c] else Reading(0, 0)
  }

  /** The bytes of all connections that the user ever had. */
  function Sum(keys: seq<Id>, owner: map<Id, Id>, m: map<Id, Reading>, uid: Id): Reading {
    if keys == [] then Reading(0, 0)
    else Plus(Sum(keys[..|keys| - 1], owner, m, uid), At(m, owner, keys[|keys| - 1], uid))
  }

  lemma {:induction false} SameSum(keys: seq<Id>, owner: map<Id, Id>, m: map<Id, Reading>, owner2: map<Id, Id>,
                                   m2: map<Id, Reading>, uid: Id)
    requires forall c :: c in keys ==> At(m2, owner2, c, uid) == At(m, owner, c, uid)
    ensures Sum(keys, owner2, m2, uid) == Sum(keys, owner, m, uid)
  {
    if keys != [] { SameSum(keys[..|keys| - 1], owner, m, owner2, m2, uid); }
  }

  lemma {:induction false} SumAtMost(keys: seq<Id>, owner: map<Id, Id>, m: map<Id, Reading>, m2: map<Id, Reading>, uid: Id)
    requires forall c :: c in keys ==> AtMost(At(m, owner, c, uid), At(m2, owner, c, uid))
    ensures AtMost(Sum(keys, owner, m, uid), Sum(keys, owner, m2, uid))
  {
    if keys != [] { SumAtMost(keys[..|keys| - 1], owner, m, m2, uid); }
  }

  /** A payment for one connection adds to its owner's sum. */
  lemma {:induction false} SumPays(keys: seq<Id>, owner: map<Id, Id>, m: map<Id, Reading>, c: Id, b: Reading, uid: Id)
    requires Distinct(keys) && c in keys && c in owner && c in m
    ensures Sum(keys, owner, m[c := Plus(m[c], b)], uid)
      == if owner[c] == uid then Plus(Sum(keys, owner, m, uid), b) else Sum(keys, owner, m, uid)
  {
    var rest, k := keys[..|keys| - 1], keys[|keys| - 1];
    assert keys == rest + [k];
    if k == c {
      assert c !in rest;
      SameSum(rest, owner, m, owner, m[c := Plus(m[c], b)], uid);
    } else {
      SumPays(rest, owner, m, c, b, uid);
    }
  }

  /** A cycle charges the user exactly the user's share of what was read. */
  lemma {:induction false} SumPaysShare(keys: seq<Id>, owner: map<Id, Id>, paid: map<Id, Reading>, updates: seq<Update>,
                                        conns: Connections, uid: Id)
    requires Distinct(keys) && (forall c :: c in owner ==> c in keys) && paid.Keys == owner.Keys
    requires forall c :: c in conns ==> c in owner && conns[c].userId == owner[c]
    ensures Sum(keys, owner, PayAll(paid, updates, conns), uid) == Plus(Sum(keys, owner, paid, uid), Share(updates, conns, uid))
    decreases |updates|
  {
    if updates != [] {
      var rest, u := updates[..|updates| - 1], updates[|updates| - 1];
      SumPaysShare(keys, owner, paid, rest, conns, uid);
      var before := PayAll(paid, rest, conns);
      if u.conn in conns { SumPays(keys, owner, before, u.conn, Reading(u.rx, u.tx), uid); }
    }
  }

  // ----- The users -----

  ghost predicate Holds(keys: seq<Id>, n: Net) {
    Distinct(keys) && forall c :: c in n.owner ==> c in keys
  }

  /** Each user's totals rose by what the user's connections were charged. */
  ghost predicate Charged(keys: seq<Id>, n: Net, uid: Id) {
    uid in n.users && uid in n.joined ==> Gained(n.joined[uid], n.users[uid], GrowthOf(Sum(keys, n.owner, n.paid, uid)))
  }

  lemma {:induction false} GainMore(a: User, b: User, c: User, x: Reading, y: Reading)
    requires Gained(a, b, GrowthOf(x)) && Gained(b, c, GrowthOf(y))
    ensures Gained(a, c, GrowthOf(Plus(x, y)))
  {
  }

  lemma {:induction false} SettleCharges(keys: seq<Id>, n: Net, now: DateTime, m: Net, uid: Id)
    requires Fits(n) && Holds(keys, n) && Charged(keys, n, uid) && m == Settle(n, now)
    ensures Charged(keys, m, uid)
  {
    if uid in n.users && uid in n.joined {
      RowGains(n.users[uid], now, n.pending, n.conns, uid);
      SumPaysShare(keys, n.owner, n.paid, n.pending, n.conns, uid);
      GainMore(n.joined[uid], n.users[uid], m.users[uid], Sum(keys, n.owner, n.paid, uid), Share(n.pending, n.conns, uid));
    }
  }

  lemma {:induction false} NobodysSum(keys: seq<Id>, owner: map<Id, Id>, m: map<Id, Reading>, uid: Id)
    requires forall c :: c in owner ==> owner[c] != uid
    ensures Sum(keys, owner, m, uid) == Reading(0, 0)
  {
    if keys != [] { NobodysSum(keys[..|keys| - 1], owner, m, uid); }
  }

  lemma {:induction false} NewUserCharges(keys: seq<Id>, m: Net, uid: Id)
    requires uid in m.users && uid in m.joined && m.users[uid] == m.joined[uid]
    requires forall c :: c in m.owner ==> m.owner[c] != uid
    ensures Charged(keys, m, uid)
  {
    NobodysSum(keys, m.owner, m.paid, uid);
  }

  lemma {:induction false} JoinShape(n: Net, x: Id, user: User, m: Net)
    requires PeopleFit(n) && m == Next(n, Joins(x, user)) && x !in n.joined
    ensures m == n.(users := n.users[x := user], joined := n.joined[x := user])
    ensures forall c :: c in m.owner ==> m.owner[c] != x
  {
  }

  lemma {:induction false} JoinCharges(keys: seq<Id>, n: Net, x: Id, user: User, m: Net, uid: Id)
    requires PeopleFit(n) && Charged(keys, n, uid) && m == Next(n, Joins(x, user))
    ensures Charged(keys, m, uid)
  {
    if x in n.joined {
      assert m == n;
    } else {
      JoinShape(n, x, user, m);
      if x == uid { NewUserCharges(keys, m, uid); } else { SameCharges(keys, n, m, uid); }
    }
  }

  /** Whoever keeps row, first row and charges is still charged right. */
  lemma {:induction false} SameCharges(keys: seq<Id>, n: Net, m: Net, uid: Id)
    requires Charged(keys, n, uid) && m.owner == n.owner && m.paid == n.paid
    requires uid in m.users ==> uid in n.users && m.users[uid] == n.users[uid]
    requires uid in m.joined ==> uid in n.joined && m.joined[uid] == n.joined[uid]
    ensures Charged(keys, m, uid)
  {
  }

  lemma {:induction false} NewPaysNothing(paid: map<Id, Reading>, owner: map<Id, Id>, x: Id, who: Id, c: Id, uid: Id)
    requires x !in owner
    ensures At(paid[x := Reading(0, 0)], owner[x := who], c, uid) == At(paid, owner, c, uid)
  {
  }

  lemma {:induction false} ChargesBySum(keys: seq<Id>, n: Net, m: Net, uid: Id)
    requires Charged(keys, n, uid) && m.users == n.users && m.joined == n.joined
    requires Sum(keys, m.owner, m.paid, uid) == Sum(keys, n.owner, n.paid, uid)
    ensures Charged(keys, m, uid)
  {
  }

  lemma {:induction false} ConnectCharges(keys: seq<Id>, n: Net, x: Id, row: Connection, counter: Reading, m: Net, uid: Id)
    requires Charged(keys, n, uid) && m == Next(n, Connects(x, row, counter))
    ensures Charged(keys, m, uid)
  {
    if m != n {
      assert x !in n.owner && m == Connect(n, x, row, counter);
      forall c | c in keys ensures At(m.paid, m.owner, c, uid) == At(n.paid, n.owner, c, uid) {
        NewPaysNothing(n.paid, n.owner, x, row.userId, c, uid);
      }
      SameSum(keys, n.owner, n.paid, m.owner, m.paid, uid);
      ChargesBySum(keys, n, m, uid);
    }
  }

  /** The other events touch neither charges nor totals. */
  lemma {:induction false} QuietShape(n: Net, e: Event, m: Net)
    requires m == Next(n, e) && !e.Settles? && !e.Joins? && !e.Connects?
    ensures m.owner == n.owner && m.paid == n.paid && m.joined == n.joined
    ensures m.users == n.users || (e.Leaves? && m.users == n.users - {e.uid})
  {
  }

  lemma {:induction false} QuietCharges(keys: seq<Id>, n: Net, e: Event, m: Net, uid: Id)
    requires Charged(keys, n, uid) && m == Next(n, e) && !e.Settles? && !e.Joins? && !e.Connects?
    ensures Charged(keys, m, uid)
  {
    QuietShape(n, e, m);
    SameCharges(keys, n, m, uid);
  }

  lemma {:induction false} NextCharges(keys: seq<Id>, n: Net, e: Event, m: Net, uid: Id)
    requires Fits(n) && Holds(keys, n) && Charged(keys, n, uid) && m == Next(n, e)
    ensures Charged(keys, m, uid)
  {
    match e
    case Settles(now) => SettleCharges(keys, n, now, m, uid);
    case Joins(x, user) => JoinCharges(keys, n, x, user, m, uid);
    case Connects(x, row, counter) => ConnectCharges(keys, n, x, row, counter, m, uid);
    case _ => QuietCharges(keys, n, e, m, uid);
  }

  // ----- Runs -----

  ghost predicate AllCovered(n: Net) {
    Fits(n) && forall c :: c in n.owner ==> Covered(n, c)
  }

  lemma {:induction false} NextAllCovered(n: Net, e: Event, m: Net)
    requires AllCovered(n) && m == Next(n, e)
    ensures AllCovered(m)
    ensures forall c :: c in m.owner ==> (Exact(m, c) <==> (c in n.owner ==> Exact(n, c)) && GentleTo(n, e, c))
  {
    NextFits(n, e, m);
    forall c | c in m.owner ensures Covered(m, c) && (Exact(m, c) <==> (c in n.owner ==> Exact(n, c)) && GentleTo(n, e, c)) {
      NextCovers(n, e, m, c);
    }
  }

  /** Connections are never forgotten. */
  lemma {:induction false} OwnersStay(n: Net, e: Event, m: Net)
    requires m == Next(n, e)
    ensures n.owner.Keys <= m.owner.Keys
  {
  }

  /** A start: no poll, nothing charged yet, and transferred bytes counted from what the counters show beyond the rows. */
  ghost predicate Starts(n: Net) {
    && Fits(n) && n.pending == [] && n.owner.Keys == n.conns.Keys && n.joined == n.users
    && forall c :: c in n.conns ==> n.paid[c] == Reading(0, 0) && n.moved[c] == DeltaOf(Baseline(n.conns[c]), n.counters[c])
  }

  lemma {:induction false} ZeroSum(keys: seq<Id>, owner: map<Id, Id>, m: map<Id, Reading>, uid: Id)
    requires forall c :: c in owner && c in m ==> m[c] == Reading(0, 0)
    ensures Sum(keys, owner, m, uid) == Reading(0, 0)
  {
    if keys != [] { ZeroSum(keys[..|keys| - 1], owner, m, uid); }
  }

  lemma {:induction false} StartIsCovered(n: Net)
    requires Starts(n)
    ensures AllCovered(n) && forall c :: c in n.owner ==> Exact(n, c)
  {
    forall c | c in n.owner ensures Covered(n, c) && Exact(n, c) {
      NothingPending(n, c);
    }
  }

  /** No event of the run loses bytes of the connection. */
  ghost predicate GentleRun(start: Net, events: seq<Event>, c: Id)
    decreases |events|
  {
    events == [] ||
    (GentleRun(start, events[..|events| - 1], c) && GentleTo(RunOf(start, events[..|events| - 1]), events[|events| - 1], c))
  }

  /** Nothing is lost of a connection before there is one. */
  lemma {:induction false} UnknownIsGentle(start: Net, events: seq<Event>, c: Id)
    requires Starts(start) && c !in RunOf(start, events).owner
    ensures GentleRun(start, events, c)
    decreases |events|
  {
    if events != [] {
      var rest := events[..|events| - 1];
      OwnersStay(RunOf(start, rest), events[|events| - 1], RunOf(start, events));
      UnknownIsGentle(start, rest, c);
      RunFits(start, rest);
    }
  }

  lemma {:induction false} RunFits(start: Net, events: seq<Event>)
    requires Starts(start)
    ensures Fits(RunOf(start, events))
    decreases |events|
  {
    if events != [] {
      RunFits(start, events[..|events| - 1]);
      NextFits(RunOf(start, events[..|events| - 1]), events[|events| - 1], RunOf(start, events));
    }
  }

  lemma {:induction false} ExactSoFar(start: Net, rest: seq<Event>, e: Event, n: Net, m: Net, events: seq<Event>, c: Id)
    requires Starts(start) && events == rest + [e] && n == RunOf(start, rest) && m == RunOf(start, events)
    requires c in n.owner ==> (Exact(n, c) <==> GentleRun(start, rest, c))
    requires Exact(m, c) <==> (c in n.owner ==> Exact(n, c)) && GentleTo(n, e, c)
    ensures Exact(m, c) <==> GentleRun(start, events, c)
  {
    assert events[..|events| - 1] == rest;
    if c !in n.owner { UnknownIsGentle(start, rest, c); }
  }

  /** All connections are covered, and a connection's bytes are all accounted for exactly when none of the events lost any. */
  lemma {:induction false} RunIsCovered(start: Net, events: seq<Event>)
    requires Starts(start)
    ensures AllCovered(RunOf(start, events))
    ensures forall c :: c in RunOf(start, events).owner ==> (Exact(RunOf(start, events), c) <==> GentleRun(start, events, c))
    decreases |events|
  {
    if events == [] {
      StartIsCovered(start);
    } else {
      var rest, e := events[..|events| - 1], events[|events| - 1];
      var n, m := RunOf(start, rest), RunOf(start, events);
      RunIsCovered(start, rest);
      NextAllCovered(n, e, m);
      assert events == rest + [e];
      forall c | c in m.owner ensures Exact(m, c) <==> GentleRun(start, events, c) {
        ExactSoFar(start, rest, e, n, m, events, c);
      }
    }
  }

  lemma {:induction false} RunCharges(keys: seq<Id>, start: Net, events: seq<Event>, uid: Id)
    requires Starts(start) && Holds(keys, RunOf(start, events))
    ensures Charged(keys, RunOf(start, events), uid)
    decreases |events|
  {
    if events == [] {
      ZeroSum(keys, start.owner, start.paid, uid);
    } else {
      var rest, e := events[..|events| - 1], events[|events| - 1];
      var n := RunOf(start, rest);
      RunIsCovered(start, rest);
      OwnersStay(n, e, RunOf(start, events));
      RunCharges(keys, start, rest, uid);
      NextCharges(keys, n, e, RunOf(start, events), uid);
    }
  }

  ghost predicate WithinMoved(before: User, after: User, b: Reading) {
    && after.trafficTotalRx - before.trafficTotalRx <= b.rx && after.trafficTotalTx - before.trafficTotalTx <= b.tx
    && after.trafficTotal - before.trafficTotal <= b.rx + b.tx
  }

  lemma {:induction false} PaidWithinMoved(keys: seq<Id>, n: Net, uid: Id)
    requires AllCovered(n)
    ensures AtMost(Sum(keys, n.owner, n.paid, uid), Sum(keys, n.owner, n.moved, uid))
  {
    forall c | c in keys ensures AtMost(At(n.paid, n.owner, c, uid), At(n.moved, n.owner, c, uid)) {
      if c in n.owner { assert Covered(n, c); }
    }
    SumAtMost(keys, n.owner, n.paid, n.moved, uid);
  }

  /** Everything that went through the user's connections is charged: no event lost any of it and nothing waits. */
  ghost predicate NothingLost(start: Net, events: seq<Event>, uid: Id) {
    var n := RunOf(start, events);
    forall c :: c in n.owner && n.owner[c] == uid ==> GentleRun(start, events, c) && (c in n.conns && c in n.counters ==> Clear(n, c))
  }

  lemma {:induction false} PaidIsMoved(n: Net, c: Id)
    requires Fits(n) && c in n.owner && Covered(n, c)
    ensures n.paid[c] == n.moved[c] <==> Exact(n, c) && (c in n.conns && c in n.counters ==> Clear(n, c))
  {
    if c in n.conns { PaidInFullIff(n.paid[c], ReadBytes(n, c), Base(n, c), n.counters[c], Due(n, c), n.moved[c]); }
  }

  /** Sums of bounded parts agree exactly when the parts do. */
  lemma {:induction false} SumsAgree(keys: seq<Id>, owner: map<Id, Id>, m: map<Id, Reading>, m2: map<Id, Reading>, uid: Id)
    requires forall c :: c in keys ==> AtMost(At(m, owner, c, uid), At(m2, owner, c, uid))
    ensures Sum(keys, owner, m, uid) == Sum(keys, owner, m2, uid) <==>
      forall c :: c in keys ==> At(m, owner, c, uid) == At(m2, owner, c, uid)
  {
    if keys != [] {
      var rest, k := keys[..|keys| - 1], keys[|keys| - 1];
      assert keys == rest + [k];
      SumsAgree(rest, owner, m, m2, uid);
      SumAtMost(rest, owner, m, m2, uid);
    }
  }

  lemma {:induction false} OwnSumsAgree(keys: seq<Id>, n: Net, uid: Id)
    requires AllCovered(n) && Tables.Lists(keys, n.owner)
    ensures Sum(keys, n.owner, n.paid, uid) == Sum(keys, n.owner, n.moved, uid) <==>
      forall c :: c in n.owner && n.owner[c] == uid ==> n.paid[c] == n.moved[c]
  {
    forall c | c in keys ensures AtMost(At(n.paid, n.owner, c, uid), At(n.moved, n.owner, c, uid)) { assert Covered(n, c); }
    SumsAgree(keys, n.owner, n.paid, n.moved, uid);
    if forall c :: c in keys ==> At(n.paid, n.owner, c, uid) == At(n.moved, n.owner, c, uid) {
      forall c | c in n.owner && n.owner[c] == uid ensures n.paid[c] == n.moved[c] { assert c in keys; }
    }
  }

  lemma {:induction false} PaidIsMovedIff(keys: seq<Id>, start: Net, events: seq<Event>, n: Net, uid: Id)
    requires n == RunOf(start, events) && AllCovered(n) && Tables.Lists(keys, n.owner)
    requires forall c :: c in n.owner ==> (Exact(n, c) <==> GentleRun(start, events, c))
    ensures Sum(keys, n.owner, n.paid, uid) == Sum(keys, n.owner, n.moved, uid) <==> NothingLost(start, events, uid)
  {
    OwnSumsAgree(keys, n, uid);
    forall c | c in n.owner
      ensures n.paid[c] == n.moved[c] <==> GentleRun(start, events, c) && (c in n.conns && c in n.counters ==> Clear(n, c))
    {
      PaidIsMoved(n, c);
    }
  }

  /**
   Over every run, a user's totals rise by at most the bytes that went through all the connections the user
   ever had; and by exactly those if and only if no event lost bytes of theirs and nothing is left to read or settle.
   */
  lemma {:induction false} UsersPayForWhatMoved(keys: seq<Id>, start: Net, events: seq<Event>, uid: Id)
    requires Starts(start) && Tables.Lists(keys, RunOf(start, events).owner) && uid in RunOf(start, events).users
    ensures var n := RunOf(start, events);
      && uid in n.joined && WithinMoved(n.joined[uid], n.users[uid], Sum(keys, n.owner, n.moved, uid))
      && (Gained(n.joined[uid], n.users[uid], GrowthOf(Sum(keys, n.owner, n.moved, uid))) <==> NothingLost(start, events, uid))
  {
    var n := RunOf(start, events);
    RunIsCovered(start, events);
    RunCharges(keys, start, events, uid);
    PaidWithinMoved(keys, n, uid);
    PaidIsMovedIff(keys, start, events, n, uid);
  }
}
