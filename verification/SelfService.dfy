/**
 Self-service connections of the Go panel: requests of many users run at once,
 adds hold the user's own mutex from a shared lock table, deletes and renames hold
 none. The limits hold in every interleaving
 (amnezia-web-ui-go/internal/handlers, amnezia-web-ui-go/internal/database/connections.go).
 */
module SelfService {
  import opened Tables
  import opened SlidingWindow

  // ----- Limits -----

  datatype Limits = Limits(maxConnections: int, rateCount: int, rateWindow: int)

  /** Per-user overrides; a value that is not positive does not count. */
  datatype Overrides = Overrides(maxConnections: Option<int>, rateCount: Option<int>, rateWindow: Option<int>)

  function Positive(v: int, fallback: int): int {
    if v <= 0 then fallback else v
  }

  function ResolveLimits(stored: Limits): Limits {
    Limits(Positive(stored.maxConnections, 10), Positive(stored.rateCount, 5), Positive(stored.rateWindow, 60))
  }

  function Override(v: Option<int>, global: int): int {
    if v.Some? then Positive(v.value, global) else global
  }

  /** The user's own value if positive, else the stored one if positive, else the default; so never zero. */
  predicate FirstPositive(v: int, own: Option<int>, stored: int, default: int) {
    && (own.Some? && own.value > 0 ==> v == own.value)
    && (!(own.Some? && own.value > 0) && stored > 0 ==> v == stored)
    && (!(own.Some? && own.value > 0) && stored <= 0 ==> v == default)
    && (default > 0 ==> v > 0)
  }

  /** The limits that a user's requests are held to. */
  function EffectiveLimits(stored: Limits, own: Overrides): (r: Limits)
    ensures FirstPositive(r.maxConnections, own.maxConnections, stored.maxConnections, 10)
    ensures FirstPositive(r.rateCount, own.rateCount, stored.rateCount, 5)
    ensures FirstPositive(r.rateWindow, own.rateWindow, stored.rateWindow, 60)
  {
    var global := ResolveLimits(stored);
    Limits(Override(own.maxConnections, global.maxConnections), Override(own.rateCount, global.rateCount),
           Override(own.rateWindow, global.rateWindow))
  }

  /** Case-insensitive comparison of names. */
  function FoldChar(c: char): char {
    if 'A' <= c <= 'Z' then c - 'A' + 'a' else c
  }

  function Fold(s: string): string {
    if s == "" then "" else [FoldChar(s[0])] + Fold(s[1..])
  }

  /** Equal, or one letter as a capital and as a small one, which are 32 apart. */
  predicate SameLetter(c: char, d: char) {
    || c == d
    || ('A' <= c <= 'Z' && d as int == c as int + 32)
    || ('A' <= d <= 'Z' && c as int == d as int + 32)
  }

  lemma {:induction false} FoldCharIgnoresCase(c: char, d: char)
    ensures FoldChar(c) == FoldChar(d) <==> SameLetter(c, d)
  {
  }

  /** Names count as equal exactly when they differ in the case of letters only. */
  lemma {:induction false} FoldIgnoresCase(a: string, b: string)
    ensures Fold(a) == Fold(b) <==> |a| == |b| && forall i :: 0 <= i < |a| ==> SameLetter(a[i], b[i])
    decreases |a|
  {
    if a != "" && b != "" {
      FoldIgnoresCase(a[1..], b[1..]);
      FoldCharIgnoresCase(a[0], b[0]);
      FoldSplits(a, b);
    }
  }

  lemma {:induction false} FoldSplits(a: string, b: string)
    requires a != "" && b != ""
    ensures Fold(a) == Fold(b) <==> FoldChar(a[0]) == FoldChar(b[0]) && Fold(a[1..]) == Fold(b[1..])
    ensures (|a| == |b| && forall i :: 0 <= i < |a| ==> SameLetter(a[i], b[i])) <==>
      SameLetter(a[0], b[0]) && |a[1..]| == |b[1..]| && forall i :: 0 <= i < |a[1..]| ==> SameLetter(a[1..][i], b[1..][i])
  {
    assert Fold(a)[1..] == Fold(a[1..]) && Fold(b)[1..] == Fold(b[1..]);
    assert forall i :: 1 <= i < |a| ==> a[i] == a[1..][i - 1];
    assert forall i :: 1 <= i < |b| ==> b[i] == b[1..][i - 1];
  }

  // ----- State -----

  type Tid = nat
  type Mutex = nat

  datatype Row = Row(user: Id, name: string)
  type Rows = map<Id, Row>

  datatype Request = AddConnection(name: string) | DeleteConnection(conn: Id) | RenameConnection(conn: Id, newName: string)

  /** Where a request is. The states from InTable to Found hold the lock table's own mutex. */
  datatype Pc =
    | Start
    | InTable | Missing | Found(m: Mutex)
    | Waiting(m: Mutex)
    | Locked(m: Mutex)
    | Listed(m: Mutex, mine: Rows)
    | Cleared(m: Mutex, mine: Rows, at: int)
    | Stored(m: Mutex, at: int)
    | Logged(m: Mutex)
    | Owned | Compared
    | Done

  datatype Thread = Thread(user: Id, request: Request, pc: Pc)
  datatype Entry = Entry(user: Id, time: int)

  /** `created` records when rows were really inserted; `log` is the table that the rate query reads. */
  datatype State = State(
    threads: map<Tid, Thread>,
    tableHolder: Option<Tid>,
    locks: map<Id, Mutex>,
    holders: map<Mutex, Option<Tid>>,
    rows: Rows,
    issued: set<Id>,
    created: seq<Entry>,
    log: seq<Entry>,
    now: int)

  function RowsOf(rows: Rows, user: Id): (r: Rows)
    ensures forall c :: c in r <==> c in rows && rows[c].user == user
    ensures forall c :: c in r ==> r[c] == rows[c]
  {
    map c | c in rows && rows[c].user == user :: rows[c]
  }

  predicate TakenName(rows: Rows, name: string) {
    exists c :: c in rows && Fold(rows[c].name) == Fold(name)
  }

  function TimesOf(log: seq<Entry>, user: Id): seq<int> {
    if log == [] then []
    else
      var e := log[|log| - 1];
      var before := TimesOf(log[..|log| - 1], user);
      if e.user == user then before + [e.time] else before
  }

  /** The entries at or after `cutoff`, as the rate query counts them. */
  function Recent(log: seq<Entry>, user: Id, cutoff: int): nat {
    After(TimesOf(log, user), cutoff - 1)
  }

  // ----- Steps -----

  datatype Step =
    | Tick(to: int)
    | Begin(tid: Tid, user: Id, request: Request)
    | Go(tid: Tid, id: nat)
    | GiveUp(tid: Tid)

  function Holds(pc: Pc): Option<Mutex> {
    match pc
    case Locked(m) => Some(m)
    case Listed(m, _) => Some(m)
    case Cleared(m, _, _) => Some(m)
    case Stored(m, _) => Some(m)
    case Logged(m) => Some(m)
    case _ => None
  }

  /** No request but `tid` went on, and `tid` is still the same request. */
  ghost predicate OnlyMoved(s: State, n: State, tid: Tid) {
    && tid in s.threads && tid in n.threads
    && n.threads == s.threads[tid := s.threads[tid].(pc := n.threads[tid].pc)]
  }

  /** A request returns: the deferred unlock runs if it holds its mutex. */
  function Finish(s: State, tid: Tid): (n: State)
    requires tid in s.threads
    ensures OnlyMoved(s, n, tid)
  {
    var t := s.threads[tid];
    var held := Holds(t.pc);
    s.(threads := s.threads[tid := t.(pc := Done)],
       holders := if held.Some? then s.holders[held.value := None] else s.holders)
  }

  function MoveTo(s: State, tid: Tid, pc: Pc): (n: State)
    requires tid in s.threads
    ensures OnlyMoved(s, n, tid)
  {
    s.(threads := s.threads[tid := s.threads[tid].(pc := pc)])
  }

  ghost predicate Enabled(s: State, limits: map<Id, Limits>, step: Step) {
    match step
    case Tick(to) => s.now <= to
    case Begin(tid, user, _) => tid !in s.threads && user in limits
    case GiveUp(tid) =>
      && tid in s.threads
      && var pc := s.threads[tid].pc; pc.Start? || pc.Locked? || pc.Listed? || pc.Cleared? || pc.Owned? || pc.Compared?
    case Go(tid, id) =>
      && tid in s.threads
      && var t := s.threads[tid];
         match t.pc
         case Start => t.request.AddConnection? ==> s.tableHolder.None?
         case Missing => id !in s.holders
         case Waiting(m) => m in s.holders && s.holders[m].None?
         case Cleared(_, _, _) => id !in s.issued && t.request.AddConnection?
         case Listed(_, _) => t.request.AddConnection?
         case Owned => !t.request.AddConnection?
         case Compared => t.request.RenameConnection?
         case Done => false
         case _ => true
  }

  /** The next step of an add: the lock table, the user's mutex, the checks, the two writes. */
  function GoAdd(s: State, limits: map<Id, Limits>, tid: Tid, id: nat): (n: State)
    requires tid in s.threads && s.threads[tid].user in limits && s.threads[tid].request.AddConnection?
    ensures OnlyMoved(s, n, tid)
  {
    var t := s.threads[tid];
    match t.pc
    case Start => MoveTo(s, tid, InTable).(tableHolder := Some(tid))
    case InTable => MoveTo(s, tid, if t.user in s.locks then Found(s.locks[t.user]) else Missing)
    case Missing =>
      MoveTo(s, tid, Found(id)).(locks := s.locks[t.user := id], holders := s.holders[id := None])
    case Found(m) => MoveTo(s, tid, Waiting(m)).(tableHolder := None)
    case Waiting(m) => MoveTo(s, tid, Locked(m)).(holders := s.holders[m := Some(tid)])
    case Locked(m) => MoveTo(s, tid, Listed(m, RowsOf(s.rows, t.user)))
    case Listed(m, mine) =>
      var l := limits[t.user];
      if |mine| >= l.maxConnections || Recent(s.log, t.user, s.now - l.rateWindow) >= l.rateCount
        || TakenName(mine, t.request.name)
      then Finish(s, tid)
      else MoveTo(s, tid, Cleared(m, mine, s.now))
    case Cleared(m, _, at) =>
      MoveTo(s, tid, Stored(m, at)).(rows := s.rows[id := Row(t.user, t.request.name)], issued := s.issued + {id},
                                  created := s.created + [Entry(t.user, s.now)])
    case Stored(m, _) => MoveTo(s, tid, Logged(m)).(log := s.log + [Entry(t.user, s.now)])
    case _ => Finish(s, tid)
  }

  /** The next step of a delete or rename, neither of which takes the user's mutex. */
  function GoOther(s: State, tid: Tid): (n: State)
    requires tid in s.threads && !s.threads[tid].request.AddConnection?
    ensures OnlyMoved(s, n, tid)
  {
    var t := s.threads[tid];
    var c := t.request.conn;
    match t.pc
    case Start => if c in s.rows && s.rows[c].user == t.user then MoveTo(s, tid, Owned) else Finish(s, tid)
    case Owned =>
      if t.request.DeleteConnection? then Finish(s, tid).(rows := s.rows - {c})
      else if TakenName(RowsOf(s.rows, t.user) - {c}, t.request.newName) then Finish(s, tid)
      else MoveTo(s, tid, Compared)
    case Compared =>
      if t.request.RenameConnection? && c in s.rows
      then Finish(s, tid).(rows := s.rows[c := s.rows[c].(name := t.request.newName)])
      else Finish(s, tid)
    case _ => Finish(s, tid)
  }

  function Next(s: State, limits: map<Id, Limits>, step: Step): State {
    match step
    case Tick(to) => s.(now := to)
    case Begin(tid, user, request) => s.(threads := s.threads[tid := Thread(user, request, Start)])
    case GiveUp(tid) => if tid in s.threads then Finish(s, tid) else s
    case Go(tid, id) =>
      if tid !in s.threads || s.threads[tid].user !in limits then s
      else if s.threads[tid].request.AddConnection? then GoAdd(s, limits, tid, id)
      else GoOther(s, tid)
  }

  function RunSteps(s: State, limits: map<Id, Limits>, steps: seq<Step>): State
    decreases |steps|
  {
    if steps == [] then s else Next(RunSteps(s, limits, steps[..|steps| - 1]), limits, steps[|steps| - 1])
  }

  /** Every step of the run is possible where it is taken. */
  ghost predicate Possible(s: State, limits: map<Id, Limits>, steps: seq<Step>) {
    forall i :: 0 <= i < |steps| ==> Enabled(RunSteps(s, limits, steps[..i]), limits, steps[i])
  }

  // ----- What every interleaving keeps -----

  function Knows(pc: Pc): Option<Mutex> {
    match pc
    case Found(m) => Some(m)
    case Waiting(m) => Some(m)
    case _ => Holds(pc)
  }

  ghost predicate RateClear(s: State, l: Limits, user: Id, at: int) {
    at <= s.now && Recent(s.log, user, at - l.rateWindow) < l.rateCount
  }

  /** Every row that the user has is one that the request has read. */
  ghost predicate OnlyShrunk(rows: Rows, user: Id, mine: Rows) {
    forall c :: c in rows && rows[c].user == user ==> c in mine
  }

  ghost predicate NoNewRows(before: Rows, after: Rows, user: Id) {
    forall c :: c in after && after[c].user == user ==> c in before && before[c].user == user
  }

  /** A request knows its user's own mutex, and what it has read can only have shrunk. */
  ghost predicate ThreadOk(s: State, limits: map<Id, Limits>, tid: Tid)
    requires tid in s.threads
  {
    var t := s.threads[tid];
    && t.user in limits
    && (t.pc.InTable? || t.pc.Missing? || t.pc.Found? ==> s.tableHolder == Some(tid))
    && (t.pc.Missing? ==> t.user !in s.locks)
    && (Knows(t.pc).Some? ==> t.user in s.locks && s.locks[t.user] == Knows(t.pc).value)
    && (Holds(t.pc).Some? ==> Holds(t.pc).value in s.holders && s.holders[Holds(t.pc).value] == Some(tid))
    && (t.pc.Listed? || t.pc.Cleared? ==> OnlyShrunk(s.rows, t.user, t.pc.mine))
    && (t.pc.Cleared? ==> |t.pc.mine| < limits[t.user].maxConnections)
    && (t.pc.Cleared? || t.pc.Stored? ==> RateClear(s, limits[t.user], t.user, t.pc.at))
    && (t.pc.Owned? || t.pc.Compared? ==>
          !t.request.AddConnection? && t.request.conn in s.issued
          && (t.request.conn in s.rows ==> s.rows[t.request.conn].user == t.user))
    && (!t.pc.Start? && !t.pc.Owned? && !t.pc.Compared? && !t.pc.Done? ==> t.request.AddConnection?)
  }

  ghost predicate UserOk(s: State, l: Limits, user: Id) {
    && |RowsOf(s.rows, user)| <= l.maxConnections
    && Limited(TimesOf(s.log, user), l.rateWindow + 1, l.rateCount)
  }

  ghost predicate TablesOk(s: State) {
    && s.rows.Keys <= s.issued
    && (forall u :: u in s.locks ==> s.locks[u] in s.holders)
  }

  ghost predicate ThreadsOk(s: State, limits: map<Id, Limits>) {
    forall t :: t in s.threads ==> ThreadOk(s, limits, t)
  }

  ghost predicate Inv(s: State, limits: map<Id, Limits>) {
    && TablesOk(s)
    && ThreadsOk(s, limits)
    && (forall u :: u in limits ==> UserOk(s, limits[u], u))
  }

  /** Nothing that request `x` relies on was taken away between `s` and `n`. */
  ghost predicate Undisturbed(s: State, n: State, x: Tid)
    requires x in s.threads
  {
    var t := s.threads[x];
    && x in n.threads && n.threads[x] == t
    && (s.tableHolder == Some(x) ==> n.tableHolder == Some(x))
    && (forall u :: u in s.locks ==> u in n.locks && n.locks[u] == s.locks[u])
    && (t.pc.Missing? && t.user !in s.locks ==> t.user !in n.locks)
    && (forall m :: m in s.holders && s.holders[m] == Some(x) ==> m in n.holders && n.holders[m] == Some(x))
    && (Holds(t.pc).Some? ==>
          NoNewRows(s.rows, n.rows, t.user) && TimesOf(n.log, t.user) == TimesOf(s.log, t.user))
    && s.now <= n.now && s.issued <= n.issued
    && (forall c :: c in s.issued && c in n.rows ==> c in s.rows && n.rows[c].user == s.rows[c].user)
  }

  lemma {:induction false} UndisturbedIsOk(s: State, n: State, limits: map<Id, Limits>, x: Tid)
    requires x in s.threads && ThreadOk(s, limits, x) && Undisturbed(s, n, x)
    ensures ThreadOk(n, limits, x)
  {
  }

  /** Two requests that both hold their user's mutex are one. */
  lemma {:induction false} MutexExcludes(s: State, limits: map<Id, Limits>, x: Tid, y: Tid)
    requires ThreadsOk(s, limits) && x in s.threads && y in s.threads
    requires Holds(s.threads[x].pc).Some? && Holds(s.threads[y].pc).Some?
    requires s.threads[x].user == s.threads[y].user
    ensures x == y
  {
    assert ThreadOk(s, limits, x) && ThreadOk(s, limits, y);
  }

  lemma {:induction false} TimesLast(log: seq<Entry>, e: Entry, user: Id)
    ensures TimesOf(log + [e], user) == if e.user == user then TimesOf(log, user) + [e.time] else TimesOf(log, user)
  {
    assert (log + [e])[..|log|] == log;
  }

  /** It is the turn of add request `tid`. */
  ghost predicate AddTurn(s: State, limits: map<Id, Limits>, tid: Tid, id: nat) {
    && tid in s.threads && s.threads[tid].request.AddConnection?
    && Enabled(s, limits, Go(tid, id)) && TablesOk(s) && ThreadOk(s, limits, tid)
  }

  predicate InLockTable(pc: Pc) {
    pc.Start? || pc.InTable? || pc.Missing? || pc.Found?
  }

  lemma {:induction false} TableMoveOwn(s: State, limits: map<Id, Limits>, tid: Tid, id: nat, n: State)
    requires AddTurn(s, limits, tid, id) && InLockTable(s.threads[tid].pc) && n == GoAdd(s, limits, tid, id)
    ensures tid in n.threads && ThreadOk(n, limits, tid) && TablesOk(n)
  {
  }

  lemma {:induction false} TableMoveOthers(s: State, limits: map<Id, Limits>, tid: Tid, id: nat, n: State, x: Tid)
    requires AddTurn(s, limits, tid, id) && InLockTable(s.threads[tid].pc) && n == GoAdd(s, limits, tid, id)
    requires x in s.threads && x != tid && ThreadOk(s, limits, x)
    ensures Undisturbed(s, n, x)
  {
  }

  predicate Reading(pc: Pc) {
    pc.Waiting? || pc.Locked? || pc.Listed? || pc.Logged?
  }

  lemma {:induction false} CheckOwn(s: State, limits: map<Id, Limits>, tid: Tid, id: nat, n: State)
    requires AddTurn(s, limits, tid, id) && s.threads[tid].pc.Listed? && n == GoAdd(s, limits, tid, id)
    ensures tid in n.threads && ThreadOk(n, limits, tid) && TablesOk(n)
  {
  }

  lemma {:induction false} ReadMoveOwn(s: State, limits: map<Id, Limits>, tid: Tid, id: nat, n: State)
    requires AddTurn(s, limits, tid, id) && Reading(s.threads[tid].pc) && !s.threads[tid].pc.Listed? && n == GoAdd(s, limits, tid, id)
    ensures tid in n.threads && ThreadOk(n, limits, tid) && TablesOk(n)
  {
  }

  lemma {:induction false} QuietReadShape(s: State, limits: map<Id, Limits>, tid: Tid, id: nat, n: State)
    requires AddTurn(s, limits, tid, id) && n == GoAdd(s, limits, tid, id)
    requires s.threads[tid].pc.Locked? || s.threads[tid].pc.Listed? || s.threads[tid].pc.Logged?
    ensures n.tableHolder == s.tableHolder && n.locks == s.locks && n.log == s.log
    ensures n.rows == s.rows && n.issued == s.issued && n.now == s.now
    ensures n.holders == s.holders || n.holders == s.holders[Holds(s.threads[tid].pc).value := None]
  {
  }

  lemma {:induction false} ReadMoveOthers(s: State, limits: map<Id, Limits>, tid: Tid, id: nat, n: State, x: Tid)
    requires AddTurn(s, limits, tid, id) && Reading(s.threads[tid].pc) && n == GoAdd(s, limits, tid, id)
    requires x in s.threads && x != tid && ThreadOk(s, limits, x)
    ensures Undisturbed(s, n, x)
  {
    if s.threads[tid].pc.Waiting? {
      LockOthers(s, limits, tid, id, n, x);
    } else {
      QuietReadShape(s, limits, tid, id, n);
    }
  }

  lemma {:induction false} LockOthers(s: State, limits: map<Id, Limits>, tid: Tid, id: nat, n: State, x: Tid)
    requires AddTurn(s, limits, tid, id) && s.threads[tid].pc.Waiting? && n == GoAdd(s, limits, tid, id)
    requires x in s.threads && x != tid && ThreadOk(s, limits, x)
    ensures Undisturbed(s, n, x)
  {
  }

  /** Storing the row: it was cleared against a list that can only have shrunk. */
  lemma {:induction false} StoreOwn(s: State, limits: map<Id, Limits>, tid: Tid, id: nat, n: State)
    requires AddTurn(s, limits, tid, id) && s.threads[tid].pc.Cleared? && n == GoAdd(s, limits, tid, id)
    ensures tid in n.threads && ThreadOk(n, limits, tid) && TablesOk(n)
  {
  }

  lemma {:induction false} StoreOthers(s: State, limits: map<Id, Limits>, tid: Tid, id: nat, n: State, x: Tid)
    requires AddTurn(s, limits, tid, id) && s.threads[tid].pc.Cleared? && n == GoAdd(s, limits, tid, id)
    requires x in s.threads && x != tid && ThreadOk(s, limits, x)
    ensures Undisturbed(s, n, x)
  {
  }

  lemma {:induction false} SubMapSize(a: Rows, b: Rows)
    requires a.Keys <= b.Keys
    ensures |a| <= |b|
  {
    var rest := b.Keys - a.Keys;
    assert b.Keys == a.Keys + rest;
    assert |b.Keys| == |a.Keys| + |rest|;
    assert |a| == |a.Keys| && |b| == |b.Keys|;
  }

  lemma {:induction false} RowsOfStored(rows: Rows, id: Id, row: Row, u: Id)
    requires id !in rows
    ensures RowsOf(rows[id := row], u) == if row.user == u then RowsOf(rows, u)[id := row] else RowsOf(rows, u)
  {
  }

  lemma {:induction false} StoreUsers(s: State, limits: map<Id, Limits>, tid: Tid, id: nat, n: State, u: Id)
    requires AddTurn(s, limits, tid, id) && s.threads[tid].pc.Cleared? && n == GoAdd(s, limits, tid, id)
    requires u in limits && UserOk(s, limits[u], u)
    ensures UserOk(n, limits[u], u)
  {
    var t := s.threads[tid];
    RowsOfStored(s.rows, id, Row(t.user, t.request.name), u);
    if u == t.user { SubMapSize(RowsOf(s.rows, u), t.pc.mine); }
  }

  /** Logging the creation: fewer than the limit were in the window when it was cleared. */
  lemma {:induction false} LogOwn(s: State, limits: map<Id, Limits>, tid: Tid, id: nat, n: State)
    requires AddTurn(s, limits, tid, id) && s.threads[tid].pc.Stored? && n == GoAdd(s, limits, tid, id)
    ensures tid in n.threads && ThreadOk(n, limits, tid) && TablesOk(n)
  {
  }

  /** A move that leaves locks, rows and the log of `x`'s user alone does not disturb `x`. */
  lemma {:induction false} QuietMove(s: State, n: State, tid: Tid, x: Tid)
    requires OnlyMoved(s, n, tid) && x in s.threads && x != tid
    requires n.tableHolder == s.tableHolder && n.locks == s.locks && n.holders == s.holders
    requires n.rows == s.rows && n.issued == s.issued && n.now == s.now
    requires TimesOf(n.log, s.threads[x].user) == TimesOf(s.log, s.threads[x].user) || Holds(s.threads[x].pc).None?
    ensures Undisturbed(s, n, x)
  {
  }

  lemma {:induction false} LogShape(s: State, limits: map<Id, Limits>, tid: Tid, id: nat, n: State)
    requires AddTurn(s, limits, tid, id) && s.threads[tid].pc.Stored? && n == GoAdd(s, limits, tid, id)
    ensures n.tableHolder == s.tableHolder && n.locks == s.locks && n.holders == s.holders
    ensures n.rows == s.rows && n.issued == s.issued && n.now == s.now && n.created == s.created
    ensures n.log == s.log + [Entry(s.threads[tid].user, s.now)] && n.threads[tid].pc.Logged?
  {
  }

  lemma {:induction false} LogOthers(s: State, limits: map<Id, Limits>, tid: Tid, id: nat, n: State, x: Tid)
    requires AddTurn(s, limits, tid, id) && s.threads[tid].pc.Stored? && n == GoAdd(s, limits, tid, id)
    requires x in s.threads && x != tid && ThreadOk(s, limits, x)
    ensures Undisturbed(s, n, x)
  {
    LogShape(s, limits, tid, id, n);
    TimesLast(s.log, Entry(s.threads[tid].user, s.now), s.threads[x].user);
    SameUserWaits(s, limits, tid, x);
    QuietMove(s, n, tid, x);
  }

  /** While one request holds the user's mutex no other request of the user does. */
  lemma {:induction false} SameUserWaits(s: State, limits: map<Id, Limits>, tid: Tid, x: Tid)
    requires tid in s.threads && ThreadOk(s, limits, tid) && Holds(s.threads[tid].pc).Some?
    requires x in s.threads && ThreadOk(s, limits, x) && x != tid
    ensures Holds(s.threads[x].pc).Some? ==> s.threads[x].user != s.threads[tid].user
  {
  }

  lemma {:induction false} LogUsers(s: State, limits: map<Id, Limits>, tid: Tid, id: nat, n: State, u: Id)
    requires AddTurn(s, limits, tid, id) && s.threads[tid].pc.Stored? && n == GoAdd(s, limits, tid, id)
    requires u in limits && UserOk(s, limits[u], u)
    ensures UserOk(n, limits[u], u)
  {
    var t, l, times := s.threads[tid], limits[u], TimesOf(s.log, u);
    TimesLast(s.log, Entry(t.user, s.now), u);
    if u == t.user {
      AfterMonotone(times, t.pc.at - l.rateWindow - 1, s.now - l.rateWindow - 1);
      AdmitKeepsLimit(times, s.now, l.rateWindow + 1, l.rateCount);
    }
  }

  // ----- Deletes, renames and early returns -----

  /** Rows may be gone or renamed, but none is new and none changed hands. */
  ghost predicate Fewer(before: Rows, after: Rows) {
    forall c :: c in after ==> c in before && after[c].user == before[c].user
  }

  lemma {:induction false} FinishOwn(s: State, limits: map<Id, Limits>, tid: Tid, rows: Rows, n: State)
    requires tid in s.threads && TablesOk(s) && ThreadOk(s, limits, tid)
    requires Fewer(s.rows, rows) && n == Finish(s, tid).(rows := rows)
    ensures tid in n.threads && ThreadOk(n, limits, tid) && TablesOk(n)
  {
  }

  lemma {:induction false} FinishOthers(s: State, limits: map<Id, Limits>, tid: Tid, rows: Rows, n: State, x: Tid)
    requires tid in s.threads && ThreadOk(s, limits, tid)
    requires Fewer(s.rows, rows) && n == Finish(s, tid).(rows := rows)
    requires x in s.threads && x != tid && ThreadOk(s, limits, x)
    ensures Undisturbed(s, n, x)
  {
  }

  lemma {:induction false} FinishUsers(s: State, limits: map<Id, Limits>, tid: Tid, rows: Rows, n: State, u: Id)
    requires tid in s.threads && Fewer(s.rows, rows) && n == Finish(s, tid).(rows := rows)
    requires u in limits && UserOk(s, limits[u], u)
    ensures UserOk(n, limits[u], u)
  {
    SubMapSize(RowsOf(rows, u), RowsOf(s.rows, u));
  }

  lemma {:induction false} FinishKeeps(s: State, limits: map<Id, Limits>, tid: Tid, rows: Rows, n: State)
    requires Inv(s, limits) && tid in s.threads
    requires Fewer(s.rows, rows) && n == Finish(s, tid).(rows := rows)
    ensures Inv(n, limits)
  {
    FinishOwn(s, limits, tid, rows, n);
    forall x | x in n.threads ensures ThreadOk(n, limits, x) {
      if x != tid {
        FinishOthers(s, limits, tid, rows, n, x);
        UndisturbedIsOk(s, n, limits, x);
      }
    }
    forall u | u in limits ensures UserOk(n, limits[u], u) { FinishUsers(s, limits, tid, rows, n, u); }
  }

  ghost predicate OwnsTarget(s: State, tid: Tid)
    requires tid in s.threads
  {
    var t := s.threads[tid];
    && !t.request.AddConnection? && t.request.conn in s.issued
    && (t.request.conn in s.rows ==> s.rows[t.request.conn].user == t.user)
  }

  lemma {:induction false} MoveOwn(s: State, limits: map<Id, Limits>, tid: Tid, pc: Pc, n: State)
    requires TablesOk(s) && tid in s.threads && s.threads[tid].user in limits && OwnsTarget(s, tid)
    requires pc.Owned? || pc.Compared?
    requires n == MoveTo(s, tid, pc)
    ensures tid in n.threads && ThreadOk(n, limits, tid) && TablesOk(n)
  {
  }

  lemma {:induction false} MoveOthers(s: State, limits: map<Id, Limits>, tid: Tid, pc: Pc, n: State, x: Tid)
    requires tid in s.threads && n == MoveTo(s, tid, pc)
    requires x in s.threads && x != tid && ThreadOk(s, limits, x)
    ensures Undisturbed(s, n, x)
  {
  }

  /** A delete or rename that goes on has only looked at the rows. */
  lemma {:induction false} MoveKeeps(s: State, limits: map<Id, Limits>, tid: Tid, pc: Pc, n: State)
    requires Inv(s, limits) && tid in s.threads && OwnsTarget(s, tid)
    requires pc.Owned? || pc.Compared?
    requires n == MoveTo(s, tid, pc)
    ensures Inv(n, limits)
  {
    MoveOwn(s, limits, tid, pc, n);
    forall x | x in n.threads ensures ThreadOk(n, limits, x) {
      if x != tid {
        MoveOthers(s, limits, tid, pc, n, x);
        UndisturbedIsOk(s, n, limits, x);
      }
    }
    forall u | u in limits ensures UserOk(n, limits[u], u) { assert UserOk(s, limits[u], u); }
  }

  lemma {:induction false} OtherShape(s: State, tid: Tid, n: State)
    requires tid in s.threads && !s.threads[tid].request.AddConnection? && n == GoOther(s, tid)
    ensures var t := s.threads[tid];
      || (t.pc.Start? && t.request.conn in s.rows && s.rows[t.request.conn].user == t.user && n == MoveTo(s, tid, Owned))
      || (t.pc.Owned? && n == MoveTo(s, tid, Compared))
      || (Fewer(s.rows, n.rows) && n == Finish(s, tid).(rows := n.rows))
  {
  }

  lemma {:induction false} OtherKeeps(s: State, limits: map<Id, Limits>, tid: Tid, n: State)
    requires Inv(s, limits) && tid in s.threads && !s.threads[tid].request.AddConnection? && n == GoOther(s, tid)
    ensures Inv(n, limits)
  {
    OtherShape(s, tid, n);
    assert ThreadOk(s, limits, tid);
    if Fewer(s.rows, n.rows) && n == Finish(s, tid).(rows := n.rows) {
      FinishKeeps(s, limits, tid, n.rows, n);
    } else if s.threads[tid].pc.Start? {
      MoveKeeps(s, limits, tid, Owned, n);
    } else {
      MoveKeeps(s, limits, tid, Compared, n);
    }
  }

  // ----- One step -----

  lemma {:induction false} AddOwn(s: State, limits: map<Id, Limits>, tid: Tid, id: nat, n: State)
    requires AddTurn(s, limits, tid, id) && n == GoAdd(s, limits, tid, id)
    ensures tid in n.threads && ThreadOk(n, limits, tid) && TablesOk(n)
  {
    var pc := s.threads[tid].pc;
    if InLockTable(pc) { TableMoveOwn(s, limits, tid, id, n); }
    else if pc.Listed? { CheckOwn(s, limits, tid, id, n); }
    else if Reading(pc) { ReadMoveOwn(s, limits, tid, id, n); }
    else if pc.Cleared? { StoreOwn(s, limits, tid, id, n); }
    else { LogOwn(s, limits, tid, id, n); }
  }

  lemma {:induction false} AddOthers(s: State, limits: map<Id, Limits>, tid: Tid, id: nat, n: State, x: Tid)
    requires AddTurn(s, limits, tid, id) && n == GoAdd(s, limits, tid, id)
    requires x in s.threads && x != tid && ThreadOk(s, limits, x)
    ensures Undisturbed(s, n, x)
  {
    var pc := s.threads[tid].pc;
    if InLockTable(pc) { TableMoveOthers(s, limits, tid, id, n, x); }
    else if Reading(pc) { ReadMoveOthers(s, limits, tid, id, n, x); }
    else if pc.Cleared? { StoreOthers(s, limits, tid, id, n, x); }
    else { LogOthers(s, limits, tid, id, n, x); }
  }

  lemma {:induction false} AddUsers(s: State, limits: map<Id, Limits>, tid: Tid, id: nat, n: State, u: Id)
    requires AddTurn(s, limits, tid, id) && n == GoAdd(s, limits, tid, id)
    requires u in limits && UserOk(s, limits[u], u)
    ensures UserOk(n, limits[u], u)
  {
    var pc := s.threads[tid].pc;
    if pc.Cleared? { StoreUsers(s, limits, tid, id, n, u); }
    else if pc.Stored? { LogUsers(s, limits, tid, id, n, u); }
    else { assert n.rows == s.rows && n.log == s.log; }
  }

  lemma {:induction false} AddKeeps(s: State, limits: map<Id, Limits>, tid: Tid, id: nat, n: State)
    requires Inv(s, limits) && AddTurn(s, limits, tid, id) && n == GoAdd(s, limits, tid, id)
    ensures Inv(n, limits)
  {
    AddOwn(s, limits, tid, id, n);
    forall x | x in s.threads ensures x in n.threads && ThreadOk(n, limits, x) {
      if x != tid {
        AddOthers(s, limits, tid, id, n, x);
        UndisturbedIsOk(s, n, limits, x);
      }
    }
    forall u | u in limits ensures UserOk(n, limits[u], u) { AddUsers(s, limits, tid, id, n, u); }
  }

  lemma {:induction false} ArrivalKeeps(s: State, limits: map<Id, Limits>, step: Step)
    requires Inv(s, limits) && Enabled(s, limits, step) && (step.Tick? || step.Begin?)
    ensures Inv(Next(s, limits, step), limits)
  {
    var n := Next(s, limits, step);
    forall x | x in n.threads ensures ThreadOk(n, limits, x) {
      if x in s.threads {
        assert ThreadOk(s, limits, x);
        assert Undisturbed(s, n, x);
        UndisturbedIsOk(s, n, limits, x);
      }
    }
    forall u | u in limits ensures UserOk(n, limits[u], u) { assert UserOk(s, limits[u], u); }
  }

  /**
   In every interleaving of adds, deletes, renames and early returns no user has more connections than
   the limit, and no window of `rateWindow` seconds holds more than `rateCount` logged creations.
   */
  lemma {:induction false} EveryInterleavingKeepsLimits(s: State, limits: map<Id, Limits>, steps: seq<Step>)
    requires Inv(s, limits) && Possible(s, limits, steps)
    ensures Inv(RunSteps(s, limits, steps), limits)
    decreases |steps|
  {
    if steps != [] {
      var rest, step := steps[..|steps| - 1], steps[|steps| - 1];
      assert forall i :: 0 <= i < |rest| ==> rest[..i] == steps[..i];
      EveryInterleavingKeepsLimits(s, limits, rest);
      var m := RunSteps(s, limits, rest);
      assert Enabled(m, limits, step);
      match step
      case Tick(_) => ArrivalKeeps(m, limits, step);
      case Begin(_, _, _) => ArrivalKeeps(m, limits, step);
      case Go(tid, id) =>
        assert ThreadOk(m, limits, tid);
        if m.threads[tid].request.AddConnection? {
          AddKeeps(m, limits, tid, id, Next(m, limits, step));
        } else {
          OtherKeeps(m, limits, tid, Next(m, limits, step));
        }
      case GiveUp(tid) => FinishKeeps(m, limits, tid, m.rows, Finish(m, tid));
    }
  }

  /** A panel with no requests under way, whose users are within their limits. */
  lemma {:induction false} IdlePanelIsOk(s: State, limits: map<Id, Limits>)
    requires s.threads == map[] && s.locks == map[] && s.rows.Keys <= s.issued
    requires forall u :: u in limits ==> UserOk(s, limits[u], u)
    ensures Inv(s, limits)
  {
  }

  /** In every run two requests that hold the mutex of the same user are one request. */
  lemma {:induction false} EveryInterleavingExcludes(s: State, limits: map<Id, Limits>, steps: seq<Step>, x: Tid, y: Tid)
    requires Inv(s, limits) && Possible(s, limits, steps)
    requires var n := RunSteps(s, limits, steps);
      && x in n.threads && y in n.threads && n.threads[x].user == n.threads[y].user
      && Holds(n.threads[x].pc).Some? && Holds(n.threads[y].pc).Some?
    ensures x == y
  {
    EveryInterleavingKeepsLimits(s, limits, steps);
    MutexExcludes(RunSteps(s, limits, steps), limits, x, y);
  }

  // ----- Every creation is logged -----

  ghost predicate Storing(s: State, user: Id) {
    exists x :: x in s.threads && s.threads[x].user == user && s.threads[x].pc.Stored?
  }

  /** The log has every creation of the user, but for one whose request is just between its two writes. */
  ghost predicate LogOk(s: State, user: Id) {
    |TimesOf(s.created, user)| == |TimesOf(s.log, user)| + if Storing(s, user) then 1 else 0
  }

  /** The log is complete, each entry is no earlier than its creation, and the creations keep the rate limit. */
  ghost predicate Recorded(s: State, l: Limits, user: Id) {
    var created, log := TimesOf(s.created, user), TimesOf(s.log, user);
    LogOk(s, user) && Behind(created, log) && UpTo(created, s.now) && Limited(created, l.rateWindow + 1, l.rateCount)
  }

  lemma {:induction false} StoringSame(s: State, n: State, tid: Tid, user: Id)
    requires OnlyMoved(s, n, tid) && s.threads[tid].pc.Stored? == n.threads[tid].pc.Stored?
    ensures Storing(n, user) == Storing(s, user)
  {
    if Storing(s, user) {
      var x :| x in s.threads && s.threads[x].user == user && s.threads[x].pc.Stored?;
      assert x in n.threads && n.threads[x].user == user && n.threads[x].pc.Stored?;
    }
    if Storing(n, user) {
      var x :| x in n.threads && n.threads[x].user == user && n.threads[x].pc.Stored?;
      assert x in s.threads && s.threads[x].user == user && s.threads[x].pc.Stored?;
    }
  }

  lemma {:induction false} QuietKeepsLog(s: State, n: State, tid: Tid, l: Limits, user: Id)
    requires Recorded(s, l, user) && OnlyMoved(s, n, tid) && n.created == s.created && n.log == s.log && n.now == s.now
    requires s.threads[tid].pc.Stored? == n.threads[tid].pc.Stored?
    ensures Recorded(n, l, user)
  {
    StoringSame(s, n, tid, user);
  }

  /** An idle panel whose log is the history of its creations. */
  lemma {:induction false} IdlePanelIsRecorded(s: State, l: Limits, user: Id)
    requires s.threads == map[] && s.created == s.log && UpTo(TimesOf(s.log, user), s.now) && UserOk(s, l, user)
    ensures Recorded(s, l, user)
  {
  }

  /** Between two writes a user has one request at most, so a write starts or ends it. */
  lemma {:induction false} OnlyOneStores(s: State, limits: map<Id, Limits>, tid: Tid, user: Id, n: State)
    requires ThreadsOk(s, limits) && OnlyMoved(s, n, tid) && Holds(s.threads[tid].pc).Some?
    requires s.threads[tid].user == user && s.threads[tid].pc.Stored? != n.threads[tid].pc.Stored?
    ensures Storing(s, user) == s.threads[tid].pc.Stored? && Storing(n, user) == n.threads[tid].pc.Stored?
  {
    forall x | x in s.threads && x != tid && s.threads[x].user == user ensures !s.threads[x].pc.Stored? {
      if s.threads[x].pc.Stored? { MutexExcludes(s, limits, x, tid); }
    }
  }

  lemma {:induction false} StoringElsewhere(s: State, n: State, tid: Tid, user: Id)
    requires OnlyMoved(s, n, tid) && s.threads[tid].user != user
    ensures Storing(n, user) == Storing(s, user)
  {
    if Storing(s, user) {
      var x :| x in s.threads && s.threads[x].user == user && s.threads[x].pc.Stored?;
      assert x in n.threads && n.threads[x] == s.threads[x];
    }
    if Storing(n, user) {
      var x :| x in n.threads && n.threads[x].user == user && n.threads[x].pc.Stored?;
      assert x in s.threads && n.threads[x] == s.threads[x];
    }
  }

  lemma {:induction false} StoreShape(s: State, limits: map<Id, Limits>, tid: Tid, id: nat, n: State)
    requires AddTurn(s, limits, tid, id) && s.threads[tid].pc.Cleared? && n == GoAdd(s, limits, tid, id)
    ensures n.created == s.created + [Entry(s.threads[tid].user, s.now)] && n.log == s.log && n.now == s.now
    ensures n.threads[tid].pc.Stored?
  {
  }

  lemma {:induction false} ClearedAdmits(s: State, limits: map<Id, Limits>, tid: Tid)
    requires ThreadsOk(s, limits) && tid in s.threads && s.threads[tid].user in limits && s.threads[tid].pc.Cleared?
    ensures var t := s.threads[tid];
      var l := limits[t.user];
      t.pc.at <= s.now && After(TimesOf(s.log, t.user), t.pc.at - (l.rateWindow + 1)) < l.rateCount
  {
    assert ThreadOk(s, limits, tid);
  }

  /** The user's own creation, given that no other was between its two writes. */
  lemma {:induction false} OwnRecords(s: State, n: State, l: Limits, user: Id, at: int)
    requires Recorded(s, l, user) && !Storing(s, user) && Storing(n, user)
    requires n.created == s.created + [Entry(user, s.now)] && n.log == s.log && n.now == s.now
    requires at <= s.now && After(TimesOf(s.log, user), at - (l.rateWindow + 1)) < l.rateCount
    ensures Recorded(n, l, user)
  {
    TimesLast(s.created, Entry(user, s.now), user);
    AdmitByRecords(TimesOf(s.created, user), TimesOf(s.log, user), at, s.now, l.rateWindow + 1, l.rateCount);
  }

  lemma {:induction false} OthersRecord(s: State, n: State, tid: Tid, l: Limits, user: Id)
    requires Recorded(s, l, user) && OnlyMoved(s, n, tid) && s.threads[tid].user != user
    requires n.created == s.created + [Entry(s.threads[tid].user, s.now)] && n.log == s.log && n.now == s.now
    ensures Recorded(n, l, user)
  {
    TimesLast(s.created, Entry(s.threads[tid].user, s.now), user);
    StoringElsewhere(s, n, tid, user);
  }

  /** A store by the user's own request. */
  lemma {:induction false} UserRecords(s: State, limits: map<Id, Limits>, tid: Tid, n: State, user: Id)
    requires ThreadsOk(s, limits) && OnlyMoved(s, n, tid) && s.threads[tid].user == user && user in limits
    requires s.threads[tid].pc.Cleared? && n.threads[tid].pc.Stored? && Recorded(s, limits[user], user)
    requires n.created == s.created + [Entry(user, s.now)] && n.log == s.log && n.now == s.now
    ensures Recorded(n, limits[user], user)
  {
    OnlyOneStores(s, limits, tid, user, n);
    ClearedAdmits(s, limits, tid);
    OwnRecords(s, n, limits[user], user, s.threads[tid].pc.at);
  }

  lemma {:induction false} StoreRecords(s: State, limits: map<Id, Limits>, tid: Tid, id: nat, n: State, user: Id)
    requires ThreadsOk(s, limits) && AddTurn(s, limits, tid, id) && n == GoAdd(s, limits, tid, id)
    requires s.threads[tid].pc.Cleared? && user in limits && Recorded(s, limits[user], user)
    ensures Recorded(n, limits[user], user)
  {
    StoreShape(s, limits, tid, id, n);
    if s.threads[tid].user == user {
      UserRecords(s, limits, tid, n, user);
    } else {
      OthersRecord(s, n, tid, limits[user], user);
    }
  }

  lemma {:induction false} LogRecords(s: State, limits: map<Id, Limits>, tid: Tid, id: nat, n: State, user: Id)
    requires ThreadsOk(s, limits) && AddTurn(s, limits, tid, id) && n == GoAdd(s, limits, tid, id)
    requires s.threads[tid].pc.Stored? && user in limits && Recorded(s, limits[user], user)
    ensures Recorded(n, limits[user], user)
  {
    var t := s.threads[tid];
    LogShape(s, limits, tid, id, n);
    TimesLast(s.log, Entry(t.user, s.now), user);
    if t.user == user {
      OnlyOneStores(s, limits, tid, user, n);
    } else {
      StoringElsewhere(s, n, tid, user);
    }
  }

  lemma {:induction false} QuietAddLogs(s: State, limits: map<Id, Limits>, tid: Tid, id: nat, n: State)
    requires AddTurn(s, limits, tid, id) && n == GoAdd(s, limits, tid, id)
    requires !s.threads[tid].pc.Cleared? && !s.threads[tid].pc.Stored?
    ensures n.created == s.created && n.log == s.log && n.now == s.now && !n.threads[tid].pc.Stored?
  {
  }

  lemma {:induction false} GoKeepsLog(s: State, limits: map<Id, Limits>, tid: Tid, id: nat, n: State, user: Id)
    requires ThreadsOk(s, limits) && AddTurn(s, limits, tid, id) && n == GoAdd(s, limits, tid, id)
    requires user in limits && Recorded(s, limits[user], user)
    ensures Recorded(n, limits[user], user)
  {
    if s.threads[tid].pc.Cleared? {
      StoreRecords(s, limits, tid, id, n, user);
    } else if s.threads[tid].pc.Stored? {
      LogRecords(s, limits, tid, id, n, user);
    } else {
      QuietAddLogs(s, limits, tid, id, n);
      QuietKeepsLog(s, n, tid, limits[user], user);
    }
  }

  lemma {:induction false} StepKeepsLog(s: State, limits: map<Id, Limits>, step: Step, n: State, user: Id)
    requires Inv(s, limits) && Enabled(s, limits, step) && n == Next(s, limits, step)
    requires user in limits && Recorded(s, limits[user], user)
    ensures Recorded(n, limits[user], user)
  {
    match step
    case Tick(_) => assert Storing(n, user) == Storing(s, user);
    case Begin(tid, _, _) => BeginKeepsLog(s, n, tid, limits[user], user);
    case GiveUp(tid) => QuietKeepsLog(s, n, tid, limits[user], user);
    case Go(tid, id) =>
      assert ThreadOk(s, limits, tid);
      if s.threads[tid].request.AddConnection? {
        GoKeepsLog(s, limits, tid, id, n, user);
      } else {
        OtherShape(s, tid, n);
        QuietKeepsLog(s, n, tid, limits[user], user);
      }
  }

  lemma {:induction false} BeginKeepsLog(s: State, n: State, tid: Tid, l: Limits, user: Id)
    requires Recorded(s, l, user) && tid !in s.threads
    requires exists t: Thread :: t.pc.Start? && n == s.(threads := s.threads[tid := t])
    ensures Recorded(n, l, user)
  {
    if Storing(s, user) {
      var x :| x in s.threads && s.threads[x].user == user && s.threads[x].pc.Stored?;
      assert x in n.threads && n.threads[x] == s.threads[x];
    }
  }

  /**
   In every interleaving every creation is logged, no earlier than it happened, and the limit holds for the
   creations themselves: no window of `rateWindow` seconds holds more than `rateCount` of them.
   */
  lemma {:induction false} EveryCreationIsLogged(s: State, limits: map<Id, Limits>, steps: seq<Step>, user: Id)
    requires Inv(s, limits) && Possible(s, limits, steps) && user in limits && Recorded(s, limits[user], user)
    ensures Recorded(RunSteps(s, limits, steps), limits[user], user)
    decreases |steps|
  {
    if steps != [] {
      var rest, step := steps[..|steps| - 1], steps[|steps| - 1];
      assert forall i :: 0 <= i < |rest| ==> rest[..i] == steps[..i];
      var m := RunSteps(s, limits, rest);
      assert Enabled(m, limits, step);
      EveryInterleavingKeepsLimits(s, limits, rest);
      EveryCreationIsLogged(s, limits, rest, user);
      StepKeepsLog(m, limits, step, Next(m, limits, step), user);
    }
  }
}
