/**
 What one self-service request comes to when nobody gets in its way: a connection
 is added, renamed or deleted exactly when the rules allow it
 (amnezia-web-ui-go/internal/handlers/connections.go).
 */
module SelfServiceOutcome {
  import opened Tables
  import opened SlidingWindow
  import opened SelfService

  /** The request goes on for `n` steps, with `id` as the fresh mutex or row where one is needed. */
  function GoOn(s: State, limits: map<Id, Limits>, tid: Tid, id: nat, n: nat): State {
    if n == 0 then s else Next(GoOn(s, limits, tid, id, n - 1), limits, Go(tid, id))
  }

  /** Each of the steps can be taken where it is taken. */
  ghost predicate CanGoOn(s: State, limits: map<Id, Limits>, tid: Tid, id: nat, n: nat) {
    forall k :: 0 <= k < n ==> Enabled(GoOn(s, limits, tid, id, k), limits, Go(tid, id))
  }

  lemma {:induction false} GoOnLater(s: State, limits: map<Id, Limits>, tid: Tid, id: nat, n: nat, m: nat)
    ensures GoOn(GoOn(s, limits, tid, id, n), limits, tid, id, m) == GoOn(s, limits, tid, id, n + m)
  {
    if m > 0 { GoOnLater(s, limits, tid, id, n, m - 1); }
  }

  lemma {:induction false} CanGoOnLater(s: State, limits: map<Id, Limits>, tid: Tid, id: nat, n: nat, m: nat)
    requires CanGoOn(s, limits, tid, id, n) && CanGoOn(GoOn(s, limits, tid, id, n), limits, tid, id, m)
    ensures CanGoOn(s, limits, tid, id, n + m)
  {
    forall k | 0 <= k < n + m ensures Enabled(GoOn(s, limits, tid, id, k), limits, Go(tid, id)) {
      if k >= n { GoOnLater(s, limits, tid, id, n, k - n); }
    }
  }

  // ----- The rules, on the tables -----

  function LoggedSince(log: seq<Entry>, user: Id, cutoff: int): set<nat> {
    set i: nat | i < |log| && Counts(log[i], user, cutoff)
  }

  /** The rate query counts the user's log entries from the cutoff on. */
  lemma {:induction false} RecentIsCount(log: seq<Entry>, user: Id, cutoff: int)
    ensures Recent(log, user, cutoff) == |LoggedSince(log, user, cutoff)|
  {
    if log == [] {
      assert LoggedSince(log, user, cutoff) == {};
    } else {
      var n := |log| - 1;
      RecentIsCount(log[..n], user, cutoff);
      RecentNext(log[..n], log[n], user, cutoff);
      assert log[..n] + [log[n]] == log;
      LoggedNext(log, n, user, cutoff);
    }
  }

  lemma {:induction false} RecentNext(log: seq<Entry>, e: Entry, user: Id, cutoff: int)
    ensures Recent(log + [e], user, cutoff) == Recent(log, user, cutoff) + if Counts(e, user, cutoff) then 1 else 0
  {
    assert (log + [e])[..|log|] == log;
    var times := TimesOf(log, user);
    assert (times + [e.time])[..|times|] == times;
  }

  predicate Counts(e: Entry, user: Id, cutoff: int) {
    e.user == user && e.time >= cutoff
  }

  lemma {:induction false} LoggedNext(log: seq<Entry>, n: nat, user: Id, cutoff: int)
    requires |log| == n + 1
    ensures |LoggedSince(log, user, cutoff)| == |LoggedSince(log[..n], user, cutoff)| + if Counts(log[n], user, cutoff) then 1 else 0
  {
    var front, all := LoggedSince(log[..n], user, cutoff), LoggedSince(log, user, cutoff);
    forall i: nat ensures i in all <==> i in front || (i == n && Counts(log[n], user, cutoff)) {
      if i < n { assert log[..n][i] == log[i]; }
    }
    assert all == front + if Counts(log[n], user, cutoff) then {n} else {};
  }

  function OwnRows(rows: Rows, user: Id): set<Id> {
    set c | c in rows && rows[c].user == user
  }

  lemma {:induction false} RowsOfCount(rows: Rows, user: Id)
    ensures |RowsOf(rows, user)| == |OwnRows(rows, user)|
  {
    assert RowsOf(rows, user).Keys == OwnRows(rows, user);
  }

  /** Some row of the user, other than `except`, has the name up to case. */
  ghost predicate NameInUse(rows: Rows, user: Id, except: Option<Id>, name: string) {
    exists c :: c in rows && rows[c].user == user && except != Some(c) && SameName(rows[c].name, name)
  }

  predicate SameName(a: string, b: string) {
    |a| == |b| && forall i :: 0 <= i < |a| ==> SameLetter(a[i], b[i])
  }

  lemma {:induction false} TakenIsInUse(rows: Rows, user: Id, name: string)
    ensures TakenName(RowsOf(rows, user), name) <==> NameInUse(rows, user, None, name)
  {
    forall c | c in rows { FoldIgnoresCase(rows[c].name, name); }
    if TakenName(RowsOf(rows, user), name) {
      var c :| c in RowsOf(rows, user) && Fold(RowsOf(rows, user)[c].name) == Fold(name);
      assert SameName(rows[c].name, name);
    }
    if NameInUse(rows, user, None, name) {
      var c :| c in rows && rows[c].user == user && SameName(rows[c].name, name);
      assert c in RowsOf(rows, user);
    }
  }

  lemma {:induction false} TakenByOthersIsInUse(rows: Rows, user: Id, d: Id, name: string)
    ensures TakenName(RowsOf(rows, user) - {d}, name) <==> NameInUse(rows, user, Some(d), name)
  {
    var others := RowsOf(rows, user) - {d};
    forall c | c in rows { FoldIgnoresCase(rows[c].name, name); }
    if TakenName(others, name) {
      var c :| c in others && Fold(others[c].name) == Fold(name);
      assert SameName(rows[c].name, name);
    }
    if NameInUse(rows, user, Some(d), name) {
      var c :| c in rows && rows[c].user == user && Some(d) != Some(c) && SameName(rows[c].name, name);
      assert c in others;
    }
  }

  /** What an add must find: room, fewer creations in the window than the rate allows, and a new name. */
  ghost predicate MayAdd(s: State, l: Limits, user: Id, name: string) {
    && |OwnRows(s.rows, user)| < l.maxConnections
    && |LoggedSince(s.log, user, s.now - l.rateWindow)| < l.rateCount
    && !NameInUse(s.rows, user, None, name)
  }

  // ----- Adding -----

  /** The request holds the user's mutex and goes through to its end. */
  ghost predicate Ended(s: State, n: State, tid: Tid, m: Mutex) {
    && tid in n.threads && n.threads[tid].pc == Done
    && n.tableHolder == s.tableHolder && n.locks == s.locks && n.holders == s.holders[m := None] && n.now == s.now
  }

  ghost predicate Added(s: State, n: State, user: Id, name: string, id: nat) {
    && n.rows == s.rows[id := Row(user, name)] && n.issued == s.issued + {id}
    && n.created == s.created + [Entry(user, s.now)] && n.log == s.log + [Entry(user, s.now)]
  }

  ghost predicate NothingChanged(s: State, n: State) {
    n.rows == s.rows && n.issued == s.issued && n.created == s.created && n.log == s.log
  }

  ghost predicate At(s: State, limits: map<Id, Limits>, tid: Tid, user: Id, request: Request, pc: Pc) {
    tid in s.threads && s.threads[tid] == Thread(user, request, pc) && user in limits
  }

  /** One step, and where it leads. */
  ghost predicate Goes(s: State, limits: map<Id, Limits>, tid: Tid, id: nat, n: State) {
    Enabled(s, limits, Go(tid, id)) && n == Next(s, limits, Go(tid, id))
  }

  lemma {:induction false} OneStep(s: State, limits: map<Id, Limits>, tid: Tid, id: nat, n: State)
    requires Goes(s, limits, tid, id, n)
    ensures GoOn(s, limits, tid, id, 1) == n && CanGoOn(s, limits, tid, id, 1)
  {
    assert GoOn(s, limits, tid, id, 0) == s;
  }

  lemma {:induction false} StepsThen(s: State, limits: map<Id, Limits>, tid: Tid, id: nat, a: nat, m: State, b: nat, n: State)
    requires CanGoOn(s, limits, tid, id, a) && m == GoOn(s, limits, tid, id, a)
    requires CanGoOn(m, limits, tid, id, b) && n == GoOn(m, limits, tid, id, b)
    ensures CanGoOn(s, limits, tid, id, a + b) && n == GoOn(s, limits, tid, id, a + b)
  {
    CanGoOnLater(s, limits, tid, id, a, b);
    GoOnLater(s, limits, tid, id, a, b);
  }

  lemma {:induction false} TwoSteps(s: State, limits: map<Id, Limits>, tid: Tid, id: nat, a: State, b: State)
    requires Goes(s, limits, tid, id, a) && Goes(a, limits, tid, id, b)
    ensures GoOn(s, limits, tid, id, 2) == b && CanGoOn(s, limits, tid, id, 2)
  {
    OneStep(s, limits, tid, id, a);
    OneStep(a, limits, tid, id, b);
    StepsThen(s, limits, tid, id, 1, a, 1, b);
  }

  lemma {:induction false} ThreeSteps(s: State, limits: map<Id, Limits>, tid: Tid, id: nat, a: State, b: State, c: State)
    requires Goes(s, limits, tid, id, a) && Goes(a, limits, tid, id, b) && Goes(b, limits, tid, id, c)
    ensures GoOn(s, limits, tid, id, 3) == c && CanGoOn(s, limits, tid, id, 3)
  {
    OneStep(s, limits, tid, id, a);
    TwoSteps(a, limits, tid, id, b, c);
    StepsThen(s, limits, tid, id, 1, a, 2, c);
  }

  /** The rules look at the tables and the clock alone. */
  ghost predicate SameTables(s: State, a: State) {
    a.rows == s.rows && a.issued == s.issued && a.created == s.created && a.log == s.log && a.now == s.now
  }

  lemma {:induction false} SameRules(s: State, a: State, l: Limits, user: Id, name: string)
    requires SameTables(s, a)
    ensures MayAdd(a, l, user, name) <==> MayAdd(s, l, user, name)
  {
  }

  lemma {:induction false} ChecksDecide(s: State, limits: map<Id, Limits>, tid: Tid, user: Id, name: string, m: Mutex, id: nat)
    requires At(s, limits, tid, user, AddConnection(name), Listed(m, RowsOf(s.rows, user)))
    ensures var n := Next(s, limits, Go(tid, id));
      if MayAdd(s, limits[user], user, name) then n == MoveTo(s, tid, Cleared(m, RowsOf(s.rows, user), s.now)) else n == Finish(s, tid)
  {
    RowsOfCount(s.rows, user);
    RecentIsCount(s.log, user, s.now - limits[user].rateWindow);
    TakenIsInUse(s.rows, user, name);
  }

  lemma {:induction false} ListedIsDecided(s: State, limits: map<Id, Limits>, tid: Tid, user: Id, name: string, m: Mutex, id: nat, a: State,
                                           b: State)
    requires At(s, limits, tid, user, AddConnection(name), Locked(m)) && a == MoveTo(s, tid, Listed(m, RowsOf(s.rows, user)))
    requires b == Next(a, limits, Go(tid, id))
    ensures if MayAdd(a, limits[user], user, name) then b == MoveTo(s, tid, Cleared(m, RowsOf(s.rows, user), s.now))
      else Ended(s, b, tid, m) && NothingChanged(s, b)
  {
    ChecksDecide(a, limits, tid, user, name, m, id);
  }

  /** The two checks under the mutex. */
  lemma {:induction false} LockedIsDecided(s: State, limits: map<Id, Limits>, tid: Tid, user: Id, name: string, m: Mutex, id: nat, n: State)
    requires At(s, limits, tid, user, AddConnection(name), Locked(m)) && n == GoOn(s, limits, tid, id, 2)
    ensures CanGoOn(s, limits, tid, id, 2)
    ensures if MayAdd(s, limits[user], user, name) then n == MoveTo(s, tid, Cleared(m, RowsOf(s.rows, user), s.now))
      else Ended(s, n, tid, m) && NothingChanged(s, n)
  {
    var a := MoveTo(s, tid, Listed(m, RowsOf(s.rows, user)));
    var b := Next(a, limits, Go(tid, id));
    assert Goes(s, limits, tid, id, a) && Goes(a, limits, tid, id, b);
    TwoSteps(s, limits, tid, id, a, b);
    SameRules(s, a, limits[user], user, name);
    ListedIsDecided(s, limits, tid, user, name, m, id, a, b);
  }

  /** The two writes, and the unlock. */
  lemma {:induction false} ClearedIsAdded(s: State, limits: map<Id, Limits>, tid: Tid, user: Id, name: string, m: Mutex, mine: Rows, at: int,
                                          id: nat, n: State)
    requires At(s, limits, tid, user, AddConnection(name), Cleared(m, mine, at)) && id !in s.issued && n == GoOn(s, limits, tid, id, 3)
    ensures CanGoOn(s, limits, tid, id, 3) && Ended(s, n, tid, m) && Added(s, n, user, name, id)
  {
    var a := Next(s, limits, Go(tid, id));
    var b := Next(a, limits, Go(tid, id));
    var c := Next(b, limits, Go(tid, id));
    ThreeSteps(s, limits, tid, id, a, b, c);
  }

  /** How many steps an add takes once it has its mutex. */
  ghost function StepsLeft(s: State, l: Limits, user: Id, name: string): nat {
    if MayAdd(s, l, user, name) then 5 else 2
  }

  /** An add that holds its user's mutex adds the connection exactly when it may. */
  lemma {:induction false} LockedAddEnds(s: State, limits: map<Id, Limits>, tid: Tid, user: Id, name: string, m: Mutex, id: nat, n: State)
    requires At(s, limits, tid, user, AddConnection(name), Locked(m)) && id !in s.issued
    requires n == GoOn(s, limits, tid, id, StepsLeft(s, limits[user], user, name))
    ensures CanGoOn(s, limits, tid, id, StepsLeft(s, limits[user], user, name)) && Ended(s, n, tid, m)
    ensures if MayAdd(s, limits[user], user, name) then Added(s, n, user, name, id) else NothingChanged(s, n)
  {
    var b := GoOn(s, limits, tid, id, 2);
    LockedIsDecided(s, limits, tid, user, name, m, id, b);
    if MayAdd(s, limits[user], user, name) {
      GoOnLater(s, limits, tid, id, 2, 3);
      ClearedIsAdded(b, limits, tid, user, name, m, RowsOf(s.rows, user), s.now, id, n);
      StepsThen(s, limits, tid, id, 2, b, 3, n);
    }
  }

  /** Nobody is in the lock table, and nobody holds the user's mutex. */
  ghost predicate MutexIsFree(s: State, user: Id, id: nat) {
    && s.tableHolder.None?
    && (user in s.locks ==> s.locks[user] in s.holders && s.holders[s.locks[user]].None?)
    && (user !in s.locks ==> id !in s.holders)
  }

  function MutexOf(s: State, user: Id, id: nat): Mutex {
    if user in s.locks then s.locks[user] else id
  }

  /** The state with the mutex, made if need be, in the hands of the request. */
  function WithMutex(s: State, tid: Tid, user: Id, id: nat): State
    requires tid in s.threads
  {
    var m := MutexOf(s, user, id);
    MoveTo(s, tid, Locked(m)).(locks := s.locks[user := m], holders := s.holders[m := Some(tid)], tableHolder := None)
  }

  function StepsToLock(s: State, user: Id): nat {
    if user in s.locks then 4 else 5
  }

  lemma {:induction false} KnownMutexIsTaken(s: State, limits: map<Id, Limits>, tid: Tid, user: Id, name: string, id: nat)
    requires At(s, limits, tid, user, AddConnection(name), Start) && MutexIsFree(s, user, id) && user in s.locks
    ensures CanGoOn(s, limits, tid, id, 4) && GoOn(s, limits, tid, id, 4) == WithMutex(s, tid, user, id)
  {
    var m := s.locks[user];
    var a := MoveTo(s, tid, InTable).(tableHolder := Some(tid));
    var b := MoveTo(s, tid, Found(m)).(tableHolder := Some(tid));
    var c := MoveTo(s, tid, Waiting(m));
    assert Goes(s, limits, tid, id, a) && Goes(a, limits, tid, id, b) && Goes(b, limits, tid, id, c);
    assert s.locks[user := m] == s.locks;
    assert Goes(c, limits, tid, id, WithMutex(s, tid, user, id));
    TwoSteps(s, limits, tid, id, a, b);
    TwoSteps(b, limits, tid, id, c, WithMutex(s, tid, user, id));
    StepsThen(s, limits, tid, id, 2, b, 2, WithMutex(s, tid, user, id));
  }

  lemma {:induction false} NewMutexIsMade(s: State, limits: map<Id, Limits>, tid: Tid, user: Id, name: string, id: nat, c: State)
    requires At(s, limits, tid, user, AddConnection(name), Start) && MutexIsFree(s, user, id) && user !in s.locks
    requires c == MoveTo(s, tid, Found(id)).(tableHolder := Some(tid), locks := s.locks[user := id], holders := s.holders[id := None])
    ensures CanGoOn(s, limits, tid, id, 3) && GoOn(s, limits, tid, id, 3) == c
  {
    var a := MoveTo(s, tid, InTable).(tableHolder := Some(tid));
    var b := MoveTo(s, tid, Missing).(tableHolder := Some(tid));
    assert Goes(s, limits, tid, id, a) && Goes(a, limits, tid, id, b);
    assert Goes(b, limits, tid, id, c);
    ThreeSteps(s, limits, tid, id, a, b, c);
  }

  lemma {:induction false} NewMutexIsTaken(s: State, limits: map<Id, Limits>, tid: Tid, user: Id, name: string, id: nat)
    requires At(s, limits, tid, user, AddConnection(name), Start) && MutexIsFree(s, user, id) && user !in s.locks
    ensures CanGoOn(s, limits, tid, id, 5) && GoOn(s, limits, tid, id, 5) == WithMutex(s, tid, user, id)
  {
    var locks, holders := s.locks[user := id], s.holders[id := None];
    var c := MoveTo(s, tid, Found(id)).(tableHolder := Some(tid), locks := locks, holders := holders);
    var d := MoveTo(s, tid, Waiting(id)).(locks := locks, holders := holders);
    NewMutexIsMade(s, limits, tid, user, name, id, c);
    assert Goes(c, limits, tid, id, d);
    assert holders[id := Some(tid)] == s.holders[id := Some(tid)];
    assert Goes(d, limits, tid, id, WithMutex(s, tid, user, id));
    TwoSteps(c, limits, tid, id, d, WithMutex(s, tid, user, id));
    StepsThen(s, limits, tid, id, 3, c, 2, WithMutex(s, tid, user, id));
  }

  lemma {:induction false} MutexIsTaken(s: State, limits: map<Id, Limits>, tid: Tid, user: Id, name: string, id: nat, k: nat, a: State)
    requires At(s, limits, tid, user, AddConnection(name), Start) && MutexIsFree(s, user, id)
    requires k == StepsToLock(s, user) && a == WithMutex(s, tid, user, id)
    ensures CanGoOn(s, limits, tid, id, k) && GoOn(s, limits, tid, id, k) == a && SameTables(s, a)
    ensures At(a, limits, tid, user, AddConnection(name), Locked(MutexOf(s, user, id))) && a.tableHolder.None?
  {
    if user in s.locks { KnownMutexIsTaken(s, limits, tid, user, name, id); } else { NewMutexIsTaken(s, limits, tid, user, name, id); }
  }

  lemma {:induction false} OutcomeFromTables(s: State, a: State, n: State, l: Limits, user: Id, name: string, id: nat)
    requires SameTables(s, a)
    requires if MayAdd(a, l, user, name) then Added(a, n, user, name, id) else NothingChanged(a, n)
    ensures if MayAdd(s, l, user, name) then Added(s, n, user, name, id) else NothingChanged(s, n)
  {
    SameRules(s, a, l, user, name);
  }

  /**
   An add that nobody gets in the way of always comes to its end, and gives the mutex back: with the connection stored and logged
   exactly when the user has room, the rate allows it and the name is new up to case; else with nothing changed.
   */
  lemma {:induction false} LoneAddEnds(s: State, limits: map<Id, Limits>, tid: Tid, user: Id, name: string, id: nat, k: nat, left: nat, n: State)
    requires At(s, limits, tid, user, AddConnection(name), Start) && MutexIsFree(s, user, id) && id !in s.issued
    requires k == StepsToLock(s, user) && left == StepsLeft(s, limits[user], user, name) && n == GoOn(s, limits, tid, id, k + left)
    ensures CanGoOn(s, limits, tid, id, k + left)
    ensures tid in n.threads && n.threads[tid].pc == Done && n.tableHolder.None?
    ensures MutexOf(s, user, id) in n.holders && n.holders[MutexOf(s, user, id)].None?
    ensures if MayAdd(s, limits[user], user, name) then Added(s, n, user, name, id) else NothingChanged(s, n)
  {
    var a := WithMutex(s, tid, user, id);
    MutexIsTaken(s, limits, tid, user, name, id, k, a);
    SameRules(s, a, limits[user], user, name);
    GoOnLater(s, limits, tid, id, k, left);
    LockedAddEnds(a, limits, tid, user, name, MutexOf(s, user, id), id, n);
    OutcomeFromTables(s, a, n, limits[user], user, name, id);
    StepsThen(s, limits, tid, id, k, a, left, n);
  }

  // ----- Deleting and renaming -----

  predicate Owns(s: State, user: Id, c: Id) {
    c in s.rows && s.rows[c].user == user
  }

  /** A delete removes the connection exactly when it is the user's own, and nothing else in any case. */
  lemma {:induction false} LoneDeleteEnds(s: State, limits: map<Id, Limits>, tid: Tid, user: Id, c: Id, steps: nat, n: State)
    requires At(s, limits, tid, user, DeleteConnection(c), Start)
    requires steps == (if Owns(s, user, c) then 2 else 1) && n == GoOn(s, limits, tid, 0, steps)
    ensures CanGoOn(s, limits, tid, 0, steps) && tid in n.threads && n.threads[tid].pc == Done
    ensures n.rows == if Owns(s, user, c) then s.rows - {c} else s.rows
    ensures n.log == s.log && n.created == s.created && n.issued == s.issued
  {
    var a := Next(s, limits, Go(tid, 0));
    assert Goes(s, limits, tid, 0, a);
    if Owns(s, user, c) {
      var b := Next(a, limits, Go(tid, 0));
      assert Goes(a, limits, tid, 0, b);
      TwoSteps(s, limits, tid, 0, a, b);
    } else {
      OneStep(s, limits, tid, 0, a);
    }
  }

  /** What a rename must find: the user's own connection, and no other one of that name. */
  ghost predicate MayRename(s: State, user: Id, c: Id, name: string) {
    Owns(s, user, c) && !NameInUse(s.rows, user, Some(c), name)
  }

  /** How many steps a rename takes. */
  ghost function RenameSteps(s: State, user: Id, c: Id, name: string): nat {
    if !Owns(s, user, c) then 1 else if NameInUse(s.rows, user, Some(c), name) then 2 else 3
  }

  /** An owned connection is renamed by the comparison and the write. */
  lemma {:induction false} OwnedIsRenamed(a: State, limits: map<Id, Limits>, tid: Tid, user: Id, c: Id, name: string, b: State, d: State)
    requires At(a, limits, tid, user, RenameConnection(c, name), Owned) && Owns(a, user, c)
    requires b == Next(a, limits, Go(tid, 0)) && d == Next(b, limits, Go(tid, 0))
    ensures Goes(a, limits, tid, 0, b) && SameTables(a, b)
    ensures if NameInUse(a.rows, user, Some(c), name) then b.threads[tid].pc == Done
      else Goes(b, limits, tid, 0, d) && d.threads[tid].pc == Done && SameTables(a, d.(rows := a.rows)) && d.rows == a.rows[c := Row(user, name)]
  {
    TakenByOthersIsInUse(a.rows, user, c, name);
  }

  /** A rename that nobody gets in the way of writes the name exactly when it may, and nothing else in any case. */
  lemma {:induction false} LoneRenameEnds(s: State, limits: map<Id, Limits>, tid: Tid, user: Id, c: Id, name: string, steps: nat, n: State)
    requires At(s, limits, tid, user, RenameConnection(c, name), Start)
    requires steps == RenameSteps(s, user, c, name) && n == GoOn(s, limits, tid, 0, steps)
    ensures CanGoOn(s, limits, tid, 0, steps) && tid in n.threads && n.threads[tid].pc == Done
    ensures n.rows == if MayRename(s, user, c, name) then s.rows[c := Row(user, name)] else s.rows
    ensures n.log == s.log && n.created == s.created && n.issued == s.issued
  {
    var a := Next(s, limits, Go(tid, 0));
    assert Goes(s, limits, tid, 0, a);
    OneStep(s, limits, tid, 0, a);
    if Owns(s, user, c) {
      assert a == MoveTo(s, tid, Owned);
      var b := Next(a, limits, Go(tid, 0));
      var d := Next(b, limits, Go(tid, 0));
      OwnedIsRenamed(a, limits, tid, user, c, name, b, d);
      TwoSteps(s, limits, tid, 0, a, b);
      if !NameInUse(s.rows, user, Some(c), name) { ThreeSteps(s, limits, tid, 0, a, b, d); }
    }
  }
}
