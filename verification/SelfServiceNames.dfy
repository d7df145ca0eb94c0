/**
 The names of self-service connections. Adds hold the user's mutex, deletes only
 remove rows, and renames check and write without any lock: when names stay
 distinct, and how renames break them
 (amnezia-web-ui-go/internal/handlers/connections.go).
 */
module SelfServiceNames {
  import opened Tables
  import opened SelfService

  ghost predicate DistinctNames(rows: Rows) {
    forall c, d :: c in rows && d in rows && c != d && rows[c].user == rows[d].user ==>
      Fold(rows[c].name) != Fold(rows[d].name)
  }

  /** What an add has read of its user's rows is still what they say, and a cleared name is not among them. */
  ghost predicate NameOk(rows: Rows, t: Thread) {
    && (t.pc.Listed? || t.pc.Cleared? ==>
          forall c :: c in rows && rows[c].user == t.user ==> c in t.pc.mine && t.pc.mine[c] == rows[c])
    && (t.pc.Cleared? && t.request.AddConnection? ==> !TakenName(t.pc.mine, t.request.name))
  }

  ghost predicate NamesInv(s: State) {
    DistinctNames(s.rows) && forall x :: x in s.threads ==> NameOk(s.rows, s.threads[x])
  }

  ghost predicate RenameFree(s: State) {
    forall x :: x in s.threads ==> !s.threads[x].request.RenameConnection?
  }

  ghost predicate SubRows(before: Rows, after: Rows) {
    forall c :: c in after ==> c in before && after[c] == before[c]
  }

  /** Removing rows, with at most one request moving on, keeps the names distinct. */
  lemma {:induction false} QuietKeepsNames(s: State, n: State, tid: Tid)
    requires NamesInv(s) && SubRows(s.rows, n.rows)
    requires forall x :: x in n.threads && x != tid ==> x in s.threads && n.threads[x] == s.threads[x]
    requires tid in n.threads ==> NameOk(n.rows, n.threads[tid])
    ensures NamesInv(n)
  {
    forall x | x in n.threads ensures NameOk(n.rows, n.threads[x]) {
      if x != tid { assert NameOk(s.rows, s.threads[x]); }
    }
  }

  lemma {:induction false} StoredRow(s: State, limits: map<Id, Limits>, tid: Tid, id: nat, n: State)
    requires AddTurn(s, limits, tid, id) && s.threads[tid].pc.Cleared? && n == GoAdd(s, limits, tid, id)
    ensures id !in s.rows && n.rows == s.rows[id := Row(s.threads[tid].user, s.threads[tid].request.name)]
    ensures n.threads[tid].pc.Stored?
  {
  }

  lemma {:induction false} OthersNameOk(s: State, limits: map<Id, Limits>, tid: Tid, id: nat, row: Row, x: Tid)
    requires ThreadsOk(s, limits) && tid in s.threads && x in s.threads && x != tid
    requires Holds(s.threads[tid].pc).Some? && row.user == s.threads[tid].user && NameOk(s.rows, s.threads[x])
    ensures NameOk(s.rows[id := row], s.threads[x])
  {
    if Holds(s.threads[x].pc).Some? && s.threads[x].user == row.user { MutexExcludes(s, limits, x, tid); }
    StoredElsewhere(s.rows, id, row, s.threads[x]);
  }

  lemma {:induction false} StoreKeepsNames(s: State, limits: map<Id, Limits>, tid: Tid, id: nat, n: State)
    requires ThreadsOk(s, limits) && NamesInv(s)
    requires AddTurn(s, limits, tid, id) && s.threads[tid].pc.Cleared? && n == GoAdd(s, limits, tid, id)
    ensures NamesInv(n)
  {
    var t := s.threads[tid];
    var row := Row(t.user, t.request.name);
    StoredRow(s, limits, tid, id, n);
    assert NameOk(s.rows, t);
    StoredNameIsNew(s.rows, t.pc.mine, id, row);
    forall x | x in n.threads ensures NameOk(n.rows, n.threads[x]) {
      if x != tid { OthersNameOk(s, limits, tid, id, row, x); }
    }
  }

  lemma {:induction false} StoredElsewhere(rows: Rows, id: Id, row: Row, t: Thread)
    requires NameOk(rows, t) && (Holds(t.pc).Some? ==> t.user != row.user)
    ensures NameOk(rows[id := row], t)
  {
  }

  lemma {:induction false} StoredNameIsNew(rows: Rows, mine: Rows, id: Id, row: Row)
    requires DistinctNames(rows) && id !in rows && !TakenName(mine, row.name)
    requires forall c :: c in rows && rows[c].user == row.user ==> c in mine && mine[c] == rows[c]
    ensures DistinctNames(rows[id := row])
  {
  }

  lemma {:induction false} AddKeepsNames(s: State, limits: map<Id, Limits>, tid: Tid, id: nat, n: State)
    requires Inv(s, limits) && NamesInv(s) && AddTurn(s, limits, tid, id) && n == GoAdd(s, limits, tid, id)
    ensures NamesInv(n)
  {
    if s.threads[tid].pc.Cleared? {
      StoreKeepsNames(s, limits, tid, id, n);
    } else {
      AddNameOk(s, limits, tid, id, n);
      QuietKeepsNames(s, n, tid);
    }
  }

  lemma {:induction false} AddNameOk(s: State, limits: map<Id, Limits>, tid: Tid, id: nat, n: State)
    requires AddTurn(s, limits, tid, id) && !s.threads[tid].pc.Cleared? && n == GoAdd(s, limits, tid, id)
    requires NameOk(s.rows, s.threads[tid])
    ensures n.rows == s.rows && NameOk(n.rows, n.threads[tid])
  {
  }

  lemma {:induction false} DeleteShape(s: State, tid: Tid, n: State)
    requires tid in s.threads && s.threads[tid].request.DeleteConnection? && n == GoOther(s, tid)
    ensures SubRows(s.rows, n.rows)
    ensures n.threads[tid].pc.Owned? || n.threads[tid].pc.Done?
  {
  }

  lemma {:induction false} DeleteKeepsNames(s: State, tid: Tid, n: State)
    requires NamesInv(s) && tid in s.threads && s.threads[tid].request.DeleteConnection? && n == GoOther(s, tid)
    ensures NamesInv(n)
  {
    DeleteShape(s, tid, n);
    QuietKeepsNames(s, n, tid);
  }

  lemma {:induction false} StepKeepsNames(s: State, limits: map<Id, Limits>, step: Step)
    requires Inv(s, limits) && NamesInv(s) && RenameFree(s) && Enabled(s, limits, step)
    ensures NamesInv(Next(s, limits, step))
  {
    var n := Next(s, limits, step);
    match step
    case Tick(_) =>
    case Begin(tid, _, _) => QuietKeepsNames(s, n, tid);
    case GiveUp(tid) => QuietKeepsNames(s, n, tid);
    case Go(tid, id) =>
      assert ThreadOk(s, limits, tid);
      if s.threads[tid].request.AddConnection? {
        AddKeepsNames(s, limits, tid, id, n);
      } else {
        DeleteKeepsNames(s, tid, n);
      }
  }

  lemma {:induction false} SameRequest(s: State, limits: map<Id, Limits>, step: Step, n: State, x: Tid)
    requires Enabled(s, limits, step) && n == Next(s, limits, step)
    requires x in s.threads
    ensures x in n.threads && n.threads[x].request == s.threads[x].request
  {
  }

  /** Requests are never forgotten, so a run that ends without renames never had one. */
  lemma {:induction false} RenameFreeBefore(s: State, limits: map<Id, Limits>, step: Step, n: State)
    requires Enabled(s, limits, step) && n == Next(s, limits, step) && RenameFree(n)
    ensures RenameFree(s)
  {
    forall x | x in s.threads ensures !s.threads[x].request.RenameConnection? {
      SameRequest(s, limits, step, n, x);
    }
  }

  /** In every interleaving of adds and deletes a user's names stay distinct, ignoring case. */
  lemma {:induction false} EveryInterleavingKeepsNames(s: State, limits: map<Id, Limits>, steps: seq<Step>)
    requires Inv(s, limits) && NamesInv(s) && Possible(s, limits, steps)
    requires RenameFree(RunSteps(s, limits, steps))
    ensures NamesInv(RunSteps(s, limits, steps))
    decreases |steps|
  {
    if steps != [] {
      var rest, step := steps[..|steps| - 1], steps[|steps| - 1];
      assert forall i :: 0 <= i < |rest| ==> rest[..i] == steps[..i];
      var m := RunSteps(s, limits, rest);
      assert Enabled(m, limits, step);
      RenameFreeBefore(m, limits, step, Next(m, limits, step));
      EveryInterleavingKeepsLimits(s, limits, rest);
      EveryInterleavingKeepsNames(s, limits, rest);
      StepKeepsNames(m, limits, step);
    }
  }

  /** A rename writes what it compared earlier: names stay distinct exactly when the new name is still free. */
  lemma {:induction false} RenameKeepsNamesIff(s: State, tid: Tid)
    requires tid in s.threads && s.threads[tid].request.RenameConnection? && s.threads[tid].pc.Compared?
    requires DistinctNames(s.rows)
    requires var c := s.threads[tid].request.conn; c in s.rows && s.rows[c].user == s.threads[tid].user
    ensures var t := s.threads[tid];
      DistinctNames(GoOther(s, tid).rows) <==> !TakenName(RowsOf(s.rows, t.user) - {t.request.conn}, t.request.newName)
  {
    var t := s.threads[tid];
    var c, after := t.request.conn, GoOther(s, tid).rows;
    assert after == s.rows[c := Row(t.user, t.request.newName)];
    var others := RowsOf(s.rows, t.user) - {c};
    if TakenName(others, t.request.newName) {
      var d :| d in others && Fold(others[d].name) == Fold(t.request.newName);
      assert d != c && after[d] == s.rows[d] == others[d] && after[c].name == t.request.newName;
      assert after[d].user == after[c].user;
    } else {
      forall d | d in s.rows && d != c && s.rows[d].user == t.user
        ensures Fold(s.rows[d].name) != Fold(t.request.newName)
      {
        assert d in others && others[d] == s.rows[d];
      }
    }
  }

  // ----- Exactly when names stay distinct, with renames -----

  /** A step that writes a name finds it absent from the user's other rows at that moment. */
  ghost predicate WriteFree(s: State, step: Step) {
    step.Go? && step.tid in s.threads ==>
      var t := s.threads[step.tid];
      && (t.pc.Cleared? && t.request.AddConnection? ==> !TakenName(RowsOf(s.rows, t.user), t.request.name))
      && (t.pc.Compared? && t.request.RenameConnection? && t.request.conn in s.rows ==>
            !TakenName(RowsOf(s.rows, t.user) - {t.request.conn}, t.request.newName))
  }

  /** An add's store keeps names distinct exactly when its name is still free. */
  lemma {:induction false} StoreKeepsNamesIff(rows: Rows, id: Id, row: Row)
    requires DistinctNames(rows) && id !in rows
    ensures DistinctNames(rows[id := row]) <==> !TakenName(RowsOf(rows, row.user), row.name)
  {
    var mine, after := RowsOf(rows, row.user), rows[id := row];
    if TakenName(mine, row.name) {
      var d :| d in mine && Fold(mine[d].name) == Fold(row.name);
      assert d != id && after[d] == mine[d] && after[id] == row;
    } else {
      StoredNameIsNew(rows, mine, id, row);
    }
  }

  lemma {:induction false} AddNamesIff(s: State, limits: map<Id, Limits>, tid: Tid, id: nat, n: State)
    requires AddTurn(s, limits, tid, id) && n == GoAdd(s, limits, tid, id) && DistinctNames(s.rows)
    ensures DistinctNames(n.rows) <==> WriteFree(s, Go(tid, id))
  {
    var t := s.threads[tid];
    if t.pc.Cleared? {
      StoreKeepsNamesIff(s.rows, id, Row(t.user, t.request.name));
    } else {
      AddKeepsRows(s, limits, tid, id, n);
    }
  }

  lemma {:induction false} AddKeepsRows(s: State, limits: map<Id, Limits>, tid: Tid, id: nat, n: State)
    requires AddTurn(s, limits, tid, id) && !s.threads[tid].pc.Cleared? && n == GoAdd(s, limits, tid, id)
    ensures n.rows == s.rows
  {
  }

  lemma {:induction false} OtherNamesIff(s: State, limits: map<Id, Limits>, tid: Tid, id: nat, n: State)
    requires tid in s.threads && ThreadOk(s, limits, tid) && !s.threads[tid].request.AddConnection?
    requires n == GoOther(s, tid) && DistinctNames(s.rows)
    ensures DistinctNames(n.rows) <==> WriteFree(s, Go(tid, id))
  {
    var t := s.threads[tid];
    if t.request.RenameConnection? && t.pc.Compared? && t.request.conn in s.rows {
      RenameKeepsNamesIff(s, tid);
    } else {
      OtherOnlyDeletes(s, tid, n);
    }
  }

  lemma {:induction false} OtherOnlyDeletes(s: State, tid: Tid, n: State)
    requires tid in s.threads && !s.threads[tid].request.AddConnection? && n == GoOther(s, tid)
    requires !(s.threads[tid].request.RenameConnection? && s.threads[tid].pc.Compared? && s.threads[tid].request.conn in s.rows)
    ensures SubRows(s.rows, n.rows)
  {
  }

  lemma {:induction false} StepNamesIff(s: State, limits: map<Id, Limits>, step: Step, n: State)
    requires Inv(s, limits) && Enabled(s, limits, step) && n == Next(s, limits, step) && DistinctNames(s.rows)
    ensures DistinctNames(n.rows) <==> WriteFree(s, step)
  {
    if step.Go? {
      assert ThreadOk(s, limits, step.tid);
      if s.threads[step.tid].request.AddConnection? {
        AddNamesIff(s, limits, step.tid, step.id, n);
      } else {
        OtherNamesIff(s, limits, step.tid, step.id, n);
      }
    }
  }

  ghost predicate DistinctAt(s: State, limits: map<Id, Limits>, steps: seq<Step>, i: nat)
    requires i <= |steps|
  {
    DistinctNames(RunSteps(s, limits, steps[..i]).rows)
  }

  ghost predicate FreeAt(s: State, limits: map<Id, Limits>, steps: seq<Step>, i: nat)
    requires i < |steps|
  {
    WriteFree(RunSteps(s, limits, steps[..i]), steps[i])
  }

  lemma {:induction false} RunMore(s: State, limits: map<Id, Limits>, steps: seq<Step>, k: nat)
    requires k < |steps|
    ensures RunSteps(s, limits, steps[..k + 1]) == Next(RunSteps(s, limits, steps[..k]), limits, steps[k])
  {
    assert steps[..k + 1][..k] == steps[..k];
  }

  lemma {:induction false} PossiblePrefix(s: State, limits: map<Id, Limits>, steps: seq<Step>, k: nat)
    requires Possible(s, limits, steps) && k <= |steps|
    ensures Possible(s, limits, steps[..k])
  {
    assert forall i :: 0 <= i < k ==> steps[..k][..i] == steps[..i];
  }

  /** One more step of a run whose names are distinct so far. */
  lemma {:induction false} NextNamesIff(s: State, limits: map<Id, Limits>, steps: seq<Step>, k: nat)
    requires Inv(s, limits) && Possible(s, limits, steps) && k < |steps| && DistinctAt(s, limits, steps, k)
    ensures DistinctAt(s, limits, steps, k + 1) <==> FreeAt(s, limits, steps, k)
  {
    PossiblePrefix(s, limits, steps, k);
    EveryInterleavingKeepsLimits(s, limits, steps[..k]);
    var m := RunSteps(s, limits, steps[..k]);
    assert Enabled(m, limits, steps[k]);
    RunMore(s, limits, steps, k);
    StepNamesIff(m, limits, steps[k], Next(m, limits, steps[k]));
  }

  lemma {:induction false} FreeWritesKeepNames(s: State, limits: map<Id, Limits>, steps: seq<Step>, n: nat)
    requires Inv(s, limits) && DistinctNames(s.rows) && Possible(s, limits, steps) && n <= |steps|
    requires forall i :: 0 <= i < n ==> FreeAt(s, limits, steps, i)
    ensures DistinctAt(s, limits, steps, n)
  {
    if n == 0 {
      assert steps[..0] == [];
    } else {
      FreeWritesKeepNames(s, limits, steps, n - 1);
      NextNamesIff(s, limits, steps, n - 1);
    }
  }

  /** Names are distinct at every point of the run. */
  ghost predicate AlwaysDistinct(s: State, limits: map<Id, Limits>, steps: seq<Step>) {
    forall i :: 0 <= i <= |steps| ==> DistinctAt(s, limits, steps, i)
  }

  /** Every step of the run that writes a name finds it free. */
  ghost predicate AlwaysFree(s: State, limits: map<Id, Limits>, steps: seq<Step>) {
    forall i :: 0 <= i < |steps| ==> FreeAt(s, limits, steps, i)
  }

  /**
   In every run of adds, deletes and renames: names are distinct all along exactly when every step that
   writes a name finds it free in the user's other rows.
   */
  lemma {:induction false} NamesStayDistinctIff(s: State, limits: map<Id, Limits>, steps: seq<Step>)
    requires Inv(s, limits) && DistinctNames(s.rows) && Possible(s, limits, steps)
    ensures AlwaysDistinct(s, limits, steps) <==> AlwaysFree(s, limits, steps)
  {
    if AlwaysFree(s, limits, steps) {
      forall i | 0 <= i <= |steps| ensures DistinctAt(s, limits, steps, i) { FreeWritesKeepNames(s, limits, steps, i); }
    } else if AlwaysDistinct(s, limits, steps) {
      forall i | 0 <= i < |steps| ensures FreeAt(s, limits, steps, i) {
        assert DistinctAt(s, limits, steps, i) && DistinctAt(s, limits, steps, i + 1);
        NextNamesIff(s, limits, steps, i);
      }
    }
  }

  // ----- Renames race -----

  function TwoRenames(s: State, a: Tid, b: Tid, user: Id, c: Id, d: Id, name: string, pa: Pc, pb: Pc): State {
    s.(threads := s.threads[a := Thread(user, RenameConnection(c, name), pa)]
                           [b := Thread(user, RenameConnection(d, name), pb)])
  }

  /** Two of the user's rows, a free name, and two request ids that are not in use. */
  ghost predicate CanCollide(s: State, limits: map<Id, Limits>, a: Tid, b: Tid, user: Id, c: Id, d: Id, name: string) {
    && a !in s.threads && b !in s.threads && a != b && user in limits
    && c in s.rows && d in s.rows && c != d && s.rows[c].user == user && s.rows[d].user == user
    && !TakenName(RowsOf(s.rows, user), name)
  }

  lemma {:induction false} FreeWithout(rows: Rows, c: Id, name: string)
    requires !TakenName(rows, name)
    ensures !TakenName(rows - {c}, name)
  {
  }

  lemma {:induction false} BothOwn(s: State, limits: map<Id, Limits>, a: Tid, b: Tid, user: Id, c: Id, d: Id, name: string)
    requires CanCollide(s, limits, a, b, user, c, d, name)
    ensures GoOther(TwoRenames(s, a, b, user, c, d, name, Start, Start), a)
      == TwoRenames(s, a, b, user, c, d, name, Owned, Start)
    ensures GoOther(TwoRenames(s, a, b, user, c, d, name, Owned, Start), b)
      == TwoRenames(s, a, b, user, c, d, name, Owned, Owned)
  {
    assert s.threads[a := Thread(user, RenameConnection(c, name), Start)][b := Thread(user, RenameConnection(d, name), Start)]
      [a := Thread(user, RenameConnection(c, name), Owned)]
      == s.threads[a := Thread(user, RenameConnection(c, name), Owned)][b := Thread(user, RenameConnection(d, name), Start)];
  }

  lemma {:induction false} BothCompare(s: State, limits: map<Id, Limits>, a: Tid, b: Tid, user: Id, c: Id, d: Id, name: string)
    requires CanCollide(s, limits, a, b, user, c, d, name)
    ensures GoOther(TwoRenames(s, a, b, user, c, d, name, Owned, Owned), a)
      == TwoRenames(s, a, b, user, c, d, name, Compared, Owned)
    ensures GoOther(TwoRenames(s, a, b, user, c, d, name, Compared, Owned), b)
      == TwoRenames(s, a, b, user, c, d, name, Compared, Compared)
  {
    FreeWithout(RowsOf(s.rows, user), c, name);
    FreeWithout(RowsOf(s.rows, user), d, name);
    assert s.threads[a := Thread(user, RenameConnection(c, name), Owned)][b := Thread(user, RenameConnection(d, name), Owned)]
      [a := Thread(user, RenameConnection(c, name), Compared)]
      == s.threads[a := Thread(user, RenameConnection(c, name), Compared)][b := Thread(user, RenameConnection(d, name), Owned)];
  }

  lemma {:induction false} BothWrite(s: State, limits: map<Id, Limits>, a: Tid, b: Tid, user: Id, c: Id, d: Id, name: string)
    requires CanCollide(s, limits, a, b, user, c, d, name)
    ensures var n := GoOther(TwoRenames(s, a, b, user, c, d, name, Compared, Compared), a);
      && b in n.threads && n.threads[b] == Thread(user, RenameConnection(d, name), Compared)
      && !DistinctNames(GoOther(n, b).rows)
  {
    var n := GoOther(TwoRenames(s, a, b, user, c, d, name, Compared, Compared), a);
    var rows := GoOther(n, b).rows;
    assert n.rows == s.rows[c := Row(user, name)];
    assert rows == n.rows[d := Row(user, name)];
    assert rows[c].name == rows[d].name && rows[c].user == rows[d].user;
  }

  /** Some possible run leads from `s` to `n`. */
  ghost predicate Reaches(s: State, limits: map<Id, Limits>, n: State) {
    exists steps :: Possible(s, limits, steps) && n == RunSteps(s, limits, steps)
  }

  lemma {:induction false} ReachesSelf(s: State, limits: map<Id, Limits>)
    ensures Reaches(s, limits, s)
  {
    assert Possible(s, limits, []) && s == RunSteps(s, limits, []);
  }

  lemma {:induction false} ReachesNext(s: State, limits: map<Id, Limits>, m: State, step: Step)
    requires Reaches(s, limits, m) && Enabled(m, limits, step)
    ensures Reaches(s, limits, Next(m, limits, step))
  {
    var steps :| Possible(s, limits, steps) && m == RunSteps(s, limits, steps);
    var more := steps + [step];
    assert more[..|steps|] == steps;
    assert forall i :: 0 <= i < |steps| ==> more[..i] == steps[..i];
    assert Possible(s, limits, more);
  }

  lemma {:induction false} ReachesBothBegun(s: State, limits: map<Id, Limits>, a: Tid, b: Tid, user: Id, c: Id, d: Id, name: string)
    requires CanCollide(s, limits, a, b, user, c, d, name)
    ensures Reaches(s, limits, TwoRenames(s, a, b, user, c, d, name, Start, Start))
  {
    ReachesSelf(s, limits);
    ReachesNext(s, limits, s, Begin(a, user, RenameConnection(c, name)));
    var m := Next(s, limits, Begin(a, user, RenameConnection(c, name)));
    ReachesNext(s, limits, m, Begin(b, user, RenameConnection(d, name)));
  }

  /** One turn of either rename. */
  lemma {:induction false} ReachesTurn(s: State, limits: map<Id, Limits>, m: State, x: Tid, n: State)
    requires Reaches(s, limits, m) && x in m.threads && m.threads[x].user in limits
    requires m.threads[x].request.RenameConnection? && n == GoOther(m, x)
    requires m.threads[x].pc.Start? || m.threads[x].pc.Owned? || m.threads[x].pc.Compared?
    ensures Reaches(s, limits, n)
  {
    ReachesNext(s, limits, m, Go(x, 0));
  }

  lemma {:induction false} ReachesBothCompared(s: State, limits: map<Id, Limits>, a: Tid, b: Tid, user: Id, c: Id, d: Id, name: string)
    requires CanCollide(s, limits, a, b, user, c, d, name)
    ensures Reaches(s, limits, TwoRenames(s, a, b, user, c, d, name, Compared, Compared))
  {
    ReachesBothBegun(s, limits, a, b, user, c, d, name);
    BothOwn(s, limits, a, b, user, c, d, name);
    BothCompare(s, limits, a, b, user, c, d, name);
    var s0 := TwoRenames(s, a, b, user, c, d, name, Start, Start);
    var s1 := TwoRenames(s, a, b, user, c, d, name, Owned, Start);
    var s2 := TwoRenames(s, a, b, user, c, d, name, Owned, Owned);
    var s3 := TwoRenames(s, a, b, user, c, d, name, Compared, Owned);
    ReachesTurn(s, limits, s0, a, s1);
    ReachesTurn(s, limits, s1, b, s2);
    ReachesTurn(s, limits, s2, a, s3);
    ReachesTurn(s, limits, s3, b, TwoRenames(s, a, b, user, c, d, name, Compared, Compared));
  }

  /** Whenever a user has two connections, two interleaved renames can give both the same name. */
  lemma {:induction false} UnlockedRenamesCollide(s: State, limits: map<Id, Limits>, a: Tid, b: Tid, user: Id, c: Id, d: Id,
                                                  name: string)
    requires CanCollide(s, limits, a, b, user, c, d, name)
    ensures exists n :: Reaches(s, limits, n) && !DistinctNames(n.rows)
  {
    ReachesBothCompared(s, limits, a, b, user, c, d, name);
    BothWrite(s, limits, a, b, user, c, d, name);
    var m := TwoRenames(s, a, b, user, c, d, name, Compared, Compared);
    var n := GoOther(m, a);
    ReachesTurn(s, limits, m, a, n);
    ReachesTurn(s, limits, n, b, GoOther(n, b));
  }

  // ----- An add races with a rename -----

  /** The user's mutex `m` is free, or there is none yet and `m` is a new one. */
  ghost predicate MutexFree(s: State, user: Id, m: Mutex) {
    if user in s.locks then s.locks[user] == m && m in s.holders && s.holders[m].None? else m !in s.holders
  }

  /** The state with the user's mutex in the lock table. */
  function Warm(s: State, user: Id, m: Mutex): State {
    s.(locks := s.locks[user := m], holders := s.holders[m := None])
  }

  /** An add of `name` can clear its checks while a rename of row `c` to the same name is under way. */
  ghost predicate CanRace(s: State, limits: map<Id, Limits>, a: Tid, b: Tid, user: Id, c: Id, name: string, id: nat, m: Mutex) {
    && a !in s.threads && b !in s.threads && a != b && user in limits && id !in s.issued && s.rows.Keys <= s.issued
    && c in s.rows && s.rows[c].user == user && !TakenName(RowsOf(s.rows, user), name)
    && s.tableHolder.None? && MutexFree(s, user, m)
    && |RowsOf(s.rows, user)| < limits[user].maxConnections
    && Recent(s.log, user, s.now - limits[user].rateWindow) < limits[user].rateCount
  }

  /** The state with add `a` at `pc`, and who holds the lock table and the user's mutex. */
  function AddAt(s: State, a: Tid, user: Id, name: string, pc: Pc, table: Option<Tid>, holder: Option<Tid>): State
    requires user in s.locks
  {
    s.(threads := s.threads[a := Thread(user, AddConnection(name), pc)], tableHolder := table,
       holders := s.holders[s.locks[user] := holder])
  }

  lemma {:induction false} ReachesAddTurn(s: State, limits: map<Id, Limits>, m: State, x: Tid, id: nat, n: State)
    requires Reaches(s, limits, m) && x in m.threads && m.threads[x].user in limits && m.threads[x].request.AddConnection?
    requires Enabled(m, limits, Go(x, id)) && n == GoAdd(m, limits, x, id)
    ensures Reaches(s, limits, n)
  {
    ReachesNext(s, limits, m, Go(x, id));
  }

  /** The add in the lock table's critical section, before it has seen or made its mutex. */
  function Entering(s: State, a: Tid, user: Id, name: string, pc: Pc): State {
    s.(threads := s.threads[a := Thread(user, AddConnection(name), pc)], tableHolder := Some(a))
  }

  lemma {:induction false} ReachesInTable(s: State, limits: map<Id, Limits>, a: Tid, user: Id, name: string)
    requires a !in s.threads && user in limits && s.tableHolder.None?
    ensures Reaches(s, limits, Entering(s, a, user, name, InTable))
  {
    var begin := Begin(a, user, AddConnection(name));
    ReachesSelf(s, limits);
    ReachesNext(s, limits, s, begin);
    var t := Next(s, limits, begin);
    assert t == s.(threads := s.threads[a := Thread(user, AddConnection(name), Start)]);
    assert GoAdd(t, limits, a, 0) == Entering(s, a, user, name, InTable);
    ReachesAddTurn(s, limits, t, a, 0, Entering(s, a, user, name, InTable));
  }

  /** The mutex is in the table already. */
  lemma {:induction false} LooksUp(s: State, limits: map<Id, Limits>, a: Tid, user: Id, name: string, m: Mutex)
    requires user in limits && user in s.locks && MutexFree(s, user, m)
    ensures GoAdd(Entering(s, a, user, name, InTable), limits, a, m)
      == AddAt(Warm(s, user, m), a, user, name, Found(m), Some(a), None)
  {
    assert s.locks[user := m] == s.locks && s.holders[m := None] == s.holders;
  }

  /** There is none yet: it is found missing, then made. */
  lemma {:induction false} MakesMutex(s: State, limits: map<Id, Limits>, a: Tid, user: Id, name: string, m: Mutex)
    requires user in limits && user !in s.locks && MutexFree(s, user, m)
    ensures GoAdd(Entering(s, a, user, name, InTable), limits, a, m) == Entering(s, a, user, name, Missing)
    ensures GoAdd(Entering(s, a, user, name, Missing), limits, a, m)
      == AddAt(Warm(s, user, m), a, user, name, Found(m), Some(a), None)
  {
    assert s.holders[m := None][m := None] == s.holders[m := None];
  }

  lemma {:induction false} ReachesFound(s: State, limits: map<Id, Limits>, a: Tid, user: Id, name: string, m: Mutex)
    requires a !in s.threads && user in limits && s.tableHolder.None? && MutexFree(s, user, m)
    ensures Reaches(s, limits, AddAt(Warm(s, user, m), a, user, name, Found(m), Some(a), None))
  {
    var here, found := Entering(s, a, user, name, InTable), AddAt(Warm(s, user, m), a, user, name, Found(m), Some(a), None);
    ReachesInTable(s, limits, a, user, name);
    if user in s.locks {
      LooksUp(s, limits, a, user, name, m);
      ReachesAddTurn(s, limits, here, a, m, found);
    } else {
      MakesMutex(s, limits, a, user, name, m);
      ReachesAddTurn(s, limits, here, a, m, Entering(s, a, user, name, Missing));
      ReachesAddTurn(s, limits, Entering(s, a, user, name, Missing), a, m, found);
    }
  }

  lemma {:induction false} AddLocks(s: State, limits: map<Id, Limits>, a: Tid, user: Id, name: string, id: nat)
    requires user in limits && user in s.locks
    ensures var m := s.locks[user];
      && GoAdd(AddAt(s, a, user, name, Found(m), Some(a), None), limits, a, id) == AddAt(s, a, user, name, Waiting(m), None, None)
      && GoAdd(AddAt(s, a, user, name, Waiting(m), None, None), limits, a, id) == AddAt(s, a, user, name, Locked(m), None, Some(a))
  {
  }

  lemma {:induction false} AddLists(s: State, limits: map<Id, Limits>, a: Tid, user: Id, name: string, id: nat)
    requires user in limits && user in s.locks
    ensures GoAdd(AddAt(s, a, user, name, Locked(s.locks[user]), None, Some(a)), limits, a, id)
      == AddAt(s, a, user, name, Listed(s.locks[user], RowsOf(s.rows, user)), None, Some(a))
  {
  }

  lemma {:induction false} AddClears(s: State, limits: map<Id, Limits>, a: Tid, user: Id, name: string, id: nat, mine: Rows, cutoff: int)
    requires user in limits && user in s.locks && !TakenName(mine, name)
    requires |mine| < limits[user].maxConnections
    requires cutoff == s.now - limits[user].rateWindow && Recent(s.log, user, cutoff) < limits[user].rateCount
    ensures GoAdd(AddAt(s, a, user, name, Listed(s.locks[user], mine), None, Some(a)), limits, a, id)
      == AddAt(s, a, user, name, Cleared(s.locks[user], mine, s.now), None, Some(a))
  {
  }

  lemma {:induction false} ReachesLocked(s: State, limits: map<Id, Limits>, a: Tid, user: Id, name: string, m: Mutex, w: State)
    requires a !in s.threads && user in limits && s.tableHolder.None? && MutexFree(s, user, m) && w == Warm(s, user, m)
    ensures user in w.locks && Reaches(s, limits, AddAt(w, a, user, name, Locked(m), None, Some(a)))
  {
    ReachesFound(s, limits, a, user, name, m);
    AddLocks(w, limits, a, user, name, 0);
    var s2, s3 := AddAt(w, a, user, name, Found(m), Some(a), None), AddAt(w, a, user, name, Waiting(m), None, None);
    ReachesAddTurn(s, limits, s2, a, 0, s3);
    ReachesAddTurn(s, limits, s3, a, 0, AddAt(w, a, user, name, Locked(m), None, Some(a)));
  }

  /** From the locked state on: the list is read, and the checks pass. */
  lemma {:induction false} ListsAndClears(s: State, limits: map<Id, Limits>, w: State, a: Tid, user: Id, name: string, m: Mutex, mine: Rows,
                                          cutoff: int)
    requires user in limits && user in w.locks && w.locks[user] == m && mine == RowsOf(w.rows, user) && !TakenName(mine, name)
    requires |mine| < limits[user].maxConnections
    requires cutoff == w.now - limits[user].rateWindow && Recent(w.log, user, cutoff) < limits[user].rateCount
    requires Reaches(s, limits, AddAt(w, a, user, name, Locked(m), None, Some(a)))
    ensures Reaches(s, limits, AddAt(w, a, user, name, Cleared(m, mine, w.now), None, Some(a)))
  {
    AddLists(w, limits, a, user, name, 0);
    AddClears(w, limits, a, user, name, 0, mine, cutoff);
    var s0, s1 := AddAt(w, a, user, name, Locked(m), None, Some(a)), AddAt(w, a, user, name, Listed(m, mine), None, Some(a));
    ReachesAddTurn(s, limits, s0, a, 0, s1);
    ReachesAddTurn(s, limits, s1, a, 0, AddAt(w, a, user, name, Cleared(m, mine, w.now), None, Some(a)));
  }

  lemma {:induction false} WarmSame(s: State, user: Id, m: Mutex, w: State)
    requires w == Warm(s, user, m)
    ensures w.rows == s.rows && w.log == s.log && w.now == s.now && user in w.locks && w.locks[user] == m
  {
  }

  lemma {:induction false} ReachesCleared(s: State, limits: map<Id, Limits>, a: Tid, user: Id, name: string, m: Mutex, mine: Rows, w: State,
                                          cutoff: int)
    requires a !in s.threads && user in limits && s.tableHolder.None? && MutexFree(s, user, m) && w == Warm(s, user, m)
    requires mine == RowsOf(s.rows, user) && !TakenName(mine, name) && |mine| < limits[user].maxConnections
    requires cutoff == s.now - limits[user].rateWindow && Recent(s.log, user, cutoff) < limits[user].rateCount
    ensures user in w.locks && Reaches(s, limits, AddAt(w, a, user, name, Cleared(m, mine, s.now), None, Some(a)))
  {
    ReachesLocked(s, limits, a, user, name, m, w);
    WarmSame(s, user, m, w);
    ListsAndClears(s, limits, w, a, user, name, m, mine, cutoff);
  }

  function RenameAt(m: State, b: Tid, user: Id, c: Id, name: string, pc: Pc): State {
    m.(threads := m.threads[b := Thread(user, RenameConnection(c, name), pc)])
  }

  lemma {:induction false} RenameOwns(m: State, b: Tid, user: Id, c: Id, name: string)
    requires c in m.rows && m.rows[c].user == user
    ensures GoOther(RenameAt(m, b, user, c, name, Start), b) == RenameAt(m, b, user, c, name, Owned)
  {
  }

  lemma {:induction false} RenameCompares(m: State, b: Tid, user: Id, c: Id, name: string)
    requires !TakenName(RowsOf(m.rows, user), name)
    ensures GoOther(RenameAt(m, b, user, c, name, Owned), b) == RenameAt(m, b, user, c, name, Compared)
  {
    FreeWithout(RowsOf(m.rows, user), c, name);
  }

  lemma {:induction false} RenameWrites(m: State, b: Tid, user: Id, c: Id, name: string)
    requires c in m.rows && m.rows[c].user == user
    ensures GoOther(RenameAt(m, b, user, c, name, Compared), b)
      == RenameAt(m, b, user, c, name, Done).(rows := m.rows[c := Row(user, name)])
  {
  }

  /** From any state with the name free, a rename can run to its end. */
  lemma {:induction false} ReachesRenamed(s: State, limits: map<Id, Limits>, m: State, b: Tid, user: Id, c: Id, name: string)
    requires Reaches(s, limits, m) && b !in m.threads && user in limits
    requires c in m.rows && m.rows[c].user == user && !TakenName(RowsOf(m.rows, user), name)
    ensures Reaches(s, limits, RenameAt(m, b, user, c, name, Done).(rows := m.rows[c := Row(user, name)]))
  {
    ReachesNext(s, limits, m, Begin(b, user, RenameConnection(c, name)));
    RenameOwns(m, b, user, c, name);
    RenameCompares(m, b, user, c, name);
    RenameWrites(m, b, user, c, name);
    var m0, m1, m2 := RenameAt(m, b, user, c, name, Start), RenameAt(m, b, user, c, name, Owned),
      RenameAt(m, b, user, c, name, Compared);
    ReachesTurn(s, limits, m0, b, m1);
    ReachesTurn(s, limits, m1, b, m2);
    ReachesTurn(s, limits, m2, b, RenameAt(m, b, user, c, name, Done).(rows := m.rows[c := Row(user, name)]));
  }

  /** A rename that finds its name free can still be followed by an add that was cleared for it before. */
  lemma {:induction false} AddAndRenameCollide(s: State, limits: map<Id, Limits>, a: Tid, b: Tid, user: Id, c: Id, name: string, id: nat,
                                               m: Mutex)
    requires CanRace(s, limits, a, b, user, c, name, id, m)
    ensures exists n :: Reaches(s, limits, n) && !DistinctNames(n.rows)
  {
    var t := AddAt(Warm(s, user, m), a, user, name, Cleared(m, RowsOf(s.rows, user), s.now), None, Some(a));
    ReachesCleared(s, limits, a, user, name, m, RowsOf(s.rows, user), Warm(s, user, m),
      s.now - limits[user].rateWindow);
    ReachesRenamed(s, limits, t, b, user, c, name);
    var r := RenameAt(t, b, user, c, name, Done).(rows := t.rows[c := Row(user, name)]);
    var n := GoAdd(r, limits, a, id);
    assert r.threads[a] == t.threads[a];
    ReachesAddTurn(s, limits, r, a, id, n);
    assert id != c && n.rows == r.rows[id := Row(user, name)];
    assert n.rows[c].name == n.rows[id].name && n.rows[c].user == n.rows[id].user;
  }
}
