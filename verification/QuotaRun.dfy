/**
 One user over many traffic cycles: what the quota counter counts and when the
 user is switched off, from the dates and the bytes of the cycles alone
 (app/services/background_orchestrator.py).
 */
module QuotaRun {
  import opened Tables
  import opened Accounting
  import opened TrafficCycle

  /** A cycle as one user meets it: its time, whether any update was the user's, and the user's bytes. */
  datatype Round = Round(now: DateTime, touched: bool, share: Reading)

  function Bytes(r: Round): nat {
    r.share.rx + r.share.tx
  }

  function AfterRounds(u: User, rounds: seq<Round>): User {
    if rounds == [] then u
    else
      var r := rounds[|rounds| - 1];
      Settled(AfterRounds(u, rounds[..|rounds| - 1]), r.now, r.touched, r.share)
  }

  // ----- Dates -----

  /** Both times fall into one period of the strategy; a week that spans New Year counts as two. */
  predicate SamePeriod(strategy: ResetStrategy, a: DateTime, b: DateTime) {
    match strategy
    case Never => true
    case Daily => a.year == b.year && a.month == b.month && a.day == b.day
    case Weekly => a.year == b.year && a.isoWeek == b.isoWeek
    case Monthly => a.year == b.year && a.month == b.month
  }

  predicate After(a: DateTime, b: DateTime) {
    || a.year > b.year
    || (a.year == b.year && a.month > b.month)
    || (a.year == b.year && a.month == b.month && a.day > b.day)
    || (a.year == b.year && a.month == b.month && a.day == b.day && a.second > b.second)
  }

  // ----- What the quota counter counts -----

  /** When the user was charged last, or else the quota's first day. */
  function LastCharge(from: DateTime, rounds: seq<Round>): DateTime {
    if rounds == [] then from
    else if rounds[|rounds| - 1].touched then rounds[|rounds| - 1].now
    else LastCharge(from, rounds[..|rounds| - 1])
  }

  /** The bytes of the period of the latest charge: a charge in another period than the one before starts from zero. */
  function PeriodUsage(strategy: ResetStrategy, from: DateTime, used: nat, rounds: seq<Round>): nat {
    if rounds == [] then used
    else
      var rest, r := rounds[..|rounds| - 1], rounds[|rounds| - 1];
      if !r.touched then PeriodUsage(strategy, from, used, rest)
      else if SamePeriod(strategy, LastCharge(from, rest), r.now) then PeriodUsage(strategy, from, used, rest) + Bytes(r)
      else Bytes(r)
  }

  /** The clock does not go back. */
  ghost predicate InOrder(from: DateTime, rounds: seq<Round>) {
    && (forall i :: 0 <= i < |rounds| ==> !After(from, rounds[i].now))
    && (forall i, j :: 0 <= i < j < |rounds| ==> !After(rounds[i].now, rounds[j].now))
  }

  lemma {:induction false} InOrderBefore(from: DateTime, rounds: seq<Round>)
    requires rounds != [] && InOrder(from, rounds)
    ensures InOrder(from, rounds[..|rounds| - 1])
    ensures !After(LastCharge(from, rounds[..|rounds| - 1]), rounds[|rounds| - 1].now)
  {
    var rest := rounds[..|rounds| - 1];
    assert forall i :: 0 <= i < |rest| ==> rest[i] == rounds[i];
    LastChargeIsThere(from, rest);
  }

  lemma {:induction false} LastChargeIsThere(from: DateTime, rounds: seq<Round>)
    ensures LastCharge(from, rounds) == from || exists i :: 0 <= i < |rounds| && LastCharge(from, rounds) == rounds[i].now
  {
    if rounds != [] && !rounds[|rounds| - 1].touched { LastChargeIsThere(from, rounds[..|rounds| - 1]); }
  }

  /** What a cycle never changes. */
  predicate SameTerms(u: User, v: User) {
    v.resetStrategy == u.resetStrategy && v.trafficLimit == u.trafficLimit && v.expiresAt == u.expiresAt
  }

  lemma {:induction false} RoundsKeepTerms(u: User, rounds: seq<Round>)
    ensures SameTerms(u, AfterRounds(u, rounds))
  {
    if rounds != [] { RoundsKeepTerms(u, rounds[..|rounds| - 1]); }
  }

  /** One cycle of a user who was charged last at `last`, in the period of the stamp. */
  lemma {:induction false} RoundCounts(u: User, r: Round, last: DateTime)
    requires u.lastResetAt.At? && SamePeriod(u.resetStrategy, u.lastResetAt.time, last)
    requires !After(last, r.now) && !After(u.lastResetAt.time, last)
    ensures var v := Settled(u, r.now, r.touched, r.share);
      && v.lastResetAt.At?
      && (!r.touched ==> v.trafficUsed == u.trafficUsed && v.lastResetAt == u.lastResetAt)
      && (r.touched && SamePeriod(u.resetStrategy, last, r.now) ==>
            v.trafficUsed == u.trafficUsed + Bytes(r) && v.lastResetAt == u.lastResetAt)
      && (r.touched && !SamePeriod(u.resetStrategy, last, r.now) ==>
            v.trafficUsed == Bytes(r) && v.lastResetAt == Stamp.At(r.now))
  {
  }

  /** The stamp stays in the period of the latest charge. */
  ghost predicate Counting(u: User, from: DateTime, rounds: seq<Round>, v: User) {
    && v.lastResetAt.At? && SamePeriod(u.resetStrategy, v.lastResetAt.time, LastCharge(from, rounds))
    && !After(v.lastResetAt.time, LastCharge(from, rounds))
    && v.trafficUsed == PeriodUsage(u.resetStrategy, from, u.trafficUsed, rounds)
  }

  lemma {:induction false} NotAfterBoth(a: DateTime, b: DateTime, c: DateTime)
    requires !After(a, b) && !After(b, c)
    ensures !After(a, c)
  {
  }

  lemma {:induction false} SamePeriodAsBoth(strategy: ResetStrategy, a: DateTime, b: DateTime, c: DateTime)
    requires SamePeriod(strategy, a, b) && SamePeriod(strategy, b, c)
    ensures SamePeriod(strategy, a, c)
  {
  }

  /**
   The counter compares each cycle's date with the date of the last reset only; still it always holds
   the bytes of the current day, week or month.
   */
  lemma {:induction false} QuotaCountsThePeriod(u: User, rounds: seq<Round>)
    requires u.lastResetAt.At? && InOrder(u.lastResetAt.time, rounds)
    ensures Counting(u, u.lastResetAt.time, rounds, AfterRounds(u, rounds))
  {
    var from := u.lastResetAt.time;
    if rounds != [] {
      var rest, r := rounds[..|rounds| - 1], rounds[|rounds| - 1];
      InOrderBefore(from, rounds);
      QuotaCountsThePeriod(u, rest);
      RoundsKeepTerms(u, rest);
      var v, last := AfterRounds(u, rest), LastCharge(from, rest);
      RoundCounts(v, r, last);
      NotAfterBoth(v.lastResetAt.time, last, r.now);
      if SamePeriod(u.resetStrategy, last, r.now) { SamePeriodAsBoth(u.resetStrategy, v.lastResetAt.time, last, r.now); }
    }
  }

  /** All bytes of the user's cycles. */
  function AllBytes(rounds: seq<Round>): nat {
    if rounds == [] then 0
    else AllBytes(rounds[..|rounds| - 1]) + if rounds[|rounds| - 1].touched then Bytes(rounds[|rounds| - 1]) else 0
  }

  /** Without a readable stamp, or without a strategy, nothing is ever reset. */
  lemma {:induction false} NoResetCountsAll(u: User, rounds: seq<Round>)
    requires !u.lastResetAt.At? || u.resetStrategy == Never
    ensures var v := AfterRounds(u, rounds); v.trafficUsed == u.trafficUsed + AllBytes(rounds) && v.lastResetAt == u.lastResetAt
  {
    if rounds != [] {
      NoResetCountsAll(u, rounds[..|rounds| - 1]);
      RoundsKeepTerms(u, rounds[..|rounds| - 1]);
    }
  }

  // ----- When the user is switched off -----

  /** The bytes that count against the limit after the rounds. */
  function Counted(u: User, rounds: seq<Round>): nat {
    if u.lastResetAt.At? then PeriodUsage(u.resetStrategy, u.lastResetAt.time, u.trafficUsed, rounds)
    else u.trafficUsed + AllBytes(rounds)
  }

  /** The last of the rounds finds the user at the limit, having been charged, or past the expiry. */
  predicate Trips(u: User, rounds: seq<Round>)
    requires rounds != []
  {
    var r := rounds[|rounds| - 1];
    || (r.touched && 0 < u.trafficLimit <= Counted(u, rounds))
    || (u.expiresAt.At? && After(r.now, u.expiresAt.time))
  }

  ghost predicate EverTrips(u: User, rounds: seq<Round>) {
    exists n :: 0 < n <= |rounds| && Trips(u, rounds[..n])
  }

  lemma {:induction false} EverTripsLast(u: User, rounds: seq<Round>)
    requires rounds != []
    ensures EverTrips(u, rounds) <==> EverTrips(u, rounds[..|rounds| - 1]) || Trips(u, rounds)
  {
    var rest := rounds[..|rounds| - 1];
    assert rounds[..|rounds|] == rounds;
    assert forall n :: 0 < n <= |rest| ==> rest[..n] == rounds[..n];
  }

  lemma {:induction false} RoundSwitches(u: User, r: Round)
    ensures var v := Settled(u, r.now, r.touched, r.share);
      v.enabled <==> u.enabled && !(r.touched && 0 < u.trafficLimit <= v.trafficUsed)
                     && !(u.expiresAt.At? && After(r.now, u.expiresAt.time))
  {
  }

  lemma {:induction false} CountedIsUsed(u: User, rounds: seq<Round>)
    requires u.lastResetAt.At? ==> InOrder(u.lastResetAt.time, rounds)
    ensures AfterRounds(u, rounds).trafficUsed == Counted(u, rounds)
  {
    if u.lastResetAt.At? { QuotaCountsThePeriod(u, rounds); } else { NoResetCountsAll(u, rounds); }
  }

  /** A user is switched off exactly when some cycle found the user at the limit or past the expiry. */
  lemma {:induction false} SwitchedOffIff(u: User, rounds: seq<Round>)
    requires u.lastResetAt.At? ==> InOrder(u.lastResetAt.time, rounds)
    ensures AfterRounds(u, rounds).enabled <==> u.enabled && !EverTrips(u, rounds)
    decreases |rounds|
  {
    if rounds != [] {
      var rest, r := rounds[..|rounds| - 1], rounds[|rounds| - 1];
      if u.lastResetAt.At? { InOrderBefore(u.lastResetAt.time, rounds); }
      SwitchedOffIff(u, rest);
      RoundsKeepTerms(u, rest);
      CountedIsUsed(u, rounds);
      RoundSwitches(AfterRounds(u, rest), r);
      EverTripsLast(u, rounds);
    }
  }

  // ----- One cycle, whatever the clock did -----

  /** The quota's last day is readable and lies in another period; for a daily quota, in an earlier one. */
  predicate PeriodIsOver(u: User, now: DateTime) {
    && u.lastResetAt.At? && !SamePeriod(u.resetStrategy, u.lastResetAt.time, now)
    && (u.resetStrategy == Daily ==> After(now, u.lastResetAt.time))
  }

  lemma {:induction false} RoundFromDates(u: User, r: Round)
    ensures var v := Settled(u, r.now, r.touched, r.share);
      if !r.touched then v.trafficUsed == u.trafficUsed && v.lastResetAt == u.lastResetAt
      else if PeriodIsOver(u, r.now) then v.trafficUsed == Bytes(r) && v.lastResetAt == Stamp.At(r.now)
      else v.trafficUsed == u.trafficUsed + Bytes(r) && v.lastResetAt == u.lastResetAt
  {
  }

  /** A charged user's counter starts from zero exactly when the period is over; nobody else's counter moves. */
  lemma {:induction false} CycleFromDates(before: Users, after: Users, now: DateTime, updates: seq<Update>, conns: Connections, uid: Id)
    requires Cycled(before, after, now, updates, conns) && uid in before
    ensures var u, v, share := before[uid], after[uid], Share(updates, conns, uid);
      if !Touched(updates, conns, uid) then v.trafficUsed == u.trafficUsed && v.lastResetAt == u.lastResetAt
      else if PeriodIsOver(u, now) then v.trafficUsed == share.rx + share.tx && v.lastResetAt == Stamp.At(now)
      else v.trafficUsed == u.trafficUsed + share.rx + share.tx && v.lastResetAt == u.lastResetAt
    ensures var u, v := before[uid], after[uid];
      v.enabled <==> u.enabled && !(Touched(updates, conns, uid) && 0 < u.trafficLimit <= v.trafficUsed)
                     && !(u.expiresAt.At? && After(now, u.expiresAt.time))
  {
    RoundFromDates(before[uid], Round(now, Touched(updates, conns, uid), Share(updates, conns, uid)));
    RoundSwitches(before[uid], Round(now, Touched(updates, conns, uid), Share(updates, conns, uid)));
  }

  // ----- The tables -----

  /** One cycle of the whole panel. */
  datatype Job = Job(now: DateTime, updates: seq<Update>, conns: Connections)

  function RoundOf(j: Job, uid: Id): Round {
    Round(j.now, Touched(j.updates, j.conns, uid), Share(j.updates, j.conns, uid))
  }

  function RoundsOf(jobs: seq<Job>, uid: Id): (r: seq<Round>)
    ensures |r| == |jobs| && forall i :: 0 <= i < |jobs| ==> r[i] == RoundOf(jobs[i], uid)
  {
    seq(|jobs|, i requires 0 <= i < |jobs| => RoundOf(jobs[i], uid))
  }

  /** The user tables before, between and after the jobs. */
  ghost predicate Jobs(tables: seq<Users>, jobs: seq<Job>) {
    && |tables| == |jobs| + 1
    && forall i :: 0 <= i < |jobs| ==> Cycled(tables[i], tables[i + 1], jobs[i].now, jobs[i].updates, jobs[i].conns)
  }

  lemma {:induction false} TablesFollow(tables: seq<Users>, jobs: seq<Job>, n: nat, uid: Id)
    requires Jobs(tables, jobs) && n <= |jobs| && uid in tables[0]
    ensures uid in tables[n] && tables[n][uid] == AfterRounds(tables[0][uid], RoundsOf(jobs, uid)[..n])
  {
    if n > 0 {
      TablesFollow(tables, jobs, n - 1, uid);
      var rounds := RoundsOf(jobs, uid);
      assert rounds[..n][..n - 1] == rounds[..n - 1] && rounds[..n][n - 1] == RoundOf(jobs[n - 1], uid);
      assert Cycled(tables[n - 1], tables[n], jobs[n - 1].now, jobs[n - 1].updates, jobs[n - 1].conns);
    }
  }

  /**
   Over every run of cycles with a clock that does not go back, each user's quota counter holds the bytes of the
   user's current period, and exactly the users who met their limit or expiry in some cycle are switched off.
   */
  lemma {:induction false} RunEnforcesQuotas(tables: seq<Users>, jobs: seq<Job>, uid: Id)
    requires Jobs(tables, jobs) && uid in tables[0]
    requires tables[0][uid].lastResetAt.At? ==> InOrder(tables[0][uid].lastResetAt.time, RoundsOf(jobs, uid))
    ensures uid in tables[|jobs|]
    ensures tables[|jobs|][uid].trafficUsed == Counted(tables[0][uid], RoundsOf(jobs, uid))
    ensures tables[|jobs|][uid].enabled <==> tables[0][uid].enabled && !EverTrips(tables[0][uid], RoundsOf(jobs, uid))
  {
    var rounds := RoundsOf(jobs, uid);
    TablesFollow(tables, jobs, |jobs|, uid);
    assert rounds[..|jobs|] == rounds;
    CountedIsUsed(tables[0][uid], rounds);
    SwitchedOffIff(tables[0][uid], rounds);
  }
}
