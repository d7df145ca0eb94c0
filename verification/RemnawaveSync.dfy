/**
 Reconciliation of the local user table with the remote user list: fetch all
 pages, delete what vanished, then match every remote user by uuid first and by
 username second, or create it (app/services/remnawave_sync.py).
 */
module RemnawaveSync {
  import opened Tables
  import opened MassOperations

  datatype RemoteUser = RemoteUser(
    uuid: string,
    username: string,
    status: string,
    telegramId: Option<string>,
    email: Option<string>,
    description: Option<string>)

  datatype Settings = Settings(createConns: bool, serverId: Option<ServerId>, protocol: string)

  predicate Active(r: RemoteUser) {
    r.status == "ACTIVE"
  }

  /** A user counts as linked when the uuid column is neither NULL nor empty. */
  predicate Linked(u: User) {
    u.remnawaveUuid.Some? && u.remnawaveUuid.value != ""
  }

  ghost predicate UuidsDistinct(users: Users) {
    forall a, b :: a in users && b in users && a != b && users[a].remnawaveUuid.Some? ==>
      users[a].remnawaveUuid != users[b].remnawaveUuid
  }

  ghost predicate FetchedDistinct(fetched: seq<RemoteUser>) {
    forall i, j :: 0 <= i < j < |fetched| ==>
      fetched[i].uuid != fetched[j].uuid && fetched[i].username != fetched[j].username
  }

  ghost predicate HasUuid(fetched: seq<RemoteUser>, uuid: string) {
    exists i :: 0 <= i < |fetched| && fetched[i].uuid == uuid
  }

  ghost predicate HasName(fetched: seq<RemoteUser>, name: string) {
    exists i :: 0 <= i < |fetched| && fetched[i].username == name
  }

  /** `u` is the local account of remote user `r`, up to the enabled flag. */
  predicate Carries(u: User, r: RemoteUser) {
    u.remnawaveUuid == Some(r.uuid) && u.username == r.username
  }

  predicate Mirrors(u: User, r: RemoteUser) {
    Carries(u, r) && u.enabled == Active(r)
  }

  ghost predicate HasAccount(users: Users, r: RemoteUser) {
    exists a :: a in users && Mirrors(users[a], r)
  }

  /** The end state of a sync: remote users and linked local users correspond one to one. */
  ghost predicate Synchronized(users: Users, fetched: seq<RemoteUser>) {
    && UuidsDistinct(users)
    && (forall i :: 0 <= i < |fetched| ==> HasAccount(users, fetched[i]))
    && (forall a :: a in users && Linked(users[a]) ==> HasUuid(fetched, users[a].remnawaveUuid.value))
  }

  /** Rows a sync must leave alone: not linked to anything remote and not named like a remote user. */
  ghost predicate Unrelated(u: User, fetched: seq<RemoteUser>) {
    && !Linked(u)
    && (u.remnawaveUuid.Some? ==> !HasUuid(fetched, u.remnawaveUuid.value))
    && !HasName(fetched, u.username)
  }

  /** A sync writes identity columns and the enabled flag, and nothing else of a row. */
  ghost predicate OnlyIdentityChanged(before: User, after: User) {
    after == before.(username := after.username, remnawaveUuid := after.remnawaveUuid,
                     telegramId := after.telegramId, email := after.email,
                     description := after.description, enabled := after.enabled)
  }

  function Updated(u: User, r: RemoteUser): User {
    u.(username := r.username,
       remnawaveUuid := Some(r.uuid),
       telegramId := if r.telegramId.Some? then r.telegramId else u.telegramId,
       email := if r.email.Some? then r.email else u.email,
       description := if r.description.Some? then r.description else u.description)
  }

  function Created(r: RemoteUser, now: DateTime): User {
    User(r.username, Some(r.uuid), r.telegramId, r.email, r.description, Active(r),
         0, 0, 0, 0, 0, 0, 0, NoStamp, Never, At(now), NoStamp)
  }

  /** One answer of the remote service; a missing total counts as zero. */
  datatype Answer = Answer(status: int, page: seq<RemoteUser>, total: int)

  /** How fetching ends: an error status, a list, or more requests than there are answers. */
  datatype Fetch = Failed | Fetched(users: seq<RemoteUser>) | Unanswered

  /** What the loop makes of the answers to come, having received `got`. */
  function FetchFrom(answers: seq<Answer>, got: seq<RemoteUser>): Fetch
    decreases |answers|
  {
    if answers == [] then Unanswered
    else if answers[0].status != 200 then Failed
    else if answers[0].page == [] then Fetched(got)
    else
      var more := got + answers[0].page;
      if |more| >= answers[0].total then Fetched(more) else FetchFrom(answers[1..], more)
  }

  /** The page loop, against any service. */
  method FetchAll(answers: seq<Answer>) returns (result: Fetch)
    ensures result == FetchFrom(answers, [])
  {
    var users: seq<RemoteUser> := [];
    for k := 0 to |answers|
      invariant FetchFrom(answers[k..], users) == FetchFrom(answers, [])
    {
      assert answers[k..][1..] == answers[k + 1..];
      if answers[k].status != 200 { return Failed; }
      var page := answers[k].page;
      if page == [] { return Fetched(users); }
      users := users + page;
      if |users| >= answers[k].total || |page| == 0 { return Fetched(users); }
    }
    return Unanswered;
  }

  /** Every page is the slice of `remote` that was asked for, of whatever size. */
  ghost predicate Serves(remote: seq<RemoteUser>, answers: seq<Answer>, start: nat)
    decreases |answers|
  {
    answers != [] && answers[0].status == 200 ==>
      && start + |answers[0].page| <= |remote|
      && answers[0].page == remote[start..start + |answers[0].page|]
      && Serves(remote, answers[1..], start + |answers[0].page|)
  }

  /** As long as users are missing, no page is empty and no total is already reached. */
  ghost predicate Honest(remote: seq<RemoteUser>, answers: seq<Answer>, start: nat)
    decreases |answers|
  {
    answers != [] && start < |remote| ==>
      var next := start + |answers[0].page|;
      && answers[0].page != []
      && (next < |remote| ==> answers[0].total > next)
      && Honest(remote, answers[1..], next)
  }

  /** Fetching that ends with a list has the whole list exactly when the service never said too early that it was done. */
  lemma {:induction false} FetchIsCompleteIff(remote: seq<RemoteUser>, answers: seq<Answer>, start: nat)
    requires start <= |remote| && Serves(remote, answers, start)
    requires FetchFrom(answers, remote[..start]).Fetched?
    ensures FetchFrom(answers, remote[..start]).users == remote <==> Honest(remote, answers, start)
    decreases |answers|
  {
    var page := answers[0].page;
    var next := start + |page|;
    assert remote[..start] + page == remote[..next];
    assert remote[..|remote|] == remote;
    if page != [] && next < answers[0].total { FetchIsCompleteIff(remote, answers[1..], next); }
  }

  /** What is fetched is always the beginning of the remote list. */
  lemma {:induction false} FetchIsPrefix(remote: seq<RemoteUser>, answers: seq<Answer>, start: nat)
    requires start <= |remote| && Serves(remote, answers, start)
    requires FetchFrom(answers, remote[..start]).Fetched?
    ensures FetchFrom(answers, remote[..start]).users <= remote
    decreases |answers|
  {
    var page := answers[0].page;
    var next := start + |page|;
    assert remote[..start] + page == remote[..next];
    if page != [] && next < answers[0].total { FetchIsPrefix(remote, answers[1..], next); }
  }

  /** An answer without a total ends the fetch after one page, however many users are missing. */
  lemma {:induction false} MissingTotalCutsTheList(remote: seq<RemoteUser>, n: nat)
    requires 0 < n < |remote|
    ensures var answers := [Answer(200, remote[..n], 0)];
      Serves(remote, answers, 0) && FetchFrom(answers, []) == Fetched(remote[..n]) && !Honest(remote, answers, 0)
  {
    var answers := [Answer(200, remote[..n], 0)];
    assert answers[1..] == [] && [] + remote[..n] == remote[..n];
    assert remote[0..0 + n] == remote[..n];
  }

  /** Step 1: the linked users whose uuid is no longer remote. */
  method CollectDeletions(db: Database, fetched: seq<RemoteUser>) returns (gone: seq<Id>)
    ensures forall a :: a in gone <==>
      a in db.users && Linked(db.users[a]) && !HasUuid(fetched, db.users[a].remnawaveUuid.value)
  {
    var uuids := set i | 0 <= i < |fetched| :: fetched[i].uuid;
    var all := ListKeys(db.users);
    gone := [];
    for i := 0 to |all|
      invariant forall a :: a in gone <==>
        a in all[..i] && Linked(db.users[a]) && !HasUuid(fetched, db.users[a].remnawaveUuid.value)
    {
      var u := db.users[all[i]];
      if u.remnawaveUuid.Some? && u.remnawaveUuid.value != "" && u.remnawaveUuid.value !in uuids {
        gone := gone + [all[i]];
      }
    }
  }

  /** No remote user but the account's own carries the account's present name. */
  ghost predicate NameIsOwn(u: User, fetched: seq<RemoteUser>) {
    && Linked(u)
    && forall j :: 0 <= j < |fetched| && fetched[j].username == u.username ==> Some(fetched[j].uuid) == u.remnawaveUuid
  }

  /** The match loop's state after `|who|` remote users; `who[j]` is the account given to remote user j. */
  ghost predicate Matched(start: Users, issued: set<Id>, users: Users, fetched: seq<RemoteUser>, who: seq<Id>) {
    && |who| <= |fetched|
    && Accounts(users, fetched, who)
    && Kept(start, issued, users, fetched, who)
    && Priorities(start, fetched, who)
  }

  ghost predicate Accounts(users: Users, fetched: seq<RemoteUser>, who: seq<Id>)
    requires |who| <= |fetched|
  {
    && UuidsDistinct(users)
    && (forall j :: 0 <= j < |who| ==> who[j] in users && Carries(users[who[j]], fetched[j]))
    && (forall a :: a in users && Linked(users[a]) ==> HasUuid(fetched, users[a].remnawaveUuid.value))
  }

  ghost predicate Kept(start: Users, issued: set<Id>, users: Users, fetched: seq<RemoteUser>, who: seq<Id>)
    requires |who| <= |fetched|
  {
    && (forall a :: a in start ==> a in users && OnlyIdentityChanged(start[a], users[a]) && users[a].enabled == start[a].enabled)
    && (forall a :: a in start && a !in who ==> users[a] == start[a])
    && (forall a :: a in users && a !in start ==> a in who && a !in issued)
    && (forall j :: 0 <= j < |who| && who[j] in start ==>
          start[who[j]].remnawaveUuid == Some(fetched[j].uuid) || start[who[j]].username == fetched[j].username)
  }

  /**
   Lookup order: the holder of the uuid is taken unless an earlier remote user already took it,
   and an account is created only when every local user of that name was taken before.
   */
  ghost predicate Priorities(start: Users, fetched: seq<RemoteUser>, who: seq<Id>)
    requires |who| <= |fetched|
  {
    forall j, a :: 0 <= j < |who| && a in start ==>
      && (start[a].remnawaveUuid == Some(fetched[j].uuid) ==> a in who[..j + 1])
      && (start[a].username == fetched[j].username && who[j] !in start ==> a in who[..j])
  }

  /** The account's flag differs from the status `f` of the remote user it was given to. */
  ghost predicate Corrects(users: Users, fetched: seq<RemoteUser>, who: seq<Id>, a: Id, f: bool)
    requires |who| <= |fetched|
  {
    a in users && users[a].enabled != f && exists j :: 0 <= j < |who| && who[j] == a && Active(fetched[j]) == f
  }

  /** The collected toggles are exactly the corrections the matched accounts still need. */
  ghost predicate TogglesFit(users: Users, fetched: seq<RemoteUser>, who: seq<Id>, toggles: seq<(Id, bool)>)
    requires |who| <= |fetched|
  {
    forall a: Id, f :: (a, f) in toggles <==> Corrects(users, fetched, who, a, f)
  }

  /** Contact details that the remote user has are taken over, the others stay. */
  predicate TakesDetails(before: User, r: RemoteUser, u: User) {
    && (if r.telegramId.Some? then u.telegramId == r.telegramId else u.telegramId == before.telegramId)
    && (if r.email.Some? then u.email == r.email else u.email == before.email)
    && (if r.description.Some? then u.description == r.description else u.description == before.description)
  }

  /** A new account has the remote details and status, no traffic, no limit and no expiry. */
  predicate IsNewAccount(r: RemoteUser, now: DateTime, u: User) {
    && u.telegramId == r.telegramId && u.email == r.email && u.description == r.description && u.enabled == (r.status == "ACTIVE")
    && u.trafficLimit == 0 && u.trafficUsed == 0 && u.trafficTotal == 0 && u.trafficTotalRx == 0 && u.trafficTotalTx == 0
    && u.monthlyRx == 0 && u.monthlyTx == 0 && u.monthlyResetAt == NoStamp
    && u.resetStrategy == Never && u.lastResetAt == At(now) && u.expiresAt == NoStamp
  }

  /** Every account given so far has the details of its remote user. */
  ghost predicate Filled(start: Users, users: Users, fetched: seq<RemoteUser>, who: seq<Id>, now: DateTime)
    requires |who| <= |fetched|
  {
    forall j :: 0 <= j < |who| ==>
      && who[j] in users
      && (who[j] in start ==> TakesDetails(start[who[j]], fetched[j], users[who[j]]))
      && (who[j] !in start ==> IsNewAccount(fetched[j], now, users[who[j]]))
  }

  lemma {:induction false} FilledExtends(start: Users, issued: set<Id>, users: Users, fetched: seq<RemoteUser>, who: seq<Id>, a: Id,
                                         after: Users, now: DateTime)
    requires |who| < |fetched| && Filled(start, users, fetched, who, now) && Kept(start, issued, users, fetched, who) && a !in who
    requires a in after && after == users[a := after[a]]
    requires after[a] == if a in users then Updated(users[a], fetched[|who|]) else Created(fetched[|who|], now)
    ensures Filled(start, after, fetched, who + [a], now)
    ensures a in users <==> a in start
  {
  }

  /** One connection is asked for each account that was created, where the settings say so. */
  ghost predicate RequestsFit(start: Users, fetched: seq<RemoteUser>, who: seq<Id>, settings: Settings, creates: seq<CreateRequest>)
    requires |who| <= |fetched|
  {
    && (forall i, k :: 0 <= i < k < |creates| ==> creates[i].userId != creates[k].userId)
    && (forall r :: r in creates <==> Requested(start, fetched, who, settings, r))
  }

  ghost predicate Requested(start: Users, fetched: seq<RemoteUser>, who: seq<Id>, settings: Settings, r: CreateRequest)
    requires |who| <= |fetched|
  {
    && settings.createConns && settings.serverId == Some(r.serverId) && r.protocol == settings.protocol
    && exists j :: 0 <= j < |who| && who[j] == r.userId && who[j] !in start && r.name == fetched[j].username + "_vpn"
  }

  lemma {:induction false} RequestedExtends(start: Users, fetched: seq<RemoteUser>, who: seq<Id>, settings: Settings, a: Id, r: CreateRequest)
    requires |who| < |fetched| && a !in who
    ensures Requested(start, fetched, who + [a], settings, r) <==>
      if r.userId != a then Requested(start, fetched, who, settings, r)
      else settings.createConns && settings.serverId.Some? && a !in start
           && r == CreateRequest(a, settings.serverId.value, settings.protocol, fetched[|who|].username + "_vpn")
    ensures Requested(start, fetched, who, settings, r) ==> r.userId in who
  {
    var all := who + [a];
    assert all[|who|] == a;
    assert forall j :: 0 <= j < |who| ==> all[j] == who[j];
  }

  lemma {:induction false} RequestsExtend(start: Users, fetched: seq<RemoteUser>, who: seq<Id>, settings: Settings, a: Id,
                                          creates: seq<CreateRequest>, more: seq<CreateRequest>)
    requires |who| < |fetched| && a !in who && RequestsFit(start, fetched, who, settings, creates)
    requires more == if a !in start && settings.createConns && settings.serverId.Some?
      then creates + [CreateRequest(a, settings.serverId.value, settings.protocol, fetched[|who|].username + "_vpn")] else creates
    ensures RequestsFit(start, fetched, who + [a], settings, more)
  {
    forall r ensures r in more <==> Requested(start, fetched, who + [a], settings, r) {
      RequestedExtends(start, fetched, who, settings, a, r);
    }
    forall i | 0 <= i < |creates| ensures creates[i].userId != a {
      assert creates[i] in creates;
      RequestedExtends(start, fetched, who, settings, a, creates[i]);
    }
  }

  /** No account is matched twice: its uuid tells which remote user it belongs to. */
  lemma {:induction false} WhoDistinct(start: Users, issued: set<Id>, users: Users, fetched: seq<RemoteUser>, who: seq<Id>)
    requires FetchedDistinct(fetched) && Matched(start, issued, users, fetched, who)
    ensures Distinct(who)
  {
    forall i, j | 0 <= i < j < |who|
      ensures who[i] != who[j]
    {
      assert Carries(users[who[i]], fetched[i]) && Carries(users[who[j]], fetched[j]);
    }
  }

  /** One iteration: the account by uuid, else one by username, else a new one is given to `r`. */
  ghost predicate Gives(issued: set<Id>, users: Users, r: RemoteUser, a: Id, after: Users) {
    && (forall b :: b in users && b != a ==> users[b].remnawaveUuid != Some(r.uuid))
    && (a in users ==> users[a].remnawaveUuid == Some(r.uuid) || users[a].username == r.username)
    && a in after
    && Carries(after[a], r)
    && after == users[a := after[a]]
    && (a in users ==> after[a] == Updated(users[a], r))
    && (a !in users ==> after[a].enabled == Active(r) && a !in issued
                        && forall b :: b in users ==> users[b].username != r.username)
  }

  /** Giving account `a` to the next remote user keeps the loop's state. */
  lemma {:induction false} MatchExtends(start: Users, issued: set<Id>, users: Users, fetched: seq<RemoteUser>,
                     who: seq<Id>, a: Id, after: Users)
    requires FetchedDistinct(fetched) && Matched(start, issued, users, fetched, who) && |who| < |fetched|
    requires Gives(issued, users, fetched[|who|], a, after)
    ensures Matched(start, issued, after, fetched, who + [a])
    ensures a !in who
  {
    NotYetGiven(users, fetched, who, a);
    AccountsExtend(issued, users, fetched, who, a, after);
    KeptExtends(start, issued, users, fetched, who, a, after);
    PrioritiesExtend(start, issued, users, fetched, who, a, after);
  }

  lemma {:induction false} PrioritiesExtend(start: Users, issued: set<Id>, users: Users, fetched: seq<RemoteUser>,
                         who: seq<Id>, a: Id, after: Users)
    requires |who| < |fetched| && Kept(start, issued, users, fetched, who) && a !in who
    requires Gives(issued, users, fetched[|who|], a, after)
    requires Priorities(start, fetched, who)
    ensures Priorities(start, fetched, who + [a])
  {
    var more := who + [a];
    assert more[..|who|] == who && more[..|who| + 1] == more;
    forall j, b | 0 <= j < |more| && b in start
      ensures start[b].remnawaveUuid == Some(fetched[j].uuid) ==> b in more[..j + 1]
      ensures start[b].username == fetched[j].username && more[j] !in start ==> b in more[..j]
    {
      if j < |who| {
        assert more[..j + 1] == who[..j + 1] && more[..j] == who[..j];
      } else if b !in who {
        assert users[b] == start[b];
      }
    }
  }

  lemma {:induction false} NotYetGiven(users: Users, fetched: seq<RemoteUser>, who: seq<Id>, a: Id)
    requires FetchedDistinct(fetched) && |who| < |fetched| && Accounts(users, fetched, who)
    requires var r := fetched[|who|];
      a in users ==> users[a].remnawaveUuid == Some(r.uuid) || users[a].username == r.username
    ensures a !in who
  {
    forall j | 0 <= j < |who|
      ensures who[j] != a
    {
      assert Carries(users[who[j]], fetched[j]);
    }
  }

  lemma {:induction false} AccountsExtend(issued: set<Id>, users: Users, fetched: seq<RemoteUser>, who: seq<Id>, a: Id, after: Users)
    requires |who| < |fetched| && Accounts(users, fetched, who) && a !in who
    requires Gives(issued, users, fetched[|who|], a, after)
    ensures Accounts(after, fetched, who + [a])
  {
    assert HasUuid(fetched, fetched[|who|].uuid);
  }

  lemma {:induction false} RowExtends(start: Users, users: Users, r: RemoteUser, a: Id, after: Users, b: Id)
    requires b in start && b in users && OnlyIdentityChanged(start[b], users[b]) && users[b].enabled == start[b].enabled
    requires a in after && after == users[a := after[a]] && (a in users ==> after[a] == Updated(users[a], r))
    ensures b in after && OnlyIdentityChanged(start[b], after[b]) && after[b].enabled == start[b].enabled
  {
  }

  lemma {:induction false} MatchedByKey(start: Users, users: Users, fetched: seq<RemoteUser>, who: seq<Id>, a: Id, j: nat)
    requires |who| < |fetched| && j <= |who| && (who + [a])[j] in start
    requires j < |who| ==> start[who[j]].remnawaveUuid == Some(fetched[j].uuid) || start[who[j]].username == fetched[j].username
    requires a in start ==> start[a].remnawaveUuid == Some(fetched[|who|].uuid) || start[a].username == fetched[|who|].username
    ensures var b := (who + [a])[j];
      start[b].remnawaveUuid == Some(fetched[j].uuid) || start[b].username == fetched[j].username
  {
  }

  lemma {:induction false} KeptExtends(start: Users, issued: set<Id>, users: Users, fetched: seq<RemoteUser>,
                     who: seq<Id>, a: Id, after: Users)
    requires |who| < |fetched| && Kept(start, issued, users, fetched, who) && a !in who
    requires Gives(issued, users, fetched[|who|], a, after)
    ensures Kept(start, issued, after, fetched, who + [a])
  {
    var more := who + [a];
    forall b | b in start
      ensures b in after && OnlyIdentityChanged(start[b], after[b]) && after[b].enabled == start[b].enabled
    {
      RowExtends(start, users, fetched[|who|], a, after, b);
    }
    assert more[|who|] == a;
    forall j | 0 <= j < |more| && more[j] in start
      ensures start[more[j]].remnawaveUuid == Some(fetched[j].uuid) || start[more[j]].username == fetched[j].username
    {
      MatchedByKey(start, users, fetched, who, a, j);
    }
  }

  method MatchOne(db: Database, r: RemoteUser, now: DateTime, issued: set<Id>) returns (a: Id, toggle: bool, isNew: bool)
    requires UuidsDistinct(db.users)
    modifies db`users
    ensures Gives(issued, old(db.users), r, a, db.users)
    ensures isNew == (a !in old(db.users))
    ensures toggle == (db.users[a].enabled != Active(r))
    ensures db.users[a] == if isNew then Created(r, now) else Updated(old(db.users)[a], r)
  {
    var local := db.GetUserByUuid(r.uuid);
    if local.None? {
      local := db.GetUserByUsername(r.username);
    }
    isNew := local.None?;
    if local.Some? {
      a := local.value;
      toggle := db.users[a].enabled != (r.status == "ACTIVE");
      db.UpdateUser(a, Updated(db.users[a], r));
    } else {
      a := FreshId(db.users.Keys + issued);
      toggle := false;
      db.users := db.users[a := Created(r, now)];
    }
  }

  /** One iteration of step 2, with its effect on the list of toggles. */
  method MatchNext(db: Database, ghost start: Users, fetched: seq<RemoteUser>, who: seq<Id>, toggles: seq<(Id, bool)>,
                   now: DateTime, issued: set<Id>)
    returns (a: Id, more: seq<(Id, bool)>, isNew: bool)
    requires FetchedDistinct(fetched) && |who| < |fetched| && Matched(start, issued, db.users, fetched, who)
    requires TogglesFit(db.users, fetched, who, toggles) && Filled(start, db.users, fetched, who, now)
    modifies db`users
    ensures Matched(start, issued, db.users, fetched, who + [a])
    ensures TogglesFit(db.users, fetched, who + [a], more)
    ensures Filled(start, db.users, fetched, who + [a], now)
    ensures isNew == (a !in start) && a !in who
  {
    ghost var users := db.users;
    var toggle;
    a, toggle, isNew := MatchOne(db, fetched[|who|], now, issued);
    more := if toggle then toggles + [(a, Active(fetched[|who|]))] else toggles;
    MatchStep(start, issued, users, fetched, who, a, db.users, toggles, more, now);
  }

  lemma {:induction false} MatchStep(start: Users, issued: set<Id>, users: Users, fetched: seq<RemoteUser>, who: seq<Id>, a: Id, after: Users,
                                     toggles: seq<(Id, bool)>, more: seq<(Id, bool)>, now: DateTime)
    requires FetchedDistinct(fetched) && |who| < |fetched| && Matched(start, issued, users, fetched, who)
    requires TogglesFit(users, fetched, who, toggles) && Filled(start, users, fetched, who, now)
    requires Gives(issued, users, fetched[|who|], a, after)
    requires more == if after[a].enabled != Active(fetched[|who|]) then toggles + [(a, Active(fetched[|who|]))] else toggles
    requires after[a] == if a in users then Updated(users[a], fetched[|who|]) else Created(fetched[|who|], now)
    ensures Matched(start, issued, after, fetched, who + [a]) && a !in who
    ensures TogglesFit(after, fetched, who + [a], more)
    ensures Filled(start, after, fetched, who + [a], now) && (a in users <==> a in start)
  {
    MatchExtends(start, issued, users, fetched, who, a, after);
    TogglesExtend(users, after, fetched, who, a, toggles, more);
    FilledExtends(start, issued, users, fetched, who, a, after, now);
  }

  /** Step 2: match or create every remote user. */
  method MatchUsers(db: Database, fetched: seq<RemoteUser>, settings: Settings, now: DateTime, issued: set<Id>)
    returns (toggles: seq<(Id, bool)>, creates: seq<CreateRequest>, who: seq<Id>)
    requires FetchedDistinct(fetched) && UuidsDistinct(db.users)
    requires forall a :: a in db.users && Linked(db.users[a]) ==> HasUuid(fetched, db.users[a].remnawaveUuid.value)
    modifies db`users
    ensures |who| == |fetched| && Matched(old(db.users), issued, db.users, fetched, who)
    ensures TogglesFit(db.users, fetched, who, toggles)
    ensures Filled(old(db.users), db.users, fetched, who, now)
    ensures RequestsFit(old(db.users), fetched, who, settings, creates)
  {
    toggles, creates, who := [], [], [];
    ghost var start := db.users;
    for i := 0 to |fetched|
      invariant |who| == i && Matched(start, issued, db.users, fetched, who)
      invariant TogglesFit(db.users, fetched, who, toggles)
      invariant Filled(start, db.users, fetched, who, now) && RequestsFit(start, fetched, who, settings, creates)
    {
      var a, isNew;
      a, toggles, isNew := MatchNext(db, start, fetched, who, toggles, now, issued);
      ghost var before, done := creates, who;
      who := who + [a];
      if isNew && settings.createConns && settings.serverId.Some? {
        creates := creates + [CreateRequest(a, settings.serverId.value, settings.protocol, fetched[i].username + "_vpn")];
      }
      RequestsExtend(start, fetched, done, settings, a, before, creates);
    }
  }

  lemma {:induction false} TogglesExtend(users: Users, after: Users, fetched: seq<RemoteUser>, who: seq<Id>, a: Id,
                      toggles: seq<(Id, bool)>, more: seq<(Id, bool)>)
    requires |who| < |fetched| && forall j :: 0 <= j < |who| ==> who[j] in users
    requires TogglesFit(users, fetched, who, toggles)
    requires a !in who && a in after
    requires forall b :: b in users && b != a ==> b in after && after[b].enabled == users[b].enabled
    requires var r := fetched[|who|];
      more == if after[a].enabled != Active(r) then toggles + [(a, Active(r))] else toggles
    ensures TogglesFit(after, fetched, who + [a], more)
  {
    var all := who + [a];
    forall b: Id, f ensures (b, f) in more <==> Corrects(after, fetched, all, b, f) {
      CorrectsExtend(users, after, fetched, who, a, b, f);
    }
  }

  lemma {:induction false} CorrectsExtend(users: Users, after: Users, fetched: seq<RemoteUser>, who: seq<Id>, a: Id, b: Id, f: bool)
    requires |who| < |fetched| && (forall j :: 0 <= j < |who| ==> who[j] in users) && a !in who && a in after
    requires forall c :: c in users && c != a ==> c in after && after[c].enabled == users[c].enabled
    ensures Corrects(after, fetched, who + [a], b, f) <==>
      if b == a then after[a].enabled != f && f == Active(fetched[|who|]) else Corrects(users, fetched, who, b, f)
    ensures b == a ==> !Corrects(users, fetched, who, b, f)
  {
    var all := who + [a];
    assert all[|who|] == a;
    assert forall j :: 0 <= j < |who| ==> all[j] == who[j];
  }

  /** What a sync that raised no error has done to the user table. */
  ghost predicate SyncedFrom(before: Users, after: Users, fetched: seq<RemoteUser>, who: seq<Id>) {
    && Synchronized(after, fetched)
    && |who| == |fetched| && Distinct(who)
    && (forall j :: 0 <= j < |who| ==> who[j] in after && Carries(after[who[j]], fetched[j]))
    && RowsKept(before, after, fetched)
    && Priorities(Survivors(before, after), fetched, who)
    && (NoNewcomer(Survivors(before, after), fetched) ==> AllKeepTheirs(Survivors(before, after), fetched, who))
  }

  /** Some local user holds the uuid of the remote user. */
  ghost predicate HasHolder(users: Users, uuid: string) {
    exists a :: a in users && users[a].remnawaveUuid == Some(uuid)
  }

  /** Every remote user is known: its uuid is held by a surviving local user. */
  ghost predicate NoNewcomer(users: Users, fetched: seq<RemoteUser>) {
    forall j :: 0 <= j < |fetched| ==> HasHolder(users, fetched[j].uuid)
  }

  /** Remote user `j` is given the account that held its uuid all along. */
  ghost predicate KeepsIts(start: Users, fetched: seq<RemoteUser>, who: seq<Id>, j: nat)
    requires j < |who| <= |fetched|
  {
    who[j] in start && start[who[j]].remnawaveUuid == Some(fetched[j].uuid)
  }

  ghost predicate AllKeepTheirs(start: Users, fetched: seq<RemoteUser>, who: seq<Id>)
    requires |who| == |fetched|
  {
    forall j :: 0 <= j < |who| ==> KeepsIts(start, fetched, who, j)
  }

  ghost predicate FirstKeepTheirs(start: Users, fetched: seq<RemoteUser>, who: seq<Id>, n: nat)
    requires n <= |who| <= |fetched|
  {
    forall j :: 0 <= j < n ==> KeepsIts(start, fetched, who, j)
  }

  /** The holder `a` of the uuid was not given to anybody before, so it is given now. */
  lemma {:induction false} NextKeepsIts(start: Users, fetched: seq<RemoteUser>, who: seq<Id>, k: nat, a: Id, j: nat)
    requires FetchedDistinct(fetched) && j <= k < |who| <= |fetched|
    requires forall i :: 0 <= i < k ==> KeepsIts(start, fetched, who, i)
    requires a in start && start[a].remnawaveUuid == Some(fetched[k].uuid) && who[j] == a
    ensures KeepsIts(start, fetched, who, k)
  {
    assert j < k ==> KeepsIts(start, fetched, who, j);
  }

  lemma {:induction false} HolderIsGiven(start: Users, fetched: seq<RemoteUser>, who: seq<Id>, k: nat) returns (a: Id, j: nat)
    requires |who| <= |fetched| && Priorities(start, fetched, who) && k < |who| && HasHolder(start, fetched[k].uuid)
    ensures j <= k && a in start && start[a].remnawaveUuid == Some(fetched[k].uuid) && who[j] == a
  {
    a :| a in start && start[a].remnawaveUuid == Some(fetched[k].uuid);
    assert a in who[..k + 1];
    j :| 0 <= j < |who[..k + 1]| && who[..k + 1][j] == a;
  }

  lemma {:induction false} KnownUserKeepsIts(start: Users, fetched: seq<RemoteUser>, who: seq<Id>, k: nat)
    requires FetchedDistinct(fetched) && |who| == |fetched| && Priorities(start, fetched, who) && k < |who|
    requires HasHolder(start, fetched[k].uuid) && FirstKeepTheirs(start, fetched, who, k)
    ensures FirstKeepTheirs(start, fetched, who, k + 1)
  {
    var a, j := HolderIsGiven(start, fetched, who, k);
    NextKeepsIts(start, fetched, who, k, a, j);
  }

  /** Lookup is by uuid first: without newcomers nobody loses an account, however names were exchanged. */
  lemma {:induction false} KnownUsersKeepTheirs(start: Users, fetched: seq<RemoteUser>, who: seq<Id>, n: nat)
    requires FetchedDistinct(fetched) && |who| == |fetched| && Priorities(start, fetched, who)
    requires NoNewcomer(start, fetched) && n <= |who|
    ensures FirstKeepTheirs(start, fetched, who, n)
  {
    if n > 0 {
      KnownUsersKeepTheirs(start, fetched, who, n - 1);
      assert HasHolder(start, fetched[n - 1].uuid);
      KnownUserKeepsIts(start, fetched, who, n - 1);
    }
  }

  /** A newcomer takes over the account that alone carries its name, even one linked to somebody else. */
  lemma {:induction false} NewcomerTakesTheName(issued: set<Id>, users: Users, r: RemoteUser, x: Id, a: Id, after: Users)
    requires Gives(issued, users, r, a, after) && !HasHolder(users, r.uuid)
    requires x in users && users[x].username == r.username
    requires forall b :: b in users && users[b].username == r.username ==> b == x
    ensures a == x && after[x].remnawaveUuid == Some(r.uuid)
  {
    assert a in users ==> (users[a].remnawaveUuid == Some(r.uuid) ==> HasHolder(users, r.uuid));
  }

  ghost function Survivors(before: Users, after: Users): Users {
    map a | a in before && a in after :: before[a]
  }

  /** Exactly the users whose uuid vanished are gone, and the others keep what a sync must not touch. */
  ghost predicate RowsKept(before: Users, after: Users, fetched: seq<RemoteUser>) {
    forall a :: a in before ==>
      && (a in after <==> (Linked(before[a]) ==> HasUuid(fetched, before[a].remnawaveUuid.value)))
      && (a in after ==> RowKept(before[a], after[a], fetched))
  }

  ghost predicate RowKept(before: User, after: User, fetched: seq<RemoteUser>) {
    && OnlyIdentityChanged(before, after)
    && (Unrelated(before, fetched) ==> after == before)
    && (NameIsOwn(before, fetched) ==> after.remnawaveUuid == before.remnawaveUuid)
  }

  // ----- The calls of a sync -----

  /** The user is linked to a remote user who is no longer there. */
  ghost predicate Vanished(users: Users, fetched: seq<RemoteUser>, a: Id) {
    a in users && Linked(users[a]) && !HasUuid(fetched, users[a].remnawaveUuid.value)
  }

  /** A removal of a vanished user's peer. */
  ghost predicate Cleans(users: Users, conns: Connections, s: ServerId, fetched: seq<RemoteUser>, a: Action) {
    a.RemovePeer? && a.conn in conns && a.row == conns[a.conn] && a.row.serverId == s && Vanished(users, fetched, a.row.userId)
  }

  /** A toggle of a peer to a remote status that its user did not have, or the first connection of a new user. */
  ghost predicate Aligns(users: Users, conns: Connections, s: ServerId, fetched: seq<RemoteUser>, who: seq<Id>, settings: Settings, a: Action)
    requires |who| <= |fetched|
  {
    match a
    case RemovePeer(_, _) => false
    case TogglePeer(c, row, f) => c in conns && row == conns[c] && row.serverId == s && Corrects(users, fetched, who, row.userId, f)
    case AddPeer(r) => r.serverId == s && Requested(users, fetched, who, settings, r)
  }

  lemma {:induction false} OwedCleans(actions: seq<Action>, users: Users, conns: Connections, s: ServerId, fetched: seq<RemoteUser>, gone: seq<Id>,
                                      a: Action)
    requires Owed(actions, conns, s, gone, [], []) && CollectedGone(users, gone, fetched)
    ensures a in actions <==> Cleans(users, conns, s, fetched, a)
  {
    OwedAdds(actions, conns, s, gone, [], [], a);
    match a
    case RemovePeer(c, row) =>
    case TogglePeer(c, row, f) =>
    case AddPeer(r) =>
  }

  /** Which calls of the second round are owed, in terms of the tables before the sync. */
  lemma {:induction false} OwedAligns(actions: seq<Action>, users: Users, conns: Connections, start: Users, left: Connections, issued: set<Id>,
                                      matched: Users, s: ServerId, fetched: seq<RemoteUser>, who: seq<Id>, settings: Settings,
                                      toggles: seq<(Id, bool)>, creates: seq<CreateRequest>, a: Action)
    requires |who| <= |fetched| && Kept(start, issued, matched, fetched, who) && Remains(users, conns, start, left) && users.Keys <= issued
    requires TogglesFit(matched, fetched, who, toggles) && RequestsFit(start, fetched, who, settings, creates)
    requires Owed(actions, left, s, [], toggles, creates) && forall j :: 0 <= j < |who| ==> who[j] in matched
    ensures a in actions <==> Aligns(users, conns, s, fetched, who, settings, a)
  {
    OwedAdds(actions, left, s, [], toggles, creates, a);
    match a
    case RemovePeer(c, row) =>
    case TogglePeer(c, row, f) => if c in conns && row == conns[c] { CorrectsSame(users, start, issued, matched, fetched, who, row.userId, f); }
    case AddPeer(r) => RequestedSame(users, start, issued, matched, fetched, who, settings, r);
  }

  /** The first round leaves the rows of the users who stay. */
  ghost predicate Remains(users: Users, conns: Connections, start: Users, left: Connections) {
    && (forall a :: a in start ==> a in users && start[a] == users[a])
    && (forall c :: c in conns ==> conns[c].userId in users)
    && (forall c :: c in left <==> c in conns && conns[c].userId in start)
    && (forall c :: c in left ==> left[c] == conns[c])
  }

  lemma {:induction false} CorrectsSame(users: Users, start: Users, issued: set<Id>, matched: Users, fetched: seq<RemoteUser>, who: seq<Id>, a: Id,
                                        f: bool)
    requires |who| <= |fetched| && Kept(start, issued, matched, fetched, who) && users.Keys <= issued
    requires forall b :: b in start ==> b in users && start[b] == users[b]
    requires a in users && forall j :: 0 <= j < |who| ==> who[j] in matched
    ensures Corrects(users, fetched, who, a, f) <==> a in start && Corrects(matched, fetched, who, a, f)
  {
  }

  lemma {:induction false} RequestedSame(users: Users, start: Users, issued: set<Id>, matched: Users, fetched: seq<RemoteUser>, who: seq<Id>,
                                         settings: Settings, r: CreateRequest)
    requires |who| <= |fetched| && Kept(start, issued, matched, fetched, who) && users.Keys <= issued
    requires forall b :: b in start ==> b in users
    requires forall j :: 0 <= j < |who| ==> who[j] in matched
    ensures Requested(users, fetched, who, settings, r) <==> Requested(start, fetched, who, settings, r)
  {
    assert forall j :: 0 <= j < |who| ==> (who[j] in users <==> who[j] in start);
  }

  /** Only peers of vanished users are removed, and on a server that is done every one of them. */
  ghost predicate RemovesVanished(calls: seq<Call>, turns: seq<Turn>, s: ServerId, users: Users, conns: Connections, fetched: seq<RemoteUser>) {
    && (forall a :: a in CallsOn(calls, s) ==> Cleans(users, conns, s, fetched, a))
    && (Done(calls, turns, s) ==> forall a :: Cleans(users, conns, s, fetched, a) ==> a in CallsOn(calls, s))
  }

  /** Only aligning calls are made, toggles before additions, and on a server that is done every one of them. */
  ghost predicate AlignsPeers(calls: seq<Call>, turns: seq<Turn>, s: ServerId, users: Users, conns: Connections, fetched: seq<RemoteUser>,
                              who: seq<Id>, settings: Settings)
    requires |who| <= |fetched|
  {
    && (forall i, j :: 0 <= i < j < |CallsOn(calls, s)| && CallsOn(calls, s)[j].TogglePeer? ==> CallsOn(calls, s)[i].TogglePeer?)
    && (forall a :: a in CallsOn(calls, s) ==> Aligns(users, conns, s, fetched, who, settings, a))
    && (Done(calls, turns, s) ==> forall a :: Aligns(users, conns, s, fetched, who, settings, a) ==> a in CallsOn(calls, s))
  }

  lemma {:induction false} FirstRound(calls: seq<Call>, turns: seq<Turn>, s: ServerId, users: Users, conns: Connections, fetched: seq<RemoteUser>,
                                      gone: seq<Id>)
    requires CollectedGone(users, gone, fetched) && Begun(CallsOn(calls, s), conns, s, gone, [], [])
    requires Quiet(turns, s) ==> Served(CallsOn(calls, s), TurnsOf(turns, s), conns, s, gone, [], [])
    ensures RemovesVanished(calls, turns, s, users, conns, fetched)
  {
    var plan :| Owed(plan, conns, s, gone, [], []) && CallsOn(calls, s) <= plan;
    forall a | a in CallsOn(calls, s) ensures Cleans(users, conns, s, fetched, a) {
      assert a in plan;
      OwedCleans(plan, users, conns, s, fetched, gone, a);
    }
    if Done(calls, turns, s) {
      forall a | Cleans(users, conns, s, fetched, a) ensures a in CallsOn(calls, s) {
        OwedCleans(CallsOn(calls, s), users, conns, s, fetched, gone, a);
      }
    }
  }

  lemma {:induction false} SecondRound(calls: seq<Call>, turns: seq<Turn>, s: ServerId, users: Users, conns: Connections, start: Users,
                                       left: Connections, issued: set<Id>, matched: Users, fetched: seq<RemoteUser>, who: seq<Id>,
                                       settings: Settings, toggles: seq<(Id, bool)>, creates: seq<CreateRequest>)
    requires |who| <= |fetched| && Kept(start, issued, matched, fetched, who) && Remains(users, conns, start, left) && users.Keys <= issued
    requires TogglesFit(matched, fetched, who, toggles) && RequestsFit(start, fetched, who, settings, creates)
    requires forall j :: 0 <= j < |who| ==> who[j] in matched
    requires Begun(CallsOn(calls, s), left, s, [], toggles, creates)
    requires Quiet(turns, s) ==> Served(CallsOn(calls, s), TurnsOf(turns, s), left, s, [], toggles, creates)
    ensures AlignsPeers(calls, turns, s, users, conns, fetched, who, settings)
  {
    var actions := CallsOn(calls, s);
    var plan :| Owed(plan, left, s, [], toggles, creates) && actions <= plan;
    forall a | a in actions ensures Aligns(users, conns, s, fetched, who, settings, a) {
      assert a in plan;
      OwedAligns(plan, users, conns, start, left, issued, matched, s, fetched, who, settings, toggles, creates, a);
    }
    forall i, j | 0 <= i < j < |actions| && actions[j].TogglePeer? ensures actions[i].TogglePeer? {
      assert actions[i] == plan[i] && actions[j] == plan[j] && Rank(plan[i]) <= Rank(plan[j]);
      assert actions[i] in actions;
    }
    if Done(calls, turns, s) {
      forall a | Aligns(users, conns, s, fetched, who, settings, a) ensures a in actions {
        OwedAligns(actions, users, conns, start, left, issued, matched, s, fetched, who, settings, toggles, creates, a);
      }
    }
  }

  /** Everyone a connection is asked for exists. */
  lemma {:induction false} RequestersExist(start: Users, matched: Users, fetched: seq<RemoteUser>, who: seq<Id>, settings: Settings,
                                           creates: seq<CreateRequest>, turns: seq<Turn>, s: ServerId)
    requires |who| <= |fetched| && RequestsFit(start, fetched, who, settings, creates) && Quiet(turns, s)
    requires forall j :: 0 <= j < |who| ==> who[j] in matched
    ensures Calm(matched, creates, turns, s)
  {
    forall r | r in creates ensures r.userId in matched { assert Requested(start, fetched, who, settings, r); }
  }

  lemma {:induction false} FirstRoundLeaves(users: Users, conns: Connections, gone: seq<Id>, start: Users, left: Connections)
    requires ReferencesHold(users, conns) && start == SettledUsers(users, gone, [])
    requires SettledConnections(users, conns, gone, [], left)
    ensures Remains(users, conns, start, left)
  {
  }

  lemma {:induction false} FilledSettles(before: Users, start: Users, issued: set<Id>, matched: Users, after: Users, fetched: seq<RemoteUser>,
                                         who: seq<Id>, now: DateTime)
    requires |who| == |fetched| && Filled(start, matched, fetched, who, now) && Kept(start, issued, matched, fetched, who)
    requires before.Keys <= issued && forall a :: a in start ==> a in before && start[a] == before[a]
    requires Switched(matched, after, fetched, who)
    ensures Filled(before, after, fetched, who, now)
  {
    forall j | 0 <= j < |who|
      ensures who[j] in after
      ensures who[j] in before ==> TakesDetails(before[who[j]], fetched[j], after[who[j]])
      ensures who[j] !in before ==> IsNewAccount(fetched[j], now, after[who[j]])
    {
      assert who[j] in before <==> who[j] in start;
    }
  }

  /** The whole sync, from the fetched list to the settled tables. */
  method SyncUsers(db: Database, fetched: seq<RemoteUser>, settings: Settings, now: DateTime, servers: set<ServerId>,
                   deleteTurns: seq<Turn>, turns: seq<Turn>)
    returns (who: seq<Id>, removals: seq<Call>, calls: seq<Call>)
    requires ReferencesHold(db.users, db.connections)
    requires FetchedDistinct(fetched) && UuidsDistinct(db.users)
    requires FreshIds(deleteTurns, db.connections.Keys) && FreshIds(turns, db.connections.Keys)
    modifies db
    ensures ReferencesHold(db.users, db.connections)
    ensures SyncedFrom(old(db.users), db.users, fetched, who) && Filled(old(db.users), db.users, fetched, who, now)
    ensures forall j :: 0 <= j < |who| ==> (db.users[who[j]].enabled <==> fetched[j].status == "ACTIVE")
    ensures forall c :: c in old(db.connections) ==>
      (c in db.connections <==> old(db.connections)[c].userId in db.users)
    ensures forall c :: c in old(db.connections) && c in db.connections ==> db.connections[c] == old(db.connections)[c]
    ensures forall s :: s in servers ==>
      && RemovesVanished(removals, deleteTurns, s, old(db.users), old(db.connections), fetched)
      && AlignsPeers(calls, turns, s, old(db.users), old(db.connections), fetched, who, settings)
    ensures DistinctNew(turns) ==> forall i :: 0 <= i < |calls| && Adds(calls[i], db.users) ==>
      calls[i].newId in db.connections && AnswersCall(db.connections[calls[i].newId], calls[i])
  {
    ghost var users0, conns0 := db.users, db.connections;
    var issued := db.users.Keys;
    var gone := CollectDeletions(db, fetched);
    removals := PerformMassOperations(db, gone, [], [], servers, deleteTurns, conns0.Keys);
    forall s | s in servers ensures RemovesVanished(removals, deleteTurns, s, users0, conns0, fetched) {
      assert Quiet(deleteTurns, s) ==> Calm(users0, [], deleteTurns, s);
      FirstRound(removals, deleteTurns, s, users0, conns0, fetched, gone);
    }
    ghost var start, conns1 := db.users, db.connections;
    OldRowsOnly(users0, conns0, gone, conns1);
    var toggles, creates;
    toggles, creates, who := MatchUsers(db, fetched, settings, now, issued);
    ghost var matched := db.users;
    calls := PerformMassOperations(db, [], toggles, creates, servers, turns, conns0.Keys);
    SyncSettles(users0, gone, start, issued, matched, fetched, who, toggles, db.users, now);
    ConnectionsSettle(users0, conns0, gone, conns1, matched, creates, db.connections, db.users);
    FirstRoundLeaves(users0, conns0, gone, start, conns1);
    forall s | s in servers ensures AlignsPeers(calls, turns, s, users0, conns0, fetched, who, settings) {
      if Quiet(turns, s) { RequestersExist(start, matched, fetched, who, settings, creates, turns, s); }
      SecondRound(calls, turns, s, users0, conns0, start, conns1, issued, matched, fetched, who, settings, toggles, creates);
    }
  }

  /** An account of a remote user that was not fetched is deleted. */
  lemma {:induction false} UnfetchedAreDeleted(before: Users, after: Users, remote: seq<RemoteUser>, n: nat, who: seq<Id>,
                                               j: nat, a: Id)
    requires FetchedDistinct(remote) && n <= j < |remote| && SyncedFrom(before, after, remote[..n], who)
    requires a in before && Linked(before[a]) && before[a].remnawaveUuid == Some(remote[j].uuid)
    ensures a !in after
  {
    assert forall i :: 0 <= i < n ==> remote[..n][i] == remote[i];
    assert !HasUuid(remote[..n], remote[j].uuid);
  }

  /** Every linked account of a remote user is still there. */
  ghost predicate NobodyLost(before: Users, after: Users, remote: seq<RemoteUser>) {
    forall a :: a in before && Linked(before[a]) && HasUuid(remote, before[a].remnawaveUuid.value) ==> a in after
  }

  ghost predicate HasLinked(users: Users, r: RemoteUser) {
    exists a :: a in users && Linked(users[a]) && users[a].remnawaveUuid == Some(r.uuid)
  }

  /** When every remote user has an account, no account is lost exactly when the whole list was fetched. */
  lemma {:induction false} NobodyLostIff(before: Users, after: Users, remote: seq<RemoteUser>, fetched: seq<RemoteUser>,
                                         who: seq<Id>)
    requires FetchedDistinct(remote) && fetched <= remote && SyncedFrom(before, after, fetched, who)
    requires forall j :: 0 <= j < |remote| ==> HasLinked(before, remote[j])
    ensures NobodyLost(before, after, remote) <==> fetched == remote
  {
    var n := |fetched|;
    assert fetched == remote[..n];
    if n < |remote| {
      assert HasLinked(before, remote[n]);
      var a :| a in before && Linked(before[a]) && before[a].remnawaveUuid == Some(remote[n].uuid);
      UnfetchedAreDeleted(before, after, remote, n, who, n, a);
      assert HasUuid(remote, remote[n].uuid);
    }
  }

  lemma {:induction false} DistinctPrefix(remote: seq<RemoteUser>, fetched: seq<RemoteUser>)
    requires FetchedDistinct(remote) && fetched <= remote
    ensures FetchedDistinct(fetched)
  {
    assert forall i :: 0 <= i < |fetched| ==> fetched[i] == remote[i];
  }

  /** The whole job: the list is fetched and synchronized; a failed fetch changes nothing. */
  method FetchAndSync(db: Database, ghost remote: seq<RemoteUser>, answers: seq<Answer>, settings: Settings, now: DateTime,
                      servers: set<ServerId>, deleteTurns: seq<Turn>, turns: seq<Turn>)
    returns (result: Fetch, who: seq<Id>, removals: seq<Call>, calls: seq<Call>)
    requires ReferencesHold(db.users, db.connections)
    requires FetchedDistinct(remote) && Serves(remote, answers, 0) && UuidsDistinct(db.users)
    requires FreshIds(deleteTurns, db.connections.Keys) && FreshIds(turns, db.connections.Keys)
    modifies db
    ensures result == FetchFrom(answers, [])
    ensures !result.Fetched? ==> db.users == old(db.users) && db.connections == old(db.connections)
    ensures result.Fetched? ==> result.users <= remote && SyncedFrom(old(db.users), db.users, result.users, who)
    ensures result.Fetched? && Honest(remote, answers, 0) ==> Synchronized(db.users, remote)
    ensures result.Fetched? && (forall j :: 0 <= j < |remote| ==> HasLinked(old(db.users), remote[j])) ==>
      (NobodyLost(old(db.users), db.users, remote) <==> Honest(remote, answers, 0))
  {
    who, removals, calls := [], [], [];
    result := FetchAll(answers);
    if result.Fetched? {
      ghost var users0 := db.users;
      assert remote[..0] == [];
      FetchIsPrefix(remote, answers, 0);
      FetchIsCompleteIff(remote, answers, 0);
      DistinctPrefix(remote, result.users);
      who, removals, calls := SyncUsers(db, result.users, settings, now, servers, deleteTurns, turns);
      if forall j :: 0 <= j < |remote| ==> HasLinked(users0, remote[j]) {
        NobodyLostIff(users0, db.users, remote, result.users, who);
      }
    }
  }

  lemma {:induction false} OldRowsOnly(users: Users, conns: Connections, gone: seq<Id>, after: Connections)
    requires SettledConnections(users, conns, gone, [], after)
    ensures forall c :: c in after ==> c in conns
  {
  }

  lemma {:induction false} ConnectionsSettle(users: Users, conns0: Connections, gone: seq<Id>, conns1: Connections,
                          matched: Users, creates: seq<CreateRequest>, conns2: Connections, after: Users)
    requires ReferencesHold(users, conns0)
    requires SettledConnections(users, conns0, gone, [], conns1)
    requires SettledConnections(matched, conns1, [], creates, conns2)
    requires forall a :: a in users ==> (a in after <==> a !in gone)
    requires forall c :: c in conns2 && c !in conns1 ==> c !in conns0
    ensures forall c :: c in conns0 ==> (c in conns2 <==> conns0[c].userId in after)
    ensures forall c :: c in conns0 && c in conns2 ==> conns2[c] == conns0[c]
  {
  }

  lemma {:induction false} EveryoneMirrored(matched: Users, after: Users, fetched: seq<RemoteUser>, who: seq<Id>)
    requires |who| == |fetched| && Accounts(matched, fetched, who)
    requires matched.Keys == after.Keys
    requires forall a :: a in matched ==> after[a].remnawaveUuid == matched[a].remnawaveUuid
    requires forall j :: 0 <= j < |who| ==> after[who[j]] == matched[who[j]].(enabled := Active(fetched[j]))
    ensures Synchronized(after, fetched)
  {
    forall i | 0 <= i < |fetched|
      ensures HasAccount(after, fetched[i])
    {
      assert who[i] in after && Mirrors(after[who[i]], fetched[i]);
    }
  }

  ghost predicate CollectedGone(before: Users, gone: seq<Id>, fetched: seq<RemoteUser>) {
    forall a :: a in gone <==> a in before && Linked(before[a]) && !HasUuid(fetched, before[a].remnawaveUuid.value)
  }

  /** What settling the toggles leaves of the matched table. */
  ghost predicate Switched(matched: Users, after: Users, fetched: seq<RemoteUser>, who: seq<Id>) {
    && after.Keys == matched.Keys && |who| == |fetched|
    && (forall a :: a in after ==> after[a] == matched[a].(enabled := after[a].enabled))
    && (forall a :: a in after && a !in who ==> after[a] == matched[a])
    && (forall j :: 0 <= j < |who| && who[j] in after ==> after[who[j]].enabled == Active(fetched[j]))
  }

  lemma {:induction false} SwitchedByToggles(matched: Users, fetched: seq<RemoteUser>, who: seq<Id>, toggles: seq<(Id, bool)>)
    requires |who| == |fetched| && Distinct(who)
    requires forall j :: 0 <= j < |who| ==> who[j] in matched
    requires TogglesFit(matched, fetched, who, toggles)
    ensures Switched(matched, SettledUsers(matched, [], toggles), fetched, who)
  {
    TogglesSettle(matched, fetched, who, toggles);
  }

  lemma {:induction false} AccountsSettle(matched: Users, after: Users, fetched: seq<RemoteUser>, who: seq<Id>)
    requires |who| == |fetched| && Accounts(matched, fetched, who) && Switched(matched, after, fetched, who)
    ensures Synchronized(after, fetched)
    ensures forall j :: 0 <= j < |who| ==> who[j] in after && Carries(after[who[j]], fetched[j])
  {
    EveryoneMirrored(matched, after, fetched, who);
  }

  lemma {:induction false} TableSettles(before: Users, gone: seq<Id>, start: Users, issued: set<Id>, matched: Users,
                     fetched: seq<RemoteUser>, who: seq<Id>, after: Users)
    requires CollectedGone(before, gone, fetched) && start == SettledUsers(before, gone, []) && before.Keys <= issued
    requires |who| == |fetched| && Kept(start, issued, matched, fetched, who) && Accounts(matched, fetched, who)
    requires Switched(matched, after, fetched, who)
    ensures RowsKept(before, after, fetched) && start == Survivors(before, after)
  {
    ExactlyTheGoneAreGone(before, gone, start, after, fetched);
    RowsSettle(before, start, issued, matched, fetched, who, after);
  }

  lemma {:induction false} SyncSettles(before: Users, gone: seq<Id>, start: Users, issued: set<Id>, matched: Users,
                    fetched: seq<RemoteUser>, who: seq<Id>, toggles: seq<(Id, bool)>, after: Users, now: DateTime)
    requires FetchedDistinct(fetched) && |who| <= |fetched| && Filled(start, matched, fetched, who, now)
    requires CollectedGone(before, gone, fetched) && start == SettledUsers(before, gone, []) && before.Keys <= issued
    requires Matched(start, issued, matched, fetched, who) && |who| == |fetched|
    requires TogglesFit(matched, fetched, who, toggles) && after == SettledUsers(matched, [], toggles)
    ensures SyncedFrom(before, after, fetched, who) && Filled(before, after, fetched, who, now)
    ensures forall j :: 0 <= j < |who| ==> (after[who[j]].enabled <==> fetched[j].status == "ACTIVE")
  {
    WhoDistinct(start, issued, matched, fetched, who);
    SwitchedByToggles(matched, fetched, who, toggles);
    AccountsSettle(matched, after, fetched, who);
    TableSettles(before, gone, start, issued, matched, fetched, who, after);
    FilledSettles(before, start, issued, matched, after, fetched, who, now);
    if NoNewcomer(start, fetched) { KnownUsersKeepTheirs(start, fetched, who, |who|); }
  }

  lemma {:induction false} ExactlyTheGoneAreGone(before: Users, gone: seq<Id>, start: Users, after: Users, fetched: seq<RemoteUser>)
    requires forall a :: a in gone <==>
      a in before && Linked(before[a]) && !HasUuid(fetched, before[a].remnawaveUuid.value)
    requires start == SettledUsers(before, gone, [])
    requires start.Keys <= after.Keys && forall a :: a in after && a !in start ==> a !in before
    ensures start == Survivors(before, after)
    ensures forall a :: a in before ==>
      (a in after <==> (Linked(before[a]) ==> HasUuid(fetched, before[a].remnawaveUuid.value)))
  {
  }

  lemma {:induction false} RowsSettle(before: Users, start: Users, issued: set<Id>, matched: Users,
                   fetched: seq<RemoteUser>, who: seq<Id>, after: Users)
    requires |who| == |fetched| && Kept(start, issued, matched, fetched, who) && Accounts(matched, fetched, who)
    requires start == Survivors(before, after)
    requires forall a :: a in before ==>
      (a in after <==> (Linked(before[a]) ==> HasUuid(fetched, before[a].remnawaveUuid.value)))
    requires forall a :: a in after ==> a in matched && after[a] == matched[a].(enabled := after[a].enabled)
    requires forall a :: a in after && a !in who ==> after[a] == matched[a]
    ensures RowsKept(before, after, fetched)
  {
    forall a | a in before && a in after
      ensures RowKept(before[a], after[a], fetched)
    {
      RowSettles(start, issued, matched, fetched, who, a, after[a]);
    }
  }

  /** What the match loop and the toggles did to one row that was there from the start. */
  lemma {:induction false} RowSettles(start: Users, issued: set<Id>, matched: Users, fetched: seq<RemoteUser>, who: seq<Id>, a: Id, row: User)
    requires |who| == |fetched| && Kept(start, issued, matched, fetched, who) && Accounts(matched, fetched, who)
    requires a in start && row == matched[a].(enabled := row.enabled)
    requires a !in who ==> row == matched[a]
    ensures RowKept(start[a], row, fetched)
  {
    if j :| 0 <= j < |who| && who[j] == a {
      assert Carries(matched[a], fetched[j]);
      assert HasUuid(fetched, fetched[j].uuid) && HasName(fetched, fetched[j].username);
    }
  }

  lemma {:induction false} FlagOfToggles(users: Users, fetched: seq<RemoteUser>, who: seq<Id>, toggles: seq<(Id, bool)>, a: Id, f: bool)
    requires |who| <= |fetched| && TogglesFit(users, fetched, who, toggles)
    ensures LastToggle(toggles, a).Some? && LastToggle(toggles, a).value == f ==> Corrects(users, fetched, who, a, f)
    ensures LastToggle(toggles, a) == None ==> !Corrects(users, fetched, who, a, f)
  {
    assert (a, f) in toggles <==> Corrects(users, fetched, who, a, f);
  }

  /** Settling the collected toggles gives every account the remote status and changes no other flag. */
  lemma {:induction false} TogglesSettle(users: Users, fetched: seq<RemoteUser>, who: seq<Id>, toggles: seq<(Id, bool)>)
    requires |who| == |fetched| && Distinct(who)
    requires forall j :: 0 <= j < |who| ==> who[j] in users
    requires TogglesFit(users, fetched, who, toggles)
    ensures forall j :: 0 <= j < |who| ==>
      SettledUsers(users, [], toggles)[who[j]] == users[who[j]].(enabled := Active(fetched[j]))
    ensures forall a :: a in users && a !in who ==> SettledUsers(users, [], toggles)[a] == users[a]
  {
    forall j | 0 <= j < |who|
      ensures SettledUsers(users, [], toggles)[who[j]] == users[who[j]].(enabled := Active(fetched[j]))
    {
      FlagOfToggles(users, fetched, who, toggles, who[j], true);
      FlagOfToggles(users, fetched, who, toggles, who[j], false);
    }
    forall a | a in users && a !in who
      ensures LastToggle(toggles, a).None?
    {
      FlagOfToggles(users, fetched, who, toggles, a, true);
      FlagOfToggles(users, fetched, who, toggles, a, false);
    }
  }
}
