/**
 What the traffic-control procedures achieve: over every run the devices show
 exactly one class and one filter per limited peer, and the batch rebuild gives
 the same shaping as applying the limits one by one, exactly when no two limited
 clients share a class.
 */
module Shaping {
  import opened Tables
  import opened TrafficControl
  import FilterListing
  import Text

  /** The limit of one direction for one class. */
  datatype Limit = Limit(ip: string, mbps: nat)
  type Limits = map<nat, Limit>

  /** The intended shaping, with no trace of how it was reached. */
  datatype Plan = Plan(poolDown: Rate, poolUp: Rate, down: Limits, up: Limits)

  ghost predicate HasFlow(filters: map<nat, Filter>, id: nat) {
    exists h :: h in filters && filters[h].flow == id
  }

  /** The device shows the plan: pool, default class, and one class and one filter per limited peer. */
  ghost predicate Shaped(d: Device, pool: Rate, limits: Limits) {
    d.htb && ClassesFit(d.classes, pool, limits) && FiltersFit(d.filters, limits)
  }

  ghost predicate ClassesFit(classes: map<nat, HtbClass>, pool: Rate, limits: Limits) {
    && (forall c :: c in limits ==> 101 <= c <= 353 && limits[c].mbps > 0)
    && (forall c :: c in classes <==> c == POOL_CLASS || c == DEFAULT_CLASS || c in limits)
    && classes[POOL_CLASS] == HtbClass(0, pool, pool)
    && classes[DEFAULT_CLASS] == HtbClass(POOL_CLASS, TenGbit, pool)
    && (forall c :: c in limits ==> classes[c] == HtbClass(POOL_CLASS, Mbit(limits[c].mbps), Mbit(limits[c].mbps)))
  }

  ghost predicate FiltersFit(filters: map<nat, Filter>, limits: Limits) {
    && (forall h :: h in filters ==> filters[h].flow in limits && filters[h].ip == limits[filters[h].flow].ip)
    && (forall c :: c in limits ==> HasFlow(filters, c))
    && (forall h, k :: h in filters && k in filters && filters[h].flow == filters[k].flow ==> h == k)
  }

  ghost predicate ShapedAs(tc: Tc, plan: Plan) {
    && tc.ifbExists
    && Shaped(tc.awg0, plan.poolDown, plan.down)
    && Shaped(tc.ifb0, plan.poolUp, plan.up)
  }

  // ----- Single steps -----

  lemma {:induction false} FreshShapes(pool: Rate)
    ensures Shaped(FreshDevice(pool), pool, map[])
  {
  }

  lemma {:induction false} RemoveShapes(d: Device, pool: Rate, limits: Limits, id: nat)
    requires Shaped(d, pool, limits) && 101 <= id <= 353
    ensures Shaped(Removed(d, id), pool, limits - {id})
  {
    LookupIsEquality(d.filters, limits, id);
    assert !InUse(d.(filters := OfOthers(d.filters, id)), id);
    FiltersWithoutFlow(d.filters, limits, id);
  }

  /** The filters of all other classes. */
  function OfOthers(filters: map<nat, Filter>, id: nat): map<nat, Filter> {
    map h | h in filters && filters[h].flow != id :: filters[h]
  }

  /** As long as all classes are peers' classes, the textual lookup takes none for another. */
  lemma {:induction false} LookupIsEquality(filters: map<nat, Filter>, limits: Limits, id: nat)
    requires 101 <= id <= 353 && (forall c :: c in limits ==> 101 <= c <= 353)
    requires forall h :: h in filters ==> filters[h].flow in limits
    ensures WithoutFlow(filters, id) == OfOthers(filters, id)
  {
    forall h | h in filters ensures FilterListing.Mentions(filters[h].flow, id) <==> filters[h].flow == id {
      FilterListing.ThreeDigitsMention(filters[h].flow, id);
    }
  }

  lemma {:induction false} FiltersWithoutFlow(filters: map<nat, Filter>, limits: Limits, id: nat)
    requires FiltersFit(filters, limits)
    ensures FiltersFit(OfOthers(filters, id), limits - {id})
  {
    forall c | c in limits - {id}
      ensures HasFlow(OfOthers(filters, id), c)
    {
      var h :| h in filters && filters[h].flow == c;
      assert h in OfOthers(filters, id);
    }
  }

  function Put(limits: Limits, id: nat, ip: string, mbps: nat): Limits {
    if mbps == 0 then limits - {id} else limits[id := Limit(ip, mbps)]
  }

  lemma {:induction false} AddShapes(d: Device, pool: Rate, limits: Limits, id: nat, ip: string, mbps: nat)
    requires Shaped(d, pool, limits) && 101 <= id <= 353 && id !in limits
    ensures Shaped(Added(d, id, ip, mbps), pool, Put(limits, id, ip, mbps))
  {
    if mbps == 0 {
      assert limits - {id} == limits;
    } else {
      FiltersWith(d.filters, limits, id, ip, mbps);
      ClassesWith(d.classes, pool, limits, id, ip, mbps);
    }
  }

  lemma {:induction false} ClassesWith(classes: map<nat, HtbClass>, pool: Rate, limits: Limits, id: nat, ip: string, mbps: nat)
    requires ClassesFit(classes, pool, limits) && 101 <= id <= 353 && mbps > 0
    ensures ClassesFit(classes[id := HtbClass(POOL_CLASS, Mbit(mbps), Mbit(mbps))], pool, limits[id := Limit(ip, mbps)])
  {
  }

  lemma {:induction false} FiltersWith(filters: map<nat, Filter>, limits: Limits, id: nat, ip: string, mbps: nat)
    requires FiltersFit(filters, limits) && id !in limits
    ensures FiltersFit(filters[FreeHandle(filters, 0) := Filter(ip, id)], limits[id := Limit(ip, mbps)])
  {
    var free := FreeHandle(filters, 0);
    var more := filters[free := Filter(ip, id)];
    forall c | c in limits[id := Limit(ip, mbps)]
      ensures HasFlow(more, c)
    {
      if c == id {
        assert more[free].flow == id;
      } else {
        var h :| h in filters && filters[h].flow == c;
        assert h in more && more[h].flow == c;
      }
    }
  }

  lemma {:induction false} PoolShapes(d: Device, pool: Rate, limits: Limits, other: Rate)
    requires Shaped(d, pool, limits) && other != Mbit(0)
    ensures Shaped(WithPool(d, other), other, limits)
  {
  }

  /** Applying or removing a limit leaves every other class, and every filter not taken for the class's own, as it was. */
  lemma {:induction false} OthersUntouched(d: Device, id: nat, ip: string, mbps: nat)
    ensures forall e :: e == Removed(d, id) || e == Added(d, id, ip, mbps) ==>
      && (forall c :: c != id ==> (c in e.classes <==> c in d.classes))
      && (forall c :: c != id && c in d.classes ==> e.classes[c] == d.classes[c])
      && (forall h :: h in d.filters && !FilterListing.Mentions(d.filters[h].flow, id) ==> h in e.filters && e.filters[h] == d.filters[h])
      && (forall h :: h in e.filters && e.filters[h].flow != id ==> h in d.filters)
  {
  }

  /** A filter of another class goes with a peer's limit exactly when its class number begins with the peer's. */
  lemma {:induction false} ForeignFilterGoesIff(d: Device, id: nat, h: nat)
    requires h in d.filters && d.filters[h].flow != id
    ensures h !in Removed(d, id).filters <==> FilterListing.Mentions(d.filters[h].flow, id)
    ensures 100 <= id < 1000 && 100 <= d.filters[h].flow < 1000 ==> h in Removed(d, id).filters
  {
    if 100 <= id < 1000 && 100 <= d.filters[h].flow < 1000 { FilterListing.ThreeDigitsMention(d.filters[h].flow, id); }
  }

  /** Class 1010 is taken for class 101. */
  lemma {:induction false} ForeignFilterExample()
    ensures FilterListing.Mentions(1010, 101)
  {
    assert Text.Dec(1010) == Text.Dec(101) + [Text.Digit(0)];
  }

  // ----- Runs of the incremental procedures and rebuilds -----

  datatype Op =
    | Apply(ip: string, down: nat, up: nat)
    | Remove(ip: string)
    | SetPools(down: nat, up: nat)
    | RebuildAll(clients: seq<Client>, down: nat, up: nat)

  function StepTc(tc: Tc, op: Op): Tc {
    match op
    case Apply(ip, down, up) => ApplyLimit(tc, ip, down, up)
    case Remove(ip) => RemoveLimit(tc, ip)
    case SetPools(down, up) => SetGlobal(tc, down, up)
    case RebuildAll(clients, down, up) => Rebuild(tc, clients, down, up)
  }

  /** A limit applied to both directions of a plan. */
  function Applied(plan: Plan, ip: string, down: nat, up: nat): Plan {
    var id := PeerToClassId(ip);
    if id.None? then plan
    else plan.(down := Put(plan.down, id.value, ip, down), up := Put(plan.up, id.value, ip, up))
  }

  function RunTc(tc: Tc, ops: seq<Op>): Tc
    decreases |ops|
  {
    if ops == [] then tc else RunTc(StepTc(tc, ops[0]), ops[1..])
  }

  /** The limits a clients table asks for; of clients sharing a class, the last one. */
  function LimitsFor(clients: seq<Client>, rate: Client -> nat): Limits {
    if clients == [] then map[]
    else
      var c := clients[|clients| - 1];
      var front := LimitsFor(clients[..|clients| - 1], rate);
      if Limited(c) then front[PeerToClassId(c.ip).value := Limit(c.ip, rate(c))] else front
  }

  function PlanFor(clients: seq<Client>, down: nat, up: nat): Plan {
    Plan(PoolRate(down), PoolRate(up), LimitsFor(clients, EffectiveDown), LimitsFor(clients, EffectiveUp))
  }

  /** No two limited clients share a class: their addresses differ within the /24. */
  ghost predicate ClassesDistinct(clients: seq<Client>) {
    forall i, j :: 0 <= i < j < |clients| && Limited(clients[i]) && Limited(clients[j]) ==>
      PeerToClassId(clients[i].ip) != PeerToClassId(clients[j].ip)
  }

  ghost predicate Asks(clients: seq<Client>, id: nat) {
    exists i :: 0 <= i < |clients| && Limited(clients[i]) && PeerToClassId(clients[i].ip) == Some(id)
  }

  lemma {:induction false} AsksLast(clients: seq<Client>, c: Client, id: nat)
    ensures Asks(clients + [c], id) <==> Asks(clients, id) || (Limited(c) && PeerToClassId(c.ip) == Some(id))
  {
    var all := clients + [c];
    if i :| 0 <= i < |clients| && Limited(clients[i]) && PeerToClassId(clients[i].ip) == Some(id) {
      assert all[i] == clients[i];
    }
    assert all[|clients|] == c;
  }

  lemma {:induction false} LimitsForKeys(clients: seq<Client>, rate: Client -> nat)
    ensures forall id :: id in LimitsFor(clients, rate) <==> Asks(clients, id)
  {
    if clients != [] {
      var n := |clients| - 1;
      LimitsForKeys(clients[..n], rate);
      assert clients == clients[..n] + [clients[n]];
      forall id { AsksLast(clients[..n], clients[n], id); }
    }
  }

  lemma {:induction false} RunScriptAppend(tc: Tc, a: seq<Command>, b: seq<Command>)
    ensures RunScript(tc, a + b) == RunScript(RunScript(tc, a), b)
    decreases |a|
  {
    if a == [] {
      assert a + b == b;
    } else {
      assert (a + b)[1..] == a[1..] + b;
      RunScriptAppend(Exec(tc, a[0]).0, a[1..], b);
    }
  }

  /** From any prior state the infrastructure script leaves two fresh devices. */
  lemma {:induction false} InfraIsFresh(tc: Tc, down: nat, up: nat)
    ensures var t := RunScript(tc, InfraScript(down, up));
      t == Tc(FreshDevice(PoolRate(down)), FreshDevice(PoolRate(up)), true, true, true, true)
  {
    var setup := [On(Awg0, QdiscDel), On(Ifb0, QdiscDel), IfbAdd, IfbSetUp, IngressAdd, RedirectAdd];
    var onAwg, onIfb := InfraOn(Awg0, PoolRate(down)), InfraOn(Ifb0, PoolRate(up));
    RunScriptAppend(tc, setup + onAwg, onIfb);
    RunScriptAppend(tc, setup, onAwg);
    var t1 := RunScript(tc, setup);
    SetupLeavesNoQdisc(tc);
    InfraOnDevice(t1, Awg0, PoolRate(down));
    InfraOnDevice(RunScript(t1, onAwg), Ifb0, PoolRate(up));
  }

  lemma {:induction false} SetupLeavesNoQdisc(tc: Tc)
    ensures var t := RunScript(tc, [On(Awg0, QdiscDel), On(Ifb0, QdiscDel), IfbAdd, IfbSetUp, IngressAdd, RedirectAdd]);
      t.ifbExists && t.ifbUp && t.ingress && t.redirected
  {
    var t1 := Exec(tc, On(Awg0, QdiscDel)).0;
    var t2 := Exec(t1, On(Ifb0, QdiscDel)).0;
    var t3 := Exec(t2, IfbAdd).0;
    RunScriptFour(t2, IfbAdd, IfbSetUp, IngressAdd, RedirectAdd);
    assert [On(Awg0, QdiscDel), On(Ifb0, QdiscDel), IfbAdd, IfbSetUp, IngressAdd, RedirectAdd][1..][1..]
        == [IfbAdd, IfbSetUp, IngressAdd, RedirectAdd];
  }

  lemma {:induction false} RunScriptFour(tc: Tc, a: Command, b: Command, c: Command, d: Command)
    ensures RunScript(tc, [a, b, c, d]) == Exec(Exec(Exec(Exec(tc, a).0, b).0, c).0, d).0
  {
    assert [a, b, c, d][1..] == [b, c, d] && [b, c, d][1..] == [c, d] && [c, d][1..] == [d] && [d][1..] == [];
    var t1 := Exec(tc, a).0;
    var t2 := Exec(t1, b).0;
    var t3 := Exec(t2, c).0;
    assert RunScript(t3, [d]) == RunScript(Exec(t3, d).0, []);
    assert RunScript(t2, [c, d]) == RunScript(t3, [d]);
    assert RunScript(t1, [b, c, d]) == RunScript(t2, [c, d]);
  }

  lemma {:induction false} InfraOnDevice(tc: Tc, i: Interface, pool: Rate)
    requires tc.ifbExists && pool != Mbit(0)
    ensures RunScript(tc, InfraOn(i, pool)) == SetDev(tc, i, FreshDevice(pool))
  {
    RunScriptFour(tc, On(i, QdiscDel), On(i, QdiscAdd), On(i, ClassAdd(0, POOL_CLASS, pool, pool)),
                  On(i, ClassAdd(POOL_CLASS, DEFAULT_CLASS, TenGbit, pool)));
  }

  /** The client script of a table without shared classes shows the table's limits. */
  lemma {:induction false} ClientScriptShapes(tc: Tc, clients: seq<Client>, down: nat, up: nat)
    requires ShapedAs(tc, PlanFor([], down, up)) && ClassesDistinct(clients)
    ensures ShapedAs(RunScript(tc, ClientScript(clients)), PlanFor(clients, down, up))
  {
    if clients != [] {
      var n := |clients| - 1;
      var c := clients[n];
      ClientScriptShapes(tc, clients[..n], down, up);
      RunScriptAppend(tc, ClientScript(clients[..n]), ClientCommands(c));
      if Limited(c) {
        var t := RunScript(tc, ClientScript(clients[..n]));
        var id := PeerToClassId(c.ip).value;
        NotLimitedBefore(clients, EffectiveDown);
        NotLimitedBefore(clients, EffectiveUp);
        ClientCommandsAdd(t, c, PlanFor(clients[..n], down, up));
        AddShapes(t.awg0, PoolRate(down), LimitsFor(clients[..n], EffectiveDown), id, c.ip, EffectiveDown(c));
        AddShapes(t.ifb0, PoolRate(up), LimitsFor(clients[..n], EffectiveUp), id, c.ip, EffectiveUp(c));
      }
    }
  }

  lemma {:induction false} NotLimitedBefore(clients: seq<Client>, rate: Client -> nat)
    requires clients != [] && Limited(clients[|clients| - 1]) && ClassesDistinct(clients)
    ensures PeerToClassId(clients[|clients| - 1].ip).value !in LimitsFor(clients[..|clients| - 1], rate)
  {
    var n := |clients| - 1;
    LimitsForKeys(clients[..n], rate);
    assert forall i :: 0 <= i < n ==> clients[..n][i] == clients[i];
  }

  /** The four commands of a client whose class is new are one addition on each device. */
  lemma {:induction false} ClientCommandsAdd(tc: Tc, c: Client, plan: Plan)
    requires ShapedAs(tc, plan) && Limited(c)
    requires PeerToClassId(c.ip).value !in plan.down && PeerToClassId(c.ip).value !in plan.up
    ensures var id := PeerToClassId(c.ip).value;
      RunScript(tc, ClientCommands(c))
      == tc.(awg0 := Added(tc.awg0, id, c.ip, EffectiveDown(c)), ifb0 := Added(tc.ifb0, id, c.ip, EffectiveUp(c)))
  {
    var cmds := ClientCommands(c);
    RunScriptFour(tc, cmds[0], cmds[1], cmds[2], cmds[3]);
  }

  lemma {:induction false} RebuildShapes(tc: Tc, clients: seq<Client>, down: nat, up: nat)
    requires ClassesDistinct(clients)
    ensures ShapedAs(Rebuild(tc, clients, down, up), PlanFor(clients, down, up)) && Redirects(Rebuild(tc, clients, down, up))
  {
    InfraIsFresh(tc, down, up);
    FreshShapes(PoolRate(down));
    FreshShapes(PoolRate(up));
    ClientScriptShapes(RunScript(tc, InfraScript(down, up)), clients, down, up);
    ScriptRedirects(RunScript(tc, InfraScript(down, up)), ClientScript(clients));
  }

  lemma {:induction false} CommandKeepsRedirect(tc: Tc, c: Command)
    requires Redirects(tc)
    ensures Redirects(Exec(tc, c).0)
  {
  }

  lemma {:induction false} ScriptRedirects(tc: Tc, script: seq<Command>)
    requires Redirects(tc)
    ensures Redirects(RunScript(tc, script))
    decreases |script|
  {
    if script != [] {
      CommandKeepsRedirect(tc, script[0]);
      ScriptRedirects(Exec(tc, script[0]).0, script[1..]);
    }
  }

  lemma {:induction false} PutReplaces(limits: Limits, id: nat, ip: string, mbps: nat)
    ensures Put(limits - {id}, id, ip, mbps) == Put(limits, id, ip, mbps)
  {
  }

  lemma {:induction false} ReplaceShapes(d: Device, pool: Rate, limits: Limits, id: nat, ip: string, mbps: nat)
    requires Shaped(d, pool, limits) && 101 <= id <= 353
    ensures Shaped(Added(Removed(d, id), id, ip, mbps), pool, Put(limits, id, ip, mbps))
  {
    var e := Removed(d, id);
    RemoveShapes(d, pool, limits, id);
    PutReplaces(limits, id, ip, mbps);
    AddShapes(e, pool, limits - {id}, id, ip, mbps);
  }

  lemma {:induction false} ApplyShapes(tc: Tc, plan: Plan, ip: string, down: nat, up: nat)
    requires ShapedAs(tc, plan)
    ensures ShapedAs(ApplyLimit(tc, ip, down, up), Applied(plan, ip, down, up))
  {
    if PeerToClassId(ip).Some? {
      ReplaceShapes(tc.awg0, plan.poolDown, plan.down, PeerToClassId(ip).value, ip, down);
      ReplaceShapes(tc.ifb0, plan.poolUp, plan.up, PeerToClassId(ip).value, ip, up);
    }
  }

  // ----- Each device by itself -----

  datatype DevicePlan = DevicePlan(pool: Rate, limits: Limits)

  /** What each device should show; a device without a root qdisc has no plan. */
  datatype Stage = Stage(down: Option<DevicePlan>, up: Option<DevicePlan>)

  ghost predicate ShowsOn(d: Device, p: Option<DevicePlan>) {
    if p.Some? then Shaped(d, p.value.pool, p.value.limits) else d == NO_QDISC
  }

  /** What awg0 receives goes through ifb0, so that uploads meet their limits. */
  ghost predicate Redirects(tc: Tc) {
    tc.ifbExists && tc.ifbUp && tc.ingress && tc.redirected
  }

  ghost predicate Shows(tc: Tc, stage: Stage) {
    ShowsOn(tc.awg0, stage.down) && ShowsOn(tc.ifb0, stage.up) && (stage.up.Some? ==> Redirects(tc))
  }

  /** A limit sets up an unlimited pool first where there is none. */
  function AppliedOn(p: Option<DevicePlan>, id: nat, ip: string, mbps: nat): Option<DevicePlan> {
    var q := if p.Some? then p.value else DevicePlan(TenGbit, map[]);
    Some(q.(limits := Put(q.limits, id, ip, mbps)))
  }

  function RemovedOn(p: Option<DevicePlan>, id: nat): Option<DevicePlan> {
    if p.Some? then Some(p.value.(limits := p.value.limits - {id})) else None
  }

  function PooledOn(p: Option<DevicePlan>, mbps: nat): Option<DevicePlan> {
    if p.Some? then Some(p.value.(pool := PoolRate(mbps))) else None
  }

  /** Pools change only from the download side on: without a download pool nothing is tried. */
  function StepStage(stage: Stage, op: Op): Stage {
    match op
    case Apply(ip, down, up) =>
      var id := PeerToClassId(ip);
      if id.None? then stage
      else Stage(AppliedOn(stage.down, id.value, ip, down), AppliedOn(stage.up, id.value, ip, up))
    case Remove(ip) =>
      var id := PeerToClassId(ip);
      if id.None? then stage else Stage(RemovedOn(stage.down, id.value), RemovedOn(stage.up, id.value))
    case SetPools(down, up) =>
      if stage.down.None? then stage else Stage(PooledOn(stage.down, down), PooledOn(stage.up, up))
    case RebuildAll(clients, down, up) =>
      Stage(Some(DevicePlan(PoolRate(down), LimitsFor(clients, EffectiveDown))),
            Some(DevicePlan(PoolRate(up), LimitsFor(clients, EffectiveUp))))
  }

  function RunStage(stage: Stage, ops: seq<Op>): Stage
    decreases |ops|
  {
    if ops == [] then stage else RunStage(StepStage(stage, ops[0]), ops[1..])
  }

  lemma {:induction false} ApplyOnDevice(d: Device, p: Option<DevicePlan>, id: nat, ip: string, mbps: nat)
    requires ShowsOn(d, p) && 101 <= id <= 353
    ensures ShowsOn(Added(Removed(WithHtb(d, TenGbit), id), id, ip, mbps), AppliedOn(p, id, ip, mbps))
  {
    if p.Some? {
      ReplaceShapes(d, p.value.pool, p.value.limits, id, ip, mbps);
    } else {
      FreshShapes(TenGbit);
      ReplaceShapes(FreshDevice(TenGbit), TenGbit, map[], id, ip, mbps);
    }
  }

  lemma {:induction false} BareRemove(id: nat)
    ensures Removed(NO_QDISC, id) == NO_QDISC
  {
    assert WithoutFlow(map[], id) == map[];
  }

  lemma {:induction false} RemoveOnDevice(d: Device, p: Option<DevicePlan>, id: nat)
    requires ShowsOn(d, p) && 101 <= id <= 353
    ensures ShowsOn(Removed(d, id), RemovedOn(p, id))
  {
    if p.Some? { RemoveShapes(d, p.value.pool, p.value.limits, id); } else { BareRemove(id); }
  }

  lemma {:induction false} ApplyStage(tc: Tc, stage: Stage, ip: string, down: nat, up: nat)
    requires Shows(tc, stage)
    ensures Shows(ApplyLimit(tc, ip, down, up), StepStage(stage, Apply(ip, down, up)))
  {
    if PeerToClassId(ip).Some? {
      ApplyOnDevice(tc.awg0, stage.down, PeerToClassId(ip).value, ip, down);
      ApplyOnDevice(tc.ifb0, stage.up, PeerToClassId(ip).value, ip, up);
    }
  }

  lemma {:induction false} RemoveStage(tc: Tc, stage: Stage, ip: string)
    requires Shows(tc, stage)
    ensures Shows(RemoveLimit(tc, ip), StepStage(stage, Remove(ip)))
  {
    if PeerToClassId(ip).Some? {
      RemoveOnDevice(tc.awg0, stage.down, PeerToClassId(ip).value);
      RemoveOnDevice(tc.ifb0, stage.up, PeerToClassId(ip).value);
    }
  }

  lemma {:induction false} PoolOnDevice(d: Device, p: Option<DevicePlan>, mbps: nat)
    requires ShowsOn(d, p)
    ensures ExecOn(d, ClassChange(POOL_CLASS, PoolRate(mbps), PoolRate(mbps))).1 <==> p.Some?
    ensures p.Some? ==> ShowsOn(WithPool(d, PoolRate(mbps)), PooledOn(p, mbps))
  {
    if p.Some? { PoolShapes(d, p.value.pool, p.value.limits, PoolRate(mbps)); }
  }

  lemma {:induction false} PoolStage(tc: Tc, stage: Stage, down: nat, up: nat)
    requires Shows(tc, stage)
    ensures Shows(SetGlobal(tc, down, up), StepStage(stage, SetPools(down, up)))
  {
    PoolOnDevice(tc.awg0, stage.down, down);
    PoolOnDevice(tc.ifb0, stage.up, up);
  }

  lemma {:induction false} StepShows(tc: Tc, stage: Stage, op: Op)
    requires Shows(tc, stage) && (op.RebuildAll? ==> ClassesDistinct(op.clients))
    ensures Shows(StepTc(tc, op), StepStage(stage, op))
  {
    match op
    case Apply(ip, down, up) => ApplyStage(tc, stage, ip, down, up);
    case Remove(ip) => RemoveStage(tc, stage, ip);
    case SetPools(down, up) => PoolStage(tc, stage, down, up);
    case RebuildAll(clients, down, up) => RebuildShapes(tc, clients, down, up);
  }

  /** Over every run, whether each device was shaped or bare at first, the devices show exactly the intended plans. */
  lemma {:induction false} RunShapes(tc: Tc, stage: Stage, ops: seq<Op>)
    requires Shows(tc, stage)
    requires forall i :: 0 <= i < |ops| && ops[i].RebuildAll? ==> ClassesDistinct(ops[i].clients)
    ensures Shows(RunTc(tc, ops), RunStage(stage, ops))
    decreases |ops|
  {
    if ops != [] {
      StepShows(tc, stage, ops[0]);
      RunShapes(StepTc(tc, ops[0]), StepStage(stage, ops[0]), ops[1..]);
    }
  }

  // ----- Batch against incremental -----

  /** Applying the limits of a clients table one by one. */
  function ApplyEach(tc: Tc, clients: seq<Client>): Tc {
    if clients == [] then tc
    else
      var c := clients[|clients| - 1];
      var t := ApplyEach(tc, clients[..|clients| - 1]);
      if Limited(c) then ApplyLimit(t, c.ip, EffectiveDown(c), EffectiveUp(c)) else t
  }

  lemma {:induction false} ApplyEachShapes(tc: Tc, clients: seq<Client>, down: nat, up: nat)
    requires ShapedAs(tc, PlanFor([], down, up))
    ensures ShapedAs(ApplyEach(tc, clients), PlanFor(clients, down, up))
  {
    if clients != [] {
      var n := |clients| - 1;
      ApplyEachShapes(tc, clients[..n], down, up);
      if Limited(clients[n]) {
        ApplyShapes(ApplyEach(tc, clients[..n]), PlanFor(clients[..n], down, up), clients[n].ip,
                    EffectiveDown(clients[n]), EffectiveUp(clients[n]));
      }
    }
  }

  /** Two devices shape traffic alike: same classes and rates, and the same filters up to their handles. */
  ghost predicate SameShaping(d: Device, e: Device) {
    && d.classes == e.classes
    && |d.filters| == |e.filters|
    && forall f :: f in d.filters.Values <==> f in e.filters.Values
  }

  lemma {:induction false} OneFilterLess(filters: map<nat, Filter>, limits: Limits, c: nat)
    requires FiltersFit(filters, limits) && c in limits
    ensures |OfOthers(filters, c)| == |filters| - 1
  {
    assert HasFlow(filters, c);
    var h :| h in filters && filters[h].flow == c;
    assert OfOthers(filters, c).Keys == filters.Keys - {h};
  }

  /** A shaped device has exactly one filter per limited peer. */
  lemma {:induction false} FilterCount(filters: map<nat, Filter>, limits: Limits)
    requires FiltersFit(filters, limits)
    ensures |filters| == |limits|
    decreases |limits|
  {
    if limits == map[] {
      assert filters == map[];
    } else {
      var c :| c in limits;
      OneFilterLess(filters, limits, c);
      FiltersWithoutFlow(filters, limits, c);
      assert (limits - {c}).Keys == limits.Keys - {c};
      FilterCount(OfOthers(filters, c), limits - {c});
    }
  }

  lemma {:induction false} ShapedAlike(d: Device, e: Device, pool: Rate, limits: Limits)
    requires Shaped(d, pool, limits) && Shaped(e, pool, limits)
    ensures SameShaping(d, e)
  {
    FilterCount(d.filters, limits);
    FilterCount(e.filters, limits);
    FilterValues(d.filters, limits);
    FilterValues(e.filters, limits);
  }

  lemma {:induction false} FilterValues(filters: map<nat, Filter>, limits: Limits)
    requires FiltersFit(filters, limits)
    ensures forall f :: f in filters.Values <==> f.flow in limits && f.ip == limits[f.flow].ip
  {
    forall f: Filter | f.flow in limits && f.ip == limits[f.flow].ip
      ensures f in filters.Values
    {
      assert HasFlow(filters, f.flow);
      var h :| h in filters && filters[h].flow == f.flow;
      assert filters[h] == f;
    }
  }

  /** The batch script adds one filter per limited client, shared class or not. */
  lemma {:induction false} BatchFilterCount(tc: Tc, clients: seq<Client>)
    requires tc.ifbExists && tc.awg0.htb
    ensures var t := RunScript(tc, ClientScript(clients));
      t.ifbExists && t.awg0.htb && |t.awg0.filters| == |tc.awg0.filters| + LimitedCount(clients)
  {
    if clients != [] {
      var n := |clients| - 1;
      var c := clients[n];
      BatchFilterCount(tc, clients[..n]);
      RunScriptAppend(tc, ClientScript(clients[..n]), ClientCommands(c));
      if Limited(c) {
        var cmds := ClientCommands(c);
        RunScriptFour(RunScript(tc, ClientScript(clients[..n])), cmds[0], cmds[1], cmds[2], cmds[3]);
      }
    }
  }

  function LimitedCount(clients: seq<Client>): nat {
    if clients == [] then 0
    else LimitedCount(clients[..|clients| - 1]) + if Limited(clients[|clients| - 1]) then 1 else 0
  }

  lemma {:induction false} PutCount(front: Limits, id: nat, l: Limit)
    ensures |front[id := l]| == |front| + if id in front then 0 else 1
  {
    assert front[id := l].Keys == front.Keys + {id};
  }

  /** One more client: the counts stay equal exactly when it is unlimited or its class is new. */
  lemma {:induction false} CountLast(clients: seq<Client>, c: Client, rate: Client -> nat)
    ensures |LimitsFor(clients + [c], rate)| == |LimitsFor(clients, rate)|
      + if Limited(c) && !Asks(clients, PeerToClassId(c.ip).value) then 1 else 0
    ensures LimitedCount(clients + [c]) == LimitedCount(clients) + if Limited(c) then 1 else 0
  {
    assert (clients + [c])[..|clients|] == clients;
    LimitsForKeys(clients, rate);
    if Limited(c) { PutCount(LimitsFor(clients, rate), PeerToClassId(c.ip).value, Limit(c.ip, rate(c))); }
  }

  /** There are as many limits as limited clients exactly when no two of them share a class. */
  lemma {:induction false} LimitsCount(clients: seq<Client>, rate: Client -> nat)
    ensures |LimitsFor(clients, rate)| <= LimitedCount(clients)
    ensures |LimitsFor(clients, rate)| == LimitedCount(clients) <==> ClassesDistinct(clients)
  {
    if clients != [] {
      var front, c := clients[..|clients| - 1], clients[|clients| - 1];
      assert clients == front + [c];
      LimitsCount(front, rate);
      CountLast(front, c, rate);
      DistinctLast(front, c);
    }
  }

  lemma {:induction false} DistinctLast(clients: seq<Client>, c: Client)
    ensures ClassesDistinct(clients + [c]) <==>
      ClassesDistinct(clients) && (Limited(c) ==> !Asks(clients, PeerToClassId(c.ip).value))
  {
    var all := clients + [c];
    assert all[|clients|] == c && forall i :: 0 <= i < |clients| ==> all[i] == clients[i];
  }

  /**
   The batch rebuild, from any prior state, shapes like a fresh set-up followed by one apply per
   limited client, exactly when no two limited clients share a class.
   */
  lemma {:induction false} BatchEqualsIncremental(prior: Tc, other: Tc, clients: seq<Client>, down: nat, up: nat)
    ensures var batch := Rebuild(prior, clients, down, up);
      var single := ApplyEach(RunScript(other, InfraScript(down, up)), clients);
      SameShaping(batch.awg0, single.awg0) && SameShaping(batch.ifb0, single.ifb0) <==> ClassesDistinct(clients)
  {
    var batch := Rebuild(prior, clients, down, up);
    var single := ApplyEach(RunScript(other, InfraScript(down, up)), clients);
    var plan := PlanFor(clients, down, up);
    InfraIsFresh(prior, down, up);
    InfraIsFresh(other, down, up);
    FreshShapes(PoolRate(down));
    FreshShapes(PoolRate(up));
    ApplyEachShapes(RunScript(other, InfraScript(down, up)), clients, down, up);
    if ClassesDistinct(clients) {
      RebuildShapes(prior, clients, down, up);
      ShapedAlike(batch.awg0, single.awg0, plan.poolDown, plan.down);
      ShapedAlike(batch.ifb0, single.ifb0, plan.poolUp, plan.up);
    } else {
      BatchFilterCount(RunScript(prior, InfraScript(down, up)), clients);
      FilterCount(single.awg0.filters, plan.down);
      LimitsCount(clients, EffectiveDown);
    }
  }

  // ----- What a rebuild gives each client -----

  ghost predicate Ready(tc: Tc) {
    tc.ifbExists && tc.awg0.htb && tc.ifb0.htb && POOL_CLASS in tc.awg0.classes && POOL_CLASS in tc.ifb0.classes
  }

  /** Nothing that was there is changed. */
  ghost predicate Grows(d: Device, e: Device) {
    && (forall c :: c in d.classes ==> c in e.classes && e.classes[c] == d.classes[c])
    && (forall h :: h in d.filters ==> h in e.filters && e.filters[h] == d.filters[h])
  }

  ghost predicate HasFilter(d: Device, ip: string, id: nat) {
    exists h :: h in d.filters && d.filters[h] == Filter(ip, id)
  }

  /** The client's class, unless there is one already, and its filter are added. */
  ghost predicate GetsClient(d: Device, e: Device, id: nat, ip: string, mbps: nat) {
    && Grows(d, e) && HasFilter(e, ip, id) && id in e.classes
    && (forall c :: c in e.classes ==> c in d.classes || c == id)
    && (id !in d.classes ==> e.classes[id] == HtbClass(POOL_CLASS, Mbit(mbps), Mbit(mbps)))
  }

  lemma {:induction false} CommandsOnDevice(d: Device, id: nat, ip: string, mbps: nat, e: Device)
    requires d.htb && POOL_CLASS in d.classes && mbps > 0
    requires e == ExecOn(ExecOn(d, ClassAdd(POOL_CLASS, id, Mbit(mbps), Mbit(mbps))).0, FilterAdd(ip, id)).0
    ensures e.htb && GetsClient(d, e, id, ip, mbps)
  {
    assert e.filters[FreeHandle(d.filters, 0)] == Filter(ip, id);
  }

  lemma {:induction false} ClientCommandsGive(tc: Tc, c: Client, id: nat, t: Tc)
    requires Ready(tc) && Limited(c) && PeerToClassId(c.ip) == Some(id) && t == RunScript(tc, ClientCommands(c))
    ensures Ready(t) && GetsClient(tc.awg0, t.awg0, id, c.ip, if c.down > 0 then c.down else c.up)
    ensures GetsClient(tc.ifb0, t.ifb0, id, c.ip, if c.up > 0 then c.up else c.down)
  {
    var cmds := ClientCommands(c);
    RunScriptFour(tc, cmds[0], cmds[1], cmds[2], cmds[3]);
    CommandsOnDevice(tc.awg0, id, c.ip, EffectiveDown(c), t.awg0);
    CommandsOnDevice(tc.ifb0, id, c.ip, EffectiveUp(c), t.ifb0);
  }

  lemma {:induction false} GrowsOn(a: Device, b: Device, c: Device)
    requires Grows(a, b) && Grows(b, c)
    ensures Grows(a, c)
  {
  }

  lemma {:induction false} ScriptLast(tc: Tc, clients: seq<Client>)
    requires clients != []
    ensures var t := RunScript(tc, ClientScript(clients[..|clients| - 1]));
      RunScript(tc, ClientScript(clients)) == RunScript(t, ClientCommands(clients[|clients| - 1]))
  {
    RunScriptAppend(tc, ClientScript(clients[..|clients| - 1]), ClientCommands(clients[|clients| - 1]));
  }

  ghost predicate HasClass(t: Tc, id: nat) {
    id in t.awg0.classes || id in t.ifb0.classes
  }

  lemma {:induction false} CommandsGrow(m: Tc, c: Client, t: Tc)
    requires Ready(m) && t == RunScript(m, ClientCommands(c))
    ensures Ready(t) && Grows(m.awg0, t.awg0) && Grows(m.ifb0, t.ifb0)
    ensures forall id: nat :: HasClass(t, id) ==> HasClass(m, id) || (Limited(c) && PeerToClassId(c.ip) == Some(id))
  {
    if Limited(c) { ClientCommandsGive(m, c, PeerToClassId(c.ip).value, t); }
  }

  /** The script adds only classes that a client asks for. */
  lemma {:induction false} ScriptAdds(tc: Tc, clients: seq<Client>, id: nat)
    requires Ready(tc)
    ensures Ready(RunScript(tc, ClientScript(clients)))
    ensures HasClass(RunScript(tc, ClientScript(clients)), id) ==> HasClass(tc, id) || Asks(clients, id)
  {
    if clients != [] {
      var n := |clients| - 1;
      var front, c := clients[..n], clients[n];
      ScriptLast(tc, clients);
      ScriptAdds(tc, front, id);
      assert front + [c] == clients;
      AsksLast(front, c, id);
      CommandsGrow(RunScript(tc, ClientScript(front)), c, RunScript(tc, ClientScript(clients)));
    }
  }

  /** The script takes nothing back. */
  lemma {:induction false} ScriptGrows(tc: Tc, clients: seq<Client>, k: nat, s: Tc, t: Tc)
    requires Ready(tc) && k <= |clients|
    requires s == RunScript(tc, ClientScript(clients[..k])) && t == RunScript(tc, ClientScript(clients))
    ensures Grows(s.awg0, t.awg0) && Grows(s.ifb0, t.ifb0)
    decreases |clients|
  {
    if k == |clients| {
      assert clients[..k] == clients;
    } else {
      var front := clients[..|clients| - 1];
      var m := RunScript(tc, ClientScript(front));
      assert front[..k] == clients[..k];
      ScriptLast(tc, clients);
      ScriptAdds(tc, front, 0);
      ScriptGrows(tc, front, k, s, m);
      CommandsGrow(m, clients[|clients| - 1], t);
      GrowsOn(s.awg0, m.awg0, t.awg0);
      GrowsOn(s.ifb0, m.ifb0, t.ifb0);
    }
  }

  /** The client's own filter leads to its class on both devices. */
  ghost predicate Filtered(t: Tc, ip: string, id: nat) {
    HasFilter(t.awg0, ip, id) && HasFilter(t.ifb0, ip, id) && id in t.awg0.classes && id in t.ifb0.classes
  }

  lemma {:induction false} GrowsKeepsFilter(d: Device, e: Device, ip: string, id: nat)
    requires Grows(d, e) && HasFilter(d, ip, id)
    ensures HasFilter(e, ip, id)
  {
    var h :| h in d.filters && d.filters[h] == Filter(ip, id);
    assert h in e.filters && e.filters[h] == Filter(ip, id);
  }

  /** No limited client before the one at `i` has its class. */
  ghost predicate FirstOfClass(clients: seq<Client>, i: nat)
    requires i < |clients|
  {
    forall j :: 0 <= j < i && Limited(clients[j]) ==> PeerToClassId(clients[j].ip) != PeerToClassId(clients[i].ip)
  }

  lemma {:induction false} FirstIsNotAsked(clients: seq<Client>, i: nat, id: nat)
    requires i < |clients| && FirstOfClass(clients, i) && PeerToClassId(clients[i].ip) == Some(id)
    ensures !Asks(clients[..i], id)
  {
  }

  /** The class has the rates that the client's own limits ask for. */
  ghost predicate HasRates(t: Tc, c: Client, id: nat) {
    var down, up := if c.down > 0 then c.down else c.up, if c.up > 0 then c.up else c.down;
    && id in t.awg0.classes && t.awg0.classes[id] == HtbClass(POOL_CLASS, Mbit(down), Mbit(down))
    && id in t.ifb0.classes && t.ifb0.classes[id] == HtbClass(POOL_CLASS, Mbit(up), Mbit(up))
  }

  /** Up to the client at `i` itself. */
  lemma {:induction false} ScriptGivesNext(tc: Tc, clients: seq<Client>, i: nat, id: nat, m: Tc)
    requires Ready(tc) && i < |clients| && Limited(clients[i]) && PeerToClassId(clients[i].ip) == Some(id) && !HasClass(tc, id)
    requires m == RunScript(tc, ClientScript(clients[..i + 1]))
    ensures Filtered(m, clients[i].ip, id) && (FirstOfClass(clients, i) ==> HasRates(m, clients[i], id))
  {
    var front, upTo, c := clients[..i], clients[..i + 1], clients[i];
    var s := RunScript(tc, ClientScript(front));
    assert upTo[..i] == front && upTo[i] == c;
    ScriptLast(tc, upTo);
    ScriptAdds(tc, front, id);
    ClientCommandsGive(s, c, id, m);
    if FirstOfClass(clients, i) { FirstIsNotAsked(clients, i, id); }
  }

  lemma {:induction false} GrowsKeepsClient(m: Tc, t: Tc, c: Client, id: nat)
    requires Grows(m.awg0, t.awg0) && Grows(m.ifb0, t.ifb0) && Filtered(m, c.ip, id)
    ensures Filtered(t, c.ip, id) && (HasRates(m, c, id) ==> HasRates(t, c, id))
  {
    GrowsKeepsFilter(m.awg0, t.awg0, c.ip, id);
    GrowsKeepsFilter(m.ifb0, t.ifb0, c.ip, id);
  }

  /** The class of the client at `i` after the script. */
  lemma {:induction false} ScriptGives(tc: Tc, clients: seq<Client>, i: nat, id: nat)
    requires Ready(tc) && i < |clients| && Limited(clients[i]) && PeerToClassId(clients[i].ip) == Some(id) && !HasClass(tc, id)
    ensures var t := RunScript(tc, ClientScript(clients));
      Filtered(t, clients[i].ip, id) && (FirstOfClass(clients, i) ==> HasRates(t, clients[i], id))
  {
    var m, t := RunScript(tc, ClientScript(clients[..i + 1])), RunScript(tc, ClientScript(clients));
    ScriptGivesNext(tc, clients, i, id, m);
    ScriptGrows(tc, clients, i + 1, m, t);
    GrowsKeepsClient(m, t, clients[i], id);
  }

  /**
   After every rebuild each limited client has its filter on both devices, and the first client of a class gives
   it its rates: its own limit of the direction or, where that is missing, the other one's.
   */
  lemma {:induction false} RebuildGivesRates(prior: Tc, clients: seq<Client>, down: nat, up: nat, i: nat, id: nat)
    requires i < |clients| && PeerToClassId(clients[i].ip) == Some(id)
    requires clients[i].ip != "" && (clients[i].down > 0 || clients[i].up > 0)
    ensures var t := Rebuild(prior, clients, down, up);
      Filtered(t, clients[i].ip, id) && (FirstOfClass(clients, i) ==> HasRates(t, clients[i], id))
  {
    InfraIsFresh(prior, down, up);
    ScriptGives(RunScript(prior, InfraScript(down, up)), clients, i, id);
  }

  /** After every rebuild the pools have the given rates, or 10 Gbit where none is given, and no class is there that nobody asks for. */
  lemma {:induction false} RebuildGivesPools(prior: Tc, clients: seq<Client>, down: nat, up: nat, id: nat)
    ensures var t := Rebuild(prior, clients, down, up);
      var poolDown, poolUp := if down > 0 then Mbit(down) else TenGbit, if up > 0 then Mbit(up) else TenGbit;
      && t.awg0.htb && POOL_CLASS in t.awg0.classes && t.awg0.classes[POOL_CLASS] == HtbClass(0, poolDown, poolDown)
      && t.ifb0.htb && POOL_CLASS in t.ifb0.classes && t.ifb0.classes[POOL_CLASS] == HtbClass(0, poolUp, poolUp)
      && DEFAULT_CLASS in t.awg0.classes && t.awg0.classes[DEFAULT_CLASS] == HtbClass(POOL_CLASS, TenGbit, poolDown)
      && DEFAULT_CLASS in t.ifb0.classes && t.ifb0.classes[DEFAULT_CLASS] == HtbClass(POOL_CLASS, TenGbit, poolUp)
      && (id in t.awg0.classes || id in t.ifb0.classes ==> id == POOL_CLASS || id == DEFAULT_CLASS || Asks(clients, id))
  {
    InfraIsFresh(prior, down, up);
    var tc := RunScript(prior, InfraScript(down, up));
    ScriptAdds(tc, clients, id);
    assert RunScript(tc, ClientScript(clients[..0])) == tc;
    ScriptGrows(tc, clients, 0, tc, RunScript(tc, ClientScript(clients)));
  }
}
