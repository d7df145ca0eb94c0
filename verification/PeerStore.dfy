/**
 The AWG peer store: the configuration file and the clients table are two copies
 of the same facts, edited by add, trial provisioning, enable, disable and remove
 (app/managers/awg_manager.py). Each operation is atomic.
 */
module PeerStore {
  import opened Tables
  import opened Text
  import opened ConfigText
  import opened ServerConfig

  /** A row of the clients table: public key, address, preshared key, and whether it is switched on. */
  datatype Entry = Entry(id: string, ip: string, psk: string, enabled: bool)

  /** What the server holds: the configuration, the clients table and the server's preshared key. */
  datatype Store = Store(doc: Doc, table: seq<Entry>, psk: string)

  datatype Op =
    | Add(key: string)
    | Trial(keys: seq<string>)
    | Enable(id: string)
    | Disable(id: string)
    | Remove(id: string)

  // ----- What the operations do to the configuration -----

  function SetTail(ps: seq<Peer>, tail: nat): (r: seq<Peer>)
    ensures |r| == |ps|
    ensures forall i :: 0 <= i < |ps| ==> r[i] == ps[i].(tail := if i == |ps| - 1 then tail else ps[i].tail)
  {
    if ps == [] then [] else ps[|ps| - 1 := ps[|ps| - 1].(tail := tail)]
  }

  /** The newlines at the end of the file are replaced. */
  function Ending(doc: Doc, tail: nat): Doc {
    if doc.peers == [] then doc.(tail := tail) else doc.(peers := SetTail(doc.peers, tail))
  }

  function WithPeers(doc: Doc, more: seq<Peer>): Doc {
    var d := Ending(doc, 2);
    d.(peers := d.peers + more)
  }

  function DropKey(ps: seq<Peer>, id: string): seq<Peer> {
    if ps == [] then []
    else if ps[0].key == id then DropKey(ps[1..], id)
    else [ps[0]] + DropKey(ps[1..], id)
  }

  function CutPeer(doc: Doc, id: string): Doc {
    var d := Ending(doc, 0);
    d.(peers := DropKey(d.peers, id))
  }

  // ----- The operations on both copies -----

  function UsedBy(doc: Doc): seq<string> {
    [GATEWAY] + Addresses(doc.peers)
  }

  /** Addresses for a list of new peers, each the first free one given those before it. */
  function Allocate(used: seq<string>, count: nat): (r: Option<seq<nat>>)
    ensures r.Some? ==> |r.value| == count
    decreases count
  {
    if count == 0 then Some([])
    else
      var first := FirstFree(used, 1);
      if first.None? then None
      else
        var rest := Allocate(used + [HostAddress(first.value)], count - 1);
        if rest.None? then None else Some([first.value] + rest.value)
  }

  /** The host addresses that nobody has. */
  function FreeHosts(used: seq<string>): set<nat> {
    set n: nat | 1 <= n <= 254 && HostAddress(n) !in used && HostAddress(n) != GATEWAY
  }

  lemma {:induction false} HostInjective(a: nat, b: nat)
    requires HostAddress(a) == HostAddress(b)
    ensures a == b
  {
    assert HostAddress(a)[7..] == Dec(a) && HostAddress(b)[7..] == Dec(b);
    DecInjective(a, b);
  }

  function FreeCount(used: seq<string>): nat {
    |FreeHosts(used)|
  }

  lemma {:induction false} TakesOneHost(used: seq<string>, n: nat, more: seq<string>)
    requires n in FreeHosts(used) && more == used + [HostAddress(n)]
    ensures FreeCount(more) == FreeCount(used) - 1
  {
    forall k: nat ensures k in FreeHosts(more) <==> k in FreeHosts(used) && k != n {
      if HostAddress(k) == HostAddress(n) { HostInjective(k, n); }
    }
    assert FreeHosts(more) == FreeHosts(used) - {n};
  }

  lemma {:induction false} FirstIsFree(used: seq<string>, first: Option<nat>)
    requires first == FirstFree(used, 1)
    ensures first.Some? ==> first.value in FreeHosts(used)
    ensures first.None? <==> FreeCount(used) == 0
  {
    if first.None? { assert FreeHosts(used) == {}; }
  }

  /** One address more is found exactly when a host is free and the rest is found without it. */
  lemma {:induction false} FirstThenRest(used: seq<string>, count: nat, first: Option<nat>)
    requires count > 0 && first == FirstFree(used, 1)
    ensures Allocate(used, count).Some? <==> first.Some? && Allocate(used + [HostAddress(first.value)], count - 1).Some?
  {
  }

  /** A list of new peers gets addresses exactly when there are that many free hosts. */
  lemma {:induction false} AllocatesIff(used: seq<string>, count: nat)
    ensures Allocate(used, count).Some? <==> count <= FreeCount(used)
    decreases count
  {
    if count > 0 {
      var first := FirstFree(used, 1);
      FirstIsFree(used, first);
      FirstThenRest(used, count, first);
      if first.Some? {
        var more := used + [HostAddress(first.value)];
        TakesOneHost(used, first.value, more);
        AllocatesIff(more, count - 1);
      }
    }
  }

  function NewPeers(keys: seq<string>, psk: string, hosts: seq<nat>, lastTail: nat): (ps: seq<Peer>)
    requires |keys| == |hosts|
    ensures |ps| == |keys|
  {
    seq(|keys|, i requires 0 <= i < |keys| =>
      Peer(keys[i], psk, HostAddress(hosts[i]), if i == |keys| - 1 then lastTail else 2))
  }

  function NewEntries(keys: seq<string>, psk: string, hosts: seq<nat>): (es: seq<Entry>)
    requires |keys| == |hosts|
    ensures |es| == |keys|
  {
    seq(|keys|, i requires 0 <= i < |keys| => Entry(keys[i], HostAddress(hosts[i]), psk, true))
  }

  /** The first row of a client. */
  function Lookup(table: seq<Entry>, id: string): (r: Option<nat>)
    ensures r.Some? ==> r.value < |table| && table[r.value].id == id
    ensures r.Some? ==> forall i :: 0 <= i < r.value ==> table[i].id != id
    ensures r.None? ==> forall i :: 0 <= i < |table| ==> table[i].id != id
  {
    LookupFrom(table, id, 0)
  }

  function LookupFrom(table: seq<Entry>, id: string, k: nat): (r: Option<nat>)
    requires k <= |table|
    ensures r.Some? ==> k <= r.value < |table| && table[r.value].id == id
    ensures r.Some? ==> forall i :: k <= i < r.value ==> table[i].id != id
    ensures r.None? ==> forall i :: k <= i < |table| ==> table[i].id != id
    decreases |table| - k
  {
    if k == |table| then None
    else if table[k].id == id then Some(k)
    else LookupFrom(table, id, k + 1)
  }

  function SetEnabled(table: seq<Entry>, id: string, enabled: bool): seq<Entry> {
    var k := Lookup(table, id);
    if k.None? then table else table[k.value := table[k.value].(enabled := enabled)]
  }

  function DropEntries(table: seq<Entry>, id: string): seq<Entry> {
    if table == [] then []
    else if table[0].id == id then DropEntries(table[1..], id)
    else [table[0]] + DropEntries(table[1..], id)
  }

  function Provision(s: Store, keys: seq<string>, lastTail: nat): Store {
    var hosts := Allocate(UsedBy(s.doc), |keys|);
    if hosts.None? then s
    else
      s.(doc := WithPeers(s.doc, NewPeers(keys, s.psk, hosts.value, lastTail)),
         table := s.table + NewEntries(keys, s.psk, hosts.value))
  }

  /** One operation; one that raises leaves both copies as they were. */
  function Step(s: Store, op: Op): Store {
    match op
    case Add(key) => Provision(s, [key], 2)
    case Trial(keys) => Provision(s, keys, 1)
    case Enable(id) =>
      var k := Lookup(s.table, id);
      if k.None? then s
      else
        var e := s.table[k.value];
        s.(doc := WithPeers(s.doc, [Peer(id, if e.psk == "" then s.psk else e.psk, e.ip, 2)]),
           table := SetEnabled(s.table, id, true))
    case Disable(id) => s.(doc := CutPeer(s.doc, id), table := SetEnabled(s.table, id, false))
    case Remove(id) => s.(doc := CutPeer(s.doc, id), table := DropEntries(s.table, id))
  }

  // ----- The invariant -----

  ghost predicate HasKey(ps: seq<Peer>, id: string) {
    exists i :: 0 <= i < |ps| && ps[i].key == id
  }

  ghost predicate Known(table: seq<Entry>, id: string) {
    exists i :: 0 <= i < |table| && table[i].id == id
  }

  predicate ClientHost(ip: string) {
    exists n :: 2 <= n < 255 && ip == HostAddress(n)
  }

  /** A well-formed client id: a key that is neither the server's private key nor its preshared key. */
  predicate ClientKey(s: Store, id: string) {
    IsKey(id) && id != s.doc.privateKey && id != s.psk
  }

  ghost predicate TableFits(s: Store) {
    OneRowEach(s.table) && forall i :: 0 <= i < |s.table| ==> RowFits(s, s.table[i])
  }

  ghost predicate OneRowEach(table: seq<Entry>) {
    forall i, j :: 0 <= i < j < |table| ==> table[i].id != table[j].id
  }

  predicate RowFits(s: Store, e: Entry) {
    ClientKey(s, e.id) && ClientHost(e.ip) && (e.psk == "" || e.psk == s.psk)
  }

  ghost predicate PeersFit(s: Store) {
    forall i :: 0 <= i < |s.doc.peers| ==>
      s.doc.peers[i].psk == s.psk && ClientHost(s.doc.peers[i].ip) && Known(s.table, s.doc.peers[i].key)
  }

  /** The two copies agree: a client is enabled exactly when its key is a peer of the configuration. */
  ghost predicate CopiesAgree(s: Store) {
    forall i :: 0 <= i < |s.table| ==> (s.table[i].enabled <==> HasKey(s.doc.peers, s.table[i].id))
  }

  ghost predicate Inv(s: Store) {
    CleanDoc(s.doc) && IsKey(s.psk) && TableFits(s) && PeersFit(s) && CopiesAgree(s)
  }

  ghost predicate AddressesDistinct(s: Store) {
    Apart(s.doc.peers)
  }

  /** What callers provide: fresh keys for new clients, well-formed ids for existing ones. */
  ghost predicate Legal(s: Store, op: Op) {
    match op
    case Add(key) => ClientKey(s, key) && !Known(s.table, key)
    case Trial(keys) =>
      keys != [] && Distinct(keys) && forall i :: 0 <= i < |keys| ==> ClientKey(s, keys[i]) && !Known(s.table, keys[i])
    case Enable(id) => true
    case Disable(id) => ClientKey(s, id)
    case Remove(id) => ClientKey(s, id)
  }

  // ----- Every operation keeps the invariant -----

  lemma {:induction false} HostOfGateway()
    ensures HostAddress(1) == GATEWAY && Dec(0) == "0"
  {
  }

  /** Hosts other than the gateway, each unused when those before it are taken. */
  ghost predicate FreshHosts(hosts: seq<nat>, used: seq<string>)
    decreases |hosts|
  {
    hosts != [] ==>
      && 2 <= hosts[0] < 255
      && HostAddress(hosts[0]) !in used
      && FreshHosts(hosts[1..], used + [HostAddress(hosts[0])])
  }

  lemma {:induction false} FirstFreeIsFresh(used: seq<string>)
    ensures var r := FirstFree(used, 1);
      r.Some? ==> 2 <= r.value < 255 && HostAddress(r.value) !in used
  {
    HostOfGateway();
  }

  lemma {:induction false} AllocateFirst(used: seq<string>, count: nat, hosts: seq<nat>, more: seq<string>)
    requires count > 0 && Allocate(used, count) == Some(hosts)
    requires FirstFree(used, 1).Some? && more == used + [HostAddress(FirstFree(used, 1).value)]
    ensures hosts != [] && hosts[0] == FirstFree(used, 1).value && Allocate(more, count - 1) == Some(hosts[1..])
  {
    var rest := Allocate(more, count - 1).value;
    assert hosts == [FirstFree(used, 1).value] + rest;
    assert hosts[1..] == rest;
  }

  lemma {:induction false} AllocateIsFresh(used: seq<string>, count: nat)
    ensures var r := Allocate(used, count);
      r.Some? ==> FreshHosts(r.value, used)
    decreases count
  {
    var r := Allocate(used, count);
    if count > 0 && r.Some? {
      var more := used + [HostAddress(FirstFree(used, 1).value)];
      FirstFreeIsFresh(used);
      AllocateFirst(used, count, r.value, more);
      AllocateIsFresh(more, count - 1);
    }
  }

  /** So they are hosts, unused, and different from each other. */
  lemma {:induction false} FreshHostsApart(hosts: seq<nat>, used: seq<string>)
    requires FreshHosts(hosts, used)
    ensures forall i :: 0 <= i < |hosts| ==> 2 <= hosts[i] < 255
    ensures forall i :: 0 <= i < |hosts| ==> HostAddress(hosts[i]) !in used
    ensures forall i, j :: 0 <= i < j < |hosts| ==> HostAddress(hosts[i]) != HostAddress(hosts[j])
    decreases |hosts|
  {
    if hosts != [] {
      var first := HostAddress(hosts[0]);
      FreshHostsApart(hosts[1..], used + [first]);
      forall i | 1 <= i < |hosts|
        ensures 2 <= hosts[i] < 255 && HostAddress(hosts[i]) !in used && HostAddress(hosts[i]) != first
      {
        assert hosts[i] == hosts[1..][i - 1];
      }
      forall i, j | 0 <= i < j < |hosts|
        ensures HostAddress(hosts[i]) != HostAddress(hosts[j])
      {
        if i > 0 {
          assert hosts[i] == hosts[1..][i - 1] && hosts[j] == hosts[1..][j - 1];
        }
      }
    }
  }

  lemma {:induction false} ClientHostIsHost(ip: string)
    requires ClientHost(ip)
    ensures IsHost(ip) && ip != GATEWAY
  {
    var n :| 2 <= n < 255 && ip == HostAddress(n);
    HostOfGateway();
    if ip == GATEWAY {
      assert HostAddress(n)[7..] == Dec(n) && HostAddress(1)[7..] == Dec(1);
      DecInjective(n, 1);
    }
  }

  lemma {:induction false} WithPeersIsClean(doc: Doc, more: seq<Peer>)
    requires CleanDoc(doc)
    requires forall i :: 0 <= i < |more| ==> CleanPeer(more[i])
    requires forall i :: 0 <= i < |more| - 1 ==> more[i].tail >= 1
    ensures CleanDoc(WithPeers(doc, more))
  {
    var was := doc.peers;
    var all := WithPeers(doc, more).peers;
    assert forall i :: 0 <= i < |was| ==> all[i].tail >= 1 && CleanPeer(all[i]);
    assert forall i :: |was| <= i < |all| ==> all[i] == more[i - |was|];
  }

  lemma {:induction false} WithPeersKeys(doc: Doc, more: seq<Peer>, id: string)
    ensures HasKey(WithPeers(doc, more).peers, id) <==> HasKey(doc.peers, id) || HasKey(more, id)
  {
    var was := doc.peers;
    var all := WithPeers(doc, more).peers;
    assert forall i :: 0 <= i < |was| ==> all[i].key == was[i].key;
    assert forall i :: 0 <= i < |more| ==> all[|was| + i] == more[i];
    if k :| 0 <= k < |all| && all[k].key == id {
      if k >= |was| {
        assert more[k - |was|].key == id;
      }
    }
    if k :| 0 <= k < |more| && more[k].key == id {
      assert all[|was| + k].key == id;
    }
  }

  lemma {:induction false} HostsAreFresh(used: seq<string>, count: nat, hosts: seq<nat>)
    requires Allocate(used, count) == Some(hosts)
    ensures forall i :: 0 <= i < |hosts| ==> 2 <= hosts[i] < 255 && HostAddress(hosts[i]) !in used
    ensures forall i, j :: 0 <= i < j < |hosts| ==> HostAddress(hosts[i]) != HostAddress(hosts[j])
  {
    AllocateIsFresh(used, count);
    FreshHostsApart(hosts, used);
  }

  lemma {:induction false} ProvisionKeeps(s: Store, keys: seq<string>, lastTail: nat)
    requires Inv(s) && Distinct(keys)
    requires forall i :: 0 <= i < |keys| ==> ClientKey(s, keys[i]) && !Known(s.table, keys[i])
    ensures Inv(Provision(s, keys, lastTail))
    ensures AddressesDistinct(s) ==> AddressesDistinct(Provision(s, keys, lastTail))
  {
    var hosts := Allocate(UsedBy(s.doc), |keys|);
    if hosts.Some? {
      HostsAreFresh(UsedBy(s.doc), |keys|, hosts.value);
      assert Provision(s, keys, lastTail) == Provisioned(s, keys, hosts.value, lastTail);
      ProvisionedFits(s, keys, hosts.value, lastTail);
      ProvisionedAddresses(s, keys, hosts.value, lastTail);
    }
  }

  /** The store after adding given keys at given hosts. */
  function Provisioned(s: Store, keys: seq<string>, hosts: seq<nat>, lastTail: nat): Store
    requires |keys| == |hosts|
  {
    s.(doc := WithPeers(s.doc, NewPeers(keys, s.psk, hosts, lastTail)), table := s.table + NewEntries(keys, s.psk, hosts))
  }

  lemma {:induction false} ProvisionedFits(s: Store, keys: seq<string>, hosts: seq<nat>, lastTail: nat)
    requires Inv(s) && Distinct(keys) && |keys| == |hosts|
    requires forall i :: 0 <= i < |keys| ==> ClientKey(s, keys[i]) && !Known(s.table, keys[i])
    requires forall i :: 0 <= i < |hosts| ==> 2 <= hosts[i] < 255
    ensures Inv(Provisioned(s, keys, hosts, lastTail))
  {
    NewPeersAreClean(s, keys, hosts, lastTail);
    WithPeersIsClean(s.doc, NewPeers(keys, s.psk, hosts, lastTail));
    TableGrows(s, keys, hosts, lastTail);
    PeersGrow(s, keys, hosts, lastTail);
    CopiesGrow(s, keys, hosts, lastTail);
  }

  lemma {:induction false} NewPeersAreClean(s: Store, keys: seq<string>, hosts: seq<nat>, lastTail: nat)
    requires IsKey(s.psk) && |keys| == |hosts|
    requires forall i :: 0 <= i < |keys| ==> ClientKey(s, keys[i])
    requires forall i :: 0 <= i < |hosts| ==> 2 <= hosts[i] < 255
    ensures var more := NewPeers(keys, s.psk, hosts, lastTail);
      forall i :: 0 <= i < |more| ==> CleanPeer(more[i])
  {
    var more := NewPeers(keys, s.psk, hosts, lastTail);
    forall i | 0 <= i < |more|
      ensures CleanPeer(more[i])
    {
      assert ClientHost(HostAddress(hosts[i]));
      ClientHostIsHost(HostAddress(hosts[i]));
    }
  }

  lemma {:induction false} CopiesGrow(s: Store, keys: seq<string>, hosts: seq<nat>, lastTail: nat)
    requires CopiesAgree(s) && |keys| == |hosts|
    requires forall i :: 0 <= i < |keys| ==> !Known(s.table, keys[i])
    ensures CopiesAgree(Provisioned(s, keys, hosts, lastTail))
  {
    var more := NewPeers(keys, s.psk, hosts, lastTail);
    var t, n := Provisioned(s, keys, hosts, lastTail), |s.table|;
    forall i | 0 <= i < |t.table|
      ensures t.table[i].enabled <==> HasKey(t.doc.peers, t.table[i].id)
    {
      WithPeersKeys(s.doc, more, t.table[i].id);
      if i < n {
        assert t.table[i] == s.table[i];
        assert Known(s.table, s.table[i].id);
      } else {
        assert t.table[i] == Entry(keys[i - n], HostAddress(hosts[i - n]), s.psk, true);
        assert more[i - n].key == keys[i - n];
      }
    }
  }

  lemma {:induction false} TableGrows(s: Store, keys: seq<string>, hosts: seq<nat>, lastTail: nat)
    requires TableFits(s) && Distinct(keys) && |keys| == |hosts|
    requires forall i :: 0 <= i < |keys| ==> ClientKey(s, keys[i]) && !Known(s.table, keys[i])
    requires forall i :: 0 <= i < |hosts| ==> 2 <= hosts[i] < 255
    ensures TableFits(Provisioned(s, keys, hosts, lastTail))
  {
    var t := Provisioned(s, keys, hosts, lastTail);
    var table, n := t.table, |s.table|;
    forall i | n <= i < |table|
      ensures table[i].id == keys[i - n] && RowFits(t, table[i])
    {
      assert table[i] == Entry(keys[i - n], HostAddress(hosts[i - n]), s.psk, true);
      assert ClientHost(HostAddress(hosts[i - n]));
    }
    forall i | 0 <= i < n
      ensures RowFits(t, table[i])
    {
      assert RowFits(s, s.table[i]);
    }
    forall i, j | 0 <= i < j < |table|
      ensures table[i].id != table[j].id
    {
      if i < n <= j {
        assert Known(s.table, s.table[i].id);
      }
    }
  }

  lemma {:induction false} PeersGrow(s: Store, keys: seq<string>, hosts: seq<nat>, lastTail: nat)
    requires PeersFit(s) && |keys| == |hosts|
    requires forall i :: 0 <= i < |hosts| ==> 2 <= hosts[i] < 255
    ensures PeersFit(Provisioned(s, keys, hosts, lastTail))
  {
    var t := Provisioned(s, keys, hosts, lastTail);
    var n := |s.doc.peers|;
    forall i | 0 <= i < |t.doc.peers|
      ensures t.doc.peers[i].psk == t.psk && ClientHost(t.doc.peers[i].ip) && Known(t.table, t.doc.peers[i].key)
    {
      if i < n {
        var k :| 0 <= k < |s.table| && s.table[k].id == s.doc.peers[i].key;
        assert t.table[k] == s.table[k];
      } else {
        assert t.doc.peers[i] == NewPeers(keys, s.psk, hosts, lastTail)[i - n];
        assert t.table[|s.table| + (i - n)].id == keys[i - n];
        assert ClientHost(HostAddress(hosts[i - n]));
      }
    }
  }

  lemma {:induction false} ProvisionedAddresses(s: Store, keys: seq<string>, hosts: seq<nat>, lastTail: nat)
    requires |keys| == |hosts|
    requires forall i :: 0 <= i < |hosts| ==> HostAddress(hosts[i]) !in UsedBy(s.doc)
    requires forall i, j :: 0 <= i < j < |hosts| ==> HostAddress(hosts[i]) != HostAddress(hosts[j])
    ensures AddressesDistinct(s) ==> AddressesDistinct(Provisioned(s, keys, hosts, lastTail))
  {
    var all, n := Provisioned(s, keys, hosts, lastTail).doc.peers, |s.doc.peers|;
    assert forall i :: 0 <= i < n ==> all[i].ip == s.doc.peers[i].ip;
    assert forall i :: 0 <= i < n ==> Addresses(s.doc.peers)[i] == s.doc.peers[i].ip;
    assert forall i :: 0 <= i < n ==> s.doc.peers[i].ip in UsedBy(s.doc);
    assert forall i :: n <= i < |all| ==> all[i].ip == HostAddress(hosts[i - n]);
  }

  lemma {:induction false} DropKeyMembers(ps: seq<Peer>, id: string)
    ensures forall p :: p in DropKey(ps, id) <==> p in ps && p.key != id
  {
    if ps != [] {
      DropKeyMembers(ps[1..], id);
    }
  }

  lemma {:induction false} DropKeyTails(ps: seq<Peer>, id: string)
    requires forall i :: 0 <= i < |ps| - 1 ==> ps[i].tail >= 1
    ensures forall i :: 0 <= i < |DropKey(ps, id)| - 1 ==> DropKey(ps, id)[i].tail >= 1
    ensures |DropKey(ps, id)| <= |ps|
  {
    if ps != [] {
      DropKeyTails(ps[1..], id);
    }
  }

  lemma {:induction false} HasKeyIn(ps: seq<Peer>, id: string)
    ensures HasKey(ps, id) <==> exists p :: p in ps && p.key == id
  {
    if p :| p in ps && p.key == id {
      var i :| 0 <= i < |ps| && ps[i] == p;
      assert ps[i].key == id;
    }
  }

  lemma {:induction false} CutPeerKeys(doc: Doc, id: string, k: string)
    ensures HasKey(CutPeer(doc, id).peers, k) <==> HasKey(doc.peers, k) && k != id
  {
    var d := Ending(doc, 0);
    assert forall i :: 0 <= i < |doc.peers| ==> d.peers[i].key == doc.peers[i].key;
    assert HasKey(d.peers, k) <==> HasKey(doc.peers, k);
    DropKeyMembers(d.peers, id);
    HasKeyIn(d.peers, k);
    HasKeyIn(DropKey(d.peers, id), k);
  }

  lemma {:induction false} CutPeerIsClean(doc: Doc, id: string)
    requires CleanDoc(doc)
    ensures CleanDoc(CutPeer(doc, id))
  {
    var d := Ending(doc, 0);
    var r := DropKey(d.peers, id);
    DropKeyTails(d.peers, id);
    DropKeyMembers(d.peers, id);
    forall i | 0 <= i < |r|
      ensures CleanPeer(r[i])
    {
      assert r[i] in d.peers;
      var k :| 0 <= k < |d.peers| && d.peers[k] == r[i];
      assert CleanPeer(doc.peers[k]);
    }
  }

  /** What cutting keeps of the peers: nothing but whole peers of other clients. */
  lemma {:induction false} CutPeerFits(s: Store, id: string, table: seq<Entry>)
    requires PeersFit(s)
    requires forall k :: k != id && Known(s.table, k) ==> Known(table, k)
    ensures PeersFit(s.(doc := CutPeer(s.doc, id), table := table))
  {
    var d := Ending(s.doc, 0);
    var r := DropKey(d.peers, id);
    DropKeyMembers(d.peers, id);
    forall i | 0 <= i < |r|
      ensures r[i].psk == s.psk && ClientHost(r[i].ip) && Known(table, r[i].key)
    {
      assert r[i] in d.peers;
      var k :| 0 <= k < |d.peers| && d.peers[k] == r[i];
      assert s.doc.peers[k].key == r[i].key && s.doc.peers[k].psk == s.psk && ClientHost(s.doc.peers[k].ip);
    }
  }

  lemma {:induction false} SetEnabledSame(table: seq<Entry>, id: string, enabled: bool)
    ensures var r := SetEnabled(table, id, enabled);
      |r| == |table| && forall i :: 0 <= i < |r| ==>
        r[i] == table[i].(enabled := r[i].enabled) && (r[i].enabled != table[i].enabled ==> table[i].id == id)
  {
  }

  /** Switching a client keeps the rows' ids, addresses and keys. */
  lemma {:induction false} SwitchedTableFits(s: Store, id: string, enabled: bool, doc: Doc)
    requires TableFits(s) && doc.privateKey == s.doc.privateKey
    ensures TableFits(s.(doc := doc, table := SetEnabled(s.table, id, enabled)))
  {
    var r := SetEnabled(s.table, id, enabled);
    SetEnabledSame(s.table, id, enabled);
    forall i | 0 <= i < |r|
      ensures RowFits(s.(doc := doc), r[i])
    {
      assert RowFits(s, s.table[i]);
    }
  }

  lemma {:induction false} SwitchedStayKnown(table: seq<Entry>, id: string, enabled: bool, k: string)
    requires Known(table, k)
    ensures Known(SetEnabled(table, id, enabled), k)
  {
    SetEnabledSame(table, id, enabled);
    var i :| 0 <= i < |table| && table[i].id == k;
    assert SetEnabled(table, id, enabled)[i].id == k;
  }

  lemma {:induction false} DisabledCopiesAgree(s: Store, id: string)
    requires CopiesAgree(s)
    requires OneRowEach(s.table)
    ensures CopiesAgree(Step(s, Disable(id)))
  {
    var t := Step(s, Disable(id));
    SetEnabledSame(s.table, id, false);
    forall i | 0 <= i < |t.table|
      ensures t.table[i].enabled <==> HasKey(t.doc.peers, t.table[i].id)
    {
      CutPeerKeys(s.doc, id, t.table[i].id);
    }
  }

  lemma {:induction false} DisabledIsClean(s: Store, id: string)
    requires CleanDoc(s.doc)
    ensures CleanDoc(Step(s, Disable(id)).doc) && CleanDoc(Step(s, Remove(id)).doc)
  {
    CutPeerIsClean(s.doc, id);
  }

  lemma {:induction false} DisabledTableFits(s: Store, id: string)
    requires TableFits(s)
    ensures TableFits(Step(s, Disable(id)))
  {
    SwitchedTableFits(s, id, false, CutPeer(s.doc, id));
  }

  lemma {:induction false} DisabledPeersFit(s: Store, id: string)
    requires PeersFit(s)
    ensures PeersFit(Step(s, Disable(id)))
  {
    forall k | Known(s.table, k) { SwitchedStayKnown(s.table, id, false, k); }
    CutPeerFits(s, id, SetEnabled(s.table, id, false));
  }

  lemma {:induction false} DisableKeeps(s: Store, id: string)
    requires Inv(s)
    ensures Inv(Step(s, Disable(id)))
  {
    DisabledIsClean(s, id);
    DisabledTableFits(s, id);
    DisabledPeersFit(s, id);
    DisabledCopiesAgree(s, id);
    assert Step(s, Disable(id)).psk == s.psk;
  }

  lemma {:induction false} DropEntriesMembers(table: seq<Entry>, id: string)
    ensures forall e :: e in DropEntries(table, id) <==> e in table && e.id != id
  {
    if table != [] {
      DropEntriesMembers(table[1..], id);
    }
  }

  /** The rows that stay are rows of other clients, still one per client. */
  lemma {:induction false} DropEntriesApart(table: seq<Entry>, id: string)
    requires OneRowEach(table)
    ensures OneRowEach(DropEntries(table, id))
  {
    if table != [] {
      DropEntriesApart(table[1..], id);
      var rest, r := DropEntries(table[1..], id), DropEntries(table, id);
      forall j | 0 <= j < |rest|
        ensures rest[j].id != table[0].id
      {
        DropEntriesMembers(table[1..], id);
        assert rest[j] in table[1..];
        var k :| 0 <= k < |table| - 1 && table[1..][k] == rest[j];
        assert table[k + 1] == rest[j];
      }
    }
  }

  lemma {:induction false} RemovedTableFits(s: Store, id: string)
    requires TableFits(s)
    ensures TableFits(Step(s, Remove(id)))
  {
    var r := DropEntries(s.table, id);
    DropEntriesApart(s.table, id);
    DropEntriesMembers(s.table, id);
    forall i | 0 <= i < |r|
      ensures RowFits(Step(s, Remove(id)), r[i])
    {
      assert r[i] in s.table;
      var k :| 0 <= k < |s.table| && s.table[k] == r[i];
      assert RowFits(s, s.table[k]);
    }
  }

  lemma {:induction false} OthersStayKnown(table: seq<Entry>, id: string, k: string)
    requires k != id && Known(table, k)
    ensures Known(DropEntries(table, id), k)
  {
    DropEntriesMembers(table, id);
    var i :| 0 <= i < |table| && table[i].id == k;
    assert table[i] in DropEntries(table, id);
    var j :| 0 <= j < |DropEntries(table, id)| && DropEntries(table, id)[j] == table[i];
  }

  lemma {:induction false} RemovedCopiesAgree(s: Store, id: string)
    requires CopiesAgree(s)
    ensures CopiesAgree(Step(s, Remove(id)))
  {
    var t := Step(s, Remove(id));
    DropEntriesMembers(s.table, id);
    forall i | 0 <= i < |t.table|
      ensures t.table[i].enabled <==> HasKey(t.doc.peers, t.table[i].id)
    {
      assert t.table[i] in s.table;
      var k :| 0 <= k < |s.table| && s.table[k] == t.table[i];
      CutPeerKeys(s.doc, id, t.table[i].id);
    }
  }

  lemma {:induction false} RemovedPeersFit(s: Store, id: string)
    requires PeersFit(s)
    ensures PeersFit(Step(s, Remove(id)))
  {
    forall k | k != id && Known(s.table, k) { OthersStayKnown(s.table, id, k); }
    CutPeerFits(s, id, DropEntries(s.table, id));
  }

  lemma {:induction false} RemoveKeeps(s: Store, id: string)
    requires Inv(s)
    ensures Inv(Step(s, Remove(id)))
  {
    DisabledIsClean(s, id);
    RemovedTableFits(s, id);
    RemovedPeersFit(s, id);
    RemovedCopiesAgree(s, id);
    assert Step(s, Remove(id)).psk == s.psk;
  }

  lemma {:induction false} EnabledCopiesAgree(s: Store, id: string, more: seq<Peer>)
    requires CopiesAgree(s) && |more| == 1 && more[0].key == id && Lookup(s.table, id).Some?
    requires OneRowEach(s.table)
    ensures CopiesAgree(s.(doc := WithPeers(s.doc, more), table := SetEnabled(s.table, id, true)))
  {
    var table := SetEnabled(s.table, id, true);
    SetEnabledSame(s.table, id, true);
    forall i | 0 <= i < |table|
      ensures table[i].enabled <==> HasKey(WithPeers(s.doc, more).peers, table[i].id)
    {
      WithPeersKeys(s.doc, more, table[i].id);
    }
  }

  lemma {:induction false} EnableKeeps(s: Store, id: string)
    requires Inv(s)
    ensures Inv(Step(s, Enable(id)))
  {
    var row := Lookup(s.table, id);
    if row.Some? {
      var e := s.table[row.value];
      var more := [Peer(id, s.psk, e.ip, 2)];
      ClientHostIsHost(e.ip);
      WithPeersIsClean(s.doc, more);
      SwitchedTableFits(s, id, true, WithPeers(s.doc, more));
      EnabledCopiesAgree(s, id, more);
      SetEnabledSame(s.table, id, true);
      EnabledPeersFit(s, e.ip, id, SetEnabled(s.table, id, true));
    }
  }

  lemma {:induction false} EnabledPeersFit(s: Store, ip: string, id: string, table: seq<Entry>)
    requires PeersFit(s) && ClientHost(ip) && Known(s.table, id)
    requires |table| == |s.table| && forall i :: 0 <= i < |table| ==> table[i].id == s.table[i].id
    ensures PeersFit(s.(doc := WithPeers(s.doc, [Peer(id, s.psk, ip, 2)]), table := table))
  {
    var all, n := WithPeers(s.doc, [Peer(id, s.psk, ip, 2)]).peers, |s.doc.peers|;
    forall i | 0 <= i < |all|
      ensures all[i].psk == s.psk && ClientHost(all[i].ip) && Known(table, all[i].key)
    {
      assert i < n ==> all[i].key == s.doc.peers[i].key;
      var k :| 0 <= k < |s.table| && s.table[k].id == all[i].key;
      assert table[k].id == all[i].key;
    }
  }

  lemma {:induction false} StepKeeps(s: Store, op: Op)
    requires Inv(s) && Legal(s, op)
    ensures Inv(Step(s, op))
  {
    match op
    case Add(key) => ProvisionKeeps(s, [key], 2);
    case Trial(keys) => ProvisionKeeps(s, keys, 1);
    case Enable(id) => EnableKeeps(s, id);
    case Disable(id) => DisableKeeps(s, id);
    case Remove(id) => RemoveKeeps(s, id);
  }

  ghost predicate Apart(ps: seq<Peer>) {
    forall i, j :: 0 <= i < j < |ps| ==> ps[i].ip != ps[j].ip
  }

  lemma {:induction false} OneMoreApart(doc: Doc, p: Peer)
    requires Apart(doc.peers)
    ensures Apart(WithPeers(doc, [p]).peers) <==> p.ip !in Addresses(doc.peers)
  {
    var all, n := WithPeers(doc, [p]).peers, |doc.peers|;
    assert |all| == n + 1 && all[n] == p;
    assert forall i :: 0 <= i < n ==> all[i].ip == doc.peers[i].ip == Addresses(doc.peers)[i];
    if i :| 0 <= i < n && Addresses(doc.peers)[i] == p.ip {
      assert all[i].ip == all[n].ip;
    }
  }

  /** A re-enable keeps the addresses apart exactly when the stored address is unused at that moment. */
  lemma {:induction false} EnableAddresses(s: Store, id: string)
    requires AddressesDistinct(s) && Lookup(s.table, id).Some?
    ensures AddressesDistinct(Step(s, Enable(id))) <==>
      s.table[Lookup(s.table, id).value].ip !in Addresses(s.doc.peers)
  {
    var e := s.table[Lookup(s.table, id).value];
    OneMoreApart(s.doc, Peer(id, if e.psk == "" then s.psk else e.psk, e.ip, 2));
  }

  lemma {:induction false} DropKeyApart(ps: seq<Peer>, id: string)
    requires Apart(ps)
    ensures Apart(DropKey(ps, id))
  {
    if ps != [] {
      DropKeyApart(ps[1..], id);
      DropKeyMembers(ps[1..], id);
      var rest, r := DropKey(ps[1..], id), DropKey(ps, id);
      if ps[0].key != id {
        forall i, j | 0 <= i < j < |r|
          ensures r[i].ip != r[j].ip
        {
          assert r[j] == rest[j - 1] && rest[j - 1] in ps[1..];
          assert i > 0 ==> r[i] == rest[i - 1];
        }
      }
    }
  }

  lemma {:induction false} CutPeerApart(doc: Doc, id: string)
    requires Apart(doc.peers)
    ensures Apart(CutPeer(doc, id).peers)
  {
    DropKeyApart(Ending(doc, 0).peers, id);
  }

  /** A re-enable is only tried with an address that nobody else uses at that moment. */
  ghost predicate AddressFree(s: Store, op: Op) {
    op.Enable? && Lookup(s.table, op.id).Some? ==>
      s.table[Lookup(s.table, op.id).value].ip !in Addresses(s.doc.peers)
  }

  lemma {:induction false} StepKeepsAddresses(s: Store, op: Op)
    requires Inv(s) && Legal(s, op) && AddressesDistinct(s) && AddressFree(s, op)
    ensures AddressesDistinct(Step(s, op))
  {
    match op
    case Add(key) => ProvisionKeeps(s, [key], 2);
    case Trial(keys) => ProvisionKeeps(s, keys, 1);
    case Enable(id) =>
      if Lookup(s.table, id).Some? {
        EnableAddresses(s, id);
      }
    case Disable(id) => CutPeerApart(s.doc, id);
    case Remove(id) => CutPeerApart(s.doc, id);
  }

  // ----- Runs -----

  function Run(s: Store, ops: seq<Op>): Store
    decreases |ops|
  {
    if ops == [] then s else Run(Step(s, ops[0]), ops[1..])
  }

  ghost predicate LegalRun(s: Store, ops: seq<Op>)
    decreases |ops|
  {
    ops != [] ==> Legal(s, ops[0]) && LegalRun(Step(s, ops[0]), ops[1..])
  }

  ghost predicate FreeRun(s: Store, ops: seq<Op>)
    decreases |ops|
  {
    ops != [] ==> AddressFree(s, ops[0]) && FreeRun(Step(s, ops[0]), ops[1..])
  }

  /** After every run the two copies agree; if re-enables found their address free, addresses stay apart. */
  lemma {:induction false} RunKeeps(s: Store, ops: seq<Op>)
    requires Inv(s) && LegalRun(s, ops)
    ensures Inv(Run(s, ops))
    ensures AddressesDistinct(s) && FreeRun(s, ops) ==> AddressesDistinct(Run(s, ops))
    decreases |ops|
  {
    if ops != [] {
      StepKeeps(s, ops[0]);
      if AddressesDistinct(s) && FreeRun(s, ops) {
        StepKeepsAddresses(s, ops[0]);
      }
      RunKeeps(Step(s, ops[0]), ops[1..]);
    }
  }

  /** No operation touches what the installer wrote. */
  lemma {:induction false} RunKeepsParameters(s: Store, ops: seq<Op>)
    ensures Run(s, ops).doc.privateKey == s.doc.privateKey && Run(s, ops).doc.values == s.doc.values
    decreases |ops|
  {
    if ops != [] {
      RunKeepsParameters(Step(s, ops[0]), ops[1..]);
    }
  }
}
