/**
 Addresses over whole runs: a disabled client's address is free for others, so a
 later re-enable can bring it back while it is in use. Exactly when that does not
 happen, and a run in which it does (app/managers/awg_manager.py).
 */
module AddressReuse {
  import opened Tables
  import opened ServerConfig
  import opened PeerStore
  import opened AwgManager

  // ----- Exactly when addresses stay distinct -----

  lemma {:induction false} StepAddressesIff(s: Store, op: Op)
    requires Inv(s) && Legal(s, op) && AddressesDistinct(s)
    ensures AddressesDistinct(Step(s, op)) <==> AddressFree(s, op)
  {
    if op.Enable? && Lookup(s.table, op.id).Some? {
      EnableAddresses(s, op.id);
    } else {
      StepKeepsAddresses(s, op);
    }
  }

  /** Addresses are pairwise distinct now and after each operation of the run. */
  ghost predicate AlwaysApart(s: Store, ops: seq<Op>)
    decreases |ops|
  {
    AddressesDistinct(s) && (ops != [] ==> AlwaysApart(Step(s, ops[0]), ops[1..]))
  }

  /** Over every run addresses are distinct all along if and only if each re-enable finds its address unused. */
  lemma {:induction false} AddressesStayApartIff(s: Store, ops: seq<Op>)
    requires Inv(s) && LegalRun(s, ops) && AddressesDistinct(s)
    ensures AlwaysApart(s, ops) <==> FreeRun(s, ops)
    decreases |ops|
  {
    if ops != [] {
      var n := Step(s, ops[0]);
      StepAddressesIff(s, ops[0]);
      StepKeeps(s, ops[0]);
      if AddressesDistinct(n) {
        AddressesStayApartIff(n, ops[1..]);
      } else {
        assert !AlwaysApart(n, ops[1..]);
      }
    }
  }

  // ----- The run that breaks it -----

  /** Two new keys and at least one free address. */
  ghost predicate CanReuse(s: Store, a: string, b: string) {
    && Inv(s) && AddressesDistinct(s) && a != b
    && ClientKey(s, a) && ClientKey(s, b) && !Known(s.table, a) && !Known(s.table, b)
    && FirstFree(UsedBy(s.doc), 1).Some?
  }

  lemma {:induction false} NoSuchPeer(s: Store, a: string)
    requires PeersFit(s) && !Known(s.table, a)
    ensures !HasKey(s.doc.peers, a)
  {
    forall i | 0 <= i < |s.doc.peers| ensures s.doc.peers[i].key != a {
      assert Known(s.table, s.doc.peers[i].key);
    }
  }

  lemma {:induction false} DropAbsent(ps: seq<Peer>, a: string)
    requires !HasKey(ps, a)
    ensures DropKey(ps, a) == ps
  {
    if ps != [] {
      assert ps[0].key != a;
      assert forall i :: 0 <= i < |ps[1..]| ==> ps[1..][i] == ps[i + 1];
      DropAbsent(ps[1..], a);
    }
  }

  /** Cutting the last peer out leaves the addresses of the others. */
  lemma {:induction false} CutLast(doc: Doc, p: Peer)
    requires !HasKey(doc.peers, p.key)
    ensures Addresses(CutPeer(WithPeers(doc, [p]), p.key).peers) == Addresses(doc.peers)
  {
    var d := Ending(doc, 2);
    var e := Ending(WithPeers(doc, [p]), 0);
    assert e.peers == d.peers + [p.(tail := 0)];
    assert forall i :: 0 <= i < |d.peers| ==> d.peers[i].key == doc.peers[i].key && d.peers[i].ip == doc.peers[i].ip;
    assert !HasKey(d.peers, p.key);
    DropKeyLast(d.peers, p.(tail := 0), p.key);
    DropAbsent(d.peers, p.key);
    assert Addresses(d.peers) == Addresses(doc.peers);
  }

  lemma {:induction false} LastEntryFound(table: seq<Entry>, e: Entry)
    requires !Known(table, e.id)
    ensures Lookup(table + [e], e.id) == Some(|table|)
  {
    var all := table + [e];
    assert all[|table|] == e;
    assert forall i :: 0 <= i < |table| ==> all[i] == table[i];
  }

  lemma {:induction false} DisableLast(s: Store, p: Peer, e: Entry, t: Store)
    requires !HasKey(s.doc.peers, p.key) && !Known(s.table, p.key) && e.id == p.key
    requires t == s.(doc := WithPeers(s.doc, [p]), table := s.table + [e])
    ensures var u := Step(t, Disable(p.key));
      UsedBy(u.doc) == UsedBy(s.doc) && u.psk == s.psk && u.table == s.table + [e.(enabled := false)]
  {
    CutLast(s.doc, p);
    LastEntryFound(s.table, e);
    SwitchLast(s.table, e);
  }

  lemma {:induction false} SwitchLast(table: seq<Entry>, e: Entry)
    ensures (table + [e])[|table| := e.(enabled := false)] == table + [e.(enabled := false)]
  {
  }

  /** After adding and disabling a client its address is the first free one again. */
  lemma {:induction false} AddThenDisable(s: Store, a: string, ip: string)
    requires PeersFit(s) && !Known(s.table, a)
    requires FirstFree(UsedBy(s.doc), 1).Some? && ip == HostAddress(FirstFree(UsedBy(s.doc), 1).value)
    ensures var t := Step(Step(s, Add(a)), Disable(a));
      && UsedBy(t.doc) == UsedBy(s.doc) && t.psk == s.psk
      && t.table == s.table + [Entry(a, ip, s.psk, false)]
  {
    AddIsOne(s, a);
    NoSuchPeer(s, a);
    DisableLast(s, Peer(a, s.psk, ip, 2), Entry(a, ip, s.psk, true), Step(s, Add(a)));
  }

  lemma {:induction false} EntryStays(before: seq<Entry>, e: Entry, f: Entry, table: seq<Entry>)
    requires !Known(before, e.id) && e.id != f.id && table == before + [e] + [f]
    ensures Lookup(table, e.id) == Some(|before|) && table[|before|] == e
  {
    LastEntryFound(before, e);
    assert table[|before|] == e && forall i :: 0 <= i < |before| ==> table[i] == before[i];
  }

  lemma {:induction false} LastAddress(doc: Doc, p: Peer)
    ensures p.ip in Addresses(WithPeers(doc, [p]).peers)
  {
    var ps := WithPeers(doc, [p]).peers;
    assert ps[|ps| - 1] == p;
    assert Addresses(ps)[|ps| - 1] == p.ip;
  }

  /** The next client gets that address, and the re-enable finds it taken. */
  lemma {:induction false} ThenTaken(t: Store, b: string, a: string, before: seq<Entry>, ip: string)
    requires FirstFree(UsedBy(t.doc), 1).Some? && ip == HostAddress(FirstFree(UsedBy(t.doc), 1).value)
    requires t.table == before + [Entry(a, ip, t.psk, false)] && !Known(before, a) && a != b
    ensures !AddressFree(Step(t, Add(b)), Enable(a))
  {
    var p := Peer(b, t.psk, ip, 2);
    var u := Step(t, Add(b));
    AddIsOne(t, b);
    EntryStays(before, Entry(a, ip, t.psk, false), Entry(b, ip, t.psk, true), u.table);
    LastAddress(t.doc, p);
  }

  function ReuseRun(a: string, b: string): seq<Op> {
    [Add(a), Disable(a), Add(b), Enable(a)]
  }

  lemma {:induction false} RunFirst(s: Store, o: Op, rest: seq<Op>, all: seq<Op>)
    requires all == [o] + rest
    ensures Run(s, all) == Run(Step(s, o), rest)
    ensures LegalRun(s, all) <==> Legal(s, o) && LegalRun(Step(s, o), rest)
  {
    assert all[1..] == rest && all[0] == o;
  }

  lemma {:induction false} RunFour(s: Store, o0: Op, o1: Op, o2: Op, o3: Op)
    ensures Run(s, [o0, o1, o2, o3]) == Step(Step(Step(Step(s, o0), o1), o2), o3)
    ensures LegalRun(s, [o0, o1, o2, o3]) <==>
      Legal(s, o0) && Legal(Step(s, o0), o1) && Legal(Step(Step(s, o0), o1), o2) && Legal(Step(Step(Step(s, o0), o1), o2), o3)
  {
    var s1 := Step(s, o0);
    var s2 := Step(s1, o1);
    RunFirst(s, o0, [o1, o2, o3], [o0, o1, o2, o3]);
    RunFirst(s1, o1, [o2, o3], [o1, o2, o3]);
    RunFirst(s2, o2, [o3], [o2, o3]);
    RunFirst(Step(s2, o2), o3, [], [o3]);
  }

  /** Adding a, disabling a, adding b and enabling a gives two peers one address. */
  lemma {:induction false} ReusedAddressCollides(s: Store, a: string, b: string)
    requires CanReuse(s, a, b)
    ensures LegalRun(s, ReuseRun(a, b)) && !AddressesDistinct(Run(s, ReuseRun(a, b)))
  {
    var ip := HostAddress(FirstFree(UsedBy(s.doc), 1).value);
    var s1 := Step(s, Add(a));
    var t := Step(s1, Disable(a));
    AddThenDisable(s, a, ip);
    KeysStay(s, a, b, ip);
    StepKeeps(s, Add(a));
    StepKeepsAddresses(s, Add(a));
    StepKeeps(s1, Disable(a));
    StepKeepsAddresses(s1, Disable(a));
    ThenAddAndEnable(t, b, a, s.table, ip);
    RunFour(s, Add(a), Disable(a), Add(b), Enable(a));
  }

  lemma {:induction false} ThenAddAndEnable(t: Store, b: string, a: string, before: seq<Entry>, ip: string)
    requires Inv(t) && AddressesDistinct(t) && Legal(t, Add(b))
    requires FirstFree(UsedBy(t.doc), 1).Some? && ip == HostAddress(FirstFree(UsedBy(t.doc), 1).value)
    requires t.table == before + [Entry(a, ip, t.psk, false)] && !Known(before, a) && a != b
    ensures !AddressesDistinct(Step(Step(t, Add(b)), Enable(a)))
  {
    StepKeeps(t, Add(b));
    StepKeepsAddresses(t, Add(b));
    ThenTaken(t, b, a, before, ip);
    StepAddressesIff(Step(t, Add(b)), Enable(a));
  }

  lemma {:induction false} SameKeys(s: Store, op: Op)
    ensures Step(s, op).doc.privateKey == s.doc.privateKey && Step(s, op).psk == s.psk
  {
  }

  lemma {:induction false} StillUnknown(table: seq<Entry>, e: Entry, b: string)
    requires !Known(table, b) && e.id != b
    ensures !Known(table + [e], b)
  {
  }

  /** The second key is still new, and both keep their form, after the first is added and disabled. */
  lemma {:induction false} KeysStay(s: Store, a: string, b: string, ip: string)
    requires ClientKey(s, a) && ClientKey(s, b) && !Known(s.table, b) && a != b
    requires Step(Step(s, Add(a)), Disable(a)).table == s.table + [Entry(a, ip, s.psk, false)]
    ensures Legal(Step(s, Add(a)), Disable(a)) && Legal(Step(Step(s, Add(a)), Disable(a)), Add(b))
  {
    SameKeys(s, Add(a));
    SameKeys(Step(s, Add(a)), Disable(a));
    StillUnknown(s.table, Entry(a, ip, s.psk, false), b);
  }
}
