/**
 The allocator's addresses as tc classes: which hosts have a class, and when two
 limited clients share one (app/managers/awg_tc.py, app/managers/awg_manager.py).
 */
module AddressClasses {
  import opened Tables
  import opened Text
  import opened ServerConfig
  import opened TrafficControl
  import opened Shaping

  lemma {:induction false} DecHasNoDot(n: nat)
    ensures '.' !in Dec(n)
  {
  }

  lemma {:induction false} SplitTwo(a: string, rest: string)
    requires '.' !in a
    ensures Split(a + ['.'] + rest, '.') == [a] + Split(rest, '.')
  {
    SplitAppend(a, '.', rest);
    SplitWithout(a, '.');
  }

  lemma {:induction false} SplitFour(a: string, b: string, c: string, d: string)
    requires '.' !in a && '.' !in b && '.' !in c && '.' !in d
    ensures Split(a + ['.'] + (b + ['.'] + (c + ['.'] + d)), '.') == [a, b, c, d]
  {
    SplitTwo(a, b + ['.'] + (c + ['.'] + d));
    SplitTwo(b, c + ['.'] + d);
    SplitTwo(c, d);
    SplitWithout(d, '.');
    assert [a] + ([b] + ([c] + [d])) == [a, b, c, d];
  }

  lemma {:induction false} HostParts(d: string)
    ensures "10.8.1." + d == "10" + ['.'] + ("8" + ['.'] + ("1" + ['.'] + d))
  {
    assert "10.8.1." == "10" + ['.'] + "8" + ['.'] + "1" + ['.'];
  }

  lemma {:induction false} SplitHost(n: nat)
    ensures Split(HostAddress(n), '.') == ["10", "8", "1", Dec(n)]
  {
    DecHasNoDot(n);
    HostParts(Dec(n));
    SplitFour("10", "8", "1", Dec(n));
  }

  /** Every host has its own class, but for the last one, which has none. */
  lemma {:induction false} ClassOfHost(n: nat)
    requires 1 <= n <= 254
    ensures PeerToClassId(HostAddress(n)) == if n <= 253 then Some(n + 100) else None
  {
    SplitHost(n);
    ParseDec(n);
  }

  ghost predicate IsHostClient(c: Client) {
    exists n :: 1 <= n <= 254 && c.ip == HostAddress(n)
  }

  /** A client at the last host, which the allocator does hand out, is never limited. */
  lemma {:induction false} LastHostIsNeverLimited(c: Client)
    requires c.ip == HostAddress(254)
    ensures !Limited(c)
  {
    ClassOfHost(254);
  }

  lemma {:induction false} SameClassSameAddress(a: Client, b: Client)
    requires IsHostClient(a) && IsHostClient(b) && Limited(a) && Limited(b)
    ensures PeerToClassId(a.ip) == PeerToClassId(b.ip) <==> a.ip == b.ip
  {
    var m :| 1 <= m <= 254 && a.ip == HostAddress(m);
    var n :| 1 <= n <= 254 && b.ip == HostAddress(n);
    ClassOfHost(m);
    ClassOfHost(n);
  }

  /** No two limited clients have one address. */
  ghost predicate LimitedApart(clients: seq<Client>) {
    forall i, j :: 0 <= i < j < |clients| && Limited(clients[i]) && Limited(clients[j]) ==> clients[i].ip != clients[j].ip
  }

  /** For the allocator's addresses, classes are distinct exactly when the addresses of limited clients are. */
  lemma {:induction false} ClassesDistinctIff(clients: seq<Client>)
    requires forall i :: 0 <= i < |clients| ==> IsHostClient(clients[i])
    ensures ClassesDistinct(clients) <==> LimitedApart(clients)
  {
    forall i, j | 0 <= i < j < |clients| && Limited(clients[i]) && Limited(clients[j])
      ensures PeerToClassId(clients[i].ip) == PeerToClassId(clients[j].ip) <==> clients[i].ip == clients[j].ip
    {
      SameClassSameAddress(clients[i], clients[j]);
    }
  }

  /** So the batch rebuild shapes like single limits exactly when no two limited clients share an address. */
  lemma {:induction false} BatchIsRightIff(prior: Tc, other: Tc, clients: seq<Client>, down: nat, up: nat)
    requires forall i :: 0 <= i < |clients| ==> IsHostClient(clients[i])
    ensures var batch := Rebuild(prior, clients, down, up);
      var single := ApplyEach(RunScript(other, InfraScript(down, up)), clients);
      SameShaping(batch.awg0, single.awg0) && SameShaping(batch.ifb0, single.ifb0) <==> LimitedApart(clients)
  {
    BatchEqualsIncremental(prior, other, clients, down, up);
    ClassesDistinctIff(clients);
  }
}
