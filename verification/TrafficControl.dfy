/**
 Per-peer bandwidth shaping: HTB classes and u32 filters on awg0 (download) and
 ifb0 (upload), changed one command at a time or rebuilt by two batch scripts
 (app/managers/awg_tc.py).

 `ExecOn` is the behaviour of the tc commands that the code relies on: adding a
 class fails when it exists, when its parent is missing or when its rate is zero;
 deleting one fails while a filter or a child still refers to it; deleting the
 root qdisc drops every class and filter.
 */
module TrafficControl {
  import opened Tables
  import opened Text
  import FilterListing

  const POOL_CLASS: nat := 1
  const DEFAULT_CLASS: nat := 9999
  const CLASS_ID_OFFSET: nat := 100

  /** The class of a peer: the last octet of its address, shifted away from the reserved classes. */
  function PeerToClassId(ip: string): (r: Option<nat>)
    ensures r.Some? ==> 101 <= r.value <= 353
  {
    var parts := Split(ip, '.');
    if |parts| != 4 then None
    else
      var octet := ParseNat(parts[3]);
      if octet.None? || octet.value < 1 || octet.value > 253 then None
      else Some(octet.value + CLASS_ID_OFFSET)
  }

  // ----- The tc state and its commands -----

  datatype Rate = Mbit(n: nat) | TenGbit
  datatype Interface = Awg0 | Ifb0

  /** `parent` 0 is the root qdisc. */
  datatype HtbClass = HtbClass(parent: nat, rate: Rate, ceil: Rate)
  datatype Filter = Filter(ip: string, flow: nat)
  datatype Device = Device(htb: bool, classes: map<nat, HtbClass>, filters: map<nat, Filter>)

  /** Both devices, whether ifb0 exists and is up, and whether what awg0 receives is redirected to it. */
  datatype Tc = Tc(awg0: Device, ifb0: Device, ifbExists: bool, ifbUp: bool, ingress: bool, redirected: bool)

  const NO_QDISC := Device(false, map[], map[])

  datatype DeviceCommand =
    | QdiscDel
    | QdiscAdd
    | ClassAdd(parent: nat, id: nat, rate: Rate, ceil: Rate)
    | ClassChange(id: nat, rate: Rate, ceil: Rate)
    | ClassDel(id: nat)
    | FilterAdd(ip: string, flow: nat)
    | FilterDel(handle: nat)

  datatype Command = On(dev: Interface, cmd: DeviceCommand) | IfbAdd | IfbSetUp | IngressAdd | RedirectAdd

  function FreeHandle(filters: map<nat, Filter>, from: nat): (h: nat)
    ensures h !in filters && h >= from
    decreases |filters|
  {
    if from !in filters then from
    else
      assert (filters - {from}).Keys == filters.Keys - {from};
      FreeHandle(filters - {from}, from + 1)
  }

  predicate InUse(d: Device, id: nat) {
    || (exists h :: h in d.filters && d.filters[h].flow == id)
    || (exists c :: c in d.classes && d.classes[c].parent == id)
  }

  function ExecOn(d: Device, c: DeviceCommand): (Device, bool) {
    match c
    case QdiscDel => (NO_QDISC, d.htb)
    case QdiscAdd => if d.htb then (d, false) else (Device(true, map[], map[]), true)
    case ClassAdd(parent, id, rate, ceil) =>
      if !d.htb || id in d.classes || (parent != 0 && parent !in d.classes) || rate == Mbit(0) then (d, false)
      else (d.(classes := d.classes[id := HtbClass(parent, rate, ceil)]), true)
    case ClassChange(id, rate, ceil) =>
      if !d.htb || id !in d.classes || rate == Mbit(0) then (d, false)
      else (d.(classes := d.classes[id := HtbClass(d.classes[id].parent, rate, ceil)]), true)
    case ClassDel(id) =>
      if id !in d.classes || InUse(d, id) then (d, false)
      else (d.(classes := d.classes - {id}), true)
    case FilterAdd(ip, flow) =>
      if !d.htb then (d, false)
      else (d.(filters := d.filters[FreeHandle(d.filters, 0) := Filter(ip, flow)]), true)
    case FilterDel(handle) =>
      if handle !in d.filters then (d, false)
      else (d.(filters := d.filters - {handle}), true)
  }

  function Dev(tc: Tc, i: Interface): Device {
    if i == Awg0 then tc.awg0 else tc.ifb0
  }

  function SetDev(tc: Tc, i: Interface, d: Device): Tc {
    if i == Awg0 then tc.(awg0 := d) else tc.(ifb0 := d)
  }

  function Exec(tc: Tc, c: Command): (Tc, bool) {
    match c
    case On(i, cmd) =>
      if i == Ifb0 && !tc.ifbExists then (tc, false)
      else
        var (d, ok) := ExecOn(Dev(tc, i), cmd);
        (SetDev(tc, i, d), ok)
    case IfbAdd => (tc.(ifbExists := true), !tc.ifbExists)
    case IfbSetUp => (tc.(ifbUp := tc.ifbUp || tc.ifbExists), tc.ifbExists)
    case IngressAdd => (tc.(ingress := true), !tc.ingress)
    case RedirectAdd => (tc.(redirected := tc.redirected || (tc.ingress && tc.ifbExists)), tc.ingress && tc.ifbExists)
  }

  class TcHost {
    var tc: Tc

    constructor (initial: Tc)
      ensures tc == initial
    {
      tc := initial;
    }

    method Run(c: Command) returns (ok: bool)
      modifies this
      ensures (tc, ok) == Exec(old(tc), c)
    {
      var (next, success) := Exec(tc, c);
      tc, ok := next, success;
    }
  }

  // ----- What each procedure makes of a device -----

  function PoolRate(mbps: nat): Rate {
    if mbps == 0 then TenGbit else Mbit(mbps)
  }

  function FreshDevice(pool: Rate): Device {
    Device(true,
           map[POOL_CLASS := HtbClass(0, pool, pool), DEFAULT_CLASS := HtbClass(POOL_CLASS, TenGbit, pool)],
           map[])
  }

  function WithHtb(d: Device, pool: Rate): Device {
    if d.htb then d else FreshDevice(pool)
  }

  /** The filters whose class the textual lookup does not take for the class looked for. */
  function WithoutFlow(filters: map<nat, Filter>, id: nat): map<nat, Filter> {
    map h | h in filters && !FilterListing.Mentions(filters[h].flow, id) :: filters[h]
  }

  /** All filters that the lookup finds for a class, then the class itself, are removed. */
  function Removed(d: Device, id: nat): Device {
    var e := d.(filters := WithoutFlow(d.filters, id));
    ExecOn(e, ClassDel(id)).0
  }

  /** A class and its filter are added; without the class there is no filter. */
  function Added(d: Device, id: nat, ip: string, mbps: nat): Device {
    var (e, ok) := ExecOn(d, ClassAdd(POOL_CLASS, id, Mbit(mbps), Mbit(mbps)));
    if ok then ExecOn(e, FilterAdd(ip, id)).0 else e
  }

  function WithIfb(tc: Tc): Tc {
    tc.(ifbExists := true, ifbUp := true, ingress := true, redirected := true)
  }

  function RemoveLimit(tc: Tc, ip: string): Tc {
    var id := PeerToClassId(ip);
    if id.None? then tc
    else
      tc.(awg0 := Removed(tc.awg0, id.value),
          ifb0 := if tc.ifbExists then Removed(tc.ifb0, id.value) else tc.ifb0)
  }

  function ApplyLimit(tc: Tc, ip: string, down: nat, up: nat): Tc {
    var id := PeerToClassId(ip);
    if id.None? then tc
    else
      WithIfb(tc).(
        awg0 := Added(Removed(WithHtb(tc.awg0, TenGbit), id.value), id.value, ip, down),
        ifb0 := Added(Removed(WithHtb(tc.ifb0, TenGbit), id.value), id.value, ip, up))
  }

  function WithPool(d: Device, pool: Rate): Device {
    ExecOn(ExecOn(d, ClassChange(POOL_CLASS, pool, pool)).0, ClassChange(DEFAULT_CLASS, TenGbit, pool)).0
  }

  /** The download pool must change before anything else is tried. */
  function SetGlobal(tc: Tc, down: nat, up: nat): Tc {
    if !ExecOn(tc.awg0, ClassChange(POOL_CLASS, PoolRate(down), PoolRate(down))).1 then tc
    else
      var t := tc.(awg0 := WithPool(tc.awg0, PoolRate(down)));
      if !tc.ifbExists || !ExecOn(tc.ifb0, ClassChange(POOL_CLASS, PoolRate(up), PoolRate(up))).1 then t
      else t.(ifb0 := WithPool(tc.ifb0, PoolRate(up)))
  }

  // ----- The procedures -----

  const OPENING := "ter parent "
  const PROTOCOL := "1: protocol"
  const PRIO := " ip pref 1 u32 "
  const MID := " order 2048 bkt 0 "

  /** How an entry opens: "filter parent 1: protocol ip pref 1 u32 ". */
  function Pre(): string {
    "fil" + (OPENING + (PROTOCOL + PRIO))
  }

  /** A node number as printed, in hexadecimal. */
  function HexNat(n: nat): (s: string)
    ensures s != "" && forall i :: 0 <= i < |s| ==> IsHex(s[i])
  {
    if n < 16 then [HexDigit(n)] else HexNat(n / 16) + [HexDigit(n % 16)]
  }

  lemma {:induction false} HexDigitInjective(a: nat, b: nat)
    requires a < 16 && b < 16 && HexDigit(a) == HexDigit(b)
    ensures a == b
  {
  }

  lemma {:induction false} HexNatInjective(a: nat, b: nat)
    requires HexNat(a) == HexNat(b)
    ensures a == b
  {
    var s, t := HexNat(a), HexNat(b);
    assert s[|s| - 1] == HexDigit(a % 16) && t[|t| - 1] == HexDigit(b % 16);
    HexDigitInjective(a % 16, b % 16);
    if a >= 16 && b >= 16 {
      assert s[..|s| - 1] == HexNat(a / 16) && t[..|t| - 1] == HexNat(b / 16);
      HexNatInjective(a / 16, b / 16);
    } else {
      assert |s| == 1 <==> a < 16;
      assert |t| == 1 <==> b < 16;
    }
  }

  function HexOctets(parts: seq<string>): (s: string)
    ensures forall i :: 0 <= i < |s| ==> IsHex(s[i])
  {
    if parts == [] then ""
    else
      var octet := ParseNat(parts[0]);
      HexByte(if octet.None? then 0 else octet.value % 256) + HexOctets(parts[1..])
  }

  /** What follows the class: the match on the address, and the end of the line. */
  function Post(ip: string, ending: string): string {
    " not_in_hw \n  match " + HexOctets(Split(ip, '.')) + "/ffffffff at 16" + ending
  }

  /** One filter as `tc filter show` prints it. */
  function ShownFilter(h: nat, f: Filter, ending: string): FilterListing.Shown {
    FilterListing.Shown(Pre(), "800", HexNat(h), MID, f.flow, Post(f.ip, ending))
  }

  ghost predicate Lacks(s: string, c: char) {
    forall i :: 0 <= i < |s| ==> s[i] != c
  }

  /** No l is followed by a t, so "filter" cannot occur. */
  ghost predicate NoLt(s: string) {
    forall i :: 0 <= i < |s| - 1 && s[i] == 'l' ==> s[i + 1] != 't'
  }

  lemma {:induction false} LacksWord(s: string, w: string, k: nat)
    requires k < |w| && Lacks(s, w[k])
    ensures !Contains(s, w)
  {
    if i :| OccursAt(s, w, i) { FilterListing.CharsOfOccurrence(s, w, i, k); }
  }

  lemma {:induction false} LacksBoth(a: string, b: string, c: char)
    requires Lacks(a, c) && Lacks(b, c)
    ensures Lacks(a + b, c)
  {
  }

  lemma {:induction false} NoLtBoth(a: string, b: string)
    requires NoLt(a) && NoLt(b) && (a != "" && b != "" && a[|a| - 1] == 'l' ==> b[0] != 't')
    ensures NoLt(a + b)
  {
  }

  lemma {:induction false} HexLacks(s: string)
    requires forall i :: 0 <= i < |s| ==> IsHex(s[i])
    ensures Lacks(s, 'w') && Lacks(s, 'l')
  {
  }

  lemma {:induction false} PostLacks(ip: string, ending: string)
    requires ending == "" || ending == "\n"
    ensures Lacks(Post(ip, ending), 'l')
  {
    var start, hex, mask := " not_in_hw \n  match ", HexOctets(Split(ip, '.')), "/ffffffff at 16";
    HexLacks(hex);
    assert Lacks(start, 'l') && Lacks(mask, 'l') && Lacks(ending, 'l');
    LacksBoth(start, hex, 'l');
    LacksBoth(start + hex, mask, 'l');
    LacksBoth(start + hex + mask, ending, 'l');
  }

  /** The part of an entry between its opening and its class. */
  function AfterPre(h: nat): string {
    FilterListing.FH + ("800" + ("::" + (HexNat(h) + MID)))
  }

  lemma {:induction false} AfterPreLacks(h: nat, c: char)
    requires c == 'w' || c == 'l'
    ensures Lacks(AfterPre(h), c)
  {
    HexLacks(HexNat(h));
    assert Lacks(MID, c);
    LacksBoth(HexNat(h), MID, c);
    LacksBoth("::", HexNat(h) + MID, c);
    LacksBoth("800", "::" + (HexNat(h) + MID), c);
    LacksBoth(FilterListing.FH, "800" + ("::" + (HexNat(h) + MID)), c);
  }

  lemma {:induction false} PreLacksW()
    ensures Lacks(Pre(), 'w')
  {
    assert Lacks(OPENING, 'w') && Lacks(PROTOCOL, 'w') && Lacks(PRIO, 'w');
    LacksBoth(PROTOCOL, PRIO, 'w');
    LacksBoth(OPENING, PROTOCOL + PRIO, 'w');
    LacksBoth("fil", OPENING + (PROTOCOL + PRIO), 'w');
  }

  /** No letter h comes before the handle. */
  lemma {:induction false} PreHasNoHandle()
    ensures !Contains(Pre(), FilterListing.FH)
  {
    assert Lacks(OPENING, 'h') && Lacks(PROTOCOL, 'h') && Lacks(PRIO, 'h');
    LacksBoth(PROTOCOL, PRIO, 'h');
    LacksBoth(OPENING, PROTOCOL + PRIO, 'h');
    LacksBoth("fil", OPENING + (PROTOCOL + PRIO), 'h');
    LacksWord(Pre(), FilterListing.FH, 1);
  }

  lemma {:induction false} NeedleNoLt(flow: nat)
    ensures NoLt(FilterListing.FlowNeedle(flow)) && FilterListing.FlowNeedle(flow)[0] == 'f'
  {
    var word := FilterListing.FLOW;
    assert NoLt(word) && NoLt(" 1:");
    NoLtBoth(word, " 1:");
    NoLtBoth(word + " 1:", Dec(flow));
  }

  /** The text after "fil", in its parts. */
  function AfterFil(h: nat, f: Filter, ending: string): string {
    OPENING + (PROTOCOL + (PRIO + AfterPre(h) + FilterListing.FlowNeedle(f.flow) + Post(f.ip, ending)))
  }

  lemma {:induction false} TextParts(h: nat, f: Filter, ending: string)
    ensures FilterListing.TextOf(ShownFilter(h, f, ending)) == "fil" + AfterFil(h, f, ending)
    ensures FilterListing.Head(ShownFilter(h, f, ending)) == Pre() + AfterPre(h)
  {
    var needle, post := FilterListing.FlowNeedle(f.flow), Post(f.ip, ending);
    Reassociate("fil", OPENING, PROTOCOL, PRIO, AfterPre(h), needle, post);
  }

  lemma {:induction false} Reassociate(a: string, b: string, c: string, d: string, e: string, f: string, g: string)
    ensures a + (b + (c + d)) + e + f + g == a + (b + (c + (d + e + f + g)))
  {
    assert c + (d + e + f + g) == c + d + e + f + g;
    assert b + (c + d + e + f + g) == b + (c + d) + e + f + g;
  }

  lemma {:induction false} AfterFilNoLt(h: nat, f: Filter, ending: string)
    requires ending == "" || ending == "\n"
    ensures NoLt(AfterFil(h, f, ending))
  {
    var needle, post := FilterListing.FlowNeedle(f.flow), Post(f.ip, ending);
    AfterPreLacks(h, 'l');
    PostLacks(f.ip, ending);
    NeedleNoLt(f.flow);
    assert Lacks(PRIO, 'l') && Lacks(OPENING, 'l');
    LacksBoth(PRIO, AfterPre(h), 'l');
    NoLtBoth(PRIO + AfterPre(h), needle);
    EndsInDigit(PRIO + AfterPre(h), f.flow);
    NoLtBoth(PRIO + AfterPre(h) + needle, post);
    var rest := PRIO + AfterPre(h) + needle + post;
    assert rest[0] == PRIO[0] == ' ';
    assert NoLt(PROTOCOL);
    NoLtBoth(PROTOCOL, rest);
    NoLtBoth(OPENING, PROTOCOL + rest);
  }

  lemma {:induction false} EndsInDigit(s: string, flow: nat)
    ensures var t := s + FilterListing.FlowNeedle(flow); t != "" && IsDigit(t[|t| - 1])
  {
    var n, t := Dec(flow), s + FilterListing.FlowNeedle(flow);
    assert t[|t| - 1] == n[|n| - 1];
  }

  lemma {:induction false} ShownOpens(h: nat, f: Filter, ending: string)
    ensures FilterListing.Opens(FilterListing.TextOf(ShownFilter(h, f, ending)))
  {
    var rest := PRIO + AfterPre(h) + FilterListing.FlowNeedle(f.flow) + Post(f.ip, ending);
    TextParts(h, f, ending);
    OpensWith(rest, "fil" + (OPENING + (PROTOCOL + rest)));
  }

  lemma {:induction false} OpensWith(rest: string, s: string)
    requires s == "fil" + (OPENING + (PROTOCOL + rest))
    ensures FilterListing.Opens(s)
  {
    assert s[..14] == "fil" + OPENING;
    assert "fil" + OPENING == "filter parent ";
    var u := s[14..];
    assert u == PROTOCOL + rest;
    assert u[0] == '1' && u[1..][0] == ':';
    assert FilterListing.DigitRun(u[1..]) == 0;
    assert u[1..][..10] == PROTOCOL[1..] == ": protocol";
  }

  lemma {:induction false} NoFilterInside(s: string, rest: string, i: int)
    requires s == "fil" + rest && NoLt(rest) && 0 < i
    ensures !OccursAt(s, FilterListing.FILTER, i)
  {
    if OccursAt(s, FilterListing.FILTER, i) {
      FilterListing.CharsOfOccurrence(s, FilterListing.FILTER, i, 2);
      FilterListing.CharsOfOccurrence(s, FilterListing.FILTER, i, 3);
    }
  }

  lemma {:induction false} ShownIsReadable(h: nat, f: Filter, ending: string)
    requires ending == "" || ending == "\n"
    ensures FilterListing.Readable(ShownFilter(h, f, ending))
  {
    var shown := ShownFilter(h, f, ending);
    TextParts(h, f, ending);
    PreLacksW();
    AfterPreLacks(h, 'w');
    LacksBoth(Pre(), AfterPre(h), 'w');
    LacksWord(FilterListing.Head(shown), FilterListing.FLOW, 3);
    PostLacks(f.ip, ending);
    LacksWord(shown.post, FilterListing.FLOW, 1);
    PreHasNoHandle();
    ShownIsEntry(h, f, ending);
  }

  lemma {:induction false} ShownIsEntry(h: nat, f: Filter, ending: string)
    requires ending == "" || ending == "\n"
    ensures FilterListing.EntryText(FilterListing.TextOf(ShownFilter(h, f, ending)))
  {
    ShownOpens(h, f, ending);
    TextParts(h, f, ending);
    AfterFilNoLt(h, f, ending);
    var s := FilterListing.TextOf(ShownFilter(h, f, ending));
    forall i | 0 < i ensures !OccursAt(s, FilterListing.FILTER, i) { NoFilterInside(s, AfterFil(h, f, ending), i); }
  }

  /** The last entry has no line break: the output is stripped. */
  function Ending(i: int, n: int): (s: string)
    ensures s == "" || s == "\n"
  {
    if i == n - 1 then "" else "\n"
  }

  function ShownAt(d: Device, keys: seq<nat>, i: nat): FilterListing.Shown
    requires i < |keys| && keys[i] in d.filters
  {
    ShownFilter(keys[i], d.filters[keys[i]], Ending(i, |keys|))
  }

  /** The output for a device, whose filters are listed in the order of `keys`. */
  function ShownAll(d: Device, keys: seq<nat>): (ls: seq<FilterListing.Listed>)
    requires forall i :: 0 <= i < |keys| ==> keys[i] in d.filters
    ensures |ls| == |keys| && forall i :: 0 <= i < |keys| ==> ls[i] == FilterListing.Listed.Filter(ShownAt(d, keys, i))
  {
    seq(|keys|, i requires 0 <= i < |keys| => FilterListing.Listed.Filter(ShownAt(d, keys, i)))
  }

  lemma {:induction false} OneIsReadable(d: Device, keys: seq<nat>, i: nat)
    requires i < |keys| && keys[i] in d.filters
    ensures FilterListing.Readable(ShownAt(d, keys, i))
    ensures var s := FilterListing.TextOf(ShownAt(d, keys, i));
      FilterListing.EntryText(s) && (i < |keys| - 1 ==> s != "" && s[|s| - 1] == '\n')
  {
    ShownIsReadable(keys[i], d.filters[keys[i]], Ending(i, |keys|));
    ShownIsEntry(keys[i], d.filters[keys[i]], Ending(i, |keys|));
    if i < |keys| - 1 { EndsItsLine(keys[i], d.filters[keys[i]]); }
  }

  lemma {:induction false} AllArePlain(d: Device, keys: seq<nat>)
    requires forall i :: 0 <= i < |keys| ==> keys[i] in d.filters
    ensures forall i :: 0 <= i < |keys| ==> FilterListing.Plain(ShownAll(d, keys)[i])
  {
    forall i | 0 <= i < |keys| ensures FilterListing.Plain(ShownAll(d, keys)[i]) { OneIsReadable(d, keys, i); }
  }

  lemma {:induction false} OutputIsPrinted(d: Device, keys: seq<nat>, es: seq<string>)
    requires forall i :: 0 <= i < |keys| ==> keys[i] in d.filters
    requires |es| == |keys| && forall i :: 0 <= i < |keys| ==> es[i] == FilterListing.TextOf(ShownAt(d, keys, i))
    ensures FilterListing.Printed(es)
  {
    forall i | 0 <= i < |es|
      ensures FilterListing.EntryText(es[i])
      ensures i < |es| - 1 ==> es[i] != "" && es[i][|es[i]| - 1] == '\n'
    {
      OneIsReadable(d, keys, i);
    }
  }

  lemma {:induction false} OutputIsReadable(d: Device, keys: seq<nat>)
    requires forall i :: 0 <= i < |keys| ==> keys[i] in d.filters
    ensures forall i :: 0 <= i < |keys| ==> FilterListing.Plain(ShownAll(d, keys)[i])
    ensures FilterListing.Printed(FilterListing.Texts(ShownAll(d, keys)))
  {
    AllArePlain(d, keys);
    OutputIsPrinted(d, keys, FilterListing.Texts(ShownAll(d, keys)));
  }

  lemma {:induction false} EndsItsLine(h: nat, f: Filter)
    ensures var s := FilterListing.TextOf(ShownFilter(h, f, "\n")); s != "" && s[|s| - 1] == '\n'
  {
    var post := Post(f.ip, "\n");
    assert post[|post| - 1] == '\n';
  }

  function HandleText(h: nat): string {
    "800" + "::" + HexNat(h)
  }

  lemma {:induction false} HandleTextInjective(g: nat, h: nat)
    requires HandleText(g) == HandleText(h)
    ensures g == h
  {
    assert HandleText(g)[5..] == HexNat(g) && HandleText(h)[5..] == HexNat(h);
    HexNatInjective(g, h);
  }

  /** What the lookup finds in the output for the device. */
  ghost function FoundTexts(d: Device, keys: seq<nat>, id: nat): seq<string>
    requires forall i :: 0 <= i < |keys| ==> keys[i] in d.filters
  {
    FilterListing.HandlesIn(FilterListing.Pieces(FilterListing.Listing(FilterListing.Texts(ShownAll(d, keys)))), id)
  }

  lemma {:induction false} ShownIsOf(d: Device, keys: seq<nat>, j: nat, id: nat, handle: string)
    requires j < |keys| && keys[j] in d.filters
    ensures FilterListing.IsOf(FilterListing.Listed.Filter(ShownAt(d, keys, j)), id, handle)
      <==> FilterListing.Mentions(d.filters[keys[j]].flow, id) && HandleText(keys[j]) == handle
  {
  }

  lemma {:induction false} ListedIff(d: Device, keys: seq<nat>, ls: seq<FilterListing.Listed>, k: nat, id: nat)
    requires k < |keys| && (forall i :: 0 <= i < |keys| ==> keys[i] in d.filters) && ls == ShownAll(d, keys)
    ensures FilterListing.Lists(ls, id, HandleText(keys[k])) <==> FilterListing.Mentions(d.filters[keys[k]].flow, id)
  {
    ShownIsOf(d, keys, k, id, HandleText(keys[k]));
    if FilterListing.Lists(ls, id, HandleText(keys[k])) {
      var j :| 0 <= j < |ls| && FilterListing.IsOf(ls[j], id, HandleText(keys[k]));
      ShownIsOf(d, keys, j, id, HandleText(keys[k]));
      HandleTextInjective(keys[j], keys[k]);
    }
  }

  /** The lookup in the printed output finds a filter's handle exactly when its class begins with the number. */
  lemma {:induction false} HandleTextIsExact(d: Device, keys: seq<nat>, k: nat, id: nat)
    requires k < |keys| && forall i :: 0 <= i < |keys| ==> keys[i] in d.filters
    ensures HandleText(keys[k]) in FoundTexts(d, keys, id) <==> FilterListing.Mentions(d.filters[keys[k]].flow, id)
  {
    OutputIsReadable(d, keys);
    FilterListing.LookupIsExact(ShownAll(d, keys), id, HandleText(keys[k]));
    ListedIff(d, keys, ShownAll(d, keys), k, id);
  }

  /** The filters whose handle is among the texts found. */
  method ResolveHandles(d: Device, keys: seq<nat>, texts: seq<string>, ghost id: nat) returns (handles: seq<nat>)
    requires forall i :: 0 <= i < |keys| ==> keys[i] in d.filters && (HandleText(keys[i]) in texts <==> FilterListing.Mentions(d.filters[keys[i]].flow, id))
    ensures forall h :: h in handles <==> h in keys && h in d.filters && FilterListing.Mentions(d.filters[h].flow, id)
  {
    handles := [];
    for i := 0 to |keys|
      invariant forall h :: h in handles <==> h in keys[..i] && h in d.filters && FilterListing.Mentions(d.filters[h].flow, id)
    {
      if HandleText(keys[i]) in texts { handles := handles + [keys[i]]; }
      assert keys[..i + 1] == keys[..i] + [keys[i]];
    }
    assert keys[..|keys|] == keys;
  }

  /** Prints the filters, and keeps those whose handle the lookup in that text finds. */
  method FindFilterHandles(d: Device, id: nat) returns (handles: seq<nat>)
    ensures forall h :: h in handles <==> h in d.filters && FilterListing.Mentions(d.filters[h].flow, id)
  {
    var keys := ListKeys(d.filters);
    var shown := ShownAll(d, keys);
    var texts := FilterListing.FindHandles(FilterListing.Listing(FilterListing.Texts(shown)), id);
    forall i | 0 <= i < |keys| ensures HandleText(keys[i]) in texts <==> FilterListing.Mentions(d.filters[keys[i]].flow, id) {
      HandleTextIsExact(d, keys, i, id);
    }
    handles := ResolveHandles(d, keys, texts, id);
  }

  function WithoutHandles(filters: map<nat, Filter>, handles: seq<nat>): map<nat, Filter> {
    map h | h in filters && h !in handles :: filters[h]
  }

  /** Deletes the found filters one by one. */
  method DeleteFilters(host: TcHost, i: Interface, handles: seq<nat>)
    requires i == Ifb0 ==> host.tc.ifbExists
    modifies host
    ensures var d := Dev(old(host.tc), i);
      host.tc == SetDev(old(host.tc), i, d.(filters := WithoutHandles(d.filters, handles)))
  {
    ghost var before := host.tc;
    ghost var d := Dev(before, i);
    assert WithoutHandles(d.filters, []) == d.filters;
    for k := 0 to |handles|
      invariant host.tc == SetDev(before, i, d.(filters := WithoutHandles(d.filters, handles[..k])))
    {
      assert WithoutHandles(d.filters, handles[..k + 1]) == WithoutHandles(d.filters, handles[..k]) - {handles[k]};
      var _ := host.Run(On(i, FilterDel(handles[k])));
    }
    assert handles[..|handles|] == handles;
  }

  method RemoveOn(host: TcHost, i: Interface, id: nat)
    modifies host
    ensures host.tc == if i == Ifb0 && !old(host.tc).ifbExists then old(host.tc)
                       else SetDev(old(host.tc), i, Removed(Dev(old(host.tc), i), id))
  {
    if i == Awg0 || host.tc.ifbExists {
      var d := Dev(host.tc, i);
      var handles := FindFilterHandles(d, id);
      assert WithoutHandles(d.filters, handles) == WithoutFlow(d.filters, id);
      DeleteFilters(host, i, handles);
    }
    var _ := host.Run(On(i, ClassDel(id)));
  }

  method RemoveSpeedLimit(host: TcHost, ip: string) returns (ok: bool)
    modifies host
    ensures host.tc == RemoveLimit(old(host.tc), ip)
    ensures ok == PeerToClassId(ip).Some?
  {
    var id := PeerToClassId(ip);
    if id.None? { return false; }
    RemoveOn(host, Awg0, id.value);
    RemoveOn(host, Ifb0, id.value);
    return true;
  }

  method AddOn(host: TcHost, i: Interface, id: nat, ip: string, mbps: nat)
    requires i == Ifb0 ==> host.tc.ifbExists
    modifies host
    ensures host.tc == SetDev(old(host.tc), i, Added(Dev(old(host.tc), i), id, ip, mbps))
  {
    var ok := host.Run(On(i, ClassAdd(POOL_CLASS, id, Mbit(mbps), Mbit(mbps))));
    if ok {
      var _ := host.Run(On(i, FilterAdd(ip, id)));
    }
  }

  method SetupIfb(host: TcHost) returns (ok: bool)
    modifies host
    ensures ok && host.tc == WithIfb(old(host.tc))
  {
    if !host.tc.ifbExists {
      ok := host.Run(IfbAdd);
    }
    ok := host.Run(IfbSetUp);
    if !ok { return; }
    if !host.tc.ingress {
      ok := host.Run(IngressAdd);
      if !ok { return; }
    }
    ok := host.Run(RedirectAdd);
  }

  method SetupQdisc(host: TcHost, i: Interface, mbps: nat) returns (ok: bool)
    requires i == Ifb0 ==> host.tc.ifbExists
    modifies host
    ensures ok && host.tc == SetDev(old(host.tc), i, WithHtb(Dev(old(host.tc), i), PoolRate(mbps)))
  {
    if Dev(host.tc, i).htb { return true; }
    var _ := host.Run(On(i, QdiscDel));
    ok := host.Run(On(i, QdiscAdd));
    if !ok { return; }
    ok := host.Run(On(i, ClassAdd(0, POOL_CLASS, PoolRate(mbps), PoolRate(mbps))));
    if !ok { return; }
    ok := host.Run(On(i, ClassAdd(POOL_CLASS, DEFAULT_CLASS, TenGbit, PoolRate(mbps))));
    assert Dev(host.tc, i) == FreshDevice(PoolRate(mbps));
  }

  method ApplySpeedLimit(host: TcHost, ip: string, down: nat, up: nat) returns (ok: bool)
    modifies host
    ensures host.tc == ApplyLimit(old(host.tc), ip, down, up)
    ensures ok == PeerToClassId(ip).Some?
  {
    var id := PeerToClassId(ip);
    if id.None? { return false; }
    ok := SetupIfb(host);
    if !ok { return; }
    ok := SetupQdisc(host, Awg0, 0);
    if !ok { return; }
    ok := SetupQdisc(host, Ifb0, 0);
    if !ok { return; }
    var _ := RemoveSpeedLimit(host, ip);
    AddOn(host, Awg0, id.value, ip, down);
    AddOn(host, Ifb0, id.value, ip, up);
    return true;
  }

  ghost predicate HasPool(d: Device) {
    d.htb && POOL_CLASS in d.classes && DEFAULT_CLASS in d.classes
  }

  ghost predicate PoolIsThere(d: Device) {
    d.htb && POOL_CLASS in d.classes
  }

  /** The pool has the rate, the default class may use all of it, and nothing else changed. */
  ghost predicate Repooled(before: Device, after: Device, rate: Rate) {
    && after.htb == before.htb && after.filters == before.filters && after.classes.Keys == before.classes.Keys
    && (forall c :: c in before.classes && c != POOL_CLASS && c != DEFAULT_CLASS ==> after.classes[c] == before.classes[c])
    && (POOL_CLASS in before.classes ==> after.classes[POOL_CLASS] == before.classes[POOL_CLASS].(rate := rate, ceil := rate))
    && (DEFAULT_CLASS in before.classes ==>
          after.classes[DEFAULT_CLASS] == before.classes[DEFAULT_CLASS].(rate := TenGbit, ceil := rate))
  }

  method SetGlobalLimit(host: TcHost, down: nat, up: nat) returns (ok: bool)
    modifies host
    ensures host.tc == SetGlobal(old(host.tc), down, up)
    ensures ok <==> PoolIsThere(old(host.tc).awg0) && old(host.tc).ifbExists && PoolIsThere(old(host.tc).ifb0)
    ensures HasPool(old(host.tc).awg0) ==> Repooled(old(host.tc).awg0, host.tc.awg0, PoolRate(down))
    ensures HasPool(old(host.tc).awg0) && old(host.tc).ifbExists && HasPool(old(host.tc).ifb0) ==>
      ok && Repooled(old(host.tc).ifb0, host.tc.ifb0, PoolRate(up))
  {
    ok := host.Run(On(Awg0, ClassChange(POOL_CLASS, PoolRate(down), PoolRate(down))));
    if !ok { return; }
    var _ := host.Run(On(Awg0, ClassChange(DEFAULT_CLASS, TenGbit, PoolRate(down))));
    ok := host.Run(On(Ifb0, ClassChange(POOL_CLASS, PoolRate(up), PoolRate(up))));
    if !ok { return; }
    var _ := host.Run(On(Ifb0, ClassChange(DEFAULT_CLASS, TenGbit, PoolRate(up))));
  }

  // ----- The batch rebuild -----

  /** A row of the clients table; a missing or zero limit is 0, a missing address is empty. */
  datatype Client = Client(ip: string, down: nat, up: nat)

  /** A client gets a class when it has an address with a class and at least one limit. */
  predicate Limited(c: Client) {
    c.ip != "" && (c.down != 0 || c.up != 0) && PeerToClassId(c.ip).Some?
  }

  /** A missing direction takes the other direction's limit. */
  function EffectiveDown(c: Client): nat {
    if c.down != 0 then c.down else c.up
  }

  function EffectiveUp(c: Client): nat {
    if c.up != 0 then c.up else c.down
  }

  function InfraOn(i: Interface, pool: Rate): seq<Command> {
    [On(i, QdiscDel),
     On(i, QdiscAdd),
     On(i, ClassAdd(0, POOL_CLASS, pool, pool)),
     On(i, ClassAdd(POOL_CLASS, DEFAULT_CLASS, TenGbit, pool))]
  }

  function InfraScript(down: nat, up: nat): seq<Command> {
    [On(Awg0, QdiscDel), On(Ifb0, QdiscDel), IfbAdd, IfbSetUp, IngressAdd, RedirectAdd]
    + InfraOn(Awg0, PoolRate(down)) + InfraOn(Ifb0, PoolRate(up))
  }

  function ClientCommands(c: Client): seq<Command> {
    if !Limited(c) then []
    else
      var id := PeerToClassId(c.ip).value;
      [On(Awg0, ClassAdd(POOL_CLASS, id, Mbit(EffectiveDown(c)), Mbit(EffectiveDown(c)))),
       On(Awg0, FilterAdd(c.ip, id)),
       On(Ifb0, ClassAdd(POOL_CLASS, id, Mbit(EffectiveUp(c)), Mbit(EffectiveUp(c)))),
       On(Ifb0, FilterAdd(c.ip, id))]
  }

  function ClientScript(clients: seq<Client>): seq<Command> {
    if clients == [] then []
    else ClientScript(clients[..|clients| - 1]) + ClientCommands(clients[|clients| - 1])
  }

  /** A script runs every command, whether or not the ones before it failed. */
  function RunScript(tc: Tc, script: seq<Command>): Tc
    decreases |script|
  {
    if script == [] then tc else RunScript(Exec(tc, script[0]).0, script[1..])
  }

  method BuildBatchScript(clients: seq<Client>, down: nat, up: nat) returns (infra: seq<Command>, client: seq<Command>)
    ensures infra == InfraScript(down, up)
    ensures client == ClientScript(clients)
  {
    infra := [On(Awg0, QdiscDel), On(Ifb0, QdiscDel)];
    infra := infra + [IfbAdd, IfbSetUp];
    infra := infra + [IngressAdd, RedirectAdd];
    infra := infra + InfraOn(Awg0, PoolRate(down));
    infra := infra + InfraOn(Ifb0, PoolRate(up));
    client := [];
    for k := 0 to |clients|
      invariant client == ClientScript(clients[..k])
    {
      var c := clients[k];
      assert clients[..k + 1][..k] == clients[..k];
      if c.ip == "" || (c.down == 0 && c.up == 0) { continue; }
      var down := if c.down != 0 then c.down else c.up;
      var up := if c.up != 0 then c.up else c.down;
      var id := PeerToClassId(c.ip);
      if id.None? { continue; }
      client := client + [On(Awg0, ClassAdd(POOL_CLASS, id.value, Mbit(down), Mbit(down))), On(Awg0, FilterAdd(c.ip, id.value)),
                          On(Ifb0, ClassAdd(POOL_CLASS, id.value, Mbit(up), Mbit(up))), On(Ifb0, FilterAdd(c.ip, id.value))];
    }
    assert clients[..|clients|] == clients;
  }

  function Rebuild(tc: Tc, clients: seq<Client>, down: nat, up: nat): Tc {
    RunScript(RunScript(tc, InfraScript(down, up)), ClientScript(clients))
  }

  method ExecuteScript(host: TcHost, script: seq<Command>)
    modifies host
    ensures host.tc == RunScript(old(host.tc), script)
  {
    for k := 0 to |script|
      invariant RunScript(host.tc, script[k..]) == RunScript(old(host.tc), script)
    {
      var _ := host.Run(script[k]);
      assert script[k..][1..] == script[k + 1..];
    }
  }

  method ReapplyAllLimits(host: TcHost, clients: seq<Client>, down: nat, up: nat)
    modifies host
    ensures host.tc == Rebuild(old(host.tc), clients, down, up)
  {
    var infra, client := BuildBatchScript(clients, down, up);
    ExecuteScript(host, infra);
    ExecuteScript(host, client);
  }
}
