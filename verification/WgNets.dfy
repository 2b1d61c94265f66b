/**
 IPv4 networks and client addresses of WireGuard nodes (AssignFreshWireGuardNet,
 NextWireGuardNet, wgOverlapsAny, checkWGNetworks and allocateWGAddr in
 internal/corecfg/wireguard.go).
 */
module WgNets {

  import opened Options
  import opened Arithmetic

  type Addr = x: int | 0 <= x < 0x1_0000_0000
  type Ones = x: int | 0 <= x <= 32

  /** A parsed prefix. The address need not be the first of its network. */
  datatype Net = Net(ip: Addr, ones: Ones)

  /** A settings field: empty, unreadable, or a prefix. */
  datatype Text = Blank | Bad | Cidr(net: Net)

  function Parse(t: Text, otherwise: Net): Option<Net> {
    match t
    case Blank => Some(otherwise)
    case Bad => None
    case Cidr(n) => Some(n)
  }

  const DEFAULT_NET := Net(0x0A07_0000, 24)
  const DEFAULT_HUB := Net(0x0A07_0001, 24)
  const DEFAULT_EXIT := Net(0x0A07_0002, 32)

  function Pow2(n: nat): (p: nat)
    ensures p >= 1
  {
    if n == 0 then 1 else 2 * Pow2(n - 1)
  }

  /** Bitwise and. */
  function And(a: nat, b: nat): nat {
    if a == 0 || b == 0 then 0
    else 2 * And(a / 2, b / 2) + (if a % 2 == 1 && b % 2 == 1 then 1 else 0)
  }

  function Width(n: Net): nat { 32 - n.ones }

  /** The mask has its leading ones bits set. */
  function Mask(n: Net): int { Pow2(32) - Pow2(Width(n)) }

  lemma {:induction false} Pow2Grows(a: nat, b: nat)
    requires a <= b
    ensures Pow2(a) <= Pow2(b) && Pow2(b) == Pow2(a) * Pow2(b - a)
  {
    if a < b {
      Pow2Grows(a, b - 1);
      assert Pow2(b) == 2 * Pow2(b - 1) && Pow2(b - a) == 2 * Pow2(b - a - 1);
      assert Pow2(a) * (2 * Pow2(b - a - 1)) == 2 * (Pow2(a) * Pow2(b - a - 1));
    }
  }

  lemma Pow2At32()
    ensures Pow2(8) == 256 && Pow2(16) == 0x1_0000 && Pow2(32) == 0x1_0000_0000
  {
    assert Pow2(8) == 256;
    Pow2Grows(8, 16);
    Pow2Grows(16, 32);
  }

  /** IPNet.Contains compares both addresses under the mask. */
  predicate Contains(n: Net, x: Addr)
  {
    Pow2Grows(Width(n), 32);
    And(n.ip, Mask(n)) == And(x, Mask(n))
  }

  lemma SameBlock(t: int, a: int, x: int)
    requires t > 0
    ensures x - x % t == a - a % t <==> x / t == a / t
    ensures a - a % t <= x < a - a % t + t <==> x / t == a / t
  {
    var q := a / t;
    assert a == t * q + a % t && x == t * (x / t) + x % t;
    if x - x % t == a - a % t { DivMod(a, t, x / t, a % t); }
    if t * q <= x < t * q + t { DivMod(x, t, q, x - t * q); }
  }

  lemma LastBlockFits(t: int, k: int, a: int)
    requires t > 0 && 0 <= a < t * k
    ensures 0 <= a - a % t && a - a % t + t <= t * k
  {
    var q := a / t;
    assert a == t * q + a % t;
    if q < 0 {
      AtLeast(t, -q);
    }
    if q >= k { NonNegative(t, q - k); }
    assert t * (k - 1 - q) == t * k - t - t * q;
    NonNegative(t, k - 1 - q);
  }

  lemma HalvedRemainder(a: nat, m: nat)
    requires m > 0
    ensures a % (2 * m) == 2 * ((a / 2) % m) + a % 2
  {
    var h := a / 2;
    assert a == 2 * (m * (h / m) + h % m) + a % 2;
    assert 2 * (m * (h / m)) == (2 * m) * (h / m);
    DivMod(a, 2 * m, h / m, 2 * (h % m) + a % 2);
  }

  lemma AndStep(a: nat, b: nat)
    ensures And(a, b) == 2 * And(a / 2, b / 2) + (if a % 2 == 1 && b % 2 == 1 then 1 else 0)
  {
  }

  /** A prefix mask clears the low bits and nothing else. */
  lemma {:induction false} MaskClears(a: nat, w: nat, k: nat)
    requires w <= k && a < Pow2(k)
    ensures Pow2(w) <= Pow2(k) && And(a, Pow2(k) - Pow2(w)) == a - a % Pow2(w)
  {
    Pow2Grows(w, k);
    var mask := Pow2(k) - Pow2(w);
    AndStep(a, mask);
    if k > 0 {
      var w' := if w == 0 then 0 else w - 1;
      MaskClears(a / 2, w', k - 1);
      assert mask / 2 == Pow2(k - 1) - Pow2(w');
      if w > 0 { HalvedRemainder(a, Pow2(w')); }
    }
  }

  lemma Remainder(a: nat, t: nat)
    requires t > 0
    ensures 0 <= a % t <= a
  {
    assert a == t * (a / t) + a % t;
    NonNegative(t, a / t);
  }

  /** First address of the network, and the number of addresses. */
  function Base(n: Net): (b: Addr)
  {
    Remainder(n.ip, Pow2(Width(n)));
    n.ip - n.ip % Pow2(Width(n))
  }

  function Total(n: Net): (t: nat)
    ensures t >= 1
  {
    Pow2(Width(n))
  }

  lemma Masked(n: Net, x: Addr)
    ensures Mask(n) >= 0 && And(x, Mask(n)) == x - x % Total(n)
  {
    Pow2At32();
    MaskClears(x, Width(n), 32);
  }

  lemma InBlock(n: Net, x: Addr)
    ensures Contains(n, x) <==> Base(n) <= x < Base(n) + Total(n)
    ensures Contains(n, x) <==> x / Total(n) == n.ip / Total(n)
  {
    Masked(n, n.ip);
    Masked(n, x);
    SameBlock(Total(n), n.ip, x);
  }

  ghost predicate Share(n: Net, m: Net) { exists x: Addr :: Contains(n, x) && Contains(m, x) }

  predicate Overlap(n: Net, m: Net) { Contains(n, m.ip) || Contains(m, n.ip) }

  lemma Coarser(x: int, y: int, a: nat, b: nat)
    requires a <= b && x / Pow2(a) == y / Pow2(a)
    ensures x / Pow2(b) == y / Pow2(b)
  {
    Pow2Grows(a, b);
    QuotientOfQuotient(x, Pow2(a), Pow2(b - a));
    QuotientOfQuotient(y, Pow2(a), Pow2(b - a));
  }

  lemma Distribute(m: int, k: int, a: int, r: int)
    ensures m * (k * a + r) == (m * k) * a + m * r
  {
    assert m * (k * a + r) == m * (k * a) + m * r;
    assert m * (k * a) == (m * k) * a;
  }

  lemma BelowProduct(m: int, k: int, r: int, rest: int)
    requires 0 <= r < k && 0 <= rest < m
    ensures 0 <= m * r + rest < m * k
  {
    NonNegative(m, r);
    NonNegative(m, k - 1 - r);
    assert m * (k - 1 - r) == m * k - m - m * r;
  }

  lemma QuotientOfQuotient(x: int, m: int, k: int)
    requires m > 0 && k > 0
    ensures m * k > 0 && x / (m * k) == (x / m) / k
  {
    var q := x / m;
    var a, r, rest := q / k, q % k, x % m;
    assert m * k > 0;
    assert x == m * q + rest && q == k * a + r;
    Distribute(m, k, a, r);
    BelowProduct(m, k, r, rest);
    DivMod(x, m * k, a, m * r + rest);
  }

  /** Asking only about the two written addresses, masked or not, decides whether two networks
      have an address in common. */
  lemma OverlapIffShared(n: Net, m: Net)
    ensures Overlap(n, m) <==> Share(n, m)
  {
    InBlock(n, n.ip);
    InBlock(m, m.ip);
    InBlock(n, m.ip);
    InBlock(m, n.ip);
    if Overlap(n, m) {
      assert Contains(n, n.ip) && Contains(m, m.ip);
    }
    if Share(n, m) {
      var x: Addr :| Contains(n, x) && Contains(m, x);
      InBlock(n, x);
      InBlock(m, x);
      if Width(n) <= Width(m) {
        Coarser(x, n.ip, Width(n), Width(m));
      } else {
        Coarser(x, m.ip, Width(m), Width(n));
      }
    }
  }

  // ---- Free networks ---------------------------------------------------------------

  ghost predicate Apart(n: Net, used: seq<Net>) { forall m | m in used :: !Share(n, m) }

  /** wgOverlapsAny. */
  method OverlapsAny(n: Net, used: seq<Net>) returns (hit: bool)
    ensures hit <==> !Apart(n, used)
  {
    for i := 0 to |used|
      invariant forall j | 0 <= j < i :: !Share(n, used[j])
    {
      OverlapIffShared(n, used[i]);
      if Overlap(n, used[i]) { return true; }
    }
    hit := false;
  }

  /** usedNets: fields that do not parse are skipped. */
  function UsedNets(used: seq<Text>): seq<Net> {
    if used == [] then []
    else UsedNets(used[..|used| - 1]) + (match used[|used| - 1] case Cidr(n) => [n] case _ => [])
  }

  function Candidate(oct: int): (n: Net)
    requires 0 <= oct < 256
  {
    Net(0x0A00_0000 + oct * 0x1_0000, 24)
  }

  /** network, address and exit_address of one node. */
  datatype Layout = Layout(net: Net, hub: Net, exit: Net)

  /** What a saved node must satisfy (normalizeWireGuard). */
  predicate Sound(l: Layout) {
    && 16 <= l.net.ones <= 30
    && Contains(l.net, l.hub.ip) && l.hub.ones == l.net.ones
    && Contains(l.net, l.exit.ip) && l.exit.ones == 32
    && l.hub.ip != l.exit.ip
  }

  function AddIP(base: Addr, off: nat): Addr { (base + off) % 0x1_0000_0000 }

  lemma BlockFits(net: Net)
    ensures Base(net) + Total(net) <= 0x1_0000_0000
  {
    var w := Width(net);
    Pow2At32();
    Pow2Grows(w, 32);
    LastBlockFits(Pow2(w), Pow2(32 - w), net.ip);
  }

  lemma NoWrap(x: nat)
    requires x < 0x1_0000_0000
    ensures x % 0x1_0000_0000 == x
  {
  }

  lemma OffsetInside(net: Net, off: nat)
    requires off < Total(net)
    ensures AddIP(Base(net), off) == Base(net) + off && Contains(net, Base(net) + off)
  {
    BlockFits(net);
    var x := Base(net) + off;
    NoWrap(x);
    InBlock(net, x);
  }

  lemma CandidateBase(oct: int)
    requires 0 <= oct < 256
    ensures Total(Candidate(oct)) == 256 && Base(Candidate(oct)) == Candidate(oct).ip
  {
    Pow2At32();
    DivMod(Candidate(oct).ip, 256, 0xA_0000 + oct * 0x100, 0);
  }

  lemma CandidateLayout(oct: int)
    requires 7 <= oct <= 255
    ensures var n := Candidate(oct);
      Sound(Layout(n, Net(AddIP(n.ip, 1), 24), Net(AddIP(n.ip, 2), 32)))
  {
    CandidateBase(oct);
    OffsetInside(Candidate(oct), 1);
    OffsetInside(Candidate(oct), 2);
  }

  ghost predicate FirstFree(taken: seq<Net>, oct: int, n: Net)
    requires 7 <= oct <= 255
  {
    n == Candidate(oct) && Apart(n, taken) && forall o | 7 <= o < oct :: !Apart(Candidate(o), taken)
  }

  /** NextWireGuardNet: the first of 10.7.0.0/24 .. 10.255.0.0/24 that shares no address with a
      used network, with the hub at .1 and the exit at .2; none only if every one is taken. */
  method NextNet(used: seq<Text>) returns (r: Option<Layout>)
    ensures r.Some? ==> Sound(r.value) && r.value.net.ones == 24 && Apart(r.value.net, UsedNets(used))
    ensures r.Some? ==> exists oct | 7 <= oct <= 255 :: FirstFree(UsedNets(used), oct, r.value.net)
    ensures r.Some? ==> r.value.hub == Net(AddIP(r.value.net.ip, 1), 24)
    ensures r.Some? ==> r.value.exit == Net(AddIP(r.value.net.ip, 2), 32)
    ensures r.None? <==> forall o | 7 <= o <= 255 :: !Apart(Candidate(o), UsedNets(used))
  {
    var taken := UsedNets(used);
    for oct := 7 to 256
      invariant forall o | 7 <= o < oct :: !Apart(Candidate(o), taken)
    {
      var cand := Candidate(oct);
      var hit := OverlapsAny(cand, taken);
      if hit { continue; }
      CandidateLayout(oct);
      assert FirstFree(taken, oct, cand);
      return Some(Layout(cand, Net(AddIP(cand.ip, 1), 24), Net(AddIP(cand.ip, 2), 32)));
    }
    r := None;
  }

  lemma OneCandidateEach(m: Net, o: int, p: int)
    requires m.ones >= 16 && 0 <= o < 256 && 0 <= p < 256
    requires Share(m, Candidate(o)) && Share(m, Candidate(p))
    ensures o == p
  {
    SameSixteen(m, o);
    SameSixteen(m, p);
  }

  lemma SameSixteen(m: Net, o: int)
    requires m.ones >= 16 && 0 <= o < 256 && Share(m, Candidate(o))
    ensures m.ip / 0x1_0000 == 0x0A00 + o
  {
    var c := Candidate(o);
    var x: Addr :| Contains(m, x) && Contains(c, x);
    InBlock(m, x);
    InBlock(c, x);
    Pow2At32();
    Coarser(x, m.ip, Width(m), 16);
    Coarser(x, c.ip, 8, 16);
    DivMod(c.ip, 0x1_0000, 0x0A00 + o, 0);
  }

  function Range(lo: int, hi: int): (s: set<int>)
    requires lo <= hi
    ensures |s| == hi - lo && forall o :: o in s <==> lo <= o < hi
    decreases hi - lo
  {
    if lo == hi then {} else Range(lo, hi - 1) + {hi - 1}
  }

  function TakenBy(octs: set<int>, m: Net): (here: set<int>)
    requires forall o | o in octs :: 7 <= o <= 255
    ensures here <= octs
  {
    set o | o in octs && Overlap(m, Candidate(o))
  }

  lemma TakesOne(octs: set<int>, m: Net)
    requires forall o | o in octs :: 7 <= o <= 255
    requires m.ones >= 16
    ensures |TakenBy(octs, m)| <= 1
  {
    var here := TakenBy(octs, m);
    if p :| p in here {
      forall o | o in here
        ensures o == p
      {
        OverlapIffShared(m, Candidate(o));
        OverlapIffShared(m, Candidate(p));
        OneCandidateEach(m, o, p);
      }
      assert here == {p};
    }
  }

  lemma TakenByRest(o: int, taken: seq<Net>)
    requires 7 <= o <= 255 && taken != [] && !Apart(Candidate(o), taken) && !Overlap(taken[0], Candidate(o))
    ensures !Apart(Candidate(o), taken[1..])
  {
    var t :| t in taken && Share(Candidate(o), t);
    Swap(t, Candidate(o));
    OverlapIffShared(t, Candidate(o));
    assert t in taken[1..];
  }

  /** Every candidate in octs is taken by some network, and no network takes two. */
  lemma {:induction false} TakersNeeded(octs: set<int>, taken: seq<Net>)
    requires forall o | o in octs :: 7 <= o <= 255
    requires forall m | m in taken :: m.ones >= 16
    requires forall o | o in octs :: !Apart(Candidate(o), taken)
    ensures |octs| <= |taken|
  {
    if taken == [] {
      assert forall n :: Apart(n, []);
      assert octs == {};
    } else {
      var here := TakenBy(octs, taken[0]);
      forall o | o in octs - here
        ensures !Apart(Candidate(o), taken[1..])
      {
        TakenByRest(o, taken);
      }
      TakersNeeded(octs - here, taken[1..]);
      TakesOne(octs, taken[0]);
      assert |octs| == |octs - here| + |here|;
    }
  }

  lemma Swap(n: Net, m: Net)
    ensures Share(n, m) <==> Share(m, n)
  {
    OverlapIffShared(n, m);
    OverlapIffShared(m, n);
  }

  /** Saved nodes have prefixes of 16 bits or more; 248 of them cannot use the range up. */
  lemma RoomForNodes(taken: seq<Net>)
    requires |taken| < 249 && forall m | m in taken :: m.ones >= 16
    ensures exists o | 7 <= o <= 255 :: Apart(Candidate(o), taken)
  {
    if forall o | 7 <= o <= 255 :: !Apart(Candidate(o), taken) {
      TakersNeeded(Range(7, 256), taken);
      assert false;
    }
  }

  /** The settings of the node being saved, rewritten in place. */
  class Draft {
    const id: int
    var net: Text
    var hub: Text
    var exit: Text

    constructor (id: int, net: Text, hub: Text, exit: Text)
      ensures this.id == id && this.net == net && this.hub == hub && this.exit == exit
    {
      this.id, this.net, this.hub, this.exit := id, net, hub, exit;
    }

    /** AssignFreshWireGuardNet; others holds the network fields of all other WireGuard nodes. */
    method AssignFresh(others: seq<Text>) returns (ok: bool)
      modifies this
      ensures id != 0 ==> ok && Same(old(net), old(hub), old(exit))
      ensures id == 0 && ok ==>
        Parse(net, DEFAULT_NET).Some? && Apart(Parse(net, DEFAULT_NET).value, UsedNets(WithDefaults(others)))
      ensures id == 0 && old(net) == Bad ==> !ok
      ensures id == 0 && old(net) != Bad ==>
        var was, taken := Parse(old(net), DEFAULT_NET).value, UsedNets(WithDefaults(others));
        && (Apart(was, taken) ==> ok && Same(old(net), old(hub), old(exit)))
        && (ok <==> Apart(was, taken) || exists o | 7 <= o <= 255 :: Apart(Candidate(o), taken))
        && (ok && !Apart(was, taken) ==>
           net.Cidr? && hub.Cidr? && exit.Cidr? && Sound(Layout(net.net, hub.net, exit.net)))
      ensures !ok ==> Same(old(net), old(hub), old(exit))
    {
      if id != 0 { return true; }
      var used := WithDefaults(others);
      var cur := Parse(net, DEFAULT_NET);
      if cur.None? { return false; }
      var hit := OverlapsAny(cur.value, UsedNets(used));
      if !hit { return true; }
      var next := NextNet(used);
      if next.None? { return false; }
      net, hub, exit := Cidr(next.value.net), Cidr(next.value.hub), Cidr(next.value.exit);
      ok := true;
    }

    predicate Same(net0: Text, hub0: Text, exit0: Text)
      reads this
    {
      net == net0 && hub == hub0 && exit == exit0
    }
  }

  /** A blank network field stands for the default network. */
  function WithDefaults(fields: seq<Text>): (r: seq<Text>)
    ensures |r| == |fields|
  {
    seq(|fields|, i requires 0 <= i < |fields| => if fields[i].Blank? then Cidr(DEFAULT_NET) else fields[i])
  }

  /** checkWGNetworks over the enabled nodes of one machine: accepted exactly when every network
      parses and no two share an address. */
  method CheckNetworks(fields: seq<Text>) returns (ok: bool)
    ensures ok <==> (forall i | 0 <= i < |fields| :: Parse(fields[i], DEFAULT_NET).Some?) &&
                    (forall i, j | 0 <= i < j < |fields| :: NoneShared(fields[i], fields[j]))
  {
    var nets: seq<Net> := [];
    for i := 0 to |fields|
      invariant |nets| == i && forall j | 0 <= j < i :: Parse(fields[j], DEFAULT_NET) == Some(nets[j])
      invariant forall j, k | 0 <= j < k < i :: NoneShared(fields[j], fields[k])
    {
      var n := Parse(fields[i], DEFAULT_NET);
      if n.None? { return false; }
      var hit := OverlapsAny(n.value, nets);
      if hit {
        ghost var m :| m in nets && Share(n.value, m);
        ghost var j :| 0 <= j < i && nets[j] == m;
        assert !NoneShared(fields[j], fields[i]) by { Swap(n.value, m); }
        return false;
      }
      forall j | 0 <= j < i
        ensures NoneShared(fields[j], fields[i])
      {
        Swap(n.value, nets[j]);
      }
      nets := nets + [n.value];
    }
    ok := true;
  }

  ghost predicate NoneShared(a: Text, b: Text) {
    var n, m := Parse(a, DEFAULT_NET), Parse(b, DEFAULT_NET);
    n.Some? && m.Some? ==> !Share(n.value, m.value)
  }

  // ---- Client addresses ------------------------------------------------------------

  datatype Settings = Settings(net: Text, hub: Text, exit: Text)

  function Reserved(st: Settings): set<Addr> {
    (match Parse(st.hub, DEFAULT_HUB) case Some(n) => {n.ip} case None => {}) +
    (match Parse(st.exit, DEFAULT_EXIT) case Some(n) => {n.ip} case None => {})
  }

  /** A client may get this address: inside the network, neither its first nor its last, not
      the hub's or the exit's, and nobody's. */
  predicate Usable(st: Settings, net: Net, used: set<Addr>, x: Addr) {
    Contains(net, x) && x != Base(net) && x != Base(net) + Total(net) - 1 && x !in Reserved(st) && x !in used
  }

  /** The scan begins at .10, or at .1 where the network is too small. */
  function Start(total: nat): nat { if 10 >= total - 1 then 1 else 10 }

  function Offset(total: nat, step: nat): (off: nat)
    requires total > 0
    ensures off < total
  {
    (Start(total) + step) % total
  }

  function At(net: Net, step: nat): Addr { AddIP(Base(net), Offset(Total(net), step)) }

  lemma StepReaches(total: nat, off: nat)
    requires total >= 4 && off < total
    ensures exists step: nat :: step < total && Offset(total, step) == off
  {
    var s := Start(total);
    var step: nat := if off >= s then off - s else off + total - s;
    DivMod(s + step, total, if off >= s then 0 else 1, off);
    assert step < total && Offset(total, step) == off;
  }

  /** What the scan's test at one step decides. */
  predicate Pick(st: Settings, net: Net, used: set<Addr>, step: nat) {
    var off, total := Offset(Total(net), step), Total(net);
    off != 0 && off != total - 1 && Contains(net, At(net, step)) && At(net, step) !in Reserved(st) &&
      At(net, step) !in used
  }

  lemma PickIsUsable(st: Settings, net: Net, used: set<Addr>, step: nat)
    ensures Pick(st, net, used, step) <==> Usable(st, net, used, At(net, step))
  {
    OffsetInside(net, Offset(Total(net), step));
  }

  lemma UsableIsVisited(st: Settings, net: Net, used: set<Addr>, x: Addr)
    requires Total(net) >= 4 && Usable(st, net, used, x)
    ensures exists step: nat :: step < Total(net) && At(net, step) == x
  {
    InBlock(net, x);
    var off := x - Base(net);
    StepReaches(Total(net), off);
    var step: nat :| step < Total(net) && Offset(Total(net), step) == off;
    OffsetInside(net, off);
    assert At(net, step) == x;
  }

  datatype Outcome = Given(addr: Addr) | BadNetwork | BadWidth | Full

  function Judged(st: Settings): Outcome
  {
    var n := Parse(st.net, DEFAULT_NET);
    if n.None? then BadNetwork else if Width(n.value) < 2 || Width(n.value) > 16 then BadWidth else Full
  }

  /** allocateWGAddr: the first usable address in scan order, which wraps around the network;
      Full exactly when no usable address exists. */
  method Allocate(st: Settings, used: set<Addr>) returns (r: Outcome)
    ensures Judged(st) != Full ==> r == Judged(st)
    ensures Judged(st) == Full ==>
      var net := Parse(st.net, DEFAULT_NET).value;
      && (r.Given? ==> Usable(st, net, used, r.addr))
      && (r.Given? ==> exists step: nat ::
           r.addr == At(net, step) && forall s: nat | s < step :: !Usable(st, net, used, At(net, s)))
      && (!r.Given? ==> r == Full && forall x: Addr :: !Usable(st, net, used, x))
  {
    var n := Parse(st.net, DEFAULT_NET);
    if n.None? { return BadNetwork; }
    var net := n.value;
    var width := Width(net);
    if width < 2 || width > 16 { return BadWidth; }
    assert Total(net) >= 4 by { Pow2Grows(2, width); assert Pow2(2) == 4; }
    for step := 0 to Total(net)
      invariant forall s: nat | s < step :: !Usable(st, net, used, At(net, s))
    {
      PickIsUsable(st, net, used, step);
      if Pick(st, net, used, step) { return Given(At(net, step)); }
    }
    forall x: Addr
      ensures !Usable(st, net, used, x)
    {
      if Usable(st, net, used, x) {
        UsableIsVisited(st, net, used, x);
      }
    }
    r := Full;
  }

  /** The clients of one node, in creation order. */
  class Clients {
    const st: Settings
    const net: Net
    var addrs: seq<Addr>

    ghost predicate Valid()
      reads this
    {
      && st.net == Cidr(net) && 2 <= Width(net) <= 16
      && (forall i | 0 <= i < |addrs| :: Usable(st, net, {}, addrs[i]))
      && (forall i, j | 0 <= i < j < |addrs| :: addrs[i] != addrs[j])
    }

    constructor (net: Net, hub: Text, exit: Text)
      requires 2 <= Width(net) <= 16
      ensures Valid() && addrs == [] && this.net == net && st == Settings(Cidr(net), hub, exit)
    {
      this.net, this.st, this.addrs := net, Settings(Cidr(net), hub, exit), [];
    }

    /** NewWireGuardClient: however many are created, every client has an address of its own
        until none is left. */
    method Create() returns (ok: bool)
      requires Valid()
      modifies this
      ensures Valid()
      ensures ok ==> |addrs| == |old(addrs)| + 1 && addrs[..|old(addrs)|] == old(addrs)
      ensures !ok ==> addrs == old(addrs) && forall x: Addr :: Usable(st, net, {}, x) ==> x in addrs
    {
      var r := Allocate(st, set a | a in addrs);
      if r.Given? {
        addrs := addrs + [r.addr];
        ok := true;
      } else {
        ok := false;
        forall x: Addr | Usable(st, net, {}, x)
          ensures x in addrs
        {
          assert !Usable(st, net, (set a | a in addrs), x);
        }
      }
    }
  }
}
