/**
 Interface, fwmark and route table of each WireGuard node on one entry machine
 (assignWGSlots and wgPolicyPriorities in internal/corecfg/wireguard.go).
 */
module WgSlots {

  const MARK0: int := 51820
  const TABLE0: int := 100
  const MAX_NODES := 20
  const CANDIDATES := 64

  /** likingwg<n> with n below 64, written canonically; any other text claims nothing. */
  datatype Iface = Named(n: int) | Other

  /** The settings of one enabled node; missing marks and tables read as the defaults. */
  datatype Node = Node(id: int, port: int, iface: Iface, mark: int, table: int)

  predicate Valid(x: Node) {
    x.iface.Named? && 0 <= x.iface.n < CANDIDATES && x.mark >= 1 && 1 <= x.table <= 252
  }

  predicate Clash(a: Node, b: Node) { a.iface == b.iface || a.mark == b.mark || a.table == b.table }

  predicate Free(taken: seq<Node>, x: Node) { forall c | c in taken :: !Clash(c, x) }

  /** In id order, a valid claim stands unless a standing claim before it has a part of it. */
  function Standing(ns: seq<Node>): seq<Node>
    decreases |ns|
  {
    if ns == [] then []
    else
      var s, x := Standing(ns[..|ns| - 1]), ns[|ns| - 1];
      if Valid(x) && Free(s, x) then s + [x] else s
  }

  predicate Kept(ns: seq<Node>, i: nat)
    requires i < |ns|
  {
    Valid(ns[i]) && Free(Standing(ns[..i]), ns[i])
  }

  /** What a node looks like once candidate n is written into its settings. */
  function Fill(x: Node, n: int): Node { x.(iface := Named(n), mark := MARK0 + n, table := TABLE0 + n) }

  predicate IsSlot(x: Node, n: int) { x == Fill(x, n) }

  /** The node has candidate n's name, mark or table. */
  predicate Blocks(x: Node, n: int) { x.iface == Named(n) || x.mark == MARK0 + n || x.table == TABLE0 + n }

  predicate Hit(taken: seq<Node>, n: int) { exists c | c in taken :: Blocks(c, n) }

  predicate Earlier(keep: seq<bool>, out: seq<Node>, i: nat, n: int)
    requires i <= |keep| && i <= |out|
  {
    exists j: nat | j < i && !keep[j] :: out[j].iface == Named(n)
  }

  /** The slot given to row i is the least candidate that no standing claim blocks and no
      earlier row was given. */
  predicate Given(x: Node, keep: seq<bool>, standing: seq<Node>, out: seq<Node>, i: nat)
    requires i < |keep| == |out|
  {
    out[i].iface.Named? &&
    var n := out[i].iface.n;
    && 0 <= n < CANDIDATES && out[i] == Fill(x, n)
    && !Hit(standing, n) && !Earlier(keep, out, i, n)
    && forall m: nat | m < n :: Hit(standing, m) || Earlier(keep, out, i, m)
  }

  function Flags(ns: seq<Node>): (keep: seq<bool>)
    ensures |keep| == |ns| && forall i: nat | i < |ns| :: keep[i] <==> Kept(ns, i)
  {
    seq(|ns|, i requires 0 <= i < |ns| => Kept(ns, i))
  }

  /** Standing claims stay; every other row has the slot it is due. */
  ghost predicate Filled(ns: seq<Node>, keep: seq<bool>, standing: seq<Node>, out: seq<Node>) {
    && |out| == |ns| == |keep|
    && (forall i: nat | i < |ns| && keep[i] :: out[i] == ns[i])
    && (forall i: nat | i < |ns| && !keep[i] :: Given(ns[i], keep, standing, out, i))
  }

  ghost predicate Assigned(ns: seq<Node>, out: seq<Node>) { Filled(ns, Flags(ns), Standing(ns), out) }

  lemma StandingStep(ns: seq<Node>, i: nat)
    requires i < |ns|
    ensures Standing(ns[..i + 1]) == Standing(ns[..i]) + (if Kept(ns, i) then [ns[i]] else [])
  {
    assert ns[..i + 1][..i] == ns[..i];
  }

  lemma {:induction false} StandingHas(ns: seq<Node>, i: nat, j: nat)
    requires j < i <= |ns| && Kept(ns, j)
    ensures ns[j] in Standing(ns[..i])
  {
    StandingStep(ns, i - 1);
    if j < i - 1 { StandingHas(ns, i - 1, j); }
  }

  lemma {:induction false} StandingComesFrom(ns: seq<Node>, i: nat, c: Node)
    requires i <= |ns| && c in Standing(ns[..i])
    ensures exists j: nat :: j < i && Kept(ns, j) && ns[j] == c
  {
    if i > 0 {
      StandingStep(ns, i - 1);
      if c in Standing(ns[..i - 1]) { StandingComesFrom(ns, i - 1, c); }
    }
  }

  // ---- What an assignment guarantees -----------------------------------------------

  predicate Settled(ns: seq<Node>) {
    && (forall i | 0 <= i < |ns| :: Valid(ns[i]))
    && (forall i, j | 0 <= i < j < |ns| :: !Clash(ns[i], ns[j]))
  }

  lemma TwoRows(ns: seq<Node>, out: seq<Node>, i: nat, j: nat)
    requires Assigned(ns, out) && i < j < |ns|
    ensures !Clash(out[i], out[j])
  {
    assert ns[..|ns|] == ns;
    if Kept(ns, i) {
      if Kept(ns, j) { StandingHas(ns, j, i); } else { StandingHas(ns, |ns|, i); }
    } else if Kept(ns, j) {
      StandingHas(ns, |ns|, j);
    }
  }

  /** Names, marks and tables are pairwise distinct and in range. */
  lemma AssignedIsSettled(ns: seq<Node>, out: seq<Node>)
    requires Assigned(ns, out)
    ensures Settled(out)
  {
    forall i, j | 0 <= i < j < |out|
      ensures !Clash(out[i], out[j])
    {
      TwoRows(ns, out, i, j);
    }
  }

  lemma SettledPrefixIsKept(ns: seq<Node>, k: nat, i: nat)
    requires i < k <= |ns| && Settled(ns[..k])
    ensures Kept(ns, i)
  {
    assert ns[..k][i] == ns[i];
    forall c | c in Standing(ns[..i])
      ensures !Clash(c, ns[i])
    {
      StandingComesFrom(ns, i, c);
      var j: nat :| j < i && Kept(ns, j) && ns[j] == c;
      assert ns[..k][j] == c;
    }
  }

  /** Nodes that are already settled keep their slots when nodes with larger ids follow. */
  lemma SettledPrefixUnmoved(ns: seq<Node>, out: seq<Node>, k: nat)
    requires k <= |ns| && Settled(ns[..k]) && Assigned(ns, out)
    ensures out[..k] == ns[..k]
  {
    forall i: nat | i < k
      ensures out[i] == ns[i]
    {
      SettledPrefixIsKept(ns, k, i);
    }
  }

  /** Assigning again changes nothing. */
  lemma Idempotent(ns: seq<Node>, out: seq<Node>, again: seq<Node>)
    requires Assigned(ns, out) && Assigned(out, again)
    ensures again == out
  {
    AssignedIsSettled(ns, out);
    assert out[..|out|] == out && again[..|out|] == again;
    SettledPrefixUnmoved(out, again, |out|);
  }

  /** Removing nodes moves none of the others. */
  lemma RemovalKeepsOthers(ns: seq<Node>, out: seq<Node>, at: seq<nat>, rest: seq<Node>, again: seq<Node>)
    requires Assigned(ns, out) && |rest| == |at| && Assigned(rest, again)
    requires forall i | 0 <= i < |at| :: at[i] < |out| && rest[i] == out[at[i]]
    requires forall i, j | 0 <= i < j < |at| :: at[i] < at[j]
    ensures again == rest
  {
    AssignedIsSettled(ns, out);
    forall i, j | 0 <= i < j < |rest|
      ensures !Clash(rest[i], rest[j])
    {
      assert !Clash(out[at[i]], out[at[j]]);
    }
    assert rest[..|rest|] == rest && again[..|rest|] == again;
    SettledPrefixUnmoved(rest, again, |rest|);
  }

  lemma EarlierAgrees(keep: seq<bool>, a: seq<Node>, b: seq<Node>, i: nat, m: int)
    requires |keep| == |a| == |b| && i < |keep|
    requires forall j: nat | j < i :: a[j] == b[j]
    requires Earlier(keep, a, i, m)
    ensures Earlier(keep, b, i, m)
  {
    var j: nat :| j < i && !keep[j] && a[j].iface == Named(m);
    assert b[j].iface == Named(m);
  }

  lemma NoLowerChoice(x: Node, keep: seq<bool>, standing: seq<Node>, a: seq<Node>, b: seq<Node>, i: nat)
    requires |keep| == |a| == |b| && i < |keep|
    requires forall j: nat | j < i :: a[j] == b[j]
    requires Given(x, keep, standing, a, i) && Given(x, keep, standing, b, i)
    ensures a[i].iface.n >= b[i].iface.n
  {
    var n := a[i].iface.n;
    if n < b[i].iface.n {
      assert Hit(standing, n) || Earlier(keep, b, i, n);
      if Earlier(keep, b, i, n) { EarlierAgrees(keep, b, a, i, n); }
    }
  }

  lemma SameChoice(ns: seq<Node>, keep: seq<bool>, standing: seq<Node>, a: seq<Node>, b: seq<Node>, i: nat)
    requires Filled(ns, keep, standing, a) && Filled(ns, keep, standing, b) && i < |ns|
    requires forall j: nat | j < i :: a[j] == b[j]
    ensures a[i] == b[i]
  {
    if !keep[i] {
      NoLowerChoice(ns[i], keep, standing, a, b, i);
      NoLowerChoice(ns[i], keep, standing, b, a, i);
    }
  }

  lemma {:induction false} FilledUnique(ns: seq<Node>, keep: seq<bool>, standing: seq<Node>, a: seq<Node>,
                                        b: seq<Node>, k: nat)
    requires Filled(ns, keep, standing, a) && Filled(ns, keep, standing, b) && k <= |ns|
    ensures forall i: nat | i < k :: a[i] == b[i]
  {
    if k > 0 {
      FilledUnique(ns, keep, standing, a, b, k - 1);
      SameChoice(ns, keep, standing, a, b, k - 1);
    }
  }

  /** The rules leave no choice. */
  lemma AssignedUnique(ns: seq<Node>, a: seq<Node>, b: seq<Node>)
    requires Assigned(ns, a) && Assigned(ns, b)
    ensures a == b
  {
    FilledUnique(ns, Flags(ns), Standing(ns), a, b, |ns|);
  }

  // ---- The allocator ------------------------------------------------------------------

  /** The settings of a stored node are rewritten in place. */
  class Tunnel {
    const id: int
    const port: int
    var iface: Iface
    var mark: int
    var table: int

    constructor (id: int, port: int, iface: Iface, mark: int, table: int)
      ensures View() == Node(id, port, iface, mark, table)
    {
      this.id, this.port := id, port;
      this.iface, this.mark, this.table := iface, mark, table;
    }

    function View(): Node
      reads this
    {
      Node(id, port, iface, mark, table)
    }
  }

  function Views(ts: seq<Tunnel>): (ns: seq<Node>)
    reads ts
    ensures |ns| == |ts| && forall i | 0 <= i < |ts| :: ns[i] == ts[i].View()
  {
    seq(|ts|, i requires 0 <= i < |ts| reads ts => ts[i].View())
  }

  predicate NotAfter(a: Tunnel, b: Tunnel) { a.id < b.id || (a.id == b.id && a.port <= b.port) }

  predicate InOrder(ts: seq<Tunnel>) { forall i, j | 0 <= i < j < |ts| :: NotAfter(ts[i], ts[j]) }

  predicate DistinctRows(ts: seq<Tunnel>) { forall i, j | 0 <= i < j < |ts| :: ts[i] != ts[j] }

  function Insert(t: Tunnel, ts: seq<Tunnel>): (r: seq<Tunnel>)
    ensures multiset(r) == multiset(ts) + multiset{t}
  {
    if ts == [] || NotAfter(t, ts[0]) then [t] + ts
    else
      assert ts == [ts[0]] + ts[1..];
      [ts[0]] + Insert(t, ts[1..])
  }

  /** By id, then by port. */
  function Sorted(ts: seq<Tunnel>): (r: seq<Tunnel>)
    ensures multiset(r) == multiset(ts)
  {
    if ts == [] then []
    else
      var n := |ts| - 1;
      assert ts == ts[..n] + [ts[n]];
      Insert(ts[n], Sorted(ts[..n]))
  }

  lemma {:induction false} InsertInOrder(t: Tunnel, ts: seq<Tunnel>)
    requires InOrder(ts)
    ensures InOrder(Insert(t, ts))
  {
    if ts != [] && !NotAfter(t, ts[0]) {
      InsertInOrder(t, ts[1..]);
      var r := Insert(t, ts[1..]);
      forall j | 0 <= j < |r|
        ensures NotAfter(ts[0], r[j])
      {
        assert r[j] in multiset(r);
        if r[j] != t {
          assert r[j] in multiset(ts[1..]);
          var k :| 0 <= k < |ts[1..]| && ts[1..][k] == r[j];
          assert NotAfter(ts[0], ts[k + 1]);
        }
      }
    }
  }

  lemma {:induction false} SortedInOrder(ts: seq<Tunnel>)
    ensures InOrder(Sorted(ts))
  {
    if ts != [] {
      var n := |ts| - 1;
      SortedInOrder(ts[..n]);
      InsertInOrder(ts[n], Sorted(ts[..n]));
    }
  }

  lemma {:induction false} OnceEach(ts: seq<Tunnel>, r: seq<Tunnel>)
    requires DistinctRows(ts) && multiset(r) == multiset(ts)
    ensures |r| == |ts| && DistinctRows(r) && forall i | 0 <= i < |r| :: r[i] in ts
  {
    assert |multiset(r)| == |multiset(ts)|;
    forall i | 0 <= i < |r|
      ensures r[i] in ts
    {
      assert r[i] in multiset(r);
    }
    forall i, j | 0 <= i < j < |r|
      ensures r[i] != r[j]
    {
      AtMostOnce(ts, r[i]);
      assert r == r[..i] + [r[i]] + r[i + 1..j] + [r[j]] + r[j + 1..];
    }
  }

  lemma {:induction false} AtMostOnce(ts: seq<Tunnel>, t: Tunnel)
    requires DistinctRows(ts)
    ensures multiset(ts)[t] <= 1
  {
    if ts != [] {
      assert ts == [ts[0]] + ts[1..];
      AtMostOnce(ts[1..], t);
      if ts[0] == t { assert t !in ts[1..]; }
    }
  }

  // ---- Why 64 candidates are enough ----------------------------------------------------

  lemma {:induction false} SubsetSize<T>(a: set<T>, b: set<T>)
    requires a <= b
    ensures |a| <= |b|
  {
    if |a| > 0 {
      var x :| x in a;
      SubsetSize(a - {x}, b - {x});
    }
  }

  function Below(n: nat): (s: set<int>)
    ensures |s| == n && forall m :: m in s <==> 0 <= m < n
  {
    if n == 0 then {} else Below(n - 1) + {n - 1}
  }

  /** The candidates the claims take: at most three each. */
  function BlockSet(cs: seq<Node>): (s: set<int>)
    ensures |s| <= 3 * |cs|
  {
    if cs == [] then {}
    else
      var c := cs[0];
      var n, m, t := (if c.iface.Named? then {c.iface.n} else {}), {c.mark - MARK0}, {c.table - TABLE0};
      n + m + t + BlockSet(cs[1..])
  }

  lemma {:induction false} InBlockSet(cs: seq<Node>, c: Node, n: int)
    requires c in cs && Blocks(c, n)
    ensures n in BlockSet(cs)
  {
    if c != cs[0] { InBlockSet(cs[1..], c, n); }
  }

  /** Every candidate passed over was blocked or given away. */
  lemma Passed(next: nat, standing: seq<Node>, given: set<int>)
    requires forall m: nat | m < next :: m in given || Hit(standing, m)
    ensures next <= 3 * |standing| + |given|
  {
    forall m | m in Below(next)
      ensures m in BlockSet(standing) + given
    {
      if m !in given {
        var c :| c in standing && Blocks(c, m);
        InBlockSet(standing, c, m);
      }
    }
    SubsetSize(Below(next), BlockSet(standing) + given);
  }

  /** Rows among the first i whose claim does not stand. */
  function Claimless(keep: seq<bool>, i: nat): nat
    requires i <= |keep|
  {
    if i == 0 then 0 else Claimless(keep, i - 1) + (if keep[i - 1] then 0 else 1)
  }

  lemma {:induction false} ClaimlessGrows(keep: seq<bool>, i: nat, j: nat)
    requires i <= j <= |keep|
    ensures Claimless(keep, i) <= Claimless(keep, j) <= Claimless(keep, i) + j - i
  {
    if i < j { ClaimlessGrows(keep, i, j - 1); }
  }

  /** The first pass: which claims stand. taken carries the names, marks and tables in use. */
  method ClaimPass(ns: seq<Node>) returns (keep: seq<bool>, taken: seq<Node>)
    ensures keep == Flags(ns) && taken == Standing(ns) && |taken| + Claimless(keep, |ns|) == |ns|
  {
    keep, taken := [], [];
    for i := 0 to |ns|
      invariant |keep| == i && forall j: nat | j < i :: keep[j] <==> Kept(ns, j)
      invariant taken == Standing(ns[..i]) && |taken| + Claimless(keep, i) == i
    {
      var x := ns[i];
      StandingStep(ns, i);
      var stands := Valid(x) && Free(taken, x);
      if stands { taken := taken + [x]; }
      SameFlags(keep, keep + [stands], i);
      keep := keep + [stands];
    }
    assert ns[..|ns|] == ns;
  }

  lemma {:induction false} SameFlags(keep: seq<bool>, keep': seq<bool>, i: nat)
    requires i <= |keep| && i <= |keep'| && forall j | 0 <= j < i :: keep[j] == keep'[j]
    ensures Claimless(keep, i) == Claimless(keep', i)
  {
    if i > 0 { SameFlags(keep, keep', i - 1); }
  }

  /** The rows before i are done, those from i on are as they were. */
  ghost predicate DoneTo(ns: seq<Node>, keep: seq<bool>, standing: seq<Node>, out: seq<Node>, i: nat, given: set<int>) {
    && |out| == |ns| == |keep| && i <= |ns|
    && (forall j: nat | j < |ns| && (j >= i || keep[j]) :: out[j] == ns[j])
    && (forall j: nat | j < i && !keep[j] :: Given(ns[j], keep, standing, out, j))
    && (forall n :: n in given <==> Earlier(keep, out, i, n))
  }

  lemma GiveOne(ns: seq<Node>, keep: seq<bool>, standing: seq<Node>, out: seq<Node>, i: nat, given: set<int>, n: nat)
    requires DoneTo(ns, keep, standing, out, i, given) && i < |ns| && !keep[i]
    requires n < CANDIDATES && !Hit(standing, n) && n !in given
    requires forall m: nat | m < n :: Hit(standing, m) || m in given
    ensures DoneTo(ns, keep, standing, out[i := Fill(ns[i], n)], i + 1, given + {n})
  {
    var out' := out[i := Fill(ns[i], n)];
    forall j: nat, m | j <= i
      ensures Earlier(keep, out', j, m) <==> Earlier(keep, out, j, m)
    {
    }
    forall m
      ensures Earlier(keep, out', i + 1, m) <==> Earlier(keep, out, i, m) || m == n
    {
      if m == n { assert out'[i].iface == Named(n); }
    }
    forall j: nat | j < i + 1 && !keep[j]
      ensures Given(ns[j], keep, standing, out', j)
    {
      if j < i { assert Given(ns[j], keep, standing, out, j) && out'[j] == out[j]; }
    }
  }

  lemma KeepOne(ns: seq<Node>, keep: seq<bool>, standing: seq<Node>, out: seq<Node>, i: nat, given: set<int>)
    requires DoneTo(ns, keep, standing, out, i, given) && i < |ns| && keep[i]
    ensures DoneTo(ns, keep, standing, out, i + 1, given)
  {
    forall m
      ensures Earlier(keep, out, i + 1, m) <==> Earlier(keep, out, i, m)
    {
    }
  }

  /** The next candidate whose name, mark and table nobody has. */
  method Alloc(next: nat, taken: seq<Node>) returns (found: bool, n: nat)
    requires next <= CANDIDATES
    ensures found ==> next <= n < CANDIDATES && !Hit(taken, n)
    ensures !found ==> n == CANDIDATES
    ensures forall m | next <= m < n :: Hit(taken, m)
  {
    n := next;
    while n < CANDIDATES
      invariant next <= n <= CANDIDATES
      invariant forall m | next <= m < n :: Hit(taken, m)
    {
      if !Hit(taken, n) && TABLE0 + n <= 252 { return true, n; }
      n := n + 1;
    }
    found := false;
  }

  /** Where the second pass stands: what is taken, and what the scan has passed over. */
  ghost predicate Scan(taken: seq<Node>, standing: seq<Node>, given: set<int>, next: nat) {
    && next <= CANDIDATES
    && (forall c | c in taken :: c in standing || exists m | m in given :: IsSlot(c, m))
    && (forall c | c in standing :: c in taken)
    && (forall m | m in given :: 0 <= m < next)
    && (forall m: nat | m < next :: m in given || Hit(standing, m))
  }

  /** Slots already given lie below the scan, so what it meets are standing claims. */
  lemma ScanMeetsClaims(taken: seq<Node>, standing: seq<Node>, given: set<int>, next: nat, n: nat)
    requires Scan(taken, standing, given, next) && next <= n
    requires forall m | next <= m < n :: Hit(taken, m)
    ensures forall m: nat | m < n :: Hit(standing, m) || m in given
    ensures !Hit(taken, n) ==> !Hit(standing, n) && n !in given
  {
    forall m: nat | m < n
      ensures Hit(standing, m) || m in given
    {
      if m >= next {
        assert Hit(taken, m);
        var c :| c in taken && Blocks(c, m);
        if c !in standing {
          var k :| k in given && IsSlot(c, k);
        }
      }
    }
  }

  lemma ScanTakes(taken: seq<Node>, standing: seq<Node>, given: set<int>, next: nat, n: nat, x: Node)
    requires Scan(taken, standing, given, next) && next <= n < CANDIDATES && IsSlot(x, n)
    requires forall m: nat | m < n :: Hit(standing, m) || m in given
    ensures Scan(taken + [x], standing, given + {n}, n + 1)
  {
    forall c | c in taken + [x]
      ensures c in standing || exists m | m in given + {n} :: IsSlot(c, m)
    {
      if c in taken && c !in standing {
        var m :| m in given && IsSlot(c, m);
        assert m in given + {n};
      }
      if c == x { assert n in given + {n}; }
    }
  }

  /** The second pass before row i. */
  ghost predicate Progress(ns: seq<Node>, keep: seq<bool>, standing: seq<Node>, out: seq<Node>, i: nat,
                           taken: seq<Node>, next: nat, given: set<int>) {
    DoneTo(ns, keep, standing, out, i, given) && Scan(taken, standing, given, next) && |given| == Claimless(keep, i)
  }

  lemma Advance(ns: seq<Node>, keep: seq<bool>, standing: seq<Node>, out: seq<Node>, i: nat,
                taken: seq<Node>, next: nat, given: set<int>, n: nat)
    requires Progress(ns, keep, standing, out, i, taken, next, given) && i < |ns|
    requires !keep[i] ==> next <= n < CANDIDATES && !Hit(standing, n) && n !in given
    requires !keep[i] ==> forall m: nat | m < n :: Hit(standing, m) || m in given
    ensures keep[i] ==> Progress(ns, keep, standing, out, i + 1, taken, next, given)
    ensures !keep[i] ==>
      Progress(ns, keep, standing, out[i := Fill(ns[i], n)], i + 1, taken + [Fill(ns[i], n)], n + 1, given + {n})
  {
    if keep[i] {
      KeepOne(ns, keep, standing, out, i, given);
    } else {
      GiveOne(ns, keep, standing, out, i, given, n);
      ScanTakes(taken, standing, given, next, n, Fill(ns[i], n));
    }
  }

  /** With fewer than 64 names blocked or given there is always a next slot. */
  method NextSlot(taken: seq<Node>, next: nat, ghost standing: seq<Node>, ghost given: set<int>) returns (n: nat)
    requires Scan(taken, standing, given, next) && 3 * |standing| + |given| < CANDIDATES
    ensures next <= n < CANDIDATES && !Hit(standing, n) && n !in given
    ensures forall m: nat | m < n :: Hit(standing, m) || m in given
  {
    var found, k := Alloc(next, taken);
    ScanMeetsClaims(taken, standing, given, next, k);
    if !found { Passed(CANDIDATES, standing, given); }
    assert found;
    n := k;
  }

  /** The second pass: every row without a standing claim gets the next free candidate. */
  method GivePass(ns: seq<Node>, keep: seq<bool>, standing: seq<Node>) returns (out: seq<Node>)
    requires |keep| == |ns| <= MAX_NODES && |standing| + Claimless(keep, |ns|) == |ns|
    ensures Filled(ns, keep, standing, out)
  {
    out := ns;
    ghost var given: set<int> := {};
    var taken := standing;
    var next: nat := 0;
    for i := 0 to |ns|
      invariant Progress(ns, keep, standing, out, i, taken, next, given)
    {
      if keep[i] {
        Advance(ns, keep, standing, out, i, taken, next, given, 0);
        continue;
      }
      ClaimlessGrows(keep, i + 1, |ns|);
      var n := NextSlot(taken, next, standing, given);
      Advance(ns, keep, standing, out, i, taken, next, given, n);
      out := out[i := Fill(ns[i], n)];
      taken, next := taken + [Fill(ns[i], n)], n + 1;
      given := given + {n};
    }
  }

  /** The settings are written back into the rows. */
  method WriteBack(rows: seq<Tunnel>, out: seq<Node>, ghost frame: set<Tunnel>)
    requires DistinctRows(rows) && |out| == |rows|
    requires forall i | 0 <= i < |rows| :: rows[i] in frame && rows[i].id == out[i].id && rows[i].port == out[i].port
    modifies frame
    ensures Views(rows) == out
  {
    for i := 0 to |rows|
      invariant forall j | 0 <= j < i :: rows[j].View() == out[j]
    {
      rows[i].iface, rows[i].mark, rows[i].table := out[i].iface, out[i].mark, out[i].table;
    }
  }

  lemma AssignedKeepsIds(ns: seq<Node>, out: seq<Node>)
    requires Assigned(ns, out)
    ensures forall i: nat | i < |ns| :: out[i].id == ns[i].id && out[i].port == ns[i].port
  {
    forall i: nat | i < |ns|
      ensures out[i].id == ns[i].id && out[i].port == ns[i].port
    {
      if !Kept(ns, i) { assert Given(ns[i], Flags(ns), Standing(ns), out, i); }
    }
  }

  /** assignWGSlots: at most 20 nodes, and for those it never runs out of candidates. */
  method AssignSlots(enabled: seq<Tunnel>) returns (ok: bool)
    requires DistinctRows(enabled)
    modifies set t | t in enabled
    ensures ok <==> |enabled| <= MAX_NODES
    ensures !ok ==> Views(enabled) == old(Views(enabled))
    ensures ok ==> Assigned(old(Views(Sorted(enabled))), Views(Sorted(enabled)))
  {
    if |enabled| > MAX_NODES { return false; }
    var rows := Sorted(enabled);
    OnceEach(enabled, rows);
    var ns := Views(rows);
    var keep, standing := ClaimPass(ns);
    var out := GivePass(ns, keep, standing);
    AssignedKeepsIds(ns, out);
    WriteBack(rows, out, set t | t in enabled);
    ok := true;
  }

  // ---- Policy-rule priorities -----------------------------------------------------------

  /** wgSlotIndex: the mark decides, then the table, then 0. */
  function SlotIndex(mark: int, table: int): int {
    var byMark, byTable := mark - MARK0, table - TABLE0;
    if 0 <= byMark <= 63 then byMark else if 0 <= byTable <= 63 then byTable else 0
  }

  function Priorities(x: Node): set<int> {
    var idx := SlotIndex(x.mark, x.table);
    {5 + idx, 30 + idx, 400 + idx, 500 + idx, 600 + idx, 700 + idx}
  }

  /** "No other slot uses" a tunnel's priorities exactly when the indices differ, and not by 25. */
  lemma PrioritiesDisjointIff(a: Node, b: Node)
    ensures var i, j := SlotIndex(a.mark, a.table), SlotIndex(b.mark, b.table);
      Priorities(a) !! Priorities(b) <==> i != j && i - j != 25 && j - i != 25
  {
    var i, j := SlotIndex(a.mark, a.table), SlotIndex(b.mark, b.table);
    assert 5 + i in Priorities(a) && 30 + i in Priorities(a) && 5 + j in Priorities(b) && 30 + j in Priorities(b);
  }

  /** Whatever the first claim is, a second row that claims nothing takes the least candidate. */
  lemma SecondTakesZero(a: Node, b: Node)
    requires Valid(a) && !Blocks(a, 0) && b.iface == Other
    ensures Assigned([a, b], [a, Fill(b, 0)])
  {
    var ns, out := [a, b], [a, Fill(b, 0)];
    assert ns[..0] == [] && ns[..1] == [a] && ns[..2] == ns;
    StandingStep(ns, 0);
    StandingStep(ns, 1);
    assert Standing(ns) == [a];
    assert Kept(ns, 0) && !Kept(ns, 1);
    assert !Hit([a], 0) && !Earlier(Flags(ns), out, 1, 0);
    assert Given(b, Flags(ns), [a], out, 1);
  }

  /** Claims may be typed by hand, and then the promise fails: this pair keeps both its slots
      and shares every priority. */
  lemma TypedClaimSharesPriorities()
    ensures var a, b := Node(1, 1, Named(1), 7, 5), Node(2, 2, Other, MARK0, TABLE0);
      Assigned([a, b], [a, Fill(b, 0)]) && Priorities(a) == Priorities(Fill(b, 0))
  {
    SecondTakesZero(Node(1, 1, Named(1), 7, 5), Node(2, 2, Other, MARK0, TABLE0));
  }

  /** Every slot is one the allocator writes, below the node limit. */
  predicate Compact(ns: seq<Node>) {
    Settled(ns) && forall i | 0 <= i < |ns| :: IsSlot(ns[i], ns[i].iface.n) && ns[i].iface.n < MAX_NODES
  }

  function NameSet(ns: seq<Node>): (s: set<int>)
    ensures |s| <= |ns|
    ensures forall i | 0 <= i < |ns| && ns[i].iface.Named? :: ns[i].iface.n in s
  {
    if ns == [] then {} else (if ns[0].iface.Named? then {ns[0].iface.n} else {}) + NameSet(ns[1..])
  }

  lemma InNameSet(out: seq<Node>, i: nat, j: nat, m: int)
    requires i < |out| && j < |out| && i != j && out[j].iface == Named(m)
    ensures m in NameSet(out[..i] + out[i + 1..])
  {
    var others := out[..i] + out[i + 1..];
    assert others[if j < i then j else j - 1] == out[j];
  }

  lemma HeldByClaim(ns: seq<Node>, out: seq<Node>, i: nat, c: Node, m: nat)
    requires |out| == |ns| && forall j: nat | j < |ns| && Kept(ns, j) :: out[j] == ns[j]
    requires i < |ns| && !Kept(ns, i)
    requires c in Standing(ns) && c.iface == Named(m)
    ensures m in NameSet(out[..i] + out[i + 1..])
  {
    assert ns[..|ns|] == ns;
    StandingComesFrom(ns, |ns|, c);
    var j: nat :| j < |ns| && Kept(ns, j) && ns[j] == c;
    InNameSet(out, i, j, m);
  }

  /** Below row i's slot every candidate is held by another row. */
  lemma HeldByOther(ns: seq<Node>, out: seq<Node>, i: nat, m: nat)
    requires Assigned(ns, out) && i < |ns| && !Kept(ns, i)
    requires forall c | c in Standing(ns) :: c.iface.Named? && IsSlot(c, c.iface.n)
    requires Hit(Standing(ns), m) || Earlier(Flags(ns), out, i, m)
    ensures m in NameSet(out[..i] + out[i + 1..])
  {
    if Hit(Standing(ns), m) {
      var c :| c in Standing(ns) && Blocks(c, m);
      HeldByClaim(ns, out, i, c, m);
    } else {
      var j: nat :| j < i && !Flags(ns)[j] && out[j].iface == Named(m);
      InNameSet(out, i, j, m);
    }
  }

  lemma SlotBelowCount(ns: seq<Node>, out: seq<Node>, i: nat)
    requires Assigned(ns, out) && i < |ns| && !Kept(ns, i)
    requires forall c | c in Standing(ns) :: c.iface.Named? && IsSlot(c, c.iface.n)
    ensures out[i].iface.Named? && 0 <= out[i].iface.n < |ns|
  {
    assert Given(ns[i], Flags(ns), Standing(ns), out, i);
    var n := out[i].iface.n;
    var others := NameSet(out[..i] + out[i + 1..]);
    forall m | m in Below(n)
      ensures m in others
    {
      HeldByOther(ns, out, i, m);
    }
    SubsetSize(Below(n), others);
  }

  /** Machines whose standing claims all come from the allocator stay compact: whatever nodes
      come and go, at most 20 at a time, all slots stay below 20. */
  lemma CompactStays(ns: seq<Node>, out: seq<Node>)
    requires Assigned(ns, out) && |ns| <= MAX_NODES
    requires forall c | c in Standing(ns) :: c.iface.Named? && IsSlot(c, c.iface.n) && c.iface.n < MAX_NODES
    ensures Compact(out)
  {
    AssignedIsSettled(ns, out);
    assert ns[..|ns|] == ns;
    forall i: nat | i < |ns|
      ensures IsSlot(out[i], out[i].iface.n) && out[i].iface.n < MAX_NODES
    {
      if Kept(ns, i) {
        StandingHas(ns, |ns|, i);
      } else {
        SlotBelowCount(ns, out, i);
        assert Given(ns[i], Flags(ns), Standing(ns), out, i);
      }
    }
  }

  /** On a compact machine no two tunnels share a rule priority. */
  lemma CompactPrioritiesDisjoint(ns: seq<Node>, i: nat, j: nat)
    requires Compact(ns) && i < j < |ns|
    ensures Priorities(ns[i]) !! Priorities(ns[j])
  {
    assert !Clash(ns[i], ns[j]);
    PrioritiesDisjointIff(ns[i], ns[j]);
  }
}
