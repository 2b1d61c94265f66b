/**
 Per-user site filters compiled into one ordered, first-match rule list
 (internal/corecfg/sitedeny.go, xray.go, singbox.go, acct.go).
 */
module SiteFilter {

  import opened Options
  import opened SiteKeys

  type RowId = x: int | 1 <= x witness 1

  datatype Core = XrayCore | SingboxCore | MitaCore | WireGuardCore

  datatype Profile =
    | VLESSReality | VLESSVision | VLESSXHTTP | TrojanTLS | SS2022
    | AnyTLS | Mieru | SOCKS5 | WireGuard | PortForward

  datatype Inbound = Inbound(id: RowId, enabled: bool, core: Core, profile: Profile, chain: bool)

  /** email and username stand for the trimmed strings of the row. */
  datatype Client = Client(id: RowId, userId: RowId, email: string, username: string, enabled: bool)

  datatype Mode = NoMode | Deny | Allow

  datatype SiteDeny = SiteDeny(mode: Mode, categories: seq<string>, domains: seq<string>)

  /** The built-in tables: what a category stands for, and which custom entry is a network. */
  datatype Catalog = Catalog(domains: string -> seq<string>, ips: string -> seq<string>, isCIDR: string -> bool)

  const HEALTH_HOST := "cp.cloudflare.com"

  const ALLOW_DNS: seq<string> := [
    "1.1.1.1/32", "1.0.0.1/32", "8.8.8.8/32", "8.8.4.4/32", "9.9.9.9/32", "149.112.112.112/32",
    "223.5.5.5/32", "223.6.6.6/32", "119.29.29.29/32", "114.114.114.114/32",
    "2606:4700:4700::1111/128", "2606:4700:4700::1001/128",
    "2001:4860:4860::8888/128", "2001:4860:4860::8844/128"]

  type Clients = map<RowId, seq<Client>>
  type Denies = map<RowId, SiteDeny>

  function ClientsOf(clients: Clients, id: RowId): seq<Client> { if id in clients then clients[id] else [] }

  // ---- Who a session belongs to, and where it goes unfiltered ----------------

  predicate IsRelay(name: string) { "relay." <= name }

  function RouteUser(inb: Inbound, c: Client): string {
    if !c.enabled || IsRelay(c.email) then ""
    else if inb.profile == SOCKS5 && c.email == "" then c.username
    else c.email
  }

  predicate AcctProfile(inb: Inbound) {
    inb.enabled && !inb.chain && inb.profile !in {Mieru, WireGuard, PortForward}
  }

  const MARK_BASE: int := 0x4C00_0000

  function AcctMark(c: Client): int {
    var id := if c.id > 0x00FF_FFFF then c.id % 0x0100_0000 else c.id;
    if id < 1 then 0 else MARK_BASE + id
  }

  function ClientAcct(inb: Inbound, c: Client): Option<int> {
    var name := RouteUser(inb, c);
    if !AcctProfile(inb) || !c.enabled || name == "" || IsRelay(name) || AcctMark(c) == 0 then None
    else Some(AcctMark(c))
  }

  datatype Action = Block | Direct | Limit(mark: int) | Chain(id: RowId)

  /** The outbound of a client that no filter touches (userOutboundTag). */
  function Base(inb: Inbound, c: Client): Action {
    if inb.chain then Chain(inb.id)
    else match ClientAcct(inb, c)
      case Some(mark) => Limit(mark)
      case None => Direct
  }

  // ---- What a filter means -----------------------------------------------------

  predicate IsEmpty(d: SiteDeny) { d.categories == [] && d.domains == [] }

  predicate InTable(names: seq<string>, table: string -> seq<string>, x: string) {
    exists c | c in names :: x in table(c)
  }

  /** x is one of the domain suffixes the filter stands for. */
  predicate HasDomain(d: SiteDeny, cat: Catalog, x: string) {
    || (x != "" && (InTable(d.categories, cat.domains, x) || (x in d.domains && !cat.isCIDR(x))))
    || (d.mode == Allow && x == HEALTH_HOST)
  }

  /** x is one of the networks the filter stands for. */
  predicate HasIP(d: SiteDeny, cat: Catalog, x: string) {
    || (x != "" && (InTable(d.categories, cat.ips, x) || (x in d.domains && cat.isCIDR(x))))
    || (d.mode == Allow && x in ALLOW_DNS)
  }

  /** A destination, seen through the patterns it matches. */
  datatype Dest = Dest(domain: string -> bool, ip: string -> bool)

  ghost predicate InList(d: SiteDeny, cat: Catalog, dest: Dest) {
    (exists p :: HasDomain(d, cat, p) && dest.domain(p)) || (exists p :: HasIP(d, cat, p) && dest.ip(p))
  }

  ghost function Policy(inb: Inbound, c: Client, denies: Denies, cat: Catalog, dest: Dest): Action {
    if c.userId !in denies || IsEmpty(denies[c.userId]) then Base(inb, c)
    else
      var d := denies[c.userId];
      var listed := InList(d, cat, dest);
      if d.mode == Allow then (if listed then Base(inb, c) else Block)
      else (if listed then Block else Base(inb, c))
  }

  // ---- First-match rules ---------------------------------------------------------

  datatype Tag = In(id: RowId) | Socks(id: RowId)

  datatype Want = AnyDest | DomainIn(domains: seq<string>) | IPIn(ips: seq<string>)

  datatype Rule =
    | Sniff
    | Rule(tags: seq<Tag>, users: Option<seq<string>>, want: Want, act: Action)

  datatype Session = Session(tag: Tag, user: string, dest: Dest)

  predicate Hits(r: Rule, q: Session) {
    && r.Rule?
    && q.tag in r.tags
    && (r.users.Some? ==> q.user in r.users.value)
    && match r.want
       case AnyDest => true
       case DomainIn(ds) => exists p | p in ds :: q.dest.domain(p)
       case IPIn(ips) => exists p | p in ips :: q.dest.ip(p)
  }

  /** Sniffing is an action, not a decision: evaluation goes on after it. */
  function First(rules: seq<Rule>, q: Session): Option<Action> {
    if rules == [] then None
    else if Hits(rules[0], q) then Some(rules[0].act)
    else First(rules[1..], q)
  }

  function Route(rules: seq<Rule>, q: Session): Action {
    match First(rules, q)
    case Some(a) => a
    case None => Direct
  }

  lemma {:induction false} FirstOfConcat(a: seq<Rule>, b: seq<Rule>, q: Session)
    ensures First(a + b, q) == if First(a, q).Some? then First(a, q) else First(b, q)
  {
    if a == [] {
      assert a + b == b;
    } else {
      assert (a + b)[1..] == a[1..] + b;
      FirstOfConcat(a[1..], b, q);
    }
  }

  /** When every rule that hits says the same, only the existence of a hit matters. */
  lemma {:induction false} FirstUniform(rules: seq<Rule>, q: Session, act: Action)
    requires forall r | r in rules && Hits(r, q) :: r.act == act
    ensures First(rules, q) == if exists r | r in rules :: Hits(r, q) then Some(act) else None
  {
    if rules != [] {
      assert rules == [rules[0]] + rules[1..];
      FirstUniform(rules[1..], q, act);
    }
  }

  // ---- Groups ----------------------------------------------------------------------

  datatype Group = Group(tags: seq<Tag>, users: seq<string>, domains: seq<string>, ips: seq<string>, out: Action)

  predicate GroupHit(g: Group, q: Session) {
    q.tag in g.tags && q.user in g.users &&
    ((exists p | p in g.domains :: q.dest.domain(p)) || (exists p | p in g.ips :: q.dest.ip(p)))
  }

  function RulesOf(g: Group): seq<Rule> {
    if g.users == [] || g.tags == [] then []
    else
      (if g.domains != [] then [Rule(g.tags, Some(g.users), DomainIn(g.domains), g.out)] else []) +
      (if g.ips != [] then [Rule(g.tags, Some(g.users), IPIn(g.ips), g.out)] else [])
  }

  function GroupRules(groups: seq<Group>): seq<Rule>
    decreases |groups|
  {
    if groups == [] then [] else GroupRules(groups[..|groups| - 1]) + RulesOf(groups[|groups| - 1])
  }

  lemma RulesOfHit(g: Group, q: Session)
    ensures (exists r | r in RulesOf(g) :: Hits(r, q)) <==> GroupHit(g, q)
    ensures forall r | r in RulesOf(g) :: r.Rule? && r.act == g.out
  {
    var byDomain := Rule(g.tags, Some(g.users), DomainIn(g.domains), g.out);
    var byIP := Rule(g.tags, Some(g.users), IPIn(g.ips), g.out);
    if GroupHit(g, q) {
      if p :| p in g.domains && q.dest.domain(p) {
        assert byDomain in RulesOf(g) && Hits(byDomain, q);
      } else {
        var p :| p in g.ips && q.dest.ip(p);
        assert byIP in RulesOf(g) && Hits(byIP, q);
      }
    }
  }

  lemma {:induction false} InGroupRules(groups: seq<Group>)
    ensures forall r :: r in GroupRules(groups) <==> exists g | g in groups :: r in RulesOf(g)
    decreases |groups|
  {
    if groups != [] {
      InGroupRules(groups[..|groups| - 1]);
      assert groups == groups[..|groups| - 1] + [groups[|groups| - 1]];
    }
  }

  lemma GroupRulesHit(groups: seq<Group>, q: Session)
    ensures (exists r | r in GroupRules(groups) :: Hits(r, q)) <==> (exists g | g in groups :: GroupHit(g, q))
    ensures forall r | r in GroupRules(groups) && Hits(r, q) :: exists g | g in groups ::
      GroupHit(g, q) && r.act == g.out
  {
    InGroupRules(groups);
    forall r | r in GroupRules(groups) && Hits(r, q)
      ensures exists g | g in groups :: GroupHit(g, q) && r.act == g.out
    {
      var g :| g in groups && r in RulesOf(g);
      RulesOfHit(g, q);
    }
    if g :| g in groups && GroupHit(g, q) {
      RulesOfHit(g, q);
      var r :| r in RulesOf(g) && Hits(r, q);
      assert r in GroupRules(groups);
    }
  }

  // ---- The resolver and the collectors -------------------------------------------

  method AddAll(out: seq<string>, list: seq<string>) returns (r: seq<string>)
    ensures forall x :: x in r <==> x in out || (x in list && x != "")
  {
    r := out;
    for i := 0 to |list|
      invariant forall x :: x in r <==> x in out || (x in list[..i] && x != "")
    {
      assert list[..i + 1] == list[..i] + [list[i]];
      if list[i] != "" && list[i] !in r { r := r + [list[i]]; }
    }
    assert list[..|list|] == list;
  }

  method AddTable(names: seq<string>, table: string -> seq<string>) returns (r: seq<string>)
    ensures forall x :: x in r <==> x != "" && InTable(names, table, x)
  {
    r := [];
    for i := 0 to |names|
      invariant forall x :: x in r <==> x != "" && InTable(names[..i], table, x)
    {
      assert names[..i + 1] == names[..i] + [names[i]];
      assert forall x :: InTable(names[..i + 1], table, x) <==> InTable(names[..i], table, x) || x in table(names[i]);
      r := AddAll(r, table(names[i]));
    }
    assert names[..|names|] == names;
  }

  method SplitCustom(items: seq<string>, isCIDR: string -> bool) returns (domains: seq<string>, ips: seq<string>)
    ensures forall x :: x in domains <==> x in items && !isCIDR(x)
    ensures forall x :: x in ips <==> x in items && isCIDR(x)
  {
    domains, ips := [], [];
    for i := 0 to |items|
      invariant forall x :: x in domains <==> x in items[..i] && !isCIDR(x)
      invariant forall x :: x in ips <==> x in items[..i] && isCIDR(x)
    {
      assert items[..i + 1] == items[..i] + [items[i]];
      if isCIDR(items[i]) { ips := ips + [items[i]]; } else { domains := domains + [items[i]]; }
    }
    assert items[..|items|] == items;
  }

  method ResolveSiteDeny(d: SiteDeny, cat: Catalog) returns (domains: seq<string>, ips: seq<string>)
    ensures forall x :: x in domains <==> HasDomain(d, cat, x)
    ensures forall x :: x in ips <==> HasIP(d, cat, x)
  {
    domains := AddTable(d.categories, cat.domains);
    ips := AddTable(d.categories, cat.ips);
    var customD, customI := SplitCustom(d.domains, cat.isCIDR);
    domains := AddAll(domains, customD);
    ips := AddAll(ips, customI);
    if d.mode == Allow {
      domains := AddAll(domains, [HEALTH_HOST]);
      ips := AddAll(ips, ALLOW_DNS);
    }
  }

  /** One client row on one inbound of the machine. */
  datatype Sub = Sub(inb: Inbound, c: Client) {
    function User(): string { RouteUser(inb, c) }

    function Tag(): Tag { In(inb.id) }
  }

  predicate Filterable(inb: Inbound, core: Core) {
    inb.enabled && inb.core == core && inb.profile != PortForward && inb.profile != Mieru
  }

  predicate Filtered(s: Sub, core: Core, denies: Denies) {
    Filterable(s.inb, core) && s.User() != "" && s.c.userId in denies && !IsEmpty(denies[s.c.userId])
  }

  /** The users one collector gathers: allow-only users, or the others. */
  predicate Chosen(s: Sub, core: Core, denies: Denies, allow: bool) {
    Filtered(s, core, denies) && (denies[s.c.userId].mode == Allow <==> allow)
  }

  function OutFor(s: Sub, allow: bool): Action { if allow then Base(s.inb, s.c) else Block }

  function SubsOf(inb: Inbound, cs: seq<Client>): seq<Sub> { seq(|cs|, i requires 0 <= i < |cs| => Sub(inb, cs[i])) }

  /** Every client row of every filterable inbound, in the order the loops visit them. */
  function Subs(ins: seq<Inbound>, clients: Clients, core: Core): seq<Sub>
    decreases |ins|
  {
    if ins == [] then []
    else
      var inb := ins[|ins| - 1];
      Subs(ins[..|ins| - 1], clients, core) +
        (if Filterable(inb, core) then SubsOf(inb, ClientsOf(clients, inb.id)) else [])
  }

  /** What every filter loaded from a user row satisfies: normalised names. */
  predicate Normalised(denies: Denies) {
    forall u | u in denies :: Plain(denies[u].categories) && Plain(denies[u].domains)
  }

  function KeyOf(d: SiteDeny): string { Key(d.categories, d.domains) }

  /** The patterns of the group are the patterns of this user's filter. */
  ghost predicate SamePatterns(g: Group, d: SiteDeny, cat: Catalog) {
    (forall x :: x in g.domains <==> HasDomain(d, cat, x)) && (forall x :: x in g.ips <==> HasIP(d, cat, x))
  }

  lemma SameNames(a: seq<string>, b: seq<string>, table: string -> seq<string>)
    requires multiset(a) == multiset(b)
    ensures forall x :: x in a <==> x in b
    ensures forall x :: InTable(a, table, x) <==> InTable(b, table, x)
  {
    forall x
      ensures x in a <==> x in b
    {
      assert x in multiset(a) <==> x in multiset(b);
    }
  }

  lemma SameKeySamePatterns(g: Group, a: SiteDeny, b: SiteDeny, cat: Catalog)
    requires Plain(a.categories) && Plain(a.domains) && Plain(b.categories) && Plain(b.domains)
    requires KeyOf(a) == KeyOf(b) && (a.mode == Allow <==> b.mode == Allow)
    requires SamePatterns(g, a, cat)
    ensures SamePatterns(g, b, cat)
  {
    KeyInjective(a.categories, a.domains, b.categories, b.domains);
    SameNames(a.categories, b.categories, cat.domains);
    SameNames(a.categories, b.categories, cat.ips);
    SameNames(a.domains, b.domains, cat.ips);
    forall x
      ensures HasDomain(a, cat, x) <==> HasDomain(b, cat, x)
      ensures HasIP(a, cat, x) <==> HasIP(b, cat, x)
    {
    }
  }

  type GroupKey = (string, Action)

  /** One accumulator per key, with the outbound it was keyed by. */
  type Accs = map<GroupKey, Group>

  function KeyFor(s: Sub, denies: Denies, allow: bool): GroupKey
    requires s.c.userId in denies
  {
    (KeyOf(denies[s.c.userId]), OutFor(s, allow))
  }

  /** s is a user this group was collected for. */
  ghost predicate Fits(s: Sub, g: Group, core: Core, denies: Denies, cat: Catalog, allow: bool) {
    Chosen(s, core, denies, allow) && SamePatterns(g, denies[s.c.userId], cat) && g.out == OutFor(s, allow)
  }

  ghost predicate Contains(s: Sub, g: Group) { s.Tag() in g.tags && s.User() in g.users }

  ghost predicate HasPatterns(d: SiteDeny, cat: Catalog) {
    (exists x :: HasDomain(d, cat, x)) || (exists x :: HasIP(d, cat, x))
  }

  /** Nobody is named by a group that was not collected for them. */
  ghost predicate Sound(g: Group, subs: seq<Sub>, core: Core, denies: Denies, cat: Catalog, allow: bool) {
    forall u | u in g.users :: exists s | s in subs :: s.User() == u && Fits(s, g, core, denies, cat, allow)
  }

  /** Everybody who has to be named is named by a group with exactly their patterns. */
  ghost predicate Complete(groups: seq<Group>, subs: seq<Sub>, core: Core, denies: Denies, cat: Catalog, allow: bool) {
    forall s | s in subs && Chosen(s, core, denies, allow) && HasPatterns(denies[s.c.userId], cat) ::
      exists g | g in groups :: Contains(s, g) && Fits(s, g, core, denies, cat, allow)
  }

  ghost predicate Backed(k: GroupKey, g: Group, done: seq<Sub>, core: Core, denies: Denies, cat: Catalog, allow: bool) {
    g.users != [] &&
    forall u | u in g.users :: exists s | s in done ::
      s.User() == u && Fits(s, g, core, denies, cat, allow) && KeyFor(s, denies, allow) == k
  }

  ghost predicate Filed(s: Sub, accs: Accs, core: Core, denies: Denies, cat: Catalog, allow: bool) {
    Chosen(s, core, denies, allow) && HasPatterns(denies[s.c.userId], cat) ==>
      var k := KeyFor(s, denies, allow);
      k in accs && Contains(s, accs[k]) && Fits(s, accs[k], core, denies, cat, allow)
  }

  ghost predicate Collected(accs: Accs, order: seq<GroupKey>, done: seq<Sub>, core: Core, denies: Denies,
                            cat: Catalog, allow: bool) {
    && (forall k :: k in order <==> k in accs)
    && (forall k | k in accs :: Backed(k, accs[k], done, core, denies, cat, allow))
    && (forall s | s in done :: Filed(s, accs, core, denies, cat, allow))
  }

  /** One client of the inner loop: its group is found or made, and takes its tag and user. */
  method AddUser(accs: Accs, order: seq<GroupKey>, ghost done: seq<Sub>, s: Sub,
                 core: Core, denies: Denies, cat: Catalog, allow: bool)
    returns (accs': Accs, order': seq<GroupKey>)
    requires Normalised(denies) && Collected(accs, order, done, core, denies, cat, allow)
    ensures Collected(accs', order', done + [s], core, denies, cat, allow)
  {
    accs', order' := accs, order;
    if !Chosen(s, core, denies, allow) {
      Unmoved(accs, order, done, s, core, denies, cat, allow);
      return;
    }
    var d := denies[s.c.userId];
    var k := KeyFor(s, denies, allow);
    if k !in accs {
      var domains, ips := ResolveSiteDeny(d, cat);
      if domains == [] && ips == [] {
        assert !HasPatterns(d, cat);
        Unmoved(accs, order, done, s, core, denies, cat, allow);
        return;
      }
      accs' := accs'[k := Group([s.Tag()], [s.User()], domains, ips, k.1)];
      order' := order + [k];
      assert Fits(s, accs'[k], core, denies, cat, allow);
    } else {
      var g := accs[k];
      BackedFits(k, g, done, s, core, denies, cat, allow);
      if s.Tag() !in g.tags { g := g.(tags := g.tags + [s.Tag()]); }
      if s.User() !in g.users { g := g.(users := g.users + [s.User()]); }
      accs' := accs'[k := g];
      assert Fits(s, g, core, denies, cat, allow);
    }
    Moved(accs, accs', order, order', done, s, core, denies, cat, allow);
  }

  lemma Unmoved(accs: Accs, order: seq<GroupKey>, done: seq<Sub>, s: Sub, core: Core, denies: Denies, cat: Catalog,
                allow: bool)
    requires Collected(accs, order, done, core, denies, cat, allow)
    requires Filed(s, accs, core, denies, cat, allow)
    ensures Collected(accs, order, done + [s], core, denies, cat, allow)
  {
    forall k | k in accs
      ensures Backed(k, accs[k], done + [s], core, denies, cat, allow)
    {
      Wider(k, accs[k], done, s, core, denies, cat, allow);
    }
  }

  lemma Wider(k: GroupKey, g: Group, done: seq<Sub>, s: Sub, core: Core, denies: Denies, cat: Catalog, allow: bool)
    requires Backed(k, g, done, core, denies, cat, allow)
    ensures Backed(k, g, done + [s], core, denies, cat, allow)
  {
    forall u | u in g.users
      ensures exists t | t in done + [s] ::
        t.User() == u && Fits(t, g, core, denies, cat, allow) && KeyFor(t, denies, allow) == k
    {
      var t :| t in done && t.User() == u && Fits(t, g, core, denies, cat, allow) && KeyFor(t, denies, allow) == k;
      assert t in done + [s];
    }
  }

  /** A user with the group's key has the group's patterns, whoever it was made for. */
  lemma BackedFits(k: GroupKey, g: Group, done: seq<Sub>, s: Sub, core: Core, denies: Denies, cat: Catalog, allow: bool)
    requires Normalised(denies) && Backed(k, g, done, core, denies, cat, allow)
    requires Chosen(s, core, denies, allow) && KeyFor(s, denies, allow) == k
    ensures Fits(s, g, core, denies, cat, allow)
  {
    var u := g.users[0];
    assert u in g.users;
    var t :| t in done && t.User() == u && Fits(t, g, core, denies, cat, allow) && KeyFor(t, denies, allow) == k;
    SameKeySamePatterns(g, denies[t.c.userId], denies[s.c.userId], cat);
  }

  /** What one client changes: its group is new, or has grown by its tag and user. */
  ghost predicate Grown(accs: Accs, accs': Accs, order: seq<GroupKey>, order': seq<GroupKey>, k: GroupKey, s: Sub) {
    && accs'.Keys == accs.Keys + {k} && (forall j | j in accs && j != k :: accs'[j] == accs[j])
    && (if k in accs
        then
          && order' == order && accs'[k].out == accs[k].out
          && accs'[k].domains == accs[k].domains && accs'[k].ips == accs[k].ips
          && (forall t | t in accs[k].tags :: t in accs'[k].tags)
          && (forall u | u in accs[k].users :: u in accs'[k].users)
          && (forall u | u in accs'[k].users :: u in accs[k].users || u == s.User())
        else order' == order + [k] && accs'[k].users == [s.User()])
  }

  lemma MovedBacked(accs: Accs, accs': Accs, order: seq<GroupKey>, order': seq<GroupKey>, done: seq<Sub>, s: Sub,
                    core: Core, denies: Denies, cat: Catalog, allow: bool, j: GroupKey)
    requires Collected(accs, order, done, core, denies, cat, allow) && Chosen(s, core, denies, allow)
    requires var k := KeyFor(s, denies, allow);
      Grown(accs, accs', order, order', k, s) && Contains(s, accs'[k]) && Fits(s, accs'[k], core, denies, cat, allow)
    requires j in accs'
    ensures Backed(j, accs'[j], done + [s], core, denies, cat, allow)
  {
    var k := KeyFor(s, denies, allow);
    if j in accs {
      Wider(j, accs[j], done, s, core, denies, cat, allow);
      if j == k {
        assert s in done + [s] && s.User() in accs'[k].users;
        BackedMore(k, accs[k], accs'[k], done + [s], s, core, denies, cat, allow);
      }
    } else {
      BackedAnew(k, accs'[k], done, s, core, denies, cat, allow);
    }
  }

  lemma MovedFiled(accs: Accs, accs': Accs, order: seq<GroupKey>, order': seq<GroupKey>, done: seq<Sub>, s: Sub,
                   core: Core, denies: Denies, cat: Catalog, allow: bool, t: Sub)
    requires Collected(accs, order, done, core, denies, cat, allow) && Chosen(s, core, denies, allow)
    requires var k := KeyFor(s, denies, allow);
      Grown(accs, accs', order, order', k, s) && Contains(s, accs'[k]) && Fits(s, accs'[k], core, denies, cat, allow)
    requires t in done || t == s
    ensures Filed(t, accs', core, denies, cat, allow)
  {
    if t in done { assert Filed(t, accs, core, denies, cat, allow); }
  }

  lemma Moved(accs: Accs, accs': Accs, order: seq<GroupKey>, order': seq<GroupKey>, done: seq<Sub>, s: Sub,
              core: Core, denies: Denies, cat: Catalog, allow: bool)
    requires Collected(accs, order, done, core, denies, cat, allow) && Chosen(s, core, denies, allow)
    requires var k := KeyFor(s, denies, allow);
      Grown(accs, accs', order, order', k, s) && Contains(s, accs'[k]) && Fits(s, accs'[k], core, denies, cat, allow)
    ensures Collected(accs', order', done + [s], core, denies, cat, allow)
  {
    forall j | j in accs'
      ensures Backed(j, accs'[j], done + [s], core, denies, cat, allow)
    {
      MovedBacked(accs, accs', order, order', done, s, core, denies, cat, allow, j);
    }
    forall t | t in done + [s]
      ensures Filed(t, accs', core, denies, cat, allow)
    {
      MovedFiled(accs, accs', order, order', done, s, core, denies, cat, allow, t);
    }
  }

  lemma BackedAnew(k: GroupKey, g: Group, done: seq<Sub>, s: Sub, core: Core, denies: Denies, cat: Catalog, allow: bool)
    requires Fits(s, g, core, denies, cat, allow) && KeyFor(s, denies, allow) == k && g.users == [s.User()]
    ensures Backed(k, g, done + [s], core, denies, cat, allow)
  {
    assert s in done + [s];
  }

  lemma BackedMore(k: GroupKey, g: Group, g': Group, done: seq<Sub>, s: Sub, core: Core, denies: Denies, cat: Catalog,
                   allow: bool)
    requires Backed(k, g, done, core, denies, cat, allow)
    requires s in done && Fits(s, g', core, denies, cat, allow) && KeyFor(s, denies, allow) == k
    requires g'.out == g.out && g'.domains == g.domains && g'.ips == g.ips && g'.users != []
    requires forall u | u in g'.users :: u in g.users || u == s.User()
    ensures Backed(k, g', done, core, denies, cat, allow)
  {
    forall u | u in g'.users
      ensures exists t | t in done ::
        t.User() == u && Fits(t, g', core, denies, cat, allow) && KeyFor(t, denies, allow) == k
    {
      if u in g.users {
        var t :| t in done && t.User() == u && Fits(t, g, core, denies, cat, allow) && KeyFor(t, denies, allow) == k;
        assert Fits(t, g', core, denies, cat, allow);
      }
    }
  }

  method InOrder(accs: Accs, order: seq<GroupKey>, ghost subs: seq<Sub>, ghost core: Core, ghost denies: Denies,
                 ghost cat: Catalog, ghost allow: bool)
    returns (groups: seq<Group>)
    requires Collected(accs, order, subs, core, denies, cat, allow)
    ensures forall g | g in groups :: Sound(g, subs, core, denies, cat, allow)
    ensures Complete(groups, subs, core, denies, cat, allow)
  {
    groups := [];
    for i := 0 to |order|
      invariant |groups| == i
      invariant forall j | 0 <= j < i :: groups[j] == accs[order[j]]
    {
      assert order[i] in accs;
      groups := groups + [accs[order[i]]];
    }
    forall g | g in groups
      ensures Sound(g, subs, core, denies, cat, allow)
    {
      var j :| 0 <= j < |groups| && groups[j] == g;
      assert order[j] in accs;
      assert Backed(order[j], g, subs, core, denies, cat, allow);
    }
    forall s | s in subs && Chosen(s, core, denies, allow) && HasPatterns(denies[s.c.userId], cat)
      ensures exists g | g in groups :: Contains(s, g) && Fits(s, g, core, denies, cat, allow)
    {
      assert Filed(s, accs, core, denies, cat, allow);
      var k := KeyFor(s, denies, allow);
      var j :| 0 <= j < |order| && order[j] == k;
      assert groups[j] in groups;
    }
  }

  lemma SubsSnoc(ins: seq<Inbound>, i: nat, clients: Clients, core: Core)
    requires i < |ins|
    ensures Subs(ins[..i + 1], clients, core) ==
            Subs(ins[..i], clients, core) +
              (if Filterable(ins[i], core) then SubsOf(ins[i], ClientsOf(clients, ins[i].id)) else [])
  {
    assert ins[..i + 1][..i] == ins[..i];
  }

  lemma SubsOfSnoc(inb: Inbound, cs: seq<Client>, k: nat, before: seq<Sub>)
    requires k < |cs|
    ensures before + SubsOf(inb, cs[..k]) + [Sub(inb, cs[k])] == before + SubsOf(inb, cs[..k + 1])
  {
    assert SubsOf(inb, cs[..k + 1]) == SubsOf(inb, cs[..k]) + [Sub(inb, cs[k])];
  }

  method CollectSiteDenyGroups(ins: seq<Inbound>, clients: Clients, denies: Denies, cat: Catalog, core: Core)
    returns (groups: seq<Group>)
    requires Normalised(denies)
    ensures forall g | g in groups :: Sound(g, Subs(ins, clients, core), core, denies, cat, false)
    ensures Complete(groups, Subs(ins, clients, core), core, denies, cat, false)
  {
    var byKey: Accs, order: seq<GroupKey> := map[], [];
    ghost var done: seq<Sub> := [];
    for i := 0 to |ins|
      invariant done == Subs(ins[..i], clients, core)
      invariant Collected(byKey, order, done, core, denies, cat, false)
    {
      SubsSnoc(ins, i, clients, core);
      if !Filterable(ins[i], core) { continue; }
      var cs := ClientsOf(clients, ins[i].id);
      ghost var before := done;
      for k := 0 to |cs|
        invariant done == before + SubsOf(ins[i], cs[..k])
        invariant Collected(byKey, order, done, core, denies, cat, false)
      {
        byKey, order := AddUser(byKey, order, done, Sub(ins[i], cs[k]), core, denies, cat, false);
        SubsOfSnoc(ins[i], cs, k, before);
        done := done + [Sub(ins[i], cs[k])];
      }
      assert cs[..|cs|] == cs;
    }
    assert ins[..|ins|] == ins;
    groups := InOrder(byKey, order, done, core, denies, cat, false);
  }

  /** The users of one catch-all block: every allow-only user, and nobody else. */
  ghost predicate Catches(g: Group, subs: seq<Sub>, core: Core, denies: Denies) {
    && (forall u | u in g.users :: exists s | s in subs :: s.User() == u && Chosen(s, core, denies, true))
    && (forall s | s in subs && Chosen(s, core, denies, true) :: Contains(s, g))
  }

  lemma AllowHasPatterns(d: SiteDeny, cat: Catalog)
    requires d.mode == Allow
    ensures HasPatterns(d, cat)
  {
    assert HasDomain(d, cat, HEALTH_HOST);
  }

  method CollectSiteAllowGroups(ins: seq<Inbound>, clients: Clients, denies: Denies, cat: Catalog, core: Core)
    returns (pass: seq<Group>, block: Group)
    requires Normalised(denies)
    ensures forall g | g in pass :: Sound(g, Subs(ins, clients, core), core, denies, cat, true)
    ensures Complete(pass, Subs(ins, clients, core), core, denies, cat, true)
    ensures Catches(block, Subs(ins, clients, core), core, denies)
  {
    var byKey: Accs, order: seq<GroupKey> := map[], [];
    block := Group([], [], [], [], Block);
    ghost var done: seq<Sub> := [];
    for i := 0 to |ins|
      invariant done == Subs(ins[..i], clients, core)
      invariant Collected(byKey, order, done, core, denies, cat, true) && Catches(block, done, core, denies)
    {
      SubsSnoc(ins, i, clients, core);
      if !Filterable(ins[i], core) { continue; }
      var cs := ClientsOf(clients, ins[i].id);
      ghost var before := done;
      for k := 0 to |cs|
        invariant done == before + SubsOf(ins[i], cs[..k])
        invariant Collected(byKey, order, done, core, denies, cat, true) && Catches(block, done, core, denies)
      {
        var s := Sub(ins[i], cs[k]);
        byKey, order := AddUser(byKey, order, done, s, core, denies, cat, true);
        assert s in done + [s];
        block := AddToBlock(block, done, s, byKey, core, denies, cat);
        SubsOfSnoc(ins[i], cs, k, before);
        done := done + [s];
      }
      assert cs[..|cs|] == cs;
    }
    assert ins[..|ins|] == ins;
    pass := InOrder(byKey, order, done, core, denies, cat, true);
  }

  /** The catch-all block takes the user once its own group has taken it. */
  method AddToBlock(block: Group, ghost done: seq<Sub>, s: Sub, byKey: Accs, core: Core, denies: Denies,
                    ghost cat: Catalog)
    returns (g: Group)
    requires Catches(block, done, core, denies) && Filed(s, byKey, core, denies, cat, true)
    ensures Catches(g, done + [s], core, denies)
  {
    g := block;
    if !Chosen(s, core, denies, true) {
      CatchesMore(block, g, done, s, core, denies);
      return;
    }
    AllowHasPatterns(denies[s.c.userId], cat);
    if KeyFor(s, denies, true) in byKey {
      if s.Tag() !in g.tags { g := g.(tags := g.tags + [s.Tag()]); }
      if s.User() !in g.users { g := g.(users := g.users + [s.User()]); }
    }
    CatchesMore(block, g, done, s, core, denies);
  }

  lemma CatchesMore(block: Group, g: Group, done: seq<Sub>, s: Sub, core: Core, denies: Denies)
    requires Catches(block, done, core, denies)
    requires forall t | t in block.tags :: t in g.tags
    requires forall u :: u in g.users <==> u in block.users || (u == s.User() && Chosen(s, core, denies, true))
    requires Chosen(s, core, denies, true) ==> Contains(s, g)
    ensures Catches(g, done + [s], core, denies)
  {
    assert s in done + [s];
    forall u | u in g.users
      ensures exists t | t in done + [s] :: t.User() == u && Chosen(t, core, denies, true)
    {
      if u in block.users {
        var t :| t in done && t.User() == u && Chosen(t, core, denies, true);
        assert t in done + [s];
      }
    }
  }

  // ---- What the filter rules decide -------------------------------------------------

  /** A route user names one client of one inbound. */
  ghost predicate UniqueUsers(subs: seq<Sub>) {
    forall s, t | s in subs && t in subs && s.User() == t.User() && s.User() != "" :: s == t
  }

  function At(s: Sub, dest: Dest): Session { Session(s.Tag(), s.User(), dest) }

  lemma HittingGroupFits(g: Group, subs: seq<Sub>, s: Sub, dest: Dest, core: Core, denies: Denies, cat: Catalog,
                         allow: bool)
    requires Sound(g, subs, core, denies, cat, allow) && GroupHit(g, At(s, dest))
    requires UniqueUsers(subs) && s in subs && s.User() != ""
    ensures Fits(s, g, core, denies, cat, allow) && InList(denies[s.c.userId], cat, dest)
  {
    var t :| t in subs && t.User() == s.User() && Fits(t, g, core, denies, cat, allow);
    assert t == s;
  }

  lemma OwnGroupHits(groups: seq<Group>, subs: seq<Sub>, s: Sub, dest: Dest, core: Core, denies: Denies, cat: Catalog,
                     allow: bool)
    requires Complete(groups, subs, core, denies, cat, allow) && s in subs
    requires Chosen(s, core, denies, allow) && InList(denies[s.c.userId], cat, dest)
    ensures exists g | g in groups :: GroupHit(g, At(s, dest))
  {
    assert HasPatterns(denies[s.c.userId], cat);
    var g :| g in groups && Contains(s, g) && Fits(s, g, core, denies, cat, allow);
    assert GroupHit(g, At(s, dest));
  }

  lemma GroupsDecide(groups: seq<Group>, subs: seq<Sub>, s: Sub, dest: Dest, core: Core, denies: Denies, cat: Catalog,
                     allow: bool)
    requires forall g | g in groups :: Sound(g, subs, core, denies, cat, allow)
    requires Complete(groups, subs, core, denies, cat, allow)
    requires UniqueUsers(subs) && s in subs && s.User() != ""
    ensures First(GroupRules(groups), At(s, dest)) ==
            if Chosen(s, core, denies, allow) &&
              InList(denies[s.c.userId], cat, dest) then Some(OutFor(s, allow)) else None
  {
    var q := At(s, dest);
    GroupRulesHit(groups, q);
    forall g | g in groups && GroupHit(g, q)
      ensures Fits(s, g, core, denies, cat, allow) && InList(denies[s.c.userId], cat, dest)
    {
      HittingGroupFits(g, subs, s, dest, core, denies, cat, allow);
    }
    if Chosen(s, core, denies, allow) && InList(denies[s.c.userId], cat, dest) {
      OwnGroupHits(groups, subs, s, dest, core, denies, cat, allow);
    }
    FirstUniform(GroupRules(groups), q, OutFor(s, allow));
  }

  function BlockRules(g: Group): seq<Rule> {
    if g.users == [] || g.tags == [] then [] else [Rule(g.tags, Some(g.users), AnyDest, Block)]
  }

  lemma BlockDecides(block: Group, subs: seq<Sub>, s: Sub, dest: Dest, core: Core, denies: Denies)
    requires Catches(block, subs, core, denies) && UniqueUsers(subs) && s in subs && s.User() != ""
    ensures First(BlockRules(block), At(s, dest)) == if Chosen(s, core, denies, true) then Some(Block) else None
  {
    if s.User() in block.users {
      var t :| t in subs && t.User() == s.User() && Chosen(t, core, denies, true);
      assert t == s;
    }
    if Chosen(s, core, denies, true) { assert Contains(s, block); }
  }

  function Listing(deny: seq<Group>, pass: seq<Group>, block: Group, tail: seq<Rule>): seq<Rule> {
    GroupRules(deny) + GroupRules(pass) + BlockRules(block) + tail
  }

  lemma FirstOfListing(deny: seq<Group>, pass: seq<Group>, block: Group, tail: seq<Rule>, q: Session)
    ensures First(Listing(deny, pass, block, tail), q) ==
            if First(GroupRules(deny), q).Some? then First(GroupRules(deny), q)
            else if First(GroupRules(pass), q).Some? then First(GroupRules(pass), q)
            else if First(BlockRules(block), q).Some? then First(BlockRules(block), q)
            else First(tail, q)
  {
    FirstOfConcat(GroupRules(deny), GroupRules(pass), q);
    FirstOfConcat(GroupRules(deny) + GroupRules(pass), BlockRules(block), q);
    FirstOfConcat(GroupRules(deny) + GroupRules(pass) + BlockRules(block), tail, q);
  }

  /** The three filter blocks in front of any rule list that sends the client to its base
      outbound carry out exactly the client's policy. */
  lemma FiltersDecide(deny: seq<Group>, pass: seq<Group>, block: Group, tail: seq<Rule>,
                      subs: seq<Sub>, s: Sub, dest: Dest, core: Core, denies: Denies, cat: Catalog)
    requires forall g | g in deny :: Sound(g, subs, core, denies, cat, false)
    requires Complete(deny, subs, core, denies, cat, false)
    requires forall g | g in pass :: Sound(g, subs, core, denies, cat, true)
    requires Complete(pass, subs, core, denies, cat, true)
    requires Catches(block, subs, core, denies)
    requires UniqueUsers(subs) && s in subs && s.User() != "" && Filterable(s.inb, core)
    requires Route(tail, At(s, dest)) == Base(s.inb, s.c)
    ensures Route(Listing(deny, pass, block, tail), At(s, dest)) == Policy(s.inb, s.c, denies, cat, dest)
  {
    GroupsDecide(deny, subs, s, dest, core, denies, cat, false);
    GroupsDecide(pass, subs, s, dest, core, denies, cat, true);
    BlockDecides(block, subs, s, dest, core, denies);
    FirstOfListing(deny, pass, block, tail, At(s, dest));
  }

  /** Nobody's route user: a relay, or a pipe without authentication. */
  predicate Stranger(user: string, subs: seq<Sub>) { forall s | s in subs :: s.User() == "" || s.User() != user }

  lemma GroupsIgnore(groups: seq<Group>, subs: seq<Sub>, q: Session, core: Core, denies: Denies, cat: Catalog,
                     allow: bool)
    requires forall g | g in groups :: Sound(g, subs, core, denies, cat, allow)
    requires Stranger(q.user, subs)
    ensures First(GroupRules(groups), q) == None
  {
    GroupRulesHit(groups, q);
    forall g | g in groups
      ensures !GroupHit(g, q)
    {
      assert Sound(g, subs, core, denies, cat, allow);
    }
    FirstUniform(GroupRules(groups), q, Block);
  }

  /** A stranger meets no filter. */
  lemma FiltersIgnore(deny: seq<Group>, pass: seq<Group>, block: Group, tail: seq<Rule>,
                      subs: seq<Sub>, q: Session, core: Core, denies: Denies, cat: Catalog)
    requires forall g | g in deny :: Sound(g, subs, core, denies, cat, false)
    requires forall g | g in pass :: Sound(g, subs, core, denies, cat, true)
    requires Catches(block, subs, core, denies)
    requires Stranger(q.user, subs)
    ensures Route(Listing(deny, pass, block, tail), q) == Route(tail, q)
  {
    GroupsIgnore(deny, subs, q, core, denies, cat, false);
    GroupsIgnore(pass, subs, q, core, denies, cat, true);
    assert q.user !in block.users;
    FirstOfListing(deny, pass, block, tail, q);
  }

  // ---- The unfiltered tail: chain, per-client and direct rules -----------------------

  predicate XrayServes(p: Profile) { p in {VLESSReality, VLESSVision, VLESSXHTTP, TrojanTLS, SS2022, PortForward} }

  /** The inbounds the rule loops of one core visit. */
  predicate On(inb: Inbound, core: Core) {
    inb.core == core && inb.enabled && (core == XrayCore ==> XrayServes(inb.profile))
  }

  function ChainRule(inb: Inbound): Rule { Rule([In(inb.id)], None, AnyDest, Chain(inb.id)) }

  function DirectRule(inb: Inbound): Rule { Rule([In(inb.id)], None, AnyDest, Direct) }

  function SpeedRule(inb: Inbound, c: Client): Rule
    requires ClientAcct(inb, c).Some?
  {
    Rule([In(inb.id)], Some([RouteUser(inb, c)]), AnyDest, Limit(ClientAcct(inb, c).value))
  }

  function SpeedRules(inb: Inbound, cs: seq<Client>): seq<Rule>
    decreases |cs|
  {
    if cs == [] then []
    else
      var c := cs[|cs| - 1];
      SpeedRules(inb, cs[..|cs| - 1]) + (if ClientAcct(inb, c).Some? then [SpeedRule(inb, c)] else [])
  }

  /** What one inbound adds to the chain, per-client and catch-all lists. */
  function ChainPart(inb: Inbound, core: Core): seq<Rule> {
    if On(inb, core) && inb.chain then [ChainRule(inb)] else []
  }

  function SpeedPart(inb: Inbound, clients: Clients, core: Core): seq<Rule> {
    if On(inb, core) && AcctProfile(inb) then SpeedRules(inb, ClientsOf(clients, inb.id)) else []
  }

  function DirectPart(inb: Inbound, core: Core): seq<Rule> {
    if On(inb, core) && !inb.chain then [DirectRule(inb)] else []
  }

  function SocksPart(inb: Inbound): seq<Rule> {
    if inb.core == MitaCore && inb.enabled && inb.chain
    then [Rule([Socks(inb.id)], None, AnyDest, Chain(inb.id))] else []
  }

  function ChainParts(core: Core): Inbound -> seq<Rule> { inb => ChainPart(inb, core) }

  function SpeedParts(clients: Clients, core: Core): Inbound -> seq<Rule> { inb => SpeedPart(inb, clients, core) }

  function DirectParts(core: Core): Inbound -> seq<Rule> { inb => DirectPart(inb, core) }

  function SocksParts(): Inbound -> seq<Rule> { inb => SocksPart(inb) }

  function AllParts(ins: seq<Inbound>, part: Inbound -> seq<Rule>): seq<Rule>
    decreases |ins|
  {
    if ins == [] then [] else AllParts(ins[..|ins| - 1], part) + part(ins[|ins| - 1])
  }

  lemma {:induction false} InAllParts(ins: seq<Inbound>, part: Inbound -> seq<Rule>)
    ensures forall r :: r in AllParts(ins, part) <==> exists k | k in ins :: r in part(k)
    decreases |ins|
  {
    if ins != [] {
      InAllParts(ins[..|ins| - 1], part);
      assert ins == ins[..|ins| - 1] + [ins[|ins| - 1]];
    }
  }

  lemma PartsSnoc(ins: seq<Inbound>, i: nat, part: Inbound -> seq<Rule>)
    requires i < |ins|
    ensures AllParts(ins[..i + 1], part) == AllParts(ins[..i], part) + part(ins[i])
  {
    assert ins[..i + 1][..i] == ins[..i];
  }

  predicate DistinctIds(ins: seq<Inbound>) {
    forall a, b | a in ins && b in ins && a.id == b.id :: a == b
  }

  /** In a list assembled inbound by inbound, a session on one inbound sees only its part. */
  lemma OwnPart(ins: seq<Inbound>, part: Inbound -> seq<Rule>, inb: Inbound, q: Session, act: Action)
    requires DistinctIds(ins) && inb in ins
    requires forall k, r | k in ins && r in part(k) && Hits(r, q) :: k.id == inb.id
    requires forall r | r in part(inb) && Hits(r, q) :: r.act == act
    ensures First(AllParts(ins, part), q) == if exists r | r in part(inb) :: Hits(r, q) then Some(act) else None
  {
    InAllParts(ins, part);
    forall r | r in AllParts(ins, part) && Hits(r, q)
      ensures r in part(inb)
    {
      var k :| k in ins && r in part(k);
      assert k.id == inb.id;
    }
    FirstUniform(AllParts(ins, part), q, act);
  }

  lemma {:induction false} InSpeedRules(inb: Inbound, cs: seq<Client>)
    ensures forall r | r in SpeedRules(inb, cs) :: exists c | c in cs ::
      ClientAcct(inb, c).Some? && r == SpeedRule(inb, c)
    ensures forall c | c in cs && ClientAcct(inb, c).Some? :: SpeedRule(inb, c) in SpeedRules(inb, cs)
    decreases |cs|
  {
    if cs != [] {
      InSpeedRules(inb, cs[..|cs| - 1]);
      assert cs == cs[..|cs| - 1] + [cs[|cs| - 1]];
    }
  }

  lemma {:induction false} InSubs(ins: seq<Inbound>, clients: Clients, core: Core)
    ensures forall s :: s in Subs(ins, clients, core) <==>
      s.inb in ins && Filterable(s.inb, core) && s.c in ClientsOf(clients, s.inb.id)
    decreases |ins|
  {
    if ins != [] {
      var n := |ins| - 1;
      InSubs(ins[..n], clients, core);
      assert ins == ins[..n] + [ins[n]];
      forall s
        ensures s in SubsOf(ins[n], ClientsOf(clients, ins[n].id)) <==>
          s.inb == ins[n] && s.c in ClientsOf(clients, ins[n].id)
      {
        var cs := ClientsOf(clients, ins[n].id);
        if s.inb == ins[n] && s.c in cs {
          var i :| 0 <= i < |cs| && cs[i] == s.c;
          assert SubsOf(ins[n], cs)[i] == s;
        }
      }
    }
  }

  /** xray spells the catch-all out; sing-box leaves it to its final outbound. */
  function Tail(ins: seq<Inbound>, clients: Clients, core: Core): seq<Rule> {
    AllParts(ins, ChainParts(core)) +
    (if core == XrayCore then AllParts(ins, SocksParts()) else []) +
    AllParts(ins, SpeedParts(clients, core)) +
    (if core == XrayCore then AllParts(ins, DirectParts(core)) else [])
  }

  lemma FirstOfTail(ins: seq<Inbound>, clients: Clients, core: Core, q: Session)
    ensures var chain := First(AllParts(ins, ChainParts(core)), q);
      var socks := First(AllParts(ins, SocksParts()), q);
      var speed := First(AllParts(ins, SpeedParts(clients, core)), q);
      var direct := First(AllParts(ins, DirectParts(core)), q);
      First(Tail(ins, clients, core), q) ==
        if chain.Some? then chain
        else if core == XrayCore && socks.Some? then socks
        else if speed.Some? then speed
        else if core == XrayCore then direct else None
  {
    var a := AllParts(ins, ChainParts(core));
    var b := if core == XrayCore then AllParts(ins, SocksParts()) else [];
    var c := AllParts(ins, SpeedParts(clients, core));
    var d := if core == XrayCore then AllParts(ins, DirectParts(core)) else [];
    FirstOfConcat(a, b, q);
    FirstOfConcat(a + b, c, q);
    FirstOfConcat(a + b + c, d, q);
  }

  /** Chain, catch-all and local-socks rules for a session on one of the inbounds. */
  lemma InboundParts(ins: seq<Inbound>, core: Core, inb: Inbound, q: Session)
    requires DistinctIds(ins) && inb in ins && On(inb, core) && q.tag == In(inb.id)
    ensures First(AllParts(ins, ChainParts(core)), q) == if inb.chain then Some(Chain(inb.id)) else None
    ensures First(AllParts(ins, SocksParts()), q) == None
    ensures First(AllParts(ins, DirectParts(core)), q) == if inb.chain then None else Some(Direct)
  {
    OwnPart(ins, ChainParts(core), inb, q, Chain(inb.id));
    if inb.chain { assert ChainRule(inb) in ChainParts(core)(inb); }
    OwnPart(ins, SocksParts(), inb, q, Direct);
    DirectInboundPart(ins, core, inb, q);
  }

  lemma DirectInboundPart(ins: seq<Inbound>, core: Core, inb: Inbound, q: Session)
    requires DistinctIds(ins) && inb in ins && On(inb, core) && q.tag == In(inb.id)
    ensures First(AllParts(ins, DirectParts(core)), q) == if inb.chain then None else Some(Direct)
  {
    OwnPart(ins, DirectParts(core), inb, q, Direct);
    if !inb.chain { assert DirectRule(inb) in DirectParts(core)(inb); }
  }

  lemma SpeedFirst(ins: seq<Inbound>, clients: Clients, core: Core, s: Sub, dest: Dest)
    requires DistinctIds(ins) && UniqueUsers(Subs(ins, clients, core)) && s in Subs(ins, clients, core)
    requires On(s.inb, core) && s.User() != ""
    ensures First(AllParts(ins, SpeedParts(clients, core)), At(s, dest)) ==
            if ClientAcct(s.inb, s.c).Some? then Some(Base(s.inb, s.c)) else None
  {
    InSubs(ins, clients, core);
    var q, part, cs := At(s, dest), SpeedParts(clients, core), ClientsOf(clients, s.inb.id);
    InSpeedRules(s.inb, cs);
    forall r | r in part(s.inb) && Hits(r, q)
      ensures ClientAcct(s.inb, s.c).Some? && r.act == Base(s.inb, s.c)
    {
      var c :| c in cs && ClientAcct(s.inb, c).Some? && r == SpeedRule(s.inb, c);
      assert Sub(s.inb, c) in Subs(ins, clients, core) && Sub(s.inb, c).User() == s.User();
      assert c == s.c;
    }
    forall k, r | k in ins && r in part(k) && Hits(r, q)
      ensures k.id == s.inb.id
    {
      InSpeedRules(k, ClientsOf(clients, k.id));
    }
    if ClientAcct(s.inb, s.c).Some? { assert SpeedRule(s.inb, s.c) in part(s.inb) && Hits(SpeedRule(s.inb, s.c), q); }
    OwnPart(ins, part, s.inb, q, Base(s.inb, s.c));
  }

  /** A stranger has no per-client rule. */
  lemma SpeedNone(ins: seq<Inbound>, clients: Clients, core: Core, q: Session)
    requires Stranger(q.user, Subs(ins, clients, core))
    ensures First(AllParts(ins, SpeedParts(clients, core)), q) == None
  {
    InSubs(ins, clients, core);
    InAllParts(ins, SpeedParts(clients, core));
    forall r | r in AllParts(ins, SpeedParts(clients, core))
      ensures !Hits(r, q)
    {
      var k :| k in ins && r in SpeedParts(clients, core)(k);
      InSpeedRules(k, ClientsOf(clients, k.id));
      var c :| c in ClientsOf(clients, k.id) && ClientAcct(k, c).Some? && r == SpeedRule(k, c);
      assert Sub(k, c) in Subs(ins, clients, core);
    }
    FirstUniform(AllParts(ins, SpeedParts(clients, core)), q, Direct);
  }

  lemma TailDecides(ins: seq<Inbound>, clients: Clients, core: Core, s: Sub, dest: Dest)
    requires DistinctIds(ins) && UniqueUsers(Subs(ins, clients, core)) && s in Subs(ins, clients, core)
    requires On(s.inb, core) && s.User() != ""
    ensures Route(Tail(ins, clients, core), At(s, dest)) == Base(s.inb, s.c)
  {
    InSubs(ins, clients, core);
    FirstOfTail(ins, clients, core, At(s, dest));
    InboundParts(ins, core, s.inb, At(s, dest));
    SpeedFirst(ins, clients, core, s, dest);
  }

  lemma TailForOthers(ins: seq<Inbound>, clients: Clients, core: Core, inb: Inbound, q: Session)
    requires DistinctIds(ins) && inb in ins && On(inb, core) && q.tag == In(inb.id)
    requires Stranger(q.user, Subs(ins, clients, core))
    ensures Route(Tail(ins, clients, core), q) == if inb.chain then Chain(inb.id) else Direct
  {
    FirstOfTail(ins, clients, core, q);
    InboundParts(ins, core, inb, q);
    SpeedNone(ins, clients, core, q);
  }

  lemma SocksTail(ins: seq<Inbound>, clients: Clients, inb: Inbound, q: Session)
    requires DistinctIds(ins) && inb in ins && inb.core == MitaCore && inb.enabled && inb.chain &&
      q.tag == Socks(inb.id)
    ensures Route(Tail(ins, clients, XrayCore), q) == Chain(inb.id)
  {
    FirstOfTail(ins, clients, XrayCore, q);
    OwnPart(ins, ChainParts(XrayCore), inb, q, Direct);
    OwnPart(ins, SocksParts(), inb, q, Chain(inb.id));
    assert Rule([Socks(inb.id)], None, AnyDest, Chain(inb.id)) in SocksParts()(inb);
  }

  /** The rule list is the policy: for every client and destination, and for strangers. */
  ghost predicate Faithful(rules: seq<Rule>, ins: seq<Inbound>, clients: Clients, denies: Denies, cat: Catalog,
                           core: Core) {
    && (forall s, dest: Dest | s in Subs(ins, clients, core) && On(s.inb, core) && s.User() != "" ::
          Route(rules, At(s, dest)) == Policy(s.inb, s.c, denies, cat, dest))
    && (forall inb, q: Session | inb in ins && On(inb, core) && q.tag == In(inb.id) &&
       Stranger(q.user, Subs(ins, clients, core)) ::
          Route(rules, q) == if inb.chain then Chain(inb.id) else Direct)
    && (core == XrayCore ==>
          forall inb, q: Session | inb in ins && inb.core == MitaCore && inb.enabled && inb.chain &&
            q.tag == Socks(inb.id)
            && Stranger(q.user, Subs(ins, clients, core)) ::
            Route(rules, q) == Chain(inb.id))
  }

  lemma ListingFaithful(deny: seq<Group>, pass: seq<Group>, block: Group, ins: seq<Inbound>, clients: Clients,
                        denies: Denies, cat: Catalog, core: Core)
    requires DistinctIds(ins) && UniqueUsers(Subs(ins, clients, core))
    requires forall g | g in deny :: Sound(g, Subs(ins, clients, core), core, denies, cat, false)
    requires Complete(deny, Subs(ins, clients, core), core, denies, cat, false)
    requires forall g | g in pass :: Sound(g, Subs(ins, clients, core), core, denies, cat, true)
    requires Complete(pass, Subs(ins, clients, core), core, denies, cat, true)
    requires Catches(block, Subs(ins, clients, core), core, denies)
    ensures Faithful(Listing(deny, pass, block, Tail(ins, clients, core)), ins, clients, denies, cat, core)
  {
    var subs, tail := Subs(ins, clients, core), Tail(ins, clients, core);
    var rules := Listing(deny, pass, block, tail);
    InSubs(ins, clients, core);
    forall s, dest: Dest | s in subs && On(s.inb, core) && s.User() != ""
      ensures Route(rules, At(s, dest)) == Policy(s.inb, s.c, denies, cat, dest)
    {
      TailDecides(ins, clients, core, s, dest);
      FiltersDecide(deny, pass, block, tail, subs, s, dest, core, denies, cat);
    }
    forall inb, q: Session | inb in ins && On(inb, core) && q.tag == In(inb.id) && Stranger(q.user, subs)
      ensures Route(rules, q) == if inb.chain then Chain(inb.id) else Direct
    {
      TailForOthers(ins, clients, core, inb, q);
      FiltersIgnore(deny, pass, block, tail, subs, q, core, denies, cat);
    }
    if core == XrayCore {
      forall inb, q: Session | inb in ins && inb.core == MitaCore && inb.enabled && inb.chain &&
        q.tag == Socks(inb.id) && Stranger(q.user, subs)
        ensures Route(rules, q) == Chain(inb.id)
      {
        SocksTail(ins, clients, inb, q);
        FiltersIgnore(deny, pass, block, tail, subs, q, core, denies, cat);
      }
    }
  }

  // ---- The two builders --------------------------------------------------------------

  /** The rules one group adds. */
  method RulesForGroup(g: Group) returns (rules: seq<Rule>)
    ensures rules == RulesOf(g)
  {
    rules := [];
    if g.users == [] || g.tags == [] { return; }
    if g.domains != [] { rules := rules + [Rule(g.tags, Some(g.users), DomainIn(g.domains), g.out)]; }
    if g.ips != [] { rules := rules + [Rule(g.tags, Some(g.users), IPIn(g.ips), g.out)]; }
  }

  method RulesForGroups(groups: seq<Group>) returns (rules: seq<Rule>)
    ensures rules == GroupRules(groups)
  {
    rules := [];
    for i := 0 to |groups|
      invariant rules == GroupRules(groups[..i])
    {
      assert groups[..i + 1][..i] == groups[..i];
      var more := RulesForGroup(groups[i]);
      rules := rules + more;
    }
    assert groups[..|groups|] == groups;
  }

  method SpeedRulesFor(inb: Inbound, cs: seq<Client>) returns (rules: seq<Rule>)
    ensures rules == SpeedRules(inb, cs)
  {
    rules := [];
    for k := 0 to |cs|
      invariant rules == SpeedRules(inb, cs[..k])
    {
      assert cs[..k + 1][..k] == cs[..k];
      if ClientAcct(inb, cs[k]).Some? { rules := rules + [SpeedRule(inb, cs[k])]; }
    }
    assert cs[..|cs|] == cs;
  }

  datatype Built = Failed | Unused | Config(rules: seq<Rule>)

  /** The three filter blocks, in the order the source lists them. */
  method FilterRules(ins: seq<Inbound>, clients: Clients, denies: Denies, cat: Catalog, core: Core)
    returns (rules: seq<Rule>)
    requires DistinctIds(ins) && UniqueUsers(Subs(ins, clients, core)) && Normalised(denies)
    ensures Faithful(rules + Tail(ins, clients, core), ins, clients, denies, cat, core)
  {
    var pass, block := CollectSiteAllowGroups(ins, clients, denies, cat, core);
    var deny := CollectSiteDenyGroups(ins, clients, denies, cat, core);
    var denyRules := RulesForGroups(deny);
    var passRules := RulesForGroups(pass);
    ListingFaithful(deny, pass, block, ins, clients, denies, cat, core);
    rules := denyRules + passRules + BlockRules(block);
  }

  method XrayLists(ins: seq<Inbound>, clients: Clients, buildable: Inbound -> bool)
    returns (ok: bool, used: bool, chainRules: seq<Rule>, speedRules: seq<Rule>, directRules: seq<Rule>)
    ensures ok <==> forall k | k in ins && On(k, XrayCore) :: buildable(k)
    ensures ok ==> (used <==> exists k | k in ins :: On(k, XrayCore))
    ensures ok ==> chainRules == AllParts(ins, ChainParts(XrayCore))
    ensures ok ==> speedRules == AllParts(ins, SpeedParts(clients, XrayCore))
    ensures ok ==> directRules == AllParts(ins, DirectParts(XrayCore))
  {
    ok, used, chainRules, speedRules, directRules := true, false, [], [], [];
    for i := 0 to |ins|
      invariant forall k | k in ins[..i] && On(k, XrayCore) :: buildable(k)
      invariant used <==> exists k | k in ins[..i] :: On(k, XrayCore)
      invariant chainRules == AllParts(ins[..i], ChainParts(XrayCore))
      invariant speedRules == AllParts(ins[..i], SpeedParts(clients, XrayCore))
      invariant directRules == AllParts(ins[..i], DirectParts(XrayCore))
    {
      var inb := ins[i];
      assert ins[..i + 1] == ins[..i] + [inb];
      PartsSnoc(ins, i, ChainParts(XrayCore));
      PartsSnoc(ins, i, SpeedParts(clients, XrayCore));
      PartsSnoc(ins, i, DirectParts(XrayCore));
      if inb.core != XrayCore || !inb.enabled || !XrayServes(inb.profile) { continue; }
      if !buildable(inb) { ok := false; return; }
      used := true;
      if inb.chain {
        chainRules := chainRules + [ChainRule(inb)];
        continue;
      }
      if AcctProfile(inb) {
        var part := SpeedRulesFor(inb, ClientsOf(clients, inb.id));
        speedRules := speedRules + part;
      }
      directRules := directRules + [DirectRule(inb)];
    }
    assert ins[..|ins|] == ins;
  }

  predicate SocksEntry(inb: Inbound) { inb.core == MitaCore && inb.enabled && inb.chain }

  method SocksList(ins: seq<Inbound>, buildable: Inbound -> bool) returns (ok: bool, used: bool, rules: seq<Rule>)
    ensures ok <==> forall k | k in ins && SocksEntry(k) :: buildable(k)
    ensures ok ==> (used <==> exists k | k in ins :: SocksEntry(k))
    ensures ok ==> rules == AllParts(ins, SocksParts())
  {
    ok, used, rules := true, false, [];
    for i := 0 to |ins|
      invariant forall k | k in ins[..i] && SocksEntry(k) :: buildable(k)
      invariant used <==> exists k | k in ins[..i] :: SocksEntry(k)
      invariant rules == AllParts(ins[..i], SocksParts())
    {
      var inb := ins[i];
      assert ins[..i + 1] == ins[..i] + [inb];
      PartsSnoc(ins, i, SocksParts());
      if !SocksEntry(inb) { continue; }
      if !buildable(inb) { ok := false; return; }
      used := true;
      rules := rules + [Rule([Socks(inb.id)], None, AnyDest, Chain(inb.id))];
    }
    assert ins[..|ins|] == ins;
  }

  method BuildXray(ins: seq<Inbound>, clients: Clients, denies: Denies, cat: Catalog, buildable: Inbound -> bool)
    returns (b: Built)
    requires DistinctIds(ins) && UniqueUsers(Subs(ins, clients, XrayCore)) && Normalised(denies)
    ensures b.Failed? <==> exists k | k in ins :: (On(k, XrayCore) || SocksEntry(k)) && !buildable(k)
    ensures b.Unused? <==> forall k | k in ins :: !On(k, XrayCore) && !SocksEntry(k)
    ensures b.Config? ==> Faithful(b.rules, ins, clients, denies, cat, XrayCore)
  {
    var ok, used, chainRules, speedRules, directRules := XrayLists(ins, clients, buildable);
    if !ok { return Failed; }
    var ok', used', socksRules := SocksList(ins, buildable);
    if !ok' { return Failed; }
    var filters := FilterRules(ins, clients, denies, cat, XrayCore);
    if !used && !used' { return Unused; }
    b := Config(filters + (chainRules + socksRules + speedRules + directRules));
  }

  predicate SingServes(inb: Inbound) { On(inb, SingboxCore) && inb.profile in {SOCKS5, AnyTLS} }

  method SingObjects(ins: seq<Inbound>, buildable: Inbound -> bool) returns (ok: bool, used: bool)
    ensures ok <==> forall k | k in ins && SingServes(k) :: buildable(k)
    ensures ok ==> (used <==> exists k | k in ins :: SingServes(k))
  {
    ok, used := true, false;
    for i := 0 to |ins|
      invariant forall k | k in ins[..i] && SingServes(k) :: buildable(k)
      invariant used <==> exists k | k in ins[..i] :: SingServes(k)
    {
      assert ins[..i + 1] == ins[..i] + [ins[i]];
      if !SingServes(ins[i]) { continue; }
      if !buildable(ins[i]) { ok := false; return; }
      used := true;
    }
    assert ins[..|ins|] == ins;
  }

  method SingLists(ins: seq<Inbound>, clients: Clients) returns (chainRules: seq<Rule>, speedRules: seq<Rule>)
    ensures chainRules == AllParts(ins, ChainParts(SingboxCore))
    ensures speedRules == AllParts(ins, SpeedParts(clients, SingboxCore))
  {
    chainRules, speedRules := [], [];
    for i := 0 to |ins|
      invariant chainRules == AllParts(ins[..i], ChainParts(SingboxCore))
      invariant speedRules == AllParts(ins[..i], SpeedParts(clients, SingboxCore))
    {
      var inb := ins[i];
      PartsSnoc(ins, i, ChainParts(SingboxCore));
      PartsSnoc(ins, i, SpeedParts(clients, SingboxCore));
      if inb.core != SingboxCore || !inb.enabled { continue; }
      if inb.chain {
        chainRules := chainRules + [ChainRule(inb)];
        continue;
      }
      if !AcctProfile(inb) { continue; }
      var part := SpeedRulesFor(inb, ClientsOf(clients, inb.id));
      speedRules := speedRules + part;
    }
    assert ins[..|ins|] == ins;
  }

  method BuildSingbox(ins: seq<Inbound>, clients: Clients, denies: Denies, cat: Catalog, buildable: Inbound -> bool)
    returns (b: Built)
    requires DistinctIds(ins) && UniqueUsers(Subs(ins, clients, SingboxCore)) && Normalised(denies)
    ensures b.Failed? <==> exists k | k in ins :: SingServes(k) && !buildable(k)
    ensures b.Unused? <==> forall k | k in ins :: !SingServes(k)
    ensures b.Config? ==> Faithful(b.rules, ins, clients, denies, cat, SingboxCore)
  {
    var ok, used := SingObjects(ins, buildable);
    if !ok { return Failed; }
    if !used { return Unused; }
    var chainRules, speedRules := SingLists(ins, clients);
    var filters := FilterRules(ins, clients, denies, cat, SingboxCore);
    var routeRules := filters + (chainRules + speedRules);
    assert chainRules + [] + speedRules + [] == chainRules + speedRules;
    SniffFirst(routeRules, ins, clients, denies, cat);
    b := Config([Sniff] + routeRules);
  }

  /** A leading sniff changes no decision. */
  lemma SniffFirst(rules: seq<Rule>, ins: seq<Inbound>, clients: Clients, denies: Denies, cat: Catalog)
    requires Faithful(rules, ins, clients, denies, cat, SingboxCore)
    ensures Faithful([Sniff] + rules, ins, clients, denies, cat, SingboxCore)
  {
    forall q
      ensures Route([Sniff] + rules, q) == Route(rules, q)
    {
      assert ([Sniff] + rules)[1..] == rules;
    }
  }

  // ---- Where unique users come from ---------------------------------------------------

  /** Rows as provisioning writes them: one per user and inbound, named u<user>.i<inbound>. */
  predicate Provisioned(ins: seq<Inbound>, clients: Clients) {
    forall inb | inb in ins ::
      var cs := ClientsOf(clients, inb.id);
      && (forall c | c in cs :: c.email == Email(c.userId, inb.id))
      && (forall a, b | a in cs && b in cs && a.userId == b.userId :: a == b)
  }

  lemma SameUserSameRow(s: Sub, t: Sub)
    requires s.c.email == Email(s.c.userId, s.inb.id) && t.c.email == Email(t.c.userId, t.inb.id)
    requires s.User() == t.User() != ""
    ensures s.c.userId == t.c.userId && s.inb.id == t.inb.id
  {
    EmailInjective(s.c.userId, s.inb.id, t.c.userId, t.inb.id);
  }

  lemma ProvisionedUsersAreUnique(ins: seq<Inbound>, clients: Clients, core: Core)
    requires DistinctIds(ins) && Provisioned(ins, clients)
    ensures UniqueUsers(Subs(ins, clients, core))
  {
    var subs := Subs(ins, clients, core);
    InSubs(ins, clients, core);
    forall s, t | s in subs && t in subs && s.User() == t.User() && s.User() != ""
      ensures s == t
    {
      SameUserSameRow(s, t);
    }
  }
}
