/**
 Chain entries: the relay path of one entry and the two configs that must agree on it
 (internal/corecfg/hops.go, and the chain parts of profiles.go, xray.go and singbox.go).
 The entry's machine gets the outbounds; each panel node on the path lists the entry's
 credentials among its users, in a config built for another machine.
 */
module Chain {

  import opened Options
  import Keys = SiteKeys

  datatype Cipher = Aes128 | Aes256 | ChaCha | Unset | Unknown

  datatype Profile =
    | Reality
    | Vision
    | Xhttp
    | Trojan
    | SS2022(cipher: Cipher, server: string)
    | Socks5
    | Other

  /** relay_uuid, relay_username, relay_password; empty when not set. */
  datatype Cred = Cred(uuid: string, user: string, pass: string)

  datatype Hop = Hop(kind: string, id: int, uri: string, cred: Cred)

  /** One element of the stored hops array. Junk is not an object. */
  datatype Item = Junk | Stored(kind: string, id: int, uri: string, cred: Cred)

  datatype Hops = Absent | NotArray | Array(items: seq<Item>)

  datatype Inbound = Inbound(id: int, enabled: bool, profile: Profile, chain: bool, host: string,
                             hops: Hops, cred: Cred, exit: Option<int>, uri: string)

  type Table = m: map<int, Inbound> | forall id | id in m :: id > 0 && m[id].id == id

  const MAX_HOPS := 5

  function Items(h: Hops): seq<Item> { if h.Array? then h.items else [] }

  /** Share links and random secrets come from outside: links says which links parse, dials
      which of them an outbound can be built for, fits which keys decode to a length; uuid,
      name, pass and key are the secrets minted at each step. */
  datatype World = World(links: string -> bool, dials: string -> bool, fits: (string, nat) -> bool,
                         uuid: nat -> string, name: nat -> string, pass: nat -> string, key: (nat, nat) -> string)

  ghost predicate Sane(w: World) {
    && (forall i :: w.uuid(i) != "") && (forall i :: w.name(i) != "") && (forall i :: w.pass(i) != "")
    && (forall i, n :: w.fits(w.key(i, n), n))
    && (forall s, n :: w.fits(s, n) ==> s != "")
  }

  // ---- Stored hops -----------------------------------------------------------------------

  /** parseHop; text is taken as already trimmed and lower-cased. */
  function Parse(x: Item): Option<Hop> {
    match x
    case Junk => None
    case Stored(kind, id, uri, cred) =>
      var k := if kind == "" then (if uri != "" then "socks" else "panel") else kind;
      Some(Hop(if k == "uri" then "socks" else k, id, uri, cred))
  }

  /** Hop.Map: only the fields of the hop's kind are kept. */
  function Map(h: Hop): Item {
    Stored(h.kind, if h.kind == "panel" then h.id else 0, if h.kind == "socks" then h.uri else "", h.cred)
  }

  /** Hop.validate. */
  predicate Valid(w: World, h: Hop) {
    if h.kind == "panel" then h.id != 0 && h.uri == ""
    else h.kind == "socks" && h.id == 0 && w.links(h.uri)
  }

  /** Storing a valid hop and reading it again gives it back. */
  lemma HopRoundTrip(w: World, h: Hop)
    requires Valid(w, h)
    ensures Parse(Map(h)) == Some(h)
  {
  }

  /** ParseHops skips what is not an object. */
  function ParseHops(items: seq<Item>): (hops: seq<Hop>)
    ensures |hops| <= |items|
  {
    if items == [] then []
    else
      var n := |items| - 1;
      ParseHops(items[..n]) + (match Parse(items[n]) case Some(h) => [h] case None => [])
  }

  lemma {:induction false} ParseAll(items: seq<Item>)
    requires forall k | 0 <= k < |items| :: items[k].Stored?
    ensures |ParseHops(items)| == |items|
    ensures forall k | 0 <= k < |items| :: Some(ParseHops(items)[k]) == Parse(items[k])
  {
    if items != [] { ParseAll(items[..|items| - 1]); }
  }

  // ---- Credentials -------------------------------------------------------------------------

  predicate CanLand(p: Profile) { !p.Other? }

  function KeyLen(m: Cipher): nat { if m.Aes256? || m.ChaCha? then 32 else 16 }

  /** ensureRelay: what the landing's protocol needs is minted unless it is there. */
  function Complete(w: World, step: nat, c: Cred, p: Profile): Option<Cred> {
    match p
    case Reality | Vision | Xhttp => Some(if c.uuid == "" then c.(uuid := w.uuid(step)) else c)
    case Trojan => Some(if c.pass == "" then c.(pass := w.pass(step)) else c)
    case SS2022(m, _) =>
      if m.Unknown? then None
      else Some(if w.fits(c.pass, KeyLen(m)) then c else c.(pass := w.key(step, KeyLen(m))))
    case Socks5 =>
      Some(Cred(c.uuid, if c.user == "" then w.name(step) else c.user, if c.pass == "" then w.pass(step) else c.pass))
    case Other => Some(c)
  }

  /** What the landing's user list asks of a credential. */
  predicate Ready(c: Cred, p: Profile) {
    match p
    case Reality | Vision | Xhttp => c.uuid != ""
    case Trojan | SS2022(_, _) => c.pass != ""
    case Socks5 => c.user != "" && c.pass != ""
    case Other => false
  }

  /** Saving leaves every landing with a usable credential, and never changes one already there. */
  lemma CompleteIsReady(w: World, step: nat, c: Cred, p: Profile)
    requires Sane(w) && CanLand(p) && Complete(w, step, c, p).Some?
    ensures var done := Complete(w, step, c, p).value;
      Ready(done, p) && forall again: nat :: Complete(w, again, done, p) == Some(done)
  {
  }

  // ---- ApplyHopRelays ----------------------------------------------------------------------

  function PanelIds(items: seq<Item>): set<int> {
    if items == [] then {}
    else
      var n := |items| - 1;
      PanelIds(items[..n]) +
      (match Parse(items[n]) case Some(h) => if h.kind == "panel" then {h.id} else {} case None => {})
  }

  function Ends(entry: int, exit: int): set<int> { {entry, exit} - {0} }

  predicate HopAllowed(w: World, items: seq<Item>, k: nat, lands: Table, entry: int, exit: int)
    requires k < |items|
  {
    var p := Parse(items[k]);
    p.Some? && Valid(w, p.value) &&
    (p.value.kind == "panel" ==>
       var id := p.value.id;
       && id in lands && id !in Ends(entry, exit) && id !in PanelIds(items[..k])
       && !lands[id].chain && CanLand(lands[id].profile)
       && Complete(w, k, p.value.cred, lands[id].profile).Some?)
  }

  /** The hop as stored: a panel node's credential is completed for that node. */
  function Relayed(w: World, items: seq<Item>, k: nat, lands: Table, entry: int, exit: int): Item
    requires k < |items| && HopAllowed(w, items, k, lands, entry, exit)
  {
    var h := Parse(items[k]).value;
    if h.kind == "panel" then Map(h.(cred := Complete(w, k, h.cred, lands[h.id].profile).value)) else Map(h)
  }

  /** One turn of the loop below; seen holds the ends and the panel nodes before hop i. */
  method RelayHop(w: World, items: seq<Item>, i: nat, lands: Table, entry: int, exit: int, seen: set<int>)
    returns (r: Option<Item>, now: set<int>)
    requires i < |items| && seen == Ends(entry, exit) + PanelIds(items[..i])
    ensures r.Some? <==> HopAllowed(w, items, i, lands, entry, exit)
    ensures r.Some? ==> r.value == Relayed(w, items, i, lands, entry, exit)
    ensures r.Some? ==> now == Ends(entry, exit) + PanelIds(items[..i + 1])
  {
    assert items[..i + 1][..i] == items[..i];
    now := seen;
    var p := Parse(items[i]);
    if p.None? || !Valid(w, p.value) { return None, now; }
    var h := p.value;
    if h.kind == "socks" { return Some(Map(h)), now; }
    if h.id !in lands || h.id in seen || lands[h.id].chain || !CanLand(lands[h.id].profile) { return None, now; }
    now := seen + {h.id};
    var cred := Complete(w, i, h.cred, lands[h.id].profile);
    if cred.None? { return None, now; }
    r := Some(Map(h.(cred := cred.value)));
  }

  predicate RelayedAt(w: World, items: seq<Item>, k: nat, lands: Table, entry: int, exit: int, out: Item)
    requires k < |items|
  {
    HopAllowed(w, items, k, lands, entry, exit) && out == Relayed(w, items, k, lands, entry, exit)
  }

  method ApplyHopRelays(w: World, hops: Hops, lands: Table, entry: int, exit: int) returns (r: Option<Hops>)
    ensures r.Some? <==>
      !hops.NotArray? && |Items(hops)| < MAX_HOPS && forall k: nat | k < |Items(hops)| ::
        HopAllowed(w, Items(hops), k, lands, entry, exit)
    ensures r.Some? ==> !r.value.NotArray? && |Items(r.value)| == |Items(hops)|
    ensures r.Some? ==> forall k: nat | k < |Items(hops)| ::
      Items(r.value)[k] == Relayed(w, Items(hops), k, lands, entry, exit)
  {
    if hops.NotArray? { return None; }
    var arr := Items(hops);
    if arr == [] { return Some(Absent); }
    if |arr| > MAX_HOPS - 1 { return None; }
    var seen := Ends(entry, exit);
    var out: seq<Item> := [];
    for i := 0 to |arr|
      invariant seen == Ends(entry, exit) + PanelIds(arr[..i])
      invariant |out| == i && forall k: nat | k < i :: RelayedAt(w, arr, k, lands, entry, exit, out[k])
    {
      var x, now := RelayHop(w, arr, i, lands, entry, exit, seen);
      if x.None? {
        assert !HopAllowed(w, arr, i, lands, entry, exit);
        return None;
      }
      assert RelayedAt(w, arr, i, lands, entry, exit, x.value);
      out, seen := out + [x.value], now;
    }
    r := Some(Array(out));
    forall k: nat | k < |arr|
      ensures HopAllowed(w, arr, k, lands, entry, exit) && out[k] == Relayed(w, arr, k, lands, entry, exit)
    {
      assert RelayedAt(w, arr, k, lands, entry, exit, out[k]);
    }
  }

  // ---- Saving an entry ---------------------------------------------------------------------

  predicate ExitAllowed(w: World, x: Inbound, all: Table, step: nat) {
    if x.exit.None? then x.uri != "" && w.links(x.uri)
    else
      var id := x.exit.value;
      && x.uri == "" && id in all && (x.id == 0 || id != x.id)
      && CanLand(all[id].profile) && !all[id].chain && Complete(w, step, x.cred, all[id].profile).Some?
  }

  function ExitId(x: Inbound): int { if x.exit.Some? then x.exit.value else 0 }

  predicate EntryAllowed(w: World, x: Inbound, all: Table) {
    && !x.hops.NotArray? && |Items(x.hops)| < MAX_HOPS
    && (forall k: nat | k < |Items(x.hops)| :: HopAllowed(w, Items(x.hops), k, all, x.id, ExitId(x)))
    && ExitAllowed(w, x, all, |Items(x.hops)|)
  }

  /** What a saved entry looks like. */
  ghost predicate Prepared(w: World, x: Inbound, all: Table) {
    var items := Items(x.hops);
    && !x.hops.NotArray? && |items| < MAX_HOPS
    && (forall k | 0 <= k < |items| :: PreparedHop(w, items[k], x, all))
    && DistinctNodes(items)
    && PreparedExit(w, x, all)
  }

  predicate PreparedExit(w: World, x: Inbound, all: Table) {
    if x.exit.None? then x.uri != "" && w.links(x.uri)
    else
      var id := x.exit.value;
      x.uri == "" && id in all && (x.id == 0 || id != x.id) && !all[id].chain && Ready(x.cred, all[id].profile)
  }

  predicate PreparedHop(w: World, it: Item, x: Inbound, all: Table) {
    && it.Stored? && Parse(it) == Some(Hop(it.kind, it.id, it.uri, it.cred)) && Valid(w, Parse(it).value)
    && (it.kind == "panel" ==>
          && it.id in all && !all[it.id].chain && Ready(it.cred, all[it.id].profile)
          && (x.id == 0 || it.id != x.id) && x.exit != Some(it.id))
  }

  lemma {:induction false} PanelIdsHave(items: seq<Item>, k: nat, j: nat)
    requires j < k <= |items| && Parse(items[j]).Some? && Parse(items[j]).value.kind == "panel"
    ensures Parse(items[j]).value.id in PanelIds(items[..k])
  {
    assert items[..k][..k - 1] == items[..k - 1];
    if j < k - 1 { PanelIdsHave(items, k - 1, j); }
  }

  lemma RelayedIsPrepared(w: World, items: seq<Item>, k: nat, x: Inbound, all: Table)
    requires Sane(w) && k < |items| && HopAllowed(w, items, k, all, x.id, ExitId(x))
    ensures PreparedHop(w, Relayed(w, items, k, all, x.id, ExitId(x)), x, all)
  {
    var h := Parse(items[k]).value;
    if h.kind == "panel" {
      CompleteIsReady(w, k, h.cred, all[h.id].profile);
      HopRoundTrip(w, h.(cred := Complete(w, k, h.cred, all[h.id].profile).value));
    } else {
      HopRoundTrip(w, h);
    }
  }

  predicate DistinctNodes(items: seq<Item>) {
    forall j, k | 0 <= j < k < |items| && items[j].Stored? && items[k].Stored? ::
      items[j].kind == "panel" && items[k].kind == "panel" ==> items[j].id != items[k].id
  }

  lemma RelayedArePrepared(w: World, items: seq<Item>, out: seq<Item>, x: Inbound, all: Table)
    requires Sane(w) && |out| == |items|
    requires forall k: nat | k < |items| ::
      HopAllowed(w, items, k, all, x.id, ExitId(x)) && out[k] == Relayed(w, items, k, all, x.id, ExitId(x))
    ensures (forall k | 0 <= k < |out| :: PreparedHop(w, out[k], x, all)) && DistinctNodes(out)
  {
    forall k: nat | k < |out|
      ensures PreparedHop(w, out[k], x, all)
    {
      RelayedIsPrepared(w, items, k, x, all);
    }
    forall j: nat, k: nat | j < k < |out| && out[j].kind == "panel" && out[k].kind == "panel"
      ensures out[j].id != out[k].id
    {
      assert HopAllowed(w, items, j, all, x.id, ExitId(x)) && HopAllowed(w, items, k, all, x.id, ExitId(x));
      PanelIdsHave(items, k, j);
    }
  }

  /** The chain part of saving an entry: prepareInbound runs ApplyHopRelays, then Normalize
      checks the exit and completes its credential. */
  method PrepareEntry(w: World, x: Inbound, all: Table) returns (r: Option<Inbound>)
    requires Sane(w) && (x.id == 0 || x.id > 0)
    ensures r.Some? <==> EntryAllowed(w, x, all)
    ensures r.Some? ==> Prepared(w, r.value, all) && r.value == x.(hops := r.value.hops, cred := r.value.cred)
  {
    var items := Items(x.hops);
    if x.exit.Some? && x.exit.value !in all { return None; }
    var hops := ApplyHopRelays(w, x.hops, all, x.id, ExitId(x));
    if hops.None? { return None; }
    RelayedArePrepared(w, items, Items(hops.value), x, all);
    var cred := Some(x.cred);
    if x.exit.None? {
      if x.uri == "" || !w.links(x.uri) { return None; }
    } else {
      var exit := all[x.exit.value];
      if x.uri != "" || (exit.id == x.id && x.id != 0) || !CanLand(exit.profile) || exit.chain { return None; }
      cred := Complete(w, |items|, x.cred, exit.profile);
      if cred.None? { return None; }
      CompleteIsReady(w, |items|, x.cred, exit.profile);
    }
    r := Some(x.(hops := hops.value, cred := cred.value));
    forall k | 0 <= k < |items|
      ensures PreparedHop(w, Items(hops.value)[k], r.value, all)
    {
      assert PreparedHop(w, Items(hops.value)[k], x, all);
    }
  }

  // ---- Names ----------------------------------------------------------------------------------

  /** prefix, number, and for a hop the separator, an h and its index. */
  function Name(prefix: string, sep: char, id: nat, step: Option<nat>): string {
    prefix + Keys.Decimal(id) + (match step case None => "" case Some(i) => [sep] + "h" + Keys.Decimal(i))
  }

  function Tag(id: nat, step: Option<nat>): string { Name("ob-", '-', id, step) }

  function RelayName(id: nat, step: Option<nat>): string { Name("relay.i", '.', id, step) }

  lemma SepOnlyInSteps(prefix: string, sep: char, id: nat, step: Option<nat>)
    requires sep < '0'
    ensures sep in Name(prefix, sep, id, step)[|prefix|..] <==> step.Some?
  {
    var x, d := Name(prefix, sep, id, step)[|prefix|..], Keys.Decimal(id);
    if step.Some? { assert x[|d|] == sep; } else { assert x == d; }
  }

  lemma NameInjective(prefix: string, sep: char, a: nat, s: Option<nat>, b: nat, t: Option<nat>)
    requires sep < '0' && Name(prefix, sep, a, s) == Name(prefix, sep, b, t)
    ensures a == b && s == t
  {
    var x, y := Name(prefix, sep, a, s)[|prefix|..], Name(prefix, sep, b, t)[|prefix|..];
    var da, db := Keys.Decimal(a), Keys.Decimal(b);
    SepOnlyInSteps(prefix, sep, a, s);
    SepOnlyInSteps(prefix, sep, b, t);
    if s.None? {
      assert x == da && y == db;
    } else {
      var ra, rb := "h" + Keys.Decimal(s.value), "h" + Keys.Decimal(t.value);
      assert x == da + [sep] + ra && y == db + [sep] + rb;
      Keys.SplitOnce(da, db, ra, rb, sep);
      assert ra[1..] == Keys.Decimal(s.value) && rb[1..] == Keys.Decimal(t.value);
      Keys.DecimalInjective(s.value, t.value);
    }
    Keys.DecimalInjective(a, b);
  }

  // ---- ChainPath ---------------------------------------------------------------------------------

  datatype Target = Node(land: Inbound, cred: Cred) | Link(uri: string)

  datatype PathHop = PathHop(tag: string, target: Target)

  /** hopToPath. */
  function HopTarget(w: World, h: Hop, all: Table): Option<Target> {
    if h.kind == "socks" || h.kind == "uri" || h.uri != "" then (if w.links(h.uri) then Some(Link(h.uri)) else None)
    else if h.id in all then Some(Node(all[h.id], h.cred))
    else None
  }

  function ExitTarget(w: World, x: Inbound, all: Table): Option<Target> {
    if x.uri != "" then (if w.links(x.uri) then Some(Link(x.uri)) else None)
    else if x.exit.None? || x.exit.value !in all then None
    else Some(Node(all[x.exit.value], x.cred))
  }

  function PathLength(x: Inbound): nat { |ParseHops(Items(x.hops))| + 1 }

  function StepTarget(w: World, x: Inbound, all: Table, k: nat): Option<Target>
    requires k < PathLength(x)
  {
    if k + 1 == PathLength(x) then ExitTarget(w, x, all) else HopTarget(w, ParseHops(Items(x.hops))[k], all)
  }

  function StepOf(x: Inbound, k: nat): Option<nat> { if k + 1 == PathLength(x) then None else Some(k) }

  ghost predicate IsPath(w: World, x: Inbound, all: Table, path: seq<PathHop>)
    requires x.id > 0
  {
    && |path| == PathLength(x) <= MAX_HOPS
    && forall k: nat | k < |path| ::
       path[k].tag == Tag(x.id, StepOf(x, k)) && Some(path[k].target) == StepTarget(w, x, all, k)
  }

  predicate HasPath(w: World, x: Inbound, all: Table) {
    PathLength(x) <= MAX_HOPS && forall k: nat | k < PathLength(x) :: StepTarget(w, x, all, k).Some?
  }

  method ChainPath(w: World, x: Inbound, all: Table) returns (r: Option<seq<PathHop>>)
    requires x.id > 0
    ensures r.Some? <==> HasPath(w, x, all)
    ensures r.Some? ==> IsPath(w, x, all, r.value)
  {
    var hops := ParseHops(Items(x.hops));
    if |hops| + 1 > MAX_HOPS { return None; }
    var out: seq<PathHop> := [];
    for i := 0 to |hops|
      invariant |out| == i
      invariant forall k: nat | k < i ::
        out[k].tag == Tag(x.id, StepOf(x, k)) && Some(out[k].target) == StepTarget(w, x, all, k)
    {
      var t := HopTarget(w, hops[i], all);
      if t.None? { assert StepTarget(w, x, all, i).None?; return None; }
      out := out + [PathHop(Tag(x.id, Some(i)), t.value)];
    }
    var last := ExitTarget(w, x, all);
    if last.None? { assert StepTarget(w, x, all, |hops|).None?; return None; }
    out := out + [PathHop(Tag(x.id, None), last.value)];
    r := Some(out);
  }

  /** The id a saved entry has; a new entry gets one that nothing had. */
  predicate SavedAs(x: Inbound, id: int, all: Table) { id > 0 && if x.id == 0 then id !in all else id == x.id }

  lemma PreparedTarget(w: World, x: Inbound, id: int, all: Table, path: seq<PathHop>, k: nat)
    requires Prepared(w, x, all) && SavedAs(x, id, all) && IsPath(w, x.(id := id), all, path) && k < |path|
    ensures PathLength(x.(id := id)) == |Items(x.hops)| + 1
    ensures path[k].target.Node? ==>
      path[k].target.land.id != id && Ready(path[k].target.cred, path[k].target.land.profile) &&
        !path[k].target.land.chain
    ensures k < |Items(x.hops)| && path[k].target.Node? ==>
      Items(x.hops)[k].kind == "panel" && Items(x.hops)[k].id == path[k].target.land.id
    ensures k == |Items(x.hops)| && path[k].target.Node? ==> x.exit == Some(path[k].target.land.id)
  {
    var items := Items(x.hops);
    forall j | 0 <= j < |items|
      ensures items[j].Stored?
    {
      assert PreparedHop(w, items[j], x, all);
    }
    ParseAll(items);
    if k < |items| { assert PreparedHop(w, items[k], x, all); }
  }

  /** A saved entry's path has at most five steps with distinct tags; it visits no panel node
      twice, never the entry itself, and every panel node on it can take the credential sent. */
  lemma PathIsSimple(w: World, x: Inbound, id: int, all: Table, path: seq<PathHop>, j: nat, k: nat)
    requires Prepared(w, x, all) && SavedAs(x, id, all) && IsPath(w, x.(id := id), all, path)
    requires j < k < |path|
    ensures |path| <= MAX_HOPS && path[j].tag != path[k].tag
    ensures path[j].target.Node? && path[k].target.Node? ==> path[j].target.land.id != path[k].target.land.id
    ensures path[k].target.Node? ==>
      path[k].target.land.id != id && Ready(path[k].target.cred, path[k].target.land.profile)
    ensures path[j].target.Node? ==>
      path[j].target.land.id != id && Ready(path[j].target.cred, path[j].target.land.profile)
  {
    PreparedTarget(w, x, id, all, path, j);
    PreparedTarget(w, x, id, all, path, k);
    assert PreparedHop(w, Items(x.hops)[j], x, all);
    var y := x.(id := id);
    if path[j].tag == path[k].tag { NameInjective("ob-", '-', id, StepOf(y, j), id, StepOf(y, k)); }
  }

  /** A saved entry always has a path, as long as its nodes exist. */
  lemma PreparedHasPath(w: World, x: Inbound, id: int, all: Table)
    requires Prepared(w, x, all) && SavedAs(x, id, all)
    ensures HasPath(w, x.(id := id), all)
  {
    var items, y := Items(x.hops), x.(id := id);
    forall j | 0 <= j < |items|
      ensures PreparedHop(w, items[j], x, all)
    {
    }
    ParseAll(items);
    forall k: nat | k < PathLength(y)
      ensures StepTarget(w, y, all, k).Some?
    {
      if k < |items| { assert PreparedHop(w, items[k], x, all); }
    }
  }

  // ---- Outbounds on the entry machine ------------------------------------------------------------

  datatype Core = Xray | Singbox

  datatype Login =
    | VlessLogin(uuid: string, vision: bool)
    | PassLogin(pass: string)
    | SSLogin(cipher: Cipher, pass: string)
    | SocksLogin(user: string, pass: string)
    | NoLogin

  /** Besides chain steps a config holds plain exits, marked for one user or not, and a sink. */
  datatype Dest = ToNode(id: int, host: string, login: Login) | ToLink(uri: string) | Exit(mark: nat) | Sink

  /** via is dialerProxy in xray and detour in sing-box. */
  datatype Outbound = Outbound(tag: string, dest: Dest, via: Option<string>)

  /** The login in xrayLandOutbound and singLandOutbound. */
  function LandLogin(core: Core, p: Profile, c: Cred): Option<Login> {
    match p
    case Reality | Xhttp => Some(VlessLogin(c.uuid, false))
    case Vision => Some(VlessLogin(c.uuid, true))
    case Trojan => Some(PassLogin(c.pass))
    case SS2022(m, server) => Some(SSLogin(m, server + ":" + c.pass))
    case Socks5 =>
      (match core
       case Xray => Some(if c.user != "" || c.pass != "" then SocksLogin(c.user, c.pass) else NoLogin)
       case Singbox => Some(if c.user != "" then SocksLogin(c.user, c.pass) else NoLogin))
    case Other => None
  }

  function DestOf(core: Core, w: World, t: Target): Option<Dest> {
    match t
    case Link(uri) => if w.dials(uri) then Some(ToLink(uri)) else None
    case Node(land, c) =>
      var login := LandLogin(core, land.profile, c);
      if land.host == "" || login.None? then None else Some(ToNode(land.id, land.host, login.value))
  }

  /** Outbound k is step k of the path and dials through step k - 1. */
  predicate LinkedAt(core: Core, w: World, path: seq<PathHop>, ob: Outbound, k: nat)
    requires k < |path|
  {
    ob.tag == path[k].tag && Some(ob.dest) == DestOf(core, w, path[k].target) && ob.via == ViaAt(path, k)
  }

  ghost predicate Linked(core: Core, w: World, path: seq<PathHop>, outs: seq<Outbound>) {
    |outs| == |path| && forall k: nat | k < |path| :: LinkedAt(core, w, path, outs[k], k)
  }

  function ViaAt(path: seq<PathHop>, k: nat): Option<string>
    requires k < |path|
  {
    if k == 0 then None else Some(path[k - 1].tag)
  }

  /** Every step has an outbound on this core. */
  predicate CanDial(core: Core, w: World, x: Inbound, all: Table) {
    HasPath(w, x, all) && forall k: nat | k < PathLength(x) :: DestOf(core, w, StepTarget(w, x, all, k).value).Some?
  }

  lemma PathIsUnique(w: World, x: Inbound, all: Table, p: seq<PathHop>, q: seq<PathHop>)
    requires x.id > 0 && IsPath(w, x, all, p) && IsPath(w, x, all, q)
    ensures p == q
  {
    assert |p| == |q| == PathLength(x);
    forall k: nat | k < |p|
      ensures p[k] == q[k]
    {
      assert p[k].tag == q[k].tag && Some(p[k].target) == Some(q[k].target);
    }
  }

  /** The loop over a path. */
  method Dial(core: Core, w: World, path: seq<PathHop>) returns (r: Option<seq<Outbound>>)
    ensures r.Some? <==> forall k: nat | k < |path| :: DestOf(core, w, path[k].target).Some?
    ensures r.Some? ==> Linked(core, w, path, r.value)
  {
    var outs: seq<Outbound> := [];
    var prev := None;
    for i := 0 to |path|
      invariant |outs| == i && prev == if i == 0 then None else Some(path[i - 1].tag)
      invariant forall k: nat | k < i :: LinkedAt(core, w, path, outs[k], k)
    {
      var dest := DestOf(core, w, path[i].target);
      if dest.None? { return None; }
      var ob := Outbound(path[i].tag, dest.value, None);
      if prev.Some? { ob := ob.(via := prev); }
      outs := outs + [ob];
      prev := Some(path[i].tag);
    }
    forall k: nat | k < |path|
      ensures DestOf(core, w, path[k].target).Some?
    {
      assert LinkedAt(core, w, path, outs[k], k);
    }
    r := Some(outs);
  }

  /** xrayChainOutbounds and singChainOutbounds: each step dials through the one before, and
      the config routes the entry to the tag of the last. */
  method ChainOutbounds(core: Core, w: World, x: Inbound, all: Table) returns (r: Option<seq<Outbound>>, tag: string)
    requires x.id > 0
    ensures r.Some? <==> CanDial(core, w, x, all)
    ensures r.Some? ==> forall path | IsPath(w, x, all, path) :: Linked(core, w, path, r.value)
    ensures r.Some? ==> tag == Tag(x.id, None)
  {
    tag := "";
    var p := ChainPath(w, x, all);
    if p.None? { return None, tag; }
    var path := p.value;
    forall k: nat | k < |path|
      ensures Some(path[k].target) == StepTarget(w, x, all, k)
    {
    }
    r := Dial(core, w, path);
    forall other | IsPath(w, x, all, other)
      ensures other == path
    {
      PathIsUnique(w, x, all, other, path);
    }
    if r.Some? { tag := path[|path| - 1].tag; }
  }

  predicate DistinctTags(outs: seq<Outbound>) { forall i, j | 0 <= i < j < |outs| :: outs[i].tag != outs[j].tag }

  function Find(all: seq<Outbound>, tag: string): Option<Outbound> {
    if all == [] then None else if all[0].tag == tag then Some(all[0]) else Find(all[1..], tag)
  }

  lemma {:induction false} FindsIt(all: seq<Outbound>, ob: Outbound)
    requires DistinctTags(all) && ob in all
    ensures Find(all, ob.tag) == Some(ob)
  {
    if ob != all[0] { FindsIt(all[1..], ob); }
  }

  /** Dialing from a tag: the tags passed, up to a number of steps. */
  function Walk(all: seq<Outbound>, from: Option<string>, steps: nat): seq<string>
    decreases steps
  {
    if from.None? || steps == 0 then []
    else
      var ob := Find(all, from.value);
      [from.value] + (if ob.None? then [] else Walk(all, ob.value.via, steps - 1))
  }

  predicate Among(outs: seq<Outbound>, all: seq<Outbound>) { forall k | 0 <= k < |outs| :: outs[k] in all }

  /** Looking up step k's tag finds an outbound that dials through step k - 1. */
  predicate FoundAt(all: seq<Outbound>, path: seq<PathHop>, k: nat)
    requires k < |path|
  {
    var ob := Find(all, path[k].tag);
    ob.Some? && ob.value.via == ViaAt(path, k)
  }

  lemma StepIsFound(core: Core, w: World, path: seq<PathHop>, outs: seq<Outbound>, all: seq<Outbound>, k: nat)
    requires Linked(core, w, path, outs) && k < |path| && Among(outs, all) && DistinctTags(all)
    ensures FoundAt(all, path, k)
  {
    assert LinkedAt(core, w, path, outs[k], k);
    FindsIt(all, outs[k]);
  }

  lemma {:induction false} WalkBack(path: seq<PathHop>, all: seq<Outbound>, k: nat, steps: nat)
    requires k < |path| && steps > k && forall j: nat | j <= k :: FoundAt(all, path, j)
    ensures Walk(all, Some(path[k].tag), steps) == Back(path, k)
    decreases k
  {
    assert FoundAt(all, path, k);
    if k > 0 { WalkBack(path, all, k - 1, steps - 1); }
  }

  /** In any config whose tags are distinct, whatever else it holds, dialing from step k of the
      chain passes steps k, k-1, .. 0 and ends there. */
  lemma WalkVisitsPath(core: Core, w: World, path: seq<PathHop>, outs: seq<Outbound>,
                       all: seq<Outbound>, k: nat, steps: nat)
    requires Linked(core, w, path, outs) && k < |path| && steps > k
    requires DistinctTags(all) && Among(outs, all)
    ensures Walk(all, Some(path[k].tag), steps) == Back(path, k)
  {
    forall j: nat | j <= k
      ensures FoundAt(all, path, j)
    {
      StepIsFound(core, w, path, outs, all, j);
    }
    WalkBack(path, all, k, steps);
  }

  /** The tags from step k back to the first. */
  function Back(path: seq<PathHop>, k: nat): seq<string>
    requires k < |path|
  {
    [path[k].tag] + (if k == 0 then [] else Back(path, k - 1))
  }

  lemma {:induction false} BackAt(path: seq<PathHop>, k: nat, i: nat)
    requires i <= k < |path|
    ensures |Back(path, k)| == k + 1 && Back(path, k)[i] == path[k - i].tag
  {
    if k > 0 {
      var rest := Back(path, k - 1);
      BackAt(path, k - 1, if i > 0 then i - 1 else 0);
      assert Back(path, k) == [path[k].tag] + rest;
    }
  }

  /** Tags of different entries never meet. */
  lemma TagsOfEntriesDiffer(w: World, x: Inbound, y: Inbound, all: Table, p: seq<PathHop>, q: seq<PathHop>, j: nat,
                            k: nat)
    requires x.id > 0 && y.id > 0 && IsPath(w, x, all, p) && IsPath(w, y, all, q) && j < |p| && k < |q|
    ensures p[j].tag == q[k].tag ==> x.id == y.id && StepOf(x, j) == StepOf(y, k)
  {
    if p[j].tag == q[k].tag { NameInjective("ob-", '-', x.id, StepOf(x, j), y.id, StepOf(y, k)); }
  }

  /** One entry's outbounds have distinct tags. */
  lemma LinkedTagsDistinct(core: Core, w: World, x: Inbound, all: Table, path: seq<PathHop>, outs: seq<Outbound>)
    requires x.id > 0 && IsPath(w, x, all, path) && Linked(core, w, path, outs)
    ensures DistinctTags(outs)
  {
    forall i, j | 0 <= i < j < |outs|
      ensures outs[i].tag != outs[j].tag
    {
      assert LinkedAt(core, w, path, outs[i], i) && LinkedAt(core, w, path, outs[j], j);
      TagsOfEntriesDiffer(w, x, x, all, path, path, i, j);
    }
  }

  /** So dialing from the entry's tag passes its whole path in reverse. */
  lemma ChainIsDialled(core: Core, w: World, x: Inbound, all: Table, path: seq<PathHop>, outs: seq<Outbound>)
    requires x.id > 0 && IsPath(w, x, all, path) && Linked(core, w, path, outs)
    ensures Walk(outs, Some(Tag(x.id, None)), |outs|) == Back(path, |path| - 1)
  {
    LinkedTagsDistinct(core, w, x, all, path, outs);
    assert Among(outs, outs);
    DialledFrom(core, w, x, all, path, outs, outs);
  }

  // ---- All outbounds of one config ---------------------------------------------------------------

  /** What an outbound is there for. */
  datatype Owner = Direct | Block | Limit(mark: nat) | Step(id: nat, step: Option<nat>)

  function TagOf(o: Owner): string {
    match o
    case Direct => "direct"
    case Block => "block"
    case Limit(mark) => "limit-" + Keys.Decimal(mark)
    case Step(id, step) => Tag(id, step)
  }

  lemma TagOfInjective(a: Owner, b: Owner)
    requires TagOf(a) == TagOf(b)
    ensures a == b
  {
    var c := TagOf(a)[0];
    assert c == TagOf(b)[0];
    assert c == (match a case Direct => 'd' case Block => 'b' case Limit(_) => 'l' case Step(_, _) => 'o');
    assert c == (match b case Direct => 'd' case Block => 'b' case Limit(_) => 'l' case Step(_, _) => 'o');
    if a.Limit? {
      assert TagOf(a)[6..] == Keys.Decimal(a.mark) && TagOf(b)[6..] == Keys.Decimal(b.mark);
      Keys.DecimalInjective(a.mark, b.mark);
    } else if a.Step? {
      NameInjective("ob-", '-', a.id, a.step, b.id, b.step);
    }
  }

  predicate Known(o: Owner, ids: set<nat>, limits: set<nat>) {
    match o case Limit(mark) => mark in limits case Step(id, _) => id in ids case _ => true
  }

  predicate OwnedBy(ob: Outbound, o: Owner, ids: set<nat>, limits: set<nat>) {
    ob.tag == TagOf(o) && Known(o, ids, limits)
  }

  predicate DistinctOwners(owners: seq<Owner>) { forall j, k | 0 <= j < k < |owners| :: owners[j] != owners[k] }

  /** Outbound k belongs to owner k, and owners are distinct. */
  predicate Owned(outs: seq<Outbound>, owners: seq<Owner>, ids: set<nat>, limits: set<nat>) {
    && |owners| == |outs| && DistinctOwners(owners)
    && forall k | 0 <= k < |outs| :: OwnedBy(outs[k], owners[k], ids, limits)
  }

  lemma OwnedTagsDistinct(outs: seq<Outbound>, owners: seq<Owner>, ids: set<nat>, limits: set<nat>)
    requires Owned(outs, owners, ids, limits)
    ensures DistinctTags(outs)
  {
    forall j, k | 0 <= j < k < |outs|
      ensures outs[j].tag != outs[k].tag
    {
      assert OwnedBy(outs[j], owners[j], ids, limits) && OwnedBy(outs[k], owners[k], ids, limits);
      if outs[j].tag == outs[k].tag { TagOfInjective(owners[j], owners[k]); }
    }
  }

  lemma DistinctTogether(owners: seq<Owner>, others: seq<Owner>)
    requires DistinctOwners(owners) && DistinctOwners(others)
    requires forall j, k | 0 <= j < |owners| && 0 <= k < |others| :: owners[j] != others[k]
    ensures DistinctOwners(owners + others)
  {
  }

  lemma OwnedTogether(outs: seq<Outbound>, owners: seq<Owner>, more: seq<Outbound>, others: seq<Owner>,
                      ids: set<nat>, limits: set<nat>, ids': set<nat>, limits': set<nat>)
    requires Owned(outs, owners, ids, limits) && Owned(more, others, ids', limits')
    requires ids <= ids' && limits <= limits'
    requires forall k | 0 <= k < |others| :: !Known(others[k], ids, limits)
    ensures Owned(outs + more, owners + others, ids', limits')
  {
    forall j, k | 0 <= j < |owners| && 0 <= k < |others|
      ensures owners[j] != others[k]
    {
      assert OwnedBy(outs[j], owners[j], ids, limits) && !Known(others[k], ids, limits);
    }
    DistinctTogether(owners, others);
    forall k | 0 <= k < |outs + more|
      ensures OwnedBy((outs + more)[k], (owners + others)[k], ids', limits')
    {
      if k < |outs| {
        assert OwnedBy(outs[k], owners[k], ids, limits);
      } else {
        assert OwnedBy(more[k - |outs|], others[k - |outs|], ids', limits');
      }
    }
  }

  /** The outbounds every config begins with. */
  function Plain(core: Core): seq<Outbound> {
    match core
    case Xray => [Outbound("direct", Exit(0), None), Outbound("block", Sink, None)]
    case Singbox => [Outbound("direct", Exit(0), None)]
  }

  function PlainOwners(core: Core): seq<Owner> { match core case Xray => [Direct, Block] case Singbox => [Direct] }

  /** One inbound of the machine: a chain entry, or a direct one with its users' marks. */
  datatype Part = Entry(x: Inbound) | Marks(marks: seq<nat>)

  /** The marked exits of one direct inbound; a mark already there is not added again. */
  method AddMarks(marks: seq<nat>, outs: seq<Outbound>, limits: set<nat>, ghost owners: seq<Owner>, ghost ids: set<nat>)
    returns (more: seq<Outbound>, now: set<nat>, ghost others: seq<Owner>)
    requires Owned(outs, owners, ids, limits)
    ensures outs <= more && Owned(more, others, ids, now)
    ensures now == limits + (set m | m in marks)
  {
    more, now, others := outs, limits, owners;
    for i := 0 to |marks|
      invariant outs <= more && Owned(more, others, ids, now)
      invariant now == limits + (set m | m in marks[..i])
    {
      var mark := marks[i];
      assert marks[..i + 1] == marks[..i] + [mark];
      if mark in now { continue; }
      var ob := Outbound("limit-" + Keys.Decimal(mark), Exit(mark), None);
      OwnedTogether(more, others, [ob], [Limit(mark)], ids, now, ids, now + {mark});
      more, now, others := more + [ob], now + {mark}, others + [Limit(mark)];
    }
    assert marks[..|marks|] == marks;
  }

  function StepOwners(x: Inbound, n: nat): (owners: seq<Owner>)
    requires x.id > 0
    ensures |owners| == n && forall k: nat | k < n :: owners[k] == Step(x.id, StepOf(x, k))
  {
    seq(n, k requires 0 <= k < n => Step(x.id, StepOf(x, k)))
  }

  lemma ChainIsOwned(core: Core, w: World, x: Inbound, all: Table, path: seq<PathHop>, outs: seq<Outbound>,
                     ids: set<nat>, limits: set<nat>)
    requires x.id > 0 && IsPath(w, x, all, path) && Linked(core, w, path, outs)
    ensures Owned(outs, StepOwners(x, |outs|), ids + {x.id}, limits)
  {
    forall k: nat | k < |outs|
      ensures OwnedBy(outs[k], StepOwners(x, |outs|)[k], ids + {x.id}, limits)
    {
      assert LinkedAt(core, w, path, outs[k], k);
    }
  }

  /** The config holds the outbounds of x's chain, linked along its path. */
  ghost predicate Carries(core: Core, w: World, x: Inbound, all: Table, outs: seq<Outbound>)
    requires x.id > 0
  {
    exists path, chain :: IsPath(w, x, all, path) && Linked(core, w, path, chain) && Among(chain, outs) &&
      |chain| <= |outs|
  }

  lemma StillCarries(core: Core, w: World, x: Inbound, all: Table, outs: seq<Outbound>, more: seq<Outbound>)
    requires x.id > 0 && Carries(core, w, x, all, outs) && outs <= more
    ensures Carries(core, w, x, all, more)
  {
    var path, chain :| IsPath(w, x, all, path) && Linked(core, w, path, chain) && Among(chain, outs) &&
      |chain| <= |outs|;
    forall k | 0 <= k < |chain|
      ensures chain[k] in more
    {
      var i :| 0 <= i < |outs| && outs[i] == chain[k];
      assert more[i] == outs[i];
    }
    assert Among(chain, more);
  }

  /** The outbounds of one chain entry, added to the config. */
  method AddChain(core: Core, w: World, x: Inbound, all: Table, outs: seq<Outbound>, ghost owners: seq<Owner>,
                  ghost ids: set<nat>, ghost limits: set<nat>)
    returns (r: Option<seq<Outbound>>, ghost others: seq<Owner>)
    requires x.id > 0 && x.id !in ids && Owned(outs, owners, ids, limits)
    ensures r.Some? <==> CanDial(core, w, x, all)
    ensures r.Some? ==> outs <= r.value && Owned(r.value, others, ids + {x.id}, limits)
    ensures r.Some? ==> Carries(core, w, x, all, r.value)
  {
    others := owners;
    var chain, _ := ChainOutbounds(core, w, x, all);
    if chain.None? { return None, others; }
    ghost var path := PathOf(w, x, all);
    ChainIsOwned(core, w, x, all, path, chain.value, ids, limits);
    OwnedTogether(outs, owners, chain.value, StepOwners(x, |chain.value|), ids, limits, ids + {x.id}, limits);
    others := owners + StepOwners(x, |chain.value|);
    r := Some(outs + chain.value);
    assert Among(chain.value, r.value);
  }

  function PathOf(w: World, x: Inbound, all: Table): (path: seq<PathHop>)
    requires x.id > 0 && HasPath(w, x, all)
    ensures IsPath(w, x, all, path)
  {
    seq(PathLength(x), k requires 0 <= k < PathLength(x) => PathHop(Tag(x.id, StepOf(x, k)),
      StepTarget(w, x, all, k).value))
  }

  /** Dialing from the entry's tag, in the whole config, passes its path in reverse and ends. */
  ghost predicate Dials(core: Core, w: World, x: Inbound, all: Table, outs: seq<Outbound>)
    requires x.id > 0
  {
    exists path :: IsPath(w, x, all, path) && Walk(outs, Some(Tag(x.id, None)), |outs|) == Back(path, |path| - 1)
  }

  lemma DialledFrom(core: Core, w: World, x: Inbound, all: Table, path: seq<PathHop>, chain: seq<Outbound>,
                    outs: seq<Outbound>)
    requires x.id > 0 && IsPath(w, x, all, path) && Linked(core, w, path, chain)
    requires Among(chain, outs) && |chain| <= |outs| && DistinctTags(outs)
    ensures Walk(outs, Some(Tag(x.id, None)), |outs|) == Back(path, |path| - 1)
  {
    assert path[|path| - 1].tag == Tag(x.id, None);
    WalkVisitsPath(core, w, path, chain, outs, |path| - 1, |outs|);
  }

  lemma CarriedIsDialled(core: Core, w: World, x: Inbound, all: Table, outs: seq<Outbound>)
    requires x.id > 0 && Carries(core, w, x, all, outs) && DistinctTags(outs)
    ensures Dials(core, w, x, all, outs)
  {
    var path, chain :| IsPath(w, x, all, path) && Linked(core, w, path, chain) && Among(chain, outs) &&
      |chain| <= |outs|;
    DialledFrom(core, w, x, all, path, chain, outs);
  }

  predicate DistinctEntries(parts: seq<Part>) {
    && (forall i | 0 <= i < |parts| && parts[i].Entry? :: parts[i].x.id > 0)
    && (forall i, j | 0 <= i < j < |parts| && parts[i].Entry? && parts[j].Entry? :: parts[i].x.id != parts[j].x.id)
  }

  function EntryIds(parts: seq<Part>): (ids: set<nat>)
    requires forall i | 0 <= i < |parts| && parts[i].Entry? :: parts[i].x.id > 0
    ensures forall id :: id in ids ==> exists i | 0 <= i < |parts| :: parts[i].Entry? && parts[i].x.id == id
  {
    if parts == [] then {}
    else
      var n := |parts| - 1;
      EntryIds(parts[..n]) + (if parts[n].Entry? then {parts[n].x.id} else {})
  }

  /** Every entry before part i has its chain in the config. */
  ghost predicate CarriesAll(core: Core, w: World, parts: seq<Part>, i: nat, all: Table, outs: seq<Outbound>)
    requires DistinctEntries(parts) && i <= |parts|
  {
    forall k | 0 <= k < i && parts[k].Entry? ::
      CanDial(core, w, parts[k].x, all) && Carries(core, w, parts[k].x, all, outs)
  }

  lemma StillCarriesAll(core: Core, w: World, parts: seq<Part>, i: nat, all: Table, outs: seq<Outbound>,
                        more: seq<Outbound>)
    requires DistinctEntries(parts) && i <= |parts| && CarriesAll(core, w, parts, i, all, outs) && outs <= more
    ensures CarriesAll(core, w, parts, i, all, more)
  {
    forall k | 0 <= k < i && parts[k].Entry?
      ensures Carries(core, w, parts[k].x, all, more)
    {
      StillCarries(core, w, parts[k].x, all, outs, more);
    }
  }

  lemma CarriesOneMore(core: Core, w: World, parts: seq<Part>, i: nat, all: Table, outs: seq<Outbound>,
                       more: seq<Outbound>)
    requires DistinctEntries(parts) && i < |parts| && CarriesAll(core, w, parts, i, all, outs) && outs <= more
    requires parts[i].Entry? ==> CanDial(core, w, parts[i].x, all) && Carries(core, w, parts[i].x, all, more)
    ensures CarriesAll(core, w, parts, i + 1, all, more)
  {
    StillCarriesAll(core, w, parts, i, all, outs, more);
  }

  lemma AllDialled(core: Core, w: World, parts: seq<Part>, all: Table, outs: seq<Outbound>)
    requires DistinctEntries(parts) && CarriesAll(core, w, parts, |parts|, all, outs) && DistinctTags(outs)
    ensures forall i | 0 <= i < |parts| && parts[i].Entry? ::
      CanDial(core, w, parts[i].x, all) && Dials(core, w, parts[i].x, all, outs)
  {
    forall i | 0 <= i < |parts| && parts[i].Entry?
      ensures Dials(core, w, parts[i].x, all, outs)
    {
      CarriedIsDialled(core, w, parts[i].x, all, outs);
    }
  }

  lemma NextEntryIsNew(parts: seq<Part>, i: nat)
    requires DistinctEntries(parts) && i < |parts|
    ensures parts[i].Entry? ==> parts[i].x.id !in EntryIds(parts[..i])
    ensures EntryIds(parts[..i + 1]) == EntryIds(parts[..i]) + (if parts[i].Entry? then {parts[i].x.id} else {})
  {
    assert parts[..i + 1][..i] == parts[..i];
  }

  /** What one inbound adds. */
  method AddPart(core: Core, w: World, part: Part, all: Table, outs: seq<Outbound>, limits: set<nat>,
                 ghost owners: seq<Owner>, ghost ids: set<nat>)
    returns (r: Option<seq<Outbound>>, now: set<nat>, ghost others: seq<Owner>)
    requires Owned(outs, owners, ids, limits) && (part.Entry? ==> part.x.id > 0 && part.x.id !in ids)
    ensures r.Some? <==> (part.Entry? ==> CanDial(core, w, part.x, all))
    ensures r.Some? ==> outs <= r.value && Owned(r.value, others, ids + (if part.Entry? then {part.x.id} else {}), now)
    ensures r.Some? && part.Entry? ==> Carries(core, w, part.x, all, r.value)
  {
    now := limits;
    match part {
      case Entry(x) =>
        r, others := AddChain(core, w, x, all, outs, owners, ids, limits);
      case Marks(marks) =>
        var more: seq<Outbound>;
        more, now, others := AddMarks(marks, outs, limits, owners, ids);
        r := Some(more);
        assert ids + {} == ids;
    }
  }

  /** The outbounds of a config, inbound by inbound (the outbound part of buildXray and
      buildSingbox): there is a config exactly when every entry can be dialled, all its tags are
      distinct, and dialing from any entry's tag passes that entry's path in reverse. */
  method ConfigOutbounds(core: Core, w: World, parts: seq<Part>, all: Table) returns (r: Option<seq<Outbound>>)
    requires DistinctEntries(parts)
    ensures r.Some? <==> forall i | 0 <= i < |parts| && parts[i].Entry? :: CanDial(core, w, parts[i].x, all)
    ensures r.Some? ==> DistinctTags(r.value)
    ensures r.Some? ==> forall i | 0 <= i < |parts| && parts[i].Entry? :: Dials(core, w, parts[i].x, all, r.value)
  {
    var outs := Plain(core);
    var limits: set<nat> := {};
    ghost var owners := PlainOwners(core);
    for i := 0 to |parts|
      invariant Owned(outs, owners, EntryIds(parts[..i]), limits)
      invariant CarriesAll(core, w, parts, i, all, outs)
    {
      NextEntryIsNew(parts, i);
      var more, now, others := AddPart(core, w, parts[i], all, outs, limits, owners, EntryIds(parts[..i]));
      if more.None? { return None; }
      CarriesOneMore(core, w, parts, i, all, outs, more.value);
      outs, limits, owners := more.value, now, others;
    }
    OwnedTagsDistinct(outs, owners, EntryIds(parts[..|parts|]), limits);
    AllDialled(core, w, parts, all, outs);
    r := Some(outs);
  }

  // ---- Users on the landing machine --------------------------------------------------------------

  datatype User =
    | VlessUser(uuid: string, email: string, vision: bool)
    | PassUser(pass: string, email: string)
    | SocksUser(user: string, pass: string)

  datatype Relay = Relay(email: string, cred: Cred)

  function HopRelays(x: Inbound, landing: int, hops: seq<Hop>): seq<Relay>
    requires x.id > 0
  {
    if hops == [] then []
    else
      var n := |hops| - 1;
      HopRelays(x, landing, hops[..n]) +
        (if hops[n].id == landing then [Relay(RelayName(x.id, Some(n)), hops[n].cred)] else [])
  }

  /** What one entry sends to a landing. */
  function RelaysOf(x: Inbound, landing: int): seq<Relay>
    requires x.id > 0
  {
    (if x.exit == Some(landing) then [Relay(RelayName(x.id, None), x.cred)] else []) +
      HopRelays(x, landing, ParseHops(Items(x.hops)))
  }

  /** Sent by an entry outside rest. */
  ghost predicate SentBy(r: Relay, landing: int, all: Table, rest: set<int>) {
    exists id | id in all && id !in rest :: all[id].enabled && r in RelaysOf(all[id], landing)
  }

  ghost predicate SentTo(r: Relay, landing: int, all: Table) { landing != 0 && SentBy(r, landing, all, {}) }

  lemma SentByOneMore(r: Relay, landing: int, all: Table, rest: set<int>, id: int)
    requires id in rest && id in all
    ensures SentBy(r, landing, all, rest - {id}) <==>
      SentBy(r, landing, all, rest) || (all[id].enabled && r in RelaysOf(all[id], landing))
  {
    if SentBy(r, landing, all, rest) {
      var x :| x in all && x !in rest && all[x].enabled && r in RelaysOf(all[x], landing);
      assert x !in rest - {id};
    }
  }

  /** What one entry sends, hop by hop. */
  method RelaysFrom(x: Inbound, landing: int) returns (mine: seq<Relay>)
    requires x.id > 0
    ensures mine == RelaysOf(x, landing)
  {
    mine := [];
    if x.exit == Some(landing) { mine := [Relay(RelayName(x.id, None), x.cred)]; }
    ghost var first := mine;
    var hops := ParseHops(Items(x.hops));
    for i := 0 to |hops|
      invariant mine == first + HopRelays(x, landing, hops[..i])
    {
      assert hops[..i + 1][..i] == hops[..i];
      if hops[i].id != landing { continue; }
      mine := mine + [Relay(RelayName(x.id, Some(i)), hops[i].cred)];
    }
    assert hops[..|hops|] == hops;
  }

  /** forEachRelayTo; entries come in the order of a Go map, which is any order. */
  method RelaysTo(landing: int, all: Table) returns (rs: seq<Relay>)
    ensures forall r :: r in rs <==> SentTo(r, landing, all)
  {
    rs := [];
    if landing == 0 { return; }
    var todo := all.Keys;
    while todo != {}
      invariant todo <= all.Keys
      invariant forall r :: r in rs <==> SentBy(r, landing, all, todo)
      decreases todo
    {
      var id :| id in todo;
      forall r
        ensures SentBy(r, landing, all, todo - {id}) <==>
          SentBy(r, landing, all, todo) || (all[id].enabled && r in RelaysOf(all[id], landing))
      {
        SentByOneMore(r, landing, all, todo, id);
      }
      todo := todo - {id};
      if !all[id].enabled { continue; }
      var mine := RelaysFrom(all[id], landing);
      rs := rs + mine;
    }
  }

  /** relayUsers, and the relay part of singSocksInbound. */
  function UserFor(p: Profile, r: Relay): Option<User> {
    match p
    case Reality | Xhttp => if r.cred.uuid != "" then Some(VlessUser(r.cred.uuid, r.email, false)) else None
    case Vision => if r.cred.uuid != "" then Some(VlessUser(r.cred.uuid, r.email, true)) else None
    case Trojan | SS2022(_, _) => if r.cred.pass != "" then Some(PassUser(r.cred.pass, r.email)) else None
    case Socks5 => if r.cred.user != "" && r.cred.pass != "" then Some(SocksUser(r.cred.user, r.cred.pass)) else None
    case Other => None
  }

  ghost predicate RelayUser(u: User, land: Inbound, all: Table) {
    exists r :: SentTo(r, land.id, all) && UserFor(land.profile, r) == Some(u)
  }

  /** The users of a landing: its own clients, then one for each relay sent to it; a SOCKS5
      inbound may get a placeholder after them. */
  method LandingUsers(land: Inbound, own: seq<User>, hold: Option<User>, all: Table) returns (users: seq<User>)
    ensures forall u :: u in users <==> u in own || RelayUser(u, land, all) || (land.profile.Socks5? && hold == Some(u))
  {
    users := own;
    var rs := RelaysTo(land.id, all);
    for i := 0 to |rs|
      invariant forall u :: u in users <==> u in own || exists j | 0 <= j < i :: UserFor(land.profile, rs[j]) == Some(u)
    {
      var u := UserFor(land.profile, rs[i]);
      if u.Some? { users := users + [u.value]; }
    }
    forall u
      ensures (exists j | 0 <= j < |rs| :: UserFor(land.profile, rs[j]) == Some(u)) <==> RelayUser(u, land, all)
    {
      if j :| 0 <= j < |rs| && UserFor(land.profile, rs[j]) == Some(u) { assert rs[j] in rs; }
    }
    if land.profile.Socks5? && hold.Some? { users := users + [hold.value]; }
  }

  /** A landing lets a login in when one of its users matches it. */
  predicate LetsIn(p: Profile, users: seq<User>, l: Login) {
    match l
    case VlessLogin(id, vision) => exists u | u in users :: u.VlessUser? && u.uuid == id && u.vision == vision
    case PassLogin(pass) => exists u | u in users :: u.PassUser? && u.pass == pass
    case SSLogin(m, pass) =>
      p.SS2022? && p.cipher == m && exists u | u in users :: u.PassUser? && pass == p.server + ":" + u.pass
    case SocksLogin(user, pass) => SocksUser(user, pass) in users
    case NoLogin => false
  }

  lemma {:induction false} HopRelaysHave(x: Inbound, landing: int, hops: seq<Hop>, k: nat)
    requires x.id > 0 && k < |hops| && hops[k].id == landing
    ensures Relay(RelayName(x.id, Some(k)), hops[k].cred) in HopRelays(x, landing, hops)
  {
    if k < |hops| - 1 { HopRelaysHave(x, landing, hops[..|hops| - 1], k); }
  }

  /** The landing's machine learns of every panel node on an enabled entry's path. */
  lemma PathIsAnnounced(w: World, x: Inbound, all: Table, path: seq<PathHop>, k: nat)
    requires x.id in all && all[x.id] == x && x.enabled && IsPath(w, x, all, path) && k < |path| && path[k].target.Node?
    ensures SentTo(Relay(RelayName(x.id, StepOf(x, k)), path[k].target.cred), path[k].target.land.id, all)
  {
    var hops := ParseHops(Items(x.hops));
    if k < |hops| { HopRelaysHave(x, hops[k].id, hops, k); }
  }

  lemma ReadyLogsIn(core: Core, p: Profile, r: Relay, users: seq<User>)
    requires Ready(r.cred, p) && UserFor(p, r).Some? && UserFor(p, r).value in users
    ensures LandLogin(core, p, r.cred).Some? && LetsIn(p, users, LandLogin(core, p, r.cred).value)
  {
    var u := UserFor(p, r).value;
    assert u in users;
  }

  /** For every panel node on the path of an enabled entry whose credential is ready for the
      node, the login built for the entry's machine is among the users built for the node's. */
  lemma CredentialsAgree(core: Core, w: World, x: Inbound, all: Table, path: seq<PathHop>, k: nat, users: seq<User>)
    requires x.id in all && all[x.id] == x && x.enabled && IsPath(w, x, all, path) && k < |path| && path[k].target.Node?
    requires var t := path[k].target; Ready(t.cred, t.land.profile) && forall u | RelayUser(u, t.land, all) ::
      u in users
    ensures var t := path[k].target;
      LandLogin(core, t.land.profile, t.cred).Some? &&
        LetsIn(t.land.profile, users, LandLogin(core, t.land.profile, t.cred).value)
  {
    var t := path[k].target;
    var r := Relay(RelayName(x.id, StepOf(x, k)), t.cred);
    PathIsAnnounced(w, x, all, path, k);
    assert UserFor(t.land.profile, r).Some?;
    assert RelayUser(UserFor(t.land.profile, r).value, t.land, all);
    ReadyLogsIn(core, t.land.profile, r, users);
  }

  /** Ready is exactly what the landing asks: a relay is given a user if and only if it holds. */
  lemma ListedIffReady(p: Profile, r: Relay)
    ensures UserFor(p, r).Some? <==> Ready(r.cred, p)
  {
  }

  /** From saving to both machines: the entry was saved against the nodes as they are, so on
      every panel node of its path the two configs agree. */
  lemma SavedEntryIsServed(core: Core, w: World, x: Inbound, id: int, all: Table, later: Table, path: seq<PathHop>,
                           k: nat, users: seq<User>)
    requires Prepared(w, x, all) && SavedAs(x, id, all) && x.enabled && later == all[id := x.(id := id)]
    requires IsPath(w, x.(id := id), later, path) && k < |path| && path[k].target.Node?
    requires forall u | RelayUser(u, path[k].target.land, later) :: u in users
    ensures var t := path[k].target;
      LandLogin(core, t.land.profile, t.cred).Some? &&
        LetsIn(t.land.profile, users, LandLogin(core, t.land.profile, t.cred).value)
  {
    var y := x.(id := id);
    forall j: nat | j < |path|
      ensures Some(path[j].target) == StepTarget(w, y, all, j)
    {
      SameTarget(w, x, id, all, later, j);
    }
    assert IsPath(w, y, all, path);
    PreparedTarget(w, x, id, all, path, k);
    CredentialsAgree(core, w, y, later, path, k, users);
  }

  lemma SameTarget(w: World, x: Inbound, id: int, all: Table, later: Table, k: nat)
    requires Prepared(w, x, all) && SavedAs(x, id, all) && later == all[id := x.(id := id)] &&
      k < PathLength(x.(id := id))
    ensures StepTarget(w, x.(id := id), later, k) == StepTarget(w, x.(id := id), all, k)
  {
    var items := Items(x.hops);
    forall j | 0 <= j < |items|
      ensures PreparedHop(w, items[j], x, all)
    {
    }
    ParseAll(items);
    if k < |items| { assert PreparedHop(w, items[k], x, all); }
  }
}
