/**
 Share links of SS2022 entries: ShareURI in internal/corecfg/share.go prints one, parseSS in
 internal/corecfg/uri.go reads it. Text is a sequence of bytes, one to a char.
 */
module ShareLink {

  import opened Options
  import Keys = SiteKeys

  predicate Bytes(s: string) { forall i | 0 <= i < |s| :: (s[i] as int) < 256 }

  // ---- Strings --------------------------------------------------------------------------

  predicate IsSpace(c: char) { c == ' ' || ('\t' <= c <= '\r') }

  function TrimLeft(s: string): string { if s != "" && IsSpace(s[0]) then TrimLeft(s[1..]) else s }

  function TrimRight(s: string): string { if s != "" && IsSpace(s[|s| - 1]) then TrimRight(s[..|s| - 1]) else s }

  function Trim(s: string): string { TrimRight(TrimLeft(s)) }

  /** No space at either end. */
  predicate Tight(s: string) { s != "" ==> !IsSpace(s[0]) && !IsSpace(s[|s| - 1]) }

  function Index(s: string, c: char): Option<nat> {
    if s == "" then None
    else if s[0] == c then Some(0)
    else match Index(s[1..], c) case None => None case Some(i) => Some(i + 1)
  }

  function LastIndex(s: string, c: char): Option<nat> {
    if s == "" then None else if s[|s| - 1] == c then Some(|s| - 1) else LastIndex(s[..|s| - 1], c)
  }

  lemma {:induction false} IndexBounds(s: string, c: char)
    ensures Index(s, c).Some? ==> Index(s, c).value < |s|
    ensures LastIndex(s, c).Some? ==> LastIndex(s, c).value < |s|
  {
    if s != "" {
      IndexBounds(s[1..], c);
      IndexBounds(s[..|s| - 1], c);
    }
  }

  lemma {:induction false} NotThere(s: string, c: char)
    requires c !in s
    ensures Index(s, c).None?
  {
    if s != "" { NotThere(s[1..], c); }
  }

  lemma {:induction false} FirstAt(a: string, c: char, b: string)
    requires c !in a
    ensures Index(a + [c] + b, c) == Some(|a|)
  {
    if a != "" {
      assert (a + [c] + b)[1..] == a[1..] + [c] + b;
      FirstAt(a[1..], c, b);
    }
  }

  lemma {:induction false} LastAt(a: string, c: char, b: string)
    requires c !in b
    ensures LastIndex(a + [c] + b, c) == Some(|a|)
  {
    if b != "" {
      var s := a + [c] + b;
      assert s[..|s| - 1] == a + [c] + b[..|b| - 1];
      LastAt(a, c, b[..|b| - 1]);
    }
  }

  // ---- Base64 (section 5 of RFC 4648) -----------------------------------------------------

  datatype Alphabet = Url | Std

  function Symbol(i: nat): char
    requires i < 64
  {
    if i < 26 then ('A' as int + i) as char
    else if i < 52 then ('a' as int + i - 26) as char
    else if i < 62 then ('0' as int + i - 52) as char
    else if i == 62 then '-' else '_'
  }

  function Value(ab: Alphabet, c: char): (v: Option<nat>)
    ensures v.Some? ==> v.value < 64
  {
    if 'A' <= c <= 'Z' then Some(c as int - 'A' as int)
    else if 'a' <= c <= 'z' then Some(c as int - 'a' as int + 26)
    else if '0' <= c <= '9' then Some(c as int - '0' as int + 52)
    else if c == (if ab.Url? then '-' else '+') then Some(62)
    else if c == (if ab.Url? then '_' else '/') then Some(63)
    else None
  }

  lemma SymbolValue(i: nat)
    requires i < 64
    ensures Value(Url, Symbol(i)) == Some(i)
  {
  }

  function Octet(n: nat): char { (n % 256) as char }

  function Code(c: char): nat { c as int % 256 }

  /** One to three bytes as two to four symbols. */
  function Group(s: string): (t: string)
    requires 1 <= |s| <= 3
    ensures |t| == |s| + 1
  {
    var a := Code(s[0]);
    if |s| == 1 then [Symbol(a / 4), Symbol(a % 4 * 16)]
    else
      var b := Code(s[1]);
      if |s| == 2 then [Symbol(a / 4), Symbol(a % 4 * 16 + b / 16), Symbol(b % 16 * 4)]
      else
        var c := Code(s[2]);
        [Symbol(a / 4), Symbol(a % 4 * 16 + b / 16), Symbol(b % 16 * 4 + c / 64), Symbol(c % 64)]
  }

  /** RawURLEncoding: no padding. */
  function Encode(s: string): string {
    if s == "" then "" else if |s| <= 3 then Group(s) else Group(s[..3]) + Encode(s[3..])
  }

  function Pair(x: nat, y: nat): char { Octet(x * 4 + y / 16) }

  function Middle(y: nat, z: nat): char { Octet(y % 16 * 16 + z / 4) }

  function Last(z: nat, u: nat): char { Octet(z % 4 * 64 + u) }

  /** Two to four symbols; bits left over at the end are ignored. */
  function Ungroup(ab: Alphabet, t: string): Option<string>
    requires 1 <= |t| <= 4
  {
    if |t| == 1 then None
    else
      var x, y := Value(ab, t[0]), Value(ab, t[1]);
      if x.None? || y.None? then None
      else if |t| == 2 then Some([Pair(x.value, y.value)])
      else
        var z := Value(ab, t[2]);
        if z.None? then None
        else if |t| == 3 then Some([Pair(x.value, y.value), Middle(y.value, z.value)])
        else
          var u := Value(ab, t[3]);
          if u.None? then None else Some([Pair(x.value, y.value), Middle(y.value, z.value), Last(z.value, u.value)])
  }

  function Decode(ab: Alphabet, t: string): Option<string> {
    if t == "" then Some("")
    else if |t| <= 4 then Ungroup(ab, t)
    else
      var chunk, rest := Ungroup(ab, t[..4]), Decode(ab, t[4..]);
      if chunk.None? || rest.None? then None else Some(chunk.value + rest.value)
  }

  lemma OctetOf(c: char)
    requires (c as int) < 256
    ensures Octet(c as int) == c && Code(c) == c as int
  {
  }

  /** The first byte, of which nothing follows. */
  lemma FirstAlone(a: nat)
    requires a < 256
    ensures a / 4 < 64 && a % 4 * 16 < 64 && Pair(a / 4, a % 4 * 16) == Octet(a)
  {
    assert a % 4 * 16 / 16 == a % 4;
  }

  lemma FirstThen(a: nat, b: nat)
    requires a < 256 && b < 256
    ensures a / 4 < 64 && a % 4 * 16 + b / 16 < 64 && Pair(a / 4, a % 4 * 16 + b / 16) == Octet(a)
  {
    assert (a % 4 * 16 + b / 16) / 16 == a % 4;
  }

  lemma MiddleAlone(a: nat, b: nat)
    requires a < 256 && b < 256
    ensures b % 16 * 4 < 64 && Middle(a % 4 * 16 + b / 16, b % 16 * 4) == Octet(b)
  {
    assert (a % 4 * 16 + b / 16) % 16 == b / 16;
    assert b % 16 * 4 / 4 == b % 16;
  }

  lemma MiddleThen(a: nat, b: nat, c: nat)
    requires a < 256 && b < 256 && c < 256
    ensures b % 16 * 4 + c / 64 < 64 && Middle(a % 4 * 16 + b / 16, b % 16 * 4 + c / 64) == Octet(b)
    ensures Last(b % 16 * 4 + c / 64, c % 64) == Octet(c)
  {
    assert (a % 4 * 16 + b / 16) % 16 == b / 16;
    assert (b % 16 * 4 + c / 64) / 4 == b % 16 && (b % 16 * 4 + c / 64) % 4 == c / 64;
  }

  lemma GroupRoundTrip(s: string)
    requires Bytes(s) && 1 <= |s| <= 3
    ensures Ungroup(Url, Group(s)) == Some(s)
  {
    var a := Code(s[0]);
    OctetOf(s[0]);
    if |s| == 1 {
      FirstAlone(a);
      SymbolValue(a / 4);
      SymbolValue(a % 4 * 16);
      assert s == [s[0]];
    } else {
      var b := Code(s[1]);
      OctetOf(s[1]);
      FirstThen(a, b);
      SymbolValue(a / 4);
      SymbolValue(a % 4 * 16 + b / 16);
      if |s| == 2 {
        MiddleAlone(a, b);
        SymbolValue(b % 16 * 4);
        assert s == [s[0], s[1]];
      } else {
        var c := Code(s[2]);
        OctetOf(s[2]);
        MiddleThen(a, b, c);
        SymbolValue(b % 16 * 4 + c / 64);
        SymbolValue(c % 64);
        assert s == [s[0], s[1], s[2]];
      }
    }
  }

  /** Decoding undoes encoding. */
  lemma {:induction false} Base64RoundTrip(s: string)
    requires Bytes(s)
    ensures Decode(Url, Encode(s)) == Some(s)
  {
    if 0 < |s| <= 3 {
      GroupRoundTrip(s);
    } else if |s| > 3 {
      var head, tail := s[..3], s[3..];
      GroupRoundTrip(head);
      Base64RoundTrip(tail);
      OnlySymbols(tail);
      DecodeGroup(Url, Group(head), Encode(tail));
      assert s == head + tail;
    }
  }

  lemma DecodeGroup(ab: Alphabet, g: string, t: string)
    requires |g| == 4 && t != "" && Ungroup(ab, g).Some? && Decode(ab, t).Some?
    ensures Decode(ab, g + t) == Some(Ungroup(ab, g).value + Decode(ab, t).value)
  {
    assert (g + t)[..4] == g && (g + t)[4..] == t;
  }

  predicate IsSymbol(c: char) { 'A' <= c <= 'Z' || 'a' <= c <= 'z' || '0' <= c <= '9' || c == '-' || c == '_' }

  predicate Symbols(t: string) { forall i | 0 <= i < |t| :: IsSymbol(t[i]) }

  lemma GroupSymbols(s: string)
    requires 1 <= |s| <= 3
    ensures Symbols(Group(s))
  {
  }

  lemma {:induction false} OnlySymbols(s: string)
    ensures (s != "" ==> Encode(s) != "") && Symbols(Encode(s))
  {
    if 0 < |s| <= 3 {
      GroupSymbols(s);
    } else if |s| > 3 {
      GroupSymbols(s[..3]);
      OnlySymbols(s[3..]);
    }
  }

  function Without(s: string, c: char): string {
    if s == "" then "" else if s[0] == c then Without(s[1..], c) else [s[0]] + Without(s[1..], c)
  }

  function TrimPad(s: string): string { if s != "" && s[|s| - 1] == '=' then TrimPad(s[..|s| - 1]) else s }

  /** decodeB64. The padded decoders accept what the unpadded ones do, once padding is cut. */
  function DecodeB64(s: string): Option<string> {
    var t := TrimPad(Without(Without(Trim(s), '\n'), '\r'));
    var url, std := Decode(Url, t), Decode(Std, t);
    if url.Some? && url.value != "" then url else if std.Some? && std.value != "" then std else None
  }

  // ---- Names in links -----------------------------------------------------------------------

  predicate Unreserved(c: char) {
    'A' <= c <= 'Z' || 'a' <= c <= 'z' || '0' <= c <= '9' || c == '-' || c == '_' || c == '.' || c == '~'
  }

  function Hex(n: nat): char
    requires n < 16
  {
    if n < 10 then ('0' as int + n) as char else ('A' as int + n - 10) as char
  }

  function Unhex(c: char): (v: Option<nat>)
    ensures v.Some? ==> v.value < 16
  {
    if '0' <= c <= '9' then Some(c as int - '0' as int)
    else if 'A' <= c <= 'F' then Some(c as int - 'A' as int + 10)
    else if 'a' <= c <= 'f' then Some(c as int - 'a' as int + 10)
    else None
  }

  function EscapeChar(c: char): (s: string)
    ensures s != ""
  {
    if Unreserved(c) then [c] else if c == ' ' then "+" else ['%', Hex(c as int / 16 % 16), Hex(c as int % 16)]
  }

  function QueryEscape(s: string): string { if s == "" then "" else EscapeChar(s[0]) + QueryEscape(s[1..]) }

  function QueryUnescape(s: string): Option<string> {
    if s == "" then Some("")
    else if s[0] != '%' then
      (match QueryUnescape(s[1..]) case None => None case Some(r) => Some([if s[0] == '+' then ' ' else s[0]] + r))
    else if |s| < 3 || Unhex(s[1]).None? || Unhex(s[2]).None? then None
    else
      (match QueryUnescape(s[3..])
       case None => None
       case Some(r) => Some([Octet(16 * Unhex(s[1]).value + Unhex(s[2]).value)] + r))
  }

  lemma HexValue(n: nat)
    requires n < 16
    ensures Unhex(Hex(n)) == Some(n)
  {
  }

  lemma EscapeOne(c: char, rest: string)
    requires (c as int) < 256 && QueryUnescape(rest).Some?
    ensures QueryUnescape(EscapeChar(c) + rest) == Some([c] + QueryUnescape(rest).value)
  {
    var e := EscapeChar(c) + rest;
    if Unreserved(c) || c == ' ' {
      assert e[1..] == rest;
    } else {
      var h, l := c as int / 16 % 16, c as int % 16;
      HexValue(h);
      HexValue(l);
      assert e[0] == '%' && e[1] == Hex(h) && e[2] == Hex(l) && e[3..] == rest;
      OctetOf(c);
      assert 16 * h + l == c as int;
    }
  }

  lemma {:induction false} EscapeRoundTrip(s: string)
    requires Bytes(s)
    ensures QueryUnescape(QueryEscape(s)) == Some(s)
  {
    if s != "" {
      EscapeRoundTrip(s[1..]);
      EscapeOne(s[0], QueryEscape(s[1..]));
      assert s == [s[0]] + s[1..];
    }
  }

  lemma {:induction false} EscapedHasNoSpace(s: string)
    ensures forall i | 0 <= i < |QueryEscape(s)| :: !IsSpace(QueryEscape(s)[i])
  {
    if s != "" { EscapedHasNoSpace(s[1..]); }
  }

  // ---- Host and port ------------------------------------------------------------------------------

  /** hostPort brackets a host that contains a colon. */
  function HostPort(host: string, port: nat): string {
    (if ':' in host && (host == "" || host[0] != '[') then "[" + host + "]" else host) + ":" + Keys.Decimal(port)
  }

  /** net.SplitHostPort. */
  function SplitHostPort(hp: string): Option<(string, string)> {
    var i := LastIndex(hp, ':');
    IndexBounds(hp, ':');
    if i.None? then None
    else if hp[0] == '[' then
      IndexBounds(hp, ']');
      var end := Index(hp, ']');
      if end.None? || end.value + 1 != i.value || '[' in hp[1..] || ']' in hp[end.value + 1..] then None
      else Some((hp[1..end.value], hp[i.value + 1..]))
    else if ':' in hp[..i.value] || '[' in hp || ']' in hp then None
    else Some((hp[..i.value], hp[i.value + 1..]))
  }

  function Digits(s: string): Option<nat> {
    if s == "" then None
    else
      var c := s[|s| - 1];
      if !('0' <= c <= '9') then None
      else if |s| == 1 then Some(c as int - '0' as int)
      else match Digits(s[..|s| - 1]) case None => None case Some(n) => Some(10 * n + (c as int - '0' as int))
  }

  /** strconv.Atoi, as far as a port is concerned: anything negative is refused anyway. */
  function PortOf(s: string): Option<nat> {
    var n := Digits(if s != "" && s[0] == '+' then s[1..] else s);
    if n.Some? && 1 <= n.value <= 65535 then n else None
  }

  const DEFAULT_PORT := 8388

  /** splitHostPortDefault. */
  function SplitHostPortDefault(text: string): Option<(string, nat)> {
    var hp := Trim(text);
    if hp == "" then None
    else match SplitHostPort(hp)
      case None => if ':' in hp then None else Some((hp, DEFAULT_PORT))
      case Some(p) => (match PortOf(p.1) case None => None case Some(n) => Some((p.0, n)))
  }

  lemma {:induction false} DecimalDigits(n: nat)
    ensures Digits(Keys.Decimal(n)) == Some(n)
  {
    if n >= 10 {
      var s := Keys.Decimal(n);
      assert s[..|s| - 1] == Keys.Decimal(n / 10) && s[|s| - 1] == Keys.Digit(n % 10);
      DecimalDigits(n / 10);
    }
  }

  /** A name or address that can stand in a link. */
  predicate PlainHost(h: string) {
    h != "" && forall i | 0 <= i < |h| :: !IsSpace(h[i]) && h[i] !in "@#?[]"
  }

  /** A stored host may carry its own brackets. */
  function Bare(host: string): string {
    if |host| >= 2 && host[0] == '[' && host[|host| - 1] == ']' then host[1..|host| - 1] else host
  }

  predicate Bracketed(host: string) { |host| >= 2 && host[0] == '[' && host[|host| - 1] == ']' }

  lemma PortRoundTrip(port: nat)
    requires 1 <= port <= 65535
    ensures PortOf(Keys.Decimal(port)) == Some(port) && ':' !in Keys.Decimal(port)
  {
    DecimalDigits(port);
  }

  lemma SplitPlain(h: string, p: string)
    requires PlainHost(h) && ':' !in h && ':' !in p && '[' !in p && ']' !in p
    ensures SplitHostPort(h + ":" + p) == Some((h, p))
  {
    LastAt(h, ':', p);
    assert (h + ":" + p)[..|h|] == h && (h + ":" + p)[|h| + 1..] == p;
  }

  lemma SplitBracketed(h: string, p: string)
    requires PlainHost(h) && ':' !in p && '[' !in p && ']' !in p
    ensures SplitHostPort("[" + h + "]:" + p) == Some((h, p))
  {
    var hp := "[" + h + "]:" + p;
    assert hp == ("[" + h + "]") + [':'] + p;
    LastAt("[" + h + "]", ':', p);
    assert hp == ("[" + h) + [']'] + (":" + p);
    FirstAt("[" + h, ']', ":" + p);
    assert hp[1..|h| + 1] == h && hp[|h| + 3..] == p;
    assert hp[|h| + 2..] == ":" + p;
    assert hp[1..] == h + "]:" + p;
  }

  /** Nothing a link splits on, and no space. */
  predicate Safe(s: string) { forall i | 0 <= i < |s| :: !IsSpace(s[i]) && s[i] != '@' && s[i] != '#' && s[i] != '?' }

  lemma PrintedHostPort(host: string, port: nat)
    requires PlainHost(Bare(host))
    ensures var p := Keys.Decimal(port);
      HostPort(host, port) ==
        if Bracketed(host) || ':' in host then "[" + Bare(host) + "]:" + p else Bare(host) + ":" + p
  {
    if Bracketed(host) {
      assert host == "[" + Bare(host) + "]";
    } else {
      assert Bare(host) == host && host[0] != '[';
    }
  }

  lemma PlainIsSafe(h: string, p: string)
    requires PlainHost(h) && Safe(p)
    ensures Safe(h + ":" + p) && Safe("[" + h + "]:" + p)
  {
    forall i | 0 <= i < |h|
      ensures !IsSpace(h[i]) && h[i] != '@' && h[i] != '#' && h[i] != '?'
    {
      assert h[i] !in "@#?[]";
      assert '@' == "@#?[]"[0] && '#' == "@#?[]"[1] && '?' == "@#?[]"[2];
    }
    assert Safe(h);
  }

  lemma SafeIsTight(s: string)
    requires Safe(s)
    ensures Tight(s) && '@' !in s && '#' !in s && '?' !in s
  {
  }

  lemma HostPortIsSafe(host: string, port: nat)
    requires PlainHost(Bare(host))
    ensures var hp := HostPort(host, port); Safe(hp) && hp != "" && '0' <= hp[|hp| - 1] <= '9'
  {
    var p := Keys.Decimal(port);
    PrintedHostPort(host, port);
    PlainIsSafe(Bare(host), p);
    assert HostPort(host, port)[|HostPort(host, port)| - 1] == p[|p| - 1];
  }

  /** What host and port come back from what was printed. */
  lemma HostPortRoundTrip(host: string, port: nat)
    requires PlainHost(Bare(host)) && 1 <= port <= 65535
    ensures SplitHostPortDefault(HostPort(host, port)) == Some((Bare(host), port))
  {
    var hp, p, h := HostPort(host, port), Keys.Decimal(port), Bare(host);
    PortRoundTrip(port);
    PrintedHostPort(host, port);
    HostPortIsSafe(host, port);
    SafeIsTight(hp);
    TrimTight(hp);
    if Bracketed(host) || ':' in host {
      SplitBracketed(h, p);
    } else {
      NoColonInside(host);
      SplitPlain(h, p);
    }
  }

  lemma NoColonInside(host: string)
    requires ':' !in host
    ensures ':' !in Bare(host)
  {
  }

  lemma TrimTight(s: string)
    requires Tight(s)
    ensures Trim(s) == s
  {
  }

  // ---- The link ----------------------------------------------------------------------------------

  datatype Target = Target(host: string, port: nat, name: string, cipher: string, password: string)

  /** ShareURI for an SS2022 inbound. */
  function Print(host: string, port: nat, name: string, cipher: string, server: string, client: string): string {
    "ss://" + (Encode(cipher + ":" + (server + ":" + client)) + "@" + HostPort(host, port) + "#" + QueryEscape(name))
  }

  /** cutMethodPass: at the first colon. */
  function CutMethodPass(s: string): Option<(string, string)> {
    IndexBounds(s, ':');
    match Index(s, ':')
    case None => None
    case Some(i) =>
      var cipher, pass := Trim(s[..i]), s[i + 1..];
      if cipher == "" || pass == "" then None else Some((cipher, pass))
  }

  /** splitSSUserinfo: in clear, or in base64. */
  function SplitUserinfo(text: string): Option<(string, string)> {
    var u := Trim(text);
    if u == "" then None
    else if CutMethodPass(u).Some? then CutMethodPass(u)
    else match DecodeB64(u) case None => None case Some(b) => CutMethodPass(b)
  }

  function Lower(c: char): char { if 'A' <= c <= 'Z' then (c as int + 32) as char else c }

  predicate SchemeAt(s: string) {
    |s| >= 5 && Lower(s[0]) == 's' && Lower(s[1]) == 's' && s[2] == ':' && s[3] == '/' && s[4] == '/'
  }

  function AfterScheme(s: string): Option<string> {
    if s == "" then None else if SchemeAt(s) then Some(s[5..]) else AfterScheme(s[1..])
  }

  function TrimSlash(s: string): string { if s != "" && s[|s| - 1] == '/' then s[..|s| - 1] else s }

  function ToTarget(hp: string, user: string, name: string): Option<Target> {
    var h, u := SplitHostPortDefault(hp), SplitUserinfo(user);
    if h.None? || u.None? then None else Some(Target(h.value.0, h.value.1, name, u.value.0, u.value.1))
  }

  function Scheme(s: string): string { match AfterScheme(s) case None => s case Some(r) => r }

  /** What stands before the first '#', and the name after it. */
  function CutName(s: string): (string, string) {
    IndexBounds(s, '#');
    match Index(s, '#')
    case None => (s, "")
    case Some(i) => (s[..i], match QueryUnescape(s[i + 1..]) case None => "" case Some(n) => n)
  }

  /** What stands before the query; plugin says which queries name a plugin. */
  function CutQuery(s: string, plugin: string -> bool): Option<string> {
    IndexBounds(s, '?');
    match Index(s, '?')
    case None => Some(s)
    case Some(i) => if plugin(s[i + 1..]) then None else Some(s[..i])
  }

  /** The older form has everything in base64. */
  function ParseLegacy(s: string, name: string): Option<Target> {
    match DecodeB64(s)
    case None => None
    case Some(b) =>
      IndexBounds(b, '@');
      match LastIndex(b, '@') case None => None case Some(i) => ToTarget(b[i + 1..], b[..i], name)
  }

  function ParseBody(s: string, name: string): Option<Target> {
    IndexBounds(s, '@');
    match LastIndex(s, '@')
    case None => ParseLegacy(s, name)
    case Some(i) => ToTarget(TrimSlash(s[i + 1..]), s[..i], name)
  }

  /** parseSS. */
  function Parse(raw: string, plugin: string -> bool): Option<Target> {
    var cut := CutName(Scheme(Trim(raw)));
    match CutQuery(cut.0, plugin) case None => None case Some(s) => ParseBody(Trim(s), cut.1)
  }

  lemma SymbolsAreSafe(u: string)
    requires Symbols(u)
    ensures Safe(u) && ':' !in u && '\n' !in u && '\r' !in u && '=' !in u
  {
  }

  lemma {:induction false} WithoutNothing(s: string, c: char)
    requires c !in s
    ensures Without(s, c) == s
  {
    if s != "" {
      WithoutNothing(s[1..], c);
      assert s == [s[0]] + s[1..];
    }
  }

  /** A cipher name as the panel stores it. */
  predicate CipherName(c: string) { c != "" && Tight(c) && ':' !in c }

  lemma DecodesEncoded(plain: string)
    requires Bytes(plain) && plain != ""
    ensures DecodeB64(Encode(plain)) == Some(plain)
  {
    var u := Encode(plain);
    OnlySymbols(plain);
    SymbolsAreSafe(u);
    SafeIsTight(u);
    TrimTight(u);
    WithoutNothing(u, '\n');
    WithoutNothing(u, '\r');
    assert TrimPad(u) == u;
    Base64RoundTrip(plain);
  }

  lemma PlainCut(cipher: string, pass: string)
    requires CipherName(cipher) && pass != ""
    ensures CutMethodPass(cipher + ":" + pass) == Some((cipher, pass))
  {
    var plain := cipher + ":" + pass;
    FirstAt(cipher, ':', pass);
    assert plain[..|cipher|] == cipher && plain[|cipher| + 1..] == pass;
    TrimTight(cipher);
  }

  lemma UserinfoRoundTrip(cipher: string, pass: string)
    requires CipherName(cipher) && Bytes(cipher) && Bytes(pass) && pass != ""
    ensures SplitUserinfo(Encode(cipher + ":" + pass)) == Some((cipher, pass))
  {
    var plain := cipher + ":" + pass;
    var u := Encode(plain);
    OnlySymbols(plain);
    SymbolsAreSafe(u);
    SafeIsTight(u);
    TrimTight(u);
    NotThere(u, ':');
    DecodesEncoded(plain);
    PlainCut(cipher, pass);
  }

  lemma NameCut(body: string, name: string)
    requires '#' !in body && Bytes(name)
    ensures CutName(body + "#" + QueryEscape(name)) == (body, name)
  {
    var tail := QueryEscape(name);
    var s := body + "#" + tail;
    FirstAt(body, '#', tail);
    assert s[..|body|] == body && s[|body| + 1..] == tail;
    EscapeRoundTrip(name);
  }

  lemma BodyParsed(u: string, hp: string, name: string)
    requires '@' !in hp && hp != "" && hp[|hp| - 1] != '/'
    ensures ParseBody(u + "@" + hp, name) == ToTarget(hp, u, name)
  {
    var s := u + "@" + hp;
    LastAt(u, '@', hp);
    assert s[..|u|] == u && s[|u| + 1..] == hp;
  }

  lemma SchemeCut(rest: string)
    ensures Scheme("ss://" + rest) == rest
  {
    var link := "ss://" + rest;
    assert SchemeAt(link) && link[5..] == rest;
  }

  lemma QueryCut(body: string, plugin: string -> bool)
    requires '?' !in body
    ensures CutQuery(body, plugin) == Some(body)
  {
    NotThere(body, '?');
  }

  lemma LinkTrimmed(body: string, name: string)
    ensures var link := "ss://" + (body + "#" + QueryEscape(name)); Trim(link) == link
  {
    var rest := body + "#" + QueryEscape(name);
    EscapedHasNoSpace(name);
    LinkIsTight(rest, QueryEscape(name), body);
    TrimTight("ss://" + rest);
  }

  /** Where the parser cuts a link. */
  lemma LinkParts(u: string, hp: string, name: string, plugin: string -> bool)
    requires u != "" && Safe(u) && hp != "" && Safe(hp) && hp[|hp| - 1] != '/' && Bytes(name)
    ensures Parse("ss://" + (u + "@" + hp + "#" + QueryEscape(name)), plugin) == ToTarget(hp, u, name)
  {
    var body := u + "@" + hp;
    LinkTrimmed(body, name);
    SchemeCut(body + "#" + QueryEscape(name));
    NoHash(u, hp);
    NameCut(body, name);
    QueryCut(body, plugin);
    TrimTight(body);
    BodyParsed(u, hp, name);
  }

  lemma NoHash(u: string, hp: string)
    requires Safe(u) && Safe(hp)
    ensures '#' !in u + "@" + hp && '?' !in u + "@" + hp && '@' !in hp
    ensures u != "" && hp != "" ==> Tight(u + "@" + hp)
  {
  }

  lemma LinkIsTight(rest: string, tail: string, body: string)
    requires rest == body + "#" + tail && forall i | 0 <= i < |tail| :: !IsSpace(tail[i])
    ensures Tight("ss://" + rest)
  {
    var link := "ss://" + rest;
    assert link[|link| - 1] == (if tail == "" then '#' else tail[|tail| - 1]);
  }

  /** Reading back a printed SS2022 link gives the same port, name, cipher and pair of passwords,
      and the host without its brackets: the same host exactly when it was stored without. */
  lemma SS2022RoundTrip(host: string, port: nat, name: string, cipher: string, server: string, client: string,
                        plugin: string -> bool)
    requires PlainHost(Bare(host)) && 1 <= port <= 65535 && CipherName(cipher)
    requires Bytes(name) && Bytes(cipher) && Bytes(server) && Bytes(client)
    ensures Parse(Print(host, port, name, cipher, server, client), plugin) ==
      Some(Target(Bare(host), port, name, cipher, server + ":" + client))
    ensures Bare(host) == host <==> !Bracketed(host)
  {
    var pass := server + ":" + client;
    var u := Encode(cipher + ":" + pass);
    OnlySymbols(cipher + ":" + pass);
    SymbolsAreSafe(u);
    HostPortIsSafe(host, port);
    LinkParts(u, HostPort(host, port), name, plugin);
    UserinfoRoundTrip(cipher, pass);
    HostPortRoundTrip(host, port);
  }
}
