/** The string that groups users with one site filter (SiteDeny.key in internal/corecfg/sitedeny.go). */
module SiteKeys {

  predicate Before(a: string, b: string) {
    if a == "" then true
    else if b == "" then false
    else a[0] < b[0] || (a[0] == b[0] && Before(a[1..], b[1..]))
  }

  function Insert(x: string, s: seq<string>): (r: seq<string>)
    ensures multiset(r) == multiset(s)[x := multiset(s)[x] + 1]
  {
    if s == [] || Before(x, s[0]) then [x] + s
    else
      assert s == [s[0]] + s[1..];
      [s[0]] + Insert(x, s[1..])
  }

  function Sorted(s: seq<string>): (r: seq<string>)
    ensures multiset(r) == multiset(s)
  {
    if s == [] then []
    else
      assert s == [s[0]] + s[1..];
      Insert(s[0], Sorted(s[1..]))
  }

  function Join(s: seq<string>): string {
    if s == [] then "" else if |s| == 1 then s[0] else s[0] + "," + Join(s[1..])
  }

  /** Catalog names and validated hosts: not empty, and free of both separators. */
  predicate Plain(s: seq<string>) {
    forall i | 0 <= i < |s| :: s[i] != "" && ',' !in s[i] && '|' !in s[i]
  }

  function Key(categories: seq<string>, domains: seq<string>): string {
    Join(Sorted(categories)) + "|" + Join(Sorted(domains))
  }

  lemma JoinCommas(s: seq<string>)
    requires Plain(s)
    ensures ',' in Join(s) <==> |s| > 1
    ensures Join(s) == "" <==> s == []
  {
    if |s| > 1 { assert Join(s)[|s[0]|] == ','; }
  }

  /** The first separator decides where a string splits. */
  lemma SplitOnce(a: string, b: string, x: string, y: string, sep: char)
    requires sep !in a && sep !in b
    requires a + [sep] + x == b + [sep] + y
    ensures a == b && x == y
  {
    var l := a + [sep] + x;
    assert l[|a|] == sep && l[|b|] == sep;
    assert a == l[..|a|] && b == l[..|b|];
    assert |a| <= |b| by { assert forall i | 0 <= i < |a| :: l[i] != sep; }
    assert |b| <= |a| by { assert forall i | 0 <= i < |b| :: l[i] != sep; }
    assert x == l[|a| + 1..] && y == l[|b| + 1..];
  }

  lemma {:induction false} JoinInjective(a: seq<string>, b: seq<string>)
    requires Plain(a) && Plain(b) && Join(a) == Join(b)
    ensures a == b
  {
    JoinCommas(a);
    JoinCommas(b);
    if |a| > 1 && |b| > 1 {
      assert Join(a) == a[0] + [','] + Join(a[1..]);
      assert Join(b) == b[0] + [','] + Join(b[1..]);
      SplitOnce(a[0], b[0], Join(a[1..]), Join(b[1..]), ',');
      JoinInjective(a[1..], b[1..]);
    }
  }

  lemma {:induction false} JoinHasNoBar(s: seq<string>)
    requires Plain(s)
    ensures '|' !in Join(s)
  {
    if |s| > 1 { JoinHasNoBar(s[1..]); }
  }

  lemma SortedKeepsPlain(s: seq<string>)
    requires Plain(s)
    ensures Plain(Sorted(s))
  {
    forall i | 0 <= i < |Sorted(s)|
      ensures var x := Sorted(s)[i]; x != "" && ',' !in x && '|' !in x
    {
      assert Sorted(s)[i] in multiset(Sorted(s));
      assert Sorted(s)[i] in multiset(s);
      assert Sorted(s)[i] in s;
    }
  }

  /** Two filters share a key only if they hold the same names, so a group is one filter. */
  lemma KeyInjective(c1: seq<string>, d1: seq<string>, c2: seq<string>, d2: seq<string>)
    requires Plain(c1) && Plain(d1) && Plain(c2) && Plain(d2)
    requires Key(c1, d1) == Key(c2, d2)
    ensures multiset(c1) == multiset(c2) && multiset(d1) == multiset(d2)
  {
    SortedKeepsPlain(c1);
    SortedKeepsPlain(c2);
    SortedKeepsPlain(d1);
    SortedKeepsPlain(d2);
    JoinHasNoBar(Sorted(c1));
    JoinHasNoBar(Sorted(c2));
    SplitOnce(Join(Sorted(c1)), Join(Sorted(c2)), Join(Sorted(d1)), Join(Sorted(d2)), '|');
    JoinInjective(Sorted(c1), Sorted(c2));
    JoinInjective(Sorted(d1), Sorted(d2));
  }

  // ---- Client names: u<user>.i<inbound> ------------------------------------

  function Digit(n: nat): char
    requires n < 10
  {
    ('0' as int + n) as char
  }

  function Decimal(n: nat): (s: string)
    ensures (|s| == 1 <==> n < 10) && s != "" && forall i | 0 <= i < |s| :: '0' <= s[i] <= '9'
  {
    if n < 10 then [Digit(n)] else Decimal(n / 10) + [Digit(n % 10)]
  }

  lemma {:induction false} DecimalInjective(a: nat, b: nat)
    requires Decimal(a) == Decimal(b)
    ensures a == b
  {
    var x, y := Decimal(a), Decimal(b);
    assert x[|x| - 1] == Digit(a % 10) && y[|y| - 1] == Digit(b % 10);
    if a >= 10 && b >= 10 {
      assert x[..|x| - 1] == Decimal(a / 10) && y[..|y| - 1] == Decimal(b / 10);
      DecimalInjective(a / 10, b / 10);
    }
  }

  /** EmailFor. */
  function Email(user: nat, inbound: nat): string { "u" + Decimal(user) + ".i" + Decimal(inbound) }

  lemma EmailInjective(u1: nat, i1: nat, u2: nat, i2: nat)
    requires Email(u1, i1) == Email(u2, i2)
    ensures u1 == u2 && i1 == i2
  {
    var e1, e2 := Email(u1, i1)[1..], Email(u2, i2)[1..];
    assert e1 == Decimal(u1) + ['.'] + ("i" + Decimal(i1));
    assert e2 == Decimal(u2) + ['.'] + ("i" + Decimal(i2));
    SplitOnce(Decimal(u1), Decimal(u2), "i" + Decimal(i1), "i" + Decimal(i2), '.');
    assert Decimal(i1) == ("i" + Decimal(i1))[1..];
    assert Decimal(i2) == ("i" + Decimal(i2))[1..];
    DecimalInjective(u1, u2);
    DecimalInjective(i1, i2);
  }
}
