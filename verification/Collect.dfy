/**
 The agent's two-phase collection of traffic counters (BeginCollect and its finish,
 flowDeltas, mitaDeltas, clashDeltas and maxMergeSamples in internal/agent/stats.go).
 */
module Collect {

  import opened Options

  datatype Dir = Up | Down

  datatype Pair = Pair(up: nat, down: nat) {
    function At(d: Dir): nat { if d.Up? then up else down }
  }

  datatype Sample = Sample(email: string, bytes: Pair)

  type Cursor = map<string, Pair>

  function Add(a: Pair, b: Pair): Pair { Pair(a.up + b.up, a.down + b.down) }

  /** What a list of samples says about one user. */
  function Total(samples: seq<Sample>, e: string): Pair {
    if samples == [] then Pair(0, 0)
    else
      var n := |samples| - 1;
      if samples[n].email == e then Add(Total(samples[..n], e), samples[n].bytes) else Total(samples[..n], e)
  }

  lemma {:induction false} TotalConcat(a: seq<Sample>, b: seq<Sample>, e: string)
    ensures Total(a + b, e) == Add(Total(a, e), Total(b, e))
  {
    if b == [] {
      assert a + b == a;
    } else {
      var n := |b| - 1;
      assert (a + b)[..|a| + n] == a + b[..n];
      TotalConcat(a, b[..n], e);
    }
  }

  // ---- Deltas of one source --------------------------------------------------------------

  /** flowDeltas bills only an increase; mitaDeltas takes a lower reading as a fresh start. */
  datatype Rule = Growth | Restart

  function Inc(rule: Rule, was: nat, now: nat): nat {
    if now >= was then now - was else if rule.Growth? then 0 else now
  }

  function IncPair(rule: Rule, was: Pair, now: Pair): Pair {
    Pair(Inc(rule, was.up, now.up), Inc(rule, was.down, now.down))
  }

  function NextCursor(prev: Cursor, cum: seq<Sample>): Cursor {
    if cum == [] then prev
    else
      var n := |cum| - 1;
      var next := NextCursor(prev, cum[..n]);
      if cum[n].email == "" then next else next[cum[n].email := cum[n].bytes]
  }

  /** What one peek bills a user: a user without a cursor only gets one. */
  function Due(rule: Rule, prev: Cursor, cum: seq<Sample>, e: string): Pair {
    if cum == [] || e == "" || e !in prev then Pair(0, 0)
    else
      var n := |cum| - 1;
      var rest := Due(rule, prev, cum[..n], e);
      if cum[n].email == e then Add(rest, IncPair(rule, prev[e], cum[n].bytes)) else rest
  }

  lemma DueStep(rule: Rule, prev: Cursor, cum: seq<Sample>, i: nat, e: string)
    requires i < |cum|
    ensures var s := cum[i];
      Due(rule, prev, cum[..i + 1], e) ==
        if s.email == e && e != "" && e in prev then Add(Due(rule, prev, cum[..i], e), IncPair(rule, prev[e], s.bytes))
        else Due(rule, prev, cum[..i], e)
  {
    assert cum[..i + 1][..i] == cum[..i];
  }

  predicate Silent(p: Pair) { p.up == 0 && p.down == 0 }

  lemma AddSilent(a: Pair, b: Pair)
    requires Silent(b)
    ensures Add(a, b) == a
  {
  }

  lemma TotalStep(rule: Rule, prev: Cursor, cum: seq<Sample>, i: nat, out: seq<Sample>, e: string)
    requires i < |cum| && Total(out, e) == Due(rule, prev, cum[..i], e)
    ensures var s := cum[i];
      if s.email == "" || s.email !in prev then Total(out, e) == Due(rule, prev, cum[..i + 1], e)
      else
        var d := IncPair(rule, prev[s.email], s.bytes);
        if Silent(d) then Total(out, e) == Due(rule, prev, cum[..i + 1], e)
        else Total(out + [Sample(s.email, d)], e) == Due(rule, prev, cum[..i + 1], e)
  {
    var s := cum[i];
    DueStep(rule, prev, cum, i, e);
    if s.email in prev {
      var d := IncPair(rule, prev[s.email], s.bytes);
      if Silent(d) { AddSilent(Total(out, e), d); } else { TotalPush(out, Sample(s.email, d), e); }
    }
  }

  lemma TotalPush(out: seq<Sample>, s: Sample, e: string)
    ensures Total(out + [s], e) == if e == s.email then Add(Total(out, e), s.bytes) else Total(out, e)
  {
    assert (out + [s])[..|out|] == out;
  }

  lemma StepForAll(rule: Rule, prev: Cursor, cum: seq<Sample>, i: nat, out: seq<Sample>)
    requires i < |cum| && forall e :: Total(out, e) == Due(rule, prev, cum[..i], e)
    ensures var s := cum[i];
      if s.email == "" || s.email !in prev || Silent(IncPair(rule, prev[s.email], s.bytes))
      then forall e :: Total(out, e) == Due(rule, prev, cum[..i + 1], e)
      else
        var more := out + [Sample(s.email, IncPair(rule, prev[s.email], s.bytes))];
        forall e :: Total(more, e) == Due(rule, prev, cum[..i + 1], e)
  {
    forall e {
      TotalStep(rule, prev, cum, i, out, e);
    }
  }

  /** flowDeltas and mitaDeltas. */
  method Deltas(rule: Rule, prev: Cursor, cum: seq<Sample>) returns (out: seq<Sample>, next: Cursor)
    ensures next == NextCursor(prev, cum)
    ensures forall e :: Total(out, e) == Due(rule, prev, cum, e)
  {
    next, out := prev, [];
    for i := 0 to |cum|
      invariant next == NextCursor(prev, cum[..i])
      invariant forall e :: Total(out, e) == Due(rule, prev, cum[..i], e)
    {
      assert cum[..i + 1][..i] == cum[..i];
      var s := cum[i];
      StepForAll(rule, prev, cum, i, out);
      if s.email == "" { continue; }
      next := next[s.email := s.bytes];
      if s.email !in prev { continue; }
      var d := IncPair(rule, prev[s.email], s.bytes);
      if Silent(d) { continue; }
      out := out + [Sample(s.email, d)];
    }
    assert cum[..|cum|] == cum;
  }

  predicate OnePerUser(cum: seq<Sample>) { forall i, j | 0 <= i < j < |cum| :: cum[i].email != cum[j].email }

  function Reading(cum: seq<Sample>, e: string): Option<Pair> {
    if cum == [] then None
    else
      var n := |cum| - 1;
      if cum[n].email == e then Some(cum[n].bytes) else Reading(cum[..n], e)
  }

  lemma {:induction false} DueOfReading(rule: Rule, prev: Cursor, cum: seq<Sample>, e: string)
    requires OnePerUser(cum) && e != ""
    ensures var next := NextCursor(prev, cum);
      match Reading(cum, e)
      case None => Due(rule, prev, cum, e) == Pair(0, 0) && (e in next <==> e in prev) &&
        (e in prev ==> next[e] == prev[e])
      case Some(r) => (e in prev ==> Due(rule, prev, cum, e) == IncPair(rule, prev[e], r)) && e in next && next[e] == r
  {
    if cum != [] {
      var n := |cum| - 1;
      DueOfReading(rule, prev, cum[..n], e);
      if cum[n].email == e { NotRead(cum[..n], e); }
    }
  }

  lemma {:induction false} NotRead(cum: seq<Sample>, e: string)
    requires forall i | 0 <= i < |cum| :: cum[i].email != e
    ensures Reading(cum, e).None?
  {
    if cum != [] { NotRead(cum[..|cum| - 1], e); }
  }

  // ---- Runs of one source ------------------------------------------------------------------

  /** One collection: what was read, and whether it was committed. */
  datatype Tick = Tick(cum: seq<Sample>, commit: bool)

  predicate Clean(run: seq<Tick>) { forall t | t in run :: OnePerUser(t.cum) }

  function CursorAfter(run: seq<Tick>): Cursor {
    if run == [] then map[]
    else
      var before, t := CursorAfter(run[..|run| - 1]), run[|run| - 1];
      if t.commit then NextCursor(before, t.cum) else before
  }

  /** Bytes billed to a user by committed collections. */
  function Billed(rule: Rule, run: seq<Tick>, e: string, d: Dir): nat {
    if run == [] then 0
    else
      var before, t := run[..|run| - 1], run[|run| - 1];
      Billed(rule, before, e, d) + (if t.commit then Due(rule, CursorAfter(before), t.cum, e).At(d) else 0)
  }

  function LastReading(run: seq<Tick>, e: string): Option<Pair> {
    if run == [] then None
    else
      var r := Reading(run[|run| - 1].cum, e);
      if r.Some? then r else LastReading(run[..|run| - 1], e)
  }

  /** What the counter itself moved by, committed or not, from its first reading on. */
  function Moved(rule: Rule, run: seq<Tick>, e: string, d: Dir): nat {
    if run == [] then 0
    else
      var before, r := run[..|run| - 1], Reading(run[|run| - 1].cum, e);
      var last := LastReading(before, e);
      Moved(rule, before, e, d) + (if r.Some? && last.Some? then Inc(rule, last.value.At(d), r.value.At(d)) else 0)
  }

  lemma Detour(rule: Rule, a: nat, b: nat, c: nat)
    ensures Inc(rule, a, c) <= Inc(rule, a, b) + Inc(rule, b, c)
  {
  }

  ghost predicate Behind(rule: Rule, run: seq<Tick>, e: string, d: Dir) {
    var cur, last := CursorAfter(run), LastReading(run, e);
    && (e in cur ==> last.Some?)
    && Billed(rule, run, e, d) +
       (if e in cur then Inc(rule, cur[e].At(d), last.value.At(d)) else 0) <= Moved(rule, run, e, d)
  }

  lemma {:induction false} StaysBehind(rule: Rule, run: seq<Tick>, e: string, d: Dir)
    requires Clean(run) && e != ""
    ensures Behind(rule, run, e, d)
  {
    if run != [] {
      var before, t := run[..|run| - 1], run[|run| - 1];
      assert t in run;
      StaysBehind(rule, before, e, d);
      var cur, last := CursorAfter(before), LastReading(before, e);
      DueOfReading(rule, cur, t.cum, e);
      var r := Reading(t.cum, e);
      if r.Some? && e in cur { Detour(rule, cur[e].At(d), last.value.At(d), r.value.At(d)); }
    }
  }

  /** However collections are lost or committed, a user is never billed more than the counter
      moved. */
  lemma NeverMoreThanMoved(rule: Rule, run: seq<Tick>, e: string, d: Dir)
    requires Clean(run) && e != ""
    ensures Billed(rule, run, e, d) <= Moved(rule, run, e, d)
  {
    StaysBehind(rule, run, e, d);
  }

  function FirstCommitted(run: seq<Tick>, e: string): Option<Pair> {
    if run == [] then None
    else
      var before, t := run[..|run| - 1], run[|run| - 1];
      var first := FirstCommitted(before, e);
      if first.Some? || !t.commit then first else Reading(t.cum, e)
  }

  /** The counter never goes down. */
  predicate NeverFalls(run: seq<Tick>, e: string, d: Dir) {
    run == [] ||
    (NeverFalls(run[..|run| - 1], e, d) &&
     var last, r := LastReading(run[..|run| - 1], e), Reading(run[|run| - 1].cum, e);
     (last.Some? && r.Some? ==> r.value.At(d) >= last.value.At(d)))
  }

  /** A counter that never falls telescopes: what was billed is the last committed reading
      less the first, whatever was lost in between. */
  lemma {:induction false} BilledTelescopes(rule: Rule, run: seq<Tick>, e: string, d: Dir)
    requires Clean(run) && e != "" && NeverFalls(run, e, d)
    ensures var cur, first := CursorAfter(run), FirstCommitted(run, e);
      && (e in cur <==> first.Some?)
      && (e in cur ==> LastReading(run, e).Some? && cur[e].At(d) <= LastReading(run, e).value.At(d))
      && Billed(rule, run, e, d) == if e in cur then cur[e].At(d) - first.value.At(d) else 0
  {
    if run != [] {
      var before, t := run[..|run| - 1], run[|run| - 1];
      assert t in run;
      BilledTelescopes(rule, before, e, d);
      DueOfReading(rule, CursorAfter(before), t.cum, e);
    }
  }

  // ---- Merging sources -----------------------------------------------------------------------

  function Larger(a: Pair, b: Pair): Pair {
    Pair(if b.up > a.up then b.up else a.up, if b.down > a.down then b.down else a.down)
  }

  predicate Heard(samples: seq<Sample>, e: string) {
    exists i | 0 <= i < |samples| :: samples[i].email == e && samples[i].bytes != Pair(0, 0)
  }

  lemma {:induction false} SilentIsZero(samples: seq<Sample>, e: string)
    requires !Heard(samples, e)
    ensures Total(samples, e) == Pair(0, 0)
  {
    if samples != [] {
      var n := |samples| - 1;
      if samples[n].email == e { assert samples[n].bytes == Pair(0, 0); }
      SilentIsZero(samples[..n], e);
    }
  }

  /** One source summed up, and the users in order of appearance. */
  method SumGroup(group: seq<Sample>, order: seq<string>) returns (m: Cursor, longer: seq<string>)
    ensures forall e :: e in m ==> e != "" && e in longer
    ensures forall e :: e != "" ==> Total(group, e) == if e in m then m[e] else Pair(0, 0)
    ensures forall e | e in order :: e in longer
    ensures forall e | e in longer :: e in order || e in m
    ensures Once(order) ==> Once(longer)
  {
    m, longer := map[], order;
    for i := 0 to |group|
      invariant forall e :: e in m ==> e != "" && e in longer
      invariant forall e :: e != "" ==> Total(group[..i], e) == if e in m then m[e] else Pair(0, 0)
      invariant forall e | e in order :: e in longer
      invariant forall e | e in longer :: e in order || e in m
      invariant Once(order) ==> Once(longer)
    {
      assert group[..i + 1][..i] == group[..i];
      var s := group[i];
      if s.email == "" || s.bytes == Pair(0, 0) { continue; }
      m := m[s.email := Add(if s.email in m then m[s.email] else Pair(0, 0), s.bytes)];
      if s.email !in longer { longer := longer + [s.email]; }
    }
    assert group[..|group|] == group;
  }

  predicate Once(order: seq<string>) { forall i, j | 0 <= i < j < |order| :: order[i] != order[j] }

  function Got(m: Cursor, e: string): Pair { if e in m then m[e] else Pair(0, 0) }

  function Merged(order: seq<string>, m1: Cursor, m2: Cursor, e: string): Pair {
    if e in order then Larger(Got(m1, e), Got(m2, e)) else Pair(0, 0)
  }

  lemma Prefix(order: seq<string>, i: nat, e: string)
    requires i < |order| && Once(order)
    ensures e in order[..i + 1] <==> e in order[..i] || e == order[i]
    ensures order[i] !in order[..i]
  {
    assert order[..i + 1] == order[..i] + [order[i]];
  }

  lemma NothingPlus(a: Pair, b: Pair)
    requires Silent(a)
    ensures Add(a, b) == b && (Silent(b) ==> a == b)
  {
  }

  lemma EmitStep(order: seq<string>, i: nat, m1: Cursor, m2: Cursor, out: seq<Sample>, b: Pair, e: string)
    requires i < |order| && Once(order) && Total(out, e) == Merged(order[..i], m1, m2, e)
    requires b == Larger(Got(m1, order[i]), Got(m2, order[i]))
    ensures Total(out + (if Silent(b) then [] else [Sample(order[i], b)]), e) == Merged(order[..i + 1], m1, m2, e)
  {
    Prefix(order, i, e);
    if e == order[i] { NothingPlus(Total(out, e), b); }
    if Silent(b) { assert out + [] == out; } else { TotalPush(out, Sample(order[i], b), e); }
  }

  /** The users in order, each with the larger of two sums; silent ones are left out. */
  method EmitLarger(order: seq<string>, m1: Cursor, m2: Cursor) returns (out: seq<Sample>)
    requires Once(order)
    ensures OnePerUser(out)
    ensures forall i | 0 <= i < |out| :: out[i].email in order && !Silent(out[i].bytes)
    ensures forall e :: Total(out, e) == Merged(order, m1, m2, e)
  {
    out := [];
    for i := 0 to |order|
      invariant OnePerUser(out)
      invariant forall j | 0 <= j < |out| :: out[j].email in order[..i] && !Silent(out[j].bytes)
      invariant forall e :: Total(out, e) == Merged(order[..i], m1, m2, e)
    {
      var user := order[i];
      assert order[..i + 1] == order[..i] + [user];
      assert user !in order[..i];
      var up := if Got(m2, user).up > Got(m1, user).up then Got(m2, user).up else Got(m1, user).up;
      var down := if Got(m2, user).down > Got(m1, user).down then Got(m2, user).down else Got(m1, user).down;
      var more := if up == 0 && down == 0 then [] else [Sample(user, Pair(up, down))];
      forall e
        ensures Total(out + more, e) == Merged(order[..i + 1], m1, m2, e)
      {
        EmitStep(order, i, m1, m2, out, Pair(up, down), e);
      }
      out := out + more;
    }
    assert order[..|order|] == order;
  }

  /** maxMergeSamples of the core counters and the socket marks: one sample a user, and each
      direction is the larger of the two sources' sums. */
  method MaxMerge(core: seq<Sample>, flow: seq<Sample>) returns (out: seq<Sample>)
    ensures OnePerUser(out) && forall i | 0 <= i < |out| :: out[i].email != "" && !Silent(out[i].bytes)
    ensures forall e :: e != "" ==> Total(out, e) == Larger(Total(core, e), Total(flow, e))
  {
    var m1, order1 := SumGroup(core, []);
    var m2, order := SumGroup(flow, order1);
    out := EmitLarger(order, m1, m2);
  }

  /** The sources measure the same bytes: what is reported lies between the larger source and
      the sum of both. */
  lemma MergedIsBetween(core: seq<Sample>, flow: seq<Sample>, e: string, d: Dir)
    ensures var merged := Larger(Total(core, e), Total(flow, e)).At(d);
      Total(core, e).At(d) <= merged && Total(flow, e).At(d) <= merged && merged <= Total(core + flow, e).At(d)
  {
    TotalConcat(core, flow, e);
  }

  // ---- Connections reported by sing-box ------------------------------------------------------

  datatype Conn = Conn(id: string, user: string, bytes: Pair)

  /** Readings by connection; the user of a snapshot is not read back. */
  function NextSnaps(conns: seq<Conn>): Cursor {
    if conns == [] then map[]
    else
      var n := |conns| - 1;
      NextSnaps(conns[..n])[conns[n].id := conns[n].bytes]
  }

  function ClashDue(prev: Cursor, conns: seq<Conn>, e: string): Pair {
    if conns == [] || e == "" then Pair(0, 0)
    else
      var n := |conns| - 1;
      var c, rest := conns[n], ClashDue(prev, conns[..n], e);
      if c.user == e && c.id in prev then Add(rest, IncPair(Restart, prev[c.id], c.bytes)) else rest
  }

  /** clashDeltas. */
  method ClashDeltas(prev: Cursor, conns: seq<Conn>) returns (out: seq<Sample>, next: Cursor)
    ensures next == NextSnaps(conns)
    ensures forall e :: e != "" ==> Total(out, e) == ClashDue(prev, conns, e)
  {
    next := map[];
    var acc: Cursor := map[];
    var order: seq<string> := [];
    for i := 0 to |conns|
      invariant next == NextSnaps(conns[..i])
      invariant Once(order) && forall e :: e in acc <==> e in order
      invariant forall e :: e != "" ==> Got(acc, e) == ClashDue(prev, conns[..i], e)
    {
      assert conns[..i + 1][..i] == conns[..i];
      var c := conns[i];
      next := next[c.id := c.bytes];
      if c.id !in prev { continue; }
      var d := IncPair(Restart, prev[c.id], c.bytes);
      if c.user == "" || d == Pair(0, 0) { continue; }
      if c.user !in acc { order := order + [c.user]; }
      acc := acc[c.user := Add(Got(acc, c.user), d)];
    }
    assert conns[..|conns|] == conns;
    out := [];
    for i := 0 to |order|
      invariant forall e :: Total(out, e) == if e in order[..i] then acc[e] else Pair(0, 0)
    {
      assert order[..i + 1] == order[..i] + [order[i]];
      assert order[i] !in order[..i];
      out := out + [Sample(order[i], acc[order[i]])];
    }
    assert order[..|order|] == order;
  }

  lemma {:induction false} NoSnapsNoDue(conns: seq<Conn>, e: string)
    ensures ClashDue(map[], conns, e) == Pair(0, 0)
  {
    if conns != [] && e != "" { NoSnapsNoDue(conns[..|conns| - 1], e); }
  }

  // ---- The two phases ---------------------------------------------------------------------------

  datatype Cursors = Cursors(xray: Cursor, sing: Cursor, clash: Cursor, mita: Cursor, wg: Cursor, flow: Cursor)

  const FRESH := Cursors(map[], map[], map[], map[], map[], map[])

  /** What each source answered, if it did. */
  datatype Peeks = Peeks(xray: Option<seq<Sample>>, sing: Option<seq<Sample>>, clash: Option<seq<Conn>>,
                         mita: Option<seq<Sample>>, wg: Option<seq<Sample>>, flow: Option<seq<Sample>>)

  /** The cursors a collection would move to; None stays. */
  datatype Nexts = Nexts(xray: Option<Cursor>, sing: Option<Cursor>, clash: Option<Cursor>,
                         mita: Option<Cursor>, wg: Option<Cursor>, flow: Option<Cursor>)

  function Next1(cur: Cursor, cum: Option<seq<Sample>>): Option<Cursor> {
    match cum case None => None case Some(c) => Some(NextCursor(cur, c))
  }

  function Due1(rule: Rule, cur: Cursor, cum: Option<seq<Sample>>, e: string): Pair {
    match cum case None => Pair(0, 0) case Some(c) => Due(rule, cur, c, e)
  }

  function NextsOf(cur: Cursors, p: Peeks): Nexts {
    Nexts(Next1(cur.xray, p.xray), Next1(cur.sing, p.sing),
          if p.sing.Some? || p.clash.None? then None else Some(NextSnaps(p.clash.value)),
          Next1(cur.mita, p.mita), Next1(cur.wg, p.wg), Next1(cur.flow, p.flow))
  }

  /** Clash counts only when the stats query failed. */
  function SingDue(cur: Cursors, p: Peeks, e: string): Pair {
    if p.sing.Some? then Due(Restart, cur.sing, p.sing.value, e)
    else if p.clash.Some? then ClashDue(cur.clash, p.clash.value, e)
    else Pair(0, 0)
  }

  /** What the cores count for a user. */
  function CoreDue(cur: Cursors, p: Peeks, e: string): Pair {
    Add(Add(Due1(Restart, cur.xray, p.xray, e), SingDue(cur, p, e)),
      Add(Due1(Restart, cur.mita, p.mita, e), Due1(Growth, cur.wg, p.wg, e)))
  }

  function Committed(cur: Cursors, n: Nexts): Cursors {
    Cursors(if n.xray.Some? then n.xray.value else cur.xray,
            if n.sing.Some? then n.sing.value else cur.sing,
            if n.clash.Some? then n.clash.value else if n.sing.Some? then map[] else cur.clash,
            if n.mita.Some? then n.mita.value else cur.mita,
            if n.wg.Some? then n.wg.value else cur.wg,
            if n.flow.Some? then n.flow.value else cur.flow)
  }

  /** The closure a collection returns. */
  class Finish {
    const next: Nexts
    var finished: bool

    constructor (next: Nexts)
      ensures this.next == next && !finished
    {
      this.next, finished := next, false;
    }
  }

  method Peek(rule: Rule, cur: Cursor, cum: Option<seq<Sample>>) returns (out: seq<Sample>, next: Option<Cursor>)
    ensures next == Next1(cur, cum) && forall e :: Total(out, e) == Due1(rule, cur, cum, e)
  {
    match cum
    case None => return [], None;
    case Some(c) =>
      var more, n := Deltas(rule, cur, c);
      return more, Some(n);
  }

  method PeekSing(cur: Cursors, p: Peeks) returns (out: seq<Sample>, sing: Option<Cursor>, clash: Option<Cursor>)
    ensures sing == NextsOf(cur, p).sing && clash == NextsOf(cur, p).clash
    ensures forall e :: e != "" ==> Total(out, e) == SingDue(cur, p, e)
  {
    out, sing, clash := [], None, None;
    if p.sing.Some? {
      out, sing := Peek(Restart, cur.sing, p.sing);
    } else if p.clash.Some? {
      var n: Cursor;
      out, n := ClashDeltas(cur.clash, p.clash.value);
      clash := Some(n);
    }
  }

  class Collector {
    var cursors: Cursors
    var locked: bool
    ghost var open: Finish?

    ghost predicate Valid()
      reads this, open
    {
      (locked <==> open != null) && (open != null ==> !open.finished)
    }

    constructor ()
      ensures Valid() && cursors == FRESH && !locked
    {
      cursors, locked, open := FRESH, false, null;
    }

    /** BeginCollect. While another collection is open nothing is read, and the finish that
        comes back does nothing. The cursors stay where they are either way. */
    method Begin(p: Peeks) returns (samples: seq<Sample>, f: Finish?)
      requires Valid()
      modifies this`locked, this`open
      ensures Valid() && (f != null ==> fresh(f) && open == f && f.next == NextsOf(cursors, p))
      ensures f == null <==> old(locked)
      ensures f == null ==> samples == [] && open == old(open) && locked
      ensures f != null ==> OnePerUser(samples) && forall e :: e != "" ==>
        Total(samples, e) == Larger(CoreDue(cursors, p, e), Due1(Growth, cursors.flow, p.flow, e))
    {
      if locked { return [], null; }
      locked := true;
      var xray, xrayNext := Peek(Restart, cursors.xray, p.xray);
      var sing, singNext, clashNext := PeekSing(cursors, p);
      var mita, mitaNext := Peek(Restart, cursors.mita, p.mita);
      var wg, wgNext := Peek(Growth, cursors.wg, p.wg);
      var flow, flowNext := Peek(Growth, cursors.flow, p.flow);
      var all := (xray + sing) + (mita + wg);
      forall e | e != ""
        ensures Total(all, e) == CoreDue(cursors, p, e)
      {
        TotalConcat(xray, sing, e);
        TotalConcat(mita, wg, e);
        TotalConcat(xray + sing, mita + wg, e);
      }
      samples := MaxMerge(all, flow);
      f := new Finish(Nexts(xrayNext, singNext, clashNext, mitaNext, wgNext, flowNext));
      open := f;
    }

    /** finish: acts once, and moves the cursors only on commit. */
    method End(f: Finish?, commit: bool)
      requires Valid() && (f == null || f.finished || f == open)
      modifies this, f
      ensures Valid()
      ensures f == null || old(f.finished) ==>
        cursors == old(cursors) && locked == old(locked) && open == old(open) && (f != null ==> f.finished)
      ensures f != null && !old(f.finished) ==> f.finished && !locked
      ensures f != null && !old(f.finished) ==>
        cursors == if commit then Committed(old(cursors), f.next) else old(cursors)
    {
      if f == null || f.finished { return; }
      f.finished := true;
      if commit {
        cursors := cursors.(
          xray := if f.next.xray.Some? then f.next.xray.value else cursors.xray,
          mita := if f.next.mita.Some? then f.next.mita.value else cursors.mita,
          wg := if f.next.wg.Some? then f.next.wg.value else cursors.wg,
          flow := if f.next.flow.Some? then f.next.flow.value else cursors.flow);
        if f.next.sing.Some? { cursors := cursors.(sing := f.next.sing.value, clash := map[]); }
        if f.next.clash.Some? { cursors := cursors.(clash := f.next.clash.value); }
      }
      locked := false;
      open := null;
    }
  }

  /** From the stats query to clash: the first clash collection after a committed stats one
      bills nothing. */
  lemma HandoverToClash(cur: Cursors, p: Peeks, q: Peeks, e: string)
    requires p.sing.Some? && q.sing.None?
    ensures SingDue(Committed(cur, NextsOf(cur, p)), q, e) == Pair(0, 0)
  {
    if q.clash.Some? { NoSnapsNoDue(q.clash.value, e); }
  }

  function StatsOnly(e: string, n: nat): Peeks { Peeks(None, Some([Sample(e, Pair(n, 0))]), None, None, None, None) }

  function ClashOnly(e: string, n: nat): Peeks { Peeks(None, None, Some([Conn("c", e, Pair(n, 0))]), None, None, None) }

  function Commit(cur: Cursors, p: Peeks): Cursors { Committed(cur, NextsOf(cur, p)) }

  lemma OneReading(e: string, n: nat, prev: Cursor)
    requires e != ""
    ensures NextCursor(prev, [Sample(e, Pair(n, 0))]) == prev[e := Pair(n, 0)]
    ensures NextSnaps([Conn("c", e, Pair(n, 0))]) == map["c" := Pair(n, 0)]
    ensures Due(Restart, prev, [Sample(e, Pair(n, 0))], e) == if e in prev then IncPair(Restart, prev[e], Pair(n, 0))
      else Pair(0, 0)
    ensures ClashDue(prev, [Conn("c", e, Pair(n, 0))], e) == if "c" in prev then
      IncPair(Restart, prev["c"], Pair(n, 0)) else Pair(0, 0)
  {
    assert [Sample(e, Pair(n, 0))][..0] == [] && [Conn("c", e, Pair(n, 0))][..0] == [];
  }

  /** Committed collections one after the other. */
  function CommitAll(cur: Cursors, ps: seq<Peeks>): Cursors {
    if ps == [] then cur else Commit(CommitAll(cur, ps[..|ps| - 1]), ps[|ps| - 1])
  }

  /** What sing-box billed a user over them. */
  function SingBilled(cur: Cursors, ps: seq<Peeks>, e: string): Pair {
    if ps == [] then Pair(0, 0)
    else Add(SingBilled(cur, ps[..|ps| - 1], e), SingDue(CommitAll(cur, ps[..|ps| - 1]), ps[|ps| - 1], e))
  }

  lemma {:induction false} ClashLeavesStats(cur: Cursors, qs: seq<Peeks>)
    requires forall q | q in qs :: q.sing.None?
    ensures CommitAll(cur, qs).sing == cur.sing
  {
    if qs != [] {
      assert qs[|qs| - 1] in qs;
      ClashLeavesStats(cur, qs[..|qs| - 1]);
    }
  }

  lemma AddIsSecondIff(a: Pair, b: Pair)
    ensures Add(a, b) == b <==> Silent(a)
  {
  }

  lemma StatsStillDue(cur: Cursors, qs: seq<Peeks>, p: Peeks, e: string)
    requires p.sing.Some? && forall q | q in qs :: q.sing.None?
    ensures SingDue(CommitAll(cur, qs), p, e) == SingDue(cur, p, e)
  {
    ClashLeavesStats(cur, qs);
  }

  lemma BilledOneMore(cur: Cursors, qs: seq<Peeks>, p: Peeks, e: string)
    ensures SingBilled(cur, qs + [p], e) == Add(SingBilled(cur, qs, e), SingDue(CommitAll(cur, qs), p, e))
  {
    assert (qs + [p])[..|qs|] == qs;
  }

  /** From clash back to the stats query: whatever clash billed in between is still due, so a
      user is billed what the stats query alone would have billed exactly when clash billed
      that user nothing. */
  lemma HandoverFromClashIff(cur: Cursors, qs: seq<Peeks>, p: Peeks, e: string)
    requires p.sing.Some? && forall q | q in qs :: q.sing.None?
    ensures SingBilled(cur, qs + [p], e) == SingDue(cur, p, e) <==> Silent(SingBilled(cur, qs, e))
  {
    StatsStillDue(cur, qs, p, e);
    BilledOneMore(cur, qs, p, e);
    AddIsSecondIff(SingBilled(cur, qs, e), SingDue(cur, p, e));
  }

  /** A run in which clash and then the stats query bill the same bytes. */
  lemma HandoverFromClashDoubles(e: string, n: nat)
    requires e != ""
    ensures var c2 := Commit(Commit(FRESH, StatsOnly(e, 0)), ClashOnly(e, 0));
      SingDue(c2, ClashOnly(e, n), e) == Pair(n, 0) &&
        SingDue(Commit(c2, ClashOnly(e, n)), StatsOnly(e, n), e) == Pair(n, 0)
  {
    var c1 := Commit(FRESH, StatsOnly(e, 0));
    OneReading(e, 0, map[]);
    assert c1.sing == map[e := Pair(0, 0)];
    OneReading(e, n, c1.sing);
    var c2 := Commit(c1, ClashOnly(e, 0));
    OneReading(e, n, c2.clash);
  }
}
