/**
 Billing of WireGuard customers from cumulative kernel counters
 (internal/server/wgacct.go): one peer reading becomes bytes to bill, a frame of
 readings becomes one database batch, and the cursors follow the batch.
 */
module Metering {

  import opened Options

  type ClientId = int
  type UserId = int

  datatype Pair = Pair(up: int, down: int) {
    function Plus(o: Pair): Pair { Pair(up + o.up, down + o.down) }
  }

  const ZERO := Pair(0, 0)

  function Max(a: int, b: int): int { if a < b then b else a }

  // ---- One reading -------------------------------------------------------

  /** The last kernel reading billed for one client; it lives in panel memory only. */
  datatype Cursor = Cursor(rx: int, tx: int, have: bool, pendingReset: bool, pendingRx: int, pendingTx: int)

  const NO_CURSOR := Cursor(0, 0, false, false, 0, 0)

  function Seen(rx: int, tx: int): Cursor { Cursor(rx, tx, true, false, 0, 0) }

  datatype Outcome = Outcome(next: Cursor, up: int, down: int, live: bool)

  function Gap(kernel: int, billed: int): int {
    if kernel <= 0 || billed < 0 || kernel <= billed then 0 else kernel - billed
  }

  /** A second low reading that is no larger than the first, in both directions. */
  predicate Confirms(cur: Cursor, rx: int, tx: int) {
    (rx < cur.rx || tx < cur.tx) && cur.pendingReset && rx <= cur.pendingRx && tx <= cur.pendingTx
  }

  function Step(cur: Cursor, rx: int, tx: int, catchUp: int, catchDown: int): Outcome {
    if rx < 0 || tx < 0 then Outcome(cur, 0, 0, false)
    else if !cur.have then Outcome(Seen(rx, tx), Max(catchUp, 0), Max(catchDown, 0), false)
    else
      var rxDrop := rx < cur.rx;
      var txDrop := tx < cur.tx;
      if rxDrop || txDrop then
        if cur.pendingReset && rx <= cur.pendingRx && tx <= cur.pendingTx then Outcome(Seen(rx, tx), 0, 0, false)
        else
          var up := if !rxDrop && rx > cur.rx then rx - cur.rx else 0;
          var down := if !txDrop && tx > cur.tx then tx - cur.tx else 0;
          var next := cur.(pendingReset := true, pendingRx := rx, pendingTx := tx,
                           rx := if !rxDrop && rx > cur.rx then rx else cur.rx,
                           tx := if !txDrop && tx > cur.tx then tx else cur.tx);
          Outcome(next, up, down, up > 0 || down > 0)
      else
        var up := rx - cur.rx;
        var down := tx - cur.tx;
        Outcome(Seen(rx, tx), up, down, up > 0 || down > 0)
  }

  /** Rates are a finite positive number or something the panel must refuse. */
  datatype Multiplier = Finite(m: real) | NotFinite

  datatype Billed = Rejected | Bytes(n: int)

  const MAX_SAMPLE: int := 0x100_0000_0000
  const INT64_LIMIT: real := 9223372036854775808.0

  function Capped(m: real): real { if m > 1000.0 then 1000.0 else m }

  function Times(r: real, c: real): real { r * c }

  function Product(n: int, c: real): real { Times(n as real, c) }

  function BillBytes(n: int, mult: Multiplier): (b: Billed)
    ensures b.Rejected? <==> n < 0 || n > MAX_SAMPLE || (n > 0 && (mult.NotFinite? || mult.m <= 0.0))
    ensures b.Bytes? && n > 0 ==> b.n as real <= Product(n, Capped(mult.m)) < b.n as real + 1.0
    ensures b.Bytes? && n > 0 && mult.m >= 1.0 ==> n <= b.n
  {
    if n < 0 || n > MAX_SAMPLE then Rejected
    else if n == 0 then Bytes(0)
    else if mult.NotFinite? || mult.m <= 0.0 then Rejected
    else
      var c := Capped(mult.m);
      var prod := Product(n, c);
      ProductFits(n, c);
      FloorBounds(n, prod);
      if prod < 0.0 || prod >= INT64_LIMIT then Rejected else Bytes(prod.Floor)
  }

  lemma FloorBounds(n: int, x: real)
    ensures x.Floor as real <= x < x.Floor as real + 1.0
    ensures n as real <= x ==> n <= x.Floor
  {
    if x.Floor < n { assert (x.Floor + 1) as real <= n as real; }
  }

  lemma ProductFits(n: int, c: real)
    requires 0 <= n <= MAX_SAMPLE && 0.0 < c <= 1000.0
    ensures 0.0 <= Product(n, c) < INT64_LIMIT
    ensures c >= 1.0 ==> n as real <= Product(n, c)
  {
    TimesFits(n as real, c);
  }

  lemma TimesFits(r: real, c: real)
    requires 0.0 <= r <= 1099511627776.0 && 0.0 < c <= 1000.0
    ensures 0.0 <= Times(r, c) < INT64_LIMIT
    ensures c >= 1.0 ==> r <= Times(r, c)
  {
    NotNegative(r, c);
    NotNegative(r, 1000.0 - c);
    assert Times(r, 1000.0 - c) == 1000.0 * r - Times(r, c);
    if c >= 1.0 {
      NotNegative(r, c - 1.0);
      assert Times(r, c - 1.0) == Times(r, c) - r;
    }
  }

  lemma NotNegative(r: real, c: real)
    requires 0.0 <= r && 0.0 <= c
    ensures 0.0 <= Times(r, c)
  {
  }

  /** What the database answers about one client while a frame is being processed. */
  datatype Answer = Answer(totals: bool, user: bool, mult: Multiplier)

  /** One client: its cursor in memory, and its raw total in the daily traffic table. */
  datatype Meter = Meter(cur: Cursor, raw: Pair)

  datatype Verdict =
    | Ignore
    | Keep(next: Cursor)
    | Write(next: Cursor, raw: Pair, billed: Pair)

  function StepFor(m: Meter, rx: int, tx: int, a: Answer): Outcome {
    var catchUp := if !m.cur.have && a.totals then Gap(rx, m.raw.up) else 0;
    var catchDown := if !m.cur.have && a.totals then Gap(tx, m.raw.down) else 0;
    Step(m.cur, rx, tx, catchUp, catchDown)
  }

  /** What becomes of a bill, once the step has produced it. */
  function Price(o: Outcome, a: Answer): Verdict {
    if o.up == 0 && o.down == 0 then Keep(o.next)
    else if !a.user then Ignore
    else
      var upB := BillBytes(o.up, a.mult);
      var downB := BillBytes(o.down, a.mult);
      if upB.Rejected? || downB.Rejected? then Keep(o.next)
      else if upB.n != 0 || downB.n != 0 then Write(o.next, Pair(o.up, o.down), Pair(upB.n, downB.n))
      else Keep(o.next)
  }

  function Judge(m: Meter, rx: int, tx: int, a: Answer): Verdict {
    var o := StepFor(m, rx, tx, a);
    if o.up == 0 && o.down == 0 && o.next == m.cur then Ignore else Price(o, a)
  }

  /** Database first, cursor second: a failed batch leaves both as they were. */
  function Settle(m: Meter, v: Verdict, committed: bool): Meter {
    if !committed then m
    else match v
      case Ignore => m
      case Keep(next) => m.(cur := next)
      case Write(next, raw, _) => Meter(next, m.raw.Plus(raw))
  }

  // ---- Runs of one client ------------------------------------------------

  /** What can happen to one client between two looks at its account. Unseen is a reading
      whose frame never reached the panel. Sampled is a frame in which the peer found no client
      while an email sample of the client was booked. */
  datatype Event =
    | Frame(rx: int, tx: int, answer: Answer, committed: bool)
    | Unseen(rx: int, tx: int)
    | Sampled(up: nat, down: nat)
    | Restart

  /** True traffic is the sum of the positive increments of the readings, from zero; sampled
      is what email samples booked. */
  datatype World = World(meter: Meter, last: Pair, truth: Pair, sampled: Pair)

  const START := World(Meter(NO_CURSOR, ZERO), ZERO, ZERO, ZERO)

  function Observe(w: World, rx: int, tx: int): World {
    if rx < 0 || tx < 0 then w
    else w.(last := Pair(rx, tx), truth := w.truth.Plus(Pair(Max(0, rx - w.last.up), Max(0, tx - w.last.down))))
  }

  function Advance(w: World, e: Event): World {
    match e
    case Restart => w.(meter := w.meter.(cur := NO_CURSOR))
    case Unseen(rx, tx) => Observe(w, rx, tx)
    case Sampled(up, down) =>
      w.(meter := w.meter.(raw := w.meter.raw.Plus(Pair(up, down))), sampled := w.sampled.Plus(Pair(up, down)))
    case Frame(rx, tx, a, committed) =>
      Observe(w, rx, tx).(meter := Settle(w.meter, Judge(w.meter, rx, tx, a), committed))
  }

  function Run(w: World, es: seq<Event>): World
    decreases |es|
  {
    if es == [] then w else Advance(Run(w, es[..|es| - 1]), es[|es| - 1])
  }

  lemma OneMore(w: World, es: seq<Event>, e: Event)
    ensures Run(w, es + [e]) == Advance(Run(w, es), e)
  {
    assert (es + [e])[..|es|] == es;
  }

  predicate NeverOver(w: World) {
    && 0 <= w.last.up <= w.truth.up && 0 <= w.last.down <= w.truth.down
    && 0 <= w.meter.raw.up && 0 <= w.meter.raw.down
    && (w.meter.cur.have ==> 0 <= w.meter.cur.rx && 0 <= w.meter.cur.tx)
    && 0 <= w.sampled.up && 0 <= w.sampled.down
    && w.meter.raw.up + (if w.meter.cur.have then Max(0, w.last.up - w.meter.cur.rx) else 0)
         <= w.truth.up + w.sampled.up
    && w.meter.raw.down + (if w.meter.cur.have then Max(0, w.last.down - w.meter.cur.tx) else 0)
         <= w.truth.down + w.sampled.down
  }

  lemma AdvanceKeepsNeverOver(w: World, e: Event)
    requires NeverOver(w)
    ensures NeverOver(Advance(w, e))
  {
  }

  /** Resets, lost frames, failed writes, refused samples, restarts and booked samples, in any
      order: the stored raw bytes never exceed the true traffic and the sampled bytes. */
  lemma {:induction false} NeverOverbills(es: seq<Event>)
    ensures NeverOver(Run(START, es))
    ensures var w := Run(START, es);
      w.meter.raw.up <= w.truth.up + w.sampled.up && w.meter.raw.down <= w.truth.down + w.sampled.down
    decreases |es|
  {
    if es != [] {
      NeverOverbills(es[..|es| - 1]);
      AdvanceKeepsNeverOver(Run(START, es[..|es| - 1]), es[|es| - 1]);
    }
  }

  predicate PeersOnly(es: seq<Event>) { forall i | 0 <= i < |es| :: !es[i].Sampled? }

  lemma {:induction false} NothingSampled(es: seq<Event>)
    requires PeersOnly(es)
    ensures Run(START, es).sampled.up == 0 && Run(START, es).sampled.down == 0
    decreases |es|
  {
    if es != [] { NothingSampled(es[..|es| - 1]); }
  }

  /** A client billed from its peer alone never pays for more than the true traffic. */
  lemma PeerBillingNeverOver(es: seq<Event>)
    requires PeersOnly(es)
    ensures Run(START, es).meter.raw.up <= Run(START, es).truth.up
    ensures Run(START, es).meter.raw.down <= Run(START, es).truth.down
  {
    NeverOverbills(es);
    NothingSampled(es);
  }

  // ---- An unbroken kernel session -----------------------------------------

  /** The account could be read, and so could the rate, if the user could. */
  predicate Sound(a: Answer) { a.totals && (a.user ==> a.mult.Finite? && a.mult.m >= 1.0) }

  /** Up to where the client is billed by its peer: the cursor, or the account without one. */
  function BilledTo(m: Meter): Pair { if m.cur.have then Pair(m.cur.rx, m.cur.tx) else m.raw }

  /** Readings of one kernel session never decrease, and what is still to be billed stays within
      the sample limit. Panels restart and samples are booked at any time. */
  predicate Smooth(w: World, e: Event) {
    match e
    case Restart | Sampled(_, _) => true
    case Unseen(rx, tx) => w.last.up <= rx && w.last.down <= tx
    case Frame(rx, tx, a, _) =>
      && w.last.up <= rx && w.last.down <= tx && Sound(a)
      && rx - BilledTo(w.meter).up <= MAX_SAMPLE && tx - BilledTo(w.meter).down <= MAX_SAMPLE
  }

  predicate AllSmooth(w: World, es: seq<Event>)
    decreases |es|
  {
    es == [] || (AllSmooth(w, es[..|es| - 1]) && Smooth(Run(w, es[..|es| - 1]), es[|es| - 1]))
  }

  /** What the events alone say: whether the panel holds a cursor, the last reading billed, and
      how far the account is over it. */
  datatype Ledger = Ledger(held: bool, base: Pair, over: Pair)

  function Past(a: Pair, b: Pair): Pair { Pair(Max(0, a.up - b.up), Max(0, a.down - b.down)) }

  predicate Reaches(a: Pair, b: Pair) { b.up <= a.up && b.down <= a.down }

  /** Samples add to the surplus. A frame under a cursor keeps it; one without a cursor is billed
      only where it is past the account, which takes the surplus back as far. */
  function Noted(l: Ledger, e: Event): Ledger {
    match e
    case Restart => l.(held := false)
    case Unseen(_, _) => l
    case Sampled(up, down) => l.(over := l.over.Plus(Pair(up, down)))
    case Frame(rx, tx, a, committed) =>
      var r, total := Pair(rx, tx), l.base.Plus(l.over);
      if !committed then l
      else if l.held then (if a.user then l.(base := r) else l)
      else if a.user || Reaches(total, r) then Ledger(true, r, Past(total, r))
      else l
  }

  function LedgerOf(es: seq<Event>): Ledger
    decreases |es|
  {
    if es == [] then Ledger(false, ZERO, ZERO) else Noted(LedgerOf(es[..|es| - 1]), es[|es| - 1])
  }

  predicate InStep(w: World, l: Ledger) {
    && w.meter.raw == l.base.Plus(l.over) && w.meter.cur.have == l.held
    && (l.held ==> w.meter.cur == Seen(l.base.up, l.base.down))
    && Reaches(w.last, l.base) && Reaches(l.base, ZERO) && Reaches(l.over, ZERO)
  }

  /** After a successful frame the account is the reading and the surplus there was: what it was
      over the cursor, or, without one, over the reading. */
  lemma SmoothFrame(w: World, l: Ledger, e: Event)
    requires InStep(w, l) && Smooth(w, e)
    ensures InStep(Advance(w, e), Noted(l, e))
    ensures e.Frame? && e.committed && e.answer.user ==>
      Advance(w, e).meter.raw == Pair(e.rx, e.tx).Plus(if w.meter.cur.have then l.over else
        Past(w.meter.raw, Pair(e.rx, e.tx)))
  {
  }

  lemma {:induction false} SmoothRunInStep(es: seq<Event>)
    requires AllSmooth(START, es)
    ensures InStep(Run(START, es), LedgerOf(es))
    decreases |es|
  {
    if es != [] {
      SmoothRunInStep(es[..|es| - 1]);
      SmoothFrame(Run(START, es[..|es| - 1]), LedgerOf(es[..|es| - 1]), es[|es| - 1]);
    }
  }

  predicate Succeeds(e: Event) { e.Frame? && e.committed && e.answer.user }

  /** Over frames, samples, failures and restarts in any order: after a successful frame the
      account is the kernel reading and the surplus, so it is the reading exactly when there is
      none. */
  lemma AccountIsReadingAndSurplus(es: seq<Event>)
    requires es != [] && AllSmooth(START, es) && Succeeds(es[|es| - 1])
    ensures var e, raw := es[|es| - 1], Run(START, es).meter.raw;
      raw == Pair(e.rx, e.tx).Plus(LedgerOf(es).over) && (raw == Pair(e.rx, e.tx) <==> LedgerOf(es).over == ZERO)
  {
    SmoothRunInStep(es);
    NowReads(es);
    OnlyWithoutSurplus(Run(START, es), LedgerOf(es));
  }

  lemma NowReads(es: seq<Event>)
    requires es != [] && Succeeds(es[|es| - 1])
    ensures LedgerOf(es).base == Pair(es[|es| - 1].rx, es[|es| - 1].tx)
  {
  }

  lemma OnlyWithoutSurplus(w: World, l: Ledger)
    requires InStep(w, l)
    ensures w.meter.raw == l.base.Plus(l.over) && (w.meter.raw == l.base <==> l.over == ZERO)
  {
  }

  lemma {:induction false} NoSurplus(es: seq<Event>)
    requires AllSmooth(START, es) && PeersOnly(es)
    ensures LedgerOf(es).over == ZERO
    decreases |es|
  {
    if es != [] {
      NoSurplus(es[..|es| - 1]);
      SmoothRunInStep(es[..|es| - 1]);
    }
  }

  /** Without samples the account equals the kernel reading after every successful frame,
      whatever writes failed, frames were lost and panels restarted before it. */
  lemma SessionBilledExactly(es: seq<Event>)
    requires es != [] && AllSmooth(START, es) && PeersOnly(es) && Succeeds(es[|es| - 1])
    ensures var e := es[|es| - 1]; Run(START, es).meter.raw == Pair(e.rx, e.tx)
  {
    AccountIsReadingAndSurplus(es);
    NoSurplus(es);
  }

  /** Samples are booked only while a cursor is held, and it is never lost. */
  predicate Beside(es: seq<Event>)
    decreases |es|
  {
    es == [] ||
    var e, before := es[|es| - 1], es[..|es| - 1];
    Beside(before) && !e.Restart? && (e.Sampled? ==> LedgerOf(before).held)
  }

  lemma {:induction false} SurplusIsSampled(es: seq<Event>)
    requires AllSmooth(START, es) && Beside(es)
    ensures LedgerOf(es).over == Run(START, es).sampled
    ensures !LedgerOf(es).held ==> LedgerOf(es).base == ZERO && LedgerOf(es).over == ZERO
    decreases |es|
  {
    if es != [] {
      SurplusIsSampled(es[..|es| - 1]);
      SmoothRunInStep(es[..|es| - 1]);
    }
  }

  /** Then what is sampled is billed a second time by the next peer reading, to the byte. */
  lemma SampledIsBilledTwice(es: seq<Event>)
    requires es != [] && AllSmooth(START, es) && Beside(es) && Succeeds(es[|es| - 1])
    ensures var e, w := es[|es| - 1], Run(START, es); w.meter.raw == Pair(e.rx, e.tx).Plus(w.sampled)
  {
    AccountIsReadingAndSurplus(es);
    SurplusIsSampled(es);
  }

  /** A restart takes the surplus back as far as the counter has grown past it: the next
      successful frame leaves the larger of account and reading. */
  lemma RestartTakesBack(es: seq<Event>, e: Event)
    requires AllSmooth(START, es) && Smooth(Run(START, es + [Restart]), e) && Succeeds(e)
    ensures var before, after := Run(START, es).meter.raw, Run(START, es + [Restart] + [e]).meter.raw;
      after == Pair(Max(before.up, e.rx), Max(before.down, e.tx))
  {
    OneMore(START, es, Restart);
    OneMore(START, es + [Restart], e);
    SmoothRunInStep(es);
    RestartThenFrame(Run(START, es), LedgerOf(es), e);
  }

  lemma RestartThenFrame(w: World, l: Ledger, e: Event)
    requires InStep(w, l) && Smooth(Advance(w, Restart), e) && Succeeds(e)
    ensures Advance(Advance(w, Restart), e).meter.raw ==
            Pair(Max(w.meter.raw.up, e.rx), Max(w.meter.raw.down, e.tx))
  {
    SmoothFrame(Advance(w, Restart), Noted(l, Restart), e);
  }

  // ---- What a drop costs -----------------------------------------------------

  /** Every byte that moves the cursor up is billed; only a confirmed reset moves it
      down, and that move is free. */
  lemma CursorLedger(cur: Cursor, rx: int, tx: int, cu: int, cd: int)
    requires cur.have && rx >= 0 && tx >= 0
    ensures var o := Step(cur, rx, tx, cu, cd);
      && o.next.have
      && (Confirms(cur, rx, tx) <==> o.next.rx < cur.rx || o.next.tx < cur.tx)
      && (Confirms(cur, rx, tx) ==> o.next == Seen(rx, tx) && o.up == 0 && o.down == 0)
      && (!Confirms(cur, rx, tx) ==>
            && o.next.rx == Max(cur.rx, rx) && o.up == o.next.rx - cur.rx
            && o.next.tx == Max(cur.tx, tx) && o.down == o.next.tx - cur.tx)
  {
  }

  /** Readings that arrive and commit one after the other, without a restart. */
  function Feed(cur: Cursor, rs: seq<Pair>): Outcome
    decreases |rs|
  {
    if rs == [] then Outcome(cur, 0, 0, false)
    else
      var before := Feed(cur, rs[..|rs| - 1]);
      var r := rs[|rs| - 1];
      var o := Step(before.next, r.up, r.down, 0, 0);
      Outcome(o.next, before.up + o.up, before.down + o.down, o.live)
  }

  predicate NoConfirm(cur: Cursor, rs: seq<Pair>)
    decreases |rs|
  {
    rs == [] ||
    (NoConfirm(cur, rs[..|rs| - 1]) &&
     !Confirms(Feed(cur, rs[..|rs| - 1]).next, rs[|rs| - 1].up, rs[|rs| - 1].down))
  }

  predicate Readings(rs: seq<Pair>) { forall i | 0 <= i < |rs| :: rs[i].up >= 0 && rs[i].down >= 0 }

  function Peak(from: Pair, rs: seq<Pair>): Pair
    decreases |rs|
  {
    if rs == [] then from
    else
      var p := Peak(from, rs[..|rs| - 1]);
      Pair(Max(p.up, rs[|rs| - 1].up), Max(p.down, rs[|rs| - 1].down))
  }

  /** Until a reset is confirmed, what is billed is exactly how far the highest
      reading rises above the cursor: no byte twice, none below the mark. */
  lemma {:induction false} HighWaterMark(cur: Cursor, rs: seq<Pair>)
    requires cur.have && Readings(rs) && NoConfirm(cur, rs)
    ensures var o := Feed(cur, rs); var p := Peak(Pair(cur.rx, cur.tx), rs);
      o.next.have && o.next.rx == p.up && o.next.tx == p.down && o.up == p.up - cur.rx && o.down == p.down - cur.tx
    decreases |rs|
  {
    if rs != [] {
      var r := rs[|rs| - 1];
      HighWaterMark(cur, rs[..|rs| - 1]);
      CursorLedger(Feed(cur, rs[..|rs| - 1]).next, r.up, r.down, 0, 0);
    }
  }

  /** One isolated low reading neither loses nor doubles a byte. */
  lemma IsolatedDip(cur: Cursor, low: Pair, back: Pair)
    requires cur.have && !cur.pendingReset && Readings([low, back])
    requires low.up < cur.rx || low.down < cur.tx
    requires cur.rx <= back.up && cur.tx <= back.down && low.up <= back.up && low.down <= back.down
    ensures var o := Feed(cur, [low, back]);
      o.next == Seen(back.up, back.down) && o.up == back.up - cur.rx && o.down == back.down - cur.tx
  {
    var one := [low];
    assert [low, back][..1] == one && one[..0] == [];
    assert Feed(cur, one).next == Step(cur, low.up, low.down, 0, 0).next;
  }

  /** Reading i is below the highest before it, in some direction. */
  predicate Low(from: Pair, rs: seq<Pair>, i: nat)
    requires i < |rs|
  {
    var p := Peak(from, rs[..i]);
    rs[i].up < p.up || rs[i].down < p.down
  }

  /** Two low readings in a row, the second no larger than the first. */
  predicate Repeats(from: Pair, rs: seq<Pair>, i: nat)
    requires 0 < i < |rs|
  {
    Low(from, rs, i - 1) && Low(from, rs, i) && rs[i].up <= rs[i - 1].up && rs[i].down <= rs[i - 1].down
  }

  predicate AnyRepeats(from: Pair, rs: seq<Pair>) { exists i: nat | 0 < i < |rs| :: Repeats(from, rs, i) }

  lemma PrefixRepeats(from: Pair, rs: seq<Pair>, n: nat)
    requires n + 1 == |rs|
    ensures AnyRepeats(from, rs) <==> AnyRepeats(from, rs[..n]) || (n > 0 && Repeats(from, rs, n))
    ensures n > 0 ==> (Low(from, rs[..n], n - 1) <==> Low(from, rs, n - 1))
  {
    forall i: nat | i < n
      ensures Low(from, rs[..n], i) <==> Low(from, rs, i)
    {
      assert rs[..n][..i] == rs[..i];
    }
    forall i: nat | 0 < i < n
      ensures Repeats(from, rs[..n], i) <==> Repeats(from, rs, i)
    {
      assert rs[..n][i] == rs[i] && rs[..n][i - 1] == rs[i - 1];
    }
    if AnyRepeats(from, rs[..n]) {
      var i: nat :| 0 < i < n && Repeats(from, rs[..n], i);
      assert Repeats(from, rs, i);
    }
    if AnyRepeats(from, rs) {
      var i: nat :| 0 < i < |rs| && Repeats(from, rs, i);
      assert i == n || Repeats(from, rs[..n], i);
    }
  }

  /** The low reading that waits for its confirmation is the last one read. */
  predicate Waits(cur: Cursor, from: Pair, rs: seq<Pair>) {
    && (cur.pendingReset <==> rs != [] && Low(from, rs, |rs| - 1))
    && (cur.pendingReset ==> Pair(cur.pendingRx, cur.pendingTx) == rs[|rs| - 1])
  }

  lemma StepWaits(cur: Cursor, from: Pair, rs: seq<Pair>)
    requires cur.have && rs != [] && Readings(rs)
    requires var n := |rs| - 1;
      Waits(cur, from, rs[..n]) && Pair(cur.rx, cur.tx) == Peak(from, rs[..n]) &&
      (n > 0 ==> (Low(from, rs[..n], n - 1) <==> Low(from, rs, n - 1)))
    ensures var r := rs[|rs| - 1];
      && (Confirms(cur, r.up, r.down) <==> |rs| > 1 && Repeats(from, rs, |rs| - 1))
      && (!Confirms(cur, r.up, r.down) ==> Waits(Step(cur, r.up, r.down, 0, 0).next, from, rs))
  {
  }

  /** From the readings alone: a reset is confirmed exactly when somewhere two low readings
      follow each other and the second is no larger in either direction. */
  lemma {:induction false} ConfirmedIffRepeats(cur: Cursor, rs: seq<Pair>)
    requires cur.have && !cur.pendingReset && Readings(rs)
    ensures NoConfirm(cur, rs) <==> !AnyRepeats(Pair(cur.rx, cur.tx), rs)
    ensures NoConfirm(cur, rs) ==> Waits(Feed(cur, rs).next, Pair(cur.rx, cur.tx), rs)
    decreases |rs|
  {
    if rs != [] {
      var n, from := |rs| - 1, Pair(cur.rx, cur.tx);
      ConfirmedIffRepeats(cur, rs[..n]);
      PrefixRepeats(from, rs, n);
      if NoConfirm(cur, rs[..n]) {
        HighWaterMark(cur, rs[..n]);
        StepWaits(Feed(cur, rs[..n]).next, from, rs);
      }
    }
  }

  /** From the readings alone, the mark: the highest reading since the last confirmed reset, or
      the reading that confirmed it. */
  function Mark(from: Pair, rs: seq<Pair>): Pair
    decreases |rs|, 2
  {
    if rs == [] then from
    else
      var m, r := Mark(from, rs[..|rs| - 1]), rs[|rs| - 1];
      if LowTwice(from, rs) then r else Pair(Max(m.up, r.up), Max(m.down, r.down))
  }

  /** The last reading is below the mark, in some direction. */
  predicate BelowMark(from: Pair, rs: seq<Pair>)
    decreases |rs|, 0
  {
    rs != [] &&
    var m, r := Mark(from, rs[..|rs| - 1]), rs[|rs| - 1];
    r.up < m.up || r.down < m.down
  }

  /** The last reading confirms a reset: it is below the mark, so was the one before, which
      confirmed nothing itself, and it is no larger than that one. */
  predicate LowTwice(from: Pair, rs: seq<Pair>)
    decreases |rs|, 1
  {
    |rs| > 1 &&
    var before, r := rs[..|rs| - 1], rs[|rs| - 1];
    && BelowMark(from, rs) && BelowMark(from, before) && !LowTwice(from, before)
    && r.up <= before[|before| - 1].up && r.down <= before[|before| - 1].down
  }

  /** The cursor after any readings is their mark, and waits for the last one. */
  predicate AtMark(cur: Cursor, from: Pair, rs: seq<Pair>) {
    && cur.have && cur.rx == Mark(from, rs).up && cur.tx == Mark(from, rs).down
    && (cur.pendingReset <==> BelowMark(from, rs) && !LowTwice(from, rs))
    && (cur.pendingReset ==> Pair(cur.pendingRx, cur.pendingTx) == rs[|rs| - 1])
  }

  /** A step keeps the cursor at the mark and bills how far it rises; a confirmation bills
      nothing. */
  lemma StepToMark(cur: Cursor, from: Pair, rs: seq<Pair>)
    requires rs != [] && Readings(rs) && AtMark(cur, from, rs[..|rs| - 1])
    ensures var r, m, m' := rs[|rs| - 1], Mark(from, rs[..|rs| - 1]), Mark(from, rs);
      var o := Step(cur, r.up, r.down, 0, 0);
      && AtMark(o.next, from, rs)
      && (Confirms(cur, r.up, r.down) <==> LowTwice(from, rs))
      && Pair(o.up, o.down) == if LowTwice(from, rs) then ZERO else Pair(m'.up - m.up, m'.down - m.down)
  {
    var before, r := rs[..|rs| - 1], rs[|rs| - 1];
    assert BelowMark(from, rs) <==> r.up < cur.rx || r.down < cur.tx;
    assert LowTwice(from, rs) <==> Confirms(cur, r.up, r.down) by {
      if cur.pendingReset { assert Pair(cur.pendingRx, cur.pendingTx) == before[|before| - 1]; }
    }
    assert Mark(from, rs) == if LowTwice(from, rs) then r else Pair(Max(cur.rx, r.up), Max(cur.tx, r.down));
  }

  /** Over all readings, whatever they do: each reset is confirmed exactly where two readings
      below the mark follow each other and the second is no larger. */
  lemma {:induction false} ConfirmedExactly(cur: Cursor, rs: seq<Pair>)
    requires cur.have && !cur.pendingReset && Readings(rs)
    ensures AtMark(Feed(cur, rs).next, Pair(cur.rx, cur.tx), rs)
    ensures rs != [] ==>
      (Confirms(Feed(cur, rs[..|rs| - 1]).next, rs[|rs| - 1].up, rs[|rs| - 1].down) <==>
        LowTwice(Pair(cur.rx, cur.tx), rs))
    decreases |rs|
  {
    if rs != [] {
      ConfirmedExactly(cur, rs[..|rs| - 1]);
      StepToMark(Feed(cur, rs[..|rs| - 1]).next, Pair(cur.rx, cur.tx), rs);
    }
  }

  /** What the counter moved by: the sum of its rises. */
  function Moved(from: Pair, rs: seq<Pair>): Pair
    decreases |rs|
  {
    if rs == [] then from
    else
      var m, l, r := Moved(from, rs[..|rs| - 1]), Before(from, rs, |rs| - 1), rs[|rs| - 1];
      Pair(m.up + Max(0, r.up - l.up), m.down + Max(0, r.down - l.down))
  }

  function Before(from: Pair, rs: seq<Pair>, i: nat): Pair
    requires i < |rs|
  {
    if i == 0 then from else rs[i - 1]
  }

  /** Reading i rises from below the mark. */
  predicate ClimbsUp(from: Pair, rs: seq<Pair>, i: nat)
    requires i < |rs|
  {
    Before(from, rs, i).up < rs[i].up && Before(from, rs, i).up < Mark(from, rs[..i]).up
  }

  predicate ClimbsDown(from: Pair, rs: seq<Pair>, i: nat)
    requires i < |rs|
  {
    Before(from, rs, i).down < rs[i].down && Before(from, rs, i).down < Mark(from, rs[..i]).down
  }

  predicate NoClimbUp(from: Pair, rs: seq<Pair>) { forall i: nat | i < |rs| :: !ClimbsUp(from, rs, i) }

  predicate NoClimbDown(from: Pair, rs: seq<Pair>) { forall i: nat | i < |rs| :: !ClimbsDown(from, rs, i) }

  lemma PrefixClimbs(from: Pair, rs: seq<Pair>, n: nat)
    requires n + 1 == |rs|
    ensures NoClimbUp(from, rs) <==> NoClimbUp(from, rs[..n]) && !ClimbsUp(from, rs, n)
    ensures NoClimbDown(from, rs) <==> NoClimbDown(from, rs[..n]) && !ClimbsDown(from, rs, n)
  {
    forall i: nat | i < n
      ensures ClimbsUp(from, rs[..n], i) <==> ClimbsUp(from, rs, i)
      ensures ClimbsDown(from, rs[..n], i) <==> ClimbsDown(from, rs, i)
    {
      assert rs[..n][..i] == rs[..i] && Before(from, rs[..n], i) == Before(from, rs, i);
    }
  }

  /** What a reading is billed, by its mark. */
  function Rise(from: Pair, rs: seq<Pair>): Pair
    requires rs != []
  {
    var m, m' := Mark(from, rs[..|rs| - 1]), Mark(from, rs);
    if LowTwice(from, rs) then ZERO else Pair(m'.up - m.up, m'.down - m.down)
  }

  lemma RiseOrClimb(from: Pair, rs: seq<Pair>)
    requires rs != []
    requires var n := |rs| - 1; var l, m := Before(from, rs, n), Mark(from, rs[..n]); l.up <= m.up && l.down <= m.down
    ensures var n := |rs| - 1; var l, r, m := Before(from, rs, n), rs[n], Mark(from, rs);
      && (Rise(from, rs).up == Max(0, r.up - l.up) <==> !ClimbsUp(from, rs, n))
      && (Rise(from, rs).down == Max(0, r.down - l.down) <==> !ClimbsDown(from, rs, n))
      && Rise(from, rs).up <= Max(0, r.up - l.up) && Rise(from, rs).down <= Max(0, r.down - l.down)
      && r.up <= m.up && r.down <= m.down
  {
    assert |rs| > 1 ==> rs[..|rs| - 1][|rs| - 2] == rs[|rs| - 2];
  }

  /** Bytes are lost exactly when the counter rises from below its mark, and only ever lost: those
      bytes are never billed. A confirmation moves neither side, so by itself it costs nothing. */
  lemma {:induction false} LostIffClimbs(cur: Cursor, rs: seq<Pair>)
    requires cur.have && !cur.pendingReset && Readings(rs)
    ensures var from := Pair(cur.rx, cur.tx);
      var o, m := Feed(cur, rs), Moved(from, rs);
      && (o.up == m.up - cur.rx <==> NoClimbUp(from, rs)) && o.up <= m.up - cur.rx
      && (o.down == m.down - cur.tx <==> NoClimbDown(from, rs)) && o.down <= m.down - cur.tx
    ensures rs != [] ==>
      rs[|rs| - 1].up <= Mark(Pair(cur.rx, cur.tx), rs).up && rs[|rs| - 1].down <= Mark(Pair(cur.rx, cur.tx), rs).down
    decreases |rs|
  {
    if rs != [] {
      var n, from := |rs| - 1, Pair(cur.rx, cur.tx);
      LostIffClimbs(cur, rs[..n]);
      PrefixClimbs(from, rs, n);
      ConfirmedExactly(cur, rs[..n]);
      StepToMark(Feed(cur, rs[..n]).next, from, rs);
      RiseOrClimb(from, rs);
    }
  }

  predicate Growing(rs: seq<Pair>) {
    forall i | 0 < i < |rs| ::
      rs[i - 1].up <= rs[i].up && rs[i - 1].down <= rs[i].down && rs[i - 1] != rs[i]
  }

  /** Steady growth is one way never to be confirmed. */
  lemma GrowthDelaysConfirmation(cur: Cursor, rs: seq<Pair>)
    requires cur.have && !cur.pendingReset && Readings(rs) && Growing(rs)
    ensures NoConfirm(cur, rs)
  {
    var from := Pair(cur.rx, cur.tx);
    forall i: nat | 0 < i < |rs|
      ensures !Repeats(from, rs, i)
    {
      assert rs[i - 1] != rs[i];
    }
    ConfirmedIffRepeats(cur, rs);
  }

  /** After a kernel reset under a cursor, a session that grows with every frame is
      billed only above the old cursor: the bytes below it are never billed. */
  lemma ResetUnderGrowthIsLost(cur: Cursor, rs: seq<Pair>)
    requires cur.have && !cur.pendingReset && Readings(rs) && Growing(rs) && rs != []
    ensures var o := Feed(cur, rs); var end := rs[|rs| - 1];
      o.up == Max(0, end.up - cur.rx) && o.down == Max(0, end.down - cur.tx)
  {
    GrowthDelaysConfirmation(cur, rs);
    HighWaterMark(cur, rs);
    PeakOfGrowth(Pair(cur.rx, cur.tx), rs);
  }

  lemma {:induction false} PeakOfGrowth(from: Pair, rs: seq<Pair>)
    requires Growing(rs) && rs != []
    ensures Peak(from, rs) == Pair(Max(from.up, rs[|rs| - 1].up), Max(from.down, rs[|rs| - 1].down))
    decreases |rs|
  {
    if |rs| > 1 {
      PeakOfGrowth(from, rs[..|rs| - 1]);
      assert rs[|rs| - 2].up <= rs[|rs| - 1].up;
    } else {
      assert Peak(from, rs[..0]) == from;
    }
  }

  // ---- One frame of many clients ---------------------------------------------

  /** A peer already resolved to its client; the inbound is part of the client. */
  datatype Peer = Peer(client: ClientId, user: UserId, rx: int, tx: int)

  datatype Item = Item(client: ClientId, user: UserId, raw: Pair, billed: Pair)

  datatype Save = Save(client: ClientId, next: Cursor)

  /** What the frame decides for one peer. */
  datatype Ruling = Ruling(client: ClientId, user: UserId, v: Verdict)

  type Book = map<int, Pair>
  type Cursors = map<ClientId, Cursor>

  function CursorIn(cs: Cursors, c: ClientId): Cursor { if c in cs then cs[c] else NO_CURSOR }

  function TotalIn(b: Book, k: int): Pair { if k in b then b[k] else ZERO }

  function MeterIn(cs: Cursors, raw: Book, c: ClientId): Meter { Meter(CursorIn(cs, c), TotalIn(raw, c)) }

  predicate Distinct(rs: seq<Ruling>) {
    forall i, j | 0 <= i < j < |rs| :: rs[i].client != rs[j].client
  }

  function Rule(p: Peer, cs: Cursors, raw: Book, ask: ClientId -> Answer): Ruling {
    Ruling(p.client, p.user, Judge(MeterIn(cs, raw, p.client), p.rx, p.tx, ask(p.client)))
  }

  function Rulings(found: seq<Peer>, cs: Cursors, raw: Book, ask: ClientId -> Answer): (rs: seq<Ruling>)
    ensures |rs| == |found|
    ensures forall i | 0 <= i < |found| :: rs[i] == Rule(found[i], cs, raw, ask)
  {
    seq(|found|, i requires 0 <= i < |found| => Rule(found[i], cs, raw, ask))
  }

  lemma RuledFromSnapshot(found: seq<Peer>, snap: Cursors, cs: Cursors, raw: Book, ask: ClientId -> Answer, i: nat)
    requires i < |found| && CursorIn(snap, found[i].client) == CursorIn(cs, found[i].client)
    ensures Rule(found[i], snap, raw, ask) == Rulings(found, cs, raw, ask)[i]
  {
    assert MeterIn(snap, raw, found[i].client) == MeterIn(cs, raw, found[i].client);
  }

  function ItemOf(r: Ruling): seq<Item> {
    if r.v.Write? then [Item(r.client, r.user, r.v.raw, r.v.billed)] else []
  }

  function SaveOf(r: Ruling): seq<Save> {
    if r.v.Ignore? then [] else [Save(r.client, r.v.next)]
  }

  function Items(rs: seq<Ruling>): seq<Item> {
    if rs == [] then [] else ItemOf(rs[0]) + Items(rs[1..])
  }

  function Saves(rs: seq<Ruling>): seq<Save> {
    if rs == [] then [] else SaveOf(rs[0]) + Saves(rs[1..])
  }

  /** The client's raw total once the items are booked on top of it. */
  function RawAfter(total: Pair, items: seq<Item>, c: ClientId): Pair
    decreases |items|
  {
    if items == [] then total
    else RawAfter(if items[0].client == c then total.Plus(items[0].raw) else total, items[1..], c)
  }

  /** The user's quota counter once the items are booked on top of it. */
  function UsedAfter(total: Pair, items: seq<Item>, u: UserId): Pair
    decreases |items|
  {
    if items == [] then total
    else UsedAfter(if items[0].user == u then total.Plus(items[0].billed) else total, items[1..], u)
  }

  /** The last save for the client wins. */
  function CursorAfter(cur: Cursor, saves: seq<Save>, c: ClientId): Cursor
    decreases |saves|
  {
    if saves == [] then cur
    else CursorAfter(if saves[0].client == c then saves[0].next else cur, saves[1..], c)
  }

  lemma TakeOne(rs: seq<Ruling>, i: nat, items: seq<Item>, saves: seq<Save>)
    requires i < |rs|
    ensures items + Items(rs[i..]) == items + ItemOf(rs[i]) + Items(rs[i + 1..])
    ensures saves + Saves(rs[i..]) == saves + SaveOf(rs[i]) + Saves(rs[i + 1..])
  {
    assert rs[i..][1..] == rs[i + 1..];
    var x, y := ItemOf(rs[i]), Items(rs[i + 1..]);
    assert items + (x + y) == items + x + y;
    var t, u := SaveOf(rs[i]), Saves(rs[i + 1..]);
    assert saves + (t + u) == saves + t + u;
  }

  /** The first peer of a frame contributes at most one item and one save. */
  lemma Unfold(rs: seq<Ruling>, m: Meter, c: ClientId)
    requires rs != []
    ensures RawAfter(m.raw, Items(rs), c) ==
            RawAfter(if rs[0].client == c && rs[0].v.Write? then m.raw.Plus(rs[0].v.raw) else m.raw, Items(rs[1..]), c)
    ensures CursorAfter(m.cur, Saves(rs), c) ==
            CursorAfter(if rs[0].client == c && !rs[0].v.Ignore? then rs[0].v.next else m.cur, Saves(rs[1..]), c)
  {
    var items, saves := Items(rs[1..]), Saves(rs[1..]);
    assert [] + items == items && [] + saves == saves;
    if rs[0].v.Write? { assert (ItemOf(rs[0]) + items)[1..] == items; }
    if !rs[0].v.Ignore? { assert (SaveOf(rs[0]) + saves)[1..] == saves; }
  }

  lemma {:induction false} Untouched(rs: seq<Ruling>, m: Meter, c: ClientId)
    requires forall i | 0 <= i < |rs| :: rs[i].client != c
    ensures Meter(CursorAfter(m.cur, Saves(rs), c), RawAfter(m.raw, Items(rs), c)) == m
  {
    if rs != [] {
      Unfold(rs, m, c);
      Untouched(rs[1..], m, c);
    }
  }

  lemma {:induction false} Touched(rs: seq<Ruling>, m: Meter, i: nat)
    requires i < |rs| && Distinct(rs)
    ensures var c := rs[i].client;
      Meter(CursorAfter(m.cur, Saves(rs), c), RawAfter(m.raw, Items(rs), c)) == Settle(m, rs[i].v, true)
  {
    var c := rs[i].client;
    Unfold(rs, m, c);
    if i == 0 {
      Untouched(rs[1..], Settle(m, rs[0].v, true), c);
    } else {
      assert rs[0].client != rs[i].client;
      Touched(rs[1..], m, i - 1);
    }
  }

  lemma {:induction false} RawOfExtended(total: Pair, items: seq<Item>, it: Item, c: ClientId)
    ensures RawAfter(total, items + [it], c) ==
            RawAfter(RawAfter(total, items, c), [it], c)
    decreases |items|
  {
    if items != [] {
      assert (items + [it])[1..] == items[1..] + [it];
      RawOfExtended(if items[0].client == c then total.Plus(items[0].raw) else total, items[1..], it, c);
    } else {
      assert items + [it] == [it];
    }
  }

  lemma {:induction false} UsedOfExtended(total: Pair, items: seq<Item>, it: Item, u: UserId)
    ensures UsedAfter(total, items + [it], u) ==
            UsedAfter(UsedAfter(total, items, u), [it], u)
    decreases |items|
  {
    if items != [] {
      assert (items + [it])[1..] == items[1..] + [it];
      UsedOfExtended(if items[0].user == u then total.Plus(items[0].billed) else total, items[1..], it, u);
    } else {
      assert items + [it] == [it];
    }
  }

  /** after is before with every item booked. */
  ghost predicate Booked(before: Book, after: Book, items: seq<Item>) {
    forall c :: TotalIn(after, c) == RawAfter(TotalIn(before, c), items, c)
  }

  ghost predicate Charged(before: Book, after: Book, items: seq<Item>) {
    forall u :: TotalIn(after, u) == UsedAfter(TotalIn(before, u), items, u)
  }

  function AddTo(b: Book, k: int, p: Pair): Book { b[k := TotalIn(b, k).Plus(p)] }

  lemma BookOne(before: Book, book: Book, items: seq<Item>, it: Item)
    requires Booked(before, book, items)
    ensures Booked(before, AddTo(book, it.client, it.raw), items + [it])
    ensures it.raw == Pair(0, 0) ==> Booked(before, book, items + [it])
  {
    forall c
      ensures RawAfter(TotalIn(before, c), items + [it], c) ==
              if it.client == c then TotalIn(book, c).Plus(it.raw) else TotalIn(book, c)
    {
      RawOfExtended(TotalIn(before, c), items, it, c);
      assert TotalIn(book, c) == RawAfter(TotalIn(before, c), items, c);
    }
  }

  lemma ChargeOne(before: Book, book: Book, items: seq<Item>, it: Item)
    requires Charged(before, book, items)
    ensures Charged(before, AddTo(book, it.user, it.billed), items + [it])
    ensures it.billed == Pair(0, 0) ==> Charged(before, book, items + [it])
  {
    forall u
      ensures UsedAfter(TotalIn(before, u), items + [it], u) ==
              if it.user == u then TotalIn(book, u).Plus(it.billed) else TotalIn(book, u)
    {
      UsedOfExtended(TotalIn(before, u), items, it, u);
      assert TotalIn(book, u) == UsedAfter(TotalIn(before, u), items, u);
    }
  }

  /** The frame's bytes are booked and its cursors saved. */
  ghost predicate Stored(rs: seq<Ruling>, cs: Cursors, raw: Book, cs': Cursors, raw': Book) {
    && Booked(raw, raw', Items(rs))
    && forall c :: CursorIn(cs', c) == CursorAfter(CursorIn(cs, c), Saves(rs), c)
  }

  // ---- Two peers of one client ---------------------------------------------------------

  predicate Writes(r: Ruling, c: ClientId) { r.client == c && r.v.Write? }

  /** What the rulings of a frame write for a client, all together. */
  function WrittenUp(rs: seq<Ruling>, c: ClientId): int {
    if rs == [] then 0 else (if Writes(rs[0], c) then rs[0].v.raw.up else 0) + WrittenUp(rs[1..], c)
  }

  function WrittenDown(rs: seq<Ruling>, c: ClientId): int {
    if rs == [] then 0 else (if Writes(rs[0], c) then rs[0].v.raw.down else 0) + WrittenDown(rs[1..], c)
  }

  /** A booked frame raises a client's total by everything its peers write. */
  lemma {:induction false} BooksEveryRuling(m: Meter, rs: seq<Ruling>, c: ClientId)
    ensures RawAfter(m.raw, Items(rs), c).up == m.raw.up + WrittenUp(rs, c)
    ensures RawAfter(m.raw, Items(rs), c).down == m.raw.down + WrittenDown(rs, c)
    decreases |rs|
  {
    if rs != [] {
      Unfold(rs, m, c);
      BooksEveryRuling(if Writes(rs[0], c) then m.(raw := m.raw.Plus(rs[0].v.raw)) else m, rs[1..], c);
    }
  }

  /** A ruling writes only when there is something to write. */
  predicate Genuine(rs: seq<Ruling>) {
    forall i | 0 <= i < |rs| && rs[i].v.Write? ::
      rs[i].v.raw.up >= 0 && rs[i].v.raw.down >= 0 && rs[i].v.raw.up + rs[i].v.raw.down > 0
  }

  lemma JudgedIsGenuine(m: Meter, rx: int, tx: int, a: Answer)
    ensures var v := Judge(m, rx, tx, a);
      v.Write? ==> v.raw.up >= 0 && v.raw.down >= 0 && v.raw.up + v.raw.down > 0
  {
  }

  lemma {:induction false} SilentIff(rs: seq<Ruling>, c: ClientId)
    requires Genuine(rs)
    ensures WrittenUp(rs, c) >= 0 && WrittenDown(rs, c) >= 0
    ensures WrittenUp(rs, c) + WrittenDown(rs, c) == 0 <==> forall i | 0 <= i < |rs| :: !Writes(rs[i], c)
  {
    if rs != [] {
      SilentIff(rs[1..], c);
      if forall i | 0 <= i < |rs| :: !Writes(rs[i], c) {
        assert forall i | 0 <= i < |rs[1..]| :: rs[1..][i] == rs[i + 1];
      } else if !Writes(rs[0], c) {
        var i :| 0 <= i < |rs| && Writes(rs[i], c);
        assert rs[1..][i - 1] == rs[i];
      }
    }
  }

  lemma {:induction false} WrittenWithout(rs: seq<Ruling>, i: nat, c: ClientId)
    requires i < |rs|
    ensures var rest := rs[..i] + rs[i + 1..];
      && WrittenUp(rs, c) == WrittenUp(rest, c) + (if Writes(rs[i], c) then rs[i].v.raw.up else 0)
      && WrittenDown(rs, c) == WrittenDown(rest, c) + (if Writes(rs[i], c) then rs[i].v.raw.down else 0)
  {
    var rest := rs[..i] + rs[i + 1..];
    if i == 0 {
      assert rest == rs[1..];
    } else {
      WrittenWithout(rs[1..], i - 1, c);
      assert rest[1..] == rs[1..][..i - 1] + rs[1..][i..] && rest[0] == rs[0];
    }
  }

  /** The other peers of client c write nothing. */
  predicate OthersSilent(rs: seq<Ruling>, i: nat, c: ClientId)
    requires i < |rs|
  {
    forall k | 0 <= k < |rs| && k != i :: !Writes(rs[k], c)
  }

  lemma OthersSilentIff(rs: seq<Ruling>, i: nat, c: ClientId)
    requires i < |rs| && Genuine(rs)
    ensures var rest := rs[..i] + rs[i + 1..];
      OthersSilent(rs, i, c) <==> WrittenUp(rest, c) == 0 && WrittenDown(rest, c) == 0
  {
    var rest := rs[..i] + rs[i + 1..];
    assert Genuine(rest);
    SilentIff(rest, c);
    if OthersSilent(rs, i, c) {
      assert forall k | 0 <= k < |rest| :: !Writes(rest[k], c);
    } else {
      var k :| 0 <= k < |rs| && k != i && Writes(rs[k], c);
      assert rest[if k < i then k else k - 1] == rs[k];
    }
  }

  predicate Moves(r: Ruling, c: ClientId) { r.client == c && !r.v.Ignore? }

  /** Ruling k is the last of client c that saves a cursor. */
  predicate LastMove(rs: seq<Ruling>, k: nat, c: ClientId) {
    k < |rs| && Moves(rs[k], c) && forall j | k < j < |rs| :: !Moves(rs[j], c)
  }

  lemma {:induction false} NobodyMoves(rs: seq<Ruling>, m: Meter, c: ClientId)
    requires forall k | 0 <= k < |rs| :: !Moves(rs[k], c)
    ensures CursorAfter(m.cur, Saves(rs), c) == m.cur
    decreases |rs|
  {
    if rs != [] {
      assert !Moves(rs[0], c);
      Unfold(rs, m, c);
      NobodyMoves(rs[1..], m, c);
    }
  }

  lemma {:induction false} CursorIsLastMove(rs: seq<Ruling>, m: Meter, c: ClientId, k: nat)
    requires LastMove(rs, k, c)
    ensures CursorAfter(m.cur, Saves(rs), c) == rs[k].v.next
    decreases |rs|
  {
    Unfold(rs, m, c);
    if k == 0 {
      NobodyMoves(rs[1..], m.(cur := rs[0].v.next), c);
    } else {
      var m' := if Moves(rs[0], c) then m.(cur := rs[0].v.next) else m;
      CursorIsLastMove(rs[1..], m', c, k - 1);
    }
  }

  lemma {:induction false} SomeMovesLast(rs: seq<Ruling>, c: ClientId, i: nat) returns (k: nat)
    requires i < |rs| && Moves(rs[i], c)
    ensures LastMove(rs, k, c)
    decreases |rs| - i
  {
    if j: nat :| i < j < |rs| && Moves(rs[j], c) { k := SomeMovesLast(rs, c, j); } else { k := i; }
  }

  /** A saved cursor tells the reading it came from, and is never the one before. */
  lemma CursorTellsReading(m: Meter, a: Answer, rx: int, tx: int, rx': int, tx': int)
    ensures var v, v' := Judge(m, rx, tx, a), Judge(m, rx', tx', a);
      && (!v.Ignore? ==> v.next != m.cur)
      && (!v.Ignore? && !v'.Ignore? ==> (v.next == v'.next <==> rx == rx' && tx == tx'))
  {
  }

  predicate SameReading(p: Peer, q: Peer) { p.rx == q.rx && p.tx == q.tx }

  /** The last peer of i's client that saves a cursor reads what peer i does. */
  predicate LastReadsAs(found: seq<Peer>, rs: seq<Ruling>, i: nat)
    requires i < |found| == |rs|
  {
    forall k | 0 <= k < |rs| && LastMove(rs, k, rs[i].client) :: SameReading(found[k], found[i])
  }

  lemma CursorByOneIff(found: seq<Peer>, cs: Cursors, raw: Book, ask: ClientId -> Answer, i: nat)
    requires i < |found|
    ensures var rs := Rulings(found, cs, raw, ask);
      var m := MeterIn(cs, raw, rs[i].client);
      CursorAfter(m.cur, Saves(rs), rs[i].client) == Settle(m, rs[i].v, true).cur <==> LastReadsAs(found, rs, i)
  {
    var rs := Rulings(found, cs, raw, ask);
    var c := rs[i].client;
    var m, a := MeterIn(cs, raw, c), ask(c);
    if k: nat :| k < |rs| && LastMove(rs, k, c) {
      assert forall j: nat | LastMove(rs, j, c) :: j == k;
      CursorIsLastMove(rs, m, c, k);
      CursorTellsReading(m, a, found[k].rx, found[k].tx, found[i].rx, found[i].tx);
    } else if k :| 0 <= k < |rs| && Moves(rs[k], c) {
      var l := SomeMovesLast(rs, c, k);
      assert false;
    } else {
      NobodyMoves(rs, m, c);
    }
  }

  lemma RawByOneIff(found: seq<Peer>, cs: Cursors, raw: Book, ask: ClientId -> Answer, i: nat)
    requires i < |found|
    ensures var rs := Rulings(found, cs, raw, ask);
      var m := MeterIn(cs, raw, rs[i].client);
      RawAfter(m.raw, Items(rs), rs[i].client) == Settle(m, rs[i].v, true).raw <==> OthersSilent(rs, i, rs[i].client)
  {
    var rs := Rulings(found, cs, raw, ask);
    var c := rs[i].client;
    forall k | 0 <= k < |rs| && rs[k].v.Write?
      ensures rs[k].v.raw.up >= 0 && rs[k].v.raw.down >= 0 && rs[k].v.raw.up + rs[k].v.raw.down > 0
    {
      var p := found[k];
      JudgedIsGenuine(MeterIn(cs, raw, p.client), p.rx, p.tx, ask(p.client));
    }
    BooksEveryRuling(MeterIn(cs, raw, c), rs, c);
    WrittenWithout(rs, i, c);
    OthersSilentIff(rs, i, c);
  }

  /** A client of a committed frame is settled by one of its peers alone, account and cursor,
      exactly when none of its other peers writes and the last of them that saves a cursor has
      the same reading. */
  lemma SettledByOneIff(found: seq<Peer>, cs: Cursors, raw: Book, ask: ClientId -> Answer, cs': Cursors, raw': Book,
                        i: nat)
    requires i < |found| && Stored(Rulings(found, cs, raw, ask), cs, raw, cs', raw')
    ensures var rs := Rulings(found, cs, raw, ask);
      var c := rs[i].client;
      MeterIn(cs', raw', c) == Settle(MeterIn(cs, raw, c), rs[i].v, true) <==>
        OthersSilent(rs, i, c) && LastReadsAs(found, rs, i)
  {
    RawByOneIff(found, cs, raw, ask, i);
    CursorByOneIff(found, cs, raw, ask, i);
  }

  /** A peer that writes nothing can still take the cursor back: the next reading then bills 30
      bytes a second time. */
  lemma SilentPeerTakesCursorBack()
    ensures var found := [Peer(1, 7, 130, 100), Peer(1, 7, 90, 100)];
      var a := Answer(true, true, Finite(1.0));
      var m := Meter(Seen(100, 100), Pair(100, 100));
      var rs := Rulings(found, map[1 := m.cur], map[1 := m.raw], c => a);
      var after := Meter(CursorAfter(m.cur, Saves(rs), 1), RawAfter(m.raw, Items(rs), 1));
      && OthersSilent(rs, 0, 1) && !LastReadsAs(found, rs, 0)
      && after.raw == Pair(130, 100) && after.cur.rx == 100
      && Settle(after, Judge(after, 140, 100, a), true).raw == Pair(170, 100)
  {
    var found := [Peer(1, 7, 130, 100), Peer(1, 7, 90, 100)];
    var a := Answer(true, true, Finite(1.0));
    var m := Meter(Seen(100, 100), Pair(100, 100));
    var rs := Rulings(found, map[1 := m.cur], map[1 := m.raw], c => a);
    assert rs[0] == Rule(found[0], map[1 := m.cur], map[1 := m.raw], c => a);
    assert rs[1] == Rule(found[1], map[1 := m.cur], map[1 := m.raw], c => a);
    FirstBills(m, 130, 100);
    var low := m.cur.(pendingReset := true, pendingRx := 90, pendingTx := 100);
    assert rs[1].v == Keep(low);
    assert LastMove(rs, 1, 1);
    CursorIsLastMove(rs, m, 1, 1);
    Unfold(rs, m, 1);
    assert rs[1..] == [rs[1]];
    Unfold(rs[1..], m, 1);
    FirstBills(Meter(low, Pair(130, 100)), 140, 100);
  }

  /** At rate 1 a cursor at 100 bills what a higher reading is above it. */
  lemma FirstBills(m: Meter, rx: int, tx: int)
    requires m.cur.have && m.cur.rx == m.cur.tx == 100 && 100 < rx <= 200 && tx == 100
    ensures var v := Judge(m, rx, tx, Answer(true, true, Finite(1.0)));
      v.Write? && v.raw == Pair(rx - 100, 0) && v.next == Seen(rx, tx)
  {
    assert StepFor(m, rx, tx, Answer(true, true, Finite(1.0))) == Outcome(Seen(rx, tx), rx - 100, 0, true);
  }

  /** Two readings judged against the same snapshot of the cursor, as when two peers of
      one frame resolve to one client, bill the same bytes twice. */
  lemma SharedSnapshotDoubles()
    ensures var m := Meter(Seen(100, 100), Pair(100, 100));
      var v := Judge(m, 130, 100, Answer(true, true, Finite(1.0)));
      v.Write? && Settle(Settle(m, v, true), v, true).raw.up == 160
  {
    var m := Meter(Seen(100, 100), Pair(100, 100));
    assert StepFor(m, 130, 100, Answer(true, true, Finite(1.0))) == Outcome(Seen(130, 100), 30, 0, true);
  }

  // ---- Email samples beside the peers ------------------------------------------------

  /** What the agent counted under one name. */
  datatype Sample = Sample(name: string, bytes: Pair)

  /** The client a name leads to; here says its inbound is on the reporting machine, known
      that its user could be read. */
  datatype Owner = Owner(client: ClientId, user: UserId, email: string, here: bool, wireguard: bool, known: bool,
                         mult: Multiplier)

  /** The write one sample asks for. A WireGuard client billed from its peer is skipped. */
  function SampleItem(s: Sample, who: string -> Option<Owner>, skip: set<string>): seq<Item> {
    if s.name == "" || "relay." <= s.name || who(s.name).None? then []
    else
      var o, b := who(s.name).value, s.bytes;
      if b.up < 0 || b.down < 0 || (b.up == 0 && b.down == 0) || !o.here || (o.wireguard && o.email in skip) ||
        !o.known then []
      else
        var up, down := BillBytes(b.up, o.mult), BillBytes(b.down, o.mult);
        if up.Rejected? || down.Rejected? then [] else [Item(o.client, o.user, b, Pair(up.n, down.n))]
  }

  function SampleItems(samples: seq<Sample>, who: string -> Option<Owner>, skip: set<string>): seq<Item> {
    if samples == [] then []
    else SampleItems(samples[..|samples| - 1], who, skip) + SampleItem(samples[|samples| - 1], who, skip)
  }

  /** Every name that leads to client c is a WireGuard name that is skipped. */
  predicate Shielded(c: ClientId, samples: seq<Sample>, who: string -> Option<Owner>, skip: set<string>) {
    forall i | 0 <= i < |samples| ::
      var o := who(samples[i].name); o.Some? && o.value.client == c ==> o.value.wireguard && o.value.email in skip
  }

  /** What the rows of the database say: a name leads to a client with its own email and
      profile, whichever query asks. */
  ghost predicate RowsAgree(who: string -> Option<Owner>, emails: ClientId -> string, wireguard: ClientId -> bool) {
    forall name | who(name).Some? ::
      var o := who(name).value; o.email == emails(o.client) && o.wireguard == wireguard(o.client)
  }

  /** Peers are resolved to clients of WireGuard inbounds, and every client has an email. */
  predicate PeerRows(found: seq<Peer>, emails: ClientId -> string, wireguard: ClientId -> bool) {
    forall i | 0 <= i < |found| :: emails(found[i].client) != "" && wireguard(found[i].client)
  }

  /** So every client of the frame is shielded from its samples. */
  lemma PeersAreShielded(found: seq<Peer>, i: nat, emails: ClientId -> string, wireguard: ClientId -> bool,
                         samples: seq<Sample>, who: string -> Option<Owner>)
    requires i < |found| && RowsAgree(who, emails, wireguard) && PeerRows(found, emails, wireguard)
    ensures Shielded(found[i].client, samples, who, Matched(found, emails))
  {
    assert emails(found[i].client) in Matched(found, emails);
  }

  /** Samples add nothing to a client that is shielded from them. */
  lemma {:induction false} ShieldedGetsNothing(total: Pair, c: ClientId, samples: seq<Sample>,
                                               who: string -> Option<Owner>, skip: set<string>)
    requires Shielded(c, samples, who, skip)
    ensures RawAfter(total, SampleItems(samples, who, skip), c) == total
  {
    if samples != [] {
      var n := |samples| - 1;
      var before, more := SampleItems(samples[..n], who, skip), SampleItem(samples[n], who, skip);
      assert Shielded(c, samples[..n], who, skip) by { assert forall i | 0 <= i < n :: samples[..n][i] == samples[i]; }
      ShieldedGetsNothing(total, c, samples[..n], who, skip);
      if more == [] { assert before + more == before; } else { RawOfExtended(total, before, more[0], c); }
    }
  }

  class Hub {
    var cursors: Cursors
    var raw: Book
    var used: Book

    constructor ()
      ensures cursors == map[] && raw == map[] && used == map[]
    {
      cursors, raw, used := map[], map[], map[];
    }

    /** One transaction. failAt is the statement that fails, |items| being the commit. */
    method AddTrafficBatch(items: seq<Item>, failAt: int) returns (err: bool)
      modifies this`raw, this`used
      ensures err <==> items != [] && 0 <= failAt <= |items|
      ensures err ==> raw == old(raw) && used == old(used)
      ensures !err ==> Booked(old(raw), raw, items) && Charged(old(used), used, items)
    {
      if |items| == 0 { return false; }
      var txRaw, txUsed := raw, used;
      for i := 0 to |items|
        invariant raw == old(raw) && used == old(used)
        invariant !(0 <= failAt < i)
        invariant Booked(raw, txRaw, items[..i]) && Charged(used, txUsed, items[..i])
      {
        if i == failAt { return true; }
        var it := items[i];
        assert items[..i + 1] == items[..i] + [it];
        BookOne(raw, txRaw, items[..i], it);
        ChargeOne(used, txUsed, items[..i], it);
        if it.billed != Pair(0, 0) || it.raw != Pair(0, 0) {
          txUsed := AddTo(txUsed, it.user, it.billed);
          txRaw := AddTo(txRaw, it.client, it.raw);
        }
      }
      if failAt == |items| { return true; }
      assert items[..|items|] == items;
      raw, used := txRaw, txUsed;
      err := false;
    }

    method SaveCursors(saves: seq<Save>)
      modifies this`cursors
      ensures forall c :: CursorIn(cursors, c) == CursorAfter(CursorIn(old(cursors), c), saves, c)
    {
      for i := 0 to |saves|
        invariant forall c ::
          CursorAfter(CursorIn(cursors, c), saves[i..], c) == CursorAfter(CursorIn(old(cursors), c), saves, c)
      {
        assert saves[i..][1..] == saves[i + 1..];
        cursors := cursors[saves[i].client := saves[i].next];
      }
    }

    /** The cursors of this frame's clients, as they stand before it. */
    method Snapshot(found: seq<Peer>) returns (snap: Cursors)
      ensures forall j | 0 <= j < |found| :: CursorIn(snap, found[j].client) == CursorIn(cursors, found[j].client)
    {
      snap := map[];
      for i := 0 to |found|
        invariant forall c :: c in snap ==> snap[c] == CursorIn(cursors, c)
        invariant forall j | 0 <= j < i :: found[j].client in snap
      {
        snap := snap[found[i].client := CursorIn(cursors, found[i].client)];
      }
    }

    /** Every peer is judged against the snapshot; nothing is stored yet. */
    method JudgeFrame(found: seq<Peer>, ask: ClientId -> Answer) returns (items: seq<Item>, saves: seq<Save>)
      ensures items == Items(Rulings(found, cursors, raw, ask)) && saves == Saves(Rulings(found, cursors, raw, ask))
    {
      var snap := Snapshot(found);
      ghost var rs := Rulings(found, cursors, raw, ask);
      items, saves := [], [];
      for i := 0 to |found|
        invariant items + Items(rs[i..]) == Items(rs) && saves + Saves(rs[i..]) == Saves(rs)
      {
        var r := Rule(found[i], snap, raw, ask);
        RuledFromSnapshot(found, snap, cursors, raw, ask, i);
        TakeOne(rs, i, items, saves);
        items := items + ItemOf(r);
        saves := saves + SaveOf(r);
      }
      assert rs[|found|..] == [];
    }

    /** Snapshot, step, batch, then cursors (applyWGPeers after the peers are resolved). */
    method ApplyPeers(found: seq<Peer>, ask: ClientId -> Answer, failAt: int) returns (err: bool)
      modifies this
      ensures var rs := Rulings(found, old(cursors), old(raw), ask);
        && (err <==> Items(rs) != [] && 0 <= failAt <= |Items(rs)|)
        && FrameResult(rs, old(cursors), old(raw), cursors, raw, !err)
        && (!err ==> Stored(rs, old(cursors), old(raw), cursors, raw))
        && (if err then used == old(used) else Charged(old(used), used, Items(rs)))
    {
      ghost var rs := Rulings(found, cursors, raw, ask);
      var items, saves := JudgeFrame(found, ask);
      err := AddTrafficBatch(items, failAt);
      if err {
        assert FrameResult(rs, cursors, raw, cursors, raw, false);
        return;
      }
      SaveCursors(saves);
      FrameSettled(rs, old(cursors), old(raw), cursors, raw);
    }

    /** applySamples. */
    method ApplySamples(samples: seq<Sample>, who: string -> Option<Owner>, skip: set<string>, failAt: int)
      returns (err: bool)
      modifies this`raw, this`used
      ensures err ==> raw == old(raw) && used == old(used)
      ensures !err ==> Booked(old(raw), raw, SampleItems(samples, who, skip))
      ensures !err ==> Charged(old(used), used, SampleItems(samples, who, skip))
    {
      var items: seq<Item> := [];
      for i := 0 to |samples|
        invariant items == SampleItems(samples[..i], who, skip)
        invariant raw == old(raw) && used == old(used)
      {
        assert samples[..i + 1][..i] == samples[..i];
        items := items + SampleItem(samples[i], who, skip);
      }
      assert samples[..|samples|] == samples;
      err := AddTrafficBatch(items, failAt);
    }

    /** consumeStats: the peers of a frame, then its samples. A client with a peer in the frame
        is settled by that peer alone, whether or not either batch is written. */
    method ConsumeStats(found: seq<Peer>, emails: ClientId -> string, ghost wireguard: ClientId -> bool,
                        samples: seq<Sample>, ask: ClientId -> Answer, who: string -> Option<Owner>,
                        failPeers: int, failSamples: int)
      returns (peersErr: bool, samplesErr: bool)
      modifies this
      ensures var rs := Rulings(found, old(cursors), old(raw), ask);
        RowsAgree(who, emails, wireguard) && PeerRows(found, emails, wireguard) && Distinct(rs) ==>
          forall i | 0 <= i < |rs| ::
            MeterIn(cursors, raw, rs[i].client) ==
              Settle(MeterIn(old(cursors), old(raw), rs[i].client), rs[i].v, !peersErr)
      ensures StatsResult(Rulings(found, old(cursors), old(raw), ask), old(cursors), old(raw), cursors, raw,
                          samples, who, Matched(found, emails), !peersErr, !samplesErr)
    {
      ghost var rs := Rulings(found, cursors, raw, ask);
      peersErr := ApplyPeers(found, ask, failPeers);
      ghost var mid := raw;
      var skip := Matched(found, emails);
      samplesErr := ApplySamples(samples, who, skip, failSamples);
      PeersThenSamples(rs, old(cursors), old(raw), cursors, mid, raw, samples, who, skip, !peersErr, !samplesErr);
      if RowsAgree(who, emails, wireguard) && PeerRows(found, emails, wireguard) {
        forall i | 0 <= i < |rs|
          ensures Shielded(rs[i].client, samples, who, skip)
        {
          PeersAreShielded(found, i, emails, wireguard, samples, who);
        }
      }
    }

    /** The panel process restarts: the cursors are gone, the tables are not. */
    method Restart()
      modifies this`cursors
      ensures forall c :: MeterIn(cursors, raw, c) == Meter(NO_CURSOR, TotalIn(raw, c))
    {
      cursors := map[];
    }
  }

  /** The emails of the clients that had a peer. */
  function Matched(found: seq<Peer>, emails: ClientId -> string): set<string> {
    set i | 0 <= i < |found| && emails(found[i].client) != "" :: emails(found[i].client)
  }

  /** Each client of the frame is settled by its own ruling, all together or none; every
      other client is as it was. */
  ghost predicate FrameResult(rs: seq<Ruling>, cs: Cursors, raw: Book, cs': Cursors, raw': Book, committed: bool) {
    && (Distinct(rs) ==> forall i | 0 <= i < |rs| ::
          MeterIn(cs', raw', rs[i].client) == Settle(MeterIn(cs, raw, rs[i].client), rs[i].v, committed))
    && (forall c | (forall i | 0 <= i < |rs| :: rs[i].client != c) :: MeterIn(cs', raw', c) == MeterIn(cs, raw, c))
  }

  /** A client with a peer in the frame that is shielded from the samples is settled by its peer
      alone; any other client gets the samples and keeps its cursor. */
  ghost predicate StatsResult(rs: seq<Ruling>, cs: Cursors, raw: Book, cs': Cursors, raw': Book, samples: seq<Sample>,
                              who: string -> Option<Owner>, skip: set<string>, peersOk: bool, samplesOk: bool) {
    && (Distinct(rs) ==> forall i | 0 <= i < |rs| && Shielded(rs[i].client, samples, who, skip) ::
          MeterIn(cs', raw', rs[i].client) == Settle(MeterIn(cs, raw, rs[i].client), rs[i].v, peersOk))
    && (forall c | (forall i | 0 <= i < |rs| :: rs[i].client != c) ::
          && CursorIn(cs', c) == CursorIn(cs, c)
          && TotalIn(raw', c) == SampledTotal(TotalIn(raw, c), samples, who, skip, samplesOk, c))
  }

  function SampledTotal(total: Pair, samples: seq<Sample>, who: string -> Option<Owner>, skip: set<string>, ok: bool,
                        c: ClientId): Pair {
    if ok then RawAfter(total, SampleItems(samples, who, skip), c) else total
  }

  lemma PeersThenSamples(rs: seq<Ruling>, cs: Cursors, raw: Book, cs': Cursors, mid: Book, raw': Book,
                         samples: seq<Sample>,
                         who: string -> Option<Owner>, skip: set<string>, peersOk: bool, samplesOk: bool)
    requires FrameResult(rs, cs, raw, cs', mid, peersOk)
    requires if samplesOk then Booked(mid, raw', SampleItems(samples, who, skip)) else raw' == mid
    ensures StatsResult(rs, cs, raw, cs', raw', samples, who, skip, peersOk, samplesOk)
  {
    forall c
      ensures TotalIn(raw', c) == SampledTotal(TotalIn(mid, c), samples, who, skip, samplesOk, c)
    {
    }
    if Distinct(rs) {
      forall i | 0 <= i < |rs| && Shielded(rs[i].client, samples, who, skip)
        ensures MeterIn(cs', raw', rs[i].client) == MeterIn(cs', mid, rs[i].client)
      {
        ShieldedGetsNothing(TotalIn(mid, rs[i].client), rs[i].client, samples, who, skip);
      }
    }
    forall c | (forall i | 0 <= i < |rs| :: rs[i].client != c)
      ensures CursorIn(cs', c) == CursorIn(cs, c) && TotalIn(mid, c) == TotalIn(raw, c)
    {
      assert MeterIn(cs', mid, c) == MeterIn(cs, raw, c);
    }
  }

  lemma FrameSettled(rs: seq<Ruling>, cs: Cursors, raw: Book, cs': Cursors, raw': Book)
    requires Stored(rs, cs, raw, cs', raw')
    ensures FrameResult(rs, cs, raw, cs', raw', true)
  {
    if Distinct(rs) {
      forall i | 0 <= i < |rs|
        ensures MeterIn(cs', raw', rs[i].client) == Settle(MeterIn(cs, raw, rs[i].client), rs[i].v, true)
      {
        Touched(rs, MeterIn(cs, raw, rs[i].client), i);
      }
    }
    forall c | (forall i | 0 <= i < |rs| :: rs[i].client != c)
      ensures MeterIn(cs', raw', c) == MeterIn(cs, raw, c)
    {
      Untouched(rs, MeterIn(cs, raw, c), c);
    }
  }
}
