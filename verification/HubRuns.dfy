/**
 Whole runs of the hub (consumeStats in internal/server/hub.go, applyWGPeers in
 internal/server/wgacct.go): frames of many clients, lost frames and panel restarts, one after
 the other, and what they are for each single client.
 */
module HubRuns {

  import opened Options
  import opened Metering

  /** The hub's cursors and the raw totals of the database. */
  datatype Store = Store(cursors: Cursors, raw: Book) {
    function Meter(c: ClientId): Metering.Meter { MeterIn(cursors, raw, c) }
  }

  const NEW := Store(map[], map[])

  /** A frame of peers and samples with what the database answers about it, a frame that never
      reached the panel, or a restart. */
  datatype HubEvent =
    | Stats(found: seq<Peer>, samples: seq<Sample>, ask: ClientId -> Answer, who: string -> Option<Owner>,
            peersOk: bool, samplesOk: bool)
    | Lost(found: seq<Peer>)
    | Restarted

  /** What the rows say of every client: its email, and whether its inbound is a WireGuard one. */
  datatype Rows = Rows(emails: ClientId -> string, wireguard: ClientId -> bool)

  /** What Hub.ConsumeStats and Hub.Restart promise. */
  ghost predicate Follows(s: Store, e: HubEvent, s': Store, rows: Rows) {
    match e
    case Restarted => forall c :: s'.Meter(c) == Meter(NO_CURSOR, s.Meter(c).raw)
    case Lost(_) => s' == s
    case Stats(found, samples, ask, who, peersOk, samplesOk) =>
      StatsResult(Rulings(found, s.cursors, s.raw, ask), s.cursors, s.raw, s'.cursors, s'.raw, samples, who,
                  Matched(found, rows.emails), peersOk, samplesOk)
  }

  predicate OnePeerEach(found: seq<Peer>) {
    forall i, j | 0 <= i < j < |found| :: found[i].client != found[j].client
  }

  /** No client has two peers in a frame, and the rows agree with each other. */
  ghost predicate Fair(e: HubEvent, rows: Rows) {
    match e
    case Stats(found, _, _, who, _, _) =>
      OnePeerEach(found) && RowsAgree(who, rows.emails, rows.wireguard) && PeerRows(found, rows.emails, rows.wireguard)
    case _ => true
  }

  /** Store k is what the hub holds after the first k events. */
  ghost predicate HubRun(stores: seq<Store>, es: seq<HubEvent>, rows: Rows) {
    && |stores| == |es| + 1 && stores[0] == NEW
    && forall k | 0 <= k < |es| :: Fair(es[k], rows) && Follows(stores[k], es[k], stores[k + 1], rows)
  }

  // ---- What a run is for one client --------------------------------------------------------

  function PeerOf(found: seq<Peer>, c: ClientId): (i: Option<nat>)
    ensures i.Some? ==> i.value < |found| && found[i.value].client == c
    ensures i.None? ==> forall k | 0 <= k < |found| :: found[k].client != c
  {
    if found == [] then None
    else if found[|found| - 1].client == c then Some(|found| - 1)
    else PeerOf(found[..|found| - 1], c)
  }

  /** The bytes that samples book for a client. */
  function SampledBytes(samples: seq<Sample>, who: string -> Option<Owner>, skip: set<string>, c: ClientId): (p: Pair)
    ensures p.up >= 0 && p.down >= 0
  {
    if samples == [] then ZERO
    else
      var before, more := SampledBytes(samples[..|samples| - 1], who, skip, c),
        SampleItem(samples[|samples| - 1], who, skip);
      if more != [] && more[0].client == c then before.Plus(more[0].raw) else before
  }

  lemma {:induction false} SampledIsBooked(total: Pair, samples: seq<Sample>, who: string -> Option<Owner>,
                                           skip: set<string>, c: ClientId)
    ensures RawAfter(total, SampleItems(samples, who, skip), c) ==
            total.Plus(SampledBytes(samples, who, skip, c))
  {
    if samples != [] {
      var n := |samples| - 1;
      var before, more := SampleItems(samples[..n], who, skip), SampleItem(samples[n], who, skip);
      SampledIsBooked(total, samples[..n], who, skip, c);
      if more == [] {
        assert before + more == before;
      } else {
        RawOfExtended(total, before, more[0], c);
        assert more == [more[0]] && more[1..] == [];
      }
    }
  }

  /** What one event of the hub is for client c, if anything. */
  function EventFor(e: HubEvent, c: ClientId, rows: Rows): (r: seq<Event>)
    ensures |r| <= 1
  {
    match e
    case Restarted => [Restart]
    case Lost(found) =>
      var i := PeerOf(found, c);
      if i.Some? then [Unseen(found[i.value].rx, found[i.value].tx)] else []
    case Stats(found, samples, ask, who, peersOk, samplesOk) =>
      var i, b := PeerOf(found, c), SampledBytes(samples, who, Matched(found, rows.emails), c);
      if i.Some? then [Frame(found[i.value].rx, found[i.value].tx, ask(c), peersOk)]
      else if samplesOk && b != ZERO then [Sampled(b.up, b.down)]
      else []
  }

  function EventsFor(es: seq<HubEvent>, c: ClientId, rows: Rows): seq<Event> {
    if es == [] then [] else EventsFor(es[..|es| - 1], c, rows) + EventFor(es[|es| - 1], c, rows)
  }

  lemma FrameFor(s: Store, e: HubEvent, s': Store, rows: Rows, c: ClientId, i: nat)
    requires e.Stats? && Fair(e, rows) && Follows(s, e, s', rows) && i < |e.found| && e.found[i].client == c
    ensures s'.Meter(c) == Settle(s.Meter(c), Judge(s.Meter(c), e.found[i].rx, e.found[i].tx, e.ask(c)), e.peersOk)
  {
    var rs := Rulings(e.found, s.cursors, s.raw, e.ask);
    assert rs[i] == Rule(e.found[i], s.cursors, s.raw, e.ask);
    assert Distinct(rs) by {
      forall j, k | 0 <= j < k < |rs|
        ensures rs[j].client != rs[k].client
      {
        assert rs[j] == Rule(e.found[j], s.cursors, s.raw, e.ask) && rs[k] == Rule(e.found[k], s.cursors, s.raw, e.ask);
      }
    }
    PeersAreShielded(e.found, i, rows.emails, rows.wireguard, e.samples, e.who);
  }

  /** What StatsResult says of a client without a peer in the frame. */
  lemma OthersGetSamples(rs: seq<Ruling>, s: Store, s': Store, samples: seq<Sample>, who: string -> Option<Owner>,
                         skip: set<string>, peersOk: bool, samplesOk: bool, c: ClientId)
    requires StatsResult(rs, s.cursors, s.raw, s'.cursors, s'.raw, samples, who, skip, peersOk, samplesOk)
    requires forall i | 0 <= i < |rs| :: rs[i].client != c
    ensures CursorIn(s'.cursors, c) == CursorIn(s.cursors, c)
    ensures TotalIn(s'.raw, c) ==
            if samplesOk then TotalIn(s.raw, c).Plus(SampledBytes(samples, who, skip, c)) else TotalIn(s.raw, c)
  {
    SampledIsBooked(TotalIn(s.raw, c), samples, who, skip, c);
  }

  lemma NotRuled(s: Store, found: seq<Peer>, ask: ClientId -> Answer, c: ClientId)
    requires PeerOf(found, c).None?
    ensures var rs := Rulings(found, s.cursors, s.raw, ask); forall i | 0 <= i < |rs| :: rs[i].client != c
  {
    var rs := Rulings(found, s.cursors, s.raw, ask);
    assert forall i | 0 <= i < |rs| :: rs[i] == Rule(found[i], s.cursors, s.raw, ask);
  }

  lemma SamplesFor(s: Store, e: HubEvent, s': Store, rows: Rows, c: ClientId)
    requires e.Stats? && Follows(s, e, s', rows) && PeerOf(e.found, c).None?
    ensures s'.Meter(c).cur == s.Meter(c).cur
    ensures s'.Meter(c).raw ==
            if e.samplesOk then s.Meter(c).raw.Plus(SampledBytes(e.samples, e.who, Matched(e.found, rows.emails), c))
            else s.Meter(c).raw
  {
    var rs := Rulings(e.found, s.cursors, s.raw, e.ask);
    NotRuled(s, e.found, e.ask, c);
    OthersGetSamples(rs, s, s', e.samples, e.who, Matched(e.found, rows.emails), e.peersOk, e.samplesOk, c);
  }

  lemma PeerFollows(s: Store, e: HubEvent, s': Store, rows: Rows, c: ClientId, w: World, i: nat)
    requires e.Stats? && Fair(e, rows) && Follows(s, e, s', rows) && s.Meter(c) == w.meter
    requires i < |e.found| && e.found[i].client == c
    ensures s'.Meter(c) == Advance(w, Frame(e.found[i].rx, e.found[i].tx, e.ask(c), e.peersOk)).meter
  {
    FrameFor(s, e, s', rows, c, i);
  }

  /** The meters after the events of a client, none or one. */
  function MeterAfter(w: World, r: seq<Event>): Metering.Meter
    requires |r| <= 1
  {
    if r == [] then w.meter else Advance(w, r[0]).meter
  }

  lemma SampleMeter(w: World, m: Metering.Meter, b: Pair, ok: bool)
    requires b.up >= 0 && b.down >= 0 && m.cur == w.meter.cur
    requires m.raw == if ok then w.meter.raw.Plus(b) else w.meter.raw
    ensures m == MeterAfter(w, if ok && b != ZERO then [Sampled(b.up, b.down)] else [])
  {
  }

  lemma NoPeerFollows(s: Store, e: HubEvent, s': Store, rows: Rows, c: ClientId, w: World)
    requires e.Stats? && Follows(s, e, s', rows) && s.Meter(c) == w.meter && PeerOf(e.found, c).None?
    ensures s'.Meter(c) == MeterAfter(w, EventFor(e, c, rows))
  {
    SamplesFor(s, e, s', rows, c);
    SampleMeter(w, s'.Meter(c), SampledBytes(e.samples, e.who, Matched(e.found, rows.emails), c), e.samplesOk);
  }

  lemma StatsFollows(s: Store, e: HubEvent, s': Store, rows: Rows, c: ClientId, w: World)
    requires e.Stats? && Fair(e, rows) && Follows(s, e, s', rows) && s.Meter(c) == w.meter
    ensures s'.Meter(c) == MeterAfter(w, EventFor(e, c, rows))
  {
    var i := PeerOf(e.found, c);
    if i.Some? {
      PeerFollows(s, e, s', rows, c, w, i.value);
      assert EventFor(e, c, rows)[0] == Frame(e.found[i.value].rx, e.found[i.value].tx, e.ask(c), e.peersOk);
    } else {
      NoPeerFollows(s, e, s', rows, c, w);
    }
  }

  lemma StepFollows(s: Store, e: HubEvent, s': Store, rows: Rows, c: ClientId, w: World)
    requires Fair(e, rows) && Follows(s, e, s', rows) && s.Meter(c) == w.meter
    ensures s'.Meter(c) == MeterAfter(w, EventFor(e, c, rows))
  {
    if e.Stats? { StatsFollows(s, e, s', rows, c, w); }
  }

  lemma RunSoFar(stores: seq<Store>, es: seq<HubEvent>, rows: Rows, n: nat)
    requires HubRun(stores, es, rows) && n + 1 == |es|
    ensures HubRun(stores[..n + 1], es[..n], rows) && stores[..n + 1][n] == stores[n]
    ensures Fair(es[n], rows) && Follows(stores[n], es[n], stores[n + 1], rows)
  {
    forall k | 0 <= k < n
      ensures Fair(es[..n][k], rows) && Follows(stores[..n + 1][k], es[..n][k], stores[..n + 1][k + 1], rows)
    {
      assert Fair(es[k], rows) && Follows(stores[k], es[k], stores[k + 1], rows);
    }
  }

  lemma MeterOneMore(es: seq<Event>, r: seq<Event>)
    requires |r| <= 1
    ensures Run(START, es + r).meter == MeterAfter(Run(START, es), r)
  {
    if r == [] {
      assert es + r == es;
    } else {
      assert r == [r[0]];
      OneMore(START, es, r[0]);
    }
  }

  /** Over every run of the hub, each client's cursor and account are those of its own events
      taken alone: no other client's frames, failures or samples reach it. */
  lemma {:induction false} HubIsItsClients(stores: seq<Store>, es: seq<HubEvent>, rows: Rows, c: ClientId)
    requires HubRun(stores, es, rows)
    ensures stores[|es|].Meter(c) == Run(START, EventsFor(es, c, rows)).meter
    decreases |es|
  {
    if es != [] {
      var n := |es| - 1;
      var before := EventsFor(es[..n], c, rows);
      RunSoFar(stores, es, rows, n);
      HubIsItsClients(stores[..n + 1], es[..n], rows, c);
      StepFollows(stores[n], es[n], stores[n + 1], rows, c, Run(START, before));
      MeterOneMore(before, EventFor(es[n], c, rows));
    }
  }

  /** So no client of the hub is ever stored more than its true traffic and its samples. */
  lemma HubNeverOverbills(stores: seq<Store>, es: seq<HubEvent>, rows: Rows, c: ClientId)
    requires HubRun(stores, es, rows)
    ensures var raw, w := TotalIn(stores[|es|].raw, c), Run(START, EventsFor(es, c, rows));
      raw.up <= w.truth.up + w.sampled.up && raw.down <= w.truth.down + w.sampled.down
  {
    HubIsItsClients(stores, es, rows, c);
    NeverOverbills(EventsFor(es, c, rows));
  }

  /** And after a successful frame of an unbroken kernel session its account is the reading and
      the surplus, whatever the other clients do. */
  lemma HubBillsExactly(stores: seq<Store>, es: seq<HubEvent>, rows: Rows, c: ClientId)
    requires HubRun(stores, es, rows) && es != [] && EventFor(es[|es| - 1], c, rows) != []
    requires Succeeds(EventFor(es[|es| - 1], c, rows)[0]) && AllSmooth(START, EventsFor(es, c, rows))
    ensures var e := EventFor(es[|es| - 1], c, rows)[0];
      TotalIn(stores[|es|].raw, c) == Pair(e.rx, e.tx).Plus(LedgerOf(EventsFor(es, c, rows)).over)
    ensures PeersOnly(EventsFor(es, c, rows)) ==>
      var e := EventFor(es[|es| - 1], c, rows)[0]; TotalIn(stores[|es|].raw, c) == Pair(e.rx, e.tx)
  {
    HubIsItsClients(stores, es, rows, c);
    AccountIsReadingAndSurplus(EventsFor(es, c, rows));
    if PeersOnly(EventsFor(es, c, rows)) { NoSurplus(EventsFor(es, c, rows)); }
  }
}
