/**
 How an agent takes a config for one core into use (Apply, applyJSON, rollbackJSON,
 apiAfterApply, watchOnce and tooManyCrashes in internal/agent/cores.go).
 */
module CoreApply {

  import opened Options

  // ---- One core ------------------------------------------------------------------------

  /** What the machine does during one call: the binary is installed, a port is taken, the
      file is written, checked and started; and the same for the rollback. A write that fails
      may leave anything behind. */
  datatype World = World(bin: bool, busy: bool, writes: bool, torn: Option<string>, checks: bool, starts: bool,
                         backWrites: bool, backTorn: Option<string>, backStarts: bool)

  /** The file on disk, the config of the live process, the last accepted config as written
      and as requested, and the stored address of the stats API. */
  datatype Core = Core(disk: Option<string>, proc: Option<string>, last: Option<string>, req: Option<string>,
                       api: string)

  const EMPTY := Core(None, None, None, None, "")

  /** How the agent reads configs: clean drops what this machine cannot serve, and apiOf is the
      address of the stats API that a config opens. */
  datatype Texts = Texts(clean: string -> string, apiOf: string -> string)

  /** What a refused call leaves: the last accepted config, written and started again. */
  function Rolled(s: Core, w: World): Core {
    if s.last.None? then s.(disk := None, proc := None)
    else if !w.backWrites then s.(disk := w.backTorn, proc := None)
    else s.(disk := s.last, proc := if w.backStarts then s.last else None)
  }

  predicate Unchanged(s: Core, raw: string) { s.req == Some(raw) && s.proc.Some? }

  predicate Accepts(s: Core, raw: Option<string>, w: World) {
    raw.None? || (w.bin && (Unchanged(s, raw.value) || (!w.busy && w.writes && w.checks && w.starts)))
  }

  /** The state one call of applyJSON and apiAfterApply leads to. */
  function After(x: Texts, s: Core, raw: Option<string>, w: World): Core {
    if raw.None? then EMPTY
    else if !w.bin then s
    else if Unchanged(s, raw.value) then s.(api := x.apiOf(raw.value))
    else if Accepts(s, raw, w) then
      var c := Some(x.clean(raw.value));
      Core(c, c, c, raw, x.apiOf(raw.value))
    else Rolled(s, w)
  }

  /** How often the watchdog may fail to start a core: five times in two minutes. */
  const WINDOW := 120_000
  const CRASHES := 5

  function Recent(times: seq<int>, now: int): (r: seq<int>) {
    if times == [] then []
    else
      var rest := Recent(times[..|times| - 1], now);
      if times[|times| - 1] > now - WINDOW then rest + [times[|times| - 1]] else rest
  }

  /** The fields of the agent's Cores that belong to one core. */
  class Agent {
    const texts: Texts
    var disk: Option<string>
    var proc: Option<string>
    var last: Option<string>
    var req: Option<string>
    var api: string
    var crashes: seq<int>
    var gen: nat

    constructor (texts: Texts)
      ensures this.texts == texts && Now() == EMPTY && crashes == [] && gen == 0
    {
      this.texts := texts;
      disk, proc, last, req, api, crashes, gen := None, None, None, None, "", [], 0;
    }

    function Now(): Core
      reads this
    {
      Core(disk, proc, last, req, api)
    }

    /** rollbackJSON, given the config accepted before. */
    method Rollback(prev: Option<string>, w: World)
      modifies this`disk, this`proc, this`last
      ensures prev == old(last) ==> Now() == Rolled(old(Now()), w)
    {
      proc := None;
      if prev.None? {
        disk, last := None, None;
        return;
      }
      if !w.backWrites {
        disk := w.backTorn;
        return;
      }
      disk := prev;
      if !w.backStarts { return; }
      proc, last := prev, prev;
    }

    /** A refused config: the one before is put back, with the request it came from. */
    method Refuse(prev: Option<string>, prevReq: Option<string>, w: World)
      requires prev == last && prevReq == req && (prev.None? <==> prevReq.None?)
      modifies this`disk, this`proc, this`last, this`req
      ensures Now() == Rolled(old(Now()), w)
    {
      Rollback(prev, w);
      req := if prev.None? then None else prevReq;
    }

    /** A config other than the one in use, once the old process is stopped. */
    method Install(raw: Option<string>, prev: Option<string>, prevReq: Option<string>, w: World) returns (ok: bool)
      requires raw.Some? && prev == last && prevReq == req && (prev.None? <==> prevReq.None?)
      modifies this`disk, this`proc, this`last, this`req
      ensures ok <==> !w.busy && w.writes && w.checks && w.starts
      ensures !ok ==> Now() == Rolled(old(Now()), w)
      ensures ok ==> Now() == Core(Written(texts, raw), Written(texts, raw), Written(texts, raw), raw, api)
    {
      var filtered := texts.clean(raw.value);
      ok := false;
      if w.busy {
        Refuse(prev, prevReq, w);
      } else if !w.writes {
        disk := w.torn;
        Refuse(prev, prevReq, w);
      } else {
        disk := Some(filtered);
        if !w.checks || !w.starts {
          Refuse(prev, prevReq, w);
        } else {
          proc, last, req := Some(filtered), Some(filtered), raw;
          ok := true;
        }
      }
    }

    /** applyJSON. */
    method ApplyJSON(raw: Option<string>, w: World) returns (ok: bool)
      requires last.None? <==> req.None?
      modifies this`disk, this`proc, this`last, this`req
      ensures ok == Accepts(old(Now()), raw, w)
      ensures Now() == After(texts, old(Now()), raw, w).(api := api)
    {
      var prev, prevReq := last, req;
      if raw.None? {
        proc, disk, last, req := None, None, None, None;
        return true;
      }
      if !w.bin { return false; }
      if raw == prevReq && proc.Some? { return true; }
      proc := None;
      ok := Install(raw, prev, prevReq, w);
    }

    /** The part of Apply that concerns this core; the panel sends the address along. */
    method Apply(raw: Option<string>, addr: string, w: World) returns (ok: bool)
      requires last.None? <==> req.None?
      requires raw.Some? ==> addr == texts.apiOf(raw.value)
      modifies this`disk, this`proc, this`last, this`req, this`api
      ensures ok == Accepts(old(Now()), raw, w)
      ensures Now() == After(texts, old(Now()), raw, w)
    {
      ok := ApplyJSON(raw, w);
      api := if !ok then api else if raw.None? then "" else addr;
    }

    /** The first section of Apply. */
    method BeginApply() returns (mine: nat)
      modifies this`gen
      ensures gen == mine == old(gen) + 1
    {
      gen := gen + 1;
      mine := gen;
    }

    /** The second section: a call that a newer one has overtaken leaves everything as it is. */
    method FinishApply(mine: nat, raw: Option<string>, addr: string, w: World) returns (ok: bool)
      requires last.None? <==> req.None?
      requires raw.Some? ==> addr == texts.apiOf(raw.value)
      modifies this`disk, this`proc, this`last, this`req, this`api
      ensures mine != gen ==> ok && Now() == old(Now())
      ensures mine == gen ==> ok == Accepts(old(Now()), raw, w) && Now() == After(texts, old(Now()), raw, w)
    {
      if mine != gen { return true; }
      ok := Apply(raw, addr, w);
    }

    /** tooManyCrashes: forgets what is older than two minutes. */
    method TooMany(now: int) returns (many: bool)
      modifies this`crashes
      ensures crashes == Recent(old(crashes), now) && many == (|crashes| >= CRASHES)
    {
      var keep: seq<int> := [];
      for i := 0 to |crashes|
        invariant crashes == old(crashes)
        invariant keep == Recent(crashes[..i], now)
      {
        assert crashes[..i + 1][..i] == crashes[..i];
        if crashes[i] > now - WINDOW { keep := keep + [crashes[i]]; }
      }
      assert crashes[..|crashes|] == crashes;
      crashes := keep;
      many := |keep| >= CRASHES;
    }

    /** watchOnce: a core that has a config and no live process is started from the file,
        unless it failed too often. */
    method Watch(now: int, bin: bool, starts: bool)
      modifies this`proc, this`crashes
      ensures Now() == Watched(old(Now()), old(crashes), now, bin && starts)
      ensures crashes == Noted(old(Now()), old(crashes), now, bin, starts)
    {
      if last.None? || proc.Some? { return; }
      var many := TooMany(now);
      if many || !bin { return; }
      if starts && disk.Some? {
        proc := disk;
      } else {
        crashes := crashes + [now];
      }
    }

    /** Remove. The stored address is left as it is. */
    method Remove()
      modifies this`disk, this`proc, this`last, this`req, this`crashes
      ensures Now() == EMPTY.(api := api) && crashes == []
    {
      disk, proc, last, req, crashes := None, None, None, None, [];
    }
  }

  predicate Tries(s: Core, crashes: seq<int>, now: int) {
    s.last.Some? && s.proc.None? && |Recent(crashes, now)| < CRASHES
  }

  function Watched(s: Core, crashes: seq<int>, now: int, starts: bool): Core {
    if Tries(s, crashes, now) && starts && s.disk.Some? then s.(proc := s.disk) else s
  }

  function Noted(s: Core, crashes: seq<int>, now: int, bin: bool, starts: bool): seq<int> {
    if s.last.None? || s.proc.Some? then crashes
    else if Tries(s, crashes, now) && bin && !(starts && s.disk.Some?) then Recent(crashes, now) + [now]
    else Recent(crashes, now)
  }

  // ---- Runs ------------------------------------------------------------------------------

  /** Restart is the watchdog starting the core. */
  datatype Event = Applied(raw: Option<string>, w: World) | Restart(starts: bool) | Died | Removed

  function Next(x: Texts, s: Core, e: Event): Core {
    match e
    case Applied(raw, w) => After(x, s, raw, w)
    case Restart(starts) => Watched(s, [], 0, starts)
    case Died => s.(proc := None)
    case Removed => EMPTY.(api := s.api)
  }

  function Run(x: Texts, es: seq<Event>): Core {
    if es == [] then EMPTY else Next(x, Run(x, es[..|es| - 1]), es[|es| - 1])
  }

  /** The last request that got to the core and was accepted there. */
  function LastAccepted(x: Texts, es: seq<Event>): Option<string> {
    if es == [] then None
    else
      var before, e := es[..|es| - 1], es[|es| - 1];
      match e
      case Applied(raw, w) => if Accepts(Run(x, before), raw, w) then raw else LastAccepted(x, before)
      case Removed => None
      case _ => LastAccepted(x, before)
  }

  /** What is stored belongs to the last accepted request, the API address included. */
  predicate Belongs(x: Texts, s: Core, req: Option<string>) {
    && s.req == req
    && s.last == (match req case None => None case Some(t) => Some(x.clean(t)))
    && (req.Some? ==> s.api == x.apiOf(req.value))
  }

  /** Over every run of such events, whatever fails. */
  lemma {:induction false} StoredConfigIsLastAccepted(x: Texts, es: seq<Event>)
    ensures Belongs(x, Run(x, es), LastAccepted(x, es))
  {
    if es != [] {
      var before := es[..|es| - 1];
      StoredConfigIsLastAccepted(x, before);
    }
  }

  /** Rollback writes succeed whenever one is needed. */
  predicate Writable(s: Core, e: Event) {
    e.Applied? && e.w.bin && !Accepts(s, e.raw, e.w) && s.last.Some? ==> e.w.backWrites
  }

  predicate AllWritable(x: Texts, es: seq<Event>) {
    es == [] || (AllWritable(x, es[..|es| - 1]) && Writable(Run(x, es[..|es| - 1]), es[|es| - 1]))
  }

  predicate FileRight(s: Core) { s.disk == s.last }

  predicate ProcRight(s: Core) { s.proc.Some? ==> s.proc == s.last }

  predicate Synced(s: Core) { FileRight(s) && ProcRight(s) }

  /** A refused call, and it alone, can part the file from the last accepted config. */
  lemma SyncedExactly(x: Texts, s: Core, e: Event)
    requires Synced(s) && (s.last.None? <==> s.req.None?)
    requires s.req.Some? ==> s.last == Some(x.clean(s.req.value))
    ensures Synced(Next(x, s, e)) <==>
      (e.Applied? && e.w.bin && !Accepts(s, e.raw, e.w) && s.last.Some? && !e.w.backWrites ==> e.w.backTorn == s.last)
  {
  }

  lemma {:induction false} StaysSynced(x: Texts, es: seq<Event>)
    requires AllWritable(x, es)
    ensures Synced(Run(x, es))
  {
    if es != [] {
      var before := es[..|es| - 1];
      StaysSynced(x, before);
      StoredConfigIsLastAccepted(x, before);
      SyncedExactly(x, Run(x, before), es[|es| - 1]);
    }
  }

  function Written(x: Texts, req: Option<string>): Option<string> {
    match req case None => None case Some(t) => Some(x.clean(t))
  }

  /** While rollback writes succeed, the file is always the last accepted config, and a live
      process, started by a call or by the watchdog, runs exactly that. */
  lemma RunsLastAccepted(x: Texts, es: seq<Event>)
    requires AllWritable(x, es)
    ensures var s := Run(x, es);
      && s.disk == s.last == Written(x, LastAccepted(x, es))
      && (s.proc.Some? ==> s.proc == s.disk)
  {
    StaysSynced(x, es);
    StoredConfigIsLastAccepted(x, es);
  }

  /** After a call with the binary installed the three coincide: the new config when it was
      accepted, the previous one when it was refused and the rollback could start it. */
  lemma ApplySettles(x: Texts, es: seq<Event>, raw: Option<string>, w: World)
    requires AllWritable(x, es + [Applied(raw, w)]) && w.bin
    ensures var s, s' := Run(x, es), Run(x, es + [Applied(raw, w)]);
      && (Accepts(s, raw, w) ==> s'.disk == s'.proc == s'.last == Written(x, raw) && s'.req == raw)
      && (!Accepts(s, raw, w) ==> s'.disk == s'.last == s.last && s'.req == s.req && s'.api == s.api)
      && (!Accepts(s, raw, w) ==> (s'.proc == s'.last <==> s.last.None? || w.backStarts))
  {
    var all := es + [Applied(raw, w)];
    assert all[..|all| - 1] == es;
    StaysSynced(x, es);
    StoredConfigIsLastAccepted(x, es);
  }

  /** From the events: the last of them that wrote the file was a rollback whose write failed and
      left something else than the config accepted last. */
  predicate FileTorn(x: Texts, es: seq<Event>) {
    es != [] &&
    var before, e := es[..|es| - 1], es[|es| - 1];
    var s := Run(x, before);
    match e
    case Removed => false
    case Died | Restart(_) => FileTorn(x, before)
    case Applied(raw, w) =>
      if raw.None? then false
      else if !w.bin || Unchanged(s, raw.value) then FileTorn(x, before)
      else
        var kept := LastAccepted(x, before);
        !Accepts(s, raw, w) && kept.Some? && !w.backWrites && w.backTorn != Written(x, kept)
  }

  /** And the last of them that left a live process was the watchdog starting such a file. */
  predicate ProcTorn(x: Texts, es: seq<Event>) {
    es != [] &&
    var before, e := es[..|es| - 1], es[|es| - 1];
    var s := Run(x, before);
    match e
    case Removed | Died => false
    case Restart(starts) =>
      if Tries(s, [], 0) && starts && s.disk.Some? then FileTorn(x, before) else ProcTorn(x, before)
    case Applied(raw, w) => raw.Some? && (!w.bin || Unchanged(s, raw.value)) && ProcTorn(x, before)
  }

  /** Over every run, whatever fails: the file is the config accepted last exactly when it was not
      torn, and so is the live process exactly when it was not started from a torn file. */
  lemma {:induction false} RightUnlessTorn(x: Texts, es: seq<Event>)
    ensures FileRight(Run(x, es)) <==> !FileTorn(x, es)
    ensures ProcRight(Run(x, es)) <==> !ProcTorn(x, es)
  {
    if es != [] {
      var before := es[..|es| - 1];
      RightUnlessTorn(x, before);
      StoredConfigIsLastAccepted(x, before);
    }
  }

  /** A rollback that cannot write leaves a file the watchdog then starts, and asking again for
      the config in use is answered yes while something else runs. */
  lemma TornRollbackSticks(x: Texts, a: string, b: string, torn: string)
    requires a != b && torn != x.clean(a)
    ensures var w := World(true, false, true, None, true, true, true, None, true);
      var es := [Applied(Some(a), w),
        Applied(Some(b), w.(checks := false, backWrites := false, backTorn := Some(torn))), Restart(true)];
      && Accepts(Run(x, es), Some(a), w)
      && Run(x, es + [Applied(Some(a), w)]).proc ==
         Some(torn) != Written(x, LastAccepted(x, es + [Applied(Some(a), w)]))
  {
    var w := World(true, false, true, None, true, true, true, None, true);
    var bad := w.(checks := false, backWrites := false, backTorn := Some(torn));
    var e0, e1, e2 := Applied(Some(a), w), Applied(Some(b), bad), Restart(true);
    assert [e0][..0] == [] && [e0, e1][..1] == [e0] && [e0, e1, e2][..2] == [e0, e1];
    assert ([e0, e1, e2] + [e0])[..3] == [e0, e1, e2];
    var c := Some(x.clean(a));
    assert Run(x, [e0]) == Core(c, c, c, Some(a), x.apiOf(a));
    assert Run(x, [e0, e1]) == Core(Some(torn), None, c, Some(a), x.apiOf(a));
    assert Run(x, [e0, e1, e2]).proc == Some(torn);
    StoredConfigIsLastAccepted(x, [e0, e1, e2] + [e0]);
  }

  // ---- Concurrent calls of Apply --------------------------------------------------------

  /** A call, the generation it was issued and what it asks for; yes is its answer. */
  datatype Call = Call(gen: nat, raw: Option<string>, returned: bool, yes: bool)

  /** trace lists what happened to the core, effects the generations whose calls got to it, in
      order; the last of those is event at of the trace. */
  datatype Gens = Gens(gen: nat, calls: seq<Call>, trace: seq<Event>, effects: seq<nat>, at: nat)

  const START := Gens(0, [], [], [], 0)

  /** Begin is the first section under the lock. Between the two sections the call fetches
      binaries without it. Finish is the second one: a call that a newer one has overtaken
      does nothing and answers yes. Other is the watchdog, a crash or a removal. */
  datatype Move = Begin(raw: Option<string>) | Finish(i: nat, w: World) | Other(e: Event)

  predicate CanMove(s: Gens, m: Move) {
    match m
    case Begin(_) => true
    case Finish(i, _) => i < |s.calls| && !s.calls[i].returned
    case Other(e) => !e.Applied?
  }

  predicate Current(s: Gens, i: nat)
    requires i < |s.calls|
  {
    s.calls[i].gen == s.gen
  }

  function Moved(x: Texts, s: Gens, m: Move): Gens
    requires CanMove(s, m)
  {
    match m
    case Begin(raw) => s.(gen := s.gen + 1, calls := s.calls + [Call(s.gen + 1, raw, false, false)])
    case Other(e) => s.(trace := s.trace + [e])
    case Finish(i, w) =>
      var c := s.calls[i];
      if !Current(s, i) then s.(calls := s.calls[i := c.(returned := true, yes := true)])
      else
        var yes := Accepts(Run(x, s.trace), c.raw, w);
        Gens(s.gen, s.calls[i := c.(returned := true, yes := yes)], s.trace + [Applied(c.raw, w)],
             s.effects + [c.gen], |s.trace|)
  }

  predicate CanRun(x: Texts, s: Gens, ms: seq<Move>)
    decreases |ms|
  {
    ms == [] || (CanMove(s, ms[0]) && CanRun(x, Moved(x, s, ms[0]), ms[1..]))
  }

  function RunMoves(x: Texts, s: Gens, ms: seq<Move>): Gens
    requires CanRun(x, s, ms)
    decreases |ms|
  {
    if ms == [] then s else RunMoves(x, Moved(x, s, ms[0]), ms[1..])
  }

  predicate Increasing(xs: seq<nat>) { forall i, j | 0 <= i < j < |xs| :: xs[i] < xs[j] }

  predicate Numbered(s: Gens) { |s.calls| == s.gen && forall i: nat | i < s.gen :: s.calls[i].gen == i + 1 }

  /** Only calls that have returned took effect, each once and in order, the newest as soon as
      it has returned. */
  predicate EffectsOk(s: Gens)
    requires Numbered(s)
  {
    && Increasing(s.effects)
    && (forall i | 0 <= i < |s.effects| :: 1 <= s.effects[i] <= s.gen && s.calls[s.effects[i] - 1].returned)
    && (s.gen > 0 && s.calls[s.gen - 1].returned ==> s.effects != [] && s.effects[|s.effects| - 1] == s.gen)
  }

  /** The last call that took effect is the last apply in the trace, and its answer was its own. */
  predicate LastApply(x: Texts, s: Gens)
    requires Numbered(s) && EffectsOk(s)
  {
    if s.effects == [] then forall k | 0 <= k < |s.trace| :: !s.trace[k].Applied?
    else
      var c := s.calls[s.effects[|s.effects| - 1] - 1];
      && s.at < |s.trace| && s.trace[s.at].Applied? && s.trace[s.at].raw == c.raw
      && (forall k | s.at < k < |s.trace| :: !s.trace[k].Applied?)
      && c.yes == Accepts(Run(x, s.trace[..s.at]), c.raw, s.trace[s.at].w)
  }

  predicate GensInv(x: Texts, s: Gens) { Numbered(s) && EffectsOk(s) && LastApply(x, s) }

  lemma OvertakenKeeps(x: Texts, s: Gens, i: nat, w: World)
    requires GensInv(x, s) && CanMove(s, Finish(i, w)) && !Current(s, i)
    ensures GensInv(x, Moved(x, s, Finish(i, w)))
  {
  }

  lemma CurrentKeeps(x: Texts, s: Gens, i: nat, w: World)
    requires GensInv(x, s) && CanMove(s, Finish(i, w)) && Current(s, i)
    ensures GensInv(x, Moved(x, s, Finish(i, w)))
  {
    var s' := Moved(x, s, Finish(i, w));
    assert i + 1 == s.gen;
    assert forall k | 0 <= k < |s.effects| :: s.effects[k] != s.gen;
    assert s'.trace[..s'.at] == s.trace;
  }

  lemma OtherKeeps(x: Texts, s: Gens, e: Event)
    requires GensInv(x, s) && CanMove(s, Other(e))
    ensures GensInv(x, Moved(x, s, Other(e)))
  {
    if s.effects != [] { assert (s.trace + [e])[..s.at] == s.trace[..s.at]; }
  }

  lemma MoveKeeps(x: Texts, s: Gens, m: Move)
    requires GensInv(x, s) && CanMove(s, m)
    ensures GensInv(x, Moved(x, s, m))
  {
    match m
    case Begin(_) =>
    case Other(e) => OtherKeeps(x, s, e);
    case Finish(i, w) => if Current(s, i) { CurrentKeeps(x, s, i, w); } else { OvertakenKeeps(x, s, i, w); }
  }

  lemma {:induction false} MovesKeep(x: Texts, s: Gens, ms: seq<Move>)
    requires GensInv(x, s) && CanRun(x, s, ms)
    ensures GensInv(x, RunMoves(x, s, ms))
    decreases |ms|
  {
    if ms != [] {
      MoveKeeps(x, s, ms[0]);
      MovesKeep(x, Moved(x, s, ms[0]), ms[1..]);
    }
  }

  predicate AllReturned(s: Gens) { forall i | 0 <= i < |s.calls| :: s.calls[i].returned }

  /** In every interleaving the generations that get to the core strictly increase, and once
      every call has returned the last that did is the newest issued. */
  lemma NewestApplyWins(x: Texts, ms: seq<Move>)
    requires CanRun(x, START, ms)
    ensures var s := RunMoves(x, START, ms);
      && Increasing(s.effects)
      && (AllReturned(s) && s.calls != [] ==>
            s.effects != [] && s.effects[|s.effects| - 1] == s.gen == |s.calls|)
  {
    MovesKeep(x, START, ms);
  }

  /** Whatever overlaps, what is stored is the last request that got to the core and was
      accepted there, with the API address that belongs to it. */
  lemma StoredDespiteOverlap(x: Texts, ms: seq<Move>)
    requires CanRun(x, START, ms)
    ensures var t := RunMoves(x, START, ms).trace; Belongs(x, Run(x, t), LastAccepted(x, t))
  {
    StoredConfigIsLastAccepted(x, RunMoves(x, START, ms).trace);
  }

  lemma {:induction false} NothingSince(x: Texts, es: seq<Event>, n: nat)
    requires n <= |es| && forall k | n <= k < |es| :: !es[k].Applied? && !es[k].Removed?
    ensures LastAccepted(x, es) == LastAccepted(x, es[..n])
  {
    if n < |es| {
      assert es[..|es| - 1][..n] == es[..n];
      NothingSince(x, es[..|es| - 1], n);
    } else {
      assert es[..n] == es;
    }
  }

  predicate NotRemovedSince(s: Gens) { forall k | s.at < k < |s.trace| :: !s.trace[k].Removed? }

  lemma NewestReturnedDecides(x: Texts, s: Gens)
    requires GensInv(x, s) && s.calls != [] && s.calls[|s.calls| - 1].returned && NotRemovedSince(s)
    ensures var newest := s.calls[|s.calls| - 1];
      && s.at < |s.trace|
      && Run(x, s.trace).req == if newest.yes then newest.raw else Run(x, s.trace[..s.at]).req
  {
    var t, n := s.trace, s.at;
    NothingSince(x, t, n + 1);
    assert t[..n + 1][..n] == t[..n];
    StoredConfigIsLastAccepted(x, t);
    StoredConfigIsLastAccepted(x, t[..n]);
  }

  /** Once every call has returned, the newest decides: its config is stored if it was accepted,
      and otherwise the one it found, unless the core was removed since. */
  lemma NewestDecides(x: Texts, ms: seq<Move>)
    requires CanRun(x, START, ms)
    requires var s := RunMoves(x, START, ms); AllReturned(s) && s.calls != [] && NotRemovedSince(s)
    ensures var s := RunMoves(x, START, ms);
      var newest := s.calls[|s.calls| - 1];
      && s.at < |s.trace|
      && Run(x, s.trace).req == if newest.yes then newest.raw else Run(x, s.trace[..s.at]).req
  {
    MovesKeep(x, START, ms);
    NewestReturnedDecides(x, RunMoves(x, START, ms));
  }

  /** What a yes is worth: right after it the config asked for is stored exactly when no newer
      call had begun, or the same config was in use anyway. */
  lemma YesMeansStoredIff(x: Texts, s: Gens, i: nat, w: World)
    requires CanMove(s, Finish(i, w)) && Moved(x, s, Finish(i, w)).calls[i].yes
    ensures Run(x, Moved(x, s, Finish(i, w)).trace).req == s.calls[i].raw <==>
      Current(s, i) || Run(x, s.trace).req == s.calls[i].raw
  {
    if Current(s, i) {
      var t := s.trace + [Applied(s.calls[i].raw, w)];
      assert t[..|s.trace|] == s.trace;
    }
  }

  // ---- Crash limit -------------------------------------------------------------------------

  /** One watchdog tick: the state it finds, the time, and whether a start would work. */
  datatype Tick = Tick(core: Core, now: int, bin: bool, starts: bool)

  function CrashesAfter(ticks: seq<Tick>): seq<int> {
    if ticks == [] then []
    else
      var t := ticks[|ticks| - 1];
      Noted(t.core, CrashesAfter(ticks[..|ticks| - 1]), t.now, t.bin, t.starts)
  }

  predicate Fails(t: Tick, crashes: seq<int>) {
    Tries(t.core, crashes, t.now) && t.bin && !(t.starts && t.core.disk.Some?)
  }

  /** Every failed start there ever was. */
  function Failures(ticks: seq<Tick>): seq<int> {
    if ticks == [] then []
    else
      var before, t := ticks[..|ticks| - 1], ticks[|ticks| - 1];
      Failures(before) + (if Fails(t, CrashesAfter(before)) then [t.now] else [])
  }

  predicate InTime(ticks: seq<Tick>) { forall i, j | 0 <= i < j < |ticks| :: ticks[i].now <= ticks[j].now }

  predicate Rising(xs: seq<int>) { forall i, j | 0 <= i < j < |xs| :: xs[i] <= xs[j] }

  predicate UpTo(xs: seq<int>, top: int) { forall i | 0 <= i < |xs| :: xs[i] <= top }

  /** The stored times are a tail of all failures, and what was forgotten is old. */
  predicate Tail(crashes: seq<int>, all: seq<int>, now: int) {
    |crashes| <= |all| && crashes == all[|all| - |crashes|..] && UpTo(all[..|all| - |crashes|], now - WINDOW)
  }

  lemma {:induction false} AllOld(times: seq<int>, now: int)
    requires UpTo(times, now - WINDOW)
    ensures Recent(times, now) == []
  {
    if times != [] { AllOld(times[..|times| - 1], now); }
  }

  lemma TailGrows(keep: seq<int>, times: seq<int>, n: nat, now: int)
    requires n + 1 == |times| && Tail(keep, times[..n], now)
    ensures Tail(keep + [times[n]], times, now)
  {
    var k := |keep|;
    assert times[n - k..] == times[..n][n - k..] + [times[n]];
    assert times[..n][..n - k] == times[..n - k];
  }

  lemma {:induction false} RecentIsTail(times: seq<int>, now: int)
    requires Rising(times)
    ensures Tail(Recent(times, now), times, now)
  {
    if times != [] {
      var n := |times| - 1;
      if times[n] <= now - WINDOW {
        AllOld(times, now);
      } else {
        RecentIsTail(times[..n], now);
        TailGrows(Recent(times[..n], now), times, n, now);
      }
    }
  }

  lemma TailOfTail(keep: seq<int>, crashes: seq<int>, all: seq<int>, t0: int, now: int)
    requires Tail(crashes, all, t0) && Tail(keep, crashes, now) && t0 <= now
    ensures Tail(keep, all, now)
  {
    var n, c, k := |all|, |crashes|, |keep|;
    forall i | 0 <= i < n - k
      ensures all[i] <= now - WINDOW
    {
      if i < n - c {
        assert all[..n - c][i] == all[i];
      } else {
        assert crashes[i - (n - c)] == all[i] && crashes[..c - k][i - (n - c)] == all[i];
      }
    }
  }

  predicate Spread(all: seq<int>) { forall i: nat | i + CRASHES < |all| :: all[i + CRASHES] - all[i] >= WINDOW }

  predicate Limited(crashes: seq<int>, all: seq<int>, now: int) {
    Rising(all) && UpTo(all, now) && Tail(crashes, all, now) && Spread(all)
  }

  /** Fewer than five recent failures: the fifth last is old enough for one more. */
  lemma OneMore(keep: seq<int>, all: seq<int>, now: int)
    requires Limited(keep, all, now) && |keep| < CRASHES
    ensures Limited(keep + [now], all + [now], now)
  {
    var n, k, more := |all|, |keep|, all + [now];
    assert more[n - k..] == keep + [now];
    assert more[..n - k] == all[..n - k];
    forall i: nat | i + CRASHES < n + 1
      ensures more[i + CRASHES] - more[i] >= WINDOW
    {
      if i + CRASHES == n { assert all[..n - k][i] == all[i]; }
    }
  }

  lemma TickKeeps(crashes: seq<int>, all: seq<int>, t0: int, t: Tick)
    requires Limited(crashes, all, t0) && t0 <= t.now
    ensures Limited(Noted(t.core, crashes, t.now, t.bin, t.starts),
                    all + (if Fails(t, crashes) then [t.now] else []), t.now)
  {
    assert all + [] == all;
    if t.core.last.None? || t.core.proc.Some? { return; }
    RecentIsTail(crashes, t.now);
    TailOfTail(Recent(crashes, t.now), crashes, all, t0, t.now);
    if Fails(t, crashes) { OneMore(Recent(crashes, t.now), all, t.now); }
  }

  lemma {:induction false} CrashesLimited(ticks: seq<Tick>, now: int)
    requires InTime(ticks) && (ticks != [] ==> ticks[|ticks| - 1].now == now)
    ensures Limited(CrashesAfter(ticks), Failures(ticks), now)
  {
    if ticks != [] {
      var before, t := ticks[..|ticks| - 1], ticks[|ticks| - 1];
      var t0 := if before == [] then now else before[|before| - 1].now;
      CrashesLimited(before, t0);
      TickKeeps(CrashesAfter(before), Failures(before), t0, t);
    }
  }

  /** Any six failed starts of a core span at least two minutes. */
  lemma FailedStartsAreSpread(ticks: seq<Tick>)
    requires InTime(ticks)
    ensures Spread(Failures(ticks))
  {
    CrashesLimited(ticks, if ticks == [] then 0 else ticks[|ticks| - 1].now);
  }
}
