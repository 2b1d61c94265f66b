/**
 From a kick in the panel to the config an agent stores: the pushes of internal/server/sync.go,
 the agent's goroutine for each message (Run and handleApply in internal/agent/agent.go), and the
 generations of Apply in internal/agent/cores.go, in any interleaving.
 */
module Delivery {

  import opened Options
  import Panel = SyncLoop
  import Cores = CoreApply

  /** How versions become configs, and how the agent reads them. */
  datatype World = World(text: nat -> string, texts: Cores.Texts)

  /** inbox lists the versions that have arrived at the agent; out says that the running try is
      one of them. order lists the messages whose goroutines have drawn a generation, in that
      order. late counts the tries that were given up after they had arrived. */
  datatype State = State(panel: Panel.State, inbox: seq<nat>, out: bool, order: seq<nat>, agent: Cores.Gens, late: nat)

  function Boot(db: nat): State { State(Panel.Boot(db), [], false, [], Cores.START, 0) }

  /** Post is the message of a running try arriving; Answer ends the try. Draw is the goroutine
      of message j entering Apply, Local is anything else that happens at the agent. */
  datatype Step =
    | Server(e: Panel.Step)
    | Post(i: nat)
    | Answer(i: nat, reply: Panel.Reply)
    | Draw(j: nat)
    | Local(m: Cores.Move)

  predicate Sends(s: State, i: nat) { i < |s.panel.threads| && s.panel.threads[i].pc.Sending? }

  /** The call of message j has returned with this answer. */
  predicate Answered(s: State, j: nat, yes: bool) {
    exists k: nat | k < |s.order| && k < |s.agent.calls| :: AnsweredBy(s, k, j, yes)
  }

  predicate AnsweredBy(s: State, k: nat, j: nat, yes: bool)
    requires k < |s.order| && k < |s.agent.calls|
  {
    s.order[k] == j && s.agent.calls[k].returned && s.agent.calls[k].yes == yes
  }

  /** A try that arrived is acknowledged or refused by the answer of its own call; only a try that
      times out or loses its connection ends without one. */
  predicate Enabled(s: State, e: Step) {
    match e
    case Server(p) => Panel.Enabled(s.panel, p) && !p.Attempt? && (p.NotOnline? ==> !s.out)
    case Post(i) => Sends(s, i) && !s.out
    case Answer(i, reply) =>
      && Sends(s, i)
      && (reply.Acked? ==> s.out && s.inbox != [] && Answered(s, |s.inbox| - 1, true))
      && (reply.Fatal? && s.out ==> s.inbox != [] && Answered(s, |s.inbox| - 1, false))
    case Draw(j) => j < |s.inbox| && j !in s.order
    case Local(m) => !m.Begin? && Cores.CanMove(s.agent, m)
  }

  function Take(w: World, s: State, e: Step): State
    requires Enabled(s, e)
  {
    match e
    case Server(p) => s.(panel := Panel.Take(s.panel, p))
    case Post(i) => s.(inbox := s.inbox + [s.panel.threads[i].pc.version], out := true)
    case Answer(i, reply) =>
      s.(panel := Panel.Take(s.panel, Panel.Attempt(i, s.out, reply)), out := false,
         late := if s.out && reply.Transient? then s.late + 1 else s.late)
    case Draw(j) =>
      s.(order := s.order + [j], agent := Cores.Moved(w.texts, s.agent, Cores.Begin(Some(w.text(s.inbox[j])))))
    case Local(m) => s.(agent := Cores.Moved(w.texts, s.agent, m))
  }

  predicate Possible(w: World, s: State, run: seq<Step>)
    decreases |run|
  {
    run == [] || (Enabled(s, run[0]) && Possible(w, Take(w, s, run[0]), run[1..]))
  }

  function Run(w: World, s: State, run: seq<Step>): State
    requires Possible(w, s, run)
    decreases |run|
  {
    if run == [] then s else Run(w, Take(w, s, run[0]), run[1..])
  }

  // ---- What every interleaving keeps -------------------------------------------------------

  ghost predicate InFlight(p: Panel.State, inbox: seq<nat>, i: nat) {
    i < |p.threads| && p.threads[i].pc.Sending? && inbox == p.wire + [p.threads[i].pc.version]
  }

  /** What has arrived is what was sent, and the running try if it has arrived. */
  ghost predicate Arrived(p: Panel.State, inbox: seq<nat>, out: bool) {
    if out then exists i: nat :: InFlight(p, inbox, i) else inbox == p.wire
  }

  /** Every call asks for the config of its message. */
  predicate Asked(w: World, s: State) {
    && |s.order| == |s.agent.calls|
    && forall k: nat | k < |s.order| ::
         s.order[k] < |s.inbox| && s.agent.calls[k].raw == Some(w.text(s.inbox[s.order[k]]))
  }

  /** As long as no try was given up late, generations are drawn in the order of arrival. */
  predicate InTurn(late: nat, sent: nat, arrived: nat, order: seq<nat>) {
    late == 0 ==> sent <= |order| <= arrived && forall k: nat | k < |order| :: order[k] == k
  }

  /** When nobody pushes, an applied push was answered yes by the call of the newest message. */
  ghost predicate AckTrue(s: State) {
    !Panel.Locked(s.panel) && s.panel.outcome.Applied? ==> s.inbox != [] && Answered(s, |s.inbox| - 1, true)
  }

  ghost predicate Inv(w: World, s: State) {
    && Panel.Inv(s.panel) && Cores.GensInv(w.texts, s.agent)
    && Arrived(s.panel, s.inbox, s.out) && Asked(w, s) && AckTrue(s)
    && InTurn(s.late, |s.panel.wire|, |s.inbox|, s.order)
  }

  lemma OneSender(s: State, i: nat, j: nat)
    requires Panel.OneHolder(s.panel) && Sends(s, i) && Sends(s, j)
    ensures i == j && Panel.Locked(s.panel)
  {
    assert Panel.Holding(s.panel.threads[i]) && Panel.Holding(s.panel.threads[j]);
  }

  lemma ServerKeepsArrived(s: State, p: Panel.Step)
    requires Panel.OneHolder(s.panel) && Arrived(s.panel, s.inbox, s.out) && Enabled(s, Server(p))
    ensures Arrived(Panel.Take(s.panel, p), s.inbox, s.out)
  {
    if s.out {
      var i: nat :| InFlight(s.panel, s.inbox, i);
      assert Panel.Take(s.panel, p).threads[i] == s.panel.threads[i];
      assert InFlight(Panel.Take(s.panel, p), s.inbox, i);
    }
  }

  lemma ServerKeepsAcks(w: World, s: State, p: Panel.Step)
    requires Inv(w, s) && Enabled(s, Server(p))
    ensures AckTrue(Take(w, s, Server(p)))
  {
    var s' := Take(w, s, Server(p));
    if p.Built? || p.BuildError? || p.NotOnline? { assert Panel.Holding(s.panel.threads[p.i]); }
    if Panel.Locked(s.panel) && !Panel.Locked(s'.panel) { Panel.Unlocked(s.panel, p); }
    if s.inbox != [] && Answered(s, |s.inbox| - 1, true) {
      StillAnswered(s, s', |s.inbox| - 1, true);
    }
  }

  /** An answer stays given. */
  lemma StillAnswered(s: State, s': State, j: nat, yes: bool)
    requires Answered(s, j, yes) && s.order <= s'.order && |s.agent.calls| <= |s'.agent.calls|
    requires forall k: nat | k < |s.agent.calls| && s.agent.calls[k].returned ::
      s'.agent.calls[k] == s.agent.calls[k]
    ensures Answered(s', j, yes)
  {
    var k: nat :| k < |s.order| && k < |s.agent.calls| && AnsweredBy(s, k, j, yes);
    assert AnsweredBy(s', k, j, yes);
  }

  lemma ServerKeeps(w: World, s: State, p: Panel.Step)
    requires Inv(w, s) && Enabled(s, Server(p))
    ensures Inv(w, Take(w, s, Server(p)))
  {
    Panel.Keeps(s.panel, p);
    ServerKeepsArrived(s, p);
    ServerKeepsAcks(w, s, p);
  }

  lemma PostKeeps(w: World, s: State, i: nat)
    requires Inv(w, s) && Enabled(s, Post(i))
    ensures Inv(w, Take(w, s, Post(i)))
  {
    OneSender(s, i, i);
    assert InFlight(s.panel, Take(w, s, Post(i)).inbox, i);
  }

  /** When a try ends, what arrived is what was sent. */
  lemma AnswerSends(s: State, i: nat, reply: Panel.Reply)
    requires Panel.OneHolder(s.panel) && Arrived(s.panel, s.inbox, s.out) && Enabled(s, Answer(i, reply))
    ensures Panel.Take(s.panel, Panel.Attempt(i, s.out, reply)).wire == s.inbox
  {
    if s.out {
      var k: nat :| InFlight(s.panel, s.inbox, k);
      OneSender(s, i, k);
    }
  }

  /** And when its answer came, the newest message has been drawn. */
  lemma AnswerKeepsTurn(s: State, j: nat, yes: bool)
    requires InTurn(s.late, |s.panel.wire|, |s.inbox|, s.order) && j + 1 == |s.inbox| && Answered(s, j, yes)
    ensures InTurn(s.late, |s.inbox|, |s.inbox|, s.order)
  {
    var k: nat :| k < |s.order| && k < |s.agent.calls| && AnsweredBy(s, k, j, yes);
  }

  lemma AnswerKeeps(w: World, s: State, i: nat, reply: Panel.Reply)
    requires Inv(w, s) && Enabled(s, Answer(i, reply))
    ensures Inv(w, Take(w, s, Answer(i, reply)))
  {
    var s' := Take(w, s, Answer(i, reply));
    Panel.Keeps(s.panel, Panel.Attempt(i, s.out, reply));
    AnswerSends(s, i, reply);
    if s.out && !reply.Transient? { AnswerKeepsTurn(s, |s.inbox| - 1, reply.Acked?); }
    if reply.Acked? {
      StillAnswered(s, s', |s.inbox| - 1, true);
    } else if s'.panel.outcome.Applied? {
      assert Panel.Holding(s'.panel.threads[i]);
    }
  }

  lemma DrawKeepsTurn(late: nat, sent: nat, arrived: nat, order: seq<nat>, j: nat)
    requires InTurn(late, sent, arrived, order) && j < arrived <= sent + 1 && j !in order
    ensures InTurn(late, sent, arrived, order + [j])
  {
    if late == 0 && order != [] {
      var k := if j < |order| then j else 0;
      assert order[k] in order;
    }
  }

  lemma DrawKeepsAsked(w: World, s: State, j: nat)
    requires Asked(w, s) && Enabled(s, Draw(j))
    ensures Asked(w, Take(w, s, Draw(j)))
  {
  }

  lemma DrawKeepsAcks(w: World, s: State, j: nat)
    requires AckTrue(s) && Enabled(s, Draw(j))
    ensures AckTrue(Take(w, s, Draw(j)))
  {
    if s.inbox != [] && Answered(s, |s.inbox| - 1, true) {
      StillAnswered(s, Take(w, s, Draw(j)), |s.inbox| - 1, true);
    }
  }

  lemma DrawKeeps(w: World, s: State, j: nat)
    requires Inv(w, s) && Enabled(s, Draw(j))
    ensures Inv(w, Take(w, s, Draw(j)))
  {
    Cores.MoveKeeps(w.texts, s.agent, Cores.Begin(Some(w.text(s.inbox[j]))));
    DrawKeepsTurn(s.late, |s.panel.wire|, |s.inbox|, s.order, j);
    DrawKeepsAsked(w, s, j);
    DrawKeepsAcks(w, s, j);
  }

  /** What happens at the agent leaves requests and answers as they are. */
  lemma LocalCalls(x: Cores.Texts, g: Cores.Gens, m: Cores.Move)
    requires !m.Begin? && Cores.CanMove(g, m)
    ensures var g' := Cores.Moved(x, g, m);
      && |g'.calls| == |g.calls|
      && forall k: nat | k < |g.calls| ::
           g'.calls[k].raw == g.calls[k].raw && (g.calls[k].returned ==> g'.calls[k] == g.calls[k])
  {
  }

  lemma LocalKeepsAcks(s: State, g: Cores.Gens)
    requires AckTrue(s) && |g.calls| == |s.agent.calls|
    requires forall k: nat | k < |g.calls| && s.agent.calls[k].returned :: g.calls[k] == s.agent.calls[k]
    ensures AckTrue(s.(agent := g))
  {
    if s.inbox != [] && Answered(s, |s.inbox| - 1, true) {
      StillAnswered(s, s.(agent := g), |s.inbox| - 1, true);
    }
  }

  lemma LocalKeeps(w: World, s: State, m: Cores.Move)
    requires Inv(w, s) && Enabled(s, Local(m))
    ensures Inv(w, Take(w, s, Local(m)))
  {
    Cores.MoveKeeps(w.texts, s.agent, m);
    LocalCalls(w.texts, s.agent, m);
    LocalKeepsAcks(s, Cores.Moved(w.texts, s.agent, m));
  }

  lemma {:induction false} Always(w: World, s: State, run: seq<Step>)
    requires Inv(w, s) && Possible(w, s, run)
    ensures Inv(w, Run(w, s, run))
    decreases |run|
  {
    if run != [] {
      match run[0] {
        case Server(p) => ServerKeeps(w, s, p);
        case Post(i) => PostKeeps(w, s, i);
        case Answer(i, reply) => AnswerKeeps(w, s, i, reply);
        case Draw(j) => DrawKeeps(w, s, j);
        case Local(m) => LocalKeeps(w, s, m);
      }
      Always(w, Take(w, s, run[0]), run[1..]);
    }
  }

  // ---- Main results ----------------------------------------------------------------------------

  /** What the agent has stored: the request it accepted last. */
  function Stored(w: World, s: State): Option<string> { Cores.Run(w.texts, s.agent.trace).req }

  predicate Holds(w: World, s: State, version: nat) { Stored(w, s) == Some(w.text(version)) }

  predicate LastDrawnAccepted(s: State) {
    && s.order != [] && |s.order| == |s.agent.calls|
    && s.agent.calls[|s.order| - 1].returned && s.agent.calls[|s.order| - 1].yes
  }

  lemma LastDrawnIsHeld(w: World, s: State)
    requires Inv(w, s) && LastDrawnAccepted(s) && Cores.NotRemovedSince(s.agent)
    ensures s.order[|s.order| - 1] < |s.inbox| && Holds(w, s, s.inbox[s.order[|s.order| - 1]])
  {
    Cores.NewestReturnedDecides(w.texts, s.agent);
  }

  /** The goroutine that drew last carries what the newest message carries. */
  predicate LastDrawnIsNewest(w: World, s: State) {
    s.order != [] && s.inbox != [] && s.order[|s.order| - 1] < |s.inbox| &&
    w.text(s.inbox[s.order[|s.order| - 1]]) == w.text(s.inbox[|s.inbox| - 1])
  }

  /** When the goroutine that drew last was accepted, the agent holds the config it asked for, so
      it holds the newest one sent exactly when that goroutine carried it. */
  lemma NewestHeldIff(w: World, db: nat, run: seq<Step>)
    requires Possible(w, Boot(db), run)
    requires LastDrawnAccepted(Run(w, Boot(db), run)) && Cores.NotRemovedSince(Run(w, Boot(db), run).agent)
    ensures var s := Run(w, Boot(db), run);
      s.inbox != [] && (Holds(w, s, s.inbox[|s.inbox| - 1]) <==> LastDrawnIsNewest(w, s))
  {
    Always(w, Boot(db), run);
    HeldIff(w, Run(w, Boot(db), run));
  }

  lemma HeldIff(w: World, s: State)
    requires Inv(w, s) && LastDrawnAccepted(s) && Cores.NotRemovedSince(s.agent)
    ensures s.inbox != [] && (Holds(w, s, s.inbox[|s.inbox| - 1]) <==> LastDrawnIsNewest(w, s))
  {
    LastDrawnIsHeld(w, s);
  }

  lemma NewestDrawnLast(w: World, s: State)
    requires Inv(w, s) && s.late == 0 && s.inbox == s.panel.wire != [] && Answered(s, |s.inbox| - 1, true)
    ensures LastDrawnAccepted(s) && s.order[|s.order| - 1] == |s.inbox| - 1
  {
    var k: nat :| k < |s.order| && k < |s.agent.calls| && AnsweredBy(s, k, |s.inbox| - 1, true);
  }

  lemma QuietPanel(w: World, s: State)
    requires Inv(w, s) && Panel.Quiet(s.panel) && s.panel.outcome.Applied?
    ensures !s.out && s.panel.kickDb <= s.panel.outcome.version && Answered(s, |s.inbox| - 1, true)
    ensures s.inbox == s.panel.wire != [] && s.inbox[|s.inbox| - 1] == s.panel.outcome.version
  {
    forall i | 0 <= i < |s.panel.threads|
      ensures s.panel.threads[i].pc.Gone?
    {
      assert s.panel.threads[i] in s.panel.threads;
    }
    Panel.QuietIsCurrent(s.panel);
  }

  predicate Settled(s: State) {
    Panel.Quiet(s.panel) && s.panel.outcome.Applied? && s.late == 0 && Cores.NotRemovedSince(s.agent)
  }

  /** From the kick to the agent: when a server is quiet after an acknowledged push and no try was
      ever given up after it had arrived, the agent holds a config with every write made before
      the last kick. */
  lemma KickReachesAgent(w: World, db: nat, run: seq<Step>)
    requires Possible(w, Boot(db), run) && Settled(Run(w, Boot(db), run))
    ensures var s := Run(w, Boot(db), run);
      s.panel.kickDb <= s.panel.outcome.version && Holds(w, s, s.panel.outcome.version)
  {
    Always(w, Boot(db), run);
    var s := Run(w, Boot(db), run);
    QuietPanel(w, s);
    NewestDrawnLast(w, s);
    LastDrawnIsHeld(w, s);
  }

  lemma {:induction false} OneMore(w: World, s: State, run: seq<Step>, e: Step)
    requires Possible(w, s, run) && Enabled(Run(w, s, run), e)
    ensures Possible(w, s, run + [e]) && Run(w, s, run + [e]) == Take(w, Run(w, s, run), e)
    decreases |run|
  {
    if run == [] {
      assert run + [e] == [e];
    } else {
      OneMore(w, Take(w, s, run[0]), run[1..], e);
      assert (run + [e])[1..] == run[1..] + [e];
    }
  }

  /** What the machine does when everything works. */
  const FINE := Cores.World(true, false, true, None, true, true, true, None, true)

  /** A handler's push of version 0 arrives and times out three times; it gives up. */
  lemma GivenUp(w: World) returns (run: seq<Step>)
    ensures Possible(w, Boot(0), run)
    ensures var s := Run(w, Boot(0), run);
      s == Boot(0).(inbox := [0], late := 1,
        panel := Panel.Boot(0).(threads := [Panel.Thread(false, Panel.Gone)], wire := [0], outcome := Panel.Refused))
  {
    run := [];
    OneMore(w, Boot(0), run, Server(Panel.Call)); run := run + [Server(Panel.Call)];
    OneMore(w, Boot(0), run, Server(Panel.Lock(0))); run := run + [Server(Panel.Lock(0))];
    OneMore(w, Boot(0), run, Server(Panel.Built(0, 0))); run := run + [Server(Panel.Built(0, 0))];
    OneMore(w, Boot(0), run, Post(0)); run := run + [Post(0)];
    OneMore(w, Boot(0), run, Answer(0, Panel.Transient)); run := run + [Answer(0, Panel.Transient)];
    OneMore(w, Boot(0), run, Answer(0, Panel.Transient)); run := run + [Answer(0, Panel.Transient)];
    OneMore(w, Boot(0), run, Answer(0, Panel.Transient)); run := run + [Answer(0, Panel.Transient)];
  }

  /** The panel while version 1 is being pushed, and after. */
  function Second(pc: Panel.Pc, wire: seq<nat>, outcome: Panel.Outcome): Panel.State {
    Panel.Boot(0).(db := 1, threads := [Panel.Thread(false, Panel.Gone), Panel.Thread(false, pc)], wire := wire,
                   outcome := outcome, floor := 1)
  }

  /** Then version 1 is built. */
  lemma NextBuilt(w: World) returns (run: seq<Step>)
    ensures Possible(w, Boot(0), run)
    ensures Run(w, Boot(0), run) ==
            State(Second(Panel.Sending(1, 0), [0], Panel.Refused), [0], false, [], Cores.START, 1)
  {
    run := GivenUp(w);
    OneMore(w, Boot(0), run, Server(Panel.Write)); run := run + [Server(Panel.Write)];
    OneMore(w, Boot(0), run, Server(Panel.Call)); run := run + [Server(Panel.Call)];
    OneMore(w, Boot(0), run, Server(Panel.Lock(1))); run := run + [Server(Panel.Lock(1))];
    OneMore(w, Boot(0), run, Server(Panel.Built(1, 1))); run := run + [Server(Panel.Built(1, 1))];
  }

  /** Its message arrives and draws a generation. */
  lemma NextDrawn(w: World) returns (run: seq<Step>)
    ensures Possible(w, Boot(0), run)
    ensures Run(w, Boot(0), run) ==
            State(Second(Panel.Sending(1, 0), [0], Panel.Refused), [0, 1], true, [1],
                  Cores.Gens(1, [Cores.Call(1, Some(w.text(1)), false, false)], [], [], 0), 1)
  {
    run := NextBuilt(w);
    OneMore(w, Boot(0), run, Post(1)); run := run + [Post(1)];
    OneMore(w, Boot(0), run, Draw(1)); run := run + [Draw(1)];
  }

  /** It is accepted and acknowledged. */
  lemma NextAcked(w: World) returns (run: seq<Step>)
    ensures Possible(w, Boot(0), run)
    ensures Run(w, Boot(0), run) ==
            State(Second(Panel.Gone, [0, 1], Panel.Applied(1)), [0, 1], false, [1], OnceApplied(w), 1)
  {
    run := NextDrawn(w);
    var s, e := Run(w, Boot(0), run), Local(Cores.Finish(0, FINE));
    FirstApply(w, s.agent);
    OneMore(w, Boot(0), run, e);
    run := run + [e];
    assert AnsweredBy(Take(w, s, e), 0, 1, true);
    OneMore(w, Boot(0), run, Answer(1, Panel.Acked));
    run := run + [Answer(1, Panel.Acked)];
  }

  /** And only then does the goroutine of the message given up before enter Apply: the agent ends
      with the older config. */
  lemma LateTryWins(w: World) returns (run: seq<Step>)
    requires w.text(0) != w.text(1)
    ensures Possible(w, Boot(0), run)
    ensures var s := Run(w, Boot(0), run);
      && Panel.Quiet(s.panel) && s.panel.outcome == Panel.Applied(1) && s.inbox == [0, 1]
      && Cores.AllReturned(s.agent) && Stored(w, s) == Some(w.text(0))
  {
    run := NextAcked(w);
    var s, e := Run(w, Boot(0), run), Local(Cores.Finish(1, FINE));
    OneMore(w, Boot(0), run, Draw(0));
    run := run + [Draw(0)];
    SecondApply(w, Take(w, s, Draw(0)).agent);
    OneMore(w, Boot(0), run, e);
    run := run + [e];
  }

  function OnceApplied(w: World): Cores.Gens {
    Cores.Gens(1, [Cores.Call(1, Some(w.text(1)), true, true)], [Cores.Applied(Some(w.text(1)), FINE)], [1], 0)
  }

  lemma FirstApply(w: World, g: Cores.Gens)
    requires g == Cores.Gens(1, [Cores.Call(1, Some(w.text(1)), false, false)], [], [], 0)
    ensures Cores.Moved(w.texts, g, Cores.Finish(0, FINE)) == OnceApplied(w)
  {
  }

  lemma SecondApply(w: World, g: Cores.Gens)
    requires w.text(0) != w.text(1)
    requires g == OnceApplied(w).(gen := 2,
      calls := OnceApplied(w).calls + [Cores.Call(2, Some(w.text(0)), false, false)])
    ensures var g' := Cores.Moved(w.texts, g, Cores.Finish(1, FINE));
      Cores.AllReturned(g') && Cores.Run(w.texts, g'.trace).req == Some(w.text(0))
  {
    var t := g.trace + [Cores.Applied(Some(w.text(0)), FINE)];
    assert g.trace[..0] == [] && t[..1] == g.trace;
  }
}
