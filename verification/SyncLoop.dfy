/**
 How a change in the panel's database reaches an agent (syncServers, kickSync, syncLoop and
 pushServer in internal/server/sync.go).
 */
module SyncLoop {

  // ---- The two flags ------------------------------------------------------------------

  datatype Flags = Flags(want: bool, run: bool)

  /** kickSync under its lock; the caller starts a loop when none was running. */
  function OnKick(f: Flags): Flags { Flags(true, true) }

  /** The head of syncLoop under the lock; the loop goes on when something was wanted. */
  function OnTop(f: Flags): Flags { if f.want then f.(want := false) else f.(run := false) }

  /** The panel's table of flags, one pair for each server. */
  class SyncTable {
    var wants: set<int>
    var runs: set<int>

    constructor ()
      ensures wants == {} && runs == {}
    {
      wants, runs := {}, {};
    }

    function At(id: int): Flags
      reads this
    {
      Flags(id in wants, id in runs)
    }

    /** kickSync. */
    method Kick(id: int) returns (spawn: bool)
      modifies this
      ensures spawn == !old(At(id)).run
      ensures At(id) == OnKick(old(At(id))) && forall other | other != id :: At(other) == old(At(other))
    {
      wants := wants + {id};
      if id in runs { return false; }
      runs := runs + {id};
      spawn := true;
    }

    /** One turn at the head of syncLoop. */
    method Next(id: int) returns (go: bool)
      modifies this
      ensures go == old(At(id)).want
      ensures At(id) == OnTop(old(At(id))) && forall other | other != id :: At(other) == old(At(other))
    {
      if id !in wants {
        runs := runs - {id};
        return false;
      }
      wants := wants - {id};
      go := true;
    }

    /** syncServers: every server named is kicked once, server 0 is skipped, and a loop is
        started exactly for those that had none. */
    method SyncServers(ids: seq<int>) returns (spawned: seq<int>)
      modifies this
      ensures forall id :: At(id) == if id in ids && id != 0 then OnKick(old(At(id))) else old(At(id))
      ensures forall id :: id in spawned <==> id in ids && id != 0 && !old(At(id)).run
      ensures forall i, j | 0 <= i < j < |spawned| :: spawned[i] != spawned[j]
    {
      var seen: set<int> := {};
      spawned := [];
      for i := 0 to |ids|
        invariant forall id :: id in seen <==> id in ids[..i] && id != 0
        invariant forall id :: At(id) == if id in seen then OnKick(old(At(id))) else old(At(id))
        invariant forall id :: id in spawned <==> id in seen && !old(At(id)).run
        invariant forall j, k | 0 <= j < k < |spawned| :: spawned[j] != spawned[k]
      {
        var id := ids[i];
        assert ids[..i + 1] == ids[..i] + [id];
        if id == 0 || id in seen { continue; }
        seen := seen + {id};
        var spawn := Kick(id);
        if spawn { spawned := spawned + [id]; }
      }
      assert ids[..|ids|] == ids;
    }
  }

  // ---- One push ------------------------------------------------------------------------

  datatype Reply = Acked | Transient | Fatal

  const TRIES := 3

  /** The tries made: up to the first that is not a passing failure, at most three. */
  function Tries(replies: nat -> Reply, i: nat): nat
    requires i < TRIES
    decreases TRIES - i
  {
    if replies(i).Transient? && i + 1 < TRIES then Tries(replies, i + 1) else i + 1
  }

  /** The server's row: the revision recorded as in use, and whether an apply error is shown. */
  class ServerRow {
    var rev: string
    var failed: bool

    constructor ()
      ensures rev == "" && !failed
    {
      rev, failed := "", false;
    }

    /** pushServer, once the server is locked. built is the revision of the config, unless the
        build failed; replies are what the agent answers try by try. */
    method Push(built: string, buildOk: bool, online: bool, replies: nat -> Reply) returns (ok: bool, tries: nat)
      modifies this
      ensures ok <==>
        (buildOk &&
          (!online ||
            exists k: nat | k < TRIES :: replies(k).Acked? && forall j: nat | j < k :: replies(j).Transient?))
      ensures rev == if ok then built else old(rev)
      ensures failed == if !buildOk then true else if !online then old(failed) else !ok
      ensures tries == if buildOk && online then Tries(replies, 0) else 0
    {
      tries := 0;
      if !buildOk {
        failed := true;
        return false, tries;
      }
      if !online {
        rev := built;
        return true, tries;
      }
      var last := Transient;
      while tries < TRIES && last.Transient?
        invariant tries <= TRIES && forall j: nat | j + 1 < tries :: replies(j).Transient?
        invariant tries > 0 ==> last == replies(tries - 1)
        invariant tries == 0 ==> last.Transient?
        invariant tries < TRIES && last.Transient? ==> Tries(replies, 0) == Tries(replies, tries)
        invariant !(tries < TRIES && last.Transient?) ==> Tries(replies, 0) == tries
      {
        last := replies(tries);
        tries := tries + 1;
      }
      ok := last.Acked?;
      failed := !ok;
      if ok { rev := built; }
    }
  }

  // ---- One server: every interleaving of kicks, loops and direct pushes ---------------

  /** Where a goroutine stands. Waiting has not yet locked the server; Building and Sending
      hold that lock. */
  datatype Pc =
    | Spawning
    | Top
    | Waiting
    | Building(floor: nat)
    | Sending(version: nat, tries: nat)
    | Gone

  /** A sync loop, or a handler calling pushServer itself. */
  datatype Thread = Thread(loop: bool, pc: Pc)

  datatype Outcome = Never | BuildFailed | Offline | Refused | Applied(version: nat)

  /** db counts committed writes. wire lists the versions of the configs that reached the
      agent, in order. kicks and kickDb describe the last kick; served is the number of kicks
      made before the last build began. */
  datatype State = State(
    db: nat, flags: Flags, threads: seq<Thread>, wire: seq<nat>, outcome: Outcome,
    kicks: nat, kickDb: nat, served: nat, floor: nat)

  function Boot(db: nat): State { State(db, Flags(false, false), [], [], Never, 0, 0, 0, 0) }

  datatype Step =
    | Write
    | Kick
    | Call
    | Start(i: nat)
    | AtTop(i: nat)
    | Lock(i: nat)
    | Built(i: nat, version: nat)
    | BuildError(i: nat)
    | NotOnline(i: nat)
    | Attempt(i: nat, delivered: bool, reply: Reply)

  predicate Holding(t: Thread) { t.pc.Building? || t.pc.Sending? }

  predicate Alive(t: Thread) { t.loop && !t.pc.Gone? }

  function Goto(s: State, i: nat, pc: Pc): State
    requires i < |s.threads|
  {
    s.(threads := s.threads[i := s.threads[i].(pc := pc)])
  }

  /** A push is over: the loop goes back to its head, a handler is done. */
  function Finish(s: State, i: nat, outcome: Outcome): State
    requires i < |s.threads|
  {
    Goto(s, i, if s.threads[i].loop then Top else Gone).(outcome := outcome)
  }

  /** The steps that can be taken in a state. A build reads its version some time between its
      beginning and its end. A config is acknowledged only if it was delivered. */
  predicate Enabled(s: State, e: Step) {
    match e
    case Write | Kick | Call => true
    case Start(i) => i < |s.threads| && s.threads[i].pc.Spawning?
    case AtTop(i) => i < |s.threads| && s.threads[i].pc.Top?
    case Lock(i) => i < |s.threads| && s.threads[i].pc.Waiting? && forall t | t in s.threads :: !Holding(t)
    case Built(i, v) => i < |s.threads| && s.threads[i].pc.Building? && s.threads[i].pc.floor <= v <= s.db
    case BuildError(i) => i < |s.threads| && s.threads[i].pc.Building?
    case NotOnline(i) => i < |s.threads| && s.threads[i].pc.Sending? && s.threads[i].pc.tries == 0
    case Attempt(i, delivered, reply) => i < |s.threads| && s.threads[i].pc.Sending? && (reply.Acked? ==> delivered)
  }

  function Take(s: State, e: Step): State
    requires Enabled(s, e)
  {
    match e
    case Write => s.(db := s.db + 1)
    case Kick =>
      var s' := s.(flags := OnKick(s.flags), kicks := s.kicks + 1, kickDb := s.db);
      if s.flags.run then s' else s'.(threads := s.threads + [Thread(true, Spawning)])
    case Call => s.(threads := s.threads + [Thread(false, Waiting)])
    case Start(i) => Goto(s, i, Top)
    case AtTop(i) => Goto(s, i, if s.flags.want then Waiting else Gone).(flags := OnTop(s.flags))
    case Lock(i) => Goto(s, i, Building(s.db)).(served := s.kicks, floor := s.db)
    case Built(i, v) => Goto(s, i, Sending(v, 0))
    case BuildError(i) => Finish(s, i, BuildFailed)
    case NotOnline(i) => Finish(s, i, Offline)
    case Attempt(i, delivered, reply) =>
      var pc := s.threads[i].pc;
      var s' := if delivered then s.(wire := s.wire + [pc.version]) else s;
      (match reply
       case Acked => Finish(s', i, Applied(pc.version))
       case Fatal => Finish(s', i, Refused)
       case Transient => if pc.tries < 2 then Goto(s', i, Sending(pc.version, pc.tries + 1))
         else Finish(s', i, Refused))
  }

  predicate Possible(s: State, run: seq<Step>)
    decreases |run|
  {
    run == [] || (Enabled(s, run[0]) && Possible(Take(s, run[0]), run[1..]))
  }

  function Run(s: State, run: seq<Step>): State
    requires Possible(s, run)
    decreases |run|
  {
    if run == [] then s else Run(Take(s, run[0]), run[1..])
  }

  // ---- What every interleaving keeps ----------------------------------------------------

  ghost predicate SomeLoop(s: State) { exists i | 0 <= i < |s.threads| :: Alive(s.threads[i]) }

  /** At most one loop, and exactly while run is set. */
  ghost predicate OneLoop(s: State) {
    && (forall i, j | 0 <= i < j < |s.threads| :: !Alive(s.threads[i]) || !Alive(s.threads[j]))
    && (s.flags.run <==> SomeLoop(s))
    && (s.flags.want ==> s.flags.run)
  }

  ghost predicate Locked(s: State) { exists i | 0 <= i < |s.threads| :: Holding(s.threads[i]) }

  ghost predicate OneHolder(s: State) {
    forall i, j | 0 <= i < j < |s.threads| :: !Holding(s.threads[i]) || !Holding(s.threads[j])
  }

  ghost predicate AboutToBuild(s: State) {
    exists i | 0 <= i < |s.threads| :: s.threads[i].loop && s.threads[i].pc.Waiting?
  }

  /** A kick no build has begun after is still wanted, or the loop is on its way to the build. */
  ghost predicate NothingLost(s: State) {
    && s.served <= s.kicks && s.kickDb <= s.db
    && (s.served < s.kicks ==> s.flags.want || AboutToBuild(s))
    && (s.served == s.kicks ==> s.kickDb <= s.floor)
  }

  predicate UpTo(w: seq<nat>, top: nat) { forall i | 0 <= i < |w| :: w[i] <= top }

  predicate Sorted(w: seq<nat>) { forall i, j | 0 <= i < j < |w| :: w[i] <= w[j] }

  /** What a thread knows at its place. */
  predicate Local(t: Thread, floor: nat, db: nat, wire: seq<nat>) {
    match t.pc
    case Spawning | Top => t.loop
    case Building(f) => f == floor && UpTo(wire, f)
    case Sending(v, tries) => floor <= v <= db && UpTo(wire, v) && tries <= 2
    case _ => true
  }

  /** The versions on the wire only go up, and stay below what the running push sends. */
  ghost predicate Ordered(s: State) {
    && s.floor <= s.db && Sorted(s.wire) && UpTo(s.wire, s.db)
    && forall i | 0 <= i < |s.threads| :: Local(s.threads[i], s.floor, s.db, s.wire)
  }

  /** When nobody holds the lock, an applied push is the last the agent got. */
  ghost predicate Delivered(s: State) {
    !Locked(s) && s.outcome.Applied? ==>
      s.floor <= s.outcome.version && s.wire != [] && s.wire[|s.wire| - 1] == s.outcome.version
  }

  ghost predicate Inv(s: State) {
    OneLoop(s) && OneHolder(s) && NothingLost(s) && Ordered(s) && Delivered(s)
  }

  lemma LoopMoves(s: State, i: nat, s': State)
    requires OneLoop(s) && i < |s.threads| && |s'.threads| == |s.threads|
    requires forall j | 0 <= j < |s.threads| && j != i :: s'.threads[j] == s.threads[j]
    requires (s'.flags == s.flags && Alive(s'.threads[i]) == Alive(s.threads[i])) ||
             (Alive(s.threads[i]) && s'.flags == Flags(false, Alive(s'.threads[i])))
    ensures OneLoop(s')
  {
    if SomeLoop(s) {
      var k :| 0 <= k < |s.threads| && Alive(s.threads[k]);
      assert k == i || s'.threads[k] == s.threads[k];
    }
    if Alive(s.threads[i]) { assert SomeLoop(s); }
    if Alive(s'.threads[i]) { assert SomeLoop(s'); }
  }

  lemma LoopStarts(s: State, s': State)
    requires OneLoop(s) && !s.flags.run && s'.flags == Flags(true, true)
    requires s'.threads == s.threads + [Thread(true, Spawning)]
    ensures OneLoop(s')
  {
    assert Alive(s'.threads[|s.threads|]);
  }

  lemma LoopStays(s: State, s': State)
    requires OneLoop(s) && s'.flags.run == s.flags.run && (s'.flags.want ==> s.flags.run)
    requires s'.threads == s.threads || exists t :: !Alive(t) && s'.threads == s.threads + [t]
    ensures OneLoop(s')
  {
    if SomeLoop(s) {
      var k :| 0 <= k < |s.threads| && Alive(s.threads[k]);
      assert s'.threads[k] == s.threads[k];
    }
  }

  lemma TopKeepsOneLoop(s: State, i: nat)
    requires OneLoop(s) && Ordered(s) && Enabled(s, AtTop(i))
    ensures OneLoop(Take(s, AtTop(i)))
  {
    assert Local(s.threads[i], s.floor, s.db, s.wire);
    LoopMoves(s, i, Take(s, AtTop(i)));
  }

  lemma StartKeepsOneLoop(s: State, i: nat)
    requires OneLoop(s) && Enabled(s, Start(i))
    ensures OneLoop(Take(s, Start(i)))
  {
    LoopMoves(s, i, Take(s, Start(i)));
  }

  lemma LockKeepsOneLoop(s: State, i: nat)
    requires OneLoop(s) && Enabled(s, Lock(i))
    ensures OneLoop(Take(s, Lock(i)))
  {
    LoopMoves(s, i, Take(s, Lock(i)));
  }

  lemma BuildKeepsOneLoop(s: State, e: Step)
    requires OneLoop(s) && Enabled(s, e) && (e.Built? || e.BuildError?)
    ensures OneLoop(Take(s, e))
  {
    LoopMoves(s, e.i, Take(s, e));
  }

  lemma SendKeepsOneLoop(s: State, e: Step)
    requires OneLoop(s) && Enabled(s, e) && (e.NotOnline? || e.Attempt?)
    ensures OneLoop(Take(s, e))
  {
    LoopMoves(s, e.i, Take(s, e));
  }

  lemma KeepsOneLoop(s: State, e: Step)
    requires OneLoop(s) && Ordered(s) && Enabled(s, e)
    ensures OneLoop(Take(s, e))
  {
    match e
    case Write | Call => LoopStays(s, Take(s, e));
    case Kick => if s.flags.run { LoopStays(s, Take(s, e)); } else { LoopStarts(s, Take(s, e)); }
    case AtTop(i) => TopKeepsOneLoop(s, i);
    case Start(i) => StartKeepsOneLoop(s, i);
    case Lock(i) => LockKeepsOneLoop(s, i);
    case Built(_, _) | BuildError(_) => BuildKeepsOneLoop(s, e);
    case NotOnline(_) | Attempt(_, _, _) => SendKeepsOneLoop(s, e);
  }

  lemma KeepsOneHolder(s: State, e: Step)
    requires OneHolder(s) && Enabled(s, e)
    ensures OneHolder(Take(s, e))
  {
    var s' := Take(s, e);
    if e.Lock? {
      forall j | 0 <= j < |s.threads|
        ensures !Holding(s.threads[j])
      {
        assert s.threads[j] in s.threads;
      }
    }
  }

  lemma KeepsNothingLost(s: State, e: Step)
    requires Inv(s) && Enabled(s, e)
    ensures NothingLost(Take(s, e))
  {
    var s' := Take(s, e);
    if s.served < s.kicks && !s.flags.want {
      var k :| 0 <= k < |s.threads| && s.threads[k].loop && s.threads[k].pc.Waiting?;
      assert e.Lock? || s'.threads[k] == s.threads[k];
    }
    if e.AtTop? {
      assert Local(s.threads[e.i], s.floor, s.db, s.wire);
      assert s'.threads[e.i].loop;
    }
  }

  lemma ThreadMoves(s: State, i: nat, s': State)
    requires Ordered(s) && OneHolder(s) && i < |s.threads| && |s'.threads| == |s.threads|
    requires forall j | 0 <= j < |s.threads| && j != i :: s'.threads[j] == s.threads[j]
    requires s'.db == s.db && s'.floor <= s'.db && Sorted(s'.wire) && UpTo(s'.wire, s'.db)
    requires Local(s'.threads[i], s'.floor, s'.db, s'.wire)
    requires (s'.floor == s.floor && s'.wire == s.wire) || Holding(s.threads[i]) || !Locked(s)
    ensures Ordered(s')
  {
    forall j | 0 <= j < |s.threads| && j != i
      ensures Local(s'.threads[j], s'.floor, s'.db, s'.wire)
    {
      assert Local(s.threads[j], s.floor, s.db, s.wire);
    }
  }

  lemma AttemptOrdered(s: State, e: Step)
    requires OneHolder(s) && Ordered(s) && Enabled(s, e) && e.Attempt?
    ensures Ordered(Take(s, e))
  {
    assert Local(s.threads[e.i], s.floor, s.db, s.wire);
    ThreadMoves(s, e.i, Take(s, e));
  }

  lemma KeepsOrdered(s: State, e: Step)
    requires OneHolder(s) && Ordered(s) && Enabled(s, e)
    ensures Ordered(Take(s, e))
  {
    var s' := Take(s, e);
    match e
    case Write =>
      forall i | 0 <= i < |s.threads|
        ensures Local(s.threads[i], s.floor, s.db + 1, s.wire)
      {
        assert Local(s.threads[i], s.floor, s.db, s.wire);
      }
    case Kick | Call =>
    case Lock(i) =>
      forall j | 0 <= j < |s.threads|
        ensures !Holding(s.threads[j])
      {
        assert s.threads[j] in s.threads;
      }
      ThreadMoves(s, i, s');
    case Attempt(_, _, _) => AttemptOrdered(s, e);
    case _ =>
      assert Local(s.threads[e.i], s.floor, s.db, s.wire);
      ThreadMoves(s, e.i, s');
  }

  /** The lock is given back only by the thread that ends its push. */
  lemma Unlocked(s: State, e: Step)
    requires OneHolder(s) && Enabled(s, e) && Locked(s) && !Locked(Take(s, e))
    ensures e.BuildError? || e.NotOnline? || e.Attempt?
  {
    var k :| 0 <= k < |s.threads| && Holding(s.threads[k]);
    assert !Holding(Take(s, e).threads[k]);
  }

  lemma KeepsDelivered(s: State, e: Step)
    requires Inv(s) && Enabled(s, e)
    ensures Delivered(Take(s, e))
  {
    var s' := Take(s, e);
    if e.Built? || e.BuildError? || e.NotOnline? || e.Attempt? { assert Holding(s.threads[e.i]); }
    if e.Lock? { assert Holding(s'.threads[e.i]); }
    if Locked(s) && !Locked(s') {
      Unlocked(s, e);
      assert !Holding(s'.threads[e.i]);
      assert Local(s.threads[e.i], s.floor, s.db, s.wire);
    }
  }

  lemma Keeps(s: State, e: Step)
    requires Inv(s) && Enabled(s, e)
    ensures Inv(Take(s, e))
  {
    KeepsOneLoop(s, e);
    KeepsOneHolder(s, e);
    KeepsNothingLost(s, e);
    KeepsOrdered(s, e);
    KeepsDelivered(s, e);
  }

  lemma {:induction false} Always(s: State, run: seq<Step>)
    requires Inv(s) && Possible(s, run)
    ensures Inv(Run(s, run))
    decreases |run|
  {
    if run != [] {
      Keeps(s, run[0]);
      Always(Take(s, run[0]), run[1..]);
    }
  }

  // ---- Main results ------------------------------------------------------------------------

  predicate Quiet(s: State) { forall t | t in s.threads :: t.pc.Gone? }

  /** In every interleaving there is at most one loop, and want implies run. */
  lemma AtMostOneLoop(db: nat, run: seq<Step>, i: nat, j: nat)
    requires Possible(Boot(db), run)
    ensures var s := Run(Boot(db), run);
      && (s.flags.want ==> s.flags.run)
      && (i < |s.threads| && j < |s.threads| && Alive(s.threads[i]) && Alive(s.threads[j]) ==> i == j)
  {
    Always(Boot(db), run);
  }

  lemma QuietIsCurrent(s: State)
    requires Inv(s) && Quiet(s)
    ensures s.flags == Flags(false, false) && s.served == s.kicks && s.kickDb <= s.floor && !Locked(s)
    ensures s.outcome.Applied? ==>
      s.wire != [] && s.wire[|s.wire| - 1] == s.outcome.version && s.kickDb <= s.outcome.version
  {
    forall i | 0 <= i < |s.threads|
      ensures s.threads[i].pc.Gone?
    {
      assert s.threads[i] in s.threads;
    }
  }

  /** No update is lost: when a server is quiet, its last build began after its last kick, so
      it read every write made before that kick. */
  lemma NoLostUpdate(db: nat, run: seq<Step>)
    requires Possible(Boot(db), run) && Quiet(Run(Boot(db), run))
    ensures var s := Run(Boot(db), run);
      s.flags == Flags(false, false) && s.served == s.kicks && s.kickDb <= s.floor
  {
    Always(Boot(db), run);
    QuietIsCurrent(Run(Boot(db), run));
  }

  /** The versions the agent receives never go back, whoever pushes. */
  lemma AgentNeverGoesBack(db: nat, run: seq<Step>)
    requires Possible(Boot(db), run)
    ensures Sorted(Run(Boot(db), run).wire)
  {
    Always(Boot(db), run);
  }

  /** If moreover the last push was acknowledged, the agent's newest config holds every write
      made before the last kick. */
  lemma QuietAgentIsCurrent(db: nat, run: seq<Step>)
    requires Possible(Boot(db), run) && Quiet(Run(Boot(db), run)) && Run(Boot(db), run).outcome.Applied?
    ensures var s := Run(Boot(db), run);
      s.wire != [] && s.kickDb <= s.wire[|s.wire| - 1]
  {
    Always(Boot(db), run);
    QuietIsCurrent(Run(Boot(db), run));
  }

  /** A bound on the steps a loop still takes when nobody kicks. */
  function Left(s: State, t: Thread): int {
    (match t.pc
     case Spawning => 2
     case Top => 1
     case Waiting => 6
     case Building(_) => 5
     case Sending(_, tries) => 4 - tries
     case Gone => 0) + (if s.flags.want then 6 else 0)
  }

  predicate Of(e: Step, i: nat) { !e.Write? && !e.Kick? && !e.Call? && e.i == i }

  /** Without another kick the loop comes to rest: each of its steps uses the bound up, and no
      other thread's step gives any back. */
  lemma LoopSettles(s: State, e: Step, i: nat)
    requires Inv(s) && Enabled(s, e) && !e.Kick? && i < |s.threads| && Alive(s.threads[i])
    ensures var s' := Take(s, e);
      && 0 <= Left(s', s'.threads[i]) <= Left(s, s.threads[i])
      && (Of(e, i) ==> Left(s', s'.threads[i]) < Left(s, s.threads[i]))
  {
    assert Local(s.threads[i], s.floor, s.db, s.wire);
    if e.AtTop? {
      assert Local(s.threads[e.i], s.floor, s.db, s.wire);
      assert Alive(s.threads[e.i]);
    }
  }
}
