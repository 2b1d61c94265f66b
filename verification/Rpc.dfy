/**
 Calls from the panel to one agent over its websocket, and the mark that says whether the
 agent is there (ServeWS, registerConn, unregisterConn, Drop, DropAll, SendRPC and dispatchAck
 in internal/server/hub.go, reconcileOnline in internal/server/handlers_servers.go, restoring a
 backup in internal/server/handlers_backup.go).
 */
module Rpc {

  import opened Options

  // ---- One connection's table of waiting calls ---------------------------------------------

  /** seq is the last id handed out; pending maps an id to the call waiting for it. */
  datatype Waiting = Waiting(last: nat, pending: map<nat, nat>)

  function OnEnter(w: Waiting, id: nat, call: nat): Waiting { w.(pending := w.pending[id := call]) }

  function OnGone(w: Waiting, id: nat): Waiting { w.(pending := w.pending - {id}) }

  class AgentConn {
    var last: nat
    var pending: map<nat, nat>

    constructor ()
      ensures Table() == Waiting(0, map[])
    {
      last, pending := 0, map[];
    }

    function Table(): Waiting
      reads this
    {
      Waiting(last, pending)
    }

    /** nextID. */
    method NextId() returns (id: nat)
      modifies this`last
      ensures id == last == old(last) + 1
    {
      last := last + 1;
      id := last;
    }

    /** What SendRPC does on its way in. */
    method Enter(id: nat, call: nat)
      modifies this`pending
      ensures Table() == OnEnter(old(Table()), id, call)
    {
      pending := pending[id := call];
    }

    /** dispatchAck: a reply is taken by the call waiting for its id, or by nobody. */
    method Dispatch(id: nat) returns (call: Option<nat>)
      modifies this
      ensures Table() == OnGone(old(Table()), id)
      ensures call == if id in old(pending) then Some(old(pending)[id]) else None
    {
      if id !in pending {
        assert pending - {id} == pending;
        return None;
      }
      call := Some(pending[id]);
      pending := pending - {id};
    }

    /** What SendRPC does on its way out. */
    method Leave(id: nat)
      modifies this
      ensures Table() == OnGone(old(Table()), id)
    {
      pending := pending - {id};
    }
  }

  // ---- Every interleaving of connections, calls and replies ----------------------------------

  datatype Link = Link(open: bool, table: Waiting)

  /** entered says whether the call is or was in the table; hand is the reply taken out for it,
      box what has arrived on its channel, result what the caller was told. */
  datatype Call = Call(conn: nat, id: nat, entered: bool, hand: Option<string>, box: Option<string>, done: bool,
                       result: Option<string>)

  datatype Reply = Reply(conn: nat, id: nat, payload: string)

  /** log holds the replies to ids that had been entered when they came. greet holds the
      connections whose goroutine has yet to write the online mark, offs counts the goroutines
      about to write that the server is offline, wipes those that are restoring a backup, and
      mark is what the database says. */
  datatype State = State(links: seq<Link>, current: Option<nat>, calls: seq<Call>, log: seq<Reply>,
                         greet: set<nat>, offs: nat, wipes: nat, mark: bool)

  const EMPTY := State([], None, [], [], {}, 0, 0, false)

  datatype Step =
    | Register
    | Unregister(c: nat)
    | Drop
    | DropAll
    | Import(mark: Option<bool>)
    | MarkOn(c: nat, ok: bool)
    | FindStale
    | MarkOff(ok: bool)
    | Send(c: nat)
    | Enter(k: nat)
    | Receive(r: Reply)
    | HandOver(k: nat)
    | Return(k: nat)
    | GiveUp(k: nat)

  predicate Enabled(s: State, e: Step) {
    match e
    case Register | Drop | DropAll => true
    case Import(_) => s.wipes > 0
    case Unregister(c) => c < |s.links|
    case MarkOn(c, _) => c in s.greet
    case FindStale => s.current.None?
    case MarkOff(_) => s.offs > 0
    case Send(c) => c < |s.links|
    case Receive(r) => r.conn < |s.links|
    case Enter(k) => k < |s.calls| && s.calls[k].conn < |s.links| && !s.calls[k].entered
    case HandOver(k) => k < |s.calls| && s.calls[k].hand.Some? && s.calls[k].box.None?
    case Return(k) => Waits(s, k) && s.calls[k].box.Some?
    case GiveUp(k) => Waits(s, k)
  }

  predicate Waits(s: State, k: nat) {
    k < |s.calls| && s.calls[k].conn < |s.links| && s.calls[k].entered && !s.calls[k].done
  }

  /** Some call has been entered under this id. */
  predicate Begun(calls: seq<Call>, c: nat, id: nat) {
    exists k: nat | k < |calls| :: calls[k].entered && calls[k].conn == c && calls[k].id == id
  }

  function Shut(links: seq<Link>, c: Option<nat>): (r: seq<Link>)
    ensures |r| == |links|
  {
    if c.Some? && c.value < |links| then links[c.value := links[c.value].(open := false)] else links
  }

  function SetTable(s: State, c: nat, t: Waiting): State
    requires c < |s.links|
  {
    s.(links := s.links[c := s.links[c].(table := t)])
  }

  function Ended(s: State, k: nat, result: Option<string>): State
    requires k < |s.calls| && s.calls[k].conn < |s.links|
  {
    var c := s.calls[k];
    SetTable(s, c.conn, OnGone(s.links[c.conn].table, c.id)).(
      calls := s.calls[k := c.(done := true, result := result)])
  }

  /** A call goes out on the connection it looked up, which may have been replaced since. Drawing
      its id and entering it are two steps, and so are taking a reply out of the table and
      handing it over, which may come after the caller gave up. A replaced connection is closed;
      one that ends takes the server offline only if it is still the current one. The marks are
      written after the lock is released, and a write may fail; FindStale is a listing that
      finds no connection and sets out to clear the mark. Restoring a backup drops all connections
      and then imports the database with whatever mark it holds, which is cleared next; after an
      import that fails nothing is written. */
  function Take(s: State, e: Step): State
    requires Enabled(s, e)
  {
    match e
    case Register =>
      s.(links := Shut(s.links, s.current) + [Link(true, Waiting(0, map[]))], current := Some(|s.links|),
         greet := s.greet + {|s.links|})
    case Unregister(c) =>
      var gone := s.current == Some(c);
      s.(links := Shut(s.links, Some(c)), current := if gone then None else s.current, greet := s.greet - {c},
         offs := if gone then s.offs + 1 else s.offs)
    case Drop =>
      s.(links := Shut(s.links, s.current), current := None,
         offs := if s.current.Some? then s.offs + 1 else s.offs)
    case DropAll => s.(links := Shut(s.links, s.current), current := None, wipes := s.wipes + 1)
    case Import(mark) =>
      if mark.None? then s.(wipes := s.wipes - 1)
      else s.(wipes := s.wipes - 1, mark := mark.value, offs := s.offs + 1)
    case MarkOn(c, ok) => s.(greet := s.greet - {c}, mark := ok || s.mark)
    case FindStale => s.(offs := s.offs + 1)
    case MarkOff(ok) => s.(offs := s.offs - 1, mark := !ok && s.mark)
    case Send(c) =>
      var t := s.links[c].table;
      SetTable(s, c, t.(last := t.last + 1)).(
        calls := s.calls + [Call(c, t.last + 1, false, None, None, false, None)])
    case Enter(k) =>
      var c := s.calls[k];
      SetTable(s, c.conn, OnEnter(s.links[c.conn].table, c.id, k)).(calls := s.calls[k := c.(entered := true)])
    case HandOver(k) => s.(calls := s.calls[k := s.calls[k].(box := s.calls[k].hand)])
    case Receive(r) =>
      var t := s.links[r.conn].table;
      var s' := SetTable(s, r.conn, OnGone(t, r.id)).(
        log := if Begun(s.calls, r.conn, r.id) then s.log + [r] else s.log);
      if r.id in t.pending && t.pending[r.id] < |s.calls| then
        var k := t.pending[r.id];
        s'.(calls := s.calls[k := s.calls[k].(hand := Some(r.payload))])
      else s'
    case Return(k) => Ended(s, k, s.calls[k].box)
    case GiveUp(k) => Ended(s, k, None)
  }

  predicate Possible(s: State, run: seq<Step>)
    decreases |run|
  {
    run == [] || (Enabled(s, run[0]) && Possible(Take(s, run[0]), run[1..]))
  }

  function Run(s: State, run: seq<Step>): State
    requires Possible(s, run)
    decreases |run|
  {
    if run == [] then s else Run(Take(s, run[0]), run[1..])
  }

  /** The first reply to an id on a connection. */
  function FirstReply(log: seq<Reply>, c: nat, id: nat): Option<string> {
    if log == [] then None
    else
      var n := |log| - 1;
      var first := FirstReply(log[..n], c, id);
      if first.Some? then first else if log[n].conn == c && log[n].id == id then Some(log[n].payload) else None
  }

  lemma LogGrows(log: seq<Reply>, r: Reply, c: nat, id: nat)
    ensures FirstReply(log + [r], c, id) ==
      if FirstReply(log, c, id).None? && r.conn == c && r.id == id then Some(r.payload) else FirstReply(log, c, id)
  {
    assert (log + [r])[..|log|] == log;
  }

  // ---- What every interleaving keeps ------------------------------------------------------------

  /** Only the newest connection can be current, and it is while it is open. */
  predicate Current(s: State) {
    && (forall c | 0 <= c < |s.links| :: s.links[c].open <==> s.current == Some(c))
    && (s.current.Some? ==> s.current.value + 1 == |s.links|)
  }

  /** A call waits exactly until its first reply or its end. */
  predicate CallOk(s: State, k: nat)
    requires k < |s.calls|
  {
    var c := s.calls[k];
    && c.conn < |s.links|
    && var t := s.links[c.conn].table;
    && 1 <= c.id <= t.last
    && (c.id in t.pending <==> c.entered && !c.done && FirstReply(s.log, c.conn, c.id).None?)
    && (c.id in t.pending ==> t.pending[c.id] == k)
    && (c.hand.Some? ==> c.hand == FirstReply(s.log, c.conn, c.id))
    && (c.box.Some? ==> c.box == c.hand)
    && (c.result.Some? ==> c.result == c.box)
    && (c.entered && !c.done && FirstReply(s.log, c.conn, c.id).Some? ==> c.hand.Some?)
    && (!c.entered ==> !c.done && c.hand.None?)
  }

  predicate Calls(s: State) { forall k: nat | k < |s.calls| :: CallOk(s, k) }

  predicate Twins(a: Call, b: Call) { a.conn == b.conn && a.id == b.id }

  predicate OwnIds(s: State) { forall j: nat, k: nat | j < k < |s.calls| :: !Twins(s.calls[j], s.calls[k]) }

  /** Every waiting id belongs to a call. */
  predicate Backed(s: State) {
    forall c: nat, id: nat | c < |s.links| && id in s.links[c].table.pending :: Owned(s, c, id)
  }

  predicate Owned(s: State, c: nat, id: nat)
    requires c < |s.links| && id in s.links[c].table.pending
  {
    var k := s.links[c].table.pending[id];
    k < |s.calls| && s.calls[k].conn == c && s.calls[k].id == id
  }

  /** No reply is logged for an id not yet entered. */
  predicate Issued(s: State) { forall r | r in s.log :: Begun(s.calls, r.conn, r.id) }

  ghost predicate Inv(s: State) { Current(s) && Calls(s) && OwnIds(s) && Backed(s) && Issued(s) }

  lemma {:induction false} NoReplyYet(log: seq<Reply>, c: nat, id: nat)
    requires forall r | r in log :: r.conn != c || r.id != id
    ensures FirstReply(log, c, id).None?
  {
    if log != [] { NoReplyYet(log[..|log| - 1], c, id); }
  }

  /** An id that no call has entered yet has no reply in the log. */
  lemma NotAnswered(s: State, c: nat, id: nat)
    requires Issued(s) && !Begun(s.calls, c, id)
    ensures FirstReply(s.log, c, id).None?
  {
    NoReplyYet(s.log, c, id);
  }

  /** Calls keep their ids, and stay entered. */
  predicate Grown(calls: seq<Call>, calls': seq<Call>) {
    && |calls| <= |calls'|
    && forall k: nat | k < |calls| :: Twins(calls[k], calls'[k]) && (calls[k].entered ==> calls'[k].entered)
  }

  lemma StillBegun(calls: seq<Call>, calls': seq<Call>, c: nat, id: nat)
    requires Grown(calls, calls') && Begun(calls, c, id)
    ensures Begun(calls', c, id)
  {
    var k: nat :| k < |calls| && calls[k].entered && calls[k].conn == c && calls[k].id == id;
    assert Twins(calls[k], calls'[k]);
  }

  lemma StillIssued(s: State, s': State)
    requires Issued(s) && Grown(s.calls, s'.calls) && s'.log == s.log
    ensures Issued(s')
  {
    forall r | r in s'.log
      ensures Begun(s'.calls, r.conn, r.id)
    {
      StillBegun(s.calls, s'.calls, r.conn, r.id);
    }
  }

  lemma StillOwnIds(s: State, s': State)
    requires OwnIds(s) && Grown(s.calls, s'.calls) && |s'.calls| == |s.calls|
    ensures OwnIds(s')
  {
    forall j: nat, k: nat | j < k < |s'.calls|
      ensures !Twins(s'.calls[j], s'.calls[k])
    {
      assert !Twins(s.calls[j], s.calls[k]) && Twins(s.calls[j], s'.calls[j]) && Twins(s.calls[k], s'.calls[k]);
    }
  }

  lemma StillOwned(s: State, s': State, c: nat, id: nat)
    requires c < |s.links| && c < |s'.links| && id in s.links[c].table.pending && id in s'.links[c].table.pending
    requires s'.links[c].table.pending[id] == s.links[c].table.pending[id]
    requires Owned(s, c, id) && Grown(s.calls, s'.calls)
    ensures Owned(s', c, id)
  {
    assert Twins(s.calls[s.links[c].table.pending[id]], s'.calls[s.links[c].table.pending[id]]);
  }

  lemma LinksKeep(s: State, e: Step)
    requires Inv(s) && Enabled(s, e)
    requires e.Register? || e.Unregister? || e.Drop? || e.DropAll? ||
      e.Import? || e.MarkOn? || e.FindStale? || e.MarkOff?
    ensures Inv(Take(s, e))
  {
    var s' := Take(s, e);
    forall c | 0 <= c < |s.links|
      ensures s'.links[c].table == s.links[c].table
    {
    }
    forall k: nat | k < |s'.calls|
      ensures CallOk(s', k)
    {
      assert CallOk(s, k);
    }
    forall c: nat, id: nat | c < |s'.links| && id in s'.links[c].table.pending
      ensures Owned(s', c, id)
    {
      assert Owned(s, c, id);
    }
  }

  lemma SendKeeps(s: State, c: nat)
    requires Inv(s) && Enabled(s, Send(c))
    ensures Inv(Take(s, Send(c)))
  {
    var s', id := Take(s, Send(c)), s.links[c].table.last + 1;
    forall k: nat | k < |s.calls|
      ensures CallOk(s', k) && !Twins(s.calls[k], s'.calls[|s.calls|])
    {
      assert CallOk(s, k);
    }
    assert !Begun(s.calls, c, id);
    NotAnswered(s, c, id);
    assert CallOk(s', |s.calls|) by { assert id in s.links[c].table.pending ==> Owned(s, c, id); }
    forall j: nat, k: nat | j < k < |s'.calls|
      ensures !Twins(s'.calls[j], s'.calls[k])
    {
      if k < |s.calls| { assert !Twins(s.calls[j], s.calls[k]); }
    }
    StillIssued(s, s');
    forall x: nat, i: nat | x < |s'.links| && i in s'.links[x].table.pending
      ensures Owned(s', x, i)
    {
      StillOwned(s, s', x, i);
    }
  }

  lemma EnterKeeps(s: State, k: nat)
    requires Inv(s) && Enabled(s, Enter(k))
    ensures Inv(Take(s, Enter(k)))
  {
    var s', c := Take(s, Enter(k)), s.calls[k];
    forall j: nat | j < |s.calls| && j != k
      ensures !Twins(s.calls[j], c)
    {
      assert if j < k then !Twins(s.calls[j], c) else !Twins(c, s.calls[j]);
    }
    assert !Begun(s.calls, c.conn, c.id);
    NotAnswered(s, c.conn, c.id);
    forall j: nat | j < |s'.calls|
      ensures CallOk(s', j)
    {
      assert CallOk(s, j);
    }
    StillOwnIds(s, s');
    StillIssued(s, s');
    forall x: nat, i: nat | x < |s'.links| && i in s'.links[x].table.pending
      ensures Owned(s', x, i)
    {
      if x != c.conn || i != c.id { StillOwned(s, s', x, i); }
    }
  }

  /** What a reply changes for call k. */
  lemma ReceiveFor(s: State, r: Reply, k: nat)
    requires Inv(s) && Enabled(s, Receive(r)) && k < |s.calls|
    ensures CallOk(Take(s, Receive(r)), k)
  {
    var c, t := s.calls[k], s.links[r.conn].table;
    assert CallOk(s, k);
    LogGrows(s.log, r, c.conn, c.id);
    if r.id in t.pending {
      assert Owned(s, r.conn, r.id);
      var j := t.pending[r.id];
      assert CallOk(s, j);
      assert j < k ==> !Twins(s.calls[j], c);
      assert k < j ==> !Twins(c, s.calls[j]);
    }
  }

  lemma ReceiveKeeps(s: State, r: Reply)
    requires Inv(s) && Enabled(s, Receive(r))
    ensures Inv(Take(s, Receive(r)))
  {
    var s' := Take(s, Receive(r));
    forall k: nat | k < |s'.calls|
      ensures CallOk(s', k)
    {
      ReceiveFor(s, r, k);
    }
    assert Grown(s.calls, s'.calls);
    StillOwnIds(s, s');
    forall q | q in s'.log
      ensures Begun(s'.calls, q.conn, q.id)
    {
      StillBegun(s.calls, s'.calls, q.conn, q.id);
    }
    forall x: nat, i: nat | x < |s'.links| && i in s'.links[x].table.pending
      ensures Owned(s', x, i)
    {
      StillOwned(s, s', x, i);
    }
  }

  lemma HandOverKeeps(s: State, k: nat)
    requires Inv(s) && Enabled(s, HandOver(k))
    ensures Inv(Take(s, HandOver(k)))
  {
    var s' := Take(s, HandOver(k));
    forall j: nat | j < |s'.calls|
      ensures CallOk(s', j)
    {
      assert CallOk(s, j) && CallOk(s, k);
    }
    StillOwnIds(s, s');
    StillIssued(s, s');
    forall x: nat, i: nat | x < |s'.links| && i in s'.links[x].table.pending
      ensures Owned(s', x, i)
    {
      StillOwned(s, s', x, i);
    }
  }

  lemma EndKeeps(s: State, k: nat, result: Option<string>)
    requires Inv(s) && Waits(s, k) && (result.Some? ==> result == s.calls[k].box)
    ensures Inv(Ended(s, k, result))
  {
    var s', c := Ended(s, k, result), s.calls[k];
    forall j: nat | j < |s'.calls|
      ensures CallOk(s', j)
    {
      assert CallOk(s, j);
      if j < k { assert !Twins(s.calls[j], c); } else if j > k { assert !Twins(c, s.calls[j]); }
    }
    StillOwnIds(s, s');
    StillIssued(s, s');
    forall x: nat, i: nat | x < |s'.links| && i in s'.links[x].table.pending
      ensures Owned(s', x, i)
    {
      StillOwned(s, s', x, i);
    }
  }

  lemma {:induction false} Always(s: State, run: seq<Step>)
    requires Inv(s) && Possible(s, run)
    ensures Inv(Run(s, run))
    decreases |run|
  {
    if run != [] {
      var e := run[0];
      match e {
        case Register | Unregister(_) | Drop | DropAll | Import(_) => LinksKeep(s, e);
        case MarkOn(_, _) | FindStale | MarkOff(_) => LinksKeep(s, e);
        case Send(c) => SendKeeps(s, c);
        case Enter(k) => EnterKeeps(s, k);
        case Receive(r) => ReceiveKeeps(s, r);
        case HandOver(k) => HandOverKeeps(s, k);
        case Return(k) => EndKeeps(s, k, s.calls[k].box);
        case GiveUp(k) => EndKeeps(s, k, None);
      }
      Always(Take(s, e), run[1..]);
    }
  }

  // ---- Main results --------------------------------------------------------------------------------

  /** Whatever the agent sends and in whatever order, a caller gets the first reply to its own
      id on its own connection, and no two calls share a reply. */
  lemma EachCallGetsItsOwnReply(run: seq<Step>, k: nat)
    requires Possible(EMPTY, run) && k < |Run(EMPTY, run).calls|
    ensures var s := Run(EMPTY, run);
      && (s.calls[k].result.Some? ==> s.calls[k].result == FirstReply(s.log, s.calls[k].conn, s.calls[k].id))
      && forall j: nat | j < |s.calls| && j != k :: s.calls[j].conn != s.calls[k].conn || s.calls[j].id != s.calls[k].id
  {
    Always(EMPTY, run);
    var s := Run(EMPTY, run);
    assert CallOk(s, k);
    forall j: nat | j < |s.calls| && j != k
      ensures s.calls[j].conn != s.calls[k].conn || s.calls[j].id != s.calls[k].id
    {
      assert if j < k then !Twins(s.calls[j], s.calls[k]) else !Twins(s.calls[k], s.calls[j]);
    }
  }

  /** When every call has ended, no table holds anything. */
  lemma NothingLeftWaiting(run: seq<Step>, c: nat)
    requires Possible(EMPTY, run) && c < |Run(EMPTY, run).links|
    requires forall k | k in Run(EMPTY, run).calls :: k.done
    ensures Run(EMPTY, run).links[c].table.pending == map[]
  {
    Always(EMPTY, run);
    var s := Run(EMPTY, run);
    forall k: nat | k < |s.calls|
      ensures CallOk(s, k) && s.calls[k].done
    {
      assert s.calls[k] in s.calls;
    }
    forall id: nat
      ensures id !in s.links[c].table.pending
    {
      assert id in s.links[c].table.pending ==> Owned(s, c, id);
    }
  }

  /** A server is online exactly while its newest connection is open: the end of a replaced
      connection never takes it offline. */
  lemma OnlineIffNewestOpen(run: seq<Step>)
    requires Possible(EMPTY, run)
    ensures var s := Run(EMPTY, run);
      s.current.Some? <==> s.links != [] && s.links[|s.links| - 1].open
  {
    Always(EMPTY, run);
  }

  // ---- The mark in the database ---------------------------------------------------------------------

  /** The mark says what the table of connections says. */
  predicate Right(s: State) { s.mark == s.current.Some? }

  /** Nobody is about to write the mark. */
  predicate Quiet(s: State) { s.greet == {} && s.offs == 0 && s.wipes == 0 }

  function Joins(run: seq<Step>): nat {
    if run == [] then 0 else Joins(run[..|run| - 1]) + (if run[|run| - 1].Register? then 1 else 0)
  }

  /** From the events alone: the last write of the mark that succeeded said online. */
  predicate LastWriteOn(run: seq<Step>) {
    run != [] &&
    var before := run[..|run| - 1];
    match run[|run| - 1]
    case MarkOn(_, ok) => ok || LastWriteOn(before)
    case MarkOff(ok) => !ok && LastWriteOn(before)
    case Import(mark) => if mark.Some? then mark.value else LastWriteOn(before)
    case _ => LastWriteOn(before)
  }

  /** From the events alone: the newest connection has neither ended nor been dropped. */
  predicate NewestStands(run: seq<Step>) {
    run != [] &&
    var before := run[..|run| - 1];
    match run[|run| - 1]
    case Register => true
    case Drop | DropAll => false
    case Unregister(c) => NewestStands(before) && c + 1 != Joins(before)
    case _ => NewestStands(before)
  }

  lemma {:induction false} LastStep(s: State, run: seq<Step>)
    requires run != [] && Possible(s, run)
    ensures var before := run[..|run| - 1];
      Possible(s, before) && Enabled(Run(s, before), run[|run| - 1]) &&
      Run(s, run) == Take(Run(s, before), run[|run| - 1])
    decreases |run|
  {
    if |run| > 1 {
      LastStep(Take(s, run[0]), run[1..]);
      assert run[1..][..|run| - 2] == run[..|run| - 1][1..];
    }
  }

  predicate Tell(run: seq<Step>, s: State) {
    && |s.links| == Joins(run) && s.mark == LastWriteOn(run)
    && (s.current.Some? <==> NewestStands(run)) && (s.current.Some? ==> s.current.value + 1 == Joins(run))
  }

  lemma NextTells(before: seq<Step>, s: State, e: Step)
    requires Tell(before, s) && Enabled(s, e)
    ensures Tell(before + [e], Take(s, e))
  {
    assert (before + [e])[..|before|] == before;
  }

  lemma {:induction false} EventsTell(run: seq<Step>)
    requires Possible(EMPTY, run)
    ensures Tell(run, Run(EMPTY, run))
    decreases |run|
  {
    if run != [] {
      var before := run[..|run| - 1];
      LastStep(EMPTY, run);
      EventsTell(before);
      NextTells(before, Run(EMPTY, before), run[|run| - 1]);
      assert before + [run[|run| - 1]] == run;
    }
  }

  /** In every interleaving, at any moment, the mark is right exactly when the last successful
      write of it said what the fate of the newest connection asks for. */
  lemma MarkRightIff(run: seq<Step>)
    requires Possible(EMPTY, run)
    ensures Right(Run(EMPTY, run)) <==> (LastWriteOn(run) <==> NewestStands(run))
  {
    EventsTell(run);
  }

  /** An agent that reconnects before its old connection has written that it is offline: the
      server stays marked offline while it is online. */
  lemma LateOfflineSticks()
    ensures var run := [Register, MarkOn(0, true), Unregister(0), Register, MarkOn(1, true), MarkOff(true)];
      && Possible(EMPTY, run)
      && var s := Run(EMPTY, run); Quiet(s) && s.current == Some(1) && !s.mark
  {
    var s1 := Take(EMPTY, Register);
    var s2 := Take(s1, MarkOn(0, true));
    var s3 := Take(s2, Unregister(0));
    var s4 := Take(s3, Register);
    var s5 := Take(s4, MarkOn(1, true));
    var s6 := Take(s5, MarkOff(true));
    assert Run(s5, [MarkOff(true)]) == s6;
    assert Run(s4, [MarkOn(1, true), MarkOff(true)]) == s6;
    assert Run(s3, [Register, MarkOn(1, true), MarkOff(true)]) == s6;
  }

  /** A replaced connection that marks the server online after its successor has come and gone:
      the server stays marked online with nobody connected. */
  lemma LateOnlineSticks()
    ensures var run := [Register, Register, Unregister(1), MarkOff(true), MarkOn(0, true), Unregister(0)];
      && Possible(EMPTY, run)
      && var s := Run(EMPTY, run); Quiet(s) && s.current == None && s.mark
  {
    var s1 := Take(EMPTY, Register);
    var s2 := Take(s1, Register);
    var s3 := Take(s2, Unregister(1));
    var s4 := Take(s3, MarkOff(true));
    var s5 := Take(s4, MarkOn(0, true));
    var s6 := Take(s5, Unregister(0));
    assert Run(s5, [Unregister(0)]) == s6;
    assert Run(s4, [MarkOn(0, true), Unregister(0)]) == s6;
    assert Run(s3, [MarkOff(true), MarkOn(0, true), Unregister(0)]) == s6;
  }

  /** A backup that cannot be restored: its connections are gone and their mark stays. */
  lemma FailedImportSticks()
    ensures var run := [Register, MarkOn(0, true), DropAll, Import(None), Unregister(0)];
      && Possible(EMPTY, run)
      && var s := Run(EMPTY, run); Quiet(s) && s.current == None && s.mark
  {
    var s1 := Take(EMPTY, Register);
    var s2 := Take(s1, MarkOn(0, true));
    var s3 := Take(s2, DropAll);
    var s4 := Take(s3, Import(None));
    var s5 := Take(s4, Unregister(0));
    assert Run(s4, [Unregister(0)]) == s5;
    assert Run(s3, [Import(None), Unregister(0)]) == s5;
  }
}
