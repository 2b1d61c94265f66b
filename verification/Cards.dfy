/**
 Display order of cards (SpliceDisplayIDs, displayIDs and ReorderCards in
 internal/db/card_order.go, spliceById in web/src/lib/cardOrder.js).
 */
module Cards {

  import opened Options

  /** int64 */
  type Id = x: int | -0x8000_0000_0000_0000 <= x < 0x8000_0000_0000_0000

  const MAX_CARDS := 2000

  predicate Distinct(s: seq<Id>) { forall i, j | 0 <= i < j < |s| :: s[i] != s[j] }

  function SetOf(s: seq<Id>): (r: set<Id>)
    ensures forall x :: x in r <==> x in s
  {
    set x | x in s
  }

  /** The elements of s that are in chosen, in order. */
  function Pick(s: seq<Id>, chosen: set<Id>): seq<Id> {
    if s == [] then []
    else
      var n := |s| - 1;
      if s[n] in chosen then Pick(s[..n], chosen) + [s[n]] else Pick(s[..n], chosen)
  }

  /** What may be asked: a non-empty list of existing ids, each once. */
  predicate Askable(current: seq<Id>, moved: seq<Id>) {
    0 < |moved| <= MAX_CARDS && Distinct(moved) && forall x | x in moved :: x > 0 && x in current
  }

  /** The new order: ids not moved keep their slots, and moved ones stand as asked. */
  predicate Rearranged(current: seq<Id>, moved: seq<Id>, next: seq<Id>) {
    && |next| == |current|
    && (forall i | 0 <= i < |current| && current[i] !in moved :: next[i] == current[i])
    && (forall i | 0 <= i < |current| && current[i] in moved :: next[i] in moved)
    && Pick(next, SetOf(moved)) == moved
  }

  lemma {:induction false} PickOf(s: seq<Id>, chosen: set<Id>)
    requires Distinct(s)
    ensures Distinct(Pick(s, chosen)) && SetOf(Pick(s, chosen)) == SetOf(s) * chosen
  {
    if s != [] {
      var n := |s| - 1;
      var p := Pick(s[..n], chosen);
      PickOf(s[..n], chosen);
      assert s[n] !in SetOf(s[..n]);
      assert s[n] !in p by { assert s[n] !in SetOf(p); }
      assert SetOf(s) == SetOf(s[..n]) + {s[n]};
      assert SetOf(p + [s[n]]) == SetOf(p) + {s[n]};
    }
  }

  lemma {:induction false} SizeOf(s: seq<Id>)
    requires Distinct(s)
    ensures |SetOf(s)| == |s|
  {
    if s != [] {
      var n := |s| - 1;
      SizeOf(s[..n]);
      assert SetOf(s) == SetOf(s[..n]) + {s[n]} && s[n] !in SetOf(s[..n]);
    }
  }

  lemma {:induction false} PickGrows(s: seq<Id>, chosen: set<Id>, i: nat)
    requires i <= |s|
    ensures |Pick(s[..i], chosen)| <= |Pick(s, chosen)|
    ensures i < |s| && s[i] in chosen ==> |Pick(s[..i], chosen)| < |Pick(s, chosen)|
    decreases |s|
  {
    if i < |s| {
      var n := |s| - 1;
      assert s[..n][..i] == s[..i];
      PickGrows(s[..n], chosen, i);
    } else {
      assert s[..i] == s;
    }
  }

  /** There are as many slots as moved ids, so the write index stays inside moved. */
  lemma SlotsMatch(current: seq<Id>, moved: seq<Id>)
    requires Distinct(current) && Askable(current, moved)
    ensures |Pick(current, SetOf(moved))| == |moved|
  {
    PickOf(current, SetOf(moved));
    MovedExist(current, moved);
    SizeOf(Pick(current, SetOf(moved)));
    SizeOf(moved);
  }

  lemma MovedExist(current: seq<Id>, moved: seq<Id>)
    requires Askable(current, moved)
    ensures SetOf(current) * SetOf(moved) == SetOf(moved)
  {
    assert forall x | x in SetOf(moved) :: x in moved && x in SetOf(current);
  }

  /** The first slots filled; k ids are placed. */
  predicate Partly(current: seq<Id>, chosen: set<Id>, moved: seq<Id>, done: seq<Id>, k: nat) {
    && |done| <= |current|
    && (forall j | 0 <= j < |done| :: FitsSlot(current[j], chosen, done[j]))
    && k == |Pick(current[..|done|], chosen)| <= |moved|
    && Pick(done, chosen) == moved[..k]
  }

  predicate FitsSlot(was: Id, chosen: set<Id>, now: Id) { if was in chosen then now in chosen else now == was }

  lemma FillOne(current: seq<Id>, chosen: set<Id>, moved: seq<Id>, done: seq<Id>, k: nat, x: Id)
    requires Partly(current, chosen, moved, done, k) && |done| < |current|
    requires if current[|done|] in chosen then k < |moved| && x == moved[k] && x in chosen else x == current[|done|]
    ensures Partly(current, chosen, moved, done + [x], if current[|done|] in chosen then k + 1 else k)
  {
    var i := |done|;
    assert current[..i + 1] == current[..i] + [current[i]];
    PickPush(current[..i], current[i], chosen);
    PickPush(done, x, chosen);
    forall j | 0 <= j < i + 1
      ensures FitsSlot(current[j], chosen, (done + [x])[j])
    {
      if j < i { assert FitsSlot(current[j], chosen, done[j]); }
    }
    if current[i] in chosen {
      assert moved[..k + 1] == moved[..k] + [x];
    }
  }

  /** The next slot takes the next moved id, or keeps its own. */
  lemma SlotFilled(current: seq<Id>, moved: seq<Id>, done: seq<Id>, k: nat)
    requires Distinct(current) && Askable(current, moved) && |done| < |current|
    requires Partly(current, SetOf(moved), moved, done, k)
    ensures current[|done|] in moved ==> k < |moved| && Partly(current, SetOf(moved), moved, done + [moved[k]], k + 1)
    ensures current[|done|] !in moved ==> Partly(current, SetOf(moved), moved, done + [current[|done|]], k)
  {
    var x := current[|done|];
    assert x in SetOf(moved) <==> x in moved;
    SlotsMatch(current, moved);
    PickGrows(current, SetOf(moved), |done|);
    if x in moved {
      assert moved[k] in SetOf(moved);
      FillOne(current, SetOf(moved), moved, done, k, moved[k]);
    } else {
      FillOne(current, SetOf(moved), moved, done, k, x);
    }
  }

  lemma PickPush(s: seq<Id>, x: Id, chosen: set<Id>)
    ensures Pick(s + [x], chosen) == if x in chosen then Pick(s, chosen) + [x] else Pick(s, chosen)
  {
    assert (s + [x])[..|s|] == s;
  }

  lemma AllFilled(current: seq<Id>, moved: seq<Id>, done: seq<Id>, k: nat)
    requires Distinct(current) && Askable(current, moved) && |done| == |current|
    requires Partly(current, SetOf(moved), moved, done, k)
    ensures Rearranged(current, moved, done)
  {
    SlotsMatch(current, moved);
    assert current[..|done|] == current && moved[..|moved|] == moved;
    forall i | 0 <= i < |current|
      ensures current[i] !in moved ==> done[i] == current[i]
      ensures current[i] in moved ==> done[i] in moved
    {
      assert FitsSlot(current[i], SetOf(moved), done[i]);
    }
  }

  /** The checks of SpliceDisplayIDs. */
  method Check(current: seq<Id>, moved: seq<Id>) returns (ok: bool, seen: set<Id>)
    ensures ok <==> Askable(current, moved)
    ensures ok ==> seen == SetOf(moved)
  {
    seen := {};
    if |moved| == 0 || |moved| > MAX_CARDS { return false, seen; }
    for i := 0 to |moved|
      invariant seen == SetOf(moved[..i]) && Distinct(moved[..i])
      invariant forall x | x in moved[..i] :: x > 0 && x in current
    {
      assert moved[..i + 1] == moved[..i] + [moved[i]];
      if moved[i] <= 0 || moved[i] in seen || moved[i] !in current {
        assert moved[i] in moved;
        return false, seen;
      }
      seen := seen + {moved[i]};
    }
    assert moved[..|moved|] == moved;
    ok := true;
  }

  lemma Overwrite(done: seq<Id>, current: seq<Id>, x: Id)
    requires |done| < |current|
    ensures var i, next := |done|, done + current[|done|..];
      next[i] == current[i] && next[i := x] == (done + [x]) + current[i + 1..]
  {
  }

  /** SpliceDisplayIDs; current comes from the table and has no duplicates. */
  method SpliceDisplayIDs(current: seq<Id>, moved: seq<Id>) returns (r: Option<seq<Id>>)
    requires Distinct(current)
    ensures r.Some? <==> Askable(current, moved)
    ensures r.Some? ==> Rearranged(current, moved, r.value)
  {
    var ok, seen := Check(current, moved);
    if !ok { return None; }
    var next, k := current, 0;
    ghost var done: seq<Id> := [];
    for i := 0 to |current|
      invariant |done| == i && next == done + current[i..] && Partly(current, seen, moved, done, k)
    {
      SlotFilled(current, moved, done, k);
      ghost var x := if current[i] in seen then moved[k] else current[i];
      Overwrite(done, current, x);
      if current[i] in seen {
        next := next[i := moved[k]];
        k := k + 1;
      }
      done := done + [x];
    }
    assert next == done;
    AllFilled(current, moved, next, k);
    r := Some(next);
  }

  // ---- What a new order is worth ---------------------------------------------------------------

  /** The ids of s that are not in chosen. */
  function Others(s: seq<Id>, chosen: set<Id>): seq<Id> {
    if s == [] then []
    else
      var n := |s| - 1;
      if s[n] in chosen then Others(s[..n], chosen) else Others(s[..n], chosen) + [s[n]]
  }

  lemma {:induction false} Splits(s: seq<Id>, chosen: set<Id>)
    ensures multiset(s) == multiset(Pick(s, chosen)) + multiset(Others(s, chosen))
  {
    if s != [] {
      var n := |s| - 1;
      assert s == s[..n] + [s[n]];
      Splits(s[..n], chosen);
    }
  }

  lemma {:induction false} SameOthers(a: seq<Id>, b: seq<Id>, chosen: set<Id>)
    requires |a| == |b| && forall i | 0 <= i < |a| ::
      (a[i] in chosen <==> b[i] in chosen) && (a[i] !in chosen ==> a[i] == b[i])
    ensures Others(a, chosen) == Others(b, chosen)
  {
    if a != [] { SameOthers(a[..|a| - 1], b[..|b| - 1], chosen); }
  }

  lemma SameSets(a: seq<Id>, b: seq<Id>)
    requires Distinct(a) && Distinct(b) && SetOf(a) == SetOf(b)
    ensures multiset(a) == multiset(b)
  {
    forall x
      ensures multiset(a)[x] == multiset(b)[x]
    {
      Single(a, x);
      Single(b, x);
      assert x in SetOf(a) <==> x in multiset(a);
      assert x in SetOf(b) <==> x in multiset(b);
    }
  }

  /** No card is lost or shown twice. */
  lemma RearrangedIsPermutation(current: seq<Id>, moved: seq<Id>, next: seq<Id>)
    requires Distinct(current) && Askable(current, moved) && Rearranged(current, moved, next)
    ensures multiset(next) == multiset(current)
  {
    var chosen := SetOf(moved);
    Splits(current, chosen);
    Splits(next, chosen);
    SameOthers(current, next, chosen);
    PickOf(current, chosen);
    MovedExist(current, moved);
    SameSets(Pick(current, chosen), moved);
  }

  lemma PermutationIsDistinct(a: seq<Id>, b: seq<Id>)
    requires Distinct(a) && multiset(a) == multiset(b)
    ensures Distinct(b) && forall x :: x in b <==> x in a
  {
    forall x
      ensures x in b <==> x in a
    {
      assert x in multiset(a) <==> x in multiset(b);
    }
    forall i, j | 0 <= i < j < |b|
      ensures b[i] != b[j]
    {
      Single(a, b[i]);
      assert b == b[..i] + [b[i]] + b[i + 1..j] + [b[j]] + b[j + 1..];
    }
  }

  lemma {:induction false} Single(a: seq<Id>, x: Id)
    requires Distinct(a)
    ensures multiset(a)[x] <= 1
  {
    if a != [] {
      var n := |a| - 1;
      assert a == a[..n] + [a[n]];
      Single(a[..n], x);
      if a[n] == x { assert x !in a[..n]; }
    }
  }

  lemma {:induction false} SamePick(a: seq<Id>, b: seq<Id>, chosen: set<Id>)
    requires |a| == |b| && Pick(a, chosen) == Pick(b, chosen)
    requires forall i | 0 <= i < |a| :: (a[i] in chosen <==> b[i] in chosen) && (a[i] !in chosen ==> a[i] == b[i])
    ensures a == b
  {
    if a != [] {
      var n := |a| - 1;
      if a[n] in chosen {
        assert Pick(a, chosen)[..|Pick(a, chosen)| - 1] == Pick(a[..n], chosen);
        assert Pick(b, chosen)[..|Pick(b, chosen)| - 1] == Pick(b[..n], chosen);
        assert Pick(a, chosen)[|Pick(a, chosen)| - 1] == a[n] && Pick(b, chosen)[|Pick(b, chosen)| - 1] == b[n];
      }
      SamePick(a[..n], b[..n], chosen);
      assert a == a[..n] + [a[n]] && b == b[..n] + [b[n]];
    }
  }

  /** The request leaves only one possible order. */
  lemma RearrangedIsUnique(current: seq<Id>, moved: seq<Id>, a: seq<Id>, b: seq<Id>)
    requires Rearranged(current, moved, a) && Rearranged(current, moved, b)
    ensures a == b
  {
    SamePick(a, b, SetOf(moved));
  }

  // ---- The table ----------------------------------------------------------------------------------

  /** ORDER BY sort_order, id */
  predicate Precedes(order: map<Id, int>, a: Id, b: Id)
    requires a in order && b in order
  {
    order[a] < order[b] || (order[a] == order[b] && a < b)
  }

  predicate Ascending(order: map<Id, int>, ids: seq<Id>) {
    (forall x | x in ids :: x in order) && forall i, j | 0 <= i < j < |ids| :: Precedes(order, ids[i], ids[j])
  }

  predicate IsDisplay(order: map<Id, int>, ids: seq<Id>) {
    Ascending(order, ids) && forall x | x in order :: x in ids
  }

  ghost predicate SameIds(a: seq<Id>, b: seq<Id>) { forall x :: x in a <==> x in b }

  lemma FirstIsLeast(order: map<Id, int>, a: seq<Id>, b: seq<Id>)
    requires Ascending(order, a) && Ascending(order, b) && SameIds(a, b) && a != []
    ensures b != [] && (b[0] == a[0] || Precedes(order, b[0], a[0]))
  {
    var x := a[0];
    assert x in a && x in b;
    var i :| 0 <= i < |b| && b[i] == x;
    assert i > 0 ==> Precedes(order, b[0], b[i]);
  }

  lemma TailIds(order: map<Id, int>, a: seq<Id>, x: Id)
    requires Ascending(order, a) && a != []
    ensures Ascending(order, a[1..]) && (x in a[1..] <==> x in a && x != a[0])
  {
    assert a == [a[0]] + a[1..];
    if x in a[1..] {
      var k :| 0 <= k < |a[1..]| && a[1..][k] == x;
      assert Precedes(order, a[0], a[k + 1]);
    }
  }

  lemma {:induction false} AscendingIsUnique(order: map<Id, int>, a: seq<Id>, b: seq<Id>)
    requires Ascending(order, a) && Ascending(order, b) && SameIds(a, b)
    ensures a == b
  {
    if a == [] {
      if b != [] { FirstIsLeast(order, b, a); }
    } else {
      FirstIsLeast(order, a, b);
      FirstIsLeast(order, b, a);
      forall x: Id
        ensures x in a[1..] <==> x in b[1..]
      {
        TailIds(order, a, x);
        TailIds(order, b, x);
      }
      TailIds(order, a, a[0]);
      TailIds(order, b, b[0]);
      AscendingIsUnique(order, a[1..], b[1..]);
      assert a == [a[0]] + a[1..] && b == [b[0]] + b[1..];
    }
  }

  /** The rows have one display order. */
  lemma DisplayIsUnique(order: map<Id, int>, a: seq<Id>, b: seq<Id>)
    requires IsDisplay(order, a) && IsDisplay(order, b)
    ensures a == b
  {
    AscendingIsUnique(order, a, b);
  }

  class Table {
    var order: map<Id, int>

    constructor (order: map<Id, int>)
      ensures this.order == order
    {
      this.order := order;
    }

    /** displayIDs. */
    method DisplayIDs() returns (ids: seq<Id>)
      ensures IsDisplay(order, ids)
    {
      ids := [];
      var todo := order.Keys;
      while todo != {}
        invariant todo <= order.Keys
        invariant forall x :: x in ids <==> x in order && x !in todo
        invariant Ascending(order, ids)
        decreases todo
      {
        var x :| x in todo;
        todo := todo - {x};
        PlaceAscends(order, ids, x);
        ids := Place(order, ids, x);
      }
    }

    /** ReorderCards: the write is one transaction, and inbounds must be on one machine. */
    method Reorder(ids: seq<Id>, sameServer: bool, commits: bool) returns (ok: bool)
      modifies this
      ensures !ok ==> order == old(order)
      ensures forall was: seq<Id> | IsDisplay(old(order), was) ::
        (ok <==> Askable(was, ids) && sameServer && commits) &&
        (ok ==> exists next :: Rearranged(was, ids, next) && IsDisplay(order, next))
    {
      var current := DisplayIDs();
      forall was: seq<Id> | IsDisplay(order, was)
        ensures was == current
      {
        DisplayIsUnique(order, was, current);
      }
      var next := SpliceDisplayIDs(current, ids);
      if next.None? || !sameServer || !commits { return false; }
      RearrangedIsPermutation(current, ids, next.value);
      PermutationIsDistinct(current, next.value);
      ReadBack(order, next.value);
      order := Number(order, next.value);
      assert Rearranged(current, ids, next.value);
      ok := true;
    }
  }

  /** One id put where it belongs. */
  function Place(order: map<Id, int>, ids: seq<Id>, x: Id): (r: seq<Id>)
    requires x in order && forall y | y in ids :: y in order
    ensures forall y :: y in r <==> y in ids || y == x
  {
    if ids == [] || Precedes(order, x, ids[0]) then [x] + ids
    else
      assert ids == [ids[0]] + ids[1..];
      [ids[0]] + Place(order, ids[1..], x)
  }

  lemma {:induction false} PlaceAscends(order: map<Id, int>, ids: seq<Id>, x: Id)
    requires x in order && x !in ids && Ascending(order, ids)
    ensures Ascending(order, Place(order, ids, x))
  {
    var r := Place(order, ids, x);
    if ids != [] && !Precedes(order, x, ids[0]) {
      var rest := Place(order, ids[1..], x);
      PlaceAscends(order, ids[1..], x);
      forall j | 0 <= j < |rest|
        ensures Precedes(order, ids[0], rest[j])
      {
        if rest[j] != x {
          assert rest[j] in ids[1..];
          var k :| 0 <= k < |ids[1..]| && ids[1..][k] == rest[j];
          assert Precedes(order, ids[0], ids[k + 1]);
        }
      }
    }
  }

  /** The update loop: row next[i] gets sort_order i + 1. */
  method Number(order: map<Id, int>, next: seq<Id>) returns (r: map<Id, int>)
    requires Distinct(next) && forall x :: x in next <==> x in order
    ensures r == Numbered(order, next)
  {
    r := order;
    for i := 0 to |next|
      invariant r == Numbered(order, next[..i])
    {
      assert next[..i + 1][..i] == next[..i];
      r := r[next[i] := i + 1];
    }
    assert next[..|next|] == next;
  }

  function Numbered(order: map<Id, int>, next: seq<Id>): map<Id, int> {
    if next == [] then order else Numbered(order, next[..|next| - 1])[next[|next| - 1] := |next|]
  }

  lemma {:induction false} NumberedAt(order: map<Id, int>, next: seq<Id>)
    requires Distinct(next)
    ensures forall i | 0 <= i < |next| :: next[i] in Numbered(order, next) && Numbered(order, next)[next[i]] == i + 1
    ensures forall x :: x in Numbered(order, next) <==> x in order || x in next
  {
    if next != [] {
      var n := |next| - 1;
      NumberedAt(order, next[..n]);
      assert next == next[..n] + [next[n]];
    }
  }

  /** Reading back gives exactly the order written. */
  lemma ReadBack(order: map<Id, int>, next: seq<Id>)
    requires Distinct(next) && forall x :: x in next <==> x in order
    ensures IsDisplay(Numbered(order, next), next)
  {
    NumberedAt(order, next);
  }

  // ---- The same in the browser ------------------------------------------------------------------------

  datatype Item = Item(id: Id, title: string)

  function Ids(items: seq<Item>): (ids: seq<Id>)
    ensures |ids| == |items| && forall i | 0 <= i < |ids| :: ids[i] == items[i].id
  {
    seq(|items|, i requires 0 <= i < |items| => items[i].id)
  }

  function ById(items: seq<Item>): map<Id, Item> {
    if items == [] then map[] else ById(items[..|items| - 1])[items[|items| - 1].id := items[|items| - 1]]
  }

  lemma {:induction false} ByIdFinds(items: seq<Item>)
    ensures forall x :: x in ById(items) <==> x in Ids(items)
    ensures forall x | x in ById(items) :: ById(items)[x].id == x && ById(items)[x] in items
  {
    if items != [] {
      var n := |items| - 1;
      ByIdFinds(items[..n]);
      assert Ids(items) == Ids(items[..n]) + [items[n].id];
      assert items == items[..n] + [items[n]];
    }
  }

  lemma IdsPush(items: seq<Item>, x: Item)
    ensures Ids(items + [x]) == Ids(items) + [x.id]
  {
  }

  /** spliceById. On any request the server accepts, the page shows the server's order. */
  method SpliceById(full: seq<Item>, subset: seq<Item>) returns (r: seq<Item>)
    requires Distinct(Ids(full))
    ensures |r| == |full| && forall x | x in r :: x in full
    ensures Askable(Ids(full), Ids(subset)) ==> Rearranged(Ids(full), Ids(subset), Ids(r))
  {
    var byId := ById(full);
    ByIdFinds(full);
    var ids := Ids(subset);
    var seen := SetOf(ids);
    ghost var good := Askable(Ids(full), ids);
    r := [];
    var i: nat := 0;
    for k := 0 to |full|
      invariant |r| == k && forall x | x in r :: x in full
      invariant good ==> Partly(Ids(full), seen, ids, Ids(r), i)
    {
      var item := full[k];
      if good { SlotFilled(Ids(full), ids, Ids(r), i); }
      var next := item;
      if item.id in seen {
        next := if i < |ids| && ids[i] in byId then byId[ids[i]] else item;
        i := i + 1;
      }
      IdsPush(r, next);
      r := r + [next];
    }
    if good { AllFilled(Ids(full), ids, Ids(r), i); }
  }
}
