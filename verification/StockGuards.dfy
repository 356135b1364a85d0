/** Exactly which lists of lines the stock engine accepts: seen one line at a time, and seen from the state before the list. */
module StockGuards {
  import opened Options
  import opened Sums
  import opened StockModel
  import opened StockTheorems

  // ---- one line ------------------------------------------------------------------------------------------------

  /** The existing batch a line's movement goes to; a line that brings a batch of its own has none yet. */
  function Target(txns: map<Uuid, Txn>, k: Kind, l: Line): Option<int> {
    if !OwnsBatch(k) then Some(l.batch) else if l.id in txns then Some(txns[l.id].batch) else None
  }

  /** What writing the line adds to the closing of its batch. */
  function Change(txns: map<Uuid, Txn>, l: Line, s: Sides): real {
    s.inward - s.outward - if l.id in txns then txns[l.id].Net() else 0.0
  }

  /** `get_batch`: does the batch exist with this inventory, branch and warehouse? */
  predicate Matches(batches: map<int, Batch>, b: int, inventory: int, branch: int, warehouse: int) {
    && b in batches && batches[b].inventory == inventory
    && batches[b].branch == branch && batches[b].warehouse == warehouse
  }

  predicate MayGoBelow(inventories: map<int, Inventory>, i: int) { i in inventories && inventories[i].allowNegative }

  /** The guard on batches, for a batch whose closing moves by `x`. */
  predicate Covers(c: Core, b: int, x: real) {
    b in c.batches && (MayGoBelow(c.inventories, c.batches[b].inventory) || c.batches[b].Closing() + x >= 0.0)
  }

  predicate Allowed(c: Core, k: Kind, l: Line, s: Sides) {
    match Target(c.txns, k, l)
    case None => MayGoBelow(c.inventories, l.inventory) || s.inward - s.outward >= 0.0
    case Some(b) => Covers(c, b, Change(c.txns, l, s))
  }

  /** A line the procedures write without raising. */
  predicate Writable(c: Core, k: Kind, branch: int, warehouse: int, l: Line, s: Sides) {
    && l.inventory in c.inventories
    && (k == Purchase ==> l.qty + l.freeQty > 0.0)
    && (k == Addition && l.source.Some? ==> l.source.value in c.batches)
    && (!OwnsBatch(k) ==> Matches(c.batches, l.batch, l.inventory, branch, warehouse))
    && Allowed(c, k, l, s)
  }

  /** What writing a line does to the batches. */
  ghost predicate StepBatches(c: Core, d: Core, k: Kind, l: Line, s: Sides) {
    && d.inventories == c.inventories
    && match Target(c.txns, k, l)
       case None =>
         && d.nextBatch == c.nextBatch + 1 && d.batches.Keys == c.batches.Keys + {c.nextBatch}
         && forall b :: b in c.batches && b != c.nextBatch ==> d.batches[b] == c.batches[b]
       case Some(t) =>
         && t in c.batches && d.nextBatch == c.nextBatch && d.batches.Keys == c.batches.Keys
         && (forall b :: b in c.batches ==> Shape(d.batches[b]) == Shape(c.batches[b]))
         && forall b :: b in c.batches ==>
              d.batches[b].Closing() == c.batches[b].Closing() + if b == t then Change(c.txns, l, s) else 0.0
  }

  /** What an upsert finds under the line's id: nothing, or the line's own row and movement, which stay where they are. */
  lemma FitFacts(db: Db, o: Owner, branch: int, l: Line)
    requires Consistent(db) && OwnerBranch(db.docs, o) == Some(branch) && Fits(db.items, db.core.txns, o, l)
    ensures var key := (o.OfKind(), l.id);
            key in db.items ==> var it := db.items[key]; it.owner == o && it.inventory == l.inventory && it.batch == ItemOf(o, l).batch
    ensures l.id in db.core.txns <==> (o.OfKind(), l.id) in db.items
    ensures l.id in db.core.txns ==>
              MovementHeld(db.core.batches, db.core.txns, o.OfKind(), branch, l, SidesOf(db.core.txns[l.id]))
    ensures l.id !in db.core.txns ==> forall b :: b in db.core.batches ==> db.core.batches[b].txnId != l.id
    ensures var s := UpdatedSides(db.core.txns, db.core.inventories, o.OfKind(), l);
            && (OwnsBatch(o.OfKind()) ==> s.outward == 0.0)
            && (o.OfKind() in {Sale, CreditNote, Deduction} ==> s.inward == 0.0)
  {
    hide Sound, Consistent, Quantity;
    ConsistentFacts(db);
    if (o.OfKind(), l.id) in db.items {
      LineFacts(db, (o.OfKind(), l.id));
    }
  }

  lemma HeldSides(batches: map<int, Batch>, txns: map<Uuid, Txn>, k: Kind, branch: int, l: Line, s: Sides)
    requires MovementHeld(batches, txns, k, branch, l, s)
    ensures l.id in txns && SidesOf(txns[l.id]) == s
  {
  }

  lemma NoneBrought(c: Core, d: Core, k: Kind, l: Line)
    requires exists t :: StepBatches(c, d, k, l, t)
    ensures !OwnsBatch(k) ==> d.batches.Keys == c.batches.Keys
  {
  }

  function ReorderFor(inventories: map<int, Inventory>, i: int): int {
    if i in inventories && inventories[i].reorder.Some? then inventories[i].reorder.value else i
  }

  /** The columns nothing writes again: a new batch carries the place it was brought to, and new batches and movements the
      inventory they are reordered as. */
  ghost predicate NewRows(c: Core, d: Core, branch: int, warehouse: int) {
    && (forall b :: b in d.batches && b !in c.batches ==>
          && d.batches[b].branch == branch && d.batches[b].warehouse == warehouse
          && d.batches[b].reorder == ReorderFor(c.inventories, d.batches[b].inventory))
    && (forall t :: t in d.txns && t !in c.txns ==> d.txns[t].reorder == ReorderFor(c.inventories, d.txns[t].inventory))
  }

  /** What writing a line and its movement for the first time comes to. */
  lemma InsertedStep(c: Core, d: Core, k: Kind, branch: int, warehouse: int, l: Line, s: Sides, b: int)
    requires l.id !in c.txns && IdsBelow(c.batches, c.nextBatch) && d.inventories == c.inventories
    requires d.txns == c.txns[l.id := Txn(b, l.inventory, branch, ReorderFor(c.inventories, l.inventory), s.inward, s.outward)]
    requires if OwnsBatch(k)
             then var row := Batch(l.id, l.inventory, branch, warehouse, ReorderFor(c.inventories, l.inventory), s.inward, s.outward);
                  b == c.nextBatch && d.nextBatch == b + 1 && d.batches == c.batches[b := row]
             else && b == l.batch && b in c.batches && d.nextBatch == c.nextBatch
                  && d.batches == c.batches[b := Moved(c.batches[b], s.inward, s.outward)]
    ensures Grown(c, d, {l.id}) && MovementHeld(d.batches, d.txns, k, branch, l, s)
    ensures StepBatches(c, d, k, l, s) && NewRows(c, d, branch, warehouse)
  {
  }

  /** What changing the sides of a line's movement comes to. */
  lemma RebookedStep(c: Core, d: Core, k: Kind, branch: int, warehouse: int, l: Line, s: Sides)
    requires l.id in c.txns && MovementHeld(c.batches, c.txns, k, branch, l, SidesOf(c.txns[l.id])) && d.inventories == c.inventories
    requires var t := c.txns[l.id];
             && t.batch in c.batches && d.nextBatch == c.nextBatch
             && d.txns == c.txns[l.id := t.(inward := s.inward, outward := s.outward)]
             && d.batches == c.batches[t.batch := Moved(c.batches[t.batch], s.inward - t.inward, s.outward - t.outward)]
    ensures Grown(c, d, {l.id}) && MovementHeld(d.batches, d.txns, k, branch, l, s)
    ensures StepBatches(c, d, k, l, s) && NewRows(c, d, branch, warehouse)
  {
  }

  lemma NewRowsStep(base: Db, before: Db, now: Db, o: Owner, branch: int, warehouse: int, l: Line, s: Sides)
    requires NewRows(base.core, before.core, branch, warehouse) && NewRows(before.core, now.core, branch, warehouse)
    requires before.core.inventories == base.core.inventories && OneStep(before, now, o, branch, l, s)
    requires SameRow(base.core.txns, before.core.txns, l.id)
    ensures NewRows(base.core, now.core, branch, warehouse)
  {
    hide MovementHeld, ItemOf, ReorderFor;
    assert forall b :: b in before.core.batches ==> Shape(before.core.batches[b]) == Shape(now.core.batches[b]);
  }

  lemma NoNewRows(c: Core, branch: int, warehouse: int)
    ensures NewRows(c, c, branch, warehouse)
  {
  }

  lemma NewRowsThrough(was: Core, base: Core, now: Core, ids: set<Uuid>, branch: int, warehouse: int)
    requires NewRows(base, now, branch, warehouse) && base.inventories == was.inventories
    requires Lost(was.batches, base.batches, ids) && base.txns == was.txns - ids
    ensures NewRows(was, now, branch, warehouse)
  {
  }

  // ---- a list --------------------------------------------------------------------------------------------------

  /** What the first `n` lines add to the closing of batch `b`. */
  function Shift(txns: map<Uuid, Txn>, k: Kind, lines: seq<Line>, n: nat, sides: Line -> Sides, b: int): real
    requires n <= |lines|
  {
    if n == 0 then 0.0
    else Shift(txns, k, lines, n - 1, sides, b)
         + if Target(txns, k, lines[n - 1]) == Some(b) then Change(txns, lines[n - 1], sides(lines[n - 1])) else 0.0
  }

  /** How many batches the first `n` lines bring. */
  function Brought(txns: map<Uuid, Txn>, k: Kind, lines: seq<Line>, n: nat): (m: nat)
    requires n <= |lines|
    ensures !OwnsBatch(k) ==> m == 0
  {
    if n == 0 then 0 else Brought(txns, k, lines, n - 1) + if Target(txns, k, lines[n - 1]) == None then 1 else 0
  }

  /** Line `i` is accepted, seen from the state before the list: a source may also be a batch that an earlier line brings, and
      a batch must cover all lines so far. */
  predicate Accepted(c: Core, k: Kind, branch: int, warehouse: int, lines: seq<Line>, i: nat, sides: Line -> Sides)
    requires i < |lines|
  {
    var l := lines[i];
    && l.inventory in c.inventories
    && (k == Purchase ==> l.qty + l.freeQty > 0.0)
    && (k == Addition && l.source.Some? ==>
          || l.source.value in c.batches
          || c.nextBatch <= l.source.value < c.nextBatch + Brought(c.txns, k, lines, i))
    && (!OwnsBatch(k) ==> Matches(c.batches, l.batch, l.inventory, branch, warehouse))
    && match Target(c.txns, k, l)
       case None => MayGoBelow(c.inventories, l.inventory) || sides(l).inward - sides(l).outward >= 0.0
       case Some(b) => Covers(c, b, Shift(c.txns, k, lines, i + 1, sides, b))
  }

  predicate AllAccepted(c: Core, k: Kind, branch: int, warehouse: int, lines: seq<Line>, n: nat, sides: Line -> Sides)
    requires n <= |lines|
  {
    forall i :: 0 <= i < n ==> Accepted(c, k, branch, warehouse, lines, i, sides)
  }

  /** The batches after the first `n` lines. */
  ghost predicate Running(c: Core, d: Core, k: Kind, lines: seq<Line>, n: nat, sides: Line -> Sides)
    requires n <= |lines|
  {
    && d.inventories == c.inventories && d.nextBatch == c.nextBatch + Brought(c.txns, k, lines, n)
    && (forall b :: b in d.batches <==> b in c.batches || c.nextBatch <= b < d.nextBatch)
    && (forall b :: b in c.batches ==> Shape(d.batches[b]) == Shape(c.batches[b]))
    && (forall b :: b in c.batches ==>
          d.batches[b].Closing() == c.batches[b].Closing() + Shift(c.txns, k, lines, n, sides, b))
  }

  lemma RunningStart(c: Core, k: Kind, lines: seq<Line>, sides: Line -> Sides)
    ensures Running(c, c, k, lines, 0, sides)
  {
  }

  predicate SameRow(was: map<Uuid, Txn>, now: map<Uuid, Txn>, id: Uuid) {
    (id in now <==> id in was) && (id in was ==> now[id] == was[id])
  }

  lemma RunningStep(c: Core, before: Core, d: Core, k: Kind, lines: seq<Line>, i: nat, sides: Line -> Sides)
    requires i < |lines| && Running(c, before, k, lines, i, sides) && IdsBelow(c.batches, c.nextBatch)
    requires SameRow(c.txns, before.txns, lines[i].id)
    requires StepBatches(before, d, k, lines[i], sides(lines[i]))
    ensures Running(c, d, k, lines, i + 1, sides)
  {
    hide Shape, Change, Shift;
    assert Target(before.txns, k, lines[i]) == Target(c.txns, k, lines[i]);
    forall b | b in c.batches
      ensures b in d.batches && Shape(d.batches[b]) == Shape(c.batches[b])
      ensures d.batches[b].Closing() == c.batches[b].Closing() + Shift(c.txns, k, lines, i + 1, sides, b)
    {
      RunningAt(c, before, d, k, lines, i, sides, b);
    }
  }

  lemma RunningAt(c: Core, before: Core, d: Core, k: Kind, lines: seq<Line>, i: nat, sides: Line -> Sides, b: int)
    requires i < |lines| && Running(c, before, k, lines, i, sides) && b in c.batches && b < c.nextBatch
    requires SameRow(c.txns, before.txns, lines[i].id)
    requires StepBatches(before, d, k, lines[i], sides(lines[i]))
    ensures b in d.batches && Shape(d.batches[b]) == Shape(c.batches[b])
    ensures d.batches[b].Closing() == c.batches[b].Closing() + Shift(c.txns, k, lines, i + 1, sides, b)
  {
    hide Shape;
    assert Target(before.txns, k, lines[i]) == Target(c.txns, k, lines[i]);
    assert b in before.batches && b != before.nextBatch;
  }

  /** Part way through the list, the checks on line `i` say what its acceptance says. */
  lemma WritableIff(c: Core, before: Core, k: Kind, branch: int, warehouse: int, lines: seq<Line>, i: nat, sides: Line -> Sides)
    requires Sound(c) && i < |lines| && Running(c, before, k, lines, i, sides)
    requires SameRow(c.txns, before.txns, lines[i].id)
    ensures Writable(before, k, branch, warehouse, lines[i], sides(lines[i]))
            <==> Accepted(c, k, branch, warehouse, lines, i, sides)
  {
    hide TotalsExact, StockExact, NonNegative, OwnersUnique;
    var l := lines[i];
    if !OwnsBatch(k) && l.batch in c.batches {
      assert Shape(before.batches[l.batch]) == Shape(c.batches[l.batch]);
    }
    if OwnsBatch(k) && l.id in c.txns {
      var b := c.txns[l.id].batch;
      assert Shape(before.batches[b]) == Shape(c.batches[b]);
    }
  }

  /** A line whose id is not among those written still has its old movement, or none. */
  lemma RowWaits(base: Db, before: Db, o: Owner, done: seq<Line>, l: Line)
    requires Progress(base, before, o, done) && l.id !in IdsOf(done)
    ensures SameRow(base.core.txns, before.core.txns, l.id)
  {
  }

  /** In a list of new, distinct ids no line is refused for its id. */
  lemma IdIsFree(base: Db, before: Db, o: Owner, lines: seq<Line>, i: nat)
    requires i < |lines| && Progress(base, before, o, lines[..i]) && Fresh(base, o, lines)
    ensures (o.OfKind(), lines[i].id) !in before.items && lines[i].id !in before.core.txns
    ensures lines[i].id !in IdsOf(lines[..i])
  {
    assert lines[i] in lines;
    forall m | m in lines[..i] ensures m.id != lines[i].id {
      var j :| 0 <= j < i && lines[j] == m;
    }
  }

  lemma AcceptedNext(c: Core, k: Kind, branch: int, warehouse: int, lines: seq<Line>, i: nat, sides: Line -> Sides)
    requires i < |lines| && AllAccepted(c, k, branch, warehouse, lines, i, sides)
    ensures AllAccepted(c, k, branch, warehouse, lines, i + 1, sides) <==> Accepted(c, k, branch, warehouse, lines, i, sides)
  {
    hide Accepted;
  }

  lemma NotAllAccepted(c: Core, k: Kind, branch: int, warehouse: int, lines: seq<Line>, i: nat, sides: Line -> Sides)
    requires i < |lines| && !Accepted(c, k, branch, warehouse, lines, i, sides)
    ensures !AllAccepted(c, k, branch, warehouse, lines, |lines|, sides)
  {
    hide Accepted;
  }

  lemma BelowNext(c: Core)
    requires Sound(c)
    ensures IdsBelow(c.batches, c.nextBatch)
  {
  }

  lemma NoneAccepted(c: Core, k: Kind, branch: int, warehouse: int, lines: seq<Line>, sides: Line -> Sides)
    ensures AllAccepted(c, k, branch, warehouse, lines, 0, sides)
  {
  }

  /** A create loop stops only where the list is not all new or a line is not accepted. */
  lemma CreateStops(base: Db, before: Db, o: Owner, branch: int, warehouse: int, lines: seq<Line>, i: nat, sides: Line -> Sides)
    requires i < |lines| && Progress(base, before, o, lines[..i])
    requires (o.OfKind(), lines[i].id) in before.items || lines[i].id in before.core.txns
             || !Writable(before.core, o.OfKind(), branch, warehouse, lines[i], sides(lines[i]))
    requires lines[i].id !in IdsOf(lines[..i]) ==>
               (Writable(before.core, o.OfKind(), branch, warehouse, lines[i], sides(lines[i]))
                <==> Accepted(base.core, o.OfKind(), branch, warehouse, lines, i, sides))
    ensures !(Fresh(base, o, lines) && AllAccepted(base.core, o.OfKind(), branch, warehouse, lines, |lines|, sides))
  {
    hide Writable, Accepted, Progress;
    if Fresh(base, o, lines) {
      IdIsFree(base, before, o, lines, i);
      NotAllAccepted(base.core, o.OfKind(), branch, warehouse, lines, i, sides);
    }
  }

  // ---- removing lines that draw on batches ---------------------------------------------------------------------

  /** What the movements `ids` add to the closing of batch `b`, and what those of them that add to it do. */
  ghost function Share(ids: set<Uuid>, b: int): (Uuid, Txn) -> real {
    (id, t: Txn) => if id in ids && t.batch == b then t.Net() else 0.0
  }

  ghost function Gains(ids: set<Uuid>, b: int): (Uuid, Txn) -> real {
    (id, t: Txn) => if id in ids && t.batch == b && t.Net() > 0.0 then t.Net() else 0.0
  }

  /** Each batch can do without all that the movements `ids` add to it, whatever they take from it. */
  ghost predicate Weathers(c: Core, ids: set<Uuid>) {
    forall b :: b in c.batches ==>
      MayGoBelow(c.inventories, c.batches[b].inventory) || c.batches[b].Closing() - Sum(c.txns, Gains(ids, b)) >= 0.0
  }

  /** Batch `b` closes at or above zero without the movements `gone`, or need not. */
  ghost predicate CoveredWithout(c: Core, gone: set<Uuid>, b: int) {
    b in c.batches ==>
      MayGoBelow(c.inventories, c.batches[b].inventory) || c.batches[b].Closing() - Sum(c.txns, Share(gone, b)) >= 0.0
  }

  ghost predicate EndsCovered(c: Core, ids: set<Uuid>) { forall b :: b in c.batches ==> CoveredWithout(c, ids, b) }

  /** No batch is both added to and taken from. */
  predicate SameSigned(txns: map<Uuid, Txn>, ids: set<Uuid>) {
    forall i, j :: i in ids && j in ids && i in txns && j in txns && txns[i].batch == txns[j].batch ==>
      !(txns[i].Net() > 0.0 && txns[j].Net() < 0.0)
  }

  /** An order of removal. */
  ghost predicate Ordering(ids: set<Uuid>, order: seq<Uuid>) {
    && (forall id :: id in ids <==> id in order)
    && (forall i, j :: 0 <= i < j < |order| ==> order[i] != order[j])
  }

  function First(order: seq<Uuid>, n: nat): set<Uuid>
    requires n <= |order|
  {
    set id | id in order[..n]
  }

  /** Each removal in this order leaves its batch covered. */
  ghost predicate Passes(c: Core, order: seq<Uuid>) {
    forall n :: 0 <= n < |order| ==> order[n] in c.txns && CoveredWithout(c, First(order, n + 1), c.txns[order[n]].batch)
  }

  /** Movements that own no batch are removed in an order that SQL leaves open, and go exactly if that order passes. */
  ghost predicate RemovalOf(c: Core, ids: set<Uuid>, ok: bool) {
    exists order :: Ordering(ids, order) && (ok <==> Passes(c, order))
  }

  lemma ShareGone(txns: map<Uuid, Txn>, ids: set<Uuid>, b: int)
    ensures Sum(txns - ids, NetOf(b)) == Sum(txns, NetOf(b)) - Sum(txns, Share(ids, b))
  {
    var rest := (id: Uuid, t: Txn) => if id in ids then 0.0 else NetOf(b)(id, t);
    SumAdd(txns, rest, Share(ids, b), NetOf(b));
    SumRestrict(txns, rest, ids);
    SumCong(txns - ids, rest, txns - ids, NetOf(b));
  }

  /** The guard on the next removal, seen from the state before the first. */
  lemma NextGoesIff(c: Core, now: Core, done: set<Uuid>, id: Uuid)
    requires Sound(c) && Sound(now) && id in now.txns
    requires now.txns == c.txns - done && now.inventories == c.inventories && Lost(c.batches, now.batches, done)
    ensures id in c.txns
    ensures var b := now.txns[id].batch;
            && c.txns[id].batch == b && b in now.batches
            && (MayGoBelow(now.inventories, now.batches[b].inventory) || now.batches[b].Closing() - now.txns[id].Net() >= 0.0
                <==> CoveredWithout(c, done + {id}, b))
  {
    hide Sound, Shape;
    MovementFacts(now, id);
    var b := now.txns[id].batch;
    ClosingIsNet(c, b);
    ClosingIsNet(now, b);
    ShareGone(c.txns, done + {id}, b);
    SumTake(now.txns, NetOf(b), id);
    assert c.txns - (done + {id}) == now.txns - {id};
    SameInventory(c, now, b);
  }

  // ---- orders of removal ---------------------------------------------------------------------------------------

  lemma {:induction false} SomeOrder(ids: set<Uuid>) returns (order: seq<Uuid>)
    ensures Ordering(ids, order)
  {
    if id :| id in ids {
      var less := SomeOrder(ids - {id});
      order := less + [id];
    } else {
      order := [];
    }
  }

  lemma OrderedApart(a: set<Uuid>, b: set<Uuid>, first: seq<Uuid>, second: seq<Uuid>)
    requires a !! b && Ordering(a, first) && Ordering(b, second)
    ensures Ordering(a + b, first + second)
    ensures forall n :: 0 <= n <= |first| ==> First(first + second, n) == First(first, n)
    ensures First(first + second, |first|) == a
    ensures forall n :: 0 <= n <= |second| ==> First(first + second, |first| + n) == a + First(second, n)
  {
    var all := first + second;
    forall n | 0 <= n <= |first| ensures First(all, n) == First(first, n) {
      assert all[..n] == first[..n];
    }
    forall n | 0 <= n <= |second| ensures First(all, |first| + n) == a + First(second, n) {
      var part := first + second[..n];
      assert all[..|first| + n] == part;
      forall id ensures id in part <==> id in a || id in second[..n] {}
    }
    assert First(second, 0) == {};
    assert First(all, |first|) == a + First(second, 0) == a;
    forall i, j | 0 <= i < j < |all| ensures all[i] != all[j] {
      assert i < |first| ==> all[i] in first;
      assert j >= |first| ==> all[j] in second;
    }
  }

  /** One more removal. */
  lemma PassesNext(c: Core, order: seq<Uuid>, id: Uuid)
    ensures Passes(c, order + [id]) <==>
            Passes(c, order) && id in c.txns && CoveredWithout(c, First(order, |order|) + {id}, c.txns[id].batch)
  {
    hide CoveredWithout;
    var more := order + [id];
    forall n | 0 <= n < |order| ensures more[n] == order[n] && First(more, n + 1) == First(order, n + 1) {
      assert more[..n + 1] == order[..n + 1];
    }
    assert more[..|more|] == order[..|order|] + [id];
    assert more[|order|] == id && First(more, |order| + 1) == First(order, |order|) + {id};
  }

  lemma PassesFirst(c: Core, order: seq<Uuid>, rest: seq<Uuid>)
    requires Passes(c, order + rest)
    ensures Passes(c, order)
  {
    hide CoveredWithout;
    var all := order + rest;
    forall n | 0 <= n < |order| ensures order[n] in c.txns && CoveredWithout(c, First(order, n + 1), c.txns[order[n]].batch) {
      assert all[n] == order[n] && all[..n + 1] == order[..n + 1];
    }
  }

  /** A removal that is refused part way refuses the whole order, whatever would have come after. */
  lemma RefusedAt(c: Core, ids: set<Uuid>, done: set<Uuid>, order: seq<Uuid>, id: Uuid)
    requires Ordering(done, order) && done <= ids && id in ids && id !in done && !Passes(c, order + [id])
    ensures RemovalOf(c, ids, false)
  {
    hide Passes;
    var rest := SomeOrder(ids - done - {id});
    OrderedApart(done, {id}, order, [id]);
    OrderedApart(done + {id}, ids - done - {id}, order + [id], rest);
    assert done + {id} + (ids - done - {id}) == ids;
    if Passes(c, order + [id] + rest) {
      PassesFirst(c, order + [id], rest);
    }
  }

  lemma OrderStep(c: Core, ids: set<Uuid>, done: set<Uuid>, order: seq<Uuid>, id: Uuid, ok: bool)
    requires Ordering(done, order) && done <= ids && id in ids && id !in done && Passes(c, order) && id in c.txns
    requires ok <==> CoveredWithout(c, done + {id}, c.txns[id].batch)
    ensures Ordering(done + {id}, order + [id])
    ensures if ok then Passes(c, order + [id]) else RemovalOf(c, ids, false)
  {
    hide Passes, CoveredWithout, RemovalOf;
    OrderedApart(done, {id}, order, [id]);
    PassesNext(c, order, id);
    assert First(order, |order|) == done;
    if !ok {
      RefusedAt(c, ids, done, order, id);
    }
  }

  lemma OrderStart(c: Core)
    ensures Ordering({}, []) && Passes(c, [])
  {
  }

  lemma OrderDone(c: Core, ids: set<Uuid>, order: seq<Uuid>)
    requires Ordering(ids, order) && Passes(c, order)
    ensures RemovalOf(c, ids, true)
  {
  }

  /** Every order passes exactly when each batch can do without all that is added to it. */
  lemma AllOrdersPassIff(c: Core, ids: set<Uuid>)
    requires Sound(c) && ids <= c.txns.Keys
    ensures Weathers(c, ids) <==> forall order :: Ordering(ids, order) ==> Passes(c, order)
  {
    hide Sound, Passes;
    if Weathers(c, ids) {
      forall order | Ordering(ids, order) ensures Passes(c, order) {
        WeathersPasses(c, ids, order);
      }
    } else {
      var order := GainsFirst(c, ids);
    }
  }

  lemma WeathersPasses(c: Core, ids: set<Uuid>, order: seq<Uuid>)
    requires Sound(c) && ids <= c.txns.Keys && Weathers(c, ids) && Ordering(ids, order)
    ensures Passes(c, order)
  {
    hide Sound;
    forall n | 0 <= n < |order|
      ensures order[n] in c.txns && CoveredWithout(c, First(order, n + 1), c.txns[order[n]].batch)
    {
      var b, gone := c.txns[order[n]].batch, First(order, n + 1);
      assert gone <= ids;
      forall id | id in c.txns ensures Share(gone, b)(id, c.txns[id]) <= Gains(ids, b)(id, c.txns[id]) {}
      SumMono(c.txns, Share(gone, b), Gains(ids, b));
    }
  }

  /** Where some batch cannot, taking what adds to it first is refused. */
  lemma GainsFirst(c: Core, ids: set<Uuid>) returns (order: seq<Uuid>)
    requires Sound(c) && ids <= c.txns.Keys && !Weathers(c, ids)
    ensures Ordering(ids, order) && !Passes(c, order)
  {
    hide Sound;
    var b :| b in c.batches && !MayGoBelow(c.inventories, c.batches[b].inventory)
             && c.batches[b].Closing() - Sum(c.txns, Gains(ids, b)) < 0.0;
    var gone := set id | id in ids && c.txns[id].batch == b && c.txns[id].Net() > 0.0;
    forall id | id in c.txns ensures Gains(ids, b)(id, c.txns[id]) == Share(gone, b)(id, c.txns[id]) {}
    SumCong(c.txns, Gains(ids, b), c.txns, Share(gone, b));
    var first := SomeOrder(gone);
    var rest := SomeOrder(ids - gone);
    OrderedApart(gone, ids - gone, first, rest);
    assert gone + (ids - gone) == ids;
    order := first + rest;
    if first == [] {
      assert gone == {};
      SumZero(c.txns, Share(gone, b));
      BatchFacts(c, b);
      assert false;
    } else {
      var n := |first| - 1;
      assert order[n] == first[n] && first[n] in gone;
      assert First(order, n + 1) == gone;
    }
  }

  /** Some order passes exactly when each batch ends covered. */
  lemma SomeOrderPassesIff(c: Core, ids: set<Uuid>)
    requires Sound(c) && ids <= c.txns.Keys
    ensures EndsCovered(c, ids) <==> exists order :: Ordering(ids, order) && Passes(c, order)
  {
    hide Sound, Passes, EndsCovered;
    if EndsCovered(c, ids) {
      var order := TakingsFirst(c, ids);
    }
    if order :| Ordering(ids, order) && Passes(c, order) {
      PassedEnds(c, ids, order);
    }
  }

  /** Taking what takes from batches first passes. */
  lemma TakingsFirst(c: Core, ids: set<Uuid>) returns (order: seq<Uuid>)
    requires Sound(c) && ids <= c.txns.Keys && EndsCovered(c, ids)
    ensures Ordering(ids, order) && Passes(c, order)
  {
    hide Sound;
    var takers := set id | id in ids && c.txns[id].Net() <= 0.0;
    var first := SomeOrder(takers);
    var rest := SomeOrder(ids - takers);
    OrderedApart(takers, ids - takers, first, rest);
    assert takers + (ids - takers) == ids;
    order := first + rest;
    forall n | 0 <= n < |order|
      ensures order[n] in c.txns && CoveredWithout(c, First(order, n + 1), c.txns[order[n]].batch)
    {
      assert order[n] in order;
      var b := c.txns[order[n]].batch;
      if n < |first| {
        assert First(order, n + 1) <= takers;
        TakingKeeps(c, First(order, n + 1), b);
      } else {
        assert First(order, |first| + (n + 1 - |first|)) == takers + First(rest, n + 1 - |first|);
        assert First(rest, n + 1 - |first|) <= ids - takers;
        LessGained(c, ids, takers + First(rest, n + 1 - |first|), b);
      }
    }
  }

  lemma TakingKeeps(c: Core, gone: set<Uuid>, b: int)
    requires Sound(c) && forall id :: id in gone && id in c.txns ==> c.txns[id].Net() <= 0.0
    ensures CoveredWithout(c, gone, b)
  {
    hide Sound;
    var zero := (id: Uuid, t: Txn) => 0.0;
    forall id | id in c.txns ensures Share(gone, b)(id, c.txns[id]) <= zero(id, c.txns[id]) {}
    SumMono(c.txns, Share(gone, b), zero);
    SumZero(c.txns, zero);
    if b in c.batches {
      BatchFacts(c, b);
    }
  }

  lemma LessGained(c: Core, ids: set<Uuid>, gone: set<Uuid>, b: int)
    requires EndsCovered(c, ids) && gone <= ids && forall id :: id in ids - gone && id in c.txns ==> c.txns[id].Net() > 0.0
    ensures CoveredWithout(c, gone, b)
  {
    assert b in c.batches ==> CoveredWithout(c, ids, b);
    forall id | id in c.txns ensures Share(gone, b)(id, c.txns[id]) <= Share(ids, b)(id, c.txns[id]) {}
    SumMono(c.txns, Share(gone, b), Share(ids, b));
  }

  /** Once an order has passed, each batch ends covered: the last removal on it said so. */
  lemma PassedEnds(c: Core, ids: set<Uuid>, order: seq<Uuid>)
    requires Sound(c) && Ordering(ids, order) && Passes(c, order)
    ensures EndsCovered(c, ids)
  {
    hide Sound;
    forall b | b in c.batches ensures CoveredWithout(c, ids, b) {
      var n := LastOn(c, order, b, |order|);
      if n < 0 {
        TakingKeeps(c, {}, b);
        forall id | id in c.txns ensures Share(ids, b)(id, c.txns[id]) == Share({}, b)(id, c.txns[id]) {}
        SumCong(c.txns, Share(ids, b), c.txns, Share({}, b));
      } else {
        var gone := First(order, n + 1);
        forall i | 0 <= i <= n ensures order[i] in gone {
          assert order[..n + 1][i] == order[i];
        }
        forall id | id in c.txns ensures Share(ids, b)(id, c.txns[id]) == Share(gone, b)(id, c.txns[id]) {
          if id in ids && id !in gone {
            var i :| 0 <= i < |order| && order[i] == id;
          }
        }
        SumCong(c.txns, Share(ids, b), c.txns, Share(gone, b));
      }
    }
  }

  /** The last of the first `m` removals that is on batch `b`, if any. */
  lemma {:induction false} LastOn(c: Core, order: seq<Uuid>, b: int, m: nat) returns (n: int)
    requires m <= |order| && forall i :: 0 <= i < |order| ==> order[i] in c.txns
    ensures -1 <= n < m && (n >= 0 ==> c.txns[order[n]].batch == b)
    ensures forall i :: n < i < m ==> c.txns[order[i]].batch != b
  {
    if m == 0 {
      n := -1;
    } else if c.txns[order[m - 1]].batch == b {
      n := m - 1;
    } else {
      n := LastOn(c, order, b, m - 1);
    }
  }

  /** So a removal goes where each batch can do without all that is added to it, only where each ends covered, and exactly there
      when no batch is both added to and taken from. */
  lemma RemovalMeans(c: Core, ids: set<Uuid>, ok: bool)
    requires Sound(c) && ids <= c.txns.Keys && RemovalOf(c, ids, ok)
    ensures Weathers(c, ids) ==> ok
    ensures ok ==> EndsCovered(c, ids)
    ensures SameSigned(c.txns, ids) ==> (ok <==> EndsCovered(c, ids))
  {
    hide Sound, Weathers, EndsCovered, SameSigned, Passes;
    AllOrdersPassIff(c, ids);
    SomeOrderPassesIff(c, ids);
    if SameSigned(c.txns, ids) && EndsCovered(c, ids) {
      CoveredWeathers(c, ids);
    }
  }

  lemma SameInventory(c: Core, now: Core, b: int)
    requires b in c.batches && b in now.batches && Shape(c.batches[b]) == Shape(now.batches[b])
    ensures c.batches[b].inventory == now.batches[b].inventory
  {
  }

  lemma StillNone(c: Core, now: Core, done: set<Uuid>, id: Uuid)
    requires OwnsNone(c.batches, id) && Lost(c.batches, now.batches, done)
    ensures OwnsNone(now.batches, id)
  {
    forall b | b in now.batches ensures now.batches[b].txnId == c.batches[b].txnId {
      assert Shape(c.batches[b]) == Shape(now.batches[b]);
    }
  }

  /** Part way through removing the lines `keys` with their movements: those of `done` are gone. */
  ghost predicate Removing(db: Db, now: Db, k: Kind, keys: set<ItemKey>, done: set<Uuid>) {
    && now.docs == db.docs && now.items == db.items - keys && SourcesKnown(now.items, now.core.batches)
    && now.core.inventories == db.core.inventories && now.core.nextBatch == db.core.nextBatch
    && now.core.txns == db.core.txns - done && Lost(db.core.batches, now.core.batches, done) && Sound(now.core)
    && (done == {} ==> now.core == db.core)
    && (OwnsBatch(k) ==> forall id :: id in done ==> !DrawnOn(db.core.txns, db.items, keys, id))
  }

  lemma RemovingStart(db: Db, k: Kind, keys: set<ItemKey>)
    requires Consistent(db)
    ensures Removing(db, db.(items := db.items - keys), k, keys, {})
  {
    hide Sound, SourcesKnown;
    SourcesStart(db, keys);
    ConsistentFacts(db);
  }

  lemma RemovalFacts(db: Db, keys: set<ItemKey>, id: Uuid)
    requires Consistent(db) && keys <= db.items.Keys && id in IdsIn(keys)
    ensures id in db.core.txns
  {
    hide Sound;
    ConsistentFacts(db);
  }

  lemma LostMore(was: map<int, Batch>, before: map<int, Batch>, now: map<int, Batch>, done: set<Uuid>, id: Uuid)
    requires Lost(was, before, done) && Lost(before, now, {id})
    ensures Lost(was, now, done + {id})
  {
    forall b | b in was && was[b].txnId !in done + {id} ensures b in now {
      assert Shape(was[b]) == Shape(before[b]);
    }
  }

  lemma RemovingEnd(db: Db, now: Db, k: Kind, keys: set<ItemKey>)
    requires Consistent(db) && keys <= db.items.Keys && (forall key :: key in keys ==> key.0 == k)
    requires Removing(db, now, k, keys, IdsIn(keys))
    ensures Consistent(now) && now.items == db.items - keys && now.docs == db.docs
    ensures now.core.txns == db.core.txns - IdsIn(keys) && Lost(db.core.batches, now.core.batches, IdsIn(keys))
    ensures now.core.inventories == db.core.inventories && now.core.nextBatch == db.core.nextBatch
    ensures OwnsBatch(k) ==> forall id :: id in IdsIn(keys) ==> !DrawnOn(db.core.txns, db.items, keys, id)
    ensures keys == {} ==> now == db
  {
    hide Sound, DrawnOn, Consistent;
    ConsistentFacts(db);
    LinesGone(db, now, keys);
    if keys == {} {
      assert db.items - keys == db.items;
    }
  }

  /** Without mixed signs, ending covered is enough. */
  lemma CoveredWeathers(c: Core, ids: set<Uuid>)
    requires Sound(c) && SameSigned(c.txns, ids) && EndsCovered(c, ids)
    ensures Weathers(c, ids)
  {
    hide Sound;
    forall b | b in c.batches
      ensures MayGoBelow(c.inventories, c.batches[b].inventory) || c.batches[b].Closing() - Sum(c.txns, Gains(ids, b)) >= 0.0
    {
      if j :| j in ids && j in c.txns && c.txns[j].batch == b && c.txns[j].Net() < 0.0 {
        forall id | id in c.txns ensures Gains(ids, b)(id, c.txns[id]) == 0.0 {}
        SumZero(c.txns, Gains(ids, b));
        BatchFacts(c, b);
      } else {
        forall id | id in c.txns ensures Gains(ids, b)(id, c.txns[id]) == Share(ids, b)(id, c.txns[id]) {}
        SumCong(c.txns, Gains(ids, b), c.txns, Share(ids, b));
      }
    }
  }

  /** Movements that only take from their batches, such as those of sales and deductions, can always be removed. */
  lemma TakingAlwaysGoes(c: Core, ids: set<Uuid>)
    requires Sound(c) && forall id :: id in ids && id in c.txns ==> c.txns[id].Net() <= 0.0
    ensures Weathers(c, ids)
  {
    hide Sound;
    forall b | b in c.batches
      ensures MayGoBelow(c.inventories, c.batches[b].inventory) || c.batches[b].Closing() - Sum(c.txns, Gains(ids, b)) >= 0.0
    {
      forall id | id in c.txns ensures Gains(ids, b)(id, c.txns[id]) == 0.0 {}
      SumZero(c.txns, Gains(ids, b));
      BatchFacts(c, b);
    }
  }

  lemma DrawsOwnNone(db: Db, keys: set<ItemKey>)
    requires Consistent(db) && keys <= db.items.Keys && forall k :: k in keys ==> !OwnsBatch(k.0)
    ensures forall id :: id in IdsIn(keys) ==> OwnsNone(db.core.batches, id)
  {
    hide Sound;
    forall id | id in IdsIn(keys) ensures OwnsNone(db.core.batches, id) {
      var k :| k in keys && k.1 == id;
      LineFacts(db, k);
    }
  }

  /** What those of the movements `ids` that take from batch `b` take. */
  ghost function Takings(ids: set<Uuid>, b: int): (Uuid, Txn) -> real {
    (id, t: Txn) => if id in ids && t.batch == b && t.Net() < 0.0 then t.Net() else 0.0
  }

  /** A document just created: no batch it brought is named from elsewhere, and without it each batch it draws on is as covered
      as before, so some order of removal passes. Every order does exactly when each batch was covered, before it was created,
      for all that the document takes. */
  lemma CreatedCanGo(was: Db, mid: Db, o: Owner, branch: int, lines: seq<Line>, sides: Line -> Sides)
    requires Consistent(was) && Consistent(mid) && LinesOf(was.items, o) == {}
    requires Written(was, mid, o, branch, lines, sides)
    ensures var keys := LinesOf(mid.items, o);
            IdsIn(keys) == IdsOf(lines)
            && (OwnsBatch(o.OfKind()) ==>
                  forall id :: id in IdsIn(keys) ==> !DrawnOn(mid.core.txns, mid.items, keys, id))
    ensures !OwnsBatch(o.OfKind()) ==>
              && EndsCovered(mid.core, IdsOf(lines))
              && (Weathers(mid.core, IdsOf(lines)) <==>
                    forall b :: b in was.core.batches ==>
                      || MayGoBelow(was.core.inventories, was.core.batches[b].inventory)
                      || was.core.batches[b].Closing() + Sum(mid.core.txns, Takings(IdsOf(lines), b)) >= 0.0)
  {
    hide Sound, Written, LinesHeld;
    WrittenParts(was, mid, o, branch, lines, sides);
    var keys, ids := LinesOf(mid.items, o), IdsOf(lines);
    ConsistentFacts(was);
    ConsistentFacts(mid);
    if OwnsBatch(o.OfKind()) {
      forall id | id in IdsIn(keys) ensures !DrawnOn(mid.core.txns, mid.items, keys, id) {
        OwnBatchUnnamed(was, mid, o, lines, keys, id);
      }
    } else {
      OwnKinds(mid, o);
      DrawsOwnNone(mid, keys);
      forall b | b in mid.core.batches ensures b in was.core.batches {}
      forall b | b in was.core.batches
        ensures MayGoBelow(mid.core.inventories, mid.core.batches[b].inventory)
                <==> MayGoBelow(was.core.inventories, was.core.batches[b].inventory)
        ensures CoveredWithout(mid.core, ids, b)
        ensures mid.core.batches[b].Closing() - Sum(mid.core.txns, Gains(ids, b))
             == was.core.batches[b].Closing() + Sum(mid.core.txns, Takings(ids, b))
      {
        SameInventory(was.core, mid.core, b);
        CreatedOn(was.core, mid.core, ids, b);
      }
    }
  }

  /** What a batch drawn on gains and loses by a document just created. */
  lemma CreatedOn(was: Core, mid: Core, ids: set<Uuid>, b: int)
    requires Sound(was) && Sound(mid) && mid.txns - ids == was.txns && mid.inventories == was.inventories
    requires b in was.batches && b in mid.batches && Shape(was.batches[b]) == Shape(mid.batches[b])
    ensures CoveredWithout(mid, ids, b)
    ensures mid.batches[b].Closing() - Sum(mid.txns, Gains(ids, b)) == was.batches[b].Closing() + Sum(mid.txns, Takings(ids, b))
  {
    hide Sound, Shape;
    SameInventory(was, mid, b);
    ClosingIsNet(was, b);
    ClosingIsNet(mid, b);
    ShareGone(mid.txns, ids, b);
    SumAdd(mid.txns, Gains(ids, b), Takings(ids, b), Share(ids, b));
    BatchFacts(was, b);
  }

  /** An adjustment that adds to an empty batch and takes from it again was accepted, but some order of removal is refused. */
  lemma MixedMayStay(was: Db, mid: Db, o: Owner, branch: int, lines: seq<Line>, sides: Line -> Sides, l: Line)
    requires Consistent(was) && Consistent(mid) && LinesOf(was.items, o) == {} && !OwnsBatch(o.OfKind())
    requires Written(was, mid, o, branch, lines, sides) && l in lines && sides(l).inward < sides(l).outward
    requires l.batch in was.core.batches && was.core.batches[l.batch].Closing() == 0.0
    requires !MayGoBelow(was.core.inventories, was.core.batches[l.batch].inventory)
    ensures IdsOf(lines) <= mid.core.txns.Keys
    ensures exists order :: Ordering(IdsOf(lines), order) && !Passes(mid.core, order)
  {
    hide Consistent, Written, Passes, Weathers;
    var ids := IdsOf(lines);
    ConsistentFacts(mid);
    CreatedCanGo(was, mid, o, branch, lines, sides);
    forall id | id in ids ensures id in mid.core.txns {
      var m :| m in lines && m.id == id;
      DrawnMoves(was, mid, o, branch, lines, sides, m);
    }
    DrawnMoves(was, mid, o, branch, lines, sides, l);
    TakenAtLeast(mid.core.txns, ids, l.id);
    AllOrdersPassIff(mid.core, ids);
  }

  lemma DrawnMoves(was: Db, mid: Db, o: Owner, branch: int, lines: seq<Line>, sides: Line -> Sides, l: Line)
    requires Written(was, mid, o, branch, lines, sides) && l in lines && !OwnsBatch(o.OfKind())
    ensures l.id in mid.core.txns
    ensures var t := mid.core.txns[l.id]; t.batch == l.batch && t.Net() == sides(l).inward - sides(l).outward
  {
    assert MovementHeld(mid.core.batches, mid.core.txns, o.OfKind(), branch, l, sides(l));
  }

  lemma TakenAtLeast(txns: map<Uuid, Txn>, ids: set<Uuid>, id: Uuid)
    requires id in ids && id in txns && txns[id].Net() < 0.0
    ensures Sum(txns, Takings(ids, txns[id].batch)) <= txns[id].Net()
  {
    var b := txns[id].batch;
    var only := (i: Uuid, t: Txn) => if i == id then t.Net() else 0.0;
    SumMono(txns, Takings(ids, b), only);
    SumTake(txns, only, id);
    SumZero(txns - {id}, only);
  }

  /** What writing a document that had no lines leaves alone. */
  lemma WrittenParts(was: Db, mid: Db, o: Owner, branch: int, lines: seq<Line>, sides: Line -> Sides)
    requires Written(was, mid, o, branch, lines, sides) && LinesOf(was.items, o) == {}
    ensures mid.core.inventories == was.core.inventories
    ensures mid.items - LinesOf(mid.items, o) == was.items && mid.core.txns - IdsOf(lines) == was.core.txns
    ensures IdsIn(LinesOf(mid.items, o)) == IdsOf(lines)
    ensures forall b :: b in was.core.batches ==>
              b in mid.core.batches && Shape(was.core.batches[b]) == Shape(mid.core.batches[b])
    ensures forall b :: b in mid.core.batches && b !in was.core.batches ==> mid.core.batches[b].txnId in IdsOf(lines)
  {
    hide LinesHeld, Shape;
    assert IdsIn({}) == {} && was.items - {} == was.items && was.core.txns - {} == was.core.txns;
    var keys := KeysOf(o.OfKind(), lines);
    forall id | id in IdsOf(lines) ensures id in IdsIn(keys) {
      var l :| l in lines && l.id == id;
      assert (o.OfKind(), id) in keys;
    }
  }

  lemma OwnBatchUnnamed(was: Db, mid: Db, o: Owner, lines: seq<Line>, keys: set<ItemKey>, id: Uuid)
    requires Consistent(was) && Consistent(mid) && OwnsBatch(o.OfKind()) && keys == LinesOf(mid.items, o) && id in IdsIn(keys)
    requires mid.items - keys == was.items && mid.core.txns - IdsOf(lines) == was.core.txns && IdsIn(keys) == IdsOf(lines)
    requires forall b :: b in was.core.batches ==>
               b in mid.core.batches && Shape(was.core.batches[b]) == Shape(mid.core.batches[b])
    ensures !DrawnOn(mid.core.txns, mid.items, keys, id)
  {
    hide Consistent, ItemOk, Shape, LinesOf;
    OwnKinds(mid, o);
    var k :| k in keys && k.1 == id;
    BroughtNew(was, mid, keys, lines, k);
    OthersElsewhere(was, mid, keys, lines, id);
    ItemsElsewhere(was, mid, keys, mid.core.txns[id].batch);
  }

  lemma OthersElsewhere(was: Db, mid: Db, keys: set<ItemKey>, lines: seq<Line>, id: Uuid)
    requires Consistent(was) && Consistent(mid) && keys <= mid.items.Keys && IdsIn(keys) == IdsOf(lines) && id in IdsIn(keys)
    requires mid.core.txns - IdsOf(lines) == was.core.txns && forall k :: k in keys ==> OwnsBatch(k.0)
    requires forall b :: b in was.core.batches ==>
               b in mid.core.batches && Shape(was.core.batches[b]) == Shape(mid.core.batches[b])
    ensures id in mid.core.txns
    ensures forall t :: t in mid.core.txns - {id} ==> mid.core.txns[t].batch != mid.core.txns[id].batch
  {
    hide Consistent, Shape, OwnsBatch;
    var k :| k in keys && k.1 == id;
    BroughtNew(was, mid, keys, lines, k);
    forall t | t in mid.core.txns - {id} ensures mid.core.txns[t].batch != mid.core.txns[id].batch {
      if t in IdsOf(lines) {
        var j :| j in keys && j.1 == t;
        BroughtNew(was, mid, keys, lines, j);
      } else {
        assert t in was.core.txns && was.core.txns[t] == mid.core.txns[t];
        OldUseOld(was, t);
      }
    }
  }

  lemma ItemsElsewhere(was: Db, mid: Db, keys: set<ItemKey>, b: int)
    requires Consistent(was) && mid.items - keys == was.items && b !in was.core.batches
    ensures forall j :: j in mid.items - keys ==> mid.items[j].batch != Some(b) && mid.items[j].source != Some(b)
  {
    hide Consistent;
    forall j | j in mid.items - keys ensures mid.items[j].batch != Some(b) && mid.items[j].source != Some(b) {
      assert j in was.items && was.items[j] == mid.items[j];
      OldNamesOld(was, j);
    }
  }

  /** The batch of a line brought since is new, and the line's own. */
  lemma BroughtNew(was: Db, mid: Db, keys: set<ItemKey>, lines: seq<Line>, k: ItemKey)
    requires Consistent(mid) && k in keys && keys <= mid.items.Keys && OwnsBatch(k.0)
    requires mid.core.txns - IdsOf(lines) == was.core.txns && k.1 in IdsOf(lines) && Consistent(was)
    requires forall b :: b in was.core.batches ==>
               b in mid.core.batches && Shape(was.core.batches[b]) == Shape(mid.core.batches[b])
    ensures k.1 in mid.core.txns
    ensures var b := mid.core.txns[k.1].batch;
            b !in was.core.batches && b in mid.core.batches && mid.core.batches[b].txnId == k.1
  {
    hide Sound;
    LineFacts(mid, k);
    ConsistentFacts(was);
    var b := mid.core.txns[k.1].batch;
    forall d | d in was.core.batches ensures mid.core.batches[d].txnId != k.1 {
      assert Shape(was.core.batches[d]) == Shape(mid.core.batches[d]);
    }
  }

  lemma OldUseOld(was: Db, t: Uuid)
    requires Consistent(was) && t in was.core.txns
    ensures was.core.txns[t].batch in was.core.batches
  {
    MovementFacts(was.core, t);
  }

  lemma OldNamesOld(was: Db, j: ItemKey)
    requires Consistent(was) && j in was.items
    ensures was.items[j].batch.Some? ==> was.items[j].batch.value in was.core.batches
    ensures was.items[j].source.Some? ==> was.items[j].source.value in was.core.batches
  {
    hide Sound;
    ConsistentFacts(was);
    LineFacts(was, j);
  }

  /** What removing the lines `gone` of an owner leaves, if it succeeds: lines that own batches go exactly when nothing else names
      those, lines that draw on batches exactly if the order taken passes, and no lines always go. */
  ghost predicate LeftAfter(was: Db, left: Option<Core>, o: Owner, gone: set<ItemKey>) {
    && (left.Some? ==>
          && left.value.inventories == was.core.inventories && left.value.nextBatch == was.core.nextBatch
          && left.value.txns == was.core.txns - IdsIn(gone) && Sound(left.value)
          && Lost(was.core.batches, left.value.batches, IdsIn(gone)))
    && (OwnsBatch(o.OfKind()) ==>
          (left.Some? <==> forall id :: id in IdsIn(gone) ==> !DrawnOn(was.core.txns, was.items, gone, id)))
    && (!OwnsBatch(o.OfKind()) ==> RemovalOf(was.core, IdsIn(gone), left.Some?))
    && (gone == {} ==> left == Some(was.core))
  }

  // ---- documents -----------------------------------------------------------------------------------------------

  /** Exactly what the create procedures accept. */
  ghost predicate Creatable(db: Db, k: Kind, d: int, h: Header, deduction: Option<int>, lines: seq<Line>) {
    && (k in {Deduction, Addition} ==> !(h.altBranch == Some(h.branch) && h.altWarehouse == Some(h.warehouse)))
    && (k == Addition && deduction.Some? ==>
          exists x :: x in db.docs && x.0 == Deduction && db.docs[x].voucher == deduction.value && !db.docs[x].approved
                      && h.altBranch == Some(db.docs[x].branch))
    && (lines != [] || k == Sale)
    && Fresh(db, Document(k, d), lines)
    && AllAccepted(db.core, k, h.branch, h.warehouse, lines, |lines|, CreatedBy(db.core.inventories, k))
  }

  /** The new header has what was sent, nothing approved and no deduction voucher; an addition that names a deduction voucher
      approves its open deductions at the other branch, and no other header changes. */
  ghost predicate HeaderStored(was: map<(Kind, int), Doc>, now: map<(Kind, int), Doc>, k: Kind, d: int, h: Header,
                               deduction: Option<int>)
  {
    && now.Keys == was.Keys + {(k, d)}
    && now[(k, d)] == Doc(h.voucher, h.branch, h.warehouse, h.altBranch, h.altWarehouse, false, None)
    && forall x :: x in was && x != (k, d) ==>
         now[x] == if k == Addition && deduction.Some? && x.0 == Deduction && was[x].voucher == deduction.value && !was[x].approved
                      && h.altBranch == Some(was[x].branch)
                   then was[x].(approved := true) else was[x]
  }

  lemma HeaderIsStored(docs: map<(Kind, int), Doc>, k: Kind, d: int, h: Header, deduction: Option<int>)
    ensures var marked := if k == Addition && deduction.Some? then Approve(docs, deduction.value, h.altBranch) else docs;
            HeaderStored(docs, marked[(k, d) := h.Stored()], k, d, h, deduction)
  {
  }

  /** What the update procedures ask of the header; `altBranch` and `altWarehouse` are a deduction's new ones. */
  predicate Updatable(docs: map<(Kind, int), Doc>, k: Kind, d: int, altBranch: Option<int>, altWarehouse: Option<int>) {
    && (k, d) in docs
    && (k == Deduction ==> && !docs[(k, d)].approved
                           && !(altBranch == Some(docs[(k, d)].branch) && altWarehouse == Some(docs[(k, d)].warehouse)))
  }

  /** Exactly what the update procedures accept, given what the deletion leaves. */
  ghost predicate Rewritable(was: Db, left: Option<Core>, o: Owner, branch: int, warehouse: int, lines: seq<Line>) {
    && left.Some? && lines != []
    && AllAccepted(left.value, o.OfKind(), branch, warehouse, lines, |lines|, UpdatedBy(was, o, lines))
  }

  lemma RewritableFromHeaders(was: Db, headed: Db, left: Option<Core>, o: Owner, branch: int, warehouse: int, lines: seq<Line>)
    requires headed.core == was.core && headed.items == was.items
    ensures Rewritable(headed, left, o, branch, warehouse, lines) <==> Rewritable(was, left, o, branch, warehouse, lines)
    ensures LeftAfter(headed, left, o, Missed(headed.items, o, lines)) <==> LeftAfter(was, left, o, Missed(was.items, o, lines))
  {
    hide AllAccepted, DrawnOn, RemovalOf, Lost, Sound;
    KeptFromHeaders(was, headed, o, lines);
  }

  lemma FreshFromHeaders(was: Db, headed: Db, o: Owner, lines: seq<Line>)
    requires headed.core == was.core && headed.items == was.items
    ensures Fresh(headed, o, lines) <==> Fresh(was, o, lines)
  {
  }
}
