/** The stock engine: the tables as fields, the row triggers as methods called by every row operation, and the
    document procedures on top. A raised exception rolls the whole call back: a procedure that answers `false`
    leaves every table as it was. */
module StockEngine {
  import opened Options
  import opened Sums
  import opened StockModel
  import opened StockGuards
  import opened StockMerge

  class StockDb {
    var inventories: map<int, Inventory>
    var batches: map<int, Batch>
    var txns: map<Uuid, Txn>
    var stock: map<(int, int), StockRow>
    var items: map<ItemKey, Item>
    var docs: map<(Kind, int), Doc>
    var nextBatch: int

    function TheCore(): Core
      reads this`inventories, this`batches, this`txns, this`stock, this`nextBatch
    {
      Core(inventories, batches, txns, stock, nextBatch)
    }

    function State(): Db
      reads this
    {
      Db(TheCore(), items, docs)
    }

    ghost predicate Valid()
      reads this
    {
      Consistent(State()) && Unrecorded(docs)
    }

    constructor ()
      ensures Valid() && State() == EmptyDb()
    {
      inventories, batches, txns, stock, items, docs, nextBatch := map[], map[], map[], map[], map[], map[], 1;
      new;
      EmptyIsConsistent();
    }

    /** Transaction rollback. */
    method Rollback(db: Db)
      modifies this
      ensures State() == db
    {
      inventories, batches, txns, stock := db.core.inventories, db.core.batches, db.core.txns, db.core.stock;
      nextBatch, items, docs := db.core.nextBatch, db.items, db.docs;
    }

    // ---- row triggers --------------------------------------------------------------------------------------------

    function ReorderOf(inventory: int): int
      requires inventory in inventories
      reads this`inventories
    {
      match inventories[inventory].reorder
      case Some(i) => i
      case None => inventory
    }

    /** `get_batch` finds the batch with this inventory, at this branch and warehouse. */
    predicate GetBatch(b: int, inventory: int, branch: int, warehouse: int)
      reads this`batches
    {
      b in batches && batches[b].inventory == inventory && batches[b].branch == branch && batches[b].warehouse == warehouse
    }

    /** Recompute one stock row from the batches. */
    method Refresh(branch: int, inventory: int) returns (ghost row: StockRow)
      requires inventory in inventories
      modifies this`stock
      ensures stock == old(stock)[(branch, inventory) := row]
      ensures row == StockRow(Sum(batches, ClosingOf(branch, inventory)), ReorderOf(inventory))
    {
      var s := Total(batches, ClosingOf(branch, inventory));
      row := StockRow(s, ReorderOf(inventory));
      stock := stock[(branch, inventory) := StockRow(s, ReorderOf(inventory))];
    }

    /** The trigger on batches after an update: refuse a negative closing where the old row's inventory forbids it, then
        recompute the old row's stock figure. */
    method AfterBatchUpdate(was: Batch, now: Batch) returns (ok: bool, ghost row: StockRow)
      requires was.inventory in inventories
      modifies this`stock
      ensures ok <==> inventories[was.inventory].allowNegative || now.Closing() >= 0.0
      ensures row == StockRow(Sum(batches, ClosingOf(was.branch, was.inventory)), ReorderOf(was.inventory))
      ensures stock == if ok then old(stock)[(was.branch, was.inventory) := row] else old(stock)
    {
      ok := inventories[was.inventory].allowNegative || now.Closing() >= 0.0;
      row := StockRow(Sum(batches, ClosingOf(was.branch, was.inventory)), ReorderOf(was.inventory));
      if ok {
        row := Refresh(was.branch, was.inventory);
      }
    }

    /** `update batch set inward = inward + dIn, outward = outward + dOut where id = b`, with the trigger on batches.
        `row` is the stock row the trigger writes. */
    method AddToBatch(b: int, dIn: real, dOut: real) returns (ok: bool, ghost row: StockRow)
      requires b in batches && batches[b].inventory in inventories
      modifies this`batches, this`stock
      ensures batches == old(batches)[b := Moved(old(batches)[b], dIn, dOut)]
      ensures ok <==> inventories[batches[b].inventory].allowNegative || batches[b].Closing() >= 0.0
      ensures ok ==> stock == old(stock)[(batches[b].branch, batches[b].inventory) := row]
      ensures ok ==> row == StockRow(Sum(batches, ClosingOf(batches[b].branch, batches[b].inventory)),
                                     ReorderOf(batches[b].inventory))
    {
      var was := batches[b];
      batches := batches[b := Moved(was, dIn, dOut)];
      ok, row := AfterBatchUpdate(was, batches[b]);
    }

    /** Delete a batch, with the trigger on batches. */
    method DeleteBatch(b: int) returns (ghost row: StockRow)
      requires b in batches && batches[b].inventory in inventories
      modifies this`batches, this`stock
      ensures batches == old(batches) - {b}
      ensures stock == old(stock)[(old(batches)[b].branch, old(batches)[b].inventory) := row]
      ensures row.stock == Sum(batches, ClosingOf(old(batches)[b].branch, old(batches)[b].inventory))
    {
      var was := batches[b];
      batches := batches - {b};
      row := Refresh(was.branch, was.inventory);
    }

    /** Insert into `inv_txn`. */
    method InsertTxn(id: Uuid, t: Txn) returns (ok: bool)
      requires Sound(TheCore())
      requires t.batch in batches ==> t.inventory == batches[t.batch].inventory && t.branch == batches[t.batch].branch
      requires forall b :: b in batches && batches[b].txnId == id ==> b == t.batch
      modifies this`txns, this`batches, this`stock
      ensures ok ==> Sound(TheCore()) && txns == old(txns)[id := t]
      ensures ok ==> t.batch in old(batches)
                     && batches == old(batches)[t.batch := Moved(old(batches)[t.batch], t.inward, t.outward)]
      ensures ok <==> && id !in old(txns) && t.batch in old(batches)
                      && (inventories[t.inventory].allowNegative || old(batches)[t.batch].Closing() + t.Net() >= 0.0)
    {
      hide Sound;
      ghost var c := TheCore();
      if id in txns || t.batch !in batches {
        return false;
      }
      BatchFacts(c, t.batch);
      txns := txns[id := t];
      ghost var row;
      ok, row := AddToBatch(t.batch, t.inward, t.outward);
      if ok {
        PutIsSound(c, id, t, row);
      }
    }

    /** Update the sides of a row of `inv_txn`; the batch is never written. */
    method UpdateTxn(id: Uuid, s: Sides) returns (ok: bool)
      requires Sound(TheCore()) && id in txns
      modifies this`txns, this`batches, this`stock
      ensures ok ==> && Sound(TheCore()) && txns == old(txns)[id := old(txns)[id].(inward := s.inward, outward := s.outward)]
                     && var t := old(txns)[id];
                        t.batch in old(batches)
                        && batches == old(batches)[t.batch := Moved(old(batches)[t.batch], s.inward - t.inward, s.outward - t.outward)]
      ensures ok <==> var t := old(txns)[id];
                      || inventories[t.inventory].allowNegative
                      || old(batches)[t.batch].Closing() - t.Net() + (s.inward - s.outward) >= 0.0
    {
      hide Sound;
      ghost var c := TheCore();
      var was := txns[id];
      MovementFacts(c, id);
      var now := was.(inward := s.inward, outward := s.outward);
      txns := txns[id := now];
      ghost var row;
      ok, row := AddToBatch(was.batch, now.inward - was.inward, now.outward - was.outward);
      if ok {
        PutIsSound(c, id, now, row);
      }
    }

    /** Delete from `inv_txn`: the batch the row owns goes with it, unless something still names that batch. */
    method DeleteTxn(id: Uuid) returns (ok: bool)
      requires Sound(TheCore()) && id in txns
      modifies this`txns, this`batches, this`stock
      ensures ok ==> && Sound(TheCore()) && txns == old(txns) - {id}
                     && Lost(old(batches), batches, {id})
      ensures ok <==> var b := old(txns)[id].batch;
                      if old(batches)[b].txnId == id then !Referenced(old(txns) - {id}, items, b)
                      else inventories[old(batches)[b].inventory].allowNegative
                           || old(batches)[b].Closing() - old(txns)[id].Net() >= 0.0
      ensures ok ==> forall b :: b in old(batches) && b !in batches ==> !Referenced(txns, items, b)
    {
      hide Sound;
      ghost var c := TheCore();
      var was := txns[id];
      MovementFacts(c, id);
      txns := txns - {id};
      ghost var row;
      if b :| b in batches && batches[b].txnId == id {
        if Referenced(txns, items, b) {
          return false;
        }
        row := DeleteBatch(b);
        RemoveOwnerIsSound(c, items, id, b, row);
        ok := true;
      } else {
        assert forall b :: b in batches ==> batches[b].txnId != id;
        ok, row := AddToBatch(was.batch, -was.inward, -was.outward);
        if ok {
          RemoveIsSound(c, id, row);
        }
      }
    }

    // ---- lines ---------------------------------------------------------------------------------------------------

    /** Insert into `batch`, which fires no trigger that matters here. */
    method InsertBatch(row: Batch) returns (b: int)
      requires Sound(TheCore()) && row.inward == row.outward == 0.0 && row.inventory in inventories
      requires row.txnId !in txns && forall c :: c in batches ==> batches[c].txnId != row.txnId
      modifies this`batches, this`nextBatch
      ensures Sound(TheCore())
      ensures b == old(nextBatch) && nextBatch == b + 1 && b !in old(batches) && batches == old(batches)[b := row]
    {
      NewBatchIsSound(TheCore(), row);
      b := nextBatch;
      batches, nextBatch := batches[b := row], nextBatch + 1;
    }

    /** The inserts into `batch`, for a line that brings one, and `inv_txn`. */
    method InsertMovement(k: Kind, branch: int, warehouse: int, l: Line, s: Sides) returns (ok: bool)
      requires Sound(TheCore()) && l.inventory in inventories && l.id !in txns
      requires forall b :: b in batches ==> batches[b].txnId != l.id
      requires !OwnsBatch(k) ==> Matches(batches, l.batch, l.inventory, branch, warehouse)
      modifies this`batches, this`txns, this`stock, this`nextBatch
      ensures ok <==> Allowed(old(TheCore()), k, l, s)
      ensures ok ==> && Sound(TheCore()) && l.id in txns && txns == old(txns)[l.id := txns[l.id]]
                     && Grown(old(TheCore()), TheCore(), {l.id}) && MovementHeld(batches, txns, k, branch, l, s)
                     && StepBatches(old(TheCore()), TheCore(), k, l, s)
                     && NewRows(old(TheCore()), TheCore(), branch, warehouse)
    {
      hide Sound, Grown, MovementHeld, StepBatches, NewRows;
      ghost var c := TheCore();
      BelowNext(c);
      var b := l.batch;
      if OwnsBatch(k) {
        b := InsertBatch(Batch(l.id, l.inventory, branch, warehouse, ReorderOf(l.inventory), 0.0, 0.0));
      }
      ok := InsertTxn(l.id, Txn(b, l.inventory, branch, ReorderOf(l.inventory), s.inward, s.outward));
      if ok {
        InsertedStep(c, TheCore(), k, branch, warehouse, l, s, b);
      }
    }

    /** One turn of the loop of a create procedure. */
    method CreateLine(o: Owner, branch: int, warehouse: int, l: Line) returns (ok: bool)
      requires Valid()
      requires OwnerBranch(docs, o) == Some(branch) && (o.OpeningOf? ==> o.inventory == l.inventory)
      modifies this`batches, this`txns, this`stock, this`items, this`nextBatch
      ensures ok <==> && (o.OfKind(), l.id) !in old(items) && l.id !in old(txns)
                      && Writable(old(TheCore()), o.OfKind(), branch, warehouse, l, CreatedSides(inventories, o.OfKind(), l))
      ensures ok ==> && Valid() && OneStep(old(State()), State(), o, branch, l, CreatedSides(inventories, o.OfKind(), l))
                     && StepBatches(old(TheCore()), TheCore(), o.OfKind(), l, CreatedSides(inventories, o.OfKind(), l))
                     && NewRows(old(TheCore()), TheCore(), branch, warehouse)
    {
      hide Sound, Consistent, ItemOk, StepBatches, Grown, Allowed, NewRows;
      ghost var db := State();
      ConsistentFacts(db);
      var k := o.OfKind();
      if l.inventory !in inventories || (k, l.id) in items || l.id in txns
         || (k == Purchase && l.qty + l.freeQty <= 0.0) || (k == Addition && l.source.Some? && l.source.value !in batches)
         || (!OwnsBatch(k) && !GetBatch(l.batch, l.inventory, branch, warehouse))
      {
        return false;
      }
      items := items[(k, l.id) := ItemOf(o, l)];
      ok := InsertMovement(k, branch, warehouse, l, Booked(k, true, l, inventories[l.inventory].looseQty));
      if ok {
        NoneBrought(db.core, TheCore(), k, l);
        LineKeepsItems(db, State(), o, branch, l);
      }
    }

    /** An `insert ... on conflict do update` into `batch` that hits an existing row writes no quantity. */
    method TouchBatch(b: int) returns (ok: bool)
      requires Sound(TheCore()) && b in batches
      modifies this`batches, this`stock
      ensures ok && Sound(TheCore()) && batches == old(batches)
    {
      hide Sound;
      ghost var c := TheCore();
      BatchFacts(c, b);
      ghost var row;
      ok, row := AddToBatch(b, 0.0, 0.0);
      assert batches == old(batches);
      TouchIsSound(c, b, row);
    }

    /** The upserts into `batch` and `inv_txn`. */
    method UpsertMovement(k: Kind, branch: int, warehouse: int, l: Line) returns (ok: bool)
      requires Sound(TheCore()) && l.inventory in inventories
      requires l.id in txns ==> MovementHeld(batches, txns, k, branch, l, SidesOf(txns[l.id]))
      requires l.id !in txns ==> forall b :: b in batches ==> batches[b].txnId != l.id
      requires !OwnsBatch(k) ==> Matches(batches, l.batch, l.inventory, branch, warehouse)
      modifies this`batches, this`txns, this`stock, this`nextBatch
      ensures ok <==> Allowed(old(TheCore()), k, l, UpdatedSides(old(txns), inventories, k, l))
      ensures ok ==> && Sound(TheCore()) && l.id in txns && txns == old(txns)[l.id := txns[l.id]]
                     && Grown(old(TheCore()), TheCore(), {l.id})
                     && MovementHeld(batches, txns, k, branch, l, UpdatedSides(old(txns), inventories, k, l))
                     && StepBatches(old(TheCore()), TheCore(), k, l, UpdatedSides(old(txns), inventories, k, l))
                     && NewRows(old(TheCore()), TheCore(), branch, warehouse)
    {
      hide Sound, Grown, StepBatches, NewRows, Rebooked, Booked;
      ghost var c := TheCore();
      if l.id in txns {
        MovementFacts(c, l.id);
        if OwnsBatch(k) {
          ok := TouchBatch(txns[l.id].batch);
        }
        var s := Rebooked(k, SidesOf(txns[l.id]), l, inventories[l.inventory].looseQty);
        ok := UpdateTxn(l.id, s);
        if ok {
          RebookedStep(c, TheCore(), k, branch, warehouse, l, s);
        }
      } else {
        ok := InsertMovement(k, branch, warehouse, l, Booked(k, false, l, inventories[l.inventory].looseQty));
      }
    }

    /** One turn of the loop of an update procedure: every insert is an upsert on the line's id, and what it hits keeps
        its owner, inventory and batch. */
    method UpdateLine(o: Owner, branch: int, warehouse: int, l: Line) returns (ok: bool)
      requires Valid()
      requires OwnerBranch(docs, o) == Some(branch) && (o.OpeningOf? ==> o.inventory == l.inventory)
      requires Fits(items, txns, o, l)
      modifies this`batches, this`txns, this`stock, this`items, this`nextBatch
      ensures ok <==> Writable(old(TheCore()), o.OfKind(), branch, warehouse, l,
                               UpdatedSides(old(txns), inventories, o.OfKind(), l))
      ensures ok ==> && Valid()
                     && OneStep(old(State()), State(), o, branch, l, UpdatedSides(old(txns), inventories, o.OfKind(), l))
                     && StepBatches(old(TheCore()), TheCore(), o.OfKind(), l, UpdatedSides(old(txns), inventories, o.OfKind(), l))
                     && NewRows(old(TheCore()), TheCore(), branch, warehouse)
    {
      hide Sound, Consistent, StepBatches, Grown, Allowed, NewRows, Fits, MovementHeld, UpdatedSides;
      ghost var db := State();
      FitFacts(db, o, branch, l);
      var k := o.OfKind();
      if l.inventory !in inventories || (k == Purchase && l.qty + l.freeQty <= 0.0)
         || (k == Addition && l.source.Some? && l.source.value !in batches)
         || (!OwnsBatch(k) && !GetBatch(l.batch, l.inventory, branch, warehouse))
      {
        return false;
      }
      var key := (k, l.id);
      var it := ItemOf(o, l);
      if key in items {
        it := it.(owner := items[key].owner, inventory := items[key].inventory, batch := items[key].batch);
      }
      ConsistentFacts(db);
      items := items[key := it];
      ok := UpsertMovement(k, branch, warehouse, l.(inventory := it.inventory));
      if ok {
        HeldSides(batches, txns, k, branch, l, UpdatedSides(db.core.txns, inventories, k, l));
        NoneBrought(db.core, TheCore(), k, l);
        LineKeepsItems(db, State(), o, branch, l);
      }
    }

    // ---- lists of lines ------------------------------------------------------------------------------------------

    /** The movement of a deleted line goes. */
    method RemoveMovement(ghost db: Db, k: Kind, ghost keys: set<ItemKey>, ghost done: set<Uuid>, id: Uuid) returns (ok: bool)
      requires Consistent(db) && keys <= db.items.Keys && (forall key :: key in keys ==> key.0 == k)
      requires Removing(db, State(), k, keys, done) && done <= IdsIn(keys) && id in IdsIn(keys) && id !in done
      modifies this`batches, this`txns, this`stock
      ensures ok ==> Removing(db, State(), k, keys, done + {id})
      ensures OwnsBatch(k) ==> (ok <==> !DrawnOn(db.core.txns, db.items, keys, id))
      ensures id in db.core.txns
      ensures !OwnsBatch(k) ==> (ok <==> CoveredWithout(db.core, done + {id}, db.core.txns[id].batch))
    {
      hide Sound, Consistent, DrawnOn, Referenced, OwnsNone, CoveredWithout, SourcesKnown;
      ConsistentFacts(db);
      RemovalFacts(db, keys, id);
      MovementFacts(TheCore(), id);
      if OwnsBatch(k) {
        OwnersDoNotShare(db, keys, done, id);
      } else {
        DrawsOwnNone(db, keys);
        StillNone(db.core, TheCore(), done, id);
        NextGoesIff(db.core, TheCore(), done, id);
      }
      ghost var before := batches;
      ok := DeleteTxn(id);
      if ok {
        SourcesStay(items, before, batches, txns);
        LostMore(db.core.batches, before, batches, done, id);
      }
    }

    /** Delete rows of a line table, in any order: each takes its movement with it, and that the batch it owns. Lines that own
        batches can be removed exactly when none of their batches is named from elsewhere, others exactly when the order
        taken passes the guard on their batches. */
    method RemoveLines(k: Kind, keys: set<ItemKey>) returns (ok: bool)
      requires Valid() && keys <= items.Keys && (forall key :: key in keys ==> key.0 == k)
      modifies this`batches, this`txns, this`stock, this`items
      ensures ok ==> && Valid() && items == old(items) - keys && txns == old(txns) - IdsIn(keys)
                     && Lost(old(batches), batches, IdsIn(keys))
      ensures OwnsBatch(k) ==> (ok <==> forall id :: id in IdsIn(keys) ==> !DrawnOn(old(txns), old(items), keys, id))
      ensures !OwnsBatch(k) ==> RemovalOf(old(TheCore()), IdsIn(keys), ok)
      ensures keys == {} ==> ok && State() == old(State())
    {
      hide Consistent, DrawnOn, Removing, RemovalOf, Ordering, Passes, CoveredWithout, Sound;
      ghost var db := State();
      RemovingStart(db, k, keys);
      ConsistentFacts(db);
      items := items - keys;
      var rest := IdsIn(keys);
      ghost var done := {};
      ghost var order := [];
      OrderStart(db.core);
      while rest != {}
        invariant rest + done == IdsIn(keys) && rest !! done
        invariant Removing(db, State(), k, keys, done)
        invariant !OwnsBatch(k) ==> Ordering(done, order) && Passes(db.core, order)
        decreases rest
      {
        var id := AnyOf(rest);
        ok := RemoveMovement(db, k, keys, done, id);
        if !OwnsBatch(k) {
          OrderStep(db.core, IdsIn(keys), done, order, id, ok);
        }
        if !ok {
          return;
        }
        rest, done, order := rest - {id}, done + {id}, order + [id];
      }
      ok := true;
      assert done == IdsIn(keys);
      if !OwnsBatch(k) {
        OrderDone(db.core, IdsIn(keys), order);
      }
      RemovingEnd(db, State(), k, keys);
    }

    /** The loop of a create procedure. */
    method CreateLines(o: Owner, branch: int, warehouse: int, lines: seq<Line>) returns (ok: bool)
      requires Valid() && OwnerBranch(docs, o) == Some(branch) && o.Document?
      requires LinesOf(items, o) == {}
      modifies this`batches, this`txns, this`stock, this`items, this`nextBatch
      ensures ok ==> && Valid()
                     && Written(old(State()), State(), o, branch, lines, CreatedBy(old(inventories), o.OfKind()))
                     && NewRows(old(TheCore()), TheCore(), branch, warehouse)
      ensures ok <==> && Fresh(old(State()), o, lines)
                      && AllAccepted(old(TheCore()), o.OfKind(), branch, warehouse, lines, |lines|,
                                     CreatedBy(old(inventories), o.OfKind()))
    {
      hide Consistent, Sound, OneStep, MovementHeld, Grown, Overlay, ItemOf, StepBatches, Running, Writable, Accepted, AllAccepted;
      hide NewRows;
      ghost var base := State();
      ghost var sides := CreatedBy(base.core.inventories, o.OfKind());
      NothingYet(base, o);
      ConsistentFacts(base);
      BelowNext(base.core);
      RunningStart(base.core, o.OfKind(), lines, sides);
      NoNewRows(base.core, branch, warehouse);
      NoneAccepted(base.core, o.OfKind(), branch, warehouse, lines, sides);
      for i := 0 to |lines|
        invariant Valid() && Progress(base, State(), o, lines[..i]) && LinesHeld(State(), o, branch, lines[..i], sides)
        invariant Fresh(base, o, lines[..i]) && Running(base.core, TheCore(), o.OfKind(), lines, i, sides)
        invariant NewRows(base.core, TheCore(), branch, warehouse)
        invariant AllAccepted(base.core, o.OfKind(), branch, warehouse, lines, i, sides)
      {
        ghost var before := State();
        if lines[i].id !in IdsOf(lines[..i]) {
          RowWaits(base, before, o, lines[..i], lines[i]);
          WritableIff(base.core, before.core, o.OfKind(), branch, warehouse, lines, i, sides);
        }
        ok := CreateLine(o, branch, warehouse, lines[i]);
        if !ok {
          CreateStops(base, before, o, branch, warehouse, lines, i, sides);
          return;
        }
        FreshStep(base, before, o, lines[..i], lines[i]);
        ProgressStep(base, before, State(), o, branch, lines[..i], lines[i], sides(lines[i]));
        HeldStep(before, State(), o, branch, lines[..i], lines[i], sides);
        NewRowsStep(base, before, State(), o, branch, warehouse, lines[i], sides(lines[i]));
        RunningStep(base.core, before.core, TheCore(), o.OfKind(), lines, i, sides);
        AcceptedNext(base.core, o.OfKind(), branch, warehouse, lines, i, sides);
        assert lines[..i + 1] == lines[..i] + [lines[i]];
      }
      ok := true;
      assert lines[..|lines|] == lines;
      FreshIsOwn(base, o, lines);
      ProgressDone(base, base, State(), o, branch, lines, sides);
    }

    /** The body of an update procedure: drop the stored lines the target list misses, then upsert the list. `left` is the state
        between the two, if the first succeeds; from there the list is written exactly when each line is accepted. */
    method UpdateLines(o: Owner, branch: int, warehouse: int, lines: seq<Line>) returns (ok: bool, ghost left: Option<Core>)
      requires Valid() && OwnerBranch(docs, o) == Some(branch)
      requires o.OpeningOf? ==> forall l :: l in lines ==> l.inventory == o.inventory
      requires OwnIds(items, txns, o, lines)
      modifies this`batches, this`txns, this`stock, this`items, this`nextBatch
      ensures ok ==> lines != [] && Valid()
      ensures ok ==> Written(old(State()), State(), o, branch, lines,
                             UpdatedBy(old(State()), o, lines))
                     && NewRows(old(TheCore()), TheCore(), branch, warehouse)
      ensures ok <==> && left.Some? && lines != []
                      && AllAccepted(left.value, o.OfKind(), branch, warehouse, lines, |lines|, UpdatedBy(old(State()), o, lines))
      ensures LeftAfter(old(State()), left, o, Missed(old(items), o, lines))
    {
      hide Consistent, Sound, OneStep, MovementHeld, Grown, Overlay, ItemOf, Fits, OwnIds, Missed, DrawnOn, RemovalOf;
      hide StepBatches, Running, Writable, Accepted, AllAccepted, NewRows;
      ghost var was := State();
      left := None;
      MissedIsOwn(was, o, lines);
      ok := RemoveLines(o.OfKind(), Missed(items, o, lines));
      if !ok {
        return;
      }
      left := Some(TheCore());
      ghost var base := State();
      ConsistentFacts(base);
      if lines == [] {
        return false, left;
      }
      ghost var sides := UpdatedBy(was, o, lines);
      NothingYet(base, o);
      BelowNext(base.core);
      RunningStart(base.core, o.OfKind(), lines, sides);
      NoNewRows(base.core, branch, warehouse);
      NoneAccepted(base.core, o.OfKind(), branch, warehouse, lines, sides);
      for i := 0 to |lines|
        invariant Valid() && Progress(base, State(), o, lines[..i]) && LinesHeld(State(), o, branch, lines[..i], sides)
        invariant Running(base.core, TheCore(), o.OfKind(), lines, i, sides)
        invariant NewRows(base.core, TheCore(), branch, warehouse)
        invariant AllAccepted(base.core, o.OfKind(), branch, warehouse, lines, i, sides)
      {
        ghost var before := State();
        FitsAfterDiff(was, o, lines, lines[i]);
        DistinctStep(was, o, lines, i);
        FitsStays(base, before, o, lines[..i], lines[i]);
        RowWaits(base, before, o, lines[..i], lines[i]);
        WritableIff(base.core, before.core, o.OfKind(), branch, warehouse, lines, i, sides);
        ok := UpdateLine(o, branch, warehouse, lines[i]);
        if !ok {
          NotAllAccepted(base.core, o.OfKind(), branch, warehouse, lines, i, sides);
          return;
        }
        ProgressStep(base, before, State(), o, branch, lines[..i], lines[i], sides(lines[i]));
        HeldStep(before, State(), o, branch, lines[..i], lines[i], sides);
        NewRowsStep(base, before, State(), o, branch, warehouse, lines[i], sides(lines[i]));
        RunningStep(base.core, before.core, TheCore(), o.OfKind(), lines, i, sides);
        AcceptedNext(base.core, o.OfKind(), branch, warehouse, lines, i, sides);
        assert lines[..i + 1] == lines[..i] + [lines[i]];
      }
      ok := true;
      assert lines[..|lines|] == lines;
      NewRowsThrough(was.core, base.core, TheCore(), IdsIn(Missed(was.items, o, lines)), branch, warehouse);
      ProgressDone(was, base, State(), o, branch, lines, sides);
    }

    // ---- documents -----------------------------------------------------------------------------------------------

    /** The create procedures. `d` is the identity the header insert draws; `deduction` is the deduction voucher an
        addition names. */
    method CreateDoc(k: Kind, d: int, h: Header, deduction: Option<int>, lines: seq<Line>) returns (ok: bool)
      requires Valid() && k != Opening && (k, d) !in docs
      modifies this
      ensures Valid()
      ensures !ok ==> State() == old(State())
      ensures ok ==> && Written(old(State()), State(), Document(k, d), h.branch, lines,
                                CreatedBy(old(inventories), k))
                     && NewRows(old(TheCore()), TheCore(), h.branch, h.warehouse)
                     && HeaderStored(old(docs), docs, k, d, h, deduction)
      ensures ok <==> Creatable(old(State()), k, d, h, deduction, lines)
    {
      hide Written, Creatable, Consistent, NewRows, HeaderStored;
      var saved := State();
      ok := TryCreateDoc(k, d, h, deduction, lines);
      if !ok {
        Rollback(saved);
      }
    }

    method TryCreateDoc(k: Kind, d: int, h: Header, deduction: Option<int>, lines: seq<Line>) returns (ok: bool)
      requires Valid() && k != Opening && (k, d) !in docs
      modifies this
      ensures ok ==> Valid()
      ensures ok ==> && Written(old(State()), State(), Document(k, d), h.branch, lines,
                                CreatedBy(old(inventories), k))
                     && NewRows(old(TheCore()), TheCore(), h.branch, h.warehouse)
                     && HeaderStored(old(docs), docs, k, d, h, deduction)
      ensures ok <==> Creatable(old(State()), k, d, h, deduction, lines)
    {
      hide Consistent, Written, Fresh, AllAccepted, NewRows, HeaderStored;
      ghost var was := State();
      HeaderIsStored(docs, k, d, h, deduction);
      if k in {Deduction, Addition} && h.SamePlace() {
        return false;
      }
      if k == Addition && deduction.Some? {
        if !exists x | x in docs :: Approvable(x, docs[x], deduction.value, h.altBranch) {
          return false;
        }
        docs := Approve(docs, deduction.value, h.altBranch);
      }
      docs := docs[(k, d) := h.Stored()];
      NewHeader(was, docs, (k, d));
      if lines == [] && k != Sale {
        return false;
      }
      ghost var headed := State();
      ok := CreateLines(Document(k, d), h.branch, h.warehouse, lines);
      FreshFromHeaders(was, headed, Document(k, d), lines);
      if ok {
        WrittenFromHeaders(was, headed, State(), Document(k, d), h.branch, lines, CreatedBy(was.core.inventories, k));
      }
    }

    /** The update procedures: `altBranch` and `altWarehouse` are written for deductions only. `left` is what the deletion of the
        lines that the target list misses leaves, when it succeeds. */
    method UpdateDoc(k: Kind, d: int, altBranch: Option<int>, altWarehouse: Option<int>, lines: seq<Line>)
        returns (ok: bool, ghost left: Option<Core>)
      requires Valid() && k != Opening
      requires OwnIds(items, txns, Document(k, d), lines)
      modifies this
      ensures Valid()
      ensures !ok ==> State() == old(State())
      ensures ok <==> && Updatable(old(docs), k, d, altBranch, altWarehouse)
                      && Rewritable(old(State()), left, Document(k, d), old(docs)[(k, d)].branch, old(docs)[(k, d)].warehouse,
                                    lines)
      ensures Updatable(old(docs), k, d, altBranch, altWarehouse) ==>
                LeftAfter(old(State()), left, Document(k, d), Missed(old(items), Document(k, d), lines))
      ensures ok ==> && Written(old(State()), State(), Document(k, d), old(docs)[(k, d)].branch, lines,
                                UpdatedBy(old(State()), Document(k, d), lines))
                     && NewRows(old(TheCore()), TheCore(), old(docs)[(k, d)].branch, old(docs)[(k, d)].warehouse)
                     && docs == (if k == Deduction
                                 then old(docs)[(k, d) := old(docs)[(k, d)].(altBranch := altBranch, altWarehouse := altWarehouse)]
                                 else old(docs))
    {
      hide Written, Rewritable, LeftAfter, Consistent, OwnIds, Missed, NewRows;
      var saved := State();
      ok, left := TryUpdateDoc(k, d, altBranch, altWarehouse, lines);
      if !ok {
        Rollback(saved);
      }
    }

    method TryUpdateDoc(k: Kind, d: int, altBranch: Option<int>, altWarehouse: Option<int>, lines: seq<Line>)
        returns (ok: bool, ghost left: Option<Core>)
      requires Valid() && k != Opening
      requires OwnIds(items, txns, Document(k, d), lines)
      modifies this
      ensures ok ==> Valid()
      ensures ok <==> && Updatable(old(docs), k, d, altBranch, altWarehouse)
                      && Rewritable(old(State()), left, Document(k, d), old(docs)[(k, d)].branch, old(docs)[(k, d)].warehouse,
                                    lines)
      ensures Updatable(old(docs), k, d, altBranch, altWarehouse) ==>
                LeftAfter(old(State()), left, Document(k, d), Missed(old(items), Document(k, d), lines))
      ensures ok ==> && Written(old(State()), State(), Document(k, d), old(docs)[(k, d)].branch, lines,
                                UpdatedBy(old(State()), Document(k, d), lines))
                     && NewRows(old(TheCore()), TheCore(), old(docs)[(k, d)].branch, old(docs)[(k, d)].warehouse)
                     && docs == (if k == Deduction
                                 then old(docs)[(k, d) := old(docs)[(k, d)].(altBranch := altBranch, altWarehouse := altWarehouse)]
                                 else old(docs))
    {
      hide Consistent, Written, OwnIds, Kept, LeftAfter, AllAccepted, Missed, NewRows;
      ghost var was := State();
      left := None;
      if (k, d) !in docs {
        return false, left;
      }
      var h := docs[(k, d)];
      if k == Deduction {
        h := h.(altBranch := altBranch, altWarehouse := altWarehouse);
        docs := docs[(k, d) := h];
        if (altBranch == Some(h.branch) && altWarehouse == Some(h.warehouse)) || h.approved {
          return false, left;
        }
      }
      if h.deductionVoucher.Some? {
        return false, left;
      }
      SameHeaders(was, docs);
      ghost var headed := State();
      ghost var o := Document(k, d);
      ok, left := UpdateLines(Document(k, d), h.branch, h.warehouse, lines);
      RewritableFromHeaders(was, headed, left, o, h.branch, h.warehouse, lines);
      if ok {
        KeptFromHeaders(was, headed, o, lines);
        WrittenFromHeaders(was, headed, State(), o, h.branch, lines,
                           UpdatedBy(was, o, lines));
      }
    }

    /** The delete procedures: the header goes, its lines by cascade, and with each line its movement. Documents whose
        lines own batches can be deleted exactly when none of those batches is named from elsewhere, others exactly when the
        order in which the lines go passes the guard on their batches. */
    method DeleteDoc(k: Kind, d: int) returns (ok: bool, voucher: int)
      requires Valid() && k !in {Opening, Sale}
      modifies this
      ensures Valid()
      ensures !ok ==> State() == old(State())
      ensures ok ==> && (k, d) in old(docs) && voucher == old(docs)[(k, d)].voucher
                     && (k == Deduction ==> !old(docs)[(k, d)].approved)
                     && Erased(old(State()), State(), Document(k, d)) && docs == old(docs) - {(k, d)}
      ensures OwnsBatch(k) ==> (ok <==>
                && (k, d) in old(docs)
                && var gone := LinesOf(old(items), Document(k, d));
                   forall id :: id in IdsIn(gone) ==> !DrawnOn(old(txns), old(items), gone, id))
      ensures !OwnsBatch(k) && (k, d) in old(docs) && (k == Deduction ==> !old(docs)[(k, d)].approved) ==>
                RemovalOf(old(TheCore()), IdsIn(LinesOf(old(items), Document(k, d))), ok)
    {
      hide Consistent, DrawnOn, RemovalOf;
      var saved := State();
      voucher := 0;
      if (k, d) !in docs || docs[(k, d)].deductionVoucher.Some? || (k == Deduction && docs[(k, d)].approved) {
        return false, 0;
      }
      ghost var was := State();
      voucher := docs[(k, d)].voucher;
      OwnKinds(was, Document(k, d));
      ok := RemoveLines(k, LinesOf(items, Document(k, d)));
      if ok {
        ghost var bare := State();
        docs := docs - {(k, d)};
        HeaderGone(was, bare, (k, d));
      } else {
        Rollback(saved);
      }
    }

    /** `set_inventory_opening`. */
    method SetOpening(inventory: int, branch: int, warehouse: int, lines: seq<Line>) returns (ok: bool, ghost left: Option<Core>)
      requires Valid()
      requires OwnIds(items, txns, OpeningOf(inventory, branch, warehouse), lines)
      modifies this
      ensures Valid()
      ensures !ok ==> State() == old(State())
      ensures var o, list := OpeningOf(inventory, branch, warehouse), AtInventory(lines, inventory);
              && (ok <==> Rewritable(old(State()), left, o, branch, warehouse, list))
              && LeftAfter(old(State()), left, o, Missed(old(items), o, list))
              && (ok ==> && docs == old(docs)
                         && Written(old(State()), State(), o, branch, list, UpdatedBy(old(State()), o, list))
                         && NewRows(old(TheCore()), TheCore(), branch, warehouse))
    {
      hide Consistent, Written, LeftAfter, AllAccepted, Missed, NewRows;
      var saved := State();
      OpeningIds(State(), OpeningOf(inventory, branch, warehouse), lines);
      ok, left := UpdateLines(OpeningOf(inventory, branch, warehouse), branch, warehouse, AtInventory(lines, inventory));
      if !ok {
        Rollback(saved);
      }
    }

    // ---- inventories ---------------------------------------------------------------------------------------------

    /** Insert into `inventory`: `i` is the identity drawn. */
    method AddInventory(i: int, row: Inventory) returns (ok: bool)
      requires Valid() && i !in inventories
      modifies this`inventories
      ensures Valid()
      ensures inventories == if ok then old(inventories)[i := row] else old(inventories)
      ensures ok <==> && (row.reorder.Some? ==> row.reorder.value in old(inventories))
                      && (row.bulk.Some? ==> row.bulk.value in old(inventories))
    {
      ok := (row.reorder.Some? ==> row.reorder.value in inventories) && (row.bulk.Some? ==> row.bulk.value in inventories);
      if ok {
        NewInventory(State(), i, row);
        inventories := inventories[i := row];
      }
    }

    /** Update of the flag: turning negative stock off is refused while some batch is negative. */
    method SetAllowNegative(i: int, flag: bool) returns (ok: bool)
      requires Valid() && i in inventories
      modifies this`inventories
      ensures Valid()
      ensures inventories == if ok then old(inventories)[i := old(inventories)[i].(allowNegative := flag)] else old(inventories)
      ensures ok <==> flag || forall b :: b in batches && batches[b].inventory == i ==> batches[b].Closing() >= 0.0
    {
      if !flag && exists b | b in batches :: batches[b].inventory == i && batches[b].Closing() < 0.0 {
        return false;
      }
      ok := true;
      FlagChange(State(), i, flag);
      inventories := inventories[i := inventories[i].(allowNegative := flag)];
    }

    /** `merge_inventory`. */
    method Merge(dest: int, src: int) returns (ok: bool)
      requires Valid()
      modifies this
      ensures Valid()
      ensures !ok ==> State() == old(State())
      ensures ok <==> MergeAccepts(old(TheCore()), dest, src)
      ensures ok ==> && inventories == old(inventories) - {src} && docs == old(docs)
                     && batches == MovedBatches(old(batches), dest, src)
                     && txns == MovedTxns(old(txns), dest, src, ReorderFor(old(inventories), dest))
                     && items == MovedItems(old(items), dest, src)
      ensures ok ==> Renamed(old(State()), State(), dest, src) && StockMerged(old(stock), stock, dest, src)
    {
      hide Consistent, Sound, StillNamed, Unnamed, Visited, SameRows, StockExact, Renamed;
      ghost var was := State();
      if dest == src || dest !in inventories || src !in inventories || inventories[dest].reorder == Some(src)
         || inventories[dest].bulk == Some(src) || inventories[dest].allowNegative != inventories[src].allowNegative
      {
        return false;
      }
      var saved := State();
      var reorder := ReorderOf(dest);
      ConsistentFacts(was);
      ok := MoveBatches(dest, src);
      ok := MoveMovements(was.core, dest, src, reorder);
      items := MovedItems(items, dest, src);
      ghost var rows := stock;
      stock := map k | k in stock && k.1 != src :: stock[k];
      UnnamedIff(was.core, TheCore(), rows, dest, src, reorder);
      if !Unnamed(TheCore(), src) {
        Rollback(saved);
        return false;
      }
      inventories := inventories - {src};
      MergedStock(was.core, rows, stock, dest, src, reorder);
      MergedIsConsistent(was, State(), dest, src, reorder);
      RenamedAll(was, State(), dest, src);
    }

    /** `update batch set inventory_id = dest where inventory_id = src`: the statement writes all rows, then the row
        trigger fires for each, with the source as the old inventory. */
    method MoveBatches(dest: int, src: int) returns (ok: bool)
      requires Sound(TheCore()) && src in inventories
      modifies this`batches, this`stock
      ensures ok && batches == MovedBatches(old(batches), dest, src) && SameRows(old(stock), stock, {src})
    {
      hide Sound;
      ghost var c := TheCore();
      var was := batches;
      var rest := set b | b in batches && batches[b].inventory == src;
      batches := MovedBatches(batches, dest, src);
      while rest != {}
        invariant rest <= was.Keys && (forall b :: b in rest ==> was[b].inventory == src)
        invariant batches == MovedBatches(was, dest, src) && SameRows(old(stock), stock, {src})
        decreases rest
      {
        var b := AnyOf(rest);
        BatchFacts(c, b);
        ghost var row;
        ok, row := AfterBatchUpdate(was[b], batches[b]);
        if !ok {
          return;
        }
        rest := rest - {b};
      }
      ok := true;
    }

    /** `update inv_txn set inventory_id = dest ... where inventory_id = src`: the trigger on each row updates its batch by
        nothing, which fires the trigger on batches again, now with the destination as the old inventory. */
    method MoveMovements(ghost was: Core, dest: int, src: int, reorder: int) returns (ok: bool)
      requires Sound(was) && inventories == was.inventories && txns == was.txns
      requires dest != src && dest in inventories && src in inventories && reorder == ReorderOf(dest)
      requires inventories[dest].allowNegative == inventories[src].allowNegative
      requires batches == MovedBatches(was.batches, dest, src) && SameRows(was.stock, stock, {src})
      modifies this`txns, this`stock, this`batches
      ensures ok && batches == old(batches) && txns == MovedTxns(was.txns, dest, src, reorder)
      ensures SameRows(was.stock, stock, {dest, src})
      ensures Visited(was, batches, stock, dest, reorder, Moving(was.txns, src))
    {
      hide Sound;
      var rest := Moving(txns, src);
      ghost var done := {};
      txns := MovedTxns(txns, dest, src, reorder);
      while rest != {}
        invariant rest + done == Moving(was.txns, src) && rest !! done
        invariant batches == old(batches) && txns == MovedTxns(was.txns, dest, src, reorder)
        invariant SameRows(was.stock, stock, {dest, src})
        invariant Visited(was, batches, stock, dest, reorder, done)
        decreases rest
      {
        var t := AnyOf(rest);
        MovementFacts(was, t);
        BatchFacts(was, was.txns[t].batch);
        VisitOne(was, batches, stock, dest, reorder, done, t);
        ghost var row;
        ok, row := AddToBatch(txns[t].batch, 0.0, 0.0);
        if !ok {
          return;
        }
        assert batches == old(batches);
        rest, done := rest - {t}, done + {t};
      }
      ok := true;
    }

    /** `merge_inventories`: the stock of all the sources ends at the destination, or nothing changes. `reached` is the state after
        the first `stopped` merges, where the list ended or the next merge was refused. */
    method MergeAll(dest: int, sources: seq<int>) returns (ok: bool, ghost stopped: nat, ghost reached: Core)
      requires Valid()
      modifies this
      ensures Valid()
      ensures !ok ==> State() == old(State())
      ensures stopped <= |sources| && AllMerged(old(TheCore()), reached, dest, sources[..stopped])
      ensures ok ==> stopped == |sources| && reached == TheCore() && docs == old(docs)
      ensures !ok ==> stopped < |sources| && !MergeAccepts(reached, dest, sources[stopped])
    {
      hide Consistent, AllMerged, MergeAccepts;
      var saved := State();
      stopped, reached := 0, TheCore();
      NoneMerged(reached, dest);
      for i := 0 to |sources|
        invariant Valid() && saved == old(State()) && docs == saved.docs
        invariant stopped == i && reached == TheCore() && AllMerged(saved.core, reached, dest, sources[..i])
      {
        assert sources[..i + 1] == sources[..i] + [sources[i]];
        ok := Merge(dest, sources[i]);
        if !ok {
          Rollback(saved);
          return;
        }
        AcceptsFacts(reached, dest, sources[i]);
        OneMoreMerged(saved.core, reached, TheCore(), dest, sources[..i], sources[i]);
        stopped, reached := i + 1, TheCore();
      }
      ok := true;
      assert sources[..|sources|] == sources;
    }
  }
}
