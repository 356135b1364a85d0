/** What the invariant and the procedures' contracts amount to. */
module StockTheorems {
  import opened Options
  import opened Sums
  import opened StockModel

  ghost function NetColumn(): (Uuid, Txn) -> real { (_, t: Txn) => t.Net() }

  ghost function BatchColumn(): (Uuid, Txn) -> int { (_, t: Txn) => t.batch }

  ghost function Place(branch: int, inventory: int): (int, Batch) -> bool {
    (_, b: Batch) => b.branch == branch && b.inventory == inventory
  }

  /** A batch's closing is the sum of the net movements on it. */
  lemma ClosingIsNet(c: Core, b: int)
    requires Sound(c) && b in c.batches
    ensures c.batches[b].Closing() == Sum(c.txns, NetOf(b))
  {
    SumSub(c.txns, InwardOf(b), OutwardOf(b), NetOf(b));
  }

  /** The two levels of caching collapse: a stock figure is the plain sum over the movements of that inventory at that
      branch. */
  lemma StockIsSumOfMovements(c: Core, branch: int, inventory: int)
    requires Sound(c)
    ensures StockAt(c.stock, branch, inventory) == Sum(c.txns, NetAt(branch, inventory))
  {
    var pick := Place(branch, inventory);
    forall b | b in c.batches
      ensures ClosingOf(branch, inventory)(b, c.batches[b]) == PerGroup(c.txns, NetColumn(), BatchColumn(), pick)(b, c.batches[b])
    {
      ClosingIsNet(c, b);
      SumCong(c.txns, NetOf(b), c.txns, Fibre(NetColumn(), BatchColumn(), b));
    }
    SumCong(c.batches, ClosingOf(branch, inventory), c.batches, PerGroup(c.txns, NetColumn(), BatchColumn(), pick));
    SumByGroup(c.txns, NetColumn(), BatchColumn(), c.batches, pick);
    forall t | t in c.txns
      ensures InPicked(c.batches, NetColumn(), BatchColumn(), pick)(t, c.txns[t]) == NetAt(branch, inventory)(t, c.txns[t])
    {
      MovementFacts(c, t);
    }
    SumCong(c.txns, InPicked(c.batches, NetColumn(), BatchColumn(), pick), c.txns, NetAt(branch, inventory));
  }

  // ---- what a line moves ---------------------------------------------------------------------------------------

  /** A created line, and a line an update adds, move their net quantity. */
  lemma BookedNet(k: Kind, creating: bool, l: Line, loose: int)
    ensures var s := Booked(k, creating, l, loose); s.inward - s.outward == NetQuantity(k, l, loose)
  {
    var u := l.unitConv * Loose(l.isLoose, loose);
    assert l.qty * l.unitConv * Loose(l.isLoose, loose) == l.qty * u;
    assert -l.qty * l.unitConv * Loose(l.isLoose, loose) == -(l.qty * u);
  }

  /** What the columns of a created line and its movement hold, kind by kind. A line counts in packs of the inventory's loose
      quantity unless it is loose itself, and in its own unit; only purchases count free quantities. */
  lemma LineMoves(was: Db, now: Db, o: Owner, branch: int, lines: seq<Line>, l: Line)
    requires Consistent(now) && l in lines
    requires Written(was, now, o, branch, lines, CreatedBy(was.core.inventories, o.OfKind()))
    ensures l.id in now.core.txns && l.inventory in now.core.inventories
    ensures var t := now.core.txns[l.id];
            var pack := if l.isLoose then 1.0 else now.core.inventories[l.inventory].looseQty as real;
            && t.inventory == l.inventory && t.branch == branch
            && match o.OfKind()
               case Sale => t.inward == 0.0 && t.outward == l.qty * l.unitConv * pack
               case Deduction => t.inward == 0.0 && t.outward == l.qty * l.unitConv * pack
               case CreditNote => t.inward == 0.0 && t.outward == -(l.qty * l.unitConv * pack)
               case DebitNote => t.inward == -(l.qty * l.unitConv * pack) && t.outward == 0.0
               case Adjustment =>
                 if l.qty > 0.0 then t.inward == l.qty * l.unitConv * pack && t.outward == 0.0
                 else t.inward == 0.0 && t.outward == -(l.qty * l.unitConv * pack)
               case Purchase => t.inward == (l.qty + l.freeQty) * l.unitConv * pack && t.outward == 0.0
               case Addition => t.inward == l.qty * l.unitConv * pack && t.outward == 0.0
               case Opening => t.inward == l.qty * l.unitConv * pack && t.outward == 0.0
  {
    hide Consistent, Written, Booked;
    LineHeld(was, now, o, branch, lines, CreatedBy(was.core.inventories, o.OfKind()), l);
    BookedColumns(o.OfKind(), true, l, now.core.inventories[l.inventory].looseQty);
  }

  lemma LineHeld(was: Db, now: Db, o: Owner, branch: int, lines: seq<Line>, sides: Line -> Sides, l: Line)
    requires Consistent(now) && l in lines && Written(was, now, o, branch, lines, sides)
    ensures l.id in now.core.txns && l.inventory in now.core.inventories && now.core.inventories == was.core.inventories
    ensures var t := now.core.txns[l.id]; t.inventory == l.inventory && t.branch == branch && SidesOf(t) == sides(l)
  {
    hide Consistent, Sound;
    ConsistentFacts(now);
    assert MovementHeld(now.core.batches, now.core.txns, o.OfKind(), branch, l, sides(l));
    MovementFacts(now.core, l.id);
  }

  lemma BookedColumns(k: Kind, creating: bool, l: Line, loose: int)
    ensures var s, pack := Booked(k, creating, l, loose), if l.isLoose then 1.0 else loose as real;
      match k
      case Purchase => s == Sides((l.qty + l.freeQty) * l.unitConv * pack, 0.0)
      case Addition => s == Sides(l.qty * l.unitConv * pack, 0.0)
      case Opening => s == Sides(l.qty * l.unitConv * pack, 0.0)
      case Adjustment => s == if l.qty > 0.0 then Sides(l.qty * l.unitConv * pack, 0.0) else Sides(0.0, -(l.qty * l.unitConv * pack))
      case CreditNote => s == Sides(0.0, -(l.qty * l.unitConv * pack))
      case DebitNote => s == if creating then Sides(-(l.qty * l.unitConv * pack), 0.0) else Sides(0.0, l.qty * l.unitConv * pack)
      case Sale => s == Sides(0.0, l.qty * l.unitConv * pack)
      case Deduction => s == Sides(0.0, l.qty * l.unitConv * pack)
  {
    Negated(l.qty, l.unitConv, Loose(l.isLoose, loose));
  }

  lemma Negated(x: real, y: real, z: real)
    ensures -x * y * z == -(x * y * z)
  {
    assert -x * y == -(x * y);
    assert -(x * y) * z == -(x * y * z);
  }

  /** A line of packs moves what a loose line of their content moves. */
  lemma PacksAreLoose(was: Db, packs: Db, loose: Db, o: Owner, branch: int, lines: seq<Line>, others: seq<Line>, l: Line, m: Line)
    requires Consistent(packs) && Consistent(loose) && l in lines && m in others && !l.isLoose
    requires Written(was, packs, o, branch, lines, CreatedBy(was.core.inventories, o.OfKind()))
    requires Written(was, loose, o, branch, others, CreatedBy(was.core.inventories, o.OfKind()))
    requires l.inventory in was.core.inventories
    requires var content := was.core.inventories[l.inventory].looseQty as real;
             m == l.(id := m.id, isLoose := true, qty := l.qty * content, freeQty := l.freeQty * content)
    ensures l.id in packs.core.txns && m.id in loose.core.txns
    ensures packs.core.txns[l.id].Net() == loose.core.txns[m.id].Net()
  {
    hide Consistent, Written;
    assert packs.core.inventories == was.core.inventories == loose.core.inventories by {
      SameInventories(was, packs, o, branch, lines);
      SameInventories(was, loose, o, branch, others);
    }
    LineMoves(was, packs, o, branch, lines, l);
    LineMoves(was, loose, o, branch, others, m);
    var content := was.core.inventories[l.inventory].looseQty as real;
    Reordered(l.qty, content, l.unitConv);
    Reordered(l.qty + l.freeQty, content, l.unitConv);
    assert (l.qty + l.freeQty) * content == l.qty * content + l.freeQty * content;
  }

  lemma SameInventories(was: Db, now: Db, o: Owner, branch: int, lines: seq<Line>)
    requires Written(was, now, o, branch, lines, CreatedBy(was.core.inventories, o.OfKind()))
    ensures now.core.inventories == was.core.inventories
  {
  }

  lemma Reordered(x: real, y: real, z: real)
    ensures x * y * z * 1.0 == x * z * y
  {
    assert x * y * z == x * (y * z) == x * (z * y) == x * z * y;
  }

  /** The same of an updated line. A line that keeps its id, inventory and batch has the other column of its movement left as it
      was, but for adjustments, which write both; debit notes book outward where their creation booked inward. */
  lemma UpdatedLineMoves(was: Db, now: Db, o: Owner, branch: int, lines: seq<Line>, l: Line)
    requires Consistent(was) && Consistent(now) && l in lines && OwnIds(was.items, was.core.txns, o, lines)
    requires Written(was, now, o, branch, lines, UpdatedBy(was, o, lines))
    ensures l.id in now.core.txns && l.inventory in now.core.inventories
    ensures var t, key := now.core.txns[l.id], (o.OfKind(), l.id);
            var pack := if l.isLoose then 1.0 else now.core.inventories[l.inventory].looseQty as real;
            var kept := key in was.items && was.items[key].inventory == l.inventory
                        && (was.items[key].batch.Some? ==> was.items[key].batch.value == l.batch);
            && (kept ==> l.id in was.core.txns)
            && t.inventory == l.inventory && t.branch == branch
            && var (i, w) := if kept then (was.core.txns[l.id].inward, was.core.txns[l.id].outward) else (0.0, 0.0);
               match o.OfKind()
               case Sale => t.inward == i && t.outward == l.qty * l.unitConv * pack
               case Deduction => t.inward == i && t.outward == l.qty * l.unitConv * pack
               case CreditNote => t.inward == i && t.outward == -(l.qty * l.unitConv * pack)
               case DebitNote => t.inward == i && t.outward == l.qty * l.unitConv * pack
               case Adjustment =>
                 if l.qty > 0.0 then t.inward == l.qty * l.unitConv * pack && t.outward == 0.0
                 else t.inward == 0.0 && t.outward == -(l.qty * l.unitConv * pack)
               case Purchase => t.inward == (l.qty + l.freeQty) * l.unitConv * pack && t.outward == w
               case Addition => t.inward == l.qty * l.unitConv * pack && t.outward == w
               case Opening => t.inward == l.qty * l.unitConv * pack && t.outward == w
  {
    hide Consistent, Written, OwnIds, Kept, UpdatedSides;
    LineHeld(was, now, o, branch, lines, UpdatedBy(was, o, lines), l);
    KeptIff(was, o, lines, l);
    KeptRows(was, o, lines, l.id);
    UpdatedColumns(Kept(was, o, lines), now.core.inventories, o.OfKind(), l);
  }

  lemma UpdatedColumns(kept: map<Uuid, Txn>, inventories: map<int, Inventory>, k: Kind, l: Line)
    requires l.inventory in inventories
    ensures var s, pack := UpdatedSides(kept, inventories, k, l), if l.isLoose then 1.0 else inventories[l.inventory].looseQty as real;
      var (i, w) := if l.id in kept then (kept[l.id].inward, kept[l.id].outward) else (0.0, 0.0);
      match k
      case Sale => s == Sides(i, l.qty * l.unitConv * pack)
      case Deduction => s == Sides(i, l.qty * l.unitConv * pack)
      case CreditNote => s == Sides(i, -(l.qty * l.unitConv * pack))
      case DebitNote => s == Sides(i, l.qty * l.unitConv * pack)
      case Adjustment => s == if l.qty > 0.0 then Sides(l.qty * l.unitConv * pack, 0.0) else Sides(0.0, -(l.qty * l.unitConv * pack))
      case Purchase => s == Sides((l.qty + l.freeQty) * l.unitConv * pack, w)
      case Addition => s == Sides(l.qty * l.unitConv * pack, w)
      case Opening => s == Sides(l.qty * l.unitConv * pack, w)
  {
    hide Booked;
    BookedColumns(k, false, l, inventories[l.inventory].looseQty);
  }

  lemma KeptIff(was: Db, o: Owner, lines: seq<Line>, l: Line)
    requires Consistent(was) && OwnIds(was.items, was.core.txns, o, lines) && l in lines
    ensures var key := (o.OfKind(), l.id);
            l.id in Kept(was, o, lines) <==>
            key in was.items && was.items[key].inventory == l.inventory
            && (was.items[key].batch.Some? ==> was.items[key].batch.value == l.batch)
  {
    hide Sound, OneLineEach;
    ConsistentFacts(was);
    var key, missed := (o.OfKind(), l.id), Missed(was.items, o, lines);
    if key in was.items {
      assert key in missed <==> !SameKey(was.items[key], l) by {
        forall m | m in lines && m.id == l.id ensures m == l {}
      }
      forall j | j in missed && j.1 == key.1 ensures j == key {
        if j != key {
          OneLine(was.items, key, j);
        }
      }
      assert key in missed ==> key.1 in IdsIn(missed);
    }
  }

  /** A stored line has the columns that were sent; only lines that draw on a batch name one, only additions a source. */
  lemma LineStored(was: Db, now: Db, o: Owner, branch: int, lines: seq<Line>, sides: Line -> Sides, l: Line)
    requires Written(was, now, o, branch, lines, sides) && l in lines
    ensures (o.OfKind(), l.id) in now.items
    ensures var it := now.items[(o.OfKind(), l.id)];
            && it.owner == o && it.inventory == l.inventory && it.qty == l.qty && it.freeQty == l.freeQty
            && it.unitConv == l.unitConv && it.isLoose == l.isLoose
            && it.batch == (if o.OfKind() in {Purchase, Addition, Opening} then None else Some(l.batch))
            && it.source == (if o.OfKind() == Addition then l.source else None)
  {
  }

  /** What is left of a debit note's first booking when a kept line is updated. */
  function Residue(k: Kind, kept: map<Uuid, Txn>, l: Line): real {
    if k == DebitNote && l.id in kept then kept[l.id].inward else 0.0
  }

  /** A kept line moves its new net quantity, plus, for debit notes, what its stored inward side held. */
  lemma UpdatedNet(was: Db, o: Owner, branch: int, lines: seq<Line>, l: Line)
    requires Consistent(was) && OwnIds(was.items, was.core.txns, o, lines) && l in lines
    ensures var kept := Kept(was, o, lines);
            var s := UpdatedSides(kept, was.core.inventories, o.OfKind(), l);
            s.inward - s.outward == NetQuantity(o.OfKind(), l, LooseQty(was.core.inventories, l.inventory))
                                    + Residue(o.OfKind(), kept, l)
  {
    hide Sound, Quantity;
    var k, kept, loose := o.OfKind(), Kept(was, o, lines), LooseQty(was.core.inventories, l.inventory);
    BookedNet(k, false, l, loose);
    if l.id in kept {
      assert (k, l.id) in was.items;
      LineFacts(was, (k, l.id));
    }
  }

  // ---- update as remove and re-create --------------------------------------------------------------------------

  /** The lines the update keeps: same id, inventory and batch as stored. */
  function KeptIds(was: Db, o: Owner, lines: seq<Line>): set<Uuid> { set id | id in IdsOf(lines) && id in Kept(was, o, lines) }

  /** Are two movements of a line of this kind in the same place? A line that owns its batch may get a new one. */
  predicate SamePlace(k: Kind, t: Txn, u: Txn) {
    t.inventory == u.inventory && t.branch == u.branch && (!OwnsBatch(k) ==> t.batch == u.batch)
  }

  /** Does a selection of movements look at nothing but their place? */
  ghost predicate ByPlace(k: Kind, at: Txn -> bool) {
    forall t: Txn, u: Txn {:trigger at(t), at(u)} :: SamePlace(k, t, u) ==> at(t) == at(u)
  }

  /** Net movement over the rows picked by `at`. */
  ghost function NetWhere(at: Txn -> bool): (Uuid, Txn) -> real { (_, t: Txn) => if at(t) then t.Net() else 0.0 }

  /** What the stored movements of the lines `ids` hold on their inward side, over the rows picked by `at`. */
  ghost function InwardWhere(ids: set<Uuid>, at: Txn -> bool): (Uuid, Txn) -> real {
    (id, t: Txn) => if id in ids && at(t) then t.inward else 0.0
  }

  /** Line by line, an updated document moves what a freshly created one would, plus the residues. */
  lemma SameLines(was: Db, updated: Db, erased: Db, created: Db, o: Owner, branch: int, lines: seq<Line>, id: Uuid)
    requires Consistent(was) && OwnIds(was.items, was.core.txns, o, lines)
    requires Written(was, updated, o, branch, lines, UpdatedBy(was, o, lines))
    requires Erased(was, erased, o)
    requires Written(erased, created, o, branch, lines, CreatedBy(erased.core.inventories, o.OfKind()))
    ensures id in updated.core.txns <==> id in created.core.txns
    ensures id in updated.core.txns ==>
              var t, u := updated.core.txns[id], created.core.txns[id];
              && SamePlace(o.OfKind(), t, u)
              && t.Net() == u.Net() + (if id in KeptIds(was, o, lines) && o.OfKind() == DebitNote
                                       then was.core.txns[id].inward else 0.0)
  {
    hide Consistent, Lost, Kept;
    assert LinesOf(erased.items, o) == {};
    if id in IdsOf(lines) {
      var l :| l in lines && l.id == id;
      UpdatedNet(was, o, branch, lines, l);
      BookedNet(o.OfKind(), true, l, LooseQty(was.core.inventories, l.inventory));
      assert MovementHeld(updated.core.batches, updated.core.txns, o.OfKind(), branch, l, UpdatedBy(was, o, lines)(l));
      assert MovementHeld(created.core.batches, created.core.txns, o.OfKind(), branch, l,
                          CreatedBy(erased.core.inventories, o.OfKind())(l));
      KeptRows(was, o, lines, id);
    } else {
      assert id in updated.core.txns <==> id in updated.core.txns - IdsOf(lines);
      assert id in created.core.txns <==> id in created.core.txns - IdsOf(lines);
      assert IdsIn({}) == {} && erased.core.txns - {} == erased.core.txns;
    }
  }

  lemma KeptRows(was: Db, o: Owner, lines: seq<Line>, id: Uuid)
    ensures id in Kept(was, o, lines) ==> id in was.core.txns && Kept(was, o, lines)[id] == was.core.txns[id]
  {
  }

  /** A kept line's movement was already on the line's inventory, branch and batch. */
  lemma KeptPlace(was: Db, o: Owner, lines: seq<Line>, l: Line)
    requires Consistent(was) && OwnIds(was.items, was.core.txns, o, lines) && l in lines && l.id in Kept(was, o, lines)
    ensures l.id in was.core.txns
    ensures var t := was.core.txns[l.id];
            && t.inventory == l.inventory && OwnerBranch(was.docs, o) == Some(t.branch)
            && (!OwnsBatch(o.OfKind()) ==> t.batch == l.batch)
  {
    hide Sound;
    var key := (o.OfKind(), l.id);
    assert key in was.items;
    LineFacts(was, key);
    if key !in Missed(was.items, o, lines) {
      var m :| m in lines && m.id == key.1 && SameKey(was.items[key], m);
      assert m == l;
    }
  }

  /** Over any selection of movements by inventory, branch and (for lines that draw on batches) batch, the update and
      the re-creation differ exactly by the residues of kept debit note lines. */
  lemma UpdateVersusRecreate(was: Db, updated: Db, erased: Db, created: Db, o: Owner, branch: int, lines: seq<Line>,
                             at: Txn -> bool)
    requires Consistent(was) && OwnIds(was.items, was.core.txns, o, lines) && OwnerBranch(was.docs, o) == Some(branch)
    requires Written(was, updated, o, branch, lines, UpdatedBy(was, o, lines))
    requires Erased(was, erased, o)
    requires Written(erased, created, o, branch, lines, CreatedBy(erased.core.inventories, o.OfKind()))
    requires ByPlace(o.OfKind(), at)
    ensures Sum(updated.core.txns, NetWhere(at)) == Sum(created.core.txns, NetWhere(at))
              + (if o.OfKind() == DebitNote then Sum(was.core.txns, InwardWhere(KeptIds(was, o, lines), at)) else 0.0)
  {
    hide Consistent, Written, Erased, Kept, ByPlace, SamePlace;
    var m, n := updated.core.txns, created.core.txns;
    var kept := if o.OfKind() == DebitNote then KeptIds(was, o, lines) else {};
    forall id
      ensures id in m <==> id in n
      ensures id in kept ==> id in m && id in was.core.txns && at(was.core.txns[id]) == at(m[id])
      ensures id in m ==> at(m[id]) == at(n[id])
      ensures id in m ==> m[id].Net() == n[id].Net() + (if id in kept then was.core.txns[id].inward else 0.0)
    {
      SameLines(was, updated, erased, created, o, branch, lines, id);
      if id in m {
        PlaceDecides(o.OfKind(), at, m[id], n[id]);
      }
      if id in kept {
        KeptStays(was, updated, o, branch, lines, id);
        PlaceDecides(o.OfKind(), at, was.core.txns[id], m[id]);
      }
    }
    SumDiff(m, NetWhere(at), n, NetWhere(at), was.core.txns, InwardWhere(kept, at), kept);
    if o.OfKind() != DebitNote {
      SumZero(was.core.txns, InwardWhere({}, at));
    }
  }

  lemma PlaceDecides(k: Kind, at: Txn -> bool, t: Txn, u: Txn)
    requires ByPlace(k, at) && SamePlace(k, t, u)
    ensures at(t) == at(u)
  {
  }

  lemma KeptStays(was: Db, updated: Db, o: Owner, branch: int, lines: seq<Line>, id: Uuid)
    requires Consistent(was) && OwnIds(was.items, was.core.txns, o, lines) && OwnerBranch(was.docs, o) == Some(branch)
    requires Written(was, updated, o, branch, lines, UpdatedBy(was, o, lines)) && id in KeptIds(was, o, lines)
    ensures id in was.core.txns && id in updated.core.txns
    ensures SamePlace(o.OfKind(), was.core.txns[id], updated.core.txns[id])
  {
    hide Consistent, Kept;
    var l :| l in lines && l.id == id;
    KeptPlace(was, o, lines, l);
    assert MovementHeld(updated.core.batches, updated.core.txns, o.OfKind(), branch, l, UpdatedBy(was, o, lines)(l));
  }

  ghost function AtPlace(branch: int, inventory: int): Txn -> bool { (t: Txn) => t.branch == branch && t.inventory == inventory }

  ghost function OnBatch(b: int): Txn -> bool { (t: Txn) => t.batch == b }

  lemma StockIsNetWhere(c: Core, branch: int, inventory: int)
    requires Sound(c)
    ensures StockAt(c.stock, branch, inventory) == Sum(c.txns, NetWhere(AtPlace(branch, inventory)))
  {
    hide Sound;
    StockIsSumOfMovements(c, branch, inventory);
    SumCong(c.txns, NetAt(branch, inventory), c.txns, NetWhere(AtPlace(branch, inventory)));
  }

  lemma ClosingIsNetWhere(c: Core, b: int)
    requires Sound(c) && b in c.batches
    ensures c.batches[b].Closing() == Sum(c.txns, NetWhere(OnBatch(b)))
  {
    hide Sound;
    ClosingIsNet(c, b);
    SumCong(c.txns, NetOf(b), c.txns, NetWhere(OnBatch(b)));
  }

  /** What the kept lines of a debit note hold inward, over the movements picked by `at`. */
  ghost function KeptInward(was: Db, o: Owner, lines: seq<Line>, at: Txn -> bool): real {
    Sum(was.core.txns, InwardWhere(KeptIds(was, o, lines), at))
  }

  /** Updating a document (or an opening) to a list of lines stores the same lines, and leaves every stock figure and every batch
      at what the movements come to once its lines are removed and the list is created afresh, whether or not the database would
      have let the lines go. A batch that a line brings holds the line's new movement and what is drawn on it from elsewhere;
      batches of others hold what they held. Debit notes do so exactly where the kept lines' stored inward sides cancel, because
      create books inward and update outward. */
  lemma UpdateIsRecreate(was: Db, updated: Db, erased: Db, created: Db, o: Owner, branch: int, lines: seq<Line>)
    requires Consistent(was) && Consistent(updated)
    requires OwnIds(was.items, was.core.txns, o, lines) && OwnerBranch(was.docs, o) == Some(branch)
    requires Written(was, updated, o, branch, lines, UpdatedBy(was, o, lines))
    requires Erased(was, erased, o)
    requires Written(erased, created, o, branch, lines, CreatedBy(erased.core.inventories, o.OfKind()))
    ensures updated.items == created.items
    ensures forall br, inv :: StockAt(updated.core.stock, br, inv) == Sum(created.core.txns, NetAt(br, inv))
              <==> o.OfKind() != DebitNote || KeptInward(was, o, lines, AtPlace(br, inv)) == 0.0
    ensures !OwnsBatch(o.OfKind()) ==> forall b :: b in updated.core.batches ==>
              (updated.core.batches[b].Closing() == Sum(created.core.txns, NetOf(b))
               <==> o.OfKind() != DebitNote || KeptInward(was, o, lines, OnBatch(b)) == 0.0)
    ensures OwnsBatch(o.OfKind()) ==>
              && OwnBatchesHold(updated.core, created.core, erased.core.txns, lines)
              && OtherBatchesHold(updated.core, erased.core, lines)
  {
    hide Consistent, Written, Erased, OwnIds, StockAt, KeptInward, OwnBatchesHold, OtherBatchesHold;
    SameItems(was, updated, erased, created, o, branch, lines);
    forall br, inv
      ensures StockAt(updated.core.stock, br, inv) == Sum(created.core.txns, NetAt(br, inv))
                + (if o.OfKind() == DebitNote then KeptInward(was, o, lines, AtPlace(br, inv)) else 0.0)
    {
      StockDiffers(was, updated, erased, created, o, branch, lines, br, inv);
    }
    forall b | b in updated.core.batches && !OwnsBatch(o.OfKind())
      ensures updated.core.batches[b].Closing() == Sum(created.core.txns, NetOf(b))
                + (if o.OfKind() == DebitNote then KeptInward(was, o, lines, OnBatch(b)) else 0.0)
    {
      ClosingDiffers(was, updated, erased, created, o, branch, lines, b);
    }
    if OwnsBatch(o.OfKind()) {
      OwnHold(was, updated, erased, created, o, branch, lines);
      OthersHold(was, updated, erased, o, branch, lines);
    }
  }

  ghost function LineOf(lines: seq<Line>, id: Uuid): (l: Line)
    requires id in IdsOf(lines)
    ensures l in lines && l.id == id
  {
    var l :| l in lines && l.id == id;
    l
  }

  ghost function IndexOf(lines: seq<Line>, l: Line): (i: nat)
    requires l in lines
    ensures i < |lines| && lines[i] == l
  {
    var i :| 0 <= i < |lines| && lines[i] == l;
    i
  }

  ghost function Without(was: Db, o: Owner): Db {
    var c, gone := was.core, LinesOf(was.items, o);
    Db(c.(batches := map b | b in c.batches && c.batches[b].txnId !in IdsIn(gone) :: c.batches[b], txns := c.txns - IdsIn(gone)),
       was.items - gone, was.docs)
  }

  ghost function BatchesFor(next: int, branch: int, lines: seq<Line>): map<int, Batch> {
    map b | next <= b < next + |lines| :: NewBatch(next, branch, lines, b)
  }

  ghost function NewBatch(next: int, branch: int, lines: seq<Line>, b: int): Batch
    requires next <= b < next + |lines|
  {
    Batch(lines[b - next].id, lines[b - next].inventory, branch, 0, 0, 0.0, 0.0)
  }

  ghost function MoveOf(c: Core, k: Kind, branch: int, lines: seq<Line>, l: Line): Txn
    requires l in lines
  {
    var s := CreatedSides(c.inventories, k, l);
    Txn(if OwnsBatch(k) then c.nextBatch + IndexOf(lines, l) else l.batch, l.inventory, branch, 0, s.inward, s.outward)
  }

  ghost function With(was: Db, o: Owner, branch: int, lines: seq<Line>): Db {
    var c, k := was.core, o.OfKind();
    Db(c.(batches := if OwnsBatch(k) then c.batches + BatchesFor(c.nextBatch, branch, lines) else c.batches,
          txns := c.txns + map id | id in IdsOf(lines) :: MoveOf(c, k, branch, lines, LineOf(lines, id))),
       was.items + map key | key in KeysOf(k, lines) :: ItemOf(o, KeyIn(k, lines, key)), was.docs)
  }

  ghost function KeyIn(k: Kind, lines: seq<Line>, key: ItemKey): (l: Line)
    requires key in KeysOf(k, lines)
    ensures l in lines && (k, l.id) == key
  {
    var l :| l in lines && (k, l.id) == key;
    l
  }

  /** There always is such a removal and re-creation to compare an update with, be it a state the database would reach or not. */
  lemma RecreationExists(was: Db, o: Owner, branch: int, lines: seq<Line>)
    requires Consistent(was) && OwnIds(was.items, was.core.txns, o, lines)
    ensures var erased := Without(was, o);
            && Erased(was, erased, o)
            && Written(erased, With(erased, o, branch, lines), o, branch, lines, CreatedBy(erased.core.inventories, o.OfKind()))
  {
    hide With, MoveOf, BatchesFor, Consistent, LinesHeld;
    var erased := Without(was, o);
    NoneLeft(was, erased, o, lines);
    NewIds(was);
    var created := With(erased, o, branch, lines);
    assert LinesOf(erased.items, o) == {};
    WithRows(erased, o, branch, lines);
    WithMoves(erased, o, branch, lines);
    WithBatches(erased, o, branch, lines);
    WithLines(erased, o, branch, lines);
    assert IdsIn({}) == {} && erased.core.txns - {} == erased.core.txns && erased.items - {} == erased.items;
  }

  lemma WithRows(was: Db, o: Owner, branch: int, lines: seq<Line>)
    requires DistinctIds(lines) && LinesOf(was.items, o) == {} && forall l :: l in lines ==> (o.OfKind(), l.id) !in was.items
    ensures var now, keys := With(was, o, branch, lines).items, KeysOf(o.OfKind(), lines);
            LinesOf(now, o) == keys && now - keys == was.items
  {
    var now, keys := With(was, o, branch, lines).items, KeysOf(o.OfKind(), lines);
    forall key | key in was.items ensures key !in keys && was.items[key].owner != o {
      assert key !in LinesOf(was.items, o);
    }
    assert now - keys == was.items;
  }

  lemma WithMoves(was: Db, o: Owner, branch: int, lines: seq<Line>)
    requires forall l :: l in lines ==> l.id !in was.core.txns
    ensures With(was, o, branch, lines).core.txns - IdsOf(lines) == was.core.txns
  {
    hide MoveOf;
    var now := With(was, o, branch, lines).core.txns;
    forall id | id in was.core.txns ensures id !in IdsOf(lines) {}
    assert now - IdsOf(lines) == was.core.txns;
  }

  lemma WithBatches(was: Db, o: Owner, branch: int, lines: seq<Line>)
    requires forall b :: b in was.core.batches ==> b < was.core.nextBatch
    ensures var now := With(was, o, branch, lines).core.batches;
            && (forall b :: b in was.core.batches ==> b in now && now[b] == was.core.batches[b])
            && (forall b :: b in now && b !in was.core.batches ==> now[b].txnId in IdsOf(lines))
    ensures With(was, o, branch, lines).core.inventories == was.core.inventories
  {
    hide MoveOf;
    var next, brought := was.core.nextBatch, BatchesFor(was.core.nextBatch, branch, lines);
    forall b | b in brought ensures b !in was.core.batches && brought[b].txnId in IdsOf(lines) {
      assert lines[b - next] in lines;
    }
  }

  lemma WithLines(was: Db, o: Owner, branch: int, lines: seq<Line>)
    requires DistinctIds(lines)
    ensures LinesHeld(With(was, o, branch, lines), o, branch, lines, CreatedBy(was.core.inventories, o.OfKind()))
  {
    hide With, MovementHeld;
    forall l | l in lines
      ensures var now, k := With(was, o, branch, lines), o.OfKind();
        && (k, l.id) in now.items && now.items[(k, l.id)] == ItemOf(o, l)
        && MovementHeld(now.core.batches, now.core.txns, k, branch, l, CreatedSides(was.core.inventories, k, l))
    {
      WithLine(was, o, branch, lines, l);
      WithMove(was, o, branch, lines, l);
    }
  }

  lemma WithLine(was: Db, o: Owner, branch: int, lines: seq<Line>, l: Line)
    requires DistinctIds(lines) && l in lines
    ensures var now, k := With(was, o, branch, lines).items, o.OfKind(); (k, l.id) in now && now[(k, l.id)] == ItemOf(o, l)
  {
    hide MoveOf, BatchesFor;
    var key := (o.OfKind(), l.id);
    assert key in KeysOf(o.OfKind(), lines);
    SameId(lines, KeyIn(o.OfKind(), lines, key), l);
  }

  lemma WithMove(was: Db, o: Owner, branch: int, lines: seq<Line>, l: Line)
    requires DistinctIds(lines) && l in lines
    ensures var now, k := With(was, o, branch, lines).core, o.OfKind();
            MovementHeld(now.batches, now.txns, k, branch, l, CreatedSides(was.core.inventories, k, l))
  {
    hide CreatedSides, BatchesFor;
    var c, id := was.core, l.id;
    assert id in IdsOf(lines);
    SameId(lines, LineOf(lines, id), l);
    BatchFor(c.nextBatch, branch, lines, l);
  }

  lemma BatchFor(next: int, branch: int, lines: seq<Line>, l: Line)
    requires l in lines
    ensures var b, batches := next + IndexOf(lines, l), BatchesFor(next, branch, lines);
            b in batches && batches[b].txnId == l.id
  {
  }

  lemma NoneLeft(was: Db, erased: Db, o: Owner, lines: seq<Line>)
    requires Consistent(was) && Erased(was, erased, o) && OwnIds(was.items, was.core.txns, o, lines)
    ensures forall l :: l in lines ==> l.id !in erased.core.txns && (o.OfKind(), l.id) !in erased.items
  {
    hide Consistent;
    forall l | l in lines ensures l.id !in erased.core.txns && (o.OfKind(), l.id) !in erased.items {
      NoneOwned(was, erased, o, lines, l);
      if (o.OfKind(), l.id) in was.items {
        assert (o.OfKind(), l.id) in LinesOf(was.items, o);
      }
    }
  }

  lemma NewIds(db: Db)
    requires Consistent(db)
    ensures forall b :: b in db.core.batches ==> b < db.core.nextBatch
  {
  }

  lemma SameId(lines: seq<Line>, l: Line, m: Line)
    requires DistinctIds(lines) && l in lines && m in lines && l.id == m.id
    ensures l == m
  {
  }

  /** Each line's movement is on a batch of its own, which holds the movement it has in `d` and what `rest` draws on it. */
  ghost predicate OwnBatchesHold(c: Core, d: Core, rest: map<Uuid, Txn>, lines: seq<Line>) {
    forall l :: l in lines ==>
      && l.id in c.txns && l.id in d.txns && c.txns[l.id].batch in c.batches
      && var b := c.txns[l.id].batch;
         c.batches[b].txnId == l.id && c.batches[b].Closing() == d.txns[l.id].Net() + Sum(rest, NetOf(b))
  }

  /** The batches that no line owns are those left when the lines are gone, and hold what is left on them. */
  ghost predicate OtherBatchesHold(c: Core, left: Core, lines: seq<Line>) {
    && (forall b :: b in c.batches && c.batches[b].txnId !in IdsOf(lines) ==>
          b in left.batches && Shape(left.batches[b]) == Shape(c.batches[b]) && c.batches[b].Closing() == Sum(left.txns, NetOf(b)))
    && (forall b :: b in left.batches ==> b in c.batches && c.batches[b].txnId !in IdsOf(lines))
  }

  /** Seen on one batch, the updated document's lines count only on the batches they own. */
  lemma OwnLinesAside(updated: Db, o: Owner, branch: int, lines: seq<Line>, sides: Line -> Sides, rest: map<Uuid, Txn>, b: int)
    requires Consistent(updated) && OwnsBatch(o.OfKind()) && LinesHeld(updated, o, branch, lines, sides)
    requires updated.core.txns - IdsOf(lines) == rest && b in updated.core.batches
    ensures var id := updated.core.batches[b].txnId;
            updated.core.batches[b].Closing() == Sum(rest, NetOf(b))
              + (if id in IdsOf(lines) && id in updated.core.txns && updated.core.txns[id].batch == b
                 then updated.core.txns[id].Net() else 0.0)
  {
    hide Sound, LinesHeld;
    ConsistentFacts(updated);
    ClosingIsNet(updated.core, b);
    var c, id := updated.core, updated.core.batches[b].txnId;
    forall t | t in c.txns && t in IdsOf(lines) && t != id ensures NetOf(b)(t, c.txns[t]) == 0.0 {
      var m :| m in lines && m.id == t;
      HeldOwn(updated, o, branch, lines, sides, m);
    }
    if id in IdsOf(lines) && id in c.txns {
      SumTake(c.txns, NetOf(b), id);
      SumRestrict(c.txns - {id}, NetOf(b), IdsOf(lines));
      assert c.txns - {id} - IdsOf(lines) == rest;
    } else {
      SumRestrict(c.txns, NetOf(b), IdsOf(lines));
    }
  }

  lemma OwnHold(was: Db, updated: Db, erased: Db, created: Db, o: Owner, branch: int, lines: seq<Line>)
    requires Consistent(was) && Consistent(updated)
    requires OwnIds(was.items, was.core.txns, o, lines) && OwnsBatch(o.OfKind())
    requires Written(was, updated, o, branch, lines, UpdatedBy(was, o, lines))
    requires Erased(was, erased, o)
    requires Written(erased, created, o, branch, lines, CreatedBy(erased.core.inventories, o.OfKind()))
    ensures OwnBatchesHold(updated.core, created.core, erased.core.txns, lines)
  {
    hide Consistent, OwnIds, LinesHeld, Kept;
    var sides := UpdatedBy(was, o, lines);
    forall l | l in lines
      ensures l.id in updated.core.txns && l.id in created.core.txns && updated.core.txns[l.id].batch in updated.core.batches
      ensures var b := updated.core.txns[l.id].batch;
              && updated.core.batches[b].txnId == l.id
              && updated.core.batches[b].Closing() == created.core.txns[l.id].Net() + Sum(erased.core.txns, NetOf(b))
    {
      HeldOwn(updated, o, branch, lines, sides, l);
      SameLines(was, updated, erased, created, o, branch, lines, l.id);
      OwnLinesAside(updated, o, branch, lines, sides, erased.core.txns, updated.core.txns[l.id].batch);
    }
  }

  lemma OthersHold(was: Db, updated: Db, erased: Db, o: Owner, branch: int, lines: seq<Line>)
    requires Consistent(was) && Consistent(updated) && Erased(was, erased, o)
    requires OwnIds(was.items, was.core.txns, o, lines) && OwnsBatch(o.OfKind())
    requires Written(was, updated, o, branch, lines, UpdatedBy(was, o, lines))
    ensures OtherBatchesHold(updated.core, erased.core, lines)
  {
    hide Sound, LinesHeld, OwnIds, Kept, OneLineEach;
    ConsistentFacts(was);
    ConsistentFacts(updated);
    forall b | b in erased.core.batches
      ensures b in updated.core.batches && Shape(erased.core.batches[b]) == Shape(updated.core.batches[b])
      ensures updated.core.batches[b].txnId !in IdsOf(lines)
    {
      assert Shape(was.core.batches[b]) == Shape(erased.core.batches[b]);
      assert Shape(was.core.batches[b]) == Shape(updated.core.batches[b]);
      NoneOwnedAny(was, erased, o, lines, b);
    }
    forall b | b in updated.core.batches && updated.core.batches[b].txnId !in IdsOf(lines)
      ensures b in erased.core.batches && updated.core.batches[b].Closing() == Sum(erased.core.txns, NetOf(b))
    {
      assert b in was.core.batches && Shape(was.core.batches[b]) == Shape(updated.core.batches[b]);
      assert updated.core.batches[b].txnId in updated.core.txns - IdsOf(lines);
      OwnLinesAside(updated, o, branch, lines, UpdatedBy(was, o, lines), erased.core.txns, b);
    }
  }

  /** So where the re-creation is a state of the database, the two have the same stock and the same closings on batches drawn on;
      and where the lines could have gone first, also on the batches that lines bring (found by the line that owns them, since
      the new ones have other ids) and on the batches of others. */
  lemma UpdateMatchesRecreated(was: Db, updated: Db, erased: Db, created: Db, o: Owner, branch: int, lines: seq<Line>)
    requires Consistent(was) && Consistent(updated) && Consistent(created)
    requires OwnIds(was.items, was.core.txns, o, lines) && OwnerBranch(was.docs, o) == Some(branch)
    requires Written(was, updated, o, branch, lines, UpdatedBy(was, o, lines))
    requires Erased(was, erased, o)
    requires Written(erased, created, o, branch, lines, CreatedBy(erased.core.inventories, o.OfKind()))
    ensures forall br, inv :: StockAt(updated.core.stock, br, inv) == StockAt(created.core.stock, br, inv)
              <==> o.OfKind() != DebitNote || KeptInward(was, o, lines, AtPlace(br, inv)) == 0.0
    ensures !OwnsBatch(o.OfKind()) ==> forall b :: b in updated.core.batches && b in created.core.batches ==>
              (updated.core.batches[b].Closing() == created.core.batches[b].Closing()
               <==> o.OfKind() != DebitNote || KeptInward(was, o, lines, OnBatch(b)) == 0.0)
    ensures OwnsBatch(o.OfKind()) && Consistent(erased) ==>
              && OwnBatchesAlike(updated.core, created.core, lines)
              && OtherBatchesAlike(updated.core, created.core, lines)
  {
    hide Consistent, Written, Erased, OwnIds, StockAt, KeptInward, OwnBatchesHold, OtherBatchesHold, Sound;
    hide OwnBatchesAlike, OtherBatchesAlike;
    UpdateIsRecreate(was, updated, erased, created, o, branch, lines);
    ConsistentFacts(created);
    forall br, inv ensures StockAt(created.core.stock, br, inv) == Sum(created.core.txns, NetAt(br, inv)) {
      StockIsSumOfMovements(created.core, br, inv);
    }
    forall b | b in created.core.batches ensures created.core.batches[b].Closing() == Sum(created.core.txns, NetOf(b)) {
      ClosingIsNet(created.core, b);
    }
    if OwnsBatch(o.OfKind()) && Consistent(erased) {
      OwnAlike(was, updated, erased, created, o, branch, lines);
      OthersAlike(was, updated, erased, created, o, branch, lines);
    }
  }

  /** Each line has a batch of its own in both states, and the two close alike. */
  ghost predicate OwnBatchesAlike(c: Core, d: Core, lines: seq<Line>) {
    forall l :: l in lines ==> exists b, e ::
      && b in c.batches && c.batches[b].txnId == l.id && e in d.batches && d.batches[e].txnId == l.id
      && c.batches[b].Closing() == d.batches[e].Closing()
  }

  /** The batches that no line owns are the same ones, and close alike. */
  ghost predicate OtherBatchesAlike(c: Core, d: Core, lines: seq<Line>) {
    && (forall b :: b in c.batches && c.batches[b].txnId !in IdsOf(lines) ==>
          && b in d.batches && d.batches[b].txnId == c.batches[b].txnId
          && d.batches[b].Closing() == c.batches[b].Closing())
    && (forall b :: b in d.batches && d.batches[b].txnId !in IdsOf(lines) ==>
          b in c.batches && c.batches[b].txnId == d.batches[b].txnId)
  }

  /** A batch with one movement on it closes at that movement's net. */
  lemma OneMovement(c: Core, b: int, id: Uuid)
    requires Sound(c) && b in c.batches && id in c.txns && c.txns[id].batch == b
    requires forall t :: t in c.txns && t != id ==> c.txns[t].batch != b
    ensures c.batches[b].Closing() == c.txns[id].Net()
  {
    hide Sound;
    ClosingIsNet(c, b);
    SumTake(c.txns, NetOf(b), id);
    forall t | t in c.txns - {id} ensures NetOf(b)(t, c.txns[t]) == 0.0 {}
    SumZero(c.txns - {id}, NetOf(b));
  }

  /** Only its own line's movement is on a batch that a line of a document brought, when the other documents could spare it. */
  lemma OwnLineAlone(base: Db, now: Db, o: Owner, branch: int, lines: seq<Line>, sides: Line -> Sides, rest: map<Uuid, Txn>, l: Line)
    requires Consistent(base) && Consistent(now) && OwnsBatch(o.OfKind()) && l in lines
    requires LinesHeld(now, o, branch, lines, sides) && now.core.txns - IdsOf(lines) == rest
    requires forall t :: t in rest ==> t in base.core.txns && rest[t] == base.core.txns[t]
    requires forall b :: b in base.core.batches && b in now.core.batches ==> base.core.batches[b].txnId == now.core.batches[b].txnId
    requires forall b :: b in base.core.batches ==> base.core.batches[b].txnId != l.id
    ensures l.id in now.core.txns && now.core.txns[l.id].batch in now.core.batches
    ensures var b := now.core.txns[l.id].batch;
            now.core.batches[b].txnId == l.id && now.core.batches[b].Closing() == now.core.txns[l.id].Net()
  {
    hide Sound, LinesHeld;
    ConsistentFacts(base);
    ConsistentFacts(now);
    HeldOwn(now, o, branch, lines, sides, l);
    var b := now.core.txns[l.id].batch;
    forall t | t in now.core.txns && t != l.id ensures now.core.txns[t].batch != b {
      if t in IdsOf(lines) {
        var m :| m in lines && m.id == t;
        HeldOwn(now, o, branch, lines, sides, m);
      } else {
        assert t in rest;
        MovementFacts(base.core, t);
      }
    }
    OneMovement(now.core, b, l.id);
  }

  lemma HeldOwn(now: Db, o: Owner, branch: int, lines: seq<Line>, sides: Line -> Sides, l: Line)
    requires LinesHeld(now, o, branch, lines, sides) && OwnsBatch(o.OfKind()) && l in lines
    ensures l.id in now.core.txns && now.core.txns[l.id].batch in now.core.batches
    ensures now.core.batches[now.core.txns[l.id].batch].txnId == l.id
  {
    assert MovementHeld(now.core.batches, now.core.txns, o.OfKind(), branch, l, sides(l));
  }

  lemma OwnAlike(was: Db, updated: Db, erased: Db, created: Db, o: Owner, branch: int, lines: seq<Line>)
    requires Consistent(was) && Consistent(updated) && Consistent(erased) && Consistent(created)
    requires OwnIds(was.items, was.core.txns, o, lines) && OwnsBatch(o.OfKind())
    requires Written(was, updated, o, branch, lines, UpdatedBy(was, o, lines))
    requires Erased(was, erased, o)
    requires Written(erased, created, o, branch, lines, CreatedBy(erased.core.inventories, o.OfKind()))
    ensures OwnBatchesAlike(updated.core, created.core, lines)
  {
    hide Consistent, Kept;
    forall l | l in lines
      ensures exists b, e ::
        && b in updated.core.batches && updated.core.batches[b].txnId == l.id
        && e in created.core.batches && created.core.batches[e].txnId == l.id
        && updated.core.batches[b].Closing() == created.core.batches[e].Closing()
    {
      SameLines(was, updated, erased, created, o, branch, lines, l.id);
      UpdatedAlone(was, updated, erased, o, branch, lines, l);
      CreatedAlone(was, erased, created, o, branch, lines, l);
    }
  }

  /** Once the document's lines are gone no batch is left that one of the list's lines owns. */
  lemma NoneOwned(was: Db, erased: Db, o: Owner, lines: seq<Line>, l: Line)
    requires Consistent(was) && Erased(was, erased, o) && OwnIds(was.items, was.core.txns, o, lines) && l in lines
    ensures l.id !in erased.core.txns && forall b :: b in erased.core.batches ==> erased.core.batches[b].txnId != l.id
  {
    hide Sound;
    ConsistentFacts(was);
    if (o.OfKind(), l.id) in was.items {
      assert (o.OfKind(), l.id) in LinesOf(was.items, o);
      assert l.id in IdsIn(LinesOf(was.items, o));
    }
  }

  lemma CreatedAlone(was: Db, erased: Db, created: Db, o: Owner, branch: int, lines: seq<Line>, l: Line)
    requires Consistent(was) && Consistent(erased) && Consistent(created) && Erased(was, erased, o)
    requires OwnIds(was.items, was.core.txns, o, lines) && OwnsBatch(o.OfKind()) && l in lines
    requires Written(erased, created, o, branch, lines, CreatedBy(erased.core.inventories, o.OfKind()))
    ensures l.id in created.core.txns && created.core.txns[l.id].batch in created.core.batches
    ensures var b := created.core.txns[l.id].batch;
            created.core.batches[b].txnId == l.id && created.core.batches[b].Closing() == created.core.txns[l.id].Net()
  {
    hide Consistent, LinesHeld, OwnIds;
    NoneOwned(was, erased, o, lines, l);
    SameOwners(erased, created, o, branch, lines, CreatedBy(erased.core.inventories, o.OfKind()));
    assert LinesOf(erased.items, o) == {};
    OwnLineAlone(erased, created, o, branch, lines, CreatedBy(erased.core.inventories, o.OfKind()), erased.core.txns, l);
  }

  lemma SameOwners(was: Db, now: Db, o: Owner, branch: int, lines: seq<Line>, sides: Line -> Sides)
    requires Written(was, now, o, branch, lines, sides)
    ensures forall b :: b in was.core.batches && b in now.core.batches ==>
              was.core.batches[b].txnId == now.core.batches[b].txnId
    ensures LinesOf(was.items, o) == {} ==> now.core.txns - IdsOf(lines) == was.core.txns
  {
    hide LinesHeld;
    forall b | b in was.core.batches && b in now.core.batches ensures was.core.batches[b].txnId == now.core.batches[b].txnId {
      assert Shape(was.core.batches[b]) == Shape(now.core.batches[b]);
    }
    assert IdsIn({}) == {} && was.core.txns - {} == was.core.txns;
  }

  lemma UpdatedAlone(was: Db, updated: Db, erased: Db, o: Owner, branch: int, lines: seq<Line>, l: Line)
    requires Consistent(was) && Consistent(updated) && Consistent(erased) && Erased(was, erased, o)
    requires OwnIds(was.items, was.core.txns, o, lines) && OwnsBatch(o.OfKind()) && l in lines
    requires Written(was, updated, o, branch, lines, UpdatedBy(was, o, lines))
    ensures l.id in updated.core.txns && updated.core.txns[l.id].batch in updated.core.batches
    ensures var b := updated.core.txns[l.id].batch;
            updated.core.batches[b].txnId == l.id && updated.core.batches[b].Closing() == updated.core.txns[l.id].Net()
  {
    hide Consistent, LinesHeld, OwnIds, Kept;
    NoneOwned(was, erased, o, lines, l);
    SameOwners(was, updated, o, branch, lines, UpdatedBy(was, o, lines));
    forall b | b in erased.core.batches && b in updated.core.batches
      ensures erased.core.batches[b].txnId == updated.core.batches[b].txnId
    {
      assert Shape(was.core.batches[b]) == Shape(erased.core.batches[b]);
    }
    OwnLineAlone(erased, updated, o, branch, lines, UpdatedBy(was, o, lines), erased.core.txns, l);
  }

  lemma OthersAlike(was: Db, updated: Db, erased: Db, created: Db, o: Owner, branch: int, lines: seq<Line>)
    requires Consistent(was) && Consistent(updated) && Consistent(erased) && Consistent(created)
    requires OwnIds(was.items, was.core.txns, o, lines) && OwnsBatch(o.OfKind())
    requires Written(was, updated, o, branch, lines, UpdatedBy(was, o, lines))
    requires Erased(was, erased, o)
    requires Written(erased, created, o, branch, lines, CreatedBy(erased.core.inventories, o.OfKind()))
    ensures OtherBatchesAlike(updated.core, created.core, lines)
  {
    hide Consistent, Kept, OwnIds, LinesHeld, Sound;
    OthersInUpdated(was, updated, erased, o, branch, lines);
    OthersInCreated(was, erased, created, o, branch, lines);
  }

  /** A state that holds the document's lines and everything of one that does not agrees with it on the batches no line owns. */
  ghost predicate Others(erased: Core, now: Core, lines: seq<Line>) {
    && (forall b :: b in erased.batches ==> b in now.batches && Shape(erased.batches[b]) == Shape(now.batches[b]))
    && (forall b :: b in erased.batches ==> now.batches[b].txnId !in IdsOf(lines))
    && (forall b :: b in now.batches && now.batches[b].txnId !in IdsOf(lines) ==> b in erased.batches)
    && (forall b :: b in erased.batches ==> now.batches[b].Closing() == erased.batches[b].Closing())
  }

  lemma OthersClose(erased: Db, now: Db, o: Owner, branch: int, lines: seq<Line>, sides: Line -> Sides, b: int)
    requires Consistent(erased) && Consistent(now) && OwnsBatch(o.OfKind()) && LinesHeld(now, o, branch, lines, sides)
    requires now.core.txns - IdsOf(lines) == erased.core.txns
    requires b in erased.core.batches && b in now.core.batches && now.core.batches[b].txnId !in IdsOf(lines)
    ensures now.core.batches[b].Closing() == erased.core.batches[b].Closing()
  {
    hide Sound, LinesHeld;
    ConsistentFacts(erased);
    ConsistentFacts(now);
    ClosingIsNet(erased.core, b);
    ClosingIsNet(now.core, b);
    forall t | t in now.core.txns && t in IdsOf(lines) ensures NetOf(b)(t, now.core.txns[t]) == 0.0 {
      var m :| m in lines && m.id == t;
      HeldOwn(now, o, branch, lines, sides, m);
    }
    SumRestrict(now.core.txns, NetOf(b), IdsOf(lines));
  }

  lemma OthersInUpdated(was: Db, updated: Db, erased: Db, o: Owner, branch: int, lines: seq<Line>)
    requires Consistent(was) && Consistent(updated) && Consistent(erased) && Erased(was, erased, o)
    requires OwnIds(was.items, was.core.txns, o, lines) && OwnsBatch(o.OfKind())
    requires Written(was, updated, o, branch, lines, UpdatedBy(was, o, lines))
    ensures Others(erased.core, updated.core, lines)
  {
    hide Sound, LinesHeld, OwnIds, Kept, OneLineEach;
    ConsistentFacts(was);
    ConsistentFacts(updated);
    forall b | b in erased.core.batches
      ensures b in updated.core.batches && Shape(erased.core.batches[b]) == Shape(updated.core.batches[b])
      ensures updated.core.batches[b].txnId !in IdsOf(lines)
    {
      assert Shape(was.core.batches[b]) == Shape(erased.core.batches[b]);
      assert Shape(was.core.batches[b]) == Shape(updated.core.batches[b]);
      NoneOwnedAny(was, erased, o, lines, b);
    }
    forall b | b in updated.core.batches && updated.core.batches[b].txnId !in IdsOf(lines) ensures b in erased.core.batches {
      assert b in was.core.batches && Shape(was.core.batches[b]) == Shape(updated.core.batches[b]);
      assert updated.core.batches[b].txnId in updated.core.txns - IdsOf(lines);
    }
    forall b | b in erased.core.batches ensures updated.core.batches[b].Closing() == erased.core.batches[b].Closing() {
      OthersClose(erased, updated, o, branch, lines, UpdatedBy(was, o, lines), b);
    }
  }

  lemma NoneOwnedAny(was: Db, erased: Db, o: Owner, lines: seq<Line>, b: int)
    requires Consistent(was) && Erased(was, erased, o) && OwnIds(was.items, was.core.txns, o, lines)
    requires b in erased.core.batches
    ensures erased.core.batches[b].txnId !in IdsOf(lines)
  {
    hide Consistent, OwnIds, Erased;
    if l :| l in lines && l.id == erased.core.batches[b].txnId {
      NoneOwned(was, erased, o, lines, l);
    }
  }

  lemma OthersInCreated(was: Db, erased: Db, created: Db, o: Owner, branch: int, lines: seq<Line>)
    requires Consistent(was) && Consistent(erased) && Consistent(created) && Erased(was, erased, o)
    requires OwnIds(was.items, was.core.txns, o, lines) && OwnsBatch(o.OfKind())
    requires Written(erased, created, o, branch, lines, CreatedBy(erased.core.inventories, o.OfKind()))
    ensures Others(erased.core, created.core, lines)
  {
    hide Consistent, LinesHeld, OwnIds;
    assert LinesOf(erased.items, o) == {};
    assert IdsIn({}) == {};
    SameOwners(erased, created, o, branch, lines, CreatedBy(erased.core.inventories, o.OfKind()));
    forall b | b in erased.core.batches ensures created.core.batches[b].txnId !in IdsOf(lines) {
      NoneOwnedAny(was, erased, o, lines, b);
    }
    forall b | b in erased.core.batches ensures created.core.batches[b].Closing() == erased.core.batches[b].Closing() {
      OthersClose(erased, created, o, branch, lines, CreatedBy(erased.core.inventories, o.OfKind()), b);
    }
  }

  lemma StockDiffers(was: Db, updated: Db, erased: Db, created: Db, o: Owner, branch: int, lines: seq<Line>, br: int, inv: int)
    requires Consistent(was) && Consistent(updated)
    requires OwnIds(was.items, was.core.txns, o, lines) && OwnerBranch(was.docs, o) == Some(branch)
    requires Written(was, updated, o, branch, lines, UpdatedBy(was, o, lines))
    requires Erased(was, erased, o)
    requires Written(erased, created, o, branch, lines, CreatedBy(erased.core.inventories, o.OfKind()))
    ensures StockAt(updated.core.stock, br, inv) == Sum(created.core.txns, NetAt(br, inv))
              + (if o.OfKind() == DebitNote then KeptInward(was, o, lines, AtPlace(br, inv)) else 0.0)
  {
    hide Consistent, Sound, Written, Erased, OwnIds, Kept;
    ConsistentFacts(updated);
    UpdateVersusRecreate(was, updated, erased, created, o, branch, lines, AtPlace(br, inv));
    StockIsNetWhere(updated.core, br, inv);
    SumCong(created.core.txns, NetAt(br, inv), created.core.txns, NetWhere(AtPlace(br, inv)));
  }

  lemma ClosingDiffers(was: Db, updated: Db, erased: Db, created: Db, o: Owner, branch: int, lines: seq<Line>, b: int)
    requires Consistent(was) && Consistent(updated)
    requires OwnIds(was.items, was.core.txns, o, lines) && OwnerBranch(was.docs, o) == Some(branch)
    requires Written(was, updated, o, branch, lines, UpdatedBy(was, o, lines))
    requires Erased(was, erased, o)
    requires Written(erased, created, o, branch, lines, CreatedBy(erased.core.inventories, o.OfKind()))
    requires b in updated.core.batches && !OwnsBatch(o.OfKind())
    ensures updated.core.batches[b].Closing() == Sum(created.core.txns, NetOf(b))
              + (if o.OfKind() == DebitNote then KeptInward(was, o, lines, OnBatch(b)) else 0.0)
  {
    hide Consistent, Sound, Written, Erased, OwnIds, Kept;
    ConsistentFacts(updated);
    UpdateVersusRecreate(was, updated, erased, created, o, branch, lines, OnBatch(b));
    ClosingIsNetWhere(updated.core, b);
    SumCong(created.core.txns, NetOf(b), created.core.txns, NetWhere(OnBatch(b)));
  }

  lemma SameItems(was: Db, updated: Db, erased: Db, created: Db, o: Owner, branch: int, lines: seq<Line>)
    requires Written(was, updated, o, branch, lines, UpdatedBy(was, o, lines))
    requires Erased(was, erased, o)
    requires Written(erased, created, o, branch, lines, CreatedBy(erased.core.inventories, o.OfKind()))
    ensures updated.items == created.items
  {
    var keys := KeysOf(o.OfKind(), lines);
    assert LinesOf(erased.items, o) == {};
    forall k | k in updated.items || k in created.items
      ensures k in updated.items && k in created.items && updated.items[k] == created.items[k]
    {
      if k in keys {
        var l :| l in lines && (o.OfKind(), l.id) == k;
      } else {
        assert k in updated.items - keys || k in created.items - keys;
        assert k in updated.items - keys && k in created.items - keys;
      }
    }
  }

  /** A debit note saved again unchanged right after it was created moves every line twice. */
  lemma DebitNoteSavedTwice(before: Db, was: Db, updated: Db, d: int, branch: int, lines: seq<Line>, l: Line)
    requires Consistent(was)
    requires Written(before, was, Document(DebitNote, d), branch, lines, CreatedBy(before.core.inventories, DebitNote))
    requires Written(was, updated, Document(DebitNote, d), branch, lines, UpdatedBy(was, Document(DebitNote, d), lines))
    requires l in lines
    ensures l.id in updated.core.txns
    ensures updated.core.txns[l.id].Net() == 2.0 * NetQuantity(DebitNote, l, LooseQty(before.core.inventories, l.inventory))
  {
    hide Consistent, Quantity;
    var o := Document(DebitNote, d);
    assert MovementHeld(was.core.batches, was.core.txns, DebitNote, branch, l, CreatedBy(before.core.inventories, DebitNote)(l));
    assert MovementHeld(updated.core.batches, updated.core.txns, DebitNote, branch, l, UpdatedBy(was, o, lines)(l));
    assert SameKey(was.items[(DebitNote, l.id)], l);
    assert (DebitNote, l.id) !in Missed(was.items, o, lines);
    OneMovementKept(was, o, lines, (DebitNote, l.id));
  }

  lemma OneMovementKept(was: Db, o: Owner, lines: seq<Line>, k: ItemKey)
    requires Consistent(was) && k in was.items && k !in Missed(was.items, o, lines)
    ensures k.1 in Kept(was, o, lines)
    ensures Kept(was, o, lines)[k.1] == was.core.txns[k.1]
  {
    hide Sound, OneLineEach;
    ConsistentFacts(was);
    if k.1 in IdsIn(Missed(was.items, o, lines)) {
      var j :| j in Missed(was.items, o, lines) && j.1 == k.1;
      OneLine(was.items, k, j);
    }
  }

  // ---- delete --------------------------------------------------------------------------------------------------

  /** Net movement of the rows `ids` picked by `at`. */
  ghost function NetOfLines(ids: set<Uuid>, at: Txn -> bool): (Uuid, Txn) -> real {
    (id, t: Txn) => if id in ids && at(t) then t.Net() else 0.0
  }

  lemma NetWithout(m: map<Uuid, Txn>, ids: set<Uuid>, at: Txn -> bool)
    ensures Sum(m - ids, NetWhere(at)) == Sum(m, NetWhere(at)) - Sum(m, NetOfLines(ids, at))
  {
    var rest := (id: Uuid, t: Txn) => if id in ids then 0.0 else NetWhere(at)(id, t);
    SumAdd(m, rest, NetOfLines(ids, at), NetWhere(at));
    SumRestrict(m, rest, ids);
    SumCong(m - ids, rest, m - ids, NetWhere(at));
  }

  /** Deleting a document takes exactly its own lines' movements out of every stock figure and every batch. */
  lemma DeleteRemovesOwnShare(was: Db, now: Db, o: Owner)
    requires Consistent(was) && Consistent(now) && Erased(was, now, o)
    ensures var ids := IdsIn(LinesOf(was.items, o));
      && (forall br, inv :: StockAt(now.core.stock, br, inv)
            == StockAt(was.core.stock, br, inv) - Sum(was.core.txns, NetOfLines(ids, AtPlace(br, inv))))
      && (forall b :: b in now.core.batches ==> b in was.core.batches)
      && (forall b :: b in now.core.batches ==>
            now.core.batches[b].Closing()
            == was.core.batches[b].Closing() - Sum(was.core.txns, NetOfLines(ids, OnBatch(b))))
  {
    hide Consistent, Sound;
    ConsistentFacts(was);
    ConsistentFacts(now);
    var ids := IdsIn(LinesOf(was.items, o));
    forall br, inv ensures StockAt(now.core.stock, br, inv)
      == StockAt(was.core.stock, br, inv) - Sum(was.core.txns, NetOfLines(ids, AtPlace(br, inv)))
    {
      StockIsNetWhere(was.core, br, inv);
      StockIsNetWhere(now.core, br, inv);
      NetWithout(was.core.txns, ids, AtPlace(br, inv));
    }
    forall b | b in now.core.batches ensures b in was.core.batches && now.core.batches[b].Closing()
      == was.core.batches[b].Closing() - Sum(was.core.txns, NetOfLines(ids, OnBatch(b)))
    {
      ClosingIsNetWhere(was.core, b);
      ClosingIsNetWhere(now.core, b);
      NetWithout(was.core.txns, ids, OnBatch(b));
    }
  }

  /** Creating a document and deleting it again restores the lines, the movements, every batch and every stock figure. */
  lemma CreateThenDelete(was: Db, mid: Db, now: Db, o: Owner, branch: int, lines: seq<Line>, sides: Line -> Sides)
    requires Consistent(was) && Consistent(now) && LinesOf(was.items, o) == {}
    requires Written(was, mid, o, branch, lines, sides) && Erased(mid, now, o)
    ensures now.items == was.items && now.core.txns == was.core.txns
    ensures now.core.batches == was.core.batches
    ensures forall br, inv :: StockAt(now.core.stock, br, inv) == StockAt(was.core.stock, br, inv)
  {
    hide Consistent;
    ConsistentFacts(was);
    ConsistentFacts(now);
    var keys, ids := KeysOf(o.OfKind(), lines), IdsOf(lines);
    assert was.items - {} == was.items && IdsIn({}) == {} && was.core.txns - {} == was.core.txns;
    forall id | id in ids ensures id in IdsIn(keys) {
      var l :| l in lines && l.id == id;
      assert (o.OfKind(), id) in keys;
    }
    assert IdsIn(keys) == ids;
    assert now.core.batches.Keys == was.core.batches.Keys by { SameBatchIds(was, mid, now, o, branch, lines, sides); }
    forall b | b in now.core.batches ensures now.core.batches[b] == was.core.batches[b] {
      assert Shape(now.core.batches[b]) == Shape(was.core.batches[b]);
    }
    assert now.core.batches == was.core.batches;
    forall br, inv ensures StockAt(now.core.stock, br, inv) == StockAt(was.core.stock, br, inv) {
      assert StockAt(now.core.stock, br, inv) == Sum(now.core.batches, ClosingOf(br, inv));
      assert StockAt(was.core.stock, br, inv) == Sum(was.core.batches, ClosingOf(br, inv));
    }
  }

  lemma SameBatchIds(was: Db, mid: Db, now: Db, o: Owner, branch: int, lines: seq<Line>, sides: Line -> Sides)
    requires Consistent(was) && Consistent(now) && LinesOf(was.items, o) == {}
    requires Written(was, mid, o, branch, lines, sides) && Erased(mid, now, o)
    requires now.core.txns == was.core.txns && IdsIn(KeysOf(o.OfKind(), lines)) == IdsOf(lines)
    ensures now.core.batches.Keys == was.core.batches.Keys
  {
    hide Sound, LinesHeld;
    ConsistentFacts(was);
    ConsistentFacts(now);
    forall b | b in was.core.batches ensures b in now.core.batches {
      assert was.core.batches[b].txnId in was.core.txns;
      assert b in mid.core.batches && mid.core.batches[b].txnId == was.core.batches[b].txnId by {
        assert Shape(was.core.batches[b]) == Shape(mid.core.batches[b]);
      }
      assert mid.core.batches[b].txnId in now.core.txns;
    }
    forall b | b in now.core.batches ensures b in was.core.batches {
      assert b in mid.core.batches && mid.core.batches[b].txnId !in IdsOf(lines);
    }
  }

  // ---- lines that cannot go ------------------------------------------------------------------------------------

  /** A line whose own batch is named by a movement outside the document survives every successful update of the document, on
      its inventory and its batch (and, by the contract of the delete procedures, keeps the document from being deleted). */
  lemma DrawnLineStays(was: Db, updated: Db, o: Owner, branch: int, lines: seq<Line>, k: ItemKey, t: Uuid)
    requires Consistent(was) && Consistent(updated) && OwnIds(was.items, was.core.txns, o, lines)
    requires Written(was, updated, o, branch, lines, UpdatedBy(was, o, lines))
    requires k in LinesOf(was.items, o) && OwnsBatch(k.0)
    requires t in was.core.txns && t !in IdsIn(LinesOf(was.items, o)) && was.core.txns[t].batch == was.core.txns[k.1].batch
    ensures k.1 in IdsOf(lines) && k in LinesOf(updated.items, o)
    ensures updated.items[k].inventory == was.items[k].inventory
    ensures k.1 in updated.core.txns && updated.core.txns[k.1].batch == was.core.txns[k.1].batch
  {
    hide Sound, OneLineEach, LinesHeld;
    ConsistentFacts(was);
    ConsistentFacts(updated);
    LineFacts(was, k);
    NotOneOfTheLines(was, o, lines, t);
    var b := was.core.txns[t].batch;
    assert t in was.core.txns - IdsIn(LinesOf(was.items, o));
    assert t in updated.core.txns - IdsOf(lines);
    MovementFacts(updated.core, t);
    assert Shape(was.core.batches[b]) == Shape(updated.core.batches[b]);
    assert k.1 in IdsIn(LinesOf(was.items, o));
    assert k.1 !in updated.core.txns - IdsOf(lines);
    var l :| l in lines && l.id == k.1;
    assert k in KeysOf(o.OfKind(), lines);
    LineFacts(updated, k);
    SameOwner(updated.core, b, updated.core.txns[k.1].batch);
    MovementFacts(was.core, k.1);
    MovementFacts(updated.core, k.1);
  }

  lemma NotOneOfTheLines(was: Db, o: Owner, lines: seq<Line>, t: Uuid)
    requires OwnIds(was.items, was.core.txns, o, lines) && t in was.core.txns && t !in IdsIn(LinesOf(was.items, o))
    ensures t !in IdsOf(lines)
  {
    forall l | l in lines ensures l.id != t {
      var key := (o.OfKind(), l.id);
      if key in was.items {
        assert key in LinesOf(was.items, o);
        assert key.1 in IdsIn(LinesOf(was.items, o));
      }
    }
  }

  lemma SameOwner(c: Core, b: int, d: int)
    requires Sound(c) && b in c.batches && d in c.batches && c.batches[b].txnId == c.batches[d].txnId
    ensures b == d
  {
  }
}
