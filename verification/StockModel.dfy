/** The tables of the stock engine as values, and what every committed state satisfies.
    Quantities are exact reals. */
module StockModel {
  import opened Options
  import opened Sums

  type Uuid = int

  datatype Kind = Sale | Purchase | DebitNote | CreditNote | Adjustment | Deduction | Addition | Opening

  /** What a line belongs to: a document, or the opening stock of an inventory at a branch and warehouse. */
  datatype Owner =
    | Document(docKind: Kind, id: int)
    | OpeningOf(inventory: int, branch: int, warehouse: int)
  {
    function OfKind(): Kind { if Document? then docKind else Opening }
  }

  datatype Inventory = Inventory(allowNegative: bool, looseQty: int, reorder: Option<int>, bulk: Option<int>)

  datatype Batch = Batch(txnId: Uuid, inventory: int, branch: int, warehouse: int, reorder: int,
                         inward: real, outward: real)
  {
    function Closing(): real { inward - outward }
  }

  /** A row of `inv_txn`. */
  datatype Txn = Txn(batch: int, inventory: int, branch: int, reorder: int, inward: real, outward: real)
  {
    function Net(): real { inward - outward }
  }

  /** A line as the caller sends it; its id is the caller's, or one drawn for it. `batch` is ignored for the kinds
      whose lines own a batch, `freeQty` for all but purchases, `source` for all but additions. */
  datatype Line = Line(id: Uuid, inventory: int, batch: int, qty: real, freeQty: real, unitConv: real,
                       isLoose: bool, source: Option<int>)

  /** A row of one of the `_inv_item` tables or of `inventory_opening`. */
  datatype Item = Item(owner: Owner, inventory: int, batch: Option<int>, qty: real, freeQty: real, unitConv: real,
                       isLoose: bool, source: Option<int>)

  type ItemKey = (Kind, Uuid)

  /** A document header. */
  datatype Doc = Doc(voucher: int, branch: int, warehouse: int, altBranch: Option<int>, altWarehouse: Option<int>,
                     approved: bool, deductionVoucher: Option<int>)

  /** The header fields a caller sends. */
  datatype Header = Header(voucher: int, branch: int, warehouse: int, altBranch: Option<int>, altWarehouse: Option<int>)
  {
    predicate SamePlace() { altBranch == Some(branch) && altWarehouse == Some(warehouse) }

    /** The stored header. No create procedure writes `deduction_voucher_id`. */
    function Stored(): Doc { Doc(voucher, branch, warehouse, altBranch, altWarehouse, false, None) }
  }

  /** The two columns of `inventory_branch_detail` that matter here. */
  datatype StockRow = StockRow(stock: real, reorder: int)

  /** The tables the triggers work on. */
  datatype Core = Core(inventories: map<int, Inventory>, batches: map<int, Batch>, txns: map<Uuid, Txn>,
                       stock: map<(int, int), StockRow>, nextBatch: int)

  /** All tables. */
  datatype Db = Db(core: Core, items: map<ItemKey, Item>, docs: map<(Kind, int), Doc>)

  /** Purchase, addition and opening lines create a batch of their own; the others draw on an existing one. */
  predicate OwnsBatch(k: Kind) { k in {Purchase, Addition, Opening} }

  // ---- columns -------------------------------------------------------------------------------------------------

  ghost function InwardOf(b: int): (Uuid, Txn) -> real { (_, t: Txn) => if t.batch == b then t.inward else 0.0 }

  ghost function OutwardOf(b: int): (Uuid, Txn) -> real { (_, t: Txn) => if t.batch == b then t.outward else 0.0 }

  ghost function NetOf(b: int): (Uuid, Txn) -> real { (_, t: Txn) => if t.batch == b then t.Net() else 0.0 }

  function ClosingOf(branch: int, inventory: int): (int, Batch) -> real {
    (_, b: Batch) => if b.branch == branch && b.inventory == inventory then b.Closing() else 0.0
  }

  /** The facts behind one stock figure: the movements of an inventory at a branch. */
  ghost function NetAt(branch: int, inventory: int): (Uuid, Txn) -> real {
    (_, t: Txn) => if t.branch == branch && t.inventory == inventory then t.Net() else 0.0
  }

  function StockAt(stock: map<(int, int), StockRow>, branch: int, inventory: int): real {
    if (branch, inventory) in stock then stock[(branch, inventory)].stock else 0.0
  }

  // ---- quantities ----------------------------------------------------------------------------------------------

  function Loose(isLoose: bool, looseQty: int): real { if isLoose then 1.0 else looseQty as real }

  /** The quantity a line moves, in the batch's own unit. */
  function Quantity(k: Kind, l: Line, looseQty: int): real {
    (if k == Purchase then l.qty + l.freeQty else l.qty) * l.unitConv * Loose(l.isLoose, looseQty)
  }

  /** What a line of this kind is meant to add to the closing stock of its batch. */
  function NetQuantity(k: Kind, l: Line, looseQty: int): real {
    if k in {Sale, DebitNote, Deduction} then -Quantity(k, l, looseQty) else Quantity(k, l, looseQty)
  }

  datatype Sides = Sides(inward: real, outward: real)

  /** The sides a new `inv_txn` row gets: from the create procedures, or from the upsert of the update procedures,
      which differ for debit notes only. */
  function Booked(k: Kind, creating: bool, l: Line, looseQty: int): Sides {
    var q := Quantity(k, l, looseQty);
    match k
    case Sale => Sides(0.0, q)
    case CreditNote => Sides(0.0, -q)
    case DebitNote => if creating then Sides(-q, 0.0) else Sides(0.0, q)
    case Deduction => Sides(0.0, q)
    case Adjustment => if l.qty > 0.0 then Sides(q, 0.0) else Sides(0.0, -l.qty * l.unitConv * Loose(l.isLoose, looseQty))
    case Purchase => Sides(q, 0.0)
    case Addition => Sides(q, 0.0)
    case Opening => Sides(q, 0.0)
  }

  /** The sides after the upsert has hit an existing row: only some columns are written. */
  function Rebooked(k: Kind, was: Sides, l: Line, looseQty: int): Sides {
    var s := Booked(k, false, l, looseQty);
    match k
    case Adjustment => s
    case Sale => Sides(was.inward, s.outward)
    case CreditNote => Sides(was.inward, s.outward)
    case DebitNote => Sides(was.inward, s.outward)
    case Deduction => Sides(was.inward, s.outward)
    case Purchase => Sides(s.inward, was.outward)
    case Addition => Sides(s.inward, was.outward)
    case Opening => Sides(s.inward, was.outward)
  }

  /** The sides of a line's movement after a create. */
  function CreatedSides(inventories: map<int, Inventory>, k: Kind, l: Line): Sides {
    Booked(k, true, l, LooseQty(inventories, l.inventory))
  }

  /** The sides of a line's movement after an update. */
  function UpdatedSides(was: map<Uuid, Txn>, inventories: map<int, Inventory>, k: Kind, l: Line): Sides {
    var loose := LooseQty(inventories, l.inventory);
    if l.id in was then Rebooked(k, SidesOf(was[l.id]), l, loose) else Booked(k, false, l, loose)
  }

  function SidesOf(t: Txn): Sides { Sides(t.inward, t.outward) }

  function ItemOf(o: Owner, l: Line): Item {
    Item(o, l.inventory, if OwnsBatch(o.OfKind()) then None else Some(l.batch), l.qty, l.freeQty, l.unitConv, l.isLoose,
         if o.OfKind() == Addition then l.source else None)
  }

  function LooseQty(inventories: map<int, Inventory>, i: int): int {
    if i in inventories then inventories[i].looseQty else 0
  }

  // ---- what every state satisfies ------------------------------------------------------------------------------

  /** Foreign keys, and the agreements the triggers take for granted. */
  ghost predicate Linked(inventories: map<int, Inventory>, batches: map<int, Batch>, txns: map<Uuid, Txn>) {
    && (forall b :: b in batches ==> batches[b].inventory in inventories)
    && (forall t :: t in txns ==> txns[t].batch in batches)
    && (forall t :: t in txns ==> txns[t].inventory == batches[txns[t].batch].inventory)
    && (forall t :: t in txns ==> txns[t].branch == batches[txns[t].batch].branch)
    && (forall b :: b in batches && batches[b].txnId in txns ==> txns[batches[b].txnId].batch == b)
  }

  /** `txn_id` is unique. */
  ghost predicate OwnersUnique(batches: map<int, Batch>) {
    forall b, c :: b in batches && c in batches && batches[b].txnId == batches[c].txnId ==> b == c
  }

  /** First level: batch totals are the sums over the movements. */
  ghost predicate TotalsExact(batches: map<int, Batch>, txns: map<Uuid, Txn>) {
    forall b :: b in batches ==>
      batches[b].inward == Sum(txns, InwardOf(b)) && batches[b].outward == Sum(txns, OutwardOf(b))
  }

  /** Second level: stock, read as 0 where there is no row, is the sum of the closings. */
  ghost predicate StockExact(batches: map<int, Batch>, stock: map<(int, int), StockRow>) {
    forall br, inv :: StockAt(stock, br, inv) == Sum(batches, ClosingOf(br, inv))
  }

  /** No negative closing where negative stock is not allowed. */
  ghost predicate NonNegative(inventories: map<int, Inventory>, batches: map<int, Batch>) {
    forall b :: b in batches && batches[b].inventory in inventories ==>
      inventories[batches[b].inventory].allowNegative || batches[b].Closing() >= 0.0
  }

  /** Batch ids come from an identity column. */
  ghost predicate IdsBelow(batches: map<int, Batch>, next: int) { forall b :: b in batches ==> b < next }

  ghost predicate Sound(c: Core) {
    && Linked(c.inventories, c.batches, c.txns) && OwnersUnique(c.batches) && TotalsExact(c.batches, c.txns)
    && StockExact(c.batches, c.stock) && NonNegative(c.inventories, c.batches)
    && IdsBelow(c.batches, c.nextBatch)
  }

  /** What the triggers rely on about a stored movement. */
  lemma MovementFacts(c: Core, id: Uuid)
    requires Sound(c) && id in c.txns
    ensures var t := c.txns[id];
            && t.batch in c.batches && t.inventory in c.inventories
            && c.batches[t.batch].inventory == t.inventory && c.batches[t.batch].branch == t.branch
            && (forall b :: b in c.batches && c.batches[b].txnId == id ==> b == t.batch)
  {
  }

  lemma BatchFacts(c: Core, b: int)
    requires Sound(c) && b in c.batches
    ensures c.batches[b].inventory in c.inventories
    ensures c.inventories[c.batches[b].inventory].allowNegative || c.batches[b].Closing() >= 0.0
  {
  }

  function OwnerBranch(docs: map<(Kind, int), Doc>, o: Owner): Option<int> {
    match o
    case OpeningOf(_, branch, _) => Some(branch)
    case Document(k, d) => if (k, d) in docs then Some(docs[(k, d)].branch) else None
  }

  /** Does a movement own no batch? */
  predicate OwnsNone(batches: map<int, Batch>, id: Uuid) { forall b :: b in batches ==> batches[b].txnId != id }

  /** A line and its movement agree, only the side the kind writes is used (debit notes use both), only lines that bring a
      batch own one, and a source exists. */
  ghost predicate ItemOk(batches: map<int, Batch>, txns: map<Uuid, Txn>, docs: map<(Kind, int), Doc>, k: ItemKey, it: Item) {
    && it.owner.OfKind() == k.0
    && k.1 in txns
    && var t := txns[k.1];
    && t.batch in batches
    && t.inventory == it.inventory
    && OwnerBranch(docs, it.owner) == Some(t.branch)
    && (it.owner.OpeningOf? ==> it.owner.inventory == it.inventory)
    && (if OwnsBatch(k.0) then it.batch == None && batches[t.batch].txnId == k.1 && t.outward == 0.0
        else it.batch == Some(t.batch) && OwnsNone(batches, k.1))
    && (it.source.Some? ==> it.source.value in batches)
    && (k.0 in {Sale, CreditNote, Deduction} ==> t.inward == 0.0)
  }

  ghost predicate ItemsOk(db: Db) {
    forall k :: k in db.items ==> ItemOk(db.core.batches, db.core.txns, db.docs, k, db.items[k])
  }

  /** A movement serves one line. */
  ghost predicate OneLineEach(items: map<ItemKey, Item>) {
    forall k, j :: k in items && j in items && k.1 == j.1 ==> k == j
  }

  /** No batch outlives the movement that owns it. */
  ghost predicate BatchesOwned(batches: map<int, Batch>, txns: map<Uuid, Txn>) {
    forall b :: b in batches ==> batches[b].txnId in txns
  }

  /** The invariant of every committed state. */
  ghost predicate Consistent(db: Db) {
    Sound(db.core) && ItemsOk(db) && OneLineEach(db.items) && BatchesOwned(db.core.batches, db.core.txns)
  }

  /** No document ever records the deduction it approved, so the guards on `deduction_voucher_id` never fire: an addition
      that approved a deduction can still be updated and deleted. */
  ghost predicate Unrecorded(docs: map<(Kind, int), Doc>) {
    forall k :: k in docs ==> docs[k].deductionVoucher == None
  }

  function EmptyDb(): Db { Db(Core(map[], map[], map[], map[], 1), map[], map[]) }

  lemma EmptyIsConsistent()
    ensures Consistent(EmptyDb())
  {
    var c := EmptyDb().core;
    forall br, inv ensures StockAt(c.stock, br, inv) == Sum(c.batches, ClosingOf(br, inv)) {}
  }

  // ---- batches and totals --------------------------------------------------------------------------------------

  function Moved(b: Batch, dIn: real, dOut: real): Batch { b.(inward := b.inward + dIn, outward := b.outward + dOut) }

  /** A batch but for its totals. */
  function Shape(b: Batch): Batch { b.(inward := 0.0, outward := 0.0) }

  /** The batches left, totals aside, when the movements `ids` are gone and the batches they own with them. */
  ghost predicate Lost(was: map<int, Batch>, now: map<int, Batch>, ids: set<Uuid>) {
    && (forall b :: b in now ==> b in was && was[b].txnId !in ids && Shape(was[b]) == Shape(now[b]))
    && (forall b :: b in was && was[b].txnId !in ids ==> b in now)
  }

  /** Is the batch named by a movement or a line? */
  predicate Referenced(txns: map<Uuid, Txn>, items: map<ItemKey, Item>, b: int) {
    || (exists t | t in txns :: txns[t].batch == b)
    || (exists k | k in items :: items[k].batch == Some(b) || items[k].source == Some(b))
  }

  /** The row trigger on batches keeps the second level exact: recomputing one stock row suffices. */
  lemma RefreshKeepsStock(was: map<int, Batch>, stock: map<(int, int), StockRow>, now: map<int, Batch>, b: int, row: StockRow)
    requires StockExact(was, stock) && b in was
    requires now - {b} == was - {b}
    requires b in now ==> now[b].branch == was[b].branch && now[b].inventory == was[b].inventory
    requires row.stock == Sum(now, ClosingOf(was[b].branch, was[b].inventory))
    ensures StockExact(now, stock[(was[b].branch, was[b].inventory) := row])
  {
    var row0 := was[b];
    forall br, inv ensures StockAt(stock[(row0.branch, row0.inventory) := row], br, inv) == Sum(now, ClosingOf(br, inv)) {
      if (br, inv) != (row0.branch, row0.inventory) {
        assert StockAt(stock, br, inv) == Sum(was, ClosingOf(br, inv));
        SumTake(was, ClosingOf(br, inv), b);
        if b in now {
          SumTake(now, ClosingOf(br, inv), b);
        } else {
          assert now - {b} == now;
        }
      }
    }
  }

  /** A new batch starts at zero, so no stock row need change. */
  lemma NewBatchKeepsStock(batches: map<int, Batch>, stock: map<(int, int), StockRow>, b: int, row: Batch)
    requires StockExact(batches, stock) && b !in batches && row.Closing() == 0.0
    ensures StockExact(batches[b := row], stock)
  {
    forall br, inv ensures StockAt(stock, br, inv) == Sum(batches[b := row], ClosingOf(br, inv)) {
      assert StockAt(stock, br, inv) == Sum(batches, ClosingOf(br, inv));
      SumPut(batches, ClosingOf(br, inv), b, row);
    }
  }

  lemma NewBatchIsSound(c: Core, row: Batch)
    requires Sound(c) && row.inward == row.outward == 0.0
    requires row.inventory in c.inventories
    requires row.txnId !in c.txns && forall d :: d in c.batches ==> c.batches[d].txnId != row.txnId
    ensures Sound(c.(batches := c.batches[c.nextBatch := row], nextBatch := c.nextBatch + 1))
  {
    var b := c.nextBatch;
    hide StockExact;
    assert b !in c.batches;
    NewBatchKeepsStock(c.batches, c.stock, b, row);
    assert forall t :: t in c.txns ==> c.txns[t].batch != b;
    SumZero(c.txns, InwardOf(b));
    SumZero(c.txns, OutwardOf(b));
  }

  /** Writing one movement changes the totals of its own batch only, by the difference: the update trigger is right
      because a movement never changes its batch. */
  lemma TotalsAfterPut(txns: map<Uuid, Txn>, id: Uuid, t: Txn, b: int)
    requires id in txns ==> txns[id].batch == t.batch
    ensures Sum(txns[id := t], InwardOf(b)) == Sum(txns, InwardOf(b)) +
              (if b == t.batch then t.inward - (if id in txns then txns[id].inward else 0.0) else 0.0)
    ensures Sum(txns[id := t], OutwardOf(b)) == Sum(txns, OutwardOf(b)) +
              (if b == t.batch then t.outward - (if id in txns then txns[id].outward else 0.0) else 0.0)
  {
    SumPut(txns, InwardOf(b), id, t);
    SumPut(txns, OutwardOf(b), id, t);
  }

  lemma TotalsAfterRemove(txns: map<Uuid, Txn>, id: Uuid, b: int)
    requires id in txns
    ensures Sum(txns - {id}, InwardOf(b)) == Sum(txns, InwardOf(b)) - (if b == txns[id].batch then txns[id].inward else 0.0)
    ensures Sum(txns - {id}, OutwardOf(b)) == Sum(txns, OutwardOf(b)) - (if b == txns[id].batch then txns[id].outward else 0.0)
  {
    SumTake(txns, InwardOf(b), id);
    SumTake(txns, OutwardOf(b), id);
  }

  /** The batches after the trigger of an insert or update of movement `id` has run. */
  function AfterPut(c: Core, id: Uuid, t: Txn): map<int, Batch>
    requires t.batch in c.batches
  {
    var was := if id in c.txns then SidesOf(c.txns[id]) else Sides(0.0, 0.0);
    c.batches[t.batch := Moved(c.batches[t.batch], t.inward - was.inward, t.outward - was.outward)]
  }

  /** Recording a movement (new, or changed in place) with the effect its trigger has keeps both levels exact. */
  lemma PutIsSound(c: Core, id: Uuid, t: Txn, row: StockRow)
    requires Sound(c) && t.batch in c.batches
    requires t.inventory == c.batches[t.batch].inventory && t.branch == c.batches[t.batch].branch
    requires id in c.txns ==> c.txns[id].batch == t.batch
    requires forall b :: b in c.batches && c.batches[b].txnId == id ==> b == t.batch
    requires c.inventories[t.inventory].allowNegative || AfterPut(c, id, t)[t.batch].Closing() >= 0.0
    requires row.stock == Sum(AfterPut(c, id, t), ClosingOf(t.branch, t.inventory))
    ensures Sound(c.(txns := c.txns[id := t], batches := AfterPut(c, id, t),
                      stock := c.stock[(t.branch, t.inventory) := row]))
  {
    hide StockExact, TotalsExact;
    RefreshKeepsStock(c.batches, c.stock, AfterPut(c, id, t), t.batch, row);
    PutKeepsTotals(c, id, t);
  }

  lemma PutKeepsTotals(c: Core, id: Uuid, t: Txn)
    requires TotalsExact(c.batches, c.txns) && t.batch in c.batches && (id in c.txns ==> c.txns[id].batch == t.batch)
    ensures TotalsExact(AfterPut(c, id, t), c.txns[id := t])
  {
    var batches := AfterPut(c, id, t);
    forall b | b in batches
      ensures batches[b].inward == Sum(c.txns[id := t], InwardOf(b))
      ensures batches[b].outward == Sum(c.txns[id := t], OutwardOf(b))
    {
      TotalsAfterPut(c.txns, id, t, b);
    }
  }

  /** The batches after the trigger of a delete has run, for a movement that owns no batch. */
  function AfterRemove(c: Core, id: Uuid): map<int, Batch>
    requires id in c.txns && c.txns[id].batch in c.batches
  {
    var t := c.txns[id];
    c.batches[t.batch := Moved(c.batches[t.batch], -t.inward, -t.outward)]
  }

  /** Removing a movement that owns no batch. */
  lemma RemoveIsSound(c: Core, id: Uuid, row: StockRow)
    requires Sound(c) && id in c.txns
    requires forall b :: b in c.batches ==> c.batches[b].txnId != id
    requires c.inventories[c.txns[id].inventory].allowNegative || AfterRemove(c, id)[c.txns[id].batch].Closing() >= 0.0
    requires row.stock == Sum(AfterRemove(c, id), ClosingOf(c.txns[id].branch, c.txns[id].inventory))
    ensures Sound(c.(txns := c.txns - {id}, batches := AfterRemove(c, id),
                      stock := c.stock[(c.txns[id].branch, c.txns[id].inventory) := row]))
  {
    var batches := AfterRemove(c, id);
    hide StockExact;
    RefreshKeepsStock(c.batches, c.stock, batches, c.txns[id].batch, row);
    forall b | b in batches
      ensures batches[b].inward == Sum(c.txns - {id}, InwardOf(b))
      ensures batches[b].outward == Sum(c.txns - {id}, OutwardOf(b))
    {
      TotalsAfterRemove(c.txns, id, b);
    }
  }

  /** Removing a movement together with the batch it owns, which no other movement names. */
  lemma RemoveOwnerIsSound(c: Core, items: map<ItemKey, Item>, id: Uuid, b: int, row: StockRow)
    requires Sound(c) && id in c.txns && b in c.batches && c.batches[b].txnId == id
    requires !Referenced(c.txns - {id}, items, b)
    requires row.stock == Sum(c.batches - {b}, ClosingOf(c.batches[b].branch, c.batches[b].inventory))
    ensures Sound(c.(txns := c.txns - {id}, batches := c.batches - {b},
                      stock := c.stock[(c.batches[b].branch, c.batches[b].inventory) := row]))
    ensures Lost(c.batches, c.batches - {b}, {id})
  {
    hide StockExact;
    RefreshKeepsStock(c.batches, c.stock, c.batches - {b}, b, row);
    assert forall t :: t in c.txns && t != id ==> t in c.txns - {id};
    forall d | d in c.batches - {b}
      ensures c.batches[d].inward == Sum(c.txns - {id}, InwardOf(d))
      ensures c.batches[d].outward == Sum(c.txns - {id}, OutwardOf(d))
    {
      TotalsAfterRemove(c.txns, id, d);
    }
  }

  /** Touching a batch without changing it is harmless. */
  lemma TouchIsSound(c: Core, b: int, row: StockRow)
    requires Sound(c) && b in c.batches
    requires row.stock == Sum(c.batches, ClosingOf(c.batches[b].branch, c.batches[b].inventory))
    ensures Sound(c.(stock := c.stock[(c.batches[b].branch, c.batches[b].inventory) := row]))
  {
    RefreshKeepsStock(c.batches, c.stock, c.batches, b, row);
  }

  // ---- lines ---------------------------------------------------------------------------------------------------

  /** Old batches stay, totals aside; new ones have new ids and are owned by the movements `ids`. */
  ghost predicate Grown(was: Core, now: Core, ids: set<Uuid>) {
    && was.nextBatch <= now.nextBatch
    && (forall b :: b in was.batches ==> b in now.batches && Shape(was.batches[b]) == Shape(now.batches[b]))
    && (forall b :: b in now.batches && b !in was.batches ==> now.batches[b].txnId in ids && b >= was.nextBatch)
  }

  /** The stored movement of a line: its batch, inventory, branch and sides. */
  ghost predicate MovementHeld(batches: map<int, Batch>, txns: map<Uuid, Txn>, k: Kind, branch: int, l: Line, s: Sides) {
    && l.id in txns
    && var t := txns[l.id];
    && t.inventory == l.inventory && t.branch == branch && SidesOf(t) == s
    && if OwnsBatch(k) then t.batch in batches && batches[t.batch].txnId == l.id else t.batch == l.batch
  }

  /** Writing one line and its movement keeps lines and movements in step. */
  lemma LineKeepsItems(db: Db, now: Db, o: Owner, branch: int, l: Line)
    requires Consistent(db) && Sound(now.core) && now.docs == db.docs
    requires OwnerBranch(db.docs, o) == Some(branch) && (o.OpeningOf? ==> o.inventory == l.inventory)
    requires (o.OfKind(), l.id) !in db.items ==> l.id !in db.core.txns
    requires now.items == db.items[(o.OfKind(), l.id) := ItemOf(o, l)]
    requires l.id in now.core.txns && now.core.txns == db.core.txns[l.id := now.core.txns[l.id]]
    requires Grown(db.core, now.core, {l.id})
    requires MovementHeld(now.core.batches, now.core.txns, o.OfKind(), branch, l, SidesOf(now.core.txns[l.id]))
    requires OwnsBatch(o.OfKind()) ==> now.core.txns[l.id].outward == 0.0
    requires o.OfKind() in {Sale, CreditNote, Deduction} ==> now.core.txns[l.id].inward == 0.0
    requires !OwnsBatch(o.OfKind()) ==> now.core.batches.Keys == db.core.batches.Keys
    requires o.OfKind() == Addition && l.source.Some? ==> l.source.value in db.core.batches
    ensures Consistent(now)
  {
    hide Sound, ItemOk, OneLineEach, MovementHeld, Grown, BatchesOwned, OwnsNone;
    var key := (o.OfKind(), l.id);
    ConsistentFacts(db);
    OldBatchesStay(db.core, now.core, {l.id});
    if !OwnsBatch(o.OfKind()) {
      StillOwnsNone(db, now, key);
    }
    NewLineOk(now, o, branch, l);
    OneLineStays(db, key, ItemOf(o, l));
    forall k | k in now.items ensures ItemOk(now.core.batches, now.core.txns, now.docs, k, now.items[k]) {
      if k != key {
        LineFacts(db, k);
        OneLine(now.items, k, key);
        ItemStays(db.core, now.core, db.docs, k, db.items[k], {l.id});
      }
    }
    OwnersStay(db.core, now.core, l.id);
  }

  lemma OldBatchesStay(was: Core, now: Core, ids: set<Uuid>)
    requires Grown(was, now, ids)
    ensures was.batches.Keys <= now.batches.Keys
    ensures forall b :: b in was.batches ==> b in now.batches && was.batches[b].txnId == now.batches[b].txnId
  {
    forall b | b in was.batches ensures b in now.batches && was.batches[b].txnId == now.batches[b].txnId {
      assert Shape(was.batches[b]) == Shape(now.batches[b]);
    }
  }

  /** A line that draws on a batch owns none, new or kept. */
  lemma StillOwnsNone(db: Db, now: Db, key: ItemKey)
    requires Consistent(db) && (key !in db.items ==> key.1 !in db.core.txns) && !OwnsBatch(key.0)
    requires now.core.batches.Keys == db.core.batches.Keys
    requires forall b :: b in db.core.batches ==> db.core.batches[b].txnId == now.core.batches[b].txnId
    ensures OwnsNone(now.core.batches, key.1)
  {
    hide Sound;
    ConsistentFacts(db);
    if key in db.items {
      LineFacts(db, key);
    }
  }

  lemma NewLineOk(now: Db, o: Owner, branch: int, l: Line)
    requires Sound(now.core) && l.id in now.core.txns
    requires OwnerBranch(now.docs, o) == Some(branch) && (o.OpeningOf? ==> o.inventory == l.inventory)
    requires MovementHeld(now.core.batches, now.core.txns, o.OfKind(), branch, l, SidesOf(now.core.txns[l.id]))
    requires OwnsBatch(o.OfKind()) ==> now.core.txns[l.id].outward == 0.0
    requires o.OfKind() in {Sale, CreditNote, Deduction} ==> now.core.txns[l.id].inward == 0.0
    requires !OwnsBatch(o.OfKind()) ==> OwnsNone(now.core.batches, l.id)
    requires o.OfKind() == Addition && l.source.Some? ==> l.source.value in now.core.batches
    ensures ItemOk(now.core.batches, now.core.txns, now.docs, (o.OfKind(), l.id), ItemOf(o, l))
  {
    hide Sound;
    MovementFacts(now.core, l.id);
  }

  /** A line whose movement is untouched stays in step while other batches come. */
  lemma ItemStays(was: Core, now: Core, docs: map<(Kind, int), Doc>, k: ItemKey, it: Item, ids: set<Uuid>)
    requires ItemOk(was.batches, was.txns, docs, k, it)
    requires k.1 in now.txns && now.txns[k.1] == was.txns[k.1]
    requires Grown(was, now, ids) && k.1 !in ids
    ensures ItemOk(now.batches, now.txns, docs, k, it)
  {
    OldBatchesStay(was, now, ids);
  }

  lemma OwnersStay(was: Core, now: Core, id: Uuid)
    requires BatchesOwned(was.batches, was.txns) && Grown(was, now, {id})
    requires id in now.txns && now.txns == was.txns[id := now.txns[id]]
    ensures BatchesOwned(now.batches, now.txns)
  {
    forall b | b in now.batches ensures now.batches[b].txnId in now.txns {
      assert b in was.batches ==> Shape(was.batches[b]) == Shape(now.batches[b]);
    }
  }

  lemma OneLine(items: map<ItemKey, Item>, k: ItemKey, j: ItemKey)
    requires OneLineEach(items) && k in items && j in items && k != j
    ensures k.1 != j.1
  {
  }

  lemma OneLineStays(db: Db, key: ItemKey, it: Item)
    requires Consistent(db) && (key !in db.items ==> key.1 !in db.core.txns)
    ensures OneLineEach(db.items[key := it])
  {
    hide Sound;
    forall k | k in db.items ensures k.1 in db.core.txns {
      assert ItemOk(db.core.batches, db.core.txns, db.docs, k, db.items[k]);
    }
  }

  lemma ConsistentFacts(db: Db)
    requires Consistent(db)
    ensures Sound(db.core)
    ensures forall b :: b in db.core.batches ==> db.core.batches[b].txnId in db.core.txns
    ensures forall k :: k in db.items ==> k.1 in db.core.txns
  {
    hide Sound;
    forall k | k in db.items ensures k.1 in db.core.txns {
      assert ItemOk(db.core.batches, db.core.txns, db.docs, k, db.items[k]);
    }
  }

  /** What a stored line says about its movement and batch. */
  lemma LineFacts(db: Db, k: ItemKey)
    requires Consistent(db) && k in db.items
    ensures ItemOk(db.core.batches, db.core.txns, db.docs, k, db.items[k])
  {
    hide Sound;
  }

  function IdsOf(lines: seq<Line>): set<Uuid> { set l | l in lines :: l.id }

  function KeysOf(k: Kind, lines: seq<Line>): set<ItemKey> { set l | l in lines :: (k, l.id) }

  predicate DistinctIds(lines: seq<Line>) { forall i, j :: 0 <= i < j < |lines| ==> lines[i].id != lines[j].id }

  /** The lines of an owner, as stored. */
  function LinesOf(items: map<ItemKey, Item>, o: Owner): set<ItemKey> { set k | k in items && items[k].owner == o }

  /** May this line be written by the update of `o`'s lines: is its id the one of a line of `o` on the same
      inventory and batch, or is it new? */
  ghost predicate Fits(items: map<ItemKey, Item>, txns: map<Uuid, Txn>, o: Owner, l: Line) {
    var key := (o.OfKind(), l.id);
    if key in items then items[key].owner == o && SameKey(items[key], l) else l.id !in txns
  }

  /** The key of the diff: inventory, and batch where the caller names one. */
  predicate SameKey(it: Item, l: Line) {
    it.inventory == l.inventory && (it.batch.Some? ==> it.batch.value == l.batch)
  }

  function IdsIn(keys: set<ItemKey>): set<Uuid> { set k | k in keys :: k.1 }

  /** Stored lines of `o` that the target list does not name with the same key. */
  function Missed(items: map<ItemKey, Item>, o: Owner, lines: seq<Line>): set<ItemKey> {
    set k | k in items && items[k].owner == o && !exists l | l in lines :: l.id == k.1 && SameKey(items[k], l)
  }

  /** The ids of the target list are distinct, and each is new or the id of a line of this owner. */
  ghost predicate OwnIds(items: map<ItemKey, Item>, txns: map<Uuid, Txn>, o: Owner, lines: seq<Line>) {
    && DistinctIds(lines)
    && forall l :: l in lines ==>
        if (o.OfKind(), l.id) in items then items[(o.OfKind(), l.id)].owner == o else l.id !in txns
  }

  /** `now` is `was` with the lines of `o` replaced by `lines`, each moving `sides(line)`; everything else is as it was. */
  ghost predicate Written(was: Db, now: Db, o: Owner, branch: int, lines: seq<Line>, sides: Line -> Sides) {
    var gone, k := LinesOf(was.items, o), o.OfKind();
    && DistinctIds(lines)
    && now.core.inventories == was.core.inventories
    && LinesOf(now.items, o) == KeysOf(k, lines)
    && now.items - KeysOf(k, lines) == was.items - gone
    && now.core.txns - IdsOf(lines) == was.core.txns - IdsIn(gone)
    && (forall b :: b in was.core.batches && was.core.batches[b].txnId !in IdsIn(gone) ==> b in now.core.batches)
    && (forall b :: b in was.core.batches && b in now.core.batches ==>
          Shape(was.core.batches[b]) == Shape(now.core.batches[b]))
    && (forall b :: b in now.core.batches && b !in was.core.batches ==> now.core.batches[b].txnId in IdsOf(lines))
    && LinesHeld(now, o, branch, lines, sides)
  }

  /** `now` is `was` without the lines of `o`. */
  ghost predicate Erased(was: Db, now: Db, o: Owner) {
    var gone := LinesOf(was.items, o);
    && now.core.inventories == was.core.inventories
    && now.items == was.items - gone
    && now.core.txns == was.core.txns - IdsIn(gone)
    && Lost(was.core.batches, now.core.batches, IdsIn(gone))
  }

  ghost predicate SourcesKnown(items: map<ItemKey, Item>, batches: map<int, Batch>) {
    forall k :: k in items && items[k].source.Some? ==> items[k].source.value in batches
  }

  lemma SourcesStart(db: Db, keys: set<ItemKey>)
    requires Consistent(db)
    ensures SourcesKnown(db.items - keys, db.core.batches)
  {
    hide Sound;
    forall k | k in db.items - keys && db.items[k].source.Some? ensures db.items[k].source.value in db.core.batches {
      LineFacts(db, k);
    }
  }

  /** Only batches that no line names go. */
  lemma SourcesStay(items: map<ItemKey, Item>, was: map<int, Batch>, now: map<int, Batch>, txns: map<Uuid, Txn>)
    requires SourcesKnown(items, was) && forall b :: b in was && b !in now ==> !Referenced(txns, items, b)
    ensures SourcesKnown(items, now)
  {
    forall k | k in items && items[k].source.Some? ensures items[k].source.value in now {
      assert Referenced(txns, items, items[k].source.value);
    }
  }

  /** Removing lines with their movements, and the batches those own, keeps the rest in step. */
  lemma LinesGone(db: Db, now: Db, keys: set<ItemKey>)
    requires Consistent(db) && Sound(now.core) && now.docs == db.docs && keys <= db.items.Keys
    requires now.items == db.items - keys && now.core.txns == db.core.txns - IdsIn(keys)
    requires Lost(db.core.batches, now.core.batches, IdsIn(keys)) && SourcesKnown(now.items, now.core.batches)
    ensures Consistent(now)
  {
    hide Sound, OneLineEach;
    ConsistentFacts(db);
    forall k | k in now.items ensures ItemOk(now.core.batches, now.core.txns, now.docs, k, now.items[k]) {
      LineFacts(db, k);
      forall j | j in keys ensures j.1 != k.1 {
        OneLine(db.items, k, j);
      }
      MovementFacts(now.core, k.1);
    }
    assert OneLineEach(now.items) by { FewerLines(db.items, now.items); }
  }

  lemma FewerLines(was: map<ItemKey, Item>, now: map<ItemKey, Item>)
    requires OneLineEach(was) && now.Keys <= was.Keys
    ensures OneLineEach(now)
  {
  }

  /** A batch that something outside the removed lines names. */
  predicate DrawnOn(txns: map<Uuid, Txn>, items: map<ItemKey, Item>, keys: set<ItemKey>, id: Uuid) {
    id in txns && Referenced(txns - {id}, items - keys, txns[id].batch)
  }

  /** Lines that own their batch never name each other's, so the order of removal does not matter. */
  lemma OwnersDoNotShare(db: Db, keys: set<ItemKey>, done: set<Uuid>, id: Uuid)
    requires Consistent(db) && keys <= db.items.Keys && (forall k :: k in keys ==> OwnsBatch(k.0))
    requires done <= IdsIn(keys) && id in IdsIn(keys) && id !in done
    ensures id in db.core.txns && db.core.txns[id].batch in db.core.batches
    ensures db.core.batches[db.core.txns[id].batch].txnId == id
    ensures DrawnOn(db.core.txns, db.items, keys, id)
        <==> Referenced(db.core.txns - done - {id}, db.items - keys, db.core.txns[id].batch)
  {
    hide Sound, OneLineEach;
    forall k | k in keys ensures ItemOk(db.core.batches, db.core.txns, db.docs, k, db.items[k]) {
      LineFacts(db, k);
    }
    var b := db.core.txns[id].batch;
    forall t | t in done && t in db.core.txns ensures db.core.txns[t].batch != b {
      assert exists k :: k in keys && k.1 == t;
    }
    var few, all := db.core.txns - done - {id}, db.core.txns - {id};
    assert forall t :: t in few ==> t in all && all[t] == few[t];
    assert forall t :: t in all && all[t].batch == b ==> t in few;
  }

  /** Each line of the list is stored as sent, and its movement has the sides `sides(line)`. */
  ghost predicate LinesHeld(now: Db, o: Owner, branch: int, lines: seq<Line>, sides: Line -> Sides) {
    forall l :: l in lines ==>
      && (o.OfKind(), l.id) in now.items && now.items[(o.OfKind(), l.id)] == ItemOf(o, l)
      && MovementHeld(now.core.batches, now.core.txns, o.OfKind(), branch, l, sides(l))
  }

  /** Part way through a loop over lines: `base` with the lines `done` written. */
  ghost predicate Progress(base: Db, now: Db, o: Owner, done: seq<Line>) {
    && now.core.inventories == base.core.inventories && now.docs == base.docs
    && Overlay(base.items, now.items, KeysOf(o.OfKind(), done))
    && Overlay(base.core.txns, now.core.txns, IdsOf(done))
    && Grown(base.core, now.core, IdsOf(done))
  }

  /** What writing one line changes. */
  ghost predicate OneStep(before: Db, now: Db, o: Owner, branch: int, l: Line, s: Sides) {
    && now.core.inventories == before.core.inventories && now.docs == before.docs
    && now.items == before.items[(o.OfKind(), l.id) := ItemOf(o, l)]
    && l.id in now.core.txns && now.core.txns == before.core.txns[l.id := now.core.txns[l.id]]
    && Grown(before.core, now.core, {l.id})
    && MovementHeld(now.core.batches, now.core.txns, o.OfKind(), branch, l, s)
  }

  lemma ProgressStep(base: Db, before: Db, now: Db, o: Owner, branch: int, done: seq<Line>, l: Line, s: Sides)
    requires Progress(base, before, o, done)
    requires OneStep(before, now, o, branch, l, s)
    ensures Progress(base, now, o, done + [l])
  {
    hide MovementHeld, Overlay, Grown, ItemOf;
    assert IdsOf(done + [l]) == IdsOf(done) + {l.id};
    assert KeysOf(o.OfKind(), done + [l]) == KeysOf(o.OfKind(), done) + {(o.OfKind(), l.id)};
    OverlayStep(base.items, before.items, KeysOf(o.OfKind(), done), (o.OfKind(), l.id), ItemOf(o, l));
    OverlayStep(base.core.txns, before.core.txns, IdsOf(done), l.id, now.core.txns[l.id]);
    GrownOn(base.core, before.core, now.core, IdsOf(done), {l.id});
  }

  lemma GrownOn(base: Core, before: Core, now: Core, ids: set<Uuid>, more: set<Uuid>)
    requires Grown(base, before, ids) && Grown(before, now, more)
    ensures Grown(base, now, ids + more)
  {
    forall b | b in now.batches && b !in base.batches ensures now.batches[b].txnId in ids + more && b >= base.nextBatch {
      assert b in before.batches ==> Shape(before.batches[b]) == Shape(now.batches[b]);
    }
  }

  lemma HeldStep(before: Db, now: Db, o: Owner, branch: int, done: seq<Line>, l: Line, sides: Line -> Sides)
    requires LinesHeld(before, o, branch, done, sides) && l.id !in IdsOf(done)
    requires OneStep(before, now, o, branch, l, sides(l))
    ensures LinesHeld(now, o, branch, done + [l], sides)
  {
    forall x | x in done
      ensures (o.OfKind(), x.id) in now.items && now.items[(o.OfKind(), x.id)] == ItemOf(o, x)
      ensures MovementHeld(now.core.batches, now.core.txns, o.OfKind(), branch, x, sides(x))
    {
      assert x.id in IdsOf(done);
      assert MovementHeld(before.core.batches, before.core.txns, o.OfKind(), branch, x, sides(x));
    }
  }

  /** The diff: which stored lines the target list keeps, and which it drops. */
  lemma DiffSets(was: Db, o: Owner, lines: seq<Line>)
    requires Consistent(was) && OwnIds(was.items, was.core.txns, o, lines)
    ensures var gone, missed, keys := LinesOf(was.items, o), Missed(was.items, o, lines), KeysOf(o.OfKind(), lines);
            missed <= gone && gone - missed <= keys && keys * was.items.Keys <= gone
    ensures var gone, missed, ids := IdsIn(LinesOf(was.items, o)), IdsIn(Missed(was.items, o, lines)), IdsOf(lines);
            missed <= gone && gone - missed <= ids && ids * was.core.txns.Keys <= gone
  {
    hide Sound, OneLineEach;
    var gone, missed, k := LinesOf(was.items, o), Missed(was.items, o, lines), o.OfKind();
    var keys, ids := KeysOf(k, lines), IdsOf(lines);
    ConsistentFacts(was);
    forall x | x in gone && x !in missed ensures x in keys && x.1 in ids {
      LineFacts(was, x);
      var l :| l in lines && l.id == x.1;
      assert (k, l.id) == x;
    }
    forall x | x in keys && x in was.items ensures x in gone {
      var l :| l in lines && (k, l.id) == x;
    }
    forall x | x in ids && x in was.core.txns ensures x in IdsIn(gone) {
      var l :| l in lines && l.id == x;
      assert (k, x) in keys;
    }
    forall x | x in IdsIn(gone) && x !in IdsIn(missed) ensures x in ids {
      var y :| y in gone && y.1 == x;
    }
  }

  /** Removing what the target list misses and writing the list leaves exactly the list. */
  lemma ProgressDone(was: Db, base: Db, now: Db, o: Owner, branch: int, lines: seq<Line>, sides: Line -> Sides)
    requires Consistent(was) && OwnIds(was.items, was.core.txns, o, lines)
    requires base.core.inventories == was.core.inventories
    requires base.items == was.items - Missed(was.items, o, lines)
    requires base.core.txns == was.core.txns - IdsIn(Missed(was.items, o, lines))
    requires Lost(was.core.batches, base.core.batches, IdsIn(Missed(was.items, o, lines)))
    requires base.core.nextBatch == was.core.nextBatch
    requires Progress(base, now, o, lines) && LinesHeld(now, o, branch, lines, sides)
    ensures Written(was, now, o, branch, lines, sides)
  {
    ConsistentFacts(was);
    assert IdsBelow(was.core.batches, was.core.nextBatch);
    hide Consistent, Sound, MovementHeld, LinesHeld, Missed, LinesOf, OwnIds;
    var gone, missed, keys := LinesOf(was.items, o), Missed(was.items, o, lines), KeysOf(o.OfKind(), lines);
    DiffSets(was, o, lines);
    OverlayWithout(was.items, now.items, missed, gone, keys);
    OverlayWithout(was.core.txns, now.core.txns, IdsIn(missed), IdsIn(gone), IdsOf(lines));
    LinesNow(was, now, o, branch, lines, sides);
    OwnDistinct(was, o, lines);
    BatchesThrough(was.core, base.core, now.core, IdsIn(missed), IdsOf(lines));
  }

  lemma OwnDistinct(was: Db, o: Owner, lines: seq<Line>)
    requires OwnIds(was.items, was.core.txns, o, lines)
    ensures DistinctIds(lines)
  {
  }

  /** Exactly the list belongs to the owner. */
  lemma LinesNow(was: Db, now: Db, o: Owner, branch: int, lines: seq<Line>, sides: Line -> Sides)
    requires LinesHeld(now, o, branch, lines, sides)
    requires now.items - KeysOf(o.OfKind(), lines) == was.items - LinesOf(was.items, o)
    ensures LinesOf(now.items, o) == KeysOf(o.OfKind(), lines)
  {
    hide MovementHeld;
    var keys, gone := KeysOf(o.OfKind(), lines), LinesOf(was.items, o);
    forall x | x in now.items ensures now.items[x].owner == o <==> x in keys {
      if x in keys {
        var l :| l in lines && (o.OfKind(), l.id) == x;
      } else {
        assert x in now.items - keys && x in was.items - gone;
      }
    }
    forall x | x in keys ensures x in now.items {
      var l :| l in lines && (o.OfKind(), l.id) == x;
    }
  }

  lemma BatchesThrough(was: Core, base: Core, now: Core, ids: set<Uuid>, added: set<Uuid>)
    requires IdsBelow(was.batches, was.nextBatch) && was.nextBatch == base.nextBatch
    requires Lost(was.batches, base.batches, ids) && Grown(base, now, added)
    ensures forall b :: b in was.batches && was.batches[b].txnId !in ids ==> b in now.batches
    ensures forall b :: b in was.batches && b in now.batches ==> Shape(was.batches[b]) == Shape(now.batches[b])
    ensures forall b :: b in now.batches && b !in was.batches ==> now.batches[b].txnId in added
  {
    forall b | b in was.batches && was.batches[b].txnId !in ids ensures b in now.batches {
      assert b in base.batches;
    }
  }

  lemma FitsAfterDiff(was: Db, o: Owner, lines: seq<Line>, l: Line)
    requires Consistent(was) && OwnIds(was.items, was.core.txns, o, lines) && l in lines
    ensures var missed := Missed(was.items, o, lines);
            Fits(was.items - missed, was.core.txns - IdsIn(missed), o, l)
  {
    hide Sound;
    var key, missed := (o.OfKind(), l.id), Missed(was.items, o, lines);
    ConsistentFacts(was);
    if key in was.items && key !in missed {
      var m :| m in lines && m.id == key.1 && SameKey(was.items[key], m);
      assert m == l;
    }
  }

  lemma FitsStays(base: Db, now: Db, o: Owner, done: seq<Line>, l: Line)
    requires Fits(base.items, base.core.txns, o, l) && l.id !in IdsOf(done)
    requires Progress(base, now, o, done)
    ensures Fits(now.items, now.core.txns, o, l)
    ensures l.id in now.core.txns <==> l.id in base.core.txns
    ensures l.id in base.core.txns ==> now.core.txns[l.id] == base.core.txns[l.id]
  {
    assert (o.OfKind(), l.id) in KeysOf(o.OfKind(), done) ==> exists m :: m in done && m.id == l.id;
  }

  /** Headers may change as long as the documents that have lines keep their branch. */
  lemma HeadersChange(db: Db, docs: map<(Kind, int), Doc>)
    requires Consistent(db)
    requires forall k :: k in db.items ==> OwnerBranch(docs, db.items[k].owner) == OwnerBranch(db.docs, db.items[k].owner)
    ensures Consistent(db.(docs := docs))
  {
    hide Sound, OneLineEach;
    forall k | k in db.items ensures ItemOk(db.core.batches, db.core.txns, docs, k, db.items[k]) {
      LineFacts(db, k);
    }
  }

  /** The movements left when the update of `o` to `lines` has dropped the lines the list misses. */
  function Kept(was: Db, o: Owner, lines: seq<Line>): map<Uuid, Txn> {
    was.core.txns - IdsIn(Missed(was.items, o, lines))
  }

  function CreatedBy(inventories: map<int, Inventory>, k: Kind): Line -> Sides { l => CreatedSides(inventories, k, l) }

  function UpdatedFrom(kept: map<Uuid, Txn>, inventories: map<int, Inventory>, k: Kind): Line -> Sides {
    l => UpdatedSides(kept, inventories, k, l)
  }

  function UpdatedBy(was: Db, o: Owner, lines: seq<Line>): Line -> Sides {
    UpdatedFrom(Kept(was, o, lines), was.core.inventories, o.OfKind())
  }

  lemma NothingYet(base: Db, o: Owner)
    ensures Progress(base, base, o, [])
  {
    assert KeysOf(o.OfKind(), []) == {} && IdsOf([]) == {};
  }

  lemma MissedIsOwn(db: Db, o: Owner, lines: seq<Line>)
    requires Consistent(db)
    ensures Missed(db.items, o, lines) <= db.items.Keys
    ensures forall k :: k in Missed(db.items, o, lines) ==> k.0 == o.OfKind()
  {
    hide Sound;
    forall k | k in Missed(db.items, o, lines) ensures k.0 == o.OfKind() {
      LineFacts(db, k);
    }
  }

  lemma DistinctStep(was: Db, o: Owner, lines: seq<Line>, i: nat)
    requires OwnIds(was.items, was.core.txns, o, lines) && i < |lines|
    ensures lines[i].id !in IdsOf(lines[..i])
  {
  }

  /** Lines that were created: their ids are distinct and new. */
  ghost predicate Fresh(base: Db, o: Owner, done: seq<Line>) {
    && DistinctIds(done)
    && forall l :: l in done ==> (o.OfKind(), l.id) !in base.items && l.id !in base.core.txns
  }

  lemma FreshStep(base: Db, before: Db, o: Owner, done: seq<Line>, l: Line)
    requires Fresh(base, o, done) && Progress(base, before, o, done)
    requires (o.OfKind(), l.id) !in before.items && l.id !in before.core.txns
    ensures l.id !in IdsOf(done) && Fresh(base, o, done + [l])
  {
    assert l.id !in base.core.txns && (o.OfKind(), l.id) !in base.items;
    forall x | x in done ensures x.id != l.id {
      assert x.id in IdsOf(done);
    }
  }

  lemma FreshIsOwn(base: Db, o: Owner, lines: seq<Line>)
    requires Fresh(base, o, lines) && LinesOf(base.items, o) == {}
    ensures OwnIds(base.items, base.core.txns, o, lines)
    ensures Missed(base.items, o, lines) == {}
    ensures IdsIn({}) == {} && base.items - {} == base.items && base.core.txns - {} == base.core.txns
  {
    forall k | k in base.items ensures base.items[k].owner != o {
      assert base.items[k].owner == o ==> k in LinesOf(base.items, o);
    }
  }

  /** The deductions an addition asks to approve: those of that voucher, at the other branch, not yet approved. */
  predicate Approvable(k: (Kind, int), d: Doc, voucher: int, altBranch: Option<int>) {
    k.0 == Deduction && d.voucher == voucher && !d.approved && altBranch == Some(d.branch)
  }

  function Approve(docs: map<(Kind, int), Doc>, voucher: int, altBranch: Option<int>): map<(Kind, int), Doc> {
    map k | k in docs :: if Approvable(k, docs[k], voucher, altBranch) then docs[k].(approved := true) else docs[k]
  }

  function AtInventory(lines: seq<Line>, inventory: int): (r: seq<Line>)
    ensures |r| == |lines|
    ensures forall i :: 0 <= i < |lines| ==> r[i] == lines[i].(inventory := inventory)
    ensures forall l :: l in r ==> l.inventory == inventory
  {
    if lines == [] then [] else [lines[0].(inventory := inventory)] + AtInventory(lines[1..], inventory)
  }

  lemma NewHeader(db: Db, docs: map<(Kind, int), Doc>, k: (Kind, int))
    requires Consistent(db) && k !in db.docs && k in docs && k.0 != Opening
    requires forall x :: x in db.docs ==> x in docs && docs[x].branch == db.docs[x].branch
    ensures Consistent(db.(docs := docs))
    ensures LinesOf(db.items, Document(k.0, k.1)) == {}
  {
    hide Sound, OneLineEach;
    forall x | x in db.items
      ensures db.items[x].owner != Document(k.0, k.1)
      ensures OwnerBranch(docs, db.items[x].owner) == OwnerBranch(db.docs, db.items[x].owner)
    {
      LineFacts(db, x);
    }
    HeadersChange(db, docs);
  }

  lemma SameHeaders(db: Db, docs: map<(Kind, int), Doc>)
    requires Consistent(db)
    requires docs.Keys == db.docs.Keys && forall x :: x in docs ==> docs[x].branch == db.docs[x].branch
    ensures Consistent(db.(docs := docs))
  {
    hide Consistent;
    HeadersChange(db, docs);
  }

  lemma WrittenFromHeaders(was: Db, headed: Db, now: Db, o: Owner, branch: int, lines: seq<Line>, sides: Line -> Sides)
    requires headed.core == was.core && headed.items == was.items
    requires exists s :: Written(headed, now, o, branch, lines, s) && forall l :: s(l) == sides(l)
    ensures Written(was, now, o, branch, lines, sides)
  {
    hide MovementHeld;
  }

  lemma KeptFromHeaders(was: Db, headed: Db, o: Owner, lines: seq<Line>)
    requires headed.core == was.core && headed.items == was.items
    ensures Kept(was, o, lines) == Kept(headed, o, lines)
  {
  }

  lemma OwnKinds(db: Db, o: Owner)
    requires Consistent(db)
    ensures LinesOf(db.items, o) <= db.items.Keys
    ensures forall k :: k in LinesOf(db.items, o) ==> k.0 == o.OfKind()
  {
    hide Sound;
    forall k | k in LinesOf(db.items, o) ensures k.0 == o.OfKind() {
      LineFacts(db, k);
    }
  }

  lemma HeaderGone(was: Db, bare: Db, k: (Kind, int))
    requires Consistent(bare) && bare.docs == was.docs
    requires bare.items == was.items - LinesOf(was.items, Document(k.0, k.1))
    ensures Consistent(bare.(docs := bare.docs - {k}))
  {
    hide Consistent;
    forall x | x in bare.items
      ensures OwnerBranch(bare.docs - {k}, bare.items[x].owner) == OwnerBranch(bare.docs, bare.items[x].owner)
    {
      assert x !in LinesOf(was.items, Document(k.0, k.1));
    }
    HeadersChange(bare, bare.docs - {k});
  }

  lemma OpeningIds(db: Db, o: Owner, lines: seq<Line>)
    requires o.OpeningOf? && OwnIds(db.items, db.core.txns, o, lines)
    ensures OwnIds(db.items, db.core.txns, o, AtInventory(lines, o.inventory))
  {
    var r := AtInventory(lines, o.inventory);
    forall l | l in r
      ensures if (o.OfKind(), l.id) in db.items then db.items[(o.OfKind(), l.id)].owner == o else l.id !in db.core.txns
    {
      var i :| 0 <= i < |r| && r[i] == l;
      assert lines[i] in lines;
    }
  }
}
