/** Merging one inventory into another: what the row updates leave behind. */
module StockMerge {
  import opened Options
  import opened Sums
  import opened StockModel
  import opened StockTheorems
  import opened StockGuards

  function MovedBatches(batches: map<int, Batch>, dest: int, src: int): map<int, Batch> {
    map b | b in batches :: if batches[b].inventory == src then batches[b].(inventory := dest) else batches[b]
  }

  function MovedTxns(txns: map<Uuid, Txn>, dest: int, src: int, reorder: int): map<Uuid, Txn> {
    map t | t in txns ::
      if txns[t].inventory == src then txns[t].(inventory := dest, reorder := reorder) else txns[t]
  }

  function MovedOwner(o: Owner, dest: int, src: int): Owner {
    if o.OpeningOf? && o.inventory == src then o.(inventory := dest) else o
  }

  function MovedItems(items: map<ItemKey, Item>, dest: int, src: int): map<ItemKey, Item> {
    map k | k in items ::
      if items[k].inventory == src then items[k].(inventory := dest, owner := MovedOwner(items[k].owner, dest, src))
      else items[k]
  }

  /** Every row of the source is the destination's now, and nothing else about it has changed but what a movement is reordered
      as. */
  ghost predicate Renamed(was: Db, now: Db, dest: int, src: int)
    requires dest in was.core.inventories
  {
    && now.core.batches.Keys == was.core.batches.Keys && now.core.txns.Keys == was.core.txns.Keys && now.items.Keys == was.items.Keys
    && (forall b :: b in was.core.batches ==>
          now.core.batches[b] == if was.core.batches[b].inventory == src then was.core.batches[b].(inventory := dest)
                                 else was.core.batches[b])
    && (forall t :: t in was.core.txns ==>
          now.core.txns[t] == if was.core.txns[t].inventory != src then was.core.txns[t]
                              else match was.core.inventories[dest].reorder
                                   case Some(i) => was.core.txns[t].(inventory := dest, reorder := i)
                                   case None => was.core.txns[t].(inventory := dest, reorder := dest))
    && (forall k :: k in was.items ==>
          now.items[k] == if was.items[k].inventory != src then was.items[k]
                          else match was.items[k].owner
                               case OpeningOf(i, branch, warehouse) =>
                                 was.items[k].(inventory := dest, owner := OpeningOf(if i == src then dest else i, branch, warehouse))
                               case Document(_, _) => was.items[k].(inventory := dest))
  }

  lemma RenamedAll(was: Db, now: Db, dest: int, src: int)
    requires dest in was.core.inventories && now.core.batches == MovedBatches(was.core.batches, dest, src)
    requires now.core.txns == MovedTxns(was.core.txns, dest, src, ReorderFor(was.core.inventories, dest))
    requires now.items == MovedItems(was.items, dest, src)
    ensures Renamed(was, now, dest, src)
  {
    forall k | k in was.items ensures now.items[k] == MovedItems(was.items, dest, src)[k] {}
  }

  /** Rows of the stock table for other inventories are the same. */
  ghost predicate SameRows(m: map<(int, int), StockRow>, n: map<(int, int), StockRow>, but: set<int>) {
    forall br, inv :: inv !in but ==>
      ((br, inv) in m <==> (br, inv) in n) && ((br, inv) in m ==> m[(br, inv)] == n[(br, inv)])
  }

  /** Has a movement of `done` at this branch been visited? */
  ghost predicate VisitedAt(txns: map<Uuid, Txn>, done: set<Uuid>, br: int) {
    exists t :: t in done && t in txns && txns[t].branch == br
  }

  /** The destination's stock rows while the movements are rewritten: branches whose movements have been visited show the
      merged sum, the others still have their old row. */
  ghost predicate Visited(was: Core, batches: map<int, Batch>, stock: map<(int, int), StockRow>, dest: int, reorder: int,
                          done: set<Uuid>) {
    forall br ::
      if VisitedAt(was.txns, done, br)
      then (br, dest) in stock && stock[(br, dest)] == StockRow(Sum(batches, ClosingOf(br, dest)), reorder)
      else ((br, dest) in stock <==> (br, dest) in was.stock) && ((br, dest) in stock ==> stock[(br, dest)] == was.stock[(br, dest)])
  }

  lemma VisitOne(was: Core, batches: map<int, Batch>, stock: map<(int, int), StockRow>, dest: int, reorder: int,
                 done: set<Uuid>, t: Uuid)
    requires Visited(was, batches, stock, dest, reorder, done) && t in was.txns
    ensures var br := was.txns[t].branch;
            Visited(was, batches, stock[(br, dest) := StockRow(Sum(batches, ClosingOf(br, dest)), reorder)], dest, reorder, done + {t})
  {
    forall br ensures VisitedAt(was.txns, done + {t}, br) <==> VisitedAt(was.txns, done, br) || br == was.txns[t].branch {
      assert t in done + {t};
    }
  }

  /** The rows to rewrite. */
  function Moving(txns: map<Uuid, Txn>, src: int): set<Uuid> { set t | t in txns && txns[t].inventory == src }

  /** Batches no movement names close at zero. */
  lemma IdleSourceIsZero(c: Core, src: int, br: int)
    requires Sound(c)
    requires forall t :: t in c.txns && c.txns[t].inventory == src ==> c.txns[t].branch != br
    ensures Sum(c.batches, ClosingOf(br, src)) == 0.0
  {
    forall b | b in c.batches ensures ClosingOf(br, src)(b, c.batches[b]) == 0.0 {
      if c.batches[b].branch == br && c.batches[b].inventory == src {
        ClosingIsNet(c, b);
        forall t | t in c.txns ensures NetOf(b)(t, c.txns[t]) == 0.0 {
          MovementFacts(c, t);
        }
        SumZero(c.txns, NetOf(b));
      }
    }
    SumZero(c.batches, ClosingOf(br, src));
  }

  /** After the batches have been renamed, a branch's destination sum is the two old sums together, and nothing is left
      of the source. */
  lemma MovedSums(batches: map<int, Batch>, dest: int, src: int, br: int, inv: int)
    requires dest != src
    ensures var now := Sum(MovedBatches(batches, dest, src), ClosingOf(br, inv));
            now == (if inv == src then 0.0
                    else if inv == dest then Sum(batches, ClosingOf(br, dest)) + Sum(batches, ClosingOf(br, src))
                    else Sum(batches, ClosingOf(br, inv)))
  {
    var m := MovedBatches(batches, dest, src);
    assert m.Keys == batches.Keys;
    if inv == src {
      SumZero(m, ClosingOf(br, src));
    } else if inv == dest {
      var both := (b: int, row: Batch) => ClosingOf(br, dest)(b, row) + ClosingOf(br, src)(b, row);
      SumAdd(batches, ClosingOf(br, dest), ClosingOf(br, src), both);
      SumCong(m, ClosingOf(br, dest), batches, both);
    } else {
      SumCong(m, ClosingOf(br, inv), batches, ClosingOf(br, inv));
    }
  }

  /** Renaming movements leaves batch totals alone. */
  lemma MovedTotals(txns: map<Uuid, Txn>, dest: int, src: int, reorder: int, b: int)
    ensures Sum(MovedTxns(txns, dest, src, reorder), InwardOf(b)) == Sum(txns, InwardOf(b))
    ensures Sum(MovedTxns(txns, dest, src, reorder), OutwardOf(b)) == Sum(txns, OutwardOf(b))
  {
    var m := MovedTxns(txns, dest, src, reorder);
    assert m.Keys == txns.Keys;
    SumCong(m, InwardOf(b), txns, InwardOf(b));
    SumCong(m, OutwardOf(b), txns, OutwardOf(b));
  }

  /** Every branch's stock of the source has gone to the destination. */
  ghost predicate StockMerged(was: map<(int, int), StockRow>, now: map<(int, int), StockRow>, dest: int, src: int) {
    forall br, inv :: StockAt(now, br, inv) ==
      (if inv == src then 0.0
       else if inv == dest then StockAt(was, br, dest) + StockAt(was, br, src)
       else StockAt(was, br, inv))
  }

  /** The stock rows once every movement has been visited and the source's rows are gone. */
  lemma MergedStock(was: Core, stock: map<(int, int), StockRow>, now: map<(int, int), StockRow>, dest: int, src: int, reorder: int)
    requires Sound(was) && dest != src
    requires SameRows(was.stock, stock, {dest, src})
    requires Visited(was, MovedBatches(was.batches, dest, src), stock, dest, reorder, Moving(was.txns, src))
    requires now == map k | k in stock && k.1 != src :: stock[k]
    ensures StockExact(MovedBatches(was.batches, dest, src), now)
    ensures StockMerged(was.stock, now, dest, src)
  {
    forall br, inv
      ensures StockAt(now, br, inv) == Sum(MovedBatches(was.batches, dest, src), ClosingOf(br, inv))
      ensures StockAt(now, br, inv) ==
              if inv == src then 0.0
              else if inv == dest then StockAt(was.stock, br, dest) + StockAt(was.stock, br, src)
              else StockAt(was.stock, br, inv)
    {
      MovedSums(was.batches, dest, src, br, inv);
      assert StockAt(was.stock, br, inv) == Sum(was.batches, ClosingOf(br, inv));
      assert StockAt(was.stock, br, src) == Sum(was.batches, ClosingOf(br, src));
      assert inv != src ==> StockAt(now, br, inv) == StockAt(stock, br, inv);
      if inv == dest && !VisitedAt(was.txns, Moving(was.txns, src), br) {
        IdleSourceIsZero(was, src, br);
      }
    }
  }

  /** The inventory row may go: nothing else names it. */
  predicate Unnamed(c: Core, src: int) {
    && (forall x | x in c.inventories :: x != src ==> c.inventories[x].reorder != Some(src) && c.inventories[x].bulk != Some(src))
    && (forall b | b in c.batches :: c.batches[b].reorder != src)
    && (forall t | t in c.txns :: c.txns[t].reorder != src)
    && (forall k | k in c.stock :: c.stock[k].reorder != src)
  }

  /** Is the source named, before the merge, by something the merge does not rewrite? Batches of the source itself count:
      the merge leaves their reorder inventory alone. */
  ghost predicate StillNamed(c: Core, dest: int, src: int) {
    || (exists x :: x in c.inventories && x != src && (c.inventories[x].reorder == Some(src) || c.inventories[x].bulk == Some(src)))
    || (exists b :: b in c.batches && c.batches[b].reorder == src)
    || (exists t :: t in c.txns && c.txns[t].inventory != src && c.txns[t].reorder == src)
    || (exists k :: k in c.stock && k.1 != src && c.stock[k].reorder == src
                    && !(k.1 == dest && VisitedAt(c.txns, Moving(c.txns, src), k.0)))
  }

  /** Exactly what a merge accepts. */
  ghost predicate MergeAccepts(c: Core, dest: int, src: int) {
    && dest != src && dest in c.inventories && src in c.inventories
    && c.inventories[dest].reorder != Some(src) && c.inventories[dest].bulk != Some(src)
    && c.inventories[dest].allowNegative == c.inventories[src].allowNegative
    && !StillNamed(c, dest, src)
  }

  lemma AcceptsFacts(c: Core, dest: int, src: int)
    requires MergeAccepts(c, dest, src)
    ensures dest != src && dest in c.inventories && src in c.inventories
  {
  }

  lemma RowKept(was: Core, batches: map<int, Batch>, stock: map<(int, int), StockRow>, dest: int, src: int, reorder: int,
                br: int, inv: int)
    requires SameRows(was.stock, stock, {dest, src}) && inv != src
    requires Visited(was, batches, stock, dest, reorder, Moving(was.txns, src))
    ensures if inv == dest && VisitedAt(was.txns, Moving(was.txns, src), br)
            then (br, inv) in stock && stock[(br, inv)].reorder == reorder
            else ((br, inv) in stock <==> (br, inv) in was.stock)
                 && ((br, inv) in stock ==> stock[(br, inv)] == was.stock[(br, inv)])
  {
    if inv == dest {
      assert VisitedAt(was.txns, Moving(was.txns, src), br) || !VisitedAt(was.txns, Moving(was.txns, src), br);
    } else {
      assert inv !in {dest, src};
    }
  }

  lemma UnnamedIff(was: Core, now: Core, stock: map<(int, int), StockRow>, dest: int, src: int, reorder: int)
    requires dest != src && reorder != src
    requires now.inventories == was.inventories && now.batches == MovedBatches(was.batches, dest, src)
    requires now.txns == MovedTxns(was.txns, dest, src, reorder)
    requires SameRows(was.stock, stock, {dest, src})
    requires Visited(was, now.batches, stock, dest, reorder, Moving(was.txns, src))
    requires now.stock == map k | k in stock && k.1 != src :: stock[k]
    ensures Unnamed(now, src) <==> !StillNamed(was, dest, src)
  {
    if StillNamed(was, dest, src) {
      if b :| b in was.batches && was.batches[b].reorder == src {
        assert b in now.batches && now.batches[b].reorder == src;
      } else if t :| t in was.txns && was.txns[t].inventory != src && was.txns[t].reorder == src {
        assert t in now.txns && now.txns[t].reorder == src;
      } else if k :| k in was.stock && k.1 != src && was.stock[k].reorder == src
                     && !(k.1 == dest && VisitedAt(was.txns, Moving(was.txns, src), k.0)) {
        RowKept(was, now.batches, stock, dest, src, reorder, k.0, k.1);
        assert k in now.stock && now.stock[k].reorder == src;
      }
    } else {
      forall k | k in now.stock ensures now.stock[k].reorder != src {
        RowKept(was, now.batches, stock, dest, src, reorder, k.0, k.1);
      }
    }
  }

  /** Everything the merge leaves is consistent. */
  lemma MergedIsConsistent(was: Db, now: Db, dest: int, src: int, reorder: int)
    requires Consistent(was) && dest != src && dest in was.core.inventories && src in was.core.inventories
    requires was.core.inventories[dest].allowNegative == was.core.inventories[src].allowNegative
    requires now.core.inventories == was.core.inventories - {src}
    requires now.core.batches == MovedBatches(was.core.batches, dest, src)
    requires now.core.txns == MovedTxns(was.core.txns, dest, src, reorder)
    requires StockExact(now.core.batches, now.core.stock) && now.core.nextBatch == was.core.nextBatch
    requires now.items == MovedItems(was.items, dest, src) && now.docs == was.docs
    ensures Consistent(now)
  {
    hide StockExact, TotalsExact, OwnersUnique, ItemOk;
    MovedExact(was.core.batches, was.core.txns, dest, src, reorder);
    assert OwnersUnique(now.core.batches) by { MovedOwners(was.core.batches, dest, src); }
    MovedLinked(was.core, dest, src, reorder);
    assert Sound(now.core) by { hide ItemsOk, OneLineEach; }
    forall k | k in now.items ensures ItemOk(now.core.batches, now.core.txns, now.docs, k, now.items[k]) {
      LineFacts(was, k);
      MovedItemOk(was, dest, src, reorder, k);
    }
  }

  lemma MovedItemOk(was: Db, dest: int, src: int, reorder: int, k: ItemKey)
    requires k in was.items && ItemOk(was.core.batches, was.core.txns, was.docs, k, was.items[k])
    ensures ItemOk(MovedBatches(was.core.batches, dest, src), MovedTxns(was.core.txns, dest, src, reorder), was.docs, k,
                   MovedItems(was.items, dest, src)[k])
  {
  }

  lemma MovedOwners(batches: map<int, Batch>, dest: int, src: int)
    requires OwnersUnique(batches)
    ensures OwnersUnique(MovedBatches(batches, dest, src))
  {
  }

  lemma MovedLinked(c: Core, dest: int, src: int, reorder: int)
    requires Linked(c.inventories, c.batches, c.txns) && dest != src && dest in c.inventories
    ensures Linked(c.inventories - {src}, MovedBatches(c.batches, dest, src), MovedTxns(c.txns, dest, src, reorder))
  {
  }

  lemma MovedExact(batches: map<int, Batch>, txns: map<Uuid, Txn>, dest: int, src: int, reorder: int)
    requires TotalsExact(batches, txns)
    ensures TotalsExact(MovedBatches(batches, dest, src), MovedTxns(txns, dest, src, reorder))
  {
    forall b {
      MovedTotals(txns, dest, src, reorder, b);
    }
  }

  /** Batches and movements of all the sources, renamed. */
  function AllBatches(batches: map<int, Batch>, dest: int, sources: seq<int>): map<int, Batch> {
    map b | b in batches :: if batches[b].inventory in sources then batches[b].(inventory := dest) else batches[b]
  }

  function AllTxns(txns: map<Uuid, Txn>, dest: int, sources: seq<int>, reorder: int): map<Uuid, Txn> {
    map t | t in txns ::
      if txns[t].inventory in sources then txns[t].(inventory := dest, reorder := reorder) else txns[t]
  }

  /** The stock of several inventories at a branch, together. */
  function StockOver(stock: map<(int, int), StockRow>, br: int, inventories: seq<int>): real {
    if inventories == [] then 0.0 else StockAt(stock, br, inventories[0]) + StockOver(stock, br, inventories[1..])
  }

  lemma {:induction false} StockOverLast(stock: map<(int, int), StockRow>, br: int, some: seq<int>, i: int)
    ensures StockOver(stock, br, some + [i]) == StockOver(stock, br, some) + StockAt(stock, br, i)
  {
    if some == [] {
      assert some + [i] == [i];
    } else {
      assert (some + [i])[1..] == some[1..] + [i];
      StockOverLast(stock, br, some[1..], i);
    }
  }

  /** Every figure of the sources has gone to the destination. */
  ghost predicate StockAllMerged(was: map<(int, int), StockRow>, now: map<(int, int), StockRow>, dest: int, sources: seq<int>) {
    forall br, inv :: StockAt(now, br, inv) ==
      if inv in sources then 0.0
      else if inv == dest then StockAt(was, br, dest) + StockOver(was, br, sources)
      else StockAt(was, br, inv)
  }

  /** All the sources are gone and everything of theirs is the destination's. */
  ghost predicate AllMerged(was: Core, now: Core, dest: int, sources: seq<int>) {
    && (sources == [] ==> now == was)
    && dest !in sources
    && now.inventories == was.inventories - (set i | i in sources)
    && now.batches == AllBatches(was.batches, dest, sources)
    && (sources != [] ==> dest in was.inventories)
    && (dest in was.inventories ==> now.txns == AllTxns(was.txns, dest, sources, ReorderFor(was.inventories, dest)))
    && StockAllMerged(was.stock, now.stock, dest, sources)
  }

  lemma NoneMerged(was: Core, dest: int)
    ensures AllMerged(was, was, dest, [])
  {
    assert AllBatches(was.batches, dest, []) == was.batches;
    assert AllTxns(was.txns, dest, [], ReorderFor(was.inventories, dest)) == was.txns;
  }

  /** One more source. */
  lemma OneMoreMerged(was: Core, before: Core, now: Core, dest: int, done: seq<int>, src: int)
    requires AllMerged(was, before, dest, done) && dest != src && dest in before.inventories && src in before.inventories
    requires now.inventories == before.inventories - {src}
    requires now.batches == MovedBatches(before.batches, dest, src)
    requires now.txns == MovedTxns(before.txns, dest, src, ReorderFor(before.inventories, dest))
    requires StockMerged(before.stock, now.stock, dest, src)
    ensures AllMerged(was, now, dest, done + [src])
  {
    var more := done + [src];
    assert (set i | i in more) == (set i | i in done) + {src};
    assert now.inventories == was.inventories - (set i | i in more);
    assert now.batches == AllBatches(was.batches, dest, more);
    assert now.txns == AllTxns(was.txns, dest, more, ReorderFor(was.inventories, dest));
    OneMoreStock(was.stock, before.stock, now.stock, dest, done, src);
  }

  lemma OneMoreStock(was: map<(int, int), StockRow>, before: map<(int, int), StockRow>, now: map<(int, int), StockRow>, dest: int,
                     done: seq<int>, src: int)
    requires StockAllMerged(was, before, dest, done) && StockMerged(before, now, dest, src)
    requires dest != src && dest !in done && src !in done
    ensures StockAllMerged(was, now, dest, done + [src])
  {
    hide StockAt;
    var more := done + [src];
    forall br, inv
      ensures StockAt(now, br, inv) ==
              if inv in more then 0.0
              else if inv == dest then StockAt(was, br, dest) + StockOver(was, br, more)
              else StockAt(was, br, inv)
    {
      StockOverLast(was, br, done, src);
    }
  }

  lemma NewInventory(db: Db, i: int, row: Inventory)
    requires Consistent(db) && i !in db.core.inventories
    ensures Consistent(db.(core := db.core.(inventories := db.core.inventories[i := row])))
  {
    hide StockExact, TotalsExact, OwnersUnique, ItemOk;
  }

  lemma FlagChange(db: Db, i: int, flag: bool)
    requires Consistent(db) && i in db.core.inventories
    requires flag || forall b :: b in db.core.batches && db.core.batches[b].inventory == i ==> db.core.batches[b].Closing() >= 0.0
    ensures Consistent(db.(core := db.core.(inventories := db.core.inventories[i := db.core.inventories[i].(allowNegative := flag)])))
  {
    hide StockExact, TotalsExact, OwnersUnique, ItemOk;
  }
}
