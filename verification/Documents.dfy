/** A stock document and its voucher together: the create and delete procedures across both sets of tables. */
module Documents {
  import opened Options
  import opened Sums
  import opened StockModel
  import opened StockGuards
  import opened StockEngine
  import opened Ledger
  import Books = LedgerModel
  import StockTheorems
  import LedgerTheorems

  /** Each document has a voucher of its own. */
  ghost predicate VouchersMatch(docs: map<(Kind, int), Doc>, vouchers: map<int, Books.Voucher>) {
    && (forall k :: k in docs ==> docs[k].voucher in vouchers)
    && (forall j, k :: j in docs && k in docs && docs[j].voucher == docs[k].voucher ==> j == k)
  }

  class DocumentDb {
    const stock: StockDb
    const ledger: LedgerDb

    ghost predicate Valid()
      reads this, stock, ledger
    {
      stock.Valid() && ledger.Valid() && VouchersMatch(stock.docs, ledger.vouchers)
    }

    constructor (bookBegin: Books.Day)
      ensures Valid() && fresh(stock) && fresh(ledger)
    {
      stock := new StockDb();
      ledger := new LedgerDb(bookBegin);
    }

    /** `create_voucher` and then the header and lines of the document; when either fails, neither stays. */
    method Create(k: Kind, d: int, h: Header, date: Books.Day, entries: seq<Books.AcLine>, deduction: Option<int>, lines: seq<Line>)
        returns (ok: bool)
      requires Valid() && k != Opening && (k, d) !in stock.docs && h.voucher !in ledger.vouchers
      modifies stock, ledger
      ensures Valid()
      ensures ok <==> && Books.DistinctIds(entries)
                      && (forall l :: l in entries ==> l.id !in old(ledger.txns) && old(ledger.Enabled(l.account)))
                      && Creatable(old(stock.State()), k, d, h, deduction, lines)
      ensures !ok ==> && stock.State() == old(stock.State()) && ledger.vouchers == old(ledger.vouchers)
                      && ledger.txns == old(ledger.txns) && ledger.summary == old(ledger.summary)
      ensures ledger.moves == old(ledger.moves)
      ensures ok ==> && Written(old(stock.State()), stock.State(), Document(k, d), h.branch, lines,
                                CreatedBy(old(stock.inventories), k))
                     && HeaderStored(old(stock.docs), stock.docs, k, d, h, deduction)
                     && Overlaid(old(ledger.txns), ledger.txns, h, date, entries)
    {
      hide Written, Creatable, Consistent, Books.Tracked, Books.RowsAgree, Books.RowsHeld, HeaderStored, VouchersMatch;
      ghost var was := stock.docs;
      var v0, t0, s0 := ledger.vouchers, ledger.txns, ledger.summary;
      ghost var m0 := ledger.moves;
      ok := ledger.CreateVoucher(h.voucher, h.branch, date, false, entries);
      if ok {
        ok := stock.CreateDoc(k, d, h, deduction, lines);
        if !ok {
          ledger.Rollback(v0, t0, s0, m0);
        } else {
          StillMatch(was, stock.docs, v0, ledger.vouchers[h.voucher], k, d, h, deduction);
        }
      }
    }

    /** `delete_credit_note`, `delete_purchase_bill` and the other delete procedures: the header takes its lines, their movements
        and the batches those own along, and then the voucher its rows of the ledger. */
    method Delete(k: Kind, d: int) returns (ok: bool)
      requires Valid() && k !in {Opening, Sale}
      modifies stock, ledger
      ensures Valid()
      ensures !ok ==> && stock.State() == old(stock.State()) && ledger.vouchers == old(ledger.vouchers)
                      && ledger.txns == old(ledger.txns) && ledger.summary == old(ledger.summary)
      ensures ledger.moves == old(ledger.moves)
      ensures ok ==> && (k, d) in old(stock.docs)
                     && Erased(old(stock.State()), stock.State(), Document(k, d))
                     && stock.docs == old(stock.docs) - {(k, d)}
                     && var v := old(stock.docs)[(k, d)].voucher;
                        ledger.txns == old(ledger.txns) - Books.RowsOf(old(ledger.txns), v)
                        && ledger.vouchers == old(ledger.vouchers) - {v}
      ensures OwnsBatch(k) ==> (ok <==>
                && (k, d) in old(stock.docs)
                && var gone := LinesOf(old(stock.items), Document(k, d));
                   forall id :: id in IdsIn(gone) ==> !DrawnOn(old(stock.txns), old(stock.items), gone, id))
      ensures !OwnsBatch(k) && (k, d) in old(stock.docs) && (k == Deduction ==> !old(stock.docs)[(k, d)].approved) ==>
                RemovalOf(old(stock.TheCore()), IdsIn(LinesOf(old(stock.items), Document(k, d))), ok)
    {
      hide Erased, Consistent, DrawnOn, RemovalOf, Books.Tracked, Books.RowsAgree;
      var v;
      ok, v := stock.DeleteDoc(k, d);
      if ok {
        ledger.DeleteVoucher(v);
      }
    }
  }

  lemma StillMatch(was: map<(Kind, int), Doc>, now: map<(Kind, int), Doc>, vouchers: map<int, Books.Voucher>, row: Books.Voucher,
                   k: Kind, d: int, h: Header, deduction: Option<int>)
    requires VouchersMatch(was, vouchers) && HeaderStored(was, now, k, d, h, deduction) && (k, d) !in was && h.voucher !in vouchers
    ensures VouchersMatch(now, vouchers[h.voucher := row])
  {
  }

  /** The rows a voucher's creation adds to the ledger. */
  ghost predicate Overlaid(was: map<Books.Uuid, Books.AcTxn>, now: map<Books.Uuid, Books.AcTxn>, h: Header, date: Books.Day,
                           entries: seq<Books.AcLine>)
  {
    && Overlay(was, now, Books.IdsOf(entries))
    && Books.RowsHeld(now, h.voucher, Books.Voucher(h.branch, date, false), entries)
    && forall l :: l in entries ==> l.id !in was
  }

  /** Creating a document and deleting it again restores every total: lines, movements, batches, stock, ledger rows and each day
      of the summary. */
  lemma CreateThenDelete(was: Db, mid: Db, now: Db, o: Owner, h: Header, date: Books.Day, lines: seq<Line>, sides: Line -> Sides,
                         vouchers: map<int, Books.Voucher>, entries: seq<Books.AcLine>, bookBegin: Books.Day,
                         moves: seq<Books.Move>, t0: map<Books.Uuid, Books.AcTxn>, t1: map<Books.Uuid, Books.AcTxn>,
                         t2: map<Books.Uuid, Books.AcTxn>, s0: map<Books.Key, Books.Amounts>, s2: map<Books.Key, Books.Amounts>)
    requires Consistent(was) && Consistent(now) && o.Document? && o.docKind != Opening && (o.docKind, o.id) !in was.docs
    requires Written(was, mid, o, h.branch, lines, sides) && Erased(mid, now, o)
    requires Books.RowsAgree(vouchers, t0, bookBegin) && h.voucher !in vouchers && Overlaid(t0, t1, h, date, entries)
    requires t2 == t1 - Books.RowsOf(t1, h.voucher) && Books.Tracked(t0, s0, moves) && Books.Tracked(t2, s2, moves)
    ensures now.items == was.items && now.core.txns == was.core.txns && now.core.batches == was.core.batches
    ensures forall br, inv :: StockAt(now.core.stock, br, inv) == StockAt(was.core.stock, br, inv)
    ensures t2 == t0 && forall k :: Books.At(s2, k) == Books.At(s0, k)
  {
    hide Consistent, Written, Erased, Books.Tracked, Books.RowsAgree;
    NewHeader(was, was.docs[(o.docKind, o.id) := h.Stored()], (o.docKind, o.id));
    StockTheorems.CreateThenDelete(was, mid, now, o, h.branch, lines, sides);
    LedgerTheorems.CreateThenDelete(vouchers, t0, s0, moves, bookBegin, h.voucher, Books.Voucher(h.branch, date, false), entries,
                                    t1, t2, s2);
  }

  /** Deleting a document takes exactly its own share out of every stock figure, every batch and every day of the summary. */
  lemma DeleteTakesOwnShare(was: Db, now: Db, o: Owner, v: int, moves: seq<Books.Move>, t0: map<Books.Uuid, Books.AcTxn>,
                            s0: map<Books.Key, Books.Amounts>, s1: map<Books.Key, Books.Amounts>, br: int, inv: int, b: int,
                            day: Books.Key)
    requires Consistent(was) && Consistent(now) && Erased(was, now, o)
    requires Books.Tracked(t0, s0, moves) && Books.Tracked(t0 - Books.RowsOf(t0, v), s1, moves)
    ensures var ids := IdsIn(LinesOf(was.items, o));
            && StockAt(now.core.stock, br, inv) == StockAt(was.core.stock, br, inv)
                 - Sum(was.core.txns, StockTheorems.NetOfLines(ids, StockTheorems.AtPlace(br, inv)))
            && (b in now.core.batches ==>
                  b in was.core.batches
                  && now.core.batches[b].Closing() == was.core.batches[b].Closing()
                       - Sum(was.core.txns, StockTheorems.NetOfLines(ids, StockTheorems.OnBatch(b))))
    ensures Books.At(s1, day) == Books.Minus(Books.At(s0, day),
                                             Books.Actual(map t | t in t0 && t0[t].voucher == Some(v) :: t0[t], day))
  {
    hide Consistent, Erased, Books.Tracked;
    StockTheorems.DeleteRemovesOwnShare(was, now, o);
    LedgerTheorems.DeleteRemovesOwnShare(t0, s0, moves, v, s1, day);
  }
}
