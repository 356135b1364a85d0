/** The account ledger as values: rows of `ac_txn`, the daily summary kept beside them, and what relates the two. */
module LedgerModel {
  import opened Options
  import opened Sums

  type Uuid = int
  type Day = int

  /** A row of `ac_txn`; opening rows belong to no voucher. */
  datatype AcTxn = AcTxn(account: int, branch: int, date: Day, credit: real, debit: real, memo: bool, opening: bool,
                         voucher: Option<int>)

  datatype Key = Key(account: int, branch: int, date: Day)

  datatype Amounts = Amounts(credit: real, debit: real)

  datatype Voucher = Voucher(branch: int, date: Day, memo: bool)

  /** A line of `ac_trns` as the caller sends it; its id is the caller's, or one drawn for it. */
  datatype AcLine = AcLine(id: Uuid, account: int, credit: real, debit: real)

  /** A row that moved out of a day, and by how much its amounts shrank in the move. */
  datatype Move = Move(from: Key, lost: Amounts)

  function KeyOf(t: AcTxn): Key { Key(t.account, t.branch, t.date) }

  function Plus(a: Amounts, b: Amounts): Amounts { Amounts(a.credit + b.credit, a.debit + b.debit) }

  function Minus(a: Amounts, b: Amounts): Amounts { Amounts(a.credit - b.credit, a.debit - b.debit) }

  function AmountsOf(t: AcTxn): Amounts { Amounts(t.credit, t.debit) }

  const ZERO := Amounts(0.0, 0.0)

  /** A day's summary, read as zero where there is no row. */
  function At(summary: map<Key, Amounts>, k: Key): Amounts { if k in summary then summary[k] else ZERO }

  // ---- the sums the summary stands for -------------------------------------------------------------------------

  ghost function CreditAt(k: Key): (Uuid, AcTxn) -> real { (_, t: AcTxn) => if !t.memo && KeyOf(t) == k then t.credit else 0.0 }

  ghost function DebitAt(k: Key): (Uuid, AcTxn) -> real { (_, t: AcTxn) => if !t.memo && KeyOf(t) == k then t.debit else 0.0 }

  /** The day's amounts over the non-memo rows. */
  ghost function Actual(txns: map<Uuid, AcTxn>, k: Key): Amounts { Amounts(Sum(txns, CreditAt(k)), Sum(txns, DebitAt(k))) }

  /** What moves out of a day have left behind there. */
  ghost function Drift(moves: seq<Move>, k: Key): Amounts {
    if moves == [] then ZERO
    else
      var rest, last := Drift(moves[..|moves| - 1], k), moves[|moves| - 1];
      if last.from == k then Plus(rest, last.lost) else rest
  }

  /** The summary is off, on each day, by exactly what the moves out of that day have left behind. */
  ghost predicate OffByDrift(txns: map<Uuid, AcTxn>, summary: map<Key, Amounts>, moves: seq<Move>) {
    forall k :: At(summary, k) == Plus(Actual(txns, k), Drift(moves, k))
  }

  /** Every non-memo row has its day in the summary. */
  ghost predicate DaysPresent(txns: map<Uuid, AcTxn>, summary: map<Key, Amounts>) {
    forall t :: t in txns && !txns[t].memo ==> KeyOf(txns[t]) in summary
  }

  ghost predicate Tracked(txns: map<Uuid, AcTxn>, summary: map<Key, Amounts>, moves: seq<Move>) {
    DaysPresent(txns, summary) && OffByDrift(txns, summary, moves)
  }

  // ---- one row -------------------------------------------------------------------------------------------------

  /** `insert ... on conflict do update` into the summary. */
  function Upsert(summary: map<Key, Amounts>, k: Key, first: Amounts, conflict: Amounts): map<Key, Amounts> {
    summary[k := if k in summary then conflict else first]
  }

  lemma ActualAfterPut(txns: map<Uuid, AcTxn>, id: Uuid, t: AcTxn, k: Key)
    ensures Actual(txns[id := t], k) ==
              Plus(Minus(Actual(txns, k), if id in txns && !txns[id].memo && KeyOf(txns[id]) == k then AmountsOf(txns[id]) else ZERO),
                   if !t.memo && KeyOf(t) == k then AmountsOf(t) else ZERO)
  {
    SumPut(txns, CreditAt(k), id, t);
    SumPut(txns, DebitAt(k), id, t);
  }

  lemma ActualAfterRemove(txns: map<Uuid, AcTxn>, id: Uuid, k: Key)
    requires id in txns
    ensures Actual(txns - {id}, k) ==
              Minus(Actual(txns, k), if !txns[id].memo && KeyOf(txns[id]) == k then AmountsOf(txns[id]) else ZERO)
  {
    SumTake(txns, CreditAt(k), id);
    SumTake(txns, DebitAt(k), id);
  }

  function AfterInsert(summary: map<Key, Amounts>, t: AcTxn): map<Key, Amounts> {
    if t.memo then summary else Upsert(summary, KeyOf(t), AmountsOf(t), Plus(At(summary, KeyOf(t)), AmountsOf(t)))
  }

  lemma InsertTracked(txns: map<Uuid, AcTxn>, summary: map<Key, Amounts>, moves: seq<Move>, id: Uuid, t: AcTxn)
    requires Tracked(txns, summary, moves) && id !in txns
    ensures Tracked(txns[id := t], AfterInsert(summary, t), moves)
  {
    hide Actual, Drift;
    forall k ensures At(AfterInsert(summary, t), k) == Plus(Actual(txns[id := t], k), Drift(moves, k)) {
      ActualAfterPut(txns, id, t, k);
      assert At(summary, k) == Plus(Actual(txns, k), Drift(moves, k));
    }
  }

  /** Two upserts, both with the new amounts: into the new day, and off the old one. */
  function AfterUpdate(summary: map<Key, Amounts>, was: AcTxn, now: AcTxn): map<Key, Amounts> {
    var k, a := KeyOf(now), AmountsOf(now);
    if now.memo then summary
    else if now.date == was.date then Upsert(summary, k, a, Plus(At(summary, k), Minus(a, AmountsOf(was))))
    else
      var moved := Upsert(summary, k, a, Plus(At(summary, k), a));
      var from := k.(date := was.date);
      Upsert(moved, from, a, Minus(At(moved, from), a))
  }

  function MovesOf(was: AcTxn, now: AcTxn): seq<Move> {
    if now.memo || now.date == was.date then [] else [Move(KeyOf(was), Minus(AmountsOf(was), AmountsOf(now)))]
  }

  lemma DriftAfterMove(moves: seq<Move>, was: AcTxn, now: AcTxn, k: Key)
    ensures Drift(moves + MovesOf(was, now), k) ==
              if !now.memo && now.date != was.date && KeyOf(was) == k
              then Plus(Drift(moves, k), Minus(AmountsOf(was), AmountsOf(now))) else Drift(moves, k)
  {
    var all := moves + MovesOf(was, now);
    if MovesOf(was, now) == [] {
      assert all == moves;
    } else {
      assert all[..|all| - 1] == moves;
    }
  }

  lemma UpdateTracked(txns: map<Uuid, AcTxn>, summary: map<Key, Amounts>, moves: seq<Move>, id: Uuid, now: AcTxn)
    requires Tracked(txns, summary, moves) && id in txns
    requires var was := txns[id]; now.account == was.account && now.branch == was.branch && now.memo == was.memo
    ensures Tracked(txns[id := now], AfterUpdate(summary, txns[id], now), moves + MovesOf(txns[id], now))
  {
    hide Actual, Drift, MovesOf;
    var was := txns[id];
    assert !was.memo ==> KeyOf(was) in summary;
    forall k ensures At(AfterUpdate(summary, was, now), k)
                       == Plus(Actual(txns[id := now], k), Drift(moves + MovesOf(was, now), k))
    {
      ActualAfterPut(txns, id, now, k);
      DriftAfterMove(moves, was, now, k);
      assert At(summary, k) == Plus(Actual(txns, k), Drift(moves, k));
    }
  }

  function AfterDelete(summary: map<Key, Amounts>, was: AcTxn): map<Key, Amounts> {
    if was.memo then summary
    else Upsert(summary, KeyOf(was), AmountsOf(was), Minus(At(summary, KeyOf(was)), AmountsOf(was)))
  }

  lemma DeleteTracked(txns: map<Uuid, AcTxn>, summary: map<Key, Amounts>, moves: seq<Move>, id: Uuid)
    requires Tracked(txns, summary, moves) && id in txns
    ensures Tracked(txns - {id}, AfterDelete(summary, txns[id]), moves)
  {
    hide Actual, Drift;
    assert !txns[id].memo ==> KeyOf(txns[id]) in summary;
    forall k ensures At(AfterDelete(summary, txns[id]), k) == Plus(Actual(txns - {id}, k), Drift(moves, k)) {
      ActualAfterRemove(txns, id, k);
      assert At(summary, k) == Plus(Actual(txns, k), Drift(moves, k));
    }
  }

  // ---- vouchers and their rows ---------------------------------------------------------------------------------

  /** A voucher's rows carry its branch, date and memo flag; a row of no voucher is an opening row, dated the day before
      the books begin. */
  ghost predicate RowsAgree(vouchers: map<int, Voucher>, txns: map<Uuid, AcTxn>, bookBegin: Day) {
    forall t :: t in txns ==>
      match txns[t].voucher
      case None => txns[t].opening && !txns[t].memo && txns[t].date == bookBegin - 1
      case Some(v) => v in vouchers && !txns[t].opening
                      && Voucher(txns[t].branch, txns[t].date, txns[t].memo) == vouchers[v]
  }

  /** Two opening rows of one account at one branch. */
  predicate SamePlace(t: AcTxn, u: AcTxn) { t.opening && u.opening && t.account == u.account && t.branch == u.branch }

  /** An account has at most one opening row at a branch. */
  ghost predicate OneOpening(txns: map<Uuid, AcTxn>) {
    forall t, u :: t in txns && u in txns && SamePlace(txns[t], txns[u]) ==> t == u
  }

  /** Voucher rows come and go without touching openings. */
  lemma OpeningsStay(was: map<Uuid, AcTxn>, now: map<Uuid, AcTxn>)
    requires OneOpening(was) && forall t :: t in now && now[t].opening ==> t in was && SamePlace(was[t], now[t])
    ensures OneOpening(now)
  {
    forall t, u | t in now && u in now && SamePlace(now[t], now[u]) ensures t == u {
      assert SamePlace(was[t], was[u]);
    }
  }

  /** The voucher's rows written, the others kept. */
  lemma OpeningsAfterVoucher(was: map<Uuid, AcTxn>, now: map<Uuid, AcTxn>, v: int, voucher: Voucher, lines: seq<AcLine>,
                             gone: set<Uuid>)
    requires OneOpening(was) && RowsHeld(now, v, voucher, lines) && now - IdsOf(lines) == was - gone
    ensures OneOpening(now)
  {
    forall t | t in IdsOf(lines) ensures t in now && !now[t].opening {
      var l :| l in lines && l.id == t;
    }
    forall t | t in now && now[t].opening ensures t in was && SamePlace(was[t], now[t]) {
      assert t in now - IdsOf(lines);
    }
    OpeningsStay(was, now);
  }

  /** Exactly one opening row, and it is this one. */
  ghost predicate OpeningHeld(was: map<Uuid, AcTxn>, now: map<Uuid, AcTxn>, row: AcTxn) {
    exists t ::
      && OpeningRows(now, row.account, row.branch) == {t} && now == was[t := row]
      && OpeningRows(was, row.account, row.branch) == if t in was then {t} else {}
  }

  lemma OpeningPut(was: map<Uuid, AcTxn>, t: Uuid, row: AcTxn)
    requires OneOpening(was) && row.opening
    requires t in (if t in was then OpeningRows(was, row.account, row.branch) else {t})
    requires t !in was ==> OpeningRows(was, row.account, row.branch) == {}
    ensures OneOpening(was[t := row]) && OpeningHeld(was, was[t := row], row)
  {
    var now := was[t := row];
    forall u | u in was && u != t ensures !SamePlace(was[u], row) {
      if t in was {
        assert SamePlace(was[t], row) && !SamePlace(was[u], was[t]);
      } else {
        assert u !in OpeningRows(was, row.account, row.branch);
      }
    }
    forall u, w | u in now && w in now && SamePlace(now[u], now[w]) ensures u == w {
      assert u != t && w != t ==> SamePlace(was[u], was[w]);
    }
    assert OpeningRows(now, row.account, row.branch) == {t} by {
      forall u | u in OpeningRows(now, row.account, row.branch) ensures u == t {
        assert SamePlace(now[u], now[t]);
      }
    }
    if t in was {
      forall u | u in OpeningRows(was, row.account, row.branch) ensures u == t {
        assert SamePlace(was[u], was[t]);
      }
      assert OpeningRows(was, row.account, row.branch) == {t};
    }
  }

  function RowOf(v: int, voucher: Voucher, l: AcLine): AcTxn {
    AcTxn(l.account, voucher.branch, voucher.date, l.credit, l.debit, voucher.memo, false, Some(v))
  }

  function RowsOf(txns: map<Uuid, AcTxn>, v: int): set<Uuid> { set t | t in txns && txns[t].voucher == Some(v) }

  function OpeningRows(txns: map<Uuid, AcTxn>, account: int, branch: int): set<Uuid> {
    set t | t in txns && txns[t].account == account && txns[t].branch == branch && txns[t].opening
  }

  function IdsOf(lines: seq<AcLine>): set<Uuid> { set l | l in lines :: l.id }

  predicate DistinctIds(lines: seq<AcLine>) { forall i, j :: 0 <= i < j < |lines| ==> lines[i].id != lines[j].id }

  /** The ids of the list are distinct, and each is new or the id of a row of this voucher. */
  ghost predicate OwnIds(txns: map<Uuid, AcTxn>, v: int, lines: seq<AcLine>) {
    DistinctIds(lines) && forall l :: l in lines && l.id in txns ==> txns[l.id].voucher == Some(v)
  }

  /** One row per line, as the line says. */
  ghost predicate RowsHeld(txns: map<Uuid, AcTxn>, v: int, voucher: Voucher, lines: seq<AcLine>) {
    forall l :: l in lines ==> l.id in txns && txns[l.id] == RowOf(v, voucher, l)
  }

  /** The rows of the voucher whose id and account no line of the list has. */
  function Missed(txns: map<Uuid, AcTxn>, v: int, lines: seq<AcLine>): set<Uuid> {
    set t | t in txns && txns[t].voucher == Some(v) && !exists l | l in lines :: l.id == t && l.account == txns[t].account
  }

  /** The date moves an update to `lines` makes: one for each row it keeps, if the date changes. */
  ghost function MovesOfLines(was: map<Uuid, AcTxn>, v: int, voucher: Voucher, lines: seq<AcLine>): seq<Move> {
    if lines == [] then []
    else
      var rest, l := lines[..|lines| - 1], lines[|lines| - 1];
      MovesOfLines(was, v, voucher, rest) +
      (if l.id in was && was[l.id].account == l.account then MovesOf(was[l.id], RowOf(v, voucher, l)) else [])
  }

  lemma NothingYet(base: map<Uuid, AcTxn>, was: map<Uuid, AcTxn>, v: int, voucher: Voucher)
    ensures IdsOf([]) == {} && Overlay(base, base, {}) && RowsHeld(base, v, voucher, [])
    ensures MovesOfLines(was, v, voucher, []) == []
  {
  }

  lemma MissedIsThere(txns: map<Uuid, AcTxn>, v: int, lines: seq<AcLine>)
    ensures Missed(txns, v, lines) <= txns.Keys
  {
  }

  lemma LastMoves(was: map<Uuid, AcTxn>, v: int, voucher: Voucher, lines: seq<AcLine>, l: AcLine)
    ensures MovesOfLines(was, v, voucher, lines + [l]) == MovesOfLines(was, v, voucher, lines) +
      (if l.id in was && was[l.id].account == l.account then MovesOf(was[l.id], RowOf(v, voucher, l)) else [])
  {
    var all := lines + [l];
    assert all[..|all| - 1] == lines;
  }

  /** Writing one more line's row. */
  lemma RowsStep(before: map<Uuid, AcTxn>, now: map<Uuid, AcTxn>, v: int, voucher: Voucher, done: seq<AcLine>, l: AcLine)
    requires RowsHeld(before, v, voucher, done) && l.id !in IdsOf(done)
    requires now == before[l.id := RowOf(v, voucher, l)]
    ensures RowsHeld(now, v, voucher, done + [l]) && IdsOf(done + [l]) == IdsOf(done) + {l.id}
  {
    forall x | x in done ensures x.id != l.id {
      assert x.id in IdsOf(done);
    }
  }

  lemma ClashingId(t0: map<Uuid, AcTxn>, before: map<Uuid, AcTxn>, lines: seq<AcLine>, i: nat)
    requires i < |lines| && lines[i].id in before && Overlay(t0, before, IdsOf(lines[..i]))
    ensures lines[i] in lines && (lines[i].id in t0 || !DistinctIds(lines))
  {
    if lines[i].id !in t0 {
      var l :| l in lines[..i] && l.id == lines[i].id;
      var j :| 0 <= j < i && lines[j] == l;
      assert lines[j].id == lines[i].id;
    }
  }

  lemma NewVoucherAgrees(v0: map<int, Voucher>, t0: map<Uuid, AcTxn>, now: map<Uuid, AcTxn>, bookBegin: Day, v: int,
                         voucher: Voucher, lines: seq<AcLine>)
    requires RowsAgree(v0, t0, bookBegin) && v !in v0
    requires Overlay(t0, now, IdsOf(lines)) && RowsHeld(now, v, voucher, lines)
    ensures RowsAgree(v0[v := voucher], now, bookBegin)
  {
    forall t | t in now && t in IdsOf(lines) ensures now[t].voucher == Some(v) && !now[t].opening
      && Voucher(now[t].branch, now[t].date, now[t].memo) == voucher
    {
      var l :| l in lines && l.id == t;
    }
  }

  /** What the upsert of line `i` finds under its id: nothing, or the row of this voucher on the same account. */
  lemma KeptRow(v0: map<int, Voucher>, t0: map<Uuid, AcTxn>, base: map<Uuid, AcTxn>, before: map<Uuid, AcTxn>, bookBegin: Day,
                v: int, date: Day, lines: seq<AcLine>, i: nat)
    requires v in v0 && RowsAgree(v0, t0, bookBegin) && OwnIds(t0, v, lines) && i < |lines|
    requires base == t0 - Missed(t0, v, lines) && Overlay(base, before, IdsOf(lines[..i]))
    ensures var l := lines[i];
            && l.id !in IdsOf(lines[..i])
            && (l.id in before <==> l.id in t0 && t0[l.id].account == l.account)
            && (l.id in before ==>
                  && before[l.id] == t0[l.id]
                  && before[l.id].(date := date, credit := l.credit, debit := l.debit) == RowOf(v, v0[v].(date := date), l))
  {
    var l := lines[i];
    assert l in lines;
    forall j | 0 <= j < i ensures lines[j].id != l.id {}
    if l.id in t0 && l.id !in base {
      assert l.id in Missed(t0, v, lines);
    }
    if l.id in base {
      var x :| x in lines && x.id == l.id && x.account == t0[l.id].account;
      assert x == l;
    }
  }

  /** The rows of the voucher are now the list, and nobody else's rows have changed. */
  lemma VoucherRewritten(v0: map<int, Voucher>, t0: map<Uuid, AcTxn>, base: map<Uuid, AcTxn>, now: map<Uuid, AcTxn>,
                         bookBegin: Day, v: int, date: Day, lines: seq<AcLine>)
    requires v in v0 && RowsAgree(v0, t0, bookBegin) && OwnIds(t0, v, lines)
    requires base == t0 - Missed(t0, v, lines) && Overlay(base, now, IdsOf(lines))
    requires RowsHeld(now, v, v0[v].(date := date), lines)
    ensures RowsAgree(v0[v := v0[v].(date := date)], now, bookBegin)
    ensures RowsOf(now, v) == IdsOf(lines)
    ensures now - IdsOf(lines) == t0 - RowsOf(t0, v)
  {
    var ids, gone, missed := IdsOf(lines), RowsOf(t0, v), Missed(t0, v, lines);
    forall t | t in gone && t !in missed ensures t in ids {
      var l :| l in lines && l.id == t;
    }
    forall t | t in ids ensures t in now && now[t].voucher == Some(v) && (t in t0 ==> t in gone) {
      var l :| l in lines && l.id == t;
    }
    OverlayWithout(t0, now, missed, gone, ids);
    forall t | t in now && t !in ids ensures t in t0 && t !in gone && now[t] == t0[t] {
      assert t in now - ids;
    }
    forall t | t in ids ensures !now[t].opening && Voucher(now[t].branch, now[t].date, now[t].memo) == v0[v].(date := date) {
      var l :| l in lines && l.id == t;
    }
  }
}
