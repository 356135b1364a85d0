/** The ledger tables as fields, the row triggers, and the voucher and opening procedures that write them. */
module Ledger {
  import opened Options
  import opened Sums
  import opened LedgerModel

  class LedgerDb {
    /** The day before which the books are closed. */
    const bookBegin: Day
    /** Each account, and whether it takes transactions. */
    var accounts: map<int, bool>
    var vouchers: map<int, Voucher>
    var txns: map<Uuid, AcTxn>
    /** `account_daily_summary`. */
    var summary: map<Key, Amounts>
    /** Every date move made so far, in order. */
    ghost var moves: seq<Move>

    ghost predicate Valid()
      reads this
    {
      Tracked(txns, summary, moves) && RowsAgree(vouchers, txns, bookBegin) && OneOpening(txns)
    }

    constructor (bookBegin: Day)
      ensures Valid() && txns == map[] && summary == map[] && vouchers == map[] && moves == []
    {
      this.bookBegin := bookBegin;
      accounts, vouchers, txns, summary, moves := map[], map[], map[], map[], [];
    }

    /** Transaction rollback. */
    method Rollback(v: map<int, Voucher>, t: map<Uuid, AcTxn>, s: map<Key, Amounts>, ghost m: seq<Move>)
      modifies this`vouchers, this`txns, this`summary, this`moves
      ensures vouchers == v && txns == t && summary == s && moves == m
    {
      vouchers, txns, summary, moves := v, t, s, m;
    }

    // ---- row triggers --------------------------------------------------------------------------------------------

    /** `insert into account_daily_summary ... on conflict do update`, adding `sign` times the amounts. */
    method UpsertDay(k: Key, first: Amounts, change: Amounts)
      modifies this`summary
      ensures summary == Upsert(old(summary), k, first, Plus(At(old(summary), k), change))
    {
      if k in summary {
        summary := summary[k := Plus(summary[k], change)];
      } else {
        summary := summary[k := first];
      }
    }

    method InsertRow(id: Uuid, t: AcTxn) returns (ok: bool)
      requires Tracked(txns, summary, moves)
      modifies this`txns, this`summary
      ensures ok <==> id !in old(txns)
      ensures ok ==> txns == old(txns)[id := t] && Tracked(txns, summary, moves)
      ensures !ok ==> txns == old(txns) && summary == old(summary)
    {
      hide Tracked;
      if id in txns {
        return false;
      }
      ok := true;
      InsertTracked(txns, summary, moves, id, t);
      txns := txns[id := t];
      if !t.memo {
        UpsertDay(KeyOf(t), AmountsOf(t), AmountsOf(t));
      }
    }

    /** An update never writes the account, the branch or the memo flag. When the date moves, the amounts taken off the
        old day are the new ones. */
    method UpdateRow(id: Uuid, date: Day, credit: real, debit: real)
      requires Tracked(txns, summary, moves) && id in txns
      modifies this`txns, this`summary, this`moves
      ensures txns == old(txns)[id := old(txns)[id].(date := date, credit := credit, debit := debit)]
      ensures moves == old(moves) + MovesOf(old(txns)[id], txns[id])
      ensures Tracked(txns, summary, moves)
    {
      hide Tracked;
      var was := txns[id];
      var now := was.(date := date, credit := credit, debit := debit);
      UpdateTracked(txns, summary, moves, id, now);
      ghost var before := summary;
      txns := txns[id := now];
      moves := moves + MovesOf(was, now);
      if !now.memo {
        var k, a := KeyOf(now), AmountsOf(now);
        if now.date == was.date {
          UpsertDay(k, a, Minus(a, AmountsOf(was)));
        } else {
          UpsertDay(k, a, a);
          UpsertDay(k.(date := was.date), a, Minus(ZERO, a));
        }
      }
      assert summary == AfterUpdate(before, was, now);
    }

    method DeleteRow(id: Uuid)
      requires Tracked(txns, summary, moves) && id in txns
      modifies this`txns, this`summary
      ensures txns == old(txns) - {id} && Tracked(txns, summary, moves)
    {
      hide Tracked;
      var was := txns[id];
      DeleteTracked(txns, summary, moves, id);
      ghost var before := summary;
      txns := txns - {id};
      if !was.memo {
        UpsertDay(KeyOf(was), AmountsOf(was), Minus(ZERO, AmountsOf(was)));
      }
      assert summary == AfterDelete(before, was);
    }

    /** `delete from ac_txn where id = any (...)`. */
    method DeleteRows(ids: set<Uuid>)
      requires Tracked(txns, summary, moves) && ids <= txns.Keys
      modifies this`txns, this`summary
      ensures txns == old(txns) - ids && Tracked(txns, summary, moves)
    {
      var rest := ids;
      ghost var done := {};
      while rest != {}
        invariant rest + done == ids && rest !! done
        invariant txns == old(txns) - done && Tracked(txns, summary, moves)
        decreases rest
      {
        var id := AnyOf(rest);
        DeleteRow(id);
        rest, done := rest - {id}, done + {id};
      }
    }

    // ---- vouchers ------------------------------------------------------------------------------------------------

    predicate Enabled(account: int)
      reads this`accounts
    {
      account in accounts && accounts[account]
    }

    /** `create_voucher` with `insert_ac_txn`: `v` is the identity the voucher insert draws. */
    method CreateVoucher(v: int, branch: int, date: Day, memo: bool, lines: seq<AcLine>) returns (ok: bool)
      requires Valid() && v !in vouchers
      modifies this`vouchers, this`txns, this`summary, this`moves
      ensures Valid()
      ensures ok <==> DistinctIds(lines) && forall l :: l in lines ==> l.id !in old(txns) && Enabled(l.account)
      ensures !ok ==> vouchers == old(vouchers) && txns == old(txns) && summary == old(summary) && moves == old(moves)
      ensures ok ==> && vouchers == old(vouchers)[v := Voucher(branch, date, memo)] && moves == old(moves)
                     && Overlay(old(txns), txns, IdsOf(lines)) && RowsHeld(txns, v, vouchers[v], lines)
    {
      hide Tracked;
      var v0, t0, s0 := vouchers, txns, summary;
      ghost var m0 := moves;
      var voucher := Voucher(branch, date, memo);
      vouchers := vouchers[v := voucher];
      assert IdsOf([]) == {};
      for i := 0 to |lines|
        invariant Tracked(txns, summary, moves) && vouchers == v0[v := voucher]
        invariant Overlay(t0, txns, IdsOf(lines[..i])) && RowsHeld(txns, v, voucher, lines[..i])
        invariant forall l :: l in lines[..i] ==> l.id !in t0 && Enabled(l.account)
        invariant DistinctIds(lines[..i]) && moves == m0
      {
        var l := lines[i];
        ghost var before := txns;
        assert lines[..i + 1] == lines[..i] + [l];
        if l.account !in accounts || !accounts[l.account] {
          Rollback(v0, t0, s0, m0);
          return false;
        }
        ok := InsertRow(l.id, AcTxn(l.account, branch, date, l.credit, l.debit, memo, false, Some(v)));
        if !ok {
          ClashingId(t0, before, lines, i);
          Rollback(v0, t0, s0, m0);
          return;
        }
        RowsStep(before, txns, v, voucher, lines[..i], l);
      }
      ok := true;
      assert lines[..|lines|] == lines;
      NewVoucherAgrees(v0, t0, txns, bookBegin, v, voucher, lines);
    }

    /** `insert into ac_txn ... on conflict (id) do update`. */
    method UpsertRow(v: int, voucher: Voucher, l: AcLine)
      requires Tracked(txns, summary, moves)
      requires l.id in txns ==>
                 txns[l.id].(date := voucher.date, credit := l.credit, debit := l.debit) == RowOf(v, voucher, l)
      modifies this`txns, this`summary, this`moves
      ensures txns == old(txns)[l.id := RowOf(v, voucher, l)] && Tracked(txns, summary, moves)
      ensures moves == old(moves) + if l.id in old(txns) then MovesOf(old(txns)[l.id], RowOf(v, voucher, l)) else []
    {
      hide Tracked, MovesOf;
      if l.id in txns {
        UpdateRow(l.id, voucher.date, l.credit, l.debit);
      } else {
        var ok := InsertRow(l.id, AcTxn(l.account, voucher.branch, voucher.date, l.credit, l.debit, voucher.memo, false, Some(v)));
      }
    }

    /** `update_voucher` with `update_ac_txn`: rows of the voucher whose (id, account) the list lacks are deleted, then
        the list is upserted on the id. */
    method UpdateVoucher(v: int, date: Day, lines: seq<AcLine>) returns (ok: bool)
      requires Valid() && OwnIds(txns, v, lines)
      modifies this`vouchers, this`txns, this`summary, this`moves
      ensures Valid()
      ensures ok <==> v in old(vouchers) && forall l :: l in lines ==> Enabled(l.account)
      ensures !ok ==> vouchers == old(vouchers) && txns == old(txns) && summary == old(summary) && moves == old(moves)
      ensures ok ==> && vouchers == old(vouchers)[v := old(vouchers)[v].(date := date)]
                     && RowsOf(txns, v) == IdsOf(lines) && RowsHeld(txns, v, vouchers[v], lines)
                     && txns - IdsOf(lines) == old(txns) - RowsOf(old(txns), v)
                     && moves == old(moves) + MovesOfLines(old(txns), v, vouchers[v], lines)
    {
      hide Tracked, RowsAgree, MovesOfLines, MovesOf, Overlay, RowsHeld, OwnIds, Missed;
      if v !in vouchers {
        return false;
      }
      var v0, t0, s0 := vouchers, txns, summary;
      ghost var m0 := moves;
      var voucher := vouchers[v].(date := date);
      vouchers := vouchers[v := voucher];
      MissedIsThere(txns, v, lines);
      DeleteRows(Missed(txns, v, lines));
      ghost var base := txns;
      NothingYet(base, t0, v, voucher);
      for i := 0 to |lines|
        invariant Tracked(txns, summary, moves) && vouchers == v0[v := voucher]
        invariant Overlay(base, txns, IdsOf(lines[..i])) && RowsHeld(txns, v, voucher, lines[..i])
        invariant forall l :: l in lines[..i] ==> Enabled(l.account)
        invariant moves == m0 + MovesOfLines(t0, v, voucher, lines[..i])
      {
        var l := lines[i];
        ghost var before := txns;
        assert lines[..i + 1] == lines[..i] + [l];
        if l.account !in accounts || !accounts[l.account] {
          assert l in lines;
          Rollback(v0, t0, s0, m0);
          return false;
        }
        KeptRow(v0, t0, base, before, bookBegin, v, date, lines, i);
        LastMoves(t0, v, voucher, lines[..i], l);
        UpsertRow(v, voucher, l);
        RowsStep(before, txns, v, voucher, lines[..i], l);
        OverlayStep(base, before, IdsOf(lines[..i]), l.id, RowOf(v, voucher, l));
      }
      ok := true;
      assert lines[..|lines|] == lines;
      VoucherRewritten(v0, t0, base, txns, bookBegin, v, date, lines);
      OpeningsAfterVoucher(t0, txns, v, voucher, lines, RowsOf(t0, v));
    }

    /** `delete from voucher where id = v`: the rows go by cascade, each through its trigger. */
    method DeleteVoucher(v: int)
      requires Valid()
      modifies this`vouchers, this`txns, this`summary
      ensures Valid()
      ensures vouchers == old(vouchers) - {v} && txns == old(txns) - RowsOf(old(txns), v)
    {
      hide Tracked;
      DeleteRows(RowsOf(txns, v));
      vouchers := vouchers - {v};
    }

    /** `set_account_opening`, its `ac_txn` part: both amounts zero removes the opening, otherwise it is updated or, with
        the drawn id `id`, inserted, dated the day before the books begin. */
    method SetOpening(account: int, branch: int, credit: real, debit: real, id: Uuid) returns (ok: bool)
      requires Valid() && id !in txns
      modifies this`txns, this`summary, this`moves
      ensures Valid() && moves == old(moves)
      ensures ok <==> (credit == 0.0 && debit == 0.0) || OpeningRows(old(txns), account, branch) != {} || account in accounts
      ensures !ok ==> txns == old(txns) && summary == old(summary)
      ensures ok && credit == 0.0 && debit == 0.0 ==> txns == old(txns) - OpeningRows(old(txns), account, branch)
      ensures ok && !(credit == 0.0 && debit == 0.0) ==>
                OpeningHeld(old(txns), txns, AcTxn(account, branch, bookBegin - 1, credit, debit, false, true, None))
    {
      hide Tracked;
      var ids := OpeningRows(txns, account, branch);
      ok := true;
      if credit == 0.0 && debit == 0.0 {
        DeleteRows(ids);
        return;
      }
      var row := AcTxn(account, branch, bookBegin - 1, credit, debit, false, true, None);
      if ids == {} {
        if account !in accounts {
          return false;
        }
        OpeningPut(txns, id, row);
        ok := InsertRow(id, row);
      } else {
        var t := AnyOf(ids);
        OpeningPut(txns, t, row);
        UpdateRow(t, txns[t].date, credit, debit);
      }
    }
  }
}
