/** Counter transactions, their breakups, session closing and settlement: the tables and the procedures that write them. */
module Pos {
  import opened Options
  import opened Sums
  import opened PosModel

  class PosDb {
    const counters: set<Counter>
    const accounts: set<int>
    const cash: Option<int>
    var txns: map<int, Txn>
    var parts: map<PartKey, Part>
    var sessions: map<int, Session>
    var settlements: set<int>
    ghost var carry: Carry

    /** Both tables carry the same stamps, settlements come with sessions, and the petty cash in every till is accounted for. */
    ghost predicate Valid()
      reads this
    {
      && Agree(txns, parts, sessions)
      && Books(txns, sessions, carry)
      && forall s :: s in sessions && sessions[s].settlement.Some? ==> sessions[s].settlement.value in settlements
    }

    constructor (counters: set<Counter>, accounts: set<int>, cash: Option<int>)
      ensures Valid() && txns == map[] && parts == map[] && sessions == map[] && carry == Carry({}, map[], map[], map[])
    {
      this.counters, this.accounts, this.cash := counters, accounts, cash;
      txns, parts, sessions, settlements, carry := map[], map[], map[], {}, Carry({}, map[], map[], map[]);
    }

    /** The loop over the breakup lines of a transaction; stops at a line that cannot be inserted. */
    method InsertBreakup(v: int, items: seq<Item>) returns (ok: bool)
      requires v in txns && PartsOf(parts, v) == {}
      modifies this`parts
      ensures ok <==> Insertable(items, accounts)
      ensures ok ==> parts == old(parts) + Breakup(v, txns[v], items, accounts)
    {
      hide Insertable, SameStamp, PartsOf, PartFor, AllListed, Breakup;
      var was, t := parts, txns[v];
      NothingYet(v, t, items, accounts);
      for i := 0 to |items|
        invariant Insertable(items[..i], accounts) && AllListed(items[..i], accounts)
        invariant parts == was + Breakup(v, t, items[..i], accounts)
      {
        if !Listed(items[i], accounts) {
          Unlisted(items, accounts, i);
          return false;
        }
        var k := (v, items[i].account.value);
        NoPart(was, v, k);
        BreakupStep(v, t, items, accounts, i);
        if k in parts {
          PrefixFails(items, accounts, i + 1);
          return false;
        }
        InsertableListed(items[..i + 1], accounts);
        PutBoth(was, Breakup(v, t, items[..i], accounts), k, PartFor(t, items[i], accounts));
        parts := parts[k := PartFor(t, items[i], accounts)];
      }
      assert items[..|items|] == items;
      ok := true;
    }

    /** The two inserts of `apply_pos_counter_txn`, undone when one fails. */
    method Put(v: int, counter: Counter, kind: string, input: Input) returns (ok: bool)
      requires Agree(txns, parts, sessions)
      modifies this`txns, this`parts
      ensures Agree(txns, parts, sessions)
      ensures ok <==> counter in counters && v !in old(txns) && Fits(input, accounts)
      ensures !ok ==> txns == old(txns) && parts == old(parts)
      ensures ok ==>
                var t := Txn(counter, kind, input.particulars.value, input.amount.value, None, None);
                txns == old(txns)[v := t] && parts == old(parts) + Breakup(v, t, input.breakup, accounts)
    {
      if counter !in counters || v in txns || input.amount == None || input.particulars == None || input.breakup == [] {
        return false;
      }
      var was, before := txns, parts;
      assert PartsOf(parts, v) == {};
      txns := txns[v := Txn(counter, kind, input.particulars.value, input.amount.value, None, None)];
      ok := InsertBreakup(v, input.breakup);
      if !ok {
        txns, parts := was, before;
      }
    }

    /** `apply_pos_counter_txn`. */
    method Apply(v: int, counter: Counter, kind: string, input: Input) returns (ok: bool)
      requires Valid()
      modifies this`txns, this`parts
      ensures Valid()
      ensures ok <==> counter in counters && v !in old(txns) && Fits(input, accounts)
      ensures !ok ==> txns == old(txns) && parts == old(parts)
      ensures ok ==>
                var t := Txn(counter, kind, input.particulars.value, input.amount.value, None, None);
                txns == old(txns)[v := t] && parts == old(parts) + Breakup(v, t, input.breakup, accounts)
    {
      hide Books, Agree, Fits;
      ghost var was := txns;
      ok := Put(v, counter, kind, input);
      if ok {
        ApplyBooks(was, sessions, carry, v, txns[v]);
      }
    }

    /** `update_pos_counter_txn`: a settled transaction, or a voucher without one, is left alone; any other gets its new amount
        and a new breakup under the session it had. */
    method Update(v: int, input: Input) returns (ok: bool)
      requires Valid()
      modifies this`txns, this`parts, this`carry
      ensures Valid()
      ensures ok <==> v !in old(txns) || old(txns)[v].settlement.Some? || Fits(input, accounts)
      ensures !ok || v !in old(txns) || old(txns)[v].settlement.Some? ==>
                txns == old(txns) && parts == old(parts) && carry == old(carry)
      ensures ok && v in old(txns) && old(txns)[v].settlement == None ==>
                var t := old(txns)[v].(amount := input.amount.value, particulars := input.particulars.value);
                && txns == old(txns)[v := t]
                && parts == old(parts) - PartsOf(old(parts), v) + Breakup(v, t, input.breakup, accounts)
                && carry == Edited(old(carry), v, old(txns)[v], t.amount)
    {
      hide Books;
      if v !in txns || txns[v].settlement.Some? {
        return true;
      }
      if input.amount == None || input.particulars == None || input.breakup == [] {
        return false;
      }
      var was, before := txns, parts;
      txns := txns[v := txns[v].(amount := input.amount.value, particulars := input.particulars.value)];
      parts := parts - PartsOf(parts, v);
      ok := InsertBreakup(v, input.breakup);
      if !ok {
        txns, parts := was, before;
      } else {
        EditBooks(was, sessions, carry, v, txns[v]);
        carry := Edited(carry, v, was[v], txns[v].amount);
        UpdateAgrees(was, before, sessions, v, txns[v], input.breakup, accounts);
      }
    }

    /** Deleting a voucher takes its transaction and breakup along, settled or not. */
    method Delete(v: int)
      requires Valid()
      modifies this`txns, this`parts, this`carry
      ensures Valid()
      ensures txns == old(txns) - {v} && parts == old(parts) - PartsOf(old(parts), v)
      ensures carry == if v in old(txns) then Deleted(old(carry), v, old(txns)[v]) else old(carry)
    {
      hide Books, Agree;
      DeleteAgrees(txns, parts, sessions, v);
      if v in txns {
        DeleteBooks(txns, sessions, carry, v);
        carry := Deleted(carry, v, txns[v]);
      }
      if v !in txns {
        assert txns - {v} == txns;
      }
      parts := parts - PartsOf(parts, v);
      txns := txns - {v};
    }

    /** Inserting a session row; its trigger stamps what the counter has booked since the last one. */
    method InsertSession(c: Counter) returns (ok: bool, k: int)
      requires Agree(txns, parts, sessions)
      modifies this`txns, this`parts, this`sessions
      ensures Agree(txns, parts, sessions)
      ensures ok <==> c in counters
      ensures !ok ==> txns == old(txns) && parts == old(parts) && sessions == old(sessions)
      ensures ok ==> && k !in old(sessions) && sessions == old(sessions)[k := Session(c, None)]
                     && txns == CloseTxns(old(txns), c, k) && parts == CloseParts(old(parts), c, k)
    {
      hide Agree, CloseTxns, CloseParts;
      k := NotIn(sessions.Keys);
      ok := c in counters;
      if ok {
        CloseAgrees(txns, parts, sessions, c, k);
        sessions := sessions[k := Session(c, None)];
        parts := CloseParts(parts, c, k);
        txns := CloseTxns(txns, c, k);
      }
    }

    /** The voucher that `build_session_close_voucher_data` describes: one breakup line, on the default cash account. */
    method PutPetty(v: int, c: Counter, x: real) returns (ok: bool)
      requires Agree(txns, parts, sessions) && v !in txns
      modifies this`txns, this`parts
      ensures Agree(txns, parts, sessions)
      ensures ok <==> c in counters && cash.Some? && cash.value in accounts
      ensures !ok ==> txns == old(txns) && parts == old(parts)
      ensures ok ==> txns == old(txns)[v := PettyTxn(c, x)] && parts == old(parts) + PettyBreakup(v, c, x, cash, accounts)
    {
      hide Agree, Fits;
      PettyFits(cash, x, accounts);
      ok := Put(v, c, "CONTRA", Input(Some(x), Some("Cash"), [PettyItem(cash, x)]));
    }

    /** `close_pos_session`. Petty cash carried forward is paid out by a voucher made before the session row, which the insert
        trigger therefore stamps, and paid back in by one made after, which opens the next session. */
    method Close(c: Counter, petty: Option<real>, outV: int, inV: int) returns (ok: bool, k: int)
      requires Valid() && outV !in txns && inV !in txns && outV != inV
      modifies this`txns, this`parts, this`sessions, this`carry
      ensures Valid()
      ensures ok <==> c in counters && (petty.Some? && petty.value > 0.0 ==> cash.Some? && cash.value in accounts)
      ensures ok ==> TxnsClosed(old(txns), txns, c, k, petty, outV, inV)
      ensures ok ==> PartsClosed(old(parts), parts, c, k, petty, outV, inV, cash)
      ensures !ok ==> txns == old(txns) && parts == old(parts) && sessions == old(sessions) && carry == old(carry)
      ensures ok ==>
                var p := Forward(petty);
                && k !in old(sessions) && sessions == old(sessions)[k := Session(c, None)]
                && txns == AfterClose(old(txns), c, k, p, outV, inV)
                && parts == PartsAfterClose(old(parts), c, k, p, outV, inV, cash, accounts)
                && carry == CarryOn(old(carry), c, k, p, if p > 0.0 then {outV, inV} else {})
    {
      hide Agree, Books, CloseTxns, CloseParts, CarryOn, PettyTxn, PettyBreakup, TxnsClosed, PartsClosed;
      ghost var was, before, rows := txns, parts, sessions;
      var p := Forward(petty);
      if p > 0.0 {
        ok := PutPetty(outV, c, -p);
        if !ok {
          return false, 0;
        }
      }
      ok, k := InsertSession(c);
      if !ok {
        return;
      }
      if p > 0.0 {
        NotStamped(was, outV, c, -p, k);
        ok := PutPetty(inV, c, p);
      }
      NoneIn(was, before, rows, k);
      CloseBooks(was, rows, carry, c, k, p, outV, inV);
      carry := CarryOn(carry, c, k, p, if p > 0.0 then {outV, inV} else {});
      ClosesTxns(was, c, k, petty, outV, inV);
      ClosesParts(before, c, k, petty, outV, inV, cash, accounts);
    }

    /** `create_pos_settlement`: fails when no closed session of the counters is unsettled. Otherwise exactly those sessions and
        their rows get the settlement; nothing that is settled changes. */
    method Settle(codes: seq<Counter>) returns (ok: bool, n: int)
      requires Valid()
      modifies this`txns, this`parts, this`sessions, this`settlements
      ensures Valid()
      ensures ok <==> exists s :: s in old(sessions) && old(sessions)[s].counter in codes && old(sessions)[s].settlement == None
      ensures !ok ==> txns == old(txns) && parts == old(parts) && sessions == old(sessions) && settlements == old(settlements)
      ensures sessions.Keys == old(sessions).Keys && txns.Keys == old(txns).Keys && parts.Keys == old(parts).Keys
      ensures ok ==> n !in old(settlements) && settlements == old(settlements) + {n}
      ensures ok ==> forall s :: s in sessions ==>
                sessions[s] == if old(sessions)[s].counter in codes && old(sessions)[s].settlement == None
                               then old(sessions)[s].(settlement := Some(n)) else old(sessions)[s]
      ensures ok ==> forall v :: v in txns ==>
                txns[v] == if old(txns)[v].session.Some? && old(txns)[v].counter in codes && old(txns)[v].settlement == None
                           then old(txns)[v].(settlement := Some(n)) else old(txns)[v]
      ensures ok ==> forall k :: k in parts ==>
                parts[k] == if old(parts)[k].session.Some? && old(parts)[k].counter in codes && old(parts)[k].settlement == None
                            then old(parts)[k].(settlement := Some(n)) else old(parts)[k]
      ensures forall v :: v in txns && old(txns)[v].settlement.Some? ==> txns[v] == old(txns)[v]
      ensures forall k :: k in parts && old(parts)[k].settlement.Some? ==> parts[k] == old(parts)[k]
    {
      hide Agree, Books;
      n := NotIn(settlements);
      var ids := Settleable(sessions, codes);
      if ids == {} {
        assert forall s :: s in sessions ==> s !in Settleable(sessions, codes);
        return false, n;
      }
      ghost var s := AnyOf(ids);
      SettleAgrees(txns, parts, sessions, ids, n);
      SettleBooks(txns, sessions, carry, ids, n);
      StampsOf(txns, parts, sessions);
      settlements := settlements + {n};
      sessions := SettleSessions(sessions, ids, n);
      txns := SettleTxns(txns, ids, n);
      parts := SettleParts(parts, ids, n);
      ok := true;
    }
  }
}
