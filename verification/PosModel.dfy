/** Counter takings as values: transactions and their breakup rows, stamped by the session that closes over them and the
    settlement that settles it, and the petty cash carried from one session of a counter to the next. */
module PosModel {
  import opened Options
  import opened Sums
  import opened Money

  type Counter = string

  datatype Txn = Txn(counter: Counter, kind: string, particulars: string, amount: real, session: Option<int>, settlement: Option<int>)

  datatype Part = Part(counter: Counter, credit: real, debit: real, session: Option<int>, settlement: Option<int>)

  datatype Session = Session(counter: Counter, settlement: Option<int>)

  /** Breakup rows are keyed by voucher and account. */
  type PartKey = (int, int)

  /** A request: SQL nulls where the caller left something out. */
  datatype Item = Item(account: Option<int>, credit: Option<real>, debit: Option<real>)

  datatype Input = Input(amount: Option<real>, particulars: Option<string>, breakup: seq<Item>)

  predicate Listed(item: Item, accounts: set<int>) {
    item.account.Some? && item.account.value in accounts && item.credit.Some? && item.debit.Some?
  }

  predicate AllListed(items: seq<Item>, accounts: set<int>) {
    forall i :: 0 <= i < |items| ==> Listed(items[i], accounts)
  }

  /** Lines that can all be inserted for one voucher. */
  predicate Insertable(items: seq<Item>, accounts: set<int>) {
    AllListed(items, accounts) && forall i, j :: 0 <= i < j < |items| ==> items[i].account != items[j].account
  }

  /** An empty breakup aggregates to null, which cannot be looped over. */
  predicate Fits(input: Input, accounts: set<int>) {
    input.amount.Some? && input.particulars.Some? && input.breakup != [] && Insertable(input.breakup, accounts)
  }

  function PartFor(t: Txn, item: Item, accounts: set<int>): Part
    requires Listed(item, accounts)
  {
    Part(t.counter, item.credit.value, item.debit.value, t.session, t.settlement)
  }

  /** The breakup rows of a transaction. */
  function Breakup(v: int, t: Txn, items: seq<Item>, accounts: set<int>): (rows: map<PartKey, Part>)
    requires AllListed(items, accounts)
    ensures forall k :: k in rows ==> k.0 == v && SameStamp(t, rows[k])
  {
    if items == [] then map[]
    else
      var last := items[|items| - 1];
      Breakup(v, t, items[..|items| - 1], accounts)[(v, last.account.value) := PartFor(t, last, accounts)]
  }

  lemma {:induction false} BreakupHas(v: int, t: Txn, items: seq<Item>, accounts: set<int>, a: int)
    requires AllListed(items, accounts)
    ensures (v, a) in Breakup(v, t, items, accounts) <==> exists j :: 0 <= j < |items| && items[j].account == Some(a)
  {
    if items != [] {
      BreakupHas(v, t, items[..|items| - 1], accounts, a);
    }
  }

  /** One row per line: its account, its amounts, and the transaction's counter, session and settlement. */
  lemma {:induction false} BreakupRows(v: int, t: Txn, items: seq<Item>, accounts: set<int>)
    requires Insertable(items, accounts)
    ensures var rows := Breakup(v, t, items, accounts);
      && (forall k :: k in rows <==> k.0 == v && exists i :: 0 <= i < |items| && items[i].account == Some(k.1))
      && forall i :: 0 <= i < |items| ==>
           rows[(v, items[i].account.value)]
           == Part(t.counter, items[i].credit.value, items[i].debit.value, t.session, t.settlement)
  {
    forall a ensures (v, a) in Breakup(v, t, items, accounts) <==> exists i :: 0 <= i < |items| && items[i].account == Some(a) {
      BreakupHas(v, t, items, accounts, a);
    }
    if items != [] {
      var less := items[..|items| - 1];
      assert forall i :: 0 <= i < |less| ==> less[i] == items[i];
      BreakupRows(v, t, less, accounts);
    }
  }

  function PartsOf(parts: map<PartKey, Part>, v: int): set<PartKey> { set k | k in parts && k.0 == v }

  /** A line whose account is new for the voucher can be added. */
  lemma BreakupStep(v: int, t: Txn, items: seq<Item>, accounts: set<int>, i: nat)
    requires i < |items| && Insertable(items[..i], accounts)
    requires Listed(items[i], accounts)
    ensures Insertable(items[..i + 1], accounts) <==> (v, items[i].account.value) !in Breakup(v, t, items[..i], accounts)
    ensures Breakup(v, t, items[..i + 1], accounts) ==
            Breakup(v, t, items[..i], accounts)[(v, items[i].account.value) := PartFor(t, items[i], accounts)]
  {
    var more := items[..i + 1];
    assert more[..i] == items[..i];
    BreakupHas(v, t, items[..i], accounts, items[i].account.value);
    if j :| 0 <= j < i && items[..i][j].account == items[i].account {
      assert more[j].account == more[i].account;
    }
  }

  lemma NothingYet(v: int, t: Txn, items: seq<Item>, accounts: set<int>)
    ensures Insertable(items[..0], accounts) && Breakup(v, t, items[..0], accounts) == map[]
  {
  }

  lemma NoPart(parts: map<PartKey, Part>, v: int, k: PartKey)
    requires PartsOf(parts, v) == {} && k.0 == v
    ensures k !in parts
  {
    assert k in parts ==> k in PartsOf(parts, v);
  }

  /** Adding one row on both sides. */
  lemma PutBoth(was: map<PartKey, Part>, rows: map<PartKey, Part>, k: PartKey, p: Part)
    ensures was + rows[k := p] == (was + rows)[k := p]
  {
  }

  lemma InsertableListed(items: seq<Item>, accounts: set<int>)
    requires Insertable(items, accounts)
    ensures AllListed(items, accounts)
  {
  }

  lemma Unlisted(items: seq<Item>, accounts: set<int>, i: nat)
    requires i < |items| && !Listed(items[i], accounts)
    ensures !Insertable(items, accounts)
  {
  }

  lemma PrefixFails(items: seq<Item>, accounts: set<int>, i: nat)
    requires i <= |items| && !Insertable(items[..i], accounts)
    ensures !Insertable(items, accounts)
  {
    if Insertable(items, accounts) {
      assert Insertable(items[..i], accounts);
    }
  }

  // ---- stamps --------------------------------------------------------------------------------------------------

  predicate SameStamp(t: Txn, p: Part) { p.counter == t.counter && p.session == t.session && p.settlement == t.settlement }

  predicate StampedBy(t: Txn, sessions: map<int, Session>) {
    match t.session
    case None => t.settlement == None
    case Some(s) => s in sessions && sessions[s] == Session(t.counter, t.settlement)
  }

  /** Both tables carry the same stamps, and a settlement comes only with the session it settles. */
  ghost predicate Agree(txns: map<int, Txn>, parts: map<PartKey, Part>, sessions: map<int, Session>) {
    && (forall k :: k in parts ==> k.0 in txns && SameStamp(txns[k.0], parts[k]))
    && (forall v :: v in txns ==> StampedBy(txns[v], sessions))
  }

  function CloseTxns(txns: map<int, Txn>, c: Counter, s: int): map<int, Txn> {
    map v | v in txns :: if txns[v].session == None && txns[v].counter == c then txns[v].(session := Some(s)) else txns[v]
  }

  function CloseParts(parts: map<PartKey, Part>, c: Counter, s: int): map<PartKey, Part> {
    map k | k in parts :: if parts[k].session == None && parts[k].counter == c then parts[k].(session := Some(s)) else parts[k]
  }

  lemma CloseAgrees(txns: map<int, Txn>, parts: map<PartKey, Part>, sessions: map<int, Session>, c: Counter, s: int)
    requires Agree(txns, parts, sessions) && s !in sessions
    ensures Agree(CloseTxns(txns, c, s), CloseParts(parts, c, s), sessions[s := Session(c, None)])
  {
    var now, closed := CloseTxns(txns, c, s), CloseParts(parts, c, s);
    forall k | k in closed ensures k.0 in now && SameStamp(now[k.0], closed[k]) {
      assert SameStamp(txns[k.0], parts[k]);
    }
    forall v | v in now ensures StampedBy(now[v], sessions[s := Session(c, None)]) {
      assert StampedBy(txns[v], sessions);
    }
  }

  lemma DeleteAgrees(txns: map<int, Txn>, parts: map<PartKey, Part>, sessions: map<int, Session>, v: int)
    requires Agree(txns, parts, sessions)
    ensures Agree(txns - {v}, parts - PartsOf(parts, v), sessions)
  {
  }

  /** New lines carry their transaction's stamps. */
  lemma UpdateAgrees(txns: map<int, Txn>, parts: map<PartKey, Part>, sessions: map<int, Session>, v: int, t: Txn,
                     items: seq<Item>, accounts: set<int>)
    requires Agree(txns, parts, sessions) && v in txns && Insertable(items, accounts)
    requires t == txns[v].(amount := t.amount, particulars := t.particulars)
    ensures Agree(txns[v := t], parts - PartsOf(parts, v) + Breakup(v, t, items, accounts), sessions)
  {
    var now, after := txns[v := t], parts - PartsOf(parts, v) + Breakup(v, t, items, accounts);
    forall k | k in after ensures k.0 in now && SameStamp(now[k.0], after[k]) {
      assert k !in Breakup(v, t, items, accounts) ==> SameStamp(txns[k.0], parts[k]);
    }
    forall j | j in now ensures StampedBy(now[j], sessions) {
      assert StampedBy(txns[j], sessions);
    }
  }

  /** The closed, unsettled sessions of some counters. */
  function Settleable(sessions: map<int, Session>, codes: seq<Counter>): set<int> {
    set s | s in sessions && sessions[s].counter in codes && sessions[s].settlement == None
  }

  function SettleSessions(sessions: map<int, Session>, ids: set<int>, n: int): map<int, Session> {
    map s | s in sessions :: if s in ids then sessions[s].(settlement := Some(n)) else sessions[s]
  }

  function SettleTxns(txns: map<int, Txn>, ids: set<int>, n: int): map<int, Txn> {
    map v | v in txns ::
      if txns[v].session.Some? && txns[v].session.value in ids then txns[v].(settlement := Some(n)) else txns[v]
  }

  function SettleParts(parts: map<PartKey, Part>, ids: set<int>, n: int): map<PartKey, Part> {
    map k | k in parts ::
      if parts[k].session.Some? && parts[k].session.value in ids then parts[k].(settlement := Some(n)) else parts[k]
  }

  lemma SettleAgrees(txns: map<int, Txn>, parts: map<PartKey, Part>, sessions: map<int, Session>, ids: set<int>, n: int)
    requires Agree(txns, parts, sessions)
    ensures Agree(SettleTxns(txns, ids, n), SettleParts(parts, ids, n), SettleSessions(sessions, ids, n))
  {
    var now, settled := SettleTxns(txns, ids, n), SettleParts(parts, ids, n);
    forall k | k in settled ensures k.0 in now && SameStamp(now[k.0], settled[k]) {
      assert SameStamp(txns[k.0], parts[k]);
    }
    forall v | v in now ensures StampedBy(now[v], SettleSessions(sessions, ids, n)) {
      assert StampedBy(txns[v], sessions);
    }
  }

  /** A row has its session's counter and settlement. */
  lemma StampsOf(txns: map<int, Txn>, parts: map<PartKey, Part>, sessions: map<int, Session>)
    requires Agree(txns, parts, sessions)
    ensures forall v :: v in txns && txns[v].session.Some? ==>
              var s := txns[v].session.value;
              s in sessions && sessions[s].counter == txns[v].counter && sessions[s].settlement == txns[v].settlement
    ensures forall v :: v in txns && txns[v].session == None ==> txns[v].settlement == None
    ensures forall k :: k in parts && parts[k].session.Some? ==>
              var s := parts[k].session.value;
              s in sessions && sessions[s].counter == parts[k].counter && sessions[s].settlement == parts[k].settlement
    ensures forall k :: k in parts && parts[k].session == None ==> parts[k].settlement == None
  {
    forall v | v in txns ensures StampedBy(txns[v], sessions) {}
  }

  // ---- takings by session --------------------------------------------------------------------------------------

  /** Where a transaction counts: the open session of its counter, or a closed one. */
  datatype Till = Open(counter: Counter) | Closed(session: int)

  function TillOf(t: Txn): Till { if t.session.Some? then Closed(t.session.value) else Open(t.counter) }

  ghost function InTill(keep: int -> bool, x: Till): (int, Txn) -> real {
    (v, t: Txn) => if keep(v) && TillOf(t) == x then t.amount else 0.0
  }

  function Any(): int -> bool { _ => true }

  function Carries(petty: set<int>): int -> bool { v => v in petty }

  function Takes(petty: set<int>): int -> bool { v => v !in petty }

  /** Everything booked in a till, what customers paid, and what carried petty cash. */
  ghost function Net(txns: map<int, Txn>, x: Till): real { Sum(txns, InTill(Any(), x)) }

  ghost function Real(txns: map<int, Txn>, petty: set<int>, x: Till): real { Sum(txns, InTill(Takes(petty), x)) }

  ghost function Petty(txns: map<int, Txn>, petty: set<int>, x: Till): real { Sum(txns, InTill(Carries(petty), x)) }

  lemma NetInTwo(txns: map<int, Txn>, petty: set<int>, x: Till)
    ensures Net(txns, x) == Real(txns, petty, x) + Petty(txns, petty, x)
  {
    SumAdd(txns, InTill(Takes(petty), x), InTill(Carries(petty), x), InTill(Any(), x));
  }

  // ---- petty cash ----------------------------------------------------------------------------------------------

  /** History, kept only to state what the tables mean: which vouchers carry petty cash, each counter's closed sessions in
      order, what each close carried forward, and what later edits and deletions of petty vouchers added to each till. */
  datatype Carry = Carry(petty: set<int>, chain: map<Counter, seq<int>>, paid: map<int, real>, slip: map<Till, real>)

  function Chain(carry: Carry, c: Counter): seq<int> { if c in carry.chain then carry.chain[c] else [] }

  function Slip(carry: Carry, x: Till): real { if x in carry.slip then carry.slip[x] else 0.0 }

  function Paid(carry: Carry, s: int): real { if s in carry.paid then carry.paid[s] else 0.0 }

  /** What the session at place `i` of a counter's chain found in the till. */
  function Found(carry: Carry, ks: seq<int>, i: nat): real
    requires i <= |ks|
  {
    if i == 0 then 0.0 else Paid(carry, ks[i - 1])
  }

  /** Each counter's chain lists exactly its sessions, once. */
  ghost predicate Chained(sessions: map<int, Session>, carry: Carry) {
    && (forall c, i :: c in carry.chain && 0 <= i < |carry.chain[c]| ==>
          carry.chain[c][i] in sessions && sessions[carry.chain[c][i]].counter == c)
    && (forall c, i, j :: c in carry.chain && 0 <= i < j < |carry.chain[c]| ==> carry.chain[c][i] != carry.chain[c][j])
    && (forall s :: s in sessions ==> s in Chain(carry, sessions[s].counter))
  }

  /** The petty cash in a till, setting later edits aside. */
  ghost function Owed(txns: map<int, Txn>, carry: Carry, x: Till): real { Petty(txns, carry.petty, x) - Slip(carry, x) }

  /** Petty cash in a till is what was found less what was carried forward. */
  ghost predicate BookedFor(txns: map<int, Txn>, carry: Carry, ks: seq<int>, c: Counter) {
    && Owed(txns, carry, Open(c)) == Found(carry, ks, |ks|)
    && forall i :: 0 <= i < |ks| ==> Owed(txns, carry, Closed(ks[i])) == Found(carry, ks, i) - Paid(carry, ks[i])
  }

  ghost predicate Booked(txns: map<int, Txn>, carry: Carry) {
    forall c: Counter :: BookedFor(txns, carry, Chain(carry, c), c)
  }

  ghost predicate Books(txns: map<int, Txn>, sessions: map<int, Session>, carry: Carry) {
    && carry.petty <= txns.Keys
    && Chained(sessions, carry)
    && Booked(txns, carry)
  }

  lemma SameBooked(was: map<int, Txn>, now: map<int, Txn>, carry: Carry, after: Carry)
    requires Booked(was, carry) && after.chain == carry.chain && after.paid == carry.paid
    requires forall x :: Owed(now, after, x) == Owed(was, carry, x)
    ensures Booked(now, after)
  {
    hide Owed, Paid;
    forall c: Counter ensures BookedFor(now, after, Chain(after, c), c) {
      SameBookedFor(was, now, carry, after, Chain(carry, c), c);
    }
  }

  lemma SameBookedFor(was: map<int, Txn>, now: map<int, Txn>, carry: Carry, after: Carry, ks: seq<int>, c: Counter)
    requires BookedFor(was, carry, ks, c) && after.paid == carry.paid
    requires forall x :: Owed(now, after, x) == Owed(was, carry, x)
    ensures BookedFor(now, after, ks, c)
  {
    hide Owed;
    forall i | 0 <= i <= |ks| ensures Found(after, ks, i) == Found(carry, ks, i) {}
  }

  lemma ApplyBooks(txns: map<int, Txn>, sessions: map<int, Session>, carry: Carry, v: int, t: Txn)
    requires Books(txns, sessions, carry) && v !in txns
    ensures Books(txns[v := t], sessions, carry)
  {
    forall x ensures Owed(txns[v := t], carry, x) == Owed(txns, carry, x) {
      SumPut(txns, InTill(Carries(carry.petty), x), v, t);
    }
    SameBooked(txns, txns[v := t], carry, carry);
  }

  /** An edit of a petty voucher shifts its till by the difference. */
  function Edited(carry: Carry, v: int, was: Txn, amount: real): Carry {
    if v in carry.petty then carry.(slip := carry.slip[TillOf(was) := Slip(carry, TillOf(was)) + amount - was.amount]) else carry
  }

  lemma EditBooks(txns: map<int, Txn>, sessions: map<int, Session>, carry: Carry, v: int, t: Txn)
    requires Books(txns, sessions, carry) && v in txns && TillOf(t) == TillOf(txns[v])
    ensures Books(txns[v := t], sessions, Edited(carry, v, txns[v], t.amount))
  {
    var after := Edited(carry, v, txns[v], t.amount);
    forall x ensures Owed(txns[v := t], after, x) == Owed(txns, carry, x) {
      SumPut(txns, InTill(Carries(carry.petty), x), v, t);
    }
    SameBooked(txns, txns[v := t], carry, after);
  }

  function Deleted(carry: Carry, v: int, was: Txn): Carry {
    if v in carry.petty
    then carry.(petty := carry.petty - {v}, slip := carry.slip[TillOf(was) := Slip(carry, TillOf(was)) - was.amount])
    else carry
  }

  lemma DeleteBooks(txns: map<int, Txn>, sessions: map<int, Session>, carry: Carry, v: int)
    requires Books(txns, sessions, carry) && v in txns
    ensures Books(txns - {v}, sessions, Deleted(carry, v, txns[v]))
  {
    var after := Deleted(carry, v, txns[v]);
    forall x ensures Owed(txns - {v}, after, x) == Owed(txns, carry, x) {
      SumTake(txns, InTill(Carries(carry.petty), x), v);
      SumCong(txns - {v}, InTill(Carries(carry.petty), x), txns - {v}, InTill(Carries(after.petty), x));
    }
    SameBooked(txns, txns - {v}, carry, after);
  }

  // ---- closing a session ---------------------------------------------------------------------------------------

  /** A petty cash voucher books the default cash account, and its breakup is that one line. */
  function PettyTxn(c: Counter, amount: real): Txn { Txn(c, "CONTRA", "Cash", amount, None, None) }

  function PettyItem(cash: Option<int>, amount: real): Item {
    Item(cash, Some(if amount < 0.0 then -amount else 0.0), Some(if amount < 0.0 then 0.0 else amount))
  }

  /** The transactions after a close that carries `p` forward: paid out by a voucher the close stamps, paid back in by one it
      does not. */
  function AfterClose(txns: map<int, Txn>, c: Counter, k: int, p: real, outV: int, inV: int): map<int, Txn> {
    if p > 0.0 then CloseTxns(txns[outV := PettyTxn(c, -p)], c, k)[inV := PettyTxn(c, p)] else CloseTxns(txns, c, k)
  }

  /** What a close carries forward. */
  function Forward(petty: Option<real>): real { if petty.Some? && petty.value > 0.0 then petty.value else 0.0 }

  function PettyBreakup(v: int, c: Counter, x: real, cash: Option<int>, accounts: set<int>): map<PartKey, Part>
    requires cash.Some? && cash.value in accounts
  {
    Breakup(v, PettyTxn(c, x), [PettyItem(cash, x)], accounts)
  }

  /** The breakups after a close. */
  function PartsAfterClose(parts: map<PartKey, Part>, c: Counter, k: int, p: real, outV: int, inV: int, cash: Option<int>,
                           accounts: set<int>): map<PartKey, Part>
    requires p > 0.0 ==> cash.Some? && cash.value in accounts
  {
    if p > 0.0 then
      CloseParts(parts + PettyBreakup(outV, c, -p, cash, accounts), c, k) + PettyBreakup(inV, c, p, cash, accounts)
    else
      CloseParts(parts, c, k)
  }

  /** Row by row: what the counter had booked since its last close belongs to session `k`, and if petty cash is carried, one
      voucher pays it out in that session and one pays it into the next. */
  ghost predicate TxnsClosed(was: map<int, Txn>, now: map<int, Txn>, c: Counter, k: int, petty: Option<real>, outV: int, inV: int) {
    var carries := petty.Some? && petty.value > 0.0;
    && (forall v :: v in now <==> v in was || (carries && v in {outV, inV}))
    && (forall v :: v in was && (carries ==> v !in {outV, inV}) ==>
          now[v] == if was[v].counter == c && was[v].session == None then was[v].(session := Some(k)) else was[v])
    && (carries ==> && now[outV] == Txn(c, "CONTRA", "Cash", -petty.value, Some(k), None)
                    && now[inV] == Txn(c, "CONTRA", "Cash", petty.value, None, None))
  }

  /** The breakup rows likewise, on the default cash account. */
  ghost predicate PartsClosed(was: map<PartKey, Part>, now: map<PartKey, Part>, c: Counter, k: int, petty: Option<real>, outV: int,
                              inV: int, cash: Option<int>)
  {
    var carries := petty.Some? && petty.value > 0.0;
    && (carries ==> cash.Some?)
    && (forall j :: j in now <==> j in was || (carries && j in {(outV, cash.value), (inV, cash.value)}))
    && (forall j :: j in was && (carries ==> j.0 !in {outV, inV}) ==>
          now[j] == if was[j].counter == c && was[j].session == None then was[j].(session := Some(k)) else was[j])
    && (carries ==> && now[(outV, cash.value)] == Part(c, petty.value, 0.0, Some(k), None)
                    && now[(inV, cash.value)] == Part(c, 0.0, petty.value, None, None))
  }

  lemma ClosesTxns(txns: map<int, Txn>, c: Counter, k: int, petty: Option<real>, outV: int, inV: int)
    requires outV != inV
    ensures TxnsClosed(txns, AfterClose(txns, c, k, Forward(petty), outV, inV), c, k, petty, outV, inV)
  {
  }

  lemma ClosesParts(parts: map<PartKey, Part>, c: Counter, k: int, petty: Option<real>, outV: int, inV: int, cash: Option<int>,
                    accounts: set<int>)
    requires Forward(petty) > 0.0 ==> cash.Some? && cash.value in accounts
    requires outV != inV
    ensures PartsClosed(parts, PartsAfterClose(parts, c, k, Forward(petty), outV, inV, cash, accounts), c, k, petty, outV, inV, cash)
  {
    var p := Forward(petty);
    if p > 0.0 {
      PettyRow(outV, c, -p, cash, accounts);
      PettyRow(inV, c, p, cash, accounts);
      hide PettyBreakup;
    }
  }

  lemma PettyRow(v: int, c: Counter, x: real, cash: Option<int>, accounts: set<int>)
    requires cash.Some? && cash.value in accounts
    ensures PettyBreakup(v, c, x, cash, accounts)
            == map[(v, cash.value) := Part(c, if x < 0.0 then -x else 0.0, if x < 0.0 then 0.0 else x, None, None)]
  {
    var items, t := [PettyItem(cash, x)], PettyTxn(c, x);
    assert items[..|items| - 1] == [];
    assert Breakup(v, t, items, accounts) == map[(v, cash.value) := PartFor(t, items[0], accounts)];
  }

  /** The breakup line of a petty cash voucher books what the voucher does. */
  lemma PettyBalances(v: int, c: Counter, x: real, cash: Option<int>, accounts: set<int>)
    requires cash.Some? && cash.value in accounts
    ensures var rows := PettyBreakup(v, c, x, cash, accounts);
            rows.Keys == {(v, cash.value)} && rows[(v, cash.value)].debit - rows[(v, cash.value)].credit == PettyTxn(c, x).amount
  {
    var items, t := [PettyItem(cash, x)], PettyTxn(c, x);
    assert items[..|items| - 1] == [];
    assert Breakup(v, t, items, accounts) == map[(v, cash.value) := PartFor(t, items[0], accounts)];
  }

  lemma PettyFits(cash: Option<int>, x: real, accounts: set<int>)
    ensures Fits(Input(Some(x), Some("Cash"), [PettyItem(cash, x)]), accounts) <==> cash.Some? && cash.value in accounts
  {
    assert [PettyItem(cash, x)][0].account == cash;
  }

  lemma NotStamped(txns: map<int, Txn>, v: int, c: Counter, x: real, k: int)
    ensures CloseTxns(txns[v := PettyTxn(c, x)], c, k).Keys == txns.Keys + {v}
  {
  }

  lemma NoneIn(txns: map<int, Txn>, parts: map<PartKey, Part>, sessions: map<int, Session>, k: int)
    requires Agree(txns, parts, sessions) && k !in sessions
    ensures forall v :: v in txns ==> txns[v].session != Some(k)
  {
    forall v | v in txns ensures txns[v].session != Some(k) {
      assert StampedBy(txns[v], sessions);
    }
  }

  /** Settling moves nothing from till to till. */
  lemma SettleBooks(txns: map<int, Txn>, sessions: map<int, Session>, carry: Carry, ids: set<int>, n: int)
    requires Books(txns, sessions, carry)
    ensures Books(SettleTxns(txns, ids, n), SettleSessions(sessions, ids, n), carry)
  {
    var now := SettleTxns(txns, ids, n);
    forall v | v in now ensures now[v].amount == txns[v].amount && TillOf(now[v]) == TillOf(txns[v]) {}
    forall x ensures Owed(now, carry, x) == Owed(txns, carry, x) {
      SumCong(now, InTill(Carries(carry.petty), x), txns, InTill(Carries(carry.petty), x));
    }
    SameBooked(txns, now, carry, carry);
  }

  function CarryOn(carry: Carry, c: Counter, k: int, p: real, vouchers: set<int>): Carry {
    Carry(carry.petty + vouchers, carry.chain[c := Chain(carry, c) + [k]], carry.paid[k := p],
          carry.slip[Closed(k) := Slip(carry, Open(c))][Open(c) := 0.0])
  }

  lemma PettyPut(txns: map<int, Txn>, petty: set<int>, v: int, t: Txn, x: Till)
    requires v !in txns
    ensures Petty(txns[v := t], petty + {v}, x) == Petty(txns, petty, x) + (if TillOf(t) == x then t.amount else 0.0)
  {
    SumPut(txns, InTill(Carries(petty + {v}), x), v, t);
    SumCong(txns, InTill(Carries(petty + {v}), x), txns, InTill(Carries(petty), x));
  }

  /** Closing moves what the open till holds to the closed one. */
  lemma PettyStamped(txns: map<int, Txn>, petty: set<int>, c: Counter, k: int, x: Till)
    requires forall v :: v in txns ==> txns[v].session != Some(k)
    ensures Petty(CloseTxns(txns, c, k), petty, x) ==
            if x == Closed(k) then Petty(txns, petty, Open(c)) else if x == Open(c) then 0.0 else Petty(txns, petty, x)
  {
    var now := CloseTxns(txns, c, k);
    forall v | v in now
      ensures now[v].amount == txns[v].amount
      ensures TillOf(txns[v]) != Closed(k)
      ensures TillOf(now[v]) == if TillOf(txns[v]) == Open(c) then Closed(k) else TillOf(txns[v])
    {
    }
    if x == Closed(k) {
      SumCong(now, InTill(Carries(petty), x), txns, InTill(Carries(petty), Open(c)));
    } else if x == Open(c) {
      SumZero(now, InTill(Carries(petty), x));
    } else {
      SumCong(now, InTill(Carries(petty), x), txns, InTill(Carries(petty), x));
    }
  }

  lemma CloseOwed(txns: map<int, Txn>, carry: Carry, c: Counter, k: int, p: real, outV: int, inV: int, x: Till)
    requires forall v :: v in txns ==> txns[v].session != Some(k)
    requires p >= 0.0 && outV !in txns && inV !in txns && outV != inV
    ensures var after := CarryOn(carry, c, k, p, if p > 0.0 then {outV, inV} else {});
            Owed(AfterClose(txns, c, k, p, outV, inV), after, x) ==
            if x == Closed(k) then Owed(txns, carry, Open(c)) - p else if x == Open(c) then p else Owed(txns, carry, x)
  {
    hide Petty;
    if p > 0.0 {
      var paid := txns[outV := PettyTxn(c, -p)];
      PettyPut(txns, carry.petty, outV, PettyTxn(c, -p), x);
      PettyPut(txns, carry.petty, outV, PettyTxn(c, -p), Open(c));
      PettyStamped(paid, carry.petty + {outV}, c, k, x);
      PettyPut(CloseTxns(paid, c, k), carry.petty + {outV}, inV, PettyTxn(c, p), x);
      assert carry.petty + {outV} + {inV} == carry.petty + {outV, inV};
    } else {
      PettyStamped(txns, carry.petty, c, k, x);
      assert carry.petty + {} == carry.petty;
    }
  }

  lemma ChainedOn(sessions: map<int, Session>, carry: Carry, c: Counter, k: int, p: real, vouchers: set<int>)
    requires Chained(sessions, carry) && k !in sessions
    ensures Chained(sessions[k := Session(c, None)], CarryOn(carry, c, k, p, vouchers))
  {
    var now, after := sessions[k := Session(c, None)], CarryOn(carry, c, k, p, vouchers);
    forall s | s in now ensures s in Chain(after, now[s].counter) {
      var ks := Chain(carry, c);
      if s == k {
        assert (ks + [k])[|ks|] == k;
      } else {
        assert s in Chain(carry, sessions[s].counter);
        if sessions[s].counter == c {
          assert s in ks ==> s in ks + [k];
        }
      }
    }
  }

  lemma CloseBooks(txns: map<int, Txn>, sessions: map<int, Session>, carry: Carry, c: Counter, k: int, p: real, outV: int, inV: int)
    requires Books(txns, sessions, carry) && k !in sessions
    requires forall v :: v in txns ==> txns[v].session != Some(k)
    requires p >= 0.0 && outV !in txns && inV !in txns && outV != inV
    ensures Books(AfterClose(txns, c, k, p, outV, inV), sessions[k := Session(c, None)],
                  CarryOn(carry, c, k, p, if p > 0.0 then {outV, inV} else {}))
  {
    hide Owed, Paid, Slip;
    var now, after := AfterClose(txns, c, k, p, outV, inV), CarryOn(carry, c, k, p, if p > 0.0 then {outV, inV} else {});
    ChainedOn(sessions, carry, c, k, p, if p > 0.0 then {outV, inV} else {});
    forall x
      ensures Owed(now, after, x) ==
              if x == Closed(k) then Owed(txns, carry, Open(c)) - p else if x == Open(c) then p else Owed(txns, carry, x)
    {
      CloseOwed(txns, carry, c, k, p, outV, inV, x);
    }
    forall d: Counter ensures BookedFor(now, after, Chain(after, d), d) {
      assert BookedFor(txns, carry, Chain(carry, d), d);
      assert k !in Chain(carry, d);
      CloseBookedFor(txns, now, carry, after, c, k, p, Chain(carry, d), d);
    }
  }

  lemma CloseBookedFor(txns: map<int, Txn>, now: map<int, Txn>, carry: Carry, after: Carry, c: Counter, k: int, p: real,
                       ks: seq<int>, d: Counter)
    requires BookedFor(txns, carry, ks, d) && k !in ks && after.paid == carry.paid[k := p]
    requires forall x ::
               Owed(now, after, x) ==
               if x == Closed(k) then Owed(txns, carry, Open(c)) - p else if x == Open(c) then p else Owed(txns, carry, x)
    ensures BookedFor(now, after, if d == c then ks + [k] else ks, d)
  {
    hide Owed, Paid, Found;
    var more := if d == c then ks + [k] else ks;
    forall i | 0 <= i <= |ks| ensures Found(after, more, i) == Found(carry, ks, i) {
      FoundOn(carry, after, ks, more, k, p, i);
    }
    forall i | 0 <= i < |ks|
      ensures Owed(now, after, Closed(more[i])) == Found(after, more, i) - Paid(after, more[i])
    {
      FoundOn(carry, after, ks, more, k, p, i);
    }
    FoundLast(after, ks, k, p);
  }

  lemma FoundOn(carry: Carry, after: Carry, ks: seq<int>, more: seq<int>, k: int, p: real, i: nat)
    requires k !in ks && after.paid == carry.paid[k := p] && ks <= more && i <= |ks|
    ensures Found(after, more, i) == Found(carry, ks, i)
    ensures i < |ks| ==> more[i] == ks[i] && ks[i] != k && Paid(after, ks[i]) == Paid(carry, ks[i])
  {
    if i > 0 {
      assert ks[i - 1] in ks;
    }
  }

  lemma FoundLast(after: Carry, ks: seq<int>, k: int, p: real)
    requires k in after.paid && after.paid[k] == p
    ensures Found(after, ks + [k], |ks| + 1) == p && Paid(after, k) == p
  {
  }

  // ---- telescoping ---------------------------------------------------------------------------------------------

  /** A quantity summed over the first `n` sessions of a chain. */
  ghost function Along(g: Till -> real, ks: seq<int>, n: nat): real
    requires n <= |ks|
  {
    if n == 0 then 0.0 else Along(g, ks, n - 1) + g(Closed(ks[n - 1]))
  }

  /** A closed session nets to its real takings plus the petty cash it found less what it carried forward, and what later
      edits of its petty vouchers added. */
  lemma SessionNets(txns: map<int, Txn>, sessions: map<int, Session>, carry: Carry, c: Counter, i: nat)
    requires Books(txns, sessions, carry) && i < |Chain(carry, c)|
    ensures var ks := Chain(carry, c);
            Net(txns, Closed(ks[i])) ==
            Real(txns, carry.petty, Closed(ks[i])) + Found(carry, ks, i) - Paid(carry, ks[i]) + Slip(carry, Closed(ks[i]))
  {
    NetInTwo(txns, carry.petty, Closed(Chain(carry, c)[i]));
    assert BookedFor(txns, carry, Chain(carry, c), c);
  }

  lemma {:induction false} CarriesCancel(txns: map<int, Txn>, carry: Carry, ks: seq<int>, c: Counter, n: nat)
    requires BookedFor(txns, carry, ks, c) && n <= |ks|
    ensures Along(x => Net(txns, x), ks, n) ==
            Along(x => Real(txns, carry.petty, x), ks, n) + Along(x => Slip(carry, x), ks, n) - Found(carry, ks, n)
  {
    if n > 0 {
      CarriesCancel(txns, carry, ks, c, n - 1);
      NetInTwo(txns, carry.petty, Closed(ks[n - 1]));
    }
  }

  ghost function OfCounter(keep: int -> bool, c: Counter): (int, Txn) -> real {
    (v, t: Txn) => if keep(v) && t.counter == c then t.amount else 0.0
  }

  /** The transactions of a counter lie in the sessions of its chain and in its open till. */
  lemma CounterInTills(txns: map<int, Txn>, parts: map<PartKey, Part>, sessions: map<int, Session>, carry: Carry, c: Counter,
                       keep: int -> bool)
    requires Agree(txns, parts, sessions) && Chained(sessions, carry)
    ensures var ks := Chain(carry, c);
            Sum(txns, OfCounter(keep, c)) ==
            Along(x => Sum(txns, InTill(keep, x)), ks, |ks|) + Sum(txns, InTill(keep, Open(c)))
  {
    var ks := Chain(carry, c);
    ClosedTills(txns, ks, keep, |ks|);
    forall v | v in txns
      ensures OfCounter(keep, c)(v, txns[v]) == ClosedIn(keep, ks, |ks|)(v, txns[v]) + InTill(keep, Open(c))(v, txns[v])
    {
      assert StampedBy(txns[v], sessions);
      assert ks[..|ks|] == ks;
    }
    SumAdd(txns, ClosedIn(keep, ks, |ks|), InTill(keep, Open(c)), OfCounter(keep, c));
  }

  ghost function ClosedIn(keep: int -> bool, ks: seq<int>, n: nat): (int, Txn) -> real
    requires n <= |ks|
  {
    (v, t: Txn) => if keep(v) && t.session.Some? && t.session.value in ks[..n] then t.amount else 0.0
  }

  lemma {:induction false} ClosedTills(txns: map<int, Txn>, ks: seq<int>, keep: int -> bool, n: nat)
    requires n <= |ks| && forall i, j :: 0 <= i < j < |ks| ==> ks[i] != ks[j]
    ensures Sum(txns, ClosedIn(keep, ks, n)) == Along(x => Sum(txns, InTill(keep, x)), ks, n)
  {
    if n == 0 {
      SumZero(txns, ClosedIn(keep, ks, 0));
    } else {
      ClosedTills(txns, ks, keep, n - 1);
      assert ks[..n] == ks[..n - 1] + [ks[n - 1]];
      forall v | v in txns
        ensures ClosedIn(keep, ks, n)(v, txns[v]) ==
                ClosedIn(keep, ks, n - 1)(v, txns[v]) + InTill(keep, Closed(ks[n - 1]))(v, txns[v])
      {
        var s := txns[v].session;
        assert s.Some? ==> (s.value in ks[..n] <==> s.value in ks[..n - 1] || s.value == ks[n - 1]);
        assert ks[n - 1] !in ks[..n - 1];
      }
      SumAdd(txns, ClosedIn(keep, ks, n - 1), InTill(keep, Closed(ks[n - 1])), ClosedIn(keep, ks, n));
    }
  }

  /** Over any run the closed sessions of a counter and its open till together net to what its customers paid: every amount
      carried out of one session is carried into the next. Only edits of petty cash vouchers remain. */
  lemma Telescopes(txns: map<int, Txn>, parts: map<PartKey, Part>, sessions: map<int, Session>, carry: Carry, c: Counter)
    requires Agree(txns, parts, sessions) && Books(txns, sessions, carry)
    ensures var ks := Chain(carry, c);
            Along(x => Net(txns, x), ks, |ks|) + Net(txns, Open(c)) ==
            Sum(txns, OfCounter(Takes(carry.petty), c)) + Along(x => Slip(carry, x), ks, |ks|) + Slip(carry, Open(c))
  {
    var ks := Chain(carry, c);
    assert BookedFor(txns, carry, ks, c);
    CarriesCancel(txns, carry, ks, c, |ks|);
    NetInTwo(txns, carry.petty, Open(c));
    CounterInTills(txns, parts, sessions, carry, c, Takes(carry.petty));
    AlongSame(x => Real(txns, carry.petty, x), x => Sum(txns, InTill(Takes(carry.petty), x)), ks, |ks|);
  }

  lemma {:induction false} AlongSame(g: Till -> real, h: Till -> real, ks: seq<int>, n: nat)
    requires n <= |ks| && forall x :: g(x) == h(x)
    ensures Along(g, ks, n) == Along(h, ks, n)
  {
    if n > 0 {
      AlongSame(g, h, ks, n - 1);
    }
  }

  // ---- settlement summaries ------------------------------------------------------------------------------------

  /** A column of the rows of one settlement, and of one session. */
  ghost function OfSettlement<K, V>(f: (K, V) -> real, settlementOf: V -> Option<int>, n: int): (K, V) -> real {
    (k, v) => if settlementOf(v) == Some(n) then f(k, v) else 0.0
  }

  ghost function OfSession<K, V>(f: (K, V) -> real, sessionOf: V -> Option<int>, s: int): (K, V) -> real {
    (k, v) => if sessionOf(v) == Some(s) then f(k, v) else 0.0
  }

  /** The sessions of a settlement, each with its total. */
  ghost function SessionTotals<K, V>(m: map<K, V>, f: (K, V) -> real, sessionOf: V -> Option<int>, n: int)
    : (int, Session) -> real
  {
    (s, row: Session) => if row.settlement == Some(n) then Sum(m, OfSession(f, sessionOf, s)) else 0.0
  }

  /** What a settlement covers is exactly what its sessions took. */
  lemma SettlementIsItsSessions<K, V>(m: map<K, V>, f: (K, V) -> real, sessionOf: V -> Option<int>,
                                      settlementOf: V -> Option<int>, sessions: map<int, Session>, n: int)
    requires Covered(m, sessionOf, settlementOf, sessions)
    ensures Sum(m, OfSettlement(f, settlementOf, n)) == Sum(sessions, SessionTotals(m, f, sessionOf, n))
  {
    var closed := (k: K, v: V) => if sessionOf(v).Some? then f(k, v) else 0.0;
    var link := (k: K, v: V) => if sessionOf(v).Some? then sessionOf(v).value else 0;
    var pick := (s: int, row: Session) => row.settlement == Some(n);
    SumByGroup(m, closed, link, sessions, pick);
    SumCong(m, InPicked(sessions, closed, link, pick), m, OfSettlement(f, settlementOf, n));
    forall s | s in sessions
      ensures PerGroup(m, closed, link, pick)(s, sessions[s]) == SessionTotals(m, f, sessionOf, n)(s, sessions[s])
    {
      SumCong(m, Fibre(closed, link, s), m, OfSession(f, sessionOf, s));
    }
    SumCong(sessions, PerGroup(m, closed, link, pick), sessions, SessionTotals(m, f, sessionOf, n));
  }

  ghost function Bill(): (int, Txn) -> real { (_, t: Txn) => t.amount }

  function PartSession(): Part -> Option<int> { (p: Part) => p.session }

  function PartSettlement(): Part -> Option<int> { (p: Part) => p.settlement }

  function TxnSession(): Txn -> Option<int> { (t: Txn) => t.session }

  function TxnSettlement(): Txn -> Option<int> { (t: Txn) => t.settlement }

  function Account(): (PartKey, Part) -> int { (k: PartKey, _) => k.1 }

  function Heading(): (int, Txn) -> (string, string) { (_, t: Txn) => (t.kind, t.particulars) }

  /** The rows of `pos_settlement_breakup_summary`: the accounts of a settlement's breakup. */
  function Accounts(parts: map<PartKey, Part>, n: int): map<int, bool> {
    map k | k in parts && parts[k].settlement == Some(n) :: k.1 := true
  }

  /** The rows of `pos_settlement_transaction_summary`. */
  function Headings(txns: map<int, Txn>, n: int): map<(string, string), bool> {
    map v | v in txns && txns[v].settlement == Some(n) :: (txns[v].kind, txns[v].particulars) := true
  }

  /** Each row's settlement is its session's. */
  ghost predicate Covered<K, V>(m: map<K, V>, sessionOf: V -> Option<int>, settlementOf: V -> Option<int>,
                                sessions: map<int, Session>)
  {
    forall k :: k in m ==>
      match sessionOf(m[k])
      case None => settlementOf(m[k]) == None
      case Some(s) => s in sessions && sessions[s].settlement == settlementOf(m[k])
  }

  /** A summary's total and what the settled sessions took differ by rounding alone. */
  lemma SummaryAddsUp<K, V, L(!new)>(m: map<K, V>, f: (K, V) -> real, sessionOf: V -> Option<int>, settlementOf: V -> Option<int>,
                                     sessions: map<int, Session>, n: int, link: (K, V) -> L, groups: map<L, bool>)
    requires Covered(m, sessionOf, settlementOf, sessions)
    requires forall k :: k in m && settlementOf(m[k]) == Some(n) ==> link(k, m[k]) in groups
    ensures var shown := Sum(groups, RoundedGroup(m, OfSettlement(f, settlementOf, n), link));
            var taken := Sum(sessions, SessionTotals(m, f, sessionOf, n));
            && -0.005 * |groups| as real <= shown - taken <= 0.005 * |groups| as real
            && ((forall k :: k in m ==> WholePaise(f(k, m[k]))) ==> shown == taken)
  {
    hide WholePaise;
    WholeZero();
    SettlementIsItsSessions(m, f, sessionOf, settlementOf, sessions, n);
    RoundedGroupsAddUp(m, OfSettlement(f, settlementOf, n), link, groups);
  }

  /** The breakup summary of a settlement, on any of its columns, adds up to the breakups of the sessions it settles. */
  lemma BreakupSummaryAddsUp(txns: map<int, Txn>, parts: map<PartKey, Part>, sessions: map<int, Session>, n: int,
                             f: (PartKey, Part) -> real)
    requires Agree(txns, parts, sessions)
    ensures var shown := Sum(Accounts(parts, n), RoundedGroup(parts, OfSettlement(f, PartSettlement(), n), Account()));
            var taken := Sum(sessions, SessionTotals(parts, f, PartSession(), n));
            && -0.005 * |Accounts(parts, n)| as real <= shown - taken <= 0.005 * |Accounts(parts, n)| as real
            && ((forall k :: k in parts ==> WholePaise(f(k, parts[k]))) ==> shown == taken)
  {
    PartsCovered(txns, parts, sessions);
    SummaryAddsUp(parts, f, PartSession(), PartSettlement(), sessions, n, Account(), Accounts(parts, n));
  }

  lemma PartsCovered(txns: map<int, Txn>, parts: map<PartKey, Part>, sessions: map<int, Session>)
    requires Agree(txns, parts, sessions)
    ensures Covered(parts, PartSession(), PartSettlement(), sessions)
    ensures Covered(txns, TxnSession(), TxnSettlement(), sessions)
  {
    forall v | v in txns ensures StampedBy(txns[v], sessions) {}
    forall k | k in parts ensures k.0 in txns && SameStamp(txns[k.0], parts[k]) {}
  }

  lemma Headed(txns: map<int, Txn>, n: int)
    ensures forall v :: v in txns && TxnSettlement()(txns[v]) == Some(n) ==> Heading()(v, txns[v]) in Headings(txns, n)
  {
    forall v | v in txns && txns[v].settlement == Some(n) ensures Heading()(v, txns[v]) in Headings(txns, n) {
      assert (txns[v].kind, txns[v].particulars) in Headings(txns, n);
    }
  }

  /** So does the transaction summary. */
  lemma TransactionSummaryAddsUp(txns: map<int, Txn>, parts: map<PartKey, Part>, sessions: map<int, Session>, n: int)
    requires Agree(txns, parts, sessions)
    ensures var shown := Sum(Headings(txns, n), RoundedGroup(txns, OfSettlement(Bill(), TxnSettlement(), n), Heading()));
            var taken := Sum(sessions, SessionTotals(txns, Bill(), TxnSession(), n));
            && -0.005 * |Headings(txns, n)| as real <= shown - taken <= 0.005 * |Headings(txns, n)| as real
            && ((forall v :: v in txns ==> WholePaise(txns[v].amount)) ==> shown == taken)
  {
    hide WholePaise, Headings, Covered;
    PartsCovered(txns, parts, sessions);
    Headed(txns, n);
    var bill, settlementOf, heading, groups := Bill(), TxnSettlement(), Heading(), Headings(txns, n);
    assert forall v :: v in txns && settlementOf(txns[v]) == Some(n) ==> heading(v, txns[v]) in groups;
    SummaryAddsUp(txns, bill, TxnSession(), settlementOf, sessions, n, heading, groups);
    if forall v :: v in txns ==> WholePaise(txns[v].amount) {
      assert forall v :: v in txns ==> WholePaise(bill(v, txns[v]));
    }
  }
}
