/** When the daily summary is exact, and what the reports read off it. */
module LedgerTheorems {
  import opened Options
  import opened Sums
  import opened Money
  import opened LedgerModel

  /** The summary of every day is what its non-memo rows add up to. */
  ghost predicate Exact(txns: map<Uuid, AcTxn>, summary: map<Key, Amounts>) {
    forall k :: At(summary, k) == Actual(txns, k)
  }

  lemma {:induction false} DriftAppend(a: seq<Move>, b: seq<Move>, k: Key)
    ensures Drift(a + b, k) == Plus(Drift(a, k), Drift(b, k))
  {
    if b == [] {
      assert a + b == a;
    } else {
      var n := |b| - 1;
      assert (a + b)[..|a + b| - 1] == a + b[..n];
      DriftAppend(a, b[..n], k);
    }
  }

  /** What the lines an update keeps on an account lose in credit and debit. */
  ghost function KeptLoss(was: map<Uuid, AcTxn>, lines: seq<AcLine>, account: int): Amounts {
    if lines == [] then ZERO
    else
      var rest, l := KeptLoss(was, lines[..|lines| - 1], account), lines[|lines| - 1];
      if l.id in was && l.account == account == was[l.id].account
      then Plus(rest, Minus(AmountsOf(was[l.id]), Amounts(l.credit, l.debit))) else rest
  }

  /** On every account, the lines an update keeps have the credit and debit totals they had. */
  ghost predicate KeepsTotals(was: map<Uuid, AcTxn>, lines: seq<AcLine>) {
    forall account :: KeptLoss(was, lines, account) == ZERO
  }

  ghost predicate Driftless(moves: seq<Move>) { forall k :: Drift(moves, k) == ZERO }

  /** The drift one voucher update adds: nothing unless the date moves, and then, on the old day, what the kept lines of
      each account lose. */
  lemma {:induction false} DriftOfUpdate(was: map<Uuid, AcTxn>, v: int, before: Voucher, date: Day, lines: seq<AcLine>, k: Key)
    requires forall l :: l in lines && l.id in was ==>
               Voucher(was[l.id].branch, was[l.id].date, was[l.id].memo) == before
    ensures Drift(MovesOfLines(was, v, before.(date := date), lines), k) ==
              if before.memo || date == before.date || k.branch != before.branch || k.date != before.date then ZERO
              else KeptLoss(was, lines, k.account)
  {
    if lines != [] {
      var rest, l := lines[..|lines| - 1], lines[|lines| - 1];
      var voucher := before.(date := date);
      assert rest + [l] == lines;
      LastMoves(was, v, voucher, rest, l);
      DriftOfUpdate(was, v, before, date, rest, k);
      assert l in lines;
      if l.id in was && was[l.id].account == l.account {
        assert KeyOf(was[l.id]) == Key(l.account, before.branch, before.date);
        assert AmountsOf(RowOf(v, voucher, l)) == Amounts(l.credit, l.debit);
        DriftAfterMove(MovesOfLines(was, v, voucher, rest), was[l.id], RowOf(v, voucher, l), k);
      } else {
        assert MovesOfLines(was, v, voucher, lines) == MovesOfLines(was, v, voucher, rest);
      }
    }
  }

  /** Updating a voucher of an exact ledger leaves it exact precisely when it is a memo, keeps its date, or keeps, on
      every account, the total credit and debit of the lines it keeps. */
  lemma UpdateKeepsExactIff(vouchers: map<int, Voucher>, t0: map<Uuid, AcTxn>, m0: seq<Move>, bookBegin: Day,
                            t1: map<Uuid, AcTxn>, s0: map<Key, Amounts>, s1: map<Key, Amounts>, v: int, date: Day, lines: seq<AcLine>)
    requires Tracked(t0, s0, m0) && Exact(t0, s0) && RowsAgree(vouchers, t0, bookBegin)
    requires v in vouchers && OwnIds(t0, v, lines)
    requires Tracked(t1, s1, m0 + MovesOfLines(t0, v, vouchers[v].(date := date), lines))
    ensures Exact(t1, s1) <==> vouchers[v].memo || date == vouchers[v].date || KeepsTotals(t0, lines)
  {
    var before, ms := vouchers[v], MovesOfLines(t0, v, vouchers[v].(date := date), lines);
    hide Actual, Drift, KeptLoss, MovesOfLines, Plus, Exact, Tracked, Driftless, KeepsTotals;
    forall k ensures At(s1, k) == Plus(Actual(t1, k), Drift(ms, k)) {
      ExactDrift(t0, s0, m0, k);
      DriftAppend(m0, ms, k);
      NoDrift(Drift(ms, k));
      TrackedAt(t1, s1, m0 + ms, k);
    }
    ExactIffNoDrift(t1, s1, ms);
    forall k ensures Drift(ms, k) == if before.memo || date == before.date || k.branch != before.branch || k.date != before.date
                                    then ZERO else KeptLoss(t0, lines, k.account)
    {
      DriftOfUpdate(t0, v, before, date, lines, k);
    }
    DriftSpread(ms, before, date, t0, lines);
  }

  lemma ExactDrift(t: map<Uuid, AcTxn>, s: map<Key, Amounts>, m: seq<Move>, k: Key)
    requires Tracked(t, s, m) && Exact(t, s)
    ensures Drift(m, k) == ZERO
  {
    hide Actual, Drift;
    assert At(s, k) == Plus(Actual(t, k), Drift(m, k));
    assert At(s, k) == Actual(t, k);
  }

  lemma TrackedAt(t: map<Uuid, AcTxn>, s: map<Key, Amounts>, m: seq<Move>, k: Key)
    requires Tracked(t, s, m)
    ensures At(s, k) == Plus(Actual(t, k), Drift(m, k))
  {
  }

  lemma NoDrift(a: Amounts)
    ensures Plus(ZERO, a) == a
  {
  }

  lemma ExactIffNoDrift(t: map<Uuid, AcTxn>, s: map<Key, Amounts>, m: seq<Move>)
    requires forall k :: At(s, k) == Plus(Actual(t, k), Drift(m, k))
    ensures Exact(t, s) <==> Driftless(m)
  {
    hide Actual, Drift;
    if Exact(t, s) {
      forall k ensures Drift(m, k) == ZERO {
        assert At(s, k) == Actual(t, k);
      }
    } else {
      var k :| At(s, k) != Actual(t, k);
      assert Drift(m, k) != ZERO;
    }
  }

  lemma DriftSpread(m: seq<Move>, before: Voucher, date: Day, was: map<Uuid, AcTxn>, lines: seq<AcLine>)
    requires forall k :: Drift(m, k) == (
               if before.memo || date == before.date || k.branch != before.branch || k.date != before.date then ZERO
               else KeptLoss(was, lines, k.account))
    ensures Driftless(m) <==> before.memo || date == before.date || KeepsTotals(was, lines)
  {
    if before.memo || date == before.date || KeepsTotals(was, lines) {
      forall k ensures Drift(m, k) == ZERO {}
    } else {
      var account :| KeptLoss(was, lines, account) != ZERO;
      assert Drift(m, Key(account, before.branch, before.date)) != ZERO;
    }
  }

  lemma NothingOnDay(txns: map<Uuid, AcTxn>, k: Key)
    requires forall t :: t in txns ==> KeyOf(txns[t]) != k
    ensures Actual(txns, k) == ZERO
  {
    forall t | t in txns ensures CreditAt(k)(t, txns[t]) == DebitAt(k)(t, txns[t]) == 0.0 {
      assert KeyOf(txns[t]) != k;
    }
    SumZero(txns, CreditAt(k));
    SumZero(txns, DebitAt(k));
  }

  /** The only row of a day, moved to another day: the old day, which then has no row, is left at old minus new amounts, and so
      is wrong whenever the amounts changed. */
  lemma MovedAndChanged(id: Uuid, was: AcTxn, now: AcTxn)
    requires !was.memo && now == was.(date := now.date, credit := now.credit, debit := now.debit) && now.date != was.date
    ensures var after := AfterUpdate(AfterInsert(map[], was), was, now);
            && At(after, KeyOf(was)) == Minus(AmountsOf(was), AmountsOf(now))
            && Actual(map[id := now], KeyOf(was)) == ZERO
            && (At(after, KeyOf(was)) == Actual(map[id := now], KeyOf(was)) <==> AmountsOf(was) == AmountsOf(now))
  {
    hide Actual;
    NothingOnDay(map[id := now], KeyOf(was));
    assert KeyOf(now) != KeyOf(was);
    assert AfterInsert(map[], was) == map[KeyOf(was) := AmountsOf(was)];
  }

  /** The rows and the moves determine every figure of the summary. */
  lemma SummaryDetermined(txns: map<Uuid, AcTxn>, s: map<Key, Amounts>, r: map<Key, Amounts>, moves: seq<Move>, k: Key)
    requires Tracked(txns, s, moves) && Tracked(txns, r, moves)
    ensures At(s, k) == At(r, k)
  {
  }

  /** Creating a voucher and deleting it again restores the rows and every figure of the summary. */
  lemma CreateThenDelete(vouchers: map<int, Voucher>, t0: map<Uuid, AcTxn>, s0: map<Key, Amounts>, moves: seq<Move>, bookBegin: Day,
                         v: int, voucher: Voucher, lines: seq<AcLine>, t1: map<Uuid, AcTxn>, t2: map<Uuid, AcTxn>, s2: map<Key, Amounts>)
    requires RowsAgree(vouchers, t0, bookBegin) && Tracked(t0, s0, moves) && v !in vouchers
    requires (forall l :: l in lines ==> l.id !in t0) && Overlay(t0, t1, IdsOf(lines)) && RowsHeld(t1, v, voucher, lines)
    requires t2 == t1 - RowsOf(t1, v) && Tracked(t2, s2, moves)
    ensures t2 == t0 && forall k :: At(s2, k) == At(s0, k)
  {
    hide Tracked;
    forall t | t in t1 ensures t in RowsOf(t1, v) <==> t !in t0 {
      if t in IdsOf(lines) {
        var l :| l in lines && l.id == t;
      }
    }
    assert t2 == t0;
    forall k ensures At(s2, k) == At(s0, k) {
      SummaryDetermined(t0, s0, s2, moves, k);
    }
  }

  /** Deleting a voucher takes exactly its own rows' amounts out of every day. */
  lemma {:induction false} DeleteRemovesOwnShare(t0: map<Uuid, AcTxn>, s0: map<Key, Amounts>, moves: seq<Move>, v: int,
                                                 s1: map<Key, Amounts>, k: Key)
    requires Tracked(t0, s0, moves) && Tracked(t0 - RowsOf(t0, v), s1, moves)
    ensures At(s1, k) == Minus(At(s0, k), Actual(map t | t in t0 && t0[t].voucher == Some(v) :: t0[t], k))
  {
    hide Drift;
    var own, rest := map t | t in t0 && t0[t].voucher == Some(v) :: t0[t], t0 - RowsOf(t0, v);
    assert own.Keys == RowsOf(t0, v) && rest.Keys == t0.Keys - own.Keys;
    SumSplit(t0, CreditAt(k), own.Keys);
    SumSplit(t0, DebitAt(k), own.Keys);
    assert t0 - own.Keys == rest && t0 - rest.Keys == own;
    assert t0.Keys - own.Keys == rest.Keys;
  }

  // ---- reports -------------------------------------------------------------------------------------------------

  /** Which summary rows a report is about: an account, some branches (none named means all), up to a day. */
  predicate Picked(k: Key, account: int, branches: set<int>, to: Day) {
    k.account == account && (branches == {} || k.branch in branches) && k.date <= to
  }

  datatype Figures = Figures(opening: real, closing: real, debit: real, credit: real)

  ghost function OpeningColumn(account: int, branches: set<int>, from: Day, to: Day): (Key, Amounts) -> real {
    (k: Key, a: Amounts) => if Picked(k, account, branches, to) && k.date < from then a.debit - a.credit else 0.0
  }

  ghost function ClosingColumn(account: int, branches: set<int>, to: Day): (Key, Amounts) -> real {
    (k: Key, a: Amounts) => if Picked(k, account, branches, to) then a.debit - a.credit else 0.0
  }

  ghost function DebitColumn(account: int, branches: set<int>, from: Day, to: Day): (Key, Amounts) -> real {
    (k: Key, a: Amounts) => if Picked(k, account, branches, to) && from <= k.date then a.debit else 0.0
  }

  ghost function CreditColumn(account: int, branches: set<int>, from: Day, to: Day): (Key, Amounts) -> real {
    (k: Key, a: Amounts) => if Picked(k, account, branches, to) && from <= k.date then a.credit else 0.0
  }

  /** `account_summary` before rounding. */
  ghost function Unrounded(summary: map<Key, Amounts>, account: int, branches: set<int>, from: Day, to: Day): Figures {
    Figures(Sum(summary, OpeningColumn(account, branches, from, to)), Sum(summary, ClosingColumn(account, branches, to)),
            Sum(summary, DebitColumn(account, branches, from, to)), Sum(summary, CreditColumn(account, branches, from, to)))
  }

  /** `account_summary`, one account's row. */
  ghost function AccountSummary(summary: map<Key, Amounts>, account: int, branches: set<int>, from: Day, to: Day): Figures {
    var f := Unrounded(summary, account, branches, from, to);
    Figures(Round2(f.opening), Round2(f.closing), Round2(f.debit), Round2(f.credit))
  }

  lemma UnroundedBalances(summary: map<Key, Amounts>, account: int, branches: set<int>, from: Day, to: Day)
    ensures var f := Unrounded(summary, account, branches, from, to); f.opening + f.debit - f.credit == f.closing
  {
    var turnover := (k: Key, a: Amounts) => if Picked(k, account, branches, to) && from <= k.date then a.debit - a.credit else 0.0;
    SumSub(summary, DebitColumn(account, branches, from, to), CreditColumn(account, branches, from, to), turnover);
    SumAdd(summary, OpeningColumn(account, branches, from, to), turnover, ClosingColumn(account, branches, to));
  }

  /** Opening plus debit minus credit is closing, for any two days: exactly when the amounts are whole paise, and always
      within the four roundings. */
  lemma SummaryBalances(summary: map<Key, Amounts>, account: int, branches: set<int>, from: Day, to: Day)
    ensures var f := AccountSummary(summary, account, branches, from, to);
            -0.02 <= f.opening + f.debit - f.credit - f.closing <= 0.02
    ensures var f := AccountSummary(summary, account, branches, from, to);
            (forall k :: k in summary ==> WholePaise(summary[k].credit) && WholePaise(summary[k].debit)) ==>
              f == Unrounded(summary, account, branches, from, to) && f.opening + f.debit - f.credit == f.closing
  {
    hide Round2, WholePaise;
    var f := Unrounded(summary, account, branches, from, to);
    UnroundedBalances(summary, account, branches, from, to);
    RoundsByHalf(f.opening);
    RoundsByHalf(f.closing);
    RoundsByHalf(f.debit);
    RoundsByHalf(f.credit);
    if forall k :: k in summary ==> WholePaise(summary[k].credit) && WholePaise(summary[k].debit) {
      forall k | k in summary ensures WholePaise(summary[k].debit - summary[k].credit) {
        WholeSum(summary[k].debit, summary[k].credit);
      }
      WholeZero();
      SumWhole(summary, OpeningColumn(account, branches, from, to));
      SumWhole(summary, ClosingColumn(account, branches, to));
      SumWhole(summary, DebitColumn(account, branches, from, to));
      SumWhole(summary, CreditColumn(account, branches, from, to));
    }
  }

  // ---- from the summary to the rows ----------------------------------------------------------------------------

  ghost function KeyColumn(): (Uuid, AcTxn) -> Key { (_, t: AcTxn) => KeyOf(t) }

  /** What a report sums: a side, or debit minus credit. */
  datatype Side = Debits | Credits | Nets

  function Of(side: Side, a: Amounts): real {
    match side
    case Debits => a.debit
    case Credits => a.credit
    case Nets => a.debit - a.credit
  }

  ghost function SideColumn(side: Side): (Uuid, AcTxn) -> real {
    (_, t: AcTxn) => if t.memo then 0.0 else Of(side, AmountsOf(t))
  }

  ghost function OnDay(pick: Key -> bool): (Key, Amounts) -> bool { (k: Key, _) => pick(k) }

  /** The non-memo rows whose day is picked. */
  ghost function RowsWhere(side: Side, pick: Key -> bool): (Uuid, AcTxn) -> real {
    (_, t: AcTxn) => if !t.memo && pick(KeyOf(t)) then Of(side, AmountsOf(t)) else 0.0
  }

  ghost function DaysWhere(side: Side, pick: Key -> bool): (Key, Amounts) -> real {
    (k: Key, a: Amounts) => if pick(k) then Of(side, a) else 0.0
  }

  /** While the summary is exact, one day's figure is the sum of its rows. */
  lemma DayIsRows(txns: map<Uuid, AcTxn>, summary: map<Key, Amounts>, side: Side, k: Key)
    requires Exact(txns, summary)
    ensures Of(side, At(summary, k)) == Sum(txns, Fibre(SideColumn(side), KeyColumn(), k))
  {
    assert At(summary, k) == Actual(txns, k);
    match side
    case Debits => SumCong(txns, DebitAt(k), txns, Fibre(SideColumn(side), KeyColumn(), k));
    case Credits => SumCong(txns, CreditAt(k), txns, Fibre(SideColumn(side), KeyColumn(), k));
    case Nets => SumSub(txns, DebitAt(k), CreditAt(k), Fibre(SideColumn(side), KeyColumn(), k));
  }

  /** While the summary is exact, a total over days, of either side or of their difference, is the total over their non-memo
      rows. */
  lemma DaysAreRows(txns: map<Uuid, AcTxn>, summary: map<Key, Amounts>, side: Side, pick: Key -> bool)
    requires Exact(txns, summary) && DaysPresent(txns, summary)
    ensures Sum(summary, DaysWhere(side, pick)) == Sum(txns, RowsWhere(side, pick))
  {
    hide Exact, Of;
    var on, column := OnDay(pick), SideColumn(side);
    forall k | k in summary
      ensures DaysWhere(side, pick)(k, summary[k]) == PerGroup(txns, column, KeyColumn(), on)(k, summary[k])
    {
      DayIsRows(txns, summary, side, k);
    }
    SumCong(summary, DaysWhere(side, pick), summary, PerGroup(txns, column, KeyColumn(), on));
    SumByGroup(txns, column, KeyColumn(), summary, on);
    forall t | t in txns
      ensures InPicked(summary, column, KeyColumn(), on)(t, txns[t]) == RowsWhere(side, pick)(t, txns[t])
    {
      assert !txns[t].memo ==> KeyOf(txns[t]) in summary;
    }
    SumCong(txns, InPicked(summary, column, KeyColumn(), on), txns, RowsWhere(side, pick));
  }

  /** Rows the `account_book` view lists: neither memo nor opening. */
  ghost function BookWhere(pick: Key -> bool): (Uuid, AcTxn) -> real {
    (_, t: AcTxn) => if !t.memo && !t.opening && pick(KeyOf(t)) then t.debit - t.credit else 0.0
  }

  ghost function OpeningsWhere(pick: Key -> bool): (Uuid, AcTxn) -> real {
    (_, t: AcTxn) => if !t.memo && t.opening && pick(KeyOf(t)) then t.debit - t.credit else 0.0
  }

  ghost function Within(account: int, branches: set<int>, from: Day, to: Day): Key -> bool {
    (k: Key) => Picked(k, account, branches, to) && from <= k.date
  }

  ghost function Before(account: int, branches: set<int>, from: Day, to: Day): Key -> bool {
    (k: Key) => Picked(k, account, branches, to) && k.date < from
  }

  ghost function UpTo(account: int, branches: set<int>, to: Day): Key -> bool { (k: Key) => Picked(k, account, branches, to) }

  /** The rows of an account at the named branches (all, when none is named), memo rows aside: dated before a range, up to its end,
      and in it. */
  ghost function RowsBefore(account: int, branches: set<int>, from: Day, to: Day): (Uuid, AcTxn) -> real {
    (_, t: AcTxn) =>
      if !t.memo && t.account == account && (branches == {} || t.branch in branches) && t.date < from && t.date <= to
      then t.debit - t.credit else 0.0
  }

  ghost function RowsUpTo(account: int, branches: set<int>, to: Day): (Uuid, AcTxn) -> real {
    (_, t: AcTxn) =>
      if !t.memo && t.account == account && (branches == {} || t.branch in branches) && t.date <= to
      then t.debit - t.credit else 0.0
  }

  ghost function DebitsIn(account: int, branches: set<int>, from: Day, to: Day): (Uuid, AcTxn) -> real {
    (_, t: AcTxn) =>
      if !t.memo && t.account == account && (branches == {} || t.branch in branches) && from <= t.date <= to then t.debit else 0.0
  }

  ghost function CreditsIn(account: int, branches: set<int>, from: Day, to: Day): (Uuid, AcTxn) -> real {
    (_, t: AcTxn) =>
      if !t.memo && t.account == account && (branches == {} || t.branch in branches) && from <= t.date <= to then t.credit else 0.0
  }

  /** Rows in a range that the account book lists, and opening rows, which it does not. */
  ghost function BookIn(account: int, branches: set<int>, from: Day, to: Day): (Uuid, AcTxn) -> real {
    (_, t: AcTxn) =>
      if !t.memo && !t.opening && t.account == account && (branches == {} || t.branch in branches) && from <= t.date <= to
      then t.debit - t.credit else 0.0
  }

  ghost function OpeningsIn(account: int, branches: set<int>, from: Day, to: Day): (Uuid, AcTxn) -> real {
    (_, t: AcTxn) =>
      if !t.memo && t.opening && t.account == account && (branches == {} || t.branch in branches) && from <= t.date <= to
      then t.debit - t.credit else 0.0
  }

  /** While the summary is exact, the report's closing is its opening plus the book's rows in the range, but for opening rows dated
      in the range; there are none when the range starts at the beginning of the books or later. */
  lemma ClosingFromBook(vouchers: map<int, Voucher>, txns: map<Uuid, AcTxn>, summary: map<Key, Amounts>, bookBegin: Day,
                        account: int, branches: set<int>, from: Day, to: Day)
    requires RowsAgree(vouchers, txns, bookBegin) && Exact(txns, summary) && DaysPresent(txns, summary)
    ensures var f := Unrounded(summary, account, branches, from, to);
      && f.opening == Sum(txns, RowsBefore(account, branches, from, to))
      && f.closing == Sum(txns, RowsUpTo(account, branches, to))
      && f.debit == Sum(txns, DebitsIn(account, branches, from, to))
      && f.credit == Sum(txns, CreditsIn(account, branches, from, to))
      && f.closing == f.opening + Sum(txns, BookIn(account, branches, from, to)) + Sum(txns, OpeningsIn(account, branches, from, to))
    ensures bookBegin <= from ==> Sum(txns, OpeningsIn(account, branches, from, to)) == 0.0
  {
    hide Exact, DaysPresent;
    var within := Within(account, branches, from, to);
    FiguresAreRows(txns, summary, account, branches, from, to);
    UnroundedBalances(summary, account, branches, from, to);
    BookSplit(txns, within);
    SidesOnRows(txns, account, branches, from, to);
    BookOnRows(txns, account, branches, from, to);
    if bookBegin <= from {
      OpeningsEarlier(vouchers, txns, bookBegin, within);
    }
  }

  lemma BookSplit(txns: map<Uuid, AcTxn>, pick: Key -> bool)
    ensures Sum(txns, RowsWhere(Nets, pick)) == Sum(txns, RowsWhere(Debits, pick)) - Sum(txns, RowsWhere(Credits, pick))
    ensures Sum(txns, RowsWhere(Nets, pick)) == Sum(txns, BookWhere(pick)) + Sum(txns, OpeningsWhere(pick))
  {
    forall t | t in txns
      ensures RowsWhere(Nets, pick)(t, txns[t]) == RowsWhere(Debits, pick)(t, txns[t]) - RowsWhere(Credits, pick)(t, txns[t])
      ensures RowsWhere(Nets, pick)(t, txns[t]) == BookWhere(pick)(t, txns[t]) + OpeningsWhere(pick)(t, txns[t])
    {
      if pick(KeyOf(txns[t])) {
      }
    }
    SumSub(txns, RowsWhere(Debits, pick), RowsWhere(Credits, pick), RowsWhere(Nets, pick));
    SumAdd(txns, BookWhere(pick), OpeningsWhere(pick), RowsWhere(Nets, pick));
  }

  lemma OpeningsEarlier(vouchers: map<int, Voucher>, txns: map<Uuid, AcTxn>, bookBegin: Day, pick: Key -> bool)
    requires RowsAgree(vouchers, txns, bookBegin) && forall k :: pick(k) ==> bookBegin <= k.date
    ensures Sum(txns, OpeningsWhere(pick)) == 0.0
  {
    forall t | t in txns ensures OpeningsWhere(pick)(t, txns[t]) == 0.0 {
      assert txns[t].opening ==> txns[t].date == bookBegin - 1;
      assert pick(KeyOf(txns[t])) ==> bookBegin <= KeyOf(txns[t]).date;
    }
    SumZero(txns, OpeningsWhere(pick));
  }

  /** Each figure of the report is a sum over the account's own rows, rounded to paise. */
  lemma FiguresAreRows(txns: map<Uuid, AcTxn>, summary: map<Key, Amounts>, account: int, branches: set<int>, from: Day, to: Day)
    requires Exact(txns, summary) && DaysPresent(txns, summary)
    ensures Unrounded(summary, account, branches, from, to) ==
            Figures(Sum(txns, RowsBefore(account, branches, from, to)), Sum(txns, RowsUpTo(account, branches, to)),
                    Sum(txns, DebitsIn(account, branches, from, to)), Sum(txns, CreditsIn(account, branches, from, to)))
    ensures AccountSummary(summary, account, branches, from, to) ==
            Figures(Round2(Sum(txns, RowsBefore(account, branches, from, to))), Round2(Sum(txns, RowsUpTo(account, branches, to))),
                    Round2(Sum(txns, DebitsIn(account, branches, from, to))),
                    Round2(Sum(txns, CreditsIn(account, branches, from, to))))
  {
    hide Exact, DaysPresent, Round2;
    var before, upTo, within := Before(account, branches, from, to), UpTo(account, branches, to), Within(account, branches, from, to);
    SumCong(summary, OpeningColumn(account, branches, from, to), summary, DaysWhere(Nets, before));
    SumCong(summary, ClosingColumn(account, branches, to), summary, DaysWhere(Nets, upTo));
    SumCong(summary, DebitColumn(account, branches, from, to), summary, DaysWhere(Debits, within));
    SumCong(summary, CreditColumn(account, branches, from, to), summary, DaysWhere(Credits, within));
    DaysAreRows(txns, summary, Nets, before);
    DaysAreRows(txns, summary, Nets, upTo);
    DaysAreRows(txns, summary, Debits, within);
    DaysAreRows(txns, summary, Credits, within);
    NetsOnRows(txns, account, branches, from, to);
    SidesOnRows(txns, account, branches, from, to);
  }

  lemma NetsOnRows(txns: map<Uuid, AcTxn>, account: int, branches: set<int>, from: Day, to: Day)
    ensures Sum(txns, RowsBefore(account, branches, from, to)) == Sum(txns, RowsWhere(Nets, Before(account, branches, from, to)))
    ensures Sum(txns, RowsUpTo(account, branches, to)) == Sum(txns, RowsWhere(Nets, UpTo(account, branches, to)))
  {
    var before, upTo := Before(account, branches, from, to), UpTo(account, branches, to);
    forall t | t in txns
      ensures RowsBefore(account, branches, from, to)(t, txns[t]) == RowsWhere(Nets, before)(t, txns[t])
      ensures RowsUpTo(account, branches, to)(t, txns[t]) == RowsWhere(Nets, upTo)(t, txns[t])
    {
      if before(KeyOf(txns[t])) {}
      if upTo(KeyOf(txns[t])) {}
    }
    SumCong(txns, RowsBefore(account, branches, from, to), txns, RowsWhere(Nets, before));
    SumCong(txns, RowsUpTo(account, branches, to), txns, RowsWhere(Nets, upTo));
  }

  lemma SidesOnRows(txns: map<Uuid, AcTxn>, account: int, branches: set<int>, from: Day, to: Day)
    ensures Sum(txns, DebitsIn(account, branches, from, to)) == Sum(txns, RowsWhere(Debits, Within(account, branches, from, to)))
    ensures Sum(txns, CreditsIn(account, branches, from, to)) == Sum(txns, RowsWhere(Credits, Within(account, branches, from, to)))
  {
    var within := Within(account, branches, from, to);
    forall t | t in txns
      ensures DebitsIn(account, branches, from, to)(t, txns[t]) == RowsWhere(Debits, within)(t, txns[t])
      ensures CreditsIn(account, branches, from, to)(t, txns[t]) == RowsWhere(Credits, within)(t, txns[t])
    {
      if within(KeyOf(txns[t])) {}
    }
    SumCong(txns, DebitsIn(account, branches, from, to), txns, RowsWhere(Debits, within));
    SumCong(txns, CreditsIn(account, branches, from, to), txns, RowsWhere(Credits, within));
  }

  lemma BookOnRows(txns: map<Uuid, AcTxn>, account: int, branches: set<int>, from: Day, to: Day)
    ensures Sum(txns, BookIn(account, branches, from, to)) == Sum(txns, BookWhere(Within(account, branches, from, to)))
    ensures Sum(txns, OpeningsIn(account, branches, from, to)) == Sum(txns, OpeningsWhere(Within(account, branches, from, to)))
  {
    var within := Within(account, branches, from, to);
    forall t | t in txns
      ensures BookIn(account, branches, from, to)(t, txns[t]) == BookWhere(within)(t, txns[t])
      ensures OpeningsIn(account, branches, from, to)(t, txns[t]) == OpeningsWhere(within)(t, txns[t])
    {
      if within(KeyOf(txns[t])) {}
    }
    SumCong(txns, BookIn(account, branches, from, to), txns, BookWhere(within));
    SumCong(txns, OpeningsIn(account, branches, from, to), txns, OpeningsWhere(within));
  }

  /** A memo row, a row of another account or of a branch not named, and a row dated later change no figure. */
  lemma OthersDoNotCount(txns: map<Uuid, AcTxn>, summary: map<Key, Amounts>, id: Uuid, row: AcTxn, after: map<Key, Amounts>,
                         account: int, branches: set<int>, from: Day, to: Day)
    requires Exact(txns, summary) && DaysPresent(txns, summary) && id !in txns
    requires Exact(txns[id := row], after) && DaysPresent(txns[id := row], after)
    requires row.memo || row.account != account || (branches != {} && row.branch !in branches) || row.date > to
    ensures Unrounded(after, account, branches, from, to) == Unrounded(summary, account, branches, from, to)
    ensures AccountSummary(after, account, branches, from, to) == AccountSummary(summary, account, branches, from, to)
  {
    hide Exact, DaysPresent, Unrounded, Round2;
    FiguresAreRows(txns, summary, account, branches, from, to);
    FiguresAreRows(txns[id := row], after, account, branches, from, to);
    SumPut(txns, RowsBefore(account, branches, from, to), id, row);
    SumPut(txns, RowsUpTo(account, branches, to), id, row);
    SumPut(txns, DebitsIn(account, branches, from, to), id, row);
    SumPut(txns, CreditsIn(account, branches, from, to), id, row);
  }
}
