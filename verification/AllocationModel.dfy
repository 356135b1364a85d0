/** Bill allocations as values: a NEW row opens a group under its pending id, ADJ rows settle against it, ON_ACC rows
    belong to no group. */
module AllocationModel {
  import opened Options
  import opened Sums
  import opened Money

  type Uuid = int

  datatype RefType = NEW | ADJ | ON_ACC

  datatype Alloc = Alloc(acTxn: Uuid, account: int, voucher: Option<int>, ref: RefType, pending: Option<Uuid>, amount: real)

  /** A line as the caller sends it. */
  datatype Line = Line(id: Option<Uuid>, ref: RefType, pending: Option<Uuid>, amount: real)

  predicate Opens(a: Alloc, p: Uuid) { a.ref == NEW && a.pending == Some(p) }

  predicate Settles(a: Alloc, p: Uuid) { a.ref == ADJ && a.pending == Some(p) }

  predicate Live(rows: map<Uuid, Alloc>, p: Uuid) { exists k | k in rows :: Opens(rows[k], p) }

  /** At most one NEW row per pending id. */
  ghost predicate OneNewEach(rows: map<Uuid, Alloc>) {
    forall k, j, p :: k in rows && j in rows && Opens(rows[k], p) && Opens(rows[j], p) ==> k == j
  }

  /** Every ADJ row names a live NEW row. */
  ghost predicate NoOrphans(rows: map<Uuid, Alloc>) {
    forall k, p :: k in rows && Settles(rows[k], p) ==> Live(rows, p)
  }

  /** NEW and ADJ rows carry a pending id. */
  ghost predicate Grouped(rows: map<Uuid, Alloc>) {
    forall k :: k in rows && rows[k].ref != ON_ACC ==> rows[k].pending.Some?
  }

  ghost predicate Sound(rows: map<Uuid, Alloc>) { OneNewEach(rows) && NoOrphans(rows) && Grouped(rows) }

  function Pendings(rows: map<Uuid, Alloc>): set<Uuid> {
    set k | k in rows && rows[k].pending.Some? :: rows[k].pending.value
  }

  // ---- one line of an insert or update -------------------------------------------------------------------------

  /** The pending id a line is stored with; `drawn` is a fresh one. */
  function PendingFor(l: Line, drawn: Uuid): Option<Uuid> {
    match l.ref
    case NEW => Some(if l.pending.Some? then l.pending.value else drawn)
    case ADJ => l.pending
    case ON_ACC => None
  }

  /** Why an update refuses a line. The search for another NEW row compares ids with the line's own, and a line without an
      id compares with nothing: then no clash is ever found. */
  predicate Refused(rows: map<Uuid, Alloc>, l: Line) {
    || l.amount == 0.0
    || (l.ref == ADJ && l.pending == None)
    || (l.ref == NEW && l.pending.Some? && l.id.Some?
        && exists k | k in rows :: Opens(rows[k], l.pending.value) && k != l.id.value)
  }

  /** The row an upsert leaves: an existing one keeps its ac_txn, account and voucher. */
  function RowAfter(rows: map<Uuid, Alloc>, id: Uuid, row: Alloc): Alloc {
    if id in rows then rows[id].(ref := row.ref, pending := row.pending, amount := row.amount) else row
  }

  function Upserted(rows: map<Uuid, Alloc>, id: Uuid, row: Alloc): map<Uuid, Alloc> { rows[id := RowAfter(rows, id, row)] }

  /** A NEW line without an id that names the pending id of a live NEW row. */
  predicate Doubles(rows: map<Uuid, Alloc>, l: Line) {
    l.ref == NEW && l.id == None && l.pending.Some? && Live(rows, l.pending.value)
  }

  /** An accepted line leaves at most one NEW row per pending id exactly when it does not double one. */
  lemma UpsertKeepsOneNewIff(rows: map<Uuid, Alloc>, id: Uuid, l: Line, row: Alloc, drawn: Uuid)
    requires OneNewEach(rows) && !Refused(rows, l)
    requires if l.id.Some? then id == l.id.value else id !in rows
    requires drawn !in Pendings(rows)
    requires row.ref == l.ref && row.pending == PendingFor(l, drawn)
    ensures OneNewEach(Upserted(rows, id, row)) <==> !Doubles(rows, l)
  {
    var now := Upserted(rows, id, row);
    if Doubles(rows, l) {
      var k :| k in rows && Opens(rows[k], l.pending.value);
      assert Opens(now[k], l.pending.value) && Opens(now[id], l.pending.value) && k != id;
    } else if l.ref == NEW {
      var p := row.pending.value;
      forall k | k in rows && k != id ensures !Opens(rows[k], p) {
        assert l.pending == None ==> p == drawn && rows[k].pending != Some(drawn);
      }
    }
  }

  /** Whether a line orphans an ADJ row: its own, if it names no live NEW row, or those of a NEW row it retypes or moves
      to another pending id. */
  ghost predicate Orphans(rows: map<Uuid, Alloc>, id: Uuid, row: Alloc) {
    || (row.ref == ADJ && row.pending.Some? && !exists k :: k in rows && k != id && Opens(rows[k], row.pending.value))
    || (id in rows && rows[id].ref == NEW && rows[id].pending.Some? && !Opens(row, rows[id].pending.value)
        && exists k :: k in rows && k != id && Settles(rows[k], rows[id].pending.value))
  }

  lemma UpsertKeepsNoOrphansIff(rows: map<Uuid, Alloc>, id: Uuid, row: Alloc)
    requires OneNewEach(rows) && NoOrphans(rows)
    ensures NoOrphans(Upserted(rows, id, row)) <==> !Orphans(rows, id, row)
  {
    var now := Upserted(rows, id, row);
    if Orphans(rows, id, row) {
      if row.ref == ADJ && row.pending.Some? && !exists k :: k in rows && k != id && Opens(rows[k], row.pending.value) {
        assert Settles(now[id], row.pending.value);
        assert !Live(now, row.pending.value);
      } else {
        var p := rows[id].pending.value;
        var k :| k in rows && k != id && Settles(rows[k], p);
        assert Opens(rows[id], p) && Settles(now[k], p);
        assert !Live(now, p);
      }
    } else {
      forall k, p | k in now && Settles(now[k], p) ensures Live(now, p) {
        if k == id {
          var j :| j in rows && j != id && Opens(rows[j], p);
          assert Opens(now[j], p);
        } else {
          assert Settles(rows[k], p) && Live(rows, p);
          var j :| j in rows && Opens(rows[j], p);
          assert Opens(now[j], p);
        }
      }
    }
  }

  // ---- the pending report --------------------------------------------------------------------------------------

  /** Amounts settled against or opening a group. */
  ghost function GroupAmount(p: Option<Uuid>): (Uuid, Alloc) -> real {
    (_, a: Alloc) => if a.ref != ON_ACC && a.pending == p then a.amount else 0.0
  }

  ghost function Amount(): (Uuid, Alloc) -> real { (_, a: Alloc) => if a.ref != ON_ACC then a.amount else 0.0 }

  /** `account_pending`: one row per NEW row, closing at the rounded sum of its group. */
  ghost function Closing(rows: map<Uuid, Alloc>): (Uuid, Alloc) -> real {
    (_, a: Alloc) => if a.ref == NEW then Round2(Sum(rows, GroupAmount(a.pending))) else 0.0
  }

  ghost function ExactClosing(rows: map<Uuid, Alloc>): (Uuid, Alloc) -> real {
    (_, a: Alloc) => if a.ref == NEW then Sum(rows, GroupAmount(a.pending)) else 0.0
  }

  /** Half a paisa for every group. */
  ghost function Slack(): (Uuid, Alloc) -> real { (_, a: Alloc) => if a.ref == NEW then 0.005 else 0.0 }

  /** The rows that open groups. */
  function Heads(rows: map<Uuid, Alloc>): set<Uuid> { set k | k in rows && rows[k].ref == NEW }

  lemma HeadsLess(rows: map<Uuid, Alloc>, k: Uuid)
    requires k in rows
    ensures |Heads(rows)| == |Heads(rows - {k})| + if rows[k].ref == NEW then 1 else 0
  {
    assert Heads(rows) == Heads(rows - {k}) + if rows[k].ref == NEW then {k} else {};
  }

  lemma {:induction false} SlackIs(rows: map<Uuid, Alloc>)
    ensures Sum(rows, Slack()) == 0.005 * |Heads(rows)| as real
    decreases |rows|
  {
    if rows == map[] {
      assert Heads(rows) == {};
    } else {
      hide Heads;
      var k := SomeRow(rows);
      SumTake(rows, Slack(), k);
      assert rows.Keys == (rows - {k}).Keys + {k};
      HeadsLess(rows, k);
      SlackIs(rows - {k});
    }
  }

  /** The NEW row of a group. */
  ghost function Head(rows: map<Uuid, Alloc>, p: Option<Uuid>): Uuid {
    if p.Some? && Live(rows, p.value) then var k :| k in rows && Opens(rows[k], p.value); k else 0
  }

  ghost function HeadOf(rows: map<Uuid, Alloc>): (Uuid, Alloc) -> Uuid { (_, a: Alloc) => Head(rows, a.pending) }

  ghost function NewRow(): (Uuid, Alloc) -> bool { (_, a: Alloc) => a.ref == NEW }

  /** Nothing is counted twice or lost: the groups together hold every amount that is not on account. */
  lemma ClosingsAddUp(rows: map<Uuid, Alloc>)
    requires Sound(rows)
    ensures Sum(rows, ExactClosing(rows)) == Sum(rows, Amount())
  {
    forall n | n in rows
      ensures ExactClosing(rows)(n, rows[n]) == PerGroup(rows, Amount(), HeadOf(rows), NewRow())(n, rows[n])
    {
      if rows[n].ref == NEW {
        var p := rows[n].pending.value;
        assert Opens(rows[n], p);
        forall k | k in rows
          ensures GroupAmount(Some(p))(k, rows[k]) == Fibre(Amount(), HeadOf(rows), n)(k, rows[k])
        {
          if rows[k].ref != ON_ACC {
            HeadIs(rows, k);
            assert rows[k].pending == Some(p) ==> Opens(rows[Head(rows, rows[k].pending)], p);
          }
        }
        SumCong(rows, GroupAmount(Some(p)), rows, Fibre(Amount(), HeadOf(rows), n));
      }
    }
    SumCong(rows, ExactClosing(rows), rows, PerGroup(rows, Amount(), HeadOf(rows), NewRow()));
    SumByGroup(rows, Amount(), HeadOf(rows), rows, NewRow());
    forall k | k in rows ensures InPicked(rows, Amount(), HeadOf(rows), NewRow())(k, rows[k]) == Amount()(k, rows[k]) {
      if rows[k].ref != ON_ACC {
        HeadIs(rows, k);
      }
    }
    SumCong(rows, InPicked(rows, Amount(), HeadOf(rows), NewRow()), rows, Amount());
  }

  lemma HeadIs(rows: map<Uuid, Alloc>, k: Uuid)
    requires Sound(rows) && k in rows && rows[k].ref != ON_ACC
    ensures rows[k].pending.Some?
    ensures var h := Head(rows, rows[k].pending); h in rows && Opens(rows[h], rows[k].pending.value)
  {
    var p := rows[k].pending.value;
    assert Opens(rows[k], p) || Settles(rows[k], p);
    assert Live(rows, p);
  }

  /** The report's closings add up to everything not on account: exactly in whole paise, and always within half a paisa
      per group. */
  lemma PendingReportAddsUp(rows: map<Uuid, Alloc>)
    requires Sound(rows)
    ensures var bound := 0.005 * |Heads(rows)| as real;
            -bound <= Sum(rows, Closing(rows)) - Sum(rows, Amount()) <= bound
    ensures (forall k :: k in rows ==> WholePaise(rows[k].amount)) ==> Sum(rows, Closing(rows)) == Sum(rows, Amount())
    ensures forall k :: k in rows && rows[k].ref == NEW ==>
              var group := (_: Uuid, a: Alloc) => if a.ref != ON_ACC && a.pending == rows[k].pending then a.amount else 0.0;
              Closing(rows)(k, rows[k]) == Round2(Sum(rows, group))
  {
    forall k | k in rows && rows[k].ref == NEW
      ensures var group := (_: Uuid, a: Alloc) => if a.ref != ON_ACC && a.pending == rows[k].pending then a.amount else 0.0;
              Closing(rows)(k, rows[k]) == Round2(Sum(rows, group))
    {
      var group := (_: Uuid, a: Alloc) => if a.ref != ON_ACC && a.pending == rows[k].pending then a.amount else 0.0;
      SumCong(rows, GroupAmount(rows[k].pending), rows, group);
    }
    hide Round2, WholePaise;
    SlackIs(rows);
    ClosingsAddUp(rows);
    forall k | k in rows
      ensures -Slack()(k, rows[k]) <= Closing(rows)(k, rows[k]) - ExactClosing(rows)(k, rows[k]) <= Slack()(k, rows[k])
    {
      RoundsByHalf(Sum(rows, GroupAmount(rows[k].pending)));
    }
    SumNear(rows, Closing(rows), ExactClosing(rows), Slack());
    if forall k :: k in rows ==> WholePaise(rows[k].amount) {
      forall k | k in rows ensures Closing(rows)(k, rows[k]) == ExactClosing(rows)(k, rows[k]) {
        WholeGroups(rows, rows[k].pending);
        RoundsByHalf(Sum(rows, GroupAmount(rows[k].pending)));
      }
      SumCong(rows, Closing(rows), rows, ExactClosing(rows));
    }
  }

  lemma WholeGroups(rows: map<Uuid, Alloc>, p: Option<Uuid>)
    requires forall k :: k in rows ==> WholePaise(rows[k].amount)
    ensures WholePaise(Sum(rows, GroupAmount(p)))
  {
    hide WholePaise;
    WholeZero();
    forall k | k in rows ensures WholePaise(GroupAmount(p)(k, rows[k])) {}
    SumWhole(rows, GroupAmount(p));
  }

  // ---- deleting ------------------------------------------------------------------------------------------------

  /** The pending ids opened by the rows `ids`. */
  function OpenedBy(rows: map<Uuid, Alloc>, ids: set<Uuid>): set<Uuid> {
    set k | k in ids && k in rows && rows[k].ref == NEW && rows[k].pending.Some? :: rows[k].pending.value
  }

  /** The rows that settled against one of the groups `groups` each open a new group, under a pending id outside `used`;
      the others are as they were. */
  ghost predicate Turned(was: map<Uuid, Alloc>, now: map<Uuid, Alloc>, groups: set<Uuid>, used: set<Uuid>) {
    && now.Keys == was.Keys
    && forall k :: k in was ==>
        if was[k].ref == ADJ && was[k].pending.Some? && was[k].pending.value in groups
        then && now[k] == was[k].(ref := NEW, pending := now[k].pending)
             && now[k].pending.Some? && now[k].pending.value !in used
        else now[k] == was[k]
  }

  lemma OpenKeepsOneNew(rows: map<Uuid, Alloc>, k: Uuid, u: Uuid)
    requires OneNewEach(rows) && Grouped(rows) && k in rows && u !in Pendings(rows)
    ensures OneNewEach(rows[k := rows[k].(ref := NEW, pending := Some(u))])
    ensures Grouped(rows[k := rows[k].(ref := NEW, pending := Some(u))])
  {
    forall j | j in rows ensures !Opens(rows[j], u) {}
  }

  lemma FewerRows(was: map<Uuid, Alloc>, ids: set<Uuid>)
    requires OneNewEach(was) && Grouped(was)
    ensures OneNewEach(was - ids) && Grouped(was - ids) && forall used :: Turned(was - ids, was - ids, {}, used)
  {
  }

  /** A group whose NEW row has been deleted is not live, whatever has been promoted since. */
  lemma DeadGroup(was: map<Uuid, Alloc>, ids: set<Uuid>, now: map<Uuid, Alloc>, done: set<Uuid>, p: Uuid)
    requires OneNewEach(was) && Turned(was - ids, now, done, Pendings(was)) && p in OpenedBy(was, ids)
    ensures !Live(now, p)
  {
    var n :| n in ids && n in was && Opens(was[n], p);
    forall k | k in now ensures !Opens(now[k], p) {}
  }

  lemma TurnedLess(left: map<Uuid, Alloc>, now: map<Uuid, Alloc>, groups: set<Uuid>, used: set<Uuid>, fewer: set<Uuid>)
    requires Turned(left, now, groups, used) && fewer <= used
    ensures Turned(left, now, groups, fewer)
  {
  }

  lemma TurnedMore(left: map<Uuid, Alloc>, before: map<Uuid, Alloc>, now: map<Uuid, Alloc>, done: set<Uuid>, p: Uuid,
                   used: set<Uuid>)
    requires Turned(left, before, done, used) && Turned(before, now, {p}, used) && p !in done
    ensures Turned(left, now, done + {p}, used)
  {
  }

  lemma NoneLeft(was: map<Uuid, Alloc>, ids: set<Uuid>, now: map<Uuid, Alloc>)
    requires NoOrphans(was) && Turned(was - ids, now, OpenedBy(was, ids), Pendings(was))
    ensures NoOrphans(now)
  {
    forall k, p | k in now && Settles(now[k], p) ensures Live(now, p) {
      assert k in was - ids && Settles(was[k], p) && Live(was, p);
      var n :| n in was && Opens(was[n], p);
      assert n in ids ==> p in OpenedBy(was, ids);
      assert n in was - ids && Opens(now[n], p);
    }
  }

  /** Promotion moves no money: a promoted row counts in its own group instead of the old one. */
  lemma SameAmounts(was: map<Uuid, Alloc>, now: map<Uuid, Alloc>, groups: set<Uuid>, used: set<Uuid>)
    requires Turned(was, now, groups, used)
    ensures Sum(now, Amount()) == Sum(was, Amount())
  {
    forall k | k in now ensures Amount()(k, now[k]) == Amount()(k, was[k]) {
      assert k in was;
    }
    SumCong(now, Amount(), was, Amount());
  }

  // ---- lists of lines ------------------------------------------------------------------------------------------

  /** The row of `ac_txn` that a list belongs to. */
  datatype Owner = Owner(acTxn: Uuid, account: int, voucher: Option<int>)

  function RowFor(o: Owner, l: Line, drawn: Uuid): Alloc {
    Alloc(o.acTxn, o.account, o.voucher, l.ref, PendingFor(l, drawn), l.amount)
  }

  function NamedIds(lines: seq<Line>): set<Uuid> { set l | l in lines && l.id.Some? :: l.id.value }

  /** Every id and pending id that is stored or that the request mentions: a drawn id is none of them. */
  function Known(was: map<Uuid, Alloc>, lines: seq<Line>): set<Uuid> {
    was.Keys + Pendings(was) + NamedIds(lines) + set l | l in lines && l.pending.Some? :: l.pending.value
  }

  /** Line `j` is the last of the first `i` about its row: a later line with the same id overwrites it. */
  predicate Ends(lines: seq<Line>, i: nat, j: int)
    requires i <= |lines|
  {
    0 <= j < i && (lines[j].id.Some? ==> forall m :: j < m < i ==> lines[m].id != lines[j].id)
  }

  /** The ids of the rows written so far and the pending ids drawn for them. */
  ghost predicate Drawn(was: map<Uuid, Alloc>, base: map<Uuid, Alloc>, ids: seq<Uuid>, draws: seq<Uuid>, lines: seq<Line>) {
    && |ids| == |draws| <= |lines|
    && (forall j :: 0 <= j < |ids| ==>
          if lines[j].id.Some? then ids[j] == lines[j].id.value else ids[j] !in base && ids[j] !in Known(was, lines))
    && (forall j, m :: 0 <= j < m < |ids| && ids[j] == ids[m] ==> lines[j].id.Some? && lines[j].id == lines[m].id)
    && (forall j :: 0 <= j < |draws| ==> draws[j] !in Pendings(base) && draws[j] !in Known(was, lines))
    && (forall j, m :: 0 <= j < m < |draws| ==> draws[j] != draws[m])
  }

  lemma NamesThePast(was: map<Uuid, Alloc>, base: map<Uuid, Alloc>, ids: seq<Uuid>, draws: seq<Uuid>, lines: seq<Line>, k: Uuid)
    requires Drawn(was, base, ids, draws, lines) && k in base
    ensures k in ids <==> k in NamedIds(lines[..|ids|])
  {
    if k in ids {
      var j :| 0 <= j < |ids| && ids[j] == k;
      assert lines[j] in lines[..|ids|];
    }
    forall j | 0 <= j < |ids| && lines[j].id == Some(k) ensures k in ids {
      assert ids[j] == k;
    }
  }

  /** Every row a line speaks of has a last line. */
  lemma {:induction false} LastOf(lines: seq<Line>, i: nat, j: nat) returns (m: nat)
    requires j < i <= |lines|
    ensures Ends(lines, i, m) && j <= m && (m == j || (lines[j].id.Some? && lines[m].id == lines[j].id))
    decreases i - j
  {
    m := j;
    if !Ends(lines, i, j) {
      var n :| j < n < i && lines[n].id == lines[j].id;
      m := LastOf(lines, i, n);
    }
  }

  /** What the rows are after the lines of `ids`: each row they speak of as its last line says, an old one keeping its ac_txn,
      account and voucher. */
  ghost predicate Laid(base: map<Uuid, Alloc>, now: map<Uuid, Alloc>, ids: seq<Uuid>, draws: seq<Uuid>, o: Owner,
                       lines: seq<Line>)
    requires |ids| == |draws| <= |lines|
  {
    && (forall k :: k in now <==> k in base || k in ids)
    && (forall k :: k in base && k !in ids ==> now[k] == base[k])
    && (forall j :: Ends(lines, |ids|, j) ==> ids[j] in now && now[ids[j]] == RowAfter(base, ids[j], RowFor(o, lines[j], draws[j])))
  }

  lemma DrawnStep(was: map<Uuid, Alloc>, base: map<Uuid, Alloc>, before: map<Uuid, Alloc>, ids: seq<Uuid>, draws: seq<Uuid>,
                  lines: seq<Line>, id: Uuid, drawn: Uuid)
    requires Drawn(was, base, ids, draws, lines) && |ids| < |lines|
    requires forall k :: k in base || k in ids ==> k in before
    requires var l := lines[|ids|]; if l.id.Some? then id == l.id.value else id !in before && id !in Known(was, lines)
    requires drawn !in Pendings(base) && drawn !in Known(was, lines) && drawn !in draws
    ensures Drawn(was, base, ids + [id], draws + [drawn], lines)
  {
    hide Pendings;
    assert lines[|ids|] in lines;
    forall j | 0 <= j < |ids| && ids[j] == id ensures lines[j].id.Some? && lines[j].id == lines[|ids|].id {
      assert ids[j] in before;
      assert lines[|ids|].id.Some? ==> id in NamedIds(lines);
    }
  }

  /** Whatever was stored before it, a line leaves its row as if it were the first about it. */
  lemma LastWins(was: map<Uuid, Alloc>, base: map<Uuid, Alloc>, before: map<Uuid, Alloc>, ids: seq<Uuid>, draws: seq<Uuid>,
                 o: Owner, lines: seq<Line>, id: Uuid, drawn: Uuid)
    requires |ids| == |draws| < |lines| && Laid(base, before, ids, draws, o, lines)
    requires Drawn(was, base, ids + [id], draws + [drawn], lines)
    ensures var row := RowFor(o, lines[|ids|], drawn); RowAfter(before, id, row) == RowAfter(base, id, row)
  {
    hide Known, Pendings;
    if id in ids {
      var more := ids + [id];
      var n :| 0 <= n < |ids| && ids[n] == id;
      assert more[n] == more[|ids|];
      var m := LastOf(lines, |ids|, n);
      assert more[m] == ids[m] && ids[m] == id;
    }
  }

  lemma LaidAt(was: map<Uuid, Alloc>, base: map<Uuid, Alloc>, before: map<Uuid, Alloc>, ids: seq<Uuid>, draws: seq<Uuid>,
               o: Owner, lines: seq<Line>, id: Uuid, drawn: Uuid, j: int)
    requires |ids| == |draws| < |lines| && Laid(base, before, ids, draws, o, lines)
    requires Drawn(was, base, ids + [id], draws + [drawn], lines) && Ends(lines, |ids| + 1, j)
    ensures var now, k := Upserted(before, id, RowFor(o, lines[|ids|], drawn)), (ids + [id])[j];
            k in now && now[k] == RowAfter(base, k, RowFor(o, lines[j], (draws + [drawn])[j]))
  {
    LastWins(was, base, before, ids, draws, o, lines, id, drawn);
    hide Known, Pendings, RowFor, RowAfter;
    var i, more := |ids|, ids + [id];
    if j < i {
      assert more[j] != more[i];
      assert Ends(lines, i, j);
    }
  }

  lemma LaidStep(was: map<Uuid, Alloc>, base: map<Uuid, Alloc>, before: map<Uuid, Alloc>, ids: seq<Uuid>, draws: seq<Uuid>,
                 o: Owner, lines: seq<Line>, id: Uuid, drawn: Uuid)
    requires |ids| == |draws| < |lines| && Laid(base, before, ids, draws, o, lines)
    requires Drawn(was, base, ids + [id], draws + [drawn], lines)
    ensures Laid(base, Upserted(before, id, RowFor(o, lines[|ids|], drawn)), ids + [id], draws + [drawn], o, lines)
  {
    hide Drawn, RowFor, RowAfter;
    var i, more, pens := |ids|, ids + [id], draws + [drawn];
    var now := Upserted(before, id, RowFor(o, lines[i], drawn));
    forall k ensures k in now <==> k in base || k in more {
      if k == id {
        assert more[i] == k;
      }
    }
    forall j | Ends(lines, i + 1, j)
      ensures more[j] in now && now[more[j]] == RowAfter(base, more[j], RowFor(o, lines[j], pens[j]))
    {
      LaidAt(was, base, before, ids, draws, o, lines, id, drawn, j);
    }
  }

  lemma WrittenKeys(base: map<Uuid, Alloc>, now: map<Uuid, Alloc>, ids: seq<Uuid>, draws: seq<Uuid>, o: Owner, lines: seq<Line>)
    requires |ids| == |draws| <= |lines| && Laid(base, now, ids, draws, o, lines)
    ensures forall k :: k in base || k in ids ==> k in now
  {
  }

  lemma UpsertKeepsGroups(rows: map<Uuid, Alloc>, id: Uuid, l: Line, row: Alloc, drawn: Uuid)
    requires Grouped(rows) && (l.ref == ADJ ==> l.pending.Some?) && row.ref == l.ref && row.pending == PendingFor(l, drawn)
    ensures Grouped(Upserted(rows, id, row))
  {
  }

  /** A row is as it was, or as its last line says. */
  lemma Origin(was: map<Uuid, Alloc>, base: map<Uuid, Alloc>, now: map<Uuid, Alloc>, ids: seq<Uuid>, draws: seq<Uuid>, o: Owner,
               lines: seq<Line>, k: Uuid) returns (j: int)
    requires Drawn(was, base, ids, draws, lines) && Laid(base, now, ids, draws, o, lines) && k in now
    ensures if j < 0 then k in base && k !in ids && now[k] == base[k]
            else && Ends(lines, |ids|, j) && ids[j] == k
                 && now[k].ref == lines[j].ref && now[k].pending == PendingFor(lines[j], draws[j])
  {
    j := -1;
    if k in ids {
      var n :| 0 <= n < |ids| && ids[n] == k;
      j := LastOf(lines, |ids|, n);
    }
  }

  /** A row that still opens or settles a group the request knows is no promoted one. */
  lemma NotPromoted(was: map<Uuid, Alloc>, dropped: set<Uuid>, base: map<Uuid, Alloc>, lines: seq<Line>, k: Uuid)
    requires Turned(was - dropped, base, OpenedBy(was, dropped), Known(was, lines)) && k in base
    requires base[k].ref != NEW || base[k].pending == None || base[k].pending.value in Known(was, lines)
    ensures base[k] == was[k] && !Promoted(was, dropped, was[k])
  {
  }

  /** Is this row part of a group whose NEW row is being deleted? */
  predicate Promoted(rows: map<Uuid, Alloc>, dropped: set<Uuid>, a: Alloc) {
    a.ref == ADJ && a.pending.Some? && a.pending.value in OpenedBy(rows, dropped)
  }

  // ---- which updates succeed -----------------------------------------------------------------------------------

  /** Line `i` passes every check, seen from the rows left after the deletion and the lines before it. */
  ghost predicate Takes(left: map<Uuid, Alloc>, lines: seq<Line>, i: nat)
    requires i < |lines|
  {
    var l := lines[i];
    && l.amount != 0.0
    && (l.ref == ADJ ==> l.pending.Some?)
    && (l.ref == NEW && l.pending.Some? && l.id.Some? ==>
          && (forall k :: k in left && Opens(left[k], l.pending.value) ==> k == l.id.value || k in NamedIds(lines[..i]))
          && (forall j :: Ends(lines, i, j) && lines[j].ref == NEW && lines[j].pending == l.pending ==> lines[j].id == l.id))
  }

  lemma RefusedIff(was: map<Uuid, Alloc>, dropped: set<Uuid>, base: map<Uuid, Alloc>, now: map<Uuid, Alloc>, ids: seq<Uuid>,
                   draws: seq<Uuid>, o: Owner, lines: seq<Line>)
    requires Turned(was - dropped, base, OpenedBy(was, dropped), Known(was, lines))
    requires Drawn(was, base, ids, draws, lines) && Laid(base, now, ids, draws, o, lines) && |ids| < |lines|
    ensures Refused(now, lines[|ids|]) <==> !Takes(was - dropped, lines, |ids|)
  {
    var i, l, left := |ids|, lines[|ids|], was - dropped;
    assert l in lines;
    if l.ref == NEW && l.pending.Some? && l.id.Some? {
      var p := l.pending.value;
      assert p in Known(was, lines);
      forall k | k in left && Opens(left[k], p) && k != l.id.value && k !in NamedIds(lines[..i]) ensures Refused(now, l) {
        NamesThePast(was, base, ids, draws, lines, k);
        assert Opens(now[k], p);
      }
      forall j | Ends(lines, i, j) && lines[j].ref == NEW && lines[j].pending == l.pending && lines[j].id != l.id
        ensures Refused(now, l)
      {
        assert l.id.value in NamedIds(lines);
        assert Opens(now[ids[j]], p) && ids[j] != l.id.value;
      }
      forall k | k in now && Opens(now[k], p) && k != l.id.value ensures !Takes(left, lines, i) {
        var j := Origin(was, base, now, ids, draws, o, lines, k);
        if j < 0 {
          NotPromoted(was, dropped, base, lines, k);
          NamesThePast(was, base, ids, draws, lines, k);
        }
      }
    }
  }

  // ---- what an update keeps ------------------------------------------------------------------------------------

  /** A NEW row that neither the deletion nor the list touches opens `p`. */
  ghost predicate Standing(left: map<Uuid, Alloc>, lines: seq<Line>, p: Uuid) {
    exists k :: k in left && k !in NamedIds(lines) && Opens(left[k], p)
  }

  /** Line `j` is stored in the end, as a NEW row that opens the group `p` it names. */
  predicate Claims(lines: seq<Line>, j: int, p: Uuid) {
    Ends(lines, |lines|, j) && lines[j].ref == NEW && lines[j].pending == Some(p)
  }

  /** No two NEW lines claim a group, and none claims one that stands. */
  ghost predicate KeepsOneNew(left: map<Uuid, Alloc>, lines: seq<Line>) {
    forall j, p :: Claims(lines, j, p) ==> !Standing(left, lines, p) && forall m :: Claims(lines, m, p) ==> m == j
  }

  /** Each ADJ row that stays, unless promoted, and each ADJ line names a group that stands or that a NEW line claims. */
  ghost predicate KeepsNoOrphans(was: map<Uuid, Alloc>, dropped: set<Uuid>, lines: seq<Line>) {
    && (forall k, p :: k in was && k !in dropped && k !in NamedIds(lines) && Settles(was[k], p) && !Promoted(was, dropped, was[k])
          ==> Standing(was - dropped, lines, p) || exists j :: Claims(lines, j, p))
    && (forall j, p :: Ends(lines, |lines|, j) && lines[j].ref == ADJ && lines[j].pending == Some(p)
          ==> Standing(was - dropped, lines, p) || exists m :: Claims(lines, m, p))
  }

  lemma StandingIff(was: map<Uuid, Alloc>, dropped: set<Uuid>, base: map<Uuid, Alloc>, now: map<Uuid, Alloc>, ids: seq<Uuid>,
                    draws: seq<Uuid>, o: Owner, lines: seq<Line>, p: Uuid)
    requires Turned(was - dropped, base, OpenedBy(was, dropped), Known(was, lines))
    requires Drawn(was, base, ids, draws, lines) && Laid(base, now, ids, draws, o, lines) && |ids| == |lines|
    requires p in Known(was, lines)
    ensures Live(now, p) <==> Standing(was - dropped, lines, p) || exists j :: Claims(lines, j, p)
  {
    hide OpenedBy, Known;
    var left := was - dropped;
    assert lines[..|lines|] == lines;
    if k :| k in now && Opens(now[k], p) {
      var j := Origin(was, base, now, ids, draws, o, lines, k);
      if j < 0 {
        NotPromoted(was, dropped, base, lines, k);
        NamesThePast(was, base, ids, draws, lines, k);
        assert Opens(left[k], p);
      } else {
        assert Claims(lines, j, p);
      }
    }
    if k :| k in left && k !in NamedIds(lines) && Opens(left[k], p) {
      NamesThePast(was, base, ids, draws, lines, k);
      assert Opens(now[k], p);
    }
    if j :| Claims(lines, j, p) {
      assert Opens(now[ids[j]], p);
    }
  }

  /** An update leaves one NEW row per group exactly when its list does not claim one twice. */
  lemma OneNewIff(was: map<Uuid, Alloc>, dropped: set<Uuid>, base: map<Uuid, Alloc>, now: map<Uuid, Alloc>, ids: seq<Uuid>,
                  draws: seq<Uuid>, o: Owner, lines: seq<Line>)
    requires Turned(was - dropped, base, OpenedBy(was, dropped), Known(was, lines)) && OneNewEach(base)
    requires Drawn(was, base, ids, draws, lines) && Laid(base, now, ids, draws, o, lines) && |ids| == |lines|
    ensures OneNewEach(now) <==> KeepsOneNew(was - dropped, lines)
  {
    var left := was - dropped;
    assert lines[..|lines|] == lines;
    if OneNewEach(now) {
      forall j, p | Claims(lines, j, p)
        ensures !Standing(left, lines, p) && forall m :: Claims(lines, m, p) ==> m == j
      {
        assert Opens(now[ids[j]], p);
        forall m | Claims(lines, m, p) ensures m == j {
          assert Opens(now[ids[m]], p);
        }
        forall k | k in left && k !in NamedIds(lines) ensures !Opens(left[k], p) {
          NamesThePast(was, base, ids, draws, lines, k);
          assert k in now && k != ids[j];
          assert Opens(left[k], p) ==> Opens(now[k], p);
        }
      }
    }
    if KeepsOneNew(left, lines) {
      forall k, n, p | k in now && n in now && Opens(now[k], p) && Opens(now[n], p) ensures k == n {
        var i := Origin(was, base, now, ids, draws, o, lines, k);
        var j := Origin(was, base, now, ids, draws, o, lines, n);
        if i >= 0 && j >= 0 {
          BothClaim(was, base, ids, draws, lines, i, j, p);
        } else if i >= 0 {
          ClaimsStanding(was, dropped, base, ids, draws, lines, n, i, p);
        } else if j >= 0 {
          ClaimsStanding(was, dropped, base, ids, draws, lines, k, j, p);
        }
      }
    }
  }

  lemma BothClaim(was: map<Uuid, Alloc>, base: map<Uuid, Alloc>, ids: seq<Uuid>, draws: seq<Uuid>, lines: seq<Line>, i: nat,
                  j: nat, p: Uuid)
    requires Drawn(was, base, ids, draws, lines) && |ids| == |lines|
    requires Ends(lines, |lines|, i) && lines[i].ref == NEW && PendingFor(lines[i], draws[i]) == Some(p)
    requires Ends(lines, |lines|, j) && lines[j].ref == NEW && PendingFor(lines[j], draws[j]) == Some(p)
    requires forall m :: Claims(lines, i, p) && Claims(lines, m, p) ==> m == i
    ensures i == j
  {
    assert lines[i] in lines && lines[j] in lines;
    assert lines[i].pending == Some(p) ==> Claims(lines, i, p);
    assert lines[j].pending == Some(p) ==> Claims(lines, j, p);
  }

  lemma ClaimsStanding(was: map<Uuid, Alloc>, dropped: set<Uuid>, base: map<Uuid, Alloc>, ids: seq<Uuid>, draws: seq<Uuid>,
                       lines: seq<Line>, k: Uuid, j: nat, p: Uuid)
    requires Turned(was - dropped, base, OpenedBy(was, dropped), Known(was, lines))
    requires Drawn(was, base, ids, draws, lines) && |ids| == |lines|
    requires k in base && k !in ids && Opens(base[k], p)
    requires Ends(lines, |lines|, j) && lines[j].ref == NEW && PendingFor(lines[j], draws[j]) == Some(p)
    ensures Claims(lines, j, p) && Standing(was - dropped, lines, p)
  {
    var left := was - dropped;
    assert lines[..|lines|] == lines;
    assert lines[j] in lines;
    NamesThePast(was, base, ids, draws, lines, k);
    assert p in Pendings(base) && lines[j].pending == Some(p);
    NotPromoted(was, dropped, base, lines, k);
    assert Opens(left[k], p);
  }

  /** An update orphans nothing exactly when every ADJ row it leaves names a group that stands or is claimed. */
  lemma NoOrphansIff(was: map<Uuid, Alloc>, dropped: set<Uuid>, base: map<Uuid, Alloc>, now: map<Uuid, Alloc>, ids: seq<Uuid>,
                     draws: seq<Uuid>, o: Owner, lines: seq<Line>)
    requires Turned(was - dropped, base, OpenedBy(was, dropped), Known(was, lines))
    requires Drawn(was, base, ids, draws, lines) && Laid(base, now, ids, draws, o, lines) && |ids| == |lines|
    ensures NoOrphans(now) <==> KeepsNoOrphans(was, dropped, lines)
  {
    hide Live, Standing;
    assert lines[..|lines|] == lines;
    if NoOrphans(now) {
      forall k, p | k in was && k !in dropped && k !in NamedIds(lines) && Settles(was[k], p) && !Promoted(was, dropped, was[k])
        ensures Standing(was - dropped, lines, p) || exists j :: Claims(lines, j, p)
      {
        NamesThePast(was, base, ids, draws, lines, k);
        assert k in base && Settles(now[k], p);
        StandingIff(was, dropped, base, now, ids, draws, o, lines, p);
      }
      forall j, p | Ends(lines, |lines|, j) && lines[j].ref == ADJ && lines[j].pending == Some(p)
        ensures Standing(was - dropped, lines, p) || exists m :: Claims(lines, m, p)
      {
        assert lines[j] in lines && Settles(now[ids[j]], p);
        StandingIff(was, dropped, base, now, ids, draws, o, lines, p);
      }
    }
    if KeepsNoOrphans(was, dropped, lines) {
      forall k, p | k in now && Settles(now[k], p) ensures Live(now, p) {
        var j := Origin(was, base, now, ids, draws, o, lines, k);
        if j < 0 {
          NotPromoted(was, dropped, base, lines, k);
          NamesThePast(was, base, ids, draws, lines, k);
        } else {
          assert lines[j] in lines;
        }
        StandingIff(was, dropped, base, now, ids, draws, o, lines, p);
      }
    }
  }

  // ---- saving a list again -------------------------------------------------------------------------------------

  /** The rows of one row of `ac_txn`. */
  function RowsOf(rows: map<Uuid, Alloc>, o: Owner): set<Uuid> {
    set k | k in rows && rows[k].acTxn == o.acTxn && rows[k].account == o.account
  }

  /** Those of them that the list does not name. */
  function Dropped(rows: map<Uuid, Alloc>, o: Owner, lines: seq<Line>): set<Uuid> { RowsOf(rows, o) - NamedIds(lines) }

  /** What an update leaves: the dropped rows are gone, their groups' ADJ rows promoted, and the list written. */
  ghost predicate Updated(was: map<Uuid, Alloc>, dropped: set<Uuid>, now: map<Uuid, Alloc>, ids: seq<Uuid>, draws: seq<Uuid>,
                          o: Owner, lines: seq<Line>)
  {
    exists base ::
      && Turned(was - dropped, base, OpenedBy(was, dropped), Known(was, lines)) && OneNewEach(base)
      && Drawn(was, base, ids, draws, lines) && Laid(base, now, ids, draws, o, lines) && |ids| == |lines|
  }

  /** An update keeps the invariant exactly when the stored rows and the list say so. */
  lemma UpdateKeepsIff(was: map<Uuid, Alloc>, dropped: set<Uuid>, now: map<Uuid, Alloc>, ids: seq<Uuid>, draws: seq<Uuid>,
                       o: Owner, lines: seq<Line>)
    requires Updated(was, dropped, now, ids, draws, o, lines)
    ensures OneNewEach(now) <==> KeepsOneNew(was - dropped, lines)
    ensures NoOrphans(now) <==> KeepsNoOrphans(was, dropped, lines)
    ensures OthersKept(was, dropped, now, lines)
  {
    hide Turned, OneNewEach, NoOrphans, Laid, KeepsOneNew, KeepsNoOrphans, OthersKept;
    var base :| && Turned(was - dropped, base, OpenedBy(was, dropped), Known(was, lines)) && OneNewEach(base)
                && Drawn(was, base, ids, draws, lines) && Laid(base, now, ids, draws, o, lines);
    OneNewIff(was, dropped, base, now, ids, draws, o, lines);
    NoOrphansIff(was, dropped, base, now, ids, draws, o, lines);
    OthersStand(was, dropped, base, now, ids, draws, o, lines);
  }

  /** Each id a line carries is new or this row's own. */
  predicate OwnLines(rows: map<Uuid, Alloc>, o: Owner, lines: seq<Line>) {
    forall l :: l in lines && l.id.Some? && l.id.value in rows ==> l.id.value in RowsOf(rows, o)
  }

  predicate DistinctIds(lines: seq<Line>) {
    forall i, j :: 0 <= i < j < |lines| && lines[i].id.Some? && lines[j].id.Some? ==> lines[i].id != lines[j].id
  }

  /** Rows not named by the list stand, but for those of a group whose NEW row was dropped: they become NEW. */
  predicate OthersKept(was: map<Uuid, Alloc>, dropped: set<Uuid>, now: map<Uuid, Alloc>, lines: seq<Line>) {
    forall k :: k in was && k !in dropped && k !in NamedIds(lines) ==>
      && k in now
      && now[k] == if Promoted(was, dropped, was[k]) then was[k].(ref := NEW, pending := now[k].pending) else was[k]
  }

  lemma OthersStand(was: map<Uuid, Alloc>, dropped: set<Uuid>, base: map<Uuid, Alloc>, now: map<Uuid, Alloc>, ids: seq<Uuid>,
                    draws: seq<Uuid>, o: Owner, lines: seq<Line>)
    requires Turned(was - dropped, base, OpenedBy(was, dropped), Known(was, lines))
    requires Drawn(was, base, ids, draws, lines) && Laid(base, now, ids, draws, o, lines) && |ids| == |lines|
    ensures OthersKept(was, dropped, now, lines)
  {
    assert lines[..|lines|] == lines;
    forall k | k in was && k !in dropped && k !in NamedIds(lines)
      ensures k in now && now[k] == if Promoted(was, dropped, was[k]) then was[k].(ref := NEW, pending := now[k].pending) else was[k]
    {
      assert k in was - dropped && k in base;
      NamesThePast(was, base, ids, draws, lines, k);
    }
  }

  /** Saved with its own ids or none, a row of `ac_txn` has exactly the allocations of its list: one per line, when no id comes
      twice. Each row is as its last line says: NEW rows have the pending id named or drawn for them, ADJ rows the one named, and
      ON_ACC rows none. */
  lemma RowsAreLines(was: map<Uuid, Alloc>, now: map<Uuid, Alloc>, ids: seq<Uuid>, draws: seq<Uuid>, o: Owner, lines: seq<Line>)
    requires Updated(was, Dropped(was, o, lines), now, ids, draws, o, lines) && OwnLines(was, o, lines)
    ensures forall k :: k in ids ==> k in now
    ensures forall k :: k in now ==> (now[k].acTxn == o.acTxn && now[k].account == o.account <==> k in ids)
    ensures forall k :: k in now && k in ids && k !in was ==> now[k].voucher == o.voucher
    ensures DistinctIds(lines) ==> forall i, j :: 0 <= i < j < |ids| ==> ids[i] != ids[j]
    ensures forall j :: Ends(lines, |lines|, j) ==>
              && ids[j] in now && now[ids[j]].ref == lines[j].ref && now[ids[j]].amount == lines[j].amount
              && now[ids[j]].pending == (match lines[j].ref
                                         case NEW => if lines[j].pending.Some? then lines[j].pending else Some(draws[j])
                                         case ADJ => lines[j].pending
                                         case ON_ACC => None)
  {
    hide Turned, Laid, OneNewEach, RowsOf, Dropped, Known;
    var dropped := Dropped(was, o, lines);
    var base :| && Turned(was - dropped, base, OpenedBy(was, dropped), Known(was, lines)) && OneNewEach(base)
                && Drawn(was, base, ids, draws, lines) && Laid(base, now, ids, draws, o, lines);
    forall k
      ensures k in ids ==> k in now
      ensures k in now ==> (now[k].acTxn == o.acTxn && now[k].account == o.account <==> k in ids)
      ensures k in now && k in ids && k !in was ==> now[k].voucher == o.voucher
    {
      OwnedIff(was, base, now, ids, draws, o, lines, k);
    }
    LinesStored(was, base, now, ids, draws, o, lines);
  }

  lemma OwnedIff(was: map<Uuid, Alloc>, base: map<Uuid, Alloc>, now: map<Uuid, Alloc>, ids: seq<Uuid>, draws: seq<Uuid>,
                 o: Owner, lines: seq<Line>, k: Uuid)
    requires var dropped := Dropped(was, o, lines);
             Turned(was - dropped, base, OpenedBy(was, dropped), Known(was, lines))
    requires Drawn(was, base, ids, draws, lines) && Laid(base, now, ids, draws, o, lines) && |ids| == |lines|
    requires OwnLines(was, o, lines)
    ensures k in ids ==> k in now
    ensures k in now ==> (now[k].acTxn == o.acTxn && now[k].account == o.account <==> k in ids)
    ensures k in now && k in ids && k !in was ==> now[k].voucher == o.voucher
  {
    assert lines[..|lines|] == lines;
    var left := was - Dropped(was, o, lines);
    if k in base {
      NamesThePast(was, base, ids, draws, lines, k);
      assert k in left && base[k].acTxn == was[k].acTxn && base[k].account == was[k].account;
    }
    if k in now {
      var j := Origin(was, base, now, ids, draws, o, lines, k);
      assert j >= 0 ==> lines[j] in lines;
    }
  }

  lemma LinesStored(was: map<Uuid, Alloc>, base: map<Uuid, Alloc>, now: map<Uuid, Alloc>, ids: seq<Uuid>, draws: seq<Uuid>,
                    o: Owner, lines: seq<Line>)
    requires Drawn(was, base, ids, draws, lines) && Laid(base, now, ids, draws, o, lines) && |ids| == |lines|
    ensures DistinctIds(lines) ==> forall i, j :: 0 <= i < j < |ids| ==> ids[i] != ids[j]
    ensures forall j :: Ends(lines, |lines|, j) ==>
              && ids[j] in now && now[ids[j]].ref == lines[j].ref && now[ids[j]].amount == lines[j].amount
              && now[ids[j]].pending == (match lines[j].ref
                                         case NEW => if lines[j].pending.Some? then lines[j].pending else Some(draws[j])
                                         case ADJ => lines[j].pending
                                         case ON_ACC => None)
  {
  }

  /** Allocations of other rows stand, unless their group's NEW row was one that the list left out: then they become NEW. */
  lemma OtherRowsStand(was: map<Uuid, Alloc>, now: map<Uuid, Alloc>, ids: seq<Uuid>, draws: seq<Uuid>, o: Owner, lines: seq<Line>,
                       k: Uuid)
    requires Updated(was, Dropped(was, o, lines), now, ids, draws, o, lines)
    requires k in was && (was[k].acTxn != o.acTxn || was[k].account != o.account)
    requires forall l :: l in lines ==> l.id != Some(k)
    ensures k in now
    ensures if was[k].ref == ADJ && exists n :: n in was && was[n].acTxn == o.acTxn && was[n].account == o.account
                                                 && (forall l :: l in lines ==> l.id != Some(n))
                                                 && was[n].ref == NEW && was[n].pending.Some? && was[n].pending == was[k].pending
            then now[k] == was[k].(ref := NEW, pending := now[k].pending)
            else now[k] == was[k]
  {
    hide Updated;
    UpdateKeepsIff(was, Dropped(was, o, lines), now, ids, draws, o, lines);
  }

  // ---- careful lists -------------------------------------------------------------------------------------------

  /** The pending ids that NEW lines name. */
  function Claimed(lines: seq<Line>): set<Uuid> { set l | l in lines && l.ref == NEW && l.pending.Some? :: l.pending.value }

  /** What a client can do to keep the invariant: no id twice; an ADJ line names a group that is left or that the list opens; a
      NEW row is neither retyped nor moved to another group; and a NEW line without an id names no group that is left, nor one
      that another line names. */
  ghost predicate Careful(left: map<Uuid, Alloc>, lines: seq<Line>) {
    && DistinctIds(lines)
    && (forall l :: l in lines ==>
          && (l.ref == ADJ && l.pending.Some? ==> Live(left, l.pending.value) || l.pending.value in Claimed(lines))
          && (l.id.Some? && l.id.value in left && left[l.id.value].ref == NEW ==>
                l.ref == NEW && l.pending == left[l.id.value].pending)
          && (l.ref == NEW && l.id == None && l.pending.Some? ==> !Live(left, l.pending.value)))
    && (forall i, j :: (0 <= i < |lines| && 0 <= j < |lines| && i != j && lines[i].ref == NEW && lines[j].ref == NEW
                        && lines[i].id == None && lines[i].pending.Some?) ==> lines[i].pending != lines[j].pending)
  }

  /** A careful list that is accepted keeps the whole invariant. */
  lemma CarefulKeeps(was: map<Uuid, Alloc>, dropped: set<Uuid>, lines: seq<Line>)
    requires Sound(was) && Careful(was - dropped, lines)
    requires forall i :: 0 <= i < |lines| ==> Takes(was - dropped, lines, i)
    ensures KeepsOneNew(was - dropped, lines) && KeepsNoOrphans(was, dropped, lines)
  {
    var left := was - dropped;
    forall j, p | Claims(lines, j, p)
      ensures !Standing(left, lines, p) && forall m :: Claims(lines, m, p) ==> m == j
    {
      ClaimsAlone(left, lines, j, p);
    }
    forall k, p | k in was && k !in dropped && k !in NamedIds(lines) && Settles(was[k], p) && !Promoted(was, dropped, was[k])
      ensures Standing(left, lines, p) || exists j :: Claims(lines, j, p)
    {
      assert Live(was, p);
      var n :| n in was && Opens(was[n], p);
      assert n !in dropped;
      assert Opens(left[n], p);
      LiveStays(left, lines, p);
    }
    forall j, p | Ends(lines, |lines|, j) && lines[j].ref == ADJ && lines[j].pending == Some(p)
      ensures Standing(left, lines, p) || exists m :: Claims(lines, m, p)
    {
      assert lines[j] in lines;
      LiveStays(left, lines, p);
    }
  }

  lemma ClaimsAlone(left: map<Uuid, Alloc>, lines: seq<Line>, j: nat, p: Uuid)
    requires Careful(left, lines) && Claims(lines, j, p)
    requires forall i :: 0 <= i < |lines| ==> Takes(left, lines, i)
    ensures !Standing(left, lines, p) && forall m :: Claims(lines, m, p) ==> m == j
  {
    assert lines[j] in lines;
    if lines[j].id == None {
      assert !Live(left, p);
    } else {
      assert Takes(left, lines, j);
      assert NamedIds(lines[..j]) <= NamedIds(lines) && lines[j].id.value in NamedIds(lines);
    }
    forall m | Claims(lines, m, p) && m != j ensures false {
      assert Takes(left, lines, m) && Takes(left, lines, j);
      if j < m {
        assert Ends(lines, m, j);
      } else {
        assert Ends(lines, j, m);
      }
    }
  }

  lemma LiveStays(left: map<Uuid, Alloc>, lines: seq<Line>, p: Uuid)
    requires Careful(left, lines) && (Live(left, p) || p in Claimed(lines))
    ensures Standing(left, lines, p) || exists j :: Claims(lines, j, p)
  {
    if Live(left, p) {
      var k :| k in left && Opens(left[k], p);
      if k in NamedIds(lines) {
        var l :| l in lines && l.id == Some(k);
        var j :| 0 <= j < |lines| && lines[j] == l;
        assert Claims(lines, j, p);
      }
    } else {
      var l :| l in lines && l.ref == NEW && l.pending == Some(p);
      var j :| 0 <= j < |lines| && lines[j] == l;
      assert Claims(lines, j, p);
    }
  }

  // ---- inserting a list ----------------------------------------------------------------------------------------

  /** Line `i` of an insert passes every check, seen from the rows before and the lines before it. */
  ghost predicate InsertTakes(was: map<Uuid, Alloc>, lines: seq<Line>, i: nat)
    requires i < |lines|
  {
    && lines[i].amount != 0.0
    && (lines[i].ref == ADJ ==> lines[i].pending.Some?)
    && (lines[i].ref == NEW && lines[i].pending.Some? ==>
          && !Live(was, lines[i].pending.value)
          && (forall j :: 0 <= j < i ==> !(lines[j].ref == NEW && lines[j].pending == lines[i].pending)))
    && (lines[i].id.Some? ==> lines[i].id.value !in was && (forall j :: 0 <= j < i ==> lines[j].id != lines[i].id))
  }

  lemma InsertTakesIff(was: map<Uuid, Alloc>, now: map<Uuid, Alloc>, ids: seq<Uuid>, draws: seq<Uuid>, o: Owner,
                       lines: seq<Line>)
    requires Drawn(was, was, ids, draws, lines) && Laid(was, now, ids, draws, o, lines) && |ids| < |lines|
    requires forall j :: 0 <= j < |ids| ==> InsertTakes(was, lines, j)
    ensures var l := lines[|ids|];
            (&& l.amount != 0.0 && (l.ref == ADJ ==> l.pending.Some?)
             && (l.ref == NEW && l.pending.Some? ==> !Live(now, l.pending.value)) && (l.id.Some? ==> l.id.value !in now))
            <==> InsertTakes(was, lines, |ids|)
  {
    var i, l := |ids|, lines[|ids|];
    if l.ref == NEW && l.pending.Some? {
      InsertClashIff(was, now, ids, draws, o, lines, l.pending.value);
    }
    if l.id.Some? {
      IdTaken(was, ids, draws, lines, l.id.value);
    }
  }

  lemma InsertClashIff(was: map<Uuid, Alloc>, now: map<Uuid, Alloc>, ids: seq<Uuid>, draws: seq<Uuid>, o: Owner,
                       lines: seq<Line>, p: Uuid)
    requires Drawn(was, was, ids, draws, lines) && Laid(was, now, ids, draws, o, lines) && p in Known(was, lines)
    requires forall j :: 0 <= j < |ids| ==> InsertTakes(was, lines, j)
    ensures Live(now, p) <==> Live(was, p) || exists j :: 0 <= j < |ids| && lines[j].ref == NEW && lines[j].pending == Some(p)
  {
    var i := |ids|;
    forall k | k in was && Opens(was[k], p) ensures Live(now, p) {
      NamesThePast(was, was, ids, draws, lines, k);
      NotNamed(was, lines, i, k);
      assert Opens(now[k], p);
    }
    forall j | 0 <= j < i && lines[j].ref == NEW && lines[j].pending == Some(p) ensures Live(now, p) {
      forall m | j < m < i && lines[j].id.Some? ensures lines[m].id != lines[j].id {
        assert InsertTakes(was, lines, m);
      }
      assert Ends(lines, i, j) && Opens(now[ids[j]], p);
    }
    forall k | k in now && Opens(now[k], p)
      ensures Live(was, p) || exists j :: 0 <= j < i && lines[j].ref == NEW && lines[j].pending == Some(p)
    {
      var j := Origin(was, was, now, ids, draws, o, lines, k);
    }
  }

  lemma IdTaken(was: map<Uuid, Alloc>, ids: seq<Uuid>, draws: seq<Uuid>, lines: seq<Line>, id: Uuid)
    requires Drawn(was, was, ids, draws, lines) && id in NamedIds(lines)
    ensures id in ids <==> exists j :: 0 <= j < |ids| && lines[j].id == Some(id)
  {
    forall j | 0 <= j < |ids| && lines[j].id == Some(id) ensures id in ids {
      assert ids[j] == id;
    }
  }

  lemma NotNamed(was: map<Uuid, Alloc>, lines: seq<Line>, i: nat, k: Uuid)
    requires i <= |lines| && k in was && forall j :: 0 <= j < i ==> InsertTakes(was, lines, j)
    ensures k !in NamedIds(lines[..i])
  {
    forall j | 0 <= j < i ensures lines[j].id != Some(k) {
      assert InsertTakes(was, lines, j);
    }
  }

  /** All lines of an accepted list are rows of their own. */
  lemma InsertedAlone(was: map<Uuid, Alloc>, ids: seq<Uuid>, draws: seq<Uuid>, lines: seq<Line>)
    requires Drawn(was, was, ids, draws, lines) && |ids| == |lines|
    requires forall j :: 0 <= j < |lines| ==> InsertTakes(was, lines, j)
    ensures forall j :: 0 <= j < |ids| ==> ids[j] !in was && Ends(lines, |lines|, j)
    ensures forall i, j :: 0 <= i < j < |ids| ==> ids[i] != ids[j]
  {
    forall i, j | 0 <= i < j < |ids| ensures ids[i] != ids[j] && (lines[i].id.Some? ==> lines[j].id != lines[i].id) {
      assert InsertTakes(was, lines, j);
    }
    forall j | 0 <= j < |ids| ensures ids[j] !in was {
      assert InsertTakes(was, lines, j);
    }
  }

  /** A voucher's new lines open no group twice, and orphan nothing exactly when each ADJ line names a group that is live
      already or that a NEW line of the same list names. */
  lemma InsertKeepsIff(was: map<Uuid, Alloc>, now: map<Uuid, Alloc>, ids: seq<Uuid>, draws: seq<Uuid>, o: Owner,
                       lines: seq<Line>)
    requires Sound(was) && Drawn(was, was, ids, draws, lines) && Laid(was, now, ids, draws, o, lines) && |ids| == |lines|
    requires forall j :: 0 <= j < |lines| ==> InsertTakes(was, lines, j)
    ensures OneNewEach(now)
    ensures NoOrphans(now) <==> forall l :: l in lines && l.ref == ADJ && l.pending.Some? ==>
                                  Live(was, l.pending.value) || l.pending.value in Claimed(lines)
  {
    var left := was - {};
    assert left == was && OpenedBy(was, {}) == {};
    InsertedAlone(was, ids, draws, lines);
    assert lines[..|lines|] == lines;
    forall k | k in was ensures k !in NamedIds(lines) {
      NotNamed(was, lines, |lines|, k);
    }
    InsertedOnce(was, lines);
    OneNewIff(was, {}, was, now, ids, draws, o, lines);
    NoOrphansIff(was, {}, was, now, ids, draws, o, lines);
    AllClaim(lines);
    InsertedOrphans(was, lines);
  }

  lemma InsertedOnce(was: map<Uuid, Alloc>, lines: seq<Line>)
    requires forall j :: 0 <= j < |lines| ==> InsertTakes(was, lines, j)
    ensures KeepsOneNew(was - {}, lines)
  {
    forall j, p | Claims(lines, j, p)
      ensures !Standing(was - {}, lines, p) && forall m :: Claims(lines, m, p) ==> m == j
    {
      assert InsertTakes(was, lines, j);
      forall m | Claims(lines, m, p) ensures m == j {
        assert InsertTakes(was, lines, m);
      }
    }
  }

  lemma AllClaim(lines: seq<Line>)
    requires forall j :: 0 <= j < |lines| ==> Ends(lines, |lines|, j)
    ensures forall p :: (exists j :: Claims(lines, j, p)) <==> p in Claimed(lines)
  {
    forall p ensures (exists j :: Claims(lines, j, p)) <==> p in Claimed(lines) {
      if l :| l in lines && l.ref == NEW && l.pending == Some(p) {
        var j :| 0 <= j < |lines| && lines[j] == l;
        assert Claims(lines, j, p);
      }
    }
  }

  lemma InsertedOrphans(was: map<Uuid, Alloc>, lines: seq<Line>)
    requires NoOrphans(was) && OpenedBy(was, {}) == {}
    requires forall j :: 0 <= j < |lines| ==> Ends(lines, |lines|, j)
    requires forall k :: k in was ==> k !in NamedIds(lines)
    requires forall p :: (exists j :: Claims(lines, j, p)) <==> p in Claimed(lines)
    ensures KeepsNoOrphans(was, {}, lines) <==> forall l :: l in lines && l.ref == ADJ && l.pending.Some? ==>
                                                  Live(was, l.pending.value) || l.pending.value in Claimed(lines)
  {
    hide Claims, Claimed;
    assert was - {} == was;
    forall p ensures Standing(was - {}, lines, p) <==> Live(was, p) {}
    if KeepsNoOrphans(was, {}, lines) {
      forall l | l in lines && l.ref == ADJ && l.pending.Some?
        ensures Live(was, l.pending.value) || l.pending.value in Claimed(lines)
      {
        var j :| 0 <= j < |lines| && lines[j] == l;
        assert Ends(lines, |lines|, j);
      }
    }
    if forall l :: l in lines && l.ref == ADJ && l.pending.Some? ==>
         Live(was, l.pending.value) || l.pending.value in Claimed(lines)
    {
      forall j, p | Ends(lines, |lines|, j) && lines[j].ref == ADJ && lines[j].pending == Some(p)
        ensures Standing(was - {}, lines, p) || exists m :: Claims(lines, m, p)
      {
        assert lines[j] in lines;
      }
    }
  }

  // ---- opening lines -------------------------------------------------------------------------------------------

  /** The row an opening's upsert leaves: an existing one keeps its pending id whatever its type becomes. */
  function OpeningAfter(rows: map<Uuid, Alloc>, id: Uuid, row: Alloc): Alloc {
    if id in rows then rows[id].(ref := row.ref, amount := row.amount) else row
  }

  function OpeningUpserted(rows: map<Uuid, Alloc>, id: Uuid, row: Alloc): map<Uuid, Alloc> {
    rows[id := OpeningAfter(rows, id, row)]
  }

  /** No check looks for another NEW row: one results exactly when the line's row becomes NEW under a pending id that another
      row opens, and a NEW row without a group exactly when a row without a pending id is retyped. */
  lemma OpeningUpsertKeepsIff(rows: map<Uuid, Alloc>, id: Uuid, row: Alloc)
    requires OneNewEach(rows) && Grouped(rows) && row.ref != ADJ && (row.ref == NEW ==> row.pending.Some?)
    ensures var q := if id in rows then rows[id].pending else row.pending;
      && (OneNewEach(OpeningUpserted(rows, id, row)) <==>
            !(row.ref == NEW && q.Some? && exists k :: k in rows && k != id && Opens(rows[k], q.value)))
      && (Grouped(OpeningUpserted(rows, id, row)) <==> !(row.ref == NEW && q == None))
  {
    var now, q := OpeningUpserted(rows, id, row), if id in rows then rows[id].pending else row.pending;
    assert now[id].pending == q;
    if row.ref == NEW && q.Some? {
      if k :| k in rows && k != id && Opens(rows[k], q.value) {
        assert Opens(now[k], q.value) && Opens(now[id], q.value);
      }
    }
  }

  /** A list an opening accepts, and one line of it. */
  predicate OpeningTakes(lines: seq<Line>) { lines != [] && forall i :: 0 <= i < |lines| ==> OpeningLineTaken(lines[i]) }

  predicate OpeningLineTaken(l: Line) { l.ref != ADJ && !(l.ref == ON_ACC && l.pending.Some?) && l.amount != 0.0 }

  lemma NoneToTake(lines: seq<Line>)
    requires lines == []
    ensures !OpeningTakes(lines)
  {
  }

  lemma NotTaken(lines: seq<Line>, i: nat)
    requires i < |lines| && !OpeningLineTaken(lines[i])
    ensures !OpeningTakes(lines)
  {
  }

  lemma AllTaken(lines: seq<Line>)
    requires lines != [] && forall i :: 0 <= i < |lines| ==> OpeningLineTaken(lines[i])
    ensures OpeningTakes(lines)
  {
  }

  /** Where the pending id of a new row comes from: it is named or drawn by the last NEW line so far, and carried over to the
      ON_ACC lines after it. */
  datatype Source = NoSource | Names(p: Uuid) | DrawnAt(line: nat)

  function Carried(lines: seq<Line>, i: nat): (s: Source)
    requires i < |lines|
    ensures s.DrawnAt? ==> s.line <= i
    ensures s.Names? ==> exists l :: l in lines && l.pending == Some(s.p)
  {
    if lines[i].ref == NEW then if lines[i].pending.Some? then Names(lines[i].pending.value) else DrawnAt(i)
    else if i == 0 then NoSource
    else Carried(lines, i - 1)
  }

  function Given(s: Source, draws: seq<Uuid>): Option<Uuid> {
    match s
    case NoSource => None
    case Names(p) => Some(p)
    case DrawnAt(i) => if i < |draws| then Some(draws[i]) else None
  }

  function OpeningRow(o: Owner, l: Line, pending: Option<Uuid>): Alloc {
    Alloc(o.acTxn, o.account, o.voucher, l.ref, pending, l.amount)
  }

  /** Line `f` is the first about its row. */
  predicate Begins(lines: seq<Line>, f: int) {
    && 0 <= f < |lines|
    && (lines[f].id.Some? ==> forall m :: 0 <= m < f ==> lines[m].id != lines[f].id)
  }

  predicate SameRow(lines: seq<Line>, f: int, j: int) {
    && 0 <= f < |lines| && 0 <= j < |lines|
    && (f == j || (lines[f].id.Some? && lines[f].id == lines[j].id))
  }

  lemma {:induction false} FirstOf(lines: seq<Line>, j: nat) returns (f: nat)
    requires j < |lines|
    ensures f <= j && Begins(lines, f) && SameRow(lines, f, j)
    decreases j
  {
    f := j;
    if !Begins(lines, j) {
      var n :| 0 <= n < j && lines[n].id == lines[j].id;
      f := FirstOf(lines, n);
    }
  }

  /** What the rows are after the lines of `ids`: type and amount are the last line's; the pending id is the stored one, or
      that carried when the row began. */
  ghost predicate OpeningLaid(base: map<Uuid, Alloc>, now: map<Uuid, Alloc>, ids: seq<Uuid>, draws: seq<Uuid>, o: Owner,
                              lines: seq<Line>)
    requires |ids| == |draws| <= |lines|
  {
    && (forall k :: k in now <==> k in base || k in ids)
    && (forall k :: k in base && k !in ids ==> now[k] == base[k])
    && (forall f, j :: Begins(lines, f) && Ends(lines, |ids|, j) && SameRow(lines, f, j) ==>
          && ids[j] in now
          && now[ids[j]] == OpeningAfter(base, ids[j], OpeningRow(o, lines[j], Given(Carried(lines, f), draws))))
  }

  lemma OpeningLastWins(was: map<Uuid, Alloc>, base: map<Uuid, Alloc>, before: map<Uuid, Alloc>, ids: seq<Uuid>,
                        draws: seq<Uuid>, o: Owner, lines: seq<Line>, id: Uuid, drawn: Uuid, f: nat)
    requires |ids| == |draws| < |lines| && OpeningLaid(base, before, ids, draws, o, lines)
    requires Drawn(was, base, ids + [id], draws + [drawn], lines)
    requires Begins(lines, f) && SameRow(lines, f, |ids|)
    ensures OpeningAfter(before, id, OpeningRow(o, lines[|ids|], Given(Carried(lines, |ids|), draws + [drawn])))
         == OpeningAfter(base, id, OpeningRow(o, lines[|ids|], Given(Carried(lines, f), draws + [drawn])))
  {
    hide Known, Pendings;
    var i, more, pens := |ids|, ids + [id], draws + [drawn];
    assert more[i] == id;
    if f < i {
      assert more[f] == id && lines[f].id == Some(id);
      var m := LastOf(lines, i, f);
      assert more[m] == id && ids[m] == id;
      assert SameRow(lines, f, m);
      assert Given(Carried(lines, f), pens) == Given(Carried(lines, f), draws);
    } else {
      forall n | 0 <= n < i ensures ids[n] != id {
        assert more[n] == ids[n];
      }
    }
  }

  lemma OpeningLaidAt(was: map<Uuid, Alloc>, base: map<Uuid, Alloc>, before: map<Uuid, Alloc>, ids: seq<Uuid>,
                      draws: seq<Uuid>, o: Owner, lines: seq<Line>, id: Uuid, drawn: Uuid, f: int, j: int)
    requires |ids| == |draws| < |lines| && OpeningLaid(base, before, ids, draws, o, lines)
    requires Drawn(was, base, ids + [id], draws + [drawn], lines)
    requires Begins(lines, f) && Ends(lines, |ids| + 1, j) && SameRow(lines, f, j)
    ensures var row, k := OpeningRow(o, lines[|ids|], Given(Carried(lines, |ids|), draws + [drawn])), (ids + [id])[j];
            && k in OpeningUpserted(before, id, row)
            && OpeningUpserted(before, id, row)[k]
               == OpeningAfter(base, k, OpeningRow(o, lines[j], Given(Carried(lines, f), draws + [drawn])))
  {
    hide Known, Pendings, OpeningRow, OpeningAfter;
    var i, more := |ids|, ids + [id];
    assert f <= j && more[i] == id;
    if j < i {
      assert Ends(lines, i, j) && more[j] != more[i];
      assert Given(Carried(lines, f), draws + [drawn]) == Given(Carried(lines, f), draws);
    } else {
      OpeningLastWins(was, base, before, ids, draws, o, lines, id, drawn, f);
    }
  }

  lemma OpeningLaidStep(was: map<Uuid, Alloc>, base: map<Uuid, Alloc>, before: map<Uuid, Alloc>, ids: seq<Uuid>,
                        draws: seq<Uuid>, o: Owner, lines: seq<Line>, id: Uuid, drawn: Uuid)
    requires |ids| == |draws| < |lines| && OpeningLaid(base, before, ids, draws, o, lines)
    requires Drawn(was, base, ids + [id], draws + [drawn], lines)
    ensures var row := OpeningRow(o, lines[|ids|], Given(Carried(lines, |ids|), draws + [drawn]));
            OpeningLaid(base, OpeningUpserted(before, id, row), ids + [id], draws + [drawn], o, lines)
  {
    hide Drawn, OpeningRow, OpeningAfter, Given;
    var i, more, pens := |ids|, ids + [id], draws + [drawn];
    var now := OpeningUpserted(before, id, OpeningRow(o, lines[i], Given(Carried(lines, i), pens)));
    forall k ensures k in now <==> k in base || k in more {
      if k == id {
        assert more[i] == k;
      }
    }
    forall f, j | Begins(lines, f) && Ends(lines, i + 1, j) && SameRow(lines, f, j)
      ensures more[j] in now
      ensures now[more[j]] == OpeningAfter(base, more[j], OpeningRow(o, lines[j], Given(Carried(lines, f), pens)))
    {
      OpeningLaidAt(was, base, before, ids, draws, o, lines, id, drawn, f, j);
    }
  }

  /** Part way through an opening's lines: what is stored, the ids in use, and the pending id carried to the next line. */
  ghost predicate OpeningSoFar(was: map<Uuid, Alloc>, base: map<Uuid, Alloc>, now: map<Uuid, Alloc>, ids: seq<Uuid>,
                               draws: seq<Uuid>, o: Owner, lines: seq<Line>, used: set<Uuid>, carried: Option<Uuid>)
  {
    && Drawn(was, base, ids, draws, lines) && OpeningLaid(base, now, ids, draws, o, lines)
    && Known(was, lines) + Pendings(base) <= used && (forall d :: d in draws ==> d in used)
    && carried == LastCarried(lines, draws)
  }

  function LastCarried(lines: seq<Line>, draws: seq<Uuid>): Option<Uuid>
    requires |draws| <= |lines|
  {
    if draws == [] then None else Given(Carried(lines, |draws| - 1), draws)
  }

  lemma OpeningBegins(was: map<Uuid, Alloc>, base: map<Uuid, Alloc>, o: Owner, lines: seq<Line>, used: set<Uuid>)
    requires used == Known(was, lines) + Pendings(base)
    ensures OpeningSoFar(was, base, base, [], [], o, lines, used, None)
  {
  }

  lemma OpeningKeys(base: map<Uuid, Alloc>, now: map<Uuid, Alloc>, ids: seq<Uuid>, draws: seq<Uuid>, o: Owner, lines: seq<Line>)
    requires |ids| == |draws| <= |lines| && OpeningLaid(base, now, ids, draws, o, lines)
    ensures forall k :: k in base || k in ids ==> k in now
  {
  }

  lemma OpeningTurn(was: map<Uuid, Alloc>, base: map<Uuid, Alloc>, before: map<Uuid, Alloc>, ids: seq<Uuid>, draws: seq<Uuid>,
                    o: Owner, lines: seq<Line>, used: set<Uuid>, last: Option<Uuid>, id: Uuid, drawn: Uuid,
                    carried: Option<Uuid>)
    requires OpeningSoFar(was, base, before, ids, draws, o, lines, used, last) && |ids| < |lines|
    requires if lines[|ids|].id.Some? then id == lines[|ids|].id.value else id !in before && id !in used
    requires drawn !in used
    requires var l := lines[|ids|];
             carried == if l.ref == NEW then Some(if l.pending.Some? then l.pending.value else drawn) else last
    ensures OpeningSoFar(was, base, OpeningUpserted(before, id, OpeningRow(o, lines[|ids|], carried)), ids + [id],
                         draws + [drawn], o, lines, used + {drawn}, carried)
  {
    assert |ids| == |draws|;
    CarriedIs(lines, |ids|, draws, drawn);
    Lined(was, base, before, ids, draws, o, lines, used, id, drawn);
    hide Known, Pendings, OpeningUpserted, OpeningRow, Carried, Given, Drawn, OpeningLaid, LastCarried;
  }

  lemma Lined(was: map<Uuid, Alloc>, base: map<Uuid, Alloc>, before: map<Uuid, Alloc>, ids: seq<Uuid>, draws: seq<Uuid>,
              o: Owner, lines: seq<Line>, used: set<Uuid>, id: Uuid, drawn: Uuid)
    requires Drawn(was, base, ids, draws, lines) && OpeningLaid(base, before, ids, draws, o, lines) && |ids| < |lines|
    requires if lines[|ids|].id.Some? then id == lines[|ids|].id.value else id !in before && id !in used
    requires Known(was, lines) + Pendings(base) <= used && (forall d :: d in draws ==> d in used) && drawn !in used
    ensures Drawn(was, base, ids + [id], draws + [drawn], lines)
    ensures var row := OpeningRow(o, lines[|ids|], Given(Carried(lines, |ids|), draws + [drawn]));
            OpeningLaid(base, OpeningUpserted(before, id, row), ids + [id], draws + [drawn], o, lines)
  {
    hide Known, Pendings, OpeningUpserted, OpeningRow, Carried, Given;
    OpeningKeys(base, before, ids, draws, o, lines);
    DrawnStep(was, base, before, ids, draws, lines, id, drawn);
    OpeningLaidStep(was, base, before, ids, draws, o, lines, id, drawn);
  }

  lemma OpeningEnds(was: map<Uuid, Alloc>, base: map<Uuid, Alloc>, now: map<Uuid, Alloc>, ids: seq<Uuid>, draws: seq<Uuid>,
                    o: Owner, lines: seq<Line>, used: set<Uuid>, carried: Option<Uuid>)
    requires OpeningSoFar(was, base, now, ids, draws, o, lines, used, carried)
    ensures Drawn(was, base, ids, draws, lines) && OpeningLaid(base, now, ids, draws, o, lines)
  {
  }

  lemma CarriedIs(lines: seq<Line>, i: nat, draws: seq<Uuid>, drawn: Uuid)
    requires i == |draws| < |lines|
    ensures LastCarried(lines, draws + [drawn]) == Given(Carried(lines, i), draws + [drawn])
              == if lines[i].ref == NEW then Some(if lines[i].pending.Some? then lines[i].pending.value else drawn)
                 else LastCarried(lines, draws)
  {
  }

  /** Stored rows of an opening that the list does not name. */
  function OpeningDropped(rows: map<Uuid, Alloc>, acTxn: Uuid, lines: seq<Line>): set<Uuid> {
    set k | k in rows && rows[k].acTxn == acTxn && k !in NamedIds(lines)
  }

  /** What saving an opening leaves: the dropped rows are gone, their groups' ADJ rows promoted, and the list written. */
  ghost predicate OpeningSaved(was: map<Uuid, Alloc>, dropped: set<Uuid>, now: map<Uuid, Alloc>, ids: seq<Uuid>,
                               draws: seq<Uuid>, o: Owner, lines: seq<Line>)
  {
    exists base ::
      && Turned(was - dropped, base, OpenedBy(was, dropped), Known(was, lines)) && OneNewEach(base)
      && Drawn(was, base, ids, draws, lines) && OpeningLaid(base, now, ids, draws, o, lines) && |ids| == |lines|
  }

  lemma NothingWritten(was: map<Uuid, Alloc>, base: map<Uuid, Alloc>, o: Owner, lines: seq<Line>)
    ensures Drawn(was, base, [], [], lines) && Laid(base, base, [], [], o, lines)
  {
  }

  /** What is stored: the rows written have their last lines' types and amounts, new ones this opening's ledger row and account and
      no others' voucher; old ones keep theirs. Saved with its own ids or none, an opening has exactly the rows written. */
  lemma OpeningRowsAreLines(was: map<Uuid, Alloc>, now: map<Uuid, Alloc>, ids: seq<Uuid>, draws: seq<Uuid>, o: Owner,
                            lines: seq<Line>)
    requires OpeningSaved(was, OpeningDropped(was, o.acTxn, lines), now, ids, draws, o, lines)
    ensures |ids| == |lines| && forall j :: Ends(lines, |lines|, j) ==>
              && ids[j] in now && now[ids[j]].ref == lines[j].ref && now[ids[j]].amount == lines[j].amount
    ensures forall j :: 0 <= j < |ids| ==>
              && ids[j] in now && (lines[j].id.Some? ==> ids[j] == lines[j].id.value)
              && if ids[j] in was
                 then now[ids[j]].acTxn == was[ids[j]].acTxn && now[ids[j]].account == was[ids[j]].account
                      && now[ids[j]].voucher == was[ids[j]].voucher
                 else now[ids[j]].acTxn == o.acTxn && now[ids[j]].account == o.account && now[ids[j]].voucher == o.voucher
    ensures (forall l :: l in lines && l.id.Some? && l.id.value in was ==> was[l.id.value].acTxn == o.acTxn) ==>
              forall k :: k in now ==> (now[k].acTxn == o.acTxn <==> k in ids)
  {
    var dropped := OpeningDropped(was, o.acTxn, lines);
    hide Turned, OneNewEach, OpeningLaid, OpeningDropped, Known;
    var base :| && Turned(was - dropped, base, OpenedBy(was, dropped), Known(was, lines)) && OneNewEach(base)
                && Drawn(was, base, ids, draws, lines) && OpeningLaid(base, now, ids, draws, o, lines) && |ids| == |lines|;
    forall j | Ends(lines, |lines|, j)
      ensures ids[j] in now && now[ids[j]].ref == lines[j].ref && now[ids[j]].amount == lines[j].amount
    {
      OpeningLast(base, now, ids, draws, o, lines, j);
    }
    forall j | 0 <= j < |ids|
      ensures ids[j] in now && (ids[j] in was <==> ids[j] in base)
      ensures if ids[j] in base
              then now[ids[j]].acTxn == was[ids[j]].acTxn && now[ids[j]].account == was[ids[j]].account
                   && now[ids[j]].voucher == was[ids[j]].voucher
              else now[ids[j]].acTxn == o.acTxn && now[ids[j]].account == o.account && now[ids[j]].voucher == o.voucher
    {
      OpeningOwner(was, base, now, ids, draws, o, lines, j);
    }
    forall k | k in now && k !in ids ensures now[k].acTxn != o.acTxn {
      OpeningOther(was, base, now, ids, draws, o, lines, k);
    }
    forall j | 0 <= j < |ids| && lines[j].id.Some? && ids[j] in was ensures lines[j] in lines {}
    assert forall j :: 0 <= j < |ids| && ids[j] in was ==> lines[j].id.Some? && ids[j] == lines[j].id.value;
  }

  /** Allocations of other ledger rows stand, unless their group's NEW row was one that the list left out: then they become NEW. */
  lemma OpeningOthersStand(was: map<Uuid, Alloc>, now: map<Uuid, Alloc>, ids: seq<Uuid>, draws: seq<Uuid>, o: Owner,
                           lines: seq<Line>, k: Uuid)
    requires OpeningSaved(was, OpeningDropped(was, o.acTxn, lines), now, ids, draws, o, lines)
    requires k in was && was[k].acTxn != o.acTxn && forall l :: l in lines ==> l.id != Some(k)
    ensures k in now
    ensures if was[k].ref == ADJ && exists n :: n in was && was[n].acTxn == o.acTxn && (forall l :: l in lines ==> l.id != Some(n))
                                                 && was[n].ref == NEW && was[n].pending.Some? && was[n].pending == was[k].pending
            then now[k] == was[k].(ref := NEW, pending := now[k].pending)
            else now[k] == was[k]
  {
    var dropped := OpeningDropped(was, o.acTxn, lines);
    var base :| && Turned(was - dropped, base, OpenedBy(was, dropped), Known(was, lines)) && OneNewEach(base)
                && Drawn(was, base, ids, draws, lines) && OpeningLaid(base, now, ids, draws, o, lines) && |ids| == |lines|;
    assert lines[..|lines|] == lines;
    assert k in was - dropped && k in base && k !in NamedIds(lines);
    NamesThePast(was, base, ids, draws, lines, k);
    assert now[k] == base[k];
  }

  lemma OpeningLast(base: map<Uuid, Alloc>, now: map<Uuid, Alloc>, ids: seq<Uuid>, draws: seq<Uuid>, o: Owner, lines: seq<Line>,
                    j: int)
    requires |ids| == |draws| == |lines| && OpeningLaid(base, now, ids, draws, o, lines) && Ends(lines, |lines|, j)
    ensures ids[j] in now && now[ids[j]].ref == lines[j].ref && now[ids[j]].amount == lines[j].amount
    ensures if ids[j] in base
            then now[ids[j]].acTxn == base[ids[j]].acTxn && now[ids[j]].account == base[ids[j]].account
                 && now[ids[j]].voucher == base[ids[j]].voucher
            else now[ids[j]].acTxn == o.acTxn && now[ids[j]].account == o.account && now[ids[j]].voucher == o.voucher
  {
    var f := FirstOf(lines, j);
    assert Begins(lines, f) && SameRow(lines, f, j);
  }

  lemma OpeningOwner(was: map<Uuid, Alloc>, base: map<Uuid, Alloc>, now: map<Uuid, Alloc>, ids: seq<Uuid>, draws: seq<Uuid>,
                     o: Owner, lines: seq<Line>, j: nat)
    requires var dropped := OpeningDropped(was, o.acTxn, lines);
             Turned(was - dropped, base, OpenedBy(was, dropped), Known(was, lines))
    requires Drawn(was, base, ids, draws, lines) && OpeningLaid(base, now, ids, draws, o, lines) && |ids| == |lines| && j < |ids|
    ensures ids[j] in now && (ids[j] in was <==> ids[j] in base)
    ensures if ids[j] in base
            then now[ids[j]].acTxn == was[ids[j]].acTxn && now[ids[j]].account == was[ids[j]].account
                 && now[ids[j]].voucher == was[ids[j]].voucher
            else now[ids[j]].acTxn == o.acTxn && now[ids[j]].account == o.account && now[ids[j]].voucher == o.voucher
  {
    hide OpeningLaid;
    var left := was - OpeningDropped(was, o.acTxn, lines);
    var m := LastOf(lines, |lines|, j);
    assert ids[m] == ids[j];
    OpeningLast(base, now, ids, draws, o, lines, m);
    assert base.Keys == left.Keys;
    assert lines[j] in lines;
    if lines[j].id.Some? {
      assert ids[j] in NamedIds(lines);
    } else {
      assert ids[j] !in was.Keys;
    }
  }

  lemma OpeningOther(was: map<Uuid, Alloc>, base: map<Uuid, Alloc>, now: map<Uuid, Alloc>, ids: seq<Uuid>, draws: seq<Uuid>,
                     o: Owner, lines: seq<Line>, k: Uuid)
    requires var dropped := OpeningDropped(was, o.acTxn, lines);
             Turned(was - dropped, base, OpenedBy(was, dropped), Known(was, lines))
    requires Drawn(was, base, ids, draws, lines) && OpeningLaid(base, now, ids, draws, o, lines) && |ids| == |lines|
    requires k in now && k !in ids
    ensures now[k].acTxn != o.acTxn
  {
    assert lines[..|lines|] == lines;
    NamesThePast(was, base, ids, draws, lines, k);
    assert k in was - OpeningDropped(was, o.acTxn, lines);
  }

  // ---- what an opening keeps -----------------------------------------------------------------------------------

  ghost predicate LeftNew(lines: seq<Line>, id: Uuid) {
    exists j :: Ends(lines, |lines|, j) && lines[j].id == Some(id) && lines[j].ref == NEW
  }

  /** The stored row `k` opens `p` in the end: its stored pending id counts, and its last line's type. */
  ghost predicate OpensAfter(was: map<Uuid, Alloc>, dropped: set<Uuid>, lines: seq<Line>, k: Uuid, p: Uuid) {
    && k in was && k !in dropped && was[k].pending == Some(p) && !Promoted(was, dropped, was[k])
    && if k in NamedIds(lines) then LeftNew(lines, k) else was[k].ref == NEW
  }

  /** Line `f` begins a row that has its pending id from `s` and is NEW in the end. */
  ghost predicate BegunAs(left: map<Uuid, Alloc>, lines: seq<Line>, f: int, s: Source) {
    && Begins(lines, f) && Carried(lines, f) == s
    && if lines[f].id.Some? then lines[f].id.value !in left && LeftNew(lines, lines[f].id.value) else lines[f].ref == NEW
  }

  ghost predicate OpeningKeepsOneNew(was: map<Uuid, Alloc>, dropped: set<Uuid>, lines: seq<Line>) {
    && (forall k, n, p :: OpensAfter(was, dropped, lines, k, p) && OpensAfter(was, dropped, lines, n, p) ==> k == n)
    && (forall k, f, p :: OpensAfter(was, dropped, lines, k, p) ==> !BegunAs(was - dropped, lines, f, Names(p)))
    && (forall f, g, s :: s != NoSource && BegunAs(was - dropped, lines, f, s) && BegunAs(was - dropped, lines, g, s) ==> f == g)
  }

  ghost predicate OpeningKeepsGroups(was: map<Uuid, Alloc>, dropped: set<Uuid>, lines: seq<Line>) {
    && (forall k :: k in was && k !in dropped && LeftNew(lines, k) ==> was[k].pending.Some?)
    && (forall f :: !BegunAs(was - dropped, lines, f, NoSource))
  }

  ghost predicate LiveAfter(was: map<Uuid, Alloc>, dropped: set<Uuid>, lines: seq<Line>, p: Uuid) {
    (exists n :: OpensAfter(was, dropped, lines, n, p)) || exists f :: BegunAs(was - dropped, lines, f, Names(p))
  }

  /** The stored row `k` goes on settling against `p`. */
  predicate SettlesAfter(was: map<Uuid, Alloc>, dropped: set<Uuid>, lines: seq<Line>, k: Uuid, p: Uuid) {
    k in was && k !in dropped && k !in NamedIds(lines) && Settles(was[k], p) && !Promoted(was, dropped, was[k])
  }

  ghost predicate OpeningKeepsNoOrphans(was: map<Uuid, Alloc>, dropped: set<Uuid>, lines: seq<Line>) {
    forall k, p :: SettlesAfter(was, dropped, lines, k, p) ==> LiveAfter(was, dropped, lines, p)
  }

  /** A row is as it was, or a stored one with its last line's type, or a new one. */
  lemma OpeningOrigin(was: map<Uuid, Alloc>, base: map<Uuid, Alloc>, now: map<Uuid, Alloc>, ids: seq<Uuid>, draws: seq<Uuid>,
                      o: Owner, lines: seq<Line>, k: Uuid) returns (f: int)
    requires Drawn(was, base, ids, draws, lines) && OpeningLaid(base, now, ids, draws, o, lines) && |ids| == |lines|
    requires k in now
    ensures k in base ==> now[k].pending == base[k].pending
    ensures k in base && k !in NamedIds(lines) ==> now[k] == base[k]
    ensures k in NamedIds(lines) ==> (now[k].ref == NEW <==> LeftNew(lines, k))
    ensures k !in base ==> && Begins(lines, f) && ids[f] == k && now[k].pending == Given(Carried(lines, f), draws)
                           && (lines[f].id == None ==> now[k].ref == lines[f].ref)
    ensures k in ids ==> exists j :: 0 <= j < |lines| && now[k].ref == lines[j].ref
  {
    assert lines[..|lines|] == lines;
    f := -1;
    if k in base {
      NamesThePast(was, base, ids, draws, lines, k);
    }
    if k in ids {
      var n :| 0 <= n < |ids| && ids[n] == k;
      f := FirstOf(lines, n);
      var m := LastOf(lines, |ids|, n);
      assert SameRow(lines, f, m) && ids[m] == k && ids[f] == k;
      if k in NamedIds(lines) {
        assert lines[m].id == Some(k);
        assert forall j :: Ends(lines, |lines|, j) && lines[j].id == Some(k) ==> j == m;
      }
    }
  }

  /** A carried pending id: as named, or drawn for one line alone. */
  lemma GivenIs(was: map<Uuid, Alloc>, base: map<Uuid, Alloc>, ids: seq<Uuid>, draws: seq<Uuid>, lines: seq<Line>, f: nat, p: Uuid)
    requires Drawn(was, base, ids, draws, lines) && |ids| == |lines| && f < |lines|
    requires Given(Carried(lines, f), draws) == Some(p)
    ensures if p in Known(was, lines) then Carried(lines, f) == Names(p)
            else p !in Pendings(base) && Carried(lines, f).DrawnAt? && p == draws[Carried(lines, f).line]
  {
  }

  /** A pending id that a deletion has just drawn heads one row only. */
  lemma FreshHead(was: map<Uuid, Alloc>, dropped: set<Uuid>, base: map<Uuid, Alloc>, lines: seq<Line>, k: Uuid, p: Uuid)
    requires Turned(was - dropped, base, OpenedBy(was, dropped), Known(was, lines)) && k in base
    requires base[k].pending == Some(p)
    ensures if p in Known(was, lines) then base[k] == was[k] && !Promoted(was, dropped, was[k]) else Opens(base[k], p)
  {
    if base[k] == was[k] {
      assert p in Pendings(was);
    }
  }

  /** Who opens a group the request knows. */
  lemma OpenersAre(was: map<Uuid, Alloc>, dropped: set<Uuid>, base: map<Uuid, Alloc>, now: map<Uuid, Alloc>, ids: seq<Uuid>,
                   draws: seq<Uuid>, o: Owner, lines: seq<Line>, k: Uuid, p: Uuid) returns (f: int)
    requires Turned(was - dropped, base, OpenedBy(was, dropped), Known(was, lines))
    requires Drawn(was, base, ids, draws, lines) && OpeningLaid(base, now, ids, draws, o, lines) && |ids| == |lines|
    requires k in now && Opens(now[k], p)
    ensures k in base ==> if p in Known(was, lines) then OpensAfter(was, dropped, lines, k, p) else Opens(base[k], p)
    ensures k !in base ==>
              && 0 <= f < |lines| && BegunAs(was - dropped, lines, f, Carried(lines, f)) && ids[f] == k
              && if p in Known(was, lines) then Carried(lines, f) == Names(p)
                 else p !in Pendings(base) && Carried(lines, f).DrawnAt? && p == draws[Carried(lines, f).line]
  {
    f := OpeningOrigin(was, base, now, ids, draws, o, lines, k);
    if k in base {
      FreshHead(was, dropped, base, lines, k, p);
    } else {
      GivenIs(was, base, ids, draws, lines, f, p);
    }
  }

  lemma StoredOpens(was: map<Uuid, Alloc>, dropped: set<Uuid>, base: map<Uuid, Alloc>, now: map<Uuid, Alloc>, ids: seq<Uuid>,
                    draws: seq<Uuid>, o: Owner, lines: seq<Line>, k: Uuid, p: Uuid)
    requires Turned(was - dropped, base, OpenedBy(was, dropped), Known(was, lines))
    requires Drawn(was, base, ids, draws, lines) && OpeningLaid(base, now, ids, draws, o, lines) && |ids| == |lines|
    requires OpensAfter(was, dropped, lines, k, p)
    ensures k in base && k in now && Opens(now[k], p)
  {
    assert k in was - dropped;
    var f := OpeningOrigin(was, base, now, ids, draws, o, lines, k);
  }

  /** The row that line `f` begins is NEW in the end, under the pending id carried to it. */
  lemma BegunOpens(was: map<Uuid, Alloc>, left: map<Uuid, Alloc>, base: map<Uuid, Alloc>, now: map<Uuid, Alloc>,
                   ids: seq<Uuid>, draws: seq<Uuid>, o: Owner, lines: seq<Line>, f: int, s: Source)
    requires Drawn(was, base, ids, draws, lines) && OpeningLaid(base, now, ids, draws, o, lines) && |ids| == |lines|
    requires BegunAs(left, lines, f, s) && left.Keys == base.Keys
    ensures 0 <= f < |lines|
    ensures ids[f] in now && ids[f] !in base && now[ids[f]].ref == NEW && now[ids[f]].pending == Given(s, draws)
  {
    var m := LastOf(lines, |lines|, f);
    assert ids[m] == ids[f] && SameRow(lines, f, m);
    if lines[f].id.Some? {
      var j :| Ends(lines, |lines|, j) && lines[j].id == lines[f].id && lines[j].ref == NEW;
      assert j == m;
    } else {
      assert m == f;
    }
  }

  /** A saved opening leaves one NEW row per group exactly when no two rows, stored or begun by it, end up opening one. */
  lemma OpeningOneNewIff(was: map<Uuid, Alloc>, dropped: set<Uuid>, base: map<Uuid, Alloc>, now: map<Uuid, Alloc>,
                         ids: seq<Uuid>, draws: seq<Uuid>, o: Owner, lines: seq<Line>)
    requires Turned(was - dropped, base, OpenedBy(was, dropped), Known(was, lines)) && OneNewEach(base)
    requires Drawn(was, base, ids, draws, lines) && OpeningLaid(base, now, ids, draws, o, lines) && |ids| == |lines|
    ensures OneNewEach(now) <==> OpeningKeepsOneNew(was, dropped, lines)
  {
    assert base.Keys == (was - dropped).Keys;
    hide OpensAfter, BegunAs, Turned, OpeningLaid, Drawn, Known, OpenedBy, Pendings;
    if OneNewEach(now) {
      forall k, n, p | OpensAfter(was, dropped, lines, k, p) && OpensAfter(was, dropped, lines, n, p) ensures k == n {
        StoredOpens(was, dropped, base, now, ids, draws, o, lines, k, p);
        StoredOpens(was, dropped, base, now, ids, draws, o, lines, n, p);
      }
      forall k, f, p | OpensAfter(was, dropped, lines, k, p) ensures !BegunAs(was - dropped, lines, f, Names(p)) {
        if BegunAs(was - dropped, lines, f, Names(p)) {
          StoredOpens(was, dropped, base, now, ids, draws, o, lines, k, p);
          BegunOpens(was, was - dropped, base, now, ids, draws, o, lines, f, Names(p));
        }
      }
      forall f, g, s | s != NoSource && BegunAs(was - dropped, lines, f, s) && BegunAs(was - dropped, lines, g, s)
        ensures f == g
      {
        BegunOnce(was, was - dropped, base, now, ids, draws, o, lines, f, g, s);
      }
    }
    if OpeningKeepsOneNew(was, dropped, lines) {
      forall k, n, p | k in now && n in now && Opens(now[k], p) && Opens(now[n], p) ensures k == n {
        TwoOpeners(was, dropped, base, now, ids, draws, o, lines, k, n, p);
      }
    }
  }

  lemma TwoOpeners(was: map<Uuid, Alloc>, dropped: set<Uuid>, base: map<Uuid, Alloc>, now: map<Uuid, Alloc>, ids: seq<Uuid>,
                   draws: seq<Uuid>, o: Owner, lines: seq<Line>, k: Uuid, n: Uuid, p: Uuid)
    requires Turned(was - dropped, base, OpenedBy(was, dropped), Known(was, lines)) && OneNewEach(base)
    requires Drawn(was, base, ids, draws, lines) && OpeningLaid(base, now, ids, draws, o, lines) && |ids| == |lines|
    requires OpeningKeepsOneNew(was, dropped, lines) && k in now && n in now && Opens(now[k], p) && Opens(now[n], p)
    ensures k == n
  {
    hide OpensAfter, BegunAs, Turned, OpeningLaid, Known, OpenedBy, Pendings, Drawn;
    var f := OpenersAre(was, dropped, base, now, ids, draws, o, lines, k, p);
    var g := OpenersAre(was, dropped, base, now, ids, draws, o, lines, n, p);
    if p !in Pendings(base) {
      OpensItsPending(base, p);
    }
    DrawnOnce(was, base, ids, draws, lines);
  }

  lemma OpensItsPending(rows: map<Uuid, Alloc>, p: Uuid)
    requires p !in Pendings(rows)
    ensures forall k :: k in rows ==> !Opens(rows[k], p)
  {
  }

  lemma DrawnOnce(was: map<Uuid, Alloc>, base: map<Uuid, Alloc>, ids: seq<Uuid>, draws: seq<Uuid>, lines: seq<Line>)
    requires Drawn(was, base, ids, draws, lines)
    ensures |draws| == |ids| && forall i, j :: 0 <= i < |draws| && 0 <= j < |draws| && draws[i] == draws[j] ==> i == j
  {
  }

  /** One source for two new rows: two NEW rows open the group. */
  lemma BegunOnce(was: map<Uuid, Alloc>, left: map<Uuid, Alloc>, base: map<Uuid, Alloc>, now: map<Uuid, Alloc>, ids: seq<Uuid>,
                  draws: seq<Uuid>, o: Owner, lines: seq<Line>, f: int, g: int, s: Source)
    requires Drawn(was, base, ids, draws, lines) && OpeningLaid(base, now, ids, draws, o, lines) && |ids| == |lines|
    requires BegunAs(left, lines, f, s) && BegunAs(left, lines, g, s) && s != NoSource && left.Keys == base.Keys
    requires OneNewEach(now)
    ensures f == g
  {
    BegunOpens(was, left, base, now, ids, draws, o, lines, f, s);
    BegunOpens(was, left, base, now, ids, draws, o, lines, g, s);
    hide OpeningLaid;
    var p := Given(s, draws).value;
    assert Opens(now[ids[f]], p) && Opens(now[ids[g]], p);
  }

  lemma OpeningGroupedIff(was: map<Uuid, Alloc>, dropped: set<Uuid>, base: map<Uuid, Alloc>, now: map<Uuid, Alloc>,
                          ids: seq<Uuid>, draws: seq<Uuid>, o: Owner, lines: seq<Line>)
    requires Turned(was - dropped, base, OpenedBy(was, dropped), Known(was, lines)) && Grouped(was) && OpeningTakes(lines)
    requires Drawn(was, base, ids, draws, lines) && OpeningLaid(base, now, ids, draws, o, lines) && |ids| == |lines|
    ensures Grouped(now) <==> OpeningKeepsGroups(was, dropped, lines)
  {
    assert base.Keys == (was - dropped).Keys;
    if Grouped(now) {
      forall k | k in was && k !in dropped && LeftNew(lines, k) ensures was[k].pending.Some? {
        assert k in base;
        var f := OpeningOrigin(was, base, now, ids, draws, o, lines, k);
        var j :| Ends(lines, |lines|, j) && lines[j].id == Some(k);
        assert k in NamedIds(lines);
      }
      forall f ensures !BegunAs(was - dropped, lines, f, NoSource) {
        if BegunAs(was - dropped, lines, f, NoSource) {
          BegunOpens(was, was - dropped, base, now, ids, draws, o, lines, f, NoSource);
        }
      }
    }
    if OpeningKeepsGroups(was, dropped, lines) {
      forall k | k in now && now[k].ref != ON_ACC ensures now[k].pending.Some? {
        var f := OpeningOrigin(was, base, now, ids, draws, o, lines, k);
        if k in ids {
          var j :| 0 <= j < |lines| && now[k].ref == lines[j].ref;
          assert lines[j] in lines;
        }
        if k in base {
          assert k in was - dropped;
        } else {
          assert BegunAs(was - dropped, lines, f, Carried(lines, f));
        }
      }
    }
  }

  /** It orphans nothing exactly when every ADJ row that stays settles against a group that such a row opens. */
  lemma OpeningNoOrphansIff(was: map<Uuid, Alloc>, dropped: set<Uuid>, base: map<Uuid, Alloc>, now: map<Uuid, Alloc>,
                            ids: seq<Uuid>, draws: seq<Uuid>, o: Owner, lines: seq<Line>)
    requires Turned(was - dropped, base, OpenedBy(was, dropped), Known(was, lines)) && OpeningTakes(lines)
    requires Drawn(was, base, ids, draws, lines) && OpeningLaid(base, now, ids, draws, o, lines) && |ids| == |lines|
    ensures NoOrphans(now) <==> OpeningKeepsNoOrphans(was, dropped, lines)
  {
    hide SettlesAfter, LiveAfter, Turned, OpeningLaid, Drawn, Known, OpenedBy, Live;
    forall k, p ensures SettlesAfter(was, dropped, lines, k, p) <==> k in now && Settles(now[k], p) {
      SettledIff(was, dropped, base, now, ids, draws, o, lines, k, p);
    }
    forall p, k | SettlesAfter(was, dropped, lines, k, p) ensures Live(now, p) <==> LiveAfter(was, dropped, lines, p) {
      SettledIff(was, dropped, base, now, ids, draws, o, lines, k, p);
      OpeningLiveIff(was, dropped, base, now, ids, draws, o, lines, p);
    }
  }

  lemma SettledIff(was: map<Uuid, Alloc>, dropped: set<Uuid>, base: map<Uuid, Alloc>, now: map<Uuid, Alloc>, ids: seq<Uuid>,
                   draws: seq<Uuid>, o: Owner, lines: seq<Line>, k: Uuid, p: Uuid)
    requires Turned(was - dropped, base, OpenedBy(was, dropped), Known(was, lines)) && OpeningTakes(lines)
    requires Drawn(was, base, ids, draws, lines) && OpeningLaid(base, now, ids, draws, o, lines) && |ids| == |lines|
    ensures SettlesAfter(was, dropped, lines, k, p) <==> k in now && Settles(now[k], p)
    ensures SettlesAfter(was, dropped, lines, k, p) ==> p in Known(was, lines)
  {
    assert lines[..|lines|] == lines;
    assert forall j :: 0 <= j < |lines| ==> lines[j] in lines && OpeningLineTaken(lines[j]) && lines[j].ref != ADJ;
    if k in now {
      var f := OpeningOrigin(was, base, now, ids, draws, o, lines, k);
      if k !in ids {
        NamesThePast(was, base, ids, draws, lines, k);
        assert k in was - dropped;
        if base[k].ref != NEW {
          NotPromoted(was, dropped, base, lines, k);
        }
      } else if k in was - dropped {
        NamesThePast(was, base, ids, draws, lines, k);
      }
    } else {
      assert k !in was - dropped;
    }
  }

  lemma OpeningLiveIff(was: map<Uuid, Alloc>, dropped: set<Uuid>, base: map<Uuid, Alloc>, now: map<Uuid, Alloc>,
                       ids: seq<Uuid>, draws: seq<Uuid>, o: Owner, lines: seq<Line>, p: Uuid)
    requires Turned(was - dropped, base, OpenedBy(was, dropped), Known(was, lines)) && p in Known(was, lines)
    requires Drawn(was, base, ids, draws, lines) && OpeningLaid(base, now, ids, draws, o, lines) && |ids| == |lines|
    ensures Live(now, p) <==> LiveAfter(was, dropped, lines, p)
  {
    assert base.Keys == (was - dropped).Keys;
    if k :| k in now && Opens(now[k], p) {
      var f := OpenersAre(was, dropped, base, now, ids, draws, o, lines, k, p);
    }
    if n :| OpensAfter(was, dropped, lines, n, p) {
      StoredOpens(was, dropped, base, now, ids, draws, o, lines, n, p);
    }
    if f :| BegunAs(was - dropped, lines, f, Names(p)) {
      BegunOpens(was, was - dropped, base, now, ids, draws, o, lines, f, Names(p));
      assert Opens(now[ids[f]], p);
    }
  }

  /** Saving an opening keeps the invariant exactly when the stored rows and the list say so. */
  lemma OpeningKeepsIff(was: map<Uuid, Alloc>, dropped: set<Uuid>, now: map<Uuid, Alloc>, ids: seq<Uuid>, draws: seq<Uuid>,
                        o: Owner, lines: seq<Line>)
    requires Sound(was) && OpeningTakes(lines) && OpeningSaved(was, dropped, now, ids, draws, o, lines)
    ensures OneNewEach(now) <==> OpeningKeepsOneNew(was, dropped, lines)
    ensures Grouped(now) <==> OpeningKeepsGroups(was, dropped, lines)
    ensures NoOrphans(now) <==> OpeningKeepsNoOrphans(was, dropped, lines)
  {
    hide Turned, OneNewEach, Grouped, NoOrphans, OpeningLaid, OpeningTakes;
    hide OpeningKeepsOneNew, OpeningKeepsGroups, OpeningKeepsNoOrphans;
    var base :| && Turned(was - dropped, base, OpenedBy(was, dropped), Known(was, lines)) && OneNewEach(base)
                && Drawn(was, base, ids, draws, lines) && OpeningLaid(base, now, ids, draws, o, lines) && |ids| == |lines|;
    OpeningOneNewIff(was, dropped, base, now, ids, draws, o, lines);
    OpeningGroupedIff(was, dropped, base, now, ids, draws, o, lines);
    OpeningNoOrphansIff(was, dropped, base, now, ids, draws, o, lines);
  }

  /** What a client can do to keep it: no id twice, no stored row changes type, and a NEW line for a new row names no group
      that is left, nor one that another such line names. */
  ghost predicate OpeningCareful(left: map<Uuid, Alloc>, lines: seq<Line>) {
    && DistinctIds(lines)
    && (forall l :: l in lines && l.id.Some? && l.id.value in left ==> l.ref == left[l.id.value].ref)
    && (forall l :: l in lines && Begun(left, l) ==> !Live(left, l.pending.value))
    && (forall i, j :: 0 <= i < j < |lines| && Begun(left, lines[i]) && Begun(left, lines[j]) ==>
          lines[i].pending != lines[j].pending)
  }

  /** A NEW line for a new row that names its pending id. */
  predicate Begun(left: map<Uuid, Alloc>, l: Line) {
    l.ref == NEW && l.pending.Some? && (l.id.Some? ==> l.id.value !in left)
  }

  lemma CarefulOpeningKeeps(was: map<Uuid, Alloc>, dropped: set<Uuid>, lines: seq<Line>)
    requires Sound(was) && OpeningCareful(was - dropped, lines) && OpeningTakes(lines)
    ensures OpeningKeepsOneNew(was, dropped, lines) && OpeningKeepsGroups(was, dropped, lines)
    ensures OpeningKeepsNoOrphans(was, dropped, lines)
  {
    var left := was - dropped;
    forall k, p | OpensAfter(was, dropped, lines, k, p) ensures k in left && Opens(was[k], p) && Opens(left[k], p) {
      OldType(was, dropped, lines, k);
    }
    forall f, s | BegunAs(left, lines, f, s)
      ensures s != NoSource && (s.DrawnAt? ==> s.line == f) && (s.Names? ==> Begun(left, lines[f]) && lines[f].pending == Some(s.p))
      ensures lines[f] in lines
    {
      OneLine(left, lines, f, s);
    }
    hide OpensAfter, BegunAs, Carried;
    forall k, f, p | OpensAfter(was, dropped, lines, k, p) ensures !BegunAs(left, lines, f, Names(p)) {
      assert BegunAs(left, lines, f, Names(p)) ==> !Live(left, p);
    }
    forall k | k in left && LeftNew(lines, k) ensures was[k].pending.Some? {
      OldType(was, dropped, lines, k);
    }
    forall k, p | SettlesAfter(was, dropped, lines, k, p) ensures LiveAfter(was, dropped, lines, p) {
      HeadStays(was, dropped, lines, k, p);
    }
  }

  lemma OldType(was: map<Uuid, Alloc>, dropped: set<Uuid>, lines: seq<Line>, k: Uuid)
    requires OpeningCareful(was - dropped, lines) && k in was - dropped
    ensures LeftNew(lines, k) ==> was[k].ref == NEW
    ensures k in NamedIds(lines) && was[k].ref == NEW ==> LeftNew(lines, k)
  {
    assert (was - dropped)[k] == was[k];
    forall j | 0 <= j < |lines| && lines[j].id == Some(k) ensures Ends(lines, |lines|, j) && lines[j].ref == was[k].ref {
      assert lines[j] in lines;
    }
  }

  lemma OneLine(left: map<Uuid, Alloc>, lines: seq<Line>, f: int, s: Source)
    requires OpeningCareful(left, lines) && BegunAs(left, lines, f, s)
    ensures s != NoSource && (s.DrawnAt? ==> s.line == f) && (s.Names? ==> Begun(left, lines[f]) && lines[f].pending == Some(s.p))
    ensures lines[f] in lines
  {
    if lines[f].id.Some? {
      var j :| Ends(lines, |lines|, j) && lines[j].id == lines[f].id && lines[j].ref == NEW;
      assert j == f;
    }
  }

  lemma HeadStays(was: map<Uuid, Alloc>, dropped: set<Uuid>, lines: seq<Line>, k: Uuid, p: Uuid)
    requires Sound(was) && OpeningCareful(was - dropped, lines) && SettlesAfter(was, dropped, lines, k, p)
    ensures LiveAfter(was, dropped, lines, p)
  {
    assert Live(was, p);
    var n :| n in was && Opens(was[n], p);
    assert n !in dropped;
    if n in NamedIds(lines) {
      OldType(was, dropped, lines, n);
    }
    assert OpensAfter(was, dropped, lines, n, p);
  }

  /** A NEW line under `p`, and a line of type `ref`. */
  function TwoLines(id: Uuid, other: Uuid, ref: RefType, p: Uuid, amount: real): seq<Line> {
    [Line(Some(id), NEW, Some(p), amount), Line(Some(other), ref, None, amount)]
  }

  /** An ON_ACC line stored after a NEW line takes over the NEW line's pending id; retyped to NEW at the next save, it opens
      the same group a second time. */
  lemma CarriedPendingDoubles(o: Owner, id: Uuid, other: Uuid, p: Uuid, amount: real, first: map<Uuid, Alloc>, ids: seq<Uuid>,
                              draws: seq<Uuid>, second: map<Uuid, Alloc>, ids': seq<Uuid>, draws': seq<Uuid>)
    requires id != other && amount != 0.0
    requires OpeningSaved(map[], {}, first, ids, draws, o, TwoLines(id, other, ON_ACC, p, amount))
    requires OpeningSaved(first, {}, second, ids', draws', o, TwoLines(id, other, NEW, p, amount))
    ensures Sound(first) && !OneNewEach(second)
  {
    hide OpeningSaved, Sound, OneNewEach, OpeningKeepsOneNew, OpeningKeepsGroups, OpeningKeepsNoOrphans;
    var again := TwoLines(id, other, NEW, p, amount);
    SavedOnce(o, id, other, p, amount, first, ids, draws);
    CarriedOver(o, id, other, p, amount, first, ids, draws);
    assert OpeningTakes(again);
    RetypedOpens(id, other, p, amount, first);
    OpeningKeepsIff(first, {}, second, ids', draws', o, again);
  }

  lemma SavedOnce(o: Owner, id: Uuid, other: Uuid, p: Uuid, amount: real, first: map<Uuid, Alloc>, ids: seq<Uuid>,
                  draws: seq<Uuid>)
    requires id != other && amount != 0.0
    requires OpeningSaved(map[], {}, first, ids, draws, o, TwoLines(id, other, ON_ACC, p, amount))
    ensures Sound(first)
  {
    hide OpeningSaved;
    var none, lines := map[], TwoLines(id, other, ON_ACC, p, amount);
    assert Sound(none) && OpeningTakes(lines);
    assert OpeningCareful(none - {}, lines);
    CarefulOpeningKeeps(none, {}, lines);
    OpeningKeepsIff(none, {}, first, ids, draws, o, lines);
  }

  lemma CarriedOver(o: Owner, id: Uuid, other: Uuid, p: Uuid, amount: real, first: map<Uuid, Alloc>, ids: seq<Uuid>,
                    draws: seq<Uuid>)
    requires id != other
    requires OpeningSaved(map[], {}, first, ids, draws, o, TwoLines(id, other, ON_ACC, p, amount))
    ensures id in first && Opens(first[id], p)
    ensures other in first && first[other].ref == ON_ACC && first[other].pending == Some(p)
  {
    var lines := TwoLines(id, other, ON_ACC, p, amount);
    assert ids[0] == id && ids[1] == other;
    assert Begins(lines, 0) && Begins(lines, 1) && Ends(lines, 2, 0) && Ends(lines, 2, 1);
    assert SameRow(lines, 0, 0) && SameRow(lines, 1, 1);
    assert Carried(lines, 0) == Names(p) == Carried(lines, 1);
  }

  lemma RetypedOpens(id: Uuid, other: Uuid, p: Uuid, amount: real, first: map<Uuid, Alloc>)
    requires id != other && id in first && other in first && Opens(first[id], p)
    requires first[other].ref == ON_ACC && first[other].pending == Some(p)
    ensures !OpeningKeepsOneNew(first, {}, TwoLines(id, other, NEW, p, amount))
  {
    var again := TwoLines(id, other, NEW, p, amount);
    assert Ends(again, 2, 0) && Ends(again, 2, 1);
    assert again[0] in again && again[1] in again;
    assert OpensAfter(first, {}, again, id, p) && OpensAfter(first, {}, again, other, p);
  }
}
