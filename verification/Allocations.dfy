/** The `bill_allocation` table, its delete trigger, and the procedures that write it. */
module Allocations {
  import opened Options
  import opened Sums
  import opened AllocationModel

  class AllocationTable {
    var rows: map<Uuid, Alloc>

    ghost predicate Valid()
      reads this
    {
      Sound(rows)
    }

    constructor ()
      ensures Valid() && rows == map[]
    {
      rows := map[];
    }

    // ---- the delete trigger --------------------------------------------------------------------------------------

    /** What the trigger does for a deleted NEW row: every ADJ row of its group opens a group of its own. */
    method Promote(p: Uuid, used: set<Uuid>)
      requires OneNewEach(rows) && Grouped(rows) && !Live(rows, p)
      modifies this
      ensures OneNewEach(rows) && Grouped(rows)
      ensures Turned(old(rows), rows, {p}, used)
    {
      var was := rows;
      var rest := set k | k in rows && Settles(rows[k], p);
      while rest != {}
        invariant rest <= rows.Keys && rows.Keys == was.Keys && OneNewEach(rows) && Grouped(rows)
        invariant forall k :: k in rest ==> rows[k] == was[k] && Settles(was[k], p)
        invariant forall k :: k in rows ==>
                    if Settles(was[k], p) && k !in rest
                    then && rows[k] == was[k].(ref := NEW, pending := rows[k].pending)
                         && rows[k].pending.Some? && rows[k].pending.value !in used
                    else rows[k] == was[k]
        decreases rest
      {
        var k := AnyOf(rest);
        var u := NotIn(Pendings(rows) + used);
        OpenKeepsOneNew(rows, k, u);
        rows := rows[k := rows[k].(ref := NEW, pending := Some(u))];
        rest := rest - {k};
      }
    }

    /** `delete from bill_allocation where id = any (...)`, or the cascade from `ac_txn`: the rows go, then the trigger runs
        for each. */
    method Delete(ids: set<Uuid>, avoid: set<Uuid>)
      requires Valid() && ids <= rows.Keys
      modifies this
      ensures Valid() && Turned(old(rows) - ids, rows, OpenedBy(old(rows), ids), Pendings(old(rows)) + avoid)
      ensures Sum(rows, Amount()) == Sum(old(rows) - ids, Amount())
    {
      hide Turned, OneNewEach, Grouped, NoOrphans;
      var was := rows;
      var used := Pendings(was) + avoid;
      rows := rows - ids;
      ghost var left := rows;
      FewerRows(was, ids);
      assert Turned(left, rows, {}, used);
      var rest := OpenedBy(was, ids);
      ghost var done := {};
      while rest != {}
        invariant rest + done == OpenedBy(was, ids) && rest !! done
        invariant OneNewEach(rows) && Grouped(rows) && Turned(left, rows, done, used)
        decreases rest
      {
        var p := AnyOf(rest);
        ghost var before := rows;
        TurnedLess(left, rows, done, used, Pendings(was));
        DeadGroup(was, ids, rows, done, p);
        Promote(p, used);
        TurnedMore(left, before, rows, done, p, used);
        rest, done := rest - {p}, done + {p};
      }
      TurnedLess(left, rows, done, used, Pendings(was));
      NoneLeft(was, ids, rows);
      SameAmounts(left, rows, done, used);
    }

    /** The rows of one row of `ac_txn` go: its own deletion, or the clearing of an opening. */
    method DeleteOf(acTxn: Uuid)
      requires Valid()
      modifies this
      ensures Valid() && forall k :: k in rows ==> k in old(rows) && rows[k].acTxn != acTxn
      ensures var gone := set k | k in old(rows) && old(rows)[k].acTxn == acTxn;
              Turned(old(rows) - gone, rows, OpenedBy(old(rows), gone), Pendings(old(rows)))
    {
      ghost var was := rows;
      var gone := set k | k in rows && rows[k].acTxn == acTxn;
      Delete(gone, {});
      TurnedLess(was - gone, rows, OpenedBy(was, gone), Pendings(was) + {}, Pendings(was));
      forall k | k in rows ensures k in was && rows[k].acTxn != acTxn {
        assert k in was - gone;
      }
    }

    // ---- insert --------------------------------------------------------------------------------------------------

    /** One line of `insert_bill_allocation`. However the line looks, at most one NEW row per pending id remains. */
    method InsertLine(o: Owner, l: Line, avoid: set<Uuid>) returns (ok: bool, id: Uuid, drawn: Uuid)
      requires OneNewEach(rows)
      modifies this
      ensures OneNewEach(rows)
      ensures ok <==> && l.amount != 0.0 && (l.ref == ADJ ==> l.pending.Some?)
                      && (l.ref == NEW && l.pending.Some? ==> !Live(old(rows), l.pending.value))
                      && (l.id.Some? ==> l.id.value !in old(rows))
      ensures !ok ==> rows == old(rows)
      ensures ok ==> && id !in old(rows) && (if l.id.Some? then id == l.id.value else id !in avoid)
                     && drawn !in Pendings(old(rows)) && drawn !in avoid
                     && rows == Upserted(old(rows), id, RowFor(o, l, drawn))
    {
      id, drawn := 0, 0;
      if (l.ref == NEW && l.pending.Some? && Live(rows, l.pending.value)) || (l.ref == ADJ && l.pending == None)
         || l.amount == 0.0 || (l.id.Some? && l.id.value in rows)
      {
        return false, 0, 0;
      }
      ok := true;
      drawn := NotIn(Pendings(rows) + avoid);
      if l.id.Some? {
        id := l.id.value;
      } else {
        id := NotIn(rows.Keys + avoid);
      }
      UpsertKeepsOneNewIff(rows, id, l.(id := Some(id)), RowFor(o, l, drawn), drawn);
      rows := rows[id := RowFor(o, l, drawn)];
    }

    /** `insert_bill_allocation`: exactly one new row per line, or none. The invariant survives exactly when each ADJ line names
        a group that is live or that the same list opens by name. */
    method InsertAll(o: Owner, lines: seq<Line>) returns (ok: bool, ghost ids: seq<Uuid>, ghost draws: seq<Uuid>)
      requires Valid()
      modifies this
      ensures ok <==> forall i :: 0 <= i < |lines| ==> InsertTakes(old(rows), lines, i)
      ensures !ok ==> rows == old(rows)
      ensures ok ==> |ids| == |lines| && Drawn(old(rows), old(rows), ids, draws, lines)
                     && Laid(old(rows), rows, ids, draws, o, lines)
      ensures ok ==> && (forall j :: 0 <= j < |ids| ==> ids[j] !in old(rows) && Ends(lines, |lines|, j))
                     && (forall i, j :: 0 <= i < j < |ids| ==> ids[i] != ids[j])
      ensures ok ==> OneNewEach(rows) && Grouped(rows)
      ensures ok ==> (Valid() <==> forall l :: l in lines && l.ref == ADJ && l.pending.Some? ==>
                                     Live(old(rows), l.pending.value) || l.pending.value in Claimed(lines))
    {
      hide OneNewEach, Grouped, NoOrphans, InsertTakes, Laid, Known, Pendings, Live, Ends;
      var was, used := rows, Known(rows, lines) + Pendings(rows);
      ids, draws := [], [];
      NothingWritten(was, was, o, lines);
      for i := 0 to |lines|
        invariant OneNewEach(rows) && Grouped(rows) && |ids| == i
        invariant Drawn(was, was, ids, draws, lines) && Laid(was, rows, ids, draws, o, lines)
        invariant Known(was, lines) + Pendings(was) <= used && forall d :: d in draws ==> d in used
        invariant forall j :: 0 <= j < i ==> InsertTakes(was, lines, j)
      {
        ghost var before := rows;
        InsertTakesIff(was, rows, ids, draws, o, lines);
        var id, drawn;
        ok, id, drawn := InsertLine(o, lines[i], used);
        if !ok {
          rows := was;
          return;
        }
        WrittenKeys(was, before, ids, draws, o, lines);
        DrawnStep(was, was, before, ids, draws, lines, id, drawn);
        LaidStep(was, was, before, ids, draws, o, lines, id, drawn);
        UpsertKeepsGroups(before, id, lines[i], RowFor(o, lines[i], drawn), drawn);
        used := used + {drawn};
        ids, draws := ids + [id], draws + [drawn];
      }
      ok := true;
      InsertedAlone(was, ids, draws, lines);
      InsertKeepsIff(was, rows, ids, draws, o, lines);
    }

    // ---- update --------------------------------------------------------------------------------------------------

    /** One turn of the loop of `update_bill_allocation`, with exactly when it keeps each half of the invariant. */
    method UpsertLine(o: Owner, l: Line, avoid: set<Uuid>) returns (ok: bool, id: Uuid, drawn: Uuid)
      modifies this
      ensures ok <==> !Refused(old(rows), l)
      ensures !ok ==> rows == old(rows)
      ensures ok ==> && (if l.id.Some? then id == l.id.value else id !in old(rows) && id !in avoid)
                     && drawn !in Pendings(old(rows)) && drawn !in avoid
                     && rows == Upserted(old(rows), id, RowFor(o, l, drawn))
      ensures Grouped(old(rows)) ==> Grouped(rows)
      ensures ok && OneNewEach(old(rows)) ==> (OneNewEach(rows) <==> !Doubles(old(rows), l))
      ensures ok && OneNewEach(old(rows)) && NoOrphans(old(rows)) ==>
                (NoOrphans(rows) <==> !Orphans(old(rows), id, RowFor(o, l, drawn)))
    {
      hide OneNewEach, NoOrphans, Orphans, Doubles;
      id, drawn := 0, 0;
      if Refused(rows, l) {
        return false, 0, 0;
      }
      ok := true;
      drawn := NotIn(Pendings(rows) + avoid);
      if l.id.Some? {
        id := l.id.value;
      } else {
        id := NotIn(rows.Keys + avoid);
      }
      if OneNewEach(rows) {
        UpsertKeepsOneNewIff(rows, id, l, RowFor(o, l, drawn), drawn);
        if NoOrphans(rows) {
          UpsertKeepsNoOrphansIff(rows, id, RowFor(o, l, drawn));
        }
      }
      rows := Upserted(rows, id, RowFor(o, l, drawn));
    }

    /** `update_bill_allocation` for one row of `ac_txn`: exactly when it succeeds, what it leaves, and exactly when that keeps
        the invariant. */
    method UpdateAll(o: Owner, lines: seq<Line>) returns (ok: bool, ghost ids: seq<Uuid>, ghost draws: seq<Uuid>)
      requires Valid()
      modifies this
      ensures ok <==> forall i :: 0 <= i < |lines| ==> Takes(old(rows) - Dropped(old(rows), o, lines), lines, i)
      ensures !ok ==> rows == old(rows)
      ensures ok ==> Updated(old(rows), Dropped(old(rows), o, lines), rows, ids, draws, o, lines)
      ensures ok ==> OthersKept(old(rows), Dropped(old(rows), o, lines), rows, lines)
      ensures ok && OwnLines(old(rows), o, lines) ==>
                && (forall k :: k in ids ==> k in rows)
                && forall k :: k in rows ==> (rows[k].acTxn == o.acTxn && rows[k].account == o.account <==> k in ids)
      ensures ok ==> Grouped(rows)
      ensures ok ==> (OneNewEach(rows) <==> KeepsOneNew(old(rows) - Dropped(old(rows), o, lines), lines))
      ensures ok ==> (NoOrphans(rows) <==> KeepsNoOrphans(old(rows), Dropped(old(rows), o, lines), lines))
    {
      hide OneNewEach, Grouped, NoOrphans, Turned, Doubles, Orphans, Refused, Takes, Laid, Known, Pendings;
      hide OthersKept, KeepsOneNew, KeepsNoOrphans, OwnLines;
      var was, dropped := rows, Dropped(rows, o, lines);
      Delete(dropped, Known(was, lines));
      TurnedLess(was - dropped, rows, OpenedBy(was, dropped), Pendings(was) + Known(was, lines), Known(was, lines));
      ghost var base := rows;
      var used := Known(was, lines) + Pendings(rows);
      ids, draws := [], [];
      NothingWritten(was, base, o, lines);
      for i := 0 to |lines|
        invariant Grouped(rows) && |ids| == i
        invariant Drawn(was, base, ids, draws, lines) && Laid(base, rows, ids, draws, o, lines)
        invariant Known(was, lines) + Pendings(base) <= used && forall d :: d in draws ==> d in used
        invariant forall j :: 0 <= j < i ==> Takes(was - dropped, lines, j)
      {
        ghost var before := rows;
        RefusedIff(was, dropped, base, rows, ids, draws, o, lines);
        var id, drawn;
        ok, id, drawn := UpsertLine(o, lines[i], used);
        if !ok {
          rows := was;
          return;
        }
        WrittenKeys(base, before, ids, draws, o, lines);
        DrawnStep(was, base, before, ids, draws, lines, id, drawn);
        LaidStep(was, base, before, ids, draws, o, lines, id, drawn);
        used := used + {drawn};
        ids, draws := ids + [id], draws + [drawn];
      }
      ok := true;
      assert Updated(was, dropped, rows, ids, draws, o, lines);
      UpdateKeepsIff(was, dropped, rows, ids, draws, o, lines);
      if OwnLines(was, o, lines) {
        RowsAreLines(was, rows, ids, draws, o, lines);
      }
    }

    // ---- openings ------------------------------------------------------------------------------------------------

    /** The allocations of a sundry account's opening, as `set_account_opening` saves them: exactly which lists it takes, what it
        leaves, and exactly when that keeps the invariant. The pending id drawn or named for a NEW line is carried over to the
        ON_ACC lines after it. */
    method SetOpening(acTxn: Uuid, account: int, lines: seq<Line>)
        returns (ok: bool, ghost ids: seq<Uuid>, ghost draws: seq<Uuid>)
      requires Valid()
      modifies this
      ensures ok <==> OpeningTakes(lines)
      ensures !ok ==> rows == old(rows)
      ensures ok ==> OpeningSaved(old(rows), OpeningDropped(old(rows), acTxn, lines), rows, ids, draws,
                                  Owner(acTxn, account, None), lines)
      ensures ok ==> |ids| == |lines| && forall j :: Ends(lines, |lines|, j) ==>
                ids[j] in rows && rows[ids[j]].ref == lines[j].ref && rows[ids[j]].amount == lines[j].amount
      ensures ok ==> forall j :: 0 <= j < |ids| && ids[j] !in old(rows) ==>
                && ids[j] in rows && rows[ids[j]].acTxn == acTxn && rows[ids[j]].account == account
                && rows[ids[j]].voucher == None
      ensures ok && (forall l :: l in lines && l.id.Some? && l.id.value in old(rows) ==> old(rows)[l.id.value].acTxn == acTxn) ==>
                forall k :: k in rows ==> (rows[k].acTxn == acTxn <==> k in ids)
      ensures ok ==> (OneNewEach(rows) <==> OpeningKeepsOneNew(old(rows), OpeningDropped(old(rows), acTxn, lines), lines))
      ensures ok ==> (Grouped(rows) <==> OpeningKeepsGroups(old(rows), OpeningDropped(old(rows), acTxn, lines), lines))
      ensures ok ==> (NoOrphans(rows) <==> OpeningKeepsNoOrphans(old(rows), OpeningDropped(old(rows), acTxn, lines), lines))
    {
      hide OneNewEach, Grouped, NoOrphans, Turned, Known, Pendings, OpeningTakes, OpeningRow, OpeningSoFar, OpeningUpserted;
      hide OpeningKeepsOneNew, OpeningKeepsGroups, OpeningKeepsNoOrphans, OpeningLaid;
      ids, draws := [], [];
      if lines == [] {
        NoneToTake(lines);
        return false, [], [];
      }
      var o := Owner(acTxn, account, None);
      var was, dropped := rows, OpeningDropped(rows, acTxn, lines);
      Delete(dropped, Known(was, lines));
      TurnedLess(was - dropped, rows, OpenedBy(was, dropped), Pendings(was) + Known(was, lines), Known(was, lines));
      ghost var base := rows;
      var used := Known(was, lines) + Pendings(rows);
      var carried: Option<Uuid> := None;
      OpeningBegins(was, base, o, lines, used);
      for i := 0 to |lines|
        invariant |ids| == i && OpeningSoFar(was, base, rows, ids, draws, o, lines, used, carried)
        invariant forall j :: 0 <= j < i ==> OpeningLineTaken(lines[j])
      {
        var l := lines[i];
        assert l in lines;
        if l.ref == ADJ || (l.ref == ON_ACC && l.pending.Some?) || l.amount == 0.0 {
          NotTaken(lines, i);
          rows := was;
          return false, [], [];
        }
        ghost var before, last := rows, carried;
        var drawn := NotIn(used);
        if l.ref == NEW {
          carried := Some(if l.pending.Some? then l.pending.value else drawn);
        }
        var id;
        if l.id.Some? {
          id := l.id.value;
        } else {
          id := NotIn(rows.Keys + used);
        }
        OpeningTurn(was, base, before, ids, draws, o, lines, used, last, id, drawn, carried);
        rows := OpeningUpserted(rows, id, OpeningRow(o, l, carried));
        used := used + {drawn};
        ids, draws := ids + [id], draws + [drawn];
      }
      AllTaken(lines);
      ok := true;
      OpeningEnds(was, base, rows, ids, draws, o, lines, used, carried);
      assert OpeningSaved(was, dropped, rows, ids, draws, o, lines);
      hide OpeningSaved, Ends;
      OpeningRowsAreLines(was, rows, ids, draws, o, lines);
      OpeningKeepsIff(was, dropped, rows, ids, draws, o, lines);
    }
  }
}
