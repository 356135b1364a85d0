/** Voucher approval: up to five levels, each granted by a member of its approval tag, in order. */
module Approvals {
  import opened Options
  import opened Sums
  import Bills = AllocationModel

  type Uuid = int

  /** A bill allocation; those that are approved are kept as a set beside them. */
  type Alloc = Bills.Alloc

  /** `irn` stands for the invoice registration number: once it is filled the row refuses updates. */
  datatype Voucher = Voucher(kind: int, state: int, required: int, irn: bool)

  datatype LogRow = LogRow(member: int, voucher: int, level: int)

  /** The approval tags of a voucher type, levels 1 to 5. */
  type Tags = t: seq<Option<int>> | |t| == 5 witness [None, None, None, None, None]

  /** The highest level that has a tag. */
  function Required(t: Tags): (n: nat)
    ensures n <= 5
    ensures n > 0 ==> t[n - 1].Some?
    ensures forall i :: n <= i < 5 ==> t[i] == None
  {
    if t[4].Some? then 5 else if t[3].Some? then 4 else if t[2].Some? then 3 else if t[1].Some? then 2
    else if t[0].Some? then 1 else 0
  }

  predicate Full(v: Voucher) { v.state == v.required }

  function LevelsOf(log: set<LogRow>, v: int): set<int> { set r | r in log && r.voucher == v :: r.level }

  /** The levels logged for a voucher are 1 to its state, once each. */
  ghost predicate Logged(log: set<LogRow>, v: int, state: int) {
    && (forall l :: l in LevelsOf(log, v) <==> 1 <= l <= state)
    && (forall r, q :: r in log && q in log && r.voucher == v && q.voucher == v && r.level == q.level ==> r == q)
  }

  ghost predicate Sound(vouchers: map<int, Voucher>, log: set<LogRow>, allocs: map<Uuid, Alloc>, marked: set<Uuid>) {
    && (forall v :: v in vouchers ==> 0 <= vouchers[v].state <= vouchers[v].required <= 5)
    && (forall v :: v in vouchers ==> Logged(log, v, vouchers[v].state))
    && (forall r :: r in log ==> r.voucher in vouchers)
    && (forall k :: k in allocs && allocs[k].voucher.Some? ==> allocs[k].voucher.value in vouchers)
    && (forall k :: k in marked ==> k in allocs && allocs[k].voucher.Some? && Full(vouchers[allocs[k].voucher.value]))
  }

  lemma InRange(vouchers: map<int, Voucher>, log: set<LogRow>, allocs: map<Uuid, Alloc>, marked: set<Uuid>)
    requires Sound(vouchers, log, allocs, marked)
    ensures forall v :: v in vouchers ==> 0 <= vouchers[v].state <= vouchers[v].required <= 5
  {
  }

  /** A voucher has as many log rows as its state. */
  lemma LogIsState(vouchers: map<int, Voucher>, log: set<LogRow>, allocs: map<Uuid, Alloc>, marked: set<Uuid>, v: int)
    requires Sound(vouchers, log, allocs, marked) && v in vouchers
    ensures |set r | r in log && r.voucher == v| == vouchers[v].state
  {
    var state, rows := vouchers[v].state, set r | r in log && r.voucher == v;
    assert Logged(log, v, state);
    assert LevelsOf(rows, v) == LevelsOf(log, v);
    CountLevels(rows, v, state);
  }

  lemma {:induction false} CountLevels(rows: set<LogRow>, v: int, n: int)
    requires n >= 0 && Logged(rows, v, n) && forall r :: r in rows ==> r.voucher == v
    ensures |rows| == n
  {
    if n == 0 {
      assert forall r :: r in rows ==> r.level in LevelsOf(rows, v);
      assert rows == {};
    } else {
      assert n in LevelsOf(rows, v);
      var top :| top in rows && top.level == n;
      forall l ensures l in LevelsOf(rows - {top}, v) <==> 1 <= l <= n - 1 {
        assert l in LevelsOf(rows, v) <==> 1 <= l <= n;
        if l in LevelsOf(rows, v) && l != n {
          var r :| r in rows && r.level == l;
          assert r in rows - {top};
        }
      }
      CountLevels(rows - {top}, v, n - 1);
    }
  }

  /** What `approve_voucher` asks for. */
  predicate CanApprove(vouchers: map<int, Voucher>, types: map<int, Tags>, members: map<int, set<int>>, v: int, level: Option<int>,
                       member: int)
  {
    && v in vouchers && !vouchers[v].irn && !Full(vouchers[v])
    && level == Some(vouchers[v].state + 1)
    && vouchers[v].kind in types && level.value - 1 < 5 && 0 <= level.value - 1
    && types[vouchers[v].kind][level.value - 1].Some?
    && types[vouchers[v].kind][level.value - 1].value in members
    && member in members[types[vouchers[v].kind][level.value - 1].value]
  }

  /** One more row, at the next level of its voucher. */
  lemma LoggedMore(log: set<LogRow>, v: int, state: int, r: LogRow)
    requires Logged(log, v, state) && state >= 0 && (r.voucher == v ==> r.level == state + 1)
    ensures Logged(log + {r}, v, if r.voucher == v then state + 1 else state)
    ensures r.voucher == v ==> r !in log
  {
    var more := log + {r};
    assert r in log && r.voucher == v ==> r.level in LevelsOf(log, v);
    forall l ensures l in LevelsOf(more, v) <==> l in LevelsOf(log, v) || (r.voucher == v && l == r.level) {
      if l in LevelsOf(log, v) {
        var q :| q in log && q.voucher == v && q.level == l;
        assert q in more;
      }
      if r.voucher == v && l == r.level {
        assert r in more;
      }
    }
    forall p, q | p in more && q in more && p.voucher == v && q.voucher == v && p.level == q.level ensures p == q {
      assert p in log ==> p.level in LevelsOf(log, v);
      assert q in log ==> q.level in LevelsOf(log, v);
    }
  }

  /** Granting a level keeps everything in order. */
  lemma ApproveSound(vouchers: map<int, Voucher>, log: set<LogRow>, allocs: map<Uuid, Alloc>, marked: set<Uuid>, v: int, member: int)
    requires Sound(vouchers, log, allocs, marked) && v in vouchers && !Full(vouchers[v])
    ensures var level := vouchers[v].state + 1;
            var now, r := vouchers[v := vouchers[v].(state := level)], LogRow(member, v, level);
            r !in log && Sound(now, log + {r}, allocs, marked + if Full(now[v]) then NewOf(allocs, v) else {})
  {
    var level := vouchers[v].state + 1;
    var now, r := vouchers[v := vouchers[v].(state := level)], LogRow(member, v, level);
    assert Logged(log, v, vouchers[v].state);
    forall w | w in now ensures Logged(log + {r}, w, now[w].state) {
      assert Logged(log, w, vouchers[w].state);
      LoggedMore(log, w, vouchers[w].state, r);
    }
    LoggedMore(log, v, vouchers[v].state, r);
  }

  /** A voucher has a log row exactly when it has an approval. */
  lemma LoggedIffApproved(vouchers: map<int, Voucher>, log: set<LogRow>, allocs: map<Uuid, Alloc>, marked: set<Uuid>, v: int)
    requires Sound(vouchers, log, allocs, marked)
    ensures (exists r :: r in log && r.voucher == v) <==> v in vouchers && vouchers[v].state > 0
  {
    if r :| r in log && r.voucher == v {
      assert Logged(log, v, vouchers[v].state);
      assert r.level in LevelsOf(log, v);
    } else if v in vouchers && vouchers[v].state > 0 {
      assert Logged(log, v, vouchers[v].state);
      assert 1 in LevelsOf(log, v);
    }
  }

  /** The rows that the last approval marks. */
  function NewOf(allocs: map<Uuid, Alloc>, v: int): set<Uuid> {
    set k | k in allocs && allocs[k].voucher == Some(v) && allocs[k].ref == Bills.NEW
  }

  // ---- are all NEW rows marked? --------------------------------------------------------------------------------

  predicate OfFull(vouchers: map<int, Voucher>, a: Alloc) {
    a.voucher.Some? && a.voucher.value in vouchers && Full(vouchers[a.voucher.value])
  }

  /** Every NEW row of a fully approved voucher is marked. */
  predicate AllMarked(vouchers: map<int, Voucher>, allocs: map<Uuid, Alloc>, marked: set<Uuid>) {
    forall k :: k in allocs && allocs[k].ref == Bills.NEW && OfFull(vouchers, allocs[k]) ==> k in marked
  }

  /** An unmarked row of a fully approved voucher, as ADJ and ON_ACC rows saved before the last approval are. */
  predicate Bare(vouchers: map<int, Voucher>, allocs: map<Uuid, Alloc>, marked: set<Uuid>, k: Uuid) {
    k in allocs && OfFull(vouchers, allocs[k]) && k !in marked
  }

  /** The rows that the deletion of `ids` promotes. */
  function PromotedBy(allocs: map<Uuid, Alloc>, ids: set<Uuid>): set<Uuid> {
    set k | k in allocs && k !in ids && Bills.Promoted(allocs, ids, allocs[k])
  }

  /** The rows `ids` are gone, and those that settled against them have become NEW. */
  ghost predicate Dropped(was: map<Uuid, Alloc>, now: map<Uuid, Alloc>, ids: set<Uuid>) {
    Bills.Turned(was - ids, now, Bills.OpenedBy(was, ids), Bills.Pendings(was))
  }

  /** A new row is marked when its voucher is fully approved; an existing one keeps its mark. */
  function MarksSaved(vouchers: map<int, Voucher>, allocs: map<Uuid, Alloc>, marked: set<Uuid>, k: Uuid, row: Alloc): set<Uuid> {
    if k !in allocs && OfFull(vouchers, row) then marked + {k} else marked
  }

  /** A deletion leaves a NEW row of a fully approved voucher unmarked exactly when a row it promotes is bare. */
  lemma DropKeepsMarksIff(vouchers: map<int, Voucher>, allocs: map<Uuid, Alloc>, marked: set<Uuid>, ids: set<Uuid>,
                          now: map<Uuid, Alloc>)
    requires AllMarked(vouchers, allocs, marked) && Dropped(allocs, now, ids)
    ensures AllMarked(vouchers, now, marked - ids)
            <==> forall k :: k in PromotedBy(allocs, ids) ==> !Bare(vouchers, allocs, marked, k)
  {
    var left := allocs - ids;
    assert now.Keys == left.Keys;
    forall k | k in left
      ensures left[k] == allocs[k] && now[k].voucher == allocs[k].voucher
      ensures if k in PromotedBy(allocs, ids) then now[k].ref == Bills.NEW else now[k] == allocs[k]
    {}
  }

  /** Saving a row does so exactly when it retypes a bare row to NEW. */
  lemma SaveKeepsMarksIff(vouchers: map<int, Voucher>, allocs: map<Uuid, Alloc>, marked: set<Uuid>, k: Uuid, row: Alloc)
    requires AllMarked(vouchers, allocs, marked) && (k in allocs ==> row.voucher == allocs[k].voucher)
    ensures AllMarked(vouchers, allocs[k := row], MarksSaved(vouchers, allocs, marked, k, row))
            <==> !(row.ref == Bills.NEW && Bare(vouchers, allocs, marked, k))
  {
    var now := allocs[k := row];
    assert now[k] == row;
  }

  /** Approving and updating a voucher leave no NEW row unmarked. */
  lemma ApproveKeepsMarks(vouchers: map<int, Voucher>, allocs: map<Uuid, Alloc>, marked: set<Uuid>, v: int, state: int)
    requires AllMarked(vouchers, allocs, marked) && v in vouchers
    ensures var now := vouchers[v := vouchers[v].(state := state)];
            AllMarked(now, allocs, marked + if Full(now[v]) then NewOf(allocs, v) else {})
  {
  }

  /** A bill settled by a row of an approved voucher is deleted: the row is promoted and, having been ADJ when its voucher got
      its last approval, is a NEW row of a fully approved voucher without its mark. */
  lemma PromotedUnmarked(member: int, v: int, w: int, bill: Uuid, settling: Uuid, owed: Alloc, paid: Alloc, p: Uuid,
                         now: map<Uuid, Alloc>)
    requires v != w && bill != settling && Bills.Opens(owed, p) && Bills.Settles(paid, p)
    requires owed.voucher == Some(w) && paid.voucher == Some(v)
    requires Dropped(Bills.Upserted(Bills.Upserted(map[], bill, owed), settling, paid), now, {bill})
    ensures var vouchers := map[v := Voucher(7, 0, 1, false), w := Voucher(8, 0, 0, false)];
            var first := Bills.Upserted(map[], bill, owed);
            var marks := MarksSaved(vouchers, map[], {}, bill, owed);
            var saved, marked := Bills.Upserted(first, settling, paid), MarksSaved(vouchers, first, marks, settling, paid);
            var approved, more := vouchers[v := vouchers[v].(state := 1)], marked + NewOf(saved, v);
            && Sound(vouchers, {}, saved, marked) && AllMarked(vouchers, saved, marked)
            && Sound(approved, {LogRow(member, v, 1)}, saved, more) && AllMarked(approved, saved, more)
            && !AllMarked(approved, now, more - {bill})
  {
    var vouchers := map[v := Voucher(7, 0, 1, false), w := Voucher(8, 0, 0, false)];
    var saved := map[bill := owed, settling := paid];
    assert Bills.Upserted(Bills.Upserted(map[], bill, owed), settling, paid) == saved;
    assert LevelsOf({}, v) == {} && LevelsOf({}, w) == {};
    var marked := {bill};
    assert MarksSaved(vouchers, map[bill := owed], MarksSaved(vouchers, map[], {}, bill, owed), settling, paid) == marked;
    ApproveSound(vouchers, {}, saved, marked, v, member);
    assert {} + {LogRow(member, v, 1)} == {LogRow(member, v, 1)};
    var approved := vouchers[v := vouchers[v].(state := 1)];
    ApproveKeepsMarks(vouchers, saved, marked, v, 1);
    assert NewOf(saved, v) == {} && marked + {} == marked;
    DropKeepsMarksIff(approved, saved, marked, {bill}, now);
    assert p in Bills.OpenedBy(saved, {bill});
    assert settling in PromotedBy(saved, {bill}) && Bare(approved, saved, marked, settling);
  }

  class ApprovalDb {
    var types: map<int, Tags>
    var members: map<int, set<int>>
    var vouchers: map<int, Voucher>
    var log: set<LogRow>
    var allocs: map<Uuid, Alloc>
    var marked: set<Uuid>

    ghost predicate Valid()
      reads this
    {
      Sound(vouchers, log, allocs, marked)
    }

    constructor ()
      ensures Valid()
    {
      types, members, vouchers, log, allocs, marked := map[], map[], map[], {}, map[], {};
    }

    /** Voucher types and tags may be edited at any time; vouchers keep the number of levels they were created with. */
    method Configure(types: map<int, Tags>, members: map<int, set<int>>)
      requires Valid()
      modifies this`types, this`members
      ensures Valid() && this.types == types && this.members == members
    {
      this.types, this.members := types, members;
    }

    /** The header row of a new voucher; its id is new. */
    method Create(v: int, kind: int) returns (ok: bool)
      requires Valid() && v !in vouchers
      modifies this`vouchers
      ensures Valid() && (ok <==> kind in types)
      ensures vouchers == if ok then old(vouchers)[v := Voucher(kind, 0, Required(types[kind]), false)] else old(vouchers)
    {
      ok := kind in types;
      if ok {
        vouchers := vouchers[v := Voucher(kind, 0, Required(types[kind]), false)];
      }
    }

    /** A bill allocation as insert or update stores it, for a row of a voucher. */
    method Save(k: Uuid, row: Alloc)
      requires Valid() && row.voucher.Some? && row.voucher.value in vouchers
      modifies this`allocs, this`marked
      ensures Valid()
      ensures allocs == Bills.Upserted(old(allocs), k, row)
      ensures marked == MarksSaved(vouchers, old(allocs), old(marked), k, row)
      ensures AllMarked(vouchers, old(allocs), old(marked)) ==>
                (AllMarked(vouchers, allocs, marked) <==>
                   !(row.ref == Bills.NEW && Bare(vouchers, old(allocs), old(marked), k)))
    {
      var stored := Bills.RowAfter(allocs, k, row);
      if AllMarked(vouchers, allocs, marked) {
        SaveKeepsMarksIff(vouchers, allocs, marked, k, stored);
      }
      if k !in allocs && Full(vouchers[row.voucher.value]) {
        marked := marked + {k};
      }
      allocs := allocs[k := stored];
    }

    /** A bill allocation of an opening, which has no voucher and gets no mark. */
    method SaveOpening(k: Uuid, row: Alloc)
      requires Valid() && row.voucher == None
      modifies this`allocs
      ensures Valid()
      ensures allocs == Bills.OpeningUpserted(old(allocs), k, row)
      ensures AllMarked(vouchers, old(allocs), marked) ==>
                (AllMarked(vouchers, allocs, marked) <==>
                   !(row.ref == Bills.NEW && Bare(vouchers, old(allocs), marked, k)))
    {
      var stored := Bills.OpeningAfter(allocs, k, row);
      if AllMarked(vouchers, allocs, marked) {
        SaveKeepsMarksIff(vouchers, allocs, marked, k, stored);
      }
      allocs := allocs[k := stored];
    }

    /** Rows go, and the delete trigger promotes those that settled against them. */
    method Drop(ids: set<Uuid>)
      requires Valid()
      modifies this`allocs, this`marked
      ensures Valid()
      ensures Dropped(old(allocs), allocs, ids) && marked == old(marked) - ids
      ensures AllMarked(vouchers, old(allocs), old(marked)) ==>
                (AllMarked(vouchers, allocs, marked) <==>
                   forall k :: k in PromotedBy(old(allocs), ids) ==> !Bare(vouchers, old(allocs), old(marked), k))
    {
      ghost var was := allocs;
      allocs := AfterDrop(allocs, ids);
      if AllMarked(vouchers, was, marked) {
        DropKeepsMarksIff(vouchers, was, marked, ids, allocs);
      }
      marked := marked - ids;
    }

    /** `approve_voucher`. */
    method Approve(v: int, level: Option<int>, member: int) returns (ok: bool)
      requires Valid()
      modifies this`vouchers, this`log, this`marked
      ensures Valid()
      ensures ok <==> CanApprove(old(vouchers), types, members, v, level, member)
      ensures !ok ==> vouchers == old(vouchers) && log == old(log) && marked == old(marked)
      ensures ok ==>
                && vouchers == old(vouchers)[v := old(vouchers)[v].(state := old(vouchers)[v].state + 1)]
                && log == old(log) + {LogRow(member, v, level.value)} && LogRow(member, v, level.value) !in old(log)
                && marked == old(marked) + (if Full(vouchers[v]) then NewOf(allocs, v) else {})
                && (AllMarked(old(vouchers), allocs, old(marked)) ==> AllMarked(vouchers, allocs, marked))
                && 0 <= vouchers[v].required - vouchers[v].state < old(vouchers)[v].required - old(vouchers)[v].state
    {
      hide Sound, AllMarked;
      InRange(vouchers, log, allocs, marked);
      if v !in vouchers || Full(vouchers[v]) || level == None || vouchers[v].state != level.value - 1 {
        return false;
      }
      if vouchers[v].kind !in types {
        return false;
      }
      var tag := types[vouchers[v].kind][level.value - 1];
      if tag == None || tag.value !in members || member !in members[tag.value] || vouchers[v].irn {
        return false;
      }
      ok := true;
      ApproveSound(vouchers, log, allocs, marked, v, member);
      if AllMarked(vouchers, allocs, marked) {
        ApproveKeepsMarks(vouchers, allocs, marked, v, level.value);
      }
      vouchers := vouchers[v := vouchers[v].(state := level.value)];
      log := log + {LogRow(member, v, level.value)};
      assert marked + {} == marked;
      if Full(vouchers[v]) {
        marked := marked + NewOf(allocs, v);
      }
    }

    /** An update of the voucher row: refused once the registration number is there, which `irn` fills. */
    method Touch(v: int, irn: bool) returns (ok: bool)
      requires Valid() && v in vouchers
      modifies this`vouchers
      ensures Valid() && (ok <==> !old(vouchers)[v].irn)
      ensures vouchers == if ok then old(vouchers)[v := old(vouchers)[v].(irn := irn)] else old(vouchers)
      ensures AllMarked(old(vouchers), allocs, marked) ==> AllMarked(vouchers, allocs, marked)
    {
      ok := !vouchers[v].irn;
      if ok {
        vouchers := vouchers[v := vouchers[v].(irn := irn)];
      }
    }

    /** `delete_voucher`: its allocations go along and what settled against them is promoted, but a logged approval stands in the
        way. */
    method Delete(v: int) returns (ok: bool)
      requires Valid()
      modifies this`vouchers, this`allocs, this`marked
      ensures Valid()
      ensures ok <==> v !in old(vouchers) || old(vouchers)[v].state == 0
      ensures !ok ==> vouchers == old(vouchers) && allocs == old(allocs) && marked == old(marked)
      ensures ok ==> && vouchers == old(vouchers) - {v}
                     && Dropped(old(allocs), allocs, AllocsOf(old(allocs), v)) && marked == old(marked) - AllocsOf(old(allocs), v)
      ensures ok && AllMarked(old(vouchers), old(allocs), old(marked)) ==>
                (AllMarked(vouchers, allocs, marked) <==>
                   forall k :: k in PromotedBy(old(allocs), AllocsOf(old(allocs), v)) ==>
                     !Bare(old(vouchers), old(allocs), old(marked), k))
    {
      LoggedIffApproved(vouchers, log, allocs, marked, v);
      if exists r :: r in log && r.voucher == v {
        return false;
      }
      ok := true;
      ghost var was, db := allocs, vouchers;
      Drop(AllocsOf(allocs, v));
      NoneOf(was, allocs, v);
      vouchers := vouchers - {v};
      assert AllMarked(vouchers, allocs, marked) <==> AllMarked(db, allocs, marked);
    }
  }

  /** What the delete trigger does for the rows `ids`. */
  method AfterDrop(was: map<Uuid, Alloc>, ids: set<Uuid>) returns (now: map<Uuid, Alloc>)
    ensures Dropped(was, now, ids)
  {
    var used, left, rest := Bills.Pendings(was), was - ids, PromotedBy(was, ids);
    now := left;
    while rest != {}
      invariant rest <= PromotedBy(was, ids) && now.Keys == left.Keys
      invariant forall k :: k in rest ==> now[k] == left[k]
      invariant forall k :: k in now ==>
                  if k in PromotedBy(was, ids) && k !in rest
                  then && now[k] == left[k].(ref := Bills.NEW, pending := now[k].pending)
                       && now[k].pending.Some? && now[k].pending.value !in used
                  else now[k] == left[k]
      decreases rest
    {
      var k := AnyOf(rest);
      var u := NotIn(Bills.Pendings(now) + used);
      now := now[k := now[k].(ref := Bills.NEW, pending := Some(u))];
      rest := rest - {k};
    }
  }

  function AllocsOf(allocs: map<Uuid, Alloc>, v: int): set<Uuid> { set k | k in allocs && allocs[k].voucher == Some(v) }

  lemma NoneOf(was: map<Uuid, Alloc>, now: map<Uuid, Alloc>, v: int)
    requires Dropped(was, now, AllocsOf(was, v))
    ensures forall k :: k in now ==> now[k].voucher != Some(v)
  {
    var left := was - AllocsOf(was, v);
    forall k | k in now ensures now[k].voucher != Some(v) {
      assert k in left && left[k] == was[k];
    }
  }
}
