/** Gift vouchers issue coupons by denomination; claiming a coupon deletes it and counts it. */
module GiftCoupons {
  import opened Options
  import opened Sums

  datatype Gift = Gift(issued: int, claimed: int, account: int)

  datatype Coupon = Coupon(gift: int, account: int, active: bool, amount: real)

  datatype Denomination = Denomination(amount: Option<real>, count: Option<int>)

  /** What a till hands in. */
  datatype Claim = Claim(coupon: Option<int>, account: Option<int>)

  // ---- counting ------------------------------------------------------------------------------------------------

  function Live(coupons: map<int, Coupon>, g: int): set<int> { set k | k in coupons && coupons[k].gift == g }

  function LiveOf(coupons: map<int, Coupon>, g: int, amount: real): set<int> {
    set k | k in coupons && coupons[k].gift == g && coupons[k].amount == amount
  }

  function CountOf(d: Denomination): int { if d.count.Some? then d.count.value else 0 }

  /** How many coupons a denomination makes: `generate_series(1, n)` is empty for a null or non-positive n. */
  function Made(d: Denomination): nat { if CountOf(d) > 0 then CountOf(d) else 0 }

  /** The `issued` column sums the counts as they are. */
  function Issued(ds: seq<Denomination>): int {
    if ds == [] then 0 else Issued(ds[..|ds| - 1]) + CountOf(ds[|ds| - 1])
  }

  function MadeAll(ds: seq<Denomination>): nat {
    if ds == [] then 0 else MadeAll(ds[..|ds| - 1]) + Made(ds[|ds| - 1])
  }

  /** How many of these have a given amount. */
  function MadeOf(ds: seq<Denomination>, amount: real): nat {
    if ds == [] then 0
    else MadeOf(ds[..|ds| - 1], amount) + if ds[|ds| - 1].amount == Some(amount) then Made(ds[|ds| - 1]) else 0
  }

  /** The two agree exactly when no count is negative. */
  lemma {:induction false} MadeIffCounted(ds: seq<Denomination>)
    ensures MadeAll(ds) >= Issued(ds)
    ensures MadeAll(ds) == Issued(ds) <==> forall i :: 0 <= i < |ds| ==> CountOf(ds[i]) >= 0
  {
    if ds != [] {
      var less := ds[..|ds| - 1];
      MadeIffCounted(less);
      assert forall i :: 0 <= i < |less| ==> ds[i] == less[i];
    }
  }

  /** The sum is null when every count is, and a coupon needs an amount. */
  predicate Issuable(ds: seq<Denomination>) {
    (exists i :: 0 <= i < |ds| && ds[i].count.Some?) && forall i :: 0 <= i < |ds| && Made(ds[i]) > 0 ==> ds[i].amount.Some?
  }

  function Excess(excess: map<int, int>, g: int): int { if g in excess then excess[g] else 0 }

  /** Each gift voucher's coupons are those issued and not claimed, and what negative counts took off `issued`. */
  ghost predicate Balanced(gifts: map<int, Gift>, coupons: map<int, Coupon>, excess: map<int, int>) {
    && (forall g :: g in gifts ==> |Live(coupons, g)| + gifts[g].claimed == gifts[g].issued + Excess(excess, g))
    && (forall k :: k in coupons ==> coupons[k].gift in gifts && coupons[k].account == gifts[coupons[k].gift].account)
    && (forall g :: g in excess ==> g in gifts)
  }

  lemma LivePut(coupons: map<int, Coupon>, k: int, c: Coupon, g: int)
    requires k !in coupons
    ensures |Live(coupons[k := c], g)| == |Live(coupons, g)| + if c.gift == g then 1 else 0
  {
    assert Live(coupons[k := c], g) == Live(coupons, g) + if c.gift == g then {k} else {};
  }

  lemma LiveOfPut(coupons: map<int, Coupon>, k: int, c: Coupon, g: int, amount: real)
    requires k !in coupons
    ensures |LiveOf(coupons[k := c], g, amount)|
            == |LiveOf(coupons, g, amount)| + if c.gift == g && c.amount == amount then 1 else 0
  {
    assert LiveOf(coupons[k := c], g, amount) == LiveOf(coupons, g, amount) + if c.gift == g && c.amount == amount then {k} else {};
  }

  lemma LiveTake(coupons: map<int, Coupon>, k: int, g: int)
    requires k in coupons
    ensures |Live(coupons - {k}, g)| == |Live(coupons, g)| - if coupons[k].gift == g then 1 else 0
  {
    assert Live(coupons, g) == Live(coupons - {k}, g) + if coupons[k].gift == g then {k} else {};
  }

  // ---- claiming ------------------------------------------------------------------------------------------------

  /** Claim `i` names a coupon that is live, active, of this account, and not named before. */
  predicate Claimable(coupons: map<int, Coupon>, claims: seq<Claim>, i: nat)
    requires i < |claims|
  {
    && claims[i].coupon.Some? && claims[i].coupon.value in coupons
    && coupons[claims[i].coupon.value].active && claims[i].account == Some(coupons[claims[i].coupon.value].account)
    && forall j :: 0 <= j < i ==> claims[j].coupon != claims[i].coupon
  }

  function Named(claims: seq<Claim>, n: nat): set<int>
    requires n <= |claims|
  {
    set i | 0 <= i < n && claims[i].coupon.Some? :: claims[i].coupon.value
  }

  class GiftDb {
    var gifts: map<int, Gift>
    var coupons: map<int, Coupon>
    ghost var excess: map<int, int>

    ghost predicate Valid()
      reads this
    {
      Balanced(gifts, coupons, excess)
    }

    constructor ()
      ensures Valid() && gifts == map[] && coupons == map[]
    {
      gifts, coupons, excess := map[], map[], map[];
    }

    /** The inner insert: one coupon for each number generated. */
    method Generate(g: int, account: int, amount: real, n: int)
      modifies this`coupons
      ensures Grown(old(coupons), coupons, g, account)
      ensures |Live(coupons, g)| == |Live(old(coupons), g)| + if n > 0 then n else 0
      ensures forall x :: |LiveOf(coupons, g, x)| == |LiveOf(old(coupons), g, x)| + if n > 0 && x == amount then n else 0
    {
      hide LiveOf;
      var was, i := coupons, 0;
      while i < n
        invariant (i == 0 || 0 < i <= n) && Grown(was, coupons, g, account)
        invariant |Live(coupons, g)| == |Live(was, g)| + i
        invariant forall x :: |LiveOf(coupons, g, x)| == |LiveOf(was, g, x)| + if x == amount then i else 0
      {
        var k := NotIn(coupons.Keys);
        forall x {
          LiveOfPut(coupons, k, Coupon(g, account, true, amount), g, x);
        }
        LivePut(coupons, k, Coupon(g, account, true, amount), g);
        coupons := coupons[k := Coupon(g, account, true, amount)];
        i := i + 1;
      }
    }

    /** The sum of the counts, null when all are. */
    method SumCounts(ds: seq<Denomination>) returns (total: Option<int>)
      ensures total.Some? <==> exists i :: 0 <= i < |ds| && ds[i].count.Some?
      ensures total.Some? ==> total.value == Issued(ds)
    {
      total := None;
      for i := 0 to |ds|
        invariant total.Some? <==> exists j :: 0 <= j < i && ds[j].count.Some?
        invariant (if total.Some? then total.value else 0) == Issued(ds[..i])
      {
        assert ds[..i + 1][..i] == ds[..i];
        if ds[i].count.Some? {
          total := Some((if total.Some? then total.value else 0) + ds[i].count.value);
        }
      }
      assert ds[..|ds|] == ds;
    }

    /** The loop over the denominations; stops at one whose coupons would have no amount. */
    method GenerateAll(g: int, account: int, ds: seq<Denomination>) returns (ok: bool)
      requires Live(coupons, g) == {} && forall x :: LiveOf(coupons, g, x) == {}
      modifies this`coupons
      ensures ok <==> forall i :: 0 <= i < |ds| && Made(ds[i]) > 0 ==> ds[i].amount.Some?
      ensures ok ==> Grown(old(coupons), coupons, g, account) && |Live(coupons, g)| == MadeAll(ds)
      ensures ok ==> forall x :: |LiveOf(coupons, g, x)| == MadeOf(ds, x)
    {
      hide LiveOf;
      ghost var was := coupons;
      for i := 0 to |ds|
        invariant Grown(was, coupons, g, account) && |Live(coupons, g)| == MadeAll(ds[..i])
        invariant forall x :: |LiveOf(coupons, g, x)| == MadeOf(ds[..i], x)
        invariant forall j :: 0 <= j < i && Made(ds[j]) > 0 ==> ds[j].amount.Some?
      {
        assert ds[..i + 1][..i] == ds[..i];
        ghost var before := coupons;
        if ds[i].count.Some? && ds[i].count.value > 0 {
          if ds[i].amount == None {
            assert Made(ds[i]) > 0;
            return false;
          }
          Generate(g, account, ds[i].amount.value, ds[i].count.value);
          GrownOn(was, before, coupons, g, account);
        }
      }
      assert ds[..|ds|] == ds;
      ok := true;
    }

    /** `create_gift_voucher`, after its voucher. */
    method Create(g: int, account: int, ds: seq<Denomination>) returns (ok: bool)
      requires Valid() && g !in gifts
      modifies this`gifts, this`coupons, this`excess
      ensures Valid() && (ok <==> Issuable(ds))
      ensures !ok ==> gifts == old(gifts) && coupons == old(coupons) && excess == old(excess)
      ensures ok ==>
                && gifts == old(gifts)[g := Gift(Issued(ds), 0, account)] && |Live(coupons, g)| == MadeAll(ds)
                && Grown(old(coupons), coupons, g, account) && excess == old(excess)[g := MadeAll(ds) - Issued(ds)]
                && (|Live(coupons, g)| == Issued(ds) <==> forall i :: 0 <= i < |ds| ==> CountOf(ds[i]) >= 0)
                && forall x :: |LiveOf(coupons, g, x)| == MadeOf(ds, x)
    {
      hide LiveOf, Live, Grown, Balanced, Made;
      var total := SumCounts(ds);
      if total == None {
        return false;
      }
      var was := coupons;
      NoneYet(gifts, coupons, excess, g);
      ok := GenerateAll(g, account, ds);
      if !ok {
        coupons := was;
        return;
      }
      MadeIffCounted(ds);
      GrownBalanced(gifts, was, coupons, excess, g, Gift(Issued(ds), 0, account), MadeAll(ds) - Issued(ds));
      gifts, excess := gifts[g := Gift(total.value, 0, account)], excess[g := MadeAll(ds) - Issued(ds)];
    }

    /** `claim_gift_coupon`: all coupons handed in, or none. */
    method ClaimAll(claims: seq<Claim>) returns (ok: bool)
      requires Valid()
      modifies this`gifts, this`coupons
      ensures Valid()
      ensures ok <==> forall i :: 0 <= i < |claims| ==> Claimable(old(coupons), claims, i)
      ensures !ok ==> gifts == old(gifts) && coupons == old(coupons)
      ensures ok ==> coupons == old(coupons) - Named(claims, |claims|)
      ensures gifts.Keys == old(gifts).Keys
      ensures forall g :: g in gifts ==>
                gifts[g] == old(gifts)[g].(claimed := old(gifts)[g].claimed + |Live(old(coupons), g)| - |Live(coupons, g)|)
    {
      hide Balanced;
      var was, before := gifts, coupons;
      for i := 0 to |claims|
        invariant Valid() && gifts.Keys == was.Keys && coupons == before - Named(claims, i)
        invariant forall g :: g in gifts ==> gifts[g] == was[g].(claimed := gifts[g].claimed)
        invariant forall j :: 0 <= j < i ==> Claimable(before, claims, j)
      {
        var c := claims[i];
        if c.coupon == None || c.coupon.value !in coupons || c.account != Some(coupons[c.coupon.value].account)
           || !coupons[c.coupon.value].active
        {
          assert !Claimable(before, claims, i);
          gifts, coupons := was, before;
          return false;
        }
        var k := c.coupon.value;
        var g := coupons[k].gift;
        TakeBalanced(gifts, coupons, excess, k);
        assert Named(claims, i + 1) == Named(claims, i) + {k};
        coupons := coupons - {k};
        gifts := gifts[g := gifts[g].(claimed := gifts[g].claimed + 1)];
      }
      ok := true;
      ClaimedLess(was, before, gifts, coupons, excess);
    }
  }

  lemma ClaimedLess(was: map<int, Gift>, before: map<int, Coupon>, gifts: map<int, Gift>, coupons: map<int, Coupon>,
                    excess: map<int, int>)
    requires Balanced(was, before, excess) && Balanced(gifts, coupons, excess) && gifts.Keys == was.Keys
    requires forall g :: g in gifts ==> gifts[g].issued == was[g].issued
    ensures forall g :: g in gifts ==> gifts[g].claimed == was[g].claimed + |Live(before, g)| - |Live(coupons, g)|
  {
  }

  /** New coupons are active and of this gift voucher and account. */
  predicate Grown(was: map<int, Coupon>, now: map<int, Coupon>, g: int, account: int) {
    && (forall k :: k in was ==> k in now && now[k] == was[k])
    && (forall k :: k in now && k !in was ==> now[k].gift == g && now[k].account == account && now[k].active)
  }

  lemma GrownOn(was: map<int, Coupon>, before: map<int, Coupon>, now: map<int, Coupon>, g: int, account: int)
    requires Grown(was, before, g, account) && Grown(before, now, g, account)
    ensures Grown(was, now, g, account)
  {
  }

  lemma NoneYet(gifts: map<int, Gift>, coupons: map<int, Coupon>, excess: map<int, int>, g: int)
    requires Balanced(gifts, coupons, excess) && g !in gifts
    ensures Live(coupons, g) == {} && forall x :: LiveOf(coupons, g, x) == {}
  {
    forall k | k in coupons ensures coupons[k].gift != g {}
    assert forall k :: k !in Live(coupons, g);
  }

  lemma GrownBalanced(gifts: map<int, Gift>, was: map<int, Coupon>, now: map<int, Coupon>, excess: map<int, int>, g: int,
                      row: Gift, more: int)
    requires Balanced(gifts, was, excess) && g !in gifts && Grown(was, now, g, row.account)
    requires |Live(now, g)| + row.claimed == row.issued + more
    ensures Balanced(gifts[g := row], now, excess[g := more])
  {
    forall h | h in gifts ensures Live(now, h) == Live(was, h) {
      forall k ensures k in Live(now, h) <==> k in Live(was, h) {}
    }
  }

  lemma TakeBalanced(gifts: map<int, Gift>, coupons: map<int, Coupon>, excess: map<int, int>, k: int)
    requires Balanced(gifts, coupons, excess) && k in coupons
    ensures var g := coupons[k].gift;
            g in gifts && Balanced(gifts[g := gifts[g].(claimed := gifts[g].claimed + 1)], coupons - {k}, excess)
  {
    forall h | h in gifts
      ensures |Live(coupons - {k}, h)| == |Live(coupons, h)| - if coupons[k].gift == h then 1 else 0
    {
      LiveTake(coupons, k, h);
    }
  }
}
