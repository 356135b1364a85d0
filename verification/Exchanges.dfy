/** Exchanges and advances: an opening amount that later sales claim, each claim rounded to whole paise as it is added. */
module Exchanges {
  import opened Options
  import opened Sums
  import opened Money

  datatype Exchange = Exchange(branch: int, opening: real, adjusted: real)

  /** A row of `exchange_adjustment`: the voucher that claimed, and what it claimed from. */
  datatype Adjustment = Adjustment(voucher: int, exchange: int, amount: real)

  datatype Claim = Claim(exchange: Option<int>, amount: Option<real>)

  // ---- claims in a row -----------------------------------------------------------------------------------------

  /** What the column holds after these claims. */
  function Rounded(claims: seq<real>): real {
    if claims == [] then 0.0 else Round2(Rounded(claims[..|claims| - 1]) + claims[|claims| - 1])
  }

  function Total(claims: seq<real>): real {
    if claims == [] then 0.0 else Total(claims[..|claims| - 1]) + claims[|claims| - 1]
  }

  /** Rounding drifts by at most half a paisa a claim. */
  lemma {:induction false} DriftBound(claims: seq<real>)
    ensures -0.005 * |claims| as real <= Rounded(claims) - Total(claims) <= 0.005 * |claims| as real
  {
    if claims != [] {
      var less := claims[..|claims| - 1];
      DriftBound(less);
      RoundsByHalf(Rounded(less) + claims[|claims| - 1]);
    }
  }

  /** Claims in whole paise do not drift. */
  lemma {:induction false} WholeClaims(claims: seq<real>)
    requires forall i :: 0 <= i < |claims| ==> WholePaise(claims[i])
    ensures Rounded(claims) == Total(claims) && WholePaise(Total(claims))
  {
    hide WholePaise, Round2;
    if claims == [] {
      WholeZero();
    } else {
      var less := claims[..|claims| - 1];
      WholeClaims(less);
      WholeSum(Total(less), claims[|claims| - 1]);
      RoundsByHalf(Total(less) + claims[|claims| - 1]);
    }
  }

  function History(past: map<int, seq<real>>, e: int): seq<real> { if e in past then past[e] else [] }

  function Lost(lost: map<int, real>, e: int): real { if e in lost then lost[e] else 0.0 }

  ghost function ClaimedFrom(e: int): (int, Adjustment) -> real { (_, a: Adjustment) => if a.exchange == e then a.amount else 0.0 }

  ghost function ClaimedBy(v: int, e: int): (int, Adjustment) -> real {
    (_, a: Adjustment) => if a.voucher == v && a.exchange == e then a.amount else 0.0
  }

  /** `past` lists every claim ever made from an exchange. Each exchange holds its rounded claims and no more than its opening;
      the recorded adjustments are those claims, except for `lost`: the claims of vouchers deleted since. */
  ghost predicate Kept(exchanges: map<int, Exchange>, adjustments: map<int, Adjustment>, past: map<int, seq<real>>,
                       lost: map<int, real>)
  {
    && (forall e :: e in exchanges ==> && exchanges[e].adjusted == Rounded(History(past, e))
                                       && exchanges[e].adjusted <= exchanges[e].opening)
    && (forall e :: e in exchanges ==> Total(History(past, e)) == Sum(adjustments, ClaimedFrom(e)) + Lost(lost, e))
    && (forall k :: k in adjustments ==> adjustments[k].exchange in exchanges)
    && (forall e :: e in past ==> e in exchanges)
    && (forall e :: e in lost ==> e in exchanges)
  }

  /** Whatever the claims, an exchange is never overdrawn, and the column is off by at most half a paisa per claim. */
  lemma NeverOverdrawn(exchanges: map<int, Exchange>, adjustments: map<int, Adjustment>, past: map<int, seq<real>>,
                       lost: map<int, real>, e: int)
    requires Kept(exchanges, adjustments, past, lost) && e in exchanges
    ensures exchanges[e].adjusted <= exchanges[e].opening
    ensures var n, exact := |History(past, e)| as real, Sum(adjustments, ClaimedFrom(e)) + Lost(lost, e);
            && -0.005 * n <= exchanges[e].adjusted - exact <= 0.005 * n
            && ((forall i :: 0 <= i < |History(past, e)| ==> WholePaise(History(past, e)[i])) ==> exchanges[e].adjusted == exact)
  {
    DriftBound(History(past, e));
    if forall i :: 0 <= i < |History(past, e)| ==> WholePaise(History(past, e)[i]) {
      WholeClaims(History(past, e));
    }
  }

  // ---- a list of claims ----------------------------------------------------------------------------------------

  /** The amounts that the first `n` claims take from one exchange. */
  function Taken(claims: seq<Claim>, n: nat, e: int): seq<real>
    requires n <= |claims|
  {
    if n == 0 then []
    else Taken(claims, n - 1, e)
         + if claims[n - 1].exchange == Some(e) && claims[n - 1].amount.Some? then [claims[n - 1].amount.value] else []
  }

  /** Claim `i` names an exchange of the branch that still covers it after the claims before it. */
  predicate Covers(exchanges: map<int, Exchange>, past: map<int, seq<real>>, branch: int, claims: seq<Claim>, i: nat)
    requires i < |claims|
  {
    var c := claims[i];
    && c.exchange.Some? && c.amount.Some? && c.exchange.value in exchanges && exchanges[c.exchange.value].branch == branch
    && Rounded(History(past, c.exchange.value) + Taken(claims, i + 1, c.exchange.value)) <= exchanges[c.exchange.value].opening
  }

  /** The histories after the first `n` claims. */
  ghost predicate Later(was: map<int, seq<real>>, now: map<int, seq<real>>, claims: seq<Claim>, n: nat)
    requires n <= |claims|
  {
    forall e :: History(now, e) == History(was, e) + Taken(claims, n, e)
  }

  lemma LaterStart(was: map<int, seq<real>>, claims: seq<Claim>)
    ensures Later(was, was, claims, 0)
  {
  }

  lemma HistoryPut(past: map<int, seq<real>>, e: int, h: seq<real>, f: int)
    ensures History(past[e := h], f) == if f == e then h else History(past, f)
  {
  }

  lemma TakenNext(claims: seq<Claim>, i: nat, e: int, x: real, f: int)
    requires i < |claims| && claims[i] == Claim(Some(e), Some(x))
    ensures Taken(claims, i + 1, f) == Taken(claims, i, f) + if f == e then [x] else []
  {
  }

  lemma LaterStep(was: map<int, seq<real>>, now: map<int, seq<real>>, claims: seq<Claim>, i: nat, e: int, x: real)
    requires i < |claims| && Later(was, now, claims, i) && claims[i] == Claim(Some(e), Some(x))
    ensures History(now, e) + [x] == History(was, e) + Taken(claims, i + 1, e)
    ensures Later(was, now[e := History(now, e) + [x]], claims, i + 1)
  {
    hide History, Taken;
    forall f
      ensures History(now[e := History(now, e) + [x]], f) == History(was, f) + Taken(claims, i + 1, f)
      ensures f == e ==> History(now, e) + [x] == History(was, e) + Taken(claims, i + 1, e)
    {
      HistoryPut(now, e, History(now, e) + [x], f);
      TakenNext(claims, i, e, x, f);
      assert History(now, f) == History(was, f) + Taken(claims, i, f);
    }
  }

  lemma RoundedStep(claims: seq<real>, x: real)
    ensures Rounded(claims + [x]) == Round2(Rounded(claims) + x) && Total(claims + [x]) == Total(claims) + x
  {
    assert (claims + [x])[..|claims + [x]| - 1] == claims;
  }

  lemma ClaimKept(exchanges: map<int, Exchange>, adjustments: map<int, Adjustment>, past: map<int, seq<real>>,
                  lost: map<int, real>, e: int, v: int, x: real, k: int)
    requires Kept(exchanges, adjustments, past, lost) && e in exchanges && k !in adjustments
    requires Round2(exchanges[e].adjusted + x) <= exchanges[e].opening
    ensures Kept(exchanges[e := exchanges[e].(adjusted := Round2(exchanges[e].adjusted + x))],
                 adjustments[k := Adjustment(v, e, x)], past[e := History(past, e) + [x]], lost)
  {
    hide Round2, Rounded, Total;
    var now, rows := past[e := History(past, e) + [x]], adjustments[k := Adjustment(v, e, x)];
    RoundedStep(History(past, e), x);
    forall f | f in exchanges ensures Total(History(now, f)) == Sum(rows, ClaimedFrom(f)) + Lost(lost, f) {
      SumPut(adjustments, ClaimedFrom(f), k, Adjustment(v, e, x));
    }
  }

  // ---- deletions -----------------------------------------------------------------------------------------------

  function Without(adjustments: map<int, Adjustment>, v: int): map<int, Adjustment> {
    map k | k in adjustments && adjustments[k].voucher != v && adjustments[k].exchange != v :: adjustments[k]
  }

  ghost function LostMore(exchanges: map<int, Exchange>, adjustments: map<int, Adjustment>, lost: map<int, real>, v: int)
    : map<int, real>
  {
    map e | e in exchanges && e != v :: Lost(lost, e) + Sum(adjustments, ClaimedBy(v, e))
  }

  /** Deleting a voucher drops its claims but gives nothing back. */
  lemma DeleteKept(exchanges: map<int, Exchange>, adjustments: map<int, Adjustment>, past: map<int, seq<real>>,
                   lost: map<int, real>, v: int)
    requires Kept(exchanges, adjustments, past, lost)
    ensures Kept(exchanges - {v}, Without(adjustments, v), past - {v}, LostMore(exchanges, adjustments, lost, v))
  {
    var rows, more := Without(adjustments, v), LostMore(exchanges, adjustments, lost, v);
    forall e | e in exchanges - {v}
      ensures Total(History(past - {v}, e)) == Sum(rows, ClaimedFrom(e)) + Lost(more, e)
    {
      SumWithout(adjustments, v, e);
    }
  }

  lemma SumWithout(adjustments: map<int, Adjustment>, v: int, e: int)
    requires e != v
    ensures Sum(Without(adjustments, v), ClaimedFrom(e)) == Sum(adjustments, ClaimedFrom(e)) - Sum(adjustments, ClaimedBy(v, e))
  {
    var rows := Without(adjustments, v);
    var gone := set k | k in adjustments && (adjustments[k].voucher == v || adjustments[k].exchange == v);
    assert rows == adjustments - gone;
    var others := (k: int, a: Adjustment) => if a.voucher != v && a.exchange == e then a.amount else 0.0;
    SumAdd(adjustments, others, ClaimedBy(v, e), ClaimedFrom(e));
    SumRestrict(adjustments, others, gone);
    SumCong(rows, others, rows, ClaimedFrom(e));
  }

  /** So an exchange that equals its recorded claims still does after the deletion exactly when the voucher's claims from it
      sum to zero. */
  lemma DeleteStaysExactIff(exchanges: map<int, Exchange>, adjustments: map<int, Adjustment>, v: int, e: int)
    requires e in exchanges && e != v && exchanges[e].adjusted == Sum(adjustments, ClaimedFrom(e))
    ensures var left := exchanges - {v};
            left[e].adjusted == Sum(Without(adjustments, v), ClaimedFrom(e)) <==> Sum(adjustments, ClaimedBy(v, e)) == 0.0
  {
    SumWithout(adjustments, v, e);
  }

  /** The first `n` claims of voucher `v` are recorded under `keys`, one row each; other rows stand. */
  ghost predicate Recorded(was: map<int, Adjustment>, now: map<int, Adjustment>, keys: seq<int>, claims: seq<Claim>, n: nat, v: int)
    requires n <= |claims|
  {
    && |keys| == n
    && (forall k :: k in now <==> k in was || k in keys)
    && (forall k :: k in was ==> now[k] == was[k] && k !in keys)
    && (forall i, j :: 0 <= i < j < n ==> keys[i] != keys[j])
    && (forall i :: 0 <= i < n ==>
          && keys[i] in now && now[keys[i]].voucher == v
          && claims[i].exchange == Some(now[keys[i]].exchange) && claims[i].amount == Some(now[keys[i]].amount))
  }

  lemma RecordedStart(was: map<int, Adjustment>, claims: seq<Claim>, v: int)
    ensures Recorded(was, was, [], claims, 0, v)
  {
  }

  lemma RecordedStep(was: map<int, Adjustment>, now: map<int, Adjustment>, keys: seq<int>, claims: seq<Claim>, v: int, k: int,
                     e: int, x: real)
    requires |keys| < |claims| && Recorded(was, now, keys, claims, |keys|, v) && k !in now
    requires claims[|keys|] == Claim(Some(e), Some(x))
    ensures Recorded(was, now[k := Adjustment(v, e, x)], keys + [k], claims, |keys| + 1, v)
  {
  }

  lemma BothRecorded(was: map<int, Adjustment>, middle: map<int, Adjustment>, now: map<int, Adjustment>, a: seq<int>, b: seq<int>,
                     first: seq<Claim>, second: seq<Claim>, v: int)
    requires Recorded(was, middle, a, first, |first|, v) && Recorded(middle, now, b, second, |second|, v)
    ensures Recorded(was, now, a + b, first + second, |first + second|, v)
  {
    var keys, n := a + b, |a|;
    forall i, j | 0 <= i < j < |keys| ensures keys[i] != keys[j] {
      if i < n <= j {
        assert keys[i] in middle && keys[j] == b[j - n];
      }
    }
    forall i | 0 <= i < |keys|
      ensures keys[i] in now && now[keys[i]].voucher == v
      ensures (first + second)[i].exchange == Some(now[keys[i]].exchange) && (first + second)[i].amount == Some(now[keys[i]].amount)
    {
      if i < n {
        assert keys[i] == a[i] && a[i] in middle;
      } else {
        assert keys[i] == b[i - n];
      }
    }
  }

  class ExchangeDb {
    var exchanges: map<int, Exchange>
    var adjustments: map<int, Adjustment>
    ghost var past: map<int, seq<real>>
    ghost var lost: map<int, real>

    ghost predicate Valid()
      reads this
    {
      Kept(exchanges, adjustments, past, lost)
    }

    constructor ()
      ensures Valid() && exchanges == map[] && adjustments == map[]
    {
      exchanges, adjustments, past, lost := map[], map[], map[], map[];
    }

    /** `set_exchange`: a negative amount breaks the balance check. */
    method Set(v: int, branch: int, amount: real) returns (ok: bool)
      requires Valid()
      modifies this`exchanges
      ensures Valid() && (ok <==> v !in old(exchanges) && amount >= 0.0)
      ensures exchanges == if ok then old(exchanges)[v := Exchange(branch, amount, 0.0)] else old(exchanges)
    {
      ok := v !in exchanges && amount >= 0.0;
      if ok {
        NothingFrom(exchanges, adjustments, past, lost, v);
        exchanges := exchanges[v := Exchange(branch, amount, 0.0)];
      }
    }

    /** One of the two loops of `claim_exchange`; stops at a claim that cannot be made. */
    method ClaimEach(claims: seq<Claim>, branch: int, v: int) returns (ok: bool, ghost keys: seq<int>)
      requires Valid()
      modifies this`exchanges, this`adjustments, this`past
      ensures Valid() && exchanges.Keys == old(exchanges).Keys
      ensures forall e :: e in exchanges ==>
                exchanges[e].branch == old(exchanges)[e].branch && exchanges[e].opening == old(exchanges)[e].opening
      ensures ok <==> AllCovered(old(exchanges), old(past), branch, claims)
      ensures ok ==> Later(old(past), past, claims, |claims|)
      ensures ok ==> Recorded(old(adjustments), adjustments, keys, claims, |claims|, v)
    {
      hide Kept, Round2, Covers, Later, History, Taken, Recorded;
      ghost var was, before, rows := exchanges, past, adjustments;
      keys := [];
      LaterStart(before, claims);
      RecordedStart(rows, claims, v);
      for i := 0 to |claims|
        invariant Valid() && exchanges.Keys == was.Keys && Later(before, past, claims, i)
        invariant forall e :: e in exchanges ==> exchanges[e].branch == was[e].branch && exchanges[e].opening == was[e].opening
        invariant forall j :: 0 <= j < i ==> Covers(was, before, branch, claims, j)
        invariant Recorded(rows, adjustments, keys, claims, i, v) && |keys| == i
      {
        var c := claims[i];
        CoversIff(was, before, exchanges, adjustments, past, lost, branch, claims, i);
        if c.exchange == None || c.amount == None || c.exchange.value !in exchanges
           || exchanges[c.exchange.value].branch != branch
        {
          return false, keys;
        }
        var e, x := c.exchange.value, c.amount.value;
        LaterStep(before, past, claims, i, e, x);
        var row := exchanges[e].(adjusted := Round2(exchanges[e].adjusted + x));
        if row.opening - row.adjusted < 0.0 {
          return false, keys;
        }
        var k := NotIn(adjustments.Keys);
        ClaimKept(exchanges, adjustments, past, lost, e, v, x, k);
        RecordedStep(rows, adjustments, keys, claims, v, k, e, x);
        keys := keys + [k];
        exchanges := exchanges[e := row];
        adjustments := adjustments[k := Adjustment(v, e, x)];
        past := past[e := History(past, e) + [x]];
      }
      ok := true;
    }

    /** `claim_exchange`: all claims, exchanges then advances, or none. */
    method ClaimAll(exchangeClaims: seq<Claim>, advanceClaims: seq<Claim>, branch: int, v: int)
        returns (ok: bool, ghost keys: seq<int>)
      requires Valid()
      modifies this`exchanges, this`adjustments, this`past
      ensures Valid() && exchanges.Keys == old(exchanges).Keys
      ensures forall e :: e in exchanges ==>
                exchanges[e].branch == old(exchanges)[e].branch && exchanges[e].opening == old(exchanges)[e].opening
      ensures var all := exchangeClaims + advanceClaims;
              && (ok <==> AllCovered(old(exchanges), old(past), branch, all))
              && (ok ==> Later(old(past), past, all, |all|))
              && (ok ==> Recorded(old(adjustments), adjustments, keys, all, |all|, v))
      ensures !ok ==> exchanges == old(exchanges) && adjustments == old(adjustments) && past == old(past)
    {
      hide Kept, AllCovered, Later, Recorded;
      var was, rows := exchanges, adjustments;
      ghost var before := past;
      ghost var all := exchangeClaims + advanceClaims;
      ok, keys := ClaimEach(exchangeClaims, branch, v);
      if ok {
        BothCovered(was, before, exchanges, past, branch, exchangeClaims, advanceClaims);
        ghost var middle, between, more := past, adjustments, [];
        ok, more := ClaimEach(advanceClaims, branch, v);
        if ok {
          BothParts(before, middle, past, exchangeClaims, advanceClaims);
          BothRecorded(rows, between, adjustments, keys, more, exchangeClaims, advanceClaims, v);
          keys := keys + more;
        }
      }
      if AllCovered(was, before, branch, all) {
        FirstCovered(was, before, branch, exchangeClaims, advanceClaims);
      }
      if !ok {
        exchanges, adjustments, past := was, rows, before;
      }
    }

    /** Deleting a voucher: its own exchange goes with all claims from it, and its claims from others go unrefunded. */
    method Delete(v: int)
      requires Valid()
      modifies this`exchanges, this`adjustments, this`past, this`lost
      ensures Valid()
      ensures exchanges == old(exchanges) - {v} && adjustments == Without(old(adjustments), v)
      ensures past == old(past) - {v} && lost == LostMore(old(exchanges), old(adjustments), old(lost), v)
    {
      DeleteKept(exchanges, adjustments, past, lost, v);
      lost := LostMore(exchanges, adjustments, lost, v);
      past := past - {v};
      adjustments := Without(adjustments, v);
      exchanges := exchanges - {v};
    }
  }

  /** Part way through, a claim is covered exactly when its row passes the checks. */
  lemma CoversIff(was: map<int, Exchange>, before: map<int, seq<real>>, now: map<int, Exchange>, adjustments: map<int, Adjustment>,
                  past: map<int, seq<real>>, lost: map<int, real>, branch: int, claims: seq<Claim>, i: nat)
    requires i < |claims| && Later(before, past, claims, i) && Kept(now, adjustments, past, lost) && now.Keys == was.Keys
    requires forall e :: e in now ==> now[e].branch == was[e].branch && now[e].opening == was[e].opening
    ensures var c := claims[i];
            Covers(was, before, branch, claims, i) <==>
            (&& c.exchange.Some? && c.amount.Some? && c.exchange.value in now && now[c.exchange.value].branch == branch
             && Round2(now[c.exchange.value].adjusted + c.amount.value) <= now[c.exchange.value].opening)
  {
    hide Round2, Rounded, Total, History, Taken, Later;
    var c := claims[i];
    if c.exchange.Some? && c.amount.Some? && c.exchange.value in now {
      var e, x := c.exchange.value, c.amount.value;
      RoundedStep(History(past, e), x);
      LaterStep(before, past, claims, i, e, x);
    }
  }

  lemma NothingFrom(exchanges: map<int, Exchange>, adjustments: map<int, Adjustment>, past: map<int, seq<real>>,
                    lost: map<int, real>, e: int)
    requires Kept(exchanges, adjustments, past, lost) && e !in exchanges
    ensures History(past, e) == [] && Lost(lost, e) == 0.0 && Sum(adjustments, ClaimedFrom(e)) == 0.0
  {
    forall k | k in adjustments ensures ClaimedFrom(e)(k, adjustments[k]) == 0.0 {
      assert adjustments[k].exchange in exchanges;
    }
    SumZero(adjustments, ClaimedFrom(e));
  }

  // ---- two lists as one ----------------------------------------------------------------------------------------

  lemma {:induction false} TakenFirst(a: seq<Claim>, b: seq<Claim>, n: nat, e: int)
    requires n <= |a|
    ensures Taken(a + b, n, e) == Taken(a, n, e)
  {
    if n > 0 {
      TakenFirst(a, b, n - 1, e);
    }
  }

  lemma {:induction false} TakenSecond(a: seq<Claim>, b: seq<Claim>, n: nat, e: int)
    requires n <= |b|
    ensures Taken(a + b, |a| + n, e) == Taken(a, |a|, e) + Taken(b, n, e)
  {
    if n == 0 {
      TakenFirst(a, b, |a|, e);
    } else {
      TakenSecond(a, b, n - 1, e);
      assert (a + b)[|a| + n - 1] == b[n - 1];
    }
  }

  lemma FirstAt(exchanges: map<int, Exchange>, past: map<int, seq<real>>, branch: int, a: seq<Claim>, b: seq<Claim>, i: nat)
    requires i < |a|
    ensures Covers(exchanges, past, branch, a + b, i) <==> Covers(exchanges, past, branch, a, i)
  {
    hide Rounded, History;
    assert (a + b)[i] == a[i];
    if a[i].exchange.Some? {
      TakenFirst(a, b, i + 1, a[i].exchange.value);
    }
  }

  lemma SecondAt(exchanges: map<int, Exchange>, past: map<int, seq<real>>, now: map<int, Exchange>, after: map<int, seq<real>>,
                 branch: int, a: seq<Claim>, b: seq<Claim>, i: nat)
    requires Later(past, after, a, |a|) && now.Keys == exchanges.Keys && i < |b|
    requires forall e :: e in now ==> now[e].branch == exchanges[e].branch && now[e].opening == exchanges[e].opening
    ensures Covers(exchanges, past, branch, a + b, |a| + i) <==> Covers(now, after, branch, b, i)
  {
    hide Rounded, History;
    assert (a + b)[|a| + i] == b[i];
    if b[i].exchange.Some? {
      var e := b[i].exchange.value;
      TakenSecond(a, b, i + 1, e);
      assert History(past, e) + (Taken(a, |a|, e) + Taken(b, i + 1, e)) == History(after, e) + Taken(b, i + 1, e);
    }
  }

  predicate AllCovered(exchanges: map<int, Exchange>, past: map<int, seq<real>>, branch: int, claims: seq<Claim>) {
    forall i :: 0 <= i < |claims| ==> Covers(exchanges, past, branch, claims, i)
  }

  lemma FirstCovered(exchanges: map<int, Exchange>, past: map<int, seq<real>>, branch: int, a: seq<Claim>, b: seq<Claim>)
    requires AllCovered(exchanges, past, branch, a + b)
    ensures AllCovered(exchanges, past, branch, a)
  {
    hide Covers;
    forall i | 0 <= i < |a| ensures Covers(exchanges, past, branch, a, i) {
      FirstAt(exchanges, past, branch, a, b, i);
    }
  }

  /** Once the first list is claimed, both are covered exactly when the second is by what is left. */
  lemma BothCovered(exchanges: map<int, Exchange>, past: map<int, seq<real>>, now: map<int, Exchange>, after: map<int, seq<real>>,
                    branch: int, a: seq<Claim>, b: seq<Claim>)
    requires Later(past, after, a, |a|) && now.Keys == exchanges.Keys && AllCovered(exchanges, past, branch, a)
    requires forall e :: e in now ==> now[e].branch == exchanges[e].branch && now[e].opening == exchanges[e].opening
    ensures AllCovered(exchanges, past, branch, a + b) <==> AllCovered(now, after, branch, b)
  {
    hide Covers, Later;
    forall i: nat | i < |b|
      ensures Covers(exchanges, past, branch, a + b, |a| + i) <==> Covers(now, after, branch, b, i)
    {
      SecondAt(exchanges, past, now, after, branch, a, b, i);
    }
    if AllCovered(now, after, branch, b) {
      forall i | 0 <= i < |a + b| ensures Covers(exchanges, past, branch, a + b, i) {
        if i < |a| {
          FirstAt(exchanges, past, branch, a, b, i);
        } else {
          SecondAt(exchanges, past, now, after, branch, a, b, i - |a|);
        }
      }
    }
  }

  lemma BothParts(was: map<int, seq<real>>, middle: map<int, seq<real>>, now: map<int, seq<real>>, a: seq<Claim>, b: seq<Claim>)
    requires Later(was, middle, a, |a|) && Later(middle, now, b, |b|)
    ensures Later(was, now, a + b, |a + b|)
  {
    hide History, Taken;
    forall e ensures History(now, e) == History(was, e) + Taken(a + b, |a + b|, e) {
      TakenSecond(a, b, |b|, e);
      var h, x, y := History(was, e), Taken(a, |a|, e), Taken(b, |b|, e);
      assert History(middle, e) == h + x && History(now, e) == History(middle, e) + y;
      assert (h + x) + y == h + (x + y);
    }
  }
}
