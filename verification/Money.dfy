/** `round(x::numeric, 2)`: to whole paise, halves away from zero. */
module Money {
  import opened Sums

  /** The nearest integer, halves away from zero. */
  function Nearest(y: real): int {
    if y >= 0.0 then (y + 0.5).Floor else -((0.5 - y).Floor)
  }

  function Round2(x: real): real { Nearest(x * 100.0) as real / 100.0 }

  predicate Whole(y: real) { y == y.Floor as real }

  predicate WholePaise(x: real) { Whole(x * 100.0) }

  lemma FloorIs(y: real, n: int)
    requires n as real <= y < n as real + 1.0
    ensures y.Floor == n
  {
  }

  lemma NearestIsNear(y: real)
    ensures -0.5 <= Nearest(y) as real - y <= 0.5
  {
  }

  lemma NearestOfWhole(y: real)
    requires Whole(y)
    ensures Nearest(y) as real == y
  {
    var n := y.Floor;
    if y >= 0.0 {
      FloorIs(y + 0.5, n);
    } else {
      assert -n as real == -y;
      FloorIs(0.5 - y, -n);
    }
  }

  /** Rounding moves an amount by at most half a paisa, and whole paise not at all. */
  lemma RoundsByHalf(x: real)
    ensures -0.005 <= Round2(x) - x <= 0.005
    ensures WholePaise(x) ==> Round2(x) == x
    ensures WholePaise(Round2(x))
  {
    NearestIsNear(x * 100.0);
    if WholePaise(x) {
      NearestOfWhole(x * 100.0);
    }
    var n := Nearest(x * 100.0);
    assert Round2(x) * 100.0 == n as real;
    FloorIs(Round2(x) * 100.0, n);
  }

  /** Which amount that is: the whole paise nearest to it and, of two that are as near, the one further from zero. */
  lemma RoundsTo(x: real, n: int)
    ensures Round2(x) == n as real / 100.0 <==>
            var y := x * 100.0;
            || -0.5 < n as real - y < 0.5
            || (n as real - y == 0.5 && y > 0.0)
            || (n as real - y == -0.5 && y < 0.0)
  {
    var y := x * 100.0;
    assert Round2(x) == n as real / 100.0 <==> Nearest(y) == n;
    NearestIs(y, n);
  }

  lemma NearestIs(y: real, n: int)
    ensures Nearest(y) == n <==>
            -0.5 < n as real - y < 0.5 || (n as real - y == 0.5 && y > 0.0) || (n as real - y == -0.5 && y < 0.0)
  {
    if y >= 0.0 {
      FloorIff(y + 0.5, n);
    } else {
      FloorIff(0.5 - y, -n);
    }
  }

  lemma FloorIff(y: real, n: int)
    ensures y.Floor == n <==> n as real <= y < n as real + 1.0
  {
  }

  lemma WholeSum(x: real, y: real)
    requires WholePaise(x) && WholePaise(y)
    ensures WholePaise(x + y) && WholePaise(x - y)
  {
    WholeAdd(x * 100.0, y * 100.0);
    assert (x + y) * 100.0 == x * 100.0 + y * 100.0;
    assert (x - y) * 100.0 == x * 100.0 - y * 100.0;
  }

  lemma WholeAdd(a: real, b: real)
    requires Whole(a) && Whole(b)
    ensures Whole(a + b) && Whole(a - b)
  {
    FloorIs(a + b, a.Floor + b.Floor);
    FloorIs(a - b, a.Floor - b.Floor);
  }

  lemma WholeZero()
    ensures WholePaise(0.0)
  {
  }

  lemma {:induction false} SumWhole<K, V>(m: map<K, V>, f: (K, V) -> real)
    requires forall k :: k in m ==> WholePaise(f(k, m[k]))
    ensures WholePaise(Sum(m, f))
    decreases |m|
  {
    hide WholePaise;
    if m == map[] {
      WholeZero();
    } else {
      var k :| k in m;
      SumTake(m, f, k);
      assert m.Keys == (m - {k}).Keys + {k};
      SumWhole(m - {k}, f);
      WholeSum(f(k, m[k]), Sum(m - {k}, f));
    }
  }

  /** `round(sum(f), 2) ... group by link`, one row per group. */
  ghost function RoundedGroup<K, V, L(!new)>(m: map<K, V>, f: (K, V) -> real, link: (K, V) -> L): (L, bool) -> real {
    (l, _) => Round2(Sum(m, Fibre(f, link, l)))
  }

  ghost function Half<L>(): (L, bool) -> real { (_, _) => 0.005 }

  lemma {:induction false} HalfIs<L>(groups: map<L, bool>)
    ensures Sum(groups, Half()) == 0.005 * |groups| as real
    decreases |groups|
  {
    if groups != map[] {
      var l :| l in groups;
      SumTake(groups, Half(), l);
      assert groups.Keys == (groups - {l}).Keys + {l};
      HalfIs(groups - {l});
    }
  }

  /** Rounded group totals add up to the whole: exactly in whole paise, and always within half a paisa per group. */
  lemma RoundedGroupsAddUp<K, V, L(!new)>(m: map<K, V>, f: (K, V) -> real, link: (K, V) -> L, groups: map<L, bool>)
    requires forall k :: k in m && f(k, m[k]) != 0.0 ==> link(k, m[k]) in groups
    ensures -0.005 * |groups| as real <= Sum(groups, RoundedGroup(m, f, link)) - Sum(m, f) <= 0.005 * |groups| as real
    ensures (forall k :: k in m ==> WholePaise(f(k, m[k]))) ==> Sum(groups, RoundedGroup(m, f, link)) == Sum(m, f)
    ensures forall l :: l in groups ==> WholePaise(RoundedGroup(m, f, link)(l, groups[l]))
  {
    hide Round2, WholePaise;
    HalfIs(groups);
    var all: (L, bool) -> bool := (_, _) => true;
    SumByGroup(m, f, link, groups, all);
    SumCong(m, InPicked(groups, f, link, all), m, f);
    var exact := PerGroup(m, f, link, all);
    forall l | l in groups
      ensures -0.005 <= RoundedGroup(m, f, link)(l, groups[l]) - exact(l, groups[l]) <= 0.005
      ensures WholePaise(RoundedGroup(m, f, link)(l, groups[l]))
    {
      RoundsByHalf(Sum(m, Fibre(f, link, l)));
    }
    SumNear(groups, RoundedGroup(m, f, link), exact, Half());
    if forall k :: k in m ==> WholePaise(f(k, m[k])) {
      WholeZero();
      forall l | l in groups ensures RoundedGroup(m, f, link)(l, groups[l]) == exact(l, groups[l]) {
        forall k | k in m ensures WholePaise(Fibre(f, link, l)(k, m[k])) {}
        SumWhole(m, Fibre(f, link, l));
        RoundsByHalf(Sum(m, Fibre(f, link, l)));
      }
      SumCong(groups, RoundedGroup(m, f, link), groups, exact);
    }
  }
}
