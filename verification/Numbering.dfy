/** Voucher numbers: a counter per branch, financial year and sequence, and the text that shows prefix, year and counter. */
module Numbering {
  import opened Options
  import opened Sums

  // ---- the text ------------------------------------------------------------------------------------------------

  function Digit(d: nat): char
    requires d < 10
  {
    '0' + d as char
  }

  function Show(n: nat): (s: string)
    ensures s != [] && forall i :: 0 <= i < |s| ==> '0' <= s[i] <= '9'
  {
    if n < 10 then [Digit(n)] else Show(n / 10) + [Digit(n % 10)]
  }

  function ShowInt(n: int): (s: string)
    ensures s != [] && if n >= 0 then Numeral(s) else s[0] == '-'
  {
    if n < 0 then "-" + Show(-n) else Show(n)
  }

  function Value(s: string): nat
    requires forall i :: 0 <= i < |s| ==> '0' <= s[i] <= '9'
  {
    if s == [] then 0 else 10 * Value(s[..|s| - 1]) + (s[|s| - 1] as int - '0' as int)
  }

  lemma {:induction false} ValueOfShow(n: nat)
    ensures Value(Show(n)) == n
  {
    if n >= 10 {
      ValueOfShow(n / 10);
      assert Show(n)[..|Show(n)| - 1] == Show(n / 10);
    } else {
      assert Show(n)[..0] == [];
    }
  }

  predicate Numeral(s: string) { forall i :: 0 <= i < |s| ==> '0' <= s[i] <= '9' }

  function ReadInt(s: string): Option<int> {
    if s != [] && Numeral(s) then Some(Value(s) as int)
    else if |s| > 1 && s[0] == '-' && Numeral(s[1..]) then Some(-(Value(s[1..]) as int))
    else None
  }

  lemma ReadDigits(s: string)
    requires s != [] && Numeral(s)
    ensures ReadInt(s) == Some(Value(s) as int) && ReadInt("-" + s) == Some(-(Value(s) as int))
  {
    hide Value;
    var t := "-" + s;
    assert t[0] == '-' && t[1..] == s;
  }

  lemma ReadShown(n: int)
    ensures ReadInt(ShowInt(n)) == Some(n)
  {
    hide Value, Show, ReadInt;
    var m := if n < 0 then -n else n;
    ValueOfShow(m);
    ReadDigits(Show(m));
  }

  /** The year code: the last two digits of both years, read as one number. */
  function YearCode(start: nat, end: nat): nat { start % 100 * 100 + end % 100 }

  /** Leading zeroes are lost: only years ending in 10 to 99 leave four digits. */
  lemma FourDigitsIff(start: nat, end: nat)
    ensures |Show(YearCode(start, end))| == 4 <==> start % 100 >= 10
  {
    var c := YearCode(start, end);
    DigitsOf(c);
  }

  lemma DigitsOf(c: nat)
    requires c < 10000
    ensures |Show(c)| == if c < 10 then 1 else if c < 100 then 2 else if c < 1000 then 3 else 4
  {
    if c >= 10 {
      assert |Show(c)| == |Show(c / 10)| + 1;
      if c >= 100 {
        assert |Show(c / 10)| == |Show(c / 10 / 10)| + 1;
        if c >= 1000 {
          assert |Show(c / 10 / 10)| == |Show(c / 10 / 10 / 10)| + 1;
        }
      }
    }
  }

  predicate Letters(s: string) { forall i :: 0 <= i < |s| ==> 'A' <= s[i] <= 'Z' }

  function VoucherNo(prefix: string, year: nat, number: int): string { prefix + Show(year) + ShowInt(number) }

  /** Length of the leading run of letters. */
  function Lead(s: string): (n: nat)
    ensures n <= |s|
  {
    if s != [] && 'A' <= s[0] <= 'Z' then 1 + Lead(s[1..]) else 0
  }

  /** Letters, four digits of year, and the rest. */
  function ParseNo(s: string): Option<(string, nat, int)> {
    var n := Lead(s);
    if |s| < n + 4 || !Numeral(s[n..n + 4]) || ReadInt(s[n + 4..]) == None then None
    else Some((s[..n], Value(s[n..n + 4]), ReadInt(s[n + 4..]).value))
  }

  lemma {:induction false} LeadOf(prefix: string, rest: string)
    requires Letters(prefix) && rest != [] && !('A' <= rest[0] <= 'Z')
    ensures Lead(prefix + rest) == |prefix|
  {
    if prefix == [] {
      assert prefix + rest == rest;
    } else {
      assert (prefix + rest)[1..] == prefix[1..] + rest;
      LeadOf(prefix[1..], rest);
    }
  }

  lemma ParsePieces(prefix: string, y: string, q: string, year: nat, number: int)
    requires Letters(prefix) && |y| == 4 && Numeral(y) && Value(y) == year && ReadInt(q) == Some(number)
    ensures ParseNo(prefix + y + q) == Some((prefix, year, number))
  {
    hide Value, ReadInt;
    var s, n := prefix + y + q, |prefix|;
    assert s == prefix + (y + q);
    LeadOf(prefix, y + q);
    assert s[..n] == prefix && s[n..n + 4] == y && s[n + 4..] == q;
  }

  /** With a four-digit year code a voucher number can be read back. */
  lemma ParseShown(prefix: string, year: nat, number: int)
    requires Letters(prefix) && |Show(year)| == 4
    ensures ParseNo(VoucherNo(prefix, year, number)) == Some((prefix, year, number))
  {
    ValueOfShow(year);
    ReadShown(number);
    ParsePieces(prefix, Show(year), ShowInt(number), year, number);
  }

  /** Only a lone zero starts with a zero. */
  lemma {:induction false} NoLeadingZero(n: nat)
    ensures |Show(n)| > 1 ==> Show(n)[0] != '0'
  {
    if n >= 100 {
      NoLeadingZero(n / 10);
      assert |Show(n / 10)| == |Show(n / 10 / 10)| + 1;
    }
  }

  lemma {:induction false} ShowOfValue(s: string)
    requires s != [] && Numeral(s) && (|s| == 1 || s[0] != '0')
    ensures Show(Value(s)) == s && (s[0] != '0' ==> Value(s) > 0)
  {
    hide Show, Value;
    var most, last := s[..|s| - 1], s[|s| - 1];
    var d := last as int - '0' as int;
    ValueNext(s);
    assert s == most + [last];
    if |s| > 1 {
      ShowOfValue(most);
      ShowNext(Value(most), d);
    } else {
      ShowDigit(d);
    }
  }

  lemma ValueNext(s: string)
    requires s != [] && Numeral(s)
    ensures Value(s) == 10 * Value(s[..|s| - 1]) + (s[|s| - 1] as int - '0' as int)
    ensures |s| == 1 ==> Value(s[..|s| - 1]) == 0
  {
  }

  lemma ShowDigit(d: nat)
    requires d < 10
    ensures Show(d) == [Digit(d)]
  {
  }

  lemma ShowNext(n: nat, d: nat)
    requires n > 0 && d < 10
    ensures Show(10 * n + d) == Show(n) + [Digit(d)]
  {
    assert (10 * n + d) / 10 == n && (10 * n + d) % 10 == d;
  }

  /** The digits of a year code go on as those of another do, with a digit that can start a number. */
  predicate RunsInto(s: string, t: string) { |s| < |t| && t[..|s|] == s && t[|s|] != '0' }

  lemma SamePrefix(prefix: string, rest: string, prefix2: string, rest2: string)
    requires Letters(prefix) && rest != [] && !('A' <= rest[0] <= 'Z')
    requires Letters(prefix2) && rest2 != [] && !('A' <= rest2[0] <= 'Z')
    requires prefix + rest == prefix2 + rest2
    ensures prefix == prefix2 && rest == rest2
  {
    LeadOf(prefix, rest);
    LeadOf(prefix2, rest2);
    assert (prefix + rest)[..|prefix|] == prefix && (prefix + rest)[|prefix|..] == rest;
    assert (prefix2 + rest2)[..|prefix2|] == prefix2 && (prefix2 + rest2)[|prefix2|..] == rest2;
  }

  lemma Overlap(year: nat, number: int, year2: nat, number2: int)
    requires |Show(year)| <= |Show(year2)| && Show(year) + ShowInt(number) == Show(year2) + ShowInt(number2)
    ensures if year == year2 then number == number2 else RunsInto(Show(year), Show(year2))
  {
    hide Show, ShowInt, Value, ReadInt;
    var s, t, q, q2 := Show(year), Show(year2), ShowInt(number), ShowInt(number2);
    var k := |s|;
    assert (s + q)[..k] == s && (t + q2)[..k] == t[..k] && (s + q)[k..] == q && (t + q2)[k..] == t[k..] + q2;
    ValueOfShow(year);
    ValueOfShow(year2);
    ReadShown(number);
    ReadShown(number2);
    if k == |t| {
      assert t[..k] == t && t[k..] + q2 == q2;
    } else {
      assert q[0] == t[k];
      DigitFirst(number);
      NotEmpty(number2);
      NoLeadingZero(number);
    }
  }

  lemma NotEmpty(number: int)
    ensures ShowInt(number) != []
  {
  }

  lemma DigitFirst(number: int)
    requires '0' <= ShowInt(number)[0] <= '9'
    ensures number >= 0 && ShowInt(number) == Show(number)
  {
  }

  /** Equal texts have equal prefixes; with one year code they have one number, and year codes differ only where one runs into
      the other: never when both have four digits. */
  lemma NumbersDiffer(prefix: string, year: nat, number: int, prefix2: string, year2: nat, number2: int)
    requires Letters(prefix) && Letters(prefix2)
    requires VoucherNo(prefix, year, number) == VoucherNo(prefix2, year2, number2)
    ensures prefix == prefix2
    ensures if year == year2 then number == number2
            else RunsInto(Show(year), Show(year2)) || RunsInto(Show(year2), Show(year))
    ensures |Show(year)| == |Show(year2)| ==> year == year2 && number == number2
  {
    hide Show, ShowInt;
    var rest, rest2 := Show(year) + ShowInt(number), Show(year2) + ShowInt(number2);
    assert VoucherNo(prefix, year, number) == prefix + rest && VoucherNo(prefix2, year2, number2) == prefix2 + rest2;
    SamePrefix(prefix, rest, prefix2, rest2);
    if |Show(year)| <= |Show(year2)| {
      Overlap(year, number, year2, number2);
    } else {
      Overlap(year2, number2, year, number);
    }
  }

  /** Two year codes share a voucher number exactly when one of them runs into the other. */
  lemma YearsClashIff(prefix: string, year: nat, year2: nat)
    requires Letters(prefix) && year != year2
    ensures (exists a, b :: a > 0 && b > 0 && VoucherNo(prefix, year, a) == VoucherNo(prefix, year2, b)) <==>
            RunsInto(Show(year), Show(year2)) || RunsInto(Show(year2), Show(year))
  {
    hide Show, VoucherNo, RunsInto;
    if a, b :| a > 0 && b > 0 && VoucherNo(prefix, year, a) == VoucherNo(prefix, year2, b) {
      NumbersDiffer(prefix, year, a, prefix, year2, b);
    }
    if RunsInto(Show(year), Show(year2)) {
      var a, b := Clash(prefix, year, year2);
    }
    if RunsInto(Show(year2), Show(year)) {
      var b, a := Clash(prefix, year2, year);
    }
  }

  lemma Clash(prefix: string, year: nat, year2: nat) returns (a: int, b: int)
    requires RunsInto(Show(year), Show(year2))
    ensures a > 0 && b > 0 && VoucherNo(prefix, year, a) == VoucherNo(prefix, year2, b)
  {
    hide Show, Value;
    var s, t := Show(year), Show(year2);
    var rest := t[|s|..] + "5";
    assert rest[0] == t[|s|];
    ShowOfValue(rest);
    Five();
    a, b := Value(rest), 5;
    assert s + rest == t + "5";
    hide RunsInto, ShowInt;
    assert prefix + s + rest == prefix + (s + rest);
    assert prefix + t + "5" == prefix + (t + "5");
  }

  lemma Five()
    ensures ShowInt(5) == "5"
  {
  }

  /** So 2000-01 shares numbers with 2011-12: its code is the single digit 1, theirs is 1112. */
  lemma ShortYearsClash(prefix: string)
    requires Letters(prefix)
    ensures exists a, b :: a > 0 && b > 0
              && VoucherNo(prefix, YearCode(2000, 2001), a) == VoucherNo(prefix, YearCode(2011, 2012), b)
  {
    assert YearCode(2000, 2001) == 1 && YearCode(2011, 2012) == 1112;
    assert Show(11) == "11";
    assert Show(111) == "111";
    assert RunsInto(Show(1), Show(1112));
    YearsClashIff(prefix, 1, 1112);
  }

  // ---- the counters --------------------------------------------------------------------------------------------

  /** Dates are day numbers; the calendar years of both ends are kept beside them. */
  datatype Year = Year(from: int, to: int, start: nat, end: nat)

  datatype VoucherType = VoucherType(auto: bool, sequence: Option<int>, prefix: Option<string>)

  /** Branch, financial year, sequence. */
  datatype Key = Key(branch: int, year: int, sequence: int)

  /** A header row. Its financial year and the sequence its type had are kept to state what its number means; `counter` is the
      counter that numbered it, unless the caller did. */
  datatype Voucher = Voucher(branch: int, fyear: int, kind: int, sequence: Option<int>, counter: Option<Key>, number: int,
                             prefix: string, year: nat, no: string)

  function PrefixOf(branch: string, kind: VoucherType): string { branch + if kind.prefix.Some? then kind.prefix.value else "" }

  /** The one financial year a date lies in; the lookup fails when there is none or are two. */
  ghost predicate TheYear(years: map<int, Year>, date: int, y: int) {
    && y in years && years[y].from <= date <= years[y].to
    && forall z :: z in years && years[z].from <= date <= years[z].to ==> z == y
  }

  function CountOf(counters: map<Key, int>, key: Key): int { if key in counters then counters[key] else 0 }

  function History(issued: map<Key, seq<int>>, key: Key): seq<int> { if key in issued then issued[key] else [] }

  /** The history of a counter lists the vouchers it has numbered, gone or not: number `i + 1` went to entry `i`, the counter
      stands at the length, and no voucher is listed twice. */
  ghost predicate Gapless(next: int, counters: map<Key, int>, vouchers: map<int, Voucher>, issued: map<Key, seq<int>>) {
    && (forall key :: CountOf(counters, key) == |History(issued, key)|)
    && (forall key, i :: 0 <= i < |History(issued, key)| ==> History(issued, key)[i] < next)
    && (forall key, i, j :: 0 <= i < j < |History(issued, key)| ==> History(issued, key)[i] != History(issued, key)[j])
    && (forall v :: v in vouchers ==> v < next)
    && (forall v :: v in vouchers && vouchers[v].counter.Some? ==>
          var h := History(issued, vouchers[v].counter.value);
          1 <= vouchers[v].number <= |h| && h[vouchers[v].number - 1] == v)
    && (forall key, i :: 0 <= i < |History(issued, key)| && History(issued, key)[i] in vouchers ==>
          vouchers[History(issued, key)[i]].counter == Some(key) && vouchers[History(issued, key)[i]].number == i + 1)
  }

  /** Each voucher shows its own parts. */
  ghost predicate Shown(vouchers: map<int, Voucher>) {
    forall v :: v in vouchers ==>
      vouchers[v].no == VoucherNo(vouchers[v].prefix, vouchers[v].year, vouchers[v].number) && Letters(vouchers[v].prefix)
  }

  /** A numbered voucher counts in its branch and year, under its type's sequence or, without one, its type. */
  ghost predicate Keyed(vouchers: map<int, Voucher>) {
    forall v :: v in vouchers && vouchers[v].counter.Some? ==>
      vouchers[v].counter == Some(Key(vouchers[v].branch, vouchers[v].fyear,
                                      if vouchers[v].sequence.Some? then vouchers[v].sequence.value else vouchers[v].kind))
  }

  lemma OneYear(years: map<int, Year>, date: int, y: int, found: set<int>)
    requires found == set z | z in years && years[z].from <= date && date <= years[z].to
    ensures TheYear(years, date, y) ==> found == {y}
  {
    if TheYear(years, date, y) {
      forall z ensures z in found <==> z == y {}
    }
  }

  ghost predicate InOneYear(years: map<int, Year>, date: int) { exists y :: TheYear(years, date, y) }

  /** Do two vouchers share their numbers? Types share them that have one sequence, or of which one is the other's sequence. */
  predicate Shares(v: Voucher, w: Voucher) {
    && v.branch == w.branch && v.fyear == w.fyear
    && match (v.sequence, w.sequence)
       case (Some(s), Some(t)) => s == t
       case (Some(s), None) => s == w.kind
       case (None, Some(t)) => t == v.kind
       case (None, None) => v.kind == w.kind
  }

  lemma SharesIff(vouchers: map<int, Voucher>, v: int, w: int)
    requires Keyed(vouchers) && v in vouchers && w in vouchers
    requires vouchers[v].counter.Some? && vouchers[w].counter.Some?
    ensures Shares(vouchers[v], vouchers[w]) <==> vouchers[v].counter == vouchers[w].counter
  {
  }

  lemma Numbered(next: int, counters: map<Key, int>, vouchers: map<int, Voucher>, issued: map<Key, seq<int>>, key: Key,
                 row: Voucher)
    requires Gapless(next, counters, vouchers, issued)
    requires row.counter == Some(key) && row.number == CountOf(counters, key) + 1
    ensures Gapless(next + 1, counters[key := row.number], vouchers[next := row], issued[key := History(issued, key) + [next]])
  {
    var now, counts := issued[key := History(issued, key) + [next]], counters[key := row.number];
    forall k ensures k != key ==> History(now, k) == History(issued, k) && CountOf(counts, k) == CountOf(counters, k) {}
    assert History(now, key) == History(issued, key) + [next] && CountOf(counts, key) == row.number;
    hide History, CountOf;
    Listed(next, vouchers, issued, now, key, row);
    forall k, i, j | 0 <= i < j < |History(now, k)| ensures History(now, k)[i] != History(now, k)[j] {
      if k == key {
        assert History(now, k)[i] == History(issued, k)[i];
      }
    }
  }

  /** One entry more: each voucher stands where its number says, and each entry that is left has its number. */
  lemma Listed(next: int, vouchers: map<int, Voucher>, was: map<Key, seq<int>>, now: map<Key, seq<int>>, key: Key, row: Voucher)
    requires forall v :: v in vouchers ==> v < next
    requires forall k, i :: 0 <= i < |History(was, k)| ==> History(was, k)[i] < next
    requires forall v :: v in vouchers && vouchers[v].counter.Some? ==>
               var h := History(was, vouchers[v].counter.value);
               1 <= vouchers[v].number <= |h| && h[vouchers[v].number - 1] == v
    requires forall k, i :: 0 <= i < |History(was, k)| && History(was, k)[i] in vouchers ==>
               vouchers[History(was, k)[i]].counter == Some(k) && vouchers[History(was, k)[i]].number == i + 1
    requires forall k :: k != key ==> History(now, k) == History(was, k)
    requires History(now, key) == History(was, key) + [next]
    requires row.counter == Some(key) && row.number == |History(was, key)| + 1
    ensures var more := vouchers[next := row];
      && (forall v :: v in more && more[v].counter.Some? ==>
            var h := History(now, more[v].counter.value);
            1 <= more[v].number <= |h| && h[more[v].number - 1] == v)
      && (forall k, i :: 0 <= i < |History(now, k)| && History(now, k)[i] in more ==>
            more[History(now, k)[i]].counter == Some(k) && more[History(now, k)[i]].number == i + 1)
  {
    hide History;
    var more := vouchers[next := row];
    forall v | v in more && more[v].counter.Some?
      ensures var h := History(now, more[v].counter.value); 1 <= more[v].number <= |h| && h[more[v].number - 1] == v
    {
      assert v != next ==> more[v] == vouchers[v];
    }
    forall k, i | 0 <= i < |History(now, k)| && History(now, k)[i] in more
      ensures more[History(now, k)[i]].counter == Some(k) && more[History(now, k)[i]].number == i + 1
    {
      if i < |History(was, k)| {
        assert History(now, k)[i] == History(was, k)[i] != next;
      }
    }
  }

  lemma Unnumbered(next: int, counters: map<Key, int>, vouchers: map<int, Voucher>, issued: map<Key, seq<int>>, row: Voucher)
    requires Gapless(next, counters, vouchers, issued) && row.counter == None
    ensures Gapless(next + 1, counters, vouchers[next := row], issued)
  {
  }

  lemma NextIsNew(next: int, counters: map<Key, int>, vouchers: map<int, Voucher>, issued: map<Key, seq<int>>)
    requires Gapless(next, counters, vouchers, issued)
    ensures next !in vouchers
  {
  }

  lemma PrefixLetters(branch: string, t: VoucherType)
    requires Letters(branch) && (t.prefix.Some? ==> Letters(t.prefix.value))
    ensures Letters(PrefixOf(branch, t))
  {
  }

  lemma Later(next: int, counters: map<Key, int>, vouchers: map<int, Voucher>, issued: map<Key, seq<int>>, row: Voucher, key: Key)
    requires Gapless(next, counters, vouchers, issued) && Keyed(vouchers[next := row]) && row.counter == Some(key)
    requires row.number == CountOf(counters, key) + 1
    ensures forall w :: w in vouchers && vouchers[w].counter.Some? && Shares(row, vouchers[w]) ==> vouchers[w].number < row.number
  {
    assert CountOf(counters, key) == |History(issued, key)|;
    forall w | w in vouchers && vouchers[w].counter.Some? && Shares(row, vouchers[w]) ensures vouchers[w].number < row.number {
      assert w < next && vouchers[next := row][w] == vouchers[w];
      SharesIff(vouchers[next := row], next, w);
    }
  }

  /** Live numbered vouchers that share their numbers have different ones. */
  lemma NoRepeat(next: int, counters: map<Key, int>, vouchers: map<int, Voucher>, issued: map<Key, seq<int>>, v: int, w: int)
    requires Gapless(next, counters, vouchers, issued) && Keyed(vouchers)
    requires v in vouchers && w in vouchers && v != w && vouchers[v].counter.Some? && vouchers[w].counter.Some?
    requires Shares(vouchers[v], vouchers[w])
    ensures vouchers[v].number != vouchers[w].number
  {
    SharesIff(vouchers, v, w);
    assert History(issued, vouchers[v].counter.value)[vouchers[v].number - 1] == v;
    assert History(issued, vouchers[w].counter.value)[vouchers[w].number - 1] == w;
  }

  class NumberDb {
    var branches: map<int, string>
    var types: map<int, VoucherType>
    var years: map<int, Year>
    var next: int
    var counters: map<Key, int>
    var vouchers: map<int, Voucher>
    ghost var issued: map<Key, seq<int>>

    ghost predicate Valid()
      reads this
    {
      && Gapless(next, counters, vouchers, issued)
      && Shown(vouchers) && Keyed(vouchers)
      && (forall b :: b in branches ==> Letters(branches[b]))
      && (forall t :: t in types && types[t].prefix.Some? ==> Letters(types[t].prefix.value))
    }

    constructor ()
      ensures Valid() && counters == map[] && vouchers == map[]
    {
      branches, types, years, next, counters, vouchers, issued := map[], map[], map[], 1, map[], map[], map[];
    }

    /** Branches, types and years may be edited at any time; prefixes are capital letters. */
    method Configure(branches: map<int, string>, types: map<int, VoucherType>, years: map<int, Year>)
      requires Valid() && forall b :: b in branches ==> Letters(branches[b])
      requires forall t :: t in types && types[t].prefix.Some? ==> Letters(types[t].prefix.value)
      modifies this`branches, this`types, this`years
      ensures Valid() && this.branches == branches && this.types == types && this.years == years
    {
      this.branches, this.types, this.years := branches, types, years;
    }

    /** The lookup of the financial year, as a scalar subquery: more than one row is an error. */
    method FindYear(date: int) returns (y: Option<int>)
      ensures y.Some? <==> InOneYear(years, date)
      ensures y.Some? ==> TheYear(years, date, y.value)
    {
      var found := set z | z in years && years[z].from <= date && date <= years[z].to;
      if |found| != 1 {
        NotOne(found);
        forall z ensures !TheYear(years, date, z) {
          OneYear(years, date, z, found);
        }
        return None;
      }
      var z := AnyOf(found);
      OnlyOne(found, z);
      forall x | x in years && years[x].from <= date <= years[x].to ensures x == z {
        assert x in found;
      }
      assert TheYear(years, date, z);
      y := Some(z);
    }

    /** `create_voucher`: numbers the header row, then does the rest; when the rest fails the number is taken back too. */
    method Create(date: int, branch: int, kind: int, given: Option<int>, rest: bool) returns (ok: bool, v: int)
      requires Valid()
      modifies this`next, this`counters, this`vouchers, this`issued
      ensures Valid()
      ensures ok <==> && rest && kind in types && (types[kind].auto || given.Some?) && branch in branches
                      && InOneYear(years, date)
      ensures !ok ==> next == old(next) && counters == old(counters) && vouchers == old(vouchers) && issued == old(issued)
      ensures ok ==> && v !in old(vouchers) && vouchers.Keys == old(vouchers).Keys + {v}
                     && (forall w :: w in old(vouchers) ==> vouchers[w] == old(vouchers)[w])
                     && vouchers[v].branch == branch && vouchers[v].kind == kind && vouchers[v].sequence == types[kind].sequence
                     && vouchers[v].prefix == branches[branch] + (if types[kind].prefix.Some? then types[kind].prefix.value else "")
                     && TheYear(years, date, vouchers[v].fyear)
                     && vouchers[v].year == YearCode(years[vouchers[v].fyear].start, years[vouchers[v].fyear].end)
      ensures ok && types[kind].auto ==>
                var key := Key(branch, vouchers[v].fyear, if types[kind].sequence.Some? then types[kind].sequence.value else kind);
                && vouchers[v].counter == Some(key) && vouchers[v].number == CountOf(old(counters), key) + 1
                && counters == old(counters)[key := vouchers[v].number]
                && issued == old(issued)[key := History(old(issued), key) + [v]]
      ensures ok && !types[kind].auto ==> && vouchers[v].counter == None && vouchers[v].number == given.value
                                          && counters == old(counters) && issued == old(issued)
      ensures ok && types[kind].auto ==> forall w :: w in old(vouchers) && vouchers[w].counter.Some? && Shares(vouchers[v], vouchers[w]) ==>
                vouchers[w].number < vouchers[v].number
    {
      hide Gapless, Show, ShowInt, Letters, YearCode, Shares, History, TheYear, InOneYear, CountOf, VoucherNo;
      v := next;
      if kind !in types || (!types[kind].auto && given == None) || branch !in branches {
        return false, v;
      }
      var found := FindYear(date);
      if found == None || !rest {
        return false, v;
      }
      var y := found.value;
      ok := true;
      assert TheYear(years, date, y);
      NextIsNew(next, counters, vouchers, issued);
      var t := types[kind];
      PrefixLetters(branches[branch], t);
      var prefix, year := PrefixOf(branches[branch], t), YearCode(years[y].start, years[y].end);
      if t.auto {
        var key := Key(branch, y, kind);
        if t.sequence.Some? {
          key := key.(sequence := t.sequence.value);
        }
        var number := CountOf(counters, key) + 1;
        var row := Voucher(branch, y, kind, t.sequence, Some(key), number, prefix, year, VoucherNo(prefix, year, number));
        Numbered(next, counters, vouchers, issued, key, row);
        Later(next, counters, vouchers, issued, row, key);
        issued := issued[key := History(issued, key) + [v]];
        counters, vouchers := counters[key := number], vouchers[v := row];
      } else {
        var row := Voucher(branch, y, kind, t.sequence, None, given.value, prefix, year, VoucherNo(prefix, year, given.value));
        Unnumbered(next, counters, vouchers, issued, row);
        vouchers := vouchers[v := row];
      }
      next := next + 1;
    }

    /** Deleting a voucher frees no number. */
    method Delete(v: int)
      requires Valid()
      modifies this`vouchers
      ensures Valid() && vouchers == old(vouchers) - {v}
    {
      vouchers := vouchers - {v};
    }
  }

  lemma OnlyOne(s: set<int>, y: int)
    requires |s| == 1 && y in s
    ensures s == {y}
  {
    assert |s - {y}| == 0;
    forall x | x in s ensures x == y {
      assert x != y ==> x in s - {y};
    }
  }

  lemma NotOne(s: set<int>)
    ensures |s| != 1 ==> forall y :: s != {y}
  {
  }
}
