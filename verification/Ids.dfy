/** Generated ids: the memory store scans every id for the largest number, Postgres
    takes the lexicographically last id. */
module Ids {
  import opened Tables
  import Text

  const MAX_INT := 0x7FFF_FFFF_FFFF_FFFF

  // --- decimal numerals ---

  predicate IsDigit(c: char) { '0' <= c <= '9' }

  predicate AllDigits(s: string) { forall i :: 0 <= i < |s| ==> IsDigit(s[i]) }

  function DigitOf(c: char): nat
    requires IsDigit(c)
  {
    c as int - '0' as int
  }

  function Numeral(d: nat): char
    requires d < 10
    ensures IsDigit(Numeral(d)) && DigitOf(Numeral(d)) == d
  {
    ('0' as int + d) as char
  }

  function Pow10(n: nat): nat
    ensures Pow10(n) >= 1
  {
    if n == 0 then 1 else 10 * Pow10(n - 1)
  }

  /** The value of a digit string, most significant digit first. */
  function Value(s: string): nat
    requires AllDigits(s)
  {
    if s == "" then 0 else DigitOf(s[0]) * Pow10(|s| - 1) + Value(s[1..])
  }

  /** n in decimal without leading zeros. */
  function Decimal(n: nat): string {
    if n < 10 then [Numeral(n)] else Decimal(n / 10) + [Numeral(n % 10)]
  }

  function Zeros(n: nat): string {
    seq(n, i => '0')
  }

  /** Zero-padded decimal of at least the given width. */
  function Padded(width: nat, n: nat): string {
    var d := Decimal(n);
    if |d| >= width then d else Zeros(width - |d|) + d
  }

  /** A signed decimal in the 64-bit range; anything else does not parse. */
  function Atoi(s: string): Option<int> {
    var signed := s != "" && (s[0] == '+' || s[0] == '-');
    var digits := if signed then s[1..] else s;
    if digits == "" || !AllDigits(digits) then None
    else
      var v: int := Value(digits);
      if s[0] == '-' then (if v <= MAX_INT + 1 then Some(-v) else None)
      else if v <= MAX_INT then Some(v) else None
  }

  lemma DigitBound(d: nat, p: nat)
    requires d <= 9
    ensures d * p + p <= 10 * p
  {
  }

  lemma {:induction false} ValueBound(s: string)
    requires AllDigits(s)
    ensures Value(s) < Pow10(|s|)
  {
    if s != "" {
      ValueBound(s[1..]);
      DigitBound(DigitOf(s[0]), Pow10(|s| - 1));
    }
  }

  lemma {:induction false} ValueSnoc(s: string, c: char)
    requires AllDigits(s) && IsDigit(c)
    ensures AllDigits(s + [c]) && Value(s + [c]) == 10 * Value(s) + DigitOf(c)
  {
    if s == "" {
      assert s + [c] == [c] && [c][1..] == "";
    } else {
      ValueSnoc(s[1..], c);
      assert (s + [c])[1..] == s[1..] + [c];
      ShiftDigit(DigitOf(s[0]), Pow10(|s| - 1), Value(s[1..]), DigitOf(c));
    }
  }

  lemma ShiftDigit(d: nat, p: nat, rest: nat, last: nat)
    ensures d * (10 * p) + (10 * rest + last) == 10 * (d * p + rest) + last
  {
    assert d * (10 * p) == 10 * (d * p);
  }

  lemma {:induction false} DecimalValue(n: nat)
    ensures AllDigits(Decimal(n)) && Decimal(n) != "" && Value(Decimal(n)) == n
  {
    if n < 10 {
      assert [Numeral(n)][1..] == "";
    } else {
      DecimalValue(n / 10);
      ValueSnoc(Decimal(n / 10), Numeral(n % 10));
    }
  }

  lemma {:induction false} ValueZeros(k: nat, s: string)
    requires AllDigits(s)
    ensures AllDigits(Zeros(k) + s) && Value(Zeros(k) + s) == Value(s)
  {
    if k == 0 {
      assert Zeros(0) + s == s;
    } else {
      ValueZeros(k - 1, s);
      assert (Zeros(k) + s)[1..] == Zeros(k - 1) + s;
    }
  }

  /** Printing and parsing are inverse on the numbers an id can carry. */
  lemma PaddedParses(width: nat, n: nat)
    requires n <= MAX_INT
    ensures AllDigits(Padded(width, n)) && Value(Padded(width, n)) == n && |Padded(width, n)| >= width
    ensures Atoi(Padded(width, n)) == Some(n)
  {
    DecimalValue(n);
    if |Decimal(n)| < width {
      ValueZeros(width - |Decimal(n)|, Decimal(n));
    }
    assert IsDigit(Padded(width, n)[0]);
  }

  // --- the memory store ---

  predicate Numbered(id: string, prefix: string) {
    Text.HasPrefix(id, prefix) && Atoi(id[|prefix|..]).Some?
  }

  /** The largest number any prefixed id carries, or zero. */
  ghost predicate IsMaxNumber(ids: set<string>, prefix: string, m: nat) {
    && m <= MAX_INT
    && (forall id :: id in ids && Numbered(id, prefix) ==> Atoi(id[|prefix|..]).value <= m)
    && (m > 0 ==> exists id :: id in ids && Numbered(id, prefix) && Atoi(id[|prefix|..]).value == m)
  }

  lemma {:induction false} MaxNumberExists(ids: set<string>, prefix: string) returns (m: nat)
    ensures IsMaxNumber(ids, prefix, m)
    decreases ids
  {
    if ids == {} {
      return 0;
    }
    var x :| x in ids;
    m := MaxNumberExists(ids - {x}, prefix);
    if Numbered(x, prefix) && Atoi(x[|prefix|..]).value > m {
      m := Atoi(x[|prefix|..]).value;
    }
  }

  lemma MaxNumberUnique(ids: set<string>, prefix: string, m: nat, n: nat)
    requires IsMaxNumber(ids, prefix, m) && IsMaxNumber(ids, prefix, n)
    ensures m == n
  {
  }

  ghost function MaxNumber(ids: set<string>, prefix: string): (m: nat)
    ensures IsMaxNumber(ids, prefix, m)
  {
    assert exists m: nat :: IsMaxNumber(ids, prefix, m) by { var m := MaxNumberExists(ids, prefix); }
    var m: nat :| IsMaxNumber(ids, prefix, m);
    m
  }

  /** The id the memory store generates next. */
  ghost function NextId(ids: set<string>, prefix: string, width: nat, stamp: string): string {
    var m := MaxNumber(ids, prefix);
    if m < MAX_INT then prefix + Padded(width, m + 1) else prefix + stamp
  }

  /** Scans the ids in whatever order the map yields them; the clock's stamp stands
      in once the largest number is the largest integer. */
  method NextIdByScan(ids: set<string>, prefix: string, width: nat, stamp: string) returns (id: string)
    ensures id == NextId(ids, prefix, width, stamp)
    ensures id in ids <==> MaxNumber(ids, prefix) == MAX_INT && prefix + stamp in ids
  {
    var maxN: nat := 0;
    var left := ids;
    while left != {}
      invariant left <= ids
      invariant IsMaxNumber(ids - left, prefix, maxN)
      decreases left
    {
      var x :| x in left;
      ghost var seen := ids - left;
      left := left - {x};
      assert ids - left == seen + {x};
      if !Text.HasPrefix(x, prefix) {
        continue;
      }
      var n := Atoi(x[|prefix|..]);
      if n.Some? && n.value > maxN {
        maxN := n.value;
        assert x in ids - left && Numbered(x, prefix);
      }
    }
    assert ids - left == ids;
    MaxNumberUnique(ids, prefix, maxN, MaxNumber(ids, prefix));
    ScanIsFresh(ids, prefix, width, maxN);
    if maxN == MAX_INT {
      return prefix + stamp;
    }
    return prefix + Padded(width, maxN + 1);
  }

  /** The next number's id is not among the ids, whatever ids there are. */
  lemma ScanIsFresh(ids: set<string>, prefix: string, width: nat, m: nat)
    requires IsMaxNumber(ids, prefix, m)
    ensures m < MAX_INT ==> prefix + Padded(width, m + 1) !in ids
  {
    if m < MAX_INT {
      PaddedParses(width, m + 1);
      var id := prefix + Padded(width, m + 1);
      assert id[|prefix|..] == Padded(width, m + 1) && id[..|prefix|] == prefix;
      assert Numbered(id, prefix);
    }
  }

  // --- Postgres ---

  /** Byte order, as the database sorts ids. */
  predicate LexLeq(a: string, b: string) {
    a == "" || (b != "" && (a[0] < b[0] || (a[0] == b[0] && LexLeq(a[1..], b[1..]))))
  }

  ghost predicate IsLast(ids: set<string>, prefix: string, last: Option<string>) {
    match last
    case None => forall id :: id in ids ==> !Text.HasPrefix(id, prefix)
    case Some(x) => x in ids && Text.HasPrefix(x, prefix)
                    && forall id :: id in ids && Text.HasPrefix(id, prefix) ==> LexLeq(id, x)
  }

  /** Zero-padded signed decimal: the sign takes one place of the width. */
  function PaddedInt(width: nat, n: int): string {
    if n < 0 then "-" + Padded(if width > 0 then width - 1 else 0, -n) else Padded(width, n)
  }

  /** 64-bit successor. */
  function Successor(n: int): int {
    if n == MAX_INT then -MAX_INT - 1 else n + 1
  }

  /** The next id computed from the one row the query returns. */
  function NextIdFromLast(last: Option<string>, prefix: string, width: nat): string {
    var n := if last.Some? && Text.HasPrefix(last.value, prefix) then Atoi(last.value[|prefix|..]) else None;
    prefix + PaddedInt(width, Successor(if n.Some? then n.value else 0))
  }

  lemma {:induction false} LexCommonPrefix(p: string, a: string, b: string)
    ensures LexLeq(p + a, p + b) <==> LexLeq(a, b)
  {
    if p == "" {
      assert p + a == a && p + b == b;
    } else {
      assert (p + a)[1..] == p[1..] + a && (p + b)[1..] == p[1..] + b;
      LexCommonPrefix(p[1..], a, b);
    }
  }

  lemma {:induction false} OneMoreMultiple(x: nat, y: nat, p: nat)
    requires x < y
    ensures x * p + p <= y * p
    decreases y
  {
    assert y * p == (y - 1) * p + p;
    if x < y - 1 {
      OneMoreMultiple(x, y - 1, p);
    }
  }

  /** On digit strings of one length, byte order is numeric order. */
  lemma {:induction false} LexIsNumeric(a: string, b: string)
    requires AllDigits(a) && AllDigits(b) && |a| == |b|
    ensures LexLeq(a, b) <==> Value(a) <= Value(b)
  {
    if a != "" {
      LexIsNumeric(a[1..], b[1..]);
      FirstDigitDecides(DigitOf(a[0]), DigitOf(b[0]), Pow10(|a| - 1), a[1..], b[1..]);
    }
  }

  lemma FirstDigitDecides(x: nat, y: nat, p: nat, a: string, b: string)
    requires AllDigits(a) && AllDigits(b) && |a| == |b| && p == Pow10(|a|)
    ensures x < y ==> x * p + Value(a) < y * p + Value(b)
    ensures y < x ==> y * p + Value(b) < x * p + Value(a)
  {
    ValueBound(a);
    ValueBound(b);
    if x < y {
      OneMoreMultiple(x, y, p);
    } else if y < x {
      OneMoreMultiple(y, x, p);
    }
  }

  ghost predicate FixedWidth(ids: set<string>, prefix: string, width: nat) {
    forall id :: id in ids && Text.HasPrefix(id, prefix) ==> |id| == |prefix| + width && AllDigits(id[|prefix|..])
  }

  lemma ShortNumeralParses(s: string)
    requires 0 < |s| <= 18 && AllDigits(s)
    ensures Value(s) < MAX_INT && Atoi(s) == Some(Value(s))
  {
    assert IsDigit(s[0]);
    ValueBound(s);
    Pow10Monotone(|s|, 18);
    PowersOfTen();
  }

  lemma PrefixedOrder(prefix: string, id: string, x: string)
    requires Text.HasPrefix(id, prefix) && Text.HasPrefix(x, prefix) && |id| == |x|
    requires AllDigits(id[|prefix|..]) && AllDigits(x[|prefix|..])
    ensures LexLeq(id, x) <==> Value(id[|prefix|..]) <= Value(x[|prefix|..])
  {
    assert id == prefix + id[|prefix|..] && x == prefix + x[|prefix|..];
    LexCommonPrefix(prefix, id[|prefix|..], x[|prefix|..]);
    LexIsNumeric(id[|prefix|..], x[|prefix|..]);
  }

  /** When every prefixed id has exactly the padded number of digits, the last id
      in byte order yields the same next id as the full scan. */
  lemma LastAgreesWithScan(ids: set<string>, prefix: string, width: nat, last: Option<string>, m: nat)
    requires 0 < width <= 18 && FixedWidth(ids, prefix, width)
    requires IsLast(ids, prefix, last) && IsMaxNumber(ids, prefix, m)
    ensures m < MAX_INT && NextIdFromLast(last, prefix, width) == prefix + Padded(width, m + 1)
  {
    match last
    case None => NoneNumbered(ids, prefix, width, m);
    case Some(x) => LastNumbered(ids, prefix, width, x, m);
  }

  lemma NoneNumbered(ids: set<string>, prefix: string, width: nat, m: nat)
    requires IsLast(ids, prefix, None) && IsMaxNumber(ids, prefix, m) && width > 0
    ensures m == 0 && NextIdFromLast(None, prefix, width) == prefix + Padded(width, 1)
  {
    assert forall id :: id in ids ==> !Numbered(id, prefix);
  }

  lemma LastNumbered(ids: set<string>, prefix: string, width: nat, x: string, m: nat)
    requires 0 < width <= 18 && FixedWidth(ids, prefix, width)
    requires IsLast(ids, prefix, Some(x)) && IsMaxNumber(ids, prefix, m)
    ensures m < MAX_INT && NextIdFromLast(Some(x), prefix, width) == prefix + Padded(width, m + 1)
  {
    assert |x| == |prefix| + width && AllDigits(x[|prefix|..]);
    MaxIsLast(ids, prefix, width, x, m);
    NextAfter(x, prefix, width);
  }

  lemma NextAfter(x: string, prefix: string, width: nat)
    requires Text.HasPrefix(x, prefix) && 0 < |x| - |prefix| <= 18 && AllDigits(x[|prefix|..])
    ensures Value(x[|prefix|..]) < MAX_INT
    ensures NextIdFromLast(Some(x), prefix, width) == prefix + Padded(width, Value(x[|prefix|..]) + 1)
  {
    ShortNumeralParses(x[|prefix|..]);
  }

  /** The largest number is the last id's. */
  lemma MaxIsLast(ids: set<string>, prefix: string, width: nat, x: string, m: nat)
    requires 0 < width <= 18 && FixedWidth(ids, prefix, width)
    requires IsLast(ids, prefix, Some(x)) && IsMaxNumber(ids, prefix, m)
    ensures m == Value(x[|prefix|..])
  {
    ShortNumeralParses(x[|prefix|..]);
    assert Numbered(x, prefix);
    if m > 0 {
      var id :| id in ids && Numbered(id, prefix) && Atoi(id[|prefix|..]).value == m;
      ShortNumeralParses(id[|prefix|..]);
      PrefixedOrder(prefix, id, x);
    }
  }

  lemma {:induction false} Pow10Monotone(a: nat, b: nat)
    requires a <= b
    ensures Pow10(a) <= Pow10(b)
    decreases b - a
  {
    if a < b {
      Pow10Monotone(a + 1, b);
    }
  }

  lemma PowersOfTen()
    ensures Pow10(18) == 1_000_000_000_000_000_000
  {
    assert Pow10(6) == 1_000_000;
    assert Pow10(12) == 1_000_000_000_000;
  }

  // --- where the two part ways ---

  function Nines(n: nat): string {
    seq(n, i => '9')
  }

  lemma {:induction false} NinesAreLast(s: string)
    requires AllDigits(s)
    ensures LexLeq(s, Nines(|s|))
    ensures Value(Nines(|s|)) + 1 == Pow10(|s|)
  {
    if s != "" {
      NinesAreLast(s[1..]);
      assert Nines(|s|)[1..] == Nines(|s| - 1);
    }
  }

  /** Once the numbers have outgrown the width - all nines and its successor both
      in use - the id Postgres generates is already taken. */
  lemma LastCollidesAfterRollover(ids: set<string>, prefix: string, width: nat, last: Option<string>)
    requires 0 < width <= 18 && IsLast(ids, prefix, last)
    requires prefix + Nines(width) in ids && prefix + Padded(width, Pow10(width)) in ids
    requires forall id :: id in ids && Text.HasPrefix(id, prefix) ==>
               id == prefix + Padded(width, Pow10(width)) || (|id| == |prefix| + width && AllDigits(id[|prefix|..]))
    ensures NextIdFromLast(last, prefix, width) in ids
  {
    var nines := prefix + Nines(width);
    assert nines[..|prefix|] == prefix && nines[|prefix|..] == Nines(width);
    var x := last.value;
    LastIsNotTheSuccessor(prefix, width, x);
    NinesWin(prefix, width, x);
    NextAfter(x, prefix, width);
  }

  lemma NinesWin(prefix: string, width: nat, x: string)
    requires width > 0 && Text.HasPrefix(x, prefix) && |x| == |prefix| + width && AllDigits(x[|prefix|..])
    requires LexLeq(prefix + Nines(width), x)
    ensures Value(x[|prefix|..]) + 1 == Pow10(width)
  {
    var nines := prefix + Nines(width);
    assert nines[..|prefix|] == prefix && nines[|prefix|..] == Nines(width);
    PrefixedOrder(prefix, nines, x);
    NinesAreLast(Nines(width));
    ValueBound(x[|prefix|..]);
  }

  /** All nines sort after the successor, which begins with a one. */
  lemma LastIsNotTheSuccessor(prefix: string, width: nat, x: string)
    requires width > 0 && LexLeq(prefix + Nines(width), x)
    ensures x != prefix + Padded(width, Pow10(width))
  {
    if x == prefix + Padded(width, Pow10(width)) {
      LexCommonPrefix(prefix, Nines(width), Padded(width, Pow10(width)));
      RolloverStartsWithOne(width);
      assert false;
    }
  }

  lemma {:induction false} DecimalOfPower(n: nat)
    ensures Decimal(Pow10(n)) == "1" + Zeros(n)
  {
    if n == 0 {
      assert "1" + Zeros(0) == "1";
    } else {
      DecimalOfPower(n - 1);
      assert Pow10(n) / 10 == Pow10(n - 1) && Pow10(n) % 10 == 0;
      assert Zeros(n) == Zeros(n - 1) + "0";
    }
  }

  lemma RolloverStartsWithOne(width: nat)
    requires width > 0
    ensures !LexLeq(Nines(width), Padded(width, Pow10(width)))
  {
    DecimalOfPower(width);
    assert Padded(width, Pow10(width))[0] == '1' && Nines(width)[0] == '9';
  }

  // --- a collection of generated ids only ---

  /** The ids after n creates that all asked for one. */
  ghost function Generated(prefix: string, width: nat, n: nat): set<string> {
    set k: nat | 1 <= k <= n :: prefix + Padded(width, k)
  }

  lemma {:induction false} DecimalLength(n: nat, w: nat)
    requires w > 0 && n < Pow10(w)
    ensures |Decimal(n)| <= w
  {
    if n >= 10 {
      assert Pow10(1) == 10 * Pow10(0) && w > 1;
      DecimalLength(n / 10, w - 1);
    }
  }

  lemma PaddedLength(width: nat, n: nat)
    requires width > 0 && n < Pow10(width)
    ensures |Padded(width, n)| == width
  {
    DecimalLength(n, width);
  }

  lemma {:induction false} LexAntisymmetric(a: string, b: string)
    requires LexLeq(a, b) && LexLeq(b, a)
    ensures a == b
  {
    if a != "" && b != "" {
      LexAntisymmetric(a[1..], b[1..]);
      assert a == [a[0]] + a[1..] && b == [b[0]] + b[1..];
    }
  }

  lemma NinesArePadded(width: nat)
    requires 0 < width <= 18
    ensures Nines(width) == Padded(width, Pow10(width) - 1)
  {
    var p := Padded(width, Pow10(width) - 1);
    Pow10Monotone(width, 18);
    PowersOfTen();
    PaddedLength(width, Pow10(width) - 1);
    PaddedParses(width, Pow10(width) - 1);
    NinesAreLast(p);
    LexIsNumeric(Nines(width), p);
    LexAntisymmetric(Nines(width), p);
  }

  lemma GeneratedParses(prefix: string, width: nat, k: nat)
    requires 0 < width <= 18 && k <= Pow10(width)
    ensures k < MAX_INT
    ensures var id := prefix + Padded(width, k);
            && Text.HasPrefix(id, prefix) && id[|prefix|..] == Padded(width, k)
            && AllDigits(Padded(width, k)) && Atoi(Padded(width, k)) == Some(k)
            && (k < Pow10(width) ==> |id| == |prefix| + width)
  {
    Pow10Monotone(width, 18);
    PowersOfTen();
    PaddedParses(width, k);
    if k < Pow10(width) {
      PaddedLength(width, k);
    }
  }

  lemma GeneratedMax(prefix: string, width: nat, n: nat)
    requires 0 < width <= 18 && n <= Pow10(width)
    ensures IsMaxNumber(Generated(prefix, width, n), prefix, n)
    ensures n < Pow10(width) ==> FixedWidth(Generated(prefix, width, n), prefix, width)
  {
    forall id | id in Generated(prefix, width, n)
      ensures Atoi(id[|prefix|..]).Some? && Atoi(id[|prefix|..]).value <= n && AllDigits(id[|prefix|..])
      ensures n < Pow10(width) ==> |id| == |prefix| + width
    {
      var k: nat :| 1 <= k <= n && id == prefix + Padded(width, k);
      GeneratedParses(prefix, width, k);
    }
    GeneratedParses(prefix, width, n);
    if n > 0 {
      assert prefix + Padded(width, n) in Generated(prefix, width, n);
    }
  }

  lemma GeneratedHas(prefix: string, width: nat, n: nat, k: nat)
    requires 1 <= k <= n
    ensures prefix + Padded(width, k) in Generated(prefix, width, n)
  {
  }

  /** At the rollover every generated id but the last has the padded length. */
  lemma GeneratedShape(prefix: string, width: nat, n: nat, id: string)
    requires 0 < width <= 18 && n == Pow10(width) && id in Generated(prefix, width, n)
    ensures id == prefix + Padded(width, n) || (|id| == |prefix| + width && AllDigits(id[|prefix|..]))
  {
    var k: nat :| 1 <= k <= n && id == prefix + Padded(width, k);
    GeneratedParses(prefix, width, k);
  }

  lemma GeneratedAtRollover(prefix: string, width: nat, last: Option<string>)
    requires 0 < width <= 18 && IsLast(Generated(prefix, width, Pow10(width)), prefix, last)
    ensures NextIdFromLast(last, prefix, width) in Generated(prefix, width, Pow10(width))
  {
    var n := Pow10(width);
    var ids := Generated(prefix, width, n);
    assert Pow10(width) == 10 * Pow10(width - 1);
    NinesArePadded(width);
    GeneratedHas(prefix, width, n, n);
    GeneratedHas(prefix, width, n, n - 1);
    forall id | id in ids && Text.HasPrefix(id, prefix)
      ensures id == prefix + Padded(width, n) || (|id| == |prefix| + width && AllDigits(id[|prefix|..]))
    {
      GeneratedShape(prefix, width, n, id);
    }
    LastCollidesAfterRollover(ids, prefix, width, last);
  }

  /** With generated ids only, the id computed from the last row is the next one, and
      free, exactly until ten to the width ids exist; from then on it is taken, so
      every further create that asks for an id is refused. */
  lemma GeneratedUntilRollover(prefix: string, width: nat, n: nat, last: Option<string>)
    requires 0 < width <= 18 && n <= Pow10(width)
    requires IsLast(Generated(prefix, width, n), prefix, last)
    ensures NextIdFromLast(last, prefix, width) in Generated(prefix, width, n) <==> n == Pow10(width)
    ensures n < Pow10(width) ==> NextIdFromLast(last, prefix, width) == prefix + Padded(width, n + 1)
  {
    var ids := Generated(prefix, width, n);
    GeneratedMax(prefix, width, n);
    if n < Pow10(width) {
      LastAgreesWithScan(ids, prefix, width, last, n);
      ScanIsFresh(ids, prefix, width, n);
    } else {
      GeneratedAtRollover(prefix, width, last);
    }
  }
}
