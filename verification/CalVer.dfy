/** Calendar versions: crates/stonemite/calver.rs. */
module CalVers {
  import opened Foundations

  const MAX_DAILY_REVISION: nat := 99

  type U16 = x: int | 0 <= x < 0x1_0000
  type U8 = x: int | 0 <= x < 0x100

  datatype CalVer = CalVer(year: U16, month: U8, day: U8, revision: U8)

  predicate LeapYear(year: nat) { year % 4 == 0 && (year % 100 != 0 || year % 400 == 0) }

  function DaysInMonth(year: nat, month: nat): U8 {
    if month in {1, 3, 5, 7, 8, 10, 12} then 31
    else if month in {4, 6, 9, 11} then 30
    else if month == 2 then (if LeapYear(year) then 29 else 28)
    else 0
  }

  /** A version the calendar and the daily revision limit allow. */
  predicate Valid(v: CalVer) {
    1 <= v.year <= 9999 && 1 <= v.month <= 12 && 1 <= v.day <= DaysInMonth(v.year, v.month)
    && v.revision <= MAX_DAILY_REVISION
  }

  // ----- numerals -----

  function Pow10(n: nat): nat { if n == 0 then 1 else 10 * Pow10(n - 1) }

  predicate IsDigit(c: char) { '0' <= c <= '9' }
  predicate Digits(s: string) { forall i | 0 <= i < |s| :: IsDigit(s[i]) }

  function DigitValue(c: char): nat { if IsDigit(c) then (c - '0') as nat else 0 }

  function Value(s: string): nat {
    if s == "" then 0 else 10 * Value(s[..|s| - 1]) + DigitValue(s[|s| - 1])
  }

  /** Exactly `width` digits, zero-padded. */
  function Padded(n: nat, width: nat): string {
    if width == 0 then "" else Padded(n / 10, width - 1) + [Digit(n % 10)]
  }

  /** Rust's `{:0width}`. */
  function ZeroPadded(n: nat, width: nat): string { if n < Pow10(width) then Padded(n, width) else Decimal(n) }

  lemma DigitRoundTrip(d: nat)
    requires d < 10
    ensures IsDigit(Digit(d)) && DigitValue(Digit(d)) == d && (Digit(d) == '0' <==> d == 0)
  {}

  lemma {:induction false} PaddedValue(n: nat, width: nat)
    requires n < Pow10(width)
    ensures Digits(Padded(n, width)) && |Padded(n, width)| == width && Value(Padded(n, width)) == n
  {
    if width > 0 {
      PaddedValue(n / 10, width - 1);
      DigitRoundTrip(n % 10);
      var p := Padded(n, width);
      assert p[..|p| - 1] == Padded(n / 10, width - 1);
    }
  }

  lemma {:induction false} ValuePadded(s: string)
    requires Digits(s)
    ensures Value(s) < Pow10(|s|) && Padded(Value(s), |s|) == s
  {
    if s != "" {
      var front, d := s[..|s| - 1], DigitValue(s[|s| - 1]);
      ValuePadded(front);
      assert (10 * Value(front) + d) / 10 == Value(front) && (10 * Value(front) + d) % 10 == d;
      assert Digit(d) == s[|s| - 1];
      assert s == front + [s[|s| - 1]];
    }
  }

  lemma {:induction false} DecimalValue(n: nat)
    ensures Digits(Decimal(n)) && Decimal(n) != "" && Value(Decimal(n)) == n && (n > 0 ==> Decimal(n)[0] != '0')
  {
    DigitRoundTrip(n % 10);
    var s := Decimal(n);
    if n >= 10 {
      DecimalValue(n / 10);
      assert s[..|s| - 1] == Decimal(n / 10);
    } else {
      assert s[..0] == "";
    }
  }

  lemma {:induction false} ValueDecimal(s: string)
    requires Digits(s) && s != "" && s[0] != '0'
    ensures Value(s) > 0 && Decimal(Value(s)) == s
  {
    var front, d := s[..|s| - 1], DigitValue(s[|s| - 1]);
    assert s == front + [s[|s| - 1]] && Digit(d) == s[|s| - 1];
    if front == "" {
      assert Value(front) == 0;
    } else {
      assert front[0] == s[0];
      ValueDecimal(front);
      assert (10 * Value(front) + d) / 10 == Value(front) && (10 * Value(front) + d) % 10 == d;
    }
  }

  // ----- splitting at dots -----

  /** `split('.')`. */
  function Split(s: string): (parts: seq<string>)
    ensures |parts| >= 1
  {
    if s == "" then [""]
    else
      var rest := Split(s[1..]);
      if s[0] == '.' then [""] + rest else [[s[0]] + rest[0]] + rest[1..]
  }

  function Join(parts: seq<string>): string
    requires parts != []
  { if |parts| == 1 then parts[0] else parts[0] + "." + Join(parts[1..]) }

  lemma {:induction false} JoinSplit(s: string)
    ensures Join(Split(s)) == s
  {
    if s != "" {
      JoinSplit(s[1..]);
      JoinGrows(Split(s[1..]), s[0]);
      assert s == [s[0]] + s[1..];
    }
  }

  /** One more character in front: a new empty part before a dot, else a longer first part. */
  lemma JoinGrows(rest: seq<string>, c: char)
    requires rest != []
    ensures Join([""] + rest) == "." + Join(rest)
    ensures Join([[c] + rest[0]] + rest[1..]) == [c] + Join(rest)
  {
    hide Join;
    JoinUnfolds("", rest);
    if |rest| > 1 {
      JoinUnfolds([c] + rest[0], rest[1..]);
      JoinUnfolds(rest[0], rest[1..]);
      assert rest == [rest[0]] + rest[1..];
      var tail := Join(rest[1..]);
      assert [c] + rest[0] + "." + tail == [c] + (rest[0] + "." + tail);
    } else {
      assert [[c] + rest[0]] + rest[1..] == [[c] + rest[0]] && rest == [rest[0]];
      JoinOne([c] + rest[0]);
      JoinOne(rest[0]);
    }
  }

  lemma JoinUnfolds(p: string, rest: seq<string>)
    requires rest != []
    ensures Join([p] + rest) == p + "." + Join(rest)
  { assert ([p] + rest)[1..] == rest; }

  lemma JoinOne(p: string)
    ensures Join([p]) == p
  {}

  lemma JoinThree(a: string, b: string, c: string)
    ensures Join([a, b, c]) == a + "." + b + "." + c
  {
    assert [a, b, c][1..] == [b, c];
    assert Join([b, c]) == b + "." + c by { assert [b, c][1..] == [c]; }
    assert a + "." + (b + "." + c) == a + "." + b + "." + c;
  }

  lemma JoinFour(a: string, b: string, c: string, d: string)
    ensures Join([a, b, c, d]) == a + "." + b + "." + c + "." + d
  {
    assert [a, b, c, d][1..] == [b, c, d];
    JoinThree(b, c, d);
    assert a + "." + (b + "." + c + "." + d) == a + "." + b + "." + c + "." + d;
  }

  lemma {:induction false} SplitAtDot(p: string, rest: string)
    requires '.' !in p
    ensures Split(p + "." + rest) == [p] + Split(rest) && Split(p) == [p]
  {
    var s := p + "." + rest;
    if p == "" {
      assert s[1..] == rest;
    } else {
      SplitAtDot(p[1..], rest);
      assert s[1..] == p[1..] + "." + rest && s[0] == p[0];
      assert p == [p[0]] + p[1..];
    }
  }

  lemma {:induction false} SplitJoin(parts: seq<string>)
    requires parts != [] && forall i | 0 <= i < |parts| :: '.' !in parts[i]
    ensures Split(Join(parts)) == parts
  {
    if |parts| == 1 {
      SplitAtDot(parts[0], "");
    } else {
      SplitJoin(parts[1..]);
      SplitAtDot(parts[0], Join(parts[1..]));
    }
  }

  lemma DigitsHaveNoDot(s: string)
    requires Digits(s)
    ensures '.' !in s
  {}

  // ----- parsing and printing -----

  function StripV(s: string): string { if s != "" && s[0] == 'v' then s[1..] else s }

  predicate FixedDigits(s: string, width: nat) { |s| == width && Digits(s) }

  function ParseRevision(s: string): Option<U8> {
    if s == "" || !Digits(s) || s[0] == '0' || Value(s) > 255 || Value(s) == 0 || Value(s) > MAX_DAILY_REVISION
    then None else Some(Value(s))
  }

  /** `from_str`. */
  function Parse(input: string): Option<CalVer> {
    var parts := Split(StripV(input));
    if !(|parts| == 3 || |parts| == 4) then None
    else if !FixedDigits(parts[0], 4) || !FixedDigits(parts[1], 2) || !FixedDigits(parts[2], 2) then None
    else
      var revision := if |parts| == 4 then ParseRevision(parts[3]) else Some(0);
      if revision.None? then None else Checked(Value(parts[0]), Value(parts[1]), Value(parts[2]), revision.value)
  }

  /** The calendar checks. */
  function Checked(year: nat, month: nat, day: nat, revision: U8): Option<CalVer> {
    if year == 0 || year > 9999 || !(1 <= month <= 12) || day == 0 || day > DaysInMonth(year, month) then None
    else Some(CalVer(year, month, day, revision))
  }

  /** `Display`. */
  function Print(v: CalVer): string {
    var date := ZeroPadded(v.year, 4) + "." + ZeroPadded(v.month, 2) + "." + ZeroPadded(v.day, 2);
    if v.revision > 0 then date + "." + Decimal(v.revision) else date
  }

  function Parts(v: CalVer): (parts: seq<string>)
    ensures |parts| == if v.revision > 0 then 4 else 3
  {
    [ZeroPadded(v.year, 4), ZeroPadded(v.month, 2), ZeroPadded(v.day, 2)]
    + (if v.revision > 0 then [Decimal(v.revision)] else [])
  }

  lemma PrintIsJoin(v: CalVer)
    ensures Print(v) == Join(Parts(v))
  {
    hide ZeroPadded, Decimal;
    var y, m, d := ZeroPadded(v.year, 4), ZeroPadded(v.month, 2), ZeroPadded(v.day, 2);
    JoinThree(y, m, d);
    JoinFour(y, m, d, Decimal(v.revision));
    assert Parts(v) == if v.revision > 0 then [y, m, d, Decimal(v.revision)] else [y, m, d];
  }

  lemma PartsAreDigits(v: CalVer)
    requires Valid(v)
    ensures var p := Parts(v);
            FixedDigits(p[0], 4) && FixedDigits(p[1], 2) && FixedDigits(p[2], 2)
            && Value(p[0]) == v.year && Value(p[1]) == v.month && Value(p[2]) == v.day
            && (v.revision > 0 ==> ParseRevision(p[3]) == Some(v.revision) && Digits(p[3]))
  {
    hide Padded, Value;
    assert Pow10(4) == 10000 && Pow10(2) == 100;
    PaddedValue(v.year, 4); PaddedValue(v.month, 2); PaddedValue(v.day, 2);
    DecimalValue(v.revision);
  }

  /** Parsing a printed valid version returns it, with or without the tag prefix. */
  lemma ParsePrint(v: CalVer)
    requires Valid(v)
    ensures Parse(Print(v)) == Some(v) && Parse("v" + Print(v)) == Some(v)
  {
    hide ZeroPadded, Decimal, Digits, Join, Split, Value, ParseRevision;
    var p := Parts(v);
    PartsAreDigits(v);
    PrintIsJoin(v);
    forall i | 0 <= i < |p| ensures '.' !in p[i] { assert Digits(p[i]); DigitsHaveNoDot(p[i]); }
    SplitJoin(p);
    StartsWithDigit(v);
    assert StripV("v" + Print(v)) == Print(v);
  }

  lemma StartsWithDigit(v: CalVer)
    requires Valid(v)
    ensures StripV(Print(v)) == Print(v)
  {
    assert Pow10(4) == 10000;
    PaddedValue(v.year, 4);
    assert IsDigit(ZeroPadded(v.year, 4)[0]);
    assert Print(v)[0] == ZeroPadded(v.year, 4)[0];
  }

  /** Every accepted string is a valid version and, minus one leading v, is reprinted unchanged. */
  lemma PrintParse(s: string)
    requires Parse(s).Some?
    ensures Valid(Parse(s).value) && Print(Parse(s).value) == StripV(s)
  {
    var t := StripV(s);
    var parts, v := Split(t), Parse(s).value;
    JoinSplit(t);
    PrintIsJoin(v);
    Reprinted(parts, v);
    assert parts == Parts(v);
  }

  lemma Reprinted(parts: seq<string>, v: CalVer)
    requires (|parts| == 3 && v.revision == 0) || (|parts| == 4 && ParseRevision(parts[3]) == Some(v.revision))
    requires FixedDigits(parts[0], 4) && FixedDigits(parts[1], 2) && FixedDigits(parts[2], 2)
    requires v.year == Value(parts[0]) && v.month == Value(parts[1]) && v.day == Value(parts[2])
    ensures parts == Parts(v)
  {
    hide Value, Padded, Decimal, Pow10;
    ValuePadded(parts[0]); ValuePadded(parts[1]); ValuePadded(parts[2]);
    if |parts| == 4 {
      ValueDecimal(parts[3]);
      assert parts == [parts[0], parts[1], parts[2], parts[3]];
    } else {
      assert parts == [parts[0], parts[1], parts[2]];
    }
  }

  // ----- order -----

  /** The derived order: chronological, then by daily revision. */
  predicate Less(v: CalVer, w: CalVer) {
    v.year < w.year || (v.year == w.year && (v.month < w.month || (v.month == w.month
      && (v.day < w.day || (v.day == w.day && v.revision < w.revision)))))
  }

  /** `cargo_version`. */
  function CargoVersion(v: CalVer): string {
    Decimal(v.year) + "." + Decimal(v.month) + "." + Decimal(v.day * 100 + v.revision)
  }

  /** A Semantic Versioning 2.0.0 core version: three numeric identifiers without leading zeros. */
  predicate NumericIdentifier(s: string) { s != "" && Digits(s) && (s[0] == '0' ==> |s| == 1) }

  datatype SemVer = SemVer(major: nat, minor: nat, patch: nat)

  function ParseSemVer(s: string): Option<SemVer> {
    var parts := Split(s);
    if |parts| == 3 && NumericIdentifier(parts[0]) && NumericIdentifier(parts[1]) && NumericIdentifier(parts[2])
    then Some(SemVer(Value(parts[0]), Value(parts[1]), Value(parts[2]))) else None
  }

  /** Item 11 of Semantic Versioning 2.0.0 for core versions: major, minor, patch, numerically. */
  predicate Precedes(a: SemVer, b: SemVer) {
    a.major < b.major || (a.major == b.major && (a.minor < b.minor || (a.minor == b.minor && a.patch < b.patch)))
  }

  lemma CargoParses(v: CalVer)
    ensures ParseSemVer(CargoVersion(v)) == Some(SemVer(v.year, v.month, v.day * 100 + v.revision))
  {
    hide Decimal, Value, Digits;
    var parts := [Decimal(v.year), Decimal(v.month), Decimal(v.day * 100 + v.revision)];
    DecimalIsIdentifier(v.year); DecimalIsIdentifier(v.month); DecimalIsIdentifier(v.day * 100 + v.revision);
    DecimalValue(v.year); DecimalValue(v.month); DecimalValue(v.day * 100 + v.revision);
    forall i | 0 <= i < |parts| ensures '.' !in parts[i] { DigitsHaveNoDot(parts[i]); }
    JoinThree(parts[0], parts[1], parts[2]);
    SplitJoin(parts);
  }

  lemma DecimalIsIdentifier(n: nat)
    ensures NumericIdentifier(Decimal(n))
  { DecimalValue(n); }

  /** The internal version preserves and reflects the strict order of valid versions. */
  lemma CargoVersionOrder(v: CalVer, w: CalVer)
    requires Valid(v) && Valid(w)
    ensures ParseSemVer(CargoVersion(v)).Some? && ParseSemVer(CargoVersion(w)).Some?
    ensures Less(v, w) <==> Precedes(ParseSemVer(CargoVersion(v)).value, ParseSemVer(CargoVersion(w)).value)
  {
    hide ParseSemVer, CargoVersion, DaysInMonth;
    CargoParses(v); CargoParses(w);
  }
}
