// The duration translators of app/docker/helpers/serviceHelper.js, on exact integers.
module Durations {

  // ----- Decimal numerals -----

  predicate IsDigit(c: char) {
    '0' <= c <= '9'
  }

  function DigitChar(d: nat): (c: char)
    requires d < 10
    ensures IsDigit(c)
  {
    '0' + d as char
  }

  function DigitValue(c: char): nat
    requires IsDigit(c)
  {
    (c - '0') as nat
  }

  predicate AllDigits(s: string) {
    forall i :: 0 <= i < |s| ==> IsDigit(s[i])
  }

  function PrintNat(n: nat): (s: string)
    ensures s != "" && AllDigits(s)
  {
    if n < 10 then [DigitChar(n)] else PrintNat(n / 10) + [DigitChar(n % 10)]
  }

  function ParseNat(s: string): nat
    requires AllDigits(s)
  {
    if s == "" then 0 else 10 * ParseNat(s[..|s| - 1]) + DigitValue(s[|s| - 1])
  }

  lemma {:induction false} NumeralRoundTrip(n: nat)
    ensures ParseNat(PrintNat(n)) == n
  {
    if n < 10 {
      assert PrintNat(n)[..0] == "";
    } else {
      NumeralRoundTrip(n / 10);
      assert PrintNat(n)[..|PrintNat(n)| - 1] == PrintNat(n / 10);
    }
  }

  // ----- Units -----

  datatype Unit = Unit(name: string, nanos: nat)

  const UNITS: seq<Unit> := [
    Unit("ns", 1), Unit("us", 1000), Unit("ms", 1000000), Unit("s", 1000000000),
    Unit("m", 60000000000), Unit("h", 3600000000000)]

  // The unit divides the duration a positive number of times.
  predicate Fits(nanos: int, unit: Unit)
    requires unit.nanos > 0
  {
    nanos % unit.nanos == 0 && nanos / unit.nanos > 0
  }

  predicate UnitsPositive() {
    forall i :: 0 <= i < |UNITS| ==> UNITS[i].nanos > 0
  }

  lemma UnitsAscend()
    ensures UnitsPositive()
    ensures forall i, j :: 0 <= i < j < |UNITS| ==> UNITS[i].nanos < UNITS[j].nanos
  {
  }

  // The last of the first k units that fits, or -1.
  function LastFit(nanos: int, k: nat): (i: int)
    requires k <= |UNITS|
    ensures -1 <= i < k
    ensures UnitsPositive()
    ensures i >= 0 ==> Fits(nanos, UNITS[i])
    ensures forall j :: i < j < k ==> !Fits(nanos, UNITS[j])
  {
    UnitsAscend();
    if k == 0 then -1
    else if Fits(nanos, UNITS[k - 1]) then k - 1
    else LastFit(nanos, k - 1)
  }

  function Described(nanos: int, k: nat): string
    requires k <= |UNITS|
  {
    var i := LastFit(nanos, k);
    if i < 0 then "0s" else PrintNat(nanos / UNITS[i].nanos) + UNITS[i].name
  }

  // The key order of the conversion table is the order of UNITS, so the last assignment wins.
  method TranslateNanosToHumanDuration(nanos: int) returns (humanDuration: string)
    ensures humanDuration == Described(nanos, |UNITS|)
  {
    UnitsAscend();
    humanDuration := "0s";
    for i := 0 to |UNITS|
      invariant humanDuration == Described(nanos, i)
    {
      if nanos % UNITS[i].nanos == 0 && nanos / UNITS[i].nanos > 0 {
        humanDuration := PrintNat(nanos / UNITS[i].nanos) + UNITS[i].name;
      }
    }
  }

  // The number of digits a string starts with.
  function DigitPrefix(s: string): (n: nat)
    ensures n <= |s| && AllDigits(s[..n])
    ensures n < |s| ==> !IsDigit(s[n])
  {
    if s == "" || !IsDigit(s[0]) then 0
    else
      var n := DigitPrefix(s[1..]);
      assert s[..n + 1] == [s[0]] + s[1..][..n];
      n + 1
  }

  function Lower(c: char): char {
    if 'A' <= c <= 'Z' then c - 'A' + 'a' else c
  }

  function LowerAll(s: string): (r: string)
    ensures |r| == |s|
    ensures forall i :: 0 <= i < |r| ==> r[i] == Lower(s[i])
  {
    seq(|s|, i requires 0 <= i < |s| => Lower(s[i]))
  }

  // The position of a unit name, or -1.
  function FindUnit(name: string, k: nat): (i: int)
    requires k <= |UNITS|
    ensures -1 <= i < k
    ensures i >= 0 ==> UNITS[i].name == name
    ensures i < 0 ==> forall j :: 0 <= j < k ==> UNITS[j].name != name
  {
    if k == 0 then -1
    else if UNITS[k - 1].name == name then k - 1
    else FindUnit(name, k - 1)
  }

  // Undefined when the text is not a duration. A unit written with capitals matches too, but
  // what it means is then up to the date library.
  datatype Parsed = Undefined | Nanos(nanos: nat) | UpToLibrary(count: nat, unit: string)

  function Understood(s: string): Parsed {
    var n := DigitPrefix(s);
    if n == 0 || FindUnit(LowerAll(s[n..]), |UNITS|) < 0 then Undefined
    else
      var i := FindUnit(s[n..], |UNITS|);
      if i < 0 then UpToLibrary(ParseNat(s[..n]), s[n..])
      else Nanos(ParseNat(s[..n]) * UNITS[i].nanos)
  }

  method TranslateHumanDurationToNanos(humanDuration: string) returns (parsed: Parsed)
    ensures parsed == Understood(humanDuration)
  {
    parsed := Undefined;
    var n := DigitPrefix(humanDuration);
    var unit := humanDuration[n..];
    if n > 0 && FindUnit(LowerAll(unit), |UNITS|) >= 0 {
      var duration := ParseNat(humanDuration[..n]);
      UnitNames();
      if unit == "ns" {
        parsed := Nanos(duration);
      } else if unit == "us" {
        parsed := Nanos(duration * 1000);
      } else if unit == "ms" {
        parsed := Nanos(duration * 1000000);
      } else if unit == "s" {
        parsed := Nanos(duration * 1000 * 1000000);
      } else if unit == "m" {
        parsed := Nanos(duration * 60 * 1000 * 1000000);
      } else if unit == "h" {
        parsed := Nanos(duration * 3600 * 1000 * 1000000);
      } else {
        parsed := UpToLibrary(duration, unit);
      }
    }
  }

  lemma FindsUnit(i: nat)
    requires i < |UNITS|
    ensures FindUnit(UNITS[i].name, |UNITS|) == i
  {
  }

  lemma UnitNames()
    ensures FindUnit("ns", |UNITS|) == 0
    ensures FindUnit("us", |UNITS|) == 1
    ensures FindUnit("ms", |UNITS|) == 2
    ensures FindUnit("s", |UNITS|) == 3
    ensures FindUnit("m", |UNITS|) == 4
    ensures FindUnit("h", |UNITS|) == 5
  {
    FindsUnit(0);
    FindsUnit(1);
    FindsUnit(2);
    FindsUnit(3);
    FindsUnit(4);
    FindsUnit(5);
  }

  // What the six units are.
  lemma UnitsMean(count: nat)
    ensures Understood(PrintNat(count) + "ns") == Nanos(Times(count, 1))
    ensures Understood(PrintNat(count) + "us") == Nanos(Times(count, 1000))
    ensures Understood(PrintNat(count) + "ms") == Nanos(Times(count, 1000 * 1000))
    ensures Understood(PrintNat(count) + "s") == Nanos(Times(count, 1000 * 1000 * 1000))
    ensures Understood(PrintNat(count) + "m") == Nanos(Times(count, 60 * 1000 * 1000 * 1000))
    ensures Understood(PrintNat(count) + "h") == Nanos(Times(count, 60 * 60 * 1000 * 1000 * 1000))
  {
    UnitMeans(count, 0, "ns", 1);
    UnitMeans(count, 1, "us", 1000);
    UnitMeans(count, 2, "ms", 1000 * 1000);
    UnitMeans(count, 3, "s", 1000 * 1000 * 1000);
    UnitMeans(count, 4, "m", 60 * 1000 * 1000 * 1000);
    UnitMeans(count, 5, "h", 60 * 60 * 1000 * 1000 * 1000);
  }

  lemma UnitMeans(count: nat, i: nat, name: string, nanos: nat)
    requires i < |UNITS| && UNITS[i].name == name && UNITS[i].nanos == nanos
    ensures Understood(PrintNat(count) + name) == Nanos(Times(count, nanos))
  {
    UnitReadsBack(count, i);
  }

  function Times(count: nat, nanos: nat): nat {
    count * nanos
  }

  // Which texts are durations: digits followed by one of the six names.
  lemma DurationsAre(s: string)
    ensures Understood(s).Nanos? <==>
            DigitPrefix(s) > 0 && s[DigitPrefix(s)..] in {"ns", "us", "ms", "s", "m", "h"}
  {
    var unit := s[DigitPrefix(s)..];
    UnitNames();
    var i := FindUnit(unit, |UNITS|);
    if i >= 0 {
      assert UNITS[i].name in {"ns", "us", "ms", "s", "m", "h"};
      assert i in {0, 1, 2, 3, 4, 5};
      LowercaseUnit(i);
      FindsUnit(i);
    }
  }

  // Numerals are written as usual, the highest digit first.
  lemma NumeralsMean(n: nat, d: nat)
    requires d < 10
    ensures n > 0 ==> PrintNat(10 * n + d) == PrintNat(n) + [DigitChar(d)]
    ensures PrintNat(d) == ["0123456789"[d]]
  {
  }

  // The unit of a printed duration is the largest of all that divide it.
  lemma LargestUnit(nanos: int)
    requires nanos > 0
    ensures var i := LastFit(nanos, |UNITS|);
            && i >= 0
            && nanos % UNITS[i].nanos == 0
            && (forall j :: 0 <= j < |UNITS| && nanos % UNITS[j].nanos == 0 ==> UNITS[j].nanos <= UNITS[i].nanos)
            && Described(nanos, |UNITS|) == PrintNat(nanos / UNITS[i].nanos) + UNITS[i].name
  {
    UnitsAscend();
    assert Fits(nanos, UNITS[0]);
    var i := LastFit(nanos, |UNITS|);
    forall j | 0 <= j < |UNITS| && nanos % UNITS[j].nanos == 0
      ensures UNITS[j].nanos <= UNITS[i].nanos
    {
      DividesPositively(nanos, UNITS[j].nanos);
      assert Fits(nanos, UNITS[j]);
    }
  }

  lemma DividesPositively(n: int, d: int)
    requires n > 0 && d > 0 && n % d == 0
    ensures n / d > 0 && n / d * d == n
  {
  }

  // What is printed before a unit is read back as digits and unit.
  lemma {:induction false} SplitNumeral(digits: string, unit: string)
    requires AllDigits(digits) && unit != "" && !IsDigit(unit[0])
    ensures DigitPrefix(digits + unit) == |digits|
  {
    if digits == "" {
      assert digits + unit == unit;
    } else {
      SplitNumeral(digits[1..], unit);
      assert (digits + unit)[1..] == digits[1..] + unit;
    }
  }

  // Reading a printed duration gives it back exactly when it is not negative: a
  // negative one reads back as zero.
  lemma DurationRoundTrip(nanos: int)
    ensures nanos >= 0 ==> Understood(Described(nanos, |UNITS|)) == Nanos(nanos)
    ensures nanos < 0 ==> Understood(Described(nanos, |UNITS|)) == Nanos(0)
  {
    UnitNames();
    UnitsAscend();
    if nanos > 0 {
      LargestUnit(nanos);
      var i := LastFit(nanos, |UNITS|);
      DividesPositively(nanos, UNITS[i].nanos);
      UnitReadsBack(nanos / UNITS[i].nanos, i);
    } else {
      forall j | 0 <= j < |UNITS|
        ensures !Fits(nanos, UNITS[j])
      {
        assert nanos / UNITS[j].nanos <= 0;
      }
      assert Described(nanos, |UNITS|) == "0s";
      assert PrintNat(0) == "0" && "0" + "s" == "0s";
      UnitReadsBack(0, 3);
    }
  }

  lemma UnitReadsBack(count: nat, i: nat)
    requires i < |UNITS|
    ensures Understood(PrintNat(count) + UNITS[i].name) == Nanos(count * UNITS[i].nanos)
  {
    FindsUnit(i);
    var digits, unit := PrintNat(count), UNITS[i].name;
    NumeralRoundTrip(count);
    SplitNumeral(digits, unit);
    assert (digits + unit)[..|digits|] == digits && (digits + unit)[|digits|..] == unit;
    LowercaseUnit(i);
    UnderstoodParts(digits + unit, |digits|, i);
  }

  lemma LowercaseUnit(i: nat)
    requires i < |UNITS|
    ensures LowerAll(UNITS[i].name) == UNITS[i].name
  {
    var name := UNITS[i].name;
    forall j | 0 <= j < |name|
      ensures Lower(name[j]) == name[j]
    {
      assert name[j] in {'n', 'u', 'm', 's', 'h'};
    }
  }

  // A text is understood part by part.
  lemma UnderstoodParts(s: string, n: nat, i: nat)
    requires 0 < n <= |s| && DigitPrefix(s) == n && i < |UNITS|
    requires FindUnit(s[n..], |UNITS|) == i && FindUnit(LowerAll(s[n..]), |UNITS|) >= 0
    ensures Understood(s) == Nanos(ParseNat(s[..n]) * UNITS[i].nanos)
  {
  }
}
