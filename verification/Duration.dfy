/** Durations such as `2h30m`: printing a number of milliseconds and reading it back. */
module Duration {
  import opened Common
  import opened Decimal

  // ---------------------------------------------------------------- reading

  function DigitRun(s: string): (n: nat)
    ensures n <= |s| && AllDigits(s[..n]) && (n < |s| ==> !IsDigit(s[n]))
  {
    if s == [] || !IsDigit(s[0]) then 0
    else
      var n := 1 + DigitRun(s[1..]);
      assert s[..n] == [s[0]] + s[1..][..n - 1];
      n
  }

  datatype Part = Part(digits: Option<string>, rest: string)

  /** An optional group: a run of digits followed by the unit. */
  function TakePart(s: string, unit: char): Part {
    var n := DigitRun(s);
    if n > 0 && n < |s| && s[n] == unit then Part(Some(s[..n]), s[n + 1..]) else Part(None, s)
  }

  datatype Parts = Parts(hours: Option<string>, minutes: Option<string>, seconds: Option<string>)

  function Match(s: string): Option<Parts> {
    var h := TakePart(s, 'h');
    var m := TakePart(h.rest, 'm');
    var sec := TakePart(m.rest, 's');
    if sec.rest == [] then Some(Parts(h.digits, m.digits, sec.digits)) else None
  }

  function Number(digits: Option<string>): nat
    requires digits.Some? ==> AllDigits(digits.value)
  {
    if digits.Some? then FromDecimal(digits.value) else 0
  }

  predicate DigitsOk(digits: Option<string>) { digits.Some? ==> digits.value != [] && AllDigits(digits.value) }

  predicate PartsOk(p: Parts) { DigitsOk(p.hours) && DigitsOk(p.minutes) && DigitsOk(p.seconds) }

  function Value(p: Parts): nat
    requires PartsOk(p)
  {
    (Number(p.hours) * 3600 + Number(p.minutes) * 60 + Number(p.seconds)) * 1000
  }

  function ParseDuration(s: string): Option<nat> {
    match Match(s)
    case None => None
    case Some(p) =>
      if p == Parts(None, None, None) then None
      else if Value(p) > 0 then Some(Value(p)) else None
  }

  // ---------------------------------------------------------------- the grammar

  function Written(digits: Option<string>, unit: char): string { if digits.Some? then digits.value + [unit] else [] }

  function Text(p: Parts): string { Written(p.hours, 'h') + (Written(p.minutes, 'm') + Written(p.seconds, 's')) }

  lemma {:induction false} RunOf(digits: string, rest: string)
    requires AllDigits(digits) && (rest == [] || !IsDigit(rest[0]))
    ensures DigitRun(digits + rest) == |digits|
    decreases |digits|
  {
    if digits == [] {
      assert digits + rest == rest;
    } else {
      assert (digits + rest)[1..] == digits[1..] + rest;
      RunOf(digits[1..], rest);
    }
  }

  lemma TakesWritten(digits: string, unit: char, rest: string)
    requires digits != [] && AllDigits(digits) && !IsDigit(unit)
    ensures TakePart(digits + ([unit] + rest), unit) == Part(Some(digits), rest)
  {
    var s := digits + ([unit] + rest);
    RunOf(digits, [unit] + rest);
    assert s[..|digits|] == digits && s[|digits|] == unit && s[|digits| + 1..] == rest;
  }

  lemma WrittenThen(digits: string, unit: char, rest: string)
    ensures Written(Some(digits), unit) + rest == digits + ([unit] + rest)
  {
  }

  /** A written group is taken as it is; a group that is absent is not taken from what follows it. */
  lemma TakesPart(digits: Option<string>, unit: char, rest: string)
    requires DigitsOk(digits) && !IsDigit(unit)
    requires digits.None? ==> DigitRun(rest) == 0 || (DigitRun(rest) < |rest| && rest[DigitRun(rest)] != unit)
    ensures TakePart(Written(digits, unit) + rest, unit) == Part(digits, rest)
  {
    if digits.None? {
      LeavesOther(unit, rest);
      assert Written(digits, unit) + rest == rest;
    } else {
      WrittenThen(digits.value, unit, rest);
      TakesWritten(digits.value, unit, rest);
    }
  }

  lemma LeavesOther(unit: char, rest: string)
    requires DigitRun(rest) == 0 || (DigitRun(rest) < |rest| && rest[DigitRun(rest)] != unit)
    ensures TakePart(rest, unit) == Part(None, rest)
  {
  }

  /** A text that is empty or begins with a group of another unit. */
  lemma OtherUnit(digits: Option<string>, unit: char, rest: string, other: char)
    requires DigitsOk(digits) && !IsDigit(unit) && unit != other
    requires DigitRun(rest) == 0 || (DigitRun(rest) < |rest| && rest[DigitRun(rest)] != other)
    ensures var s := Written(digits, unit) + rest;
            DigitRun(s) == 0 || (DigitRun(s) < |s| && s[DigitRun(s)] != other)
  {
    if digits.Some? {
      assert Written(digits, unit) + rest == digits.value + ([unit] + rest);
      RunOf(digits.value, [unit] + rest);
    } else {
      assert Written(digits, unit) + rest == rest;
    }
  }

  lemma MatchesWritten(p: Parts)
    requires PartsOk(p)
    ensures Match(Text(p)) == Some(p)
  {
    var tail := Written(p.minutes, 'm') + Written(p.seconds, 's');
    assert Written(p.seconds, 's') == Written(p.seconds, 's') + [];
    OtherUnit(p.seconds, 's', [], 'm');
    OtherUnit(p.seconds, 's', [], 'h');
    OtherUnit(p.minutes, 'm', Written(p.seconds, 's'), 'h');
    TakesPart(p.hours, 'h', tail);
    TakesPart(p.minutes, 'm', Written(p.seconds, 's'));
    TakesPart(p.seconds, 's', []);
  }

  lemma TakenPart(s: string, unit: char)
    ensures var p := TakePart(s, unit); DigitsOk(p.digits) && s == Written(p.digits, unit) + p.rest
  {
    var n := DigitRun(s);
    if n > 0 && n < |s| && s[n] == unit {
      assert s == s[..n] + [unit] + s[n + 1..];
    }
  }

  /** A string matches with certain groups exactly when it is those groups written out: each string the
      grammar accepts has one reading, and so denotes one value. */
  lemma MatchExactly(s: string, p: Parts)
    ensures Match(s) == Some(p) <==> PartsOk(p) && s == Text(p)
  {
    if PartsOk(p) && s == Text(p) {
      MatchesWritten(p);
    }
    if Match(s) == Some(p) {
      var h := TakePart(s, 'h');
      var m := TakePart(h.rest, 'm');
      TakenPart(s, 'h');
      TakenPart(h.rest, 'm');
      TakenPart(m.rest, 's');
      assert m.rest == Written(p.seconds, 's');
    }
  }

  /** A string has a value exactly when it is written from groups, one at least, that add up to more than zero. */
  lemma ParsesExactly(s: string, ms: nat)
    ensures ParseDuration(s) == Some(ms) <==>
            ms > 0 && exists p :: PartsOk(p) && p != Parts(None, None, None) && s == Text(p) && Value(p) == ms
  {
    if ParseDuration(s) == Some(ms) {
      MatchExactly(s, Match(s).value);
    }
    if p :| ms > 0 && PartsOk(p) && p != Parts(None, None, None) && s == Text(p) && Value(p) == ms {
      MatchExactly(s, p);
    }
  }

  // ---------------------------------------------------------------- printing

  function Group(n: nat): Option<string> { if n > 0 then Some(ToDecimal(n)) else None }

  /** The seconds are left out from one hour up. */
  function FormatDuration(ms: nat): string {
    var total := ms / 1000;
    var hours := total / 3600;
    var minutes := total % 3600 / 60;
    var seconds := total % 60;
    var text := Written(Group(hours), 'h') + Written(Group(minutes), 'm') + Written(Group(if hours == 0 then seconds else 0), 's');
    if text == [] then "0s" else text
  }

  function Printed(ms: nat): Parts {
    var total := ms / 1000;
    Parts(Group(total / 3600), Group(total % 3600 / 60), Group(if total / 3600 == 0 then total % 60 else 0))
  }

  lemma GroupOk(n: nat)
    ensures DigitsOk(Group(n)) && Number(Group(n)) == n
  {
    RoundTrip(n);
  }

  /** What printing keeps: whole seconds below one hour, whole minutes from one hour up. */
  function RoundedDown(ms: nat): nat { if ms < 3600000 then ms - ms % 1000 else ms - ms % 60000 }

  lemma PrintedValue(ms: nat)
    ensures PartsOk(Printed(ms)) && Value(Printed(ms)) == RoundedDown(ms)
  {
    var total := ms / 1000;
    var hours, minutes, seconds := total / 3600, total % 3600 / 60, if total / 3600 == 0 then total % 60 else 0;
    GroupOk(hours);
    GroupOk(minutes);
    GroupOk(seconds);
    WholeMinutes(total);
    assert hours * 3600 + minutes * 60 + seconds == if total < 3600 then total else total - total % 60;
    Rounding(ms);
  }

  lemma WholeMinutes(total: nat)
    ensures total / 3600 * 3600 + total % 3600 / 60 * 60 == total - total % 60
  {
    var rest := total % 3600;
    assert total == total / 3600 * 3600 + rest;
    assert rest == rest / 60 * 60 + rest % 60;
    assert total == 60 * (total / 3600 * 60 + rest / 60) + rest % 60;
  }

  lemma Rounding(ms: nat)
    ensures (if ms / 1000 < 3600 then ms / 1000 else ms / 1000 - ms / 1000 % 60) * 1000 == RoundedDown(ms)
  {
    var total := ms / 1000;
    assert ms == 1000 * total + ms % 1000;
    assert total == 60 * (total / 60) + total % 60;
    assert ms == 60000 * (total / 60) + (1000 * (total % 60) + ms % 1000);
  }

  /** Printing and reading back, for every duration of a second or more: the value rounded down. */
  lemma FormatParse(ms: nat)
    requires ms >= 1000
    ensures ParseDuration(FormatDuration(ms)) == Some(RoundedDown(ms))
  {
    PrintedValue(ms);
    var p := Printed(ms);
    MatchesWritten(p);
    assert Value(p) > 0;
    NotNothing(p);
    FormatsPrinted(ms);
  }

  lemma NotNothing(p: Parts)
    requires PartsOk(p) && Value(p) > 0
    ensures p != Parts(None, None, None) && Text(p) != []
  {
  }

  lemma FormatsPrinted(ms: nat)
    requires Text(Printed(ms)) != []
    ensures FormatDuration(ms) == Text(Printed(ms))
  {
    var p := Printed(ms);
    assert Text(p) == Written(p.hours, 'h') + Written(p.minutes, 'm') + Written(p.seconds, 's');
  }

  /** How a duration is written: the groups that are not zero, minutes below sixty, and below one hour
      seconds below sixty, from one hour up none. */
  lemma FormatShape(ms: nat) returns (p: Parts)
    requires ms >= 1000
    ensures PartsOk(p) && FormatDuration(ms) == Text(p)
    ensures (p.hours.Some? ==> Number(p.hours) > 0) && (p.minutes.Some? ==> 0 < Number(p.minutes) < 60)
    ensures (p.seconds.Some? ==> 0 < Number(p.seconds) < 60) && (p.hours.Some? ==> p.seconds.None?)
    ensures p.hours.Some? <==> ms >= 3600000
  {
    p := Printed(ms);
    PrintedValue(ms);
    NotNothing(p);
    FormatsPrinted(ms);
    GroupOk(ms / 1000 / 3600);
    GroupOk(ms / 1000 % 3600 / 60);
    GroupOk(if ms / 1000 / 3600 == 0 then ms / 1000 % 60 else 0);
  }

  lemma NothingIsZero(ms: nat)
    requires ms < 1000
    ensures FormatDuration(ms) == "0s"
  {
  }

  /** The round trip is the identity exactly on whole seconds below one hour and whole minutes from one hour up. */
  lemma FormatParseIdentityExactly(ms: nat)
    ensures ParseDuration(FormatDuration(ms)) == Some(ms) <==>
            ms >= 1000 && (if ms < 3600000 then ms % 1000 == 0 else ms % 60000 == 0)
  {
    if ms >= 1000 {
      FormatParse(ms);
    } else {
      assert ms / 1000 == 0;
      assert FormatDuration(ms) == "0s";
      ZeroIsNull();
    }
  }

  lemma ZeroIsNull()
    ensures ParseDuration("0s") == None
  {
    var p := Parts(None, None, Some("0"));
    assert Text(p) == "0s";
    MatchesWritten(p);
    assert FromDecimal("0") == 0 by {
      assert "0"[..0] == [] && FromDecimal([]) == 0;
    }
  }
}
