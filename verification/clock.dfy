/** The game clock as the program keeps it: a string "m:ss" that `nextPlay` splits at the
    colon, reads as two numbers, counts down and renders again. */
module Clock {
  import opened Outcomes

  predicate IsDigit(c: char)
  {
    '0' <= c <= '9'
  }

  function DigitValue(c: char): (d: nat)
    requires IsDigit(c)
    ensures d < 10
  {
    c as int - '0' as int
  }

  function DigitChar(d: nat): (c: char)
    requires d < 10
    ensures IsDigit(c) && DigitValue(c) == d
  {
    (d + '0' as int) as char
  }

  /** Every character is a decimal digit. */
  predicate AllDigits(s: string)
  {
    |s| == 0 || (IsDigit(s[0]) && AllDigits(s[1..]))
  }

  /** A non-empty run of decimal digits. */
  predicate IsNumeral(s: string)
  {
    |s| > 0 && AllDigits(s)
  }

  /** Reads digits left to right onto `acc`. */
  function ValueFrom(s: string, acc: nat): nat
    requires AllDigits(s)
    decreases |s|
  {
    if |s| == 0 then acc else ValueFrom(s[1..], acc * 10 + DigitValue(s[0]))
  }

  /** The number `Number(s)` yields for a string of digits (leading zeros allowed). */
  function NumeralValue(s: string): nat
    requires AllDigits(s)
  {
    ValueFrom(s, 0)
  }

  /** `n.toString()` for a natural number. */
  function Decimal(n: nat): string
    decreases n
  {
    if n < 10 then [DigitChar(n)] else Decimal(n / 10) + [DigitChar(n % 10)]
  }

  /** `s.padStart(2, '0')`. */
  function PadStart2(s: string): string
    decreases 2 - |s|
  {
    if |s| >= 2 then s else PadStart2(['0'] + s)
  }

  /** Position of the first ':' (where `split(':')` cuts), if any. */
  function FindColon(s: string): (r: Option<nat>)
    ensures r.Some? ==> r.value < |s| && s[r.value] == ':'
    ensures r.Some? ==> forall j :: 0 <= j < r.value ==> s[j] != ':'
    ensures r.None? ==> forall j :: 0 <= j < |s| ==> s[j] != ':'
  {
    if |s| == 0 then None
    else if s[0] == ':' then Some(0)
    else match FindColon(s[1..])
      case None => None
      case Some(i) => Some(i + 1)
  }

  /** `const [min, sec] = s.split(':').map(Number)` on a clock of the form numeral ':' numeral,
      giving `min * 60 + sec`; anything else is unreadable. */
  function Parse(s: string): Option<nat>
  {
    match FindColon(s)
    case None => None
    case Some(i) =>
      if IsNumeral(s[..i]) && IsNumeral(s[i + 1..])
      then Some(NumeralValue(s[..i]) * 60 + NumeralValue(s[i + 1..]))
      else None
  }

  predicate WellFormed(s: string)
  {
    Parse(s).Some?
  }

  function TotalSeconds(s: string): nat
    requires WellFormed(s)
  {
    Parse(s).value
  }

  function MinutesField(s: string): string
    requires WellFormed(s)
  {
    s[..FindColon(s).value]
  }

  function SecondsField(s: string): string
    requires WellFormed(s)
  {
    s[FindColon(s).value + 1..]
  }

  lemma {:induction false} AllDigitsAppend(s: string, c: char)
    requires AllDigits(s) && IsDigit(c)
    ensures AllDigits(s + [c])
    decreases |s|
  {
    if |s| > 0 {
      assert (s + [c])[1..] == s[1..] + [c];
      AllDigitsAppend(s[1..], c);
    }
  }

  /** Reading one more digit multiplies what was read by ten and adds the digit. */
  lemma {:induction false} ValueFromAppend(s: string, c: char, acc: nat)
    requires AllDigits(s) && IsDigit(c)
    ensures AllDigits(s + [c])
    ensures ValueFrom(s + [c], acc) == ValueFrom(s, acc) * 10 + DigitValue(c)
    decreases |s|
  {
    AllDigitsAppend(s, c);
    if |s| == 0 {
      assert (s + [c])[1..] == [];
    } else {
      assert (s + [c])[1..] == s[1..] + [c];
      ValueFromAppend(s[1..], c, acc * 10 + DigitValue(s[0]));
    }
  }

  /** `toString` writes a numeral with no leading zero that `Number` reads back as the same number. */
  lemma {:induction false} DecimalRoundTrip(n: nat)
    ensures IsNumeral(Decimal(n))
    ensures |Decimal(n)| > 1 ==> Decimal(n)[0] != '0'
    ensures NumeralValue(Decimal(n)) == n
    decreases n
  {
    if n < 10 {
      assert Decimal(n)[1..] == [];
      assert ValueFrom(Decimal(n), 0) == ValueFrom([], DigitValue(DigitChar(n)));
    } else {
      DecimalRoundTrip(n / 10);
      ValueFromAppend(Decimal(n / 10), DigitChar(n % 10), 0);
      assert Decimal(n)[0] == Decimal(n / 10)[0];
    }
  }

  /** Zero-padding keeps a numeral a numeral of the same value and makes it at least two wide. */
  lemma {:induction false} PadStart2Value(s: string)
    requires IsNumeral(s)
    ensures IsNumeral(PadStart2(s))
    ensures NumeralValue(PadStart2(s)) == NumeralValue(s)
    ensures |PadStart2(s)| == if |s| < 2 then 2 else |s|
    decreases 2 - |s|
  {
    if |s| < 2 {
      var t := ['0'] + s;
      assert t[1..] == s;
      PadStart2Value(t);
    }
  }

  /** The colon that follows a run of digits is the first colon. */
  lemma {:induction false} ColonAfterDigits(a: string, b: string)
    requires AllDigits(a)
    ensures FindColon(a + ":" + b) == Some(|a|)
    decreases |a|
  {
    var s := a + ":" + b;
    if |a| > 0 {
      assert s[1..] == a[1..] + ":" + b;
      ColonAfterDigits(a[1..], b);
    }
  }

  /** A numeral, a colon and a numeral form a well-formed clock with exactly those fields. */
  lemma JoinFields(m: string, p: string)
    requires IsNumeral(m) && IsNumeral(p)
    ensures WellFormed(m + ":" + p)
    ensures MinutesField(m + ":" + p) == m && SecondsField(m + ":" + p) == p
    ensures TotalSeconds(m + ":" + p) == NumeralValue(m) * 60 + NumeralValue(p)
  {
    ColonAfterDigits(m, p);
    var s := m + ":" + p;
    assert s[..|m|] == m;
    assert s[|m| + 1..] == p;
  }

  /** `${Math.floor(t / 60)}:${(t % 60).toString().padStart(2, '0')}`: a readable clock that
      reads back as `t`. */
  function Render(t: nat): (s: string)
    ensures WellFormed(s)
    ensures TotalSeconds(s) == t
  {
    DecimalRoundTrip(t / 60);
    DecimalRoundTrip(t % 60);
    PadStart2Value(Decimal(t % 60));
    JoinFields(Decimal(t / 60), PadStart2(Decimal(t % 60)));
    Decimal(t / 60) + ":" + PadStart2(Decimal(t % 60))
  }

  /** The shape of a rendered clock: the seconds field is two characters wide and below 60, and
      the minutes field is the plain decimal of the whole minutes, without leading zeros. */
  lemma RenderShape(t: nat)
    ensures |SecondsField(Render(t))| == 2 && NumeralValue(SecondsField(Render(t))) < 60
    ensures MinutesField(Render(t)) == Decimal(t / 60)
    ensures |MinutesField(Render(t))| > 1 ==> MinutesField(Render(t))[0] != '0'
  {
    DecimalRoundTrip(t / 60);
    DecimalRoundTrip(t % 60);
    PadStart2Value(Decimal(t % 60));
    JoinFields(Decimal(t / 60), PadStart2(Decimal(t % 60)));
    assert |Decimal(t % 60)| <= 2 by {
      if t % 60 >= 10 {
        assert Decimal(t % 60) == Decimal(t % 60 / 10) + [DigitChar(t % 60 % 10)];
        assert Decimal(t % 60 / 10) == [DigitChar(t % 60 / 10)];
      }
    }
  }

  /** The countdown of App.tsx:119-124: read the clock, take away the elapsed seconds,
      stop at zero and render. The result is again a well-formed clock that reads back as
      the clamped difference, so it never rises for non-negative elapsed time. */
  function Tick(clock: string, elapsed: int): (r: string)
    requires WellFormed(clock)
    ensures WellFormed(r)
    ensures TotalSeconds(clock) - elapsed >= 0 ==> TotalSeconds(r) == TotalSeconds(clock) - elapsed
    ensures TotalSeconds(clock) - elapsed < 0 ==> TotalSeconds(r) == 0
    ensures elapsed >= 0 ==> TotalSeconds(r) <= TotalSeconds(clock)
  {
    var total := TotalSeconds(clock) - elapsed;
    Render(if total < 0 then 0 else total)
  }

  lemma ReadTwoThirty()
    ensures WellFormed("2:30") && TotalSeconds("2:30") == 150
  {
    assert "2" + ":" + "30" == "2:30";
    assert "30"[1..] == "0" && "0"[1..] == "";
    assert "2"[1..] == "";
    JoinFields("2", "30");
  }

  lemma ReadOneMinute()
    ensures WellFormed("1:00") && TotalSeconds("1:00") == 60
  {
    assert "1" + ":" + "00" == "1:00";
    assert "00"[1..] == "0" && "0"[1..] == "";
    assert "1"[1..] == "";
    JoinFields("1", "00");
  }

  lemma RenderZero()
    ensures Render(0) == "0:00"
  {
    assert 0 / 60 == 0 && 0 % 60 == 0;
    assert DigitChar(0) == '0';
    assert Decimal(0) == "0";
    assert PadStart2("0") == PadStart2(['0'] + "0") == "00";
    assert "0" + ":" + "00" == "0:00";
  }

  lemma RenderTen()
    ensures Render(10) == "0:10"
  {
    assert 10 / 60 == 0 && 10 % 60 == 10;
    assert Decimal(0) == "0";
    assert DigitChar(1) == '1' && DigitChar(0) == '0';
    assert Decimal(10) == Decimal(1) + ['0'];
    assert Decimal(10) == "10";
    assert PadStart2("10") == "10";
    assert "0" + ":" + "10" == "0:10";
  }

  /** "2:30" is 150 seconds: taking away 200 clamps to "0:00". */
  lemma TickClampsAtZero()
    ensures Tick("2:30", 200) == "0:00"
  {
    ReadTwoThirty();
    RenderZero();
  }

  /** "1:00" less 200 seconds clamps to "0:00". */
  lemma TickClampsOneMinute()
    ensures Tick("1:00", 200) == "0:00"
  {
    ReadOneMinute();
    RenderZero();
  }

  /** Taking 140 seconds off "2:30" leaves "0:10". */
  lemma TickLeavesTen()
    ensures Tick("2:30", 140) == "0:10"
  {
    ReadTwoThirty();
    RenderTen();
  }
}
