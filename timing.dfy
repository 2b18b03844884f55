/**
 * The page's stopwatch: a running flag, the elapsed milliseconds advanced by
 * 10 on every interval tick, the list of recorded times, and `formatTime`,
 * which prints milliseconds as MM:SS.cc.
 */
module Timing {
  import Js

  /** A number printed with `toString().padStart(2, "0")`. */
  function Pad2(n: nat): (s: string)
    ensures |s| >= 2 && Js.AllDigits(s) && Js.DigitsValue(s) == n
    ensures n < 100 ==> |s| == 2
  {
    Js.PaddedNumberValue(n, 2);
    Js.PadStart(Js.NatToString(n), 2, '0')
  }

  /** formatTime: whole minutes, then seconds within the minute, then hundredths within the second. */
  function FormatTime(ms: nat): (s: string)
    ensures |s| >= 8 && s[|s| - 6] == ':' && s[|s| - 3] == '.'
  {
    var minutes := ms / 60000;
    var seconds := (ms % 60000) / 1000;
    var hundredths := (ms % 1000) / 10;
    Pad2(minutes) + ":" + Pad2(seconds) + "." + Pad2(hundredths)
  }

  /** The three number fields of a string shaped like FormatTime's output. */
  function MinutesField(s: string): string requires |s| >= 8 { s[..|s| - 6] }
  function SecondsField(s: string): string requires |s| >= 8 { s[|s| - 5..|s| - 3] }
  function HundredthsField(s: string): string requires |s| >= 8 { s[|s| - 2..] }

  lemma ModThousand(ms: nat)
    ensures (ms % 60000) % 1000 == ms % 1000
  {
    var q, a := ms / 60000, ms % 60000;
    assert ms == 60000 * q + a;
    var s, b := a / 1000, a % 1000;
    assert a == 1000 * s + b && 0 <= b < 1000;
    assert ms == 1000 * (60 * q + s) + b;
  }

  lemma ModTen(ms: nat)
    ensures (ms % 1000) % 10 == ms % 10
  {
    var q, a := ms / 1000, ms % 1000;
    assert ms == 1000 * q + a;
    var c, e := a / 10, a % 10;
    assert a == 10 * c + e && 0 <= e < 10;
    assert ms == 10 * (100 * q + c) + e;
  }

  /** The arithmetic of the three fields: their bounds, and how they recombine. */
  lemma FieldArithmetic(ms: nat)
    ensures (ms % 60000) / 1000 < 60 && (ms % 1000) / 10 < 100
    ensures 60000 * (ms / 60000) + 1000 * ((ms % 60000) / 1000) + 10 * ((ms % 1000) / 10) == ms - ms % 10
  {
    ModThousand(ms);
    ModTen(ms);
    var q, a := ms / 60000, ms % 60000;
    var s, b := a / 1000, a % 1000;
    var c, e := b / 10, b % 10;
    assert ms == 60000 * q + a;
    assert a == 1000 * s + b;
    assert b == 10 * c + e;
  }

  /** Splitting a string joined as minutes ":" seconds "." hundredths, with two-character last fields. */
  lemma FieldsOfJoin(m: string, sec: string, h: string)
    requires |sec| == 2 && |h| == 2
    ensures var s := m + ":" + sec + "." + h;
      |s| >= 6 && s[..|s| - 6] == m && s[|s| - 5..|s| - 3] == sec && s[|s| - 2..] == h
  {
    var s := m + ":" + sec + "." + h;
    assert s[..|s| - 6] == m;
    assert s[|s| - 5..|s| - 3] == sec;
    assert s[|s| - 2..] == h;
  }

  /** The fields of FormatTime's output are the three padded numbers. */
  lemma FieldsOfFormat(ms: nat)
    ensures var s := FormatTime(ms);
      && MinutesField(s) == Pad2(ms / 60000)
      && SecondsField(s) == Pad2((ms % 60000) / 1000)
      && HundredthsField(s) == Pad2((ms % 1000) / 10)
  {
    FieldArithmetic(ms);
    FieldsOfJoin(Pad2(ms / 60000), Pad2((ms % 60000) / 1000), Pad2((ms % 1000) / 10));
  }

  /**
   * Reading FormatTime's output back: every field is made of digits, the minutes
   * take at least two, seconds and hundredths exactly two, the fields are below 60
   * and 100, and together they give the time down to the hundredth of a second.
   */
  lemma FormatTimeRoundTrip(ms: nat)
    ensures var s := FormatTime(ms);
      && Js.AllDigits(MinutesField(s)) && |MinutesField(s)| >= 2
      && Js.AllDigits(SecondsField(s)) && Js.AllDigits(HundredthsField(s))
      && Js.DigitsValue(MinutesField(s)) == ms / 60000
      && Js.DigitsValue(SecondsField(s)) == (ms % 60000) / 1000 < 60
      && Js.DigitsValue(HundredthsField(s)) == (ms % 1000) / 10 < 100
      && 60000 * Js.DigitsValue(MinutesField(s)) + 1000 * Js.DigitsValue(SecondsField(s))
         + 10 * Js.DigitsValue(HundredthsField(s)) == ms - ms % 10
  {
    FieldsOfFormat(ms);
    FieldArithmetic(ms);
  }

  /** Pad2 on one and two digit numbers. */
  lemma Pad2Digits(n: nat)
    requires n < 100
    ensures n < 10 ==> Pad2(n) == ['0', Js.DigitChar(n)]
    ensures 10 <= n ==> Pad2(n) == [Js.DigitChar(n / 10), Js.DigitChar(n % 10)]
  {
    if n >= 10 {
      assert Js.NatToString(n) == Js.NatToString(n / 10) + [Js.DigitChar(n % 10)];
    }
  }

  /** The example of a minute, a second and 23 hundredths. */
  lemma FormatTimeExample()
    ensures FormatTime(61230) == "01:01.23"
  {
    assert FormatTime(61230) == Pad2(1) + ":" + Pad2(1) + "." + Pad2(23) by {
      assert 61230 / 60000 == 1 && 61230 % 60000 == 1230 && 1230 / 1000 == 1;
      assert 61230 % 1000 == 230 && 230 / 10 == 23;
    }
    assert Pad2(1) == "01" by {
      Pad2Digits(1);
      assert Js.DigitChar(1) == '1';
    }
    assert Pad2(23) == "23" by {
      Pad2Digits(23);
      assert Js.DigitChar(2) == '2' && Js.DigitChar(3) == '3';
    }
  }

  /** A stopwatch at rest shows all zeros. */
  lemma FormatTimeZero()
    ensures FormatTime(0) == "00:00.00"
  {
    assert Pad2(0) == "00" by {
      Pad2Digits(0);
      assert Js.DigitChar(0) == '0';
    }
  }

  class Stopwatch {
    var time: nat
    var running: bool
    var recordedTimes: seq<string>

    /** The time only ever moves in steps of 10 ms. */
    ghost predicate Valid()
      reads this
    {
      time % 10 == 0
    }

    constructor ()
      ensures Valid() && time == 0 && !running && recordedTimes == []
    {
      time, running, recordedTimes := 0, false, [];
    }

    /** The play/pause button. */
    method Toggle()
      requires Valid()
      modifies this
      ensures Valid()
      ensures running == !old(running) && time == old(time) && recordedTimes == old(recordedTimes)
    {
      running := !running;
    }

    /** One firing of the 10 ms interval, which exists only while the stopwatch runs. */
    method Tick()
      requires Valid() && running
      modifies this
      ensures Valid()
      ensures time == old(time) + 10 && running && recordedTimes == old(recordedTimes)
    {
      time := time + 10;
    }

    /** The reset button: stop and return to zero; the recorded times stay. */
    method Reset()
      modifies this
      ensures Valid()
      ensures time == 0 && !running && recordedTimes == old(recordedTimes)
    {
      running := false;
      time := 0;
    }

    /** handleRecordTime: the current time, formatted, goes to the end of the list. */
    method RecordTime() returns (formatted: string)
      requires Valid()
      modifies this
      ensures Valid()
      ensures formatted == FormatTime(time)
      ensures recordedTimes == old(recordedTimes) + [formatted]
      ensures time == old(time) && running == old(running)
    {
      formatted := FormatTime(time);
      recordedTimes := recordedTimes + [formatted];
    }

    /** The "Limpiar" link under the list. */
    method ClearRecordedTimes()
      modifies this
      ensures recordedTimes == [] && time == old(time) && running == old(running)
    {
      recordedTimes := [];
    }

    /** Because the time moves in 10 ms steps, its formatted form determines it exactly. */
    lemma RecordedTimeIsExact()
      requires Valid()
      ensures var s := FormatTime(time);
        && Js.AllDigits(MinutesField(s)) && Js.AllDigits(SecondsField(s)) && Js.AllDigits(HundredthsField(s))
        && 60000 * Js.DigitsValue(MinutesField(s)) + 1000 * Js.DigitsValue(SecondsField(s))
        + 10 * Js.DigitsValue(HundredthsField(s)) == time
    {
      FormatTimeRoundTrip(time);
    }
  }
}
