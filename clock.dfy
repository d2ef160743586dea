/** The countdown's `m:ss` text: the minutes in decimal, a colon, and the
    seconds left-padded with '0' to two digits. A small reader of that text is
    its partner: reading back what was rendered gives the seconds that were
    left, so no two second counts render alike. */
module Clock {
  import opened Options

  function DigitChar(d: nat): char
    requires d < 10
  {
    ('0' as int + d) as char
  }

  /** What JavaScript's template literal prints for a non-negative integer. */
  function DecimalText(n: nat): (r: string)
    ensures 1 <= |r|
    ensures n < 10 ==> |r| == 1
    decreases n
  {
    if n < 10 then [DigitChar(n)] else DecimalText(n / 10) + [DigitChar(n % 10)]
  }

  /** The value a string of decimal digits denotes, or None when some character
      is not a digit (the empty string reads as 0). */
  function DecimalValue(s: string): Option<nat>
    decreases |s|
  {
    if s == [] then Some(0)
    else
      var last := s[|s| - 1];
      match DecimalValue(s[..|s| - 1])
      case None => None
      case Some(v) => if '0' <= last <= '9' then Some(v * 10 + (last as int - '0' as int)) else None
  }

  /** `s.padStart(width, '0')`: zeros in front of s up to the given width. */
  function PadStart(s: string, width: nat): (r: string)
    ensures |r| == if |s| < width then width else |s|
  {
    if |s| < width then seq(width - |s|, _ => '0') + s else s
  }

  /** `${Math.floor(t / 60)}:${(t % 60).toString().padStart(2, '0')}`, for t >= 0. */
  function ClockText(t: nat): string {
    Face(t / 60, t % 60)
  }

  /** The text for given minutes and seconds fields. */
  function Face(minutes: nat, secs: nat): string
    requires secs < 60
  {
    DecimalText(minutes) + ":" + PadStart(DecimalText(secs), 2)
  }

  /** Reads a text of the form `m:ss`, with ss below 60, as the number of seconds it shows. */
  function ParseClock(c: string): Option<nat> {
    if |c| >= 4 && c[|c| - 3] == ':' then
      match (DecimalValue(c[..|c| - 3]), DecimalValue(c[|c| - 2..]))
      case (Some(m), Some(s)) => if s < 60 then Some(m * 60 + s) else None
      case _ => None
    else None
  }

  lemma {:induction false} DecimalRoundTrip(n: nat)
    ensures DecimalValue(DecimalText(n)) == Some(n)
    decreases n
  {
    var s := DecimalText(n);
    if n < 10 {
      assert s[..|s| - 1] == [];
    } else {
      DecimalRoundTrip(n / 10);
      assert s[..|s| - 1] == DecimalText(n / 10);
    }
  }

  /** A leading '0' does not change the value a digit string denotes. */
  lemma {:induction false} LeadingZero(s: string)
    ensures DecimalValue("0" + s) == DecimalValue(s)
    decreases |s|
  {
    var z := "0" + s;
    if s == [] {
      assert z[..|z| - 1] == [];
    } else {
      LeadingZero(s[..|s| - 1]);
      assert z[..|z| - 1] == "0" + s[..|s| - 1];
    }
  }

  /** Nor do any number of leading zeros. */
  lemma {:induction false} LeadingZeros(k: nat, s: string)
    ensures DecimalValue(seq(k, _ => '0') + s) == DecimalValue(s)
    decreases k
  {
    if k == 0 {
      assert seq(k, _ => '0') + s == s;
    } else {
      LeadingZeros(k - 1, s);
      var rest := seq(k - 1, _ => '0') + s;
      assert seq(k, _ => '0') + s == "0" + rest;
      LeadingZero(rest);
    }
  }

  /** Padding the seconds gives two characters that still read as the seconds. */
  lemma SecondsText(secs: nat)
    requires secs < 60
    ensures |PadStart(DecimalText(secs), 2)| == 2
    ensures DecimalValue(PadStart(DecimalText(secs), 2)) == Some(secs)
  {
    var d := DecimalText(secs);
    if secs >= 10 {
      assert |DecimalText(secs / 10)| == 1;
    }
    DecimalRoundTrip(secs);
    if |d| < 2 {
      LeadingZeros(2 - |d|, d);
    }
  }

  lemma Split(m: string, p: string)
    requires |p| == 2
    ensures var r := m + ":" + p;
      |r| >= 3 && r[|r| - 3] == ':' && r[..|r| - 3] == m && r[|r| - 2..] == p
  {
    var r := m + ":" + p;
    assert r[..|m|] == m;
    assert r[|m| + 1..] == p;
  }

  lemma FaceRoundTrip(minutes: nat, secs: nat)
    requires secs < 60
    ensures ParseClock(Face(minutes, secs)) == Some(minutes * 60 + secs)
  {
    var m, p := DecimalText(minutes), PadStart(DecimalText(secs), 2);
    SecondsText(secs);
    Split(m, p);
    DecimalRoundTrip(minutes);
  }

  /** Reading back the rendered text gives the seconds that were left: the
      minutes field times 60 plus the seconds field is the count shown. */
  lemma ClockRoundTrip(t: nat)
    ensures ParseClock(ClockText(t)) == Some(t)
  {
    FaceRoundTrip(t / 60, t % 60);
  }

  /** The tick that sees 0 seconds left is the one, and the only one, that renders `0:00`. */
  lemma ZeroClock(t: nat)
    ensures ClockText(t) == "0:00" <==> t == 0
  {
    if ClockText(t) == "0:00" {
      ClockRoundTrip(t);
      FaceRoundTrip(0, 0);
      assert ClockText(0) == Face(0, 0);
    }
    if t == 0 {
      assert DecimalText(0) == "0";
      assert PadStart("0", 2) == "00";
    }
  }

  /** Distinct second counts render as distinct texts. */
  lemma ClockTextInjective(t: nat, u: nat)
    ensures ClockText(t) == ClockText(u) <==> t == u
  {
    ClockRoundTrip(t);
    ClockRoundTrip(u);
  }
}
