/**
 * The two formatters of the system-information plugin: a byte count shown
 * in the largest fitting binary unit up to TB, and an uptime split into
 * days, hours and minutes. Probing the machine is outside the model.
 */
module SystemInfo {
  import opened Text

  // ---------------------------------------------------------------------
  // format_bytes
  // ---------------------------------------------------------------------

  const Power := 1024

  /** `power_labels`, indexed by the number of divisions by 1024. */
  const PowerLabels: seq<string> := ["B", "KB", "MB", "GB", "TB"]

  /** The largest unit index: `len(power_labels) - 1`. */
  const MaxUnit := |PowerLabels| - 1

  function Pow1024(n: nat): (p: nat)
    ensures p >= 1
  {
    if n == 0 then 1 else Power * Pow1024(n - 1)
  }

  /** A size as `format_bytes` shows it, before the one-decimal rendering. */
  datatype ByteAmount = ByteAmount(value: real, unit: nat)

  /**
   * The unit `format_bytes` settles on, defined by thresholds instead of by
   * the loop: the number of the powers 1024, 1024^2, 1024^3, 1024^4 that
   * the size exceeds.
   */
  function UnitFor(size: nat): (n: nat)
    ensures n <= MaxUnit
    ensures n >= 1 ==> size > Pow1024(n)
    ensures n < MaxUnit ==> size <= Pow1024(n + 1)
  {
    if size > Pow1024(4) then 4
    else if size > Pow1024(3) then 3
    else if size > Pow1024(2) then 2
    else if size > Pow1024(1) then 1
    else 0
  }

  lemma Pow1024Grows(m: nat, n: nat)
    requires m <= n
    ensures Pow1024(m) <= Pow1024(n)
    decreases n
  {
    if m < n {
      Pow1024Grows(m, n - 1);
    }
  }

  /** The thresholds pin down the unit: any n with those bounds is `UnitFor(size)`. */
  lemma UnitForUnique(size: nat, n: nat)
    requires n <= MaxUnit
    requires n >= 1 ==> size > Pow1024(n)
    requires n < MaxUnit ==> size <= Pow1024(n + 1)
    ensures n == UnitFor(size)
  {
    var u := UnitFor(size);
    if u < n {
      Pow1024Grows(u + 1, n);
    } else if n < u {
      Pow1024Grows(n + 1, u);
    }
  }

  /** `x / 1024 > 1024` is `size > 1024^(n+1)` when `x` is `size / 1024^n`. */
  lemma ScaledAbove(size: nat, n: nat, x: real)
    requires x * Pow1024(n) as real == size as real
    ensures x > Power as real <==> size > Pow1024(n + 1)
  {
    var p := Pow1024(n) as real;
    assert Pow1024(n + 1) as real == Power as real * p;
    if x > Power as real {
      assert x * p > Power as real * p;
    } else {
      assert x * p <= Power as real * p;
    }
  }

  /**
   * `format_bytes(size)`: divide by 1024 while the value exceeds 1024 and a
   * larger unit exists. A zero size is "0.0 B".
   */
  method FormatBytes(size: nat) returns (amount: ByteAmount)
    ensures amount.unit <= MaxUnit
    ensures amount.value * Pow1024(amount.unit) as real == size as real
    ensures amount.unit == MaxUnit || amount.value <= Power as real
    ensures amount.unit >= 1 ==> size as real / Pow1024(amount.unit - 1) as real > Power as real
    ensures size <= Power ==> amount.unit == 0
    ensures amount.unit == UnitFor(size)
    ensures size == 0 ==> amount == ByteAmount(0.0, 0)
  {
    if size == 0 {
      return ByteAmount(0.0, 0);
    }
    var value := size as real;
    var n := 0;
    while value > Power as real && n < MaxUnit
      invariant n <= MaxUnit
      invariant value * Pow1024(n) as real == size as real
      invariant n >= 1 ==> size > Pow1024(n)
      decreases MaxUnit - n
    {
      ScaledAbove(size, n, value);
      value := value / Power as real;
      n := n + 1;
    }
    ScaledAbove(size, n, value);
    UnitForUnique(size, n);
    if n >= 1 {
      assert size as real > Pow1024(n) as real;
      assert Pow1024(n) as real == Power as real * Pow1024(n - 1) as real;
    }
    amount := ByteAmount(value, n);
  }

  // ---------------------------------------------------------------------
  // format_uptime
  // ---------------------------------------------------------------------

  datatype Uptime = Uptime(days: nat, hours: nat, minutes: nat)

  /** The days, hours and minutes of `timedelta(seconds=s)`; leftover seconds are dropped. */
  function SplitUptime(seconds: nat): (u: Uptime)
    ensures u.hours < 24 && u.minutes < 60
    ensures u.days * 86400 + u.hours * 3600 + u.minutes * 60 <= seconds
    ensures seconds < u.days * 86400 + u.hours * 3600 + u.minutes * 60 + 60
  {
    var rest := seconds % 86400;
    Uptime(seconds / 86400, rest / 3600, rest % 3600 / 60)
  }

  /** Any split with those bounds is the one `format_uptime` computes. */
  lemma SplitUptimeUnique(seconds: nat, u: Uptime)
    requires u.hours < 24 && u.minutes < 60
    requires u.days * 86400 + u.hours * 3600 + u.minutes * 60 <= seconds
    requires seconds < u.days * 86400 + u.hours * 3600 + u.minutes * 60 + 60
    ensures u == SplitUptime(seconds)
  {
    var v := SplitUptime(seconds);
    var a := u.hours * 3600 + u.minutes * 60;
    var b := v.hours * 3600 + v.minutes * 60;
    assert 0 <= a < 86400 && 0 <= b < 86400;
    assert u.days == v.days;
    assert u.hours == v.hours;
  }

  /** The f-string "{d}d {h}h {m}m". */
  function UptimeText(u: Uptime): string {
    NatToString(u.days) + "d " + NatToString(u.hours) + "h " + NatToString(u.minutes) + "m"
  }

  /** `format_uptime(seconds)`. */
  function FormatUptime(seconds: nat): string {
    UptimeText(SplitUptime(seconds))
  }

  /** The digits before a non-digit marker cannot be longer on one side than the other. */
  lemma DigitsStopAtMarker(p: string, q: string, marker: string, x: string, y: string)
    requires IsDigits(q) && |marker| > 0 && !IsDigit(marker[0])
    requires p + (marker + x) == q + (marker + y)
    ensures |q| <= |p|
  {
    var l := q + (marker + y);
    assert forall i :: 0 <= i < |q| ==> IsDigit(l[i]);
    assert l == p + (marker + x) && l[|p|] == marker[0];
  }

  /** A number followed by a non-digit marker: the digits and the rest can be read back. */
  lemma NumberBeforeMarker(p: string, q: string, marker: string, x: string, y: string)
    requires IsDigits(p) && IsDigits(q) && |marker| > 0 && !IsDigit(marker[0])
    requires p + (marker + x) == q + (marker + y)
    ensures p == q && x == y
  {
    DigitsStopAtMarker(p, q, marker, x, y);
    DigitsStopAtMarker(q, p, marker, y, x);
    var l := p + (marker + x);
    assert p == l[..|p|] == q;
    assert x == l[|p| + |marker|..] == y;
  }

  /** The minutes since boot the split describes. */
  function UptimeMinutes(u: Uptime): nat {
    u.days * 1440 + u.hours * 60 + u.minutes
  }

  lemma SplitUptimeMinutes(seconds: nat)
    ensures UptimeMinutes(SplitUptime(seconds)) == seconds / 60
  {
    var k := UptimeMinutes(SplitUptime(seconds));
    assert k * 60 <= seconds < k * 60 + 60;
  }

  /** Equal uptime texts come from equal splits. */
  lemma UptimeTextReadsBack(u: Uptime, v: Uptime)
    requires UptimeText(u) == UptimeText(v)
    ensures u == v
  {
    var d1, h1, m1 := NatToString(u.days), NatToString(u.hours), NatToString(u.minutes);
    var d2, h2, m2 := NatToString(v.days), NatToString(v.hours), NatToString(v.minutes);
    assert UptimeText(u) == d1 + ("d " + (h1 + ("h " + (m1 + ("m" + "")))));
    assert UptimeText(v) == d2 + ("d " + (h2 + ("h " + (m2 + ("m" + "")))));
    NumberBeforeMarker(d1, d2, "d ", h1 + ("h " + (m1 + ("m" + ""))), h2 + ("h " + (m2 + ("m" + ""))));
    NumberBeforeMarker(h1, h2, "h ", m1 + ("m" + ""), m2 + ("m" + ""));
    NumberBeforeMarker(m1, m2, "m", "", "");
    ParseNatToString(u.days);
    ParseNatToString(v.days);
    ParseNatToString(u.hours);
    ParseNatToString(v.hours);
    ParseNatToString(u.minutes);
    ParseNatToString(v.minutes);
  }

  /** Two uptimes show the same text exactly when they agree to the minute. */
  lemma FormatUptimeToTheMinute(s1: nat, s2: nat)
    ensures FormatUptime(s1) == FormatUptime(s2) <==> s1 / 60 == s2 / 60
  {
    var u, v := SplitUptime(s1), SplitUptime(s2);
    SplitUptimeMinutes(s1);
    SplitUptimeMinutes(s2);
    if s1 / 60 == s2 / 60 {
      SplitUptimeUnique(s2, u);
    }
    if FormatUptime(s1) == FormatUptime(s2) {
      UptimeTextReadsBack(u, v);
    }
  }
}
