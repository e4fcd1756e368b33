/** `getCountdown` of Rescue-connect/src/DonateDashboard.jsx: the time left
    before a food expires, in whole hours and minutes. */
module DonateDashboard {
  import opened Common
  import opened DonationSchema
  import Text

  const Minute: int := 60_000

  /** A countdown: expired, or a number of hours and leftover minutes. */
  datatype Countdown = Expired | Left(hours: nat, minutes: nat)

  /** If a == b * q + r with 0 <= r < b, then q and r are the quotient and
      remainder of a by b. */
  lemma DivMod(a: int, b: int, q: int, r: int)
    requires b > 0 && a == b * q + r && 0 <= r < b
    ensures a / b == q && a % b == r
  {
    var d := q - a / b;
    assert b * d == a % b - r by {
      assert a == b * (a / b) + a % b;
      assert b * q - b * (a / b) == b * d;
    }
    if d > 0 {
      MulAtLeast(b, d);
    } else if d < 0 {
      MulAtLeast(b, -d);
    }
  }

  lemma MulAtLeast(b: int, d: int)
    requires b > 0 && d >= 1
    ensures b * d >= b
  {
    assert b * d == b + b * (d - 1);
  }

  /** Whole hours are whole minutes split into groups of sixty. */
  lemma {:induction false} HoursFromMinutes(diff: nat)
    ensures diff / Hour == (diff / Minute) / 60
    ensures (diff / Hour) * 60 + (diff / Minute) % 60 == diff / Minute
  {
    var m, r := diff / Minute, diff % Minute;
    var q, s := m / 60, m % 60;
    assert diff == Hour * q + (Minute * s + r) by {
      assert m == 60 * q + s;
      assert diff == Minute * m + r;
      assert Minute * m == Minute * 60 * q + Minute * s;
    }
    assert 0 <= Minute * s + r < Hour by {
      assert Minute * s <= Minute * 59;
    }
    DivMod(diff, Hour, q, Minute * s + r);
  }

  /** `getCountdown(createdAt, expiryHours)` at time `now`. The food expires
      `expiryHours` whole hours after `createdAt`; once that moment is not in
      the future the answer is Expired. Otherwise the hours are the whole
      hours left and the minutes the whole minutes left beyond them, so
      hours and minutes together are the whole minutes left. */
  function GetCountdown(createdAt: Millis, expiryHours: int, now: Millis): (c: Countdown)
    ensures c.Expired? <==> ExpiresAt(createdAt, expiryHours) <= now
    ensures c.Left? ==>
              var diff := ExpiresAt(createdAt, expiryHours) - now;
              && c.minutes < 60
              && c.hours * 60 + c.minutes == diff / Minute
              && c.hours * Hour <= diff < (c.hours + 1) * Hour
  {
    var diff := ExpiresAt(createdAt, expiryHours) - now;
    if diff <= 0 then Expired
    else
      HoursFromMinutes(diff);
      Left(diff / Hour, (diff / Minute) % 60)
  }

  /** Minutes are never shown as 60 or more, and a countdown moves to the
      next hour exactly when the whole minutes left cross a multiple of 60:
      one minute's difference in the time left changes the shown value by
      one minute. */
  lemma {:induction false} CountdownStep(createdAt: Millis, expiryHours: int, now: Millis)
    requires ExpiresAt(createdAt, expiryHours) - now > Minute
    ensures GetCountdown(createdAt, expiryHours, now).Left?
    ensures GetCountdown(createdAt, expiryHours, now + Minute).Left?
    ensures var a, b := GetCountdown(createdAt, expiryHours, now), GetCountdown(createdAt, expiryHours, now + Minute);
            a.hours * 60 + a.minutes == b.hours * 60 + b.minutes + 1
  {
    var diff := ExpiresAt(createdAt, expiryHours) - now;
    DivMod(diff - Minute, Minute, diff / Minute - 1, diff % Minute);
  }

  /** The text shown: "Expired", or `${hours}h ${minutes}m left`. */
  function CountdownText(c: Countdown): (s: string)
    ensures s == "Expired" <==> c.Expired?
  {
    match c
    case Expired => "Expired"
    case Left(h, m) =>
      var s := Text.Decimal(h) + "h " + Text.Decimal(m) + "m left";
      assert s[|s| - 1] == 't';
      s
  }

  /** The number of digits at the front of `s`. */
  function DigitRun(s: string): nat {
    if s == [] || !('0' <= s[0] <= '9') then 0 else 1 + DigitRun(s[1..])
  }

  /** Digits followed by a non-digit: the run of leading digits is exactly
      the digit part. */
  lemma {:induction false} DigitRunOf(a: string, x: string)
    requires forall i :: 0 <= i < |a| ==> '0' <= a[i] <= '9'
    requires x != [] && !('0' <= x[0] <= '9')
    ensures DigitRun(a + x) == |a|
  {
    if a != [] {
      assert (a + x)[1..] == a[1..] + x;
      DigitRunOf(a[1..], x);
    }
  }

  /** A text made of digits and then a non-digit splits in one way only. */
  lemma SameSplit(a: string, b: string, x: string, y: string)
    requires forall i :: 0 <= i < |a| ==> '0' <= a[i] <= '9'
    requires forall i :: 0 <= i < |b| ==> '0' <= b[i] <= '9'
    requires x != [] && y != [] && !('0' <= x[0] <= '9') && !('0' <= y[0] <= '9')
    requires a + x == b + y
    ensures a == b && x == y
  {
    DigitRunOf(a, x);
    DigitRunOf(b, y);
    assert a == (a + x)[..|a|];
    assert b == (b + y)[..|b|];
  }

  /** Distinct countdowns are shown as distinct texts. */
  lemma CountdownTextInjective(c: Countdown, d: Countdown)
    requires CountdownText(c) == CountdownText(d)
    ensures c == d
  {
    if c.Left? && d.Left? {
      var hc, hd := Text.Decimal(c.hours), Text.Decimal(d.hours);
      var mc, md := Text.Decimal(c.minutes), Text.Decimal(d.minutes);
      assert CountdownText(c) == hc + ("h " + mc + "m left");
      assert CountdownText(d) == hd + ("h " + md + "m left");
      SameSplit(hc, hd, "h " + mc + "m left", "h " + md + "m left");
      Text.DecimalInjective(c.hours, d.hours);
      assert mc + "m left" == ("h " + mc + "m left")[2..];
      assert md + "m left" == ("h " + md + "m left")[2..];
      SameSplit(mc, md, "m left", "m left");
      Text.DecimalInjective(c.minutes, d.minutes);
    }
  }
}
