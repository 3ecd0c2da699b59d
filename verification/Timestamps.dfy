/** Timestamps as they are stored in snapshots (backend/core/time.py) and read back. */
module Timestamps {
  import opened Wrappers
  import opened Text
  import opened Hostnames

  /** A UTC datetime. */
  datatype DateTime = DateTime(year: nat, month: nat, day: nat, hour: nat, minute: nat, second: nat, micros: nat)

  predicate IsLeap(y: nat) {
    y % 4 == 0 && (y % 100 != 0 || y % 400 == 0)
  }

  function DaysIn(y: nat, m: nat): nat {
    if m == 2 then (if IsLeap(y) then 29 else 28) else if m in {4, 6, 9, 11} then 30 else 31
  }

  predicate ValidDate(y: nat, m: nat, d: nat) {
    1 <= y <= 9999 && 1 <= m <= 12 && 1 <= d <= DaysIn(y, m)
  }

  predicate ValidTime(h: nat, m: nat, s: nat, us: nat) {
    h < 24 && m < 60 && s < 60 && us < 1_000_000
  }

  predicate Valid(t: DateTime) {
    ValidDate(t.year, t.month, t.day) && ValidTime(t.hour, t.minute, t.second, t.micros)
  }

  /** Chronological rank. */
  function Rank(t: DateTime): int {
    (((((t.year * 13 + t.month) * 32 + t.day) * 24 + t.hour) * 60 + t.minute) * 60 + t.second) * 1_000_000 + t.micros
  }

  /** Earlier in the calendar: by year, then month, and so on down to the microsecond. */
  predicate Earlier(t: DateTime, u: DateTime) {
    if t.year != u.year then t.year < u.year
    else if t.month != u.month then t.month < u.month
    else if t.day != u.day then t.day < u.day
    else if t.hour != u.hour then t.hour < u.hour
    else if t.minute != u.minute then t.minute < u.minute
    else if t.second != u.second then t.second < u.second
    else t.micros < u.micros
  }

  lemma DateRank(y: int, m: int, d: int, y': int, m': int, d': int)
    requires 1 <= m <= 12 && 1 <= m' <= 12 && 1 <= d <= 31 && 1 <= d' <= 31
    ensures (y * 13 + m) * 32 + d < (y' * 13 + m') * 32 + d' <==>
            y < y' || (y == y' && (m < m' || (m == m' && d < d')))
    ensures (y * 13 + m) * 32 + d == (y' * 13 + m') * 32 + d' <==> y == y' && m == m' && d == d'
  {
  }

  /** The rank orders datetimes as the calendar does. */
  lemma RankIsChronological(t: DateTime, u: DateTime)
    requires Valid(t) && Valid(u)
    ensures Rank(t) < Rank(u) <==> Earlier(t, u)
    ensures Rank(t) == Rank(u) <==> t == u
  {
    DateRank(t.year, t.month, t.day, u.year, u.month, u.day);
  }

  // ----- printing --------------------------------------------------------

  function Pad(n: nat, width: nat): (r: string)
    ensures |r| == width
    ensures forall c :: c in r ==> IsDigit(c)
  {
    if width == 0 then "" else Pad(n / 10, width - 1) + [(n % 10 + '0' as int) as char]
  }

  function PrintDate(y: nat, m: nat, d: nat): (r: string)
    ensures |r| == 10
  {
    Pad(y, 4) + "-" + Pad(m, 2) + "-" + Pad(d, 2)
  }

  function PrintTime(h: nat, m: nat, s: nat, us: nat): (r: string)
    ensures |r| == if us == 0 then 8 else 15
  {
    Pad(h, 2) + ":" + Pad(m, 2) + ":" + Pad(s, 2) + if us == 0 then "" else "." + Pad(us, 6)
  }

  const UTC_OFFSET := "+00:00"

  function Body(t: DateTime): string {
    PrintDate(t.year, t.month, t.day) + "T" + PrintTime(t.hour, t.minute, t.second, t.micros)
  }

  /** isoformat() of a UTC datetime. */
  function IsoFormat(t: DateTime): string {
    Body(t) + UTC_OFFSET
  }

  /** str.replace */
  function Replace(s: string, old_: string, new_: string): string
    requires old_ != ""
  {
    if s == "" then ""
    else if old_ <= s then new_ + Replace(s[|old_|..], old_, new_)
    else [s[0]] + Replace(s[1..], old_, new_)
  }

  function UtcIso(t: DateTime): string {
    Replace(IsoFormat(t), UTC_OFFSET, "Z")
  }

  // ----- parsing ---------------------------------------------------------

  predicate AllDigits(s: string) {
    forall c :: c in s ==> IsDigit(c)
  }

  function ParseDate(s: string): Option<(nat, nat, nat)>
    requires |s| == 10
  {
    if !AllDigits(s[..4]) || s[4] != '-' || !AllDigits(s[5..7]) || s[7] != '-' || !AllDigits(s[8..]) then None
    else
      var (y, m, d) := (DigitsValue(s[..4]), DigitsValue(s[5..7]), DigitsValue(s[8..]));
      if ValidDate(y, m, d) then Some((y, m, d)) else None
  }

  function ParseMicros(s: string): Option<nat> {
    if s == "" then Some(0)
    else if |s| == 7 && s[0] == '.' && AllDigits(s[1..]) then Some(DigitsValue(s[1..]))
    else None
  }

  function ParseTime(s: string): Option<(nat, nat, nat, nat)>
    requires |s| >= 8
  {
    if !AllDigits(s[..2]) || s[2] != ':' || !AllDigits(s[3..5]) || s[5] != ':' || !AllDigits(s[6..8]) then None
    else
      var (h, m, sec, us) := (DigitsValue(s[..2]), DigitsValue(s[3..5]), DigitsValue(s[6..8]), ParseMicros(s[8..]));
      if us.Some? && ValidTime(h, m, sec, us.value) then Some((h, m, sec, us.value)) else None
  }

  /** fromisoformat on the layout that isoformat writes for UTC. */
  function FromIso(s: string): Option<DateTime> {
    if |s| < 25 || s[|s| - 6..] != UTC_OFFSET || s[10] != 'T' then None
    else
      var (date, time) := (ParseDate(s[..10]), ParseTime(s[11..|s| - 6]));
      if date.None? || time.None? then None
      else
        var (y, mo, d) := date.value;
        var (h, mi, sec, us) := time.value;
        Some(DateTime(y, mo, d, h, mi, sec, us))
  }

  function ParseUtc(s: string): Option<DateTime> {
    FromIso(Replace(s, "Z", UTC_OFFSET))
  }

  // ----- round trip ------------------------------------------------------

  function Pow10(n: nat): nat {
    if n == 0 then 1 else 10 * Pow10(n - 1)
  }

  lemma {:induction false} PadValue(n: nat, width: nat)
    requires n < Pow10(width)
    ensures DigitsValue(Pad(n, width)) == n
  {
    if width > 0 {
      PadValue(n / 10, width - 1);
      var s := Pad(n, width);
      assert s[..|s| - 1] == Pad(n / 10, width - 1);
    }
  }

  lemma Powers()
    ensures Pow10(2) == 100 && Pow10(4) == 10000 && Pow10(6) == 1_000_000
  {
    assert Pow10(3) == 1000;
    assert Pow10(5) == 100000;
  }

  lemma DateRoundTrip(y: nat, m: nat, d: nat)
    requires ValidDate(y, m, d)
    ensures ParseDate(PrintDate(y, m, d)) == Some((y, m, d))
  {
    Powers();
    PadValue(y, 4);
    PadValue(m, 2);
    PadValue(d, 2);
    DateSlices(Pad(y, 4), Pad(m, 2), Pad(d, 2));
  }

  lemma DateSlices(y: string, m: string, d: string)
    requires |y| == 4 && |m| == 2 && |d| == 2
    ensures var t := y + "-" + m + "-" + d;
            |t| == 10 && t[..4] == y && t[4] == '-' && t[5..7] == m && t[7] == '-' && t[8..] == d
  {
  }

  lemma MicrosRoundTrip(us: nat)
    requires us < 1_000_000
    ensures ParseMicros(if us == 0 then "" else "." + Pad(us, 6)) == Some(us)
  {
    Powers();
    PadValue(us, 6);
    assert ("." + Pad(us, 6))[1..] == Pad(us, 6);
  }

  lemma ClockSlices(h: string, m: string, s: string, rest: string)
    requires |h| == 2 && |m| == 2 && |s| == 2
    ensures var t := h + ":" + m + ":" + s + rest;
            t[..2] == h && t[2] == ':' && t[3..5] == m && t[5] == ':' && t[6..8] == s && t[8..] == rest
  {
  }

  lemma TimeRoundTrip(h: nat, m: nat, s: nat, us: nat)
    requires ValidTime(h, m, s, us)
    ensures ParseTime(PrintTime(h, m, s, us)) == Some((h, m, s, us))
  {
    Powers();
    PadValue(h, 2);
    PadValue(m, 2);
    PadValue(s, 2);
    MicrosRoundTrip(us);
    ClockSlices(Pad(h, 2), Pad(m, 2), Pad(s, 2), if us == 0 then "" else "." + Pad(us, 6));
  }

  lemma IsoRoundTrip(t: DateTime)
    requires Valid(t)
    ensures FromIso(IsoFormat(t)) == Some(t)
  {
    DateRoundTrip(t.year, t.month, t.day);
    TimeRoundTrip(t.hour, t.minute, t.second, t.micros);
    var s := IsoFormat(t);
    assert s[..10] == PrintDate(t.year, t.month, t.day);
    assert s[11..|s| - 6] == PrintTime(t.hour, t.minute, t.second, t.micros);
    assert s[|s| - 6..] == UTC_OFFSET;
  }

  /** Replacing a suffix whose first character occurs nowhere before it. */
  lemma {:induction false} ReplaceSuffix(body: string, old_: string, new_: string)
    requires old_ != "" && forall i :: 0 <= i < |body| ==> body[i] != old_[0]
    ensures Replace(body + old_, old_, new_) == body + new_
  {
    if body == "" {
      assert body + old_ == old_;
      assert old_[|old_|..] == "";
      assert new_ + "" == new_;
    } else {
      var s := body + old_;
      assert s[0] == body[0] && s[1..] == body[1..] + old_;
      ReplaceSuffix(body[1..], old_, new_);
      assert body == [body[0]] + body[1..];
    }
  }

  lemma BodyChars(t: DateTime)
    ensures forall c :: c in Body(t) ==> IsDigit(c) || c in "-T:."
  {
    var d, u := PrintDate(t.year, t.month, t.day), PrintTime(t.hour, t.minute, t.second, t.micros);
    forall c | c in d ensures IsDigit(c) || c == '-' {
    }
    forall c | c in u ensures IsDigit(c) || c == ':' || c == '.' {
    }
  }

  /** The stored layout: date and time in decimal, six digits of microseconds unless they are zero, and a final Z. */
  lemma LayoutMeans(t: DateTime)
    ensures UtcIso(t) ==
            Pad(t.year, 4) + "-" + Pad(t.month, 2) + "-" + Pad(t.day, 2) + "T"
            + (Pad(t.hour, 2) + ":" + Pad(t.minute, 2) + ":" + Pad(t.second, 2)
               + if t.micros == 0 then "" else "." + Pad(t.micros, 6))
            + "Z"
  {
    BodyChars(t);
    forall i | 0 <= i < |Body(t)| ensures Body(t)[i] != '+' {
      assert Body(t)[i] in Body(t);
    }
    ReplaceSuffix(Body(t), UTC_OFFSET, "Z");
  }

  /** What is written to a snapshot reads back as the same instant. */
  lemma UtcRoundTrip(t: DateTime)
    requires Valid(t)
    ensures ParseUtc(UtcIso(t)) == Some(t)
  {
    BodyChars(t);
    var body := Body(t);
    forall i | 0 <= i < |body| ensures body[i] != '+' && body[i] != 'Z' {
      assert body[i] in body;
    }
    ReplaceSuffix(body, UTC_OFFSET, "Z");
    ReplaceSuffix(body, "Z", UTC_OFFSET);
    IsoRoundTrip(t);
  }
}
