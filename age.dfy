/**
 * Ages of objects: the elapsed time since a timestamp, coarsened to the
 * largest unit that keeps it readable, as `ago` in the k8s helper module.
 * Times and durations are whole nanoseconds.
 */
module K8s {
  import opened Common

  const SECOND: int := 1_000_000_000
  const MINUTE: int := 60 * SECOND
  const HOUR: int := 3600 * SECOND
  const DAY: int := 86400 * SECOND

  /** Integer division rounding toward zero, as Rust's `/` on `i64`. */
  function TruncDiv(a: int, b: int): (q: int)
    requires b > 0
    ensures a >= 0 ==> q * b <= a < q * b + b
    ensures a < 0 ==> q * b - b < a <= q * b
  {
    if a >= 0 then a / b else -((-a) / b)
  }

  /** `Duration::num_seconds`: whole seconds, rounded toward zero. */
  function NumSeconds(age: int): int {
    TruncDiv(age, SECOND)
  }

  /** `Duration::num_minutes`. */
  function NumMinutes(age: int): int {
    TruncDiv(NumSeconds(age), 60)
  }

  /** `Duration::num_hours`. */
  function NumHours(age: int): int {
    TruncDiv(NumSeconds(age), 3600)
  }

  /** `Duration::num_days`. */
  function NumDays(age: int): int {
    TruncDiv(NumSeconds(age), 86400)
  }

  /**
   * The four truncation steps of `ago`, each applied to the result of the
   * one before: over two days to whole days, over two hours to whole hours,
   * over two minutes to whole minutes, and finally to whole seconds.
   */
  function Coarsen(age: int): (r: int)
    ensures r % SECOND == 0
    ensures age <= 2 * MINUTE ==> r == NumSeconds(age) * SECOND
  {
    var afterDays := if age > 2 * DAY then NumDays(age) * DAY else age;
    var afterHours := if afterDays > 2 * HOUR then NumHours(afterDays) * HOUR else afterDays;
    var afterMinutes := if afterHours > 2 * MINUTE then NumMinutes(afterHours) * MINUTE else afterHours;
    var secs := NumSeconds(afterMinutes);
    MultipleOfSecond(secs);
    secs * SECOND
  }

  lemma MultipleOfSecond(q: int)
    ensures (q * SECOND) % SECOND == 0
  {
  }

  /** The unit a non-negative age is truncated to. */
  function Unit(age: int): int {
    if age > 2 * DAY then DAY
    else if age > 2 * HOUR then HOUR
    else if age > 2 * MINUTE then MINUTE
    else SECOND
  }

  /** Values the truncation steps leave unchanged. */
  ghost predicate Coarse(x: int) {
    if x > 2 * DAY then x % DAY == 0
    else if x > 2 * HOUR then x % HOUR == 0
    else if x > 2 * MINUTE then x % MINUTE == 0
    else x % SECOND == 0
  }

  /** Whole seconds: `q` seconds are exactly `q` seconds. */
  lemma WholeSeconds(q: int)
    requires q >= 0
    ensures NumSeconds(q * SECOND) == q && (q * SECOND) % SECOND == 0
  {
  }

  lemma WholeMinutes(q: int)
    requires q >= 0
    ensures q * MINUTE == (q * 60) * SECOND && (q * MINUTE) % MINUTE == 0
    ensures TruncDiv(q * 60, 60) == q
  {
    WholeSeconds(q * 60);
  }

  lemma WholeHours(q: int)
    requires q >= 0
    ensures q * HOUR == (q * 3600) * SECOND && q * HOUR == (q * 60) * MINUTE && (q * HOUR) % HOUR == 0
    ensures TruncDiv(q * 3600, 3600) == q && TruncDiv(q * 3600, 60) == q * 60
  {
    WholeSeconds(q * 3600);
  }

  lemma WholeDays(q: int)
    requires q >= 0
    ensures q * DAY == (q * 86400) * SECOND && q * DAY == (q * 24) * HOUR && q * DAY == (q * 1440) * MINUTE
    ensures TruncDiv(q * 86400, 86400) == q && TruncDiv(q * 86400, 3600) == q * 24 && TruncDiv(q * 86400, 60) == q * 1440
  {
    WholeSeconds(q * 86400);
  }

  /** Over two days: whole days, at most one day lost. */
  lemma TruncateToDays(age: int)
    requires age > 2 * DAY
    ensures Coarsen(age) == NumDays(age) * DAY
    ensures 0 <= age - Coarsen(age) < DAY
    ensures Coarsen(age) % SECOND == 0 && Coarse(Coarsen(age))
  {
    var d := NumDays(age);
    assert d >= 2;
    WholeDays(d);
    WholeSeconds(d * 86400);
    assert NumSeconds(d * DAY) == d * 86400;
    assert NumHours(d * DAY) == d * 24;
    assert NumSeconds(d * 24 * HOUR) == d * 86400;
    assert NumMinutes(d * DAY) == d * 1440;
    assert NumSeconds(d * 1440 * MINUTE) == d * 86400;
  }

  /** Over two hours and up to two days: whole hours, at most one hour lost. */
  lemma TruncateToHours(age: int)
    requires 2 * HOUR < age <= 2 * DAY
    ensures Coarsen(age) == NumHours(age) * HOUR
    ensures 0 <= age - Coarsen(age) < HOUR
    ensures Coarsen(age) % SECOND == 0 && Coarse(Coarsen(age))
  {
    var h := NumHours(age);
    assert h >= 2;
    WholeHours(h);
    WholeSeconds(h * 3600);
    assert NumSeconds(h * HOUR) == h * 3600;
    assert NumMinutes(h * HOUR) == h * 60;
    assert NumSeconds(h * 60 * MINUTE) == h * 3600;
  }

  /** Over two minutes and up to two hours: whole minutes. */
  lemma TruncateToMinutes(age: int)
    requires 2 * MINUTE < age <= 2 * HOUR
    ensures Coarsen(age) == NumMinutes(age) * MINUTE
    ensures 0 <= age - Coarsen(age) < MINUTE
    ensures Coarsen(age) % SECOND == 0 && Coarse(Coarsen(age))
  {
    var m := NumMinutes(age);
    assert m >= 2;
    WholeMinutes(m);
    WholeSeconds(m * 60);
  }

  /** Up to two minutes, and every negative age: whole seconds. */
  lemma TruncateToSeconds(age: int)
    requires age <= 2 * MINUTE
    ensures Coarsen(age) == NumSeconds(age) * SECOND
    ensures age >= 0 ==> 0 <= age - Coarsen(age) < SECOND
    ensures Coarsen(age) % SECOND == 0 && Coarse(Coarsen(age))
  {
  }

  /**
   * The coarsened age is a whole number of seconds; for a non-negative age it
   * is never larger than the age and less than one unit below it.
   */
  lemma CoarsenBounds(age: int)
    ensures Coarsen(age) % SECOND == 0 && Coarse(Coarsen(age))
    ensures age >= 0 ==> 0 <= Coarsen(age) <= age && age - Coarsen(age) < Unit(age)
  {
    if age > 2 * DAY {
      TruncateToDays(age);
    } else if age > 2 * HOUR {
      TruncateToHours(age);
    } else if age > 2 * MINUTE {
      TruncateToMinutes(age);
    } else {
      TruncateToSeconds(age);
    }
  }

  lemma DaysAreFixed(x: int)
    requires x > 2 * DAY && x % DAY == 0
    ensures Coarsen(x) == x
  {
    TruncateToDays(x);
    var q := x / DAY;
    assert x == q * DAY;
    WholeDays(q);
    WholeSeconds(q * 86400);
  }

  lemma HoursAreFixed(x: int)
    requires 2 * HOUR < x <= 2 * DAY && x % HOUR == 0
    ensures Coarsen(x) == x
  {
    TruncateToHours(x);
    var q := x / HOUR;
    assert x == q * HOUR;
    WholeHours(q);
    WholeSeconds(q * 3600);
  }

  lemma MinutesAreFixed(x: int)
    requires 2 * MINUTE < x <= 2 * HOUR && x % MINUTE == 0
    ensures Coarsen(x) == x
  {
    TruncateToMinutes(x);
    var q := x / MINUTE;
    assert x == q * MINUTE;
    WholeMinutes(q);
    WholeSeconds(q * 60);
  }

  lemma SecondsAreFixed(x: int)
    requires x <= 2 * MINUTE && x % SECOND == 0
    ensures Coarsen(x) == x
  {
    TruncateToSeconds(x);
  }

  lemma CoarseIsFixed(x: int)
    requires Coarse(x)
    ensures Coarsen(x) == x
  {
    if x > 2 * DAY {
      DaysAreFixed(x);
    } else if x > 2 * HOUR {
      HoursAreFixed(x);
    } else if x > 2 * MINUTE {
      MinutesAreFixed(x);
    } else {
      SecondsAreFixed(x);
    }
  }

  /** Coarsening an already coarsened age changes nothing. */
  lemma CoarsenIdempotent(age: int)
    ensures Coarsen(Coarsen(age)) == Coarsen(age)
  {
    CoarsenBounds(age);
    CoarseIsFixed(Coarsen(age));
  }

  /**
   * The age of `time` at instant `now` in whole seconds, or `None` when the
   * time lies so far in the future that the truncated age is negative.
   */
  function AgeSeconds(time: int, now: int): (r: Option<nat>)
    ensures r.None? <==> NumSeconds(now - time) < 0
    ensures r.Some? && now >= time ==> r.value * SECOND <= now - time < r.value * SECOND + Unit(now - time)
  {
    CoarsenBounds(now - time);
    var age := Coarsen(now - time);
    if age < 0 then
      TruncateToSeconds(now - time);
      None
    else
      assert now - time < 0 ==> age == NumSeconds(now - time) * SECOND by {
        if now - time < 0 { TruncateToSeconds(now - time); }
      }
      Some(age / SECOND)
  }

  /**
   * `ago`: the age rendered by `format`, the duration formatter, which is
   * not part of this model and so is a parameter.
   */
  function Ago(time: int, now: int, format: nat -> string): (r: Option<string>)
    ensures r.None? <==> NumSeconds(now - time) < 0
    ensures r.Some? ==> AgeSeconds(time, now).Some? && r == Some(format(AgeSeconds(time, now).value))
  {
    match AgeSeconds(time, now)
    case Some(secs) => Some(format(secs))
    case None => None
  }

  /**
   * Ages below two minutes keep their whole seconds (90.5 s reads as 90 s),
   * and an age of three days and five hours reads as three days.
   */
  lemma AgeExamples(now: int)
    ensures AgeSeconds(now - (90 * SECOND + SECOND / 2), now) == Some(90)
    ensures AgeSeconds(now - (3 * DAY + 5 * HOUR), now) == Some(3 * 86400)
  {
    TruncateToSeconds(90 * SECOND + SECOND / 2);
    TruncateToDays(3 * DAY + 5 * HOUR);
  }
}
