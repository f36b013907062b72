/** Instants are whole seconds on one integer time line; durations are their differences. */
module Clock {

  const SecondsPerMinute: int := 60

  /** Java's `long` division of a number of seconds by 60: whole minutes, truncated toward zero. */
  function WholeMinutes(seconds: int): (m: int)
    ensures 0 <= seconds ==> 0 <= m * 60 <= seconds < m * 60 + 60
    ensures seconds < 0 ==> m * 60 - 60 < seconds <= m * 60 <= 0
  {
    if seconds >= 0 then seconds / 60 else -((-seconds) / 60)
  }

  /** `Duration.between(from, to).toMinutes()`: the signed elapsed time, truncated to whole minutes. */
  function ElapsedMinutes(from: int, to: int): int
  {
    WholeMinutes(to - from)
  }

  /** More than `m` whole minutes have elapsed exactly when at least `m + 1` full minutes of seconds have. */
  lemma ElapsedMinutesExceed(from: int, to: int, m: int)
    requires m >= 0
    ensures ElapsedMinutes(from, to) > m <==> to - from >= (m + 1) * SecondsPerMinute
  {
    var q := ElapsedMinutes(from, to);
    if to - from >= 0 {
      assert q * 60 <= to - from < q * 60 + 60;
    }
  }
}
