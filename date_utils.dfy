/** Timestamps and the measurement-day correction. A timestamp is a whole number of seconds
    since 1970-01-01 00:00:00 (naive local time); its date is the day number `t / 86400` and
    its time of day `t % 86400` (Dafny's `/` and `%` floor like pandas does). */
module DateUtils {

  type Timestamp = int

  const SecondsPerDay: int := 86400

  /** 06:59:00, the cut-off of the measurement day. */
  const DayCutoff: int := 6 * 3600 + 59 * 60

  function DateOf(t: Timestamp): int { t / SecondsPerDay }

  function TimeOfDay(t: Timestamp): (s: int)
    ensures 0 <= s < SecondsPerDay
  {
    t % SecondsPerDay
  }

  lemma DateAndTime(t: Timestamp)
    ensures t == DateOf(t) * SecondsPerDay + TimeOfDay(t)
  {
  }

  /** pandas `dayofweek`: Monday is 0 and Sunday is 6; 1970-01-01 was a Thursday. */
  function DayOfWeek(t: Timestamp): (d: int)
    ensures 0 <= d < 7
  {
    (DateOf(t) + 3) % 7
  }

  /** `corregir_fecha_hora`: the date of `t - 06:59` minus the date of `t`, added to `t`. */
  function CorregirFechaHora(t: Timestamp): Timestamp {
    (DateOf(t - DayCutoff) - DateOf(t)) * SecondsPerDay + t
  }

  /** The correction shifts by a whole number of days: none from 06:59:00 on, one day back
      before it. */
  lemma {:induction false} CorrectionShift(t: Timestamp)
    ensures CorregirFechaHora(t) == t - (if TimeOfDay(t) >= DayCutoff then 0 else SecondsPerDay)
  {
    var d, s := DateOf(t), TimeOfDay(t);
    DateAndTime(t);
    if s >= DayCutoff {
      assert t - DayCutoff == d * SecondsPerDay + (s - DayCutoff);
      assert DateOf(t - DayCutoff) == d;
    } else {
      assert t - DayCutoff == (d - 1) * SecondsPerDay + (s - DayCutoff + SecondsPerDay);
      assert DateOf(t - DayCutoff) == d - 1;
    }
  }

  /** The time of day is kept exactly, and the result is never later than the input and
      never more than one day earlier. */
  lemma CorrectionBounds(t: Timestamp)
    ensures TimeOfDay(CorregirFechaHora(t)) == TimeOfDay(t)
    ensures t - SecondsPerDay <= CorregirFechaHora(t) <= t
    ensures DateOf(CorregirFechaHora(t)) == DateOf(t) - (if TimeOfDay(t) >= DayCutoff then 0 else 1)
  {
    CorrectionShift(t);
    DateAndTime(t);
    var r := CorregirFechaHora(t);
    if TimeOfDay(t) < DayCutoff {
      assert r == (DateOf(t) - 1) * SecondsPerDay + TimeOfDay(t);
    }
  }

  /** The correction is not idempotent: a time before 06:59 moves back one more day each
      time the correction is applied again. */
  lemma CorrectionNotIdempotent(t: Timestamp)
    requires TimeOfDay(t) < DayCutoff
    ensures CorregirFechaHora(CorregirFechaHora(t)) == t - 2 * SecondsPerDay
    ensures CorregirFechaHora(CorregirFechaHora(t)) != CorregirFechaHora(t)
  {
    CorrectionBounds(t);
    CorrectionShift(t);
    CorrectionShift(CorregirFechaHora(t));
  }

  /** From 06:59 on, the correction changes nothing, so applying it again is harmless. */
  lemma CorrectionIdentityAfterCutoff(t: Timestamp)
    requires TimeOfDay(t) >= DayCutoff
    ensures CorregirFechaHora(t) == t
  {
    CorrectionShift(t);
  }
}
