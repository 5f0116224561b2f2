/** 4get.js `runTime`: a millisecond difference broken into days, hours,
    minutes, seconds and milliseconds, and its text such as `1m 5s` or
    `0.250s`. The clock reading is a parameter: `diff` is what the source
    computes as now minus the start time. Console styling is left out. */
module RunTime {
  import opened Text

  const MsPerSecond: nat := 1000
  const SecondsPerDay: nat := 86400
  const SecondsPerHour: nat := 3600
  const SecondsPerMinute: nat := 60

  datatype Elapsed = Elapsed(days: nat, hours: nat, mins: nat, secs: nat, ms: int)

  /** The milliseconds an `Elapsed` value stands for. */
  function TotalMs(e: Elapsed): int {
    e.days * (SecondsPerDay * MsPerSecond) + e.hours * (SecondsPerHour * MsPerSecond)
    + e.mins * (SecondsPerMinute * MsPerSecond) + e.secs * MsPerSecond + e.ms
  }

  /** Each part lies below the next unit. */
  predicate InRange(e: Elapsed) {
    e.hours < 24 && e.mins < 60 && e.secs < 60 && 0 <= e.ms < 1000
  }

  /** The breakdown of a positive difference (all divisions floor, as
      `Math.floor` does on positive numbers); a difference of zero or less is
      left whole in the milliseconds. */
  function Decompose(diff: int): (e: Elapsed)
    ensures diff > 0 ==> TotalMs(e) == diff && InRange(e)
    ensures diff <= 0 ==> e == Elapsed(0, 0, 0, 0, diff)
  {
    if diff > 0 then
      var s := diff / MsPerSecond;
      var inDay := s % SecondsPerDay;
      var inHour := inDay % SecondsPerHour;
      Elapsed(s / SecondsPerDay, inDay / SecondsPerHour, inHour / SecondsPerMinute,
              inHour % SecondsPerMinute, diff % MsPerSecond)
    else Elapsed(0, 0, 0, 0, diff)
  }

  /** The breakdown is the only one in range: any in-range parts that add up
      to a positive difference are the ones `Decompose` gives. */
  lemma DecomposeUnique(diff: int, e: Elapsed)
    requires diff > 0 && InRange(e) && TotalMs(e) == diff
    ensures e == Decompose(diff)
  {
    var secs := e.days * 86400 + e.hours * 3600 + e.mins * 60 + e.secs;
    assert diff == secs * 1000 + e.ms;
    assert diff / 1000 == secs && diff % 1000 == e.ms;
    var inDay := e.hours * 3600 + e.mins * 60 + e.secs;
    assert secs / 86400 == e.days && secs % 86400 == inDay;
    var inHour := e.mins * 60 + e.secs;
    assert inDay / 3600 == e.hours && inDay % 3600 == inHour;
    assert inHour / 60 == e.mins && inHour % 60 == e.secs;
  }

  /** The text of a breakdown. Milliseconds show when neither days nor hours
      do and there are seconds, or when the seconds are zero and there are
      milliseconds; they are written without zero padding. */
  function Format(e: Elapsed): (s: string)
    ensures |s| >= 2 && s[|s| - 1] == 's'
  {
    var showMs := !(e.days > 0) && !(e.hours > 0);
    (if e.days > 0 then Decimal(e.days) + "d " else "")
    + (if e.hours > 0 then Decimal(e.hours) + "h " else "")
    + (if e.mins > 0 then Decimal(e.mins) + "m " else "")
    + (if (e.secs > 0 && showMs) || (e.secs == 0 && e.ms > 0)
       then Decimal(e.secs) + "." + IntText(e.ms) + "s"
       else Decimal(e.secs) + "s")
  }

  /** `runTime` for a given difference. */
  function RunTimeText(diff: int): (s: string)
    ensures |s| >= 2 && s[|s| - 1] == 's'
  {
    Format(Decompose(diff))
  }

  /** A difference of zero or less reads `0s`. */
  lemma NonPositiveReadsZero(diff: int)
    requires diff <= 0
    ensures RunTimeText(diff) == "0s"
  {
  }

  /** Below one second the text is `0.<ms>s`. */
  lemma SubSecondText(diff: int)
    requires 0 < diff < 1000
    ensures RunTimeText(diff) == "0." + Decimal(diff) + "s"
  {
    var e := Decompose(diff);
    DecomposeUnique(diff, Elapsed(0, 0, 0, 0, diff));
    assert e == Elapsed(0, 0, 0, 0, diff);
  }

  /** Under an hour, with seconds, the text ends in `<secs>.<ms>s` and the
      milliseconds are not padded: 1005 ms reads `1.5s`. */
  lemma UnpaddedMilliseconds()
    ensures RunTimeText(1005) == "1.5s"
  {
    DecomposeUnique(1005, Elapsed(0, 0, 0, 1, 5));
  }

  /** The retry notice: 30 000 ms read `30.0s`. */
  lemma RetryDelayText()
    ensures RunTimeText(30000) == "30.0s"
  {
    DecomposeUnique(30000, Elapsed(0, 0, 0, 30, 0));
    assert Decimal(30) == "30";
  }

  /** With days shown, the seconds carry no milliseconds unless they are
      zero: one day and 500 ms read `1d 0.500s`, one day one second and
      500 ms read `1d 1s`. */
  lemma DaysDropMilliseconds()
    ensures RunTimeText(86400500) == "1d 0.500s"
    ensures RunTimeText(86401500) == "1d 1s"
  {
    DecomposeUnique(86400500, Elapsed(1, 0, 0, 0, 500));
    DecomposeUnique(86401500, Elapsed(1, 0, 0, 1, 500));
    assert Decimal(500) == "500";
  }

  /** From one second to a minute the text is `<secs>.<ms>s`, the
      milliseconds unpadded and shown even when zero. */
  lemma SecondsText(diff: int)
    requires 1000 <= diff < 60000
    ensures RunTimeText(diff) == Decimal(diff / 1000) + "." + Decimal(diff % 1000) + "s"
  {
    DecomposeUnique(diff, Elapsed(0, 0, 0, diff / 1000, diff % 1000));
  }

  /** From one minute to an hour the text is `<mins>m ` followed by the
      seconds with their milliseconds, or by `0s` on a whole minute. */
  lemma MinutesText(diff: int)
    requires 60000 <= diff < 3600000
    ensures var secs := diff / 1000 % 60;
            var ms := diff % 1000;
            RunTimeText(diff) == Decimal(diff / 60000) + "m "
              + if secs > 0 || ms > 0 then Decimal(secs) + "." + Decimal(ms) + "s" else "0s"
  {
    var secs := diff / 1000 % 60;
    assert diff / 1000 / 60 == diff / 60000;
    DecomposeUnique(diff, Elapsed(0, 0, diff / 60000, secs, diff % 1000));
  }

  /** Decimal digits hold no point. */
  lemma NoPointInDecimal(n: nat)
    ensures '.' !in Decimal(n)
  {
  }

  /** With days or hours shown and non-zero seconds, the text holds no
      decimal point. */
  lemma FormatDropsMilliseconds(e: Elapsed)
    requires (e.days > 0 || e.hours > 0) && e.secs > 0
    ensures '.' !in Format(e)
  {
    NoPointInDecimal(e.days);
    NoPointInDecimal(e.hours);
    NoPointInDecimal(e.mins);
    NoPointInDecimal(e.secs);
  }

  /** Once hours or days show, non-zero seconds carry no milliseconds: the
      text holds no decimal point. */
  lemma LongRunsDropMilliseconds(diff: int)
    requires diff >= 3600000 && diff / 1000 % 60 > 0
    ensures '.' !in RunTimeText(diff)
  {
    var e := Decompose(diff);
    var total := e.days * 86400 + e.hours * 3600 + e.mins * 60 + e.secs;
    assert diff == total * 1000 + e.ms;
    assert diff / 1000 == total;
    assert total == (e.days * 1440 + e.hours * 60 + e.mins) * 60 + e.secs;
    assert total % 60 == e.secs;
    assert e.days > 0 || e.hours > 0;
    FormatDropsMilliseconds(e);
  }
}
