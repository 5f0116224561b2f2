/** The pool settings the 4get.js constructor derives: the worker count and
    the number of concurrent downloads, with their defaults and clamps.

    Each count is looked up as `options.x || process.argv[i] || default`.
    An options value is a number, so 0 there gives way; a command-line value
    is a string, so any text given there (even "0") is kept. The two kinds
    compare differently: a string against a number compares as numbers, but
    two strings compare character by character. */
module Config {
  import opened Text

  /** The hard limit on workers. */
  const MaxWorkers: nat := 4

  /** Concurrent downloads when none are requested. */
  const DefaultConcurrentDownloads: nat := 8

  datatype Settings = Settings(workers: nat, concurrentDownloads: nat)

  /** A command-line argument: missing, or the numeral `Decimal(n)`. */
  datatype Argument = Missing | Numeral(n: nat)

  /** A count as the constructor holds it: a JavaScript number, or the
      string `Decimal(n)` taken from the command line. */
  datatype Value = Num(n: nat) | Str(n: nat)

  /** `option || argument || fallback`: a non-zero option, else any given
      argument, else the fallback. */
  function Lookup(option: nat, argument: Argument, fallback: nat): Value {
    if option != 0 then Num(option)
    else if argument.Numeral? then Str(argument.n)
    else Num(fallback)
  }

  /** JavaScript's `<` on two strings: by character codes, a proper prefix
      coming first. */
  function TextBefore(a: string, b: string): (r: bool)
    ensures r ==> a != b
    ensures |a| == 0 ==> (r <==> |b| > 0)
    ensures |a| > 0 && |b| > 0 && a[0] != b[0] ==> (r <==> a[0] < b[0])
    decreases |a|
  {
    if |a| == 0 then |b| > 0
    else if |b| == 0 then false
    else if a[0] != b[0] then a[0] < b[0]
    else TextBefore(a[1..], b[1..])
  }

  /** JavaScript's `a > b` on two counts: as text when both are strings,
      as numbers otherwise. */
  function Greater(a: Value, b: Value): bool
  {
    if a.Str? && b.Str? then TextBefore(Decimal(b.n), Decimal(a.n)) else a.n > b.n
  }

  /** The two clamps on counts compared as numbers, in source order: at most
      four workers, then at least as many download slots as workers. */
  function Clamp(workers: nat, concurrentDownloads: nat): (s: Settings)
    ensures s.workers <= MaxWorkers
    ensures s.workers == if workers > MaxWorkers then MaxWorkers else workers
    ensures s.concurrentDownloads >= s.workers
    ensures s.concurrentDownloads >= concurrentDownloads
    ensures s.workers <= concurrentDownloads ==> s.concurrentDownloads == concurrentDownloads
    ensures s.workers > concurrentDownloads ==> s.concurrentDownloads == s.workers
  {
    var w := if workers > MaxWorkers then MaxWorkers else workers;
    var c := if w > concurrentDownloads then w else concurrentDownloads;
    Settings(w, c)
  }

  /** Both counts come from the command line and the worker count is not
      capped, so the slot clamp compares two strings. */
  predicate ComparedAsText(optionWorkers: nat, argWorkers: Argument,
                           optionConcurrent: nat, argConcurrent: Argument)
  {
    optionWorkers == 0 && optionConcurrent == 0 && argWorkers.Numeral? && argConcurrent.Numeral?
    && argWorkers.n <= MaxWorkers
  }

  /** The settings of a new coordinator, from the options values (0 when
      absent), the command-line arguments and the core count: the looked-up
      counts, the worker cap (compared with the number 4), then download
      slots raised to the worker count when the workers compare greater.
      Whatever form the counts come in, there are at most four workers and
      at least as many download slots: a worker count of at most four is one
      digit, and one digit compares as text as it does as a number. */
  function Resolve(optionWorkers: nat, argWorkers: Argument,
                   optionConcurrent: nat, argConcurrent: Argument, cpuCount: nat): (s: Settings)
    ensures s.workers <= MaxWorkers && s.workers <= s.concurrentDownloads
    ensures !ComparedAsText(optionWorkers, argWorkers, optionConcurrent, argConcurrent) ==>
              s == Clamp(Lookup(optionWorkers, argWorkers, cpuCount).n,
                         Lookup(optionConcurrent, argConcurrent, DefaultConcurrentDownloads).n)
    ensures ComparedAsText(optionWorkers, argWorkers, optionConcurrent, argConcurrent) ==>
              && s.workers == argWorkers.n
              && s.concurrentDownloads ==
                   if TextBefore(Decimal(argConcurrent.n), Decimal(argWorkers.n)) then argWorkers.n
                   else argConcurrent.n
  {
    var w := Lookup(optionWorkers, argWorkers, cpuCount);
    var c := Lookup(optionConcurrent, argConcurrent, DefaultConcurrentDownloads);
    var capped := if w.n > MaxWorkers then Num(MaxWorkers) else w;
    if capped.Str? && c.Str? && capped.n > c.n then
      DigitTextOrder(c.n, capped.n);
      Settings(capped.n, if Greater(capped, c) then capped.n else c.n)
    else
      Settings(capped.n, if Greater(capped, c) then capped.n else c.n)
  }

  /** A single digit is before another exactly when it is smaller. */
  lemma DigitTextOrder(a: nat, b: nat)
    requires a < 10 && b < 10
    ensures TextBefore(Decimal(a), Decimal(b)) <==> a < b
  {
  }

  /** Clamping settles at once: clamped settings clamp to themselves. */
  lemma ClampIdempotent(workers: nat, concurrentDownloads: nat)
    ensures var s := Clamp(workers, concurrentDownloads);
            Clamp(s.workers, s.concurrentDownloads) == s
  {
  }

  /** Asking for more than four workers yields exactly four. */
  lemma ManyWorkersCapped(optionWorkers: nat, argWorkers: Argument,
                          optionConcurrent: nat, argConcurrent: Argument, cpuCount: nat)
    requires Lookup(optionWorkers, argWorkers, cpuCount).n > MaxWorkers
    ensures Resolve(optionWorkers, argWorkers, optionConcurrent, argConcurrent, cpuCount).workers == MaxWorkers
  {
  }

  /** The usage example `8 16` on the command line: four workers, sixteen
      downloads. */
  lemma UsageExampleSettings(cpuCount: nat)
    ensures Resolve(0, Numeral(8), 0, Numeral(16), cpuCount) == Settings(4, 16)
  {
  }

  /** A command-line "0" is kept: no workers, whatever the core count. */
  lemma ZeroArgumentKept(cpuCount: nat)
    ensures Resolve(0, Numeral(0), 0, Missing, cpuCount) == Settings(0, 8)
  {
  }

  /** `2 10` on the command line: "2" comes after "10" as text, so the
      download slots drop to the worker count. */
  lemma TextComparisonLowersSlots(cpuCount: nat)
    ensures Resolve(0, Numeral(2), 0, Numeral(10), cpuCount) == Settings(2, 2)
  {
    assert Decimal(10) == Decimal(1) + [DigitChar(0)];
    assert Decimal(10)[0] == '1' && Decimal(2)[0] == '2';
  }
}
