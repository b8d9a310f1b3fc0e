/** How a schedule names its experiments (internal/controller/chaosschedule_controller.go). */
module Naming {
  import opened ScheduleApi

  function Decimal(n: nat): (s: string)
    ensures |s| > 0 && s[0] != '-'
  {
    var digit := "0123456789"[n % 10];
    if n < 10 then [digit] else Decimal(n / 10) + [digit]
  }

  function Numeral(n: int): string {
    if n < 0 then "-" + Decimal(-n) else Decimal(n)
  }

  /** The name of the experiment that a schedule creates as this run. */
  function ExperimentName(schedule: string, run: RunName): string {
    schedule + "-" + Numeral(run)
  }

  lemma DigitsDiffer(m: nat, n: nat)
    requires m < 10 && n < 10 && "0123456789"[m] == "0123456789"[n]
    ensures m == n
  {
  }

  lemma {:induction false} DecimalInjective(m: nat, n: nat)
    requires Decimal(m) == Decimal(n)
    ensures m == n
    decreases m
  {
    var s, t := Decimal(m), Decimal(n);
    assert s[|s| - 1] == "0123456789"[m % 10] && t[|t| - 1] == "0123456789"[n % 10];
    DigitsDiffer(m % 10, n % 10);
    assert s[..|s| - 1] == (if m < 10 then "" else Decimal(m / 10));
    assert t[..|t| - 1] == (if n < 10 then "" else Decimal(n / 10));
    if m >= 10 && n >= 10 {
      DecimalInjective(m / 10, n / 10);
    }
  }

  lemma NumeralInjective(m: int, n: int)
    requires Numeral(m) == Numeral(n)
    ensures m == n
  {
    if m < 0 && n < 0 {
      assert Numeral(m)[1..] == Decimal(-m) && Numeral(n)[1..] == Decimal(-n);
      DecimalInjective(-m, -n);
    } else if m >= 0 && n >= 0 {
      DecimalInjective(m, n);
    }
  }

  /** The name tells the run. */
  lemma NameInjective(schedule: string, m: RunName, n: RunName)
    requires ExperimentName(schedule, m) == ExperimentName(schedule, n)
    ensures m == n
  {
    hide Numeral;
    var p := |schedule + "-"|;
    assert ExperimentName(schedule, m)[p..] == Numeral(m);
    assert ExperimentName(schedule, n)[p..] == Numeral(n);
    NumeralInjective(m, n);
  }
}
