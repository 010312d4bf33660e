/** The names of the job pods: a fixed prefix, a dash and a counter printed in decimal. */
module PodNames {

  const PREFIX := "certsuite-job-run"

  function Digit(d: nat): char
    requires d < 10
  {
    "0123456789"[d]
  }

  function DigitValue(c: char): nat {
    if '0' <= c <= '9' then c as nat - '0' as nat else 0
  }

  function Decimal(n: nat): string {
    if n < 10 then [Digit(n)] else Decimal(n / 10) + [Digit(n % 10)]
  }

  function ParseDecimal(s: string): nat {
    if s == [] then 0 else 10 * ParseDecimal(s[..|s| - 1]) + DigitValue(s[|s| - 1])
  }

  function PodName(id: nat): string {
    PREFIX + "-" + Decimal(id)
  }

  lemma DigitRoundTrip(d: nat)
    requires d < 10
    ensures DigitValue(Digit(d)) == d
  {
    assert d == 0 || d == 1 || d == 2 || d == 3 || d == 4 || d == 5 || d == 6 || d == 7 || d == 8 || d == 9;
  }

  lemma {:induction false} DecimalRoundTrip(n: nat)
    ensures ParseDecimal(Decimal(n)) == n
  {
    if n < 10 {
      DigitRoundTrip(n);
      assert Decimal(n)[..0] == [];
    } else {
      DecimalRoundTrip(n / 10);
      DigitRoundTrip(n % 10);
      var s := Decimal(n);
      assert s[..|s| - 1] == Decimal(n / 10);
    }
  }

  /** Two counters never print to the same pod name. */
  lemma PodNameInjective(i: nat, j: nat)
    ensures PodName(i) == PodName(j) ==> i == j
  {
    if PodName(i) == PodName(j) {
      var skip := |PREFIX| + 1;
      assert PodName(i)[skip..] == Decimal(i);
      assert PodName(j)[skip..] == Decimal(j);
      DecimalRoundTrip(i);
      DecimalRoundTrip(j);
    }
  }

  lemma PodNameNotEmpty(i: nat)
    ensures PodName(i) != ""
  {
    assert PodName(i)[0] == PREFIX[0];
  }
}
