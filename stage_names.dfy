/** Names of anonymous stages.

    An unnamed parallelDo names its new collection with Java's string
    concatenation "S" + id, where id is the non-negative int the pipeline's
    anonymous-stage counter hands out.  Concatenating an int prints it in
    decimal with no sign and no leading zero; that is what Decimal models. */
module StageNames {

  import opened Wrappers

  predicate IsDigit(c: char) {
    '0' <= c <= '9'
  }

  predicate AllDigits(s: string) {
    forall i :: 0 <= i < |s| ==> IsDigit(s[i])
  }

  function DigitChar(d: nat): (c: char)
    requires d < 10
    ensures IsDigit(c) && c as int - '0' as int == d
  {
    ('0' as int + d) as char
  }

  function DigitValue(c: char): (d: nat)
    requires IsDigit(c)
    ensures d < 10
  {
    c as int - '0' as int
  }

  /** The decimal digits of n, most significant first. */
  function Decimal(n: nat): (s: string)
    ensures |s| >= 1 && AllDigits(s)
    ensures |s| > 1 ==> s[0] != '0'
    ensures n < 10 <==> |s| == 1
  {
    if n < 10 then [DigitChar(n)] else Decimal(n / 10) + [DigitChar(n % 10)]
  }

  /** Reads a string of digits back as the number it denotes. */
  function ParseDecimal(s: string): nat
    requires AllDigits(s)
  {
    if s == [] then 0 else 10 * ParseDecimal(s[..|s| - 1]) + DigitValue(s[|s| - 1])
  }

  /** Printing a number and reading it back gives the number. */
  lemma {:induction false} DecimalRoundTrip(n: nat)
    ensures ParseDecimal(Decimal(n)) == n
  {
    if n >= 10 {
      var s := Decimal(n / 10);
      var t := s + [DigitChar(n % 10)];
      assert t[..|t| - 1] == s;
      DecimalRoundTrip(n / 10);
    }
  }

  /** Distinct numbers print differently. */
  lemma DecimalInjective(i: nat, j: nat)
    ensures Decimal(i) == Decimal(j) <==> i == j
  {
    if Decimal(i) == Decimal(j) {
      DecimalRoundTrip(i);
      DecimalRoundTrip(j);
    }
  }

  /** The name "S" + id given to the collection made by an unnamed parallelDo. */
  function StageName(id: nat): (name: string)
    ensures |name| >= 2 && name[0] == 'S' && AllDigits(name[1..])
  {
    "S" + Decimal(id)
  }

  /** Recovers the stage id from a stage name, if it is one. */
  function StageId(name: string): (id: Option<nat>)
    ensures id.Some? ==> |name| >= 2 && name[0] == 'S'
  {
    if |name| >= 2 && name[0] == 'S' && AllDigits(name[1..]) && Decimal(ParseDecimal(name[1..])) == name[1..]
    then Some(ParseDecimal(name[1..]))
    else None
  }

  /** Every stage name carries back the id it was made from. */
  lemma StageNameRoundTrip(id: nat)
    ensures StageId(StageName(id)) == Some(id)
  {
    var name := StageName(id);
    assert name[1..] == Decimal(id);
    DecimalRoundTrip(id);
  }

  /** Two anonymous stages get the same name only when they got the same id;
      since the counter never repeats an id, their names never collide. */
  lemma StageNameInjective(i: nat, j: nat)
    ensures StageName(i) == StageName(j) <==> i == j
  {
    if StageName(i) == StageName(j) {
      StageNameRoundTrip(i);
      StageNameRoundTrip(j);
    }
  }
}
