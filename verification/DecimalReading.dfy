/** What digits mean, place by place, against how `Decimal` reads and prints them. */
module DecimalReading {
  import opened Decimal

  /** Printing begins with a zero for zero alone. */
  lemma {:induction false} NoLeadingZero(n: nat)
    ensures FormatUint(n)[0] == '0' <==> n == 0
  {
    if n >= 10 {
      NoLeadingZero(n / 10);
    }
  }

  function Digit(c: char): nat
    requires IsDigit(c)
  {
    match c
    case '0' => 0 case '1' => 1 case '2' => 2 case '3' => 3 case '4' => 4
    case '5' => 5 case '6' => 6 case '7' => 7 case '8' => 8 case _ => 9
  }

  function Power10(n: nat): nat {
    if n == 0 then 1 else 10 * Power10(n - 1)
  }

  /** Each digit times the power of ten of its place, from the left. */
  function Positional(s: string): nat
    requires AllDigits(s)
  {
    if s == "" then 0 else Digit(s[0]) * Power10(|s| - 1) + Positional(s[1..])
  }

  lemma {:induction false} OneMoreDigit(s: string, c: char)
    requires AllDigits(s) && IsDigit(c)
    ensures Positional(s + [c]) == 10 * Positional(s) + Digit(c)
    decreases |s|
  {
    if s == "" {
      assert (s + [c])[1..] == "";
      assert Power10(0) == 1;
    } else {
      assert (s + [c])[1..] == s[1..] + [c];
      OneMoreDigit(s[1..], c);
      var d, power := Digit(s[0]), Power10(|s| - 1);
      assert Power10(|s|) == 10 * power;
      assert d * (10 * power) == 10 * (d * power);
    }
  }

  /** The value of digits is what they say in decimal. */
  lemma {:induction false} ValueIsPositional(s: string)
    requires AllDigits(s)
    ensures Value(s) == Positional(s)
    decreases |s|
  {
    if s != "" {
      var head, c := s[..|s| - 1], s[|s| - 1];
      assert s == head + [c];
      ValueIsPositional(head);
      OneMoreDigit(head, c);
    }
  }
}
