/** internal/adapters/log.go: printing an integer backwards into a buffer of sixteen bytes. */
module IntegerLog {
  import opened Options
  import opened Text

  const BUFFER: nat := 16

  /** What a call returns, or that it writes outside its buffer. */
  datatype Outcome = Printed(text: string) | OutOfBounds

  ghost function Magnitude(n: int): nat { if n < 0 then -n else n }

  ghost function Canonical(n: int): string { (if n < 0 then "-" else "") + Decimal(Magnitude(n)) }

  /** Negation in 64 bits leaves the least integer negative, and its digits are never printed. */
  ghost function Expected(n: int): Outcome {
    if n == MIN_INT64 then Printed("-")
    else if |Canonical(n)| <= BUFFER then Printed(Canonical(n))
    else OutOfBounds
  }

  /** The digits still to be printed: none of zero. */
  ghost function Rest(n: nat): string { if n == 0 then "" else Decimal(n) }

  lemma LastDigitFirst(n: nat, done: string)
    requires n > 0
    ensures Rest(n) + done == Rest(n / 10) + ([Digit(n % 10)] + done)
  {
    assert Rest(n) == Rest(n / 10) + [Digit(n % 10)];
  }

  /** The loop; false is a write outside the buffer. */
  method PrintDigits(number: int, buf: array<char>) returns (i: int, inside: bool)
    modifies buf
    ensures inside <==> number <= 0 || |Rest(number)| <= buf.Length
    ensures inside ==> 0 <= i <= buf.Length && buf[i..] == (if number <= 0 then "" else Rest(number))
  {
    var n := number;
    i := buf.Length;
    while n > 0
      invariant 0 <= i <= buf.Length
      invariant number > 0 ==> n >= 0 && Rest(number) == Rest(n) + buf[i..]
      invariant number <= 0 ==> n == number && i == buf.Length
    {
      ghost var done := buf[i..];
      LastDigitFirst(n, done);
      i := i - 1;
      if i < 0 { return i, false; }
      buf[i] := Digit(n % 10);
      assert buf[i..] == [Digit(n % 10)] + done;
      n := n / 10;
    }
    inside := true;
  }

  /** Negation in 64 bits. */
  lemma NegationWraps(n: int)
    requires MIN_INT64 <= n < 0
    ensures Wrap64(-n) == if n == MIN_INT64 then n else -n
  {
  }

  method Itoa(number: int) returns (r: Outcome)
    requires MIN_INT64 <= number <= MAX_INT64
    ensures r == Expected(number)
  {
    var n := number;
    if n == 0 { return Printed("0"); }
    var neg := n < 0;
    if neg {
      NegationWraps(n);
      n := Wrap64(-n);
    }
    assert number != MIN_INT64 ==> Canonical(number) == (if neg then ['-'] else []) + Rest(n);
    var buf := new char[BUFFER];
    var i, inside := PrintDigits(n, buf);
    if !inside { return OutOfBounds; }
    if neg {
      ghost var done := buf[i..];
      i := i - 1;
      if i < 0 { return OutOfBounds; }
      buf[i] := '-';
      assert buf[i..] == ['-'] + done;
    }
    r := Printed(buf[i..]);
  }

  lemma PowersOfTheBuffer()
    ensures Pow10(15) == 1_000_000_000_000_000 && Pow10(16) == 10_000_000_000_000_000
  {
    assert Pow10(5) == 100_000;
    assert Pow10(10) == 10_000_000_000;
  }

  /** The buffer is written inside its bounds exactly for fifteen digits with a sign and sixteen without,
      and for the least integer, of which nothing but the sign is printed. */
  lemma SafeExactlyWhenItFits(n: int)
    requires MIN_INT64 <= n <= MAX_INT64
    ensures Expected(n).Printed? <==> n == MIN_INT64 || -1_000_000_000_000_000 < n < 10_000_000_000_000_000
  {
    PowersOfTheBuffer();
    DecimalLength(Magnitude(n), if n < 0 then 15 else 16);
  }

  lemma DigitsReadBack(digits: string)
    requires digits != "" && AllDigits(digits) && Value(digits) <= MAX_INT64
    ensures var v: int := Value(digits); Atoi(digits) == Some(v) && Atoi("-" + digits) == Some(-v)
  {
    assert ("-" + digits)[1..] == digits;
    assert IsDigit(digits[0]);
  }

  lemma SignAloneReadsAsNothing()
    ensures Atoi("-") == None
  {
    assert "-"[1..] == "";
  }

  lemma CanonicalReadsBack(n: int)
    requires MIN_INT64 < n <= MAX_INT64
    ensures Atoi(Canonical(n)) == Some(n)
  {
    var m := Magnitude(n);
    DecimalDenotes(m);
    DigitsReadBack(Decimal(m));
    assert "" + Decimal(m) == Decimal(m);
  }

  /** What is printed reads back as the same number, the least integer alone excepted. */
  lemma PrintedReadsBack(n: int)
    requires MIN_INT64 <= n <= MAX_INT64 && Expected(n).Printed?
    ensures Atoi(Expected(n).text) == Some(n) <==> n != MIN_INT64
  {
    if n == MIN_INT64 {
      SignAloneReadsAsNothing();
    } else {
      CanonicalReadsBack(n);
    }
  }

  /** No leading zero, and the sign only in front of a negative number. */
  lemma NoLeadingZero(n: int)
    requires MIN_INT64 < n <= MAX_INT64 && Expected(n).Printed?
    ensures var text := Expected(n).text;
      var digits := if n < 0 then text[1..] else text;
      && (n < 0 <==> text[0] == '-') && AllDigits(digits) && (n == 0 ==> text == "0")
      && (n != 0 ==> digits[0] != '0')
  {
    DecimalDenotes(Magnitude(n));
    assert IsDigit(Decimal(Magnitude(n))[0]);
  }
}
