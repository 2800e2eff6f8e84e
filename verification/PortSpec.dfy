/** Port specs as written in a config (`parse_port_spec` in orchestrator/config.py). */
module PortSpec {
  import opened Wrappers
  import opened Texts
  import opened Ports

  const HIGHEST := 65535

  /** Strings as `str.isdigit` and as `int` see them: `int` takes only decimal digits, and all of those are
      digits, but so are others, superscripts for example; and it takes no more than `limit` of them. */
  datatype Digits = Digits(isDigit: char -> bool, decimal: char -> Option<nat>, limit: nat)

  ghost predicate Sound(d: Digits) {
    && (forall c :: d.decimal(c).Some? ==> d.isDigit(c) && d.decimal(c).value < 10)
    && !d.isDigit('-') && !d.isDigit('+') && forall c | c in "auto" :: !d.isDigit(c)
  }

  /** `None` is the source's answer for a malformed spec; `Raises` stands for the error `int` raises. */
  datatype Parsed = Good(spec: Spec) | Malformed | Raises

  /** `str.isdigit` */
  predicate AllDigits(d: Digits, s: string) {
    |s| > 0 && forall i | 0 <= i < |s| :: d.isDigit(s[i])
  }

  predicate AllDecimal(d: Digits, s: string) {
    |s| > 0 && forall i | 0 <= i < |s| :: d.decimal(s[i]).Some?
  }

  function Number(d: Digits, s: string): nat
    requires AllDecimal(d, s)
  {
    var last := d.decimal(s[|s| - 1]).value;
    if |s| == 1 then last else 10 * Number(d, s[..|s| - 1]) + last
  }

  lemma NumberOne(d: Digits, c: char)
    requires d.decimal(c).Some?
    ensures AllDecimal(d, [c]) && Number(d, [c]) == d.decimal(c).value
  {
  }

  function Power10(n: nat): nat {
    if n == 0 then 1 else 10 * Power10(n - 1)
  }

  /** The places: digits in front count ten times as much for each digit behind them. */
  lemma {:induction false} NumberJoins(d: Digits, a: string, b: string)
    requires AllDecimal(d, a) && AllDecimal(d, b)
    ensures AllDecimal(d, a + b) && Number(d, a + b) == Number(d, a) * Power10(|b|) + Number(d, b)
  {
    var front := b[..|b| - 1];
    assert (a + b)[..|a + b| - 1] == a + front && (a + b)[|a + b| - 1] == b[|b| - 1];
    if |b| == 1 {
      assert a + front == a;
      NumberOne(d, b[0]);
    } else {
      NumberJoins(d, a, front);
      TenTimes(Number(d, a), Power10(|front|));
    }
  }

  lemma TenTimes(x: nat, p: nat)
    ensures x * (10 * p) == 10 * (x * p)
  {
  }

  /** `int` takes the string. */
  predicate Takes(d: Digits, s: string) {
    AllDecimal(d, s) && |s| <= d.limit
  }

  /** `int`, on a string of digits. */
  function Int(d: Digits, s: string): Option<nat> {
    if Takes(d, s) then Some(Number(d, s)) else None
  }

  function Bounded(low: nat, high: nat): Parsed {
    if 1 <= low <= high <= HIGHEST then Good(Range(low, high)) else Malformed
  }

  /** `parse_port_spec` on a string. */
  function Parse(d: Digits, want: string): Parsed {
    if want == "auto" then Good(Auto)
    else if AllDigits(d, want) then
      match Int(d, want)
      case None => Raises
      case Some(port) => Bounded(port, port)
    else match Partition(want, '-')
      case Some(p) => Both(d, p.0, AllDigits(d, p.1), Int(d, p.1))
      case None =>
        match Partition(want, '+')
        case None => Malformed
        case Some(p) => if p.1 != "" then Malformed else Both(d, p.0, true, Some(HIGHEST))
  }

  function Both(d: Digits, low: string, valid: bool, high: Option<nat>): Parsed {
    if !AllDigits(d, low) || !valid then Malformed
    else if Int(d, low).None? || high.None? then Raises
    else Bounded(Int(d, low).value, high.value)
  }

  predicate Writes(d: Digits, s: string, n: nat) {
    Int(d, s) == Some(n)
  }

  /** The forms a range can be written in. */
  ghost predicate Written(d: Digits, want: string, low: nat, high: nat) {
    || (low == high && Writes(d, want, low))
    || (exists a, b :: want == a + "-" + b && Writes(d, a, low) && Writes(d, b, high))
    || (high == HIGHEST && exists a :: want == a + "+" && Writes(d, a, low))
  }

  lemma AutoIsPlain(d: Digits)
    requires Sound(d)
    ensures !AllDigits(d, "auto") && '-' !in "auto" && '+' !in "auto"
  {
    assert "auto"[0] in "auto";
  }

  lemma NoSeparator(d: Digits, s: string)
    requires Sound(d) && AllDigits(d, s)
    ensures '-' !in s && '+' !in s && s != "auto"
  {
    AutoIsPlain(d);
  }

  lemma DecimalsAreDigits(d: Digits, s: string)
    requires Sound(d) && AllDecimal(d, s)
    ensures AllDigits(d, s)
  {
    forall i | 0 <= i < |s| ensures d.isDigit(s[i]) { assert d.decimal(s[i]).Some?; }
  }

  lemma DashForm(d: Digits, a: string, b: string)
    requires Sound(d) && AllDigits(d, a)
    ensures Parse(d, a + "-" + b) == Both(d, a, AllDigits(d, b), Int(d, b)) && !AllDigits(d, a + "-" + b)
  {
    var want := a + "-" + b;
    NoSeparator(d, a);
    AutoIsPlain(d);
    PartitionIs(a, '-', b);
    assert want[|a|] == '-' && '-' in want;
  }

  lemma PlusForm(d: Digits, a: string)
    requires Sound(d) && AllDigits(d, a)
    ensures Parse(d, a + "+") == Both(d, a, true, Some(HIGHEST)) && !AllDigits(d, a + "+")
  {
    var want := a + "+";
    NoSeparator(d, a);
    AutoIsPlain(d);
    PartitionIs(a, '+', "");
    assert a + "+" + "" == want;
    assert want[|a|] == '+' && '+' in want && '-' !in want;
  }

  /** What is neither all digits nor `auto` is read as one of the two forms, or is malformed. */
  lemma ReadAsForm(d: Digits, want: string)
    requires Sound(d) && !AllDigits(d, want) && want != "auto" && !Parse(d, want).Malformed?
    ensures || (exists a, b :: want == a + "-" + b && AllDigits(d, a) && AllDigits(d, b))
            || (exists a :: want == a + "+" && AllDigits(d, a))
  {
    var dash, plus := Partition(want, '-'), Partition(want, '+');
    if dash.Some? {
      assert want == dash.value.0 + "-" + dash.value.1;
    } else {
      assert want == plus.value.0 + "+" + plus.value.1 == plus.value.0 + "+";
    }
  }

  lemma WrittenIsParsed(d: Digits, want: string, low: nat, high: nat)
    requires Sound(d) && Written(d, want, low, high)
    ensures Parse(d, want) == Bounded(low, high)
  {
    if a, b :| want == a + "-" + b && Writes(d, a, low) && Writes(d, b, high) {
      DecimalsAreDigits(d, a);
      DecimalsAreDigits(d, b);
      DashForm(d, a, b);
    } else if Writes(d, want, low) && low == high {
      DecimalsAreDigits(d, want);
      NoSeparator(d, want);
    } else {
      var a :| want == a + "+" && Writes(d, a, low);
      DecimalsAreDigits(d, a);
      PlusForm(d, a);
    }
  }

  lemma ParsedIsWritten(d: Digits, want: string, low: nat, high: nat)
    requires Sound(d) && Parse(d, want) == Good(Range(low, high))
    ensures Written(d, want, low, high)
  {
    if !AllDigits(d, want) {
      ReadAsForm(d, want);
      if a, b :| want == a + "-" + b && AllDigits(d, a) && AllDigits(d, b) {
        DashForm(d, a, b);
        assert Writes(d, a, low) && Writes(d, b, high);
      } else {
        var a :| want == a + "+" && AllDigits(d, a);
        PlusForm(d, a);
        assert Writes(d, a, low);
      }
    }
  }

  /** Exactly the ranges that are written in one of the forms and lie between 1 and 65535 are accepted, as
      themselves. */
  lemma ParsesExactly(d: Digits, want: string, low: nat, high: nat)
    requires Sound(d)
    ensures Parse(d, want) == Good(Range(low, high)) <==> Written(d, want, low, high) && 1 <= low <= high <= HIGHEST
  {
    if Written(d, want, low, high) { WrittenIsParsed(d, want, low, high); }
    if Parse(d, want) == Good(Range(low, high)) {
      ParsedIsWritten(d, want, low, high);
      WrittenIsParsed(d, want, low, high);
    }
  }

  /** A field of digits that `int` does not take. */
  predicate Odd(d: Digits, s: string) {
    AllDigits(d, s) && !Takes(d, s)
  }

  ghost predicate OddWritten(d: Digits, want: string) {
    || Odd(d, want)
    || (exists a, b :: want == a + "-" + b && OddDash(d, a, b))
    || (exists a :: want == a + "+" && Odd(d, a))
  }

  predicate OddDash(d: Digits, a: string, b: string) {
    AllDigits(d, a) && AllDigits(d, b) && (Odd(d, a) || Odd(d, b))
  }

  lemma OddRaises(d: Digits, want: string)
    requires Sound(d) && OddWritten(d, want)
    ensures Parse(d, want).Raises?
  {
    if Odd(d, want) {
      NoSeparator(d, want);
    } else if a, b :| want == a + "-" + b && OddDash(d, a, b) {
      DashForm(d, a, b);
    } else {
      var a :| want == a + "+" && Odd(d, a);
      PlusForm(d, a);
    }
  }

  /** The documented answer for a malformed spec is `None`, but a digit that is not decimal makes the parser raise,
      and so does a number that is too long: exactly when the fields of the spec are all digits and one of them
      has such a digit or more digits than `int` takes. */
  lemma RaisesExactly(d: Digits, want: string)
    requires Sound(d)
    ensures Parse(d, want).Raises? <==> OddWritten(d, want)
  {
    if OddWritten(d, want) { OddRaises(d, want); }
    if Parse(d, want).Raises? && !AllDigits(d, want) {
      ReadAsForm(d, want);
      if a, b :| want == a + "-" + b && AllDigits(d, a) && AllDigits(d, b) {
        DashForm(d, a, b);
        assert OddDash(d, a, b);
      } else {
        var a :| want == a + "+" && AllDigits(d, a);
        PlusForm(d, a);
        assert Odd(d, a);
      }
    }
  }

  /** Such an input: one digit that is not decimal, like a superscript two. */
  lemma SuperscriptRaises(d: Digits, c: char)
    requires Sound(d) && d.isDigit(c) && d.decimal(c).None?
    ensures Parse(d, [c]).Raises?
  {
    assert [c][0] == c;
  }

  /** So does a port with so many leading zeros that `int` no longer takes it. */
  lemma LongPortRaises(d: Digits, zero: char, port: string)
    requires Sound(d) && d.decimal(zero) == Some(0) && AllDecimal(d, port)
    ensures Parse(d, Zeros(zero, d.limit) + port).Raises?
  {
    var want := Zeros(zero, d.limit) + port;
    assert AllDecimal(d, want);
    DecimalsAreDigits(d, want);
    NoSeparator(d, want);
  }

  function Zeros(zero: char, n: nat): (s: string)
    ensures |s| == n && forall i | 0 <= i < n :: s[i] == zero
  {
    seq(n, i => zero)
  }
}
