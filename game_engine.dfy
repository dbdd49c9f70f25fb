/**
 * `parse_to_integer_pair`: read a move typed by the human. The regular
 * expression `[0-9]+` and `findall` become an explicit split of the input
 * into its maximal runs of ASCII digits; `int` becomes a decimal fold.
 */
module GameEngine {
  import opened Wrappers

  predicate IsDigit(c: char) {
    '0' <= c <= '9'
  }

  predicate AllDigits(s: string) {
    forall i :: 0 <= i < |s| ==> IsDigit(s[i])
  }

  /** A match of `[0-9]+`: a non-empty string of digits. */
  predicate IsRun(run: string) {
    run != [] && AllDigits(run)
  }

  function DigitValue(c: char): (d: int)
    requires IsDigit(c)
    ensures 0 <= d <= 9
  {
    c as int - '0' as int
  }

  /** The digits of `s`, in order, with every other character dropped. */
  function Digits(s: string): (r: string)
    ensures AllDigits(r)
  {
    if s == [] then []
    else if IsDigit(s[0]) then [s[0]] + Digits(s[1..])
    else Digits(s[1..])
  }

  function Concat(runs: seq<string>): string {
    if runs == [] then [] else runs[0] + Concat(runs[1..])
  }

  /** The run being read, as a list of matches: nothing when it is empty. */
  function Close(cur: string): (r: seq<string>)
    requires AllDigits(cur)
    ensures forall i :: 0 <= i < |r| ==> IsRun(r[i])
  {
    if cur == [] then [] else [cur]
  }

  /**
   * The scan behind `findall`: `cur` is the run of digits read so far,
   * which the next non-digit (or the end of the input) closes.
   */
  function RunsFrom(cur: string, s: string): (runs: seq<string>)
    requires AllDigits(cur)
    ensures forall i :: 0 <= i < |runs| ==> IsRun(runs[i])
    decreases |s|
  {
    if s == [] then Close(cur)
    else if IsDigit(s[0]) then RunsFrom(cur + [s[0]], s[1..])
    else Close(cur) + RunsFrom([], s[1..])
  }

  /** `num_regex.findall(input_str)`: the maximal runs of digits in `s`, left to right. */
  function DigitRuns(s: string): (runs: seq<string>)
    ensures forall i :: 0 <= i < |runs| ==> IsRun(runs[i])
  {
    RunsFrom([], s)
  }

  lemma ConcatClose(cur: string)
    requires AllDigits(cur)
    ensures Concat(Close(cur)) == cur
  {
    if cur != [] {
      assert Concat([cur]) == cur + Concat([cur][1..]);
    }
  }

  lemma {:induction false} RunsFromKeepsDigits(cur: string, s: string)
    requires AllDigits(cur)
    ensures Concat(RunsFrom(cur, s)) == cur + Digits(s)
    decreases |s|
  {
    if s == [] {
      ConcatClose(cur);
    } else if IsDigit(s[0]) {
      RunsFromKeepsDigits(cur + [s[0]], s[1..]);
      assert Digits(s) == [s[0]] + Digits(s[1..]);
      assert (cur + [s[0]]) + Digits(s[1..]) == cur + ([s[0]] + Digits(s[1..]));
    } else {
      RunsFromKeepsDigits([], s[1..]);
      ConcatAppend(Close(cur), RunsFrom([], s[1..]));
      ConcatClose(cur);
      assert Digits(s) == Digits(s[1..]);
    }
  }

  lemma {:induction false} ConcatAppend(xs: seq<string>, ys: seq<string>)
    ensures Concat(xs + ys) == Concat(xs) + Concat(ys)
    decreases |xs|
  {
    if xs == [] {
      assert xs + ys == ys;
    } else {
      assert (xs + ys)[1..] == xs[1..] + ys;
      ConcatAppend(xs[1..], ys);
    }
  }

  /** Only digits contribute: the matches, joined, are exactly the digits of the input. */
  lemma DigitRunsKeepDigits(s: string)
    ensures Concat(DigitRuns(s)) == Digits(s)
  {
    RunsFromKeepsDigits([], s);
  }

  lemma {:induction false} RunsFromSeparator(cur: string, x: string, c: char, y: string)
    requires AllDigits(cur) && !IsDigit(c)
    ensures RunsFrom(cur, x + [c] + y) == RunsFrom(cur, x) + RunsFrom([], y)
    decreases |x|
  {
    if x == [] {
      assert x + [c] + y == [c] + y;
      assert ([c] + y)[1..] == y;
    } else {
      assert (x + [c] + y)[0] == x[0];
      assert (x + [c] + y)[1..] == x[1..] + [c] + y;
      if IsDigit(x[0]) {
        RunsFromSeparator(cur + [x[0]], x[1..], c, y);
      } else {
        RunsFromSeparator([], x[1..], c, y);
      }
    }
  }

  /** A non-digit only separates: the runs on either side of it are found independently. */
  lemma DigitRunsSeparator(x: string, c: char, y: string)
    requires !IsDigit(c)
    ensures DigitRuns(x + [c] + y) == DigitRuns(x) + DigitRuns(y)
  {
    RunsFromSeparator([], x, c, y);
  }

  lemma {:induction false} RunsFromDigits(cur: string, d: string)
    requires AllDigits(cur) && AllDigits(d) && cur + d != []
    ensures RunsFrom(cur, d) == [cur + d]
    decreases |d|
  {
    if d == [] {
      assert cur + d == cur;
    } else {
      assert IsDigit(d[0]) && AllDigits(d[1..]);
      assert (cur + [d[0]]) + d[1..] == cur + d;
      RunsFromDigits(cur + [d[0]], d[1..]);
    }
  }

  /** A string of digits is one match, the whole string. */
  lemma DigitRunsOfRun(d: string)
    requires IsRun(d)
    ensures DigitRuns(d) == [d]
  {
    RunsFromDigits([], d);
    assert [] + d == d;
  }

  /** `int(m)` for a match `m`: its decimal value, leading zeros allowed. */
  function DecimalValue(run: string): (v: int)
    requires AllDigits(run)
    ensures v >= 0
  {
    if run == [] then 0
    else 10 * DecimalValue(run[..|run| - 1]) + DigitValue(run[|run| - 1])
  }

  /** The decimal rendering of `n`, with no leading zeros: the reference that `DecimalValue` inverts. */
  function Decimal(n: nat): (s: string)
    ensures IsRun(s)
  {
    var last := ['0' + (n % 10) as char];
    if n < 10 then last else Decimal(n / 10) + last
  }

  lemma {:induction false} DecimalValueOfDecimal(n: nat)
    ensures DecimalValue(Decimal(n)) == n
  {
    var s := Decimal(n);
    assert DigitValue(s[|s| - 1]) == n % 10;
    if n >= 10 {
      assert s[..|s| - 1] == Decimal(n / 10);
      DecimalValueOfDecimal(n / 10);
    } else {
      assert s[..|s| - 1] == [];
    }
  }

  /** Two digits read as one number `v` split back into the digits, as `v / 10` and `v % 10`. */
  lemma TwoDigitValue(run: string)
    requires IsRun(run) && |run| == 2
    ensures DecimalValue(run) / 10 == DigitValue(run[0])
    ensures DecimalValue(run) % 10 == DigitValue(run[1])
  {
    assert run[..1][..0] == [];
    assert DecimalValue(run[..1]) == DigitValue(run[0]);
  }

  /**
   * `parse_to_integer_pair`: two matches give their values in order; a
   * single two-digit match gives its two digits (the Python 2 `/` on
   * integers is floor division); anything else gives nothing.
   */
  function ParseToIntegerPair(s: string): (r: Option<(int, int)>)
    ensures r.Some? <==> |DigitRuns(s)| == 2 || (|DigitRuns(s)| == 1 && |DigitRuns(s)[0]| == 2)
    ensures r.Some? && |DigitRuns(s)| == 2 ==>
      r.value == (DecimalValue(DigitRuns(s)[0]), DecimalValue(DigitRuns(s)[1]))
    ensures r.Some? && |DigitRuns(s)| == 1 ==>
      r.value == (DigitValue(DigitRuns(s)[0][0]), DigitValue(DigitRuns(s)[0][1]))
    ensures r.Some? ==> r.value.0 >= 0 && r.value.1 >= 0
  {
    var matches := DigitRuns(s);
    if |matches| == 2 then
      Some((DecimalValue(matches[0]), DecimalValue(matches[1])))
    else if |matches| == 1 && |matches[0]| == 2 then
      TwoDigitValue(matches[0]);
      var v := DecimalValue(matches[0]);
      Some((v / 10, v % 10))
    else
      None
  }

  /** Round trip: two numbers written out with any non-digit between them are read back. */
  lemma ParseTwoNumbers(y: nat, c: char, x: nat)
    requires !IsDigit(c)
    ensures ParseToIntegerPair(Decimal(y) + [c] + Decimal(x)) == Some((y, x))
  {
    DigitRunsSeparator(Decimal(y), c, Decimal(x));
    DigitRunsOfRun(Decimal(y));
    DigitRunsOfRun(Decimal(x));
    DecimalValueOfDecimal(y);
    DecimalValueOfDecimal(x);
  }

  /** Round trip: two digits typed together, as in "12", are read as a row and a column. */
  lemma ParseTwoDigits(a: char, b: char)
    requires IsDigit(a) && IsDigit(b)
    ensures ParseToIntegerPair([a, b]) == Some((DigitValue(a), DigitValue(b)))
  {
    DigitRunsOfRun([a, b]);
  }

  /** Input with no digits at all gives nothing. */
  lemma ParseWithoutDigits(s: string)
    requires Digits(s) == []
    ensures ParseToIntegerPair(s) == None
  {
    DigitRunsKeepDigits(s);
  }

  lemma ParseExample12()
    ensures ParseToIntegerPair("12") == Some((1, 2))
  {
    ParseTwoDigits('1', '2');
  }

  lemma ParseExample05()
    ensures ParseToIntegerPair("05") == Some((0, 5))
  {
    ParseTwoDigits('0', '5');
  }

  lemma ParseExampleSpaced()
    ensures ParseToIntegerPair("1 2") == Some((1, 2))
  {
    ParseTwoNumbers(1, ' ', 2);
    assert Decimal(1) + [' '] + Decimal(2) == "1 2";
  }

  /** A minus sign is a separator like any other non-digit. */
  lemma ParseExampleNegative()
    ensures ParseToIntegerPair("-1,2") == Some((1, 2))
  {
    ParseTwoNumbers(1, ',', 2);
    assert Decimal(1) + [','] + Decimal(2) == "1,2";
    DigitRunsSeparator("", '-', "1,2");
    assert "" + ['-'] + "1,2" == "-1,2";
    assert DigitRuns("") == [];
  }

  lemma ParseExampleOneDigit()
    ensures ParseToIntegerPair("3") == None
  {
    DigitRunsOfRun("3");
  }

  lemma ParseExampleThreeDigits()
    ensures ParseToIntegerPair("123") == None
  {
    DigitRunsOfRun("123");
  }

  lemma ParseExampleThreeNumbers()
    ensures ParseToIntegerPair("1 2 3") == None
  {
    DigitRunsSeparator("1", ' ', "2 3");
    assert "1" + [' '] + "2 3" == "1 2 3";
    DigitRunsSeparator("2", ' ', "3");
    assert "2" + [' '] + "3" == "2 3";
    DigitRunsOfRun("1");
    DigitRunsOfRun("2");
    DigitRunsOfRun("3");
  }
}
