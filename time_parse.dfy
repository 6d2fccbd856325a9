/**
 * Text handling behind `EC2Scheduler._parse_time`: Python's `str.split(':')`,
 * Python's `int()` on a piece of text, and the `datetime.time(hour, minute)`
 * range check.
 */
module TimeParse {
  import opened Wrappers

  /** Number of occurrences of `c` in `s`. */
  function Count(s: string, c: char): nat
  {
    if s == [] then 0 else (if s[0] == c then 1 else 0) + Count(s[1..], c)
  }

  /** Glue the pieces back together with `sep` between consecutive pieces. */
  function Join(parts: seq<string>, sep: char): string
    requires |parts| >= 1
  {
    if |parts| == 1 then parts[0] else parts[0] + [sep] + Join(parts[1..], sep)
  }

  /**
   * Python's `s.split(sep)` for a one-character separator: one more piece
   * than there are separators, no piece holds a separator, and joining the
   * pieces gives back `s`.
   */
  function Split(s: string, sep: char): (parts: seq<string>)
    ensures |parts| == Count(s, sep) + 1
    ensures forall i :: 0 <= i < |parts| ==> sep !in parts[i]
    ensures Join(parts, sep) == s
  {
    if s == [] then [[]]
    else
      var rest := Split(s[1..], sep);
      if s[0] == sep then [[]] + rest
      else
        var parts := [[s[0]] + rest[0]] + rest[1..];
        assert parts[1..] == rest[1..];
        assert Join(parts, sep) == s by {
          if |rest| > 1 {
            assert Join(rest, sep) == rest[0] + [sep] + Join(rest[1..], sep);
          }
        }
        parts
  }

  lemma {:induction false} CountAbsent(s: string, c: char)
    requires c !in s
    ensures Count(s, c) == 0
  {
    if s != [] {
      assert s[0] != c;
      CountAbsent(s[1..], c);
    }
  }

  /** Text with exactly one separator splits into the text before it and the text after it. */
  lemma {:induction false} SplitAtSeparator(a: string, b: string, sep: char)
    requires sep !in a && sep !in b
    ensures Split(a + [sep] + b, sep) == [a, b]
  {
    var s := a + [sep] + b;
    if a == [] {
      assert s[1..] == b;
      CountAbsent(b, sep);
      assert Split(b, sep) == [b];
    } else {
      assert s[0] == a[0] && a[0] != sep;
      assert s[1..] == a[1..] + [sep] + b;
      SplitAtSeparator(a[1..], b, sep);
      assert [a[0]] + a[1..] == a;
    }
  }

  /** The characters Python's `int()` strips from ASCII text: space and tab through carriage return. */
  predicate IsSpace(c: char)
  {
    c == ' ' || (9 <= c as int <= 13)
  }

  predicate IsDigit(c: char)
  {
    '0' <= c <= '9'
  }

  function TrimStart(s: string): string
  {
    if s != [] && IsSpace(s[0]) then TrimStart(s[1..]) else s
  }

  function TrimEnd(s: string): string
  {
    if s != [] && IsSpace(s[|s| - 1]) then TrimEnd(s[..|s| - 1]) else s
  }

  /** Python's `s.strip()`. */
  function Strip(s: string): string
  {
    TrimEnd(TrimStart(s))
  }

  /**
   * The digit part `int()` accepts in base 10: it starts and ends with a
   * digit, and every underscore sits between two digits.
   */
  predicate DigitGroups(d: string)
  {
    && |d| > 0
    && IsDigit(d[0])
    && IsDigit(d[|d| - 1])
    && forall i :: 0 <= i < |d| ==>
         IsDigit(d[i]) || (d[i] == '_' && i + 1 < |d| && IsDigit(d[i + 1]))
  }

  /** Decimal value of a digit string, skipping underscores. */
  function DigitsValue(d: string): int
  {
    if d == [] then 0
    else if d[|d| - 1] == '_' then DigitsValue(d[..|d| - 1])
    else DigitsValue(d[..|d| - 1]) * 10 + (d[|d| - 1] as int - '0' as int)
  }

  /**
   * The default of `sys.get_int_max_str_digits()`: `int()` refuses a decimal
   * text with more digits than this.
   */
  const MaxStrDigits: nat := 4300

  /** The number of digits of a digit string; underscores do not count, leading zeros do. */
  function DigitCount(d: string): (n: nat)
    ensures n <= |d|
  {
    if d == [] then 0
    else DigitCount(d[..|d| - 1]) + (if d[|d| - 1] == '_' then 0 else 1)
  }

  /**
   * Python's `int(s)` with the default base: surrounding whitespace, an
   * optional sign, then digit groups of at most `MaxStrDigits` digits;
   * `None` where Python raises ValueError.
   */
  function ParseInt(s: string): Option<int>
  {
    var t := Strip(s);
    if t == [] then None
    else
      var body := if t[0] == '-' || t[0] == '+' then t[1..] else t;
      if !DigitGroups(body) || DigitCount(body) > MaxStrDigits then None
      else if t[0] == '-' then Some(-DigitsValue(body))
      else Some(DigitsValue(body))
  }

  /** The value of `datetime.time(hour, minute)`. */
  datatype HourMinute = HourMinute(hour: int, minute: int)
  {
    predicate Valid()
    {
      0 <= hour < 24 && 0 <= minute < 60
    }

    /** Seconds since midnight. */
    function Seconds(): int
    {
      hour * 3600 + minute * 60
    }
  }

  /**
   * `_parse_time`: `hour, minute = map(int, s.split(':'))` then
   * `time(hour, minute)`. `None` stands for the ValueError raised by a wrong
   * number of pieces, a piece `int()` rejects, or an hour or minute out of
   * range.
   */
  function ParseTime(s: string): (t: Option<HourMinute>)
    ensures t.Some? ==> t.value.Valid() && Count(s, ':') == 1
  {
    var parts := Split(s, ':');
    if |parts| != 2 then None
    else
      match (ParseInt(parts[0]), ParseInt(parts[1]))
      case (Some(h), Some(m)) =>
        if 0 <= h < 24 && 0 <= m < 60 then Some(HourMinute(h, m)) else None
      case _ => None
  }

  function Digit(n: int): char
    requires 0 <= n < 10
  {
    ('0' as int + n) as char
  }

  function TwoDigits(n: int): string
    requires 0 <= n < 100
  {
    [Digit(n / 10), Digit(n % 10)]
  }

  /** The `"HH:MM"` text a configuration record holds for a time of day. */
  function FormatTime(t: HourMinute): string
    requires t.Valid()
  {
    TwoDigits(t.hour) + [':'] + TwoDigits(t.minute)
  }

  lemma {:induction false} ParseTwoDigits(n: int)
    requires 0 <= n < 100
    ensures ParseInt(TwoDigits(n)) == Some(n)
  {
    var d := TwoDigits(n);
    assert !IsSpace(d[0]) && !IsSpace(d[1]);
    assert TrimStart(d) == d;
    assert TrimEnd(d) == d;
    assert d[..1] == [d[0]] && [d[0]][..0] == [];
    assert DigitsValue([d[0]]) == n / 10;
    assert DigitsValue(d) == DigitsValue([d[0]]) * 10 + n % 10;
  }

  /** Every well-formed time of day survives the trip to `"HH:MM"` text and back. */
  lemma {:induction false} ParseFormatRoundTrip(t: HourMinute)
    requires t.Valid()
    ensures ParseTime(FormatTime(t)) == Some(t)
  {
    var a, b := TwoDigits(t.hour), TwoDigits(t.minute);
    SplitAtSeparator(a, b, ':');
    ParseTwoDigits(t.hour);
    ParseTwoDigits(t.minute);
  }

  /**
   * `_parse_time` accepts exactly the text made of two pieces around a
   * single colon, each an integer `int()` accepts, giving an hour in 0..23
   * and a minute in 0..59; everything else raises.
   */
  lemma {:induction false} ParseTimeExactly(s: string, t: HourMinute)
    ensures ParseTime(s) == Some(t) <==>
      exists a, b {:trigger ParseInt(a), ParseInt(b)} ::
        && s == a + [':'] + b && ':' !in a && ':' !in b
        && ParseInt(a) == Some(t.hour) && ParseInt(b) == Some(t.minute) && t.Valid()
  {
    var parts := Split(s, ':');
    if ParseTime(s) == Some(t) {
      assert |parts| == 2 && Join(parts, ':') == parts[0] + [':'] + parts[1];
      assert ParseInt(parts[0]) == Some(t.hour) && ParseInt(parts[1]) == Some(t.minute);
    }
    if exists a, b {:trigger ParseInt(a), ParseInt(b)} ::
        && s == a + [':'] + b && ':' !in a && ':' !in b
        && ParseInt(a) == Some(t.hour) && ParseInt(b) == Some(t.minute) && t.Valid()
    {
      var a, b :| && s == a + [':'] + b && ':' !in a && ':' !in b
        && ParseInt(a) == Some(t.hour) && ParseInt(b) == Some(t.minute) && t.Valid();
      SplitAtSeparator(a, b, ':');
    }
  }

  /** Two colon-free pieces that `int()` accepts, with values in range, are read as that time of day. */
  lemma {:induction false} ParseTimeOfPieces(a: string, b: string, t: HourMinute)
    requires ':' !in a && ':' !in b && t.Valid()
    requires ParseInt(a) == Some(t.hour) && ParseInt(b) == Some(t.minute)
    ensures ParseTime(a + [':'] + b) == Some(t)
  {
    SplitAtSeparator(a, b, ':');
  }

  /** A parsed time is a whole minute of the day. */
  lemma {:induction false} ParsedSeconds(s: string)
    requires ParseTime(s).Some?
    ensures 0 <= ParseTime(s).value.Seconds() <= 23 * 3600 + 59 * 60
    ensures ParseTime(s).value.Seconds() % 60 == 0
  {
  }

  /**
   * Python's `int()` tolerates padding and single digits: a space, one
   * digit, a colon and one digit (`" 9:5"`, say) is read as that hour and
   * minute.
   */
  lemma {:induction false} PaddedSingleDigitsAccepted(h: char, m: char)
    requires IsDigit(h) && IsDigit(m)
    ensures ParseTime([' ', h, ':', m]) == Some(HourMinute(h as int - '0' as int, m as int - '0' as int))
  {
    SingleDigitParses(h);
    SingleDigitParses(m);
    var a, b := [' ', h], [m];
    assert [' ', h, ':', m] == a + [':'] + b;
    ParseTimeOfPieces(a, b, HourMinute(h as int - '0' as int, m as int - '0' as int));
  }

  /** A lone digit, with or without a leading space, is read as its value. */
  lemma {:induction false} SingleDigitParses(d: char)
    requires IsDigit(d)
    ensures ParseInt([d]) == Some(d as int - '0' as int)
    ensures ParseInt([' ', d]) == Some(d as int - '0' as int)
  {
    assert [' ', d][1..] == [d];
    assert TrimStart([d]) == [d] && TrimEnd([d]) == [d];
    assert Strip([' ', d]) == [d];
    assert [d][..0] == [];
    assert DigitGroups([d]);
    assert DigitsValue([d]) == d as int - '0' as int;
  }

  /** An hour of 24 is rejected by the range check, not by `int()`. */
  lemma {:induction false} HourOutOfRangeRejected()
    ensures ParseTime("24:00") == None
  {
    SplitAtSeparator("24", "00", ':');
    ParseTwoDigits(24);
    assert TwoDigits(24) == "24";
  }

  /**
   * The ASCII information separators (0x1C-0x1F) count as space for
   * `str.isspace()` but are not stripped by `int()`, which rejects them.
   */
  lemma {:induction false} InformationSeparatorRejected(c: char, d: char)
    requires 28 <= c as int <= 31 && IsDigit(d)
    ensures ParseInt([c, d]) == None
  {
    assert TrimStart([c, d]) == [c, d];
    assert TrimEnd([c, d]) == [c, d];
    assert !IsDigit([c, d][0]);
  }

  /** A text of more than `MaxStrDigits` digits, leading zeros included, is refused by `int()`. */
  lemma {:induction false} TooManyDigitsRejected(d: string)
    requires |d| > MaxStrDigits
    requires forall i :: 0 <= i < |d| ==> IsDigit(d[i])
    ensures ParseInt(d) == None
  {
    assert TrimStart(d) == d;
    assert TrimEnd(d) == d;
    AllDigitsCount(d);
  }

  /** Every character of a string of digits counts as a digit. */
  lemma {:induction false} AllDigitsCount(d: string)
    requires forall i :: 0 <= i < |d| ==> IsDigit(d[i])
    ensures DigitCount(d) == |d|
  {
    if d != [] {
      AllDigitsCount(d[..|d| - 1]);
    }
  }

  /** Seconds in the text give three pieces, which `hour, minute = ...` rejects. */
  lemma {:induction false} SecondsRejected()
    ensures ParseTime("09:00:00") == None
  {
    assert Count("09:00:00", ':') == 2;
  }
}
