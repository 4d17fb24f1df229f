/** `date_string_from_file_name`: the partition date a file name carries, read with
    `datetime.strptime(token, '%Y%m%d')` and written back with `strftime("%Y.%m.%d")`. */
module Dates {
  import opened Outcomes
  import opened Text
  import opened Paths

  datatype Date = Date(year: nat, month: nat, day: nat)

  /** Gregorian leap years, as the proleptic calendar of `datetime` has them. */
  predicate IsLeap(y: nat) {
    y % 4 == 0 && (y % 100 != 0 || y % 400 == 0)
  }

  function DaysInMonth(y: nat, m: nat): (n: nat)
    requires 1 <= m <= 12
    ensures 28 <= n <= 31
    ensures n == 29 <==> m == 2 && IsLeap(y)
  {
    if m == 2 then (if IsLeap(y) then 29 else 28)
    else if m == 4 || m == 6 || m == 9 || m == 11 then 30
    else 31
  }

  /** What `datetime.date(year, month, day)` accepts: years 1 to 9999, months 1 to 12, and a day
      within its month. */
  predicate IsValid(d: Date) {
    && 1 <= d.year <= 9999
    && 1 <= d.month <= 12
    && 1 <= d.day <= DaysInMonth(d.year, d.month)
  }

  /** One alternative of a directive that matched: how many characters it took and what `int()`
      reads from them. */
  datatype Piece = Piece(len: nat, value: nat)

  /** The alternatives of `%m`, `1[0-2]|0[1-9]|[1-9]`, that match at `i`, in the order the regular
      expression tries them. */
  function MonthAlts(s: string, i: nat): (r: seq<Piece>)
    requires i <= |s|
    ensures forall k :: 0 <= k < |r| ==> 1 <= r[k].len <= 2 && i + r[k].len <= |s|
    ensures forall k :: 0 <= k < |r| ==> 1 <= r[k].value <= 12
  {
    (if i + 2 <= |s| && s[i] == '1' && '0' <= s[i + 1] <= '2' then [Piece(2, 10 + DigitValue(s[i + 1]))] else [])
    + (if i + 2 <= |s| && s[i] == '0' && '1' <= s[i + 1] <= '9' then [Piece(2, DigitValue(s[i + 1]))] else [])
    + (if i + 1 <= |s| && '1' <= s[i] <= '9' then [Piece(1, DigitValue(s[i]))] else [])
  }

  /** The alternatives of `%d`, `3[01]|[12]\d|0[1-9]|[1-9]| [1-9]`, that match at `i`, in order. */
  function DayAlts(s: string, i: nat): (r: seq<Piece>)
    requires i <= |s|
    ensures forall k :: 0 <= k < |r| ==> 1 <= r[k].len <= 2 && i + r[k].len <= |s|
    ensures forall k :: 0 <= k < |r| ==> 1 <= r[k].value <= 31
  {
    (if i + 2 <= |s| && s[i] == '3' && '0' <= s[i + 1] <= '1' then [Piece(2, 30 + DigitValue(s[i + 1]))] else [])
    + (if i + 2 <= |s| && '1' <= s[i] <= '2' && IsDigit(s[i + 1])
       then [Piece(2, 10 * DigitValue(s[i]) + DigitValue(s[i + 1]))] else [])
    + (if i + 2 <= |s| && s[i] == '0' && '1' <= s[i + 1] <= '9' then [Piece(2, DigitValue(s[i + 1]))] else [])
    + (if i + 1 <= |s| && '1' <= s[i] <= '9' then [Piece(1, DigitValue(s[i]))] else [])
    + (if i + 2 <= |s| && s[i] == ' ' && '1' <= s[i + 1] <= '9' then [Piece(2, DigitValue(s[i + 1]))] else [])
  }

  /** The month alternative `p` at `i` took ASCII digits, and its value is what `int()` reads
      from them. */
  predicate ReadsMonth(s: string, i: nat, p: Piece) {
    && i < |s| && IsDigit(s[i])
    && (p.len == 1 ==> p.value == DigitValue(s[i]))
    && (p.len == 2 ==> i + 1 < |s| && IsDigit(s[i + 1]) && p.value == 10 * DigitValue(s[i]) + DigitValue(s[i + 1]))
  }

  /** Each month alternative's value is what `int()` reads from the digits it took. */
  lemma MonthAltsRead(s: string, i: nat)
    requires i <= |s|
    ensures forall k :: 0 <= k < |MonthAlts(s, i)| ==> ReadsMonth(s, i, MonthAlts(s, i)[k])
  {
    var r := MonthAlts(s, i);
    forall k | 0 <= k < |r|
      ensures ReadsMonth(s, i, r[k])
    {
      assert r[k] in r;
    }
  }

  /** Each day alternative's value is what `int()` reads from the characters it took (a leading
      space is skipped). */
  lemma DayAltsRead(s: string, i: nat)
    requires i <= |s|
    ensures var r := DayAlts(s, i);
            forall k :: 0 <= k < |r| ==>
              && i < |s|
              && (r[k].len == 1 ==> IsDigit(s[i]) && r[k].value == DigitValue(s[i]))
              && (r[k].len == 2 ==>
                    i + 1 < |s| && IsDigit(s[i + 1])
                    && (IsDigit(s[i]) ==> r[k].value == 10 * DigitValue(s[i]) + DigitValue(s[i + 1])))
  {
  }

  /** A day alternative matches right after the month alternative `p`. */
  predicate Follows(s: string, i: nat, p: Piece)
    requires i + p.len <= |s|
  {
    DayAlts(s, i + p.len) != []
  }

  /** The match that month alternative `p` and the first day alternative after it make: its end,
      the month and the day. */
  function Take(s: string, i: nat, p: Piece): (nat, nat, nat)
    requires i + p.len <= |s| && Follows(s, i, p)
  {
    var d := DayAlts(s, i + p.len)[0];
    (i + p.len + d.len, p.value, d.value)
  }

  predicate Fits(s: string, i: nat, months: seq<Piece>) {
    forall k :: 0 <= k < |months| ==> i + months[k].len <= |s| && 1 <= months[k].value <= 12
  }

  /** Where backtracking stops among the month alternatives: the first one after which a day
      alternative matches, or the number of alternatives when none is. */
  function FirstFollowed(s: string, i: nat, months: seq<Piece>): (k: nat)
    requires i <= |s| && Fits(s, i, months)
    ensures k <= |months|
    ensures k < |months| ==> Follows(s, i, months[k])
    ensures forall j :: 0 <= j < k ==> !Follows(s, i, months[j])
  {
    if months == [] then 0
    else if Follows(s, i, months[0]) then 0
    else
      var k := 1 + FirstFollowed(s, i, months[1..]);
      assert forall j :: 1 <= j < k ==> months[j] == months[1..][j - 1];
      k
  }

  /** The first match of `%m%d` at `i` that backtracking finds: its end, the month and the day. */
  function FirstMatch(s: string, i: nat, months: seq<Piece>): (r: Option<(nat, nat, nat)>)
    requires i <= |s| && Fits(s, i, months)
    ensures r.Some? ==> r.value.0 <= |s| && 1 <= r.value.1 <= 12 && 1 <= r.value.2 <= 31
  {
    var k := FirstFollowed(s, i, months);
    if k == |months| then None else Some(Take(s, i, months[k]))
  }

  /** `datetime.strptime(s, '%Y%m%d')`: four digits for the year, then the first match of month
      and day; the text must end there ("unconverted data remains" otherwise) and the date must
      exist. */
  function Strptime(s: string): (r: Result<Date, Failure>)
    ensures r.Ok? ==> IsValid(r.value)
    ensures r.Err? ==> r.error == BadDate(s)
  {
    if |s| < 4 || !AllDigits(s[..4]) then Err(BadDate(s))
    else
      match FirstMatch(s, 4, MonthAlts(s, 4))
      case None => Err(BadDate(s))
      case Some((end, month, day)) =>
        if end != |s| then Err(BadDate(s))
        else
          var d := Date(Value(s[..4]), month, day);
          if IsValid(d) then Ok(d) else Err(BadDate(s))
  }

  /** `strftime("%Y.%m.%d")`, zero-padded to four, two and two digits. */
  function Format(d: Date): (r: string)
    ensures |r| == 10 && r[4] == '.' && r[7] == '.'
    ensures AllDigits(r[..4]) && AllDigits(r[5..7]) && AllDigits(r[8..])
  {
    var r := Pad(d.year, 4) + "." + Pad(d.month, 2) + "." + Pad(d.day, 2);
    assert r[..4] == Pad(d.year, 4) && r[5..7] == Pad(d.month, 2) && r[8..] == Pad(d.day, 2);
    r
  }

  /** `date_string_from_file_name(filename)`: the first "_"-separated token of the base name, read
      as a date and written with dots. */
  function DateString(filename: string): (r: Result<string, Failure>)
    ensures r.Ok? <==> Strptime(FirstToken(Basename(filename))).Ok?
    ensures r.Ok? ==> r.value == Format(Strptime(FirstToken(Basename(filename))).value)
    ensures r.Err? ==> r.error == BadDate(FirstToken(Basename(filename)))
    ensures var t := FirstToken(Basename(filename));
            |t| == 8 && AllDigits(t) ==>
              && (r.Ok? <==> IsValid(Compact(t)))
              && (r.Ok? ==> r.value == t[..4] + "." + t[4..6] + "." + t[6..8])
  {
    var t := FirstToken(Basename(filename));
    var p := Strptime(t);
    EightDigitToken(t);
    if p.Ok? then Ok(Format(p.value)) else Err(p.error)
  }

  /** The date an eight-digit token spells as YYYYMMDD, whether or not it exists. */
  function Compact(t: string): Date
    requires |t| == 8 && AllDigits(t)
  {
    assert AllDigits(t[..4]) && AllDigits(t[4..6]) && AllDigits(t[6..8]);
    Date(Value(t[..4]), Value(t[4..6]), Value(t[6..8]))
  }

  /** An eight-digit token parses exactly when it spells a valid date, and is then written back
      with dots after the year and the month. */
  lemma EightDigitToken(t: string)
    ensures |t| == 8 && AllDigits(t) ==>
              && (Strptime(t).Ok? <==> IsValid(Compact(t)))
              && (Strptime(t).Ok? ==> Format(Strptime(t).value) == t[..4] + "." + t[4..6] + "." + t[6..8])
  {
    if |t| == 8 && AllDigits(t) {
      EightDigits(t);
      if Strptime(t).Ok? {
        EightDigitsFormat(t);
      }
    }
  }

  /** The value of two ASCII digits. */
  lemma TwoDigits(t: string)
    requires |t| == 2 && AllDigits(t)
    ensures Value(t) == 10 * DigitValue(t[0]) + DigitValue(t[1])
  {
    assert t[..1][..0] == [] && t[..1][0] == t[0];
    assert Value(t[..1]) == DigitValue(t[0]);
  }

  /** Eight ASCII digits are read as YYYYMMDD: the parse succeeds exactly when those three numbers
      form a valid date, and then gives that date. */
  lemma EightDigits(s: string)
    requires |s| == 8 && AllDigits(s)
    ensures var d := Date(Value(s[..4]), Value(s[4..6]), Value(s[6..8]));
            && (Strptime(s).Ok? <==> IsValid(d))
            && (Strptime(s).Ok? ==> Strptime(s).value == d)
  {
    assert AllDigits(s[..4]);
    if InUsualPlaces(s) {
      UsualMatch(s);
    } else {
      NoFullMatch(s);
      TwoDigits(s[4..6]);
      TwoDigits(s[6..8]);
      assert s[4..6][0] == s[4] && s[4..6][1] == s[5] && s[6..8][0] == s[6] && s[6..8][1] == s[7];
    }
  }

  /** With a month and a day in the usual places, the first match takes all eight digits and
      reads them as the month and the day. */
  lemma UsualMatch(s: string)
    requires InUsualPlaces(s)
    ensures FirstMatch(s, 4, MonthAlts(s, 4)) == Some((8, Value(s[4..6]), Value(s[6..8])))
  {
    var months := MonthAlts(s, 4);
    MonthAtFour(s);
    DayAtSix(s);
    assert FirstFollowed(s, 4, months) == 0;
    assert FirstMatch(s, 4, months) == Some((8, months[0].value, DayAlts(s, 6)[0].value));
    TwoDigits(s[4..6]);
    TwoDigits(s[6..8]);
    assert s[4..6][0] == s[4] && s[4..6][1] == s[5] && s[6..8][0] == s[6] && s[6..8][1] == s[7];
  }

  /** With a month number from 1 to 12 in positions 4 and 5, the first month alternative takes
      both. */
  lemma MonthAtFour(s: string)
    requires |s| == 8 && AllDigits(s)
    requires 1 <= 10 * DigitValue(s[4]) + DigitValue(s[5]) <= 12
    ensures MonthAlts(s, 4) != [] && MonthAlts(s, 4)[0] == Piece(2, 10 * DigitValue(s[4]) + DigitValue(s[5]))
  {
  }

  /** With a day number from 1 to 31 in positions 6 and 7, the first day alternative takes both. */
  lemma DayAtSix(s: string)
    requires |s| == 8 && AllDigits(s)
    requires 1 <= 10 * DigitValue(s[6]) + DigitValue(s[7]) <= 31
    ensures DayAlts(s, 6) != [] && DayAlts(s, 6)[0] == Piece(2, 10 * DigitValue(s[6]) + DigitValue(s[7]))
  {
  }

  /** Eight ASCII digits with a month number from 1 to 12 in positions 4 and 5 and a day number
      from 1 to 31 in positions 6 and 7. */
  predicate InUsualPlaces(s: string) {
    && |s| == 8 && AllDigits(s)
    && 1 <= 10 * DigitValue(s[4]) + DigitValue(s[5]) <= 12
    && 1 <= 10 * DigitValue(s[6]) + DigitValue(s[7]) <= 31
  }

  /** Without a month from 1 to 12 and a day from 1 to 31 in the usual places, no match of eight
      digits reaches the end. */
  lemma NoFullMatch(s: string)
    requires |s| == 8 && AllDigits(s) && !InUsualPlaces(s)
    ensures FirstMatch(s, 4, MonthAlts(s, 4)).None? || FirstMatch(s, 4, MonthAlts(s, 4)).value.0 != 8
  {
    var months := MonthAlts(s, 4);
    forall k | 0 <= k < |months| && Follows(s, 4, months[k])
      ensures Take(s, 4, months[k]).0 == 8 ==> InUsualPlaces(s)
    {
      MonthAltsRead(s, 4);
      DayAltsRead(s, 4 + months[k].len);
    }
  }

  /** Writing a number with enough digits and reading it back gives the number. */
  lemma {:induction false} ValuePad(n: nat, w: nat)
    requires n < Power10(w)
    ensures Value(Pad(n, w)) == n
  {
    if w > 0 {
      ValuePad(n / 10, w - 1);
      var p := Pad(n / 10, w - 1) + [('0' as int + n % 10) as char];
      assert p[..|p| - 1] == Pad(n / 10, w - 1);
    }
  }

  function Power10(w: nat): (p: nat)
    ensures p >= 1
  {
    if w == 0 then 1 else 10 * Power10(w - 1)
  }

  /** A year, a month and a day written as YYYYMMDD with zero padding are eight digits from which
      the three numbers are read back. */
  lemma CompactParts(y: nat, m: nat, d: nat)
    requires y < 10000 && m < 100 && d < 100
    ensures var s := Pad(y, 4) + Pad(m, 2) + Pad(d, 2);
            && |s| == 8 && AllDigits(s)
            && Value(s[..4]) == y && Value(s[4..6]) == m && Value(s[6..8]) == d
  {
    var s := Pad(y, 4) + Pad(m, 2) + Pad(d, 2);
    assert s[..4] == Pad(y, 4) && s[4..6] == Pad(m, 2) && s[6..8] == Pad(d, 2);
    assert AllDigits(s);
    assert Power10(4) == 10000 && Power10(2) == 100;
    ValuePad(y, 4);
    ValuePad(m, 2);
    ValuePad(d, 2);
  }

  /** Every valid date, written as YYYYMMDD with zero padding, is read back as itself. */
  lemma CompactRoundTrip(d: Date)
    requires IsValid(d)
    ensures Strptime(Pad(d.year, 4) + Pad(d.month, 2) + Pad(d.day, 2)) == Ok(d)
  {
    CompactParts(d.year, d.month, d.day);
    EightDigits(Pad(d.year, 4) + Pad(d.month, 2) + Pad(d.day, 2));
  }

  /** For eight digits that parse, the date string is the digits with a dot after the year and
      after the month. */
  lemma EightDigitsFormat(s: string)
    requires |s| == 8 && AllDigits(s) && Strptime(s).Ok?
    ensures Format(Strptime(s).value) == s[..4] + "." + s[4..6] + "." + s[6..8]
  {
    EightDigits(s);
    assert AllDigits(s[..4]) && AllDigits(s[4..6]) && AllDigits(s[6..8]);
    PadValue(s[..4]);
    PadValue(s[4..6]);
    PadValue(s[6..8]);
  }

  /** A day past the end of its month raises: `strptime` checks the day against the month. */
  lemma DayPastMonthEnd(y: nat, m: nat, d: nat)
    requires y < 10000 && 1 <= m <= 12 && DaysInMonth(y, m) < d < 100
    ensures var s := Pad(y, 4) + Pad(m, 2) + Pad(d, 2);
            Strptime(s) == Err(BadDate(s))
  {
    CompactParts(y, m, d);
    EightDigits(Pad(y, 4) + Pad(m, 2) + Pad(d, 2));
  }

  /** February 29 raises outside a leap year. */
  lemma NoLeapDay(y: nat)
    requires y < 10000 && !IsLeap(y)
    ensures Strptime(Pad(y, 4) + "0229") == Err(BadDate(Pad(y, 4) + "0229"))
  {
    assert Pad(2, 2) + Pad(29, 2) == "0229";
    DayPastMonthEnd(y, 2, 29);
    assert Pad(y, 4) + Pad(2, 2) + Pad(29, 2) == Pad(y, 4) + "0229";
  }

  /** February 29 is accepted in a leap year. */
  lemma LeapDay(y: nat)
    requires 1 <= y <= 9999 && IsLeap(y)
    ensures Strptime(Pad(y, 4) + "0229") == Ok(Date(y, 2, 29))
  {
    assert Pad(2, 2) + Pad(29, 2) == "0229";
    CompactRoundTrip(Date(y, 2, 29));
    assert Pad(y, 4) + Pad(2, 2) + Pad(29, 2) == Pad(y, 4) + "0229";
  }
}
