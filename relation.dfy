/** The in-memory q tables the ingest builds: a list of column names and rows keyed by them, and
    the four table operations the scripts send (derive `sym` and `time`, delete sentinel rows,
    delete the helper columns, `xcols`). */
module Relation {
  import opened Outcomes

  /** A q atom as far as the ingest looks at it. */
  datatype Cell =
    | Sym(text: string)                          // a symbol
    | Day(days: int)                             // a date
    | Int(n: int)                                // an int
    | Float(x: real)                             // a float that is not null
    | FloatNull                                  // 0n
    | Time(day: int, timeMM: int, seconds: int)  // (1000*TimeMM) + Date + `second$seconds, left symbolic

  type Row = map<string, Cell>

  datatype Table = Table(cols: seq<string>, rows: seq<Row>)

  predicate Distinct(cols: seq<string>) {
    forall i, j :: 0 <= i < j < |cols| ==> cols[i] != cols[j]
  }

  /** Columns are distinct and every row has exactly the table's columns. */
  predicate WellFormed(t: Table) {
    Distinct(t.cols) && forall i :: 0 <= i < |t.rows| ==> t.rows[i].Keys == (set c | c in t.cols)
  }

  /** The five loaded columns that only serve to build `sym` and `time`. */
  const Helpers: seq<string> := ["ISIN", "TimeMM", "Date", "TimeSec", "MarketTime"]

  // ---------------------------------------------------------------------------------------------
  // Seconds of the day

  /** q's `div` by a positive int: the floor of the quotient. */
  function QDiv(x: int, y: int): (r: int)
    requires y > 0
    ensures y * r <= x < y * r + y
  {
    x / y
  }

  /** q's `mod` by a positive int: what `div` leaves, never negative. */
  function QMod(x: int, y: int): (r: int)
    requires y > 0
    ensures 0 <= r < y && x == y * QDiv(x, y) + r
  {
    x % y
  }

  /** `(60*60*TimeSec div 10000) + (60 * (TimeSec mod 10000) div 100) + (TimeSec mod 100)`, read
      right to left as q does. */
  function SecondsOfDay(raw: int): int {
    3600 * QDiv(raw, 10000) + 60 * QDiv(QMod(raw, 10000), 100) + QMod(raw, 100)
  }

  /** The floor quotient and remainder by 10000 of a number written as q·10000 + r. */
  lemma Floor10000(q: int, r: int)
    requires 0 <= r < 10000
    ensures QDiv(q * 10000 + r, 10000) == q && QMod(q * 10000 + r, 10000) == r
  {
    var q' := QDiv(q * 10000 + r, 10000);
    assert q' * 10000 <= q * 10000 + r < q' * 10000 + 10000;
  }

  /** The floor quotient and remainder by 100 of a number written as q·100 + r. */
  lemma Floor100(q: int, r: int)
    requires 0 <= r < 100
    ensures QDiv(q * 100 + r, 100) == q && QMod(q * 100 + r, 100) == r
  {
    var q' := QDiv(q * 100 + r, 100);
    assert q' * 100 <= q * 100 + r < q' * 100 + 100;
  }

  /** An HHMMSS number (minutes and seconds below 100) gives 3600·HH + 60·MM + SS, for any sign of
      the hour. */
  lemma SecondsOfClock(h: int, m: int, s: int)
    requires 0 <= m < 100 && 0 <= s < 100
    ensures SecondsOfDay(h * 10000 + m * 100 + s) == 3600 * h + 60 * m + s
  {
    Floor10000(h, m * 100 + s);
    Floor100(m, s);
    Floor100(h * 100 + m, s);
    assert h * 10000 + m * 100 + s == (h * 100 + m) * 100 + s;
  }

  /** A clock time of the day gives a second of the day. */
  lemma SecondsInDay(h: int, m: int, s: int)
    requires 0 <= h < 24 && 0 <= m < 60 && 0 <= s < 60
    ensures 0 <= SecondsOfDay(h * 10000 + m * 100 + s) < 86400
  {
    SecondsOfClock(h, m, s);
  }

  /** Midnight is second 0. */
  lemma Midnight()
    ensures SecondsOfDay(0) == 0
  {
    SecondsOfClock(0, 0, 0);
  }

  /** 23:59:59 is the last second of the day. */
  lemma LastSecond()
    ensures SecondsOfDay(235959) == 86399
  {
    SecondsOfClock(23, 59, 59);
    assert 23 * 10000 + 59 * 100 + 59 == 235959;
  }

  // ---------------------------------------------------------------------------------------------
  // update sym:ISIN, time: ... from `t

  /** The names in `names` that `cols` lacks, appended in order: how `update` adds new columns. */
  function Extend(cols: seq<string>, names: seq<string>): (r: seq<string>)
    ensures |r| >= |cols| && r[..|cols|] == cols
    decreases |names|
  {
    if names == [] then cols
    else Extend(if names[0] in cols then cols else cols + [names[0]], names[1..])
  }

  /** A row the time expression can be evaluated on: a date, and ints for TimeMM and TimeSec. */
  predicate Typed(row: Row) {
    && "ISIN" in row
    && "Date" in row && row["Date"].Day?
    && "TimeMM" in row && row["TimeMM"].Int?
    && "TimeSec" in row && row["TimeSec"].Int?
  }

  function DeriveRow(row: Row): (r: Row)
    requires Typed(row)
    ensures r.Keys == row.Keys + {"sym", "time"}
    ensures r["sym"] == row["ISIN"]
    ensures r["time"] == Time(row["Date"].days, row["TimeMM"].n, SecondsOfDay(row["TimeSec"].n))
    ensures forall c :: c in row && c != "sym" && c != "time" ==> r[c] == row[c]
  {
    row["sym" := row["ISIN"]]["time" := Time(row["Date"].days, row["TimeMM"].n, SecondsOfDay(row["TimeSec"].n))]
  }

  /** `update sym:ISIN, time: ... from `t`: fails when a column it reads is missing or of the wrong
      type; otherwise every row gets `sym` and `time`, added as new columns at the end when absent. */
  function Derive(t: Table): (r: Result<Table, Failure>)
    ensures r.Ok? <==> (forall c :: c in ["ISIN", "Date", "TimeMM", "TimeSec"] ==> c in t.cols)
                       && forall i :: 0 <= i < |t.rows| ==> Typed(t.rows[i])
    ensures r.Ok? ==> r.value.cols == Extend(t.cols, ["sym", "time"]) && |r.value.rows| == |t.rows|
    ensures r.Ok? ==> forall i :: 0 <= i < |t.rows| ==> r.value.rows[i] == DeriveRow(t.rows[i])
  {
    if !(forall c :: c in ["ISIN", "Date", "TimeMM", "TimeSec"] ==> c in t.cols) then Err(QueryFailed)
    else if !(forall i :: 0 <= i < |t.rows| ==> Typed(t.rows[i])) then Err(QueryFailed)
    else Ok(Table(Extend(t.cols, ["sym", "time"]), seq(|t.rows|, i requires 0 <= i < |t.rows| => DeriveRow(t.rows[i]))))
  }

  /** Deriving keeps a table well formed. */
  lemma DeriveWellFormed(t: Table)
    requires WellFormed(t) && Derive(t).Ok?
    ensures WellFormed(Derive(t).value)
  {
    var u := Derive(t).value;
    ExtendDistinct(t.cols, ["sym", "time"]);
    ExtendSet(t.cols);
    forall i | 0 <= i < |u.rows|
      ensures u.rows[i].Keys == (set c | c in u.cols)
    {
      assert u.rows[i].Keys == t.rows[i].Keys + {"sym", "time"};
    }
  }

  /** The column set after `update` adds `sym` and `time`. */
  lemma ExtendSet(cols: seq<string>)
    ensures (set c | c in Extend(cols, ["sym", "time"])) == (set c | c in cols) + {"sym", "time"}
  {
    ExtendMembers(cols, ["sym", "time"]);
  }

  lemma {:induction false} ExtendDistinct(cols: seq<string>, names: seq<string>)
    requires Distinct(cols)
    ensures Distinct(Extend(cols, names))
    decreases |names|
  {
    if names != [] {
      var next := if names[0] in cols then cols else cols + [names[0]];
      ExtendDistinct(next, names[1..]);
    }
  }

  // ---------------------------------------------------------------------------------------------
  // delete from `t where ...

  /** The two sentinel conditions: trades drop `Price=0`, books drop `Bid_Px_Lev_0<=0`. */
  datatype Guard = PriceIsZero | BidAtMostZero

  function GuardColumn(g: Guard): string {
    match g
    case PriceIsZero => "Price"
    case BidAtMostZero => "Bid_Px_Lev_0"
  }

  /** q's comparison of a cell with 0: `None` when q signals a type error. The float null is equal
      to nothing and below every number. */
  function Hits(g: Guard, c: Cell): (r: Option<bool>)
    ensures r.None? <==> !(c.Int? || c.Float? || c.FloatNull?)
    ensures g == PriceIsZero && r.Some? ==> (r.value <==> c == Int(0) || c == Float(0.0))
    ensures g == BidAtMostZero && r.Some? ==> (r.value <==> c.FloatNull? || (c.Int? && c.n <= 0) || (c.Float? && c.x <= 0.0))
  {
    match c
    case Int(n) => Some(if g == PriceIsZero then n == 0 else n <= 0)
    case Float(x) => Some(if g == PriceIsZero then x == 0.0 else x <= 0.0)
    case FloatNull => Some(g == BidAtMostZero)
    case _ => None
  }

  /** A row the condition can be evaluated on. */
  predicate Comparable(g: Guard, row: Row) {
    GuardColumn(g) in row && Hits(g, row[GuardColumn(g)]).Some?
  }

  /** A row the condition deletes. */
  predicate Deleted(g: Guard, row: Row)
    requires Comparable(g, row)
  {
    Hits(g, row[GuardColumn(g)]).value
  }

  /** The rows the delete keeps, in their order. */
  function Keep(g: Guard, rows: seq<Row>): (r: seq<Row>)
    requires forall i :: 0 <= i < |rows| ==> Comparable(g, rows[i])
    ensures |r| <= |rows|
    ensures forall i :: 0 <= i < |r| ==> r[i] in rows && Comparable(g, r[i]) && !Deleted(g, r[i])
  {
    if rows == [] then []
    else (if Deleted(g, rows[0]) then [] else [rows[0]]) + Keep(g, rows[1..])
  }

  /** Every row the delete does not hit survives. */
  lemma {:induction false} KeepKeepsSurvivors(g: Guard, rows: seq<Row>)
    requires forall i :: 0 <= i < |rows| ==> Comparable(g, rows[i])
    ensures forall i :: 0 <= i < |rows| && !Deleted(g, rows[i]) ==> rows[i] in Keep(g, rows)
  {
    if rows != [] {
      KeepKeepsSurvivors(g, rows[1..]);
      forall i | 1 <= i < |rows| && !Deleted(g, rows[i])
        ensures rows[i] in Keep(g, rows)
      {
        assert rows[i] == rows[1..][i - 1];
      }
    }
  }

  /** Keeping works piece by piece, so survivors keep their relative order. */
  lemma {:induction false} KeepSplits(g: Guard, a: seq<Row>, b: seq<Row>)
    requires forall i :: 0 <= i < |a| ==> Comparable(g, a[i])
    requires forall i :: 0 <= i < |b| ==> Comparable(g, b[i])
    ensures Keep(g, a + b) == Keep(g, a) + Keep(g, b)
    decreases |a|
  {
    if a == [] {
      assert a + b == b;
    } else {
      var h := if Deleted(g, a[0]) then [] else [a[0]];
      calc {
        Keep(g, a + b);
        { assert a + b == [a[0]] + (a[1..] + b); KeepCons(g, a[0], a[1..] + b); }
        h + Keep(g, a[1..] + b);
        { KeepSplits(g, a[1..], b); }
        h + (Keep(g, a[1..]) + Keep(g, b));
        (h + Keep(g, a[1..])) + Keep(g, b);
        { assert a == [a[0]] + a[1..]; KeepCons(g, a[0], a[1..]); }
        Keep(g, a) + Keep(g, b);
      }
    }
  }

  /** Keeping from a list with a first row: that row if the guard spares it, then the rest. */
  lemma KeepCons(g: Guard, x: Row, rest: seq<Row>)
    requires Comparable(g, x) && forall i :: 0 <= i < |rest| ==> Comparable(g, rest[i])
    ensures Keep(g, [x] + rest) == (if Deleted(g, x) then [] else [x]) + Keep(g, rest)
  {
    assert ([x] + rest)[0] == x && ([x] + rest)[1..] == rest;
  }

  /** Deleting a second time deletes nothing more. */
  lemma {:induction false} KeepIdempotent(g: Guard, rows: seq<Row>)
    requires forall i :: 0 <= i < |rows| ==> Comparable(g, rows[i])
    ensures Keep(g, Keep(g, rows)) == Keep(g, rows)
    decreases |rows|
  {
    if rows != [] {
      KeepIdempotent(g, rows[1..]);
      var rest := Keep(g, rows[1..]);
      var k := Keep(g, rows);
      if Deleted(g, rows[0]) {
        assert k == [] + rest == rest;
      } else {
        assert k == [rows[0]] + rest;
        assert k != [] && k[0] == rows[0] && k[1..] == rest;
        assert !Deleted(g, k[0]);
        assert Keep(g, k) == [k[0]] + Keep(g, k[1..]);
      }
    }
  }

  /** `delete from `t where <guard>`: fails when the column is missing or not numeric; otherwise
      keeps the columns and exactly the rows the guard does not hit. */
  function DropRows(g: Guard, t: Table): (r: Result<Table, Failure>)
    ensures r.Ok? <==> GuardColumn(g) in t.cols && forall i :: 0 <= i < |t.rows| ==> Comparable(g, t.rows[i])
    ensures r.Ok? ==> r.value.cols == t.cols
    ensures r.Ok? ==> forall row :: row in r.value.rows <==> row in t.rows && !Deleted(g, row)
  {
    if GuardColumn(g) in t.cols && forall i :: 0 <= i < |t.rows| ==> Comparable(g, t.rows[i]) then
      KeepKeepsSurvivors(g, t.rows);
      Ok(Table(t.cols, Keep(g, t.rows)))
    else Err(QueryFailed)
  }

  /** Deleting the sentinel rows twice is deleting them once. */
  lemma DropRowsIdempotent(g: Guard, t: Table)
    requires DropRows(g, t).Ok?
    ensures DropRows(g, DropRows(g, t).value) == DropRows(g, t)
  {
    KeepIdempotent(g, t.rows);
  }

  /** A negative price is not a sentinel for trades, while a non-positive bid is one for books. */
  lemma SentinelsDiffer(x: real)
    requires x < 0.0
    ensures Hits(PriceIsZero, Float(x)) == Some(false)
    ensures Hits(BidAtMostZero, Float(x)) == Some(true)
    ensures Hits(PriceIsZero, FloatNull) == Some(false) && Hits(BidAtMostZero, FloatNull) == Some(true)
  {
  }

  // ---------------------------------------------------------------------------------------------
  // delete c1, c2, ... from `t and `c1`c2 xcols t

  /** `cols except names`: the columns not named, in their order. */
  function Without(cols: seq<string>, names: seq<string>): (r: seq<string>)
    ensures |r| <= |cols|
  {
    if cols == [] then []
    else (if cols[0] in names then [] else [cols[0]]) + Without(cols[1..], names)
  }

  /** What `except` keeps: exactly the columns not named. */
  lemma {:induction false} WithoutMembers(cols: seq<string>, names: seq<string>)
    ensures forall c :: c in Without(cols, names) <==> c in cols && c !in names
  {
    if cols != [] {
      WithoutMembers(cols[1..], names);
      assert cols == [cols[0]] + cols[1..];
    }
  }

  /** `delete c1, ... from `t`: fails when a named column is missing; otherwise drops those columns
      from the list and from every row. */
  function DropColumns(names: seq<string>, t: Table): (r: Result<Table, Failure>)
    ensures r.Ok? <==> forall c :: c in names ==> c in t.cols
    ensures r.Ok? ==> r.value.cols == Without(t.cols, names) && |r.value.rows| == |t.rows|
    ensures r.Ok? ==> forall i :: 0 <= i < |t.rows| ==> r.value.rows[i] == t.rows[i] - (set c | c in names)
  {
    if forall c :: c in names ==> c in t.cols then
      Ok(Table(Without(t.cols, names), seq(|t.rows|, i requires 0 <= i < |t.rows| => t.rows[i] - (set c | c in names))))
    else Err(QueryFailed)
  }

  /** `first xcols t`: fails when a listed column is missing; otherwise the listed columns come first
      and the others follow in their order. Rows are untouched. */
  function XCols(first: seq<string>, t: Table): (r: Result<Table, Failure>)
    ensures r.Ok? <==> forall c :: c in first ==> c in t.cols
    ensures r.Ok? ==> |r.value.cols| >= |first| && r.value.cols[..|first|] == first && r.value.rows == t.rows
  {
    if forall c :: c in first ==> c in t.cols then Ok(Table(first + Without(t.cols, first), t.rows))
    else Err(QueryFailed)
  }

  /** xcols neither loses nor invents a column. */
  lemma XColsMembers(first: seq<string>, t: Table)
    requires XCols(first, t).Ok?
    ensures forall c :: c in XCols(first, t).value.cols <==> c in t.cols
  {
    WithoutMembers(t.cols, first);
  }

  /** The transform one file goes through once loaded: derive, delete the sentinel rows, delete the
      helper columns, reorder. */
  function Pipeline(g: Guard, first: seq<string>, t: Table): Result<Table, Failure> {
    match Derive(t)
    case Err(e) => Err(e)
    case Ok(d) =>
      match DropRows(g, d)
      case Err(e) => Err(e)
      case Ok(f) =>
        match DropColumns(Helpers, f)
        case Err(e) => Err(e)
        case Ok(p) => XCols(first, p)
  }

  /** Removing columns that were not there changes nothing. */
  lemma {:induction false} WithoutAbsent(cols: seq<string>, names: seq<string>)
    requires forall c :: c in names ==> c !in cols
    ensures Without(cols, names) == cols
  {
    if cols != [] {
      WithoutAbsent(cols[1..], names);
    }
  }

  lemma {:induction false} WithoutAppend(a: seq<string>, b: seq<string>, names: seq<string>)
    ensures Without(a + b, names) == Without(a, names) + Without(b, names)
  {
    if a == [] {
      assert a + b == b;
    } else {
      WithoutAppend(a[1..], b, names);
      var ab := a + b;
      assert ab[0] == a[0] && ab[1..] == a[1..] + b;
      var head := if a[0] in names then [] else [a[0]];
      calc {
        Without(ab, names);
        head + Without(a[1..] + b, names);
        head + (Without(a[1..], names) + Without(b, names));
        (head + Without(a[1..], names)) + Without(b, names);
      }
    }
  }

  /** The two columns `update` adds, when the load has neither. */
  lemma ExtendFresh(cols: seq<string>)
    requires "sym" !in cols && "time" !in cols
    ensures Extend(cols, ["sym", "time"]) == cols + ["sym", "time"]
  {
    assert ["sym", "time"] == ["sym"] + ["time"];
    ExtendNew(cols, "sym", ["time"]);
    assert "time" !in cols + ["sym"];
    assert ["time"] == ["time"] + [];
    ExtendNew(cols + ["sym"], "time", []);
    assert cols + ["sym"] + ["time"] == cols + ["sym", "time"];
  }

  /** A name the columns lack is appended. */
  lemma ExtendNew(cols: seq<string>, x: string, rest: seq<string>)
    requires x !in cols
    ensures Extend(cols, [x] + rest) == Extend(cols + [x], rest)
  {
    assert ([x] + rest)[0] == x && ([x] + rest)[1..] == rest;
  }

  /** The columns of the transform's result, stated on the column lists alone. */
  lemma PipelineCols(g: Guard, first: seq<string>, t: Table)
    requires Pipeline(g, first, t).Ok?
    ensures var p := Without(Extend(t.cols, ["sym", "time"]), Helpers);
            Pipeline(g, first, t).value.cols == first + Without(p, first)
  {
  }

  /** Book columns after the transform: `sym`, `time`, then the loaded columns other than the five
      helpers, in load order. */
  lemma BookColumns(t: Table)
    requires "sym" !in t.cols && "time" !in t.cols
    requires Pipeline(BidAtMostZero, ["sym", "time"], t).Ok?
    ensures Pipeline(BidAtMostZero, ["sym", "time"], t).value.cols == ["sym", "time"] + Without(t.cols, Helpers)
  {
    PipelineCols(BidAtMostZero, ["sym", "time"], t);
    BookColumnList(t.cols);
  }

  /** BookColumns on the column lists alone. */
  lemma BookColumnList(cols: seq<string>)
    requires "sym" !in cols && "time" !in cols
    ensures var first := ["sym", "time"];
            Without(Without(Extend(cols, first), Helpers), first) == Without(cols, Helpers)
  {
    var first := ["sym", "time"];
    ExtendFresh(cols);
    var w := Without(cols, Helpers);
    WithoutMembers(cols, Helpers);
    WithoutAppend(cols, first, Helpers);
    AddedNotHelpers();
    WithoutAppend(w, first, first);
    WithoutAbsent(w, first);
    EmptyWithout(first, first);
  }

  /** `sym` and `time` are not among the helper columns. */
  lemma AddedNotHelpers()
    ensures Without(["sym", "time"], Helpers) == ["sym", "time"]
  {
    assert "sym" !in Helpers && "time" !in Helpers;
    WithoutAbsent(["sym", "time"], Helpers);
  }

  /** With the 24 columns the book type string loads, 21 columns remain. */
  lemma BookColumnCount(t: Table)
    requires Distinct(t.cols) && |t.cols| == 24 && forall c :: c in Helpers ==> c in t.cols
    requires "sym" !in t.cols && "time" !in t.cols
    requires Pipeline(BidAtMostZero, ["sym", "time"], t).Ok?
    ensures |Pipeline(BidAtMostZero, ["sym", "time"], t).value.cols| == 21
  {
    BookColumns(t);
    HelpersDistinct();
    WithoutCount(t.cols, Helpers);
  }

  lemma HelpersDistinct()
    ensures Distinct(Helpers)
  {
  }

  /** Removing names that all occur in a list of distinct names shortens it by their number. */
  lemma {:induction false} WithoutCount(cols: seq<string>, names: seq<string>)
    requires Distinct(cols) && Distinct(names) && forall c :: c in names ==> c in cols
    ensures |Without(cols, names)| == |cols| - |names|
    decreases |cols|
  {
    if names == [] {
      WithoutAbsent(cols, names);
    } else {
      assert names[0] in cols;
      var rest := cols[1..];
      assert cols == [cols[0]] + rest;
      assert cols[0] !in rest;
      if cols[0] in names {
        var k :| 0 <= k < |names| && names[k] == cols[0];
        var others := names[..k] + names[k + 1..];
        DistinctRemove(names, k);
        assert forall c :: c in others ==> c in rest;
        WithoutSame(rest, names, others, cols[0]);
        WithoutCount(rest, others);
      } else {
        WithoutCount(rest, names);
      }
    }
  }

  /** Removing one element of a list of distinct names leaves distinct names, none equal to it. */
  lemma DistinctRemove(names: seq<string>, k: int)
    requires Distinct(names) && 0 <= k < |names|
    ensures var o := names[..k] + names[k + 1..];
            Distinct(o) && |o| == |names| - 1 && names[k] !in o
            && forall c :: c in names <==> c in o || c == names[k]
  {
    var o := names[..k] + names[k + 1..];
    forall i, j | 0 <= i < j < |o| ensures o[i] != o[j] {
      var i', j' := if i < k then i else i + 1, if j < k then j else j + 1;
      assert o[i] == names[i'] && o[j] == names[j'];
    }
    forall i | 0 <= i < |o| ensures o[i] != names[k] {
      var i' := if i < k then i else i + 1;
      assert o[i] == names[i'];
    }
    assert names == names[..k] + [names[k]] + names[k + 1..];
  }

  /** Without a given name among `cols`, removing it or not makes no difference. */
  lemma {:induction false} WithoutSame(cols: seq<string>, names: seq<string>, others: seq<string>, x: string)
    requires x !in cols
    requires forall c :: c in names <==> c in others || c == x
    ensures Without(cols, names) == Without(cols, others)
  {
    if cols != [] {
      WithoutSame(cols[1..], names, others, x);
    }
  }

  /** The eight columns of the trade type string "SDIIIIFI": the five helpers and three values. */
  const TradeLoaded: seq<string> := Helpers + ["Price", "Qty", "Volume"]

  const TradeFirst: seq<string> := ["sym", "time", "Price", "Qty", "Volume"]

  /** Trade columns after the transform are exactly sym, time, Price, Qty, Volume, whatever order
      the eight loaded columns come in. */
  lemma TradeColumns(t: Table)
    requires Distinct(t.cols) && |t.cols| == 8 && forall c :: c in TradeLoaded ==> c in t.cols
    requires Pipeline(PriceIsZero, TradeFirst, t).Ok?
    ensures Pipeline(PriceIsZero, TradeFirst, t).value.cols == TradeFirst
  {
    PipelineCols(PriceIsZero, TradeFirst, t);
    EightNames(t.cols);
    var e := Extend(t.cols, ["sym", "time"]);
    ExtendMembers(t.cols, ["sym", "time"]);
    var p := Without(e, Helpers);
    WithoutMembers(e, Helpers);
    assert forall c :: c in p ==> c in TradeFirst;
    EmptyWithout(p, TradeFirst);
  }

  /** What `update` adds: the old columns and the new names, nothing else. */
  lemma {:induction false} ExtendMembers(cols: seq<string>, names: seq<string>)
    ensures forall c :: c in Extend(cols, names) <==> c in cols || c in names
    decreases |names|
  {
    if names != [] {
      var next := if names[0] in cols then cols else cols + [names[0]];
      ExtendMembers(next, names[1..]);
      assert names == [names[0]] + names[1..];
    }
  }

  /** Eight distinct names that include the eight trade columns are those columns. */
  lemma EightNames(cols: seq<string>)
    requires Distinct(cols) && |cols| == 8 && forall c :: c in TradeLoaded ==> c in cols
    ensures forall c :: c in cols ==> c in TradeLoaded
  {
    var t := TradeLoaded;
    assert Distinct(t);
    WithoutCount(cols, t);
    WithoutMembers(cols, t);
    assert Without(cols, t) == [];
  }

  lemma {:induction false} EmptyWithout(cols: seq<string>, names: seq<string>)
    requires forall c :: c in cols ==> c in names
    ensures Without(cols, names) == []
  {
    if cols != [] {
      EmptyWithout(cols[1..], names);
    }
  }

  /** The transform's rows: the derived rows the guard keeps, without the helper columns, in their
      order. */
  lemma PipelineRows(g: Guard, first: seq<string>, t: Table)
    requires Pipeline(g, first, t).Ok?
    ensures var d := Derive(t).value;
            var kept := DropRows(g, d).value.rows;
            Pipeline(g, first, t).value.rows == seq(|kept|, i requires 0 <= i < |kept| => kept[i] - (set c | c in Helpers))
  {
  }
}
