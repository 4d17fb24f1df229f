/** example/example_extract.py: a trial of the trades ingest against a test database. A
    connection to a q process is opened when the script is loaded; `main` then walks every
    market directory and every month of a fixed range, selects that month's book and trade
    archives, and hands each trade archive to `process_trade_file`. */
module ExampleExtract {
  import opened Outcomes
  import opened Text
  import opened Paths
  import opened Selection
  import opened Dates
  import opened Relation
  import opened Engine
  import opened Storage
  import opened Ingest

  /** The q process the script connects to at load time (line 19). */
  const QPort := 40000

  const DataRoot := "D:/data/m_data/"
  const MarketDirs: seq<string> := ["EUX", "ETF", "MTA"]

  /** The temporary directory `main` passes to every call (line 115). */
  const TempDir := "I:/testkdb/tempdir"

  /** The test database the partitions go to (line 52). */
  const TestTrades := "I:/testkdb/trades/"

  /** The table the messages load into (lines 46-52). */
  const TradeTable := "tab_trade"

  /** The file the decompressed stream is copied into, in the working directory (line 63). */
  const Scratch := "file.txt"

  // ---------------------------------------------------------------------------------------
  // process_trade_file
  // ---------------------------------------------------------------------------------------

  /** `full_input_filename` (lines 30-31): the entry name, or `os.path.join(parent_dir, name)`
      with its separators left as they are. */
  function InputPath(name: string, parent: Option<string>): string {
    match parent
    case None => name
    case Some(dir) => Join(dir, name)
  }

  /** `extracted_file` (line 43): the literal "\\.gz" in the source is a backslash followed by
      ".gz", so only that four-character text is removed. */
  function ExtractedName(path: string): string {
    Replace(path, "\\.gz", [])
  }

  /** The five `q.query(...)` calls of lines 46-52. The fourth reorders the columns of `tab`, not
      of `tab_trade`, into `tab_trade`. */
  function TradeQueries(extracted: string, date: string): (cmds: seq<Command>)
    ensures |cmds| == 5
  {
    [ Query([LoadCsv(TradeTable, Types(Trade), extracted)]),
      Query([AddSymTime(TradeTable)]),
      Query([DeleteRows(TradeTable, PriceIsZero), DeleteColumns(TradeTable, Helpers)]),
      Query([Reorder(TradeTable, TradeFirst, "tab")]),
      Query([Dpft(TestTrades, date, "sym", TradeTable)]) ]
  }

  /** `process_trade_file(name, parent_dir, temp_dir)` on the module's connection. `Ingested`
      stands for the normal return. A temporary directory raises AttributeError at line 33
      before anything happens; a missing archive raises at `gzip.open`; then the date, the five
      messages, and the copy of the decompressed stream into `file.txt`. Nothing is removed. */
  function TradeEffect(connected: bool, store: Store, files: map<string, Bytes>, name: string,
                       parent: Option<string>, temp: Option<string>, env: Env): Effect
  {
    if temp.Some? then Effect(Raised(NoAttribute), files, [], store)
    else
      var path := InputPath(name, parent);
      if path !in files then Effect(Raised(FileMissing(path)), files, [], store)
      else
        var extracted := ExtractedName(path);
        match DateString(extracted)
        case Err(err) => Effect(Raised(err), files, [], store)
        case Ok(date) => Loaded(connected, store, files, path, extracted, date, env)
  }

  /** Lines 46-64, once the archive is open and the date known: the five `q.query` calls, whose
      replies are never read, then the decompressed stream copied into `file.txt`. Only a
      connection that is not open raises before the copy. */
  function Loaded(connected: bool, store: Store, files: map<string, Bytes>, path: string, extracted: string,
                  date: string, env: Env): Effect
  {
    var cmds := TradeQueries(extracted, date);
    var p := PostedAll(cmds, connected, store, files, env);
    if p.result.Err? then Effect(Raised(p.result.error), files, [], p.store)
    else
      var c := Decompressed(files, path, Scratch, env.gunzip);
      Effect(if c.result.Ok? then Ingested else Raised(c.result.error), c.files, cmds, p.store)
  }

  method LoadAndCopy(q: Session, fs: FileSystem, path: string, extracted: string, date: string, env: Env)
    returns (r: FileExit)
    modifies q, fs
    ensures var e := Loaded(old(q.connected), old(q.store), old(fs.files), path, extracted, date, env);
            && r == e.exit && fs.files == e.files && q.store == e.store
            && q.events == old(q.events) + SentAll(e.sent)
    ensures q.connected == old(q.connected)
  {
    var cmds := TradeQueries(extracted, date);
    var sent := PostScript(q, cmds, fs.files, env);
    if sent.Err? {
      assert cmds[..0] == [];
      return Raised(sent.error);
    }
    assert cmds[..5] == cmds;
    var copied := fs.Decompress(path, Scratch, env.gunzip);
    r := if copied.Ok? then Ingested else Raised(copied.error);
  }

  /** Lines 28-66. */
  method ProcessTradeFile(q: Session, fs: FileSystem, name: string, parent: Option<string>,
                          temp: Option<string>, env: Env) returns (r: FileExit)
    modifies q, fs
    ensures var e := TradeEffect(old(q.connected), old(q.store), old(fs.files), name, parent, temp, env);
            && r == e.exit && fs.files == e.files && q.store == e.store
            && q.events == old(q.events) + SentAll(e.sent)
    ensures q.connected == old(q.connected)
    ensures temp.Some? ==> r == Raised(NoAttribute) && fs.files == old(fs.files) && q.store == old(q.store)
                           && q.events == old(q.events)
  {
    if temp.Some? {
      return Raised(NoAttribute);
    }
    var path := InputPath(name, parent);
    if path !in fs.files {
      return Raised(FileMissing(path));
    }
    var extracted := ExtractedName(path);
    var date := DateString(extracted);
    if date.Err? {
      return Raised(date.error);
    }
    r := LoadAndCopy(q, fs, path, extracted, date.value, env);
  }

  /** Line 33 reads an attribute of the `temp_dir` string, so any temporary directory raises
      AttributeError and the call changes nothing. */
  lemma TempDirRaises(connected: bool, store: Store, files: map<string, Bytes>, name: string,
                      parent: Option<string>, temp: Option<string>, env: Env)
    requires temp.Some?
    ensures TradeEffect(connected, store, files, name, parent, temp, env) == Effect(Raised(NoAttribute), files, [], store)
  {
  }

  /** A selected archive's name starts with the month's first digit. */
  lemma NameStartsWithDigit(name: string, month: string, kind: Kind)
    requires |month| == 6 && AllDigits(month) && Matches(name, month, kind)
    ensures name != [] && IsDigit(name[0])
  {
    Leading(name, month, kind);
    assert name[0] == Body(name)[0];
  }

  /** "\\.gz" cannot occur in a path whose only backslash is the last character of `prefix`,
      when what follows it is not a '.'. */
  lemma NoBackslashGz(prefix: string, name: string)
    requires forall i :: 0 <= i < |prefix| - 1 ==> prefix[i] != '\\'
    requires IsEntryName(name) && name != [] && name[0] != '.'
    ensures !Occurs(prefix + name, "\\.gz")
  {
    var s := prefix + name;
    forall i | 0 <= i <= |s| - 4
      ensures s[i] != '\\' || s[i + 1] != '.'
    {
      if i >= |prefix| {
        assert s[i] == name[i - |prefix|];
      } else if i + 1 == |prefix| {
        assert s[i + 1] == name[0];
      } else {
        assert s[i] == prefix[i];
      }
    }
    NoStartPair(s, "\\.gz");
  }

  /** `os.path.join` adds at most one backslash, at the end of the prefix. */
  lemma JoinSeparators(dir: string)
    requires '\\' !in dir
    ensures forall i :: 0 <= i < |JoinPrefix(dir)| - 1 ==> JoinPrefix(dir)[i] != '\\'
  {
  }

  /** Line 43 leaves the path of a selected trade archive as it is: the only backslash in it is
      the separator `os.path.join` adds, and what follows it is the first character of the name,
      a digit. So the first message loads the compressed archive itself. */
  lemma ExtractedIsArchive(name: string, month: string, parent: Option<string>)
    requires |month| == 6 && AllDigits(month) && IsEntryName(name) && Matches(name, month, Trade)
    requires parent.Some? ==> '\\' !in parent.value
    ensures ExtractedName(InputPath(name, parent)) == InputPath(name, parent)
  {
    NameStartsWithDigit(name, month, Trade);
    var prefix := match parent case None => [] case Some(dir) => JoinPrefix(dir);
    if parent.Some? {
      JoinSeparators(parent.value);
    }
    assert InputPath(name, parent) == prefix + name;
    NoBackslashGz(prefix, name);
    ReplaceAbsent(prefix + name, "\\.gz", []);
  }

  /** What the second and third messages make of a freshly loaded `tab_trade`: `sym` and `time`
      derived, the zero-price rows and the helper columns deleted. There is no `xcols` of it. */
  function Trimmed(loaded: Table): (r: Option<Table>)
    ensures r.Some? ==> "sym" in r.value.cols && forall c :: c in Helpers ==> c !in r.value.cols
  {
    match Derive(loaded)
    case Err(_) => None
    case Ok(derived) =>
      match DropRows(PriceIsZero, derived)
      case Err(_) => None
      case Ok(kept) =>
        match DropColumns(Helpers, kept)
        case Err(_) => None
        case Ok(trimmed) =>
          TrimmedColumns(loaded.cols);
          Some(trimmed)
  }

  /** `update` adds `sym`, and the column delete keeps it and removes every helper. */
  lemma TrimmedColumns(cols: seq<string>)
    ensures var w := Without(Extend(cols, ["sym", "time"]), Helpers);
            "sym" in w && forall c :: c in Helpers ==> c !in w
  {
    ExtendMembers(cols, ["sym", "time"]);
    WithoutMembers(Extend(cols, ["sym", "time"]), Helpers);
  }

  /** The transform `process_trade_file` of setup_kdb.py applies is the trial's, followed by the
      `xcols` the trial leaves out. */
  lemma TrimmedThenReordered(loaded: Table)
    ensures Pipeline(PriceIsZero, TradeFirst, loaded)
            == match Trimmed(loaded) case None => Err(QueryFailed) case Some(t) => XCols(TradeFirst, t)
  {
  }

  /** What `.Q.dpft` writes from `s`: `tab_trade` as it stands, when it is bound and has `sym`. */
  function Written(s: Store, date: string): seq<Append> {
    if TradeTable in s.tables && "sym" in s.tables[TradeTable].cols
    then [Append(TestTrades, date, "sym", s.tables[TradeTable])]
    else []
  }

  /** `s'` has the same `tab` binding and the same partitions as `s`. */
  predicate SameTab(s: Store, s': Store) {
    && ("tab" in s'.tables <==> "tab" in s.tables)
    && ("tab" in s.tables ==> s'.tables["tab"] == s.tables["tab"])
    && s'.appends == s.appends
  }

  /** A statement that binds only `tab_trade` leaves `tab` and the partitions as they were. */
  lemma KeepsTab(st: Statement, s: Store, files: map<string, Bytes>, env: Env)
    requires (st.LoadCsv? || st.AddSymTime? || st.DeleteRows? || st.DeleteColumns?) && st.name == TradeTable
    ensures Exec(st, s, files, env).Ok? ==> SameTab(s, Exec(st, s, files, env).value)
  {
  }

  /** The first message: `tab_trade` is the parsed file when it parses, and `tab` is untouched. */
  lemma FirstMessage(extracted: string, date: string, s: Store, files: map<string, Bytes>, env: Env)
    ensures var s1 := Posted(TradeQueries(extracted, date)[0], true, s, files, env).store;
            && SameTab(s, s1)
            && (extracted in files && env.parse(Types(Trade), files[extracted]).Some? ==>
                  TradeTable in s1.tables && s1.tables[TradeTable] == env.parse(Types(Trade), files[extracted]).value)
  {
    PostedOne(LoadCsv(TradeTable, Types(Trade), extracted), s, files, env);
    KeepsTab(LoadCsv(TradeTable, Types(Trade), extracted), s, files, env);
  }

  /** The second and third messages: `tab_trade` is trimmed when every step applies to it, and
      `tab` is untouched. */
  lemma TrimMessages(extracted: string, date: string, s: Store, files: map<string, Bytes>, env: Env)
    ensures var cmds := TradeQueries(extracted, date);
            var s3 := Posted(cmds[2], true, Posted(cmds[1], true, s, files, env).store, files, env).store;
            && SameTab(s, s3)
            && (TradeTable in s.tables && Trimmed(s.tables[TradeTable]).Some? ==>
                  TradeTable in s3.tables && s3.tables[TradeTable] == Trimmed(s.tables[TradeTable]).value)
  {
    PostedOne(AddSymTime(TradeTable), s, files, env);
    KeepsTab(AddSymTime(TradeTable), s, files, env);
    var s2 := Posted(Query([AddSymTime(TradeTable)]), true, s, files, env).store;
    PostedTwo(DeleteRows(TradeTable, PriceIsZero), DeleteColumns(TradeTable, Helpers), s2, files, env);
    KeepsTab(DeleteRows(TradeTable, PriceIsZero), s2, files, env);
    match Exec(DeleteRows(TradeTable, PriceIsZero), s2, files, env)
    case Err(_) =>
    case Ok(kept) => KeepsTab(DeleteColumns(TradeTable, Helpers), kept, files, env);
  }

  /** What the first three messages leave: `tab` and the partitions as they were, and
      `tab_trade` the loaded file trimmed, when it loads and every step applies. */
  lemma FirstThree(extracted: string, date: string, s: Store, files: map<string, Bytes>, env: Env)
    ensures var s3 := PostedAll(TradeQueries(extracted, date)[..3], true, s, files, env).store;
            && SameTab(s, s3)
            && (extracted in files && env.parse(Types(Trade), files[extracted]).Some?
                && Trimmed(env.parse(Types(Trade), files[extracted]).value).Some? ==>
                  TradeTable in s3.tables && s3.tables[TradeTable] == Trimmed(env.parse(Types(Trade), files[extracted]).value).value)
  {
    var cmds := TradeQueries(extracted, date);
    var first := cmds[..3];
    var s1 := Posted(cmds[0], true, s, files, env).store;
    var s2 := Posted(cmds[1], true, s1, files, env).store;
    var s3 := Posted(cmds[2], true, s2, files, env).store;
    PostedAllCons(first, s, files, env);
    PostedAllCons(first[1..], s1, files, env);
    PostedAllCons(first[1..][1..], s2, files, env);
    assert first[0] == cmds[0] && first[1..][0] == cmds[1] && first[1..][1..][0] == cmds[2] && first[1..][1..][1..] == [];
    assert PostedAll(first, true, s, files, env).store == s3;
    FirstMessage(extracted, date, s, files, env);
    TrimMessages(extracted, date, s1, files, env);
  }

  /** The fourth and fifth messages. With a `tab` whose columns `xcols` can reorder, the
      partition written is `tab` reordered; without a `tab` the fourth fails in q and the fifth
      writes `tab_trade` as it stands. */
  lemma LastTwo(extracted: string, date: string, s: Store, files: map<string, Bytes>, env: Env)
    ensures var s5 := PostedAll(TradeQueries(extracted, date)[3..], true, s, files, env).store;
            && ("tab" in s.tables && XCols(TradeFirst, s.tables["tab"]).Ok? ==>
                  s5.appends == s.appends + [Append(TestTrades, date, "sym", XCols(TradeFirst, s.tables["tab"]).value)])
            && ("tab" !in s.tables ==> s5.appends == s.appends + Written(s, date))
  {
    var cmds := TradeQueries(extracted, date);
    var last := cmds[3..];
    var s4 := Posted(cmds[3], true, s, files, env).store;
    PostedAllCons(last, s, files, env);
    PostedAllCons(last[1..], s4, files, env);
    assert last[0] == cmds[3] && last[1..][0] == cmds[4] && last[1..][1..] == [];
    PostedOne(Reorder(TradeTable, TradeFirst, "tab"), s, files, env);
    PostedOne(Dpft(TestTrades, date, "sym", TradeTable), s4, files, env);
    if "tab" in s.tables && XCols(TradeFirst, s.tables["tab"]).Ok? {
      var out := XCols(TradeFirst, s.tables["tab"]).value;
      assert "sym" in out.cols by {
        assert TradeFirst[0] == "sym" && out.cols[..|TradeFirst|] == TradeFirst;
      }
    }
  }

  /** The five messages from `s`, as the first three and the last two. */
  lemma AllFive(extracted: string, date: string, s: Store, files: map<string, Bytes>, env: Env)
    ensures var s3 := PostedAll(TradeQueries(extracted, date)[..3], true, s, files, env).store;
            PostedAll(TradeQueries(extracted, date), true, s, files, env).store
            == PostedAll(TradeQueries(extracted, date)[3..], true, s3, files, env).store
  {
    var cmds := TradeQueries(extracted, date);
    assert cmds[..3] + cmds[3..] == cmds;
    PostedAllSplits(cmds[..3], cmds[3..], s, files, env);
  }

  /** The replies of lines 46-52 are never read, so an error in q never stops the call: once the
      archive is there and its name gives a date, all five messages are sent on an open
      connection and the call ends as the copy into `file.txt` ends. Only a connection that is
      not open raises, before anything changes. */
  lemma RepliesUnread(connected: bool, store: Store, files: map<string, Bytes>, name: string,
                      parent: Option<string>, env: Env)
    ensures var e := TradeEffect(connected, store, files, name, parent, None, env);
            var path := InputPath(name, parent);
            var date := DateString(ExtractedName(path));
            var c := Decompressed(files, path, Scratch, env.gunzip);
            path in files && date.Ok? ==>
              if connected then
                && e.sent == TradeQueries(ExtractedName(path), date.value) && e.files == c.files
                && (e.exit == Ingested <==> c.result.Ok?)
              else e == Effect(Raised(NotConnected), files, [], store)
  {
    var path := InputPath(name, parent);
    var date := DateString(ExtractedName(path));
    if path in files && date.Ok? {
      var cmds := TradeQueries(ExtractedName(path), date.value);
      var p := PostedAll(cmds, connected, store, files, env);
      assert TradeEffect(connected, store, files, name, parent, None, env)
             == Loaded(connected, store, files, path, ExtractedName(path), date.value, env);
      assert p.result.Ok? <==> connected;
    }
  }

  /** Line 51 reorders `tab` into `tab_trade`. When q holds a `tab` that `xcols` can reorder, the
      partition written is `tab` reordered, whatever file was loaded. Without a `tab` the fourth
      message fails in q unseen and the fifth writes `tab_trade` as the first three left it. */
  lemma ReordersTab(connected: bool, store: Store, files: map<string, Bytes>, name: string,
                    parent: Option<string>, env: Env)
    ensures var e := TradeEffect(connected, store, files, name, parent, None, env);
            var path := InputPath(name, parent);
            var date := DateString(ExtractedName(path));
            connected && path in files && date.Ok? ==>
              && ("tab" in store.tables && XCols(TradeFirst, store.tables["tab"]).Ok? ==>
                    e.store.appends == store.appends + [Append(TestTrades, date.value, "sym", XCols(TradeFirst, store.tables["tab"]).value)])
              && ("tab" !in store.tables ==>
                    e.store.appends == store.appends + Written(PostedAll(TradeQueries(ExtractedName(path), date.value)[..3], true, store, files, env).store, date.value))
  {
    var path := InputPath(name, parent);
    var date := DateString(ExtractedName(path));
    if connected && path in files && date.Ok? {
      var extracted := ExtractedName(path);
      var s3 := PostedAll(TradeQueries(extracted, date.value)[..3], true, store, files, env).store;
      AllFive(extracted, date.value, store, files, env);
      FirstThree(extracted, date.value, store, files, env);
      LastTwo(extracted, date.value, s3, files, env);
    }
  }

  /** Without a `tab` in q, the partition written holds the loaded file trimmed but not
      reordered: `sym`, `time` and the remaining loaded columns in the order `update` left them. */
  lemma WritesTrimmed(connected: bool, store: Store, files: map<string, Bytes>, name: string,
                      parent: Option<string>, env: Env)
    ensures var e := TradeEffect(connected, store, files, name, parent, None, env);
            var path := InputPath(name, parent);
            var extracted := ExtractedName(path);
            var date := DateString(extracted);
            connected && path in files && date.Ok? && "tab" !in store.tables
            && extracted in files && env.parse(Types(Trade), files[extracted]).Some?
            && Trimmed(env.parse(Types(Trade), files[extracted]).value).Some? ==>
              e.store.appends == store.appends
                                 + [Append(TestTrades, date.value, "sym", Trimmed(env.parse(Types(Trade), files[extracted]).value).value)]
  {
    var path := InputPath(name, parent);
    var extracted := ExtractedName(path);
    var date := DateString(extracted);
    if connected && path in files && date.Ok? && "tab" !in store.tables {
      ReordersTab(connected, store, files, name, parent, env);
      FirstThree(extracted, date.value, store, files, env);
    }
  }

  // ---------------------------------------------------------------------------------------
  // main
  // ---------------------------------------------------------------------------------------

  /** The `k`-th month of the range of line 71, written "%Y%m". */
  function MonthName(k: nat): string {
    Pad(Year(k), 4) + Pad(MonthOfYear(k), 2)
  }

  /** The year of the `k`-th month after April 2017. */
  function Year(k: nat): nat {
    2017 + (4 + k) / 12
  }

  /** The month (1 to 12) of the `k`-th month after April 2017. */
  function MonthOfYear(k: nat): nat {
    (4 + k) % 12 + 1
  }

  /** Line 71: `pd.date_range("2017-05-01", "2019-03-01", freq='M')` gives the month ends from
      May 2017 to February 2019, written "%Y%m". */
  function MonthPatterns(): (ms: seq<string>)
    ensures |ms| == 22 && forall k :: 0 <= k < 22 ==> ms[k] == MonthName(k)
  {
    seq(22, k requires 0 <= k < 22 => MonthName(k))
  }

  lemma PadYears()
    ensures Pad(2017, 4) == "2017" && Pad(2018, 4) == "2018" && Pad(2019, 4) == "2019"
  {
    PadYear(2017, '7');
    PadYear(2018, '8');
    PadYear(2019, '9');
  }

  /** A year of the 2010s, written with four digits. */
  lemma PadYear(y: nat, last: char)
    requires 2010 <= y <= 2019 && last as int == '0' as int + y % 10
    ensures Pad(y, 4) == ['2', '0', '1', last]
  {
    assert Pad(y / 10, 3) == "201" by {
      assert y / 10 == 201;
    }
  }

  lemma PadMonths()
    ensures Pad(5, 2) == "05" && Pad(12, 2) == "12" && Pad(1, 2) == "01" && Pad(2, 2) == "02"
  {
  }

  lemma FirstMonth()
    ensures MonthName(0) == "201705"
  {
    assert Year(0) == 2017 && MonthOfYear(0) == 5;
    PadYears();
    PadMonths();
  }

  lemma December()
    ensures MonthName(7) == "201712"
  {
    assert Year(7) == 2017 && MonthOfYear(7) == 12;
    PadYears();
    PadMonths();
  }

  lemma January()
    ensures MonthName(8) == "201801"
  {
    assert Year(8) == 2018 && MonthOfYear(8) == 1;
    PadYears();
    PadMonths();
  }

  lemma LastMonth()
    ensures MonthName(21) == "201902"
  {
    assert Year(21) == 2019 && MonthOfYear(21) == 2;
    PadYears();
    PadMonths();
  }

  /** The range runs from May 2017 to February 2019, crossing the year between December and
      January. */
  lemma MonthPatternsRange()
    ensures |MonthPatterns()| == 22
    ensures MonthPatterns()[0] == "201705" && MonthPatterns()[7] == "201712" && MonthPatterns()[8] == "201801"
    ensures MonthPatterns()[21] == "201902"
  {
    FirstMonth();
    December();
    January();
    LastMonth();
  }

  /** Every month is six digits, as the selection expects. */
  lemma MonthPatternsDigits()
    ensures forall k :: 0 <= k < |MonthPatterns()| ==> |MonthPatterns()[k]| == 6 && AllDigits(MonthPatterns()[k])
  {
    var ms := MonthPatterns();
    forall k | 0 <= k < 22
      ensures |ms[k]| == 6 && AllDigits(ms[k])
    {
      assert ms[k] == Pad(Year(k), 4) + Pad(MonthOfYear(k), 2);
    }
  }

  /** Line 87: `os.path.join(root, dir_to_load)`; the root ends with '/', so nothing is added. */
  function DataPath(dir: string): string {
    Join(DataRoot, dir)
  }

  /** One directory's (data path, month) pairs, in the order of the months. */
  function Pairs(dataPath: string, months: seq<string>): (ps: seq<(string, string)>)
    ensures |ps| == |months| && forall k :: 0 <= k < |ps| ==> ps[k] == (dataPath, months[k])
  {
    seq(|months|, k requires 0 <= k < |months| => (dataPath, months[k]))
  }

  lemma PairsCons(dataPath: string, months: seq<string>)
    requires months != []
    ensures Pairs(dataPath, months) == [(dataPath, months[0])] + Pairs(dataPath, months[1..])
  {
  }

  /** The (data path, month) pairs the two loops reach: every month, for each directory that
      exists (lines 86-92). */
  function Visits(dirs: seq<string>, listings: map<string, seq<string>>, months: seq<string>): seq<(string, string)>
    decreases |dirs|
  {
    if dirs == [] then []
    else (if DataPath(dirs[0]) in listings then Pairs(DataPath(dirs[0]), months) else []) + Visits(dirs[1..], listings, months)
  }

  predicate HasFiles(listings: map<string, seq<string>>, v: (string, string), kind: Kind) {
    v.0 in listings && Select(listings[v.0], v.1, kind) != []
  }

  /** Line 105: a month goes past the `continue` when it has book files or trade files. */
  predicate Passes(listings: map<string, seq<string>>, v: (string, string)) {
    HasFiles(listings, v, Book) || HasFiles(listings, v, Trade)
  }

  /** Where the loops stop, and the pairs that went past the `continue` on the way. */
  datatype Walk = Walk(stopped: bool, examined: seq<(string, string)>)

  /** The pairs in order: each that passes is examined; the first that has trade files raises
      (its first file raises at line 33) and ends the walk. */
  function Run(listings: map<string, seq<string>>, vs: seq<(string, string)>): Walk
    decreases |vs|
  {
    if vs == [] then Walk(false, [])
    else if HasFiles(listings, vs[0], Trade) then Walk(true, Here(listings, vs[0]))
    else
      var rest := Run(listings, vs[1..]);
      Walk(rest.stopped, Here(listings, vs[0]) + rest.examined)
  }

  /** The pair itself when it goes past the `continue`, nothing otherwise. */
  function Here(listings: map<string, seq<string>>, v: (string, string)): seq<(string, string)> {
    if Passes(listings, v) then [v] else []
  }

  /** The walk over a first pair and the others. */
  lemma RunCons(listings: map<string, seq<string>>, v: (string, string), rest: seq<(string, string)>)
    ensures Run(listings, [v] + rest)
            == if HasFiles(listings, v, Trade) then Walk(true, Here(listings, v))
               else Continue(Here(listings, v), Run(listings, rest))
  {
    assert ([v] + rest)[0] == v && ([v] + rest)[1..] == rest;
  }

  /** The walk raises exactly when some reached month has trade files. */
  lemma {:induction false} StopsIffTrades(listings: map<string, seq<string>>, vs: seq<(string, string)>)
    ensures Run(listings, vs).stopped <==> exists k :: 0 <= k < |vs| && HasFiles(listings, vs[k], Trade)
    decreases |vs|
  {
    if vs != [] {
      StopsIffTrades(listings, vs[1..]);
      if !HasFiles(listings, vs[0], Trade) {
        forall k | 0 < k < |vs|
          ensures vs[k] == vs[1..][k - 1]
        {
        }
        if exists k :: 0 <= k < |vs| && HasFiles(listings, vs[k], Trade) {
          var k :| 0 <= k < |vs| && HasFiles(listings, vs[k], Trade);
          assert HasFiles(listings, vs[1..][k - 1], Trade);
        }
      }
    }
  }

  /** A month is skipped only when both its lists are empty: a walk that does not raise examines
      every reached month with book or trade files, in order, and nothing else. */
  lemma {:induction false} ExaminedArePassing(listings: map<string, seq<string>>, vs: seq<(string, string)>)
    ensures var w := Run(listings, vs);
            && (forall x :: x in w.examined ==> x in vs && Passes(listings, x))
            && (!w.stopped ==> forall k :: 0 <= k < |vs| && Passes(listings, vs[k]) ==> vs[k] in w.examined)
    decreases |vs|
  {
    if vs != [] {
      ExaminedArePassing(listings, vs[1..]);
      if !HasFiles(listings, vs[0], Trade) {
        forall k | 0 < k < |vs|
          ensures vs[k] == vs[1..][k - 1]
        {
        }
      }
    }
  }

  /** The module-level connection of lines 19-21: a refused connection raises at load time. */
  method Connect(listening: bool) returns (q: Session, r: Result<(), Failure>)
    ensures fresh(q) && q.store == Store(map[], [])
    ensures listening ==> r == Ok(()) && q.connected && q.events == [Opened(QPort)]
    ensures !listening ==> r == Err(Refused(QPort)) && !q.connected && q.events == []
  {
    q := new Session(Store(map[], []));
    r := q.Open(QPort, listening);
  }

  /** The walk after the pairs already reached. */
  function Continue(done: seq<(string, string)>, w: Walk): Walk {
    Walk(w.stopped, done + w.examined)
  }

  lemma ContinueStep(listings: map<string, seq<string>>, done: seq<(string, string)>, v: (string, string),
                     rest: seq<(string, string)>)
    requires !HasFiles(listings, v, Trade)
    ensures Continue(done, Run(listings, [v] + rest))
            == Continue(done + Here(listings, v), Run(listings, rest))
  {
    RunCons(listings, v, rest);
  }

  /** The walk over two runs of pairs is the walk over the first, then, unless it raised, the
      walk over the second. */
  lemma {:induction false} RunConcat(listings: map<string, seq<string>>, a: seq<(string, string)>,
                                     b: seq<(string, string)>)
    ensures Run(listings, a + b)
            == if Run(listings, a).stopped then Run(listings, a) else Continue(Run(listings, a).examined, Run(listings, b))
    decreases |a|
  {
    if a == [] {
      assert a + b == b;
    } else {
      assert a + b == [a[0]] + (a[1..] + b);
      assert a == [a[0]] + a[1..];
      RunCons(listings, a[0], a[1..] + b);
      RunCons(listings, a[0], a[1..]);
      RunConcat(listings, a[1..], b);
    }
  }

  /** One step of the inner loop: the walk from month `j` on either raises at month `j` or
      goes on from month `j + 1`. */
  lemma MonthStep(listings: map<string, seq<string>>, dataPath: string, months: seq<string>, j: nat,
                  found: seq<(string, string)>)
    requires j < |months|
    ensures var v := (dataPath, months[j]);
            var here := Here(listings, v);
            Continue(found, Run(listings, Pairs(dataPath, months[j..])))
            == if HasFiles(listings, v, Trade) then Walk(true, found + here)
               else Continue(found + here, Run(listings, Pairs(dataPath, months[j + 1..])))
  {
    var v := (dataPath, months[j]);
    PairsCons(dataPath, months[j..]);
    assert months[j..][0] == months[j] && months[j..][1..] == months[j + 1..];
    if !HasFiles(listings, v, Trade) {
      ContinueStep(listings, found, v, Pairs(dataPath, months[j + 1..]));
    }
  }

  /** One month of one directory (lines 94-116): the two selections, the `continue` when both
      are empty, and the first trade archive in sorted order, which raises at line 33. */
  method ExamineMonth(q: Session, fs: FileSystem, listings: map<string, seq<string>>, dataPath: string,
                      month: string, env: Env)
    returns (passes: bool, stopped: bool)
    requires dataPath in listings
    modifies q, fs
    ensures passes == Passes(listings, (dataPath, month))
    ensures stopped == HasFiles(listings, (dataPath, month), Trade)
    ensures fs.files == old(fs.files) && q.store == old(q.store)
    ensures q.events == old(q.events) && q.connected == old(q.connected)
  {
    var listing := listings[dataPath];
    var books := Select(listing, month, Book);
    var trades := Select(listing, month, Trade);
    if books == [] && trades == [] {
      return false, false;
    }
    var sortedTrades := SortedSelection(listing, month, Trade);
    if trades != [] {
      assert sortedTrades != [] by {
        assert trades[0] in multiset(trades);
      }
      var x := ProcessTradeFile(q, fs, sortedTrades[0], Some(dataPath), Some(TempDir), env);
      return true, true;
    }
    return true, false;
  }

  /** The inner loop of `main` (lines 90-127) over one directory that exists: each month with
      neither list is skipped, and the first month with trade files raises at line 33. */
  method ExtractMonths(q: Session, fs: FileSystem, listings: map<string, seq<string>>, dataPath: string,
                       months: seq<string>, env: Env)
    returns (stopped: bool, found: seq<(string, string)>)
    requires dataPath in listings
    modifies q, fs
    ensures Run(listings, Pairs(dataPath, months)) == Walk(stopped, found)
    ensures fs.files == old(fs.files) && q.store == old(q.store)
    ensures q.events == old(q.events) && q.connected == old(q.connected)
  {
    found := [];
    var j := 0;
    while j < |months|
      invariant 0 <= j <= |months|
      invariant Run(listings, Pairs(dataPath, months)) == Continue(found, Run(listings, Pairs(dataPath, months[j..])))
      invariant fs.files == old(fs.files) && q.store == old(q.store)
      invariant q.events == old(q.events) && q.connected == old(q.connected)
      decreases |months| - j
    {
      var passes;
      passes, stopped := ExamineMonth(q, fs, listings, dataPath, months[j], env);
      MonthStep(listings, dataPath, months, j, found);
      var here := if passes then [(dataPath, months[j])] else [];
      if stopped {
        return true, found + here;
      }
      found := found + here;
      j := j + 1;
    }
    assert months[j..] == [];
    stopped := false;
  }

  /** The pairs from directory `i` on: that directory's, if it exists, then the rest. */
  lemma VisitsStep(listings: map<string, seq<string>>, dirs: seq<string>, i: nat, months: seq<string>)
    requires i < |dirs|
    ensures Visits(dirs[i..], listings, months)
            == (if DataPath(dirs[i]) in listings then Pairs(DataPath(dirs[i]), months) else [])
               + Visits(dirs[i + 1..], listings, months)
  {
    assert dirs[i..][0] == dirs[i] && dirs[i..][1..] == dirs[i + 1..];
  }

  /** One step of the outer loop: the walk goes through one directory's months, then on unless
      it raised there. */
  lemma DirStep(listings: map<string, seq<string>>, head: seq<(string, string)>, rest: seq<(string, string)>,
                examined: seq<(string, string)>, stopped: bool, found: seq<(string, string)>)
    requires Run(listings, head) == Walk(stopped, found)
    ensures Continue(examined, Run(listings, head + rest))
            == if stopped then Walk(true, examined + found) else Continue(examined + found, Run(listings, rest))
  {
    RunConcat(listings, head, rest);
  }

  /** The outer loop of `main` (lines 86-127): a directory that does not exist is skipped,
      every other is walked month by month. */
  method ExtractDirs(q: Session, fs: FileSystem, listings: map<string, seq<string>>, dirs: seq<string>,
                     months: seq<string>, env: Env)
    returns (stopped: bool, examined: seq<(string, string)>)
    modifies q, fs
    ensures Run(listings, Visits(dirs, listings, months)) == Walk(stopped, examined)
    ensures fs.files == old(fs.files) && q.store == old(q.store)
    ensures q.events == old(q.events) && q.connected == old(q.connected)
  {
    examined := [];
    var i := 0;
    while i < |dirs|
      invariant 0 <= i <= |dirs|
      invariant Run(listings, Visits(dirs, listings, months)) == Continue(examined, Run(listings, Visits(dirs[i..], listings, months)))
      invariant fs.files == old(fs.files) && q.store == old(q.store)
      invariant q.events == old(q.events) && q.connected == old(q.connected)
      decreases |dirs| - i
    {
      var found;
      stopped, found := ExtractDir(q, fs, listings, dirs, i, months, env, examined);
      if stopped {
        return true, examined + found;
      }
      examined := examined + found;
      i := i + 1;
    }
    assert dirs[i..] == [];
    stopped := false;
  }

  /** One turn of the outer loop: directory `i` is skipped when it does not exist, and walked
      month by month otherwise. */
  method ExtractDir(q: Session, fs: FileSystem, listings: map<string, seq<string>>, dirs: seq<string>, i: nat,
                    months: seq<string>, env: Env, ghost examined: seq<(string, string)>)
    returns (stopped: bool, found: seq<(string, string)>)
    requires i < |dirs|
    modifies q, fs
    ensures Continue(examined, Run(listings, Visits(dirs[i..], listings, months)))
            == if stopped then Walk(true, examined + found)
               else Continue(examined + found, Run(listings, Visits(dirs[i + 1..], listings, months)))
    ensures fs.files == old(fs.files) && q.store == old(q.store)
    ensures q.events == old(q.events) && q.connected == old(q.connected)
  {
    var dataPath := DataPath(dirs[i]);
    found := [];
    stopped := false;
    if dataPath in listings {
      stopped, found := ExtractMonths(q, fs, listings, dataPath, months, env);
    }
    VisitsStep(listings, dirs, i, months);
    DirStep(listings, if dataPath in listings then Pairs(dataPath, months) else [],
            Visits(dirs[i + 1..], listings, months), examined, stopped, found);
  }

  /** `main()` (lines 69-130), given the directories that exist and their entries. `examined`
      is the pairs that went past the `continue`. The first trade archive met raises at line 33,
      which ends `main` before `q.close()`; nothing changes the files or what q holds. */
  method ExtractMain(q: Session, fs: FileSystem, listings: map<string, seq<string>>, env: Env)
    returns (r: Result<(), Failure>, examined: seq<(string, string)>)
    modifies q, fs
    ensures var w := Run(listings, Visits(MarketDirs, listings, MonthPatterns()));
            && examined == w.examined
            && (w.stopped ==> r == Err(NoAttribute) && q.events == old(q.events) && q.connected == old(q.connected))
            && (!w.stopped ==> r == Ok(()) && !q.connected
                               && q.events == old(q.events) + (if old(q.connected) then [Closed] else []))
    ensures fs.files == old(fs.files) && q.store == old(q.store)
  {
    var stopped;
    stopped, examined := ExtractDirs(q, fs, listings, MarketDirs, MonthPatterns(), env);
    if stopped {
      return Err(NoAttribute), examined;
    }
    q.Close();
    r := Ok(());
  }

  /** The script as a whole: the connection at load time, then `main`. */
  method ExtractScript(listening: bool, fs: FileSystem, listings: map<string, seq<string>>, env: Env)
    returns (r: Result<(), Failure>, q: Session)
    modifies fs
    ensures fresh(q) && fs.files == old(fs.files)
    ensures !listening ==> r == Err(Refused(QPort)) && q.events == []
    ensures listening ==>
              var w := Run(listings, Visits(MarketDirs, listings, MonthPatterns()));
              && (w.stopped ==> r == Err(NoAttribute) && q.events == [Opened(QPort)])
              && (!w.stopped ==> r == Ok(()) && q.events == [Opened(QPort), Closed])
  {
    q, r := Connect(listening);
    if r.Ok? {
      var examined;
      r, examined := ExtractMain(q, fs, listings, env);
    }
  }
}
