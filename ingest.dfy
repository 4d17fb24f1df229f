/** `process_book_file`, `process_trade_file` and `clean_up_files` of setup_kdb.py: where an archive
    is staged and decompressed, the five messages that load it into q and write its partition,
    and the removal of the temporary files. */
module Ingest {
  import opened Outcomes
  import opened Text
  import opened Paths
  import opened Selection
  import opened Dates
  import opened Relation
  import opened Engine
  import opened Storage

  /** Where the partitioned tables live, and where a shard stages its archives. */
  const BooksDir: string := "I:/beetroot/books/"
  const TradesDir: string := "I:/beetroot/trades/"
  const ExtractDir: string := "I:/beetroot/csv_data_from_py"

  /** The global q table a kind is loaded into. */
  function TableName(kind: Kind): string {
    match kind
    case Book => "books"
    case Trade => "trades"
  }

  /** The type string of the load: date, symbol and integer time fields, then 20 float book
      levels, or the trade's integer and float fields. */
  function Types(kind: Kind): string {
    match kind
    case Book => "SDIIFFFFFFFFFFFFFFFFFFFF"
    case Trade => "SDIIIIFI"
  }

  /** The rows each kind deletes: books with a best bid at or below zero, trades with price zero. */
  function GuardOf(kind: Kind): Guard {
    match kind
    case Book => BidAtMostZero
    case Trade => PriceIsZero
  }

  /** The columns `xcols` puts first. */
  function FirstCols(kind: Kind): seq<string> {
    match kind
    case Book => ["sym", "time"]
    case Trade => TradeFirst
  }

  /** `full_input_filename`: the name itself, or joined to the parent directory with backslashes
      turned into slashes. */
  function SourcePath(name: string, parent: Option<string>): string {
    match parent
    case None => name
    case Some(dir) => ToSlashes(Join(dir, name))
  }

  /** `full_output_filename`: the staged copy under the temporary directory, or the source itself. */
  function StagedPath(name: string, parent: Option<string>, temp: Option<string>): string {
    match temp
    case None => SourcePath(name, parent)
    case Some(dir) => ToSlashes(Join(dir, name))
  }

  /** `extracted_file`: the staged path with every ".gz" removed. */
  function ExtractedPath(name: string, parent: Option<string>, temp: Option<string>): string {
    Replace(StagedPath(name, parent, temp), ".gz", [])
  }

  /** The five `q(...)` calls for one extracted file (lines 87-91 for books, 122-126 for trades). */
  function Script(kind: Kind, extracted: string, root: string, date: string): (cmds: seq<Command>)
    ensures |cmds| == 5 && forall i :: 0 <= i < 5 ==> cmds[i].Query?
  {
    var t := TableName(kind);
    [ Query([LoadCsv(t, Types(kind), extracted)]),
      Query([AddSymTime(t)]),
      Query([DeleteRows(t, GuardOf(kind)), DeleteColumns(t, Helpers)]),
      Query([Reorder(t, FirstCols(kind), t)]),
      Query([Dpft(root, date, "sym", t)]) ]
  }

  /** How a call of `process_*_file` ends: normally, by the `return False` after a missing
      extracted file, or by an exception. */
  datatype FileExit = Ingested | ExtractMissing | Raised(failure: Failure)

  /** `clean_up_files(copied_original, extracted_file, full_output_filename)`: the extracted file
      is removed, then the staged copy when one was made. */
  function CleanedUp(files: map<string, Bytes>, copied: bool, extracted: string, staged: string): (c: Change)
    ensures c.result.Ok? <==> extracted in files && (copied ==> staged in files && staged != extracted)
    ensures c.result.Ok? ==> c.files == if copied then files - {extracted, staged} else files - {extracted}
    ensures forall p :: p in c.files ==> p in files && c.files[p] == files[p]
    ensures forall p :: p in files && p != extracted && p != staged ==> p in c.files
  {
    var a := Removed(files, extracted);
    if a.result.Err? || !copied then a else Removed(a.files, staged)
  }

  /** The copy into the temporary directory (when there is one) and the decompression of the
      staged archive next to itself, without ".gz": lines 62-79 and 98-115. */
  function Prepared(files: map<string, Bytes>, name: string, parent: Option<string>, temp: Option<string>,
                    gunzip: Bytes -> Option<Bytes>): (c: Change)
    ensures c.result.Ok? ==> ExtractedPath(name, parent, temp) in c.files
  {
    var staged := StagedPath(name, parent, temp);
    var copy := if temp.Some? then CopyFile(files, SourcePath(name, parent), staged) else Change(Ok(()), files);
    if copy.result.Err? then copy
    else Decompressed(copy.files, staged, ExtractedPath(name, parent, temp), gunzip)
  }

  /** Everything one call of `process_*_file` does: the exit, the files afterwards, the messages
      that reached q and the state of the q process afterwards. */
  datatype Effect = Effect(exit: FileExit, files: map<string, Bytes>, sent: seq<Command>, store: Store)

  /** The staging, then what follows it. The missing-extract `return False` is never taken: the
      decompression creates the file it writes. */
  function FileEffect(kind: Kind, connected: bool, store: Store, files: map<string, Bytes>, name: string,
                      root: string, parent: Option<string>, temp: Option<string>, env: Env): (e: Effect)
    ensures e.exit != ExtractMissing
  {
    var d := Prepared(files, name, parent, temp, env.gunzip);
    if d.result.Err? then Effect(Raised(d.result.error), d.files, [], store)
    else AfterStaging(kind, connected, store, d.files, ExtractedPath(name, parent, temp),
                StagedPath(name, parent, temp), temp.Some?, root, env)
  }

  /** What follows the staging: the check for the extracted file, the date, the five messages and
      the cleanup, each ending the call when it raises. */
  function AfterStaging(kind: Kind, connected: bool, store: Store, files: map<string, Bytes>, extracted: string,
                  staged: string, copied: bool, root: string, env: Env): (e: Effect)
    ensures e.exit == ExtractMissing <==> extracted !in files
  {
    if extracted !in files then Effect(ExtractMissing, files, [], store)
    else
      match DateString(extracted)
      case Err(err) => Effect(Raised(err), files, [], store)
      case Ok(date) => Delivered(Script(kind, extracted, root, date), connected, store, files, extracted, staged, copied, env)
  }

  /** The messages, then the cleanup when they all went through. */
  function Delivered(cmds: seq<Command>, connected: bool, store: Store, files: map<string, Bytes>, extracted: string,
                     staged: string, copied: bool, env: Env): (e: Effect)
    ensures e.exit != ExtractMissing
  {
    var p := Drive(cmds, connected, store, files, env);
    if p.result.Err? then Effect(Raised(p.result.error), files, cmds[..p.sent], p.store)
    else
      var u := CleanedUp(files, copied, extracted, staged);
      Effect(if u.result.Ok? then Ingested else Raised(u.result.error), u.files, cmds, p.store)
  }

  /** Lines 62-79 (and 98-115): stage and decompress. `copied` is `copied_original`. */
  method Stage(fs: FileSystem, name: string, parent: Option<string>, temp: Option<string>,
               gunzip: Bytes -> Option<Bytes>) returns (r: Result<(), Failure>, copied: bool)
    modifies fs
    ensures Change(r, fs.files) == Prepared(old(fs.files), name, parent, temp, gunzip)
    ensures r.Ok? ==> copied == temp.Some?
  {
    var source := SourcePath(name, parent);
    var staged := StagedPath(name, parent, temp);
    copied := false;
    if temp.Some? {
      r := fs.Copy(source, staged);
      if r.Err? {
        return;
      }
      copied := staged in fs.files;
    }
    var extracted := Replace(staged, ".gz", []);
    r := fs.Decompress(staged, extracted, gunzip);
  }

  /** Lines 42-54. */
  method CleanUp(fs: FileSystem, copied: bool, extracted: string, staged: string) returns (r: Result<(), Failure>)
    modifies fs
    ensures Change(r, fs.files) == CleanedUp(old(fs.files), copied, extracted, staged)
  {
    r := fs.Remove(extracted);
    if r.Err? || !copied {
      return;
    }
    r := fs.Remove(staged);
  }

  /** After the first `i` messages of `cmds` went through, starting from `s0` with events `e0`:
      what the whole sequence does is what its remaining messages do from the current store. */
  ghost predicate AtStage(cmds: seq<Command>, i: nat, c: bool, s0: Store, e0: seq<Event>, files: map<string, Bytes>,
                          env: Env, s: Store, events: seq<Event>)
  {
    && i <= |cmds|
    && events == e0 + SentAll(cmds[..i])
    && var p := Drive(cmds[i..], c, s, files, env);
       Drive(cmds, c, s0, files, env) == Progress(i + p.sent, p.result, p.store)
  }

  lemma StageZero(cmds: seq<Command>, c: bool, s0: Store, e0: seq<Event>, files: map<string, Bytes>, env: Env)
    ensures AtStage(cmds, 0, c, s0, e0, files, env, s0, e0)
  {
    assert cmds[..0] == [] && cmds[0..] == cmds;
  }

  /** One more message: either the sequence goes on from the new store, or it ends here. */
  lemma Advance(cmds: seq<Command>, i: nat, c: bool, s0: Store, e0: seq<Event>, files: map<string, Bytes>,
                env: Env, s: Store, events: seq<Event>)
    requires AtStage(cmds, i, c, s0, e0, files, env, s, events) && i < |cmds|
    requires c || i == 0
    ensures var o := Step(cmds[i], c, s, files, env);
            var events' := events + (if c then [Sent(cmds[i])] else []);
            && (o.result.Ok? ==> c && AtStage(cmds, i + 1, c, s0, e0, files, env, o.store, events'))
            && (o.result.Err? ==> var p := Drive(cmds, c, s0, files, env);
                                  p.result == o.result && p.store == o.store && events' == e0 + SentAll(cmds[..p.sent]))
  {
    var o := Step(cmds[i], c, s, files, env);
    assert cmds[i..][0] == cmds[i] && cmds[i..][1..] == cmds[i + 1..];
    if c {
      assert cmds[..i + 1] == cmds[..i] + [cmds[i]];
      assert SentAll(cmds[..i + 1]) == SentAll(cmds[..i]) + [Sent(cmds[i])];
    } else {
      assert cmds[..0] == [];
    }
  }

  /** The last message went through: the sequence went through. */
  lemma StageEnd(cmds: seq<Command>, c: bool, s0: Store, e0: seq<Event>, files: map<string, Bytes>,
                 env: Env, s: Store, events: seq<Event>)
    requires AtStage(cmds, |cmds|, c, s0, e0, files, env, s, events)
    ensures var p := Drive(cmds, c, s0, files, env);
            p.result == Ok(()) && p.store == s && events == e0 + SentAll(cmds[..p.sent])
  {
    assert cmds[|cmds|..] == [];
  }

  /** The five `q(...)` calls of one file, one after the other: the first that raises ends them. */
  method SendScript(q: Session, cmds: seq<Command>, files: map<string, Bytes>, env: Env) returns (r: Result<(), Failure>)
    requires |cmds| == 5
    modifies q
    ensures var p := Drive(cmds, old(q.connected), old(q.store), files, env);
            && r == p.result && q.store == p.store && q.events == old(q.events) + SentAll(cmds[..p.sent])
    ensures q.connected == old(q.connected)
  {
    ghost var c, s0, e0 := q.connected, q.store, q.events;
    StageZero(cmds, c, s0, e0, files, env);
    Advance(cmds, 0, c, s0, e0, files, env, q.store, q.events);
    r := q.Send(cmds[0], files, env);
    if r.Err? {
      return;
    }
    Advance(cmds, 1, c, s0, e0, files, env, q.store, q.events);
    r := q.Send(cmds[1], files, env);
    if r.Err? {
      return;
    }
    Advance(cmds, 2, c, s0, e0, files, env, q.store, q.events);
    r := q.Send(cmds[2], files, env);
    if r.Err? {
      return;
    }
    Advance(cmds, 3, c, s0, e0, files, env, q.store, q.events);
    r := q.Send(cmds[3], files, env);
    if r.Err? {
      return;
    }
    Advance(cmds, 4, c, s0, e0, files, env, q.store, q.events);
    r := q.Send(cmds[4], files, env);
    if r.Err? {
      return;
    }
    StageEnd(cmds, c, s0, e0, files, env, q.store, q.events);
  }

  /** `process_book_file` (lines 61-93) and `process_trade_file` (lines 96-128), which differ only in
      the table, the type string, the row guard and the leading columns. */
  method ProcessFile(kind: Kind, q: Session, fs: FileSystem, name: string, root: string,
                     parent: Option<string>, temp: Option<string>, env: Env) returns (r: FileExit)
    modifies q, fs
    ensures var e := FileEffect(kind, old(q.connected), old(q.store), old(fs.files), name, root, parent, temp, env);
            && r == e.exit && fs.files == e.files && q.store == e.store
            && q.events == old(q.events) + SentAll(e.sent)
    ensures q.connected == old(q.connected)
  {
    var prepared, copied := Stage(fs, name, parent, temp, env.gunzip);
    if prepared.Err? {
      return Raised(prepared.error);
    }
    var staged := StagedPath(name, parent, temp);
    r := LoadAndClean(kind, q, fs, Replace(staged, ".gz", []), staged, copied, root, env);
  }

  /** Lines 80-93 (and 116-128): everything after the decompression. */
  method LoadAndClean(kind: Kind, q: Session, fs: FileSystem, extracted: string, staged: string, copied: bool,
                      root: string, env: Env) returns (r: FileExit)
    modifies q, fs
    ensures var e := AfterStaging(kind, old(q.connected), old(q.store), old(fs.files), extracted, staged, copied, root, env);
            && r == e.exit && fs.files == e.files && q.store == e.store
            && q.events == old(q.events) + SentAll(e.sent)
    ensures q.connected == old(q.connected)
  {
    if extracted !in fs.files {
      return ExtractMissing;
    }
    var date := DateString(extracted);
    if date.Err? {
      return Raised(date.error);
    }
    r := SendAndClean(q, fs, Script(kind, extracted, root, date.value), extracted, staged, copied, env);
  }

  /** Lines 87-93 (and 122-128): the five messages, then `clean_up_files`. */
  method SendAndClean(q: Session, fs: FileSystem, cmds: seq<Command>, extracted: string, staged: string, copied: bool,
                      env: Env) returns (r: FileExit)
    requires |cmds| == 5
    modifies q, fs
    ensures var e := Delivered(cmds, old(q.connected), old(q.store), old(fs.files), extracted, staged, copied, env);
            && r == e.exit && fs.files == e.files && q.store == e.store
            && q.events == old(q.events) + SentAll(e.sent)
    ensures q.connected == old(q.connected)
  {
    var sent := SendScript(q, cmds, fs.files, env);
    if sent.Err? {
      return Raised(sent.error);
    }
    var u := CleanUp(fs, copied, extracted, staged);
    if u.Err? {
      return Raised(u.error);
    }
    assert cmds[..5] == cmds;
    return Ingested;
  }
}

/** What the ingest of one file promises. */
module IngestFacts {
  import opened Outcomes
  import opened Text
  import opened Paths
  import opened Selection
  import opened Dates
  import opened Relation
  import opened Engine
  import opened Storage
  import opened Ingest

  /** A sequence of messages that started from `s`, with the kind's table in some state, ends
      with the table `out` written as a partition when `out` exists, and writes nothing otherwise. */
  predicate Finishes(p: Progress, s: Store, t: string, out: Option<Table>, root: string, date: string) {
    && (p.result.Ok? <==> out.Some?)
    && (p.result.Ok? ==> p.store == Store(s.tables[t := out.value], s.appends + [Append(root, date, "sym", out.value)]))
    && (p.result.Err? ==> p.store.appends == s.appends)
  }

  /** Where the sequence started does not matter beyond the other tables and the partitions. */
  lemma Rebase(p: Progress, s: Store, s': Store, t: string, x: Table, out: Option<Table>, root: string, date: string)
    requires Finishes(p, s', t, out, root, date) && s'.appends == s.appends && s'.tables == s.tables[t := x]
    ensures Finishes(p, s, t, out, root, date)
  {
    if out.Some? {
      assert s'.tables[t := out.value] == s.tables[t := out.value];
    }
  }

  /** `xcols` as an optional table. */
  function Reordered(kind: Kind, trimmed: Table): Option<Table> {
    match XCols(FirstCols(kind), trimmed)
    case Err(_) => None
    case Ok(out) => Some(out)
  }

  /** The row and column deletes, then `xcols`, as an optional table. */
  function Filtered(kind: Kind, derived: Table): Option<Table> {
    match DropRows(GuardOf(kind), derived)
    case Err(_) => None
    case Ok(f) =>
      match DropColumns(Helpers, f)
      case Err(_) => None
      case Ok(trimmed) => Reordered(kind, trimmed)
  }

  /** The whole transform of a loaded table, as an optional table. */
  function Processed(kind: Kind, loaded: Table): (r: Option<Table>)
    ensures r.Some? <==> Pipeline(GuardOf(kind), FirstCols(kind), loaded).Ok?
    ensures r.Some? ==> r.value == Pipeline(GuardOf(kind), FirstCols(kind), loaded).value
  {
    match Derive(loaded)
    case Err(_) => None
    case Ok(derived) => Filtered(kind, derived)
  }

  /** The fifth message writes the partition when the table has a `sym` column. */
  lemma FifthMessage(kind: Kind, extracted: string, root: string, date: string, s: Store,
                     files: map<string, Bytes>, env: Env, out: Table)
    requires TableName(kind) in s.tables && s.tables[TableName(kind)] == out
    requires "sym" in out.cols
    ensures Finishes(Drive(Script(kind, extracted, root, date)[4..], true, s, files, env), s, TableName(kind), Some(out), root, date)
  {
    var cmds := Script(kind, extracted, root, date)[4..];
    DriveOne(cmds, Dpft(root, date, "sym", TableName(kind)), s, files, env);
    assert cmds[1..] == [];
    assert s.tables[TableName(kind) := out] == s.tables;
  }

  lemma FourthMessage(kind: Kind, extracted: string, root: string, date: string, s: Store,
                      files: map<string, Bytes>, env: Env, trimmed: Table)
    requires TableName(kind) in s.tables && s.tables[TableName(kind)] == trimmed
    ensures Finishes(Drive(Script(kind, extracted, root, date)[3..], true, s, files, env), s, TableName(kind),
                     Reordered(kind, trimmed), root, date)
  {
    var t, script := TableName(kind), Script(kind, extracted, root, date);
    var cmds := script[3..];
    DriveOne(cmds, Reorder(t, FirstCols(kind), t), s, files, env);
    if XCols(FirstCols(kind), trimmed).Ok? {
      var out := XCols(FirstCols(kind), trimmed).value;
      var s' := s.(tables := s.tables[t := out]);
      assert "sym" in out.cols by {
        assert FirstCols(kind)[0] == "sym" && out.cols[..|FirstCols(kind)|] == FirstCols(kind);
      }
      assert cmds[1..] == script[4..];
      FifthMessage(kind, extracted, root, date, s', files, env, out);
      Rebase(Drive(cmds[1..], true, s', files, env), s, s', t, out, Some(out), root, date);
    }
  }

  lemma ThirdMessage(kind: Kind, extracted: string, root: string, date: string, s: Store,
                     files: map<string, Bytes>, env: Env, derived: Table)
    requires TableName(kind) in s.tables && s.tables[TableName(kind)] == derived
    ensures Finishes(Drive(Script(kind, extracted, root, date)[2..], true, s, files, env), s, TableName(kind),
                     Filtered(kind, derived), root, date)
  {
    var t, script := TableName(kind), Script(kind, extracted, root, date);
    var cmds := script[2..];
    DriveTwo(cmds, DeleteRows(t, GuardOf(kind)), DeleteColumns(t, Helpers), s, files, env);
    if DropRows(GuardOf(kind), derived).Ok? {
      var s1 := s.(tables := s.tables[t := DropRows(GuardOf(kind), derived).value]);
      var f := DropRows(GuardOf(kind), derived).value;
      if DropColumns(Helpers, f).Ok? {
        var trimmed := DropColumns(Helpers, f).value;
        var s2 := s1.(tables := s1.tables[t := trimmed]);
        assert s2.tables == s.tables[t := trimmed];
        assert cmds[1..] == script[3..];
        FourthMessage(kind, extracted, root, date, s2, files, env, trimmed);
        Rebase(Drive(cmds[1..], true, s2, files, env), s, s2, t, trimmed, Reordered(kind, trimmed), root, date);
      }
    }
  }

  lemma SecondMessage(kind: Kind, extracted: string, root: string, date: string, s: Store,
                      files: map<string, Bytes>, env: Env, loaded: Table)
    requires TableName(kind) in s.tables && s.tables[TableName(kind)] == loaded
    ensures Finishes(Drive(Script(kind, extracted, root, date)[1..], true, s, files, env), s, TableName(kind),
                     Processed(kind, loaded), root, date)
  {
    var t, script := TableName(kind), Script(kind, extracted, root, date);
    var cmds := script[1..];
    DriveOne(cmds, AddSymTime(t), s, files, env);
    if Derive(loaded).Ok? {
      var derived := Derive(loaded).value;
      var s' := s.(tables := s.tables[t := derived]);
      assert cmds[1..] == script[2..];
      ThirdMessage(kind, extracted, root, date, s', files, env, derived);
      Rebase(Drive(cmds[1..], true, s', files, env), s, s', t, derived, Filtered(kind, derived), root, date);
    }
  }

  /** The table a loaded file ends up as, when it is there, parses, and every step of the
      transform applies to it. */
  function Transformed(kind: Kind, extracted: string, files: map<string, Bytes>, env: Env): Option<Table> {
    if extracted !in files then None
    else
      match env.parse(Types(kind), files[extracted])
      case None => None
      case Some(loaded) => Processed(kind, loaded)
  }

  /** The five messages on an open connection go through exactly when the file is there, parses,
      and survives the transform; then the kind's table is the transformed table and one
      partition of it is written under the date, by `sym`. When they do not go through, nothing
      was written. Whatever the table held before the load plays no part. */
  lemma ScriptOutcome(kind: Kind, extracted: string, root: string, date: string, s: Store,
                      files: map<string, Bytes>, env: Env)
    ensures Finishes(Drive(Script(kind, extracted, root, date), true, s, files, env), s, TableName(kind),
                     Transformed(kind, extracted, files, env), root, date)
  {
    var t, script := TableName(kind), Script(kind, extracted, root, date);
    DriveOne(script, LoadCsv(t, Types(kind), extracted), s, files, env);
    if extracted in files && env.parse(Types(kind), files[extracted]).Some? {
      var loaded := env.parse(Types(kind), files[extracted]).value;
      var s' := s.(tables := s.tables[t := loaded]);
      SecondMessage(kind, extracted, root, date, s', files, env, loaded);
      Rebase(Drive(script[1..], true, s', files, env), s, s', t, loaded, Processed(kind, loaded), root, date);
    }
  }

  /** The directory text before the name in the source path: nothing, or the slashed join prefix. */
  function SourceDir(parent: Option<string>): string {
    match parent
    case None => []
    case Some(dir) => ToSlashes(JoinPrefix(dir))
  }

  /** The directory text before the name in the staged path. */
  function StagedDir(parent: Option<string>, temp: Option<string>): string {
    match temp
    case None => SourceDir(parent)
    case Some(dir) => ToSlashes(JoinPrefix(dir))
  }

  /** For a directory entry, the source and staged paths are a directory text followed by the
      name, and the extracted path is the directory text without ".gz" followed by the name
      without ".gz". */
  lemma PathShapes(name: string, parent: Option<string>, temp: Option<string>)
    requires IsEntryName(name)
    ensures SourcePath(name, parent) == SourceDir(parent) + name && IsDirText(SourceDir(parent))
    ensures StagedPath(name, parent, temp) == StagedDir(parent, temp) + name && IsDirText(StagedDir(parent, temp))
    ensures ExtractedPath(name, parent, temp) == Replace(StagedDir(parent, temp), ".gz", []) + Replace(name, ".gz", [])
    ensures IsDirText(Replace(StagedDir(parent, temp), ".gz", []))
  {
    if parent.Some? {
      SlashedJoin(parent.value, name);
    }
    if temp.Some? {
      SlashedJoin(temp.value, name);
    }
    RemoveGzFromEntryPath(StagedDir(parent, temp), name);
  }

  /** A directory text followed by less than a name is not any text followed by the name: either
      the lengths differ, or where the first has its '/' or ':' the second has a name character. */
  lemma DirTextDiffers(a: string, r: string, b: string, name: string)
    requires IsDirText(a) && IsEntryName(name) && |r| < |name|
    ensures a + r != b + name
  {
    if a != [] && |a + r| == |b + name| {
      var i := |a| - 1;
      assert (a + r)[i] == '/' || (a + r)[i] == ':';
      assert (b + name)[i] == name[i - |b|];
    }
  }

  /** For a directory entry containing ".gz", the extracted file is never the source. */
  lemma ExtractedNotSource(name: string, parent: Option<string>, temp: Option<string>)
    requires IsEntryName(name) && Occurs(name, ".gz")
    ensures ExtractedPath(name, parent, temp) != SourcePath(name, parent)
  {
    PathShapes(name, parent, temp);
    RemoveShortens(name, ".gz");
    DirTextDiffers(Replace(StagedDir(parent, temp), ".gz", []), Replace(name, ".gz", []), SourceDir(parent), name);
  }

  /** For a directory entry containing ".gz", the extracted file is never the staged archive. */
  lemma ExtractedNotStaged(name: string, parent: Option<string>, temp: Option<string>)
    requires IsEntryName(name) && Occurs(name, ".gz")
    ensures ExtractedPath(name, parent, temp) != StagedPath(name, parent, temp)
  {
    PathShapes(name, parent, temp);
    RemoveShortens(name, ".gz");
    DirTextDiffers(Replace(StagedDir(parent, temp), ".gz", []), Replace(name, ".gz", []), StagedDir(parent, temp), name);
  }

  /** For a directory entry containing ".gz", staging succeeds exactly when the source exists, is
      not its own staged copy, and decompresses; the extracted file then holds the decompressed
      source archive, and a staged copy holds the source's bytes. */
  lemma PreparedContents(files: map<string, Bytes>, name: string, parent: Option<string>, temp: Option<string>,
                         gunzip: Bytes -> Option<Bytes>)
    requires IsEntryName(name) && Occurs(name, ".gz")
    ensures var d := Prepared(files, name, parent, temp, gunzip);
            var source := SourcePath(name, parent);
            && (d.result.Ok? <==>
                  source in files && (temp.Some? ==> source != StagedPath(name, parent, temp))
                  && Gunzip(files[source], gunzip).Some?)
            && (d.result.Ok? ==>
                  && d.files[ExtractedPath(name, parent, temp)] == Gunzip(files[source], gunzip).value
                  && (temp.Some? ==> StagedPath(name, parent, temp) in d.files
                                     && d.files[StagedPath(name, parent, temp)] == files[source]))
  {
    ExtractedNotStaged(name, parent, temp);
  }

  /** The table a file's bytes end up as once loaded and transformed, when every step applies. */
  function Loads(kind: Kind, bytes: Bytes, env: Env): Option<Table> {
    match env.parse(Types(kind), bytes)
    case None => None
    case Some(loaded) => Processed(kind, loaded)
  }

  /** After a successful staging of a ".gz" entry, the extracted file transforms as the
      decompressed source archive does. */
  lemma TransformedArchive(kind: Kind, files: map<string, Bytes>, name: string, parent: Option<string>,
                           temp: Option<string>, env: Env)
    requires IsEntryName(name) && Occurs(name, ".gz") && Prepared(files, name, parent, temp, env.gunzip).result.Ok?
    ensures SourcePath(name, parent) in files && Gunzip(files[SourcePath(name, parent)], env.gunzip).Some?
    ensures Transformed(kind, ExtractedPath(name, parent, temp), Prepared(files, name, parent, temp, env.gunzip).files, env)
            == Loads(kind, Gunzip(files[SourcePath(name, parent)], env.gunzip).value, env)
  {
    PreparedContents(files, name, parent, temp, env.gunzip);
  }

  /** An ingest that completes writes one partition of the transformed extracted file. */
  lemma IngestedAppends(kind: Kind, connected: bool, store: Store, files: map<string, Bytes>, name: string,
                        root: string, parent: Option<string>, temp: Option<string>, env: Env)
    requires FileEffect(kind, connected, store, files, name, root, parent, temp, env).exit == Ingested
    ensures var d := Prepared(files, name, parent, temp, env.gunzip);
            var out := Transformed(kind, ExtractedPath(name, parent, temp), d.files, env);
            && d.result.Ok? && out.Some? && DateString(ExtractedPath(name, parent, temp)).Ok?
            && FileEffect(kind, connected, store, files, name, root, parent, temp, env).store.appends
               == store.appends + [Append(root, DateString(ExtractedPath(name, parent, temp)).value, "sym", out.value)]
  {
    IngestedOutcome(kind, connected, store, files, name, root, parent, temp, env);
  }

  /** An ingested ".gz" entry writes the transform of what its source archive decompresses to. */
  lemma IngestsArchive(kind: Kind, connected: bool, store: Store, files: map<string, Bytes>, name: string,
                       root: string, parent: Option<string>, temp: Option<string>, env: Env)
    requires IsEntryName(name) && Occurs(name, ".gz")
    ensures var e := FileEffect(kind, connected, store, files, name, root, parent, temp, env);
            var source := SourcePath(name, parent);
            e.exit == Ingested ==>
              && source in files && Gunzip(files[source], env.gunzip).Some?
              && Loads(kind, Gunzip(files[source], env.gunzip).value, env).Some?
              && e.store.appends == store.appends + [Append(root, DateString(ExtractedPath(name, parent, temp)).value, "sym",
                                                            Loads(kind, Gunzip(files[source], env.gunzip).value, env).value)]
  {
    if FileEffect(kind, connected, store, files, name, root, parent, temp, env).exit == Ingested {
      IngestedAppends(kind, connected, store, files, name, root, parent, temp, env);
      TransformedArchive(kind, files, name, parent, temp, env);
    }
  }

  /** The files an ingest ends with: those the staging left, or those the cleanup left, which it
      reaches only after everything else went through. */
  lemma EffectFiles(kind: Kind, connected: bool, store: Store, files: map<string, Bytes>, name: string,
                    root: string, parent: Option<string>, temp: Option<string>, env: Env)
    ensures var e := FileEffect(kind, connected, store, files, name, root, parent, temp, env);
            var d := Prepared(files, name, parent, temp, env.gunzip);
            var u := CleanedUp(d.files, temp.Some?, ExtractedPath(name, parent, temp), StagedPath(name, parent, temp));
            && (e.files == d.files || (d.result.Ok? && e.files == u.files))
            && (e.exit == Ingested ==> d.result.Ok? && u.result.Ok? && e.files == u.files)
  {
    var d := Prepared(files, name, parent, temp, env.gunzip);
    var extracted := ExtractedPath(name, parent, temp);
    if d.result.Ok? && DateString(extracted).Ok? {
      var cmds := Script(kind, extracted, root, DateString(extracted).value);
      var p := Drive(cmds, connected, store, d.files, env);
      assert p.result.Err? ==> FileEffect(kind, connected, store, files, name, root, parent, temp, env).files == d.files;
    }
  }

  /** The staging writes only the staged copy and the extracted file, and a staged copy that
      would be the source itself is refused. */
  lemma PreparedUntouched(files: map<string, Bytes>, name: string, parent: Option<string>, temp: Option<string>,
                          gunzip: Bytes -> Option<Bytes>, p: string)
    requires p in files && p != ExtractedPath(name, parent, temp)
    requires p == SourcePath(name, parent) || p != StagedPath(name, parent, temp)
    ensures var d := Prepared(files, name, parent, temp, gunzip);
            && p in d.files && d.files[p] == files[p]
            && (temp.Some? && p == StagedPath(name, parent, temp) ==> d.result.Err?)
  {
    var staged := StagedPath(name, parent, temp);
    var copy := if temp.Some? then CopyFile(files, SourcePath(name, parent), staged) else Change(Ok(()), files);
    assert p in copy.files && copy.files[p] == files[p];
  }

  /** Nothing but the extracted file and the staged copy changes; the source is only ever read
      (copying it onto itself raises before anything is written). */
  lemma Untouched(kind: Kind, connected: bool, store: Store, files: map<string, Bytes>, name: string,
                  root: string, parent: Option<string>, temp: Option<string>, env: Env, p: string)
    requires p in files && p != ExtractedPath(name, parent, temp)
    requires p == SourcePath(name, parent) || p != StagedPath(name, parent, temp)
    ensures var e := FileEffect(kind, connected, store, files, name, root, parent, temp, env);
            p in e.files && e.files[p] == files[p]
  {
    PreparedUntouched(files, name, parent, temp, env.gunzip, p);
    EffectFiles(kind, connected, store, files, name, root, parent, temp, env);
  }

  /** Lines 42-54 with 91-93 and 126-128: the source of a directory entry containing ".gz"
      survives its ingest unchanged, whether or not a temporary directory is used. */
  lemma SourceSurvives(kind: Kind, connected: bool, store: Store, files: map<string, Bytes>, name: string,
                       root: string, parent: Option<string>, temp: Option<string>, env: Env)
    requires IsEntryName(name) && Occurs(name, ".gz") && SourcePath(name, parent) in files
    ensures var e := FileEffect(kind, connected, store, files, name, root, parent, temp, env);
            var source := SourcePath(name, parent);
            source in e.files && e.files[source] == files[source]
  {
    ExtractedNotSource(name, parent, temp);
    Untouched(kind, connected, store, files, name, root, parent, temp, env, SourcePath(name, parent));
  }

  /** Without ".gz" in the path and without a temporary directory, the archive is decompressed onto
      itself: it is truncated before it is read, and a completed ingest then removes it. */
  lemma InPlaceWithoutGz(kind: Kind, connected: bool, store: Store, files: map<string, Bytes>, name: string,
                         root: string, parent: Option<string>, env: Env)
    requires !Occurs(SourcePath(name, parent), ".gz")
    ensures ExtractedPath(name, parent, None) == SourcePath(name, parent)
    ensures var source := SourcePath(name, parent);
            var d := Prepared(files, name, parent, None, env.gunzip);
            d.result.Ok? ==> d.files == files[source := []]
    ensures var e := FileEffect(kind, connected, store, files, name, root, parent, None, env);
            e.exit == Ingested ==> SourcePath(name, parent) !in e.files
  {
    var source := SourcePath(name, parent);
    ReplaceAbsent(source, ".gz", []);
    assert Prepared(files, name, parent, None, env.gunzip) == Decompressed(files, source, source, env.gunzip);
    EffectFiles(kind, connected, store, files, name, root, parent, None, env);
  }

  /** A completed ingest sent all five messages on an open connection; the transformed table is
      then bound and written once as a partition under the file's date, and the extracted file
      and the staged copy are gone. Conversely, everything going through completes it. */
  lemma IngestedOutcome(kind: Kind, connected: bool, store: Store, files: map<string, Bytes>, name: string,
                        root: string, parent: Option<string>, temp: Option<string>, env: Env)
    ensures var e := FileEffect(kind, connected, store, files, name, root, parent, temp, env);
            var d := Prepared(files, name, parent, temp, env.gunzip);
            var extracted := ExtractedPath(name, parent, temp);
            var date := DateString(extracted);
            var out := Transformed(kind, extracted, d.files, env);
            && (e.exit == Ingested <==>
                  d.result.Ok? && date.Ok? && connected && out.Some?
                  && CleanedUp(d.files, temp.Some?, extracted, StagedPath(name, parent, temp)).result.Ok?)
            && (e.exit == Ingested ==>
                  && e.sent == Script(kind, extracted, root, date.value)
                  && e.store == Store(store.tables[TableName(kind) := out.value],
                                      store.appends + [Append(root, date.value, "sym", out.value)])
                  && extracted !in e.files
                  && (temp.Some? ==> StagedPath(name, parent, temp) !in e.files))
  {
    var d := Prepared(files, name, parent, temp, env.gunzip);
    var extracted := ExtractedPath(name, parent, temp);
    if d.result.Ok? && DateString(extracted).Ok? && connected {
      ScriptOutcome(kind, extracted, root, DateString(extracted).value, store, d.files, env);
    }
  }

  /** An ingested file adds exactly one partition to what the q process has written: into `root`,
      split on `sym`, under the date its extracted file's name spells. */
  lemma AppendsOne(kind: Kind, connected: bool, store: Store, files: map<string, Bytes>, name: string,
                   root: string, parent: Option<string>, temp: Option<string>, env: Env)
    ensures var e := FileEffect(kind, connected, store, files, name, root, parent, temp, env);
            var n := |store.appends|;
            e.exit == Ingested ==>
              && |e.store.appends| == n + 1 && e.store.appends[..n] == store.appends
              && e.store.appends[n].root == root && e.store.appends[n].field == "sym"
              && DateString(ExtractedPath(name, parent, temp)) == Ok(e.store.appends[n].date)
  {
    IngestedOutcome(kind, connected, store, files, name, root, parent, temp, env);
  }

  /** An ingest that raises after the decompression (a bad date, a failing message) leaves the
      extracted file behind: the cleanup runs only after the partition is written. A bad date
      raises before any message is sent. */
  lemma FailureKeepsExtract(kind: Kind, connected: bool, store: Store, files: map<string, Bytes>, name: string,
                            root: string, parent: Option<string>, temp: Option<string>, env: Env)
    ensures var e := FileEffect(kind, connected, store, files, name, root, parent, temp, env);
            var d := Prepared(files, name, parent, temp, env.gunzip);
            var extracted := ExtractedPath(name, parent, temp);
            var date := DateString(extracted);
            && (d.result.Ok? && date.Err? ==> e == Effect(Raised(date.error), d.files, [], store))
            && (d.result.Ok? && date.Ok? && (!connected || Transformed(kind, extracted, d.files, env).None?) ==>
                  e.exit.Raised? && e.files == d.files && extracted in e.files && e.store.appends == store.appends)
  {
    var d := Prepared(files, name, parent, temp, env.gunzip);
    var extracted := ExtractedPath(name, parent, temp);
    if d.result.Ok? && DateString(extracted).Ok? && connected {
      ScriptOutcome(kind, extracted, root, DateString(extracted).value, store, d.files, env);
    }
  }

  /** The base name of the extracted file is the name without ".gz". */
  lemma ExtractedBase(name: string, parent: Option<string>, temp: Option<string>)
    requires IsEntryName(name)
    ensures Basename(ExtractedPath(name, parent, temp)) == Replace(name, ".gz", [])
  {
    PathShapes(name, parent, temp);
    var r := Replace(name, ".gz", []);
    assert IsEntryName(r) by {
      forall i | 0 <= i < |r|
        ensures !IsSep(r[i]) && r[i] != ':'
      {
        assert r[i] in name;
      }
    }
    BasenameOfEntry(Replace(StagedDir(parent, temp), ".gz", []), r);
  }

  /** Removing ".gz" from a name that starts with eight digits and '_' keeps that start. */
  lemma RemovedKeepsStart(name: string)
    requires |name| >= 9 && AllDigits(name[..8]) && name[8] == '_'
    ensures var r := Replace(name, ".gz", []);
            |r| >= 9 && r[..8] == name[..8] && r[8] == '_'
  {
    var head := name[..9];
    assert name == head + name[9..];
    assert head[8] !in ".gz";
    ReplaceSplits(head, name[9..], ".gz", []);
    assert forall i :: 0 <= i < 8 ==> head[i] == name[..8][i];
    NoStart(head, ".gz");
    ReplaceAbsent(head, ".gz", []);
  }

  /** The first '_' token of a text that has eight digits and then '_' is the eight digits. */
  lemma TokenOfEightDigits(r: string)
    requires |r| >= 9 && AllDigits(r[..8]) && r[8] == '_'
    ensures FirstToken(r) == r[..8]
  {
    var t := FirstToken(r);
    assert forall i :: 0 <= i < 8 ==> r[i] == r[..8][i] && r[i] != '_';
    assert forall j :: 0 <= j < |t| ==> t[j] == r[j];
  }

  /** For a file a month's pattern selects, the date token is the name's first eight digits,
      wherever the file is staged: the date string is those digits with a dot after the year and
      after the month, and an impossible date raises `ValueError` for that token. */
  lemma SelectedDate(name: string, month: string, kind: Kind, parent: Option<string>, temp: Option<string>)
    requires |month| == 6 && AllDigits(month) && IsEntryName(name) && Matches(name, month, kind)
    ensures var s := name[..8];
            var d := Date(Value(s[..4]), Value(s[4..6]), Value(s[6..8]));
            var r := DateString(ExtractedPath(name, parent, temp));
            && (r.Ok? <==> IsValid(d))
            && (r.Ok? ==> r.value == s[..4] + "." + s[4..6] + "." + s[6..8])
            && (r.Err? ==> r.error == BadDate(s))
  {
    var s := name[..8];
    Leading(name, month, kind);
    assert Body(name)[..9] == name[..9];
    assert AllDigits(s) && name[8] == '_';
    ExtractedBase(name, parent, temp);
    RemovedKeepsStart(name);
    TokenOfEightDigits(Replace(name, ".gz", []));
    EightDigits(s);
    if Strptime(s).Ok? {
      EightDigitsFormat(s);
    }
  }
}
