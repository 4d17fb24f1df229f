/** `process_month_books` (setup_kdb.py:144-186) and `process_month_trades` (setup_kdb.py:190-231):
    one q process per month on a port derived from the month, the month's files ingested one after
    the other in ascending order, and the teardown in `finally`. */
module Shard {
  import opened Outcomes
  import opened Text
  import opened Selection
  import opened Engine
  import opened Storage
  import opened Dates
  import opened Ingest
  import opened IngestFacts

  /** The port range of each kind's shards. */
  function Base(kind: Kind): int {
    match kind
    case Book => 31000
    case Trade => 40000
  }

  /** `month.replace("0", "")`. */
  function Stripped(month: string): (r: string)
    ensures '0' !in r
  {
    ReplaceCharGone(month, '0', []);
    Replace(month, "0", [])
  }

  /** `base + int(month.replace("0", ""))`: `int` of a text of ASCII digits is its value; an empty
      text (a month of zeros only) raises `ValueError`. */
  function Port(kind: Kind, month: string): (r: Result<int, Failure>)
    ensures r.Ok? <==> Stripped(month) != [] && AllDigits(Stripped(month))
    ensures r.Ok? ==> r.value == Base(kind) + Value(Stripped(month))
    ensures r.Err? ==> r.error == BadPort(Stripped(month))
  {
    var s := Stripped(month);
    if s != [] && AllDigits(s) then Ok(Base(kind) + Value(s)) else Err(BadPort(s))
  }

  /** The digits left after the zeros are removed are all at least 1, so the number is too. */
  lemma {:induction false} ValueWithoutZero(s: string)
    requires AllDigits(s) && s != [] && '0' !in s
    ensures Value(s) >= 1
    decreases |s|
  {
    var init := s[..|s| - 1];
    assert s[|s| - 1] != '0';
    if init != [] {
      assert forall c :: c in init ==> c in s;
      ValueWithoutZero(init);
    }
  }

  /** The port of a digit month is above its kind's base, unless the month is all zeros. */
  lemma PortAboveBase(kind: Kind, month: string)
    requires AllDigits(month) && Stripped(month) != []
    ensures Port(kind, month).Ok? && Port(kind, month).value > Base(kind)
  {
    var s := Stripped(month);
    assert forall i :: 0 <= i < |s| ==> s[i] in month;
    ValueWithoutZero(s);
  }

  /** Ports are not one-to-one: January and October of 2018 share a port, for either kind. */
  lemma PortCollision(kind: Kind)
    ensures Port(kind, "201801") == Port(kind, "201810") == Ok(Base(kind) + 2181)
  {
    StrippedJanuary();
    StrippedOctober();
    ValueOfShared();
  }

  lemma ValueOfShared()
    ensures AllDigits("2181") && Value("2181") == 2181
  {
    assert "2181"[..3] == "218" && "218"[..2] == "21" && "21"[..1] == "2" && "2"[..0] == [];
  }

  lemma StrippedJanuary()
    ensures Stripped("201801") == "2181"
  {
    var m := "201801";
    StripHead(m);
    StripHead(m[1..]);
    StripHead(m[2..]);
    StripHead(m[3..]);
    StripHead(m[4..]);
    StripHead(m[5..]);
    assert m[1..][1..] == m[2..] && m[2..][1..] == m[3..] && m[3..][1..] == m[4..] && m[4..][1..] == m[5..];
    assert m[5..][1..] == [];
  }

  /** `replace` of a one-character pattern, one character at a time. */
  lemma StripHead(s: string)
    requires s != []
    ensures Replace(s, "0", []) == (if s[0] == '0' then [] else [s[0]]) + Replace(s[1..], "0", [])
  {
    assert s[..1] == [s[0]];
  }

  lemma StrippedOctober()
    ensures Stripped("201810") == "2181"
  {
    var m := "201810";
    StripHead(m);
    StripHead(m[1..]);
    StripHead(m[2..]);
    StripHead(m[3..]);
    StripHead(m[4..]);
    StripHead(m[5..]);
    assert m[1..][1..] == m[2..] && m[2..][1..] == m[3..] && m[3..][1..] == m[4..] && m[4..][1..] == m[5..];
    assert m[5..][1..] == [];
  }

  /** Removing zeros, one character at a time. */
  lemma StripStep(c: char, rest: string)
    ensures Replace([c] + rest, "0", []) == (if c == '0' then [] else [c]) + Replace(rest, "0", [])
  {
    assert ([c] + rest)[..1] == [c] && ([c] + rest)[1..] == rest;
  }

  /** A month of zeros only has no port. */
  lemma ZeroMonth(kind: Kind)
    ensures Port(kind, "000000").Err?
  {
    StripStep('0', "");
    StripStep('0', "0");
    StripStep('0', "00");
    StripStep('0', "000");
    StripStep('0', "0000");
    StripStep('0', "00000");
  }

  /** What the files of a month do, ingested one after the other on an open connection until one
      raises: the failure (if any), how many were attempted, the files afterwards, the messages
      that reached q and the q process afterwards. */
  datatype Batch = Batch(failure: Option<Failure>, count: nat, files: map<string, Bytes>, sent: seq<Command>, store: Store)

  /** Lines 177-178 and 224-225: every file in turn, an exception ending the loop; a returned value
      is ignored. */
  function IngestAll(kind: Kind, names: seq<string>, store: Store, files: map<string, Bytes>, dataPath: string,
                     temp: Option<string>, env: Env): (b: Batch)
    ensures b.count <= |names|
    ensures b.failure.None? ==> b.count == |names|
    ensures names != [] && b.failure.Some? ==> b.count >= 1
    decreases |names|
  {
    if names == [] then Batch(None, 0, files, [], store)
    else
      var e := FileEffect(kind, true, store, files, names[0], RootOf(kind), Some(dataPath), temp, env);
      if e.exit.Raised? then Batch(Some(e.exit.failure), 1, e.files, e.sent, e.store)
      else
        var rest := IngestAll(kind, names[1..], e.store, e.files, dataPath, temp, env);
        Batch(rest.failure, 1 + rest.count, rest.files, e.sent + rest.sent, rest.store)
  }

  /** No per-file isolation: a batch that raised is what its files up to the one that raised do
      on their own, so the files after it have no part in it. */
  lemma StopsAtFailure(kind: Kind, names: seq<string>, store: Store, files: map<string, Bytes>,
                       dataPath: string, temp: Option<string>, env: Env)
    ensures var b := IngestAll(kind, names, store, files, dataPath, temp, env);
            b.failure.Some? ==> 1 <= b.count && IngestAll(kind, names[..b.count], store, files, dataPath, temp, env) == b
  {
    var b := IngestAll(kind, names, store, files, dataPath, temp, env);
    IngestAllWalk(kind, names, store, files, dataPath, temp, env);
    WalkStops(FileStep(kind, dataPath, temp, env), names, store, files);
    if b.failure.Some? {
      IngestAllWalk(kind, names[..b.count], store, files, dataPath, temp, env);
    }
  }

  /** What one file of a batch does, from the state the files before it left. */
  function FileStep(kind: Kind, dataPath: string, temp: Option<string>, env: Env): (Store, map<string, Bytes>, string) -> Effect {
    (s, f, name) => FileEffect(kind, true, s, f, name, RootOf(kind), Some(dataPath), temp, env)
  }

  /** A batch whose files each do what `step` says, one after the other until one raises. */
  function Walk(step: (Store, map<string, Bytes>, string) -> Effect, names: seq<string>, store: Store,
                files: map<string, Bytes>): Batch
    decreases |names|
  {
    if names == [] then Batch(None, 0, files, [], store)
    else
      var e := step(store, files, names[0]);
      if e.exit.Raised? then Batch(Some(e.exit.failure), 1, e.files, e.sent, e.store)
      else After(e.sent, 1, Walk(step, names[1..], e.store, e.files))
  }

  /** IngestAll is the batch whose step is FileEffect. */
  lemma {:induction false} IngestAllWalk(kind: Kind, names: seq<string>, store: Store, files: map<string, Bytes>,
                                         dataPath: string, temp: Option<string>, env: Env)
    ensures IngestAll(kind, names, store, files, dataPath, temp, env) == Walk(FileStep(kind, dataPath, temp, env), names, store, files)
    decreases |names|
  {
    if names != [] {
      IngestAllCons(kind, names, store, files, dataPath, temp, env);
      var e := FileEffect(kind, true, store, files, names[0], RootOf(kind), Some(dataPath), temp, env);
      assert FileStep(kind, dataPath, temp, env)(store, files, names[0]) == e;
      if !e.exit.Raised? {
        IngestAllWalk(kind, names[1..], e.store, e.files, dataPath, temp, env);
      }
    }
  }

  /** Whatever each step does, a batch that raised is the batch of its files up to the one that
      raised. */
  lemma {:induction false} WalkStops(step: (Store, map<string, Bytes>, string) -> Effect, names: seq<string>,
                                     store: Store, files: map<string, Bytes>)
    ensures var b := Walk(step, names, store, files);
            b.failure.Some? ==> 1 <= b.count <= |names| && Walk(step, names[..b.count], store, files) == b
    decreases |names|
  {
    if names != [] {
      var e := step(store, files, names[0]);
      var b := Walk(step, names, store, files);
      if b.failure.Some? && !e.exit.Raised? {
        WalkStops(step, names[1..], e.store, e.files);
        PrefixParts(names, b.count);
      } else if b.failure.Some? {
        PrefixParts(names, 1);
      }
    }
  }

  /** A non-empty prefix starts as the sequence does and continues with a prefix of its tail. */
  lemma PrefixParts(names: seq<string>, n: nat)
    requires 1 <= n <= |names|
    ensures names[..n][0] == names[0] && names[..n][1..] == names[1..][..n - 1]
  {
  }

  /** The partitioned database a kind's shards write to. */
  function RootOf(kind: Kind): string {
    match kind
    case Book => BooksDir
    case Trade => TradesDir
  }

  /** A batch preceded by `count` files whose messages were `sent`. */
  function After(sent: seq<Command>, count: nat, b: Batch): Batch {
    Batch(b.failure, count + b.count, b.files, sent + b.sent, b.store)
  }

  /** After the first `i` names: what the whole batch does is what the remaining names do from
      the current files and process state. */
  ghost predicate Midway(kind: Kind, names: seq<string>, i: nat, s0: Store, f0: map<string, Bytes>, dataPath: string,
                         temp: Option<string>, env: Env, sent: seq<Command>, s: Store, f: map<string, Bytes>)
  {
    && i <= |names|
    && IngestAll(kind, names, s0, f0, dataPath, temp, env) == After(sent, i, IngestAll(kind, names[i..], s, f, dataPath, temp, env))
  }

  lemma MidwayStep(kind: Kind, names: seq<string>, i: nat, s0: Store, f0: map<string, Bytes>, dataPath: string,
                   temp: Option<string>, env: Env, sent: seq<Command>, s: Store, f: map<string, Bytes>)
    requires Midway(kind, names, i, s0, f0, dataPath, temp, env, sent, s, f) && i < |names|
    ensures var e := FileEffect(kind, true, s, f, names[i], RootOf(kind), Some(dataPath), temp, env);
            && (e.exit.Raised? ==> IngestAll(kind, names, s0, f0, dataPath, temp, env)
                                   == Batch(Some(e.exit.failure), i + 1, e.files, sent + e.sent, e.store))
            && (!e.exit.Raised? ==> Midway(kind, names, i + 1, s0, f0, dataPath, temp, env, sent + e.sent, e.store, e.files))
  {
    var rest := names[i..];
    assert rest[0] == names[i] && rest[1..] == names[i + 1..];
    IngestAllCons(kind, rest, s, f, dataPath, temp, env);
    var e := FileEffect(kind, true, s, f, names[i], RootOf(kind), Some(dataPath), temp, env);
    if !e.exit.Raised? {
      AfterAfter(sent, i, e.sent, IngestAll(kind, rest[1..], e.store, e.files, dataPath, temp, env));
    }
  }

  /** The first file of a batch, then the others. */
  lemma IngestAllCons(kind: Kind, names: seq<string>, s: Store, f: map<string, Bytes>, dataPath: string,
                      temp: Option<string>, env: Env)
    requires names != []
    ensures var e := FileEffect(kind, true, s, f, names[0], RootOf(kind), Some(dataPath), temp, env);
            IngestAll(kind, names, s, f, dataPath, temp, env)
            == if e.exit.Raised? then Batch(Some(e.exit.failure), 1, e.files, e.sent, e.store)
               else After(e.sent, 1, IngestAll(kind, names[1..], e.store, e.files, dataPath, temp, env))
  {
  }

  lemma AfterAfter(a: seq<Command>, i: nat, b: seq<Command>, x: Batch)
    ensures After(a, i, After(b, 1, x)) == After(a + b, i + 1, x)
  {
    assert a + (b + x.sent) == (a + b) + x.sent;
  }

  lemma MidwayEnd(kind: Kind, names: seq<string>, s0: Store, f0: map<string, Bytes>, dataPath: string,
                  temp: Option<string>, env: Env, sent: seq<Command>, s: Store, f: map<string, Bytes>)
    requires Midway(kind, names, |names|, s0, f0, dataPath, temp, env, sent, s, f)
    ensures IngestAll(kind, names, s0, f0, dataPath, temp, env) == Batch(None, |names|, f, sent, s)
  {
    assert names[|names|..] == [];
  }

  lemma SentAfter(e0: seq<Event>, a: seq<Command>, b: seq<Command>, events: seq<Event>)
    requires events == e0 + SentAll(a) + SentAll(b)
    ensures events == e0 + SentAll(a + b)
  {
    SentAllSplits(a, b);
  }

  /** The loop of lines 177-178 (books) or 224-225 (trades) on an open connection. */
  method IngestFiles(kind: Kind, q: Session, fs: FileSystem, names: seq<string>, dataPath: string,
                     temp: Option<string>, env: Env) returns (failure: Option<Failure>)
    requires q.connected
    modifies q, fs
    ensures var b := IngestAll(kind, names, old(q.store), old(fs.files), dataPath, temp, env);
            && failure == b.failure && fs.files == b.files && q.store == b.store
            && q.events == old(q.events) + SentAll(b.sent)
    ensures q.connected
  {
    ghost var s0, f0, e0 := q.store, fs.files, q.events;
    ghost var sent: seq<Command> := [];
    assert names[0..] == names;
    for i := 0 to |names|
      invariant q.connected
      invariant Midway(kind, names, i, s0, f0, dataPath, temp, env, sent, q.store, fs.files)
      invariant q.events == e0 + SentAll(sent)
    {
      var exit;
      exit, sent := IngestNext(kind, q, fs, names, i, dataPath, temp, env, s0, f0, e0, sent);
      if exit.Raised? {
        return Some(exit.failure);
      }
    }
    MidwayEnd(kind, names, s0, f0, dataPath, temp, env, sent, q.store, fs.files);
    failure := None;
  }

  /** One turn of the loop: the `i`-th file is ingested, and either the batch ends with its
      exception or it goes on from the new state. */
  method IngestNext(kind: Kind, q: Session, fs: FileSystem, names: seq<string>, i: nat, dataPath: string,
                    temp: Option<string>, env: Env, ghost s0: Store, ghost f0: map<string, Bytes>,
                    ghost e0: seq<Event>, ghost sent: seq<Command>)
    returns (exit: FileExit, ghost sent': seq<Command>)
    requires q.connected && i < |names|
    requires Midway(kind, names, i, s0, f0, dataPath, temp, env, sent, q.store, fs.files)
    requires q.events == e0 + SentAll(sent)
    modifies q, fs
    ensures q.connected && q.events == e0 + SentAll(sent')
    ensures exit.Raised? ==>
              IngestAll(kind, names, s0, f0, dataPath, temp, env) == Batch(Some(exit.failure), i + 1, fs.files, sent', q.store)
    ensures !exit.Raised? ==> Midway(kind, names, i + 1, s0, f0, dataPath, temp, env, sent', q.store, fs.files)
  {
    MidwayStep(kind, names, i, s0, f0, dataPath, temp, env, sent, q.store, fs.files);
    ghost var e := FileEffect(kind, true, q.store, fs.files, names[i], RootOf(kind), Some(dataPath), temp, env);
    exit := ProcessFile(kind, q, fs, names[i], RootOf(kind), Some(dataPath), temp, env);
    SentAfter(e0, sent, e.sent, q.events);
    sent' := sent + e.sent;
  }

  /** How a month ends: `None` after the loop, `False` when nothing matched, or an exception. */
  datatype MonthExit = Done | NoFiles | Aborted(failure: Failure)

  /** What a month leaves behind: how it ends, the calls that reached its connection, the q
      process's tables and partitions, and the files. */
  datatype Trace = Trace(exit: MonthExit, events: seq<Event>, store: Store, files: map<string, Bytes>)

  /** The q process a month starts: nothing bound, nothing written. */
  const Fresh := Store(map[], [])

  /** The files a month ingests: the matching entries of its directory listing, sorted ascending
      (none when the directory is missing). */
  predicate Ordered(kind: Kind, month: string, dataPath: string, listings: map<string, seq<string>>, sorted: seq<string>) {
    if dataPath in listings
    then Ascending(sorted) && multiset(sorted) == multiset(Select(listings[dataPath], month, kind))
    else sorted == []
  }

  /** The `try` block, from a session that has not opened, meeting the month's files in the order
      `sorted`: the connection is opened (or refused), the directory listed, and when some file
      matches, the files are ingested one after the other until one raises. */
  function TryTrace(kind: Kind, month: string, port: int, dataPath: string, temp: Option<string>,
                    listings: map<string, seq<string>>, listening: bool, sorted: seq<string>,
                    store: Store, files: map<string, Bytes>, env: Env): Trace
  {
    if !listening then Trace(Aborted(Refused(port)), [], store, files)
    else if dataPath !in listings then Trace(Aborted(DirMissing(dataPath)), [Opened(port)], store, files)
    else if Select(listings[dataPath], month, kind) == [] then Trace(NoFiles, [Opened(port)], store, files)
    else
      var b := IngestAll(kind, sorted, store, files, dataPath, temp, env);
      Trace(if b.failure.Some? then Aborted(b.failure.value) else Done, [Opened(port)] + SentAll(b.sent), b.store, b.files)
  }

  /** The `finally` block's effect on the exit and the calls, given whether the connection is open:
      books send "\\" and then close, so on a connection that never opened the send raises
      NotConnected in place of the pending exception and the close is not reached; trades close
      (nothing to do when not open) and then release the spawned process's pipe. */
  function Closing(kind: Kind, connected: bool, t: Trace): Trace
  {
    match kind
    case Book =>
      if connected then t.(events := t.events + Teardown(Book))
      else t.(exit := Aborted(NotConnected))
    case Trade =>
      if connected then t.(events := t.events + Teardown(Trade))
      else t.(events := t.events + [Released])
  }

  /** The calls of the `finally` block on an open connection. */
  function Teardown(kind: Kind): seq<Event> {
    match kind
    case Book => [Sent(Backslash), Closed]
    case Trade => [Closed, Released]
  }

  /** One month of `process_month_books` / `process_month_trades`, given whether its q process
      listens and the order in which it meets its files. The port is computed before the `try`,
      so a month that does not give one raises with nothing started. */
  function MonthRun(kind: Kind, month: string, dataPath: string, temp: Option<string>,
                    listings: map<string, seq<string>>, listening: bool, sorted: seq<string>,
                    files: map<string, Bytes>, env: Env): Trace
  {
    match Port(kind, month)
    case Err(f) => Trace(Aborted(f), [], Fresh, files)
    case Ok(port) =>
      Closing(kind, listening, TryTrace(kind, month, port, dataPath, temp, listings, listening, sorted, Fresh, files, env))
  }

  /** The `try` block of lines 158-178 (books) and 204-225 (trades). */
  method TryMonth(kind: Kind, month: string, port: int, dataPath: string, temp: Option<string>,
                  listings: map<string, seq<string>>, listening: bool, q: Session, fs: FileSystem, env: Env)
    returns (r: MonthExit, sorted: seq<string>)
    requires !q.connected && q.events == []
    modifies q, fs
    ensures q.connected <==> listening
    ensures Trace(r, q.events, q.store, fs.files)
            == TryTrace(kind, month, port, dataPath, temp, listings, listening, sorted, old(q.store), old(fs.files), env)
    ensures listening ==> Ordered(kind, month, dataPath, listings, sorted)
  {
    sorted := [];
    var greeting := q.Open(port, listening);
    if greeting.Err? {
      return Aborted(greeting.error), [];
    }
    assert q.events == [Opened(port)];
    if dataPath !in listings {
      return Aborted(DirMissing(dataPath)), [];
    }
    if Select(listings[dataPath], month, kind) == [] {
      return NoFiles, [];
    }
    sorted := SortedSelection(listings[dataPath], month, kind);
    ghost var b := IngestAll(kind, sorted, q.store, fs.files, dataPath, temp, env);
    var failure := IngestFiles(kind, q, fs, sorted, dataPath, temp, env);
    r := if failure.Some? then Aborted(failure.value) else Done;
    assert Trace(r, q.events, q.store, fs.files) == Trace(r, [Opened(port)] + SentAll(b.sent), b.store, b.files);
  }

  /** The `finally` block. */
  method Finally(kind: Kind, q: Session, r: MonthExit, files: map<string, Bytes>, env: Env) returns (r': MonthExit)
    modifies q
    ensures !q.connected && q.store == old(q.store)
    ensures Trace(r', q.events, q.store, files) == Closing(kind, old(q.connected), Trace(r, old(q.events), q.store, files))
  {
    r' := r;
    match kind
    case Book =>
      var stop := q.Send(Backslash, files, env);
      if stop.Err? {
        r' := Aborted(stop.error);
        return;
      }
      q.Close();
    case Trade =>
      q.Close();
      q.Release();
  }

  /** `process_month_books(logger, month, data_path, temp_dir)` for `Book`, and
      `process_month_trades(...)` for `Trade`. Whether the spawned q process listens is
      `listening`; the session returned is the one the month used, and `sorted` the files it
      ingests, in order. */
  method ProcessMonth(kind: Kind, month: string, dataPath: string, temp: Option<string>,
                      listings: map<string, seq<string>>, listening: bool, fs: FileSystem, env: Env)
    returns (r: MonthExit, q: Session, sorted: seq<string>)
    modifies fs
    ensures fresh(q) && !q.connected
    ensures Trace(r, q.events, q.store, fs.files)
            == MonthRun(kind, month, dataPath, temp, listings, listening, sorted, old(fs.files), env)
    ensures Port(kind, month).Ok? && listening ==> Ordered(kind, month, dataPath, listings, sorted)
  {
    q := new Session(Fresh);
    sorted := [];
    var port := Port(kind, month);
    if port.Err? {
      r := Aborted(port.error);
      return;
    }
    r, sorted := TryMonth(kind, month, port.value, dataPath, temp, listings, listening, q, fs, env);
    r := Finally(kind, q, r, fs.files, env);
  }

  /** The date string each file's extracted name gives, in the order of the files. */
  function FileDates(names: seq<string>, dataPath: string, temp: Option<string>): (ds: seq<Result<string, Failure>>)
    ensures |ds| == |names|
    decreases |names|
  {
    if names == [] then []
    else [DateString(ExtractedPath(names[0], Some(dataPath), temp))] + FileDates(names[1..], dataPath, temp)
  }

  lemma {:induction false} FileDatesAt(names: seq<string>, dataPath: string, temp: Option<string>, k: nat)
    requires k < |names|
    ensures FileDates(names, dataPath, temp)[k] == DateString(ExtractedPath(names[k], Some(dataPath), temp))
    decreases k
  {
    if k > 0 {
      FileDatesAt(names[1..], dataPath, temp, k - 1);
      assert names[1..][k - 1] == names[k];
      assert FileDates(names, dataPath, temp)[k] == FileDates(names[1..], dataPath, temp)[k - 1];
    }
  }

  /** `added` holds one partition per date of `dates`, in their order: each into `root`, split on
      `sym`, under that date. */
  predicate Written(root: string, dates: seq<Result<string, Failure>>, added: seq<Append>) {
    && |added| == |dates|
    && forall k :: 0 <= k < |dates| ==> added[k].root == root && added[k].field == "sym" && dates[k] == Ok(added[k].date)
  }

  lemma WrittenCons(root: string, d: Result<string, Failure>, dates: seq<Result<string, Failure>>, a: Append, added: seq<Append>)
    requires Written(root, dates, added) && a.root == root && a.field == "sym" && d == Ok(a.date)
    ensures Written(root, [d] + dates, [a] + added)
  {
    forall k | 0 < k <= |dates|
      ensures ([d] + dates)[k] == dates[k - 1] && ([a] + added)[k] == added[k - 1]
    {
    }
  }

  /** One more partition in front of partitions already written. */
  lemma PrependPartition(before: seq<Append>, mid: seq<Append>, all: seq<Append>, root: string,
                         d: Result<string, Failure>, dates: seq<Result<string, Failure>>)
    requires |mid| == |before| + 1 && mid[..|before|] == before
    requires mid[|before|].root == root && mid[|before|].field == "sym" && d == Ok(mid[|before|].date)
    requires |all| >= |mid| && all[..|mid|] == mid && Written(root, dates, all[|mid|..])
    ensures |all| >= |before| && all[..|before|] == before && Written(root, [d] + dates, all[|before|..])
  {
    var n := |before|;
    assert all[..n] == all[..n + 1][..n];
    assert all[n..] == [all[n]] + all[n + 1..];
    WrittenCons(root, d, dates, all[n], all[n + 1..]);
  }

  /** A batch that raises nothing has written exactly one partition per file, in the order of
      the files, after what was written before. */
  lemma {:induction false} BatchPartitions(kind: Kind, names: seq<string>, store: Store, files: map<string, Bytes>,
                                           dataPath: string, temp: Option<string>, env: Env)
    ensures var b := IngestAll(kind, names, store, files, dataPath, temp, env);
            b.failure.None? ==>
              && |b.store.appends| >= |store.appends|
              && b.store.appends[..|store.appends|] == store.appends
              && Written(RootOf(kind), FileDates(names, dataPath, temp), b.store.appends[|store.appends|..])
    decreases |names|
  {
    if names == [] {
      assert store.appends[|store.appends|..] == [];
    } else {
      var e := FileEffect(kind, true, store, files, names[0], RootOf(kind), Some(dataPath), temp, env);
      if !e.exit.Raised? {
        AppendsOne(kind, true, store, files, names[0], RootOf(kind), Some(dataPath), temp, env);
        BatchPartitions(kind, names[1..], e.store, e.files, dataPath, temp, env);
        var rest := IngestAll(kind, names[1..], e.store, e.files, dataPath, temp, env);
        if rest.failure.None? {
          PrependPartition(store.appends, e.store.appends, rest.store.appends, RootOf(kind),
                           DateString(ExtractedPath(names[0], Some(dataPath), temp)), FileDates(names[1..], dataPath, temp));
        }
      }
    }
  }

  /** The `finally` block always runs once the port is known: a month whose q process listens
      opens, then ends with the kind's teardown ("\\" and close for books; close and release for
      trades); a books month whose connection never opened ends with NotConnected, raised by the
      "\\" in place of the refusal, and nothing recorded; a trades month whose connection never
      opened ends with the refusal and the pipe released. A month without a port starts nothing. */
  lemma MonthTeardown(kind: Kind, month: string, dataPath: string, temp: Option<string>,
                      listings: map<string, seq<string>>, listening: bool, sorted: seq<string>,
                      files: map<string, Bytes>, env: Env)
    ensures var t := MonthRun(kind, month, dataPath, temp, listings, listening, sorted, files, env);
            match Port(kind, month)
            case Err(f) => t == Trace(Aborted(f), [], Fresh, files)
            case Ok(port) =>
              && (listening ==>
                    && |t.events| >= 3 && t.events[0] == Opened(port)
                    && t.events[|t.events| - 2..] == Teardown(kind))
              && (!listening && kind == Book ==> t == Trace(Aborted(NotConnected), [], Fresh, files))
              && (!listening && kind == Trade ==> t == Trace(Aborted(Refused(port)), [Released], Fresh, files))
  {
    if Port(kind, month).Ok? {
      var port := Port(kind, month).value;
      var tt := TryTrace(kind, month, port, dataPath, temp, listings, listening, sorted, Fresh, files, env);
      TryOpens(kind, month, port, dataPath, temp, listings, listening, sorted, Fresh, files, env);
      if listening {
        assert MonthRun(kind, month, dataPath, temp, listings, listening, sorted, files, env).events
               == tt.events + Teardown(kind);
      }
    }
  }

  /** The `try` block's first call is the connection: its record opens the events, and a refusal
      ends the block with nothing recorded. */
  lemma TryOpens(kind: Kind, month: string, port: int, dataPath: string, temp: Option<string>,
                 listings: map<string, seq<string>>, listening: bool, sorted: seq<string>,
                 store: Store, files: map<string, Bytes>, env: Env)
    ensures var tt := TryTrace(kind, month, port, dataPath, temp, listings, listening, sorted, store, files, env);
            && (listening ==> |tt.events| >= 1 && tt.events[0] == Opened(port))
            && (!listening ==> tt == Trace(Aborted(Refused(port)), [], store, files))
  {
  }

  /** `if not files: return False`: a month ends with NoFiles exactly when its connection opened,
      its directory exists and nothing in it matches; it then ingests nothing and leaves the files
      as they were, and the connection is still torn down. */
  lemma EarlyReturn(kind: Kind, month: string, dataPath: string, temp: Option<string>,
                    listings: map<string, seq<string>>, listening: bool, sorted: seq<string>,
                    files: map<string, Bytes>, env: Env)
    ensures var t := MonthRun(kind, month, dataPath, temp, listings, listening, sorted, files, env);
            && (t.exit == NoFiles <==>
                  Port(kind, month).Ok? && listening && dataPath in listings && Select(listings[dataPath], month, kind) == [])
            && (t.exit == NoFiles ==>
                  t == Trace(NoFiles, [Opened(Port(kind, month).value)] + Teardown(kind), Fresh, files))
  {
  }

  /** A month that ends without an exception has written one partition per matching file, in
      ascending order of the file names, each under the date its file name spells. */
  lemma MonthPartitions(kind: Kind, month: string, dataPath: string, temp: Option<string>,
                        listings: map<string, seq<string>>, listening: bool, sorted: seq<string>,
                        files: map<string, Bytes>, env: Env)
    requires Ordered(kind, month, dataPath, listings, sorted)
    ensures var t := MonthRun(kind, month, dataPath, temp, listings, listening, sorted, files, env);
            t.exit == Done ==>
              && Ascending(sorted) && multiset(sorted) == multiset(Select(listings[dataPath], month, kind))
              && Written(RootOf(kind), FileDates(sorted, dataPath, temp), t.store.appends)
  {
    var t := MonthRun(kind, month, dataPath, temp, listings, listening, sorted, files, env);
    if t.exit == Done {
      assert listening && dataPath in listings && Select(listings[dataPath], month, kind) != [];
      var b := IngestAll(kind, sorted, Fresh, files, dataPath, temp, env);
      assert b.failure.None? && t.store == b.store;
      BatchPartitions(kind, sorted, Fresh, files, dataPath, temp, env);
      assert b.store.appends[0..] == b.store.appends;
    }
  }
}
