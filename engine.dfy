/** The q process the scripts talk to: the statements they send, how q runs them against its global
    tables, and the connection object (`qconnection.QConnection`) that carries them. */
module Engine {
  import opened Outcomes
  import opened Relation

  /** What the model takes from outside: how q's `0:` parses a file's bytes for a type string, and
      what gzip decompression yields for an archive's bytes (`None`: not a valid gzip stream). */
  datatype Env = Env(parse: (string, Bytes) -> Option<Table>, gunzip: Bytes -> Option<Bytes>)

  /** One q statement of the ingest. */
  datatype Statement =
    | LoadCsv(name: string, types: string, path: string)              // name:(types;enlist "|") 0: `:path
    | AddSymTime(name: string)                                         // update sym:ISIN, time: ... from `name
    | DeleteRows(name: string, guard: Guard)                           // delete from `name where ...
    | DeleteColumns(name: string, cols: seq<string>)                   // delete c1, ... from `name
    | Reorder(target: string, first: seq<string>, source: string)      // target:`c1`c2 xcols source
    | Dpft(root: string, date: string, field: string, name: string)    // .Q.dpft[`:root;date;`field;`name]

  /** One message sent with `q(...)`: statements separated by ';', or the one-character text "\". */
  datatype Command = Query(stmts: seq<Statement>) | Backslash

  /** A call of `.Q.dpft`: the partition written, with the table as it was when written. */
  datatype Append = Append(root: string, date: string, field: string, table: Table)

  /** q's global tables, and every partition written so far. */
  datatype Store = Store(tables: map<string, Table>, appends: seq<Append>)

  /** Binds `name` to the table a table operation produced, or reports q's error. */
  function Assign(s: Store, name: string, r: Result<Table, Failure>): (o: Result<Store, Failure>)
    ensures o.Ok? <==> r.Ok?
    ensures o.Ok? ==> o.value == s.(tables := s.tables[name := r.value])
  {
    match r
    case Ok(t) => Ok(s.(tables := s.tables[name := t]))
    case Err(e) => Err(e)
  }

  /** How q runs one statement: an unknown table, a missing file, a parse failure or a failing
      table operation is an error; only `.Q.dpft` writes a partition, and it leaves the tables as
      they are. */
  function Exec(st: Statement, s: Store, files: map<string, Bytes>, env: Env): (r: Result<Store, Failure>)
    ensures r.Err? ==> r.error == QueryFailed
    ensures r.Ok? && !st.Dpft? ==> r.value.appends == s.appends
    ensures r.Ok? && st.Dpft? ==>
              && st.name in s.tables && st.field in s.tables[st.name].cols
              && r.value == s.(appends := s.appends + [Append(st.root, st.date, st.field, s.tables[st.name])])
  {
    match st
    case LoadCsv(name, types, path) =>
      if path !in files then Err(QueryFailed)
      else (
        match env.parse(types, files[path])
        case None => Err(QueryFailed)
        case Some(t) => Ok(s.(tables := s.tables[name := t])))
    case AddSymTime(name) =>
      if name !in s.tables then Err(QueryFailed) else Assign(s, name, Derive(s.tables[name]))
    case DeleteRows(name, guard) =>
      if name !in s.tables then Err(QueryFailed) else Assign(s, name, DropRows(guard, s.tables[name]))
    case DeleteColumns(name, cols) =>
      if name !in s.tables then Err(QueryFailed) else Assign(s, name, DropColumns(cols, s.tables[name]))
    case Reorder(target, first, source) =>
      if source !in s.tables then Err(QueryFailed) else Assign(s, target, XCols(first, s.tables[source]))
    case Dpft(root, date, field, name) =>
      if name in s.tables && field in s.tables[name].cols
      then Ok(s.(appends := s.appends + [Append(root, date, field, s.tables[name])]))
      else Err(QueryFailed)
  }

  /** What a message leaves behind: whether all of it ran, and the store after the statements
      that did. */
  datatype Reply = Reply(ok: bool, store: Store)

  /** q runs a message's statements in order and stops at the first error, keeping what the earlier
      ones did. */
  function Run(stmts: seq<Statement>, s: Store, files: map<string, Bytes>, env: Env): Reply {
    if stmts == [] then Reply(true, s)
    else
      match Exec(stmts[0], s, files, env)
      case Err(_) => Reply(false, s)
      case Ok(s') => Run(stmts[1..], s', files, env)
  }

  /** A message made of two parts runs the second part on what the first left, when the first
      succeeds, and stops with the first otherwise. */
  lemma {:induction false} RunSplits(a: seq<Statement>, b: seq<Statement>, s: Store, files: map<string, Bytes>, env: Env)
    ensures var ra := Run(a, s, files, env);
            Run(a + b, s, files, env) == if ra.ok then Run(b, ra.store, files, env) else ra
  {
    if a == [] {
      assert a + b == b;
    } else {
      assert (a + b)[0] == a[0] && (a + b)[1..] == a[1..] + b;
      match Exec(a[0], s, files, env)
      case Err(_) =>
      case Ok(s') => RunSplits(a[1..], b, s', files, env);
    }
  }

  /** A message of one statement succeeds when the statement does, and then leaves what it left. */
  lemma RunOne(st: Statement, s: Store, files: map<string, Bytes>, env: Env)
    ensures var e := Exec(st, s, files, env);
            Run([st], s, files, env) == if e.Ok? then Reply(true, e.value) else Reply(false, s)
  {
    assert [st][1..] == [];
  }

  /** The outcome of one `q(...)` call and the store after it. */
  datatype Outcome = Outcome(result: Result<(), Failure>, store: Store)

  /** `q(cmd)`: on a connection that is not open it raises at once; otherwise q runs the message,
      and an error in it raises `QException` after the statements before it took effect. The
      single backslash is sent and answered without touching the tables. */
  function Step(cmd: Command, connected: bool, s: Store, files: map<string, Bytes>, env: Env): (o: Outcome)
    ensures !connected ==> o == Outcome(Err(NotConnected), s)
    ensures o.result.Err? ==> o.result.error == NotConnected || o.result.error == QueryFailed
    ensures connected && cmd.Backslash? ==> o == Outcome(Ok(()), s)
  {
    if !connected then Outcome(Err(NotConnected), s)
    else
      match cmd
      case Backslash => Outcome(Ok(()), s)
      case Query(stmts) =>
        var reply := Run(stmts, s, files, env);
        Outcome(if reply.ok then Ok(()) else Err(QueryFailed), reply.store)
  }

  /** How far a sequence of `q(...)` calls, one after the other, gets: how many messages reached q,
      how the last call ended, and the store afterwards. */
  datatype Progress = Progress(sent: nat, result: Result<(), Failure>, store: Store)

  /** Straight-line `q(...)` calls: the first one that raises ends the sequence. */
  function Drive(cmds: seq<Command>, connected: bool, s: Store, files: map<string, Bytes>, env: Env): (p: Progress)
    ensures p.sent <= |cmds|
    ensures p.result.Ok? ==> p.sent == |cmds|
    ensures !connected && cmds != [] ==> p == Progress(0, Err(NotConnected), s)
  {
    if cmds == [] then Progress(0, Ok(()), s)
    else
      var o := Step(cmds[0], connected, s, files, env);
      if o.result.Err? then Progress(if connected then 1 else 0, o.result, o.store)
      else
        var p := Drive(cmds[1..], connected, o.store, files, env);
        Progress(1 + p.sent, p.result, p.store)
  }

  /** Where a sequence stands after its first message, whose statements ended in `e` from `s`:
      a failure ends it with the first message sent, success lets the rest run. */
  function After(e: Result<Store, Failure>, rest: seq<Command>, s: Store, files: map<string, Bytes>, env: Env): Progress {
    if e.Err? then Progress(1, Err(QueryFailed), s)
    else
      var p := Drive(rest, true, e.value, files, env);
      Progress(1 + p.sent, p.result, p.store)
  }

  /** On an open connection, a failing one-statement message ends a sequence there, and a
      succeeding one lets the rest run from what it left. */
  lemma DriveOne(cmds: seq<Command>, st: Statement, s: Store, files: map<string, Bytes>, env: Env)
    requires cmds != [] && cmds[0] == Query([st])
    ensures Drive(cmds, true, s, files, env) == After(Exec(st, s, files, env), cmds[1..], s, files, env)
  {
    RunOne(st, s, files, env);
  }

  /** The same for a message of two statements. */
  lemma DriveTwo(cmds: seq<Command>, st1: Statement, st2: Statement, s: Store, files: map<string, Bytes>, env: Env)
    requires cmds != [] && cmds[0] == Query([st1, st2])
    ensures Drive(cmds, true, s, files, env)
            == if Exec(st1, s, files, env).Err? then Progress(1, Err(QueryFailed), s)
               else After(Exec(st2, Exec(st1, s, files, env).value, files, env), cmds[1..], Exec(st1, s, files, env).value, files, env)
  {
    assert [st1, st2][1..] == [st2];
    var e1 := Exec(st1, s, files, env);
    if e1.Ok? {
      RunOne(st2, e1.value, files, env);
    }
  }

  /** `q.query(MessageType.SYNC, cmd)`: on a connection that is not open it raises at once;
      otherwise the message is written and q runs it, but its reply is never read, so an error
      in the message stays in q and the call returns normally. */
  function Posted(cmd: Command, connected: bool, s: Store, files: map<string, Bytes>, env: Env): (o: Outcome)
    ensures connected ==> o.result == Ok(())
    ensures !connected ==> o == Outcome(Err(NotConnected), s)
  {
    if !connected then Outcome(Err(NotConnected), s)
    else
      match cmd
      case Backslash => Outcome(Ok(()), s)
      case Query(stmts) => Outcome(Ok(()), Run(stmts, s, files, env).store)
  }

  /** `q.query(cmd)` leaves q as `q(cmd)` does; it only hides q's error from the caller. */
  lemma PostedHidesErrors(cmd: Command, connected: bool, s: Store, files: map<string, Bytes>, env: Env)
    ensures var o := Step(cmd, connected, s, files, env);
            Posted(cmd, connected, s, files, env) == if o.result == Err(QueryFailed) then Outcome(Ok(()), o.store) else o
  {
  }

  /** Straight-line `q.query(...)` calls: each message runs on what the previous ones left, and
      only a connection that is not open raises, at the first call. */
  function PostedAll(cmds: seq<Command>, connected: bool, s: Store, files: map<string, Bytes>, env: Env): (p: Progress)
    ensures connected || cmds == [] ==> p.result == Ok(()) && p.sent == |cmds|
    ensures !connected && cmds != [] ==> p == Progress(0, Err(NotConnected), s)
  {
    if cmds == [] then Progress(0, Ok(()), s)
    else
      var o := Posted(cmds[0], connected, s, files, env);
      if o.result.Err? then Progress(0, o.result, o.store)
      else
        var p := PostedAll(cmds[1..], connected, o.store, files, env);
        Progress(1 + p.sent, p.result, p.store)
  }

  /** Posting `a` and then `b` leaves what posting `a + b` leaves. */
  lemma {:induction false} PostedAllSplits(a: seq<Command>, b: seq<Command>, s: Store, files: map<string, Bytes>, env: Env)
    ensures PostedAll(a + b, true, s, files, env).store == PostedAll(b, true, PostedAll(a, true, s, files, env).store, files, env).store
  {
    if a == [] {
      assert a + b == b;
    } else {
      assert (a + b)[0] == a[0] && (a + b)[1..] == a[1..] + b;
      PostedAllSplits(a[1..], b, Posted(a[0], true, s, files, env).store, files, env);
    }
  }

  /** The first message, then the rest. */
  lemma PostedAllCons(cmds: seq<Command>, s: Store, files: map<string, Bytes>, env: Env)
    requires cmds != []
    ensures PostedAll(cmds, true, s, files, env).store
            == PostedAll(cmds[1..], true, Posted(cmds[0], true, s, files, env).store, files, env).store
  {
  }

  /** A one-statement message posted on an open connection leaves what its statement left, or
      the store as it was when the statement fails. */
  lemma PostedOne(st: Statement, s: Store, files: map<string, Bytes>, env: Env)
    ensures var e := Exec(st, s, files, env);
            Posted(Query([st]), true, s, files, env).store == if e.Ok? then e.value else s
  {
    RunOne(st, s, files, env);
  }

  /** A two-statement message posted on an open connection: the second statement runs only after
      the first succeeded. */
  lemma PostedTwo(st1: Statement, st2: Statement, s: Store, files: map<string, Bytes>, env: Env)
    ensures var e1 := Exec(st1, s, files, env);
            Posted(Query([st1, st2]), true, s, files, env).store
            == if e1.Err? then s
               else if Exec(st2, e1.value, files, env).Err? then e1.value
               else Exec(st2, e1.value, files, env).value
  {
    assert [st1, st2][1..] == [st2];
    var e1 := Exec(st1, s, files, env);
    if e1.Ok? {
      RunOne(st2, e1.value, files, env);
    }
  }

  /** What the connection object records. */
  datatype Event =
    | Opened(port: int)       // q.open() connected
    | Sent(cmd: Command)      // a message reached q
    | Closed                  // q.close() on an open connection
    | Released                // q_process.close() on the handle of the spawned q process

  /** The connection to one q process, and (as `store`) the state of that process. */
  class Session {
    var connected: bool
    var store: Store
    var events: seq<Event>

    /** `qconnection.QConnection(...)`: not yet connected, to a process whose state is `initial`. */
    constructor (initial: Store)
      ensures !connected && store == initial && events == []
    {
      connected := false;
      store := initial;
      events := [];
    }

    /** `q.open()`: connects when the process listens on the port, and raises otherwise. */
    method Open(port: int, listening: bool) returns (r: Result<(), Failure>)
      modifies this
      ensures store == old(store)
      ensures listening ==> r == Ok(()) && connected && events == old(events) + [Opened(port)]
      ensures !listening ==> r == Err(Refused(port)) && connected == old(connected) && events == old(events)
    {
      if listening {
        connected := true;
        events := events + [Opened(port)];
        r := Ok(());
      } else {
        r := Err(Refused(port));
      }
    }

    /** `q(cmd)`, a synchronous query. */
    method Send(cmd: Command, files: map<string, Bytes>, env: Env) returns (r: Result<(), Failure>)
      modifies this
      ensures connected == old(connected)
      ensures Outcome(r, store) == Step(cmd, old(connected), old(store), files, env)
      ensures events == old(events) + (if old(connected) then [Sent(cmd)] else [])
    {
      var o := Step(cmd, connected, store, files, env);
      if connected {
        events := events + [Sent(cmd)];
      }
      r, store := o.result, o.store;
    }

    /** `q.query(MessageType.SYNC, cmd)`: the message is written and its reply left unread. */
    method Post(cmd: Command, files: map<string, Bytes>, env: Env) returns (r: Result<(), Failure>)
      modifies this
      ensures connected == old(connected)
      ensures Outcome(r, store) == Posted(cmd, old(connected), old(store), files, env)
      ensures events == old(events) + (if old(connected) then [Sent(cmd)] else [])
    {
      var o := Posted(cmd, connected, store, files, env);
      if connected {
        events := events + [Sent(cmd)];
      }
      r, store := o.result, o.store;
    }

    /** `q.close()`: a connection that is not open is left alone. */
    method Close()
      modifies this
      ensures !connected && store == old(store)
      ensures events == old(events) + (if old(connected) then [Closed] else [])
    {
      if connected {
        events := events + [Closed];
      }
      connected := false;
    }

    /** `q_process.close()`: releases the pipe to the spawned q process. */
    method Release()
      modifies this
      ensures connected == old(connected) && store == old(store)
      ensures events == old(events) + [Released]
    {
      events := events + [Released];
    }
  }

  /** Where the calls stand after the first `i` of them went through on an open connection. */
  ghost predicate PostedUpTo(cmds: seq<Command>, i: nat, s0: Store, e0: seq<Event>, files: map<string, Bytes>,
                             env: Env, s: Store, events: seq<Event>)
  {
    && i <= |cmds|
    && PostedAll(cmds, true, s0, files, env).store == PostedAll(cmds[i..], true, s, files, env).store
    && events == e0 + SentAll(cmds[..i])
  }

  lemma PostedNext(cmds: seq<Command>, i: nat, s0: Store, e0: seq<Event>, files: map<string, Bytes>,
                   env: Env, s: Store, events: seq<Event>)
    requires PostedUpTo(cmds, i, s0, e0, files, env, s, events) && i < |cmds|
    ensures PostedUpTo(cmds, i + 1, s0, e0, files, env, Posted(cmds[i], true, s, files, env).store, events + [Sent(cmds[i])])
  {
    PostedAllCons(cmds[i..], s, files, env);
    assert cmds[i..][0] == cmds[i] && cmds[i..][1..] == cmds[i + 1..];
    assert cmds[..i + 1] == cmds[..i] + [cmds[i]];
    SentAllSplits(cmds[..i], [cmds[i]]);
  }

  lemma PostedStart(cmds: seq<Command>, s0: Store, e0: seq<Event>, files: map<string, Bytes>, env: Env)
    ensures PostedUpTo(cmds, 0, s0, e0, files, env, s0, e0)
  {
    assert cmds[0..] == cmds && cmds[..0] == [];
  }

  /** Every call went through: the store is what the calls leave, and each one was recorded. */
  lemma PostedDone(cmds: seq<Command>, s0: Store, e0: seq<Event>, files: map<string, Bytes>,
                   env: Env, s: Store, events: seq<Event>)
    requires PostedUpTo(cmds, |cmds|, s0, e0, files, env, s, events)
    ensures var p := PostedAll(cmds, true, s0, files, env);
            p.result == Ok(()) && p.store == s && events == e0 + SentAll(cmds[..p.sent])
  {
    assert cmds[|cmds|..] == [] && cmds[..|cmds|] == cmds;
  }

  /** Five `q.query(...)` calls, one after the other; no reply is read. */
  method PostScript(q: Session, cmds: seq<Command>, files: map<string, Bytes>, env: Env) returns (r: Result<(), Failure>)
    requires |cmds| == 5
    modifies q
    ensures var p := PostedAll(cmds, old(q.connected), old(q.store), files, env);
            && r == p.result && q.store == p.store && q.events == old(q.events) + SentAll(cmds[..p.sent])
    ensures q.connected == old(q.connected)
  {
    ghost var s0, e0 := q.store, q.events;
    PostedStart(cmds, s0, e0, files, env);
    PostedNext(cmds, 0, s0, e0, files, env, q.store, q.events);
    r := q.Post(cmds[0], files, env);
    if r.Err? {
      assert cmds[..0] == [];
      return;
    }
    PostedNext(cmds, 1, s0, e0, files, env, q.store, q.events);
    r := q.Post(cmds[1], files, env);
    PostedNext(cmds, 2, s0, e0, files, env, q.store, q.events);
    r := q.Post(cmds[2], files, env);
    PostedNext(cmds, 3, s0, e0, files, env, q.store, q.events);
    r := q.Post(cmds[3], files, env);
    PostedNext(cmds, 4, s0, e0, files, env, q.store, q.events);
    r := q.Post(cmds[4], files, env);
    PostedDone(cmds, s0, e0, files, env, q.store, q.events);
  }

  /** The `Sent` events of messages that reached q, in order. */
  function SentAll(cmds: seq<Command>): (r: seq<Event>)
    ensures |r| == |cmds| && forall i :: 0 <= i < |r| ==> r[i] == Sent(cmds[i])
  {
    seq(|cmds|, i requires 0 <= i < |cmds| => Sent(cmds[i]))
  }

  lemma SentAllSplits(a: seq<Command>, b: seq<Command>)
    ensures SentAll(a + b) == SentAll(a) + SentAll(b)
  {
    assert forall i :: 0 <= i < |a + b| ==> SentAll(a + b)[i] == (SentAll(a) + SentAll(b))[i];
  }
}
