/** The two external operations of the migration task (tasks/db_migrate.js): `dump`, which
    runs mysqldump, and `execDump`, which feeds a dump file to the mysql client. The model
    keeps what they hand to the process runner — program, argument list, standard input —
    and the caller-owned flag array that `dump` extends in place. */
module Commands {
  import opened Strings

  /** One MySQL endpoint as the task's options describe it (`db_src`, `db_dest`). */
  datatype Connection = Connection(host: string, user: string, password: string, database: string)

  /** What the process runner passes to a step's callback: no error, or an error. */
  datatype Outcome = Pass | Fail(cause: string)

  /** One use of the process runner: the program, its arguments, the chunks written to its
      standard input, and whether that stream was ended. */
  datatype Call = Call(cmd: string, args: seq<string>, stdin: seq<string>, stdinEnded: bool)

  /** A JavaScript array of strings that the task extends with `push`. */
  class ArgList {
    var items: seq<string>

    constructor ()
      ensures items == []
    {
      items := [];
    }

    /** `push(xs[0], xs[1], …)`: appends the arguments, in order. */
    method Push(xs: seq<string>)
      modifies this
      ensures items == old(items) + xs
    {
      items := items + xs;
    }
  }

  /** A spawned child process: the command line it was started with (copied at spawn time)
      and its standard input stream. */
  class Process {
    const cmd: string
    const args: seq<string>
    var written: seq<string>
    var ended: bool

    constructor (cmd: string, args: seq<string>)
      ensures this.cmd == cmd && this.args == args
      ensures written == [] && !ended
    {
      this.cmd := cmd;
      this.args := args;
      written := [];
      ended := false;
    }

    /** `stdin.write(chunk)`; a stream accepts no writes once ended. */
    method Write(chunk: string)
      requires !ended
      modifies this
      ensures written == old(written) + [chunk] && !ended
    {
      written := written + [chunk];
    }

    /** `stdin.end()`. */
    method End()
      modifies this
      ensures ended && written == old(written)
    {
      ended := true;
    }

    /** The process as a record of what the task handed it. */
    function Record(): Call
      reads this
    {
      Call(cmd, args, written, ended)
    }
  }

  function HostFlag(c: Connection): string { "-h" + c.host }
  function UserFlag(c: Connection): string { "-u" + c.user }
  function PasswordFlag(c: Connection): string { "-p" + c.password }
  function ResultFileFlag(filename: string): string { "--result-file=" + filename }
  function DatabaseFlag(c: Connection): string { "--database=" + c.database }

  /** The arguments `dump` adds after whatever its list already holds: five connection and
      output arguments, then one argument holding the joined table names when `tables` is
      an array (`Some`), and nothing more when it is not. */
  function DumpTail(filename: string, conn: Connection, tables: Option<seq<string>>): (r: seq<string>)
    ensures |r| == if tables.Some? then 6 else 5
  {
    [HostFlag(conn), UserFlag(conn), PasswordFlag(conn), ResultFileFlag(filename), conn.database]
      + (if tables.Some? then [Join(tables.value)] else [])
  }

  /** The four arguments of the mysql client in `execDump`. */
  function RestoreArgs(conn: Connection): (r: seq<string>)
    ensures |r| == 4
  {
    [HostFlag(conn), UserFlag(conn), PasswordFlag(conn), DatabaseFlag(conn)]
  }

  /** The one line `execDump` writes to the client's standard input. */
  function SourceCommand(filename: string): string { "source " + filename }

  /** What a dump command line asks for: the result file, the connection and the table
      argument (absent when the command carries none). */
  datatype DumpRequest = DumpRequest(resultFile: string, conn: Connection, tableArg: Option<string>)

  /** Reads the last five (or, when `withTables` holds, six) arguments of a dump command line
      back as `-h`, `-u`, `-p`, `--result-file=`, the database name and one table argument.
      Whatever comes before them is ignored. */
  function ParseDumpTail(args: seq<string>, withTables: bool): Option<DumpRequest>
  {
    var n := if withTables then 6 else 5;
    if |args| < n then None
    else
      var t := args[|args| - n..];
      match (StripPrefix("-h", t[0]), StripPrefix("-u", t[1]), StripPrefix("-p", t[2]),
             StripPrefix("--result-file=", t[3]))
      case (Some(h), Some(u), Some(p), Some(f)) =>
        Some(DumpRequest(f, Connection(h, u, p, t[4]), if withTables then Some(t[5]) else None))
      case _ => None
  }

  /** Reads a mysql client command line back into the connection it names. */
  function ParseRestoreArgs(args: seq<string>): Option<Connection>
  {
    if |args| != 4 then None
    else
      match (StripPrefix("-h", args[0]), StripPrefix("-u", args[1]), StripPrefix("-p", args[2]),
             StripPrefix("--database=", args[3]))
      case (Some(h), Some(u), Some(p), Some(d)) => Some(Connection(h, u, p, d))
      case _ => None
  }

  /** The file a `source` line tells the client to execute. */
  function ParseSourceCommand(line: string): Option<string>
  {
    StripPrefix("source ", line)
  }

  /** `c` runs `bin` with no standard input, and its last five arguments (six when `tables`
      is given) name `conn`, the result file `file` and the joined `tables`. Arguments before
      them are not constrained. */
  predicate IsDumpOf(c: Call, bin: string, file: string, conn: Connection, tables: Option<seq<string>>)
  {
    && c.cmd == bin
    && ParseDumpTail(c.args, tables.Some?)
       == Some(DumpRequest(file, conn, if tables.Some? then Some(Join(tables.value)) else None))
    && c.stdin == []
  }

  /** `c` runs `bin` against `conn` and tells it, on its standard input and nothing more,
      to execute `file`. */
  predicate IsRestoreOf(c: Call, bin: string, file: string, conn: Connection)
  {
    && c.cmd == bin
    && ParseRestoreArgs(c.args) == Some(conn)
    && |c.stdin| == 1 && c.stdinEnded
    && ParseSourceCommand(c.stdin[0]) == Some(file)
  }

  /** Whatever flags precede them, the arguments `dump` adds name exactly the connection,
      the result file and the joined tables it was given. */
  lemma DumpTailRoundTrip(prefix: seq<string>, filename: string, conn: Connection, tables: Option<seq<string>>)
    ensures var args := prefix + DumpTail(filename, conn, tables);
      && args[..|prefix|] == prefix
      && ParseDumpTail(args, tables.Some?)
         == Some(DumpRequest(filename, conn, if tables.Some? then Some(Join(tables.value)) else None))
  {
  }

  /** The mysql client's four arguments name exactly the connection `execDump` was given. */
  lemma RestoreArgsRoundTrip(conn: Connection)
    ensures ParseRestoreArgs(RestoreArgs(conn)) == Some(conn)
  {
  }

  /** The `source` line names exactly the file it was built from. */
  lemma SourceCommandRoundTrip(filename: string)
    ensures ParseSourceCommand(SourceCommand(filename)) == Some(filename)
  {
  }

  /** The table argument: an empty array contributes one empty argument, and a non-empty
      array of space-free names can be split back into those names, in order. */
  lemma TableArgument(filename: string, conn: Connection, tables: seq<string>)
    ensures DumpTail(filename, conn, Some(tables))[5] == Join(tables)
    ensures tables == [] ==> DumpTail(filename, conn, Some(tables))[5] == ""
    ensures |tables| > 0 && (forall i :: 0 <= i < |tables| ==> Space !in tables[i])
            ==> Split(DumpTail(filename, conn, Some(tables))[5]) == tables
  {
    if |tables| > 0 && (forall i :: 0 <= i < |tables| ==> Space !in tables[i]) {
      SplitJoin(tables);
    }
  }

  /** `dump`: takes the caller's `mysqldump` array itself when there is one (a fresh empty
      array otherwise), pushes the generated arguments onto it, spawns `bin` with it and
      passes the spawn's outcome on to its callback. The caller's array ends up holding
      exactly the argument list that was spawned. */
  method Dump(filename: string, conn: Connection, tables: Option<seq<string>>, mysqldump: ArgList?,
              bin: string, spawned: Outcome)
    returns (call: Call, err: Outcome)
    modifies mysqldump
    ensures call.cmd == bin && call.stdin == [] && !call.stdinEnded
    ensures call.args == (if mysqldump == null then [] else old(mysqldump.items))
                         + DumpTail(filename, conn, tables)
    ensures mysqldump != null ==> mysqldump.items == call.args
    ensures err == spawned
  {
    var args: ArgList;
    if mysqldump != null {
      args := mysqldump;
    } else {
      args := new ArgList();
    }
    args.Push([HostFlag(conn), UserFlag(conn), PasswordFlag(conn), ResultFileFlag(filename), conn.database]);
    if tables.Some? {
      args.Push([Join(tables.value)]);
    }
    var proc := new Process(bin, args.items);
    call := proc.Record();
    err := spawned;
  }

  /** `execDump`: spawns `bin` with the four connection arguments, writes the one line
      `source <filename>` to its standard input, ends the stream, and passes the spawn's
      outcome on to its callback. */
  method ExecDump(filename: string, conn: Connection, bin: string, spawned: Outcome)
    returns (call: Call, err: Outcome)
    ensures IsRestoreOf(call, bin, filename, conn)
    ensures call.args == RestoreArgs(conn)
    ensures err == spawned
  {
    var args := new ArgList();
    args.Push([HostFlag(conn), UserFlag(conn), PasswordFlag(conn), DatabaseFlag(conn)]);
    var proc := new Process(bin, args.items);
    proc.Write(SourceCommand(filename));
    proc.End();
    call := proc.Record();
    err := spawned;
    RestoreArgsRoundTrip(conn);
    SourceCommandRoundTrip(filename);
  }
}
