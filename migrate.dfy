/** The `db_migrate` task body (tasks/db_migrate.js): two temporary files are allocated in
    parallel, then the destination is dumped into the first, the source into the second,
    and the second is restored into the destination, stopping at the first error.
    `tmp.file` and `grunt.util.spawn` are oracles: the caller supplies what each of them
    reports, and the model returns the calls the task made and what `done` received. */
module Migrate {
  import opened Strings
  import opened Commands

  /** What `tmp.file` reports: a created file — named by the library's generated stem
      followed by the postfix the task asked for — or an error. */
  datatype TmpOutcome = Created(stem: string) | TmpFailed(cause: string)

  const BackupPostfix: string := "-destinationbackup.sql"
  const DumpPostfix: string := "-dump.sql"

  /** The task's options after merging with the defaults. `mysqldump` is the caller's array
      of extra dump flags (`null` by default), shared by both dumps. */
  datatype Options = Options(mysqldumpBin: string, mysqlBin: string, tables: Option<seq<string>>,
                             dbSrc: Connection, dbDest: Connection, mysqldump: ArgList?)

  /** The defaults the task merges the configured options into. */
  const Defaults: Options := Options(
    "bin/mysqldump", "bin/mysql", None,
    Connection("localhost", "test", "test", "migrate-source"),
    Connection("localhost", "test", "test", "migrate-destination"),
    null)

  /** The options as a value: the shared flag array replaced by its contents at one moment
      (`None` when there is no array). */
  datatype Config = Config(mysqldumpBin: string, mysqlBin: string, tables: Option<seq<string>>,
                           dbSrc: Connection, dbDest: Connection, extraFlags: Option<seq<string>>)

  function Snapshot(o: Options): Config
    reads o.mysqldump
  {
    Config(o.mysqldumpBin, o.mysqlBin, o.tables, o.dbSrc, o.dbDest,
           if o.mysqldump == null then None else Some(o.mysqldump.items))
  }

  /** The two temporary files: the destination backup (`results[0]`) and the source dump
      (`results[1]`). */
  datatype Files = Files(backup: string, dump: string)

  datatype Allocation = Allocated(files: Files) | AllocFailed(cause: string)

  /** `async.parallel` over the two `tmp.file` calls: both file names when both succeed;
      otherwise the error of whichever failed call reports first (`backupReportsFirst` says
      which of the two calls back first). */
  function Allocate(backup: TmpOutcome, dump: TmpOutcome, backupReportsFirst: bool): (r: Allocation)
    ensures r.Allocated? <==> backup.Created? && dump.Created?
    ensures r.Allocated? ==> r.files == Files(backup.stem + BackupPostfix, dump.stem + DumpPostfix)
    ensures r.AllocFailed? ==> (backup.TmpFailed? && r.cause == backup.cause)
                               || (dump.TmpFailed? && r.cause == dump.cause)
    ensures r.AllocFailed? && backup.Created? ==> r.cause == dump.cause
    ensures r.AllocFailed? && dump.Created? ==> r.cause == backup.cause
    ensures backup.TmpFailed? && dump.TmpFailed? ==>
              r.cause == (if backupReportsFirst then backup.cause else dump.cause)
  {
    match (backup, dump)
    case (Created(b), Created(d)) => Allocated(Files(b + BackupPostfix, d + DumpPostfix))
    case (TmpFailed(e), Created(_)) => AllocFailed(e)
    case (Created(_), TmpFailed(e)) => AllocFailed(e)
    case (TmpFailed(e0), TmpFailed(e1)) => AllocFailed(if backupReportsFirst then e0 else e1)
  }

  /** The two file names differ whatever stems the library picks: their postfixes already
      differ in their last nine characters. So the restore never reads the backup. */
  lemma PostfixesKeepFilesApart(backupStem: string, dumpStem: string)
    ensures backupStem + BackupPostfix != dumpStem + DumpPostfix
  {
    var a := backupStem + BackupPostfix;
    var b := dumpStem + DumpPostfix;
    if |a| == |b| {
      assert a[|a| - 9] == 'a';
      assert b[|b| - 9] == '-';
    }
  }

  /** What the task reports at the end: the calls it made, in order, and what `done` got. */
  datatype Report = Report(trace: seq<Call>, result: Outcome)

  /** `async.series`: run each call in turn; the first whose outcome is an error ends the
      series with that error; the series succeeds once every call has. */
  function Series(calls: seq<Call>, outcomes: seq<Outcome>): (r: Report)
    requires |calls| == |outcomes|
    ensures r.trace <= calls
    ensures |calls| > 0 ==> |r.trace| > 0
    decreases |calls|
  {
    if |calls| == 0 then Report([], Pass)
    else if outcomes[0].Fail? then Report([calls[0]], outcomes[0])
    else
      var rest := Series(calls[1..], outcomes[1..]);
      Report([calls[0]] + rest.trace, rest.result)
  }

  /** Fail-fast: when call `k` is the first to fail, exactly calls `0..k` were made and the
      series reports call `k`'s error. */
  lemma {:induction false} SeriesStopsAtFirstFailure(calls: seq<Call>, outcomes: seq<Outcome>, k: nat)
    requires |calls| == |outcomes| && k < |calls|
    requires outcomes[k].Fail?
    requires forall j :: 0 <= j < k ==> outcomes[j].Pass?
    ensures Series(calls, outcomes) == Report(calls[..k + 1], outcomes[k])
  {
    if k > 0 {
      SeriesStopsAtFirstFailure(calls[1..], outcomes[1..], k - 1);
      assert [calls[0]] + calls[1..][..k] == calls[..k + 1];
    }
  }

  /** The series succeeds exactly when every call does, and then it made every call. */
  lemma {:induction false} SeriesSucceedsIffAllPass(calls: seq<Call>, outcomes: seq<Outcome>)
    requires |calls| == |outcomes|
    ensures Series(calls, outcomes).result.Pass? <==> forall j :: 0 <= j < |outcomes| ==> outcomes[j].Pass?
    ensures Series(calls, outcomes).result.Pass? ==> Series(calls, outcomes).trace == calls
  {
    if |calls| > 0 {
      SeriesSucceedsIffAllPass(calls[1..], outcomes[1..]);
      if outcomes[0].Pass? {
        assert forall j :: 1 <= j < |outcomes| ==> outcomes[j] == outcomes[1..][j - 1];
        assert calls == [calls[0]] + calls[1..];
      }
    }
  }

  /** A failed series reports the error of the last call it made, and every earlier call
      passed. */
  lemma {:induction false} SeriesFailureIsLastCall(calls: seq<Call>, outcomes: seq<Outcome>)
    requires |calls| == |outcomes|
    ensures var r := Series(calls, outcomes);
      r.result.Fail? ==>
        && r.result == outcomes[|r.trace| - 1]
        && forall j :: 0 <= j < |r.trace| - 1 ==> outcomes[j].Pass?
  {
    if |calls| > 0 && outcomes[0].Pass? {
      SeriesFailureIsLastCall(calls[1..], outcomes[1..]);
      var rest := Series(calls[1..], outcomes[1..]);
      if rest.result.Fail? {
        assert forall j :: 1 <= j < |rest.trace| + 1 ==> outcomes[j] == outcomes[1..][j - 1];
      }
    }
  }

  function FlagsOrEmpty(extra: Option<seq<string>>): seq<string>
  {
    if extra.Some? then extra.value else []
  }

  /** The three calls the task makes when nothing fails. Both dumps get the same flag array:
      when there is one, the first dump extends it in place, so the second dump's list starts
      with the first dump's whole list; without one, each dump starts from an empty list. */
  function Plan(cfg: Config, files: Files): (calls: seq<Call>)
    ensures |calls| == 3
  {
    var backupArgs := FlagsOrEmpty(cfg.extraFlags) + DumpTail(files.backup, cfg.dbDest, cfg.tables);
    var sourceArgs := (if cfg.extraFlags.Some? then backupArgs else [])
                      + DumpTail(files.dump, cfg.dbSrc, cfg.tables);
    [ Call(cfg.mysqldumpBin, backupArgs, [], false),
      Call(cfg.mysqldumpBin, sourceArgs, [], false),
      Call(cfg.mysqlBin, RestoreArgs(cfg.dbDest), [SourceCommand(files.dump)], true) ]
  }

  /** The whole task as a value: allocation, then the three steps in series. `outcomes[i]`
      is what the process runner reports for step `i`. */
  function Migration(cfg: Config, backup: TmpOutcome, dump: TmpOutcome, backupReportsFirst: bool,
                     outcomes: seq<Outcome>): (r: Report)
    requires |outcomes| == 3
    ensures |r.trace| <= 3
    ensures r.trace == [] <==> backup.TmpFailed? || dump.TmpFailed?
    ensures r.trace == [] ==> r.result.Fail?
  {
    match Allocate(backup, dump, backupReportsFirst)
    case AllocFailed(e) => Report([], Fail(e))
    case Allocated(files) => Series(Plan(cfg, files), outcomes)
  }

  /** If either temporary file cannot be made, the task reports that allocation's error and
      runs no dump and no restore. */
  lemma AllocationFailureRunsNothing(cfg: Config, backup: TmpOutcome, dump: TmpOutcome,
                                     backupReportsFirst: bool, outcomes: seq<Outcome>)
    requires |outcomes| == 3
    requires backup.TmpFailed? || dump.TmpFailed?
    ensures var r := Migration(cfg, backup, dump, backupReportsFirst, outcomes);
      && r.trace == []
      && r.result.Fail?
      && ((backup.TmpFailed? && r.result.cause == backup.cause)
          || (dump.TmpFailed? && r.result.cause == dump.cause))
  {
  }

  /** Each planned call does what its step is for: dump the destination into the backup
      file, dump the source into the dump file (same tables, same mysqldump binary), restore
      the dump file into the destination with the mysql binary. */
  lemma PlanTargets(cfg: Config, files: Files)
    ensures var p := Plan(cfg, files);
      && IsDumpOf(p[0], cfg.mysqldumpBin, files.backup, cfg.dbDest, cfg.tables)
      && IsDumpOf(p[1], cfg.mysqldumpBin, files.dump, cfg.dbSrc, cfg.tables)
      && IsRestoreOf(p[2], cfg.mysqlBin, files.dump, cfg.dbDest)
  {
    var p := Plan(cfg, files);
    DumpTailRoundTrip(FlagsOrEmpty(cfg.extraFlags), files.backup, cfg.dbDest, cfg.tables);
    DumpTailRoundTrip(if cfg.extraFlags.Some? then p[0].args else [], files.dump, cfg.dbSrc, cfg.tables);
    RestoreArgsRoundTrip(cfg.dbDest);
    SourceCommandRoundTrip(files.dump);
  }

  /** With both files allocated, the calls made are a non-empty prefix of the three steps,
      in order: the backup dump of the destination, the dump of the source, the restore of
      the source dump into the destination. */
  lemma StepsRunInOrder(cfg: Config, backupStem: string, dumpStem: string, backupReportsFirst: bool,
                        outcomes: seq<Outcome>)
    requires |outcomes| == 3
    ensures var backupFile := backupStem + BackupPostfix;
      var dumpFile := dumpStem + DumpPostfix;
      var t := Migration(cfg, Created(backupStem), Created(dumpStem), backupReportsFirst, outcomes).trace;
      && 1 <= |t| <= 3
      && IsDumpOf(t[0], cfg.mysqldumpBin, backupFile, cfg.dbDest, cfg.tables)
      && (|t| >= 2 ==> IsDumpOf(t[1], cfg.mysqldumpBin, dumpFile, cfg.dbSrc, cfg.tables))
      && (|t| == 3 ==> IsRestoreOf(t[2], cfg.mysqlBin, dumpFile, cfg.dbDest))
  {
    var files := Files(backupStem + BackupPostfix, dumpStem + DumpPostfix);
    var plan := Plan(cfg, files);
    PlanTargets(cfg, files);
    var t := Series(plan, outcomes).trace;
    assert t <= plan;
    assert t[0] == plan[0];
    if |t| >= 2 {
      assert t[1] == plan[1];
    }
    if |t| == 3 {
      assert t[2] == plan[2];
    }
  }

  /** Fail-fast for the task: when step `k` is the first to fail, exactly steps `0..k` ran
      and `done` receives step `k`'s error. */
  lemma StepFailureStopsTask(cfg: Config, backupStem: string, dumpStem: string, backupReportsFirst: bool,
                             outcomes: seq<Outcome>, k: nat)
    requires |outcomes| == 3 && k < 3
    requires outcomes[k].Fail?
    requires forall j :: 0 <= j < k ==> outcomes[j].Pass?
    ensures var r := Migration(cfg, Created(backupStem), Created(dumpStem), backupReportsFirst, outcomes);
      && |r.trace| == k + 1
      && r.result == outcomes[k]
  {
    var plan := Plan(cfg, Files(backupStem + BackupPostfix, dumpStem + DumpPostfix));
    SeriesStopsAtFirstFailure(plan, outcomes, k);
  }

  /** `done()` gets no error exactly when both allocations and all three steps succeed, and
      then all three steps ran. */
  lemma TaskSucceedsIffAllSucceed(cfg: Config, backup: TmpOutcome, dump: TmpOutcome,
                                  backupReportsFirst: bool, outcomes: seq<Outcome>)
    requires |outcomes| == 3
    ensures var r := Migration(cfg, backup, dump, backupReportsFirst, outcomes);
      && (r.result.Pass? <==> backup.Created? && dump.Created? && outcomes[0].Pass? && outcomes[1].Pass? && outcomes[2].Pass?)
      && (r.result.Pass? ==> |r.trace| == 3)
  {
    if backup.Created? && dump.Created? {
      var plan := Plan(cfg, Files(backup.stem + BackupPostfix, dump.stem + DumpPostfix));
      SeriesSucceedsIffAllPass(plan, outcomes);
    }
  }

  /** Every error `done` receives is the error reported by the last operation attempted, and
      all earlier steps passed. */
  lemma TaskFailureIsLastAttempt(cfg: Config, backupStem: string, dumpStem: string, backupReportsFirst: bool,
                                 outcomes: seq<Outcome>)
    requires |outcomes| == 3
    ensures var r := Migration(cfg, Created(backupStem), Created(dumpStem), backupReportsFirst, outcomes);
      r.result.Fail? ==>
        && r.result == outcomes[|r.trace| - 1]
        && forall j :: 0 <= j < |r.trace| - 1 ==> outcomes[j].Pass?
  {
    var plan := Plan(cfg, Files(backupStem + BackupPostfix, dumpStem + DumpPostfix));
    SeriesFailureIsLastCall(plan, outcomes);
  }

  /** The shared flag array: when the options carry one, both dumps start with its flags,
      and the source dump's list begins with the whole backup dump of the destination — its
      connection flags, its result file and its database name — before the source's own
      arguments; without one, the source dump gets only its own five or six arguments. The
      restore never sees the extra flags. */
  lemma SecondDumpInheritsFirstDumpFlags(cfg: Config, files: Files)
    ensures var p := Plan(cfg, files);
      var tableArg := if cfg.tables.Some? then Some(Join(cfg.tables.value)) else None;
      var n := if cfg.tables.Some? then 6 else 5;
      && p[0].args[..|FlagsOrEmpty(cfg.extraFlags)|] == FlagsOrEmpty(cfg.extraFlags)
      && (cfg.extraFlags.Some? ==>
           && |p[1].args| == |cfg.extraFlags.value| + 2 * n
           && p[1].args[..|cfg.extraFlags.value|] == cfg.extraFlags.value
           && ParseDumpTail(p[1].args[..|cfg.extraFlags.value| + n], cfg.tables.Some?)
              == Some(DumpRequest(files.backup, cfg.dbDest, tableArg)))
      && (cfg.extraFlags.None? ==> |p[1].args| == n)
      && p[2].args == RestoreArgs(cfg.dbDest)
  {
  }

  /** With the default options and every operation succeeding, the task dumps
      "migrate-destination" into the backup file, then "migrate-source" into the dump file,
      each with exactly the five generated arguments, then restores the dump file into
      "migrate-destination", and succeeds. */
  lemma DefaultRun(backupStem: string, dumpStem: string, backupReportsFirst: bool)
    ensures var r := Migration(Snapshot(Defaults), Created(backupStem), Created(dumpStem), backupReportsFirst,
                               [Pass, Pass, Pass]);
      && r.result == Pass
      && |r.trace| == 3
      && IsDumpOf(r.trace[0], "bin/mysqldump", backupStem + BackupPostfix,
                  Connection("localhost", "test", "test", "migrate-destination"), None)
      && |r.trace[0].args| == 5
      && IsDumpOf(r.trace[1], "bin/mysqldump", dumpStem + DumpPostfix,
                  Connection("localhost", "test", "test", "migrate-source"), None)
      && |r.trace[1].args| == 5
      && IsRestoreOf(r.trace[2], "bin/mysql", dumpStem + DumpPostfix,
                     Connection("localhost", "test", "test", "migrate-destination"))
  {
    var cfg := Snapshot(Defaults);
    var outcomes := [Pass, Pass, Pass];
    TaskSucceedsIffAllSucceed(cfg, Created(backupStem), Created(dumpStem), backupReportsFirst, outcomes);
    StepsRunInOrder(cfg, backupStem, dumpStem, backupReportsFirst, outcomes);
    SecondDumpInheritsFirstDumpFlags(cfg, Files(backupStem + BackupPostfix, dumpStem + DumpPostfix));
  }

  /** The contents of the shared flag array after the first `steps` steps have run. */
  function FlagsAfter(cfg: Config, plan: seq<Call>, steps: nat): seq<string>
    requires |plan| == 3
  {
    if steps == 0 then FlagsOrEmpty(cfg.extraFlags)
    else if steps == 1 then plan[0].args
    else plan[1].args
  }

  /** The `step`-th function of the task's series: dump the destination into the backup
      file, dump the source into the dump file, or restore the dump file into the
      destination. It makes the planned call and extends the shared flag array as planned. */
  method RunStep(opts: Options, files: Files, step: nat, outcome: Outcome, ghost cfg: Config)
    returns (call: Call, err: Outcome)
    requires step < 3
    requires cfg == Config(opts.mysqldumpBin, opts.mysqlBin, opts.tables, opts.dbSrc, opts.dbDest, cfg.extraFlags)
    requires cfg.extraFlags.Some? <==> opts.mysqldump != null
    requires opts.mysqldump != null ==> opts.mysqldump.items == FlagsAfter(cfg, Plan(cfg, files), step)
    modifies opts.mysqldump
    ensures call == Plan(cfg, files)[step] && err == outcome
    ensures opts.mysqldump != null ==> opts.mysqldump.items == FlagsAfter(cfg, Plan(cfg, files), step + 1)
  {
    if step == 0 {
      call, err := Dump(files.backup, opts.dbDest, opts.tables, opts.mysqldump, opts.mysqldumpBin, outcome);
    } else if step == 1 {
      call, err := Dump(files.dump, opts.dbSrc, opts.tables, opts.mysqldump, opts.mysqldumpBin, outcome);
    } else {
      call, err := ExecDump(files.dump, opts.dbDest, opts.mysqlBin, outcome);
    }
  }

  /** The task's `async.series` over its three steps: run them in order and stop at the
      first error. The trace and the result are those of `Series` over the plan; afterwards
      the shared flag array (if any) holds what the last step that ran left there. */
  method RunSeries(opts: Options, files: Files, outcomes: seq<Outcome>, ghost cfg: Config)
    returns (trace: seq<Call>, result: Outcome)
    requires |outcomes| == 3
    requires cfg == Config(opts.mysqldumpBin, opts.mysqlBin, opts.tables, opts.dbSrc, opts.dbDest, cfg.extraFlags)
    requires cfg.extraFlags.Some? <==> opts.mysqldump != null
    requires opts.mysqldump != null ==> opts.mysqldump.items == FlagsOrEmpty(cfg.extraFlags)
    modifies opts.mysqldump
    ensures Report(trace, result) == Series(Plan(cfg, files), outcomes)
    ensures 1 <= |trace| <= 3
    ensures opts.mysqldump != null ==> opts.mysqldump.items == FlagsAfter(cfg, Plan(cfg, files), |trace|)
  {
    ghost var plan := Plan(cfg, files);
    trace, result := [], Pass;
    var step := 0;
    while step < 3 && result.Pass?
      invariant 0 <= step <= 3
      invariant |trace| == step && forall i :: 0 <= i < step ==> trace[i] == plan[i]
      invariant forall i :: 0 <= i < step - 1 ==> outcomes[i].Pass?
      invariant result == if step == 0 then Pass else outcomes[step - 1]
      invariant opts.mysqldump != null ==> opts.mysqldump.items == FlagsAfter(cfg, plan, step)
      decreases 3 - step
    {
      var call, err := RunStep(opts, files, step, outcomes[step], cfg);
      trace, result := trace + [call], err;
      step := step + 1;
    }
    assert trace == plan[..step];
    if result.Fail? {
      SeriesStopsAtFirstFailure(plan, outcomes, step - 1);
    } else {
      SeriesSucceedsIffAllPass(plan, outcomes);
    }
  }

  /** The task body: allocate both files, then run the three steps in order and stop at the
      first error. The trace and the result are those of `Migration` on the options as they
      were at the start; afterwards the caller's flag array (if any) holds the argument list
      of the last dump that was spawned. */
  method Run(opts: Options, backup: TmpOutcome, dump: TmpOutcome, backupReportsFirst: bool,
             outcomes: seq<Outcome>)
    returns (trace: seq<Call>, result: Outcome)
    requires |outcomes| == 3
    modifies opts.mysqldump
    ensures Report(trace, result) == Migration(old(Snapshot(opts)), backup, dump, backupReportsFirst, outcomes)
    ensures opts.mysqldump != null ==>
      opts.mysqldump.items == (if |trace| == 0 then old(opts.mysqldump.items)
                               else if |trace| == 1 then trace[0].args
                               else trace[1].args)
  {
    ghost var cfg := Snapshot(opts);
    var allocation := Allocate(backup, dump, backupReportsFirst);
    if allocation.AllocFailed? {
      trace, result := [], Fail(allocation.cause);
      return;
    }
    trace, result := RunSeries(opts, allocation.files, outcomes, cfg);
    ghost var plan := Plan(cfg, allocation.files);
    assert trace <= plan;
  }
}
