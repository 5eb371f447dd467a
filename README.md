# grunt-db-migrate: a Dafny model of the `db_migrate` task

`db_migrate` is a Grunt multi-task that copies one MySQL database over another. First it
creates two temporary files in parallel: a backup of the destination and a dump of the
source. Then it runs three external programs one after another, stopping at the first
error:

1. `mysqldump` dumps the destination into the backup file.
2. `mysqldump` dumps the source into the dump file.
3. `mysql` is started against the destination, with `source <dump file>` written to its
   standard input.

Grunt's `done` callback then gets either the first error or nothing.

The model has three modules:

- `Strings` (strings.dfy): JavaScript's `join(' ')`, as used for the table list, with
  `Split` as its inverse. Also prefix stripping, used to read a generated flag back.
- `Commands` (commands.dfy): `dump` and `execDump`.
  - The caller's `mysqldump` array is a class, `ArgList`, which `Dump` extends in place.
    This keeps the aliasing the code has.
  - A spawned process is a class, `Process`, whose standard input is written and then
    ended.
  - Each step's result is a `Call` record: program, arguments, stdin chunks, stream ended.
  - Parsers read generated arguments back. `ParseDumpTail` reads only the last five (or
    six) arguments of a dump command line and ignores any before them. `ParseRestoreArgs`
    reads the client's four arguments, and `ParseSourceCommand` reads the stdin line. The
    round-trip lemmas show that the generated arguments name exactly the connection, files
    and tables they were built from. They do not say how `mysqldump` treats the arguments
    in front of that tail.
- `Migrate` (migrate.dfy): the task body.
  - `Allocate` models `async.parallel` over the two `tmp.file` calls.
  - `Series` models `async.series`. `Plan` gives the three calls, and `Migration` is the
    whole run as a value.
  - `Run` is the imperative task body. It loops over the three steps through `RunSeries`
    and `RunStep`, and it is proved equal to `Migration` on the options as they were at
    the start.

Outside effects become inputs (oracles):

- `tmp.file` is a `TmpOutcome` for each allocation. A created file is a generated stem
  followed by the postfix the task asks for (`-destinationbackup.sql`, `-dump.sql`).
- Which failed allocation reports first is the boolean `backupReportsFirst`.
  `async.parallel` hands the first error it receives to the final callback.
- `grunt.util.spawn` is one `Outcome` per step, `outcomes[i]`. That is what the spawn
  callback passes on as `error`.

Behaviour of the code worth knowing:

- The task has no dry-run mode and no remote (SSH) mode.
- An empty `tables` array still adds one empty argument, because `[].join(' ')` is `''`.
- When `options.mysqldump` is an array, both dumps push onto that same array. So the
  source dump's command line starts with the whole backup dump's command line: the extra
  flags, then the destination's `-h`, `-u`, `-p`, `--result-file=` and database name, and
  only after them the source's own arguments (`SecondDumpInheritsFirstDumpFlags`). After
  the run the array holds the last spawned dump's argument list (`Run`).

## Model

| member | source | states |
|---|---|---|
| `Strings.Join` | tasks/db_migrate.js:39 | `tables.join(' ')`: an empty array gives the empty string; the result starts with the first name; for space-free names it contains a space exactly when there are two or more names |
| `Strings.SplitJoin` | tasks/db_migrate.js:39 | splitting `tables.join(' ')` at spaces gives back the non-empty list of space-free table names, in order |
| `Commands.DumpTail` | tasks/db_migrate.js:30-40 | `dump` adds exactly five arguments, or six when `tables` is an array |
| `Commands.DumpTailRoundTrip` | tasks/db_migrate.js:28-40 | the arguments already in the list stay first and unchanged; the added ones read back as exactly the given host, user, password, result file and database, plus the joined tables when `tables` is an array and nothing when it is not |
| `Commands.TableArgument` | tasks/db_migrate.js:38-40 | the table argument is `tables.join(' ')`: an empty array yields the empty string; a non-empty array of space-free names splits back into those names |
| `Commands.RestoreArgs` | tasks/db_migrate.js:66-74 | the mysql client gets exactly four arguments |
| `Commands.RestoreArgsRoundTrip` | tasks/db_migrate.js:69-74 | the four client arguments read back as exactly the host, user, password and database of the connection |
| `Commands.SourceCommandRoundTrip` | tasks/db_migrate.js:91 | the stdin line `source <file>` names exactly the given file |
| `Commands.ArgList.Push` | tasks/db_migrate.js:30-36 | `push` appends its arguments, in order, to the array's old contents |
| `Commands.Process.constructor` | tasks/db_migrate.js:76-79 | a spawned process keeps the program and argument list it was started with; nothing has been written to its stdin yet, and stdin is still open |
| `Commands.Process.Write` | tasks/db_migrate.js:91 | a write appends one chunk to stdin while the stream is open |
| `Commands.Process.End` | tasks/db_migrate.js:92 | `end` closes stdin and leaves what was written alone |
| `Commands.Dump` | tasks/db_migrate.js:27-55 | spawns `bin` with the caller's array (or an empty one when it is null) followed by the generated arguments; the caller's array is extended in place to exactly the spawned list; nothing is written to stdin; the spawn's error goes to the callback unchanged |
| `Commands.ExecDump` | tasks/db_migrate.js:65-93 | spawns `bin` with the four destination arguments, writes only `source <file>` to stdin and ends it; the spawn's error goes to the callback unchanged |
| `Migrate.Allocate` | tasks/db_migrate.js:127-141 | both file names (stem plus requested postfix) exactly when both allocations succeed; otherwise the error of a failed allocation, namely the only failure or, when both fail, the one that reports first |
| `Migrate.PostfixesKeepFilesApart` | tasks/db_migrate.js:130-133 | the backup file and the dump file differ, whatever stems `tmp` picks, so the restore never reads the backup |
| `Migrate.Series` | tasks/db_migrate.js:143-163 | the calls made are a prefix of the planned calls, and at least the first call is made |
| `Migrate.SeriesStopsAtFirstFailure` | tasks/db_migrate.js:155-160 | when call k is the first to fail, exactly calls 0..k are made and the series reports call k's error |
| `Migrate.SeriesSucceedsIffAllPass` | tasks/db_migrate.js:155-161 | the series succeeds if and only if every call succeeds, and then every call was made |
| `Migrate.SeriesFailureIsLastCall` | tasks/db_migrate.js:155-160 | a failed series reports the error of the last call it made, and every earlier call passed |
| `Migrate.Plan` | tasks/db_migrate.js:143-154 | the run plans exactly three calls |
| `Migrate.PlanTargets` | tasks/db_migrate.js:145-153 | call 1 dumps the destination into `results[0]`; call 2 dumps the source into `results[1]` with the same tables and mysqldump binary; call 3 runs the mysql binary against the destination and tells it to execute `results[1]` |
| `Migrate.Migration` | tasks/db_migrate.js:127-165 | the task body as a value: at most three calls are made, and none is made exactly when a temporary file cannot be allocated, in which case `done` gets an error |
| `Migrate.AllocationFailureRunsNothing` | tasks/db_migrate.js:136-141 | if either temp file cannot be made, no dump or restore runs and `done` gets that allocation's error |
| `Migrate.StepsRunInOrder` | tasks/db_migrate.js:143-154 | the calls made are, in order, a non-empty prefix of: backup dump of the destination, dump of the source, restore of the source dump into the destination |
| `Migrate.StepFailureStopsTask` | tasks/db_migrate.js:155-160 | when step k is the first to fail, exactly k+1 steps ran and `done` gets step k's error |
| `Migrate.TaskSucceedsIffAllSucceed` | tasks/db_migrate.js:136-161 | `done` gets no error if and only if both allocations and all three steps succeed, and then all three steps ran |
| `Migrate.TaskFailureIsLastAttempt` | tasks/db_migrate.js:155-160 | any error `done` gets is the error of the last operation attempted, and every earlier step succeeded |
| `Migrate.SecondDumpInheritsFirstDumpFlags` | tasks/db_migrate.js:146-149 | with a caller `mysqldump` array, the source dump's list is the extra flags, then a complete dump of the destination into the backup file, then the source's own arguments; without one it is just the five or six generated arguments; the restore's arguments never include the extra flags |
| `Migrate.DefaultRun` | tasks/db_migrate.js:105-122 | with the default options and every operation succeeding: `bin/mysqldump` dumps `migrate-destination`, then `migrate-source`, five arguments each, then `bin/mysql` restores into `migrate-destination`, and the task succeeds |
| `Migrate.RunStep` | tasks/db_migrate.js:145-153 | step i makes exactly the i-th planned call, passes its outcome on, and extends the shared flag array as planned |
| `Migrate.RunSeries` | tasks/db_migrate.js:143-163 | the loop over the three steps, with early exit, yields exactly the trace and result of `Series` over the plan, and leaves the shared flag array as the last step that ran left it |
| `Migrate.Run` | tasks/db_migrate.js:98-166 | the task body yields exactly the trace and result of `Migration` on the options as they were at the start; the caller's `mysqldump` array ends up unchanged if nothing ran, or holding the argument list of the last dump that was spawned |

## Left out

- Logging through `grunt.log` and `grunt.verbose` (lines 47, 50, 81, 84, 125, 138, 157). It has no effect on the result.
- Running processes and their streams. `grunt.util.spawn` is an oracle, and what `mysqldump` and `mysql` do with their arguments is not modelled. That includes how `mysqldump` reads the single space-joined table argument, and how it reads a source dump whose list also holds the destination's connection flags and database name.
- `Commands.IsDumpOf`, `Migrate.PlanTargets`, `Migrate.StepsRunInOrder`: a dump call counts as a dump of a connection when its last five or six arguments name it; the arguments before them are pinned only by `Commands.Dump` and `Migrate.SecondDumpInheritsFirstDumpFlags`.
- `proc.stdin.setEncoding = 'utf-8'` (line 90). It assigns a property instead of calling a method, and the model has no encodings.
- The internals of `tmp.file`: the random stem, the directory, and the mode `0777` (lines 130, 133). A created file is modelled as the oracle's stem followed by the requested postfix.
- What `async.parallel` stores in `results[i]` when `tmp.file` calls back with more than a file name. This is library behaviour; the model takes `results[i]` to be the file name.
- The concurrency of the two allocations. Only the order in which failures are reported can matter, and that order is the `backupReportsFirst` input.
- Merging in `this.options` (lines 105-122). This is Grunt's behaviour; the model takes the merged options as input and records the defaults as `Defaults`.
- JavaScript's string conversion of missing or non-string option values, such as `'-p' + undefined`. Connection fields and table names are strings in the model.
- Gruntfile.js, which is build configuration. Its `onRemote`, `remote` and `pass` settings are never read by the task, so there is no remote or dry-run behaviour to model.
