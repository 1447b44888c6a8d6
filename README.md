# dbd in Dafny

A Dafny model of the logic at the core of `dbd`, a tool that fetches database
dumps (`pg_dump`, `mysqldump`) from remote machines. It has three programs:

- an **agent** (`dbd-agent`) that runs the dump and streams it back as frames;
- a **client** (`dbd`) that reads those frames;
- an older **polling server** (`src/bin/agent.rs`) that starts a dump and
  hands out its exit status, standard output and standard error through
  three claim-once endpoints.

What the model covers:

- **Frames** (`frame.dfy`). The wire unit is `Stdout(bytes)`, `Stderr(bytes)`
  or `Status(optional i32)`. A complete stream is some output frames followed
  by exactly one `Status`, which is last.
- **Merging a child's pipes** (`child_stream.dfy`). The merge's order is a
  parameter, a schedule of picks. Every schedule keeps each channel's order,
  and every order-preserving interleaving is reached by some schedule.
- **The frame sink** (`sink.dfy`). It is a class holding the frames accepted
  so far. A send fails once the reading side has gone away, which is the
  sink's `limit`.
- **Forwarding** (`encode.dfy`). `encode` forwards the `Ok` items of its
  input until the first error.
- **The agent's `dump` handler** (`dump.dfy`):
  - the connection and database-name lookup;
  - the frames a Postgres run and a two-stage MySQL run produce, as
    functions;
  - the step-by-step tasks that drive the sink, proved to deliver a prefix of
    those frames, so that the reader sees a final `Status` exactly when the
    task succeeds;
  - the choice of task by the connection's kind.
- **Query parsing** (`dump_query.dfy`, `text.dfy`). This is the comma split
  of `exclude_table_data`, with its round-trip laws.
- **Command construction** (`process.dfy`, `agent_commands.dfy`,
  `server_commands.dfy`). It covers the argument lists, the builder the `for`
  loops extend in place, and how stage outputs are chained into gzip.
- **The client** (`client.dfy`):
  - resolving the agent from the configuration and the options;
  - the request path and query;
  - the frame loop, as a method proved against specification functions;
  - end-to-end lemmas from what the agent produces to what the client
    writes.
- **The polling server's registry** (`registry.dfy`, `uuid.dfy`). Three
  tables keyed by one UUID; each claim removes its own entry.
- **The API-key gate** of both servers (`auth.dfy`, `http.dfy`).

Process execution is never modelled; a spawned command is described by a
`Launch` or a `StageRun` value instead:

- `Launch`: it fails to start, or it writes these bytes and exits with this
  code.
- `StageRun`: the chunks read from each pipe, the merge schedule, whether a
  read then failed, and how waiting for it ends.

## Model

| member | source | states |
|---|---|---|
| Frames.TerminatedIffOneStatusLast | dbd-agent/src/frame.rs:5-9 | A stream is complete exactly when it holds a single `Status` frame and that frame is last. |
| Streams.ChildStreamChannels | dbd-agent/src/main.rs:113-121 | Whatever the merge order, the merged stream holds no `Status`. It holds every stdout chunk as `Stdout` in its order, every stderr chunk as `Stderr` in its order, and nothing else. |
| Streams.ChildStreamComplete | dbd-agent/src/main.rs:120 | Every interleaving of output frames is what the merge yields from its own channels under some schedule. |
| Sinks.FrameSink.Send | dbd-agent/src/main.rs:51 | A send appends the frame exactly when the reader is still there. Otherwise it fails and the sink is unchanged. |
| Sinks.FrameSink.SendAll | dbd-agent/src/main.rs:49 | The sink receives the frames in order, up to where the reader stops. The call succeeds exactly when all of them were accepted. |
| Encode.OkPrefix | dbd-agent/src/encode.rs:17-19 | The forwarded frames are the input's `Ok` items at their own positions, and the next item, if any, is an error. |
| Encode.Encode | dbd-agent/src/encode.rs:9-25 | The sink receives exactly the `Ok` prefix of the input, in order, cut only where the reader goes away. The result names the first stream error or the failed send. |
| Process.FlagPairsAt | dbd-agent/src/commands.rs:37-41 | The flag list has two items per value: the flag, then the value, in the values' order. |
| Process.AddFlagPairs | dbd-agent/src/commands.rs:87-91 | The builder loop appends exactly the flag pairs to the arguments and leaves the environment alone. |
| AgentCommands.MySqlDump | dbd-agent/src/commands.rs:10-66 | Spawns the schema run, the data run and gzip, in that order, with their argument lists. The first failure gives its message, and only the earlier runs were started. On success gzip's input is the schema stdout followed by the data stdout, and stderr is the schema stderr followed by the data stderr. |
| AgentCommands.PgDump | dbd-agent/src/commands.rs:68-104 | `pg_dump` gets the fixed arguments, the exclusion pairs and `PGPASSWORD`. A failed spawn is the error "failed to run pg_dump". |
| AgentCommands.DataArgvShape | dbd-agent/src/commands.rs:35-46 | The data run's argv is one `--ignore-table db.table` pair per table in order, then the ten shared arguments, then `--no-create-info`. Its length is 2n+11. |
| AgentCommands.PgDumpArgvShape | dbd-agent/src/commands.rs:72-94 | The argv is the 11 fixed items, then one `--exclude-table-data t` pair per table, so 11+2n items. The password never shapes it. |
| ServerCommands.MySqlDump | src/commands.rs:7-49 | Spawns mysqldump, then gzip; each failure gives its message. The child returned is gzip: it compresses mysqldump's stdout and carries mysqldump's stderr. |
| ServerCommands.PgDump | src/commands.rs:51-78 | `pg_dump` gets the fixed arguments, the record's exclusion pairs and `PGPASSWORD`. A failed spawn is an error. |
| ServerCommands.MySqlArgvShape | src/commands.rs:9-26 | The 10 base items, then one `--ignore-table-data db.table` pair per excluded table, in order. No list adds nothing. |
| ServerCommands.PgDumpArgvShape | src/commands.rs:52-73 | 11 fixed items plus one `--exclude-table-data` pair per table, independent of the password. |
| DumpQuery.Deserialize | dbd-agent/src/dump_query.rs:9-15 | An absent parameter is `None`. A present one is split into pieces that hold no comma, number one more than its commas, and join back to the text. |
| DumpQuery.DeserializeOnto | dbd-agent/src/dump_query.rs:14 | Every non-empty list of comma-free names is what its comma-joined text parses to. |
| DumpQuery.DeserializeEmpty | dbd-agent/src/dump_query.rs:14 | The empty text is one empty name. |
| Text.JoinSplit | dbd-agent/src/dump_query.rs:14 | Joining the pieces of a split with the separator gives the text back. |
| Text.SplitPiecesFree | dbd-agent/src/dump_query.rs:14 | No piece of a split contains the separator. |
| Text.SplitCount | dbd-agent/src/dump_query.rs:14 | A split has one more piece than the text has separators. |
| Text.SplitJoin | dbd-agent/src/dump_query.rs:14 | Splitting the join of separator-free pieces gives those pieces back, in order. |
| Text.ParseI32 | src/main.rs:104 | A parse succeeds only with a value in the `i32` range. |
| Text.IntTextRoundTrip | src/bin/agent.rs:100 | The decimal text of any 32-bit code parses back to that code. |
| Uuids.UuidText | src/bin/agent.rs:81 | The text of an id is 36 characters long. |
| Uuids.ParseUuid | src/bin/agent.rs:86 | Only hyphenated text is accepted. |
| Uuids.UuidTextRoundTrip | src/main.rs:47 | The text of an id parses back to the same id. |
| Dump.Setup | dbd-agent/src/main.rs:20-35 | An unknown connection is 404 "no database connection". The path's database name wins over the configured one, and if neither exists the result is 404 "no database name provided". Excluded tables come from the query. |
| Dump.StartedBy | dbd-agent/src/main.rs:93-105 | The user is found exactly when the key header is present and listed. Otherwise the result is "No api key is provided" or "Invalid api key". |
| Dump.Handle | dbd-agent/src/main.rs:19-111 | The request is refused, and nothing started, exactly when setup fails. Otherwise the started plan is the one setup produced, and the key check that follows is the lookup's: a started task is not undone when that check fails. |
| Dump.StageProductionEnds | dbd-agent/src/main.rs:48-51 | A stage run to the end of the task ends in exactly one `Status`, and it is last, exactly when nothing failed; a failed one has no `Status`. It succeeds exactly when the stage was spawned, read without error and waited for. |
| Dump.PostgresShape | dbd-agent/src/main.rs:47-52 | The run ends in exactly one `Status`, and it is last, exactly when nothing failed. A failed run sends no `Status`. On success `pg_dump` was read to the end and waited for, and the `Status` carries its code and follows all its output, each channel in order. |
| Dump.MySqlTerminates | dbd-agent/src/main.rs:64-83 | Exactly one trailing `Status` when nothing failed; none after a failure. Success means the schema stage, and the data stage when the schema code was 0, were read to the end and waited for. |
| Dump.MySqlShortCircuit | dbd-agent/src/main.rs:72-74 | A schema stage with no code or a nonzero code yields its frames and `Status(that code)`, whatever the data stage would do. |
| Dump.MySqlStagesInOrder | dbd-agent/src/main.rs:64-82 | On success, the first frames carry exactly the schema stage's channels and the following ones exactly the data stage's. The final `Status` is the data stage's code. |
| Dump.MySqlSchemaEnd | dbd-agent/src/main.rs:64-83 | A schema stage cut short by the reader, or failed, is all the reader gets, and the task ends as that stage did. Otherwise the reader gets all of it and then what fits of the rest; the data stage is spawned exactly when the schema code is 0. |
| Dump.DeliveredReports | dbd-agent/src/main.rs:47-58 | Whatever prefix of a well-ended production the reader accepts ends in `Status` exactly when the task's result is success, and holds no `Status` when it is a failure. |
| Dump.RunStage | dbd-agent/src/main.rs:48-50 | One stage: spawn, send the merged frames up to where the reader stops, then wait. A failed spawn, a rejected send, a read error on a pipe and a failed wait each end the stage with their own failure, in that order of precedence. |
| Dump.FinishStage | dbd-agent/src/main.rs:76-82 | One stage, then `Status` with its code. The sink gets the accepted prefix of `StageProduction`. |
| Dump.DumpPostgres | dbd-agent/src/main.rs:47-58 | The sink receives exactly the accepted prefix of `PostgresProduction`. The result is the failure that stopped the task, if any. What the sink received ends in one `Status` exactly when the task succeeded, and has none when it failed. |
| Dump.MySqlStages | dbd-agent/src/main.rs:64-83 | The sink receives exactly the accepted prefix of `MySqlProduction`. The data stage is spawned only after the schema stage exits 0 with all its frames accepted. |
| Dump.FollowSchema | dbd-agent/src/main.rs:72-82 | After the schema stage: a code other than 0 is sent as `Status` alone, and 0 runs the data stage; the data stage is spawned exactly in the second case. |
| Dump.DumpMySql | dbd-agent/src/main.rs:64-89 | The sink receives exactly the accepted prefix of `MySqlProduction`. What it received ends in one `Status` exactly when the task succeeded, and has none when it failed. |
| Dump.DumpTask | dbd-agent/src/main.rs:43-91 | The connection's kind chooses the task: Postgres delivers the accepted prefix of the `pg_dump` production, MySQL that of the two-stage production. Either way the reader sees a final `Status` exactly when the task succeeded. |
| Client.LookupAgent | dbd/src/main.rs:23-36 | An agent id needs a configuration, or the error is "no configuration provided", and the id must be listed, or the error is "no agent". Without an agent id, the connection id is looked up and may find nothing. |
| Client.ResolveAgent | dbd/src/main.rs:37-46 | A found agent has each field replaced by the option given for it. Without one, both options are required, or the error is "no URL provided" or "no api key provided". |
| Client.OptionsOverride | dbd/src/main.rs:32-46 | Without an agent id, a URL and a key given as options decide the agent whatever the configuration holds. |
| Client.DumpPath | dbd/src/main.rs:48-52 | For a slash-free connection id and database name, the path splits at `/` into `dump`, the connection id and the database name, empty when none is given. |
| Client.BuildRequest | dbd/src/main.rs:48-61 | The path is `DumpPath` of the options. When the connection id and database name survive URL joining unchanged, the agent routes it to that id and name, an empty name becoming none. The key header is the agent's key. The `exclude_table_data` pair is present exactly when the option is given. |
| Client.RouteParams | dbd-agent/src/main.rs:139-140 | A routed path yields a non-empty, slash-free connection id and, when present, database name. |
| Client.DumpPathRoute | dbd/src/main.rs:48-52 | For a connection id and database name that URL joining keeps unchanged (printable ASCII without `?`, `#`, `\`, `%` and the other escaped characters, and not `.` or `..`), the path the client builds is routed by the agent to that id and name. |
| Client.EmptyDbnameRoute | dbd/src/main.rs:51 | With a connection id that URL joining keeps unchanged, an empty database name reaches the agent as no database name. |
| Client.RequestAdmitted | dbd/src/main.rs:59-61 | The request passes the agent's gate exactly when the resolved key is the agent's key. |
| Client.StatusOutcome | dbd/src/main.rs:108-121 | `Some(0)` is success, `Some(c)` with c not 0 is an exit with c, and `None` is the "process interrupted" error. |
| Client.ExitCode | dbd/src/main.rs:119-126 | The client exits 0 exactly on success, on a stream that ended without `Status`, or on an explicit exit with 0. `process::exit(c)` exits with c, and an error returned from `main` exits with 1. |
| Client.HandledFrames | dbd/src/main.rs:95-102 | The frames the loop handles contain no `Status` and are no more than the items read. |
| Client.HandledPrefix | dbd/src/main.rs:95-102 | The handled frames are the leading intact output frames, each at its own position, and the item after them, if any, is an error or a `Status`. |
| Client.VerdictAtStop | dbd/src/main.rs:95-126 | The loop's outcome is decided by the item that stopped it: none gives `Ok`, an error item fails with its message, and a `Status` gives what its code says. |
| Client.Demux | dbd/src/main.rs:95-126 | Stdout payloads go out in order and `total` is their byte count. Stderr payloads go to the line printer in order. Nothing after the first error or `Status` is read, and the outcome is `Verdict`. |
| Client.Receive | dbd/src/main.rs:64-67 | A status other than 200 is an error carrying the body, and no frame is read. |
| Client.TerminatedReceived | dbd/src/main.rs:95-121 | For an intact complete stream, every output frame before the `Status` is handled, and the client ends as the `Status` says. |
| Client.TruncatedReceived | dbd/src/main.rs:95-126 | A stream that ends before any `Status` is handled in full and ends the client with exit code 0. |
| Client.PostgresReceived | dbd/src/main.rs:95-121 | End to end, the client writes exactly `pg_dump`'s stdout, passes exactly its stderr to the line printer, and ends as its code says. |
| Client.MySqlReceived | dbd/src/main.rs:95-121 | End to end, the client writes the schema dump followed by the data dump, and ends as the data stage's code says. |
| Registry.StatusBody | src/bin/agent.rs:95-100 | No code is the error "dump command <id> was interrupted". Otherwise the body is decimal text that parses back to the code. |
| Registry.State.constructor | src/state.rs:15-22 | Keeps the settings as given and starts with three empty tables. |
| Registry.State.Start | src/bin/agent.rs:37-82 | An unknown database is 404 "no database" and a spawn failure is an error; neither changes anything. Otherwise the child and its two pipes go under the fresh id in all three tables, other ids are untouched, and the body is the id's text. |
| Registry.State.ClaimStatus | src/bin/agent.rs:84-101 | An unparsable id is refused before any table is read. A missing entry is "no dump command <id>". Otherwise only that id leaves `commands` and the body is `StatusBody`. |
| Registry.State.ClaimStdout | src/bin/agent.rs:103-117 | As for status, on `stdouts` ("no dump stdout <id>"). The handle given is the started child's stdout. |
| Registry.State.ClaimStderr | src/bin/agent.rs:119-133 | As for status, on `stderrs` ("no dump stderr <id>"). The handle given is the started child's stderr. |
| Registry.State.Cleanup | src/bin/agent.rs:63-79 | Removes the id from all three tables, whether or not it was claimed, and nothing else. |
| Registry.StatusClaimedOnce | src/bin/agent.rs:84-101 | After a start, the first status claim answers with the code and a second is refused. The output handles are still there. |
| Auth.Gate | src/auth.rs:10-22 | Forwards exactly when the key header is present and equal to the key, and the response is then the route's. Otherwise the result is 401 "invalid api key". |
| Auth.ServerGate | src/auth.rs:10-22 | The polling server's gate, against `settings.api_key`. |
| Auth.AgentGate | dbd-agent/src/auth.rs:9-21 | The agent's gate, against the state's single `api_key`. |
| Auth.RefusalIgnoresRoute | src/auth.rs:16-18 | A refused request's response does not depend on the route, which never runs. |

## Left out

- Running processes is not modelled: spawning, waiting, pipes, the
  `io::copy` tasks and gzip compression itself. Launches and stage runs are
  parameters, and gzip output is the symbolic `Gzip(input)`.
- Concurrency is not modelled: `task::spawn`, the `duplex` buffers and
  their backpressure, and the Mutex locks. Every operation runs as one
  atomic step.
- The 5-second delay before the registry cleanup is not modelled. Cleanup
  is an explicit operation.
- The bincode byte layout of frames is not modelled. The model works on
  frame sequences.
- The capacity of the pipe behind the sink (`BUF_SIZE`,
  dbd-agent/src/main.rs:37) is not modelled. Buffering is not modelled either, and a reader that goes away
  is the sink's `limit`.
- UUID generation is not modelled. `Registry.State.Start` takes the fresh id
  as a parameter that is in none of the tables.
- HTTP serving and fetching are not modelled: tide, surf, URL joining and
  the `After` hooks that copy an error's text into the body. Errors are
  `HttpError(status, message)`. The request path is relative to the agent's
  URL.
- The polling client (src/main.rs) is not part of this model, except for
  its two parses (src/main.rs:47 and :104), modelled as the inverses of the
  registry's `to_string`s by `Uuids.UuidTextRoundTrip` and `Text.ParseI32`.
  Configuration loading, the option definitions, `command_exists` (dbd-agent/src/util.rs), the progress bar,
  colours and log formatting are not part of this model.
- Dump.Setup: a malformed query string, which `req.query()?` rejects, is
  not modelled.
- Client.Demux: write errors on standard output or the line printer, and a
  failure of the line-printing task, are not modelled.
- Client.ExitCode: `process::exit` passes the code to the operating system,
  which keeps only its low 8 bits on Unix. That truncation is not modelled.
- Registry.State.ClaimStatus: a failure of `status()` while waiting for the
  child is not modelled.
- Uuids.ParseUuid accepts only the hyphenated lowercase-or-uppercase
  36-character form. The other textual forms the `uuid` crate accepts are
  not modelled.
- Streams.ChildStream: chunk sizes (the readers' capacities, `BUF_SIZE`
  and 1024 bytes, dbd-agent/src/main.rs:114,117) are not modelled. A chunk is any byte string.
- Client.BuildRequest / Client.DumpPathRoute / Client.EmptyDbnameRoute:
  `Url::join` (dbd/src/main.rs:48-52) changes some ids on the way. A `?`
  or `#` ends the path, a `\` separates segments, tabs and newlines are
  dropped, spaces and other characters are percent-encoded, and `.` or
  `..` is resolved away. The routing round trip is stated only for ids and
  names free of these (`Client.UrlSegment`); for the others the agent may
  see a different id or path.
- Client.PostgresReceived: the line printer's own effect is not modelled:
  reading stderr by lines drops a `\r` before each newline, adds a final
  newline and fails on text that is not UTF-8 (dbd/src/main.rs:83-89).
- The source files come from different revisions and do not link together,
  so each file is modelled as written:
  - dbd-agent/src/main.rs imports `mysqldump_schema`, `mysqldump_data`,
    `BUF_SIZE` and `command_exists`, which dbd-agent/src/lib.rs does not
    export. Its two MySQL stages are modelled as the `StageRun` parameters
    of `Dump.DumpMySql`. Those stages run one after the other, while
    dbd-agent/src/commands.rs spawns both runs at once; `AgentCommands`
    models the latter.
  - dbd-agent/src/auth.rs reads a single `api_key`, while its settings
    declare `api_keys`. `Dump.AgentSettings` carries both.
  - dbd/src/main.rs reads `connection_id` and `dbname`, while dbd/src/opt.rs
    declares `database_id`. `Client.Options` follows main.rs.
  - src/bin/agent.rs destructures a `(child, stdout, stderr)` triple, while
    src/commands.rs returns one `Child`. `Registry.State.Start` stores the
    child and its two pipes.
  - dbd-agent/src/main.rs:45,48 calls `pg_dump(conn, dbname,
    exclude_table_data)` and then spawns the command it gets back, while
    dbd-agent/src/commands.rs:68-71 takes two arguments and spawns the
    process itself. So the `StageRun` of `Dump.DumpPostgres` is a parameter,
    not linked to `AgentCommands.PgDump`.
  - dbd-agent/src/commands.rs:1 imports `crate::Database`, which the agent's
    crate does not define; its settings declare `Connection`, whose
    `dbname` is optional (dbd-agent/src/settings.rs:16-22).
    `AgentCommands.Database` takes the database name as a plain string, the
    one `Dump.Setup` resolves.
- A response stream that ends before any `Status` frame makes the client
  return `Ok` (dbd/src/main.rs:126), although such a stream is an abnormal
  end. `Client.TruncatedReceived` states this.
  It is also what the client does after every agent task that failed, since
  such a task only logs its error.
- In src/commands.rs the child handed back for MySQL is gzip. The exit code
  the registry reports is therefore gzip's, not mysqldump's.
