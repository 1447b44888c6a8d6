/**
 * The agent's `dump` handler (dbd-agent/src/main.rs:19-111). It looks up the
 * connection and the database name, then starts a task that runs the dump
 * and writes frames into the sink whose reading side becomes the response
 * body. Postgres runs one stage; MySQL runs a schema stage and, only when
 * that exits with code 0, a data stage. Each stage is: spawn, send every
 * merged output frame, wait for the exit code. The task ends with one
 * `Status` frame, or early, without one, when a spawn, a read from the
 * child's pipes, a wait or a send fails (the error is only logged).
 *
 * The frames a run produces are first given as functions of the stages'
 * outcomes (`PostgresProduction`, `MySqlProduction`), whose properties are
 * lemmas; the methods `DumpPostgres` and `DumpMySql` drive a sink step by
 * step and are proved to deliver exactly what those functions say, cut
 * short where the reader goes away, and `DumpTask` picks one of them by
 * the connection's kind.
 */
module Dump {
  import opened Wrappers
  import opened Frames
  import opened Streams
  import opened Sinks
  import opened Process
  import opened Http
  import DumpQuery

  // ---------------------------------------------------------------------
  // Request setup

  /** A configured connection (dbd-agent/src/settings.rs:16-23). */
  datatype Connection = Connection(
    kind: Engine,
    host: string,
    port: Port,
    username: string,
    password: string,
    dbname: Option<string>)

  /**
   * The agent's shared state. `apiKey` is the single key the access gate
   * compares against; `apiKeys` maps keys to user names for the log line.
   */
  datatype AgentSettings = AgentSettings(
    apiKey: string,
    apiKeys: map<string, string>,
    connections: map<string, Connection>)

  /** What the dump task is started with. */
  datatype DumpPlan = DumpPlan(connection: Connection, dbname: string, excludeTableData: Option<seq<string>>)

  /**
   * Lines 20-35: an unknown connection id and a missing database name are
   * both 404 errors, and then nothing is started; the path's database name
   * wins over the configured one.
   */
  function Setup(settings: AgentSettings, connId: string, dbnameParam: Option<string>, exclude: Option<string>)
    : (r: Result<DumpPlan, HttpError>)
    ensures connId !in settings.connections ==>
      r == Failure(HttpError(StatusNotFound, "no database connection " + connId))
    ensures connId in settings.connections ==> var conn := settings.connections[connId];
      && (dbnameParam.None? && conn.dbname.None? ==> r == Failure(HttpError(StatusNotFound, "no database name provided")))
      && (dbnameParam.Some? ==> r.Success? && r.value.dbname == dbnameParam.value)
      && (dbnameParam.None? && conn.dbname.Some? ==> r.Success? && r.value.dbname == conn.dbname.value)
    ensures r.Success? ==>
      && r.value.connection == settings.connections[connId]
      && r.value.excludeTableData == DumpQuery.Deserialize(exclude)
  {
    if connId !in settings.connections then
      Failure(HttpError(StatusNotFound, "no database connection " + connId))
    else
      var conn := settings.connections[connId];
      var dbname := if dbnameParam.Some? then dbnameParam else conn.dbname;
      if dbname.None? then Failure(HttpError(StatusNotFound, "no database name provided"))
      else Success(DumpPlan(conn, dbname.value, DumpQuery.Deserialize(exclude)))
  }

  /**
   * Lines 93-105, run after the dump task was started: the user named by the
   * request's key, or an error response when the header is missing or the
   * key is not listed. The task keeps running either way.
   */
  function StartedBy(settings: AgentSettings, apiKeyHeader: Option<string>): (r: Result<string, HttpError>)
    ensures r.Success? <==> apiKeyHeader.Some? && apiKeyHeader.value in settings.apiKeys
    ensures r.Success? ==> r.value == settings.apiKeys[apiKeyHeader.value]
    ensures apiKeyHeader.None? ==> r == Failure(HttpError(StatusInternalServerError, "No api key is provided"))
    ensures apiKeyHeader.Some? && apiKeyHeader.value !in settings.apiKeys ==>
      r == Failure(HttpError(StatusInternalServerError, "Invalid api key"))
  {
    match apiKeyHeader
    case None => Failure(HttpError(StatusInternalServerError, "No api key is provided"))
    case Some(key) =>
      if key in settings.apiKeys then Success(settings.apiKeys[key])
      else Failure(HttpError(StatusInternalServerError, "Invalid api key"))
  }

  /**
   * The handler's outcome: refused before anything started, or a started
   * task and the key check that follows it. A successful check only names
   * the user for the log, and the response is then the frame stream; a
   * failed one is the error response, the stream's reading side is dropped,
   * and the task finds its sink closed (a `limit` of `Some(0)`).
   */
  datatype HandlerOutcome =
    | Refused(error: HttpError)
    | Started(plan: DumpPlan, keyCheck: Result<string, HttpError>)

  function Handle(settings: AgentSettings, connId: string, dbnameParam: Option<string>, exclude: Option<string>,
                  apiKeyHeader: Option<string>): (h: HandlerOutcome)
    ensures h.Refused? <==> Setup(settings, connId, dbnameParam, exclude).Failure?
    ensures h.Started? ==> Setup(settings, connId, dbnameParam, exclude) == Success(h.plan)
    ensures h.Started? ==> h.keyCheck == StartedBy(settings, apiKeyHeader)
  {
    match Setup(settings, connId, dbnameParam, exclude)
    case Failure(e) => Refused(e)
    case Success(plan) => Started(plan, StartedBy(settings, apiKeyHeader))
  }

  // ---------------------------------------------------------------------
  // Stages and the frames they produce

  /** How waiting for a child ends: its exit code (absent when killed), or an error from `wait`. */
  datatype Exit = Exited(code: Option<Int32>) | WaitFailed

  /**
   * One stage: it fails to spawn, or the merge of its two pipes yields the
   * chunks `out` and `err` in the order `pick` gives. When `readFailed`
   * holds, the merge then yields a read error (lines 114-120): the chunks are
   * those read before it, nothing after it is taken, and the child is never
   * waited for. Otherwise waiting for it ends as `exit` says.
   */
  datatype StageRun =
    | SpawnFailed
    | Ran(out: seq<Bytes>, err: seq<Bytes>, pick: seq<bool>, readFailed: bool, exit: Exit)

  /** Why a dump task ended without sending `Status`. */
  datatype TaskFailure = SpawnError(message: string) | ReadError | WaitError | SinkError

  /** How one stage ends once its frames are sent: an exit code, or a failure. */
  datatype StageEnd = Finished(code: Option<Int32>) | Aborted(failure: TaskFailure)

  /** The frames a dump sends to a reader that never goes away, and the failure that ended it early, if any. */
  datatype Production = Production(frames: seq<Frame>, failure: Option<TaskFailure>)

  /**
   * A production ends in exactly one `Status`, its last frame, when nothing
   * failed, and holds no `Status` at all when something did.
   */
  predicate WellEnded(p: Production)
  {
    && (p.failure.None? <==> Terminated(p.frames))
    && (p.failure.Some? ==> NoStatus(p.frames))
  }

  function StageFrames(stage: StageRun): seq<Frame>
  {
    if stage.SpawnFailed? then [] else ChildStream(stage.out, stage.err, stage.pick)
  }

  /** Lines 48-50: the spawn error names the program; a read error comes before the wait. */
  function StageEndOf(stage: StageRun, program: string): StageEnd
  {
    if stage.SpawnFailed? then Aborted(SpawnError("failed to spawn " + program))
    else if stage.readFailed then Aborted(ReadError)
    else if stage.exit.WaitFailed? then Aborted(WaitError)
    else Finished(stage.exit.code)
  }

  lemma StageFramesNoStatus(stage: StageRun)
    ensures NoStatus(StageFrames(stage))
  {
    if stage.Ran? {
      ChildStreamChannels(stage.out, stage.err, stage.pick);
    }
  }

  lemma TerminatedAppend(fs: seq<Frame>, code: Option<Int32>)
    requires NoStatus(fs)
    ensures Terminated(fs + [Status(code)])
  {
    assert (fs + [Status(code)])[..|fs|] == fs;
  }

  /** Output frames in front of a well-ended production leave it well ended. */
  lemma PrefixedWellEnded(a: seq<Frame>, p: Production)
    requires NoStatus(a) && WellEnded(p)
    ensures WellEnded(Production(a + p.frames, p.failure))
  {
    var fs := a + p.frames;
    if p.failure.None? {
      var body := p.frames[..|p.frames| - 1];
      assert fs[..|fs| - 1] == a + body;
      NoStatusAppend(a, body);
    } else {
      NoStatusAppend(a, p.frames);
      if |fs| > 0 {
        assert !fs[|fs| - 1].Status?;
      }
    }
  }

  /**
   * One stage run to the end of the task (lines 48-51 and 76-82): its frames,
   * then `Status` with its exit code; or its frames only, when it failed.
   */
  function StageProduction(stage: StageRun, program: string): Production
  {
    var fs := StageFrames(stage);
    match StageEndOf(stage, program)
    case Aborted(f) => Production(fs, Some(f))
    case Finished(code) => Production(fs + [Status(code)], None)
  }

  /** Postgres (lines 47-52): the `pg_dump` stage. */
  function PostgresProduction(stage: StageRun): Production
  {
    StageProduction(stage, "pg_dump")
  }

  /** The schema stage passes the turn to the data stage only with exit code 0 (line 72). */
  predicate Continues(code: Option<Int32>)
  {
    code == Some(0)
  }

  /** What follows a schema stage that exited with `code`: that code alone, or the data stage. */
  function AfterSchema(code: Option<Int32>, data: StageRun): Production
  {
    if Continues(code) then StageProduction(data, "mysqldump")
    else Production([Status(code)], None)
  }

  /** MySQL (lines 64-83): the schema stage's frames, then what follows it. */
  function MySqlProduction(schema: StageRun, data: StageRun): Production
  {
    var sf := StageFrames(schema);
    match StageEndOf(schema, "mysqldump")
    case Aborted(f) => Production(sf, Some(f))
    case Finished(code) =>
      var rest := AfterSchema(code, data);
      Production(sf + rest.frames, rest.failure)
  }

  /**
   * A stage run to the end of the task is well ended, and it succeeds
   * exactly when the stage was spawned, read without error and waited for.
   */
  lemma StageProductionEnds(stage: StageRun, program: string)
    ensures var p := StageProduction(stage, program);
      && WellEnded(p)
      && (p.failure.None? <==> stage.Ran? && !stage.readFailed && stage.exit.Exited?)
  {
    var fs := StageFrames(stage);
    StageFramesNoStatus(stage);
    match StageEndOf(stage, program)
    case Aborted(f) =>
      assert |fs| > 0 ==> !fs[|fs| - 1].Status?;
    case Finished(code) =>
      TerminatedAppend(fs, code);
  }

  lemma AfterSchemaWellEnded(code: Option<Int32>, data: StageRun)
    ensures WellEnded(AfterSchema(code, data))
  {
    if Continues(code) {
      StageProductionEnds(data, "mysqldump");
    } else {
      TerminatedAppend([], code);
      assert [] + [Status(code)] == [Status(code)];
    }
  }

  /**
   * A Postgres dump is well ended. When it succeeds, `pg_dump` ran to its
   * exit: the `Status` carries that exit code and is preceded by all of the
   * stage's output, each channel in order.
   */
  lemma PostgresShape(stage: StageRun)
    ensures var p := PostgresProduction(stage);
      && WellEnded(p)
      && (p.failure.None? ==>
            && stage.Ran? && !stage.readFailed && stage.exit.Exited?
            && p.frames[|p.frames| - 1] == Status(stage.exit.code)
            && Stdouts(p.frames[..|p.frames| - 1]) == stage.out
            && Stderrs(p.frames[..|p.frames| - 1]) == stage.err)
  {
    var p := PostgresProduction(stage);
    StageProductionEnds(stage, "pg_dump");
    if p.failure.None? {
      assert p.frames[..|p.frames| - 1] == StageFrames(stage);
      ChildStreamChannels(stage.out, stage.err, stage.pick);
    }
  }

  /**
   * A MySQL dump is well ended, and it succeeds only when every stage it
   * ran was spawned, read without error and waited for.
   */
  lemma MySqlTerminates(schema: StageRun, data: StageRun)
    ensures var p := MySqlProduction(schema, data);
      && WellEnded(p)
      && (p.failure.None? ==> schema.Ran? && !schema.readFailed && schema.exit.Exited?)
      && (p.failure.None? && Continues(schema.exit.code) ==> data.Ran? && !data.readFailed && data.exit.Exited?)
  {
    var sf := StageFrames(schema);
    StageFramesNoStatus(schema);
    match StageEndOf(schema, "mysqldump")
    case Aborted(f) =>
      assert |sf| > 0 ==> !sf[|sf| - 1].Status?;
    case Finished(code) =>
      AfterSchemaWellEnded(code, data);
      PrefixedWellEnded(sf, AfterSchema(code, data));
      if Continues(code) {
        StageProductionEnds(data, "mysqldump");
      }
  }

  /**
   * Short circuit: when the schema stage exits with no code or a nonzero one,
   * the dump is its frames and `Status` with that code, whatever the data
   * stage would have done: the data stage plays no part.
   */
  lemma MySqlShortCircuit(schema: StageRun, data1: StageRun, data2: StageRun)
    requires schema.Ran? && !schema.readFailed && schema.exit.Exited? && schema.exit.code != Some(0)
    ensures MySqlProduction(schema, data1) == MySqlProduction(schema, data2)
    ensures MySqlProduction(schema, data1) == Production(StageFrames(schema) + [Status(schema.exit.code)], None)
  {
  }

  /**
   * MySQL success path: the first frames are exactly the schema stage's
   * output, the frames after them up to the `Status` are exactly the data
   * stage's output, and the `Status` carries the data stage's code. So
   * every schema frame precedes every data frame.
   */
  lemma MySqlStagesInOrder(schema: StageRun, data: StageRun)
    requires MySqlProduction(schema, data).failure.None?
    requires schema.Ran? && schema.exit == Exited(Some(0))
    ensures var fs := MySqlProduction(schema, data).frames;
      var k := |schema.out| + |schema.err|;
      && data.Ran? && data.exit.Exited?
      && k < |fs|
      && Stdouts(fs[..k]) == schema.out && Stderrs(fs[..k]) == schema.err
      && Stdouts(fs[k..|fs| - 1]) == data.out && Stderrs(fs[k..|fs| - 1]) == data.err
      && fs[|fs| - 1] == Status(data.exit.code)
  {
    var fs := MySqlProduction(schema, data).frames;
    var sf, df := StageFrames(schema), StageFrames(data);
    ChildStreamChannels(schema.out, schema.err, schema.pick);
    ChildStreamChannels(data.out, data.err, data.pick);
    assert fs == sf + df + [Status(data.exit.code)];
    assert fs[..|sf|] == sf;
    assert fs[|sf|..|fs| - 1] == df;
  }

  /** What a task ends with once `delivered` frames of its production were accepted. */
  function TaskResult(p: Production, delivered: nat): Result<(), TaskFailure>
  {
    if delivered < |p.frames| then Failure(SinkError)
    else if p.failure.Some? then Failure(p.failure.value)
    else Success(())
  }

  /**
   * What the reader received agrees with the task's result: one final
   * `Status` exactly when the task succeeded, and no `Status` at all when
   * it failed.
   */
  predicate Reports(r: Result<(), TaskFailure>, received: seq<Frame>)
  {
    && (r.Success? <==> Terminated(received))
    && (r.Failure? ==> NoStatus(received))
  }

  /** Every accepted prefix of a well-ended production agrees with the task's result. */
  lemma DeliveredReports(p: Production, n: nat)
    requires WellEnded(p) && n <= |p.frames|
    ensures Reports(TaskResult(p, n), p.frames[..n])
  {
    var fs := p.frames[..n];
    if n < |p.frames| {
      if p.failure.None? {
        var body := p.frames[..|p.frames| - 1];
        forall i | 0 <= i < n ensures !fs[i].Status? {
          assert fs[i] == body[i];
        }
      }
      assert |fs| > 0 ==> !fs[|fs| - 1].Status?;
    } else {
      assert fs == p.frames;
    }
  }

  /** A sink that received an accepted prefix of a well-ended production agrees with the task's result. */
  lemma SinkReports(p: Production, before: seq<Frame>, after: seq<Frame>, n: nat)
    requires WellEnded(p) && n <= |p.frames|
    requires after == before + p.frames[..n]
    ensures Reports(TaskResult(p, n), after[|before|..])
  {
    DeliveredReports(p, n);
    assert after[|before|..] == p.frames[..n];
  }

  // ---------------------------------------------------------------------
  // The task, step by step

  /** One stage: spawn it, send all its merged frames, then wait for its exit code. */
  method RunStage(stage: StageRun, program: string, sink: FrameSink) returns (e: StageEnd)
    modifies sink
    ensures var fs := StageFrames(stage); var n := Fit(fs, |old(sink.sent)|, sink.limit);
      && sink.sent == old(sink.sent) + fs[..n]
      && e == if n < |fs| then Aborted(SinkError) else StageEndOf(stage, program)
  {
    match stage
    case SpawnFailed =>
      e := Aborted(SpawnError("failed to spawn " + program));
    case Ran(out, err, pick, readFailed, exit) =>
      var ok := sink.SendAll(ChildStream(out, err, pick));
      if !ok {
        return Aborted(SinkError);
      }
      if readFailed {
        return Aborted(ReadError);
      }
      match exit
      case WaitFailed =>
        e := Aborted(WaitError);
      case Exited(code) =>
        e := Finished(code);
  }

  /** A stage run to the end of the task: the sink receives what `StageProduction` says, as far as the reader takes it. */
  method FinishStage(stage: StageRun, program: string, sink: FrameSink) returns (r: Result<(), TaskFailure>)
    modifies sink
    ensures var p := StageProduction(stage, program); var n := Fit(p.frames, |old(sink.sent)|, sink.limit);
      && sink.sent == old(sink.sent) + p.frames[..n]
      && r == TaskResult(p, n)
  {
    ghost var before := |sink.sent|;
    ghost var fs := StageFrames(stage);
    var e := RunStage(stage, program, sink);
    match e
    case Aborted(f) =>
      FitAppend(fs, StageProduction(stage, program).frames[|fs|..], before, sink.limit);
      assert fs + StageProduction(stage, program).frames[|fs|..] == StageProduction(stage, program).frames;
      r := Failure(f);
    case Finished(code) =>
      FitAppend(fs, [Status(code)], before, sink.limit);
      assert fs[..|fs|] == fs;
      var ok := sink.Send(Status(code));
      r := if ok then Success(()) else Failure(SinkError);
  }

  /**
   * The Postgres task: the sink receives exactly the frames of
   * `PostgresProduction` that the reader takes, and the task's result says
   * why it stopped; so the reader sees a final `Status` exactly when the
   * task succeeds.
   */
  method DumpPostgres(stage: StageRun, sink: FrameSink) returns (r: Result<(), TaskFailure>)
    modifies sink
    ensures var p := PostgresProduction(stage); var n := Fit(p.frames, |old(sink.sent)|, sink.limit);
      && sink.sent == old(sink.sent) + p.frames[..n]
      && r == TaskResult(p, n)
    ensures Reports(r, sink.sent[|old(sink.sent)|..])
  {
    ghost var before := sink.sent;
    r := FinishStage(stage, "pg_dump", sink);
    ghost var p := PostgresProduction(stage);
    PostgresShape(stage);
    SinkReports(p, before, sink.sent, Fit(p.frames, |before|, sink.limit));
  }

  /**
   * The MySQL stages, step by step: the sink receives exactly the frames of
   * `MySqlProduction` that the reader takes. `dataSpawned` tells whether the
   * data stage was started: only when the schema stage was spawned, all its
   * frames were accepted and it exited with code 0.
   */
  method MySqlStages(schema: StageRun, data: StageRun, sink: FrameSink) returns (r: Result<(), TaskFailure>, dataSpawned: bool)
    modifies sink
    ensures var p := MySqlProduction(schema, data); var n := Fit(p.frames, |old(sink.sent)|, sink.limit);
      && sink.sent == old(sink.sent) + p.frames[..n]
      && r == TaskResult(p, n)
    ensures dataSpawned <==>
      && StageEndOf(schema, "mysqldump") == Finished(Some(0))
      && Fit(StageFrames(schema), |old(sink.sent)|, sink.limit) == |StageFrames(schema)|
      && data.Ran?
  {
    ghost var start := sink.sent;
    ghost var sf := StageFrames(schema);
    var e := RunStage(schema, "mysqldump", sink);
    MySqlSchemaEnd(schema, data, |start|, sink.limit, e);
    if e.Aborted? {
      r, dataSpawned := Failure(e.failure), false;
    } else {
      ghost var rest := AfterSchema(e.code, data);
      assert sink.sent == start + sf;
      r, dataSpawned := FollowSchema(e.code, data, sink);
      ghost var k := Fit(rest.frames, |start| + |sf|, sink.limit);
      assert sink.sent == start + (sf + rest.frames[..k]);
    }
  }

  /**
   * How a MySQL dump goes on from the end `e` of its schema stage. A schema
   * stage cut short by the reader, or failed, is all the reader gets, and
   * the task ends as that stage did. Otherwise the reader gets all of it
   * and then what fits of `AfterSchema`, which also decides the task's
   * result; the data stage is spawned exactly when the code is 0 and the
   * stage can be spawned.
   */
  lemma MySqlSchemaEnd(schema: StageRun, data: StageRun, before: nat, limit: Option<nat>, e: StageEnd)
    requires var sf := StageFrames(schema); var m := Fit(sf, before, limit);
      e == if m < |sf| then Aborted(SinkError) else StageEndOf(schema, "mysqldump")
    ensures var p := MySqlProduction(schema, data); var sf := StageFrames(schema);
      var m := Fit(sf, before, limit); var n := Fit(p.frames, before, limit);
      && (e.Aborted? ==> p.frames[..n] == sf[..m] && TaskResult(p, n) == Failure(e.failure))
      && (e.Finished? ==>
            var rest := AfterSchema(e.code, data); var k := Fit(rest.frames, before + |sf|, limit);
            && sf[..m] == sf
            && p.frames[..n] == sf + rest.frames[..k]
            && TaskResult(p, n) == TaskResult(rest, k))
      && ((StageEndOf(schema, "mysqldump") == Finished(Some(0)) && m == |sf| && data.Ran?) <==>
          (e.Finished? && Continues(e.code) && data.Ran?))
  {
    var p := MySqlProduction(schema, data);
    var sf := StageFrames(schema);
    FitAppend(sf, p.frames[|sf|..], before, limit);
    assert sf + p.frames[|sf|..] == p.frames;
    assert sf[..|sf|] == sf;
  }

  /** What the MySQL task does once the schema stage exited with `code` (lines 72-82). */
  method FollowSchema(code: Option<Int32>, data: StageRun, sink: FrameSink) returns (r: Result<(), TaskFailure>, dataSpawned: bool)
    modifies sink
    ensures var p := AfterSchema(code, data); var n := Fit(p.frames, |old(sink.sent)|, sink.limit);
      && sink.sent == old(sink.sent) + p.frames[..n]
      && r == TaskResult(p, n)
    ensures dataSpawned <==> Continues(code) && data.Ran?
  {
    if !Continues(code) {
      var ok := sink.Send(Status(code));
      r := if ok then Success(()) else Failure(SinkError);
      dataSpawned := false;
    } else {
      dataSpawned := data.Ran?;
      r := FinishStage(data, "mysqldump", sink);
    }
  }

  /**
   * The MySQL task: the sink receives exactly the frames of `MySqlProduction`
   * that the reader takes, and the reader sees a final `Status` exactly when
   * the task succeeds.
   */
  method DumpMySql(schema: StageRun, data: StageRun, sink: FrameSink) returns (r: Result<(), TaskFailure>)
    modifies sink
    ensures var p := MySqlProduction(schema, data); var n := Fit(p.frames, |old(sink.sent)|, sink.limit);
      && sink.sent == old(sink.sent) + p.frames[..n]
      && r == TaskResult(p, n)
    ensures Reports(r, sink.sent[|old(sink.sent)|..])
  {
    ghost var before := sink.sent;
    var dataSpawned;
    r, dataSpawned := MySqlStages(schema, data, sink);
    ghost var p := MySqlProduction(schema, data);
    MySqlTerminates(schema, data);
    SinkReports(p, before, sink.sent, Fit(p.frames, |before|, sink.limit));
  }

  /**
   * The task the handler starts for a plan (lines 43-91): the connection's
   * kind chooses the Postgres task or the MySQL one, and the reader sees a
   * final `Status` exactly when that task succeeds. The outcomes of the
   * stages are parameters; a task's `StageRun`s of the other kind play no
   * part.
   */
  method DumpTask(plan: DumpPlan, pg: StageRun, schema: StageRun, data: StageRun, sink: FrameSink)
    returns (r: Result<(), TaskFailure>)
    modifies sink
    ensures var p := if plan.connection.kind.Postgres? then PostgresProduction(pg) else MySqlProduction(schema, data);
      var n := Fit(p.frames, |old(sink.sent)|, sink.limit);
      && sink.sent == old(sink.sent) + p.frames[..n]
      && r == TaskResult(p, n)
    ensures Reports(r, sink.sent[|old(sink.sent)|..])
  {
    match plan.connection.kind
    case Postgres =>
      r := DumpPostgres(pg, sink);
    case MySql =>
      r := DumpMySql(schema, data, sink);
  }
}
