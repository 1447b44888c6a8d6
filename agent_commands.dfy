/**
 * The agent's dump commands (dbd-agent/src/commands.rs). MySQL: a schema-only
 * `mysqldump` and a data-only `mysqldump`, both started at once, whose
 * standard outputs are chained into gzip's input and whose standard errors
 * are chained into one diagnostic stream. Postgres: one `pg_dump` that
 * compresses by itself and gets its password from the environment.
 */
module AgentCommands {
  import opened Wrappers
  import opened Frames
  import opened Process
  import Text

  /** The fields of a configured database the commands read. */
  datatype Database = Database(host: string, port: Port, username: string, password: string, dbname: string)

  /** The ten arguments both `mysqldump` runs share, in order. */
  function MySqlArgs(db: Database): seq<string>
  {
    ["-h", db.host, "-P", Text.NatText(db.port), "-u", db.username, "-p" + db.password, "-v", db.dbname,
     "--single-transaction"]
  }

  /** Argument list of the schema-only run. */
  function SchemaArgv(db: Database): seq<string>
  {
    MySqlArgs(db) + ["--no-data"]
  }

  /** Argument list of the data-only run: the ignored tables first, then the shared arguments. */
  function DataArgv(db: Database, tables: seq<string>): seq<string>
  {
    FlagPairs("--ignore-table", Qualified(db.dbname, tables)) + MySqlArgs(db) + ["--no-create-info"]
  }

  /** The eleven fixed `pg_dump` arguments, in order. */
  function PgDumpFixedArgs(db: Database): seq<string>
  {
    ["-d", db.dbname, "-h", db.host, "-p", Text.NatText(db.port), "-U", db.username, "-v", "-Z", "9"]
  }

  function PgDumpArgv(db: Database, tables: seq<string>): seq<string>
  {
    PgDumpFixedArgs(db) + FlagPairs("--exclude-table-data", tables)
  }

  function Tables(exclude: Option<seq<string>>): seq<string>
  {
    exclude.GetOr([])
  }

  /**
   * `mysqldump`: spawns the schema run, the data run and gzip, in that order.
   * The first spawn that fails ends it with an error and no handles. On
   * success the child is gzip, its output is the compression of the schema
   * output followed by the data output, and the diagnostic stream is the
   * schema run's standard error followed by the data run's.
   * `started` lists the processes that did start.
   */
  method MySqlDump(db: Database, exclude: Option<seq<string>>, schemaRun: Launch, dataRun: Launch, gzipRun: Launch)
    returns (r: Result<Child, string>, started: seq<Invocation>)
    ensures var schema := Invocation("mysqldump", SchemaArgv(db), map[]);
      var data := Invocation("mysqldump", DataArgv(db, Tables(exclude)), map[]);
      var gzip := Invocation("gzip", [], map[]);
      && (r.Success? <==> schemaRun.Launched? && dataRun.Launched? && gzipRun.Launched?)
      && (schemaRun.LaunchFailed? ==> r == Failure("failed to run mysqldump") && started == [])
      && (schemaRun.Launched? && dataRun.LaunchFailed? ==>
            r == Failure("failed to run mysqldump") && started == [schema])
      && (schemaRun.Launched? && dataRun.Launched? && gzipRun.LaunchFailed? ==>
            r == Failure("failed to run gzip") && started == [schema, data])
      && (r.Success? ==>
            && started == [schema, data, gzip]
            && r.value == Child(gzip, Gzip(schemaRun.stdout + dataRun.stdout),
                                schemaRun.stderr + dataRun.stderr, gzipRun.exit))
  {
    var schemaCmd := new Command("mysqldump");
    schemaCmd.Args(MySqlArgs(db));
    schemaCmd.Args(["--no-data"]);
    var schemaInv := schemaCmd.AsInvocation();
    assert schemaInv.args == SchemaArgv(db);
    var schema := Spawn(schemaCmd, schemaRun);
    if schema.None? {
      return Failure("failed to run mysqldump"), [];
    }
    started := [schemaInv];

    var dataCmd := new Command("mysqldump");
    if exclude.Some? {
      AddFlagPairs(dataCmd, "--ignore-table", Qualified(db.dbname, exclude.value));
    }
    dataCmd.Args(MySqlArgs(db));
    dataCmd.Args(["--no-create-info"]);
    var dataInv := dataCmd.AsInvocation();
    assert dataInv.args == DataArgv(db, Tables(exclude));
    var data := Spawn(dataCmd, dataRun);
    if data.None? {
      return Failure("failed to run mysqldump"), started;
    }
    started := started + [dataInv];

    var gzipCmd := new Command("gzip");
    var gzipInv := gzipCmd.AsInvocation();
    var gzip := Spawn(gzipCmd, gzipRun);
    if gzip.None? {
      return Failure("failed to run gzip"), started;
    }
    started := started + [gzipInv];

    // gzip's input is fed from the chained standard outputs; its own output is returned.
    var input := schema.value.stdout.bytes + data.value.stdout.bytes;
    var stderr := schema.value.stderr + data.value.stderr;
    r := Success(Child(gzipInv, Gzip(input), stderr, gzip.value.exit));
  }

  /**
   * `pg_dump`: the fixed arguments, then one `--exclude-table-data` pair per
   * table, and the password in `PGPASSWORD`; a failed spawn is an error.
   */
  method PgDump(db: Database, exclude: Option<seq<string>>, run: Launch) returns (r: Result<Child, string>)
    ensures run.LaunchFailed? <==> r.Failure?
    ensures r.Failure? ==> r.error == "failed to run pg_dump"
    ensures r.Success? ==> r.value == Child(
      Invocation("pg_dump", PgDumpArgv(db, Tables(exclude)), map["PGPASSWORD" := db.password]),
      Raw(run.stdout), run.stderr, run.exit)
  {
    var cmd := new Command("pg_dump");
    cmd.Args(PgDumpFixedArgs(db));
    if exclude.Some? {
      AddFlagPairs(cmd, "--exclude-table-data", exclude.value);
    }
    cmd.Env("PGPASSWORD", db.password);
    var child := Spawn(cmd, run);
    if child.None? {
      return Failure("failed to run pg_dump");
    }
    r := Success(child.value);
  }

  /** The data run's arguments: a `--ignore-table db.table` pair per table in order, then the shared ten, then `--no-create-info`. */
  lemma DataArgvShape(db: Database, tables: seq<string>)
    ensures var argv := DataArgv(db, tables); var n := |tables|;
      && |argv| == 2 * n + 11
      && (forall i :: 0 <= i < n ==> argv[2 * i] == "--ignore-table" && argv[2 * i + 1] == db.dbname + "." + tables[i])
      && argv[2 * n..2 * n + 10] == MySqlArgs(db)
      && argv[2 * n + 10] == "--no-create-info"
  {
    FlagPairsAt("--ignore-table", Qualified(db.dbname, tables));
    var pairs := FlagPairs("--ignore-table", Qualified(db.dbname, tables));
    assert DataArgv(db, tables) == pairs + (MySqlArgs(db) + ["--no-create-info"]);
  }

  /** `pg_dump`'s arguments: eleven fixed items, then two per excluded table, and nothing taken from the password. */
  lemma PgDumpArgvShape(db: Database, tables: seq<string>, password: string)
    ensures var argv := PgDumpArgv(db, tables);
      && |argv| == 11 + 2 * |tables|
      && argv[..11] == PgDumpFixedArgs(db)
      && (forall i :: 0 <= i < |tables| ==> argv[11 + 2 * i] == "--exclude-table-data" && argv[11 + 2 * i + 1] == tables[i])
      && PgDumpArgv(db.(password := password), tables) == argv
  {
    FlagPairsAt("--exclude-table-data", tables);
  }
}
