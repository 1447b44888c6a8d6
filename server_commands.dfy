/**
 * The polling server's dump commands (src/commands.rs). MySQL: one
 * `mysqldump` whose standard output feeds gzip; the child handed back is
 * gzip, with its standard error replaced by mysqldump's. Postgres: one
 * `pg_dump` with the password in the environment. In both, the tables whose
 * data is left out come from the database record itself.
 */
module ServerCommands {
  import opened Wrappers
  import opened Frames
  import opened Process
  import Text

  /** A configured database (src/settings.rs:16-24). */
  datatype Database = Database(
    connection: Engine,
    host: string,
    port: Port,
    dbname: string,
    username: string,
    password: string,
    excludeTableData: Option<seq<string>>)

  /** The ten fixed `mysqldump` arguments, in order. */
  function MySqlArgs(db: Database): seq<string>
  {
    ["-h", db.host, "-P", Text.NatText(db.port), "-u", db.username, "-p" + db.password, "-v", db.dbname,
     "--single-transaction"]
  }

  function MySqlArgv(db: Database): seq<string>
  {
    MySqlArgs(db) + FlagPairs("--ignore-table-data", Qualified(db.dbname, db.excludeTableData.GetOr([])))
  }

  /** The eleven fixed `pg_dump` arguments, in order. */
  function PgDumpFixedArgs(db: Database): seq<string>
  {
    ["-d", db.dbname, "-h", db.host, "-p", Text.NatText(db.port), "-U", db.username, "-v", "-Z", "9"]
  }

  function PgDumpArgv(db: Database): seq<string>
  {
    PgDumpFixedArgs(db) + FlagPairs("--exclude-table-data", db.excludeTableData.GetOr([]))
  }

  /**
   * `mysqldump`: spawns mysqldump, then gzip; either failure is an error. The
   * child returned is gzip: it compresses mysqldump's output, carries
   * mysqldump's standard error in place of its own, and its exit code is
   * gzip's.
   */
  method MySqlDump(db: Database, dumpRun: Launch, gzipRun: Launch)
    returns (r: Result<Child, string>, started: seq<Invocation>)
    ensures var dump := Invocation("mysqldump", MySqlArgv(db), map[]);
      var gzip := Invocation("gzip", [], map[]);
      && (r.Success? <==> dumpRun.Launched? && gzipRun.Launched?)
      && (dumpRun.LaunchFailed? ==> r == Failure("failed to run mysqldump") && started == [])
      && (dumpRun.Launched? && gzipRun.LaunchFailed? ==> r == Failure("failed to run gzip") && started == [dump])
      && (r.Success? ==>
            && started == [dump, gzip]
            && r.value == Child(gzip, Gzip(dumpRun.stdout), dumpRun.stderr, gzipRun.exit))
  {
    var cmd := new Command("mysqldump");
    cmd.Args(MySqlArgs(db));
    if db.excludeTableData.Some? {
      AddFlagPairs(cmd, "--ignore-table-data", Qualified(db.dbname, db.excludeTableData.value));
    }
    var dumpInv := cmd.AsInvocation();
    assert dumpInv.args == MySqlArgv(db);
    var mysqldump := Spawn(cmd, dumpRun);
    if mysqldump.None? {
      return Failure("failed to run mysqldump"), [];
    }
    started := [dumpInv];
    var gzipCmd := new Command("gzip");
    var gzipInv := gzipCmd.AsInvocation();
    var gzip := Spawn(gzipCmd, gzipRun);
    if gzip.None? {
      return Failure("failed to run gzip"), started;
    }
    started := started + [gzipInv];
    var child := gzip.value;
    // gzip.stderr = mysqldump.stderr, and gzip's stdin is fed from mysqldump's stdout
    child := child.(stderr := mysqldump.value.stderr, stdout := Gzip(mysqldump.value.stdout.bytes));
    r := Success(child);
  }

  /** `pg_dump`: the fixed arguments, one `--exclude-table-data` pair per table, the password in `PGPASSWORD`. */
  method PgDump(db: Database, run: Launch) returns (r: Result<Child, string>)
    ensures run.LaunchFailed? <==> r.Failure?
    ensures r.Failure? ==> r.error == "failed to run pg_dump"
    ensures r.Success? ==> r.value == Child(
      Invocation("pg_dump", PgDumpArgv(db), map["PGPASSWORD" := db.password]),
      Raw(run.stdout), run.stderr, run.exit)
  {
    var cmd := new Command("pg_dump");
    cmd.Args(PgDumpFixedArgs(db));
    if db.excludeTableData.Some? {
      AddFlagPairs(cmd, "--exclude-table-data", db.excludeTableData.value);
    }
    cmd.Env("PGPASSWORD", db.password);
    var child := Spawn(cmd, run);
    if child.None? {
      return Failure("failed to run pg_dump");
    }
    r := Success(child.value);
  }

  /**
   * The `mysqldump` arguments: the ten fixed ones, then one
   * `--ignore-table-data db.table` pair per excluded table, in order; no
   * excluded list adds nothing.
   */
  lemma MySqlArgvShape(db: Database)
    ensures var tables := db.excludeTableData.GetOr([]); var argv := MySqlArgv(db);
      && |argv| == 10 + 2 * |tables|
      && argv[..10] == MySqlArgs(db)
      && (forall i :: 0 <= i < |tables| ==>
            argv[10 + 2 * i] == "--ignore-table-data" && argv[10 + 2 * i + 1] == db.dbname + "." + tables[i])
      && (db.excludeTableData.None? ==> argv == MySqlArgs(db))
  {
    FlagPairsAt("--ignore-table-data", Qualified(db.dbname, db.excludeTableData.GetOr([])));
  }

  /** The `pg_dump` arguments: eleven fixed, then two per excluded table; the password never shapes them. */
  lemma PgDumpArgvShape(db: Database, password: string)
    ensures var tables := db.excludeTableData.GetOr([]); var argv := PgDumpArgv(db);
      && |argv| == 11 + 2 * |tables|
      && argv[..11] == PgDumpFixedArgs(db)
      && (forall i :: 0 <= i < |tables| ==>
            argv[11 + 2 * i] == "--exclude-table-data" && argv[11 + 2 * i + 1] == tables[i])
      && PgDumpArgv(db.(password := password)) == argv
  {
    FlagPairsAt("--exclude-table-data", db.excludeTableData.GetOr([]));
  }
}
