/**
 * The polling server's handle registry (src/state.rs, src/bin/agent.rs).
 * Starting a dump stores the child, its standard output and its standard
 * error in three tables under one fresh id; each of the three `commands`
 * endpoints removes its own entry, so every handle is handed out at most
 * once; a cleanup started with the dump removes whatever is left.
 *
 * The id is drawn at random in the source; here it is a parameter that must
 * not be in use. The tables are fields that the handlers update in place;
 * their locks, and the delay before the cleanup, are not modelled.
 */
module Registry {
  import opened Wrappers
  import opened Frames
  import opened Process
  import opened Http
  import opened Uuids
  import Text
  import ServerCommands

  /** The server's settings (src/settings.rs:7-13) as far as the handlers read them. */
  datatype ServerSettings = ServerSettings(apiKey: string, databases: map<string, ServerCommands.Database>)

  /** Why a `commands` request is refused: its id is not a UUID, or the handler failed. */
  datatype Rejection = UnparsableId(text: string) | Rejected(error: HttpError)

  /** The body of the status endpoint for a child that ended with `exit`. */
  function StatusBody(id: Uuid, exit: Option<Int32>): (r: Result<string, Rejection>)
    ensures r.Failure? <==> exit.None?
    ensures r.Failure? ==>
      r.error == Rejected(HttpError(StatusInternalServerError, "dump command " + UuidText(id) + " was interrupted"))
    ensures r.Success? ==> Text.ParseI32(r.value) == Some(exit.value as int)
  {
    match exit
    case None => Failure(Rejected(HttpError(StatusInternalServerError, "dump command " + UuidText(id) + " was interrupted")))
    case Some(code) =>
      Text.IntTextRoundTrip(code);
      Success(Text.IntText(code))
  }

  class State {
    const settings: ServerSettings
    var commands: map<Uuid, Child>
    var stdouts: map<Uuid, Output>
    var stderrs: map<Uuid, Bytes>
    /** The child each id was last started with. */
    ghost var started: map<Uuid, Child>

    /** Every stored handle belongs to the child its id was started with. */
    ghost predicate Valid()
      reads this
    {
      && (forall id :: id in commands ==> id in started && commands[id] == started[id])
      && (forall id :: id in stdouts ==> id in started && stdouts[id] == started[id].stdout)
      && (forall id :: id in stderrs ==> id in started && stderrs[id] == started[id].stderr)
    }

    /** `State::new`: the settings as given, and three empty tables. */
    constructor (settings: ServerSettings)
      ensures Valid()
      ensures this.settings == settings
      ensures commands == map[] && stdouts == map[] && stderrs == map[]
    {
      this.settings := settings;
      commands := map[];
      stdouts := map[];
      stderrs := map[];
      started := map[];
    }

    /**
     * `GET /databases/:id/dump`: an unknown database is a 404 and changes
     * nothing; a command that fails to spawn is an error and changes nothing;
     * otherwise the child, its standard output and its standard error go
     * under `freshId` in the three tables, nothing else changes, and the
     * body is the id's text.
     */
    method Start(dbId: string, freshId: Uuid, primary: Launch, gzip: Launch) returns (r: Result<string, HttpError>)
      requires Valid()
      requires freshId !in commands && freshId !in stdouts && freshId !in stderrs
      modifies this
      ensures Valid()
      ensures dbId !in settings.databases ==> r == Failure(HttpError(StatusNotFound, "no database " + dbId))
      ensures dbId in settings.databases ==> var db := settings.databases[dbId];
        && (db.connection.Postgres? ==>
              && (r.Success? <==> primary.Launched?)
              && (r.Failure? ==> r.error == HttpError(StatusInternalServerError, "failed to run pg_dump")))
        && (db.connection.MySql? ==>
              && (r.Success? <==> primary.Launched? && gzip.Launched?)
              && (primary.LaunchFailed? ==> r == Failure(HttpError(StatusInternalServerError, "failed to run mysqldump")))
              && (primary.Launched? && gzip.LaunchFailed? ==>
                    r == Failure(HttpError(StatusInternalServerError, "failed to run gzip"))))
      ensures r.Failure? ==> commands == old(commands) && stdouts == old(stdouts) && stderrs == old(stderrs)
      ensures r.Success? ==>
        && r.value == UuidText(freshId)
        && freshId in commands
        && commands == old(commands)[freshId := commands[freshId]]
        && stdouts == old(stdouts)[freshId := commands[freshId].stdout]
        && stderrs == old(stderrs)[freshId := commands[freshId].stderr]
        && started == old(started)[freshId := commands[freshId]]
        && var db := settings.databases[dbId]; var child := commands[freshId];
           && (db.connection.Postgres? ==>
                 child == Child(Invocation("pg_dump", ServerCommands.PgDumpArgv(db), map["PGPASSWORD" := db.password]),
                                Raw(primary.stdout), primary.stderr, primary.exit))
           && (db.connection.MySql? ==>
                 child == Child(Invocation("gzip", [], map[]), Gzip(primary.stdout), primary.stderr, gzip.exit))
    {
      if dbId !in settings.databases {
        return Failure(HttpError(StatusNotFound, "no database " + dbId));
      }
      var db := settings.databases[dbId];
      var spawned: Result<Child, string>;
      match db.connection {
        case Postgres =>
          spawned := ServerCommands.PgDump(db, primary);
        case MySql =>
          var processes;
          spawned, processes := ServerCommands.MySqlDump(db, primary, gzip);
      }
      if spawned.Failure? {
        return Failure(HttpError(StatusInternalServerError, spawned.error));
      }
      var child := spawned.value;
      stdouts := stdouts[freshId := child.stdout];
      stderrs := stderrs[freshId := child.stderr];
      commands := commands[freshId := child];
      started := started[freshId := child];
      r := Success(UuidText(freshId));
    }

    /**
     * `GET /commands/:id/status`: takes the child out of `commands` and
     * answers with its exit code as text. An id that is not a UUID is
     * refused before the table is read, and a missing entry is an error;
     * neither changes anything. The other tables never change.
     */
    method ClaimStatus(idText: string) returns (r: Result<string, Rejection>)
      requires Valid()
      modifies this
      ensures Valid()
      ensures started == old(started)
      ensures stdouts == old(stdouts) && stderrs == old(stderrs)
      ensures ParseUuid(idText).None? ==> r == Failure(UnparsableId(idText)) && commands == old(commands)
      ensures ParseUuid(idText).Some? ==> var id := ParseUuid(idText).value;
        && (id !in old(commands) ==>
              r == Failure(Rejected(HttpError(StatusInternalServerError, "no dump command " + UuidText(id))))
              && commands == old(commands))
        && (id in old(commands) ==> r == StatusBody(id, old(commands)[id].exit) && commands == old(commands) - {id})
    {
      var parsed := ParseUuid(idText);
      if parsed.None? {
        return Failure(UnparsableId(idText));
      }
      var id := parsed.value;
      if id !in commands {
        return Failure(Rejected(HttpError(StatusInternalServerError, "no dump command " + UuidText(id))));
      }
      var child := commands[id];
      commands := commands - {id};
      r := StatusBody(id, child.exit);
    }

    /** `GET /commands/:id/stdout`: takes the standard output out of `stdouts`; as `ClaimStatus` otherwise. */
    method ClaimStdout(idText: string) returns (r: Result<Output, Rejection>)
      requires Valid()
      modifies this
      ensures Valid()
      ensures started == old(started)
      ensures commands == old(commands) && stderrs == old(stderrs)
      ensures ParseUuid(idText).None? ==> r == Failure(UnparsableId(idText)) && stdouts == old(stdouts)
      ensures ParseUuid(idText).Some? ==> var id := ParseUuid(idText).value;
        && (id !in old(stdouts) ==>
              r == Failure(Rejected(HttpError(StatusInternalServerError, "no dump stdout " + UuidText(id))))
              && stdouts == old(stdouts))
        && (id in old(stdouts) ==>
              r == Success(old(stdouts)[id]) && id in started && r.value == started[id].stdout && stdouts == old(stdouts) - {id})
    {
      var parsed := ParseUuid(idText);
      if parsed.None? {
        return Failure(UnparsableId(idText));
      }
      var id := parsed.value;
      if id !in stdouts {
        return Failure(Rejected(HttpError(StatusInternalServerError, "no dump stdout " + UuidText(id))));
      }
      r := Success(stdouts[id]);
      stdouts := stdouts - {id};
    }

    /** `GET /commands/:id/stderr`: takes the standard error out of `stderrs`; as `ClaimStatus` otherwise. */
    method ClaimStderr(idText: string) returns (r: Result<Bytes, Rejection>)
      requires Valid()
      modifies this
      ensures Valid()
      ensures started == old(started)
      ensures commands == old(commands) && stdouts == old(stdouts)
      ensures ParseUuid(idText).None? ==> r == Failure(UnparsableId(idText)) && stderrs == old(stderrs)
      ensures ParseUuid(idText).Some? ==> var id := ParseUuid(idText).value;
        && (id !in old(stderrs) ==>
              r == Failure(Rejected(HttpError(StatusInternalServerError, "no dump stderr " + UuidText(id))))
              && stderrs == old(stderrs))
        && (id in old(stderrs) ==>
              r == Success(old(stderrs)[id]) && id in started && r.value == started[id].stderr && stderrs == old(stderrs) - {id})
    {
      var parsed := ParseUuid(idText);
      if parsed.None? {
        return Failure(UnparsableId(idText));
      }
      var id := parsed.value;
      if id !in stderrs {
        return Failure(Rejected(HttpError(StatusInternalServerError, "no dump stderr " + UuidText(id))));
      }
      r := Success(stderrs[id]);
      stderrs := stderrs - {id};
    }

    /** The delayed cleanup: removes `id` from all three tables, whether or not its entries were claimed. */
    method Cleanup(id: Uuid)
      requires Valid()
      modifies this
      ensures Valid()
      ensures started == old(started)
      ensures commands == old(commands) - {id} && stdouts == old(stdouts) - {id} && stderrs == old(stderrs) - {id}
    {
      stdouts := stdouts - {id};
      stderrs := stderrs - {id};
      commands := commands - {id};
    }
  }

  /**
   * A client run against the registry: start a dump, then claim its status
   * twice. The first claim answers with the child's exit code; the second
   * is refused, and the two output handles are still there to be claimed.
   * Only a MySQL dump starts gzip, so only there must it launch.
   */
  method StatusClaimedOnce(state: State, dbId: string, freshId: Uuid, primary: Launch, gzip: Launch)
    returns (first: Result<string, Rejection>, second: Result<string, Rejection>)
    requires state.Valid()
    requires freshId !in state.commands && freshId !in state.stdouts && freshId !in state.stderrs
    requires dbId in state.settings.databases && primary.Launched?
    requires state.settings.databases[dbId].connection.MySql? ==> gzip.Launched?
    modifies state
    ensures state.Valid()
    ensures freshId in state.started && first == StatusBody(freshId, state.started[freshId].exit)
    ensures second == Failure(Rejected(HttpError(StatusInternalServerError, "no dump command " + UuidText(freshId))))
    ensures freshId in state.stdouts && freshId in state.stderrs
  {
    var text := state.Start(dbId, freshId, primary, gzip);
    UuidTextRoundTrip(freshId);
    first := state.ClaimStatus(text.value);
    second := state.ClaimStatus(text.value);
  }
}
