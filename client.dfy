/**
 * The command-line client (dbd/src/main.rs): it chooses the agent to ask,
 * builds the request, and reads the frames of the response, sending
 * standard output chunks to its own standard output, standard error chunks
 * to a line printer, and ending as the `Status` frame says.
 *
 * The options read here are those `main` uses (`connection_id`, `dbname`);
 * the option struct at dbd/src/opt.rs names a `database_id` instead, from
 * another revision.
 */
module Client {
  import opened Wrappers
  import opened Frames
  import opened Text
  import opened Dump
  import opened Http
  import Auth

  /** A configured agent (dbd/src/settings.rs:11-15). */
  datatype Agent = Agent(url: string, apiKey: string)

  /** The configuration file's contents: agents by id. */
  datatype ClientSettings = ClientSettings(agents: map<string, Agent>)

  /** The command-line options `main` reads. */
  datatype Options = Options(
    agentId: Option<string>,
    apiKey: Option<string>,
    url: Option<string>,
    excludeTableData: Option<string>,
    connectionId: string,
    dbname: Option<string>)

  // ---------------------------------------------------------------------
  // Choosing the agent (lines 23-46)

  /**
   * The configured agent, if any. With an agent id there must be a
   * configuration holding that id; without one, the connection id is tried
   * as an agent id and its absence is no error.
   */
  function LookupAgent(settings: Option<ClientSettings>, opt: Options): (r: Result<Option<Agent>, string>)
    ensures opt.agentId.Some? && settings.None? ==> r == Failure("no configuration provided")
    ensures opt.agentId.Some? && settings.Some? ==>
      if opt.agentId.value in settings.value.agents then r == Success(Some(settings.value.agents[opt.agentId.value]))
      else r == Failure("no agent " + opt.agentId.value)
    ensures opt.agentId.None? ==>
      && r.Success?
      && (r.value.Some? <==> settings.Some? && opt.connectionId in settings.value.agents)
      && (r.value.Some? ==> r.value.value == settings.value.agents[opt.connectionId])
  {
    match opt.agentId
    case Some(id) =>
      if settings.None? then Failure("no configuration provided")
      else if id !in settings.value.agents then Failure("no agent " + id)
      else Success(Some(settings.value.agents[id]))
    case None =>
      if settings.Some? && opt.connectionId in settings.value.agents then
        Success(Some(settings.value.agents[opt.connectionId]))
      else Success(None)
  }

  /**
   * The agent the client talks to: a configured agent with each field
   * replaced by the option given for it; without one, both fields must be
   * given as options.
   */
  function ResolveAgent(settings: Option<ClientSettings>, opt: Options): (r: Result<Agent, string>)
    ensures LookupAgent(settings, opt).Failure? ==> r == Failure(LookupAgent(settings, opt).error)
    ensures LookupAgent(settings, opt) == Success(None) ==>
      && (opt.url.None? ==> r == Failure("no URL provided"))
      && (opt.url.Some? && opt.apiKey.None? ==> r == Failure("no api key provided"))
      && (opt.url.Some? && opt.apiKey.Some? ==> r == Success(Agent(opt.url.value, opt.apiKey.value)))
    ensures LookupAgent(settings, opt).Success? && LookupAgent(settings, opt).value.Some? ==>
      var a := LookupAgent(settings, opt).value.value;
      r == Success(Agent(opt.url.GetOr(a.url), opt.apiKey.GetOr(a.apiKey)))
  {
    match LookupAgent(settings, opt)
    case Failure(e) => Failure(e)
    case Success(Some(a)) => Success(Agent(opt.url.GetOr(a.url), opt.apiKey.GetOr(a.apiKey)))
    case Success(None) =>
      if opt.url.None? then Failure("no URL provided")
      else if opt.apiKey.None? then Failure("no api key provided")
      else Success(Agent(opt.url.value, opt.apiKey.value))
  }

  /**
   * Without an agent id, a URL and a key given as options decide the agent
   * whatever the configuration holds.
   */
  lemma OptionsOverride(s1: Option<ClientSettings>, s2: Option<ClientSettings>, opt: Options)
    requires opt.agentId.None? && opt.url.Some? && opt.apiKey.Some?
    ensures ResolveAgent(s1, opt) == ResolveAgent(s2, opt) == Success(Agent(opt.url.value, opt.apiKey.value))
  {
  }

  // ---------------------------------------------------------------------
  // The request (lines 48-62)

  /** The path relative to the agent's URL, the query pairs and the key header. */
  datatype Request = Request(path: string, query: seq<(string, string)>, apiKeyHeader: string)

  /** `dump/<connection>/<dbname>`, the database name empty when not given. */
  function DumpPath(connectionId: string, dbname: Option<string>): (path: string)
    ensures '/' !in connectionId && '/' !in dbname.GetOr("") ==>
      Split(path, '/') == ["dump", connectionId, dbname.GetOr("")]
  {
    var path := "dump/" + connectionId + "/" + dbname.GetOr("");
    var pieces := ["dump", connectionId, dbname.GetOr("")];
    assert Join(pieces[2..], '/') == dbname.GetOr("");
    assert Join(pieces, '/') == path;
    if '/' in connectionId || '/' in dbname.GetOr("") then path
    else SplitJoin(pieces, '/'); path
  }

  function BuildRequest(agent: Agent, opt: Options): (req: Request)
    ensures req.path == DumpPath(opt.connectionId, opt.dbname)
    ensures UrlSegment(opt.connectionId) && (opt.dbname.Some? ==> opt.dbname.value == "" || UrlSegment(opt.dbname.value)) ==>
      RouteParams(req.path) == Some((opt.connectionId, if opt.dbname == Some("") then None else opt.dbname))
    ensures req.apiKeyHeader == agent.apiKey
    ensures opt.excludeTableData.None? <==> req.query == []
    ensures opt.excludeTableData.Some? ==> req.query == [("exclude_table_data", opt.excludeTableData.value)]
  {
    Request(
      DumpPath(opt.connectionId, opt.dbname),
      if opt.excludeTableData.Some? then [("exclude_table_data", opt.excludeTableData.value)] else [],
      agent.apiKey)
  }

  /** The request the client builds passes the agent's key gate exactly when the resolved key is the agent's key. */
  lemma RequestAdmitted<R>(agent: Agent, opt: Options, settings: AgentSettings, rest: R, next: Auth.Request<R> -> Response)
    ensures var req := BuildRequest(agent, opt);
      Auth.AgentGate(settings, Auth.Request(Some(req.apiKeyHeader), rest), next).Forwarded? <==> agent.apiKey == settings.apiKey
  {
  }

  /** Whether the agent's router takes `c` as one route parameter: non-empty and free of `/`. */
  predicate Segment(c: string)
  {
    c != "" && '/' !in c
  }

  /**
   * A character that joining a relative path onto the agent's URL keeps as
   * it is: printable ASCII other than the characters that end the path
   * (`?`, `#`), separate segments (`\`), start an escape (`%`) or are
   * percent-encoded (`"`, `<`, `>`, `` ` ``, `{`, `}`). Spaces and control
   * characters are encoded or dropped.
   */
  predicate UrlKept(ch: char)
  {
    '!' <= ch <= '~' && ch !in "?#\\%\"<>`{}"
  }

  /**
   * A segment that reaches the agent unchanged through URL joining: made of
   * kept characters and not the dot segments `.` and `..`, which are
   * resolved away.
   */
  predicate UrlSegment(c: string)
  {
    Segment(c) && c != "." && c != ".." && forall i :: 0 <= i < |c| ==> UrlKept(c[i])
  }

  /**
   * The agent's routes, `dump/:connection_id/` and
   * `dump/:connection_id/:dbname` (dbd-agent/src/main.rs:139-140): the
   * connection id and the database name, if any, a path carries.
   */
  function RouteParams(path: string): (r: Option<(string, Option<string>)>)
    ensures r.Some? ==> Segment(r.value.0) && (r.value.1.Some? ==> Segment(r.value.1.value))
  {
    var parts := Split(path, '/');
    SplitPiecesFree(path, '/');
    if |parts| == 3 && parts[0] == "dump" && parts[1] != "" then
      Some((parts[1], if parts[2] == "" then None else Some(parts[2])))
    else None
  }

  /**
   * The path the client builds is routed to the connection and database
   * name it was built from, when both survive URL joining unchanged.
   */
  lemma DumpPathRoute(connectionId: string, dbname: Option<string>)
    requires UrlSegment(connectionId)
    requires dbname.Some? ==> UrlSegment(dbname.value)
    ensures RouteParams(DumpPath(connectionId, dbname)) == Some((connectionId, dbname))
  {
  }

  /** An empty database name is lost on the way: the agent sees none. */
  lemma EmptyDbnameRoute(connectionId: string)
    requires UrlSegment(connectionId)
    ensures RouteParams(DumpPath(connectionId, Some(""))) == Some((connectionId, None))
  {
    DumpPathRoute(connectionId, None);
  }

  // ---------------------------------------------------------------------
  // Reading the response (lines 64-126)

  /** How the client ends. */
  datatype Outcome =
    | Done                       // `Status(Some(0))`
    | ExitWith(code: Int32)      // `Status(Some(c))`, c != 0: `process::exit(c)`
    | Interrupted                // `Status(None)`: the error "process interrupted"
    | Failed(message: string)    // a rejected request or a broken stream
    | Ended                      // the stream ended before any `Status`: `Ok`

  /** What a `Status` frame makes of the client. */
  function StatusOutcome(code: Option<Int32>): (o: Outcome)
    ensures o == Done <==> code == Some(0)
    ensures o == Interrupted <==> code.None?
    ensures o.ExitWith? <==> code.Some? && code.value != 0
    ensures o.ExitWith? ==> o.code == code.value
  {
    match code
    case None => Interrupted
    case Some(c) => if c == 0 then Done else ExitWith(c)
  }

  /** The process exit code an outcome leads to; an error returned from `main` exits with 1. */
  function ExitCode(o: Outcome): (c: int)
    ensures c == 0 <==> o.Done? || o.Ended? || (o.ExitWith? && o.code == 0)
    ensures o.ExitWith? ==> c == o.code
    ensures o.Interrupted? || o.Failed? ==> c == 1
  {
    match o
    case Done => 0
    case Ended => 0
    case ExitWith(c) => c
    case Interrupted => 1
    case Failed(_) => 1
  }

  /** The output frames the loop handles: those before the first error item or `Status`. */
  function HandledFrames(items: seq<Result<Frame, string>>): (fs: seq<Frame>)
    ensures NoStatus(fs)
    ensures |fs| <= |items|
  {
    if items == [] || items[0].Failure? || items[0].value.Status? then []
    else
      var rest := HandledFrames(items[1..]);
      assert forall i :: 0 < i < |rest| + 1 ==> ([items[0].value] + rest)[i] == rest[i - 1];
      [items[0].value] + rest
  }

  /**
   * The handled frames are the leading run of intact output frames: each
   * comes from an intact item at its position, and the item after them, if
   * any, is an error or a `Status`.
   */
  lemma {:induction false} HandledPrefix(items: seq<Result<Frame, string>>)
    ensures var fs := HandledFrames(items);
      && (forall i :: 0 <= i < |fs| ==> items[i] == Success(fs[i]))
      && (|fs| < |items| ==> items[|fs|].Failure? || items[|fs|].value.Status?)
  {
    if items != [] && items[0].Success? && !items[0].value.Status? {
      HandledPrefix(items[1..]);
      var fs := HandledFrames(items);
      forall i | 0 < i < |fs| ensures items[i] == Success(fs[i]) {
        assert items[i] == items[1..][i - 1];
      }
    }
  }

  /** How the loop ends: at the first error item, at the first `Status`, or at the end of the stream. */
  function Verdict(items: seq<Result<Frame, string>>): Outcome
  {
    if items == [] then Ended
    else match items[0]
      case Failure(m) => Failed(m)
      case Success(Status(code)) => StatusOutcome(code)
      case Success(_) => Verdict(items[1..])
  }

  /** An intact output frame at the head is handled, and the loop goes on with the rest. */
  lemma HandledStep(items: seq<Result<Frame, string>>)
    requires items != [] && items[0].Success? && !items[0].value.Status?
    ensures HandledFrames(items) == [items[0].value] + HandledFrames(items[1..])
    ensures Verdict(items) == Verdict(items[1..])
  {
  }

  /**
   * The verdict is decided by the item that stopped the loop: none (the
   * stream ended), an error, or a `Status` and its code.
   */
  lemma {:induction false} VerdictAtStop(items: seq<Result<Frame, string>>)
    ensures var k := |HandledFrames(items)|; var o := Verdict(items);
      if k == |items| then o == Ended
      else if items[k].Failure? then o == Failed(items[k].error)
      else items[k].value.Status? && o == StatusOutcome(items[k].value.code)
  {
    if items != [] && items[0].Success? && !items[0].value.Status? {
      VerdictAtStop(items[1..]);
      assert items[1..][|HandledFrames(items[1..])|..] == items[|HandledFrames(items)|..];
    }
  }

  /** Frames received without a transport error. */
  function Oks(fs: seq<Frame>): (items: seq<Result<Frame, string>>)
    ensures |items| == |fs|
    ensures forall i :: 0 <= i < |fs| ==> items[i] == Success(fs[i])
  {
    seq(|fs|, i requires 0 <= i < |fs| => Success(fs[i]))
  }

  /**
   * The frame loop: it writes every `Stdout` payload to standard output,
   * counting its bytes, and every `Stderr` payload to the line printer, in
   * arrival order, until the first error item or `Status`; nothing after
   * that is read.
   */
  method Demux(items: seq<Result<Frame, string>>) returns (total: nat, out: seq<Bytes>, diag: seq<Bytes>, outcome: Outcome)
    ensures out == Stdouts(HandledFrames(items)) && diag == Stderrs(HandledFrames(items))
    ensures total == |Concat(out)|
    ensures outcome == Verdict(items)
  {
    total, out, diag := 0, [], [];
    ghost var seen: seq<Frame> := [];
    var i := 0;
    while i < |items|
      invariant i <= |items|
      invariant out == Stdouts(seen) && diag == Stderrs(seen) && total == |Concat(out)|
      invariant HandledFrames(items) == seen + HandledFrames(items[i..])
      invariant Verdict(items) == Verdict(items[i..])
    {
      assert items[i..][0] == items[i] && items[i..][1..] == items[i + 1..];
      if items[i].Failure? {
        assert HandledFrames(items) == seen;
        return total, out, diag, Failed(items[i].error);
      }
      var f := items[i].value;
      if f.Status? {
        assert HandledFrames(items) == seen;
        return total, out, diag, StatusOutcome(f.code);
      }
      HandledStep(items[i..]);
      StdoutsAppend(seen, [f]);
      StderrsAppend(seen, [f]);
      if f.Stdout? {
        ConcatAppend(out, [f.data]);
        assert Concat([f.data]) == f.data + Concat([]);
        out := out + [f.data];
        total := total + |f.data|;
      } else {
        diag := diag + [f.data];
      }
      assert seen + [f] + HandledFrames(items[i + 1..]) == seen + ([f] + HandledFrames(items[i + 1..]));
      seen := seen + [f];
      i := i + 1;
    }
    assert items[i..] == [];
    assert HandledFrames(items) == seen + [] == seen;
    outcome := Ended;
  }

  /** The response: its HTTP status, its body text when it is an error, its frames otherwise. */
  datatype Reply = Reply(status: int, body: string, items: seq<Result<Frame, string>>)

  /** Reading a reply: a status other than 200 is an error carrying the body, and no frame is read. */
  method Receive(reply: Reply) returns (total: nat, out: seq<Bytes>, diag: seq<Bytes>, outcome: Outcome)
    ensures reply.status != StatusOk ==> total == 0 && out == [] && diag == [] && outcome == Failed(reply.body)
    ensures reply.status == StatusOk ==>
      && out == Stdouts(HandledFrames(reply.items)) && diag == Stderrs(HandledFrames(reply.items))
      && total == |Concat(out)| && outcome == Verdict(reply.items)
  {
    if reply.status != StatusOk {
      return 0, [], [], Failed(reply.body);
    }
    total, out, diag, outcome := Demux(reply.items);
  }

  // ---------------------------------------------------------------------
  // What the client makes of what the agent sends

  /** Output frames received intact are all handled, and the loop goes on to what follows them. */
  lemma {:induction false} OksHandled(fs: seq<Frame>, rest: seq<Result<Frame, string>>)
    requires NoStatus(fs)
    ensures HandledFrames(Oks(fs) + rest) == fs + HandledFrames(rest)
    ensures Verdict(Oks(fs) + rest) == Verdict(rest)
    decreases |fs|
  {
    if fs == [] {
      assert Oks(fs) + rest == rest;
    } else {
      var items := Oks(fs) + rest;
      assert NoStatus(fs[1..]) by {
        forall i | 0 <= i < |fs[1..]| ensures !fs[1..][i].Status? {
          assert fs[1..][i] == fs[i + 1];
        }
      }
      OksHandled(fs[1..], rest);
      assert items[0] == Success(fs[0]);
      assert items[1..] == Oks(fs[1..]) + rest;
      HandledStep(items);
      assert fs == [fs[0]] + fs[1..];
    }
  }

  /**
   * A complete stream received intact: the client handles every output
   * frame before the `Status`, and ends as that `Status` says.
   */
  lemma TerminatedReceived(fs: seq<Frame>)
    requires Terminated(fs)
    ensures HandledFrames(Oks(fs)) == fs[..|fs| - 1]
    ensures Verdict(Oks(fs)) == StatusOutcome(fs[|fs| - 1].code)
  {
    var n := |fs| - 1;
    assert Oks(fs) == Oks(fs[..n]) + [Success(fs[n])];
    OksHandled(fs[..n], [Success(fs[n])]);
  }

  /**
   * A stream cut short before its `Status` (the agent's task failed and only
   * logged it) is handled in full and ends the client with `Ok`, as a
   * completed dump would.
   */
  lemma TruncatedReceived(fs: seq<Frame>)
    requires NoStatus(fs)
    ensures HandledFrames(Oks(fs)) == fs
    ensures Verdict(Oks(fs)) == Ended && ExitCode(Ended) == 0
  {
    assert Oks(fs) + [] == Oks(fs);
    OksHandled(fs, []);
  }

  /**
   * Postgres end to end: when the agent's task completes, the client writes
   * exactly the dump's standard output, passes exactly its standard error
   * to the line printer, and ends as `pg_dump`'s exit code says.
   */
  lemma PostgresReceived(stage: StageRun)
    requires PostgresProduction(stage).failure.None?
    ensures var items := Oks(PostgresProduction(stage).frames);
      && Concat(Stdouts(HandledFrames(items))) == Concat(stage.out)
      && Stderrs(HandledFrames(items)) == stage.err
      && Verdict(items) == StatusOutcome(stage.exit.code)
  {
    PostgresShape(stage);
    TerminatedReceived(PostgresProduction(stage).frames);
  }

  /**
   * MySQL end to end: when both stages run and the task completes, the
   * client's standard output is the schema dump followed by the data dump,
   * and it ends as the data stage's exit code says.
   */
  lemma MySqlReceived(schema: StageRun, data: StageRun)
    requires MySqlProduction(schema, data).failure.None?
    requires schema.Ran? && schema.exit == Exited(Some(0))
    ensures var items := Oks(MySqlProduction(schema, data).frames);
      && Concat(Stdouts(HandledFrames(items))) == Concat(schema.out) + Concat(data.out)
      && Stderrs(HandledFrames(items)) == schema.err + data.err
      && Verdict(items) == StatusOutcome(data.exit.code)
  {
    var fs := MySqlProduction(schema, data).frames;
    MySqlTerminates(schema, data);
    MySqlStagesInOrder(schema, data);
    ReceivedInTwoParts(fs, |schema.out| + |schema.err|, schema.out, schema.err, data.out, data.err);
  }

  /**
   * A complete stream whose output frames come in two parts, each with its
   * own channels: the client writes the first part's standard output, then
   * the second's.
   */
  lemma ReceivedInTwoParts(fs: seq<Frame>, k: nat, out1: seq<Bytes>, err1: seq<Bytes>, out2: seq<Bytes>, err2: seq<Bytes>)
    requires Terminated(fs) && k < |fs|
    requires Stdouts(fs[..k]) == out1 && Stderrs(fs[..k]) == err1
    requires Stdouts(fs[k..|fs| - 1]) == out2 && Stderrs(fs[k..|fs| - 1]) == err2
    ensures Concat(Stdouts(HandledFrames(Oks(fs)))) == Concat(out1) + Concat(out2)
    ensures Stderrs(HandledFrames(Oks(fs))) == err1 + err2
    ensures Verdict(Oks(fs)) == StatusOutcome(fs[|fs| - 1].code)
  {
    TerminatedReceived(fs);
    var body := fs[..|fs| - 1];
    assert body[..k] == fs[..k] && body[k..] == fs[k..|fs| - 1];
    SplitChannels(body, k);
    ConcatAppend(out1, out2);
  }

  /** The channels of a stream cut in two are those of the first part followed by those of the second. */
  lemma SplitChannels(body: seq<Frame>, k: nat)
    requires k <= |body|
    ensures Stdouts(body) == Stdouts(body[..k]) + Stdouts(body[k..])
    ensures Stderrs(body) == Stderrs(body[..k]) + Stderrs(body[k..])
  {
    assert body == body[..k] + body[k..];
    StdoutsAppend(body[..k], body[k..]);
    StderrsAppend(body[..k], body[k..]);
  }
}
