/** `AdvancedLogger`: the process-wide logging facade, as an explicit state
    value and pure transitions. Each transition takes an `Env` that supplies
    what the code reads from its surroundings during one top-level call.

    Two departures from the code, each recorded as a finding.
    (1) `Initialize` marks the viewer operational before it logs its own
    "initialized" record. The code sets the flag only afterwards, so from a
    state with both flags false (after `Shutdown`, or after an `Initialize`
    whose server construction threw) that record re-enters `Initialize`
    without end; see module `AsWritten`. On every state from which the code
    returns, the two agree.
    (2) The five level shortcuts forward their caller's call site
    (`ShortcutCallAt`). The code lets the caller-info attributes bind inside
    the shortcut, so every such record names the shortcut's own line
    (`ShortcutCall`, `ShortcutHidesCaller`). */
module Facade {
  import opened Common
  import opened Decimal
  import opened Json
  import Levels
  import opened Records
  import Backup
  import opened ViewerServer

  const TicksPerMinute: int := 600_000_000

  /** `Initialize`'s default port argument, used by the lazy initialisation. */
  const DefaultPort: int := 19867

  /** `_serverPort` before any `Initialize`. */
  const BootPort: int := 5199

  /** The file the facade is compiled from, as `[CallerFilePath]` sees it. */
  const LoggerFile: string := "WebviewLogger/AdvancedLogger.cs"

  const NullReference: string := "Object reference not set to an instance of an object."

  /** What one top-level call reads from its surroundings: the clock (ticks,
      one reading per call), the calling thread's id, whether the listener
      binds its port, the k-th `Guid.NewGuid`, `Path.GetFileName`, and
      `JsonSerializer.Serialize` (text, or the message of what it threw). */
  datatype Env = Env(
    now: int,
    thread: int,
    listenerStarts: bool,
    guid: nat -> string,
    fileName: string -> string,
    render: Json -> Result<string, string>)

  /** What `[CallerMemberName]`, `[CallerFilePath]` and `[CallerLineNumber]` capture. */
  datatype CallSite = CallSite(member: string, filePath: string, line: int)

  /** The arguments of `Log`; `None` is a null or omitted argument. */
  datatype LogCall = LogCall(
    message: string,
    level: Levels.Level,
    source: Option<string>,
    category: Option<string>,
    data: Json,
    threadId: Option<int>,
    site: CallSite)

  /** The static fields. `minted` counts the ids drawn so far; `attempts`
      counts recovery attempts and exists only so that the model can state
      how often recovery runs. */
  datatype Logger = Logger(
    initialized: bool,
    operational: bool,
    port: int,
    lastRecovery: int,
    server: Option<Channel>,
    backup: seq<LogRecord>,
    minted: nat,
    attempts: nat)

  /** The static initialisers: not initialised, but operational, and the last
      recovery at `DateTime.MinValue` (tick 0). */
  const Boot: Logger := Logger(false, true, BootPort, 0, None, [], 0, 0)

  const InitCall: LogCall :=
    LogCall("AdvancedLogger initialized successfully", Levels.Info, Some("System"), Some("Logging"),
            Null, None, CallSite("Initialize", LoggerFile, 62))

  const RecoveredCall: LogCall :=
    LogCall("Log viewer recovered successfully", Levels.Info, Some("System"), Some("Logging"),
            Null, None, CallSite("TryRecover", LoggerFile, 279))

  // ---- Records ------------------------------------------------------------

  function Location(env: Env, site: CallSite): string {
    env.fileName(site.filePath) + ":" + site.member + ":" + IntToString(site.line)
  }

  /** The record `Log` builds. */
  function MakeRecord(s: Logger, env: Env, c: LogCall): LogRecord {
    LogRecord(env.guid(s.minted), env.now, c.level, c.message,
              c.source.GetOr("Unknown"), c.category.GetOr("General"),
              Some(Location(env, c.site)), c.threadId.GetOr(env.thread), c.data)
  }

  /** A log record carries a fresh id and the current time, the caller's
      level, message and payload; the defaults "Unknown" and "General" for a
      missing source and category; the call site as `file:member:line`; the
      caller's thread id if one was given, else the current thread's. */
  lemma RecordFields(s: Logger, env: Env, c: LogCall)
    ensures var r := MakeRecord(s, env, c);
      && r.id == env.guid(s.minted) && r.timestamp == env.now
      && r.level == c.level && r.message == c.message && r.data == c.data
      && r.source == (if c.source.Some? then c.source.value else "Unknown")
      && r.category == (if c.category.Some? then c.category.value else "General")
      && r.location == Some(Location(env, c.site))
      && r.threadId == (if c.threadId.Some? then c.threadId.value else env.thread)
  {
  }

  /** The record stored when a live send throws. Location, ThreadId and Data
      are never assigned, so they keep their defaults. */
  function Diagnostic(s: Logger, env: Env, reason: string): (r: LogRecord)
    ensures r.id == env.guid(s.minted) && r.timestamp == env.now
    ensures r.level == Levels.Error && r.source == "System" && r.category == "Logging"
    ensures r.message == "Log viewer failed: " + reason
    ensures r.location == None && r.threadId == 0 && r.data == Null
  {
    LogRecord(env.guid(s.minted), env.now, Levels.Error, "Log viewer failed: " + reason,
              "System", "Logging", None, 0, Null)
  }

  // ---- Sending ------------------------------------------------------------

  function Encode(env: Env, o: JsonOptions, r: LogRecord): Result<string, string> {
    env.render(ToWire(o, r))
  }

  /** Serialise, then `_logServer.AddLogEntry`; a null server throws. */
  function Send(server: Option<Channel>, env: Env, o: JsonOptions, r: LogRecord): (res: Result<Channel, string>)
    ensures res.Ok? <==> Encode(env, o, r).Ok? && server.Some?
    ensures res.Ok? ==> res.value == AddLogEntry(server.value, Encode(env, o, r).value)
  {
    match Encode(env, o, r)
    case Err(m) => Err(m)
    case Ok(json) =>
      match server
      case None => Err(NullReference)
      case Some(ch) => Ok(AddLogEntry(ch, json))
  }

  predicate AllEncode(env: Env, o: JsonOptions, rs: seq<LogRecord>) {
    forall i :: 0 <= i < |rs| ==> Encode(env, o, rs[i]).Ok?
  }

  function EncodeAll(env: Env, o: JsonOptions, rs: seq<LogRecord>): (out: seq<string>)
    requires AllEncode(env, o, rs)
    ensures |out| == |rs|
    ensures forall i :: 0 <= i < |rs| ==> out[i] == Encode(env, o, rs[i]).value
  {
    if rs == [] then [] else [Encode(env, o, rs[0]).value] + EncodeAll(env, o, rs[1..])
  }

  /** How many leading records serialise: the index of the first that throws. */
  function Sendable(env: Env, o: JsonOptions, rs: seq<LogRecord>): (k: nat)
    ensures k <= |rs|
    ensures AllEncode(env, o, rs[..k])
    ensures k < |rs| ==> Encode(env, o, rs[k]).Err?
    decreases |rs|
  {
    if rs == [] || Encode(env, o, rs[0]).Err? then 0
    else
      var k := Sendable(env, o, rs[1..]);
      assert rs[..k + 1] == [rs[0]] + rs[1..][..k];
      k + 1
  }

  datatype Forwarded = Forwarded(server: Option<Channel>, sent: nat, failed: bool)

  /** The `foreach` of `DrainBackupLogs`: send each record with the default
      options, stopping at the first exception. */
  function Forward(server: Option<Channel>, env: Env, rs: seq<LogRecord>): (f: Forwarded)
    ensures f.sent <= |rs|
    decreases |rs|
  {
    if rs == [] then Forwarded(server, 0, false)
    else
      match Send(server, env, DefaultOptions, rs[0])
      case Err(_) => Forwarded(server, 0, true)
      case Ok(ch) =>
        var f := Forward(Some(ch), env, rs[1..]);
        Forwarded(f.server, f.sent + 1, f.failed)
  }

  /** `Forward` sends the longest prefix that serialises, appending the
      serialised records to the server's queue in order, and fails exactly
      when that prefix is not everything; with no server it fails at once. */
  lemma ForwardSendsPrefix(server: Option<Channel>, env: Env, rs: seq<LogRecord>)
    ensures var f := Forward(server, env, rs);
      && (f.failed <==> f.sent < |rs|)
      && (server.None? ==> f.server.None? && (f.failed <==> rs != []))
      && (server.Some? ==> f.sent == Sendable(env, DefaultOptions, rs))
      && (server.Some? ==> f.server == Some(AddAll(server.value, EncodeAll(env, DefaultOptions, rs[..f.sent]))))
  {
    if server.Some? {
      ForwardCounts(server.value, env, rs);
      ForwardQueues(server.value, env, rs);
    }
  }

  /** With a server, `Forward` sends exactly the records before the first
      that fails to serialise, and fails exactly when there is one. */
  lemma {:induction false} ForwardCounts(ch: Channel, env: Env, rs: seq<LogRecord>)
    ensures var f := Forward(Some(ch), env, rs);
      f.sent == Sendable(env, DefaultOptions, rs) && (f.failed <==> f.sent < |rs|)
    decreases |rs|
  {
    if rs != [] && Encode(env, DefaultOptions, rs[0]).Ok? {
      var next := AddLogEntry(ch, Encode(env, DefaultOptions, rs[0]).value);
      assert Send(Some(ch), env, DefaultOptions, rs[0]) == Ok(next);
      ForwardCounts(next, env, rs[1..]);
    }
  }

  /** With a server, `Forward` appends the serialised sent records to its
      queue, oldest first. */
  lemma {:induction false} ForwardQueues(ch: Channel, env: Env, rs: seq<LogRecord>)
    ensures var f := Forward(Some(ch), env, rs);
      && AllEncode(env, DefaultOptions, rs[..f.sent])
      && f.server == Some(AddAll(ch, EncodeAll(env, DefaultOptions, rs[..f.sent])))
    decreases |rs|
  {
    if rs != [] && Encode(env, DefaultOptions, rs[0]).Ok? {
      var e := Encode(env, DefaultOptions, rs[0]).value;
      var next := AddLogEntry(ch, e);
      assert Send(Some(ch), env, DefaultOptions, rs[0]) == Ok(next);
      ForwardQueues(next, env, rs[1..]);
      var f := Forward(Some(next), env, rs[1..]);
      assert Forward(Some(ch), env, rs) == Forwarded(f.server, f.sent + 1, f.failed);
      assert rs[..f.sent + 1] == [rs[0]] + rs[1..][..f.sent];
      var tail := EncodeAll(env, DefaultOptions, rs[1..][..f.sent]);
      assert EncodeAll(env, DefaultOptions, rs[..f.sent + 1]) == [e] + tail;
      assert AddAll(ch, [e] + tail) == AddAll(next, tail) by {
        assert ([e] + tail)[1..] == tail;
      }
    }
  }

  /** `DrainBackupLogs`: unless initialised and operational nothing happens.
      Otherwise the whole buffer is dequeued first, then forwarded oldest
      first; the first failure marks the viewer non-operational and the
      records not yet sent are lost. The buffer ends empty either way. */
  function Drain(s: Logger, env: Env): (t: Logger)
    ensures t.initialized == s.initialized && t.port == s.port && t.lastRecovery == s.lastRecovery
    ensures t.minted == s.minted && t.attempts == s.attempts
    ensures !(s.initialized && s.operational) ==> t == s
  {
    if !s.operational || !s.initialized then s
    else
      var f := Forward(s.server, env, s.backup);
      s.(backup := [], server := f.server, operational := !f.failed)
  }

  /** What a drain of an initialised, operational logger leaves: an empty
      buffer, the viewer operational exactly when every record went out,
      and the server's queue extended by the serialisable prefix. */
  lemma DrainForwards(s: Logger, env: Env)
    requires s.initialized && s.operational
    ensures var t := Drain(s, env);
      && t.backup == []
      && (t.operational <==> s.backup == [] || (s.server.Some? && AllEncode(env, DefaultOptions, s.backup)))
      && t.server.Some? == s.server.Some?
      && (s.server.Some? ==>
            t.server == Some(AddAll(s.server.value, EncodeAll(env, DefaultOptions, s.backup[..Sendable(env, DefaultOptions, s.backup)]))))
  {
    ForwardSendsPrefix(s.server, env, s.backup);
    assert s.backup[..|s.backup|] == s.backup;
  }

  // ---- Dispatch, initialisation and recovery --------------------------------

  /** Recovery is due once a whole minute has passed since the last attempt. */
  predicate RecoveryDue(s: Logger, now: int) {
    now - s.lastRecovery >= TicksPerMinute
  }

  /** Termination measure: a nested `Initialize` can only start from a state
      with both flags false, and a nested `TryRecover` only when recovery is
      due; each of them leaves a state in which it cannot start again. */
  function InitRank(s: Logger): nat {
    if !s.initialized && !s.operational then 1 else 0
  }

  function GateRank(s: Logger, now: int): nat {
    if RecoveryDue(s, now) then 1 else 0
  }

  /** What every single-threaded run keeps: the buffer holds at most
      `Capacity` records, and nothing at all while the logger is initialised
      and operational, because the live path never buffers into a non-empty
      buffer and every route back to live delivery drains it. */
  predicate BufferBounded(s: Logger) {
    |s.backup| <= Backup.Capacity && (s.initialized && s.operational ==> s.backup == [])
  }

  /** `Log`: build the record, then `LogRecordToServer`. */
  function Log(s: Logger, env: Env, c: LogCall): (t: Logger)
    ensures BufferBounded(s) ==> BufferBounded(t)
    ensures t.minted > s.minted
    decreases InitRank(s), GateRank(s, env.now), 3
  {
    Dispatch(s.(minted := s.minted + 1), env, MakeRecord(s, env, c))
  }

  /** One unfolding of `Log`, for proofs that must not unfold further. */
  lemma LogUnfolds(s: Logger, env: Env, c: LogCall)
    ensures Log(s, env, c) == Dispatch(s.(minted := s.minted + 1), env, MakeRecord(s, env, c))
  {
  }

  /** Where `LogRecordToServer` goes after its own first step: it is done, or
      it continues into `Initialize` or `TryRecover` from the given state. */
  datatype Next = Done(state: Logger) | InitializeFrom(state: Logger) | RecoverFrom(state: Logger)

  /** The first step of `LogRecordToServer`. A healthy logger sends the record
      live, with level names; a failed send stores a diagnostic and the
      record and recovers if due. Otherwise the record is buffered with the
      cap, and the logger initialises if both flags are clear, or recovers
      if it is initialised, not operational and due. */
  function Step(s: Logger, env: Env, r: LogRecord): (n: Next)
    ensures n.InitializeFrom? ==> !s.initialized && !s.operational
    ensures n.RecoverFrom? ==> n.state.initialized && RecoveryDue(s, env.now)
    ensures BufferBounded(s) ==> BufferBounded(n.state)
    ensures n.state.minted >= s.minted
  {
    if s.initialized && s.operational then
      match Send(s.server, env, StringEnums, r)
      case Ok(ch) => Done(s.(server := Some(ch)))
      case Err(reason) =>
        var failed := Failed(s, env, r, reason);
        if RecoveryDue(failed, env.now) then RecoverFrom(failed) else Done(failed)
    else
      var buffered := s.(backup := Backup.Append(s.backup, r));
      if !buffered.initialized && !buffered.operational then InitializeFrom(buffered)
      else if !buffered.operational && RecoveryDue(buffered, env.now) then RecoverFrom(buffered)
      else Done(buffered)
  }

  /** The cases of `Step`: it initialises exactly when both flags are clear,
      and recovers exactly when the logger is initialised, recovery is due,
      and the record cannot go out live. Neither the recovery clock nor the
      initialised flag changes; a healthy logger sends, a failed send stores
      the diagnostic and the record, and everything else buffers. */
  lemma StepCases(s: Logger, env: Env, r: LogRecord)
    ensures var n := Step(s, env, r);
      && (n.InitializeFrom? <==> !s.initialized && !s.operational)
      && (n.RecoverFrom? <==> s.initialized && RecoveryDue(s, env.now)
                              && (!s.operational || Send(s.server, env, StringEnums, r).Err?))
      && n.state.lastRecovery == s.lastRecovery && n.state.attempts == s.attempts
      && n.state.initialized == s.initialized
      && (!n.InitializeFrom? ==> n.state.initialized || n.state.operational)
      && (!(s.initialized && s.operational) ==> n.state == s.(backup := Backup.Append(s.backup, r)))
      && (s.initialized && s.operational && Send(s.server, env, StringEnums, r).Ok? ==>
            n == Done(s.(server := Some(Send(s.server, env, StringEnums, r).value))))
      && (s.initialized && s.operational && Send(s.server, env, StringEnums, r).Err? ==>
            n.state == Failed(s, env, r, Send(s.server, env, StringEnums, r).error))
  {
  }

  /** `LogRecordToServer`. */
  function Dispatch(s: Logger, env: Env, r: LogRecord): (t: Logger)
    ensures BufferBounded(s) ==> BufferBounded(t)
    ensures t.minted >= s.minted
    decreases InitRank(s), GateRank(s, env.now), 2
  {
    match Step(s, env, r)
    case Done(t) => t
    case InitializeFrom(t) => Initialize(t, env, DefaultPort, true).0
    case RecoverFrom(t) => TryRecover(t, env)
  }

  /** The state after a failed live send: a diagnostic, then the record,
      enqueued without the cap, and the viewer marked non-operational. */
  function Failed(s: Logger, env: Env, r: LogRecord, reason: string): (t: Logger)
    ensures t.initialized == s.initialized && !t.operational && t.lastRecovery == s.lastRecovery
    ensures t.attempts == s.attempts && t.server == s.server && t.port == s.port
    ensures t.backup == s.backup + [Diagnostic(s, env, reason), r] && t.minted == s.minted + 1
  {
    s.(operational := false, backup := s.backup + [Diagnostic(s, env, reason), r], minted := s.minted + 1)
  }

  /** The state `Initialize` logs its own record from: a server created and
      started on the port, and, unlike the code, the viewer already marked
      operational. */
  function Started(s: Logger, env: Env, port: int): (t: Logger)
    ensures t.operational && t.initialized == s.initialized && t.port == port
    ensures t.backup == s.backup && t.minted == s.minted
    ensures t.lastRecovery == s.lastRecovery && t.attempts == s.attempts
    ensures t.server == Some(Start(Create(port), env.listenerStarts))
  {
    s.(port := port, server := Some(Start(Create(port), env.listenerStarts)), operational := true)
  }

  /** `Initialize`. `autoRecover` is accepted and ignored, as in the code. The
      listener's bind failure is swallowed inside `Start`, so this always
      reports success. */
  function Initialize(s: Logger, env: Env, port: int, autoRecover: bool): (r: (Logger, bool))
    ensures r.1 && r.0.initialized
    ensures s.initialized ==> r.0 == s
    ensures !s.initialized ==> r.0.backup == []
    ensures r.0.minted >= s.minted
    decreases 1, 0, 0
  {
    if s.initialized then (s, true)
    else
      var logged := Log(Started(s, env, port), env, InitCall);
      var ready := logged.(initialized := true, operational := true);
      (if |ready.backup| > 0 then Drain(ready, env) else ready, true)
  }

  /** The state `TryRecover` drains from: the attempt stamped at `now`, the
      server stopped and started again, and the viewer marked operational
      whether or not the listener bound. */
  function Restarted(s: Logger, env: Env, ch: Channel): (t: Logger)
    ensures t.operational && t.initialized == s.initialized && t.port == s.port
    ensures t.backup == s.backup && t.minted == s.minted
    ensures t.lastRecovery == env.now && t.attempts == s.attempts + 1
    ensures t.server == Some(Start(Stop(ch), env.listenerStarts))
  {
    s.(lastRecovery := env.now, attempts := s.attempts + 1,
       server := Some(Start(Stop(ch), env.listenerStarts)), operational := true)
  }

  /** `TryRecover`: stamp the attempt first, restart the server, mark it
      operational, drain, and log the recovery. A null server throws at
      `Stop` and leaves the viewer non-operational. */
  function TryRecover(s: Logger, env: Env): (t: Logger)
    ensures BufferBounded(s) ==> BufferBounded(t)
    ensures t.minted >= s.minted
    decreases InitRank(s), 1, 1
  {
    match s.server
    case None => s.(lastRecovery := env.now, attempts := s.attempts + 1, operational := false)
    case Some(ch) => Log(Drain(Restarted(s, env, ch), env), env, RecoveredCall)
  }

  /** `Shutdown`: only an initialised logger stops its server and clears both
      flags; the buffer and the rest are kept. */
  function Shutdown(s: Logger): (t: Logger)
    ensures s.initialized ==> !t.initialized && !t.operational
    ensures !s.initialized ==> t == s
    ensures t.backup == s.backup && t.port == s.port && t.lastRecovery == s.lastRecovery
    ensures t.server.Some? <==> s.server.Some?
    ensures s.initialized && s.server.Some? ==> !t.server.value.running
  {
    if !s.initialized then s
    else
      var server := match s.server case Some(ch) => Some(Stop(ch)) case None => None;
      s.(server := server, initialized := false, operational := false)
  }

  const UrlPrefix: string := "http://localhost:"

  /** `GetViewerUrl`: the configured port can be read back from the URL. */
  function GetViewerUrl(s: Logger): (url: string)
    ensures |url| > |UrlPrefix| + 1 && url[..|UrlPrefix|] == UrlPrefix && url[|url| - 1] == '/'
    ensures ParseInt(url[|UrlPrefix|..|url| - 1]) == Some(s.port)
  {
    var digits := IntToString(s.port);
    var url := UrlPrefix + digits + "/";
    assert url[|UrlPrefix|..|url| - 1] == digits;
    IntRoundTrip(s.port);
    url
  }

  // ---- Entry points built on Log ------------------------------------------------

  datatype ExceptionInfo = ExceptionInfo(
    typeName: string,
    message: string,
    stackTrace: Option<string>,
    innerMessage: Option<string>)

  function ExceptionObject(ex: ExceptionInfo): Json {
    Obj([("Type", Str(ex.typeName)),
         ("Message", Str(ex.message)),
         ("StackTrace", NullableToWire(ex.stackTrace)),
         ("InnerException", NullableToWire(ex.innerMessage))])
  }

  /** The dictionary `LogException` logs: the exception's details always, the
      caller's payload only when there is one. */
  function ExceptionPayload(ex: ExceptionInfo, data: Json): (p: Json)
    ensures Member(p, "Exception") == Some(ExceptionObject(ex))
    ensures Member(p, "CustomData").Some? <==> !data.Null?
    ensures !data.Null? ==> Member(p, "CustomData") == Some(data)
  {
    if data.Null? then Obj([("Exception", ExceptionObject(ex))])
    else Obj([("Exception", ExceptionObject(ex)), ("CustomData", data)])
  }

  /** The `Log` call `LogException` makes: level Error, the message defaulting
      to "Exception: " and the exception's message, the category to
      "Exception", the caller's site passed through. */
  function ExceptionCall(ex: ExceptionInfo, message: Option<string>, source: Option<string>,
                         category: Option<string>, data: Json, site: CallSite): (c: LogCall)
    ensures c.level == Levels.Error && c.source == source && c.threadId.None? && c.site == site
    ensures c.message == (if message.Some? then message.value else "Exception: " + ex.message)
    ensures c.category == Some(if category.Some? then category.value else "Exception")
    ensures c.data == ExceptionPayload(ex, data)
  {
    LogCall(message.GetOr("Exception: " + ex.message), Levels.Error, source,
            Some(category.GetOr("Exception")), ExceptionPayload(ex, data), None, site)
  }

  /** `LogException`: one `Log` call, so it draws a fresh id and keeps the
      buffer bound; `LogExceptionRecord` states the record built. */
  function LogException(s: Logger, env: Env, ex: ExceptionInfo, message: Option<string>,
                        source: Option<string>, category: Option<string>, data: Json, site: CallSite): (t: Logger)
    ensures BufferBounded(s) ==> BufferBounded(t)
    ensures t.minted > s.minted
  {
    Log(s, env, ExceptionCall(ex, message, source, category, data, site))
  }

  /** Where the five level shortcuts call `Log` from. The caller-info
      attributes are evaluated there, not at the shortcut's caller. */
  function ShortcutSite(level: Levels.Level): CallSite {
    match level
    case Info => CallSite("Info", LoggerFile, 246)
    case Warning => CallSite("Warning", LoggerFile, 249)
    case Error => CallSite("Error", LoggerFile, 252)
    case Debug => CallSite("Debug", LoggerFile, 255)
    case Critical => CallSite("Critical", LoggerFile, 258)
  }

  /** The `Log` call a shortcut makes, as written: only the level is fixed,
      and the call site is the shortcut's own line. */
  function ShortcutCall(level: Levels.Level, message: string, source: Option<string>,
                        category: Option<string>, data: Json): (c: LogCall)
    ensures c.level == level && c.message == message && c.source == source
    ensures c.category == category && c.data == data && c.threadId.None?
  {
    LogCall(message, level, source, category, data, None, ShortcutSite(level))
  }

  /** The shortcut call with the caller's site forwarded, as `LogException`
      does; this is the corrected form of `ShortcutCall`. */
  function ShortcutCallAt(level: Levels.Level, message: string, source: Option<string>,
                          category: Option<string>, data: Json, site: CallSite): (c: LogCall)
    ensures c.level == level && c.message == message && c.source == source
    ensures c.category == category && c.data == data && c.threadId.None? && c.site == site
  {
    LogCall(message, level, source, category, data, None, site)
  }

  /** The five level shortcuts, with the caller's site forwarded as the
      corrected `ShortcutCallAt` does. Like every `Log` call, each draws a
      fresh id and keeps the buffer bound; `ShortcutRecord` states the
      record built. */
  function Info(s: Logger, env: Env, message: string, source: Option<string>, category: Option<string>,
                data: Json, site: CallSite): (t: Logger)
    ensures BufferBounded(s) ==> BufferBounded(t)
    ensures t.minted > s.minted
  {
    Log(s, env, ShortcutCallAt(Levels.Info, message, source, category, data, site))
  }

  function Warning(s: Logger, env: Env, message: string, source: Option<string>, category: Option<string>,
                   data: Json, site: CallSite): (t: Logger)
    ensures BufferBounded(s) ==> BufferBounded(t)
    ensures t.minted > s.minted
  {
    Log(s, env, ShortcutCallAt(Levels.Warning, message, source, category, data, site))
  }

  function Error(s: Logger, env: Env, message: string, source: Option<string>, category: Option<string>,
                 data: Json, site: CallSite): (t: Logger)
    ensures BufferBounded(s) ==> BufferBounded(t)
    ensures t.minted > s.minted
  {
    Log(s, env, ShortcutCallAt(Levels.Error, message, source, category, data, site))
  }

  function Debug(s: Logger, env: Env, message: string, source: Option<string>, category: Option<string>,
                 data: Json, site: CallSite): (t: Logger)
    ensures BufferBounded(s) ==> BufferBounded(t)
    ensures t.minted > s.minted
  {
    Log(s, env, ShortcutCallAt(Levels.Debug, message, source, category, data, site))
  }

  function Critical(s: Logger, env: Env, message: string, source: Option<string>, category: Option<string>,
                    data: Json, site: CallSite): (t: Logger)
    ensures BufferBounded(s) ==> BufferBounded(t)
    ensures t.minted > s.minted
  {
    Log(s, env, ShortcutCallAt(Levels.Critical, message, source, category, data, site))
  }
}
