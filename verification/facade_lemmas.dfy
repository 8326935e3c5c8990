/** What the facade promises its callers, stated over the model in `Facade`. */
module FacadeLemmas {
  import opened Common
  import opened Decimal
  import opened Json
  import Levels
  import opened Records
  import Backup
  import opened ViewerServer
  import opened Facade

  // ---- Before the first Initialize ---------------------------------------------

  /** Before `Initialize`, a log call only buffers: the viewer is operational
      but not initialised, so neither sending, initialising nor recovering
      is attempted. */
  lemma UninitializedLogBuffers(s: Logger, env: Env, c: LogCall)
    requires !s.initialized && s.operational
    ensures Log(s, env, c) == s.(backup := Backup.Append(s.backup, MakeRecord(s, env, c)), minted := s.minted + 1)
  {
    var s1 := s.(minted := s.minted + 1);
    assert Log(s, env, c) == Dispatch(s1, env, MakeRecord(s, env, c));
  }

  /** The first record buffered into an empty buffer is all it holds. */
  lemma FirstLogBuffers(s: Logger, env: Env, c: LogCall)
    requires !s.initialized && s.operational && s.backup == []
    ensures var t := Log(s, env, c);
      !t.initialized && t.operational && t.server == s.server && t.backup == [MakeRecord(s, env, c)]
  {
    var r := MakeRecord(s, env, c);
    UninitializedLogBuffers(s, env, c);
    Backup.AppendToEmpty(s.backup, r);
  }

  /** From the static initialisers, a log call only buffers. */
  lemma BootLogBuffers(env: Env, c: LogCall)
    ensures var t := Log(Boot, env, c);
      !t.initialized && t.operational && t.server.None? && t.backup == [MakeRecord(Boot, env, c)]
  {
    FirstLogBuffers(Boot, env, c);
  }

  // ---- Live dispatch ------------------------------------------------------------

  /** A healthy logger sends the record, with level names, and changes
      nothing else. */
  lemma HealthyLogSends(s: Logger, env: Env, c: LogCall)
    requires s.initialized && s.operational && s.server.Some?
    requires Encode(env, StringEnums, MakeRecord(s, env, c)).Ok?
    ensures Log(s, env, c)
         == s.(server := Some(AddLogEntry(s.server.value, Encode(env, StringEnums, MakeRecord(s, env, c)).value)),
               minted := s.minted + 1)
  {
  }

  /** A failed live send stores a diagnostic and then the record itself,
      without the capacity cap, and marks the viewer non-operational; within
      a minute of the last recovery attempt nothing more happens. */
  lemma SendFailureBuffersBoth(s: Logger, env: Env, c: LogCall)
    requires s.initialized && s.operational
    requires Send(s.server, env, StringEnums, MakeRecord(s, env, c)).Err?
    requires !RecoveryDue(s, env.now)
    ensures var r := MakeRecord(s, env, c);
      var d := Diagnostic(s.(minted := s.minted + 1), env, Send(s.server, env, StringEnums, r).error);
      Log(s, env, c) == s.(operational := false, backup := s.backup + [d, r], minted := s.minted + 2)
  {
  }

  /** The failure branch enqueues without the cap. From a live logger with a
      full buffer it would exceed the capacity, but no single-threaded run
      reaches such a state (`RunKeepsBufferBounded`): only records enqueued by
      other threads while the logger is live can fill it. */
  lemma SendFailureExceedsCapacity(s: Logger, env: Env, c: LogCall)
    requires s.initialized && s.operational && |s.backup| == Backup.Capacity
    requires Send(s.server, env, StringEnums, MakeRecord(s, env, c)).Err?
    requires !RecoveryDue(s, env.now)
    ensures |Log(s, env, c).backup| == Backup.Capacity + 2
  {
    SendFailureBuffersBoth(s, env, c);
  }

  /** In a state a single-threaded run reaches, a failed live send starts
      from an empty buffer, so it leaves exactly the diagnostic and the record. */
  lemma SendFailureFromBoundedState(s: Logger, env: Env, c: LogCall)
    requires BufferBounded(s) && s.initialized && s.operational
    requires Send(s.server, env, StringEnums, MakeRecord(s, env, c)).Err?
    requires !RecoveryDue(s, env.now)
    ensures var r := MakeRecord(s, env, c);
      var d := Diagnostic(s.(minted := s.minted + 1), env, Send(s.server, env, StringEnums, r).error);
      Log(s, env, c).backup == [d, r]
  {
    SendFailureBuffersBoth(s, env, c);
  }

  /** A failed live send while recovery is due recovers in the same call. */
  lemma SendFailureRecovers(s: Logger, env: Env, c: LogCall)
    requires s.initialized && s.operational
    requires Send(s.server, env, StringEnums, MakeRecord(s, env, c)).Err?
    requires RecoveryDue(s, env.now)
    ensures var r := MakeRecord(s, env, c);
      Log(s, env, c) == TryRecover(Failed(s.(minted := s.minted + 1), env, r, Send(s.server, env, StringEnums, r).error), env)
  {
  }

  /** An initialised but non-operational logger buffers with the cap, and
      leaves recovery alone until it is due. */
  lemma DegradedLogBuffers(s: Logger, env: Env, c: LogCall)
    requires s.initialized && !s.operational && !RecoveryDue(s, env.now)
    ensures var t := Log(s, env, c);
      t == s.(backup := Backup.Append(s.backup, MakeRecord(s, env, c)), minted := s.minted + 1)
      && (|s.backup| <= Backup.Capacity ==> |t.backup| <= Backup.Capacity)
  {
  }

  // ---- How often recovery runs ----------------------------------------------------

  /** `Initialize` never touches the recovery clock. */
  lemma InitializeKeepsRecoveryClock(s: Logger, env: Env, port: int, autoRecover: bool)
    ensures var t := Initialize(s, env, port, autoRecover).0;
      t.attempts == s.attempts && t.lastRecovery == s.lastRecovery
  {
    if !s.initialized {
      UninitializedLogBuffers(Started(s, env, port), env, InitCall);
    }
  }

  /** Unless a minute has passed since the last attempt, a log call attempts
      no recovery. */
  lemma LogBeforeRecoveryDue(s: Logger, env: Env, c: LogCall)
    requires !RecoveryDue(s, env.now)
    ensures var t := Log(s, env, c); t.attempts == s.attempts && t.lastRecovery == s.lastRecovery
  {
    var r := MakeRecord(s, env, c);
    var s1 := s.(minted := s.minted + 1);
    LogUnfolds(s, env, c);
    StepCases(s1, env, r);
    if !s.initialized && !s.operational {
      var buffered := s1.(backup := Backup.Append(s1.backup, r));
      assert Log(s, env, c) == Initialize(buffered, env, DefaultPort, true).0;
      InitializeKeepsRecoveryClock(buffered, env, DefaultPort, true);
    }
  }

  /** One unfolding of `TryRecover` with a server present. */
  lemma TryRecoverWithServer(s: Logger, env: Env)
    requires s.server.Some?
    ensures TryRecover(s, env) == Log(Drain(Restarted(s, env, s.server.value), env), env, RecoveredCall)
  {
  }

  /** `TryRecover` stamps exactly one attempt at the current time, whatever
      follows: its closing log call happens with recovery not due. */
  lemma TryRecoverStampsOnce(s: Logger, env: Env)
    ensures var t := TryRecover(s, env); t.attempts == s.attempts + 1 && t.lastRecovery == env.now
  {
    if s.server.Some? {
      TryRecoverWithServer(s, env);
      LogBeforeRecoveryDue(Drain(Restarted(s, env, s.server.value), env), env, RecoveredCall);
    }
  }

  /** A log call that finds the logger initialised but unable to deliver, a
      minute or more after the last attempt. */
  predicate TriggersRecovery(s: Logger, env: Env, c: LogCall) {
    RecoveryDue(s, env.now) && s.initialized
    && (!s.operational || Send(s.server, env, StringEnums, MakeRecord(s, env, c)).Err?)
  }

  /** A log call makes one recovery attempt, stamped now, exactly when it
      triggers recovery, and otherwise none. */
  lemma LogRecoveryAttempts(s: Logger, env: Env, c: LogCall)
    ensures var t := Log(s, env, c);
      if TriggersRecovery(s, env, c) then t.attempts == s.attempts + 1 && t.lastRecovery == env.now
      else t.attempts == s.attempts && t.lastRecovery == s.lastRecovery
  {
    if !RecoveryDue(s, env.now) {
      LogBeforeRecoveryDue(s, env, c);
    } else if s.initialized && s.operational {
      LiveRecoveryAttempts(s, env, c);
    } else {
      BufferedRecoveryAttempts(s, env, c);
    }
  }

  /** The live-path case of `LogRecoveryAttempts`: only a failed send recovers. */
  lemma LiveRecoveryAttempts(s: Logger, env: Env, c: LogCall)
    requires RecoveryDue(s, env.now) && s.initialized && s.operational
    ensures var t := Log(s, env, c);
      if Send(s.server, env, StringEnums, MakeRecord(s, env, c)).Err? then t.attempts == s.attempts + 1 && t.lastRecovery == env.now
      else t.attempts == s.attempts && t.lastRecovery == s.lastRecovery
  {
    var r := MakeRecord(s, env, c);
    match Send(s.server, env, StringEnums, r)
    case Ok(_) =>
    case Err(reason) =>
      TryRecoverStampsOnce(Failed(s.(minted := s.minted + 1), env, r, reason), env);
  }

  /** The buffering-path case of `LogRecoveryAttempts`: an initialised logger
      recovers, a shut-down one re-initialises without touching the clock. */
  lemma BufferedRecoveryAttempts(s: Logger, env: Env, c: LogCall)
    requires RecoveryDue(s, env.now) && !(s.initialized && s.operational)
    ensures var t := Log(s, env, c);
      if s.initialized then t.attempts == s.attempts + 1 && t.lastRecovery == env.now
      else t.attempts == s.attempts && t.lastRecovery == s.lastRecovery
  {
    var r := MakeRecord(s, env, c);
    var s1 := s.(minted := s.minted + 1);
    var buffered := s1.(backup := Backup.Append(s1.backup, r));
    LogUnfolds(s, env, c);
    StepCases(s1, env, r);
    if !s.initialized && !s.operational {
      assert Log(s, env, c) == Initialize(buffered, env, DefaultPort, true).0;
      InitializeKeepsRecoveryClock(buffered, env, DefaultPort, true);
    } else if !s.operational {
      assert Log(s, env, c) == TryRecover(buffered, env);
      TryRecoverStampsOnce(buffered, env);
    }
  }

  /** A sequence of log calls, each with its own surroundings. */
  function Replay(s: Logger, calls: seq<(Env, LogCall)>): Logger
    decreases |calls|
  {
    if calls == [] then s else Replay(Log(s, calls[0].0, calls[0].1), calls[1..])
  }

  /** Log calls that all fall within one minute make at most one recovery
      attempt between them, and none if the last attempt already falls in
      that minute. The clock need not be monotonic. */
  lemma {:induction false} AtMostOneRecoveryPerMinute(s: Logger, calls: seq<(Env, LogCall)>, start: int)
    requires forall i :: 0 <= i < |calls| ==> start <= calls[i].0.now < start + TicksPerMinute
    ensures Replay(s, calls).attempts <= s.attempts + 1
    ensures s.lastRecovery >= start ==> Replay(s, calls).attempts == s.attempts
    decreases |calls|
  {
    if calls != [] {
      var env := calls[0].0;
      var t := Log(s, env, calls[0].1);
      LogRecoveryAttempts(s, env, calls[0].1);
      assert forall i :: 0 <= i < |calls[1..]| ==> calls[1..][i] == calls[i + 1];
      AtMostOneRecoveryPerMinute(t, calls[1..], start);
    }
  }

  // ---- The buffer bound ---------------------------------------------------------

  /** A call into the facade that can change its state. `LogException` and
      the level shortcuts are log calls; `GetViewerUrl` changes nothing. */
  datatype Call =
    | LogOp(env: Env, call: LogCall)
    | InitializeOp(env: Env, port: int, autoRecover: bool)
    | ShutdownOp

  function Apply(s: Logger, op: Call): (t: Logger)
    ensures BufferBounded(s) ==> BufferBounded(t)
  {
    match op
    case LogOp(env, c) => Log(s, env, c)
    case InitializeOp(env, port, autoRecover) => Initialize(s, env, port, autoRecover).0
    case ShutdownOp => Shutdown(s)
  }

  /** The calls of one thread, in order. */
  function Run(s: Logger, ops: seq<Call>): Logger
    decreases |ops|
  {
    if ops == [] then s else Run(Apply(s, ops[0]), ops[1..])
  }

  /** Whatever a single thread calls, in whatever order, the buffer never
      holds more than 5000 records, and it is empty whenever the logger is
      initialised and operational. */
  lemma {:induction false} RunKeepsBufferBounded(s: Logger, ops: seq<Call>)
    requires BufferBounded(s)
    ensures BufferBounded(Run(s, ops))
    ensures |Run(s, ops).backup| <= Backup.Capacity
    decreases |ops|
  {
    if ops != [] {
      RunKeepsBufferBounded(Apply(s, ops[0]), ops[1..]);
    }
  }

  /** From the static initialisers, every single-threaded run keeps the bound. */
  lemma BootRunBounded(ops: seq<Call>)
    ensures BufferBounded(Run(Boot, ops))
  {
    RunKeepsBufferBounded(Boot, ops);
  }

  // ---- Initialize ------------------------------------------------------------------

  /** `Initialize` on an uninitialised logger, whether never initialised or
      shut down: it reports success, starts a server on the given port
      whether or not the port binds, buffers its own record with the cap,
      and then forwards the buffer oldest first with default options. The
      viewer stays operational exactly when every buffered record serialised. */
  lemma InitializeForwardsBuffer(s: Logger, env: Env, port: int, autoRecover: bool)
    requires !s.initialized
    ensures var (t, ok) := Initialize(s, env, port, autoRecover);
      var pending := Backup.Append(s.backup, MakeRecord(s, env, InitCall));
      ok && t.initialized && t.backup == [] && t.port == port && t.minted == s.minted + 1
      && t.server.Some? && t.server.value.port == port && t.server.value.running == env.listenerStarts
      && (t.operational <==> AllEncode(env, DefaultOptions, pending))
      && t.server.value.queue == EncodeAll(env, DefaultOptions, pending[..Sendable(env, DefaultOptions, pending)])
  {
    var started := Started(s, env, port);
    var pending := Backup.Append(s.backup, MakeRecord(s, env, InitCall));
    UninitializedLogBuffers(started, env, InitCall);
    assert MakeRecord(started, env, InitCall) == MakeRecord(s, env, InitCall);
    var ready := started.(backup := pending, minted := s.minted + 1, initialized := true);
    assert Initialize(s, env, port, autoRecover) == (Drain(ready, env), true);
    DrainForwards(ready, env);
  }

  /** Once initialised, `Initialize` does nothing and reports success. */
  lemma InitializeIdempotent(s: Logger, env: Env, port: int, autoRecover: bool)
    requires s.initialized
    ensures Initialize(s, env, port, autoRecover) == (s, true)
  {
  }

  /** After `Shutdown`, `Initialize` brings the logger back on the new port. */
  lemma ReinitializeAfterShutdown(s: Logger, env: Env, port: int)
    requires s.initialized
    ensures var (t, ok) := Initialize(Shutdown(s), env, port, true);
      ok && t.initialized && t.backup == [] && t.port == port && t.server.Some? && t.server.value.port == port
  {
    InitializeForwardsBuffer(Shutdown(s), env, port, true);
  }

  /** With both flags false, a log call buffers its record and initialises
      lazily with the default arguments. */
  lemma InactiveLogInitializes(s: Logger, env: Env, c: LogCall)
    requires !s.initialized && !s.operational
    ensures Log(s, env, c)
         == Initialize(s.(minted := s.minted + 1, backup := Backup.Append(s.backup, MakeRecord(s, env, c))),
                       env, DefaultPort, true).0
  {
    assert Log(s, env, c) == Dispatch(s.(minted := s.minted + 1), env, MakeRecord(s, env, c));
  }

  /** After `Shutdown`, the next log call initialises lazily on the default port. */
  lemma LogAfterShutdownInitializes(s: Logger, env: Env, c: LogCall)
    requires s.initialized
    ensures var t := Log(Shutdown(s), env, c);
      t.initialized && t.backup == [] && t.port == DefaultPort
  {
    var down := Shutdown(s);
    var buffered := down.(minted := down.minted + 1, backup := Backup.Append(down.backup, MakeRecord(down, env, c)));
    InactiveLogInitializes(down, env, c);
    InitializeForwardsBuffer(buffered, env, DefaultPort, true);
  }

  /** The viewer address of a logger on the default port. */
  lemma DefaultViewerUrl(s: Logger)
    requires s.port == DefaultPort
    ensures GetViewerUrl(s) == "http://localhost:19867/"
  {
    DefaultPortDigits();
    assert GetViewerUrl(s) == UrlPrefix + NatToString(19867) + "/";
  }

  /** The default port's decimal digits, one digit at a time. */
  lemma DefaultPortDigits()
    ensures NatToString(19867) == "19867"
  {
    assert NatToString(1) == "1";
    assert NatToString(19) == NatToString(1) + [DigitChar(9)] == "19";
    assert NatToString(198) == NatToString(19) + [DigitChar(8)] == "198";
    assert NatToString(1986) == NatToString(198) + [DigitChar(6)] == "1986";
    assert NatToString(19867) == NatToString(1986) + [DigitChar(7)] == "19867";
  }

  // ---- Recovery ------------------------------------------------------------------

  /** A recovery whose drain succeeds: the buffer goes out oldest first with
      default options, then the recovery record live. The viewer is marked
      operational even when the restarted listener did not bind. */
  lemma RecoveryDrainsInOrder(s: Logger, env: Env)
    requires s.initialized && s.server.Some?
    requires AllEncode(env, DefaultOptions, s.backup)
    requires Encode(env, StringEnums, MakeRecord(s, env, RecoveredCall)).Ok?
    ensures var t := TryRecover(s, env);
      t.operational && t.backup == [] && t.lastRecovery == env.now
      && t.server.Some? && t.server.value.running == env.listenerStarts
      && t.server.value.queue == s.server.value.queue + EncodeAll(env, DefaultOptions, s.backup)
                                 + [Encode(env, StringEnums, MakeRecord(s, env, RecoveredCall)).value]
  {
    TryRecoverWithServer(s, env);
    var drained := Drain(Restarted(s, env, s.server.value), env);
    DrainForwards(Restarted(s, env, s.server.value), env);
    assert s.backup[..Sendable(env, DefaultOptions, s.backup)] == s.backup;
    assert drained.initialized && drained.operational && drained.server.Some?;
    assert MakeRecord(drained, env, RecoveredCall) == MakeRecord(s, env, RecoveredCall);
    HealthyLogSends(drained, env, RecoveredCall);
  }

  /** A recovery whose drain fails part-way: the records before the failure
      were sent, the rest are lost, and the buffer holds only the recovery
      record. */
  lemma RecoveryLosesRemainder(s: Logger, env: Env)
    requires s.initialized && s.server.Some?
    requires !AllEncode(env, DefaultOptions, s.backup)
    ensures var t := TryRecover(s, env); var k := Sendable(env, DefaultOptions, s.backup);
      k < |s.backup| && !t.operational && t.backup == [MakeRecord(s, env, RecoveredCall)]
      && t.server.Some?
      && t.server.value.queue == s.server.value.queue + EncodeAll(env, DefaultOptions, s.backup[..k])
  {
    TryRecoverWithServer(s, env);
    var drained := Drain(Restarted(s, env, s.server.value), env);
    DrainForwards(Restarted(s, env, s.server.value), env);
    assert drained.initialized && !drained.operational && drained.backup == [];
    assert MakeRecord(drained, env, RecoveredCall) == MakeRecord(s, env, RecoveredCall);
    DegradedLogBuffers(drained, env, RecoveredCall);
    Backup.AppendToEmpty(drained.backup, MakeRecord(s, env, RecoveredCall));
  }

  /** With no server, recovery fails at once and leaves the viewer down. */
  lemma RecoveryWithoutServer(s: Logger, env: Env)
    requires s.server.None?
    ensures TryRecover(s, env) == s.(lastRecovery := env.now, attempts := s.attempts + 1, operational := false)
  {
  }

  // ---- Exceptions -------------------------------------------------------------------

  /** `LogException` records an Error whose payload carries the exception's
      details, at the caller's site, in whatever state it is called: the
      record it hands to `Log` is built from `ExceptionCall`. */
  lemma LogExceptionRecord(s: Logger, env: Env, ex: ExceptionInfo, message: Option<string>,
                           source: Option<string>, category: Option<string>, data: Json, site: CallSite)
    ensures var r := MakeRecord(s, env, ExceptionCall(ex, message, source, category, data, site));
      && r.level == Levels.Error && r.location == Some(Location(env, site))
      && r.source == (if source.Some? then source.value else "Unknown")
      && r.category == (if category.Some? then category.value else "Exception")
      && r.message == (if message.Some? then message.value else "Exception: " + ex.message)
      && r.threadId == env.thread && r.id == env.guid(s.minted) && r.timestamp == env.now
      && Member(r.data, "Exception") == Some(ExceptionObject(ex))
      && (Member(r.data, "CustomData").Some? <==> !data.Null?)
      && (!data.Null? ==> Member(r.data, "CustomData") == Some(data))
  {
    RecordFields(s, env, ExceptionCall(ex, message, source, category, data, site));
  }

  /** Before the first `Initialize`, that record is what `LogException` buffers. */
  lemma UninitializedLogExceptionBuffers(s: Logger, env: Env, ex: ExceptionInfo, message: Option<string>,
                                         source: Option<string>, category: Option<string>, data: Json, site: CallSite)
    requires !s.initialized && s.operational
    ensures var t := LogException(s, env, ex, message, source, category, data, site);
      t.backup == Backup.Append(s.backup, MakeRecord(s, env, ExceptionCall(ex, message, source, category, data, site)))
  {
    UninitializedLogBuffers(s, env, ExceptionCall(ex, message, source, category, data, site));
  }

  // ---- Call sites ------------------------------------------------------------------

  /** Position of the last ':' in a string, if any. */
  function LastColon(s: string): (k: Option<nat>)
    ensures k.Some? ==> k.value < |s| && s[k.value] == ':'
    ensures k.Some? ==> forall j :: k.value < j < |s| ==> s[j] != ':'
    ensures k.None? ==> forall j :: 0 <= j < |s| ==> s[j] != ':'
    decreases |s|
  {
    if s == [] then None
    else if s[|s| - 1] == ':' then Some(|s| - 1)
    else LastColon(s[..|s| - 1])
  }

  /** The line number a viewer reads off a record's location. */
  function LineOf(location: string): Option<int> {
    match LastColon(location)
    case None => None
    case Some(k) => ParseInt(location[k + 1..])
  }

  /** The line number can always be read back from a location. */
  lemma LocationLine(env: Env, site: CallSite)
    ensures LineOf(Location(env, site)) == Some(site.line)
  {
    var head := env.fileName(site.filePath) + ":" + site.member;
    var line := IntToString(site.line);
    var loc := Location(env, site);
    assert loc == head + ":" + line;
    assert loc[|head|] == ':';
    assert forall j :: |head| < j < |loc| ==> loc[j] == line[j - |head| - 1];
    var k := LastColon(loc).value;
    assert k == |head|;
    assert loc[k + 1..] == line;
    IntRoundTrip(site.line);
  }

  /** As written, a shortcut's record does not depend on its caller at all:
      the location is the shortcut's own site in `AdvancedLogger.cs`, so a
      caller on any other line is never reported. */
  lemma ShortcutHidesCaller(s: Logger, env: Env, level: Levels.Level, message: string, source: Option<string>,
                            category: Option<string>, data: Json, caller: CallSite)
    ensures var r := MakeRecord(s, env, ShortcutCall(level, message, source, category, data));
      && r.location == Some(Location(env, ShortcutSite(level)))
      && LineOf(r.location.value) == Some(ShortcutSite(level).line)
      && (caller.line != ShortcutSite(level).line ==> LineOf(r.location.value) != Some(caller.line))
  {
    LocationLine(env, ShortcutSite(level));
  }

  /** With the caller's site forwarded, the record names the caller's line. */
  lemma ShortcutAtReportsCaller(s: Logger, env: Env, level: Levels.Level, message: string, source: Option<string>,
                                category: Option<string>, data: Json, caller: CallSite)
    ensures var r := MakeRecord(s, env, ShortcutCallAt(level, message, source, category, data, caller));
      r.location.Some? && LineOf(r.location.value) == Some(caller.line)
  {
    LocationLine(env, caller);
  }

  /** A shortcut fixes only the level: the record takes the caller's message
      and payload, the usual defaults for source and category, the current
      thread, and the caller's site. */
  lemma ShortcutRecord(s: Logger, env: Env, level: Levels.Level, message: string, source: Option<string>,
                       category: Option<string>, data: Json, site: CallSite)
    ensures var r := MakeRecord(s, env, ShortcutCallAt(level, message, source, category, data, site));
      && r.level == level && r.message == message && r.data == data
      && r.source == (if source.Some? then source.value else "Unknown")
      && r.category == (if category.Some? then category.value else "General")
      && r.location == Some(Location(env, site)) && r.threadId == env.thread
  {
    RecordFields(s, env, ShortcutCallAt(level, message, source, category, data, site));
  }
}
