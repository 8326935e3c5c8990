/** The facade's dispatch exactly as written, where `Initialize` sets its flags
    only after logging its own record. Nested calls are counted against
    `fuel`; `None` means the call chain is deeper than the fuel allows, so
    `None` for every fuel means the call never returns (on the real runtime,
    an uncatchable stack overflow: `Monitor` locks are re-entrant, so the
    nested calls on one thread do not block).

    From every state with one of the two flags set the code returns, and it
    agrees with `Facade`; from a state with both clear (after `Shutdown`)
    `Initialize` and `Log` never return. */
module AsWritten {
  import opened Common
  import Backup
  import opened Records
  import opened ViewerServer
  import F = Facade

  function Log(fuel: nat, s: F.Logger, env: F.Env, c: F.LogCall): Option<F.Logger>
    decreases fuel, 1
  {
    Dispatch(fuel, s.(minted := s.minted + 1), env, F.MakeRecord(s, env, c))
  }

  lemma LogUnfolds(fuel: nat, s: F.Logger, env: F.Env, c: F.LogCall)
    ensures Log(fuel, s, env, c) == Dispatch(fuel, s.(minted := s.minted + 1), env, F.MakeRecord(s, env, c))
  {
  }

  function Dispatch(fuel: nat, s: F.Logger, env: F.Env, r: LogRecord): Option<F.Logger>
    decreases fuel, 0
  {
    match F.Step(s, env, r)
    case Done(t) => Some(t)
    case InitializeFrom(t) =>
      if fuel == 0 then None
      else
        (match Initialize(fuel - 1, t, env, F.DefaultPort, true)
         case None => None
         case Some(result) => Some(result.0))
    case RecoverFrom(t) =>
      if fuel == 0 then None else TryRecover(fuel - 1, t, env)
  }

  /** `Initialize` as written: the server is started but the viewer is not
      yet marked operational when the initialisation record is logged. */
  function Initialize(fuel: nat, s: F.Logger, env: F.Env, port: int, autoRecover: bool): Option<(F.Logger, bool)>
    decreases fuel, 2
  {
    if s.initialized then Some((s, true))
    else
      var started := s.(port := port, server := Some(Start(Create(port), env.listenerStarts)));
      match Log(fuel, started, env, F.InitCall)
      case None => None
      case Some(logged) =>
        var ready := logged.(initialized := true, operational := true);
        Some((if |ready.backup| > 0 then F.Drain(ready, env) else ready, true))
  }

  function TryRecover(fuel: nat, s: F.Logger, env: F.Env): Option<F.Logger>
    decreases fuel, 2
  {
    match s.server
    case None => Some(s.(lastRecovery := env.now, attempts := s.attempts + 1, operational := false))
    case Some(ch) => Log(fuel, F.Drain(F.Restarted(s, env, ch), env), env, F.RecoveredCall)
  }

  // ---- Divergence ---------------------------------------------------------------

  /** With both flags clear, `Initialize` logs its record, which finds both
      flags still clear and calls `Initialize` again: it never returns. */
  lemma {:induction false} InactiveInitializeNeverReturns(fuel: nat, s: F.Logger, env: F.Env, port: int, autoRecover: bool)
    requires !s.initialized && !s.operational
    ensures Initialize(fuel, s, env, port, autoRecover).None?
    decreases fuel, 1
  {
    var started := s.(port := port, server := Some(Start(Create(port), env.listenerStarts)));
    InactiveDispatchNeverReturns(fuel, started.(minted := started.minted + 1), env, F.MakeRecord(started, env, F.InitCall));
  }

  /** The nested step of the divergence: buffering keeps both flags clear. */
  lemma {:induction false} InactiveDispatchNeverReturns(fuel: nat, s: F.Logger, env: F.Env, r: LogRecord)
    requires !s.initialized && !s.operational
    ensures Dispatch(fuel, s, env, r).None?
    decreases fuel, 0
  {
    var n := F.Step(s, env, r);
    assert n.InitializeFrom? && !n.state.initialized && !n.state.operational;
    if fuel > 0 {
      InactiveInitializeNeverReturns(fuel - 1, n.state, env, F.DefaultPort, true);
    }
  }

  /** After `Shutdown`, the next log call never returns, however deep the
      stack: the lazy `Initialize` it triggers diverges. */
  lemma LogAfterShutdownNeverReturns(fuel: nat, s: F.Logger, env: F.Env, c: F.LogCall)
    requires s.initialized
    ensures Log(fuel, F.Shutdown(s), env, c).None?
  {
    InactiveLogNeverReturns(fuel, F.Shutdown(s), env, c);
  }

  /** With both flags clear, a log call buffers and initialises, and so never returns. */
  lemma InactiveLogNeverReturns(fuel: nat, s: F.Logger, env: F.Env, c: F.LogCall)
    requires !s.initialized && !s.operational
    ensures Log(fuel, s, env, c).None?
  {
    var s1 := s.(minted := s.minted + 1);
    var r := F.MakeRecord(s, env, c);
    assert Log(fuel, s, env, c) == Dispatch(fuel, s1, env, r);
    InactiveDispatchNeverReturns(fuel, s1, env, r);
  }

  /** Likewise an explicit `Initialize` after `Shutdown`. */
  lemma InitializeAfterShutdownNeverReturns(fuel: nat, s: F.Logger, env: F.Env, port: int)
    requires s.initialized
    ensures Initialize(fuel, F.Shutdown(s), env, port, true).None?
  {
    InactiveInitializeNeverReturns(fuel, F.Shutdown(s), env, port, true);
  }
}
