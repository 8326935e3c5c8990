/** The corrected `Facade` against the code as written (`AsWritten`): from
    every state with one of the two flags set the code returns, given room
    for one nested call, and produces the same state as the model. */
module AsWrittenAgreement {
  import opened Common
  import opened Records
  import opened ViewerServer
  import F = Facade
  import A = AsWritten

  /** States from which a log call makes no nested call at all. */
  predicate Settled(s: F.Logger, now: int) {
    (!s.initialized && s.operational) || (s.initialized && !F.RecoveryDue(s, now))
  }

  lemma LogAgreesWhenSettled(fuel: nat, s: F.Logger, env: F.Env, c: F.LogCall)
    requires Settled(s, env.now)
    ensures A.Log(fuel, s, env, c) == Some(F.Log(s, env, c))
  {
    var s1 := s.(minted := s.minted + 1);
    var r := F.MakeRecord(s, env, c);
    A.LogUnfolds(fuel, s, env, c);
    F.LogUnfolds(s, env, c);
    var n := F.Step(s1, env, r);
    assert n.Done?;
  }

  /** `TryRecover` returns whatever the fuel, and as in the model: its closing
      log call starts from a settled state. */
  lemma TryRecoverAgrees(fuel: nat, s: F.Logger, env: F.Env)
    ensures A.TryRecover(fuel, s, env) == Some(F.TryRecover(s, env))
  {
    if s.server.Some? {
      var drained := F.Drain(F.Restarted(s, env, s.server.value), env);
      LogAgreesWhenSettled(fuel, drained, env, F.RecoveredCall);
      assert F.TryRecover(s, env) == F.Log(drained, env, F.RecoveredCall);
    }
  }

  /** With one flag set, `Initialize` returns and agrees with the model: the
      model's early `operational := true` changes nothing there. */
  lemma InitializeAgrees(fuel: nat, s: F.Logger, env: F.Env, port: int, autoRecover: bool)
    requires s.initialized || s.operational
    ensures A.Initialize(fuel, s, env, port, autoRecover) == Some(F.Initialize(s, env, port, autoRecover))
  {
    if !s.initialized {
      var started := s.(port := port, server := Some(Start(Create(port), env.listenerStarts)));
      assert started == F.Started(s, env, port);
      LogAgreesWhenSettled(fuel, started, env, F.InitCall);
    }
  }

  /** With one flag set, a log call returns given room for one nested call,
      and agrees with the model. */
  lemma LogAgrees(fuel: nat, s: F.Logger, env: F.Env, c: F.LogCall)
    requires fuel >= 1 && (s.initialized || s.operational)
    ensures A.Log(fuel, s, env, c) == Some(F.Log(s, env, c))
  {
    var s1 := s.(minted := s.minted + 1);
    var r := F.MakeRecord(s, env, c);
    A.LogUnfolds(fuel, s, env, c);
    F.LogUnfolds(s, env, c);
    DispatchAgrees(fuel, s1, env, r);
  }

  /** With one flag set, dispatch never reaches `Initialize`, and any
      recovery it starts agrees with the model. */
  lemma DispatchAgrees(fuel: nat, s: F.Logger, env: F.Env, r: LogRecord)
    requires fuel >= 1 && (s.initialized || s.operational)
    ensures A.Dispatch(fuel, s, env, r) == Some(F.Dispatch(s, env, r))
  {
    if F.Step(s, env, r).RecoverFrom? {
      DispatchRecoveryAgrees(fuel, s, env, r);
    } else {
      DispatchDoneAgrees(fuel, s, env, r);
    }
  }

  lemma DispatchDoneAgrees(fuel: nat, s: F.Logger, env: F.Env, r: LogRecord)
    requires F.Step(s, env, r).Done?
    ensures A.Dispatch(fuel, s, env, r) == Some(F.Dispatch(s, env, r))
  {
  }

  lemma DispatchRecoveryAgrees(fuel: nat, s: F.Logger, env: F.Env, r: LogRecord)
    requires fuel >= 1 && F.Step(s, env, r).RecoverFrom?
    ensures A.Dispatch(fuel, s, env, r) == Some(F.Dispatch(s, env, r))
  {
    DispatchRecovers(fuel, s, env, r);
    RecoveryResultsAgree(A.Dispatch(fuel, s, env, r), F.Dispatch(s, env, r), fuel - 1, F.Step(s, env, r).state, env);
  }

  /** `TryRecoverAgrees` for named results, so that the state recovered from
      is not unfolded again. */
  lemma RecoveryResultsAgree(x: Option<F.Logger>, y: F.Logger, fuel: nat, t: F.Logger, env: F.Env)
    requires x == A.TryRecover(fuel, t, env) && y == F.TryRecover(t, env)
    ensures x == Some(y)
  {
    TryRecoverAgrees(fuel, t, env);
  }

  /** Both dispatches hand the same state to their `TryRecover`. */
  lemma DispatchRecovers(fuel: nat, s: F.Logger, env: F.Env, r: LogRecord)
    requires fuel >= 1 && F.Step(s, env, r).RecoverFrom?
    ensures A.Dispatch(fuel, s, env, r) == A.TryRecover(fuel - 1, F.Step(s, env, r).state, env)
    ensures F.Dispatch(s, env, r) == F.TryRecover(F.Step(s, env, r).state, env)
  {
  }

  /** From the initial state, as written and as modelled agree. */
  lemma BootInitializeAgrees(fuel: nat, env: F.Env, port: int)
    ensures A.Initialize(fuel, F.Boot, env, port, true) == Some(F.Initialize(F.Boot, env, port, true))
  {
    InitializeAgrees(fuel, F.Boot, env, port, true);
  }
}
