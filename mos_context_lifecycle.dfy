/** GMM singletons and the buffer manager over sequences of Init and
    Destroy calls on one OsContextSpecificNext object. */
module MosContextLifecycle {
  import opened MosDefs
  import opened MosContextSpecificNext
  import opened MosContextProperties

  /*** Sequences of Init and Destroy calls on one object ***/

  /** One call on the object: Init with a caller's context and the
      collaborators' outcomes, or Destroy with the outcome of its OpenGmm. */
  datatype Op = InitOp(ctx: Option<CtxState>, env: InitEnv) | DestroyOp(reopenGmmOk: bool)

  /** The object and every call made so far. */
  datatype Session = Session(os: OsState, log: seq<Call>)

  function Step(s: Session, op: Op): Session {
    match op
    case InitOp(ctx, env) =>
      var r := InitSpec(s.os, ctx, env, s.log);
      Session(r.os, r.log)
    case DestroyOp(ok) =>
      var t := DestroySpec(s.os, ok, s.log);
      Session(t.os, t.log)
  }

  function Run(s: Session, ops: seq<Op>): Session
    decreases |ops|
  {
    if ops == [] then s else Run(Step(s, ops[0]), ops[1..])
  }

  /** Every singleton created has been destroyed, except the one a valid
      object still holds and `leaked` others that no object holds. */
  predicate SingletonBalanced(s: Session, leaked: nat) {
    Count(s.log, CreateSingleton(true)) ==
      Count(s.log, DestroySingleton) + leaked + (if s.os.osContextValid then 1 else 0)
  }

  /** Every Destroy in `ops` manages to reopen GMM. */
  predicate ReopensSucceed(ops: seq<Op>) {
    forall i :: 0 <= i < |ops| && ops[i].DestroyOp? ==> ops[i].reopenGmmOk
  }

  /** One call keeps the singletons balanced with the same number leaked,
      provided a Destroy reopens GMM. */
  lemma StepKeepsSingletonBalance(s: Session, op: Op, leaked: nat)
    requires SingletonBalanced(s, leaked)
    requires op.DestroyOp? ==> op.reopenGmmOk
    ensures SingletonBalanced(Step(s, op), leaked)
  {
    match op
    case InitOp(ctx, env) =>
      if !s.os.osContextValid {
        InitHistory(s.os, ctx, env, s.log);
        var r0 := InitSpec(s.os, ctx, env, []);
        InitSingletonCount(s.os, ctx, env);
        CountAppend(s.log, r0.log, CreateSingleton(true));
        CountAppend(s.log, r0.log, DestroySingleton);
      }
    case DestroyOp(ok) =>
      if s.os.osContextValid {
        DestroyHistory(s.os, ok, s.log);
        var t0 := DestroySpec(s.os, ok, []);
        DestroySingletonCount(s.os, ok);
        CountAppend(s.log, t0.log, CreateSingleton(true));
        CountAppend(s.log, t0.log, DestroySingleton);
      }
  }

  /** Over any sequence of calls whose Destroys all reopen GMM, every GMM
      singleton Init creates is destroyed by the Destroy that follows: the
      number leaked before stays the same, and the object holds at most one. */
  lemma {:induction false} RunKeepsSingletonBalance(s: Session, ops: seq<Op>, leaked: nat)
    requires SingletonBalanced(s, leaked)
    requires ReopensSucceed(ops)
    ensures SingletonBalanced(Run(s, ops), leaked)
    decreases |ops|
  {
    if ops != [] {
      StepKeepsSingletonBalance(s, ops[0], leaked);
      assert ReopensSucceed(ops[1..]) by {
        forall i | 0 <= i < |ops[1..]| && ops[1..][i].DestroyOp?
          ensures ops[1..][i].reopenGmmOk
        {
          assert ops[1..][i] == ops[i + 1];
        }
      }
      RunKeepsSingletonBalance(Step(s, ops[0]), ops[1..], leaked);
    }
  }

  /** A Destroy whose OpenGmm fails still invalidates the object, but the
      singleton it held is not destroyed: one more singleton is left that no
      object holds. */
  lemma FailedReopenLeaksSingleton(s: Session, leaked: nat)
    requires SingletonBalanced(s, leaked) && s.os.osContextValid
    ensures var t := Step(s, DestroyOp(false));
      !t.os.osContextValid && SingletonBalanced(t, leaked + 1)
  {
    DestroyHistory(s.os, false, s.log);
    DestroySingletonCount(s.os, false);
    var t0 := DestroySpec(s.os, false, []);
    CountAppend(s.log, t0.log, CreateSingleton(true));
    CountAppend(s.log, t0.log, DestroySingleton);
  }

  /** The singleton a failed reopen leaves behind is never destroyed: after
      any later calls whose Destroys all reopen GMM, one singleton more has
      been created than destroyed or held. */
  lemma LeakedSingletonStaysLeaked(s: Session, ops: seq<Op>)
    requires SingletonBalanced(s, 0) && s.os.osContextValid && ReopensSucceed(ops)
    ensures SingletonBalanced(Run(Step(s, DestroyOp(false)), ops), 1)
  {
    FailedReopenLeaksSingleton(s, 0);
    RunKeepsSingletonBalance(Step(s, DestroyOp(false)), ops, 1);
  }

  /** How many Destroys in `ops`, run from `s`, fail to reopen GMM on a
      valid object. */
  function FailedReopens(s: Session, ops: seq<Op>): nat
    decreases |ops|
  {
    if ops == [] then 0
    else
      (if ops[0].DestroyOp? && !ops[0].reopenGmmOk && s.os.osContextValid then 1 else 0) +
      FailedReopens(Step(s, ops[0]), ops[1..])
  }

  /** Over any sequence of Init and Destroy calls, the singletons stay
      balanced except for one leaked by each Destroy that fails to reopen
      GMM on a valid object. */
  lemma {:induction false} RunBalanceAny(s: Session, ops: seq<Op>, leaked: nat)
    requires SingletonBalanced(s, leaked)
    ensures SingletonBalanced(Run(s, ops), leaked + FailedReopens(s, ops))
    decreases |ops|
  {
    if ops != [] {
      var op := ops[0];
      if op.DestroyOp? && !op.reopenGmmOk && s.os.osContextValid {
        FailedReopenLeaksSingleton(s, leaked);
        RunBalanceAny(Step(s, op), ops[1..], leaked + 1);
      } else {
        if op.DestroyOp? && !op.reopenGmmOk {
          assert Step(s, op) == s;
        } else {
          StepKeepsSingletonBalance(s, op, leaked);
        }
        RunBalanceAny(Step(s, op), ops[1..], leaked);
      }
    }
  }

  /** When Init fails after the buffer manager opened but before the object
      became valid, the object keeps the open buffer manager while staying
      invalid, so the next Destroy makes no call and leaves it open. */
  lemma EarlyFailureLeavesBufmgrOpen(os: OsState, c: CtxState, env: InitEnv, reopenGmmOk: bool)
    requires !os.osContextValid && c.fd > 0 && env.bufmgr != Null && !ReachesValidity(c, env)
    ensures var r := InitSpec(os, Some(c), env, []);
      r.status != Success && !r.os.osContextValid && r.os.bufmgr == env.bufmgr &&
      DestroySpec(r.os, reopenGmmOk, r.log) == Teardown(r.os, r.log)
  {
    InitValidityRule(os, c, env);
    var a := OpenBufferManagerSpec(Stage(Success, os, c, []), env);
    var b := ResolveCapabilitiesSpec(a, env);
    assert b.os.bufmgr == env.bufmgr;
  }
}
