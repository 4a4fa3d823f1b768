/** Properties of the OsContextSpecificNext lifecycle, stated over the step
    functions InitSpec and DestroySpec (and so, through the method contracts,
    over the class): the early exits and their statuses, when the object
    becomes valid, what ends up in the object and in the caller's context,
    the order of the calls it makes, what Destroy undoes, and how many GMM
    singletons one call of each creates or destroys. */
module MosContextProperties {
  import opened MosDefs
  import opened MosContextSpecificNext

  /*** What the capability probe yields ***/

  /** The status and the four records Init takes its capabilities from:
      the caller's context when NullHW is enabled (with the status of
      NullHW::Init), the hardware probe otherwise. */
  function Probed(c: CtxState, env: InitEnv): GfxInfo {
    if env.nullHwEnabled then GfxInfo(env.nullHwInitStatus, c.platform, c.skuTable, c.waTable, c.gtSystemInfo)
    else env.gfxInfo
  }

  /** Every step up to and including the GMM singleton succeeds: the buffer
      manager opens, the probe succeeds, the GMM info is read, the GMM library
      opens and the singleton is created. These are exactly the steps whose
      failure leaves the object invalid. */
  predicate ReachesValidity(c: CtxState, env: InitEnv) {
    env.bufmgr != Null && Probed(c, env).status == Success &&
    env.gmmInfoStatus == Success && env.openGmmOk && env.createSingletonOk
  }

  /** The status Init returns when one of the steps of ReachesValidity fails:
      INVALID_PARAMETER for the buffer manager, the library and the
      singleton, the collaborator's own status for the two probes. */
  function EarlyFailure(c: CtxState, env: InitEnv): Status {
    if env.bufmgr == Null then InvalidParameter
    else if Probed(c, env).status != Success then Probed(c, env).status
    else if env.gmmInfoStatus != Success then env.gmmInfoStatus
    else InvalidParameter
  }

  /** Every manager and helper object Init acquires after becoming valid is
      there (and the command-buffer manager initialises). */
  predicate ManagersAvailable(env: InitEnv) {
    env.cmdBufMgr != Null && env.cmdBufInitStatus == Success && env.gpuContextMgr != Null &&
    (!env.mmcSupported || (env.decompression != Null && env.decompStateSlot != Null)) &&
    env.mediaCopy != Null && env.copyStateSlot != Null
  }

  /*** The call log of one Init does not depend on what came before ***/

  function ShiftStage(st: Stage, h: seq<Call>): Stage {
    st.(log := h + st.log)
  }

  function ShiftOutcome(r: Outcome, h: seq<Call>): Outcome {
    r.(log := h + r.log)
  }

  /* Each phase appends its calls to the log it is given and nothing else
     about it depends on that log. */

  lemma OpenBufferManagerHistory(st: Stage, env: InitEnv, h: seq<Call>)
    ensures OpenBufferManagerSpec(ShiftStage(st, h), env) == ShiftStage(OpenBufferManagerSpec(st, env), h)
  {
  }

  lemma ResolveCapabilitiesHistory(st: Stage, env: InitEnv, h: seq<Call>)
    ensures ResolveCapabilitiesSpec(ShiftStage(st, h), env) == ShiftStage(ResolveCapabilitiesSpec(st, env), h)
  {
  }

  lemma StartGmmHistory(st: Stage, env: InitEnv, h: seq<Call>)
    ensures StartGmmSpec(ShiftStage(st, h), env) == ShiftStage(StartGmmSpec(st, env), h)
  {
  }

  lemma DeriveAndPublishHistory(st: Stage, env: InitEnv, h: seq<Call>)
    ensures DeriveAndPublishSpec(ShiftStage(st, h), env) == ShiftStage(DeriveAndPublishSpec(st, env), h)
  {
  }

  lemma AcquireDecompressionHistory(st: Stage, env: InitEnv, h: seq<Call>)
    ensures AcquireDecompressionSpec(ShiftStage(st, h), env) == ShiftStage(AcquireDecompressionSpec(st, env), h)
  {
  }

  lemma AcquireMediaCopyHistory(st: Stage, env: InitEnv, h: seq<Call>)
    ensures AcquireMediaCopySpec(ShiftStage(st, h), env) == ShiftStage(AcquireMediaCopySpec(st, env), h)
  {
  }

  lemma AcquireHelpersHistory(st: Stage, env: InitEnv, h: seq<Call>)
    ensures AcquireHelpersSpec(ShiftStage(st, h), env) == ShiftStage(AcquireHelpersSpec(st, env), h)
  {
    AcquireDecompressionHistory(st, env, h);
    AcquireMediaCopyHistory(AcquireDecompressionSpec(st, env), env, h);
  }

  lemma AcquireManagersHistory(st: Stage, env: InitEnv, h: seq<Call>)
    ensures AcquireManagersSpec(ShiftStage(st, h), env) == ShiftStage(AcquireManagersSpec(st, env), h)
  {
    if env.cmdBufMgr != Null && env.cmdBufInitStatus == Success && env.gpuContextMgr != Null {
      var os2 := st.os.(cmdBufMgr := env.cmdBufMgr, gpuContextMgr := env.gpuContextMgr);
      var calls3 := [GetCmdBufMgr, InitializeCmdBufMgr(COMMAND_BUFFER_SIZE / 2), GetGpuContextMgr];
      var s3 := Stage(Success, os2, st.ctx, st.log + calls3);
      assert st.log + [GetCmdBufMgr] + [InitializeCmdBufMgr(COMMAND_BUFFER_SIZE / 2)] + [GetGpuContextMgr]
          == st.log + calls3;
      assert (h + st.log) + [GetCmdBufMgr] + [InitializeCmdBufMgr(COMMAND_BUFFER_SIZE / 2)] + [GetGpuContextMgr]
          == h + (st.log + calls3);
      AcquireHelpersHistory(s3, env, h);
    }
  }

  /** Init appends its calls to whatever log came before and nothing else
      about it depends on that log. */
  lemma {:induction false} InitHistory(os: OsState, ctx: Option<CtxState>, env: InitEnv, h: seq<Call>)
    ensures InitSpec(os, ctx, env, h) == ShiftOutcome(InitSpec(os, ctx, env, []), h)
  {
    if !os.osContextValid && ctx.Some? && ctx.value.fd > 0 {
      var st := Stage(Success, os, ctx.value, []);
      assert ShiftStage(st, h) == Stage(Success, os, ctx.value, h);
      OpenBufferManagerHistory(st, env, h);
      var a := OpenBufferManagerSpec(st, env);
      if a.status == Success {
        ResolveCapabilitiesHistory(a, env, h);
        var b := ResolveCapabilitiesSpec(a, env);
        if b.status == Success {
          StartGmmHistory(b, env, h);
          var g := StartGmmSpec(b, env);
          if g.status == Success {
            DeriveAndPublishHistory(g, env, h);
            AcquireManagersHistory(DeriveAndPublishSpec(g, env), env, h);
          }
        }
      }
    }
  }

  /** Destroy likewise appends its calls to the log before it. */
  lemma DestroyHistory(os: OsState, reopenGmmOk: bool, h: seq<Call>)
    ensures DestroySpec(os, reopenGmmOk, h).os == DestroySpec(os, reopenGmmOk, []).os
    ensures DestroySpec(os, reopenGmmOk, h).log == h + DestroySpec(os, reopenGmmOk, []).log
  {
  }

  /*** The early exits ***/

  /** With no context or a descriptor that is not positive, Init returns
      INVALID_HANDLE before any call: the buffer manager is not opened and
      m_fd is not assigned. */
  lemma InitRejectsBadHandle(os: OsState, ctx: Option<CtxState>, env: InitEnv, h: seq<Call>)
    requires !os.osContextValid && (ctx.None? || ctx.value.fd <= 0)
    ensures InitSpec(os, ctx, env, h) == Outcome(InvalidHandle, os, ctx, h)
  {
  }

  /** When the GEM buffer manager cannot be created Init returns
      INVALID_PARAMETER right after the attempt: m_fd is recorded, m_bufmgr
      is null, nothing is probed, the context is untouched and the object
      stays invalid. */
  lemma InitAllocatorFailure(os: OsState, c: CtxState, env: InitEnv)
    requires !os.osContextValid && c.fd > 0 && env.bufmgr == Null
    ensures InitSpec(os, Some(c), env, []) ==
      Outcome(InvalidParameter, os.(fd := c.fd, bufmgr := Null), Some(c), [BufmgrInit(c.fd, BATCH_BUFFER_SIZE)])
  {
  }

  /** The calls Init makes once the buffer manager opened, up to and
      including the capability probe. */
  function EarlyPrefix(c: CtxState, env: InitEnv): seq<Call> {
    [BufmgrInit(c.fd, BATCH_BUFFER_SIZE), EnableReuse(env.bufmgr), GetDeviceId, NullHwInit] +
    (if env.nullHwEnabled then [] else [GetGfxInfo])
  }

  /** `a` and `b` hold the same four manager and helper pointers. */
  predicate SameManagers(a: OsState, b: OsState) {
    a.cmdBufMgr == b.cmdBufMgr && a.gpuContextMgr == b.gpuContextMgr &&
    a.mosDecompression == b.mosDecompression && a.mosMediaCopy == b.mosMediaCopy
  }

  /** When the probe (or NullHW::Init) fails, Init returns its status with
      the probed tables stored unmodified (no workaround override) and the
      device classified. Its calls end with the probe: no user settings, no
      GMM and no manager; the object stays invalid with its manager
      pointers untouched. */
  lemma InitProbeFailure(os: OsState, c: CtxState, env: InitEnv)
    requires !os.osContextValid && c.fd > 0 && env.bufmgr != Null && Probed(c, env).status != Success
    ensures var r := InitSpec(os, Some(c), env, []);
      r.status == Probed(c, env).status && !r.os.osContextValid &&
      r.os.skuTable == Probed(c, env).skuTable && r.os.waTable == Probed(c, env).waTable &&
      r.os.isAtomSoc == (env.gemDeviceId in env.atomSocIds) &&
      r.ctx == Some(c.(bufmgr := env.bufmgr)) && r.log == EarlyPrefix(c, env) && SameManagers(r.os, os)
  {
  }

  /** The calls of a GMM start-up that fails: the user settings and the GMM
      info probe, then OpenGmm and the singleton attempt only as far as the
      earlier ones succeed. */
  function GmmFailureCalls(c: CtxState, env: InitEnv): seq<Call> {
    [UserSettingsInit(Probed(c, env).platform.productFamily), GetGmmInfo] +
    (if env.gmmInfoStatus != Success then []
     else [OpenGmm(env.openGmmOk)] + (if !env.openGmmOk then [] else [CreateSingleton(false)]))
  }

  /** A failure in the GMM start-up (the GMM info probe, OpenGmm or the
      singleton) returns the probe's status or INVALID_PARAMETER. Its calls
      end with the failing step: no client context, no aux-table manager, no
      validity and no manager. The object stays invalid with its previous
      client-context, aux-table and manager pointers. */
  lemma InitGmmFailure(os: OsState, c: CtxState, env: InitEnv)
    requires !os.osContextValid && c.fd > 0 && env.bufmgr != Null && Probed(c, env).status == Success
    requires !(env.gmmInfoStatus == Success && env.openGmmOk && env.createSingletonOk)
    ensures var r := InitSpec(os, Some(c), env, []);
      r.status == (if env.gmmInfoStatus != Success then env.gmmInfoStatus else InvalidParameter) &&
      !r.os.osContextValid && r.ctx == Some(c.(bufmgr := env.bufmgr)) &&
      r.os.gmmClientContext == os.gmmClientContext && r.os.auxTableMgr == os.auxTableMgr &&
      SameManagers(r.os, os) && r.log == EarlyPrefix(c, env) + GmmFailureCalls(c, env)
  {
    var a := OpenBufferManagerSpec(Stage(Success, os, c, []), env);
    OpenBufferManagerOk(Stage(Success, os, c, []), env);
    ResolveCapabilitiesOk(a, env);
    var b := ResolveCapabilitiesSpec(a, env);
    StartGmmFailure(b, env);
    assert b.log == EarlyPrefix(c, env);
  }

  /** The part of InitProbeFailure that InitValidityRule needs. */
  lemma ProbeFailureStaysInvalid(os: OsState, c: CtxState, env: InitEnv)
    requires !os.osContextValid && c.fd > 0 && env.bufmgr != Null && Probed(c, env).status != Success
    ensures var r := InitSpec(os, Some(c), env, []);
      r.status == EarlyFailure(c, env) && !r.os.osContextValid && SetOsContextValid(true) !in r.log
  {
    var a := OpenBufferManagerSpec(Stage(Success, os, c, []), env);
    assert SetOsContextValid(true) !in a.log;
  }

  /** The part of InitGmmFailure that InitValidityRule needs. */
  lemma GmmFailureStaysInvalid(os: OsState, c: CtxState, env: InitEnv)
    requires !os.osContextValid && c.fd > 0 && env.bufmgr != Null && Probed(c, env).status == Success
    requires !(env.gmmInfoStatus == Success && env.openGmmOk && env.createSingletonOk)
    ensures var r := InitSpec(os, Some(c), env, []);
      r.status == EarlyFailure(c, env) && !r.os.osContextValid && SetOsContextValid(true) !in r.log
  {
    var a := OpenBufferManagerSpec(Stage(Success, os, c, []), env);
    var b := ResolveCapabilitiesSpec(a, env);
    assert SetOsContextValid(true) !in b.log;
  }

  /** A failing GMM start-up changes neither the object nor the context and
      makes only the calls up to the failing step. */
  lemma StartGmmFailure(st: Stage, env: InitEnv)
    requires !(env.gmmInfoStatus == Success && env.openGmmOk && env.createSingletonOk)
    ensures var g := StartGmmSpec(st, env);
      g.os == st.os && g.ctx == st.ctx &&
      g.log == st.log + ([UserSettingsInit(st.os.platformInfo.productFamily), GetGmmInfo] +
        (if env.gmmInfoStatus != Success then []
         else [OpenGmm(env.openGmmOk)] + (if !env.openGmmOk then [] else [CreateSingleton(false)])))
  {
  }

  /** The object becomes valid exactly when every step up to the GMM
      singleton succeeds; otherwise Init returns the status of the first
      failing step and never marks the object valid. */
  lemma InitValidityRule(os: OsState, c: CtxState, env: InitEnv)
    requires !os.osContextValid && c.fd > 0
    ensures var r := InitSpec(os, Some(c), env, []);
      (r.os.osContextValid <==> ReachesValidity(c, env)) &&
      (SetOsContextValid(true) in r.log <==> ReachesValidity(c, env)) &&
      (!ReachesValidity(c, env) ==> r.status == EarlyFailure(c, env) && r.status != Success)
  {
    if !ReachesValidity(c, env) {
      if env.bufmgr == Null {
        InitAllocatorFailure(os, c, env);
      } else if Probed(c, env).status != Success {
        ProbeFailureStaysInvalid(os, c, env);
      } else {
        GmmFailureStaysInvalid(os, c, env);
      }
    } else {
      InitReachingValidity(os, c, env);
    }
  }

  /** Where Init stands when it has just marked the object valid. */
  function ValidStage(os: OsState, c: CtxState, env: InitEnv): Stage {
    var a := OpenBufferManagerSpec(Stage(Success, os, c, []), env);
    DeriveAndPublishSpec(StartGmmSpec(ResolveCapabilitiesSpec(a, env), env), env)
  }

  /** Past the GMM singleton, Init is the acquisition of the managers from
      ValidStage, whose log ends with the validity call and holds no manager
      call yet. */
  lemma InitThroughValidStage(os: OsState, c: CtxState, env: InitEnv)
    requires !os.osContextValid && c.fd > 0 && ReachesValidity(c, env)
    ensures var p := ValidStage(os, c, env);
      InitSpec(os, Some(c), env, []) == Finish(AcquireManagersSpec(p, env)) &&
      |p.log| > 0 && p.log[|p.log| - 1] == SetOsContextValid(true) && GetCmdBufMgr !in p.log
  {
    InitReachesValidStage(os, c, env);
    ValidStageLog(os, c, env);
  }

  lemma InitReachesValidStage(os: OsState, c: CtxState, env: InitEnv)
    requires !os.osContextValid && c.fd > 0 && ReachesValidity(c, env)
    ensures InitSpec(os, Some(c), env, []) == Finish(AcquireManagersSpec(ValidStage(os, c, env), env))
  {
    var a := OpenBufferManagerSpec(Stage(Success, os, c, []), env);
    var b := ResolveCapabilitiesSpec(a, env);
    assert b.status == Success;
    assert StartGmmSpec(b, env).status == Success;
  }

  lemma ValidStageLog(os: OsState, c: CtxState, env: InitEnv)
    requires !os.osContextValid && c.fd > 0 && ReachesValidity(c, env)
    ensures var p := ValidStage(os, c, env);
      |p.log| > 0 && p.log[|p.log| - 1] == SetOsContextValid(true) && GetCmdBufMgr !in p.log
  {
    ValidStageEndsValid(os, c, env);
    ValidStageHasNoManagerCall(os, c, env);
  }

  lemma ValidStageEndsValid(os: OsState, c: CtxState, env: InitEnv)
    ensures var p := ValidStage(os, c, env);
      |p.log| > 0 && p.log[|p.log| - 1] == SetOsContextValid(true)
  {
  }

  lemma ValidStageHasNoManagerCall(os: OsState, c: CtxState, env: InitEnv)
    ensures GetCmdBufMgr !in ValidStage(os, c, env).log
  {
    var a := OpenBufferManagerSpec(Stage(Success, os, c, []), env);
    var b := ResolveCapabilitiesSpec(a, env);
    var g := StartGmmSpec(b, env);
    assert GetCmdBufMgr !in g.log by {
      assert GetCmdBufMgr !in a.log;
      assert GetCmdBufMgr !in b.log;
    }
  }


  /** The calls Init makes once it gets past the GMM singleton: the
      validity flag is set, then the command-buffer manager is fetched. */
  lemma InitReachingValidity(os: OsState, c: CtxState, env: InitEnv)
    requires !os.osContextValid && c.fd > 0 && ReachesValidity(c, env)
    ensures var r := InitSpec(os, Some(c), env, []);
      r.os.osContextValid && SetOsContextValid(true) in r.log && GetCmdBufMgr in r.log &&
      IndexOf(r.log, SetOsContextValid(true)) < IndexOf(r.log, GetCmdBufMgr)
  {
    InitThroughValidStage(os, c, env);
    var p := ValidStage(os, c, env);
    var k := |p.log|;
    var m := AcquireManagersSpec(p, env);
    AcquireManagersLog(p, env);
    assert m.log[..k] == p.log && m.log[k] == GetCmdBufMgr;
    PrefixIndexOf(m.log, k, SetOsContextValid(true), GetCmdBufMgr);
  }

  /** The calls the decompression and media-copy steps make. */
  function HelperCalls(env: InitEnv): seq<Call> {
    (if env.mmcSupported then [NewDecompression] else []) +
    (if !env.mmcSupported || (env.decompression != Null && env.decompStateSlot != Null) then [NewMediaCopy] else [])
  }

  /** The calls the manager phase makes, which depend only on what the
      collaborators return: the command-buffer manager first, and each later
      call only while the earlier ones succeed. */
  function ManagerCalls(env: InitEnv): seq<Call> {
    [GetCmdBufMgr] +
    (if env.cmdBufMgr == Null then [] else
      [InitializeCmdBufMgr(COMMAND_BUFFER_SIZE / 2)] +
      (if env.cmdBufInitStatus != Success then [] else
        [GetGpuContextMgr] + (if env.gpuContextMgr == Null then [] else HelperCalls(env))))
  }

  lemma AcquireHelpersLog(st: Stage, env: InitEnv)
    ensures AcquireHelpersSpec(st, env).log == st.log + HelperCalls(env)
  {
    var d := AcquireDecompressionSpec(st, env);
    var mmc := if env.mmcSupported then [NewDecompression] else [];
    assert d.log == st.log + mmc;
    if d.status == Success {
      assert st.log + mmc + [NewMediaCopy] == st.log + (mmc + [NewMediaCopy]);
    } else {
      assert mmc + [] == mmc;
    }
  }

  /** The manager phase appends ManagerCalls(env) to the log. */
  lemma AcquireManagersLog(st: Stage, env: InitEnv)
    ensures AcquireManagersSpec(st, env).log == st.log + ManagerCalls(env)
  {
    var i := [InitializeCmdBufMgr(COMMAND_BUFFER_SIZE / 2)];
    if env.cmdBufMgr == Null {
      assert [GetCmdBufMgr] + [] == [GetCmdBufMgr];
    } else if env.cmdBufInitStatus != Success {
      assert [GetCmdBufMgr] + (i + []) == [GetCmdBufMgr] + i;
      assert st.log + [GetCmdBufMgr] + i == st.log + ([GetCmdBufMgr] + i);
    } else {
      var tail := if env.gpuContextMgr == Null then [] else HelperCalls(env);
      var log3 := st.log + [GetCmdBufMgr] + i + [GetGpuContextMgr];
      if env.gpuContextMgr != Null {
        var os2 := st.os.(cmdBufMgr := env.cmdBufMgr, gpuContextMgr := env.gpuContextMgr);
        AcquireHelpersLog(Stage(Success, os2, st.ctx, log3), env);
      }
      assert AcquireManagersSpec(st, env).log == log3 + tail;
      assert log3 + tail == st.log + ([GetCmdBufMgr] + (i + ([GetGpuContextMgr] + tail)));
    }
  }

  /** When `x` occurs before position `k` and `y` sits at `k` (and not
      earlier), `x` is found first. */
  lemma {:induction false} PrefixIndexOf(log: seq<Call>, k: nat, x: Call, y: Call)
    requires k < |log| && x in log[..k] && log[k] == y && y !in log[..k]
    ensures x in log && y in log && IndexOf(log, x) < IndexOf(log, y)
  {
    if log[0] != x {
      assert log[1..][..k - 1] == log[..k][1..];
      PrefixIndexOf(log[1..], k - 1, x, y);
    }
  }

  /*** What a valid object holds and what the caller's context receives ***/

  /** `a` and `b` agree on every field but the four manager pointers. */
  predicate SameBesideManagers(a: OsState, b: OsState) {
    a.osContextValid == b.osContextValid && a.fd == b.fd && a.bufmgr == b.bufmgr && a.isAtomSoc == b.isAtomSoc &&
    a.skuTable == b.skuTable && a.waTable == b.waTable && a.platformInfo == b.platformInfo &&
    a.gtSystemInfo == b.gtSystemInfo && a.gmmClientContext == b.gmmClientContext && a.auxTableMgr == b.auxTableMgr &&
    a.useSwSwizzling == b.useSwSwizzling && a.tileYFlag == b.tileYFlag && a.use64BitRelocs == b.use64BitRelocs &&
    a.usesPatchList == b.usesPatchList && a.usesGfxAddress == b.usesGfxAddress
  }

  /** `a` and `b` agree on every field but the two state slots. */
  predicate SameBesideSlots(a: CtxState, b: CtxState) {
    a.fd == b.fd && a.bufmgr == b.bufmgr && a.deviceId == b.deviceId && a.skuTable == b.skuTable &&
    a.waTable == b.waTable && a.gtSystemInfo == b.gtSystemInfo && a.platform == b.platform &&
    a.simIsActive == b.simIsActive && a.gmmClientContext == b.gmmClientContext && a.auxTableMgr == b.auxTableMgr &&
    a.useSwSwizzling == b.useSwSwizzling && a.tileYFlag == b.tileYFlag && a.isAtomSoc == b.isAtomSoc
  }

  /** The manager phase changes only the four manager pointers of the object
      and the two state slots of the context. */
  lemma AcquireManagersFrame(st: Stage, env: InitEnv)
    ensures var r := AcquireManagersSpec(st, env);
      SameBesideManagers(r.os, st.os) && SameBesideSlots(r.ctx, st.ctx) && r.os.cmdBufMgr == env.cmdBufMgr
  {
    if env.cmdBufMgr != Null && env.cmdBufInitStatus == Success && env.gpuContextMgr != Null {
      var s3 := Stage(Success, st.os.(cmdBufMgr := env.cmdBufMgr, gpuContextMgr := env.gpuContextMgr), st.ctx,
                      st.log + [GetCmdBufMgr] + [InitializeCmdBufMgr(COMMAND_BUFFER_SIZE / 2)] + [GetGpuContextMgr]);
      assert SameBesideManagers(s3.os, st.os);
      AcquireHelpersFrame(s3, env);
      SameBesideManagersTransitive(AcquireHelpersSpec(s3, env).os, s3.os, st.os);
    }
  }

  lemma SameBesideManagersTransitive(a: OsState, b: OsState, c: OsState)
    requires SameBesideManagers(a, b) && SameBesideManagers(b, c)
    ensures SameBesideManagers(a, c)
  {
  }

  lemma AcquireHelpersFrame(st: Stage, env: InitEnv)
    ensures var r := AcquireHelpersSpec(st, env);
      SameBesideManagers(r.os, st.os) && SameBesideSlots(r.ctx, st.ctx) &&
      r.os.cmdBufMgr == st.os.cmdBufMgr && r.os.gpuContextMgr == st.os.gpuContextMgr
  {
    AcquireDecompressionFrame(st, env);
    AcquireMediaCopyFrame(AcquireDecompressionSpec(st, env), env);
  }

  lemma AcquireDecompressionFrame(st: Stage, env: InitEnv)
    ensures var r := AcquireDecompressionSpec(st, env);
      SameBesideManagers(r.os, st.os) && SameBesideSlots(r.ctx, st.ctx) &&
      r.os.cmdBufMgr == st.os.cmdBufMgr && r.os.gpuContextMgr == st.os.gpuContextMgr
  {
    var r := AcquireDecompressionSpec(st, env);
    assert r.os == if env.mmcSupported then st.os.(mosDecompression := env.decompression) else st.os;
    assert r.ctx == if env.mmcSupported && env.decompression != Null
                    then st.ctx.(mediaMemDecompState := env.decompStateSlot) else st.ctx;
  }

  lemma AcquireMediaCopyFrame(st: Stage, env: InitEnv)
    ensures var r := AcquireMediaCopySpec(st, env);
      SameBesideManagers(r.os, st.os) && SameBesideSlots(r.ctx, st.ctx) &&
      r.os.cmdBufMgr == st.os.cmdBufMgr && r.os.gpuContextMgr == st.os.gpuContextMgr
  {
    var r := AcquireMediaCopySpec(st, env);
    assert r.os == st.os.(mosMediaCopy := env.mediaCopy);
    assert r.ctx == if env.mediaCopy != Null then st.ctx.(mediaCopyState := env.copyStateSlot) else st.ctx;
  }

  /** The object's capabilities once the GMM singleton exists: the probed
      SKU table, the probed workaround table with the media-kernel override,
      the probed platform and GT records, the Atom SoC flag from the buffer
      manager's device id (also under NullHW), the GMM client context and
      aux-table manager, and the derived flags. */
  lemma InitCapabilities(os: OsState, c: CtxState, env: InitEnv)
    requires !os.osContextValid && c.fd > 0 && ReachesValidity(c, env)
    ensures var r := InitSpec(os, Some(c), env, []);
      var pr := Probed(c, env);
      r.os.osContextValid && r.os.fd == c.fd && r.os.bufmgr == env.bufmgr &&
      r.os.skuTable == pr.skuTable && r.os.waTable == ApplyMediaKernelWa(pr.skuTable, pr.waTable) &&
      r.os.platformInfo == pr.platform && r.os.gtSystemInfo == pr.gtSystemInfo &&
      r.os.isAtomSoc == (env.gemDeviceId in env.atomSocIds) &&
      r.os.gmmClientContext == env.gmmClient && r.os.auxTableMgr == env.auxTableMgr &&
      r.os.useSwSwizzling == (SimIsActive(env) != 0 || IsSet(pr.skuTable, FtrUseSwSwizzling)) &&
      r.os.tileYFlag == IsSet(pr.skuTable, FtrTileY) &&
      r.os.use64BitRelocs && r.os.usesPatchList && !r.os.usesGfxAddress
  {
    InitThroughValidStage(os, c, env);
    var p := ValidStage(os, c, env);
    AcquireManagersFrame(p, env);
    ValidStageObject(os, c, env);
    assert SameBesideManagers(InitSpec(os, Some(c), env, []).os, p.os);
  }

  /** The object at ValidStage, field by field. */
  lemma ValidStageObject(os: OsState, c: CtxState, env: InitEnv)
    requires !os.osContextValid && c.fd > 0 && ReachesValidity(c, env)
    ensures var p := ValidStage(os, c, env);
      var pr := Probed(c, env);
      p.os == os.(osContextValid := true, fd := c.fd, bufmgr := env.bufmgr,
                  isAtomSoc := env.gemDeviceId in env.atomSocIds,
                  skuTable := pr.skuTable, waTable := ApplyMediaKernelWa(pr.skuTable, pr.waTable),
                  platformInfo := pr.platform, gtSystemInfo := pr.gtSystemInfo,
                  gmmClientContext := env.gmmClient, auxTableMgr := env.auxTableMgr,
                  useSwSwizzling := SimIsActive(env) != 0 || IsSet(pr.skuTable, FtrUseSwSwizzling),
                  tileYFlag := IsSet(pr.skuTable, FtrTileY),
                  use64BitRelocs := true, usesPatchList := true, usesGfxAddress := false)
  {
    var a := OpenBufferManagerSpec(Stage(Success, os, c, []), env);
    OpenBufferManagerOk(Stage(Success, os, c, []), env);
    ResolveCapabilitiesOk(a, env);
    var b := ResolveCapabilitiesSpec(a, env);
    StartGmmOk(b, env);
    DeriveAndPublishObject(StartGmmSpec(b, env), env);
  }

  /* The phases before validity when they succeed, as updates of the stage
     they start from. */

  lemma OpenBufferManagerOk(st: Stage, env: InitEnv)
    requires env.bufmgr != Null
    ensures var r := OpenBufferManagerSpec(st, env);
      r.status == Success && r.ctx == st.ctx.(bufmgr := env.bufmgr) &&
      r.log == st.log + [BufmgrInit(st.ctx.fd, BATCH_BUFFER_SIZE), EnableReuse(env.bufmgr), GetDeviceId] &&
      r.os == st.os.(fd := st.ctx.fd, bufmgr := env.bufmgr, isAtomSoc := env.gemDeviceId in env.atomSocIds,
                     skuTable := map[], waTable := map[],
                     platformInfo := ZeroPlatform, gtSystemInfo := ZeroGtSystemInfo)
  {
  }

  lemma ResolveCapabilitiesOk(st: Stage, env: InitEnv)
    requires Probed(st.ctx, env).status == Success
    ensures var r := ResolveCapabilitiesSpec(st, env);
      var pr := Probed(st.ctx, env);
      r.status == Success && r.ctx == st.ctx &&
      r.log == st.log + (if env.nullHwEnabled then [NullHwInit] else [NullHwInit, GetGfxInfo]) &&
      r.os == st.os.(platformInfo := pr.platform, skuTable := pr.skuTable,
                     waTable := ApplyMediaKernelWa(pr.skuTable, pr.waTable), gtSystemInfo := pr.gtSystemInfo)
  {
  }

  lemma StartGmmOk(st: Stage, env: InitEnv)
    requires env.gmmInfoStatus == Success && env.openGmmOk && env.createSingletonOk
    ensures var r := StartGmmSpec(st, env);
      r.status == Success && r.ctx == st.ctx &&
      r.log == st.log + [UserSettingsInit(st.os.platformInfo.productFamily), GetGmmInfo, OpenGmm(true),
                         CreateSingleton(true), CreateClientContext, CreateAuxTableMgr] &&
      r.os == st.os.(gmmClientContext := env.gmmClient, auxTableMgr := env.auxTableMgr)
  {
  }

  lemma DeriveAndPublishObject(st: Stage, env: InitEnv)
    ensures var r := DeriveAndPublishSpec(st, env);
      r.log == st.log + (if env.internalBuild then [ReadSimEnable] else []) + [SetOsContextValid(true)] &&
      r.os == st.os.(useSwSwizzling := SimIsActive(env) != 0 || IsSet(st.os.skuTable, FtrUseSwSwizzling),
                     tileYFlag := IsSet(st.os.skuTable, FtrTileY), use64BitRelocs := true,
                     usesPatchList := true, usesGfxAddress := false, osContextValid := true)
  {
  }

  /** What the caller's context receives once the GMM singleton exists.
      Without NullHW: the buffer manager's device id and the object's tables
      and records. With NullHW: its own device id and tables stay, so its
      workaround table does not get the override. In both cases: the GMM
      client context, the aux-table manager, the swizzling, tiling and Atom
      SoC flags and bSimIsActive. */
  lemma InitPublishes(os: OsState, c: CtxState, env: InitEnv)
    requires !os.osContextValid && c.fd > 0 && ReachesValidity(c, env)
    ensures var r := InitSpec(os, Some(c), env, []);
      var pr := Probed(c, env);
      r.ctx.Some? && r.ctx.value.fd == c.fd && r.ctx.value.bufmgr == env.bufmgr &&
      r.ctx.value.deviceId == (if env.nullHwEnabled then c.deviceId else env.gemDeviceId) &&
      r.ctx.value.skuTable == pr.skuTable &&
      r.ctx.value.waTable == (if env.nullHwEnabled then c.waTable else r.os.waTable) &&
      r.ctx.value.platform == pr.platform && r.ctx.value.gtSystemInfo == pr.gtSystemInfo &&
      r.ctx.value.simIsActive == SimIsActive(env) &&
      r.ctx.value.gmmClientContext == r.os.gmmClientContext && r.ctx.value.auxTableMgr == r.os.auxTableMgr &&
      r.ctx.value.useSwSwizzling == r.os.useSwSwizzling && r.ctx.value.tileYFlag == r.os.tileYFlag &&
      r.ctx.value.isAtomSoc == r.os.isAtomSoc
  {
    InitThroughValidStage(os, c, env);
    AcquireManagersFrame(ValidStage(os, c, env), env);
  }

  /*** The managers, acquired after validity ***/

  lemma AcquireManagersStatus(st: Stage, env: InitEnv)
    ensures AcquireManagersSpec(st, env).status == Success <==> ManagersAvailable(env)
  {
    if env.cmdBufMgr != Null && env.cmdBufInitStatus == Success && env.gpuContextMgr != Null {
      var s3 := Stage(Success, st.os.(cmdBufMgr := env.cmdBufMgr, gpuContextMgr := env.gpuContextMgr), st.ctx,
                      st.log + [GetCmdBufMgr] + [InitializeCmdBufMgr(COMMAND_BUFFER_SIZE / 2)] + [GetGpuContextMgr]);
      var d := AcquireDecompressionSpec(s3, env);
      if d.status == Success {
        assert AcquireMediaCopySpec(d, env).status == Success <==> env.mediaCopy != Null && env.copyStateSlot != Null;
      }
    }
  }

  /** A failing manager phase returns the status of the failed Initialize,
      and NULL_POINTER for every null manager, helper or state slot. */
  lemma AcquireManagersFailure(st: Stage, env: InitEnv)
    requires AcquireManagersSpec(st, env).status != Success
    ensures AcquireManagersSpec(st, env).status ==
      (if env.cmdBufMgr != Null && env.cmdBufInitStatus != Success then env.cmdBufInitStatus else NullPointer)
  {
    if env.cmdBufMgr != Null && env.cmdBufInitStatus == Success && env.gpuContextMgr != Null {
      var s3 := Stage(Success, st.os.(cmdBufMgr := env.cmdBufMgr, gpuContextMgr := env.gpuContextMgr), st.ctx,
                      st.log + [GetCmdBufMgr] + [InitializeCmdBufMgr(COMMAND_BUFFER_SIZE / 2)] + [GetGpuContextMgr]);
      assert AcquireHelpersSpec(s3, env).status == NullPointer;
    }
  }

  /** Init returns SUCCESS exactly when every step succeeds. */
  lemma InitSucceedsIff(os: OsState, c: CtxState, env: InitEnv)
    requires !os.osContextValid && c.fd > 0
    ensures InitSpec(os, Some(c), env, []).status == Success <==> ReachesValidity(c, env) && ManagersAvailable(env)
  {
    InitValidityRule(os, c, env);
    if ReachesValidity(c, env) {
      InitThroughValidStage(os, c, env);
      AcquireManagersStatus(ValidStage(os, c, env), env);
    }
  }

  /** A missing manager or helper object is an error returned by an object
      that stays valid: NULL_POINTER for a null command-buffer manager, the
      status of its Initialize when that fails. */
  lemma InitManagerFailure(os: OsState, c: CtxState, env: InitEnv)
    requires !os.osContextValid && c.fd > 0 && ReachesValidity(c, env) && !ManagersAvailable(env)
    ensures var r := InitSpec(os, Some(c), env, []);
      r.os.osContextValid && r.os.cmdBufMgr == env.cmdBufMgr &&
      r.status == (if env.cmdBufMgr != Null && env.cmdBufInitStatus != Success then env.cmdBufInitStatus
                   else NullPointer)
  {
    InitThroughValidStage(os, c, env);
    var p := ValidStage(os, c, env);
    AcquireManagersStatus(p, env);
    AcquireManagersFailure(p, env);
    AcquireManagersFrame(p, env);
  }

  /** When every manager and helper is available, Init stores each of them
      in the object and both state slots in the caller's context. */
  lemma InitManagersResult(os: OsState, c: CtxState, env: InitEnv)
    requires !os.osContextValid && c.fd > 0 && ReachesValidity(c, env) && ManagersAvailable(env)
    ensures var r := InitSpec(os, Some(c), env, []);
      r.ctx.Some? && r.os.cmdBufMgr == env.cmdBufMgr && r.os.gpuContextMgr == env.gpuContextMgr &&
      r.os.mosMediaCopy == env.mediaCopy && r.ctx.value.mediaCopyState == env.copyStateSlot &&
      (env.mmcSupported ==>
        r.os.mosDecompression == env.decompression && r.ctx.value.mediaMemDecompState == env.decompStateSlot)
  {
    InitThroughValidStage(os, c, env);
  }

  /*** Init on an invalid object ignores what the object held before ***/

  /** `a` and `b` agree on the fields Init fills in before it asks GMM. */
  predicate SameProbedFields(a: OsState, b: OsState) {
    a.fd == b.fd && a.bufmgr == b.bufmgr && a.isAtomSoc == b.isAtomSoc &&
    a.skuTable == b.skuTable && a.waTable == b.waTable &&
    a.platformInfo == b.platformInfo && a.gtSystemInfo == b.gtSystemInfo
  }

  /** The manager phase's status, context and calls do not depend on the object. */
  lemma AcquireManagersIgnoresObject(st1: Stage, st2: Stage, env: InitEnv)
    requires st1.ctx == st2.ctx && st1.log == st2.log
    ensures var r1, r2 := AcquireManagersSpec(st1, env), AcquireManagersSpec(st2, env);
      r1.status == r2.status && r1.ctx == r2.ctx && r1.log == r2.log
  {
  }

  /** From a successful capability phase on, Init's status, context and
      calls depend on the object only through the fields it has filled in. */
  lemma GmmAndAfterIgnoreStaleFields(b1: Stage, b2: Stage, env: InitEnv)
    requires b1.ctx == b2.ctx && b1.log == b2.log && SameProbedFields(b1.os, b2.os)
    ensures var g1, g2 := StartGmmSpec(b1, env), StartGmmSpec(b2, env);
      g1.status == g2.status && g1.ctx == g2.ctx && g1.log == g2.log &&
      (g1.status == Success ==>
        var m1, m2 := AcquireManagersSpec(DeriveAndPublishSpec(g1, env), env),
                      AcquireManagersSpec(DeriveAndPublishSpec(g2, env), env);
        m1.status == m2.status && m1.ctx == m2.ctx && m1.log == m2.log)
  {
    var g1, g2 := StartGmmSpec(b1, env), StartGmmSpec(b2, env);
    if g1.status == Success {
      StartGmmOk(b1, env);
      StartGmmOk(b2, env);
      var p1, p2 := DeriveAndPublishSpec(g1, env), DeriveAndPublishSpec(g2, env);
      assert p1.ctx == p2.ctx && p1.log == p2.log;
      AcquireManagersIgnoresObject(p1, p2, env);
    }
  }

  /** Opening the buffer manager fills in the probed fields the same way
      whatever the object held. */
  lemma OpenBufferManagerIgnoresObject(st1: Stage, st2: Stage, env: InitEnv)
    requires st1.ctx == st2.ctx && st1.log == st2.log
    ensures var a1, a2 := OpenBufferManagerSpec(st1, env), OpenBufferManagerSpec(st2, env);
      a1.status == a2.status && a1.ctx == a2.ctx && a1.log == a2.log &&
      (a1.status == Success ==> SameProbedFields(a1.os, a2.os))
  {
  }

  /** The capability phase keeps the probed fields in step. */
  lemma ResolveCapabilitiesIgnoresObject(a1: Stage, a2: Stage, env: InitEnv)
    requires a1.ctx == a2.ctx && a1.log == a2.log && SameProbedFields(a1.os, a2.os)
    ensures var b1, b2 := ResolveCapabilitiesSpec(a1, env), ResolveCapabilitiesSpec(a2, env);
      b1.status == b2.status && b1.ctx == b2.ctx && b1.log == b2.log && SameProbedFields(b1.os, b2.os)
  {
  }

  /** On an invalid object, what Init returns, what it leaves in the
      caller's context and which calls it makes do not depend on anything
      the object held: Init runs its whole body as on a new object. */
  lemma InitIgnoresStaleState(os1: OsState, os2: OsState, ctx: Option<CtxState>, env: InitEnv)
    requires !os1.osContextValid && !os2.osContextValid
    ensures var r1, r2 := InitSpec(os1, ctx, env, []), InitSpec(os2, ctx, env, []);
      r1.status == r2.status && r1.ctx == r2.ctx && r1.log == r2.log
  {
    if ctx.Some? && ctx.value.fd > 0 {
      var st1, st2 := Stage(Success, os1, ctx.value, []), Stage(Success, os2, ctx.value, []);
      OpenBufferManagerIgnoresObject(st1, st2, env);
      var a1, a2 := OpenBufferManagerSpec(st1, env), OpenBufferManagerSpec(st2, env);
      if a1.status == Success {
        ResolveCapabilitiesIgnoresObject(a1, a2, env);
        var b1, b2 := ResolveCapabilitiesSpec(a1, env), ResolveCapabilitiesSpec(a2, env);
        if b1.status == Success {
          GmmAndAfterIgnoreStaleFields(b1, b2, env);
        }
      }
    }
  }

  /*** Destroy ***/

  /** The calls Destroy makes on a valid object: the aux-table manager is
      deleted when there is one, the buffer manager is destroyed, GMM is
      reopened, and only when that succeeds are the client context and the
      singleton destroyed; the last call clears validity. */
  lemma DestroyCalls(os: OsState, reopenGmmOk: bool)
    requires os.osContextValid
    ensures var t := DestroySpec(os, reopenGmmOk, []);
      (DeleteAuxTableMgr in t.log <==> os.auxTableMgr != Null) &&
      BufmgrDestroy(os.bufmgr) in t.log && OpenGmm(reopenGmmOk) in t.log &&
      (DeleteClientContext in t.log <==> reopenGmmOk) &&
      t.log[|t.log| - 1] == SetOsContextValid(false)
  {
  }

  /** After Destroy the object is invalid, so the next Init does not take
      the early return: it behaves as Init on a newly constructed object. */
  lemma InitAfterDestroy(os: OsState, reopenGmmOk: bool, ctx: Option<CtxState>, env: InitEnv)
    requires os.osContextValid
    ensures var d := DestroySpec(os, reopenGmmOk, []);
      var r, f := InitSpec(d.os, ctx, env, []), InitSpec(FreshState, ctx, env, []);
      !d.os.osContextValid && r.status == f.status && r.ctx == f.ctx && r.log == f.log
  {
    InitIgnoresStaleState(DestroySpec(os, reopenGmmOk, []).os, FreshState, ctx, env);
  }

  /*** GMM singletons over a sequence of calls ***/

  /* How each phase changes the number of singleton creations and
     destructions in the log: only StartGmmSpec creates one, on success. */

  /** The log holds `nc` singleton creations and `nd` destructions. */
  predicate SingletonCounts(log: seq<Call>, nc: nat, nd: nat) {
    Count(log, CreateSingleton(true)) == nc && Count(log, DestroySingleton) == nd
  }

  lemma OpenBufferManagerCount(st: Stage, env: InitEnv, nc: nat, nd: nat)
    requires SingletonCounts(st.log, nc, nd)
    ensures SingletonCounts(OpenBufferManagerSpec(st, env).log, nc, nd)
  {
  }

  lemma ResolveCapabilitiesCount(st: Stage, env: InitEnv, nc: nat, nd: nat)
    requires SingletonCounts(st.log, nc, nd)
    ensures SingletonCounts(ResolveCapabilitiesSpec(st, env).log, nc, nd)
  {
  }

  lemma StartGmmCount(st: Stage, env: InitEnv, nc: nat, nd: nat)
    requires SingletonCounts(st.log, nc, nd)
    ensures var r := StartGmmSpec(st, env);
      SingletonCounts(r.log, if r.status == Success then nc + 1 else nc, nd)
  {
  }

  lemma DeriveAndPublishCount(st: Stage, env: InitEnv, nc: nat, nd: nat)
    requires SingletonCounts(st.log, nc, nd)
    ensures SingletonCounts(DeriveAndPublishSpec(st, env).log, nc, nd)
  {
  }

  lemma AcquireManagersCount(st: Stage, env: InitEnv, nc: nat, nd: nat)
    requires SingletonCounts(st.log, nc, nd)
    ensures SingletonCounts(AcquireManagersSpec(st, env).log, nc, nd)
  {
    AcquireManagersLog(st, env);
    CountAppend(st.log, ManagerCalls(env), CreateSingleton(true));
    CountAppend(st.log, ManagerCalls(env), DestroySingleton);
    assert CreateSingleton(true) !in ManagerCalls(env) && DestroySingleton !in ManagerCalls(env);
  }

  /** Counting over a concatenation. */
  lemma CountAppend(a: seq<Call>, b: seq<Call>, c: Call)
    ensures Count(a + b, c) == Count(a, c) + Count(b, c)
  {
    assert multiset(a + b) == multiset(a) + multiset(b);
  }

  /** One Init creates a GMM singleton exactly when it makes an invalid
      object valid, and destroys none. */
  lemma InitSingletonCount(os: OsState, ctx: Option<CtxState>, env: InitEnv)
    ensures var r := InitSpec(os, ctx, env, []);
      SingletonCounts(r.log, if r.os.osContextValid && !os.osContextValid then 1 else 0, 0)
  {
    if !os.osContextValid && ctx.Some? && ctx.value.fd > 0 {
      var st := Stage(Success, os, ctx.value, []);
      var a := OpenBufferManagerSpec(st, env);
      OpenBufferManagerCount(st, env, 0, 0);
      if a.status == Success {
        var b := ResolveCapabilitiesSpec(a, env);
        ResolveCapabilitiesCount(a, env, 0, 0);
        if b.status == Success {
          var g := StartGmmSpec(b, env);
          StartGmmCount(b, env, 0, 0);
          if g.status == Success {
            var p := DeriveAndPublishSpec(g, env);
            DeriveAndPublishCount(g, env, 1, 0);
            AcquireManagersCount(p, env, 1, 0);
          } else {
            InitValidityRule(os, ctx.value, env);
          }
        }
      }
    }
  }

  /** Destroy on a valid object creates no singleton and destroys one
      exactly when GMM reopens. */
  lemma DestroySingletonCount(os: OsState, reopenGmmOk: bool)
    requires os.osContextValid
    ensures SingletonCounts(DestroySpec(os, reopenGmmOk, []).log, 0, if reopenGmmOk then 1 else 0)
  {
  }
}
