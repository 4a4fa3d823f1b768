/** The lifecycle of OsContextSpecificNext on Linux: Init turns the caller's
    MOS_CONTEXT (file descriptor in) into a probed, GMM-backed device context
    and publishes part of it back; Destroy tears the owned parts down again.

    The behaviour is given twice: as pure step functions over snapshots
    (InitSpec, DestroySpec), and as the class OsContextSpecificNext whose
    methods update fields step by step and are proved to agree with them. */
module MosContextSpecificNext {
  import opened MosDefs

  /** A snapshot of the m_* members of OsContextSpecificNext. */
  datatype OsState = OsState(
    osContextValid: bool,
    fd: Int32,
    bufmgr: Ptr,
    isAtomSoc: bool,
    skuTable: FeatureTable,
    waTable: FeatureTable,
    platformInfo: Platform,
    gtSystemInfo: GtSystemInfo,
    gmmClientContext: Ptr,
    auxTableMgr: Ptr,
    useSwSwizzling: bool,
    tileYFlag: bool,
    use64BitRelocs: bool,
    usesPatchList: bool,
    usesGfxAddress: bool,
    cmdBufMgr: Ptr,
    gpuContextMgr: Ptr,
    mosDecompression: Ptr,
    mosMediaCopy: Ptr
  )

  /** The object as the (trivial) constructor leaves it: invalid, every
      handle null, every table and record empty. */
  const FreshState := OsState(false, 0, Null, false, map[], map[], ZeroPlatform, ZeroGtSystemInfo,
                              Null, Null, false, false, false, false, false, Null, Null, Null, Null)

  /** A snapshot of the MOS_CONTEXT fields Init reads or writes, except the
      back-pointer m_osDeviceContext (see DriverContext). */
  datatype CtxState = CtxState(
    fd: Int32,
    bufmgr: Ptr,
    deviceId: nat,
    skuTable: FeatureTable,
    waTable: FeatureTable,
    gtSystemInfo: GtSystemInfo,
    platform: Platform,
    simIsActive: Int32,
    gmmClientContext: Ptr,
    auxTableMgr: Ptr,
    useSwSwizzling: bool,
    tileYFlag: bool,
    isAtomSoc: bool,
    mediaMemDecompState: Ptr,
    mediaCopyState: Ptr
  )

  /** Where Init stands after a group of steps: `status` is Success to go on,
      otherwise the status Init returns. `log` holds every call so far. */
  datatype Stage = Stage(status: Status, os: OsState, ctx: CtxState, log: seq<Call>)

  /** What one call of Init returns and leaves behind. */
  datatype Outcome = Outcome(status: Status, os: OsState, ctx: Option<CtxState>, log: seq<Call>)

  /** What one call of Destroy leaves behind. */
  datatype Teardown = Teardown(os: OsState, log: seq<Call>)

  /** The value bSimIsActive takes: the SIM_ENABLE user feature in internal
      builds, the zeroed feature data otherwise. */
  function SimIsActive(env: InitEnv): (r: Int32)
    ensures !env.internalBuild ==> r == 0
  {
    if env.internalBuild then env.simEnable else 0
  }

  /** The workaround table after the one override Init applies: with
      FtrEnableMediaKernels clear, WaHucStreamoutOnlyDisable is written to 0;
      every other entry is kept. */
  function ApplyMediaKernelWa(sku: FeatureTable, wa: FeatureTable): (r: FeatureTable)
    ensures forall f :: f != WaHucStreamoutOnlyDisable ==> (f in r <==> f in wa)
    ensures forall f :: f != WaHucStreamoutOnlyDisable && f in wa ==> r[f] == wa[f]
    ensures IsSet(sku, FtrEnableMediaKernels) ==> r == wa
    ensures !IsSet(sku, FtrEnableMediaKernels) ==> WaHucStreamoutOnlyDisable in r && r[WaHucStreamoutOnlyDisable] == 0
  {
    if !IsSet(sku, FtrEnableMediaKernels) then wa[WaHucStreamoutOnlyDisable := 0] else wa
  }

  /* The phases below each take where Init stands before the phase (with
     status Success) and return where it stands after: the status (Success to
     go on), the object, the caller's context, and the call log extended by the
     calls the phase makes. */

  /** Lines 81-99: record the descriptor, open the GEM buffer manager (an
      INVALID_PARAMETER failure), enable reuse, publish it, classify the
      device from the buffer manager's id and clear the tables and records. */
  function OpenBufferManagerSpec(st: Stage, env: InitEnv): (r: Stage)
    ensures r.status == Success <==> env.bufmgr != Null
    ensures r.status != Success ==> r.status == InvalidParameter && r.ctx == st.ctx
    ensures r.os.fd == st.ctx.fd && r.os.bufmgr == env.bufmgr && r.os.osContextValid == st.os.osContextValid
  {
    var os1 := st.os.(fd := st.ctx.fd, bufmgr := env.bufmgr);
    var log1 := st.log + [BufmgrInit(st.ctx.fd, BATCH_BUFFER_SIZE)];
    if env.bufmgr == Null then Stage(InvalidParameter, os1, st.ctx, log1)
    else
      Stage(Success,
            os1.(isAtomSoc := env.gemDeviceId in env.atomSocIds,
                 skuTable := map[], waTable := map[],
                 platformInfo := ZeroPlatform, gtSystemInfo := ZeroGtSystemInfo),
            st.ctx.(bufmgr := env.bufmgr),
            log1 + [EnableReuse(env.bufmgr)] + [GetDeviceId])
  }

  /** Lines 101-124: take the tables from the caller's context when NullHW is
      enabled, from the hardware probe otherwise; fail with the status of
      whichever of NullHW::Init or the probe decides; then apply the
      workaround override. */
  function ResolveCapabilitiesSpec(st: Stage, env: InitEnv): (r: Stage)
    ensures r.ctx == st.ctx && r.os.osContextValid == st.os.osContextValid
    ensures r.status == (if env.nullHwEnabled then env.nullHwInitStatus else env.gfxInfo.status)
  {
    var os := st.os;
    var c := st.ctx;
    var os1 :=
      if env.nullHwEnabled then
        os.(platformInfo := c.platform, skuTable := c.skuTable, waTable := c.waTable, gtSystemInfo := c.gtSystemInfo)
      else
        os.(platformInfo := env.gfxInfo.platform, skuTable := env.gfxInfo.skuTable,
            waTable := env.gfxInfo.waTable, gtSystemInfo := env.gfxInfo.gtSystemInfo);
    var status := if env.nullHwEnabled then env.nullHwInitStatus else env.gfxInfo.status;
    var log1 := st.log + [NullHwInit];
    var log2 := if env.nullHwEnabled then log1 else log1 + [GetGfxInfo];
    if status != Success then Stage(status, os1, c, log2)
    else Stage(Success, os1.(waTable := ApplyMediaKernelWa(os1.skuTable, os1.waTable)), c, log2)
  }

  /** Lines 126-165: user settings for the product family, the GMM probe, the
      GMM library and its singleton (both INVALID_PARAMETER failures), then
      the client context and the aux-table manager. */
  function StartGmmSpec(st: Stage, env: InitEnv): (r: Stage)
    ensures r.ctx == st.ctx
    ensures r.status == Success <==> env.gmmInfoStatus == Success && env.openGmmOk && env.createSingletonOk
    ensures r.status != Success ==>
      r.os == st.os && r.status == (if env.gmmInfoStatus != Success then env.gmmInfoStatus else InvalidParameter)
  {
    var log1 := st.log + [UserSettingsInit(st.os.platformInfo.productFamily)] + [GetGmmInfo];
    if env.gmmInfoStatus != Success then Stage(env.gmmInfoStatus, st.os, st.ctx, log1)
    else
      var log2 := log1 + [OpenGmm(env.openGmmOk)];
      if !env.openGmmOk then Stage(InvalidParameter, st.os, st.ctx, log2)
      else
        var log3 := log2 + [CreateSingleton(env.createSingletonOk)];
        if !env.createSingletonOk then Stage(InvalidParameter, st.os, st.ctx, log3)
        else
          Stage(Success,
                st.os.(gmmClientContext := env.gmmClient, auxTableMgr := env.auxTableMgr),
                st.ctx,
                log3 + [CreateClientContext] + [CreateAuxTableMgr])
  }

  /** Lines 167-202: derive the feature flags, publish to the caller's
      context and become valid. */
  function DeriveAndPublishSpec(st: Stage, env: InitEnv): (r: Stage)
    ensures r.status == Success && r.os.osContextValid
    ensures r.os.useSwSwizzling == (SimIsActive(env) != 0 || IsSet(st.os.skuTable, FtrUseSwSwizzling))
    ensures r.os.tileYFlag == IsSet(st.os.skuTable, FtrTileY)
    ensures r.os.use64BitRelocs && r.os.usesPatchList && !r.os.usesGfxAddress
  {
    var p := PublishSpec(DeriveFlagsSpec(st, env), env);
    Stage(Success, p.os.(usesPatchList := true, usesGfxAddress := false, osContextValid := true),
          p.ctx, p.log + [SetOsContextValid(true)])
  }

  /** Lines 167-182: read SIM_ENABLE in internal builds into the caller's
      bSimIsActive, then derive software swizzling, Y tiling and 64-bit
      relocations. */
  function DeriveFlagsSpec(st: Stage, env: InitEnv): (r: Stage)
    ensures r.os.skuTable == st.os.skuTable && r.os.waTable == st.os.waTable
    ensures r.os.osContextValid == st.os.osContextValid
    ensures r.ctx.simIsActive == SimIsActive(env)
  {
    var sim := SimIsActive(env);
    Stage(Success,
          st.os.(useSwSwizzling := sim != 0 || IsSet(st.os.skuTable, FtrUseSwSwizzling),
                 tileYFlag := IsSet(st.os.skuTable, FtrTileY),
                 use64BitRelocs := true),
          st.ctx.(simIsActive := sim),
          if env.internalBuild then st.log + [ReadSimEnable] else st.log)
  }

  /** Lines 184-197: without NullHW, publish the device id and the tables to
      the caller's context; in every case publish the GMM client context, the
      aux-table manager, the swizzling and tiling flags and the Atom SoC
      flag. The object and the log are unchanged. */
  function PublishSpec(st: Stage, env: InitEnv): (r: Stage)
    ensures r.os == st.os && r.log == st.log
  {
    var c1 :=
      if env.nullHwEnabled then st.ctx
      else st.ctx.(deviceId := env.gemDeviceId, skuTable := st.os.skuTable, waTable := st.os.waTable,
                   gtSystemInfo := st.os.gtSystemInfo, platform := st.os.platformInfo);
    Stage(Success, st.os,
          c1.(gmmClientContext := st.os.gmmClientContext, auxTableMgr := st.os.auxTableMgr,
              useSwSwizzling := st.os.useSwSwizzling, tileYFlag := st.os.tileYFlag,
              isAtomSoc := st.os.isAtomSoc),
          st.log)
  }

  /** Lines 203-230: the command-buffer manager and its Initialize with half
      of COMMAND_BUFFER_SIZE, the GPU-context manager, with _MMC_SUPPORTED
      the decompression object and its state slot, then the media-copy object
      and its state slot. A null result is NULL_POINTER and a failed
      Initialize returns its own status. */
  function AcquireManagersSpec(st: Stage, env: InitEnv): (r: Stage)
    ensures r.os.osContextValid == st.os.osContextValid
    ensures env.cmdBufMgr == Null ==> r.status == NullPointer
    ensures env.cmdBufMgr != Null && env.cmdBufInitStatus != Success ==> r.status == env.cmdBufInitStatus
    ensures env.cmdBufMgr != Null && env.cmdBufInitStatus == Success && env.gpuContextMgr == Null ==>
      r.status == NullPointer
  {
    var os1 := st.os.(cmdBufMgr := env.cmdBufMgr);
    var log1 := st.log + [GetCmdBufMgr];
    if env.cmdBufMgr == Null then Stage(NullPointer, os1, st.ctx, log1)
    else
      var log2 := log1 + [InitializeCmdBufMgr(COMMAND_BUFFER_SIZE / 2)];
      if env.cmdBufInitStatus != Success then Stage(env.cmdBufInitStatus, os1, st.ctx, log2)
      else
        var os2 := os1.(gpuContextMgr := env.gpuContextMgr);
        var log3 := log2 + [GetGpuContextMgr];
        if env.gpuContextMgr == Null then Stage(NullPointer, os2, st.ctx, log3)
        else AcquireHelpersSpec(Stage(Success, os2, st.ctx, log3), env)
  }

  /** Lines 213-230: the decompression object (with _MMC_SUPPORTED), then
      the media-copy object, stopping at the first that fails. */
  function AcquireHelpersSpec(st: Stage, env: InitEnv): (r: Stage)
    ensures r.os.osContextValid == st.os.osContextValid
    ensures r.status == Success || r.status == NullPointer
  {
    var d := AcquireDecompressionSpec(st, env);
    if d.status != Success then d
    else AcquireMediaCopySpec(d, env)
  }

  /** Lines 213-222: with _MMC_SUPPORTED, the decompression object and its
      state slot, each a NULL_POINTER failure when null. The slot is only
      asked for (and written into the caller's context) when the object
      exists. */
  function AcquireDecompressionSpec(st: Stage, env: InitEnv): (r: Stage)
    ensures r.os.osContextValid == st.os.osContextValid
    ensures r.status == Success || r.status == NullPointer
    ensures r.status == Success <==> !env.mmcSupported || (env.decompression != Null && env.decompStateSlot != Null)
    ensures r.os.mosDecompression == (if env.mmcSupported then env.decompression else st.os.mosDecompression)
    ensures r.ctx.mediaMemDecompState ==
      (if env.mmcSupported && env.decompression != Null then env.decompStateSlot else st.ctx.mediaMemDecompState)
  {
    Stage(if !env.mmcSupported || (env.decompression != Null && env.decompStateSlot != Null) then Success else NullPointer,
          if env.mmcSupported then st.os.(mosDecompression := env.decompression) else st.os,
          if env.mmcSupported && env.decompression != Null then st.ctx.(mediaMemDecompState := env.decompStateSlot) else st.ctx,
          if env.mmcSupported then st.log + [NewDecompression] else st.log)
  }

  /** Lines 223-230: the media-copy object and its state slot, each a
      NULL_POINTER failure when null. The slot is only asked for (and written
      into the caller's context) when the object exists. */
  function AcquireMediaCopySpec(st: Stage, env: InitEnv): (r: Stage)
    ensures r.os.osContextValid == st.os.osContextValid
    ensures r.status == Success || r.status == NullPointer
    ensures r.status == Success <==> env.mediaCopy != Null && env.copyStateSlot != Null
    ensures r.os.mosMediaCopy == env.mediaCopy
    ensures r.ctx.mediaCopyState == (if env.mediaCopy != Null then env.copyStateSlot else st.ctx.mediaCopyState)
  {
    Stage(if env.mediaCopy != Null && env.copyStateSlot != Null then Success else NullPointer,
          st.os.(mosMediaCopy := env.mediaCopy),
          if env.mediaCopy != Null then st.ctx.(mediaCopyState := env.copyStateSlot) else st.ctx,
          st.log + [NewMediaCopy])
  }

  /** OsContextSpecificNext::Init as a step function: the validity gate, the
      descriptor check, then the phases above, stopping at the first failure
      without undoing anything. `history` is the call log before the call;
      the result's log extends it. */
  function InitSpec(os: OsState, ctx: Option<CtxState>, env: InitEnv, history: seq<Call>): (r: Outcome)
    ensures os.osContextValid ==> r == Outcome(Success, os, ctx, history)
    ensures r.status == Success ==> r.os.osContextValid
    ensures r.ctx.None? <==> ctx.None?
  {
    if os.osContextValid then Outcome(Success, os, ctx, history)
    else if ctx.None? || ctx.value.fd <= 0 then Outcome(InvalidHandle, os, ctx, history)
    else
      var a := OpenBufferManagerSpec(Stage(Success, os, ctx.value, history), env);
      if a.status != Success then Finish(a)
      else
        var b := ResolveCapabilitiesSpec(a, env);
        if b.status != Success then Finish(b)
        else
          var g := StartGmmSpec(b, env);
          if g.status != Success then Finish(g)
          else Finish(AcquireManagersSpec(DeriveAndPublishSpec(g, env), env))
  }

  function Finish(st: Stage): Outcome {
    Outcome(st.status, st.os, Some(st.ctx), st.log)
  }

  /** OsContextSpecificNext::Destroy as a step function. `reopenGmmOk` is the
      outcome of the OpenGmm call Destroy makes; `history` is the call log
      before the call. */
  function DestroySpec(os: OsState, reopenGmmOk: bool, history: seq<Call>): (r: Teardown)
    ensures !os.osContextValid ==> r == Teardown(os, history)
    ensures os.osContextValid ==>
      r.os == os.(osContextValid := false, auxTableMgr := Null, skuTable := map[], waTable := map[],
                  gmmClientContext := if reopenGmmOk then Null else os.gmmClientContext)
    ensures r.os.bufmgr == os.bufmgr && r.os.cmdBufMgr == os.cmdBufMgr && r.os.gpuContextMgr == os.gpuContextMgr
  {
    if !os.osContextValid then Teardown(os, history)
    else
      var t := ReleaseTablesSpec(os, history);
      var g := ReleaseGmmSpec(t.os, reopenGmmOk, t.log);
      Teardown(g.os.(osContextValid := false), g.log + [SetOsContextValid(false)])
  }

  /** Lines 241-250: delete the aux-table manager if there is one, reset both
      tables and destroy the buffer manager (whose pointer is kept). */
  function ReleaseTablesSpec(os: OsState, history: seq<Call>): (r: Teardown)
    ensures r.os == os.(auxTableMgr := Null, skuTable := map[], waTable := map[])
  {
    var log1 := if os.auxTableMgr != Null then history + [DeleteAuxTableMgr] else history;
    Teardown(os.(auxTableMgr := Null, skuTable := map[], waTable := map[]), log1 + [BufmgrDestroy(os.bufmgr)])
  }

  /** Lines 252-263: reopen GMM; only when that succeeds, delete the client
      context, clear the pointer and destroy the singleton. */
  function ReleaseGmmSpec(os: OsState, reopenGmmOk: bool, history: seq<Call>): (r: Teardown)
    ensures r.os == (if reopenGmmOk then os.(gmmClientContext := Null) else os)
  {
    var log1 := history + [OpenGmm(reopenGmmOk)];
    if reopenGmmOk then Teardown(os.(gmmClientContext := Null), log1 + [DeleteClientContext] + [DestroySingleton])
    else Teardown(os, log1)
  }

  /** The caller's MOS_CONTEXT, written in place by Init. Its fields are kept
      in one record, `fields`, that each write updates; the back-pointer
      m_osDeviceContext is a field of its own. */
  class DriverContext {
    var fields: CtxState
    var osDeviceContext: OsContextSpecificNext?

    constructor (fields: CtxState)
      ensures this.fields == fields && osDeviceContext == null
    {
      this.fields := fields;
      osDeviceContext := null;
    }
  }

  function ViewOf(ctx: DriverContext?): Option<CtxState>
    reads ctx
  {
    if ctx == null then None else Some(ctx.fields)
  }

  /** The per-device context shared by the GPU contexts of one device. Its
      m_* members are kept in one record, `members`, that each assignment of
      the source updates in the same order. */
  class OsContextSpecificNext {
    var members: OsState
    /** Every call this object has made into its collaborators, in order. */
    ghost var calls: seq<Call>

    constructor ()
      ensures members == FreshState && calls == []
    {
      members := FreshState;
      calls := [];
    }

    /** OsContextSpecificNext::Init. `ctx` is the caller's MOS_CONTEXT (which
        may be null); `env` gives the outcome of every collaborator. */
    method Init(ctx: DriverContext?, env: InitEnv) returns (status: Status)
      modifies this, ctx
      ensures var r := InitSpec(old(members), old(ViewOf(ctx)), env, old(calls));
        status == r.status && members == r.os && ViewOf(ctx) == r.ctx && calls == r.log
      ensures ctx != null ==>
        ctx.osDeviceContext == (if members.osContextValid && !old(members.osContextValid) then this else old(ctx.osDeviceContext))
    {
      status := Success;
      if !members.osContextValid {
        if ctx == null || ctx.fields.fd <= 0 {
          return InvalidHandle;
        }
        var deviceId;
        status, deviceId := OpenBufferManager(ctx, env);
        if status != Success {
          return;
        }
        status, deviceId := ResolveCapabilities(ctx, env, deviceId);
        if status != Success {
          return;
        }
        status := StartGmm(ctx, env);
        if status != Success {
          return;
        }
        DeriveAndPublish(ctx, env, deviceId);
        status := AcquireManagers(ctx, env);
      }
    }

    /** Lines 81-99 of Init. */
    method OpenBufferManager(ctx: DriverContext, env: InitEnv) returns (status: Status, deviceId: nat)
      modifies this, ctx`fields
      ensures var r := OpenBufferManagerSpec(Stage(Success, old(members), old(ctx.fields), old(calls)), env);
        status == r.status && members == r.os && ctx.fields == r.ctx && calls == r.log
      ensures deviceId == env.gemDeviceId
    {
      members := members.(fd := ctx.fields.fd, bufmgr := env.bufmgr);
      calls := calls + [BufmgrInit(ctx.fields.fd, BATCH_BUFFER_SIZE)];
      if env.bufmgr == Null {
        return InvalidParameter, env.gemDeviceId;
      }
      calls := calls + [EnableReuse(env.bufmgr)] + [GetDeviceId];
      ctx.fields := ctx.fields.(bufmgr := env.bufmgr);
      deviceId := env.gemDeviceId;
      members := members.(isAtomSoc := deviceId in env.atomSocIds,
                          skuTable := map[], waTable := map[],
                          platformInfo := ZeroPlatform, gtSystemInfo := ZeroGtSystemInfo);
      status := Success;
    }

    /** Lines 101-124 of Init; `deviceId` is Init's local iDeviceId, which the
        NullHW path overwrites with the caller's device id. */
    method ResolveCapabilities(ctx: DriverContext, env: InitEnv, deviceId: nat) returns (status: Status, deviceIdOut: nat)
      modifies this
      ensures var r := ResolveCapabilitiesSpec(Stage(Success, old(members), ctx.fields, old(calls)), env);
        status == r.status && members == r.os && calls == r.log
      ensures deviceIdOut == if env.nullHwEnabled then ctx.fields.deviceId else deviceId
    {
      deviceIdOut := deviceId;
      status := env.nullHwInitStatus;
      calls := calls + [NullHwInit];
      if !env.nullHwEnabled {
        status := env.gfxInfo.status;
        members := members.(platformInfo := env.gfxInfo.platform, skuTable := env.gfxInfo.skuTable,
                            waTable := env.gfxInfo.waTable, gtSystemInfo := env.gfxInfo.gtSystemInfo);
        calls := calls + [GetGfxInfo];
      } else {
        members := members.(platformInfo := ctx.fields.platform, skuTable := ctx.fields.skuTable,
                            waTable := ctx.fields.waTable, gtSystemInfo := ctx.fields.gtSystemInfo);
        deviceIdOut := ctx.fields.deviceId;
      }
      if status != Success {
        return;
      }
      if !IsSet(members.skuTable, FtrEnableMediaKernels) {
        members := members.(waTable := members.waTable[WaHucStreamoutOnlyDisable := 0]);
      }
    }

    /** Lines 126-165 of Init. */
    method StartGmm(ctx: DriverContext, env: InitEnv) returns (status: Status)
      modifies this
      ensures var r := StartGmmSpec(Stage(Success, old(members), ctx.fields, old(calls)), env);
        status == r.status && members == r.os && calls == r.log
    {
      calls := calls + [UserSettingsInit(members.platformInfo.productFamily)];
      status := env.gmmInfoStatus;
      calls := calls + [GetGmmInfo];
      if status != Success {
        return;
      }
      calls := calls + [OpenGmm(env.openGmmOk)];
      if !env.openGmmOk {
        return InvalidParameter;
      }
      calls := calls + [CreateSingleton(env.createSingletonOk)];
      if !env.createSingletonOk {
        return InvalidParameter;
      }
      members := members.(gmmClientContext := env.gmmClient);
      calls := calls + [CreateClientContext];
      members := members.(auxTableMgr := env.auxTableMgr);
      calls := calls + [CreateAuxTableMgr];
    }

    /** Lines 167-202 of Init. */
    method DeriveAndPublish(ctx: DriverContext, env: InitEnv, deviceId: nat)
      requires !env.nullHwEnabled ==> deviceId == env.gemDeviceId
      modifies this, ctx
      ensures var r := DeriveAndPublishSpec(Stage(Success, old(members), old(ctx.fields), old(calls)), env);
        members == r.os && ctx.fields == r.ctx && calls == r.log
      ensures ctx.osDeviceContext == this
    {
      DeriveFlags(ctx, env);
      Publish(ctx, env, deviceId);
      members := members.(usesPatchList := true);
      members := members.(usesGfxAddress := false);
      members := members.(osContextValid := true);
      calls := calls + [SetOsContextValid(true)];
    }

    /** Lines 167-182 of Init. */
    method DeriveFlags(ctx: DriverContext, env: InitEnv)
      modifies this, ctx`fields
      ensures var r := DeriveFlagsSpec(Stage(Success, old(members), old(ctx.fields), old(calls)), env);
        members == r.os && ctx.fields == r.ctx && calls == r.log
    {
      var simData: Int32 := 0;
      if env.internalBuild {
        simData := env.simEnable;
        calls := calls + [ReadSimEnable];
      }
      ctx.fields := ctx.fields.(simIsActive := simData);
      members := members.(useSwSwizzling := simData != 0 || IsSet(members.skuTable, FtrUseSwSwizzling),
                          tileYFlag := IsSet(members.skuTable, FtrTileY),
                          use64BitRelocs := true);
    }

    /** Lines 184-197 of Init: the writes into the caller's context, with the
        back-pointer. */
    method Publish(ctx: DriverContext, env: InitEnv, deviceId: nat)
      requires !env.nullHwEnabled ==> deviceId == env.gemDeviceId
      modifies ctx
      ensures ctx.fields == PublishSpec(Stage(Success, members, old(ctx.fields), calls), env).ctx
      ensures ctx.osDeviceContext == this
    {
      if !env.nullHwEnabled {
        ctx.fields := ctx.fields.(deviceId := deviceId);
        ctx.fields := ctx.fields.(skuTable := members.skuTable, waTable := members.waTable);
        ctx.fields := ctx.fields.(gtSystemInfo := members.gtSystemInfo, platform := members.platformInfo);
      }
      ctx.fields := ctx.fields.(gmmClientContext := members.gmmClientContext);
      ctx.fields := ctx.fields.(auxTableMgr := members.auxTableMgr);
      ctx.fields := ctx.fields.(useSwSwizzling := members.useSwSwizzling);
      ctx.fields := ctx.fields.(tileYFlag := members.tileYFlag);
      ctx.fields := ctx.fields.(isAtomSoc := members.isAtomSoc);
      ctx.osDeviceContext := this;
    }

    /** Lines 203-230 of Init. */
    method AcquireManagers(ctx: DriverContext, env: InitEnv) returns (status: Status)
      modifies this, ctx`fields
      ensures var r := AcquireManagersSpec(Stage(Success, old(members), old(ctx.fields), old(calls)), env);
        status == r.status && members == r.os && ctx.fields == r.ctx && calls == r.log
    {
      members := members.(cmdBufMgr := env.cmdBufMgr);
      calls := calls + [GetCmdBufMgr];
      if members.cmdBufMgr == Null {
        return NullPointer;
      }
      calls := calls + [InitializeCmdBufMgr(COMMAND_BUFFER_SIZE / 2)];
      if env.cmdBufInitStatus != Success {
        return env.cmdBufInitStatus;
      }

      members := members.(gpuContextMgr := env.gpuContextMgr);
      calls := calls + [GetGpuContextMgr];
      if members.gpuContextMgr == Null {
        return NullPointer;
      }

      status := AcquireDecompression(ctx, env);
      if status != Success {
        return;
      }
      status := AcquireMediaCopy(ctx, env);
    }

    /** Lines 213-222 of Init. */
    method AcquireDecompression(ctx: DriverContext, env: InitEnv) returns (status: Status)
      modifies this, ctx`fields
      ensures var r := AcquireDecompressionSpec(Stage(Success, old(members), old(ctx.fields), old(calls)), env);
        status == r.status && members == r.os && ctx.fields == r.ctx && calls == r.log
    {
      status := Success;
      if env.mmcSupported {
        members := members.(mosDecompression := env.decompression);
        calls := calls + [NewDecompression];
        if members.mosDecompression == Null {
          return NullPointer;
        }
        ctx.fields := ctx.fields.(mediaMemDecompState := env.decompStateSlot);
        if ctx.fields.mediaMemDecompState == Null {
          return NullPointer;
        }
      }
    }

    /** Lines 223-230 of Init. */
    method AcquireMediaCopy(ctx: DriverContext, env: InitEnv) returns (status: Status)
      modifies this, ctx`fields
      ensures var r := AcquireMediaCopySpec(Stage(Success, old(members), old(ctx.fields), old(calls)), env);
        status == r.status && members == r.os && ctx.fields == r.ctx && calls == r.log
    {
      members := members.(mosMediaCopy := env.mediaCopy);
      calls := calls + [NewMediaCopy];
      if members.mosMediaCopy == Null {
        return NullPointer;
      }
      ctx.fields := ctx.fields.(mediaCopyState := env.copyStateSlot);
      if ctx.fields.mediaCopyState == Null {
        return NullPointer;
      }
      status := Success;
    }

    /** OsContextSpecificNext::Destroy. `reopenGmmOk` is the outcome of the
        OpenGmm call made during teardown. */
    method Destroy(reopenGmmOk: bool)
      modifies this
      ensures var r := DestroySpec(old(members), reopenGmmOk, old(calls));
        members == r.os && calls == r.log
    {
      if members.osContextValid {
        ReleaseTables();
        ReleaseGmm(reopenGmmOk);
        members := members.(osContextValid := false);
        calls := calls + [SetOsContextValid(false)];
      }
    }

    /** Lines 241-250 of Destroy. */
    method ReleaseTables()
      modifies this
      ensures var r := ReleaseTablesSpec(old(members), old(calls));
        members == r.os && calls == r.log
    {
      if members.auxTableMgr != Null {
        calls := calls + [DeleteAuxTableMgr];
      }
      members := members.(auxTableMgr := Null);
      members := members.(skuTable := map[], waTable := map[]);
      calls := calls + [BufmgrDestroy(members.bufmgr)];
    }

    /** Lines 252-263 of Destroy. */
    method ReleaseGmm(reopenGmmOk: bool)
      modifies this
      ensures var r := ReleaseGmmSpec(old(members), reopenGmmOk, old(calls));
        members == r.os && calls == r.log
    {
      calls := calls + [OpenGmm(reopenGmmOk)];
      if reopenGmmOk {
        calls := calls + [DeleteClientContext];
        members := members.(gmmClientContext := Null);
        calls := calls + [DestroySingleton];
      }
    }
  }
}
