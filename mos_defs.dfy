/** Types shared by the model of OsContextSpecificNext: statuses, nullable
    handles, capability tables, the records the hardware probes fill in, the
    outcomes of every external collaborator that Init consults, and the log of
    calls made into those collaborators. */
module MosDefs {

  /** The subset of MOS_STATUS the lifecycle code produces itself, plus
      `Error(code)` for any other status a collaborator may hand back. */
  datatype Status = Success | InvalidHandle | InvalidParameter | NullPointer | Error(code: nat)

  /** A value that may be absent (a null pointer to a structure). */
  datatype Option<T> = None | Some(value: T)

  /** A pointer or handle owned by a foreign library: null, or some address. */
  datatype Ptr = Null | Addr(address: nat)

  /** A signed 32-bit integer (file descriptors, int32_t flags). */
  type Int32 = x: int | -0x8000_0000 <= x < 0x8000_0000

  /** The default batch size handed to the GEM buffer manager (BATCH_BUFFER_SIZE). */
  const BATCH_BUFFER_SIZE: nat := 0x80000

  /** COMMAND_BUFFER_SIZE from mos_os.h; Init hands half of it to the
      command-buffer manager. */
  const COMMAND_BUFFER_SIZE: nat := 32768

  /** The key of a SKU or workaround table entry: the four names the
      lifecycle code reads or writes, and any other name. */
  datatype Feature =
    | FtrEnableMediaKernels
    | FtrUseSwSwizzling
    | FtrTileY
    | WaHucStreamoutOnlyDisable
    | OtherFeature(name: string)

  /** A SKU or workaround table (MediaFeatureTable): feature to value.
      A missing key reads as 0. */
  type FeatureTable = map<Feature, nat>

  /** MEDIA_IS_SKU / MEDIA_IS_WA used as a truth value. */
  predicate IsSet(t: FeatureTable, f: Feature) {
    f in t && t[f] != 0
  }

  /** The part of the PLATFORM record the lifecycle code reads. */
  datatype Platform = Platform(productFamily: nat, renderCoreFamily: nat, deviceId: nat, revId: nat)

  /** The part of MEDIA_SYSTEM_INFO (GT system info) the model keeps. */
  datatype GtSystemInfo = GtSystemInfo(euCount: nat, threadCount: nat, sliceCount: nat, subSliceCount: nat)

  /** The records after MosZeroMemory. */
  const ZeroPlatform := Platform(0, 0, 0, 0)
  const ZeroGtSystemInfo := GtSystemInfo(0, 0, 0, 0)

  /** What HWInfo_GetGfxInfo returns and leaves in its four out-parameters. */
  datatype GfxInfo = GfxInfo(status: Status, platform: Platform, skuTable: FeatureTable,
                             waTable: FeatureTable, gtSystemInfo: GtSystemInfo)

  /** The outcome of every collaborator Init consults, in the order Init consults them. */
  datatype InitEnv = InitEnv(
    bufmgr: Ptr,                 // mos_bufmgr_gem_init
    gemDeviceId: nat,            // mos_bufmgr_gem_get_devid
    atomSocIds: set<nat>,        // the device ids IS_ATOMSOC accepts
    nullHwInitStatus: Status,    // NullHW::Init
    nullHwEnabled: bool,         // NullHW::IsEnabled
    gfxInfo: GfxInfo,            // HWInfo_GetGfxInfo
    gmmInfoStatus: Status,       // HWInfo_GetGmmInfo
    openGmmOk: bool,             // OpenGmm == GMM_SUCCESS
    createSingletonOk: bool,     // pfnCreateSingletonContext == GMM_SUCCESS
    gmmClient: Ptr,              // pfnCreateClientContext
    auxTableMgr: Ptr,            // AuxTableMgr::CreateAuxTableMgr
    internalBuild: bool,         // _DEBUG || _RELEASE_INTERNAL
    simEnable: Int32,            // the SIM_ENABLE user feature, read only in internal builds
    cmdBufMgr: Ptr,              // CmdBufMgrNext::GetObject
    cmdBufInitStatus: Status,    // CmdBufMgrNext::Initialize
    gpuContextMgr: Ptr,          // GpuContextMgrNext::GetObject
    mmcSupported: bool,          // _MMC_SUPPORTED
    decompression: Ptr,          // MOS_New(MosDecompression, ...)
    decompStateSlot: Ptr,        // MosDecompression::GetMediaMemDecompState
    mediaCopy: Ptr,              // MOS_New(MosMediaCopy, ...)
    copyStateSlot: Ptr           // MosMediaCopy::GetMediaCopyState
  )

  /** One call into a collaborator (or into the validity setter), as logged. */
  datatype Call =
    | BufmgrInit(fd: Int32, batchSize: nat)
    | EnableReuse(bufmgr: Ptr)
    | GetDeviceId
    | NullHwInit
    | GetGfxInfo
    | UserSettingsInit(productFamily: nat)
    | GetGmmInfo
    | OpenGmm(ok: bool)
    | CreateSingleton(ok: bool)
    | CreateClientContext
    | CreateAuxTableMgr
    | ReadSimEnable
    | SetOsContextValid(valid: bool)
    | GetCmdBufMgr
    | InitializeCmdBufMgr(size: nat)
    | GetGpuContextMgr
    | NewDecompression
    | NewMediaCopy
    | DeleteAuxTableMgr
    | BufmgrDestroy(bufmgr: Ptr)
    | DeleteClientContext
    | DestroySingleton

  /** How often `c` occurs in `log`. */
  function Count(log: seq<Call>, c: Call): nat {
    multiset(log)[c]
  }

  /** The position of the first occurrence of `c` in `log`, if any. */
  function IndexOf(log: seq<Call>, c: Call): (r: nat)
    ensures r <= |log|
    ensures r < |log| <==> c in log
    ensures r < |log| ==> log[r] == c
    ensures forall j :: 0 <= j < r ==> log[j] != c
  {
    if log == [] then 0
    else if log[0] == c then 0
    else 1 + IndexOf(log[1..], c)
  }
}
