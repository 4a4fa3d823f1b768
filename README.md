# OsContextSpecificNext lifecycle (Linux media driver)

This project models the device-level OS context of the Linux media driver,
`OsContextSpecificNext`, and in particular its two lifecycle operations:

- **Init** takes the caller's `MOS_CONTEXT` (a DRM file descriptor plus
  fields to fill in). It opens the GEM buffer manager and classifies the
  device as Atom SoC or not from the buffer manager's device id. It then
  takes the SKU/WA tables, the platform record and the GT system info,
  from the caller's context under NullHW or from the hardware probe
  otherwise. Next it applies the one workaround override, starts GMM (the
  user settings, the GMM info probe, the GMM library, the singleton, a
  client context, the aux-table manager) and derives the swizzling, tiling
  and relocation flags. It publishes its results back into the caller's
  context and marks the object valid. Only after that does it acquire the
  command-buffer manager, the GPU-context manager, the decompression object
  (with `_MMC_SUPPORTED`) and the media-copy object. Init on a valid
  object does nothing and returns success.
- **Destroy** runs only on a valid object. It deletes the aux-table manager,
  resets the tables and destroys the buffer manager. It reopens GMM, and
  only if that succeeds does it delete the client context and destroy the
  singleton. Finally it marks the object invalid.

The model has three layers:

- `MosDefs` holds the shared types: statuses, nullable pointers, feature
  tables, the records, the outcomes of the collaborators (`InitEnv`) and
  the calls into them (`Call`).
- `MosContextSpecificNext` holds two classes, `OsContextSpecificNext`
  (the object) and `DriverContext` (the caller's `MOS_CONTEXT`, with its
  `m_osDeviceContext` back-pointer). The methods update the fields in the
  source's order. Every method is proved equal to a pure step function over
  snapshots: `InitSpec`, `DestroySpec` and one function per block of the
  source. A ghost log records the calls the object makes into its
  collaborators. The three queries listed under "Left out" are not logged.
- `MosContextProperties` and `MosContextLifecycle` prove what the code
  promises about those step functions. This covers the early exits and
  their statuses, exactly when the object becomes valid, and what ends up
  in the object and in the caller's context. It also covers the order of
  the calls, what Destroy undoes, the fact that a second Init runs the whole
  body again, and the balance of GMM singletons over any sequence of Init
  and Destroy calls, where each Destroy that fails to reopen GMM on a
  valid object leaks exactly one.

Three details of the code that the model keeps exactly:

- A null buffer manager makes Init return `INVALID_PARAMETER`, not an
  allocation status (lines 84-88).
- The workaround override writes `WaHucStreamoutOnlyDisable` to 0 (line 123).
- Whenever NullHW is not enabled, the hardware probe's status overwrites the
  status of `NullHW::Init` (lines 101-105).

The model also proves two consequences of the code as written:

- A Destroy whose `OpenGmm` fails leaves a GMM singleton that no object
  holds (`FailedReopenLeaksSingleton`). Over any later calls whose Destroys
  reopen GMM, that singleton is never destroyed (`LeakedSingletonStaysLeaked`).
- An Init that fails after the buffer manager opened, but before the
  object became valid, leaves that buffer manager open: a following Destroy
  does nothing (`EarlyFailureLeavesBufmgrOpen`).

## Model

All source paths are in `media_driver/media_driver_next/linux/common/os/mos_context_specific_next.cpp`; the table gives them in full.

| member | source | states |
|---|---|---|
| MosContextSpecificNext.OsContextSpecificNext.Init | media_driver/media_driver_next/linux/common/os/mos_context_specific_next.cpp:61-233 | Status, new object state, new caller context and calls made are those of InitSpec from the old state; the back-pointer is set to the object exactly when this call made it valid |
| MosContextSpecificNext.OsContextSpecificNext.OpenBufferManager | media_driver/media_driver_next/linux/common/os/mos_context_specific_next.cpp:81-99 | m_fd and m_bufmgr are recorded before the null check; on success reuse is enabled, the buffer manager is published, the Atom SoC flag is the device-id lookup and the tables and records are cleared (OpenBufferManagerSpec) |
| MosContextSpecificNext.OsContextSpecificNext.ResolveCapabilities | media_driver/media_driver_next/linux/common/os/mos_context_specific_next.cpp:101-124 | The tables come from the context under NullHW and from the probe otherwise; the deciding status is returned and the override applied only on success (ResolveCapabilitiesSpec) |
| MosContextSpecificNext.OsContextSpecificNext.StartGmm | media_driver/media_driver_next/linux/common/os/mos_context_specific_next.cpp:126-165 | The GMM start-up with its three fatal exits, then the client context and aux-table manager (StartGmmSpec) |
| MosContextSpecificNext.OsContextSpecificNext.DeriveAndPublish | media_driver/media_driver_next/linux/common/os/mos_context_specific_next.cpp:167-202 | The flags are derived, the results published, the back-pointer set to this object and the object marked valid (DeriveAndPublishSpec) |
| MosContextSpecificNext.OsContextSpecificNext.DeriveFlags | media_driver/media_driver_next/linux/common/os/mos_context_specific_next.cpp:167-182 | bSimIsActive is written into the context, then the swizzling, tiling and 64-bit relocation flags are set (DeriveFlagsSpec) |
| MosContextSpecificNext.OsContextSpecificNext.Publish | media_driver/media_driver_next/linux/common/os/mos_context_specific_next.cpp:184-197 | Only the caller's context is written (the device id and tables only without NullHW) and its back-pointer becomes this object (PublishSpec) |
| MosContextSpecificNext.OsContextSpecificNext.AcquireManagers | media_driver/media_driver_next/linux/common/os/mos_context_specific_next.cpp:203-230 | The managers and helpers are acquired, stopping at the first null or failed Initialize (AcquireManagersSpec) |
| MosContextSpecificNext.OsContextSpecificNext.AcquireDecompression | media_driver/media_driver_next/linux/common/os/mos_context_specific_next.cpp:213-222 | With _MMC_SUPPORTED, the decompression object and its state slot (AcquireDecompressionSpec) |
| MosContextSpecificNext.OsContextSpecificNext.AcquireMediaCopy | media_driver/media_driver_next/linux/common/os/mos_context_specific_next.cpp:223-230 | The media-copy object and its state slot (AcquireMediaCopySpec) |
| MosContextSpecificNext.OsContextSpecificNext.Destroy | media_driver/media_driver_next/linux/common/os/mos_context_specific_next.cpp:235-267 | The new object state and calls are those of DestroySpec; nothing happens on an invalid object |
| MosContextSpecificNext.OsContextSpecificNext.ReleaseTables | media_driver/media_driver_next/linux/common/os/mos_context_specific_next.cpp:241-250 | The aux-table manager is deleted only if present and then nulled, both tables are reset and the buffer manager is destroyed (ReleaseTablesSpec) |
| MosContextSpecificNext.OsContextSpecificNext.ReleaseGmm | media_driver/media_driver_next/linux/common/os/mos_context_specific_next.cpp:252-263 | The client context is deleted and nulled and the singleton destroyed only when OpenGmm succeeds (ReleaseGmmSpec) |
| MosContextSpecificNext.OsContextSpecificNext.constructor | media_driver/media_driver_next/linux/common/os/mos_context_specific_next.cpp:51-54 | A new object is invalid, with every pointer null and no call made |
| MosContextSpecificNext.SimIsActive | media_driver/media_driver_next/linux/common/os/mos_context_specific_next.cpp:167-176 | bSimIsActive is 0 outside internal builds |
| MosContextSpecificNext.ApplyMediaKernelWa | media_driver/media_driver_next/linux/common/os/mos_context_specific_next.cpp:121-124 | With FtrEnableMediaKernels clear, WaHucStreamoutOnlyDisable becomes 0; with it set, the table is unchanged; no other entry ever changes |
| MosContextSpecificNext.OpenBufferManagerSpec | media_driver/media_driver_next/linux/common/os/mos_context_specific_next.cpp:81-99 | Success iff a buffer manager was created; failure is INVALID_PARAMETER with the context untouched; m_fd and m_bufmgr are recorded in both cases; validity is unchanged |
| MosContextSpecificNext.ResolveCapabilitiesSpec | media_driver/media_driver_next/linux/common/os/mos_context_specific_next.cpp:101-124 | The status is NullHW::Init's under NullHW and the probe's otherwise; the context and validity are unchanged |
| MosContextSpecificNext.StartGmmSpec | media_driver/media_driver_next/linux/common/os/mos_context_specific_next.cpp:126-165 | Success iff the GMM info probe, OpenGmm and the singleton all succeed; on failure the object is unchanged and the status is the probe's or INVALID_PARAMETER |
| MosContextSpecificNext.DeriveAndPublishSpec | media_driver/media_driver_next/linux/common/os/mos_context_specific_next.cpp:167-202 | Always succeeds and makes the object valid; swizzling is SIM or FtrUseSwSwizzling, tileY is FtrTileY, 64-bit relocs and patch list are on, GFX addressing is off |
| MosContextSpecificNext.DeriveFlagsSpec | media_driver/media_driver_next/linux/common/os/mos_context_specific_next.cpp:167-182 | The context's bSimIsActive is SimIsActive; both tables and validity are unchanged |
| MosContextSpecificNext.PublishSpec | media_driver/media_driver_next/linux/common/os/mos_context_specific_next.cpp:184-197 | Publishing changes neither the object nor the call log |
| MosContextSpecificNext.AcquireManagersSpec | media_driver/media_driver_next/linux/common/os/mos_context_specific_next.cpp:203-230 | Validity is unchanged; a null command-buffer manager gives NULL_POINTER, a failed Initialize gives its own status and a null GPU-context manager gives NULL_POINTER |
| MosContextSpecificNext.AcquireHelpersSpec | media_driver/media_driver_next/linux/common/os/mos_context_specific_next.cpp:213-230 | Validity is unchanged and the status is SUCCESS or NULL_POINTER |
| MosContextSpecificNext.AcquireDecompressionSpec | media_driver/media_driver_next/linux/common/os/mos_context_specific_next.cpp:213-222 | Success iff MMC is off or both the object and its state slot are non-null; otherwise NULL_POINTER; with MMC the object is stored, and the state slot is published into the context only when the object exists |
| MosContextSpecificNext.AcquireMediaCopySpec | media_driver/media_driver_next/linux/common/os/mos_context_specific_next.cpp:223-230 | Success iff the media-copy object and its state slot are non-null; otherwise NULL_POINTER; the object is stored, and the state slot is published into the context only when the object exists |
| MosContextSpecificNext.InitSpec | media_driver/media_driver_next/linux/common/os/mos_context_specific_next.cpp:61-233 | On a valid object Init changes nothing and succeeds; success implies validity; a context is present after iff it was before |
| MosContextSpecificNext.DestroySpec | media_driver/media_driver_next/linux/common/os/mos_context_specific_next.cpp:235-267 | A no-op on an invalid object; otherwise invalid afterwards with no aux-table manager, empty tables and the client context cleared iff OpenGmm succeeded, every other member kept (including the buffer-manager and manager pointers) |
| MosContextSpecificNext.ReleaseTablesSpec | media_driver/media_driver_next/linux/common/os/mos_context_specific_next.cpp:241-250 | Only the aux-table manager and the two tables change |
| MosContextSpecificNext.ReleaseGmmSpec | media_driver/media_driver_next/linux/common/os/mos_context_specific_next.cpp:252-263 | Only the client context changes, and only when OpenGmm succeeds |
| MosContextProperties.InitHistory | media_driver/media_driver_next/linux/common/os/mos_context_specific_next.cpp:61-233 | Init appends its calls to the earlier log; nothing else depends on that log |
| MosContextProperties.DestroyHistory | media_driver/media_driver_next/linux/common/os/mos_context_specific_next.cpp:235-267 | Destroy appends its calls to the earlier log; nothing else depends on that log |
| MosContextProperties.InitRejectsBadHandle | media_driver/media_driver_next/linux/common/os/mos_context_specific_next.cpp:73-80 | A null context or fd <= 0 gives INVALID_HANDLE with no call, m_fd unassigned and nothing changed |
| MosContextProperties.InitAllocatorFailure | media_driver/media_driver_next/linux/common/os/mos_context_specific_next.cpp:81-88 | A null buffer manager gives INVALID_PARAMETER after exactly one call, with m_fd recorded, m_bufmgr null and the context untouched |
| MosContextProperties.InitProbeFailure | media_driver/media_driver_next/linux/common/os/mos_context_specific_next.cpp:101-230 | A failed probe returns its status; the tables are stored without the override and the device is classified; the calls are exactly the buffer-manager calls and the probe (no user settings, no GMM, no manager); the object stays invalid with its manager pointers unchanged |
| MosContextProperties.InitGmmFailure | media_driver/media_driver_next/linux/common/os/mos_context_specific_next.cpp:126-230 | A GMM start-up failure returns the GMM-info status or INVALID_PARAMETER; the calls stop at the failing step (no client context, no aux-table manager, no validity, no manager); the context holds only the buffer manager; the object stays invalid with its client-context, aux-table and manager pointers unchanged |
| MosContextProperties.InitValidityRule | media_driver/media_driver_next/linux/common/os/mos_context_specific_next.cpp:73-202 | The object becomes valid iff every step through the singleton succeeds; otherwise the status is that of the first failing step, which is never SUCCESS |
| MosContextProperties.InitReachingValidity | media_driver/media_driver_next/linux/common/os/mos_context_specific_next.cpp:202-204 | Validity is set, and logged, before the command-buffer manager is requested |
| MosContextProperties.AcquireManagersLog | media_driver/media_driver_next/linux/common/os/mos_context_specific_next.cpp:203-230 | The calls of the manager phase are a fixed prefix chain decided only by the collaborators' results |
| MosContextProperties.AcquireManagersFrame | media_driver/media_driver_next/linux/common/os/mos_context_specific_next.cpp:203-230 | The manager phase changes only the manager pointers of the object and the two state slots of the context |
| MosContextProperties.InitCapabilities | media_driver/media_driver_next/linux/common/os/mos_context_specific_next.cpp:81-202 | On success up to validity, the object holds the probed tables (WA overridden), records, the device class, the GMM pointers and the derived flags |
| MosContextProperties.InitPublishes | media_driver/media_driver_next/linux/common/os/mos_context_specific_next.cpp:184-197 | The publishing rule: device id and tables come from the object only without NullHW; the GMM pointers and flags always match the object |
| MosContextProperties.AcquireManagersStatus | media_driver/media_driver_next/linux/common/os/mos_context_specific_next.cpp:203-230 | The manager phase succeeds iff every manager and helper is available |
| MosContextProperties.InitSucceedsIff | media_driver/media_driver_next/linux/common/os/mos_context_specific_next.cpp:61-233 | Init on an invalid object with a good handle succeeds iff every step succeeds |
| MosContextProperties.InitManagersResult | media_driver/media_driver_next/linux/common/os/mos_context_specific_next.cpp:203-230 | When every manager and helper is available, Init stores the command-buffer, GPU-context, media-copy and (with MMC) decompression objects in the object and both state slots in the caller's context |
| MosContextProperties.AcquireManagersFailure | media_driver/media_driver_next/linux/common/os/mos_context_specific_next.cpp:203-230 | A failing manager phase returns the failed Initialize's status, and NULL_POINTER for every null manager, helper or state slot |
| MosContextProperties.InitManagerFailure | media_driver/media_driver_next/linux/common/os/mos_context_specific_next.cpp:203-230 | A manager failure returns the failed Initialize's status or NULL_POINTER for a null manager, helper or state slot, and leaves the object valid |
| MosContextProperties.InitIgnoresStaleState | media_driver/media_driver_next/linux/common/os/mos_context_specific_next.cpp:73-233 | On an invalid object, Init's status, context and calls do not depend on leftover member values |
| MosContextProperties.DestroyCalls | media_driver/media_driver_next/linux/common/os/mos_context_specific_next.cpp:239-266 | The aux-table manager is deleted iff present; the buffer manager is destroyed; the client context is deleted iff OpenGmm succeeds; the last call marks the object invalid |
| MosContextProperties.InitAfterDestroy | media_driver/media_driver_next/linux/common/os/mos_context_specific_next.cpp:235-267 | After Destroy, Init runs the full body again exactly as on a new object |
| MosContextProperties.InitSingletonCount | media_driver/media_driver_next/linux/common/os/mos_context_specific_next.cpp:153-162 | One Init creates one GMM singleton exactly when it makes the object valid, and destroys none |
| MosContextProperties.DestroySingletonCount | media_driver/media_driver_next/linux/common/os/mos_context_specific_next.cpp:252-263 | One Destroy of a valid object destroys one singleton iff OpenGmm succeeds, and creates none |
| MosContextLifecycle.StepKeepsSingletonBalance | media_driver/media_driver_next/linux/common/os/mos_context_specific_next.cpp:153-263 | Any Init, and any Destroy that reopens GMM, keeps created singletons = destroyed + leaked + (valid ? 1 : 0) |
| MosContextLifecycle.RunKeepsSingletonBalance | media_driver/media_driver_next/linux/common/os/mos_context_specific_next.cpp:153-263 | That balance, with the same number leaked, holds over any sequence of calls whose Destroys all reopen GMM |
| MosContextLifecycle.RunBalanceAny | media_driver/media_driver_next/linux/common/os/mos_context_specific_next.cpp:153-265 | Over any sequence of Init and Destroy calls, the leaked count grows by exactly the number of Destroys that fail to reopen GMM on a valid object |
| MosContextLifecycle.FailedReopenLeaksSingleton | media_driver/media_driver_next/linux/common/os/mos_context_specific_next.cpp:252-265 | A Destroy whose OpenGmm fails invalidates the object but adds one to the singletons leaked |
| MosContextLifecycle.LeakedSingletonStaysLeaked | media_driver/media_driver_next/linux/common/os/mos_context_specific_next.cpp:252-265 | After a failed reopen, over any later calls whose Destroys reopen GMM, one singleton stays created but neither destroyed nor held |
| MosContextLifecycle.EarlyFailureLeavesBufmgrOpen | media_driver/media_driver_next/linux/common/os/mos_context_specific_next.cpp:83-162 | An Init failing before validity keeps the open buffer manager in an invalid object, so a following Destroy changes nothing |

## Left out

- Logging, assertion messages and `MOS_OS_FUNCTION_ENTER`: they have no effect on state or status.
- `MosTraceSetupInfo` (lines 128-132): a trace side effect with no result.
- The internals of the collaborators: `mos_bufmgr_gem_init`, HWInfo, NullHW, GMM, `AuxTableMgr`, `CmdBufMgrNext`, `GpuContextMgrNext`, `MosDecompression`, `MosMediaCopy` and the user-feature reader. Their results are inputs (`InitEnv`); each call that changes or creates something is recorded in the log.
- `IS_ATOMSOC` is an input set of device ids, because its table is not part of this model.
- `COMMAND_BUFFER_SIZE` is taken as 32768 from `mos_os.h`, which is not part of this model.
- The GMM tables of lines 134-137 are not kept: they only feed the singleton, whose outcome is an input.
- `PLATFORM` and `MEDIA_SYSTEM_INFO` keep only a few fields; the feature tables keep only the four features the code reads or writes.
- The checks of `*ppMediaMemDecompState` and `*ppMediaCopyState` (lines 218-221, 227-230) only log, so they are not modelled.
- Three read-only queries are not recorded in the call log: `NullHW::IsEnabled` (lines 102 and 184), `GetMediaMemDecompState` (line 216) and `GetMediaCopyState` (line 225). Their answers are inputs (`nullHwEnabled`, `decompStateSlot`, `copyStateSlot`), so the log does not show when they are asked.
- Integer widths: the file descriptor is a 32-bit signed integer (`Int32`); statuses, device ids and table values are unbounded, because nothing in the code depends on their overflow.
- The m_* members are kept in one record field per object, updated in the source's order, so aliasing between individual members and other objects is not modelled.
- MosContextSpecificNext.OsContextSpecificNext.Init: the back-pointer `m_osDeviceContext` is stated in this method's contract only, not in InitSpec.
- The destructor (lines 56-59) only logs.
- MosContextSpecificNext.OsContextSpecificNext.constructor: the initial member values come from the member initialisers in `mos_context_specific_next.h`, which is not part of this model; the model starts with every member null, false or empty.
- The other members of the class are not part of this model.
