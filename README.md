# xenhid in Dafny

A model of the Xen paravirtual keyboard and mouse HID minidriver for Windows
(`xenhid`), with proofs about it. The model covers three parts of the driver.

- **The vkbd device model** (`vkbd.c`):
  - the classification of Linux key codes into HID usages;
  - the six-slot key array, the modifier and button masks, and the clamped absolute mouse position;
  - the KeyPending/MouPending memory of reports that could not be delivered;
  - the drain of the shared in-ring between `in_cons` and `in_prod`;
  - the acquisition and reverse-order release of the shared page, grant and event channel;
  - the constant descriptor replies.
- **The function driver object** (`fdo.c`):
  - the four-slot read-IRP cache used as a FIFO;
  - the PnP state with its previous-state memory, in which Deleted is never left;
  - the device and system power states;
  - the power-up and power-down sequences around the frontend and the debug and suspend callbacks;
  - the PnP, power and HID IOCTL dispatch.
- **The Xenbus frontend** (`frontend.c`):
  - the state handshake with the backend over the XenStore (close, connect, the transaction retry loop);
  - enable and disable with their unwinding;
  - the `Connected` guard in front of every HID operation.

Modules, one per file:

| module | file | what it holds |
|---|---|---|
| `NtStatus` | `nt_status.dfy` | NT statuses, `NT_SUCCESS`, `Option` |
| `Hid` | `hid.dfy` | the keyboard and mouse reports and the descriptor constants |
| `Io` | `io.dfy` | IRPs as opaque ids; `IoManager`, which keeps the log of completions `(irp, status, information, payload)`, the IRPs passed down the stack and the lower driver's scripted answers |
| `Shift` | `shift.dfy` | the left shift that both slot arrays use |
| `Usage` | `usage.dfy` | `__UsasgeType`, `__UpdateBit`, `__Limit` |
| `KeyArray` | `key_array.dfy` | `__UpdateArray`, in place on an `array<bv8>` and as a function on sequences |
| `ReadCache` | `read_cache.dfy` | `Irps[4]` and `Enabled` as class `IrpCache` |
| `Xenbus` | `xenbus.dfy` | the XENBUS interfaces as one scripted environment `Env`; a trace of acquisitions and releases with the resources they hold |
| `Vkbd` | `vkbd.dfy` | the vkbd context as class `Vkbd` |
| `Frontend` | `frontend.dfy` | the frontend as class `Frontend` |
| `Fdo` | `fdo.dfy` | the FDO as class `Fdo` |

The calls into Xen, the XenStore and the kernel are replaced by the class
`Xenbus.Env`. It works as follows.

- **Failures:** every fallible call takes its status from a script `outcomes`. An exhausted script answers STATUS_SUCCESS. A failure the frontend reports is *explained* when it is one of the script's answers, STATUS_NO_MEMORY after the script refused an allocation, STATUS_OBJECT_NAME_NOT_FOUND for a key that is missing, or STATUS_UNSUCCESSFUL after the wait timed out; the frontend's contracts state that every failure is explained. The model's loops end because the scripts are finite; two loops of the driver itself have no bound (see "## Left out").
- **Trace:** every call with a lasting effect appends an `Action` to `trace`.
- **Held resources:** `Held(held, t)` is the set of resources held after trace `t`, starting from `held`. Resource-safety properties are stated with it ("a failed enable holds nothing", "disable gives back everything enable took").
- **Store:** a map from (path, key) to values. At most one transaction is open, and its writes become visible together on a successful commit.
- **Waiting and time:** the backend's state changes arrive as scripted observations, each with the milliseconds it took. An idle wait costs 1000 ms, which bounds `__FrontendWaitState` by its 120000 ms timeout.
- **Lower driver:** the I/O manager's lower device object answers from a script of its own.

Each imperative routine of the driver is a method of the class that owns the
fields it updates. Its `ensures` ties the new state to a specification
function, and lemmas prove what the driver promises about that function.
Examples:

- `KeyArray.UpdateArray` against `Update`, with lemmas `PressSpec` and `ReleaseSpec`;
- `Vkbd.Vkbd.Poll` against `Drained`;
- `ReadCache.IrpCache.Cache` against `Cached`, with lemmas `CachedSpec` and `FifoOrder`;
- `Fdo.Fdo.DispatchPnp` against `PnpAfter`.

In these places the model follows the code where a reader might expect
otherwise:

- When all six key slots are in use, a press overwrites the last slot. The first five keys are kept, not the most recent six.
- HID_DEVICE_ATTRIBUTES is 32 bytes.
- `Vkbd_Destroy` does not clear KeyPending or MouPending.
- `__FrontendConnect` waits for a single change of the backend's state after writing Connected, and anything but Connected is STATUS_INVALID_PARAMETER.

## Model

| member | source | states |
|---|---|---|
| `Io.AppendFresh` | src/xenhid/fdo.c:892-899 | completing an IRP not completed before keeps every IRP completed at most once |
| `Io.IoManager.Complete` | src/xenhid/fdo.c:897-899 | IoCompleteRequest appends exactly one completion and forwards nothing |
| `Io.IoManager.CallLower` | src/xenhid/fdo.c:728-790 | IoCallDriver records the IRP as passed down and returns the lower driver's next status |
| `Shift.Removed` | src/xenhid/vkbd.c:349-352 | slots before k unchanged, slots from k take their right neighbour, last slot empty |
| `Shift.ShiftOut` | src/xenhid/fdo.c:227-229 | the in-place shift loop leaves exactly `Removed(old(a[..]), k, empty)` |
| `Usage.UsageType` | src/xenhid/vkbd.c:129-304 | every keyboard usage is non-zero; a code is a modifier exactly when it is 0xE0-0xE7, and a button exactly when it is 0x110-0x114, with bit `1 << (code - base)`; codes outside the table are unmapped |
| `Usage.LinuxModifiersAreKeys` | src/xenhid/vkbd.c:168-285 | the Linux Ctrl, Shift, Alt and Meta codes are keyboard keys with usages 0xE0-0xE7, not modifier bits |
| `Usage.KeyUsage` | src/xenhid/vkbd.c:140-298 | a code outside the keyboard-key table has usage 0 |
| `Usage.UpdateBit` | src/xenhid/vkbd.c:306-324 | for a single-bit mask: reports a change exactly when the bit's state differs from `pressed`; afterwards the bit equals `pressed`; no change means the mask is unchanged |
| `Usage.UpdateBitOthers` | src/xenhid/vkbd.c:316-321 | every other bit of the mask is unchanged |
| `Usage.UpdateBitChanges` | src/xenhid/vkbd.c:313-323 | a reported change is a real change of the mask |
| `Usage.BitIsSingle` | src/xenhid/vkbd.c:285-298 | every modifier and button mask has exactly one bit set |
| `Usage.Limit` | src/xenhid/vkbd.c:411-421 | the result lies in [min, max], equals val when val is in range, is min below the range and max above it |
| `KeyArray.IndexOf` | src/xenhid/vkbd.c:347-348 | the first slot holding v, or the length exactly when v is absent |
| `KeyArray.PressSlot` | src/xenhid/vkbd.c:336-342 | where the press loop stops: every earlier slot is neither v nor empty |
| `KeyArray.PressSpec` | src/xenhid/vkbd.c:335-345 | press of a held key: unchanged and FALSE; otherwise TRUE, v in the first empty slot, or in slot 5 with slots 0-4 untouched when full; the array stays dense and duplicate-free and holds v |
| `KeyArray.ReleaseSpec` | src/xenhid/vkbd.c:346-357 | release of a held key: later keys shift left, the last slot becomes 0, TRUE; of an absent key: unchanged and FALSE; dense, duplicate-free, v gone, every other key kept |
| `KeyArray.UpdateArray` | src/xenhid/vkbd.c:326-358 | the in-place routine computes `Update` of the old array, changed flag included |
| `KeyArray.PressInPlace` | src/xenhid/vkbd.c:335-345 | the press loop computes `Press` of the old array |
| `KeyArray.ReleaseInPlace` | src/xenhid/vkbd.c:346-357 | the release loop and its shift compute `Release` of the old array |
| `ReadCache.Queue` | src/xenhid/fdo.c:184-236 | the occupied prefix of the slots, oldest first, followed by an empty slot when shorter |
| `ReadCache.FirstUsed` | src/xenhid/fdo.c:224-226 | the first occupied slot, every earlier one empty |
| `ReadCache.CachedSpec` | src/xenhid/fdo.c:184-211 | disabled: STATUS_DEVICE_NOT_READY, unchanged; full: STATUS_UNSUCCESSFUL, unchanged; otherwise STATUS_SUCCESS and the IRP queued last; never STATUS_PENDING; slots stay dense |
| `ReadCache.UncachedSpec` | src/xenhid/fdo.c:213-236 | empty: NULL, unchanged; otherwise the oldest IRP, the rest move up one slot and slot 3 becomes NULL; slots stay dense |
| `ReadCache.FifoOrder` | src/xenhid/fdo.c:184-236 | caching then uncaching yields the oldest cached IRP |
| `ReadCache.ReadCompletedSpec` | src/xenhid/fdo.c:238-263 | empty cache: STATUS_DEVICE_NOT_READY and nothing completed; otherwise the oldest IRP completed with STATUS_SUCCESS, Information = length and the report; the cache stays well formed |
| `ReadCache.CachedKeeps` | src/xenhid/fdo.c:184-211 | caching an IRP not seen before keeps every IRP completed at most once |
| `ReadCache.NotReady` | src/xenhid/fdo.c:270-279 | one STATUS_DEVICE_NOT_READY completion per cached IRP, oldest first |
| `ReadCache.EmptySlots` | src/xenhid/fdo.c:1036-1040 | four empty slots, an empty queue |
| `ReadCache.PauseKeeps` | src/xenhid/fdo.c:265-280 | flushing the cache completes no IRP twice |
| `ReadCache.IrpCache.constructor` | src/xenhid/fdo.c:1036-1040 | a new FDO's cache is disabled and empty |
| `ReadCache.IrpCache.Cache` | src/xenhid/fdo.c:184-211 | the in-place loop computes `Cached` of the old slots |
| `ReadCache.IrpCache.Uncache` | src/xenhid/fdo.c:213-236 | the in-place loop and shift compute `Uncached` of the old slots |
| `ReadCache.IrpCache.CompleteRead` | src/xenhid/fdo.c:238-263 | computes `ReadCompleted` of the old cache and log; Enabled is not consulted |
| `ReadCache.IrpCache.PauseData` | src/xenhid/fdo.c:265-280 | Enabled FALSE, the slots empty, and every cached IRP completed oldest-first with STATUS_DEVICE_NOT_READY |
| `ReadCache.IrpCache.DrainAll` | src/xenhid/fdo.c:270-279 | the `for (;;)` loop empties the slots and appends `NotReady` of the old queue |
| `ReadCache.IrpCache.ResumeData` | src/xenhid/fdo.c:282-288 | only Enabled changes, and it becomes TRUE |
| `Xenbus.StateName` | src/xenhid/frontend.c:79-96 | a name for every XenbusState, "<UNKNOWN>" exactly beyond Reconfigured |
| `Xenbus.StateNamesDistinct` | src/xenhid/frontend.c:79-96 | distinct states have distinct names |
| `Xenbus.UnwindReleases` | src/xenhid/vkbd.c:633-642 | undoing fresh acquisitions in reverse order leaves the caller holding what it held before |
| `Xenbus.AcquiredHeld` | src/xenhid/vkbd.c:601-628 | a run of fresh acquisitions holds every resource it took |
| `Xenbus.QuietHeld` | src/xenhid/frontend.c:155-258 | store writes, watches removed at once and closed transactions leave the held resources as they were |
| `Xenbus.Env.StoreRead` | src/xenhid/frontend.c:269-271 | STORE(Read): a missing key is STATUS_OBJECT_NAME_NOT_FOUND, a failure yields no value |
| `Xenbus.Env.TransactionCommit` | src/xenhid/frontend.c:376-381 | a successful commit makes the transaction's writes visible together; any failure, STATUS_RETRY included, discards them |
| `Vkbd.Unconsumed` | src/xenhid/vkbd.c:487-494 | the events between in_cons and in_prod, read modulo the 51-event in-ring (XENKBD_IN_RING_LEN) with 32-bit counters |
| `Vkbd.DeliveredSpec` | src/xenhid/vkbd.c:360-373 | with a read IRP cached, the report completes it and the flag is untouched; without one, nothing is completed and the flag is set; never cleared |
| `Vkbd.UnmappedIgnored` | src/xenhid/vkbd.c:406-407 | a code of no type changes nothing and completes nothing |
| `Vkbd.ButtonSpec` | src/xenhid/vkbd.c:385-390 | a button code changes only its bit of MouState.Buttons, to `pressed`; no change, no completion |
| `Vkbd.ModifierSpec` | src/xenhid/vkbd.c:392-397 | a modifier code changes only its bit of KeyState.Modifiers; no change, no completion |
| `Vkbd.KeySpec` | src/xenhid/vkbd.c:399-404 | a keyboard key updates the key slots as `__UpdateArray` does and nothing else; the key is held after a press and gone after a release; no change, no completion |
| `Vkbd.PosSpec` | src/xenhid/vkbd.c:423-448 | X and Y clamped to [0, 32767] and Z to [-127, 127]; buttons and keyboard untouched; an unchanged clamped triple changes nothing and completes nothing |
| `Vkbd.EventKeeps` | src/xenhid/vkbd.c:450-466 | every event keeps the key slots dense and duplicate-free, the mouse position in range and the cache well formed, and never clears a pending flag |
| `Vkbd.DrainedKeeps` | src/xenhid/vkbd.c:468-500 | draining any run of events keeps the same invariant and pending flags |
| `Vkbd.DrainedAppend` | src/xenhid/vkbd.c:473-499 | draining in two rounds is draining the concatenation, as the outer loop of VkbdPoll does |
| `Vkbd.ReadReportSpec` | src/xenhid/vkbd.c:813-857 | STATUS_PENDING exactly when nothing is pending; keyboard before mouse; the current record goes to the oldest cached IRP and clears its flag; no IRP cached means STATUS_DEVICE_NOT_READY and nothing changes |
| `Vkbd.Unsupported` | src/xenhid/vkbd.c:772-811 | GetFeature, SetFeature and WriteReport answer STATUS_NOT_SUPPORTED and copy nothing |
| `Vkbd.DescriptorRepliesSpec` | src/xenhid/vkbd.c:718-770 | a short buffer gets STATUS_INVALID_BUFFER_SIZE and nothing, a long enough one the structure with Information = its size; the HID descriptor's sizes agree with the other two replies |
| `Vkbd.ConnectActions` | src/xenhid/vkbd.c:601-628 | Vkbd_Connect takes four different resources |
| `Vkbd.ConnectRollbacks` | src/xenhid/vkbd.c:601-642 | the trace of each failing step of Vkbd_Connect, written out |
| `Vkbd.ConnectReleases` | src/xenhid/vkbd.c:592-704 | every failure of Vkbd_Connect gives back all it took; a success holds page, grant, access and port; Vkbd_Disconnect is the reverse-order unwind and gives them all back |
| `Vkbd.IndexWraps` | src/xenhid/vkbd.c:487-491 | the 32-bit consumer index reaches in_prod after exactly (in_prod - in_cons) mod 2^32 steps |
| `Vkbd.Vkbd.Create` | src/xenhid/vkbd.c:540-565 | STATUS_NO_MEMORY exactly when no context is returned; a new context is disconnected, with no keys, no modifiers or buttons, a zero position, report ids 1 and 2 and nothing pending |
| `Vkbd.Vkbd.Destroy` | src/xenhid/vkbd.c:567-582 | the key and mouse records zeroed and the context freed |
| `Vkbd.Vkbd.Complete` | src/xenhid/vkbd.c:360-373 | computes `Delivered` for the keyboard or the mouse report, the other flag untouched |
| `Vkbd.Vkbd.UpdateKeyState` | src/xenhid/vkbd.c:375-409 | the reports, flags and cache become `KeyStep` of the old ones (see ButtonSpec, ModifierSpec, KeySpec, UnmappedIgnored) |
| `Vkbd.Vkbd.UpdateButtons` | src/xenhid/vkbd.c:385-390 | the MOUSE_BUTTON case computes `ButtonStep` |
| `Vkbd.Vkbd.UpdateModifiers` | src/xenhid/vkbd.c:392-397 | the KEYBOARD_MODIFIER case computes `ModifierStep` |
| `Vkbd.Vkbd.UpdateKeys` | src/xenhid/vkbd.c:399-404 | the KEYBOARD_KEY case computes `ArrayStep`, updating the key slots in place |
| `Vkbd.Vkbd.UpdateMouState` | src/xenhid/vkbd.c:423-448 | computes `PosStep` (see PosSpec) |
| `Vkbd.Vkbd.Event` | src/xenhid/vkbd.c:450-466 | computes `EventStep`: key and position events only |
| `Vkbd.Vkbd.Poll` | src/xenhid/vkbd.c:468-500 | every event from in_cons to in_prod handed to VkbdEvent once, in order, and in_cons set to in_prod |
| `Vkbd.Vkbd.Consume` | src/xenhid/vkbd.c:487-494 | the inner loop drains exactly `Unconsumed` of the page and ends at in_prod |
| `Vkbd.Vkbd.Connect` | src/xenhid/vkbd.c:592-643 | success: page, grant and port held and the trace is `ConnectActions`; failure: nothing held, the trace is the reverse-order rollback of the steps that succeeded |
| `Vkbd.Vkbd.ConnectGrant` | src/xenhid/vkbd.c:606-637 | the grant steps of Vkbd_Connect and their rollback |
| `Vkbd.Vkbd.ConnectAccess` | src/xenhid/vkbd.c:610-634 | the access and event-channel steps of Vkbd_Connect and their rollback |
| `Vkbd.Vkbd.WriteStore` | src/xenhid/vkbd.c:645-683 | the port, then the grant reference, written inside the open transaction; a failing write stops there, and a failure status is always one the store answered |
| `Vkbd.Vkbd.Disconnect` | src/xenhid/vkbd.c:685-704 | Shared NULL, GrantRef 0, Evtchn NULL, after the reverse-order teardown |
| `Vkbd.Vkbd.Check` | src/xenhid/vkbd.c:813-832 | computes `Checked` of the report |
| `Vkbd.Vkbd.ReadReport` | src/xenhid/vkbd.c:834-857 | computes `ReadReported` (see ReadReportSpec) |
| `Frontend.Frontend.constructor` | src/xenhid/frontend.c:98-119 | a new frontend is disconnected, with no backend path and no context |
| `Frontend.Frontend.Create` | src/xenhid/frontend.c:98-119 | STATUS_NO_MEMORY exactly when no frontend is returned |
| `Frontend.Frontend.Destroy` | src/xenhid/frontend.c:121-138 | Connected FALSE, no backend path, domain 0 |
| `Frontend.Frontend.SetState` | src/xenhid/frontend.c:140-153 | the frontend's state key written, outside any transaction |
| `Frontend.Frontend.WaitState` | src/xenhid/frontend.c:155-258 | success exactly when the observed state differs from `from`; a failure is the status of a failed call, STATUS_OBJECT_NAME_NOT_FOUND for a missing state key, or STATUS_UNSUCCESSFUL once the 120000 ms timeout has passed; a watch once set is always removed |
| `Frontend.Frontend.AwaitState` | src/xenhid/frontend.c:311-347 | the do-while loops of __FrontendClose end only with the state in the targets or an error, and every error is accounted for by a failed call, a missing state key or the timeout |
| `Frontend.Frontend.UpdatePaths` | src/xenhid/frontend.c:260-301 | both keys re-read and the old path replaced, the domain truncated to 16 bits; after a successful path read and copy the new path is that key's value and the result is that of the backend-id read (a pending answer counts as success), the domain unchanged when it fails; an allocation failure is STATUS_NO_MEMORY; every failure is accounted for by the store's answers |
| `Frontend.Frontend.UpdatePathsAsWritten` | src/xenhid/frontend.c:276-279 | when the path copy cannot be allocated, a success status is returned with no backend path |
| `Frontend.Frontend.Close` | src/xenhid/frontend.c:303-348 | Closing written, Closing or Closed awaited, Closed written, Closed awaited, in that order; on failure the trace stops after the failing step: nothing, the Closing write and its waits, or both writes and their waits, and a failed first read returns its status; every failure is accounted for by a failed call, a missing key or the timeout; keys other than the two "state" keys are unchanged |
| `Frontend.Frontend.CloseSteps` | src/xenhid/frontend.c:311-347 | the two write-and-wait steps of __FrontendClose once the paths are known: Closing then Closed, the trace stopping after the failing step, every failure accounted for, keys other than the "state" keys unchanged |
| `Frontend.Frontend.Announce` | src/xenhid/frontend.c:311-347 | one write of the frontend's state followed by a wait for one of the targets; a failed write returns its status with nothing traced; every failure is accounted for by a failed call, a missing state key or the timeout |
| `Frontend.Frontend.Publish` | src/xenhid/frontend.c:366-386 | the retry loop leaves no transaction open; it ends only on a failed TransactionStart or a commit that answers anything but STATUS_RETRY; on success the last round committed and the port and grant reference are in the store; on failure the store is unchanged |
| `Frontend.Frontend.Attempt` | src/xenhid/frontend.c:366-386 | a failed TransactionStart ends the loop with its status and traces nothing; a failed write aborts the transaction and goes round again; a commit goes round again exactly when it answers STATUS_RETRY; a failed round leaves the store unchanged |
| `Frontend.Frontend.Connect` | src/xenhid/frontend.c:350-418 | success only when the backend answers Connected, with the connection published; a failure after Vkbd_Connect calls Vkbd_Disconnect once, and an earlier one calls nothing |
| `Frontend.Frontend.Negotiate` | src/xenhid/frontend.c:366-412 | the publication and handshake after Vkbd_Connect, with the teardown on failure |
| `Frontend.Frontend.Handshake` | src/xenhid/frontend.c:390-412 | Connected written, and anything but Connected from the backend tears the connection down |
| `Frontend.Frontend.AwaitConnected` | src/xenhid/frontend.c:390-400 | a failed state write returns its status, a failed wait returns the wait's status, which a failed call, a missing key or the timeout accounts for; after a successful wait the backend's state has left Unknown, and it is STATUS_SUCCESS when that state is Connected and STATUS_INVALID_PARAMETER otherwise |
| `Frontend.Frontend.Enable` | src/xenhid/frontend.c:420-486 | Connected set only on success; the protocol is the value of the "protocol" key when its read succeeds and 0 otherwise, the read being the store's answer at that point of the script, and any protocol but 0 is STATUS_INVALID_PARAMETER; a failed close ends it with an accounted failure; a failed enable holds nothing and a successful one exactly the store interface, the context and the resources of Vkbd_Connect |
| `Frontend.Frontend.Prepare` | src/xenhid/frontend.c:429-460 | the store interface released again on every early failure; the protocol is read from the store as it was before the close, since the close changes only "state" keys, and the read is the store's answer to the next scripted status after the close; a failed close ends it with an accounted failure |
| `Frontend.Frontend.Start` | src/xenhid/frontend.c:462-486 | the part from VkbdInitialize on; failure leaves nothing held |
| `Frontend.Frontend.Run` | src/xenhid/frontend.c:466-486 | __FrontendConnect and the unwinding when it fails |
| `Frontend.Frontend.Abandon` | src/xenhid/frontend.c:473-485 | the context destroyed, Operations zeroed and the store interface released |
| `Frontend.Frontend.Launch` | src/xenhid/frontend.c:350-418 | __FrontendConnect as FrontendEnable sees it, in terms of held resources |
| `Frontend.Frontend.Disable` | src/xenhid/frontend.c:488-507 | the trace is Vkbd_Disconnect's teardown, the context freed, the close's store writes and watches, the store released, in that order; Connected FALSE, no context, nothing held |
| `Frontend.Frontend.GetDeviceAttributes` | src/xenhid/frontend.c:509-523 | STATUS_DEVICE_NOT_READY exactly when not connected, else the device model's reply |
| `Frontend.Frontend.GetDeviceDescriptor` | src/xenhid/frontend.c:525-539 | the same guard in front of Vkbd_GetDeviceDescriptor |
| `Frontend.Frontend.GetReportDescriptor` | src/xenhid/frontend.c:541-555 | the same guard in front of Vkbd_GetReportDescriptor |
| `Frontend.Frontend.GetFeature` | src/xenhid/frontend.c:557-571 | STATUS_DEVICE_NOT_READY when not connected, else STATUS_NOT_SUPPORTED; nothing copied |
| `Frontend.Frontend.SetFeature` | src/xenhid/frontend.c:573-586 | STATUS_DEVICE_NOT_READY when not connected, else STATUS_NOT_SUPPORTED |
| `Frontend.Frontend.WriteReport` | src/xenhid/frontend.c:588-601 | STATUS_DEVICE_NOT_READY when not connected, else STATUS_NOT_SUPPORTED |
| `Frontend.Frontend.ReadReport` | src/xenhid/frontend.c:603-614 | not connected: STATUS_DEVICE_NOT_READY and the cache untouched; connected: Vkbd_ReadReport |
| `Frontend.Frontend.CompleteRead` | src/xenhid/frontend.c:616-624 | straight through to FdoCompleteRead |
| `Frontend.ConnectedHeld` | src/xenhid/frontend.c:362-412 | Vkbd_Connect on top of the store interface and the context holds the enabled resources, and Vkbd_Disconnect gives back exactly what it added |
| `Frontend.EnabledHeld` | src/xenhid/frontend.c:420-486 | a successful enable holds exactly the enabled resources |
| `Frontend.ConnectFailureHeld` | src/xenhid/frontend.c:387-417 | each failure of __FrontendConnect leaves its caller holding what it held |
| `Frontend.DisabledHeld` | src/xenhid/frontend.c:488-507 | disable releases everything an enabled frontend holds |
| `Fdo.RestoreSpec` | src/xenhid/fdo.c:115-123 | back to the previous state only from the given state, else a no-op; idempotent |
| `Fdo.PnpAfter` | src/xenhid/fdo.c:728-790 | a deleted device stays deleted; IRP_MN_REMOVE_DEVICE always ends Deleted; every handler that sets a state records the old one |
| `Fdo.CancelUndoesQuery` | src/xenhid/fdo.c:585-676 | a cancel right after its query restores the state before the query |
| `Fdo.PausedSpec` | src/xenhid/fdo.c:265-280 | pausing keeps the cache well formed, empties it and is idempotent |
| `Fdo.PoweredSpec` | src/xenhid/fdo.c:792-841 | a power IRP delivered twice acts once; it never completes an IRP the cache does not hold; only device D0 with an action below PowerActionShutdown re-enables reads; other minor functions change nothing |
| `Fdo.ReadAsWrittenCompletesTwice` | src/xenhid/fdo.c:883-899 | with the cache enabled and empty, a read is cached and completed at once, and the next report completes it again |
| `Fdo.CompletedFresh` | src/xenhid/fdo.c:892-899 | completing an IRP the driver has not seen keeps the cache well formed |
| `Fdo.Fdo.constructor` | src/xenhid/fdo.c:1036-1040 | Added, PowerSystemShutdown, PowerDeviceD3, no callbacks |
| `Fdo.Fdo.Create` | src/xenhid/fdo.c:1026-1118 | Added, PowerSystemShutdown, PowerDeviceD3, an empty disabled cache and a disconnected frontend; STATUS_NO_MEMORY when the frontend cannot be created |
| `Fdo.Fdo.SetDevicePnpState` | src/xenhid/fdo.c:102-113 | computes `SetPnp` and changes nothing else |
| `Fdo.Fdo.RestoreDevicePnpState` | src/xenhid/fdo.c:115-123 | computes `RestorePnp` and changes nothing else |
| `Fdo.Fdo.CompleteIrp` | src/xenhid/fdo.c:894-899 | one completion appended, the FDO's invariant kept |
| `Fdo.Fdo.Forward` | src/xenhid/fdo.c:596-597 | the IRP passed down and the lower driver's status returned, nothing completed |
| `Fdo.Fdo.AttachFrontend` | src/xenhid/fdo.c:380-422 | debug interface, callback, then frontend enable; a failure undoes the earlier steps, latest first |
| `Fdo.Fdo.DetachFrontend` | src/xenhid/fdo.c:424-441 | frontend disabled, then the debug callback and interface given back |
| `Fdo.Fdo.PowerUp` | src/xenhid/fdo.c:457-510 | D0 only on success, after the suspend callback is registered; on failure everything before is undone, latest first |
| `Fdo.Fdo.PowerDown` | src/xenhid/fdo.c:512-542 | D3, then the suspend callback and interface given back, then __FdoD0ToD3 |
| `Fdo.Fdo.SuspendCallback` | src/xenhid/fdo.c:443-455 | __FdoD0ToD3 then __FdoD3ToD0; power states and the suspend callback untouched |
| `Fdo.Fdo.StartDevice` | src/xenhid/fdo.c:544-583 | success: D0, PowerSystemWorking, reads enabled, Started; a power-up failure rolls the system state back to PowerSystemShutdown, leaves the PnP state alone and completes the IRP with the error |
| `Fdo.Fdo.QueryStopDevice` | src/xenhid/fdo.c:585-600 | StopPending recorded; the IRP forwarded |
| `Fdo.Fdo.CancelStopDevice` | src/xenhid/fdo.c:602-618 | restored from StopPending; the IRP forwarded |
| `Fdo.Fdo.StopDevice` | src/xenhid/fdo.c:620-641 | D3, PowerSystemShutdown, reads paused, Stopped |
| `Fdo.Fdo.QueryRemoveDevice` | src/xenhid/fdo.c:643-658 | RemovePending recorded; the IRP forwarded |
| `Fdo.Fdo.CancelRemoveDevice` | src/xenhid/fdo.c:660-676 | restored from RemovePending; the IRP forwarded |
| `Fdo.Fdo.SurpriseRemoval` | src/xenhid/fdo.c:678-694 | SurpriseRemovePending recorded; power and reads untouched |
| `Fdo.Fdo.RemoveDevice` | src/xenhid/fdo.c:696-726 | pause and power-down only in D0; Deleted in every case; the frontend destroyed |
| `Fdo.Fdo.Quiesce` | src/xenhid/fdo.c:706-716 | the D0 part of removal: reads paused, powered down, PowerSystemShutdown |
| `Fdo.Fdo.Destroy` | src/xenhid/fdo.c:1120-1146 | FrontendDestroy of a deleted FDO in D3 |
| `Fdo.Fdo.DispatchPnp` | src/xenhid/fdo.c:728-790 | the PnP state after the IRP is `PnpAfter` of the old one; the IRP always goes down the stack |
| `Fdo.Fdo.DispatchPower` | src/xenhid/fdo.c:792-841 | reads resumed or paused as `Powered` says; the IRP always forwarded |
| `Fdo.Fdo.DispatchControl` | src/xenhid/fdo.c:843-902 | a non-read IOCTL is completed at once with the frontend's answer; a read the cache takes stays pending and FrontendReadReport runs; a refused read is completed with the refusal |
| `Fdo.Fdo.AnswerSpec` | src/xenhid/fdo.c:864-891 | a non-read IOCTL is never STATUS_PENDING; unknown codes STATUS_NOT_SUPPORTED; STATUS_DEVICE_NOT_READY exactly when disconnected |
| `Fdo.Fdo.Read` | src/xenhid/fdo.c:883-886 | the corrected read case |
| `Fdo.Fdo.ReadReportAsWritten` | src/xenhid/fdo.c:883-899 | the read case as written: completed at once with the cache's status and Information 0 |

## Left out

- Concurrency.
  - The interrupt and DPC split is left out: `VkbdInterrupt` only counts, and `VkbdDpc` calls `VkbdPoll`.
  - So are the spin lock of the cache, `KeFlushQueuedDpcs` and the memory barriers.
  - Every cache operation and every `VkbdPoll` is atomic.
- IRP and kernel plumbing.
  - Left out: `FdoQueryInterface`, the major-function switch `FdoDispatch`, `FdoDispatchDefault`, IRP stack locations, `IoMarkIrpPending`, `PoSetPowerState` and IRQL.
  - The synchronous forward of a start IRP is one call that returns the lower driver's status.
- The IoStatus.Information of a start IRP.
  - The lower driver's value is not modelled.
  - The IRP is completed with Information 0.
- Time.
  - `KeQuerySystemTime`, the 1000 inner polls and `STORE(Poll)` are replaced by scripted observations that carry their elapsed milliseconds.
  - An idle second is 1000 ms.
- Foreign interfaces.
  - The STORE, GNTTAB, EVTCHN, DEBUG and SUSPEND calls and pool allocation are scripted outcomes rather than code.
  - Grant references and ports are handed out in increasing order.
- Store values.
  - `strtoul` and `"%u"` are not modelled: values are numbers or strings.
  - A path read from a numeric value is the empty string.
- The debug callbacks (`FdoDebugCallback`, `Vkbd_DebugCallback`) only print, and Trace/Error logging is not modelled.
- Byte layout.
  - `RtlCopyMemory` and `__Pfn` are not modelled.
  - Reports and descriptors are records.
  - The report descriptor is known only by its 113-byte length.
- The Operations table (`operations.h`) is reduced to whether it has been filled; vkbd is the only protocol.
- The per-IOCTL input and output buffers are modelled only by their length.
- `driver.c` is not part of this model (registration with the HID class driver). Neither are `reportdescr.h`, beyond the report ids and coordinate ranges, nor the declarations of `frontend.h` and `operations.h`.
- Fdo.Fdo.SuspendCallback: the source only asserts that the power-up after a resume succeeds. When it fails, the model leaves the FDO in D0 with the frontend disconnected, and promises only the frontend's consistency (`Wired`), not the FDO's full invariant.
- Fdo.Fdo.PowerUp: the resources held after FdoD3ToD0 are stated piece by piece along the trace (debug interface and callback, the frontend's enable, suspend interface and callback), not as one union.
- Vkbd.Vkbd.Destroy: `Vkbd_Destroy` asserts that the whole context is zero before freeing it. The model does not require this, and leaves the pending flags and the connection fields as they were.
- Frontend.Frontend.UpdatePathsAsWritten: only the discrepancy is stated. The rest of its behaviour is that of `UpdatePaths`.
- When `__FrontendUpdatePaths` fails after the path copy, the unreleased store buffer is not modelled.
- `io/kbdif.h` is not part of this model. `RingLength` is its XENKBD_IN_RING_LEN: the in-ring is the 2048-byte area at offset 1024 of the shared page, so it holds 51 events of 40 bytes.
- Unbounded loops of the driver: the transaction loop of `__FrontendConnect` (frontend.c:366-385) goes round for ever while Vkbd_WriteStore keeps failing or the commit keeps answering STATUS_RETRY, and the do-while loops of `__FrontendClose` (frontend.c:319-333) wait for ever while the backend keeps moving between other states. The model's loops end only because the outcome and observation scripts are finite.
- ReadCache.IrpCache.PauseData: `FdoPauseData` sets only IoStatus.Status of the IRPs it cancels and leaves IoStatus.Information as it was; the model completes them with Information 0.
- Frontend.Frontend.Close: on a failed wait the trace ends after that wait's own watch and unwatch, so the failure trace is a prefix of the success trace's shape, not of a particular success trace.

## Findings

| source | as written | input that shows it | evidently intended | confidence | as-written member | corrected member |
|---|---|---|---|---|---|---|
| src/xenhid/frontend.c:276-279 | when the copy of the backend path cannot be allocated, `goto fail2` returns the status of the preceding successful STORE(Read), so the caller sees success with BackendPath NULL | the first STORE(Read) succeeds with the `backend` key present, and the allocation of the copy fails | return STATUS_NO_MEMORY | not executed | `Frontend.Frontend.UpdatePathsAsWritten` | `Frontend.Frontend.UpdatePaths` |
| src/xenhid/fdo.c:883-899 | `__FdoCache` never returns STATUS_PENDING, so `FrontendReadReport` is unreachable. A read IRP the cache keeps is also completed at once with STATUS_SUCCESS and Information 0, and is completed a second time when the next report is taken from the cache | IOCTL_HID_READ_REPORT with reads enabled and the cache empty, followed by any report | a cached read IRP stays pending until a report completes it, and FrontendReadReport is asked for a pending report | not executed | `Fdo.ReadAsWrittenCompletesTwice` | `Fdo.Fdo.DispatchControl` |
