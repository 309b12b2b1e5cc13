# XenServer VM reconciliation, in Dafny

A model of the VM update and reconciliation layer of the XenServer
Terraform provider (`xenserver/vm_utils.go`, `xenserver/vbd_utils.go`,
`xenserver/vif_utils.go`), with proofs of what that layer promises.

The provider talks to a XenServer pool through a xenapi session. Here the
session is an in-memory hypervisor that holds one VM: the class
`XenApi.Hypervisor`. Its fields are the VM's name, template flag, power
state, `VCPUs_max`, `VCPUs_at_startup`, memory limits, the `platform`,
`HVM_boot_params` and `other_config` maps, the VBD and VIF records keyed by
reference, the VDI and network uuid tables, the lists of allowed VBD and VIF
devices, and a log of every successful write. Each xenapi call is a method of
that class. Each method is proved equal to a step function on the snapshot
datatype `XenApi.Vm`, such as `Vm.SetVcpusMax` or `Vm.VbdCreate`. Each
provider function is a module-level method that takes the hypervisor. Its
`ensures` ties the outcome and the new state to a pure function of the old
state: `CreateVbdStep`, `UpdateVbdsRun`, `UpdateCpusStep`, `SetVmRun` and so
on. The lemmas beside those functions state what the source promises.

The hypervisor enforces the rules the provider's code depends on:
`0 < VCPUs_at_startup <= VCPUs_max`, memory limits in the order
static_min <= dynamic_min <= dynamic_max <= static_max, a device slot taken
from the allowed list, hot-plug only on a running VM, and lookups of unknown
uuids or references failing. These are the hypervisor's failure modes the
model keeps. References are handed out as `OpaqueRef:<n>`, with `n` the
length of the log. A reference is never reused.

Terraform values are `Base.Tf<T>`: `Known(v)` or `Unknown`. Taking the value
of an unknown gives Go's zero value: `""`, `false` or `0`. The
`hard_drive` and `network_interface` sets are sequences. Go's map iteration
order is unspecified, so every loop over a Go map takes its visiting order
as a ghost out-parameter. That order is any ordering of the map's keys, and
the lemmas hold for every such ordering.

Modules, leaf first:

- `Base`: Terraform values, Go integer widths, errors, orderings of map keys.
- `GoStrings`: `strings.Contains`, `strings.Split`, `strconv.Itoa`/`Atoi`,
  and the `int32`/`int64` conversions.
- `Models`: the resource data (`VmModel`, `VbdModel`, `VifModel`) and the
  natural keys. `Keyed`: indexing by natural key, and the overlay loop
  `m[k] = v`.
- `XenApi`: the hypervisor.
- `OtherConfig`: `setOtherConfigFromPlan` and `getOtherConfigFromVMRecord`.
- `Boot`: `setPlatform`, `setHVMBootParams`, boot mode and boot order.
- `CpuMemory`: `updateVMMemory`, `updateVMCPUs`, `getCorePerSocket`.
- `Vbds`, `Vifs`: `createVBD(s)`, `updateVBDs`, `createVIF(s)`, `updateVIFs`.
- `VmResource`: `vmResourceModelUpdate`, `setVMResourceModel`,
  `cleanupVMResource`, `getFirstTemplate`, and the read-back of
  `updateVMResourceModel`.

Behaviours of the code a reader may not expect, all modelled as written:

- A topology error (VCPUs not a multiple of cores-per-socket) is returned
  after both VCPU writes, not before any write.
- Two elements with the same natural key are not an error. The later
  element replaces the earlier one.
- A changed MAC or MTU on an existing interface stops `updateVIFs` mid-loop.
  Creates and updates already made for other keys stay.
- Ownership of an `other_config` key is a substring test
  (`strings.Contains(list, key + ",")`), not set membership. So every suffix
  of an owned key also passes (`OtherConfig.OwnershipTest`,
  `OtherConfig.SuffixKeyAdopted`).
- With both `bootable` and `mode` unknown, `updateVBDs` sends `SetMode` with
  the empty string (`Vbds.UnknownModeSendsEmpty`).
- `createVIF` checks a planned MTU but always creates the interface with MTU
  1500. It sets `MAC_autogenerated` when the plan supplies a MAC, not when it
  does not (`Vifs.CreatedVif`).

## Model

| member | source | states |
|---|---|---|
| `Keyed.IndexLastWins` | xenserver/vbd_utils.go:143-151 | indexing elements by natural key keeps, for each key, the last element with that key |
| `Keyed.OverlayAnyOrder` | xenserver/vm_utils.go:816-818 | the loop `m[k] = v` over a Go map gives `m + src` whatever order it visits the keys in |
| `Keyed.UnmatchedOrdering` | xenserver/vbd_utils.go:180-189 | walking the keys of one map and keeping those another lacks visits each such key exactly once |
| `GoStrings.AtoiItoa` | xenserver/vm_utils.go:743-755 | `strconv.Atoi` inverts `strconv.Itoa` on every int64 |
| `GoStrings.ToInt32` | xenserver/vm_utils.go:522 | Go's `int32(x)` is the identity on int32 values and agrees with x modulo 2^32 |
| `GoStrings.ToInt64` | xenserver/vm_utils.go:580 | Go's `int64(x)` is the identity on int64 values and agrees with x modulo 2^64 |
| `GoStrings.TerminatedContains` | xenserver/vm_utils.go:468-479 | every key appended as `key + ","` is found by `strings.Contains(list, key + ",")` |
| `GoStrings.SplitTerminated` | xenserver/vm_utils.go:475-477 | splitting a comma-terminated list of comma-free keys on "," gives the keys back, then one empty piece |
| `OtherConfig.OwnershipTest` | xenserver/vm_utils.go:477-479 | for comma-free keys, a key passes the ownership test exactly when it is a suffix of a listed key |
| `OtherConfig.DeleteUnlistedContents` | xenserver/vm_utils.go:475-482 | the deletion loop removes exactly the listed keys that fail the ownership test and keeps every other value |
| `OtherConfig.MergeContents` | xenserver/vm_utils.go:468-485 | after the merge the sentinel holds `k + ","` for every plan key, `tf_template_name` holds the plan's template name, every plan key has its plan value, an unlisted key is never deleted, a listed key survives iff it passes the ownership test |
| `OtherConfig.SetOtherConfigFromPlan` | xenserver/vm_utils.go:453-491 | the method writes other_config once, equal to the merge of the VM's map and the plan's map in the visiting order, and changes nothing else |
| `OtherConfig.ReadOtherConfig` | xenserver/vm_utils.go:623-631 | the read-back is a sub-map of other_config with unchanged values, holding exactly the keys that pass the ownership test |
| `OtherConfig.TemplateNameReadBack` | xenserver/vm_utils.go:485 | after the merge `tf_template_name` reads back as the plan's template name |
| `OtherConfig.OtherConfigReadBack` | xenserver/vm_utils.go:623-631 | after the merge the read-back holds every plan entry with its plan value, and for comma-free keys nothing but suffixes of plan keys |
| `OtherConfig.MergeMatchesEntries` | xenserver/vm_utils.go:468-485 | for comma-free keys the merge equals an order-free definition of its entries plus the sentinel list |
| `OtherConfig.MergeOrderIndependent` | xenserver/vm_utils.go:468-473 | for comma-free keys the merge apart from the sentinel does not depend on Go's map iteration order |
| `OtherConfig.SuffixKeyAdopted` | xenserver/vm_utils.go:477-479 | a plan key "ab" makes a previously owned "b" survive and read back as Terraform's |
| `OtherConfig.EmptyPlanDeletesOwned` | xenserver/vm_utils.go:475-482 | an empty plan deletes every key the old sentinel listed |
| `OtherConfig.ExternalKeyKept` | xenserver/vm_utils.go:475-485 | {"a":"1","external":"z"} with "a" owned and an empty plan becomes {"external":"z"} with an empty sentinel |
| `Boot.SetPlatformEffect` | xenserver/vm_utils.go:809-826 | setPlatform writes the given keys with their values, keeps every other platform entry, and changes nothing else |
| `Boot.SetPlatform` | xenserver/vm_utils.go:809-826 | the read-modify-write loop leaves the VM as `SetPlatformStep` says |
| `Boot.SetHvmBootParamsEffect` | xenserver/vm_utils.go:828-845 | setHVMBootParams writes the given keys with their values, keeps every other entry, and changes nothing else |
| `Boot.SetHvmBootParams` | xenserver/vm_utils.go:828-845 | the read-modify-write loop leaves the VM as `SetHvmBootParamsStep` says |
| `Boot.DecodeBootMode` | xenserver/vm_utils.go:495-510 | decoding fails exactly when `firmware` or `secureboot` is missing, with the firmware error checked first |
| `Boot.BootModeRoundTrip` | xenserver/vm_utils.go:781-807 | a non-empty mode written by updateBootMode reads back as the same mode; an empty mode writes nothing |
| `Boot.UpdateBootModeEffect` | xenserver/vm_utils.go:781-807 | updateBootMode writes `platform["secureboot"]` then `HVM_boot_params["firmware"]` and nothing else |
| `Boot.UpdateBootMode` | xenserver/vm_utils.go:781-807 | the method leaves the VM as `UpdateBootModeStep` says |
| `Boot.ReadBootOrder` | xenserver/vm_utils.go:561-565 | reading the boot order fails exactly when `order` is missing |
| `Boot.BootOrderRoundTrip` | xenserver/vm_utils.go:765-779 | an empty boot order writes nothing; any other is written to `order` alone and reads back unchanged |
| `Boot.UpdateBootOrder` | xenserver/vm_utils.go:765-779 | the method leaves the VM as `UpdateBootOrderStep` says |
| `CpuMemory.UpdateMemoryEffect` | xenserver/vm_utils.go:681-701 | each unknown of static_min, dynamic_min and dynamic_max stands at static_max; the write succeeds iff the limits are ordered, and a failure changes nothing |
| `CpuMemory.OnlyStaticMaxAccepted` | xenserver/vm_utils.go:681-695 | with only static_max planned, the memory update always succeeds |
| `CpuMemory.UpdateVmMemory` | xenserver/vm_utils.go:681-701 | the method leaves the VM as `UpdateMemoryStep` says |
| `CpuMemory.PlatformCores` | xenserver/vm_utils.go:512-520 | reading cores-per-socket fails with MissingCoresPerSocket exactly when the entry is missing and with BadCoresPerSocket exactly when Atoi rejects it; otherwise it yields the int64 Atoi parsed from the entry |
| `CpuMemory.GetCorePerSocket` | xenserver/vm_utils.go:512-523 | getCorePerSocket fails exactly when the parse does, and otherwise returns the parsed value truncated to int32 |
| `CpuMemory.CoresRoundTrip` | xenserver/vm_utils.go:743 | a cores-per-socket written with Itoa reads back unchanged |
| `CpuMemory.SetVcpusAccepted` | xenserver/vm_utils.go:715-736 | from an ordered VM the two VCPU writes succeed iff the count is positive and then leave both values at it |
| `CpuMemory.VcpusWriteOrder` | xenserver/vm_utils.go:716-736 | both setters are called, at_startup first iff the count is below the old max, and `0 < at_startup <= max` holds after each write |
| `CpuMemory.OtherOrderRefused` | xenserver/vm_utils.go:716-736 | the opposite write order is refused by the hypervisor when lowering below at_startup or raising above max |
| `CpuMemory.UpdateCpusFrame` | xenserver/vm_utils.go:703-763 | updateVMCPUs changes only the two VCPU values, the platform map and the log |
| `CpuMemory.UpdateCpusEffect` | xenserver/vm_utils.go:738-760 | the update succeeds iff the count divides by the cores per socket, planned or read; a topology error comes after both VCPU writes; on success a planned count becomes the platform's cores-per-socket entry as its decimal string, every other platform entry kept, and reads back |
| `CpuMemory.UpdateVmCpus` | xenserver/vm_utils.go:703-763 | the method leaves the VM as `UpdateCpusStep` says |
| `Vbds.CreateVbdEffect` | xenserver/vbd_utils.go:52-111 | createVBD succeeds iff the VDI exists and a slot is free; a failure changes nothing; a success adds one VBD in the first allowed slot, plugged iff the VM is running |
| `Vbds.CreatedVbdReadBack` | xenserver/vbd_utils.go:67-87 | the new disk has the planned mode and bootable flag, "RW" and false where unknown, is not empty, and joins the VM's disks |
| `Vbds.CreateVbd` | xenserver/vbd_utils.go:52-111 | the method leaves the VM as `CreateVbdStep` says |
| `Vbds.CreateVbds` | xenserver/vbd_utils.go:113-126 | the loop leaves the VM as `CreateVbdsRun` says |
| `Vbds.StopsAtFirstError` | xenserver/vbd_utils.go:119-124 | once an element fails, later elements are not attempted |
| `Vbds.CreateVbdsInOrder` | xenserver/vbd_utils.go:113-126 | createVBDs destroys nothing and, when it succeeds, creates one VBD per element in element order |
| `Vbds.CreateVbdsFailsAt` | xenserver/vbd_utils.go:119-124 | a failing createVBDs has created every element before the failing one, and nothing after it |
| `Vbds.UpdateVbdEffect` | xenserver/vbd_utils.go:162-177 | updating a disk in plan and state makes exactly the SetMode and SetBootable calls the rules select, on the state's VBD, and touches nothing else |
| `Vbds.SetModeRule` | xenserver/vbd_utils.go:164-169 | SetMode is sent, with the plan's mode string, iff bootable is unknown and the mode is not "RW", or bootable is known and the mode differs |
| `Vbds.SetBootableRule` | xenserver/vbd_utils.go:171-176 | SetBootable is sent iff bootable is unknown and the state's is true (writing false), or bootable is known and differs (writing the plan's) |
| `Vbds.UnknownModeSendsEmpty` | xenserver/vbd_utils.go:164-165 | with bootable and mode both unknown, SetMode is sent with "" |
| `Vbds.IndexByVdi` | xenserver/vbd_utils.go:143-151 | the indexing loop builds the index by VDI uuid |
| `Vbds.PlanVbds` | xenserver/vbd_utils.go:154-178 | the create/update loop leaves the VM as `PlanPhase` says for its visiting order |
| `Vbds.DestroyVbds` | xenserver/vbd_utils.go:180-189 | the destroy loop leaves the VM as `DestroyPhase` says for its visiting order |
| `Vbds.UpdateVbds` | xenserver/vbd_utils.go:128-192 | updateVBDs leaves the VM as `UpdateVbdsRun` says for the orders it visited the two maps in |
| `Vbds.PlanPhaseEffect` | xenserver/vbd_utils.go:154-178 | the first loop destroys nothing and, when it succeeds, creates one VBD per plan-only key in visiting order |
| `Vbds.DestroyPhaseEffect` | xenserver/vbd_utils.go:180-189 | the second loop only destroys, and when it succeeds destroys the state VBD of every state-only key, each once |
| `Vbds.UpdateVbdsEffect` | xenserver/vbd_utils.go:128-192 | every create and update comes before the first destroy; on success each plan-only VDI is created once and each state-only VBD destroyed once, whatever the iteration order |
| `Vbds.UpdateVbdsIdempotent` | xenserver/vbd_utils.go:154-189 | equal plan and state with known bootable flags make no call at all |
| `Vifs.CreateVifEffect` | xenserver/vif_utils.go:60-129 | createVIF succeeds iff the network exists, a slot is free and a known MTU passes the check; a failure changes nothing; a success adds one VIF, plugged iff the VM is running |
| `Vifs.CreatedVif` | xenserver/vif_utils.go:83-107 | the new VIF is in the first allowed slot on the planned network, with MTU 1500 whatever MTU was planned, the plan's other_config, locking mode network_default, and `MAC_autogenerated` set exactly when a non-empty MAC is planned, in which case the MAC is the plan's |
| `Vifs.CreateVif` | xenserver/vif_utils.go:60-129 | the method leaves the VM as `CreateVifStep` says |
| `Vifs.CreateVifs` | xenserver/vif_utils.go:131-145 | the loop leaves the VM as `CreateVifsRun` says |
| `Vifs.StopsAtFirstError` | xenserver/vif_utils.go:138-143 | once an element fails, later elements are not attempted |
| `Vifs.CreateVifsInOrder` | xenserver/vif_utils.go:131-145 | createVIFs destroys nothing and, when it succeeds, creates one VIF per element in element order |
| `Vifs.CreateVifsFailsAt` | xenserver/vif_utils.go:138-143 | a failing createVIFs has created every element before the failing one, and nothing after it |
| `Vifs.UpdateVifEffect` | xenserver/vif_utils.go:184-206 | a changed MTU fails first, then a changed MAC, neither changing anything; otherwise SetOtherConfig is sent on the state's VIF iff other_config differs |
| `Vifs.IndexByNetwork` | xenserver/vif_utils.go:164-172 | the indexing loop builds the index by network uuid |
| `Vifs.PlanVifs` | xenserver/vif_utils.go:175-208 | the create/update loop leaves the VM as `PlanPhase` says for its visiting order |
| `Vifs.DestroyVifs` | xenserver/vif_utils.go:210-219 | the destroy loop leaves the VM as `DestroyPhase` says for its visiting order |
| `Vifs.UpdateVifs` | xenserver/vif_utils.go:149-222 | updateVIFs leaves the VM as `UpdateVifsRun` says for the orders it visited the two maps in |
| `Vifs.PlanPhaseEffect` | xenserver/vif_utils.go:175-208 | the first loop destroys nothing and, when it succeeds, creates one VIF per plan-only key in visiting order |
| `Vifs.DestroyPhaseEffect` | xenserver/vif_utils.go:210-219 | the second loop only destroys, and when it succeeds destroys the state VIF of every state-only key, each once |
| `Vifs.UpdateVifsEffect` | xenserver/vif_utils.go:149-222 | every create and update comes before the first destroy; on success each plan-only network gets one VIF and each state-only VIF is destroyed once |
| `Vifs.UpdateVifsIdempotent` | xenserver/vif_utils.go:175-219 | equal plan and state make no call at all |
| `VmResource.UpdateVm` | xenserver/vm_utils.go:847-900 | vmResourceModelUpdate leaves the VM as `UpdateVmRun` says: name, description, other_config, disks, CD-ROM, interfaces, memory, VCPUs, boot mode, boot order, stopping at the first error |
| `VmResource.UpdateDeviceOrder` | xenserver/vm_utils.go:863-877 | a successful device phase makes every disk call, then the CD-ROM update, then every interface call |
| `VmResource.HeadReadBack` | xenserver/vm_utils.go:848-861 | the head of the update leaves the planned name label and template name, and VCPUs and memory untouched |
| `VmResource.TailReadBack` | xenserver/vm_utils.go:879-897 | a successful tail leaves the planned static_max and VCPU count, and name and other_config untouched |
| `VmResource.UpdateReadBack` | xenserver/vm_utils.go:577-582 | after a successful update, name label, template name, static_max and VCPUs read back as planned |
| `VmResource.SetVm` | xenserver/vm_utils.go:902-969 | setVMResourceModel leaves the VM as `SetVmRun` says, stopping at the first error |
| `VmResource.CreateDeviceOrder` | xenserver/vm_utils.go:945-966 | disks are created in element order, then the CD-ROM is set, then interfaces are created in element order, and the template flag is cleared last |
| `VmResource.SetVmReadBack` | xenserver/vm_utils.go:902-969 | after a successful create the VM is not a template, and name, template name, static_max, VCPUs and every plan other_config entry read back as planned |
| `VmResource.DestroyVifsEffect` | xenserver/vm_utils.go:978-983 | destroying distinct existing VIFs in turn succeeds and removes exactly them |
| `VmResource.DestroyVbdsEffect` | xenserver/vm_utils.go:985-990 | destroying distinct existing VBDs in turn succeeds and removes exactly them |
| `VmResource.CleanupEffect` | xenserver/vm_utils.go:971-998 | cleanup destroys every VIF, then every VBD, then the VM, leaving no VIF and no VBD |
| `VmResource.Cleanup` | xenserver/vm_utils.go:971-998 | the method leaves the VM as `CleanupRun` says for the orders the record lists references in |
| `VmResource.GetFirstTemplate` | xenserver/vm_utils.go:437-451 | the result is a template whose name label contains the name, and the error comes exactly when no record matches |

## Left out

- Schema declarations (`VMSchema`, `VIFSchema`, `VBDSchema`) and their validators: framework declarations.
- `updateVMRecordData`: it only copies record fields into framework types, including a float and a time.
- `getVBDsFromVMRecord` and `getVIFsFromVMRecord` beyond the Disk type filter (`Vbds.DiskVbds`): remote record lookups and framework set conversion.
- The rest of `updateVMResourceModelComputed`: the ISO name and the disk and interface sets come from remote lookups. Its boot mode, boot order, cores-per-socket and other_config reads are modelled as `DecodeBootMode`, `ReadBootOrder`, `GetCorePerSocket` and `ReadOtherConfig`.
- Remote failures other than the hypervisor rules listed above: session errors, lost connections, errors from `GetAllRecords` or `GetRecord`, and framework diagnostics from `ElementsAs`. None of these is modelled.
- `tflog` logging.
- `checkMTU` is not part of this model. It is the parameter `acceptedMtus`, the set of MTUs it lets through.
- `updateCDROM` is not part of this model. It is one opaque, always-successful step that records `CdromUpdated` in the log, so its position in a sequence can be stated.
- `getFirstTemplate` reads every VM record of the pool, not just the one VM the hypervisor holds. Those records are a parameter (`VmSummary`: name label and template flag).
- The panic on an assignment into a nil map is not modelled: the platform map from `GetPlatform` in `setPlatform` (xenserver/vm_utils.go:815-817), the `HVM_boot_params` map from `GetHVMBootParams` in `setHVMBootParams` (xenserver/vm_utils.go:834-837), and the `other_config` map from `GetOtherConfig` in `setOtherConfigFromPlan` (xenserver/vm_utils.go:471). Only `updateVMCPUs` replaces a nil map (xenserver/vm_utils.go:712-714). Every map is a value here, so an absent map behaves as an empty one.
- The panic on `vcpus % 0` is excluded by the precondition `CpuMemory.CoresNonZero`.
- `setVMResourceModel` calls `createVBDs` and `createVIFs` with argument lists that differ from their definitions. The model calls them as defined, on the plan's hard drives and network interfaces.
- The lost-update race between reading a shared map and writing it back: the model is single-threaded.
- VBD and VIF `Plug` failures other than "VM not running", and the hot-plug effects on the guest: a plug only marks the device attached.
