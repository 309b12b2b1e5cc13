/** The VM resource as a whole (xenserver/vm_utils.go): the create-time
    sequence setVMResourceModel, the update sequence vmResourceModelUpdate,
    cleanupVMResource, getFirstTemplate, and the attributes
    updateVMResourceModel reads back. */
module VmResource {
  import opened Base
  import opened GoStrings
  import opened XenApi
  import opened Models
  import opened Keyed
  import opened OtherConfig
  import opened Boot
  import opened CpuMemory
  import Vbds
  import Vifs

  // ---------------------------------------------------------------------
  // Frames of the device phases

  lemma VbdsKeepSettings(s: Vm, plan: VmModel, state: VmModel, planOrder: seq<string>, stateOrder: seq<string>)
    requires IsOrdering(planOrder, Index(plan.hardDrive, VdiKey).Keys)
    requires IsOrdering(stateOrder, Index(state.hardDrive, VdiKey).Keys)
    ensures SameSettings(s, Vbds.UpdateVbdsRun(s, plan.hardDrive, state.hardDrive, planOrder, stateOrder).1)
  {
    var d1, d2 := Vbds.UpdateVbdsEffect(s, plan.hardDrive, state.hardDrive, planOrder, stateOrder);
  }

  lemma VifsKeepSettings(s: Vm, plan: VmModel, state: VmModel, planOrder: seq<string>, stateOrder: seq<string>,
                         acceptedMtus: set<int>)
    requires IsOrdering(planOrder, Index(plan.networkInterface, NetworkKey).Keys)
    requires IsOrdering(stateOrder, Index(state.networkInterface, NetworkKey).Keys)
    ensures SameSettings(s, Vifs.UpdateVifsRun(s, plan.networkInterface, state.networkInterface, planOrder, stateOrder, acceptedMtus).1)
  {
    var d1, d2 := Vifs.UpdateVifsEffect(s, plan.networkInterface, state.networkInterface, planOrder, stateOrder, acceptedMtus);
  }

  // ---------------------------------------------------------------------
  // vmResourceModelUpdate

  /** The iteration orders of the Go maps one update walks: the plan's
      other_config, and the plan and state disk and network maps. */
  datatype Orders = Orders(otherConfig: seq<string>, vbdPlan: seq<string>, vbdState: seq<string>,
                           vifPlan: seq<string>, vifState: seq<string>)

  ghost predicate OrdersFit(o: Orders, plan: VmModel, state: VmModel) {
    && IsOrdering(o.otherConfig, StrMap(plan.otherConfig).Keys)
    && IsOrdering(o.vbdPlan, Index(plan.hardDrive, VdiKey).Keys)
    && IsOrdering(o.vbdState, Index(state.hardDrive, VdiKey).Keys)
    && IsOrdering(o.vifPlan, Index(plan.networkInterface, NetworkKey).Keys)
    && IsOrdering(o.vifState, Index(state.networkInterface, NetworkKey).Keys)
  }

  /** The name label and description, then other_config. */
  function UpdateHead(s: Vm, plan: VmModel, o: seq<string>): (r: Vm)
    requires IsOrdering(o, StrMap(plan.otherConfig).Keys)
    ensures r.platform == s.platform
  {
    SetOtherConfigStep(s.SetNameLabel(Str(plan.nameLabel)).SetNameDescription(Str(plan.nameDescription)), plan, o)
  }

  /** Disks, the CD-ROM after them, then network interfaces. */
  function UpdateDevices(s: Vm, plan: VmModel, state: VmModel, o: Orders, acceptedMtus: set<int>): (r: (Outcome, Vm))
    requires OrdersFit(o, plan, state)
    ensures SameSettings(s, r.1)
  {
    VbdsKeepSettings(s, plan, state, o.vbdPlan, o.vbdState);
    var r1 := Vbds.UpdateVbdsRun(s, plan.hardDrive, state.hardDrive, o.vbdPlan, o.vbdState);
    if r1.0.Fail? then r1
    else
      var s2 := r1.1.UpdateCdrom(Str(plan.cdrom));
      VifsKeepSettings(s2, plan, state, o.vifPlan, o.vifState, acceptedMtus);
      Vifs.UpdateVifsRun(s2, plan.networkInterface, state.networkInterface, o.vifPlan, o.vifState, acceptedMtus)
  }

  /** Memory, VCPUs, boot mode and boot order. */
  function UpdateTail(s: Vm, plan: VmModel): (r: (Outcome, Vm))
    requires CoresNonZero(s.platform, plan)
  {
    var r1 := UpdateMemoryStep(s, plan);
    if r1.0.Fail? then r1
    else
      var r2 := UpdateCpusStep(r1.1, plan);
      if r2.0.Fail? then r2
      else (Pass, UpdateBootOrderStep(UpdateBootModeStep(r2.1, Str(plan.bootMode)), Str(plan.bootOrder)))
  }

  /** vmResourceModelUpdate on a snapshot: the steps in the source's order,
      the first failure ending the update. */
  function UpdateVmRun(s: Vm, plan: VmModel, state: VmModel, o: Orders, acceptedMtus: set<int>): (r: (Outcome, Vm))
    requires OrdersFit(o, plan, state) && CoresNonZero(s.platform, plan)
  {
    var s1 := UpdateHead(s, plan, o.otherConfig);
    var r2 := UpdateDevices(s1, plan, state, o, acceptedMtus);
    if r2.0.Fail? then r2 else UpdateTail(r2.1, plan)
  }

  method UpdateVm(h: Hypervisor, plan: VmModel, state: VmModel, acceptedMtus: set<int>)
    returns (err: Outcome, ghost o: Orders)
    requires h.Valid() && CoresNonZero(h.platform, plan)
    modifies h
    ensures OrdersFit(o, plan, state)
    ensures h.Valid() && (err, h.State()) == UpdateVmRun(old(h.State()), plan, state, o, acceptedMtus)
  {
    h.SetNameLabel(Str(plan.nameLabel));
    h.SetNameDescription(Str(plan.nameDescription));
    ghost var oc := SetOtherConfigFromPlan(h, plan);
    ghost var s1 := h.State();
    ghost var vbdPlan, vbdState, vifPlan, vifState;
    err, vbdPlan, vbdState := Vbds.UpdateVbds(h, plan, state);
    o := Orders(oc, vbdPlan, vbdState, [], []);
    if err.Fail? {
      o := Orders(oc, vbdPlan, vbdState, SomeOrder(Index(plan.networkInterface, NetworkKey).Keys),
                  SomeOrder(Index(state.networkInterface, NetworkKey).Keys));
      return;
    }
    h.UpdateCdrom(Str(plan.cdrom));
    err, vifPlan, vifState := Vifs.UpdateVifs(h, plan, state, acceptedMtus);
    o := Orders(oc, vbdPlan, vbdState, vifPlan, vifState);
    if err.Fail? {
      return;
    }
    assert h.State() == UpdateDevices(s1, plan, state, o, acceptedMtus).1;
    err := UpdateTailOn(h, plan);
  }

  method UpdateTailOn(h: Hypervisor, plan: VmModel) returns (err: Outcome)
    requires h.Valid() && CoresNonZero(h.platform, plan)
    modifies h
    ensures h.Valid() && (err, h.State()) == UpdateTail(old(h.State()), plan)
  {
    err := UpdateVmMemory(h, plan);
    if err.Fail? {
      return;
    }
    err := UpdateVmCpus(h, plan);
    if err.Fail? {
      return;
    }
    UpdateBootMode(h, plan);
    UpdateBootOrder(h, plan);
  }

  // ---------------------------------------------------------------------
  // Read-back

  /** updateVMResourceModel: the name label, the template name stored in
      other_config, static_max and VCPUs_max (as int32) read back from the
      VM into the resource data; every other attribute of `data` is kept. */
  function ReadBack(s: Vm, data: VmModel): VmModel {
    data.(nameLabel := Known(s.nameLabel), templateName := Known(Get(s.otherConfig, TemplateKey)),
          staticMemMax := Known(ToInt64(s.memory.staticMax)), vcpus := Known(ToInt32(s.vcpusMax)))
  }

  /** The head of an update leaves the planned name label and template name
      on the VM, and its VCPUs and memory as they were. */
  lemma HeadReadBack(s: Vm, plan: VmModel, o: seq<string>)
    requires IsOrdering(o, StrMap(plan.otherConfig).Keys)
    ensures var r := UpdateHead(s, plan, o);
      && r.nameLabel == Str(plan.nameLabel)
      && Get(r.otherConfig, TemplateKey) == Str(plan.templateName)
      && r.vcpusMax == s.vcpusMax && r.vcpusAtStartup == s.vcpusAtStartup && r.memory == s.memory
  {
    var s1 := s.SetNameLabel(Str(plan.nameLabel)).SetNameDescription(Str(plan.nameDescription));
    TemplateNameReadBack(s1.otherConfig, StrMap(plan.otherConfig), o, Str(plan.templateName));
  }

  /** The boot mode and boot order steps leave the memory limits, the VCPU
      count, the name label and other_config alone. */
  lemma BootStepsKeep(s: Vm, mode: string, order: string)
    ensures var r := UpdateBootOrderStep(UpdateBootModeStep(s, mode), order);
      r.memory == s.memory && r.vcpusMax == s.vcpusMax && r.nameLabel == s.nameLabel && r.otherConfig == s.otherConfig
  {
    var r1 := UpdateBootModeStep(s, mode);
    if mode != "" {
      var e := BootModeEntries(mode);
      var a := SetPlatformStep(s, map["secureboot" := e.0]);
      assert a.memory == s.memory && a.vcpusMax == s.vcpusMax && a.nameLabel == s.nameLabel && a.otherConfig == s.otherConfig;
      var b := SetHvmBootParamsStep(a, map["firmware" := e.1]);
      assert r1 == b;
    }
    if order != "" {
      var c := SetHvmBootParamsStep(r1, map["order" := order]);
      assert c.memory == r1.memory;
    }
  }

  /** A successful tail of an update leaves the planned static_max and VCPU
      count on the VM, and its name label and other_config as they were. */
  lemma TailReadBack(s: Vm, plan: VmModel)
    requires 0 < s.vcpusAtStartup <= s.vcpusMax && CoresNonZero(s.platform, plan)
    requires UpdateTail(s, plan).0.Pass?
    ensures var r := UpdateTail(s, plan).1;
      && r.memory.staticMax == I64(plan.staticMemMax) && r.vcpusMax == I32(plan.vcpus)
      && r.nameLabel == s.nameLabel && r.otherConfig == s.otherConfig
  {
    var r1 := UpdateMemoryStep(s, plan);
    UpdateMemoryEffect(s, plan);
    assert r1.0.Pass? && r1.1 == s.(memory := r1.1.memory, log := r1.1.log);
    var r2 := UpdateCpusStep(r1.1, plan);
    assert r2.0.Pass?;
    SetVcpusAccepted(r1.1, I32(plan.vcpus));
    UpdateCpusEffect(r1.1, plan);
    UpdateCpusFrame(r1.1, plan);
    BootStepsKeep(r2.1, Str(plan.bootMode), Str(plan.bootOrder));
  }

  /** After a successful update, reading the VM back gives the planned name
      label, template name, static_max and VCPU count: the update leaves no
      difference between plan and state in the attributes read back. */
  lemma UpdateReadBack(s: Vm, plan: VmModel, state: VmModel, o: Orders, acceptedMtus: set<int>)
    requires s.Valid() && OrdersFit(o, plan, state) && CoresNonZero(s.platform, plan)
    requires UpdateVmRun(s, plan, state, o, acceptedMtus).0.Pass?
    ensures var d := ReadBack(UpdateVmRun(s, plan, state, o, acceptedMtus).1, plan);
      && d.nameLabel == Known(Str(plan.nameLabel))
      && d.templateName == Known(Str(plan.templateName))
      && d.staticMemMax == Known(I64(plan.staticMemMax))
      && d.vcpus == Known(I32(plan.vcpus))
  {
    var s1 := UpdateHead(s, plan, o.otherConfig);
    HeadReadBack(s, plan, o.otherConfig);
    var r2 := UpdateDevices(s1, plan, state, o, acceptedMtus);
    TailReadBack(r2.1, plan);
  }

  // ---------------------------------------------------------------------
  // Device order

  /** Every call acts on a VBD. */
  predicate AllVbdCalls(calls: seq<Call>) {
    forall i | 0 <= i < |calls| :: IsVbdCall(calls[i])
  }

  /** Every call acts on a VIF. */
  predicate AllVifCalls(calls: seq<Call>) {
    forall i | 0 <= i < |calls| :: IsVifCall(calls[i])
  }

  lemma VbdCallsAppend(a: seq<Call>, b: seq<Call>)
    requires Vbds.NoDestroys(a) && Vbds.OnlyDestroys(b)
    ensures AllVbdCalls(a + b)
  {
    assert forall i | |a| <= i < |a + b| :: (a + b)[i] == b[i - |a|];
  }

  lemma VifCallsAppend(a: seq<Call>, b: seq<Call>)
    requires Vifs.NoDestroys(a) && Vifs.OnlyDestroys(b)
    ensures AllVifCalls(a + b)
  {
    assert forall i | |a| <= i < |a + b| :: (a + b)[i] == b[i - |a|];
  }

  /** A successful device phase of an update makes every disk call, then
      the CD-ROM update, then every network interface call: the CD-ROM is
      attached after the disks, as the source requires to keep device
      order. */
  lemma UpdateDeviceOrder(s: Vm, plan: VmModel, state: VmModel, o: Orders, acceptedMtus: set<int>)
    returns (dv: seq<Call>, dn: seq<Call>)
    requires OrdersFit(o, plan, state)
    requires UpdateDevices(s, plan, state, o, acceptedMtus).0.Pass?
    ensures UpdateDevices(s, plan, state, o, acceptedMtus).1.log == s.log + dv + [CdromUpdated(Str(plan.cdrom))] + dn
    ensures AllVbdCalls(dv) && AllVifCalls(dn)
  {
    var d1, d2 := Vbds.UpdateVbdsEffect(s, plan.hardDrive, state.hardDrive, o.vbdPlan, o.vbdState);
    var r1 := Vbds.UpdateVbdsRun(s, plan.hardDrive, state.hardDrive, o.vbdPlan, o.vbdState);
    var s2 := r1.1.UpdateCdrom(Str(plan.cdrom));
    var e1, e2 := Vifs.UpdateVifsEffect(s2, plan.networkInterface, state.networkInterface, o.vifPlan, o.vifState, acceptedMtus);
    dv := d1 + d2;
    dn := e1 + e2;
    VbdCallsAppend(d1, d2);
    VifCallsAppend(e1, e2);
    AppendAssoc(s.log, d1, d2);
    AppendAssoc(s2.log, e1, e2);
  }

  // ---------------------------------------------------------------------
  // setVMResourceModel

  /** The name label, the description, memory and VCPUs: the first steps
      of the create-time sequence. */
  function CreateHead(s: Vm, plan: VmModel): (r: (Outcome, Vm))
    requires CoresNonZero(s.platform, plan)
  {
    var s1 := s.SetNameLabel(Str(plan.nameLabel)).SetNameDescription(Str(plan.nameDescription));
    var r2 := UpdateMemoryStep(s1, plan);
    if r2.0.Fail? then r2 else UpdateCpusStep(r2.1, plan)
  }

  /** other_config, boot mode and boot order, which cannot fail. */
  function CreateSettings(s: Vm, plan: VmModel, oc: seq<string>): Vm
    requires IsOrdering(oc, StrMap(plan.otherConfig).Keys)
  {
    UpdateBootOrderStep(UpdateBootModeStep(SetOtherConfigStep(s, plan, oc), Str(plan.bootMode)), Str(plan.bootOrder))
  }

  /** The hard drives, the CD-ROM after them, the network interfaces, and
      finally the template flag cleared. */
  function CreateDevices(s: Vm, plan: VmModel, acceptedMtus: set<int>): (r: (Outcome, Vm))
  {
    var r1 := Vbds.CreateVbdsRun(s, plan.hardDrive);
    if r1.0.Fail? then r1
    else
      var r2 := Vifs.CreateVifsRun(r1.1.UpdateCdrom(Str(plan.cdrom)), plan.networkInterface, acceptedMtus);
      if r2.0.Fail? then r2 else (Pass, r2.1.SetIsATemplate(false))
  }

  /** setVMResourceModel on a snapshot of the VM just cloned from its
      template: the steps in the source's order, the first failure ending
      the sequence. */
  function SetVmRun(s: Vm, plan: VmModel, oc: seq<string>, acceptedMtus: set<int>): (r: (Outcome, Vm))
    requires IsOrdering(oc, StrMap(plan.otherConfig).Keys) && CoresNonZero(s.platform, plan)
  {
    var r1 := CreateHead(s, plan);
    if r1.0.Fail? then r1 else CreateDevices(CreateSettings(r1.1, plan, oc), plan, acceptedMtus)
  }

  method CreateHeadOn(h: Hypervisor, plan: VmModel) returns (err: Outcome)
    requires h.Valid() && CoresNonZero(h.platform, plan)
    modifies h
    ensures h.Valid() && (err, h.State()) == CreateHead(old(h.State()), plan)
  {
    h.SetNameLabel(Str(plan.nameLabel));
    h.SetNameDescription(Str(plan.nameDescription));
    err := UpdateVmMemory(h, plan);
    if err.Fail? {
      return;
    }
    err := UpdateVmCpus(h, plan);
  }

  method SetVm(h: Hypervisor, plan: VmModel, acceptedMtus: set<int>) returns (err: Outcome, ghost oc: seq<string>)
    requires h.Valid() && CoresNonZero(h.platform, plan)
    modifies h
    ensures IsOrdering(oc, StrMap(plan.otherConfig).Keys)
    ensures h.Valid() && (err, h.State()) == SetVmRun(old(h.State()), plan, oc, acceptedMtus)
  {
    err := CreateHeadOn(h, plan);
    if err.Fail? {
      oc := SomeOrder(StrMap(plan.otherConfig).Keys);
      return;
    }
    ghost var s1 := h.State();
    oc := SetOtherConfigFromPlan(h, plan);
    UpdateBootMode(h, plan);
    UpdateBootOrder(h, plan);
    ghost var s2 := h.State();
    assert s2 == CreateSettings(s1, plan, oc);
    err := Vbds.CreateVbds(h, plan);
    if err.Fail? {
      return;
    }
    h.UpdateCdrom(Str(plan.cdrom));
    err := Vifs.CreateVifs(h, plan, acceptedMtus);
    if err.Fail? {
      return;
    }
    h.SetIsATemplate(false);
  }

  /** A successful create-time sequence makes its VBD calls, which create
      one disk per hard_drive element in element order and destroy
      nothing, then the CD-ROM update, then its VIF calls, which create one
      interface per network_interface element in element order, and last
      clears the template flag. */
  lemma CreateDeviceOrder(s: Vm, plan: VmModel, acceptedMtus: set<int>) returns (dv: seq<Call>, dn: seq<Call>)
    requires CreateDevices(s, plan, acceptedMtus).0.Pass?
    ensures var r := CreateDevices(s, plan, acceptedMtus).1;
      && r.log == s.log + dv + [CdromUpdated(Str(plan.cdrom))] + dn + [IsATemplateSet(false)]
      && !r.isATemplate
      && Vbds.NoDestroys(dv) && Vbds.CreatedVdis(dv) == Lookup(s.vdis, KeysOf(plan.hardDrive, VdiKey))
      && Vifs.NoDestroys(dn) && Vifs.CreatedNetworks(dn) == Lookup(s.networks, KeysOf(plan.networkInterface, NetworkKey))
  {
    dv := Vbds.CreateVbdsInOrder(s, plan.hardDrive);
    var r1 := Vbds.CreateVbdsRun(s, plan.hardDrive);
    var s2 := r1.1.UpdateCdrom(Str(plan.cdrom));
    dn := Vifs.CreateVifsInOrder(s2, plan.networkInterface, acceptedMtus);
    assert s2.networks == s.networks;
  }

  /** After a successful create-time sequence the VM is no longer a
      template, its name label, template name, static_max and VCPU count
      read back as planned, and so does every entry of the planned
      other_config. */
  lemma SetVmReadBack(s: Vm, plan: VmModel, oc: seq<string>, acceptedMtus: set<int>)
    requires s.Valid() && IsOrdering(oc, StrMap(plan.otherConfig).Keys) && CoresNonZero(s.platform, plan)
    requires SetVmRun(s, plan, oc, acceptedMtus).0.Pass?
    ensures var r := SetVmRun(s, plan, oc, acceptedMtus).1;
      var d := ReadBack(r, plan);
      var rb := ReadOtherConfig(r.otherConfig);
      && !r.isATemplate
      && d.nameLabel == Known(Str(plan.nameLabel))
      && d.templateName == Known(Str(plan.templateName))
      && d.staticMemMax == Known(I64(plan.staticMemMax))
      && d.vcpus == Known(I32(plan.vcpus))
      && (forall k | k in StrMap(plan.otherConfig) && k != SentinelKey && k != TemplateKey ::
            k in rb && rb[k] == StrMap(plan.otherConfig)[k])
  {
    var s1 := s.SetNameLabel(Str(plan.nameLabel)).SetNameDescription(Str(plan.nameDescription));
    var r2 := UpdateMemoryStep(s1, plan);
    UpdateMemoryEffect(s1, plan);
    var r3 := UpdateCpusStep(r2.1, plan);
    SetVcpusAccepted(r2.1, I32(plan.vcpus));
    UpdateCpusEffect(r2.1, plan);
    UpdateCpusFrame(r2.1, plan);
    var s4 := SetOtherConfigStep(r3.1, plan, oc);
    var planOC := StrMap(plan.otherConfig);
    var merged := MergeOtherConfig(r3.1.otherConfig, planOC, oc, Str(plan.templateName));
    TemplateNameReadBack(r3.1.otherConfig, planOC, oc, Str(plan.templateName));
    OtherConfigReadBack(r3.1.otherConfig, planOC, oc, Str(plan.templateName));
    var s5 := CreateSettings(r3.1, plan, oc);
    BootStepsKeep(s4, Str(plan.bootMode), Str(plan.bootOrder));
    assert s5.otherConfig == merged && s5.nameLabel == Str(plan.nameLabel);
    assert s5.vcpusMax == I32(plan.vcpus) && s5.memory.staticMax == I64(plan.staticMemMax);
    var dv, dn := CreateDeviceOrder(s5, plan, acceptedMtus);
    var v1 := Vbds.CreateVbdsRun(s5, plan.hardDrive);
    var d1 := Vbds.CreateVbdsInOrder(s5, plan.hardDrive);
    var v2 := v1.1.UpdateCdrom(Str(plan.cdrom));
    var d2 := Vifs.CreateVifsInOrder(v2, plan.networkInterface, acceptedMtus);
  }

  // ---------------------------------------------------------------------
  // cleanupVMResource

  /** VIF.destroy on each reference in turn, the first failure ending the
      loop. */
  function DestroyVifsRun(s: Vm, refs: seq<string>): (Outcome, Vm)
    decreases |refs|
  {
    if refs == [] then (Pass, s)
    else
      var r := DestroyVifsRun(s, refs[..|refs| - 1]);
      if r.0.Fail? then r else r.1.VifDestroy(refs[|refs| - 1])
  }

  /** VBD.destroy on each reference in turn, the first failure ending the
      loop. */
  function DestroyVbdsRun(s: Vm, refs: seq<string>): (Outcome, Vm)
    decreases |refs|
  {
    if refs == [] then (Pass, s)
    else
      var r := DestroyVbdsRun(s, refs[..|refs| - 1]);
      if r.0.Fail? then r else r.1.VbdDestroy(refs[|refs| - 1])
  }

  /** cleanupVMResource on a snapshot, for the VIF and VBD references in
      the order the VM record lists them: every VIF, then every VBD, then
      the VM. */
  function CleanupRun(s: Vm, vifRefs: seq<string>, vbdRefs: seq<string>): (Outcome, Vm) {
    var r1 := DestroyVifsRun(s, vifRefs);
    if r1.0.Fail? then r1
    else
      var r2 := DestroyVbdsRun(r1.1, vbdRefs);
      if r2.0.Fail? then r2 else (Pass, r2.1.Destroy())
  }

  function VifDestroyCalls(refs: seq<string>): seq<Call> {
    if refs == [] then [] else VifDestroyCalls(refs[..|refs| - 1]) + [VifDestroyed(refs[|refs| - 1])]
  }

  function VbdDestroyCalls(refs: seq<string>): seq<Call> {
    if refs == [] then [] else VbdDestroyCalls(refs[..|refs| - 1]) + [VbdDestroyed(refs[|refs| - 1])]
  }

  predicate Distinct(refs: seq<string>) {
    forall i, j | 0 <= i < j < |refs| :: refs[i] != refs[j]
  }

  /** The last of distinct references is not among the others, which are
      distinct too. */
  lemma DistinctSnoc(refs: seq<string>)
    requires Distinct(refs) && refs != []
    ensures var n := |refs| - 1;
      && Distinct(refs[..n]) && refs[n] !in refs[..n]
      && (forall k | k in refs[..n] :: k in refs)
      && (set k | k in refs) == (set k | k in refs[..n]) + {refs[n]}
  {
    var n := |refs| - 1;
    assert refs == refs[..n] + [refs[n]];
    forall i | 0 <= i < n
      ensures refs[..n][i] != refs[n]
    {
      assert refs[..n][i] == refs[i];
    }
  }

  lemma VifDestroyFrame(s: Vm, ref: string)
    requires ref in s.vifs
    ensures var r := s.VifDestroy(ref);
      && r.0 == Pass && r.1.vifs == s.vifs - {ref} && r.1.log == s.log + [VifDestroyed(ref)]
      && r.1.vbds == s.vbds && r.1.allowedVbdDevices == s.allowedVbdDevices && SameSettings(s, r.1)
  {
  }

  /** Destroying distinct existing VIFs one by one succeeds, removes exactly
      those VIFs, and leaves the rest of the VM but the free slots alone. */
  lemma {:induction false} DestroyVifsEffect(s: Vm, refs: seq<string>)
    requires Distinct(refs) && forall k | k in refs :: k in s.vifs
    ensures var r := DestroyVifsRun(s, refs);
      && r.0 == Pass
      && r.1.vifs == s.vifs - (set k | k in refs)
      && r.1.log == s.log + VifDestroyCalls(refs)
      && r.1.vbds == s.vbds && r.1.allowedVbdDevices == s.allowedVbdDevices && SameSettings(s, r.1)
    decreases |refs|
  {
    if refs != [] {
      var n := |refs| - 1;
      var front := refs[..n];
      DistinctSnoc(refs);
      DestroyVifsEffect(s, front);
      var r0 := DestroyVifsRun(s, front).1;
      assert refs[n] in r0.vifs;
      VifDestroyFrame(r0, refs[n]);
      var r := r0.VifDestroy(refs[n]).1;
      assert DestroyVifsRun(s, refs).1 == r;
      assert r.vifs == s.vifs - (set k | k in refs);
      assert r.log == s.log + VifDestroyCalls(refs);
    }
  }

  lemma VbdDestroyFrame(s: Vm, ref: string)
    requires ref in s.vbds
    ensures var r := s.VbdDestroy(ref);
      && r.0 == Pass && r.1.vbds == s.vbds - {ref} && r.1.log == s.log + [VbdDestroyed(ref)]
      && r.1.vifs == s.vifs && r.1.allowedVifDevices == s.allowedVifDevices && SameSettings(s, r.1)
  {
  }

  /** The same for VBDs. */
  lemma {:induction false} DestroyVbdsEffect(s: Vm, refs: seq<string>)
    requires Distinct(refs) && forall k | k in refs :: k in s.vbds
    ensures var r := DestroyVbdsRun(s, refs);
      && r.0 == Pass
      && r.1.vbds == s.vbds - (set k | k in refs)
      && r.1.log == s.log + VbdDestroyCalls(refs)
      && r.1.vifs == s.vifs && r.1.allowedVifDevices == s.allowedVifDevices && SameSettings(s, r.1)
    decreases |refs|
  {
    if refs != [] {
      var n := |refs| - 1;
      var front := refs[..n];
      DistinctSnoc(refs);
      DestroyVbdsEffect(s, front);
      var r0 := DestroyVbdsRun(s, front).1;
      assert refs[n] in r0.vbds;
      VbdDestroyFrame(r0, refs[n]);
      var r := r0.VbdDestroy(refs[n]).1;
      assert DestroyVbdsRun(s, refs).1 == r;
      assert r.vbds == s.vbds - (set k | k in refs);
      assert r.log == s.log + VbdDestroyCalls(refs);
    }
  }

  /** Cleanup with the references the VM record lists always succeeds: it
      destroys every VIF, then every VBD, then the VM, leaving no VIF and
      no VBD, and changes nothing else but the free slots. */
  lemma CleanupEffect(s: Vm, vifRefs: seq<string>, vbdRefs: seq<string>)
    requires IsOrdering(vifRefs, s.vifs.Keys) && IsOrdering(vbdRefs, s.vbds.Keys)
    ensures var r := CleanupRun(s, vifRefs, vbdRefs);
      && r.0 == Pass
      && r.1 == s.(vifs := map[], vbds := map[], destroyed := true,
                   allowedVifDevices := r.1.allowedVifDevices, allowedVbdDevices := r.1.allowedVbdDevices,
                   log := s.log + VifDestroyCalls(vifRefs) + VbdDestroyCalls(vbdRefs) + [VmDestroyed])
  {
    DestroyVifsEffect(s, vifRefs);
    var r1 := DestroyVifsRun(s, vifRefs);
    assert s.vifs - (set k | k in vifRefs) == map[];
    DestroyVbdsEffect(r1.1, vbdRefs);
    assert r1.1.vbds - (set k | k in vbdRefs) == map[];
  }

  method DestroyVifs(h: Hypervisor, refs: seq<string>) returns (err: Outcome)
    requires h.Valid()
    modifies h
    ensures h.Valid() && (err, h.State()) == DestroyVifsRun(old(h.State()), refs)
  {
    ghost var s0 := h.State();
    var i := 0;
    while i < |refs|
      invariant 0 <= i <= |refs|
      invariant h.Valid() && (Pass, h.State()) == DestroyVifsRun(s0, refs[..i])
    {
      assert refs[..i + 1][..i] == refs[..i];
      err := h.VifDestroy(refs[i]);
      if err.Fail? {
        DestroyVifsStops(s0, refs, i + 1);
        return;
      }
      i := i + 1;
    }
    assert refs[..i] == refs;
    err := Pass;
  }

  method DestroyVbds(h: Hypervisor, refs: seq<string>) returns (err: Outcome)
    requires h.Valid()
    modifies h
    ensures h.Valid() && (err, h.State()) == DestroyVbdsRun(old(h.State()), refs)
  {
    ghost var s0 := h.State();
    var i := 0;
    while i < |refs|
      invariant 0 <= i <= |refs|
      invariant h.Valid() && (Pass, h.State()) == DestroyVbdsRun(s0, refs[..i])
    {
      assert refs[..i + 1][..i] == refs[..i];
      err := h.VbdDestroy(refs[i]);
      if err.Fail? {
        DestroyVbdsStops(s0, refs, i + 1);
        return;
      }
      i := i + 1;
    }
    assert refs[..i] == refs;
    err := Pass;
  }

  lemma {:induction false} DestroyVifsStops(s: Vm, refs: seq<string>, i: int)
    requires 0 <= i <= |refs| && DestroyVifsRun(s, refs[..i]).0.Fail?
    ensures DestroyVifsRun(s, refs) == DestroyVifsRun(s, refs[..i])
    decreases |refs| - i
  {
    if i < |refs| {
      var front := refs[..|refs| - 1];
      assert front[..i] == refs[..i];
      DestroyVifsStops(s, front, i);
    } else {
      assert refs[..i] == refs;
    }
  }

  lemma {:induction false} DestroyVbdsStops(s: Vm, refs: seq<string>, i: int)
    requires 0 <= i <= |refs| && DestroyVbdsRun(s, refs[..i]).0.Fail?
    ensures DestroyVbdsRun(s, refs) == DestroyVbdsRun(s, refs[..i])
    decreases |refs| - i
  {
    if i < |refs| {
      var front := refs[..|refs| - 1];
      assert front[..i] == refs[..i];
      DestroyVbdsStops(s, front, i);
    } else {
      assert refs[..i] == refs;
    }
  }

  /** cleanupVMResource: the ghost outputs are the orders in which the VM
      record listed its VIFs and VBDs. */
  method Cleanup(h: Hypervisor) returns (err: Outcome, ghost vifRefs: seq<string>, ghost vbdRefs: seq<string>)
    requires h.Valid()
    modifies h
    ensures IsOrdering(vifRefs, old(h.vifs).Keys) && IsOrdering(vbdRefs, old(h.vbds).Keys)
    ensures h.Valid() && (err, h.State()) == CleanupRun(old(h.State()), vifRefs, vbdRefs)
  {
    var vifs := h.GetVifRefs();
    var vbds := h.GetVbdRefs();
    vifRefs, vbdRefs := vifs, vbds;
    err := DestroyVifs(h, vifs);
    if err.Fail? {
      return;
    }
    err := DestroyVbds(h, vbds);
    if err.Fail? {
      return;
    }
    h.Destroy();
  }

  // ---------------------------------------------------------------------
  // getFirstTemplate

  /** The fields of a VM record getFirstTemplate looks at. */
  datatype VmSummary = VmSummary(nameLabel: string, isATemplate: bool)

  /** A template whose name label contains the given name. */
  predicate TemplateMatch(rec: VmSummary, templateName: string) {
    rec.isATemplate && Contains(rec.nameLabel, templateName)
  }

  /** getFirstTemplate over the pool's VM records, visited in Go's map
      order: the reference of a template whose name label contains the
      name, or an error exactly when there is none. */
  method GetFirstTemplate(records: map<string, VmSummary>, templateName: string) returns (r: Result<string>)
    ensures r.Ok? ==> r.value in records && TemplateMatch(records[r.value], templateName)
    ensures r.Err? <==> forall ref | ref in records :: !TemplateMatch(records[ref], templateName)
    ensures r.Err? ==> r.error == TemplateNotFound
  {
    var order := RangeOrder(records);
    var i := 0;
    while i < |order|
      invariant 0 <= i <= |order|
      invariant forall j | 0 <= j < i :: !TemplateMatch(records[order[j]], templateName)
    {
      var record := records[order[i]];
      if record.isATemplate && Contains(record.nameLabel, templateName) {
        return Ok(order[i]);
      }
      i := i + 1;
    }
    return Err(TemplateNotFound);
  }
}
