/** The XenServer management API (xenapi) as an in-memory hypervisor
    holding a single VM.  `Vm` is a snapshot of that VM's state; each xenapi
    call the provider makes is a step function on `Vm` and a method of
    `Hypervisor`, the mutable object the provider's code talks to.
    Successful writes are recorded, in order, in `log`. */
module XenApi {
  import opened Base
  import opened GoStrings

  datatype PowerState = Halted | Paused | Running | Suspended

  datatype VbdType = Disk | CD

  /** The fields of a VBD record the provider sets or reads. */
  datatype VbdRecord = VbdRecord(
    vdi: string, vbdType: VbdType, mode: string, bootable: bool,
    empty: bool, userdevice: string, attached: bool)

  /** The fields of a VIF record the provider sets or reads. */
  datatype VifRecord = VifRecord(
    network: string, mac: string, mtu: int, otherConfig: map<string, string>,
    device: string, lockingMode: string, macAutogenerated: bool, attached: bool)

  datatype MemoryLimits = MemoryLimits(staticMin: int, staticMax: int, dynamicMin: int, dynamicMax: int)

  /** One successful write against the hypervisor. */
  datatype Call =
    | NameLabelSet(name: string)
    | NameDescriptionSet(description: string)
    | IsATemplateSet(template: bool)
    | VcpusMaxSet(n: int)
    | VcpusAtStartupSet(n: int)
    | MemoryLimitsSet(limits: MemoryLimits)
    | PlatformSet(platform: map<string, string>)
    | HvmBootParamsSet(params: map<string, string>)
    | OtherConfigSet(otherConfig: map<string, string>)
    | VbdCreated(ref: string, vbd: VbdRecord)
    | VbdPlugged(ref: string)
    | VbdModeSet(ref: string, mode: string)
    | VbdBootableSet(ref: string, bootable: bool)
    | VbdDestroyed(ref: string)
    | VifCreated(ref: string, vif: VifRecord)
    | VifPlugged(ref: string)
    | VifOtherConfigSet(ref: string, otherConfig: map<string, string>)
    | VifDestroyed(ref: string)
    | CdromUpdated(iso: string)
    | VmDestroyed

  /** Calls that act on a VBD. */
  predicate IsVbdCall(c: Call) {
    c.VbdCreated? || c.VbdPlugged? || c.VbdModeSet? || c.VbdBootableSet? || c.VbdDestroyed?
  }

  /** Calls that act on a VIF. */
  predicate IsVifCall(c: Call) {
    c.VifCreated? || c.VifPlugged? || c.VifOtherConfigSet? || c.VifDestroyed?
  }

  /** The reference the hypervisor hands out for the n-th object it creates. */
  function RefName(n: nat): string { "OpaqueRef:" + NatDigits(n) }

  lemma RefNameInjective(a: nat, b: nat)
    requires RefName(a) == RefName(b)
    ensures a == b
  {
    assert RefName(a)[10..] == NatDigits(a);
    assert RefName(b)[10..] == NatDigits(b);
    NatDigitsInjective(a, b);
  }

  /** Every element of s except x, in order. */
  function Without(s: seq<string>, x: string): (r: seq<string>)
    ensures forall y :: y in r <==> y in s && y != x
  {
    if s == [] then [] else (if s[0] == x then [] else [s[0]]) + Without(s[1..], x)
  }

  /** A snapshot of the VM and of the objects around it. */
  datatype Vm = Vm(
    nameLabel: string,
    nameDescription: string,
    isATemplate: bool,
    destroyed: bool,
    power: PowerState,
    vcpusMax: int,
    vcpusAtStartup: int,
    memory: MemoryLimits,
    platform: map<string, string>,
    hvmBootParams: map<string, string>,
    otherConfig: map<string, string>,
    vdis: map<string, string>,        // VDI uuid -> VDI reference
    networks: map<string, string>,    // network uuid -> network reference
    vbds: map<string, VbdRecord>,     // VBD reference -> record
    vifs: map<string, VifRecord>,     // VIF reference -> record
    allowedVbdDevices: seq<string>,
    allowedVifDevices: seq<string>,
    log: seq<Call>)
  {
    /** What the hypervisor guarantees of every VM: the VCPU and memory
        orderings it enforces, and that references it has not handed out
        yet are unused. */
    ghost predicate Valid() {
      && 0 < vcpusAtStartup <= vcpusMax
      && memory.staticMin <= memory.dynamicMin <= memory.dynamicMax <= memory.staticMax
      && RefsFresh()
    }

    /** No reference from RefName(|log|) on is in use: the hypervisor
        names a new object after the number of calls made so far, and every
        call is logged. */
    ghost predicate RefsFresh() {
      forall n: nat {:trigger RefName(n)} :: n >= |log| ==> RefName(n) !in vbds && RefName(n) !in vifs
    }

    function SetNameLabel(name: string): Vm {
      this.(nameLabel := name, log := log + [NameLabelSet(name)])
    }

    function SetNameDescription(description: string): Vm {
      this.(nameDescription := description, log := log + [NameDescriptionSet(description)])
    }

    function SetIsATemplate(template: bool): Vm {
      this.(isATemplate := template, log := log + [IsATemplateSet(template)])
    }

    /** VM.set_VCPUs_max: refused when it would drop below VCPUs_at_startup. */
    function SetVcpusMax(n: int): (r: (Outcome, Vm))
      ensures Valid() ==> r.1.Valid()
      ensures r.0.Pass? <==> 0 < n && vcpusAtStartup <= n
    {
      if 0 < n && vcpusAtStartup <= n then (Pass, this.(vcpusMax := n, log := log + [VcpusMaxSet(n)]))
      else (Fail(VcpusConstraint), this)
    }

    /** VM.set_VCPUs_at_startup: refused unless 0 < n <= VCPUs_max. */
    function SetVcpusAtStartup(n: int): (r: (Outcome, Vm))
      ensures Valid() ==> r.1.Valid()
      ensures r.0.Pass? <==> 0 < n <= vcpusMax
    {
      if 0 < n <= vcpusMax then (Pass, this.(vcpusAtStartup := n, log := log + [VcpusAtStartupSet(n)]))
      else (Fail(VcpusConstraint), this)
    }

    /** VM.set_memory_limits: refused unless
        static_min <= dynamic_min <= dynamic_max <= static_max. */
    function SetMemoryLimits(m: MemoryLimits): (r: (Outcome, Vm))
      ensures Valid() ==> r.1.Valid()
      ensures r.0.Pass? <==> m.staticMin <= m.dynamicMin <= m.dynamicMax <= m.staticMax
    {
      if m.staticMin <= m.dynamicMin <= m.dynamicMax <= m.staticMax then
        (Pass, this.(memory := m, log := log + [MemoryLimitsSet(m)]))
      else (Fail(MemoryConstraint), this)
    }

    function SetPlatform(m: map<string, string>): Vm {
      this.(platform := m, log := log + [PlatformSet(m)])
    }

    function SetHvmBootParams(m: map<string, string>): Vm {
      this.(hvmBootParams := m, log := log + [HvmBootParamsSet(m)])
    }

    function SetOtherConfig(m: map<string, string>): Vm {
      this.(otherConfig := m, log := log + [OtherConfigSet(m)])
    }

    /** VDI.get_by_uuid. */
    function VdiByUuid(uuid: string): Result<string> {
      if uuid in vdis then Ok(vdis[uuid]) else Err(UuidInvalid(uuid))
    }

    /** network.get_by_uuid. */
    function NetworkByUuid(uuid: string): Result<string> {
      if uuid in networks then Ok(networks[uuid]) else Err(UuidInvalid(uuid))
    }

    /** VBD.create: the record's device must be one of the free slots; the
        new VBD gets a reference never handed out before. */
    function VbdCreate(rec: VbdRecord): (r: (Result<string>, Vm))
      ensures Valid() ==> r.1.Valid()
      ensures r.0.Ok? <==> rec.userdevice in allowedVbdDevices
      ensures r.0.Ok? ==> r.0.value == RefName(|log|) && (Valid() ==> r.0.value !in vbds)
    {
      if rec.userdevice !in allowedVbdDevices then (Err(DeviceUnavailable(rec.userdevice)), this)
      else
        var ref := RefName(|log|);
        var next := this.(vbds := vbds[ref := rec],
                          allowedVbdDevices := Without(allowedVbdDevices, rec.userdevice),
                          log := log + [VbdCreated(ref, rec)]);
        FreshAfterCreate(next);
        (Ok(ref), next)
    }

    /** The step that hands out RefName(|log|) keeps later names unused. */
    lemma FreshAfterCreate(next: Vm)
      requires |next.log| == |log| + 1
      requires next.vbds.Keys <= vbds.Keys + {RefName(|log|)}
      requires next.vifs.Keys <= vifs.Keys + {RefName(|log|)}
      ensures RefsFresh() ==> next.RefsFresh()
    {
      if RefsFresh() {
        forall n: nat | n >= |next.log|
          ensures RefName(n) !in next.vbds && RefName(n) !in next.vifs
        {
          if RefName(n) == RefName(|log|) {
            RefNameInjective(n, |log|);
          }
        }
      }
    }

    /** VBD.plug: only on a running VM. */
    function VbdPlug(ref: string): (r: (Outcome, Vm))
      ensures Valid() ==> r.1.Valid()
      ensures r.0.Pass? <==> ref in vbds && power == Running
    {
      if ref !in vbds then (Fail(HandleInvalid(ref)), this)
      else if power != Running then (Fail(NotRunning), this)
      else (Pass, this.(vbds := vbds[ref := vbds[ref].(attached := true)], log := log + [VbdPlugged(ref)]))
    }

    function VbdSetMode(ref: string, mode: string): (r: (Outcome, Vm))
      ensures Valid() ==> r.1.Valid()
      ensures r.0.Pass? <==> ref in vbds
    {
      if ref !in vbds then (Fail(HandleInvalid(ref)), this)
      else (Pass, this.(vbds := vbds[ref := vbds[ref].(mode := mode)], log := log + [VbdModeSet(ref, mode)]))
    }

    function VbdSetBootable(ref: string, bootable: bool): (r: (Outcome, Vm))
      ensures Valid() ==> r.1.Valid()
      ensures r.0.Pass? <==> ref in vbds
    {
      if ref !in vbds then (Fail(HandleInvalid(ref)), this)
      else (Pass, this.(vbds := vbds[ref := vbds[ref].(bootable := bootable)], log := log + [VbdBootableSet(ref, bootable)]))
    }

    /** VBD.destroy: the VBD's slot becomes free again. */
    function VbdDestroy(ref: string): (r: (Outcome, Vm))
      ensures Valid() ==> r.1.Valid()
      ensures r.0.Pass? <==> ref in vbds
    {
      if ref !in vbds then (Fail(HandleInvalid(ref)), this)
      else (Pass, this.(vbds := vbds - {ref},
                        allowedVbdDevices := allowedVbdDevices + [vbds[ref].userdevice],
                        log := log + [VbdDestroyed(ref)]))
    }

    /** VIF.create, with the same slot rule as VBD.create. */
    function VifCreate(rec: VifRecord): (r: (Result<string>, Vm))
      ensures Valid() ==> r.1.Valid()
      ensures r.0.Ok? <==> rec.device in allowedVifDevices
      ensures r.0.Ok? ==> r.0.value == RefName(|log|) && (Valid() ==> r.0.value !in vifs)
    {
      if rec.device !in allowedVifDevices then (Err(DeviceUnavailable(rec.device)), this)
      else
        var ref := RefName(|log|);
        var next := this.(vifs := vifs[ref := rec],
                          allowedVifDevices := Without(allowedVifDevices, rec.device),
                          log := log + [VifCreated(ref, rec)]);
        FreshAfterCreate(next);
        (Ok(ref), next)
    }

    function VifPlug(ref: string): (r: (Outcome, Vm))
      ensures Valid() ==> r.1.Valid()
      ensures r.0.Pass? <==> ref in vifs && power == Running
    {
      if ref !in vifs then (Fail(HandleInvalid(ref)), this)
      else if power != Running then (Fail(NotRunning), this)
      else (Pass, this.(vifs := vifs[ref := vifs[ref].(attached := true)], log := log + [VifPlugged(ref)]))
    }

    function VifSetOtherConfig(ref: string, m: map<string, string>): (r: (Outcome, Vm))
      ensures Valid() ==> r.1.Valid()
      ensures r.0.Pass? <==> ref in vifs
    {
      if ref !in vifs then (Fail(HandleInvalid(ref)), this)
      else (Pass, this.(vifs := vifs[ref := vifs[ref].(otherConfig := m)], log := log + [VifOtherConfigSet(ref, m)]))
    }

    function VifDestroy(ref: string): (r: (Outcome, Vm))
      ensures Valid() ==> r.1.Valid()
      ensures r.0.Pass? <==> ref in vifs
    {
      if ref !in vifs then (Fail(HandleInvalid(ref)), this)
      else (Pass, this.(vifs := vifs - {ref},
                        allowedVifDevices := allowedVifDevices + [vifs[ref].device],
                        log := log + [VifDestroyed(ref)]))
    }

    /** The provider's CD-ROM update, whose body is not part of this model:
        one opaque step, recorded so that its position in a sequence of
        calls can be stated. */
    function UpdateCdrom(iso: string): Vm {
      this.(log := log + [CdromUpdated(iso)])
    }

    function Destroy(): Vm {
      this.(destroyed := true, log := log + [VmDestroyed])
    }
  }

  /** a and b agree on everything but the VM's VBDs, VIFs, free device
      slots and the log: what the device operations leave alone. */
  predicate SameSettings(a: Vm, b: Vm) {
    && a.nameLabel == b.nameLabel && a.nameDescription == b.nameDescription
    && a.isATemplate == b.isATemplate && a.destroyed == b.destroyed && a.power == b.power
    && a.vcpusMax == b.vcpusMax && a.vcpusAtStartup == b.vcpusAtStartup && a.memory == b.memory
    && a.platform == b.platform && a.hvmBootParams == b.hvmBootParams && a.otherConfig == b.otherConfig
    && a.vdis == b.vdis && a.networks == b.networks
  }

  /** The hypervisor as the provider sees it through its session: every
      field can change, and each method is one xenapi call. */
  class Hypervisor {
    var nameLabel: string
    var nameDescription: string
    var isATemplate: bool
    var destroyed: bool
    var power: PowerState
    var vcpusMax: int
    var vcpusAtStartup: int
    var memory: MemoryLimits
    var platform: map<string, string>
    var hvmBootParams: map<string, string>
    var otherConfig: map<string, string>
    var vdis: map<string, string>
    var networks: map<string, string>
    var vbds: map<string, VbdRecord>
    var vifs: map<string, VifRecord>
    var allowedVbdDevices: seq<string>
    var allowedVifDevices: seq<string>
    var log: seq<Call>

    function State(): Vm
      reads this
    {
      Vm(nameLabel, nameDescription, isATemplate, destroyed, power, vcpusMax, vcpusAtStartup,
         memory, platform, hvmBootParams, otherConfig, vdis, networks, vbds, vifs,
         allowedVbdDevices, allowedVifDevices, log)
    }

    ghost predicate Valid()
      reads this
    {
      State().Valid()
    }

    constructor (s: Vm)
      requires s.Valid()
      ensures Valid() && State() == s
    {
      nameLabel, nameDescription, isATemplate, destroyed := s.nameLabel, s.nameDescription, s.isATemplate, s.destroyed;
      power, vcpusMax, vcpusAtStartup, memory := s.power, s.vcpusMax, s.vcpusAtStartup, s.memory;
      platform, hvmBootParams, otherConfig := s.platform, s.hvmBootParams, s.otherConfig;
      vdis, networks, vbds, vifs := s.vdis, s.networks, s.vbds, s.vifs;
      allowedVbdDevices, allowedVifDevices, log := s.allowedVbdDevices, s.allowedVifDevices, s.log;
    }

    // Reads.

    method GetPowerState() returns (p: PowerState)
      ensures p == power
    {
      p := power;
    }

    method GetVcpusMax() returns (n: int)
      ensures n == vcpusMax
    {
      n := vcpusMax;
    }

    method GetPlatform() returns (m: map<string, string>)
      ensures m == platform
    {
      m := platform;
    }

    method GetHvmBootParams() returns (m: map<string, string>)
      ensures m == hvmBootParams
    {
      m := hvmBootParams;
    }

    method GetOtherConfig() returns (m: map<string, string>)
      ensures m == otherConfig
    {
      m := otherConfig;
    }

    method GetAllowedVbdDevices() returns (d: seq<string>)
      ensures d == allowedVbdDevices
    {
      d := allowedVbdDevices;
    }

    method GetAllowedVifDevices() returns (d: seq<string>)
      ensures d == allowedVifDevices
    {
      d := allowedVifDevices;
    }

    /** The VIFs field of the VM record: each VIF reference once, in an
        order the model leaves open. */
    method GetVifRefs() returns (refs: seq<string>)
      ensures IsOrdering(refs, vifs.Keys)
    {
      refs := RangeOrder(vifs);
    }

    /** The VBDs field of the VM record, disks and CD drives alike. */
    method GetVbdRefs() returns (refs: seq<string>)
      ensures IsOrdering(refs, vbds.Keys)
    {
      refs := RangeOrder(vbds);
    }

    method VdiGetByUuid(uuid: string) returns (r: Result<string>)
      ensures r == State().VdiByUuid(uuid)
    {
      r := if uuid in vdis then Ok(vdis[uuid]) else Err(UuidInvalid(uuid));
    }

    method NetworkGetByUuid(uuid: string) returns (r: Result<string>)
      ensures r == State().NetworkByUuid(uuid)
    {
      r := if uuid in networks then Ok(networks[uuid]) else Err(UuidInvalid(uuid));
    }

    // Writes.

    method SetNameLabel(name: string)
      requires Valid()
      modifies this
      ensures Valid() && State() == old(State()).SetNameLabel(name)
    {
      nameLabel := name;
      log := log + [NameLabelSet(name)];
    }

    method SetNameDescription(description: string)
      requires Valid()
      modifies this
      ensures Valid() && State() == old(State()).SetNameDescription(description)
    {
      nameDescription := description;
      log := log + [NameDescriptionSet(description)];
    }

    method SetIsATemplate(template: bool)
      requires Valid()
      modifies this
      ensures Valid() && State() == old(State()).SetIsATemplate(template)
    {
      isATemplate := template;
      log := log + [IsATemplateSet(template)];
    }

    method SetVcpusMax(n: int) returns (o: Outcome)
      requires Valid()
      modifies this
      ensures Valid() && (o, State()) == old(State()).SetVcpusMax(n)
    {
      if 0 < n && vcpusAtStartup <= n {
        vcpusMax := n;
        log := log + [VcpusMaxSet(n)];
        o := Pass;
      } else {
        o := Fail(VcpusConstraint);
      }
    }

    method SetVcpusAtStartup(n: int) returns (o: Outcome)
      requires Valid()
      modifies this
      ensures Valid() && (o, State()) == old(State()).SetVcpusAtStartup(n)
    {
      if 0 < n <= vcpusMax {
        vcpusAtStartup := n;
        log := log + [VcpusAtStartupSet(n)];
        o := Pass;
      } else {
        o := Fail(VcpusConstraint);
      }
    }

    method SetMemoryLimits(m: MemoryLimits) returns (o: Outcome)
      requires Valid()
      modifies this
      ensures Valid() && (o, State()) == old(State()).SetMemoryLimits(m)
    {
      if m.staticMin <= m.dynamicMin <= m.dynamicMax <= m.staticMax {
        memory := m;
        log := log + [MemoryLimitsSet(m)];
        o := Pass;
      } else {
        o := Fail(MemoryConstraint);
      }
    }

    method SetPlatform(m: map<string, string>)
      requires Valid()
      modifies this
      ensures Valid() && State() == old(State()).SetPlatform(m)
    {
      platform := m;
      log := log + [PlatformSet(m)];
    }

    method SetHvmBootParams(m: map<string, string>)
      requires Valid()
      modifies this
      ensures Valid() && State() == old(State()).SetHvmBootParams(m)
    {
      hvmBootParams := m;
      log := log + [HvmBootParamsSet(m)];
    }

    method SetOtherConfig(m: map<string, string>)
      requires Valid()
      modifies this
      ensures Valid() && State() == old(State()).SetOtherConfig(m)
    {
      otherConfig := m;
      log := log + [OtherConfigSet(m)];
    }

    method VbdCreate(rec: VbdRecord) returns (r: Result<string>)
      requires Valid()
      modifies this
      ensures Valid() && (r, State()) == old(State()).VbdCreate(rec)
    {
      ghost var s := State();
      if rec.userdevice !in allowedVbdDevices {
        r := Err(DeviceUnavailable(rec.userdevice));
      } else {
        var ref := RefName(|log|);
        vbds := vbds[ref := rec];
        allowedVbdDevices := Without(allowedVbdDevices, rec.userdevice);
        log := log + [VbdCreated(ref, rec)];
        r := Ok(ref);
        assert State() == s.VbdCreate(rec).1;
      }
    }

    method VbdPlug(ref: string) returns (o: Outcome)
      requires Valid()
      modifies this
      ensures Valid() && (o, State()) == old(State()).VbdPlug(ref)
    {
      if ref !in vbds {
        o := Fail(HandleInvalid(ref));
      } else if power != Running {
        o := Fail(NotRunning);
      } else {
        vbds := vbds[ref := vbds[ref].(attached := true)];
        log := log + [VbdPlugged(ref)];
        o := Pass;
      }
    }

    method VbdSetMode(ref: string, mode: string) returns (o: Outcome)
      requires Valid()
      modifies this
      ensures Valid() && (o, State()) == old(State()).VbdSetMode(ref, mode)
    {
      if ref !in vbds {
        o := Fail(HandleInvalid(ref));
      } else {
        vbds := vbds[ref := vbds[ref].(mode := mode)];
        log := log + [VbdModeSet(ref, mode)];
        o := Pass;
      }
    }

    method VbdSetBootable(ref: string, bootable: bool) returns (o: Outcome)
      requires Valid()
      modifies this
      ensures Valid() && (o, State()) == old(State()).VbdSetBootable(ref, bootable)
    {
      if ref !in vbds {
        o := Fail(HandleInvalid(ref));
      } else {
        vbds := vbds[ref := vbds[ref].(bootable := bootable)];
        log := log + [VbdBootableSet(ref, bootable)];
        o := Pass;
      }
    }

    method VbdDestroy(ref: string) returns (o: Outcome)
      requires Valid()
      modifies this
      ensures Valid() && (o, State()) == old(State()).VbdDestroy(ref)
    {
      if ref !in vbds {
        o := Fail(HandleInvalid(ref));
      } else {
        allowedVbdDevices := allowedVbdDevices + [vbds[ref].userdevice];
        vbds := vbds - {ref};
        log := log + [VbdDestroyed(ref)];
        o := Pass;
      }
    }

    method VifCreate(rec: VifRecord) returns (r: Result<string>)
      requires Valid()
      modifies this
      ensures Valid() && (r, State()) == old(State()).VifCreate(rec)
    {
      ghost var s := State();
      if rec.device !in allowedVifDevices {
        r := Err(DeviceUnavailable(rec.device));
      } else {
        var ref := RefName(|log|);
        vifs := vifs[ref := rec];
        allowedVifDevices := Without(allowedVifDevices, rec.device);
        log := log + [VifCreated(ref, rec)];
        r := Ok(ref);
        assert State() == s.VifCreate(rec).1;
      }
    }

    method VifPlug(ref: string) returns (o: Outcome)
      requires Valid()
      modifies this
      ensures Valid() && (o, State()) == old(State()).VifPlug(ref)
    {
      if ref !in vifs {
        o := Fail(HandleInvalid(ref));
      } else if power != Running {
        o := Fail(NotRunning);
      } else {
        vifs := vifs[ref := vifs[ref].(attached := true)];
        log := log + [VifPlugged(ref)];
        o := Pass;
      }
    }

    method VifSetOtherConfig(ref: string, m: map<string, string>) returns (o: Outcome)
      requires Valid()
      modifies this
      ensures Valid() && (o, State()) == old(State()).VifSetOtherConfig(ref, m)
    {
      if ref !in vifs {
        o := Fail(HandleInvalid(ref));
      } else {
        vifs := vifs[ref := vifs[ref].(otherConfig := m)];
        log := log + [VifOtherConfigSet(ref, m)];
        o := Pass;
      }
    }

    method VifDestroy(ref: string) returns (o: Outcome)
      requires Valid()
      modifies this
      ensures Valid() && (o, State()) == old(State()).VifDestroy(ref)
    {
      if ref !in vifs {
        o := Fail(HandleInvalid(ref));
      } else {
        allowedVifDevices := allowedVifDevices + [vifs[ref].device];
        vifs := vifs - {ref};
        log := log + [VifDestroyed(ref)];
        o := Pass;
      }
    }

    method UpdateCdrom(iso: string)
      requires Valid()
      modifies this
      ensures Valid() && State() == old(State()).UpdateCdrom(iso)
    {
      log := log + [CdromUpdated(iso)];
    }

    method Destroy()
      requires Valid()
      modifies this
      ensures Valid() && State() == old(State()).Destroy()
    {
      destroyed := true;
      log := log + [VmDestroyed];
    }
  }
}
