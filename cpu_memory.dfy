/** Memory limits and VCPUs (xenserver/vm_utils.go): updateVMMemory,
    updateVMCPUs with its cores-per-socket topology check, and
    getCorePerSocket, which reads the topology back. */
module CpuMemory {
  import opened Base
  import opened GoStrings
  import opened XenApi
  import opened Models

  /** The platform key holding the number of cores per socket. */
  const CoresKey := "cores-per-socket"

  // ---------------------------------------------------------------------
  // updateVMMemory

  /** The limits updateVMMemory sets: static_max from the plan, and each
      other limit the plan leaves unknown defaulting to static_max. */
  function MemoryLimitsFor(plan: VmModel): MemoryLimits {
    var max := I64(plan.staticMemMax);
    MemoryLimits(plan.staticMemMin.ValueOr(max), max,
                 plan.dynamicMemMin.ValueOr(max), plan.dynamicMemMax.ValueOr(max))
  }

  function UpdateMemoryStep(s: Vm, plan: VmModel): (Outcome, Vm) {
    s.SetMemoryLimits(MemoryLimitsFor(plan))
  }

  /** updateVMMemory succeeds iff the planned limits are in the order the
      hypervisor demands; then the VM has exactly the planned limits, an
      unknown one standing at static_max, and static_max reads back as
      planned.  A failure leaves the VM as it was. */
  lemma UpdateMemoryEffect(s: Vm, plan: VmModel)
    ensures var r := UpdateMemoryStep(s, plan);
      var max := I64(plan.staticMemMax);
      && (r.0.Pass? <==> plan.staticMemMin.ValueOr(max) <= plan.dynamicMemMin.ValueOr(max)
                           <= plan.dynamicMemMax.ValueOr(max) <= max)
      && (r.0.Pass? ==> && r.1.memory.staticMax == max
                        && (plan.staticMemMin.Known? ==> r.1.memory.staticMin == plan.staticMemMin.value)
                        && (plan.staticMemMin.Unknown? ==> r.1.memory.staticMin == max)
                        && (plan.dynamicMemMin.Known? ==> r.1.memory.dynamicMin == plan.dynamicMemMin.value)
                        && (plan.dynamicMemMin.Unknown? ==> r.1.memory.dynamicMin == max)
                        && (plan.dynamicMemMax.Known? ==> r.1.memory.dynamicMax == plan.dynamicMemMax.value)
                        && (plan.dynamicMemMax.Unknown? ==> r.1.memory.dynamicMax == max))
      && (r.0.Fail? ==> r == (Fail(MemoryConstraint), s))
  {
  }

  /** With only static_max planned, the four limits are equal and the
      update always succeeds. */
  lemma OnlyStaticMaxAccepted(s: Vm, plan: VmModel)
    requires plan.staticMemMin.Unknown? && plan.dynamicMemMin.Unknown? && plan.dynamicMemMax.Unknown?
    ensures UpdateMemoryStep(s, plan).0 == Pass
  {
  }

  method UpdateVmMemory(h: Hypervisor, plan: VmModel) returns (o: Outcome)
    requires h.Valid()
    modifies h
    ensures h.Valid() && (o, h.State()) == UpdateMemoryStep(old(h.State()), plan)
  {
    var staticMemMax := I64(plan.staticMemMax);
    var staticMemMin := staticMemMax;
    var dynamicMemMin := staticMemMax;
    var dynamicMemMax := staticMemMax;
    if plan.staticMemMin.Known? {
      staticMemMin := plan.staticMemMin.value;
    }
    if plan.dynamicMemMin.Known? {
      dynamicMemMin := plan.dynamicMemMin.value;
    }
    if plan.dynamicMemMax.Known? {
      dynamicMemMax := plan.dynamicMemMax.value;
    }
    o := h.SetMemoryLimits(MemoryLimits(staticMemMin, staticMemMax, dynamicMemMin, dynamicMemMax));
  }

  // ---------------------------------------------------------------------
  // Reading cores-per-socket

  /** The cores-per-socket entry parsed with strconv.Atoi: an error when it
      is missing or is not a decimal int64. */
  function PlatformCores(platform: map<string, string>): (r: Result<int>)
    ensures r == Err(MissingCoresPerSocket) <==> CoresKey !in platform
    ensures r == Err(BadCoresPerSocket) <==> CoresKey in platform && Atoi(platform[CoresKey]).None?
    ensures r.Ok? ==> CoresKey in platform && Atoi(platform[CoresKey]) == Some(r.value)
    ensures r.Ok? ==> MinInt64 <= r.value <= MaxInt64
  {
    if CoresKey !in platform then Err(MissingCoresPerSocket)
    else match Atoi(platform[CoresKey])
      case None => Err(BadCoresPerSocket)
      case Some(n) => Ok(n)
  }

  /** getCorePerSocket: the parsed entry truncated to int32. */
  function GetCorePerSocket(platform: map<string, string>): (r: Result<Int32>)
    ensures r.Err? <==> PlatformCores(platform).Err?
    ensures r.Ok? ==> (r.value - PlatformCores(platform).value) % 0x1_0000_0000 == 0
  {
    match PlatformCores(platform)
    case Err(e) => Err(e)
    case Ok(n) => Ok(ToInt32(n))
  }

  /** Writing a cores-per-socket count with strconv.Itoa and reading it
      back with getCorePerSocket gives the count back. */
  lemma CoresRoundTrip(platform: map<string, string>, c: Int32)
    ensures GetCorePerSocket(platform[CoresKey := Itoa(c)]) == Ok(c)
  {
    AtoiItoa(c);
  }

  // ---------------------------------------------------------------------
  // updateVMCPUs

  /** The two VCPU writes, in the order that keeps
      0 < VCPUs_at_startup <= VCPUs_max true between them: lowering writes
      VCPUs_at_startup first, raising writes VCPUs_max first; the first
      refusal ends the update. */
  function SetVcpusStep(s: Vm, n: int): (Outcome, Vm) {
    if n < s.vcpusMax then
      var r := s.SetVcpusAtStartup(n);
      if r.0.Fail? then r else r.1.SetVcpusMax(n)
    else
      var r := s.SetVcpusMax(n);
      if r.0.Fail? then r else r.1.SetVcpusAtStartup(n)
  }

  /** On a VM whose VCPU values are in the order the hypervisor keeps
      them in, the writes succeed for every positive count and leave both
      values at it; a count of zero or less is refused. */
  lemma SetVcpusAccepted(s: Vm, n: int)
    requires 0 < s.vcpusAtStartup <= s.vcpusMax
    ensures var r := SetVcpusStep(s, n);
      && (r.0.Pass? <==> n > 0)
      && (r.0.Pass? ==> r.1.vcpusMax == n && r.1.vcpusAtStartup == n && r.1.platform == s.platform)
  {
    if n < s.vcpusMax {
      var r1 := s.SetVcpusAtStartup(n);
      if n > 0 {
        assert r1.1 == s.(vcpusAtStartup := n, log := s.log + [VcpusAtStartupSet(n)]);
      }
    } else {
      var r1 := s.SetVcpusMax(n);
      assert r1.1 == s.(vcpusMax := n, log := s.log + [VcpusMaxSet(n)]);
    }
  }

  /** Both VCPU writes are always made, VCPUs_at_startup first exactly
      when the count drops below the old VCPUs_max; the VM keeps
      0 < VCPUs_at_startup <= VCPUs_max after the first write as after the
      second. */
  lemma VcpusWriteOrder(s: Vm, n: int)
    requires 0 < s.vcpusAtStartup <= s.vcpusMax && n > 0
    ensures var r := SetVcpusStep(s, n);
      var mid := if n < s.vcpusMax then s.SetVcpusAtStartup(n).1 else s.SetVcpusMax(n).1;
      && r.0 == Pass
      && r.1.log == s.log + (if n < s.vcpusMax then [VcpusAtStartupSet(n), VcpusMaxSet(n)]
                             else [VcpusMaxSet(n), VcpusAtStartupSet(n)])
      && 0 < mid.vcpusAtStartup <= mid.vcpusMax
      && 0 < r.1.vcpusAtStartup <= r.1.vcpusMax
  {
    if n < s.vcpusMax {
      var m := s.(vcpusAtStartup := n, log := s.log + [VcpusAtStartupSet(n)]);
      assert s.SetVcpusAtStartup(n) == (Pass, m);
      assert m.SetVcpusMax(n) == (Pass, m.(vcpusMax := n, log := m.log + [VcpusMaxSet(n)]));
    } else {
      var m := s.(vcpusMax := n, log := s.log + [VcpusMaxSet(n)]);
      assert s.SetVcpusMax(n) == (Pass, m);
      assert m.SetVcpusAtStartup(n) == (Pass, m.(vcpusAtStartup := n, log := m.log + [VcpusAtStartupSet(n)]));
    }
  }

  /** Either write order taken alone fails for some valid VM: writing
      VCPUs_max first fails when lowering below VCPUs_at_startup, writing
      VCPUs_at_startup first fails when raising above VCPUs_max. */
  lemma OtherOrderRefused(s: Vm, n: int)
    requires s.Valid() && n > 0
    ensures n < s.vcpusAtStartup ==> s.SetVcpusMax(n).0.Fail?
    ensures n > s.vcpusMax ==> s.SetVcpusAtStartup(n).0.Fail?
  {
  }

  /** Go panics on `vcpus % 0`: the caller must not plan zero cores per
      socket, nor leave it unknown over a platform entry that parses to
      zero. */
  predicate CoresNonZero(platform: map<string, string>, plan: VmModel) {
    && (plan.corePerSocket.Known? ==> plan.corePerSocket.value != 0)
    && (plan.corePerSocket.Unknown? ==> PlatformCores(platform) != Ok(0))
  }

  /** updateVMCPUs on a snapshot; `platform` is the map as read before the
      VCPU writes.  Divisibility does not depend on the sign convention of
      the remainder, so Dafny's `%` tests what Go's does. */
  function UpdateCpusStep(s: Vm, plan: VmModel): (r: (Outcome, Vm))
    requires CoresNonZero(s.platform, plan)
  {
    var n := I32(plan.vcpus);
    var platform := s.platform;
    var r := SetVcpusStep(s, n);
    if r.0.Fail? then r
    else if plan.corePerSocket.Known? then
      var c := plan.corePerSocket.value;
      if n % c != 0 then (Fail(Topology(n, c)), r.1)
      else (Pass, r.1.SetPlatform(platform[CoresKey := Itoa(c)]))
    else
      match PlatformCores(platform)
      case Err(e) => (Fail(e), r.1)
      case Ok(c) => if n % c != 0 then (Fail(Topology(n, c)), r.1) else (Pass, r.1)
  }

  /** The VCPU writes change the two VCPU values and the log, nothing
      else. */
  lemma SetVcpusFrame(s: Vm, n: int)
    ensures var r := SetVcpusStep(s, n).1;
      r == s.(vcpusMax := r.vcpusMax, vcpusAtStartup := r.vcpusAtStartup, log := r.log)
  {
    if n < s.vcpusMax {
      var r1 := s.SetVcpusAtStartup(n);
      assert r1.1 == s.(vcpusAtStartup := r1.1.vcpusAtStartup, log := r1.1.log);
    } else {
      var r1 := s.SetVcpusMax(n);
      assert r1.1 == s.(vcpusMax := r1.1.vcpusMax, log := r1.1.log);
    }
  }

  /** updateVMCPUs changes the two VCPU values, the platform map and the
      log, and nothing else about the VM. */
  lemma UpdateCpusFrame(s: Vm, plan: VmModel)
    requires CoresNonZero(s.platform, plan)
    ensures var r := UpdateCpusStep(s, plan).1;
      r == s.(vcpusMax := r.vcpusMax, vcpusAtStartup := r.vcpusAtStartup, platform := r.platform, log := r.log)
  {
    SetVcpusFrame(s, I32(plan.vcpus));
  }

  /** On a VM with its VCPU values in order and a positive VCPU count: the
      update succeeds iff the count is a multiple of the cores per socket
      (planned, or else the VM's own); both VCPU values are then the count;
      a planned cores-per-socket is written to the platform and reads back
      as planned.  A topology error comes after the VCPU writes, which
      stay. */
  lemma UpdateCpusEffect(s: Vm, plan: VmModel)
    requires 0 < s.vcpusAtStartup <= s.vcpusMax && CoresNonZero(s.platform, plan) && I32(plan.vcpus) > 0
    ensures var r := UpdateCpusStep(s, plan);
      var n := I32(plan.vcpus);
      && r.1.vcpusMax == n && r.1.vcpusAtStartup == n
      && (plan.corePerSocket.Known? ==>
            && (r.0.Pass? <==> n % plan.corePerSocket.value == 0)
            && (r.0.Fail? ==> r.0 == Fail(Topology(n, plan.corePerSocket.value)) && r.1.platform == s.platform)
            && (r.0.Pass? ==> r.1.platform == s.platform[CoresKey := Itoa(plan.corePerSocket.value)])
            && (r.0.Pass? ==> GetCorePerSocket(r.1.platform) == Ok(plan.corePerSocket.value)))
      && (plan.corePerSocket.Unknown? ==>
            && (r.0.Pass? <==> PlatformCores(s.platform).Ok? && n % PlatformCores(s.platform).value == 0)
            && r.1.platform == s.platform)
  {
    SetVcpusAccepted(s, I32(plan.vcpus));
    SetVcpusFrame(s, I32(plan.vcpus));
    if plan.corePerSocket.Known? {
      CoresRoundTrip(s.platform, plan.corePerSocket.value);
    }
  }

  /** updateVMCPUs. */
  method UpdateVmCpus(h: Hypervisor, plan: VmModel) returns (o: Outcome)
    requires h.Valid() && CoresNonZero(h.platform, plan)
    modifies h
    ensures h.Valid() && (o, h.State()) == UpdateCpusStep(old(h.State()), plan)
  {
    var originVcpusMax := h.GetVcpusMax();
    var platform := h.GetPlatform();
    var vcpus := I32(plan.vcpus);
    if vcpus < originVcpusMax {
      o := h.SetVcpusAtStartup(vcpus);
      if o.Fail? {
        return;
      }
      o := h.SetVcpusMax(vcpus);
      if o.Fail? {
        return;
      }
    } else {
      o := h.SetVcpusMax(vcpus);
      if o.Fail? {
        return;
      }
      o := h.SetVcpusAtStartup(vcpus);
      if o.Fail? {
        return;
      }
    }
    if plan.corePerSocket.Known? {
      var coresPerSocket := plan.corePerSocket.value;
      if vcpus % coresPerSocket != 0 {
        return Fail(Topology(vcpus, coresPerSocket));
      }
      platform := platform[CoresKey := Itoa(coresPerSocket)];
      h.SetPlatform(platform);
    } else {
      if CoresKey !in platform {
        return Fail(MissingCoresPerSocket);
      }
      var socket := Atoi(platform[CoresKey]);
      if socket.None? {
        return Fail(BadCoresPerSocket);
      }
      if vcpus % socket.value != 0 {
        return Fail(Topology(vcpus, socket.value));
      }
    }
  }
}
