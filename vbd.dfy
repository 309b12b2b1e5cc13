/** Hard drives of the VM resource: creating VBDs for the hard_drive
    elements and reconciling the planned elements with the ones in state
    (xenserver/vbd_utils.go).  Each operation is a pure function on the
    hypervisor snapshot (`...Step`, `...Run`) and a method on the
    `Hypervisor` proved equal to it. */
module Vbds {
  import opened Base
  import opened XenApi
  import opened Models
  import opened Keyed

  // ---------------------------------------------------------------------
  // createVBD

  /** The record createVBD asks for: an unknown bootable means false, an
      unknown mode means "RW". */
  function NewVbdRecord(vdiRef: string, v: VbdModel, device: string): VbdRecord {
    VbdRecord(vdiRef, Disk, if v.mode.Known? then v.mode.value else "RW",
              if v.bootable.Known? then v.bootable.value else false, false, device, false)
  }

  /** createVBD on a snapshot. */
  function CreateVbdStep(s: Vm, v: VbdModel): (r: (Outcome, Vm))
    ensures s.Valid() ==> r.1.Valid()
  {
    match s.VdiByUuid(VdiKey(v))
    case Err(e) => (Fail(e), s)
    case Ok(vdiRef) =>
      if |s.allowedVbdDevices| == 0 then (Fail(NoVbdDevice), s)
      else
        var created := s.VbdCreate(NewVbdRecord(vdiRef, v, s.allowedVbdDevices[0]));
        if created.0.Err? then (Fail(created.0.error), created.1)
        else if created.1.power == Running then created.1.VbdPlug(created.0.value)
        else (Pass, created.1)
  }

  /** createVBD succeeds exactly when the VDI exists and a slot is free; a
      failure changes nothing.  On success there is one new VBD, in the
      first free slot, under a reference never handed out before, plugged
      exactly when the VM is running, and nothing else about the VM
      changes. */
  lemma CreateVbdEffect(s: Vm, v: VbdModel)
    ensures var r := CreateVbdStep(s, v);
      && (r.0.Pass? <==> VdiKey(v) in s.vdis && |s.allowedVbdDevices| > 0)
      && (r.0.Fail? ==> r.1 == s)
      && (VdiKey(v) !in s.vdis ==> r.0 == Fail(UuidInvalid(VdiKey(v))))
      && (VdiKey(v) in s.vdis && |s.allowedVbdDevices| == 0 ==> r.0 == Fail(NoVbdDevice))
      && (r.0.Pass? ==>
            var ref := RefName(|s.log|);
            var rec := NewVbdRecord(s.vdis[VdiKey(v)], v, s.allowedVbdDevices[0]);
            && r.1.vbds == s.vbds[ref := rec.(attached := s.power == Running)]
            && r.1.log == s.log + [VbdCreated(ref, rec)] + (if s.power == Running then [VbdPlugged(ref)] else [])
            && r.1 == s.(vbds := r.1.vbds, log := r.1.log,
                         allowedVbdDevices := Without(s.allowedVbdDevices, s.allowedVbdDevices[0])))
  {
  }

  /** The type filter of getVBDsFromVMRecord: the VBDs of type Disk,
      which are the VM's hard drives; CD drives are left out. */
  function DiskVbds(vbds: map<string, VbdRecord>): map<string, VbdRecord> {
    map ref | ref in vbds && vbds[ref].vbdType == Disk :: vbds[ref]
  }

  /** After a successful createVBD the VM's hard drives are the ones it
      had plus the new VBD, which reads back with the element's mode and
      bootable flag (RW and false where the plan left them unknown). */
  lemma CreatedVbdReadBack(s: Vm, v: VbdModel)
    requires s.Valid() && CreateVbdStep(s, v).0.Pass?
    ensures var disks := DiskVbds(CreateVbdStep(s, v).1.vbds);
      var ref := RefName(|s.log|);
      && ref !in s.vbds
      && disks.Keys == DiskVbds(s.vbds).Keys + {ref}
      && disks[ref].mode == (if v.mode.Known? then v.mode.value else "RW")
      && disks[ref].bootable == (v.bootable.Known? && v.bootable.value)
      && !disks[ref].empty
      && disks[ref].userdevice == s.allowedVbdDevices[0]
  {
    CreateVbdEffect(s, v);
    var ref := RefName(|s.log|);
    assert RefName(|s.log|) !in s.vbds;
  }

  method CreateVbd(h: Hypervisor, v: VbdModel) returns (o: Outcome)
    requires h.Valid()
    modifies h
    ensures h.Valid() && (o, h.State()) == CreateVbdStep(old(h.State()), v)
  {
    var vdiRef := h.VdiGetByUuid(VdiKey(v));
    if vdiRef.Err? {
      return Fail(vdiRef.error);
    }
    var userDevices := h.GetAllowedVbdDevices();
    if |userDevices| == 0 {
      return Fail(NoVbdDevice);
    }
    var rec := NewVbdRecord(vdiRef.value, v, userDevices[0]);
    var vbdRef := h.VbdCreate(rec);
    if vbdRef.Err? {
      return Fail(vbdRef.error);
    }
    var power := h.GetPowerState();
    if power == Running {
      o := h.VbdPlug(vbdRef.value);
      if o.Fail? {
        return;
      }
    }
    o := Pass;
  }

  // ---------------------------------------------------------------------
  // createVBDs

  /** createVBDs on a snapshot: createVBD for each element in turn,
      stopping at the first error. */
  function CreateVbdsRun(s: Vm, vs: seq<VbdModel>): (r: (Outcome, Vm))
    ensures s.Valid() ==> r.1.Valid()
    decreases |vs|
  {
    if vs == [] then (Pass, s)
    else
      var r := CreateVbdsRun(s, vs[..|vs| - 1]);
      if r.0.Fail? then r else CreateVbdStep(r.1, vs[|vs| - 1])
  }

  method CreateVbds(h: Hypervisor, data: VmModel) returns (o: Outcome)
    requires h.Valid()
    modifies h
    ensures h.Valid() && (o, h.State()) == CreateVbdsRun(old(h.State()), data.hardDrive)
  {
    ghost var s0 := h.State();
    var elements := data.hardDrive;
    var i := 0;
    while i < |elements|
      invariant 0 <= i <= |elements|
      invariant h.Valid() && (Pass, h.State()) == CreateVbdsRun(s0, elements[..i])
    {
      assert elements[..i + 1][..i] == elements[..i];
      o := CreateVbd(h, elements[i]);
      if o.Fail? {
        StopsAtFirstError(s0, elements, i + 1);
        return;
      }
      i := i + 1;
    }
    assert elements[..i] == elements;
    o := Pass;
  }

  /** Once createVBDs has failed on a prefix, the later elements are never
      attempted. */
  lemma {:induction false} StopsAtFirstError(s: Vm, vs: seq<VbdModel>, i: int)
    requires 0 <= i <= |vs|
    requires CreateVbdsRun(s, vs[..i]).0.Fail?
    ensures CreateVbdsRun(s, vs) == CreateVbdsRun(s, vs[..i])
    decreases |vs| - i
  {
    if i < |vs| {
      var front := vs[..|vs| - 1];
      assert front[..i] == vs[..i];
      StopsAtFirstError(s, front, i);
      var r := CreateVbdsRun(s, front);
      assert r.0.Fail?;
      assert CreateVbdsRun(s, vs) == r;
    } else {
      assert vs[..i] == vs;
    }
  }

  // ---------------------------------------------------------------------
  // updateVBDs

  /** A SetMode call is made for a disk in both plan and state. */
  predicate NeedsSetMode(p: VbdModel, st: VbdModel) {
    || (p.bootable.Unknown? && Str(p.mode) != "RW")
    || (p.bootable.Known? && p.mode != st.mode)
  }

  /** A SetBootable call is made for a disk in both plan and state. */
  predicate NeedsSetBootable(p: VbdModel, st: VbdModel) {
    || (p.bootable.Unknown? && Bool(st.bootable) != false)
    || (p.bootable.Known? && p.bootable != st.bootable)
  }

  /** The calls an update of a disk present in plan and state makes, all on
      the state's VBD reference. */
  function UpdateVbdCalls(p: VbdModel, st: VbdModel): seq<Call> {
    (if NeedsSetMode(p, st) then [VbdModeSet(Str(st.vbd), Str(p.mode))] else [])
    + (if NeedsSetBootable(p, st) then [VbdBootableSet(Str(st.vbd), Bool(p.bootable))] else [])
  }

  /** The update of one disk present in plan and state. */
  function UpdateVbdStep(s: Vm, p: VbdModel, st: VbdModel): (r: (Outcome, Vm))
    ensures s.Valid() ==> r.1.Valid()
  {
    var ref := Str(st.vbd);
    var r := if NeedsSetMode(p, st) then s.VbdSetMode(ref, Str(p.mode)) else (Pass, s);
    if r.0.Fail? then r
    else if NeedsSetBootable(p, st) then r.1.VbdSetBootable(ref, Bool(p.bootable))
    else r
  }

  /** Updating a disk whose VBD exists makes exactly the calls of
      UpdateVbdCalls and touches no other VBD; with a stale reference it
      fails, changing nothing, unless there is nothing to change. */
  lemma UpdateVbdEffect(s: Vm, p: VbdModel, st: VbdModel)
    ensures var r := UpdateVbdStep(s, p, st);
      && (Str(st.vbd) in s.vbds ==>
            && r.0.Pass? && r.1.log == s.log + UpdateVbdCalls(p, st)
            && r.1.vbds.Keys == s.vbds.Keys
            && (forall ref :: ref in s.vbds && ref != Str(st.vbd) ==> r.1.vbds[ref] == s.vbds[ref])
            && r.1 == s.(vbds := r.1.vbds, log := r.1.log))
      && (Str(st.vbd) !in s.vbds ==> r.1 == s && (r.0.Pass? <==> UpdateVbdCalls(p, st) == []))
  {
    var ref := Str(st.vbd);
    var r1 := if NeedsSetMode(p, st) then s.VbdSetMode(ref, Str(p.mode)) else (Pass, s);
    if ref in s.vbds {
      assert r1.0.Pass? && r1.1.vbds.Keys == s.vbds.Keys;
      assert r1.1.log == s.log + (if NeedsSetMode(p, st) then [VbdModeSet(ref, Str(p.mode))] else []);
    } else {
      assert r1.1 == s;
    }
  }

  lemma CreateVbdKeepsSettings(s: Vm, v: VbdModel)
    ensures SameSettings(s, CreateVbdStep(s, v).1)
  {
    CreateVbdEffect(s, v);
  }

  /** One pass of the first loop of updateVBDs, for the plan key k. */
  function PlanStep(s: Vm, k: string, pm: map<string, VbdModel>, sm: map<string, VbdModel>): (r: (Outcome, Vm))
    requires k in pm
    ensures s.Valid() ==> r.1.Valid()
  {
    if k !in sm then CreateVbdStep(s, pm[k]) else UpdateVbdStep(s, pm[k], sm[k])
  }

  /** The first loop of updateVBDs, over the plan keys in `order`. */
  function PlanPhase(s: Vm, order: seq<string>, pm: map<string, VbdModel>, sm: map<string, VbdModel>): (r: (Outcome, Vm))
    requires forall k :: k in order ==> k in pm
    ensures s.Valid() ==> r.1.Valid()
    decreases |order|
  {
    if order == [] then (Pass, s)
    else
      var r := PlanPhase(s, order[..|order| - 1], pm, sm);
      if r.0.Fail? then r else PlanStep(r.1, order[|order| - 1], pm, sm)
  }

  /** One pass of the second loop of updateVBDs, for the state key k. */
  function DestroyStep(s: Vm, k: string, pm: map<string, VbdModel>, sm: map<string, VbdModel>): (r: (Outcome, Vm))
    requires k in sm
    ensures s.Valid() ==> r.1.Valid()
  {
    if k in pm then (Pass, s) else s.VbdDestroy(Str(sm[k].vbd))
  }

  /** The second loop of updateVBDs, over the state keys in `order`. */
  function DestroyPhase(s: Vm, order: seq<string>, pm: map<string, VbdModel>, sm: map<string, VbdModel>): (r: (Outcome, Vm))
    requires forall k :: k in order ==> k in sm
    ensures s.Valid() ==> r.1.Valid()
    decreases |order|
  {
    if order == [] then (Pass, s)
    else
      var r := DestroyPhase(s, order[..|order| - 1], pm, sm);
      if r.0.Fail? then r else DestroyStep(r.1, order[|order| - 1], pm, sm)
  }

  /** updateVBDs on a snapshot, for one iteration order of each of the two
      Go maps it walks. */
  function UpdateVbdsRun(s: Vm, plan: seq<VbdModel>, state: seq<VbdModel>,
                         planOrder: seq<string>, stateOrder: seq<string>): (r: (Outcome, Vm))
    requires IsOrdering(planOrder, Index(plan, VdiKey).Keys)
    requires IsOrdering(stateOrder, Index(state, VdiKey).Keys)
    ensures s.Valid() ==> r.1.Valid()
  {
    var pm := Index(plan, VdiKey);
    var sm := Index(state, VdiKey);
    var r := PlanPhase(s, planOrder, pm, sm);
    if r.0.Fail? then r else DestroyPhase(r.1, stateOrder, pm, sm)
  }

  /** One more pass of the loop extends the run by one step. */
  lemma PlanPhaseNext(s: Vm, order: seq<string>, i: int, pm: map<string, VbdModel>, sm: map<string, VbdModel>)
    requires 0 <= i < |order| && forall x :: x in order ==> x in pm
    requires PlanPhase(s, order[..i], pm, sm).0.Pass?
    ensures PlanPhase(s, order[..i + 1], pm, sm) == PlanStep(PlanPhase(s, order[..i], pm, sm).1, order[i], pm, sm)
  {
    assert order[..i + 1][..i] == order[..i];
  }

  /** A pass that fails ends the run: the later keys are never visited. */
  lemma PlanPhaseFailsAt(s: Vm, order: seq<string>, i: int, pm: map<string, VbdModel>, sm: map<string, VbdModel>)
    requires 0 <= i < |order| && forall x :: x in order ==> x in pm
    requires PlanPhase(s, order[..i + 1], pm, sm).0.Fail?
    ensures PlanPhase(s, order, pm, sm) == PlanPhase(s, order[..i + 1], pm, sm)
  {
    PlanPhaseStops(s, order[..i + 1], order[i + 1..], pm, sm);
    assert order[..i + 1] + order[i + 1..] == order;
  }


  /** One more pass of the loop extends the run by one step. */
  lemma DestroyPhaseNext(s: Vm, order: seq<string>, i: int, pm: map<string, VbdModel>, sm: map<string, VbdModel>)
    requires 0 <= i < |order| && forall x :: x in order ==> x in sm
    requires DestroyPhase(s, order[..i], pm, sm).0.Pass?
    ensures DestroyPhase(s, order[..i + 1], pm, sm) == DestroyStep(DestroyPhase(s, order[..i], pm, sm).1, order[i], pm, sm)
  {
    assert order[..i + 1][..i] == order[..i];
  }

  /** A pass that fails ends the run: the later keys are never visited. */
  lemma DestroyPhaseFailsAt(s: Vm, order: seq<string>, i: int, pm: map<string, VbdModel>, sm: map<string, VbdModel>)
    requires 0 <= i < |order| && forall x :: x in order ==> x in sm
    requires DestroyPhase(s, order[..i + 1], pm, sm).0.Fail?
    ensures DestroyPhase(s, order, pm, sm) == DestroyPhase(s, order[..i + 1], pm, sm)
  {
    DestroyPhaseStops(s, order[..i + 1], order[i + 1..], pm, sm);
    assert order[..i + 1] + order[i + 1..] == order;
  }


  lemma {:induction false} PlanPhaseStops(s: Vm, a: seq<string>, b: seq<string>, pm: map<string, VbdModel>, sm: map<string, VbdModel>)
    requires forall k :: k in a + b ==> k in pm
    requires PlanPhase(s, a, pm, sm).0.Fail?
    ensures PlanPhase(s, a + b, pm, sm) == PlanPhase(s, a, pm, sm)
    decreases |b|
  {
    if b != [] {
      var front := b[..|b| - 1];
      assert (a + b)[..|a + b| - 1] == a + front;
      PlanPhaseStops(s, a, front, pm, sm);
      var r := PlanPhase(s, a + front, pm, sm);
      assert r.0.Fail?;
      assert PlanPhase(s, a + b, pm, sm) == r;
    } else {
      assert a + b == a;
    }
  }

  lemma {:induction false} DestroyPhaseStops(s: Vm, a: seq<string>, b: seq<string>, pm: map<string, VbdModel>, sm: map<string, VbdModel>)
    requires forall k :: k in a + b ==> k in sm
    requires DestroyPhase(s, a, pm, sm).0.Fail?
    ensures DestroyPhase(s, a + b, pm, sm) == DestroyPhase(s, a, pm, sm)
    decreases |b|
  {
    if b != [] {
      var front := b[..|b| - 1];
      assert (a + b)[..|a + b| - 1] == a + front;
      DestroyPhaseStops(s, a, front, pm, sm);
      var r := DestroyPhase(s, a + front, pm, sm);
      assert r.0.Fail?;
      assert DestroyPhase(s, a + b, pm, sm) == r;
    } else {
      assert a + b == a;
    }
  }

  method IndexByVdi(vbds: seq<VbdModel>) returns (m: map<string, VbdModel>)
    ensures m == Index(vbds, VdiKey)
  {
    m := map[];
    var i := 0;
    while i < |vbds|
      invariant 0 <= i <= |vbds|
      invariant m == Index(vbds[..i], VdiKey)
    {
      assert vbds[..i + 1][..i] == vbds[..i];
      m := m[VdiKey(vbds[i]) := vbds[i]];
      i := i + 1;
    }
    assert vbds[..i] == vbds;
  }

  /** The body of the first loop of updateVBDs: create the disk if state
      does not have it, otherwise update its mode and bootable flag. */
  method PlanVbd(h: Hypervisor, vdiUuid: string, planVdisMap: map<string, VbdModel>, stateVdisMap: map<string, VbdModel>)
    returns (err: Outcome)
    requires h.Valid() && vdiUuid in planVdisMap
    modifies h
    ensures h.Valid() && (err, h.State()) == PlanStep(old(h.State()), vdiUuid, planVdisMap, stateVdisMap)
  {
    var planVbd := planVdisMap[vdiUuid];
    if vdiUuid !in stateVdisMap {
      err := CreateVbd(h, planVbd);
      return;
    }
    var stateVbd := stateVdisMap[vdiUuid];
    var ref := Str(stateVbd.vbd);
    err := Pass;
    if NeedsSetMode(planVbd, stateVbd) {
      err := h.VbdSetMode(ref, Str(planVbd.mode));
    }
    if err.Pass? && NeedsSetBootable(planVbd, stateVbd) {
      err := h.VbdSetBootable(ref, Bool(planVbd.bootable));
    }
  }

  /** The first loop of updateVBDs: create the disks that state does not
      have, update the ones it has. */
  method PlanVbds(h: Hypervisor, planVdisMap: map<string, VbdModel>, stateVdisMap: map<string, VbdModel>)
    returns (o: Outcome, planOrder: seq<string>)
    requires h.Valid()
    modifies h
    ensures IsOrdering(planOrder, planVdisMap.Keys)
    ensures h.Valid() && (o, h.State()) == PlanPhase(old(h.State()), planOrder, planVdisMap, stateVdisMap)
  {
    ghost var s0 := h.State();
    planOrder := RangeOrder(planVdisMap);
    var i := 0;
    while i < |planOrder|
      invariant 0 <= i <= |planOrder|
      invariant h.Valid() && (Pass, h.State()) == PlanPhase(s0, planOrder[..i], planVdisMap, stateVdisMap)
    {
      PlanPhaseNext(s0, planOrder, i, planVdisMap, stateVdisMap);
      var err := PlanVbd(h, planOrder[i], planVdisMap, stateVdisMap);
      if err.Fail? {
        PlanPhaseFailsAt(s0, planOrder, i, planVdisMap, stateVdisMap);
        return err, planOrder;
      }
      i := i + 1;
    }
    assert planOrder[..i] == planOrder;
    o := Pass;
  }

  /** The body of the second loop of updateVBDs: destroy the disk if the
      plan no longer has it. */
  method DestroyVbd(h: Hypervisor, vdiUuid: string, planVdisMap: map<string, VbdModel>, stateVdisMap: map<string, VbdModel>)
    returns (err: Outcome)
    requires h.Valid() && vdiUuid in stateVdisMap
    modifies h
    ensures h.Valid() && (err, h.State()) == DestroyStep(old(h.State()), vdiUuid, planVdisMap, stateVdisMap)
  {
    err := Pass;
    if vdiUuid !in planVdisMap {
      err := h.VbdDestroy(Str(stateVdisMap[vdiUuid].vbd));
    }
  }

  /** The second loop of updateVBDs: destroy the disks the plan no longer
      has. */
  method DestroyVbds(h: Hypervisor, planVdisMap: map<string, VbdModel>, stateVdisMap: map<string, VbdModel>)
    returns (o: Outcome, stateOrder: seq<string>)
    requires h.Valid()
    modifies h
    ensures IsOrdering(stateOrder, stateVdisMap.Keys)
    ensures h.Valid() && (o, h.State()) == DestroyPhase(old(h.State()), stateOrder, planVdisMap, stateVdisMap)
  {
    ghost var s0 := h.State();
    stateOrder := RangeOrder(stateVdisMap);
    var i := 0;
    while i < |stateOrder|
      invariant 0 <= i <= |stateOrder|
      invariant h.Valid() && (Pass, h.State()) == DestroyPhase(s0, stateOrder[..i], planVdisMap, stateVdisMap)
    {
      DestroyPhaseNext(s0, stateOrder, i, planVdisMap, stateVdisMap);
      var err := DestroyVbd(h, stateOrder[i], planVdisMap, stateVdisMap);
      if err.Fail? {
        DestroyPhaseFailsAt(s0, stateOrder, i, planVdisMap, stateVdisMap);
        return err, stateOrder;
      }
      i := i + 1;
    }
    assert stateOrder[..i] == stateOrder;
    o := Pass;
  }

  method UpdateVbds(h: Hypervisor, plan: VmModel, state: VmModel)
    returns (o: Outcome, ghost planOrder: seq<string>, ghost stateOrder: seq<string>)
    requires h.Valid()
    modifies h
    ensures IsOrdering(planOrder, Index(plan.hardDrive, VdiKey).Keys)
    ensures IsOrdering(stateOrder, Index(state.hardDrive, VdiKey).Keys)
    ensures h.Valid() && (o, h.State()) == UpdateVbdsRun(old(h.State()), plan.hardDrive, state.hardDrive, planOrder, stateOrder)
  {
    var planVdisMap := IndexByVdi(plan.hardDrive);
    var stateVdisMap := IndexByVdi(state.hardDrive);
    o, planOrder := PlanVbds(h, planVdisMap, stateVdisMap);
    if o.Fail? {
      // the second loop never runs; any order of the state keys will do
      stateOrder := SomeOrder(stateVdisMap.Keys);
      return;
    }
    o, stateOrder := DestroyVbds(h, planVdisMap, stateVdisMap);
  }

  // ---------------------------------------------------------------------
  // Properties

  /** The VDI references of the VBDs a sequence of calls creates, in order. */
  function CreatedVdis(calls: seq<Call>): seq<string> {
    if calls == [] then []
    else if calls[|calls| - 1].VbdCreated? then CreatedVdis(calls[..|calls| - 1]) + [calls[|calls| - 1].vbd.vdi]
    else CreatedVdis(calls[..|calls| - 1])
  }

  /** Every call acts on a VBD, and none destroys one. */
  predicate NoDestroys(calls: seq<Call>) {
    forall i :: 0 <= i < |calls| ==> IsVbdCall(calls[i]) && !calls[i].VbdDestroyed?
  }

  /** Every call destroys a VBD. */
  predicate OnlyDestroys(calls: seq<Call>) {
    forall i :: 0 <= i < |calls| ==> calls[i].VbdDestroyed?
  }

  lemma {:induction false} CreatedVdisAppend(a: seq<Call>, b: seq<Call>)
    ensures CreatedVdis(a + b) == CreatedVdis(a) + CreatedVdis(b)
    decreases |b|
  {
    if b == [] {
      assert a + b == a;
    } else {
      var front := b[..|b| - 1];
      assert (a + b)[..|a + b| - 1] == a + front;
      CreatedVdisAppend(a, front);
      if !b[|b| - 1].VbdCreated? {
        assert CreatedVdis(a + b) == CreatedVdis(a) + CreatedVdis(front);
      }
    }
  }

  /** Appending the calls of one more key to a run whose creations so far
      are the VDIs of `keys`. */
  lemma CreatedExtend(m: map<string, string>, keys: seq<string>, k: string, skip: bool, d0: seq<Call>, d1: seq<Call>)
    requires CreatedVdis(d0) == Lookup(m, keys)
    requires CreatedVdis(d1) == if skip then [] else [Get(m, k)]
    ensures CreatedVdis(d0 + d1) == Lookup(m, if skip then keys else keys + [k])
  {
    CreatedVdisAppend(d0, d1);
    if skip {
      assert CreatedVdis(d0) + [] == CreatedVdis(d0);
    } else {
      LookupSnoc(m, keys, k);
    }
  }

  lemma NoDestroysAppend(a: seq<Call>, b: seq<Call>)
    requires NoDestroys(a) && NoDestroys(b)
    ensures NoDestroys(a + b)
  {
    assert forall i :: |a| <= i < |a + b| ==> (a + b)[i] == b[i - |a|];
  }

  lemma {:induction false} NoCreations(calls: seq<Call>)
    requires forall c :: c in calls ==> !c.VbdCreated?
    ensures CreatedVdis(calls) == []
    decreases |calls|
  {
    if calls != [] {
      NoCreations(calls[..|calls| - 1]);
    }
  }

  /** A successful createVBD adds calls that create exactly one VBD, for
      the element's VDI, and destroy nothing. */
  lemma CreateVbdCreatesOne(s: Vm, v: VbdModel) returns (d: seq<Call>)
    requires CreateVbdStep(s, v).0.Pass?
    ensures CreateVbdStep(s, v).1.log == s.log + d
    ensures NoDestroys(d) && CreatedVdis(d) == [Get(s.vdis, VdiKey(v))]
  {
    CreateVbdEffect(s, v);
    var ref := RefName(|s.log|);
    var rec := NewVbdRecord(s.vdis[VdiKey(v)], v, s.allowedVbdDevices[0]);
    d := [VbdCreated(ref, rec)] + (if s.power == Running then [VbdPlugged(ref)] else []);
    assert CreatedVdis([VbdCreated(ref, rec)]) == [rec.vdi];
    if s.power == Running {
      assert d[..1] == [VbdCreated(ref, rec)];
    }
  }

  /** createVBDs keeps the log it found, destroys nothing, and when it
      succeeds has created one VBD per element, in element order, each for
      its element's VDI. */
  lemma {:induction false} CreateVbdsInOrder(s: Vm, vs: seq<VbdModel>) returns (d: seq<Call>)
    ensures SameSettings(s, CreateVbdsRun(s, vs).1)
    ensures CreateVbdsRun(s, vs).1.log == s.log + d && NoDestroys(d)
    ensures CreateVbdsRun(s, vs).0.Pass? ==> CreatedVdis(d) == Lookup(s.vdis, KeysOf(vs, VdiKey))
    decreases |vs|
  {
    if vs == [] {
      return [];
    }
    var front := vs[..|vs| - 1];
    var v := vs[|vs| - 1];
    var d0 := CreateVbdsInOrder(s, front);
    var r0 := CreateVbdsRun(s, front);
    if r0.0.Fail? {
      return d0;
    }
    var r := CreateVbdStep(r0.1, v);
    assert CreateVbdsRun(s, vs) == r;
    CreateVbdEffect(r0.1, v);
    if r.0.Fail? {
      return d0;
    }
    var d1 := CreateVbdCreatesOne(r0.1, v);
    d := d0 + d1;
    AppendAssoc(s.log, d0, d1);
    NoDestroysAppend(d0, d1);
    CreatedExtend(s.vdis, KeysOf(front, VdiKey), VdiKey(v), false, d0, d1);
  }

  /** When createVBDs fails, it is on some element n: the elements before
      it were all created, element n's failure changed nothing, and no
      later element was attempted. */
  lemma {:induction false} CreateVbdsFailsAt(s: Vm, vs: seq<VbdModel>) returns (n: int)
    requires CreateVbdsRun(s, vs).0.Fail?
    ensures 0 <= n < |vs| && CreateVbdsRun(s, vs[..n]).0.Pass?
    ensures CreateVbdStep(CreateVbdsRun(s, vs[..n]).1, vs[n]).0.Fail?
    ensures CreateVbdsRun(s, vs).1 == CreateVbdsRun(s, vs[..n]).1
    decreases |vs|
  {
    var front := vs[..|vs| - 1];
    var r0 := CreateVbdsRun(s, front);
    if r0.0.Fail? {
      n := CreateVbdsFailsAt(s, front);
      assert front[..n] == vs[..n] && front[n] == vs[n];
      assert CreateVbdsRun(s, vs) == r0;
    } else {
      n := |vs| - 1;
      assert vs[..n] == front;
      CreateVbdEffect(r0.1, vs[n]);
      assert CreateVbdsRun(s, vs) == CreateVbdStep(r0.1, vs[n]);
    }
  }

  /** Updating a disk present in plan and state creates and destroys
      nothing. */
  lemma UpdateVbdCreatesNothing(s: Vm, p: VbdModel, st: VbdModel) returns (d: seq<Call>)
    ensures UpdateVbdStep(s, p, st).1 == s.(vbds := UpdateVbdStep(s, p, st).1.vbds, log := s.log + d)
    ensures NoDestroys(d) && CreatedVdis(d) == []
  {
    UpdateVbdEffect(s, p, st);
    if Str(st.vbd) in s.vbds {
      d := UpdateVbdCalls(p, st);
    } else {
      d := [];
    }
    NoCreations(d);
  }

  /** One pass of the first loop of updateVBDs destroys nothing, and when
      it succeeds it has created a VBD for the key's VDI exactly when state
      lacks the key. */
  lemma PlanStepEffect(s: Vm, k: string, pm: map<string, VbdModel>, sm: map<string, VbdModel>) returns (d: seq<Call>)
    requires k in pm && VdiKey(pm[k]) == k
    ensures SameSettings(s, PlanStep(s, k, pm, sm).1)
    ensures PlanStep(s, k, pm, sm).1.log == s.log + d && NoDestroys(d)
    ensures PlanStep(s, k, pm, sm).0.Pass? ==> CreatedVdis(d) == if k in sm then [] else [Get(s.vdis, k)]
  {
    if k !in sm {
      assert PlanStep(s, k, pm, sm) == CreateVbdStep(s, pm[k]);
      CreateVbdKeepsSettings(s, pm[k]);
      if CreateVbdStep(s, pm[k]).0.Pass? {
        d := CreateVbdCreatesOne(s, pm[k]);
      } else {
        CreateVbdEffect(s, pm[k]);
        d := [];
      }
    } else {
      assert PlanStep(s, k, pm, sm) == UpdateVbdStep(s, pm[k], sm[k]);
      d := UpdateVbdCreatesNothing(s, pm[k], sm[k]);
    }
  }


  /** The first loop of updateVBDs destroys nothing; when it succeeds it
      has created one VBD per plan key missing from state, in the order
      visited, each for that key's VDI. */
  lemma {:induction false} PlanPhaseEffect(s: Vm, order: seq<string>, pm: map<string, VbdModel>, sm: map<string, VbdModel>)
    returns (d: seq<Call>)
    requires forall k :: k in order ==> k in pm
    requires forall k :: k in pm ==> VdiKey(pm[k]) == k
    ensures SameSettings(s, PlanPhase(s, order, pm, sm).1)
    ensures PlanPhase(s, order, pm, sm).1.log == s.log + d && NoDestroys(d)
    ensures PlanPhase(s, order, pm, sm).0.Pass? ==> CreatedVdis(d) == Lookup(s.vdis, Unmatched(order, sm))
    decreases |order|
  {
    if order == [] {
      d := [];
    } else {
      var front := order[..|order| - 1];
      var k := order[|order| - 1];
      var d0 := PlanPhaseEffect(s, front, pm, sm);
      var r0 := PlanPhase(s, front, pm, sm);
      if r0.0.Fail? {
        d := d0;
      } else {
        assert PlanPhase(s, order, pm, sm) == PlanStep(r0.1, k, pm, sm);
        var d1 := PlanStepEffect(r0.1, k, pm, sm);
        d := d0 + d1;
        AppendAssoc(s.log, d0, d1);
        NoDestroysAppend(d0, d1);
        if PlanStep(r0.1, k, pm, sm).0.Pass? {
          CreatedExtend(s.vdis, Unmatched(front, sm), k, k in sm, d0, d1);
        }
      }
    }
  }

  /** The Destroy calls of the second loop of updateVBDs, one per key, on
      that key's VBD in state. */
  function DestroyCalls(keys: seq<string>, sm: map<string, VbdModel>): seq<Call>
    requires forall k :: k in keys ==> k in sm
  {
    if keys == [] then []
    else DestroyCalls(keys[..|keys| - 1], sm) + [VbdDestroyed(Str(sm[keys[|keys| - 1]].vbd))]
  }

  /** The second loop of updateVBDs only destroys; when it succeeds it has
      destroyed, in the order visited, the VBD of every state key the plan
      lacks, and nothing else. */
  lemma {:induction false} DestroyPhaseEffect(s: Vm, order: seq<string>, pm: map<string, VbdModel>, sm: map<string, VbdModel>)
    returns (d: seq<Call>)
    requires forall k :: k in order ==> k in sm
    ensures SameSettings(s, DestroyPhase(s, order, pm, sm).1)
    ensures DestroyPhase(s, order, pm, sm).1.log == s.log + d && OnlyDestroys(d)
    ensures DestroyPhase(s, order, pm, sm).0.Pass? ==> d == DestroyCalls(Unmatched(order, pm), sm)
    decreases |order|
  {
    if order == [] {
      return [];
    }
    var front := order[..|order| - 1];
    var k := order[|order| - 1];
    var d0 := DestroyPhaseEffect(s, front, pm, sm);
    var r0 := DestroyPhase(s, front, pm, sm);
    if r0.0.Fail? {
      return d0;
    }
    var r := DestroyStep(r0.1, k, pm, sm);
    assert DestroyPhase(s, order, pm, sm) == r;
    DestroyStepEffect(r0.1, k, pm, sm);
    if k in pm || r.0.Fail? {
      assert Unmatched(order, pm) == Unmatched(front, pm) || r.0.Fail?;
      return d0;
    }
    d := d0 + [VbdDestroyed(Str(sm[k].vbd))];
    assert Unmatched(order, pm) == Unmatched(front, pm) + [k];
  }

  /** One pass of the second loop keeps the settings, and either leaves the
      log alone or appends the Destroy of the key's VBD. */
  lemma DestroyStepEffect(s: Vm, k: string, pm: map<string, VbdModel>, sm: map<string, VbdModel>)
    requires k in sm
    ensures var r := DestroyStep(s, k, pm, sm);
      && SameSettings(s, r.1)
      && (k in pm || r.0.Fail? ==> r.1.log == s.log)
      && (k !in pm && r.0.Pass? ==> r.1.log == s.log + [VbdDestroyed(Str(sm[k].vbd))])
  {
  }


  /** updateVBDs makes all its create and update calls before its first
      Destroy: the log grows by calls d1 that destroy nothing, then by
      Destroy calls d2.  When it succeeds it has created one VBD for each
      plan-only VDI and destroyed the state's VBD of each state-only VDI,
      each exactly once, whatever the order in which it visited the two
      maps. */
  lemma UpdateVbdsEffect(s: Vm, plan: seq<VbdModel>, state: seq<VbdModel>, planOrder: seq<string>, stateOrder: seq<string>)
    returns (d1: seq<Call>, d2: seq<Call>)
    requires IsOrdering(planOrder, Index(plan, VdiKey).Keys)
    requires IsOrdering(stateOrder, Index(state, VdiKey).Keys)
    ensures SameSettings(s, UpdateVbdsRun(s, plan, state, planOrder, stateOrder).1)
    ensures UpdateVbdsRun(s, plan, state, planOrder, stateOrder).1.log == s.log + d1 + d2
    ensures NoDestroys(d1) && OnlyDestroys(d2)
    ensures UpdateVbdsRun(s, plan, state, planOrder, stateOrder).0.Pass? ==>
      var pm := Index(plan, VdiKey);
      var sm := Index(state, VdiKey);
      && IsOrdering(Unmatched(planOrder, sm), pm.Keys - sm.Keys)
      && CreatedVdis(d1) == Lookup(s.vdis, Unmatched(planOrder, sm))
      && IsOrdering(Unmatched(stateOrder, pm), sm.Keys - pm.Keys)
      && d2 == DestroyCalls(Unmatched(stateOrder, pm), sm)
  {
    var pm := Index(plan, VdiKey);
    var sm := Index(state, VdiKey);
    d1 := PlanPhaseEffect(s, planOrder, pm, sm);
    var m := PlanPhase(s, planOrder, pm, sm);
    if m.0.Fail? {
      d2 := [];
      assert s.log + d1 + d2 == s.log + d1;
      return;
    }
    d2 := DestroyPhaseEffect(m.1, stateOrder, pm, sm);
    UnmatchedOrdering(planOrder, pm.Keys, sm);
    UnmatchedOrdering(stateOrder, sm.Keys, pm);
  }

  /** A disk whose plan entry has a known bootable flag and equals its state
      entry needs no call. */
  lemma {:induction false} PlanPhaseNoChange(s: Vm, order: seq<string>, pm: map<string, VbdModel>)
    requires forall k :: k in order ==> k in pm
    requires forall k :: k in pm ==> pm[k].bootable.Known?
    ensures PlanPhase(s, order, pm, pm) == (Pass, s)
    decreases |order|
  {
    if order != [] {
      PlanPhaseNoChange(s, order[..|order| - 1], pm);
    }
  }

  lemma {:induction false} DestroyPhaseNoChange(s: Vm, order: seq<string>, pm: map<string, VbdModel>)
    requires forall k :: k in order ==> k in pm
    ensures DestroyPhase(s, order, pm, pm) == (Pass, s)
    decreases |order|
  {
    if order != [] {
      DestroyPhaseNoChange(s, order[..|order| - 1], pm);
    }
  }

  /** Idempotence: when plan and state hold the same disks, each with a
      known bootable flag, updateVBDs makes no call at all. */
  lemma UpdateVbdsIdempotent(s: Vm, plan: seq<VbdModel>, state: seq<VbdModel>, planOrder: seq<string>, stateOrder: seq<string>)
    requires IsOrdering(planOrder, Index(plan, VdiKey).Keys)
    requires IsOrdering(stateOrder, Index(state, VdiKey).Keys)
    requires Index(plan, VdiKey) == Index(state, VdiKey)
    requires forall v :: v in plan ==> v.bootable.Known?
    ensures UpdateVbdsRun(s, plan, state, planOrder, stateOrder) == (Pass, s)
  {
    var pm := Index(plan, VdiKey);
    PlanPhaseNoChange(s, planOrder, pm);
    DestroyPhaseNoChange(s, stateOrder, pm);
  }

  /** SetMode is sent, with the plan's mode string, exactly when the plan's
      bootable flag is unknown and its mode string is not "RW", or the
      bootable flag is known and the mode differs from the state's. */
  lemma SetModeRule(p: VbdModel, st: VbdModel, m: string)
    ensures VbdModeSet(Str(st.vbd), m) in UpdateVbdCalls(p, st) <==>
      && m == Str(p.mode)
      && ((p.bootable.Unknown? && Str(p.mode) != "RW") || (p.bootable.Known? && p.mode != st.mode))
  {
  }

  /** SetBootable is sent exactly when the plan's flag is unknown and the
      state's is true, writing false, or the plan's flag is known and
      differs from the state's, writing the plan's value. */
  lemma SetBootableRule(p: VbdModel, st: VbdModel, b: bool)
    ensures VbdBootableSet(Str(st.vbd), b) in UpdateVbdCalls(p, st) <==>
      || (p.bootable.Unknown? && Bool(st.bootable) && !b)
      || (p.bootable.Known? && p.bootable != st.bootable && b == p.bootable.value)
  {
  }

  /** With both the plan's bootable flag and its mode unknown, the mode
      rule fires and sends the empty string as the new mode. */
  lemma UnknownModeSendsEmpty(p: VbdModel, st: VbdModel)
    requires p.bootable.Unknown? && p.mode.Unknown?
    ensures UpdateVbdCalls(p, st)[0] == VbdModeSet(Str(st.vbd), "")
  {
  }
}
