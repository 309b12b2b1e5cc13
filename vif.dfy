/** Network interfaces of the VM resource: creating VIFs for the
    network_interface elements and reconciling the planned elements with
    the ones in state (xenserver/vif_utils.go).  The provider's MTU check,
    whose body is not part of this model, is given as the set
    `acceptedMtus` of the values it lets through. */
module Vifs {
  import opened Base
  import opened XenApi
  import opened Models
  import opened Keyed

  // ---------------------------------------------------------------------
  // createVIF

  /** The record createVIF asks for.  A known, non-empty MAC is used and
      marked as autogenerated; otherwise the MAC is left empty.  The MTU is
      always 1500, whatever the plan says. */
  function NewVifRecord(netRef: string, v: VifModel, device: string): VifRecord {
    var userMac := v.mac.Known? && v.mac.value != "";
    VifRecord(netRef, if userMac then v.mac.value else "", 1500, StrMap(v.otherConfig),
              device, "network_default", userMac, false)
  }

  /** createVIF on a snapshot. */
  function CreateVifStep(s: Vm, v: VifModel, acceptedMtus: set<int>): (r: (Outcome, Vm))
    ensures s.Valid() ==> r.1.Valid()
  {
    match s.NetworkByUuid(NetworkKey(v))
    case Err(e) => (Fail(e), s)
    case Ok(netRef) =>
      if |s.allowedVifDevices| == 0 then (Fail(NoVifDevice), s)
      else if v.mtu.Known? && v.mtu.value !in acceptedMtus then (Fail(InvalidMtu(v.mtu.value)), s)
      else
        var created := s.VifCreate(NewVifRecord(netRef, v, s.allowedVifDevices[0]));
        if created.0.Err? then (Fail(created.0.error), created.1)
        else if created.1.power == Running then created.1.VifPlug(created.0.value)
        else (Pass, created.1)
  }

  /** createVIF succeeds exactly when the network exists, a slot is free
      and a known MTU passes the check; a failure changes nothing.  On
      success there is one new VIF, under a reference never handed out
      before, plugged exactly when the VM is running, and nothing else
      about the VM changes. */
  lemma CreateVifEffect(s: Vm, v: VifModel, acceptedMtus: set<int>)
    ensures var r := CreateVifStep(s, v, acceptedMtus);
      && (r.0.Pass? <==> NetworkKey(v) in s.networks && |s.allowedVifDevices| > 0 && (v.mtu.Known? ==> v.mtu.value in acceptedMtus))
      && (r.0.Fail? ==> r.1 == s)
      && (NetworkKey(v) !in s.networks ==> r.0 == Fail(UuidInvalid(NetworkKey(v))))
      && (NetworkKey(v) in s.networks && |s.allowedVifDevices| == 0 ==> r.0 == Fail(NoVifDevice))
      && (NetworkKey(v) in s.networks && |s.allowedVifDevices| > 0 && v.mtu.Known? && v.mtu.value !in acceptedMtus ==>
            r.0 == Fail(InvalidMtu(v.mtu.value)))
      && (r.0.Pass? ==>
            var ref := RefName(|s.log|);
            var rec := NewVifRecord(s.networks[NetworkKey(v)], v, s.allowedVifDevices[0]);
            && r.1.vifs == s.vifs[ref := rec.(attached := s.power == Running)]
            && r.1.log == s.log + [VifCreated(ref, rec)] + (if s.power == Running then [VifPlugged(ref)] else [])
            && r.1 == s.(vifs := r.1.vifs, log := r.1.log,
                         allowedVifDevices := Without(s.allowedVifDevices, s.allowedVifDevices[0])))
  {
  }

  /** The VIF a successful createVIF adds: on the element's network, in
      the first free slot, with MTU 1500 whatever the plan says, with the
      plan's MAC and the autogenerated flag set exactly when a non-empty
      MAC is known (an empty MAC and a cleared flag otherwise), with the
      plan's other_config, and attached exactly when the VM runs. */
  lemma CreatedVif(s: Vm, v: VifModel, acceptedMtus: set<int>)
    requires CreateVifStep(s, v, acceptedMtus).0.Pass?
    ensures var vifs := CreateVifStep(s, v, acceptedMtus).1.vifs;
      && RefName(|s.log|) in vifs
      && var rec := vifs[RefName(|s.log|)];
      && rec.network == s.networks[NetworkKey(v)]
      && rec.device == s.allowedVifDevices[0]
      && rec.mtu == 1500
      && (rec.macAutogenerated <==> v.mac.Known? && v.mac.value != "")
      && rec.mac == (if rec.macAutogenerated then v.mac.value else "")
      && rec.otherConfig == StrMap(v.otherConfig)
      && rec.lockingMode == "network_default"
      && (rec.attached <==> s.power == Running)
  {
    CreateVifEffect(s, v, acceptedMtus);
  }

  method CreateVif(h: Hypervisor, v: VifModel, acceptedMtus: set<int>) returns (o: Outcome)
    requires h.Valid()
    modifies h
    ensures h.Valid() && (o, h.State()) == CreateVifStep(old(h.State()), v, acceptedMtus)
  {
    var networkRef := h.NetworkGetByUuid(NetworkKey(v));
    if networkRef.Err? {
      return Fail(networkRef.error);
    }
    var userDevices := h.GetAllowedVifDevices();
    if |userDevices| == 0 {
      return Fail(NoVifDevice);
    }
    if v.mtu.Known? && v.mtu.value !in acceptedMtus {
      return Fail(InvalidMtu(v.mtu.value));
    }
    var rec := NewVifRecord(networkRef.value, v, userDevices[0]);
    var vifRef := h.VifCreate(rec);
    if vifRef.Err? {
      return Fail(vifRef.error);
    }
    var power := h.GetPowerState();
    if power == Running {
      o := h.VifPlug(vifRef.value);
      if o.Fail? {
        return;
      }
    }
    o := Pass;
  }

  // ---------------------------------------------------------------------
  // createVIFs

  /** createVIFs on a snapshot: createVIF for each element in turn,
      stopping at the first error. */
  function CreateVifsRun(s: Vm, vs: seq<VifModel>, acceptedMtus: set<int>): (r: (Outcome, Vm))
    ensures s.Valid() ==> r.1.Valid()
    decreases |vs|
  {
    if vs == [] then (Pass, s)
    else
      var r := CreateVifsRun(s, vs[..|vs| - 1], acceptedMtus);
      if r.0.Fail? then r else CreateVifStep(r.1, vs[|vs| - 1], acceptedMtus)
  }

  method CreateVifs(h: Hypervisor, data: VmModel, acceptedMtus: set<int>) returns (o: Outcome)
    requires h.Valid()
    modifies h
    ensures h.Valid() && (o, h.State()) == CreateVifsRun(old(h.State()), data.networkInterface, acceptedMtus)
  {
    ghost var s0 := h.State();
    var elements := data.networkInterface;
    var i := 0;
    while i < |elements|
      invariant 0 <= i <= |elements|
      invariant h.Valid() && (Pass, h.State()) == CreateVifsRun(s0, elements[..i], acceptedMtus)
    {
      assert elements[..i + 1][..i] == elements[..i];
      o := CreateVif(h, elements[i], acceptedMtus);
      if o.Fail? {
        StopsAtFirstError(s0, elements, i + 1, acceptedMtus);
        return;
      }
      i := i + 1;
    }
    assert elements[..i] == elements;
    o := Pass;
  }

  /** Once createVIFs has failed on a prefix, the later elements are never
      attempted. */
  lemma {:induction false} StopsAtFirstError(s: Vm, vs: seq<VifModel>, i: int, acceptedMtus: set<int>)
    requires 0 <= i <= |vs|
    requires CreateVifsRun(s, vs[..i], acceptedMtus).0.Fail?
    ensures CreateVifsRun(s, vs, acceptedMtus) == CreateVifsRun(s, vs[..i], acceptedMtus)
    decreases |vs| - i
  {
    if i < |vs| {
      var front := vs[..|vs| - 1];
      assert front[..i] == vs[..i];
      StopsAtFirstError(s, front, i, acceptedMtus);
      var r := CreateVifsRun(s, front, acceptedMtus);
      assert r.0.Fail?;
      assert CreateVifsRun(s, vs, acceptedMtus) == r;
    } else {
      assert vs[..i] == vs;
    }
  }

  // ---------------------------------------------------------------------
  // updateVIFs

  /** The update of one interface present in plan and state: the MTU and
      the MAC cannot change; a changed other_config is written to the
      state's VIF. */
  function UpdateVifStep(s: Vm, p: VifModel, st: VifModel): (r: (Outcome, Vm))
    ensures s.Valid() ==> r.1.Valid()
  {
    if p.mtu != st.mtu then (Fail(MtuNotUpdatable), s)
    else if p.mac != st.mac then (Fail(MacNotUpdatable), s)
    else if p.otherConfig != st.otherConfig then s.VifSetOtherConfig(Str(st.vif), StrMap(p.otherConfig))
    else (Pass, s)
  }

  /** The calls updating an interface present in plan and state makes when
      its VIF exists. */
  function UpdateVifCalls(p: VifModel, st: VifModel): seq<Call> {
    if p.mtu == st.mtu && p.mac == st.mac && p.otherConfig != st.otherConfig
    then [VifOtherConfigSet(Str(st.vif), StrMap(p.otherConfig))]
    else []
  }

  /** A changed MTU is reported first, then a changed MAC, and either
      leaves the VM as it was.  Otherwise, on an existing VIF, the update
      succeeds, makes exactly the calls of UpdateVifCalls, touches no other
      VIF and changes nothing else; on a stale reference it fails exactly
      when there was a call to make. */
  lemma UpdateVifEffect(s: Vm, p: VifModel, st: VifModel)
    ensures var r := UpdateVifStep(s, p, st);
      && (p.mtu != st.mtu ==> r == (Fail(MtuNotUpdatable), s))
      && (p.mtu == st.mtu && p.mac != st.mac ==> r == (Fail(MacNotUpdatable), s))
      && (p.mtu == st.mtu && p.mac == st.mac && Str(st.vif) in s.vifs ==>
            && r.0.Pass? && r.1.log == s.log + UpdateVifCalls(p, st)
            && r.1.vifs.Keys == s.vifs.Keys
            && (forall ref :: ref in s.vifs && ref != Str(st.vif) ==> r.1.vifs[ref] == s.vifs[ref])
            && r.1 == s.(vifs := r.1.vifs, log := r.1.log))
      && (p.mtu == st.mtu && p.mac == st.mac && Str(st.vif) !in s.vifs ==>
            r.1 == s && (r.0.Pass? <==> UpdateVifCalls(p, st) == []))
  {
  }

  lemma CreateVifKeepsSettings(s: Vm, v: VifModel, acceptedMtus: set<int>)
    ensures SameSettings(s, CreateVifStep(s, v, acceptedMtus).1)
  {
    CreateVifEffect(s, v, acceptedMtus);
  }

  /** One pass of the first loop of updateVIFs, for the plan key k. */
  function PlanStep(s: Vm, k: string, pm: map<string, VifModel>, sm: map<string, VifModel>, acceptedMtus: set<int>): (r: (Outcome, Vm))
    requires k in pm
    ensures s.Valid() ==> r.1.Valid()
  {
    if k !in sm then CreateVifStep(s, pm[k], acceptedMtus) else UpdateVifStep(s, pm[k], sm[k])
  }

  /** The first loop of updateVIFs, over the plan keys in `order`. */
  function PlanPhase(s: Vm, order: seq<string>, pm: map<string, VifModel>, sm: map<string, VifModel>, acceptedMtus: set<int>): (r: (Outcome, Vm))
    requires forall k :: k in order ==> k in pm
    ensures s.Valid() ==> r.1.Valid()
    decreases |order|
  {
    if order == [] then (Pass, s)
    else
      var r := PlanPhase(s, order[..|order| - 1], pm, sm, acceptedMtus);
      if r.0.Fail? then r else PlanStep(r.1, order[|order| - 1], pm, sm, acceptedMtus)
  }

  /** One pass of the second loop of updateVIFs, for the state key k. */
  function DestroyStep(s: Vm, k: string, pm: map<string, VifModel>, sm: map<string, VifModel>): (r: (Outcome, Vm))
    requires k in sm
    ensures s.Valid() ==> r.1.Valid()
  {
    if k in pm then (Pass, s) else s.VifDestroy(Str(sm[k].vif))
  }

  /** The second loop of updateVIFs, over the state keys in `order`. */
  function DestroyPhase(s: Vm, order: seq<string>, pm: map<string, VifModel>, sm: map<string, VifModel>): (r: (Outcome, Vm))
    requires forall k :: k in order ==> k in sm
    ensures s.Valid() ==> r.1.Valid()
    decreases |order|
  {
    if order == [] then (Pass, s)
    else
      var r := DestroyPhase(s, order[..|order| - 1], pm, sm);
      if r.0.Fail? then r else DestroyStep(r.1, order[|order| - 1], pm, sm)
  }

  /** updateVIFs on a snapshot, for one iteration order of each of the two
      Go maps it walks. */
  function UpdateVifsRun(s: Vm, plan: seq<VifModel>, state: seq<VifModel>,
                         planOrder: seq<string>, stateOrder: seq<string>, acceptedMtus: set<int>): (r: (Outcome, Vm))
    requires IsOrdering(planOrder, Index(plan, NetworkKey).Keys)
    requires IsOrdering(stateOrder, Index(state, NetworkKey).Keys)
    ensures s.Valid() ==> r.1.Valid()
  {
    var pm := Index(plan, NetworkKey);
    var sm := Index(state, NetworkKey);
    var r := PlanPhase(s, planOrder, pm, sm, acceptedMtus);
    if r.0.Fail? then r else DestroyPhase(r.1, stateOrder, pm, sm)
  }

  /** One more pass of the loop extends the run by one step. */
  lemma PlanPhaseNext(s: Vm, order: seq<string>, i: int, pm: map<string, VifModel>, sm: map<string, VifModel>, acceptedMtus: set<int>)
    requires 0 <= i < |order| && forall x :: x in order ==> x in pm
    requires PlanPhase(s, order[..i], pm, sm, acceptedMtus).0.Pass?
    ensures PlanPhase(s, order[..i + 1], pm, sm, acceptedMtus) == PlanStep(PlanPhase(s, order[..i], pm, sm, acceptedMtus).1, order[i], pm, sm, acceptedMtus)
  {
    assert order[..i + 1][..i] == order[..i];
  }

  /** A pass that fails ends the run: the later keys are never visited. */
  lemma PlanPhaseFailsAt(s: Vm, order: seq<string>, i: int, pm: map<string, VifModel>, sm: map<string, VifModel>, acceptedMtus: set<int>)
    requires 0 <= i < |order| && forall x :: x in order ==> x in pm
    requires PlanPhase(s, order[..i + 1], pm, sm, acceptedMtus).0.Fail?
    ensures PlanPhase(s, order, pm, sm, acceptedMtus) == PlanPhase(s, order[..i + 1], pm, sm, acceptedMtus)
  {
    PlanPhaseStops(s, order[..i + 1], order[i + 1..], pm, sm, acceptedMtus);
    assert order[..i + 1] + order[i + 1..] == order;
  }

  /** One more pass of the loop extends the run by one step. */
  lemma DestroyPhaseNext(s: Vm, order: seq<string>, i: int, pm: map<string, VifModel>, sm: map<string, VifModel>)
    requires 0 <= i < |order| && forall x :: x in order ==> x in sm
    requires DestroyPhase(s, order[..i], pm, sm).0.Pass?
    ensures DestroyPhase(s, order[..i + 1], pm, sm) == DestroyStep(DestroyPhase(s, order[..i], pm, sm).1, order[i], pm, sm)
  {
    assert order[..i + 1][..i] == order[..i];
  }

  /** A pass that fails ends the run: the later keys are never visited. */
  lemma DestroyPhaseFailsAt(s: Vm, order: seq<string>, i: int, pm: map<string, VifModel>, sm: map<string, VifModel>)
    requires 0 <= i < |order| && forall x :: x in order ==> x in sm
    requires DestroyPhase(s, order[..i + 1], pm, sm).0.Fail?
    ensures DestroyPhase(s, order, pm, sm) == DestroyPhase(s, order[..i + 1], pm, sm)
  {
    DestroyPhaseStops(s, order[..i + 1], order[i + 1..], pm, sm);
    assert order[..i + 1] + order[i + 1..] == order;
  }

  lemma {:induction false} PlanPhaseStops(s: Vm, a: seq<string>, b: seq<string>, pm: map<string, VifModel>, sm: map<string, VifModel>, acceptedMtus: set<int>)
    requires forall k :: k in a + b ==> k in pm
    requires PlanPhase(s, a, pm, sm, acceptedMtus).0.Fail?
    ensures PlanPhase(s, a + b, pm, sm, acceptedMtus) == PlanPhase(s, a, pm, sm, acceptedMtus)
    decreases |b|
  {
    if b != [] {
      var front := b[..|b| - 1];
      assert (a + b)[..|a + b| - 1] == a + front;
      PlanPhaseStops(s, a, front, pm, sm, acceptedMtus);
      var r := PlanPhase(s, a + front, pm, sm, acceptedMtus);
      assert r.0.Fail?;
      assert PlanPhase(s, a + b, pm, sm, acceptedMtus) == r;
    } else {
      assert a + b == a;
    }
  }

  lemma {:induction false} DestroyPhaseStops(s: Vm, a: seq<string>, b: seq<string>, pm: map<string, VifModel>, sm: map<string, VifModel>)
    requires forall k :: k in a + b ==> k in sm
    requires DestroyPhase(s, a, pm, sm).0.Fail?
    ensures DestroyPhase(s, a + b, pm, sm) == DestroyPhase(s, a, pm, sm)
    decreases |b|
  {
    if b != [] {
      var front := b[..|b| - 1];
      assert (a + b)[..|a + b| - 1] == a + front;
      DestroyPhaseStops(s, a, front, pm, sm);
      var r := DestroyPhase(s, a + front, pm, sm);
      assert r.0.Fail?;
      assert DestroyPhase(s, a + b, pm, sm) == r;
    } else {
      assert a + b == a;
    }
  }

  method IndexByNetwork(vifs: seq<VifModel>) returns (m: map<string, VifModel>)
    ensures m == Index(vifs, NetworkKey)
  {
    m := map[];
    var i := 0;
    while i < |vifs|
      invariant 0 <= i <= |vifs|
      invariant m == Index(vifs[..i], NetworkKey)
    {
      assert vifs[..i + 1][..i] == vifs[..i];
      m := m[NetworkKey(vifs[i]) := vifs[i]];
      i := i + 1;
    }
    assert vifs[..i] == vifs;
  }

  /** The body of the first loop of updateVIFs: create the interface if
      state does not have it, otherwise check and update it. */
  method PlanVif(h: Hypervisor, networkUuid: string, planVifsMap: map<string, VifModel>, stateVifsMap: map<string, VifModel>, acceptedMtus: set<int>)
    returns (err: Outcome)
    requires h.Valid() && networkUuid in planVifsMap
    modifies h
    ensures h.Valid() && (err, h.State()) == PlanStep(old(h.State()), networkUuid, planVifsMap, stateVifsMap, acceptedMtus)
  {
    var planVif := planVifsMap[networkUuid];
    if networkUuid !in stateVifsMap {
      err := CreateVif(h, planVif, acceptedMtus);
      return;
    }
    var stateVif := stateVifsMap[networkUuid];
    if planVif.mtu != stateVif.mtu {
      return Fail(MtuNotUpdatable);
    }
    if planVif.mac != stateVif.mac {
      return Fail(MacNotUpdatable);
    }
    err := Pass;
    if planVif.otherConfig != stateVif.otherConfig {
      err := h.VifSetOtherConfig(Str(stateVif.vif), StrMap(planVif.otherConfig));
    }
  }

  /** The first loop of updateVIFs: create the interfaces that state does
      not have, check and update the ones it has. */
  method PlanVifs(h: Hypervisor, planVifsMap: map<string, VifModel>, stateVifsMap: map<string, VifModel>, acceptedMtus: set<int>)
    returns (o: Outcome, planOrder: seq<string>)
    requires h.Valid()
    modifies h
    ensures IsOrdering(planOrder, planVifsMap.Keys)
    ensures h.Valid() && (o, h.State()) == PlanPhase(old(h.State()), planOrder, planVifsMap, stateVifsMap, acceptedMtus)
  {
    ghost var s0 := h.State();
    planOrder := RangeOrder(planVifsMap);
    var i := 0;
    while i < |planOrder|
      invariant 0 <= i <= |planOrder|
      invariant h.Valid() && (Pass, h.State()) == PlanPhase(s0, planOrder[..i], planVifsMap, stateVifsMap, acceptedMtus)
    {
      PlanPhaseNext(s0, planOrder, i, planVifsMap, stateVifsMap, acceptedMtus);
      var err := PlanVif(h, planOrder[i], planVifsMap, stateVifsMap, acceptedMtus);
      if err.Fail? {
        PlanPhaseFailsAt(s0, planOrder, i, planVifsMap, stateVifsMap, acceptedMtus);
        return err, planOrder;
      }
      i := i + 1;
    }
    assert planOrder[..i] == planOrder;
    o := Pass;
  }

  /** The body of the second loop of updateVIFs: destroy the interface if
      the plan no longer has it. */
  method DestroyVif(h: Hypervisor, networkUuid: string, planVifsMap: map<string, VifModel>, stateVifsMap: map<string, VifModel>)
    returns (err: Outcome)
    requires h.Valid() && networkUuid in stateVifsMap
    modifies h
    ensures h.Valid() && (err, h.State()) == DestroyStep(old(h.State()), networkUuid, planVifsMap, stateVifsMap)
  {
    err := Pass;
    if networkUuid !in planVifsMap {
      err := h.VifDestroy(Str(stateVifsMap[networkUuid].vif));
    }
  }

  /** The second loop of updateVIFs: destroy the interfaces the plan no
      longer has. */
  method DestroyVifs(h: Hypervisor, planVifsMap: map<string, VifModel>, stateVifsMap: map<string, VifModel>)
    returns (o: Outcome, stateOrder: seq<string>)
    requires h.Valid()
    modifies h
    ensures IsOrdering(stateOrder, stateVifsMap.Keys)
    ensures h.Valid() && (o, h.State()) == DestroyPhase(old(h.State()), stateOrder, planVifsMap, stateVifsMap)
  {
    ghost var s0 := h.State();
    stateOrder := RangeOrder(stateVifsMap);
    var i := 0;
    while i < |stateOrder|
      invariant 0 <= i <= |stateOrder|
      invariant h.Valid() && (Pass, h.State()) == DestroyPhase(s0, stateOrder[..i], planVifsMap, stateVifsMap)
    {
      DestroyPhaseNext(s0, stateOrder, i, planVifsMap, stateVifsMap);
      var err := DestroyVif(h, stateOrder[i], planVifsMap, stateVifsMap);
      if err.Fail? {
        DestroyPhaseFailsAt(s0, stateOrder, i, planVifsMap, stateVifsMap);
        return err, stateOrder;
      }
      i := i + 1;
    }
    assert stateOrder[..i] == stateOrder;
    o := Pass;
  }

  method UpdateVifs(h: Hypervisor, plan: VmModel, state: VmModel, acceptedMtus: set<int>)
    returns (o: Outcome, ghost planOrder: seq<string>, ghost stateOrder: seq<string>)
    requires h.Valid()
    modifies h
    ensures IsOrdering(planOrder, Index(plan.networkInterface, NetworkKey).Keys)
    ensures IsOrdering(stateOrder, Index(state.networkInterface, NetworkKey).Keys)
    ensures h.Valid() && (o, h.State()) == UpdateVifsRun(old(h.State()), plan.networkInterface, state.networkInterface, planOrder, stateOrder, acceptedMtus)
  {
    var planVifsMap := IndexByNetwork(plan.networkInterface);
    var stateVifsMap := IndexByNetwork(state.networkInterface);
    o, planOrder := PlanVifs(h, planVifsMap, stateVifsMap, acceptedMtus);
    if o.Fail? {
      // the second loop never runs; any order of the state keys will do
      stateOrder := SomeOrder(stateVifsMap.Keys);
      return;
    }
    o, stateOrder := DestroyVifs(h, planVifsMap, stateVifsMap);
  }

  // ---------------------------------------------------------------------
  // Properties

  /** The network references of the VIFs a sequence of calls creates, in
      order. */
  function CreatedNetworks(calls: seq<Call>): seq<string> {
    if calls == [] then []
    else if calls[|calls| - 1].VifCreated? then CreatedNetworks(calls[..|calls| - 1]) + [calls[|calls| - 1].vif.network]
    else CreatedNetworks(calls[..|calls| - 1])
  }

  /** Every call acts on a VIF, and none destroys one. */
  predicate NoDestroys(calls: seq<Call>) {
    forall i :: 0 <= i < |calls| ==> IsVifCall(calls[i]) && !calls[i].VifDestroyed?
  }

  /** Every call destroys a VIF. */
  predicate OnlyDestroys(calls: seq<Call>) {
    forall i :: 0 <= i < |calls| ==> calls[i].VifDestroyed?
  }

  lemma {:induction false} CreatedNetworksAppend(a: seq<Call>, b: seq<Call>)
    ensures CreatedNetworks(a + b) == CreatedNetworks(a) + CreatedNetworks(b)
    decreases |b|
  {
    if b == [] {
      assert a + b == a;
    } else {
      var front := b[..|b| - 1];
      assert (a + b)[..|a + b| - 1] == a + front;
      CreatedNetworksAppend(a, front);
      if !b[|b| - 1].VifCreated? {
        assert CreatedNetworks(a + b) == CreatedNetworks(a) + CreatedNetworks(front);
      }
    }
  }

  /** Appending the calls of one more key to a run whose creations so far
      are the networks of `keys`. */
  lemma CreatedExtend(m: map<string, string>, keys: seq<string>, k: string, skip: bool, d0: seq<Call>, d1: seq<Call>)
    requires CreatedNetworks(d0) == Lookup(m, keys)
    requires CreatedNetworks(d1) == if skip then [] else [Get(m, k)]
    ensures CreatedNetworks(d0 + d1) == Lookup(m, if skip then keys else keys + [k])
  {
    CreatedNetworksAppend(d0, d1);
    if skip {
      assert CreatedNetworks(d0) + [] == CreatedNetworks(d0);
    } else {
      LookupSnoc(m, keys, k);
    }
  }

  lemma NoDestroysAppend(a: seq<Call>, b: seq<Call>)
    requires NoDestroys(a) && NoDestroys(b)
    ensures NoDestroys(a + b)
  {
    assert forall i :: |a| <= i < |a + b| ==> (a + b)[i] == b[i - |a|];
  }

  /** A successful createVIF adds calls that create exactly one VIF, on
      the element's network, and destroy nothing. */
  lemma CreateVifCreatesOne(s: Vm, v: VifModel, acceptedMtus: set<int>) returns (d: seq<Call>)
    requires CreateVifStep(s, v, acceptedMtus).0.Pass?
    ensures CreateVifStep(s, v, acceptedMtus).1.log == s.log + d
    ensures NoDestroys(d) && CreatedNetworks(d) == [Get(s.networks, NetworkKey(v))]
  {
    CreateVifEffect(s, v, acceptedMtus);
    var ref := RefName(|s.log|);
    var rec := NewVifRecord(s.networks[NetworkKey(v)], v, s.allowedVifDevices[0]);
    d := [VifCreated(ref, rec)] + (if s.power == Running then [VifPlugged(ref)] else []);
    assert CreatedNetworks([VifCreated(ref, rec)]) == [rec.network];
    if s.power == Running {
      assert d[..1] == [VifCreated(ref, rec)];
    }
  }

  /** createVIFs keeps the log it found, destroys nothing, and when it
      succeeds has created one VIF per element, in element order, each on
      its element's network. */
  lemma {:induction false} CreateVifsInOrder(s: Vm, vs: seq<VifModel>, acceptedMtus: set<int>) returns (d: seq<Call>)
    ensures SameSettings(s, CreateVifsRun(s, vs, acceptedMtus).1)
    ensures CreateVifsRun(s, vs, acceptedMtus).1.log == s.log + d && NoDestroys(d)
    ensures CreateVifsRun(s, vs, acceptedMtus).0.Pass? ==> CreatedNetworks(d) == Lookup(s.networks, KeysOf(vs, NetworkKey))
    decreases |vs|
  {
    if vs == [] {
      d := [];
    } else {
      var front := vs[..|vs| - 1];
      var v := vs[|vs| - 1];
      var d0 := CreateVifsInOrder(s, front, acceptedMtus);
      var r0 := CreateVifsRun(s, front, acceptedMtus);
      if r0.0.Fail? {
        d := d0;
      } else {
        assert CreateVifsRun(s, vs, acceptedMtus) == CreateVifStep(r0.1, v, acceptedMtus);
        CreateVifEffect(r0.1, v, acceptedMtus);
        if CreateVifStep(r0.1, v, acceptedMtus).0.Fail? {
          d := d0;
        } else {
          var d1 := CreateVifCreatesOne(r0.1, v, acceptedMtus);
          d := d0 + d1;
          AppendAssoc(s.log, d0, d1);
          NoDestroysAppend(d0, d1);
          CreatedExtend(s.networks, KeysOf(front, NetworkKey), NetworkKey(v), false, d0, d1);
        }
      }
    }
  }

  /** When createVIFs fails, it is on some element n: the elements before
      it were all created, element n's failure changed nothing, and no
      later element was attempted. */
  lemma {:induction false} CreateVifsFailsAt(s: Vm, vs: seq<VifModel>, acceptedMtus: set<int>) returns (n: int)
    requires CreateVifsRun(s, vs, acceptedMtus).0.Fail?
    ensures 0 <= n < |vs| && CreateVifsRun(s, vs[..n], acceptedMtus).0.Pass?
    ensures CreateVifStep(CreateVifsRun(s, vs[..n], acceptedMtus).1, vs[n], acceptedMtus).0.Fail?
    ensures CreateVifsRun(s, vs, acceptedMtus).1 == CreateVifsRun(s, vs[..n], acceptedMtus).1
    decreases |vs|
  {
    var front := vs[..|vs| - 1];
    var r0 := CreateVifsRun(s, front, acceptedMtus);
    if r0.0.Fail? {
      n := CreateVifsFailsAt(s, front, acceptedMtus);
      assert front[..n] == vs[..n] && front[n] == vs[n];
      assert CreateVifsRun(s, vs, acceptedMtus) == r0;
    } else {
      n := |vs| - 1;
      assert vs[..n] == front;
      CreateVifEffect(r0.1, vs[n], acceptedMtus);
      assert CreateVifsRun(s, vs, acceptedMtus) == CreateVifStep(r0.1, vs[n], acceptedMtus);
    }
  }

  /** Updating an interface present in plan and state creates and destroys
      nothing. */
  lemma UpdateVifCreatesNothing(s: Vm, p: VifModel, st: VifModel) returns (d: seq<Call>)
    ensures UpdateVifStep(s, p, st).1 == s.(vifs := UpdateVifStep(s, p, st).1.vifs, log := s.log + d)
    ensures NoDestroys(d) && CreatedNetworks(d) == []
  {
    UpdateVifEffect(s, p, st);
    if p.mtu == st.mtu && p.mac == st.mac && Str(st.vif) in s.vifs {
      d := UpdateVifCalls(p, st);
    } else {
      d := [];
    }
  }

  /** One pass of the first loop of updateVIFs destroys nothing, and when
      it succeeds it has created a VIF on the key's network exactly when
      state lacks the key. */
  lemma PlanStepEffect(s: Vm, k: string, pm: map<string, VifModel>, sm: map<string, VifModel>, acceptedMtus: set<int>) returns (d: seq<Call>)
    requires k in pm && NetworkKey(pm[k]) == k
    ensures SameSettings(s, PlanStep(s, k, pm, sm, acceptedMtus).1)
    ensures PlanStep(s, k, pm, sm, acceptedMtus).1.log == s.log + d && NoDestroys(d)
    ensures PlanStep(s, k, pm, sm, acceptedMtus).0.Pass? ==> CreatedNetworks(d) == if k in sm then [] else [Get(s.networks, k)]
  {
    if k !in sm {
      assert PlanStep(s, k, pm, sm, acceptedMtus) == CreateVifStep(s, pm[k], acceptedMtus);
      CreateVifKeepsSettings(s, pm[k], acceptedMtus);
      if CreateVifStep(s, pm[k], acceptedMtus).0.Pass? {
        d := CreateVifCreatesOne(s, pm[k], acceptedMtus);
      } else {
        CreateVifEffect(s, pm[k], acceptedMtus);
        d := [];
      }
    } else {
      assert PlanStep(s, k, pm, sm, acceptedMtus) == UpdateVifStep(s, pm[k], sm[k]);
      d := UpdateVifCreatesNothing(s, pm[k], sm[k]);
    }
  }


  /** The first loop of updateVIFs destroys nothing; when it succeeds it
      has created one VIF per plan key missing from state, in the order
      visited, each on that key's network. */
  lemma {:induction false} PlanPhaseEffect(s: Vm, order: seq<string>, pm: map<string, VifModel>, sm: map<string, VifModel>, acceptedMtus: set<int>)
    returns (d: seq<Call>)
    requires forall k :: k in order ==> k in pm
    requires forall k :: k in pm ==> NetworkKey(pm[k]) == k
    ensures SameSettings(s, PlanPhase(s, order, pm, sm, acceptedMtus).1)
    ensures PlanPhase(s, order, pm, sm, acceptedMtus).1.log == s.log + d && NoDestroys(d)
    ensures PlanPhase(s, order, pm, sm, acceptedMtus).0.Pass? ==> CreatedNetworks(d) == Lookup(s.networks, Unmatched(order, sm))
    decreases |order|
  {
    if order == [] {
      d := [];
    } else {
      var front := order[..|order| - 1];
      var k := order[|order| - 1];
      var d0 := PlanPhaseEffect(s, front, pm, sm, acceptedMtus);
      var r0 := PlanPhase(s, front, pm, sm, acceptedMtus);
      if r0.0.Fail? {
        d := d0;
      } else {
        assert PlanPhase(s, order, pm, sm, acceptedMtus) == PlanStep(r0.1, k, pm, sm, acceptedMtus);
        var d1 := PlanStepEffect(r0.1, k, pm, sm, acceptedMtus);
        d := d0 + d1;
        AppendAssoc(s.log, d0, d1);
        NoDestroysAppend(d0, d1);
        if PlanStep(r0.1, k, pm, sm, acceptedMtus).0.Pass? {
          CreatedExtend(s.networks, Unmatched(front, sm), k, k in sm, d0, d1);
        }
      }
    }
  }

  /** The Destroy calls of the second loop of updateVIFs, one per key, on
      that key's VIF in state. */
  function DestroyCalls(keys: seq<string>, sm: map<string, VifModel>): seq<Call>
    requires forall k :: k in keys ==> k in sm
  {
    if keys == [] then []
    else DestroyCalls(keys[..|keys| - 1], sm) + [VifDestroyed(Str(sm[keys[|keys| - 1]].vif))]
  }

  /** The second loop of updateVIFs only destroys; when it succeeds it has
      destroyed, in the order visited, the VIF of every state key the plan
      lacks, and nothing else. */
  lemma {:induction false} DestroyPhaseEffect(s: Vm, order: seq<string>, pm: map<string, VifModel>, sm: map<string, VifModel>)
    returns (d: seq<Call>)
    requires forall k :: k in order ==> k in sm
    ensures SameSettings(s, DestroyPhase(s, order, pm, sm).1)
    ensures DestroyPhase(s, order, pm, sm).1.log == s.log + d && OnlyDestroys(d)
    ensures DestroyPhase(s, order, pm, sm).0.Pass? ==> d == DestroyCalls(Unmatched(order, pm), sm)
    decreases |order|
  {
    if order == [] {
      return [];
    }
    var front := order[..|order| - 1];
    var k := order[|order| - 1];
    var d0 := DestroyPhaseEffect(s, front, pm, sm);
    var r0 := DestroyPhase(s, front, pm, sm);
    if r0.0.Fail? {
      return d0;
    }
    var r := DestroyStep(r0.1, k, pm, sm);
    assert DestroyPhase(s, order, pm, sm) == r;
    DestroyStepEffect(r0.1, k, pm, sm);
    if k in pm || r.0.Fail? {
      assert Unmatched(order, pm) == Unmatched(front, pm) || r.0.Fail?;
      return d0;
    }
    d := d0 + [VifDestroyed(Str(sm[k].vif))];
    assert Unmatched(order, pm) == Unmatched(front, pm) + [k];
  }

  /** One pass of the second loop keeps the settings, and either leaves the
      log alone or appends the Destroy of the key's VIF. */
  lemma DestroyStepEffect(s: Vm, k: string, pm: map<string, VifModel>, sm: map<string, VifModel>)
    requires k in sm
    ensures var r := DestroyStep(s, k, pm, sm);
      && SameSettings(s, r.1)
      && (k in pm || r.0.Fail? ==> r.1.log == s.log)
      && (k !in pm && r.0.Pass? ==> r.1.log == s.log + [VifDestroyed(Str(sm[k].vif))])
  {
  }

  /** updateVIFs makes all its create and update calls before its first
      Destroy: the log grows by calls d1 that destroy nothing, then by
      Destroy calls d2.  When it succeeds it has created one VIF for each
      plan-only network and destroyed the state's VIF of each state-only
      network, each exactly once, whatever the order in which it visited
      the two maps. */
  lemma UpdateVifsEffect(s: Vm, plan: seq<VifModel>, state: seq<VifModel>, planOrder: seq<string>, stateOrder: seq<string>, acceptedMtus: set<int>)
    returns (d1: seq<Call>, d2: seq<Call>)
    requires IsOrdering(planOrder, Index(plan, NetworkKey).Keys)
    requires IsOrdering(stateOrder, Index(state, NetworkKey).Keys)
    ensures SameSettings(s, UpdateVifsRun(s, plan, state, planOrder, stateOrder, acceptedMtus).1)
    ensures UpdateVifsRun(s, plan, state, planOrder, stateOrder, acceptedMtus).1.log == s.log + d1 + d2
    ensures NoDestroys(d1) && OnlyDestroys(d2)
    ensures UpdateVifsRun(s, plan, state, planOrder, stateOrder, acceptedMtus).0.Pass? ==>
      var pm := Index(plan, NetworkKey);
      var sm := Index(state, NetworkKey);
      && IsOrdering(Unmatched(planOrder, sm), pm.Keys - sm.Keys)
      && CreatedNetworks(d1) == Lookup(s.networks, Unmatched(planOrder, sm))
      && IsOrdering(Unmatched(stateOrder, pm), sm.Keys - pm.Keys)
      && d2 == DestroyCalls(Unmatched(stateOrder, pm), sm)
  {
    var pm := Index(plan, NetworkKey);
    var sm := Index(state, NetworkKey);
    d1 := PlanPhaseEffect(s, planOrder, pm, sm, acceptedMtus);
    var m := PlanPhase(s, planOrder, pm, sm, acceptedMtus);
    if m.0.Fail? {
      d2 := [];
      assert s.log + d1 + d2 == s.log + d1;
      return;
    }
    d2 := DestroyPhaseEffect(m.1, stateOrder, pm, sm);
    UnmatchedOrdering(planOrder, pm.Keys, sm);
    UnmatchedOrdering(stateOrder, sm.Keys, pm);
  }

  lemma {:induction false} PlanPhaseNoChange(s: Vm, order: seq<string>, pm: map<string, VifModel>, acceptedMtus: set<int>)
    requires forall k :: k in order ==> k in pm
    ensures PlanPhase(s, order, pm, pm, acceptedMtus) == (Pass, s)
    decreases |order|
  {
    if order != [] {
      PlanPhaseNoChange(s, order[..|order| - 1], pm, acceptedMtus);
    }
  }

  lemma {:induction false} DestroyPhaseNoChange(s: Vm, order: seq<string>, pm: map<string, VifModel>)
    requires forall k :: k in order ==> k in pm
    ensures DestroyPhase(s, order, pm, pm) == (Pass, s)
    decreases |order|
  {
    if order != [] {
      DestroyPhaseNoChange(s, order[..|order| - 1], pm);
    }
  }

  /** Idempotence: when plan and state hold the same interfaces, updateVIFs
      makes no call at all. */
  lemma UpdateVifsIdempotent(s: Vm, plan: seq<VifModel>, state: seq<VifModel>, planOrder: seq<string>, stateOrder: seq<string>, acceptedMtus: set<int>)
    requires IsOrdering(planOrder, Index(plan, NetworkKey).Keys)
    requires IsOrdering(stateOrder, Index(state, NetworkKey).Keys)
    requires Index(plan, NetworkKey) == Index(state, NetworkKey)
    ensures UpdateVifsRun(s, plan, state, planOrder, stateOrder, acceptedMtus) == (Pass, s)
  {
    var pm := Index(plan, NetworkKey);
    PlanPhaseNoChange(s, planOrder, pm, acceptedMtus);
    DestroyPhaseNoChange(s, stateOrder, pm);
  }
}
