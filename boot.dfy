/** The VM's platform and HVM_boot_params maps (xenserver/vm_utils.go):
    the read-modify-write overlays setPlatform and setHVMBootParams, the
    boot mode written by updateBootMode and read back by
    getBootModeFromVMRecord, and the boot order. */
module Boot {
  import opened Base
  import opened XenApi
  import opened Models
  import opened Keyed

  // ---------------------------------------------------------------------
  // setPlatform / setHVMBootParams

  /** setPlatform on a snapshot: the given entries written over the VM's
      platform map, which is then stored back whole. */
  function SetPlatformStep(s: Vm, params: map<string, string>): Vm {
    s.SetPlatform(s.platform + params)
  }

  /** setHVMBootParams on a snapshot. */
  function SetHvmBootParamsStep(s: Vm, params: map<string, string>): Vm {
    s.SetHvmBootParams(s.hvmBootParams + params)
  }

  /** setPlatform writes one platform map in which the given keys have the
      given values and every other entry is the VM's own; nothing else
      about the VM changes. */
  lemma SetPlatformEffect(s: Vm, params: map<string, string>)
    ensures var r := SetPlatformStep(s, params);
      && r.platform.Keys == s.platform.Keys + params.Keys
      && (forall k :: k in params ==> r.platform[k] == params[k])
      && (forall k :: k in s.platform && k !in params ==> r.platform[k] == s.platform[k])
      && r == s.(platform := r.platform, log := s.log + [PlatformSet(r.platform)])
  {
  }

  /** setHVMBootParams writes one HVM_boot_params map in which the given
      keys have the given values and every other entry is the VM's own;
      nothing else about the VM changes. */
  lemma SetHvmBootParamsEffect(s: Vm, params: map<string, string>)
    ensures var r := SetHvmBootParamsStep(s, params);
      && r.hvmBootParams.Keys == s.hvmBootParams.Keys + params.Keys
      && (forall k :: k in params ==> r.hvmBootParams[k] == params[k])
      && (forall k :: k in s.hvmBootParams && k !in params ==> r.hvmBootParams[k] == s.hvmBootParams[k])
      && r == s.(hvmBootParams := r.hvmBootParams, log := s.log + [HvmBootParamsSet(r.hvmBootParams)])
  {
  }

  method SetPlatform(h: Hypervisor, params: map<string, string>)
    requires h.Valid()
    modifies h
    ensures h.Valid() && h.State() == SetPlatformStep(old(h.State()), params)
  {
    var platform := h.GetPlatform();
    ghost var original := platform;
    var order := RangeOrder(params);
    var i := 0;
    while i < |order|
      invariant 0 <= i <= |order|
      invariant platform == Overlay(original, order[..i], params)
    {
      assert order[..i + 1][..i] == order[..i];
      platform := platform[order[i] := params[order[i]]];
      i := i + 1;
    }
    assert order[..i] == order;
    OverlayAnyOrder(original, order, params);
    h.SetPlatform(platform);
  }

  method SetHvmBootParams(h: Hypervisor, params: map<string, string>)
    requires h.Valid()
    modifies h
    ensures h.Valid() && h.State() == SetHvmBootParamsStep(old(h.State()), params)
  {
    var hvmBootParams := h.GetHvmBootParams();
    ghost var original := hvmBootParams;
    var order := RangeOrder(params);
    var i := 0;
    while i < |order|
      invariant 0 <= i <= |order|
      invariant hvmBootParams == Overlay(original, order[..i], params)
    {
      assert order[..i + 1][..i] == order[..i];
      hvmBootParams := hvmBootParams[order[i] := params[order[i]]];
      i := i + 1;
    }
    assert order[..i] == order;
    OverlayAnyOrder(original, order, params);
    h.SetHvmBootParams(hvmBootParams);
  }

  // ---------------------------------------------------------------------
  // Boot mode

  /** The platform "secureboot" entry and the HVM_boot_params "firmware"
      entry that stand for a boot mode: "uefi_security" is UEFI firmware
      with secure boot on; any other mode is its own firmware name with
      secure boot off. */
  function BootModeEntries(mode: string): (string, string) {
    if mode == "uefi_security" then ("true", "uefi") else ("false", mode)
  }

  /** updateBootMode on a snapshot: an empty mode writes nothing. */
  function UpdateBootModeStep(s: Vm, mode: string): Vm {
    if mode == "" then s
    else
      var e := BootModeEntries(mode);
      SetHvmBootParamsStep(SetPlatformStep(s, map["secureboot" := e.0]), map["firmware" := e.1])
  }

  /** getBootModeFromVMRecord: the firmware name, or "uefi_security" when
      secure boot is on; an error when either entry is missing. */
  function DecodeBootMode(platform: map<string, string>, hvmBootParams: map<string, string>): (r: Result<string>)
    ensures r.Err? <==> "firmware" !in hvmBootParams || "secureboot" !in platform
    ensures "firmware" !in hvmBootParams ==> r == Err(MissingFirmware)
    ensures "firmware" in hvmBootParams && "secureboot" !in platform ==> r == Err(MissingSecureboot)
  {
    if "firmware" !in hvmBootParams then Err(MissingFirmware)
    else if "secureboot" !in platform then Err(MissingSecureboot)
    else if platform["secureboot"] == "true" then Ok("uefi_security")
    else Ok(hvmBootParams["firmware"])
  }

  /** Boot mode round trip: after updateBootMode with a non-empty mode
      (bios, uefi, uefi_security or any other), reading the mode back gives
      that mode.  An empty mode writes nothing. */
  lemma BootModeRoundTrip(s: Vm, mode: string)
    ensures var r := UpdateBootModeStep(s, mode);
      && (mode != "" ==> DecodeBootMode(r.platform, r.hvmBootParams) == Ok(mode))
      && (mode == "" ==> r == s)
  {
    if mode != "" {
      var e := BootModeEntries(mode);
      var r1 := SetPlatformStep(s, map["secureboot" := e.0]);
      var r := SetHvmBootParamsStep(r1, map["firmware" := e.1]);
      assert r.platform["secureboot"] == e.0;
      assert r.hvmBootParams["firmware"] == e.1;
    }
  }

  /** updateBootMode touches only the "secureboot" platform entry and the
      "firmware" boot parameter, in that order, and nothing else about the
      VM. */
  lemma UpdateBootModeEffect(s: Vm, mode: string)
    requires mode != ""
    ensures var e := BootModeEntries(mode);
      var platform := s.platform["secureboot" := e.0];
      var hvmBootParams := s.hvmBootParams["firmware" := e.1];
      UpdateBootModeStep(s, mode)
        == s.(platform := platform, hvmBootParams := hvmBootParams,
              log := s.log + [PlatformSet(platform), HvmBootParamsSet(hvmBootParams)])
  {
    var e := BootModeEntries(mode);
    assert s.platform + map["secureboot" := e.0] == s.platform["secureboot" := e.0];
    assert s.hvmBootParams + map["firmware" := e.1] == s.hvmBootParams["firmware" := e.1];
  }

  method UpdateBootMode(h: Hypervisor, plan: VmModel)
    requires h.Valid()
    modifies h
    ensures h.Valid() && h.State() == UpdateBootModeStep(old(h.State()), Str(plan.bootMode))
  {
    var bootMode := Str(plan.bootMode);
    if bootMode == "" {
      return;
    }
    var secureBoot := "false";
    if bootMode == "uefi_security" {
      bootMode := "uefi";
      secureBoot := "true";
    }
    SetPlatform(h, map["secureboot" := secureBoot]);
    SetHvmBootParams(h, map["firmware" := bootMode]);
  }

  // ---------------------------------------------------------------------
  // Boot order

  /** updateBootOrder on a snapshot: an empty order writes nothing. */
  function UpdateBootOrderStep(s: Vm, order: string): Vm {
    if order == "" then s else SetHvmBootParamsStep(s, map["order" := order])
  }

  /** The boot_order read back from a VM record: an error when the "order"
      entry is missing. */
  function ReadBootOrder(hvmBootParams: map<string, string>): (r: Result<string>)
    ensures r.Err? <==> "order" !in hvmBootParams
  {
    if "order" in hvmBootParams then Ok(hvmBootParams["order"]) else Err(MissingBootOrder)
  }

  /** An empty boot order writes nothing; any other is written to
      HVM_boot_params["order"], leaving the other entries as they were, and
      is read back unchanged. */
  lemma BootOrderRoundTrip(s: Vm, order: string)
    ensures var r := UpdateBootOrderStep(s, order);
      && (order == "" ==> r == s)
      && (order != "" ==> && ReadBootOrder(r.hvmBootParams) == Ok(order)
                          && r.hvmBootParams == s.hvmBootParams["order" := order]
                          && r == s.(hvmBootParams := r.hvmBootParams, log := s.log + [HvmBootParamsSet(r.hvmBootParams)]))
  {
  }

  method UpdateBootOrder(h: Hypervisor, plan: VmModel)
    requires h.Valid()
    modifies h
    ensures h.Valid() && h.State() == UpdateBootOrderStep(old(h.State()), Str(plan.bootOrder))
  {
    var bootOrder := Str(plan.bootOrder);
    if bootOrder == "" {
      return;
    }
    SetHvmBootParams(h, map["order" := bootOrder]);
  }
}
