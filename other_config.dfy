/** The VM's other_config map (xenserver/vm_utils.go): the merge
    setOtherConfigFromPlan writes, which records the keys Terraform owns
    under "tf_other_config_keys" as a comma-terminated list, and the
    read-back getOtherConfigFromVMRecord, which keeps the keys that list
    owns. */
module OtherConfig {
  import opened Base
  import opened GoStrings
  import opened XenApi
  import opened Models
  import opened Keyed

  /** The other_config key holding the keys Terraform manages. */
  const SentinelKey := "tf_other_config_keys"

  /** The other_config key holding the template the VM was cloned from. */
  const TemplateKey := "tf_template_name"

  // ---------------------------------------------------------------------
  // The ownership test

  predicate SuffixOf(p: string, k: string) {
    |p| <= |k| && k[|k| - |p|..] == p
  }

  /** A key is owned by the list when `strings.Contains(list, key + ",")`:
      every suffix of a listed key passes the test. */
  lemma {:induction false} OwnedIfSuffix(order: seq<string>, p: string, k: string)
    requires k in order && SuffixOf(p, k)
    ensures Contains(Terminated(order), p + ",")
    decreases |order|
  {
    var n := |order| - 1;
    var front := Terminated(order[..n]);
    var t := Terminated(order);
    assert t == front + (order[n] + ",");
    if order[n] == k {
      var i := |front| + |k| - |p|;
      assert t[i..i + |p + ","|] == p + ",";
      assert OccursAt(t, p + ",", i);
    } else {
      assert k in order[..n];
      OwnedIfSuffix(order[..n], p, k);
      ContainsExtend(front, order[n] + ",", p + ",");
    }
  }

  /** A non-empty comma-terminated list ends in a comma. */
  lemma TerminatedLast(order: seq<string>)
    requires order != []
    ensures var t := Terminated(order); |t| > 0 && t[|t| - 1] == ','
  {
  }

  /** An occurrence of `p + ","` that reaches past a comma-terminated
      prefix ends at the final comma and lies inside the last key. */
  lemma TerminatorAt(front: string, last: string, p: string, i: int)
    requires ',' !in last && ',' !in p
    requires front == [] || front[|front| - 1] == ','
    requires 0 <= i && |front| < i + |p| + 1 <= |front| + |last| + 1
    requires (front + (last + ","))[i..i + |p| + 1] == p + ","
    ensures i >= |front| && SuffixOf(p, last)
  {
    var t := front + (last + ",");
    var c := i + |p|;
    assert t[c] == (p + ",")[|p|];
    forall j | |front| <= j < |t| - 1
      ensures t[j] != ','
    {
      assert t[j] == last[j - |front|];
    }
    assert c == |t| - 1;
    forall j | i <= j < c
      ensures t[j] != ','
    {
      assert t[j] == (p + ",")[j - i] == p[j - i];
    }
    if front != [] {
      assert t[|front| - 1] == ',';
    }
    assert t[i..c] == (p + ",")[..|p|] == p;
    assert t[i..c] == last[i - |front|..];
  }

  /** When no key holds a comma, only the suffixes of listed keys pass the
      ownership test. */
  lemma {:induction false} SuffixIfOwned(order: seq<string>, p: string)
    requires ',' !in p
    requires forall k :: k in order ==> ',' !in k
    requires Contains(Terminated(order), p + ",")
    ensures exists k :: k in order && SuffixOf(p, k)
    decreases |order|
  {
    var n := |order| - 1;
    var last := order[n];
    var front := Terminated(order[..n]);
    var t := Terminated(order);
    assert t == front + (last + ",");
    var i :| 0 <= i <= |t| - |p + ","| && OccursAt(t, p + ",", i);
    if i + |p| + 1 <= |front| {
      assert front[i..i + |p + ","|] == t[i..i + |p + ","|];
      assert OccursAt(front, p + ",", i);
      SuffixIfOwned(order[..n], p);
      var k :| k in order[..n] && SuffixOf(p, k);
      assert k in order;
    } else {
      if order[..n] != [] {
        TerminatedLast(order[..n]);
      }
      assert t[i..i + |p + ","|] == p + ",";
      TerminatorAt(front, last, p, i);
    }
  }

  /** The ownership test, exactly: for comma-free keys, a key is owned by
      the list of the plan's keys iff it is a suffix of one of them.  So
      every plan key is owned, and so is every key some plan key ends
      with. */
  lemma OwnershipTest(order: seq<string>, p: string)
    requires ',' !in p
    requires forall k :: k in order ==> ',' !in k
    ensures Contains(Terminated(order), p + ",") <==> exists k :: k in order && SuffixOf(p, k)
  {
    if Contains(Terminated(order), p + ",") {
      SuffixIfOwned(order, p);
    }
    if exists k :: k in order && SuffixOf(p, k) {
      var k :| k in order && SuffixOf(p, k);
      OwnedIfSuffix(order, p, k);
    }
  }

  // ---------------------------------------------------------------------
  // setOtherConfigFromPlan

  /** The deletion loop: each listed piece is deleted unless it passes the
      ownership test against the new list; deleting an absent key does
      nothing. */
  function DeleteUnlisted(m: map<string, string>, pieces: seq<string>, keys: string): map<string, string>
    decreases |pieces|
  {
    if pieces == [] then m
    else
      var p := pieces[|pieces| - 1];
      var r := DeleteUnlisted(m, pieces[..|pieces| - 1], keys);
      if Contains(keys, p + ",") then r else r - {p}
  }

  /** The deletion loop removes exactly the listed keys that fail the
      ownership test, and leaves every other value as it was. */
  lemma {:induction false} DeleteUnlistedContents(m: map<string, string>, pieces: seq<string>, keys: string)
    ensures var r := DeleteUnlisted(m, pieces, keys);
      && (forall k :: k in r <==> k in m && (k !in pieces || Contains(keys, k + ",")))
      && (forall k :: k in r ==> r[k] == m[k])
    decreases |pieces|
  {
    if pieces != [] {
      var n := |pieces| - 1;
      DeleteUnlistedContents(m, pieces[..n], keys);
      assert pieces == pieces[..n] + [pieces[n]];
    }
  }

  /** The other_config setOtherConfigFromPlan writes, for the VM's map,
      the plan's map visited in `order`, and the plan's template name:
      the plan's entries written over the VM's; the list of owned keys read
      from the result (so a plan entry for the list itself is the one
      read); every listed key failing the ownership test against the new
      list deleted; then the new list and the template name stored. */
  function MergeOtherConfig(vmOC: map<string, string>, planOC: map<string, string>,
                            order: seq<string>, template: string): map<string, string>
    requires forall k :: k in order ==> k in planOC
  {
    var merged := Overlay(vmOC, order, planOC);
    var keys := Terminated(order);
    var pieces := Split(Get(merged, SentinelKey), ',');
    DeleteUnlisted(merged, pieces, keys)[SentinelKey := keys][TemplateKey := template]
  }

  /** The merged other_config, entry by entry: the list of the plan's keys
      and the template name under their own keys; every plan entry; every
      VM entry the old list did not own; and every VM entry the old list
      owned that still passes the ownership test.  Values come from the
      plan where it has the key, else from the VM. */
  lemma MergeContents(vmOC: map<string, string>, planOC: map<string, string>,
                      order: seq<string>, template: string)
    requires IsOrdering(order, planOC.Keys)
    ensures var r := MergeOtherConfig(vmOC, planOC, order, template);
      var pieces := Split(Get(vmOC + planOC, SentinelKey), ',');
      && SentinelKey in r && r[SentinelKey] == Terminated(order)
      && TemplateKey in r && r[TemplateKey] == template
      && (forall k | k != SentinelKey && k != TemplateKey ::
            k in r <==> k in planOC || (k in vmOC && (k !in pieces || Contains(Terminated(order), k + ","))))
      && (forall k | k in r && k != SentinelKey && k != TemplateKey ::
            r[k] == if k in planOC then planOC[k] else vmOC[k])
  {
    var keys := Terminated(order);
    OverlayAnyOrder(vmOC, order, planOC);
    var pieces := Split(Get(vmOC + planOC, SentinelKey), ',');
    DeleteUnlistedContents(vmOC + planOC, pieces, keys);
    forall k | k in planOC
      ensures Contains(keys, k + ",")
    {
      OwnedIfSuffix(order, k, k);
    }
  }

  function SetOtherConfigStep(s: Vm, plan: VmModel, order: seq<string>): Vm
    requires IsOrdering(order, StrMap(plan.otherConfig).Keys)
  {
    s.SetOtherConfig(MergeOtherConfig(s.otherConfig, StrMap(plan.otherConfig), order, Str(plan.templateName)))
  }

  /** setOtherConfigFromPlan: an unknown plan map counts as empty; the
      ghost `order` is the order the Go map iteration visited the plan's
      keys in. */
  method SetOtherConfigFromPlan(h: Hypervisor, plan: VmModel) returns (ghost order: seq<string>)
    requires h.Valid()
    modifies h
    ensures IsOrdering(order, StrMap(plan.otherConfig).Keys)
    ensures h.Valid() && h.State() == SetOtherConfigStep(old(h.State()), plan, order)
  {
    var planOC := StrMap(plan.otherConfig);
    var vmOC := h.GetOtherConfig();
    ghost var original := vmOC;
    var range := RangeOrder(planOC);
    order := range;
    var keys := "";
    var i := 0;
    while i < |range|
      invariant 0 <= i <= |range|
      invariant vmOC == Overlay(original, range[..i], planOC)
      invariant keys == Terminated(range[..i])
    {
      assert range[..i + 1][..i] == range[..i];
      keys := keys + range[i] + ",";
      vmOC := vmOC[range[i] := planOC[range[i]]];
      i := i + 1;
    }
    assert range[..i] == range;
    ghost var merged := vmOC;
    var originalKeys := Split(Get(vmOC, SentinelKey), ',');
    var j := 0;
    while j < |originalKeys|
      invariant 0 <= j <= |originalKeys|
      invariant vmOC == DeleteUnlisted(merged, originalKeys[..j], keys)
    {
      assert originalKeys[..j + 1][..j] == originalKeys[..j];
      if !Contains(keys, originalKeys[j] + ",") {
        vmOC := vmOC - {originalKeys[j]};
      }
      j := j + 1;
    }
    assert originalKeys[..j] == originalKeys;
    vmOC := vmOC[SentinelKey := keys];
    vmOC := vmOC[TemplateKey := Str(plan.templateName)];
    h.SetOtherConfig(vmOC);
  }

  // ---------------------------------------------------------------------
  // Read-back

  /** getOtherConfigFromVMRecord: the entries whose keys pass the
      ownership test against the stored list. */
  function ReadOtherConfig(oc: map<string, string>): (r: map<string, string>)
    ensures forall k :: k in r <==> k in oc && Contains(Get(oc, SentinelKey), k + ",")
    ensures forall k :: k in r ==> r[k] == oc[k]
  {
    map k | k in oc && Contains(Get(oc, SentinelKey), k + ",") :: oc[k]
  }

  /** After the merge the template name is read back as the plan's. */
  lemma TemplateNameReadBack(vmOC: map<string, string>, planOC: map<string, string>,
                             order: seq<string>, template: string)
    requires IsOrdering(order, planOC.Keys)
    ensures Get(MergeOtherConfig(vmOC, planOC, order, template), TemplateKey) == template
  {
  }

  /** After the merge, reading other_config back gives every plan entry
      (other than the two bookkeeping keys), and, when no key holds a
      comma, nothing whose key is not a suffix of some plan key. */
  lemma OtherConfigReadBack(vmOC: map<string, string>, planOC: map<string, string>,
                            order: seq<string>, template: string)
    requires IsOrdering(order, planOC.Keys)
    ensures var rb := ReadOtherConfig(MergeOtherConfig(vmOC, planOC, order, template));
      && (forall k | k in planOC && k != SentinelKey && k != TemplateKey :: k in rb && rb[k] == planOC[k])
      && ((forall k :: k in planOC ==> ',' !in k) ==>
            forall k | k in rb && ',' !in k :: exists pk :: pk in planOC && SuffixOf(k, pk))
  {
    var r := MergeOtherConfig(vmOC, planOC, order, template);
    MergeContents(vmOC, planOC, order, template);
    forall k | k in planOC
      ensures Contains(Terminated(order), k + ",")
    {
      OwnedIfSuffix(order, k, k);
    }
    if forall k :: k in planOC ==> ',' !in k {
      forall k | k in ReadOtherConfig(r) && ',' !in k
        ensures exists pk :: pk in planOC && SuffixOf(k, pk)
      {
        SuffixIfOwned(order, k);
      }
    }
  }

  /** Some plan key ends with k. */
  predicate SuffixOfSome(k: string, planOC: map<string, string>) {
    exists pk | pk in planOC :: SuffixOf(k, pk)
  }

  /** The merge with the stored list left out, defined without any
      visiting order: the template name, every plan entry, and every VM
      entry the old list did not own or that is a suffix of some plan key;
      plan values win over the VM's. */
  function MergedEntries(vmOC: map<string, string>, planOC: map<string, string>, template: string): map<string, string> {
    var pieces := Split(Get(vmOC + planOC, SentinelKey), ',');
    map k | k in (vmOC.Keys + planOC.Keys + {TemplateKey}) - {SentinelKey}
            && (k == TemplateKey || k in planOC || k !in pieces || SuffixOfSome(k, planOC))
      :: if k == TemplateKey then template else if k in planOC then planOC[k] else vmOC[k]
  }

  /** For comma-free plan keys, the merge is MergedEntries plus the list of
      the plan's keys in visiting order. */
  lemma MergeMatchesEntries(vmOC: map<string, string>, planOC: map<string, string>,
                            order: seq<string>, template: string)
    requires IsOrdering(order, planOC.Keys)
    requires forall k :: k in planOC ==> ',' !in k
    ensures MergeOtherConfig(vmOC, planOC, order, template)
         == MergedEntries(vmOC, planOC, template)[SentinelKey := Terminated(order)]
  {
    var r := MergeOtherConfig(vmOC, planOC, order, template);
    var e := MergedEntries(vmOC, planOC, template)[SentinelKey := Terminated(order)];
    MergeContents(vmOC, planOC, order, template);
    var pieces := Split(Get(vmOC + planOC, SentinelKey), ',');
    SplitPiecesFree(Get(vmOC + planOC, SentinelKey), ',');
    forall k
      ensures k in r <==> k in e
    {
      if k in pieces {
        OwnershipTest(order, k);
      }
    }
  }

  /** So for comma-free keys the merge does not depend on the order the
      plan's keys were visited in, except for the order of the stored
      list. */
  lemma MergeOrderIndependent(vmOC: map<string, string>, planOC: map<string, string>,
                              o1: seq<string>, o2: seq<string>, template: string)
    requires IsOrdering(o1, planOC.Keys) && IsOrdering(o2, planOC.Keys)
    requires forall k :: k in planOC ==> ',' !in k
    ensures MergeOtherConfig(vmOC, planOC, o1, template) - {SentinelKey}
         == MergeOtherConfig(vmOC, planOC, o2, template) - {SentinelKey}
  {
    MergeMatchesEntries(vmOC, planOC, o1, template);
    MergeMatchesEntries(vmOC, planOC, o2, template);
    var m := MergedEntries(vmOC, planOC, template);
    UpdateThenRemove(m, SentinelKey, Terminated(o1));
    UpdateThenRemove(m, SentinelKey, Terminated(o2));
  }

  lemma UpdateThenRemove(m: map<string, string>, k: string, v: string)
    ensures m[k := v] - {k} == m - {k}
  {
  }

  /** The ownership test as written adopts a key the user never set: a
      plan key "ab" makes the VM's own "b" pass, so a "b" Terraform owned
      before is not deleted and is read back as Terraform's. */
  lemma SuffixKeyAdopted()
    ensures var vmOC := map["b" := "1", SentinelKey := "b,"];
      var r := MergeOtherConfig(vmOC, map["ab" := "2"], ["ab"], "t");
      "b" in r && "b" in ReadOtherConfig(r) && ReadOtherConfig(r)["b"] == "1"
  {
    var vmOC := map["b" := "1", SentinelKey := "b,"];
    var order := ["ab"];
    assert order[..0] == [];
    assert Terminated(order) == "ab,";
    assert "b" + "," == "b,";
    assert OccursAt("ab,", "b,", 1);
    assert Contains(Terminated(order), "b" + ",");
    MergeContents(vmOC, map["ab" := "2"], order, "t");
  }

  /** Emptying the plan's other_config deletes every key Terraform owned. */
  lemma EmptyPlanDeletesOwned(vmOC: map<string, string>, template: string, k: string)
    requires k != SentinelKey && k != TemplateKey
    requires k in Split(Get(vmOC, SentinelKey), ',')
    ensures k !in MergeOtherConfig(vmOC, map[], [], template)
  {
    MergeContents(vmOC, map[], [], template);
    assert vmOC + map[] == vmOC;
  }

  /** Emptying the plan removes a key Terraform owned and keeps one it
      never owned: {"a": "1", "external": "z"} with "a" owned becomes
      {"external": "z"}, with an empty list of owned keys. */
  lemma ExternalKeyKept()
    ensures var vmOC := map["a" := "1", "external" := "z", SentinelKey := "a,"];
      MergeOtherConfig(vmOC, map[], [], "t") == map["external" := "z", SentinelKey := "", TemplateKey := "t"]
  {
    var vmOC := map["a" := "1", "external" := "z", SentinelKey := "a,"];
    assert vmOC + map[] == vmOC;
    assert Split("a,", ',') == ["a", ""] by {
      assert Split("", ',') == [""];
      assert ","[1..] == "";
      assert Split(",", ',') == ["", ""];
      assert "a,"[1..] == ",";
      assert ['a'] + "" == "a";
    }
    MergeContents(vmOC, map[], [], "t");
    var r := MergeOtherConfig(vmOC, map[], [], "t");
    assert !Contains("", "a" + ",");
    assert "a" !in r;
    assert r.Keys == {"external", SentinelKey, TemplateKey};
  }
}
