/** The Terraform resource data the provider reconciles: the VM resource
    (vmResourceModel) and its nested hard_drive (vbdResourceModel) and
    network_interface (vifResourceModel) elements. */
module Models {
  import opened Base

  /** One hard_drive element. */
  datatype VbdModel = VbdModel(vdi: Tf<string>, vbd: Tf<string>, mode: Tf<string>, bootable: Tf<bool>)

  /** One network_interface element. */
  datatype VifModel = VifModel(
    network: Tf<string>, vif: Tf<string>, mtu: Tf<Int64>, mac: Tf<string>,
    otherConfig: Tf<map<string, string>>)

  /** The VM resource.  The hard_drive and network_interface sets are
      given as sequences: the order in which the framework hands out the
      set's elements is arbitrary. */
  datatype VmModel = VmModel(
    nameLabel: Tf<string>,
    nameDescription: Tf<string>,
    templateName: Tf<string>,
    staticMemMin: Tf<Int64>,
    staticMemMax: Tf<Int64>,
    dynamicMemMin: Tf<Int64>,
    dynamicMemMax: Tf<Int64>,
    vcpus: Tf<Int32>,
    bootMode: Tf<string>,
    bootOrder: Tf<string>,
    corePerSocket: Tf<Int32>,
    otherConfig: Tf<map<string, string>>,
    hardDrive: seq<VbdModel>,
    networkInterface: seq<VifModel>,
    cdrom: Tf<string>)

  /** Natural key of a disk: the uuid of the VDI behind it. */
  function VdiKey(v: VbdModel): string { Str(v.vdi) }

  /** Natural key of a network interface: the uuid of its network. */
  function NetworkKey(v: VifModel): string { Str(v.network) }
}

/** Indexing a list of elements by a natural key, as the provider does with
    `m[key(x)] = x` over the list: a later element with the same key
    replaces an earlier one. */
module Keyed {
  import opened Base

  function Index<T>(s: seq<T>, key: T -> string): (m: map<string, T>)
    ensures m.Keys == set x | x in s :: key(x)
    ensures forall k :: k in m ==> m[k] in s && key(m[k]) == k
  {
    if s == [] then map[]
    else
      var front := s[..|s| - 1];
      var m' := Index(front, key);
      assert s == front + [s[|s| - 1]];
      m'[key(s[|s| - 1]) := s[|s| - 1]]
  }

  /** The element an index keeps for a key is the last one with that key. */
  lemma {:induction false} IndexLastWins<T>(s: seq<T>, key: T -> string, i: int)
    requires 0 <= i < |s|
    requires forall j :: i < j < |s| ==> key(s[j]) != key(s[i])
    ensures Index(s, key)[key(s[i])] == s[i]
  {
    if i < |s| - 1 {
      IndexLastWins(s[..|s| - 1], key, i);
    }
  }

  /** The key of every element, in order. */
  function KeysOf<T>(s: seq<T>, key: T -> string): seq<string> {
    if s == [] then [] else KeysOf(s[..|s| - 1], key) + [key(s[|s| - 1])]
  }

  /** The keys of `order` that `other` does not have, in order. */
  function Unmatched<V>(order: seq<string>, other: map<string, V>): (r: seq<string>)
    ensures forall k :: k in r <==> k in order && k !in other
  {
    if order == [] then []
    else if order[|order| - 1] in other then Unmatched(order[..|order| - 1], other)
    else Unmatched(order[..|order| - 1], other) + [order[|order| - 1]]
  }

  /** Walking an ordering of some keys and keeping those another map lacks
      visits each such key exactly once. */
  lemma {:induction false} UnmatchedOrdering<V>(order: seq<string>, keys: set<string>, other: map<string, V>)
    requires IsOrdering(order, keys)
    ensures IsOrdering(Unmatched(order, other), keys - other.Keys)
    decreases |order|
  {
    if order != [] {
      var n := |order| - 1;
      var front := order[..n];
      assert order == front + [order[n]];
      assert IsOrdering(front, keys - {order[n]});
      UnmatchedOrdering(front, keys - {order[n]}, other);
      if order[n] !in other {
        OrderingAppend(Unmatched(front, other), [order[n]], keys - {order[n]} - other.Keys, {order[n]});
        assert keys - {order[n]} - other.Keys + {order[n]} == keys - other.Keys;
      } else {
        assert keys - {order[n]} - other.Keys == keys - other.Keys;
      }
    }
  }

  /** The value of each key, in order (Go's `m[k]`, "" when absent). */
  function Lookup(m: map<string, string>, keys: seq<string>): seq<string> {
    if keys == [] then [] else Lookup(m, keys[..|keys| - 1]) + [Get(m, keys[|keys| - 1])]
  }

  lemma LookupSnoc(m: map<string, string>, keys: seq<string>, k: string)
    ensures Lookup(m, keys + [k]) == Lookup(m, keys) + [Get(m, k)]
  {
    assert (keys + [k])[..|keys|] == keys;
  }

  /** The loop `for k, v := range src { m[k] = v }`, visiting the keys of
      src in `order`. */
  function Overlay(m: map<string, string>, order: seq<string>, src: map<string, string>): map<string, string>
    requires forall k :: k in order ==> k in src
    decreases |order|
  {
    if order == [] then m
    else
      var k := order[|order| - 1];
      Overlay(m, order[..|order| - 1], src)[k := src[k]]
  }

  /** The entries of src whose key is in `keys`. */
  function Restrict(src: map<string, string>, keys: seq<string>): map<string, string> {
    map k | k in src && k in keys :: src[k]
  }

  lemma {:induction false} OverlayRestrict(m: map<string, string>, order: seq<string>, src: map<string, string>)
    requires forall k :: k in order ==> k in src
    ensures Overlay(m, order, src) == m + Restrict(src, order)
    decreases |order|
  {
    if order != [] {
      var front := order[..|order| - 1];
      var k := order[|order| - 1];
      OverlayRestrict(m, front, src);
      assert order == front + [k];
      assert Restrict(src, order) == Restrict(src, front)[k := src[k]];
    }
  }

  /** Whatever order the loop visits the keys in, it writes every entry of
      src over m and leaves the other entries of m as they were. */
  lemma OverlayAnyOrder(m: map<string, string>, order: seq<string>, src: map<string, string>)
    requires IsOrdering(order, src.Keys)
    ensures Overlay(m, order, src) == m + src
  {
    OverlayRestrict(m, order, src);
    assert Restrict(src, order) == src;
  }
}
