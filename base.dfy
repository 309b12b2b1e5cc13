/** Values shared by every part of the model: Terraform attribute values,
    Go's fixed-width integers, and the errors the provider and the
    hypervisor report. */
module Base {

  const MinInt32: int := -0x8000_0000
  const MaxInt32: int := 0x7fff_ffff
  const MinInt64: int := -0x8000_0000_0000_0000
  const MaxInt64: int := 0x7fff_ffff_ffff_ffff

  /** Go's int32 and int64 (types.Int32 / types.Int64 hold these). */
  type Int32 = x: int | MinInt32 <= x <= MaxInt32
  type Int64 = x: int | MinInt64 <= x <= MaxInt64

  /** A Terraform framework value: known, or unknown until apply.  Taking
      the value of an unknown yields Go's zero value ("", false, 0), as
      ValueString/ValueBool/ValueInt64 do. */
  datatype Tf<T> = Known(value: T) | Unknown {
    function ValueOr(zero: T): T {
      match this
      case Known(v) => v
      case Unknown => zero
    }
  }

  function Str(x: Tf<string>): string { x.ValueOr("") }
  function Bool(x: Tf<bool>): bool { x.ValueOr(false) }
  function I32(x: Tf<Int32>): Int32 { x.ValueOr(0) }
  function I64(x: Tf<Int64>): Int64 { x.ValueOr(0) }
  function StrMap(x: Tf<map<string, string>>): map<string, string> { x.ValueOr(map[]) }

  datatype Option<T> = None | Some(value: T)

  /** Every error the model can return.  The first group is raised by the
      provider itself, the second by the hypervisor it talks to. */
  datatype Error =
    | NoVbdDevice                         // no free VBD slot on the VM
    | NoVifDevice                         // no free VIF slot on the VM
    | InvalidMtu(mtu: int)                // rejected by the provider's MTU check
    | MtuNotUpdatable                     // network_interface.mtu changed
    | MacNotUpdatable                     // network_interface.mac changed
    | Topology(vcpus: int, cores: int)    // vcpus not a multiple of cores-per-socket
    | MissingCoresPerSocket
    | BadCoresPerSocket
    | MissingFirmware
    | MissingSecureboot
    | MissingBootOrder
    | TemplateNotFound
    | UuidInvalid(uuid: string)           // hypervisor: no object with that uuid
    | HandleInvalid(ref: string)          // hypervisor: no VBD/VIF with that reference
    | DeviceUnavailable(device: string)   // hypervisor: slot not free
    | VcpusConstraint                     // hypervisor: 0 < VCPUs_at_startup <= VCPUs_max violated
    | MemoryConstraint                    // hypervisor: memory limits out of order
    | NotRunning                          // hypervisor: hot-plug on a VM that is not running

  datatype Outcome = Pass | Fail(error: Error)

  datatype Result<T> = Ok(value: T) | Err(error: Error)

  /** Go's `m[k]` on a map of strings: the zero value "" when k is absent. */
  function Get(m: map<string, string>, k: string): (v: string)
    ensures k in m ==> v == m[k]
    ensures k !in m ==> v == ""
  {
    if k in m then m[k] else ""
  }

  /** `order` lists every key of `keys` exactly once: one possible
      iteration order of a Go map with those keys. */
  ghost predicate IsOrdering(order: seq<string>, keys: set<string>) {
    && (forall i, j :: 0 <= i < j < |order| ==> order[i] != order[j])
    && (forall k :: k in order <==> k in keys)
  }

  /** Orderings of two disjoint key sets, one after the other, order their
      union. */
  lemma OrderingAppend(a: seq<string>, b: seq<string>, ka: set<string>, kb: set<string>)
    requires IsOrdering(a, ka) && IsOrdering(b, kb) && ka !! kb
    ensures IsOrdering(a + b, ka + kb)
  {
    forall i, j | 0 <= i < j < |a + b|
      ensures (a + b)[i] != (a + b)[j]
    {
      if j < |a| {
      } else if i >= |a| {
        assert (a + b)[i] == b[i - |a|] && (a + b)[j] == b[j - |a|];
      } else {
        assert (a + b)[i] in ka && (a + b)[j] == b[j - |a|] && b[j - |a|] in kb;
      }
    }
  }

  /** Some iteration order of a set of keys. */
  ghost function SomeOrder(keys: set<string>): (order: seq<string>)
    ensures IsOrdering(order, keys)
  {
    if keys == {} then []
    else
      var k :| k in keys;
      var rest := SomeOrder(keys - {k});
      assert forall i :: 0 <= i < |rest| ==> rest[i] != k;
      [k] + rest
  }

  /** The order in which a Go `for k := range m` loop visits the keys of m:
      unspecified, so any ordering of the keys. */
  method RangeOrder<V>(m: map<string, V>) returns (order: seq<string>)
    ensures IsOrdering(order, m.Keys)
  {
    var todo := m.Keys;
    order := [];
    while todo != {}
      invariant todo <= m.Keys
      invariant IsOrdering(order, m.Keys - todo)
      decreases |todo|
    {
      var k :| k in todo;
      OrderingAppend(order, [k], m.Keys - todo, {k});
      order := order + [k];
      todo := todo - {k};
      assert m.Keys - todo == m.Keys - (todo + {k}) + {k};
    }
  }

  lemma AppendAssoc<T>(a: seq<T>, b: seq<T>, c: seq<T>)
    ensures a + b + c == a + (b + c)
  {
  }
}
