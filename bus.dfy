// The system bus: an ordered list of components; an access goes to the
// first registered component whose inclusive window contains the address.
module Bus {
  import opened Common
  import Ram
  import Hardware
  import Mirror

  /** A component of the bus: a device, or a mirror onto another component. */
  datatype Component = Device(device: Hardware.Device) | Mirrored(mirror: Mirror.Mirror)

  function StartAddr(c: Component): u16 {
    match c
    case Device(d) => Hardware.StartAddr(d)
    case Mirrored(m) => m.start
  }

  function EndAddr(c: Component): u16 {
    match c
    case Device(d) => Hardware.EndAddr(d)
    case Mirrored(m) => m.end
  }

  predicate Contains(c: Component, addr: u16) {
    StartAddr(c) <= addr <= EndAddr(c)
  }

  /** Every device on the bus satisfies its representation invariant. */
  predicate Valid(comps: seq<Component>) {
    forall j :: 0 <= j < |comps| && comps[j].Device? ==> Hardware.Valid(comps[j].device)
  }

  /** The first component at position `i` or later whose window holds `addr`. */
  function SelectFrom(comps: seq<Component>, addr: u16, i: nat): (r: Option<nat>)
    requires i <= |comps|
    ensures r.Some? ==> i <= r.value < |comps| && Contains(comps[r.value], addr)
    ensures r.Some? ==> forall j :: i <= j < r.value ==> !Contains(comps[j], addr)
    ensures r.None? ==> forall j :: i <= j < |comps| ==> !Contains(comps[j], addr)
    decreases |comps| - i
  {
    if i == |comps| then None
    else if Contains(comps[i], addr) then Some(i)
    else SelectFrom(comps, addr, i + 1)
  }

  /** `getComponent`: the first registered component that holds `addr`. */
  function Select(comps: seq<Component>, addr: u16): (r: Option<nat>)
    ensures r.Some? ==> r.value < |comps| && Contains(comps[r.value], addr)
    ensures r.Some? ==> forall j :: 0 <= j < r.value ==> !Contains(comps[j], addr)
    ensures r.None? <==> forall j :: 0 <= j < |comps| ==> !Contains(comps[j], addr)
  {
    SelectFrom(comps, addr, 0)
  }

  /** True when a mirror's backing is a device on the same bus. */
  predicate Wired(comps: seq<Component>, m: Mirror.Mirror) {
    m.backing < |comps| && comps[m.backing].Device?
  }

  /**
   * The position whose state an access to `addr` acts on: the selected
   * device, or the backing of the selected mirror.
   */
  function Target(comps: seq<Component>, addr: u16): (t: Option<nat>)
    ensures t.None? <==> Select(comps, addr).None?
    ensures t.Some? ==> t.value < |comps|
    ensures t.Some? && comps[t.value].Mirrored? ==> t == Select(comps, addr)
  {
    match Select(comps, addr)
    case None => None
    case Some(k) =>
      if comps[k].Mirrored? && Wired(comps, comps[k].mirror) then Some(comps[k].mirror.backing)
      else Some(k)
  }

  /** True when two component states have the same kind, window and wiring. */
  predicate SameShape(c: Component, c': Component) {
    match c
    case Device(d) => c'.Device? && Hardware.SameKind(d, c'.device)
    case Mirrored(m) => c' == c
  }

  predicate SameLayout(a: seq<Component>, b: seq<Component>) {
    |a| == |b| && forall j :: 0 <= j < |a| ==> SameShape(a[j], b[j])
  }

  /** Every component other than a PPU register file is as it was. */
  predicate OnlyPpuChanged(a: seq<Component>, b: seq<Component>) {
    |a| == |b| && forall j :: 0 <= j < |a| && !(a[j].Device? && a[j].device.PpuDevice?) ==> b[j] == a[j]
  }

  /** The interface call on the component at position `k`. */
  function Delegate(comps: seq<Component>, k: nat, addr: u16, p: Ptr): (res: Loaded<seq<Component>>)
    requires Valid(comps) && k < |comps|
    ensures Valid(res.state) && SameLayout(comps, res.state)
    ensures p.Cell? ==> res.out.Cell?
    ensures comps[k].Device? ==>
      var l := Hardware.Read(comps[k].device, addr, p);
      res == Loaded(l.err, l.out, comps[k := Device(l.state)])
    ensures comps[k].Mirrored? && !Wired(comps, comps[k].mirror) ==>
      res == Loaded(Some(DanglingMirror), p, comps)
    ensures comps[k].Mirrored? && Wired(comps, comps[k].mirror) ==>
      var b := comps[k].mirror.backing;
      var l := Mirror.Read(comps[k].mirror, comps[b].device, addr, p);
      res == Loaded(l.err, l.out, comps[b := Device(l.state)])
  {
    match comps[k]
    case Device(d) =>
      var l := Hardware.Read(d, addr, p);
      Loaded(l.err, l.out, comps[k := Device(l.state)])
    case Mirrored(m) =>
      if !Wired(comps, m) then Loaded(Some(DanglingMirror), p, comps)
      else
        var l := Mirror.Read(m, comps[m.backing].device, addr, p);
        Loaded(l.err, l.out, comps[m.backing := Device(l.state)])
  }

  /** `SystemBus.Read` on a list of components. */
  function Load(comps: seq<Component>, addr: u16, p: Ptr): (res: Loaded<seq<Component>>)
    requires Valid(comps)
    ensures Valid(res.state) && SameLayout(comps, res.state)
    ensures Select(comps, addr).None? ==> res == Loaded(Some(NoComponent), p, comps)
    ensures p.Cell? ==> res.out.Cell?
    ensures Select(comps, addr).Some? && comps[Select(comps, addr).value].Device? ==>
      var k := Select(comps, addr).value;
      var l := Hardware.Read(comps[k].device, addr, p);
      res == Loaded(l.err, l.out, comps[k := Device(l.state)])
    ensures Select(comps, addr).Some? && comps[Select(comps, addr).value].Mirrored? ==>
      var m := comps[Select(comps, addr).value].mirror;
      if !Wired(comps, m) then res == Loaded(Some(DanglingMirror), p, comps)
      else
        var l := Mirror.Read(m, comps[m.backing].device, addr, p);
        res == Loaded(l.err, l.out, comps[m.backing := Device(l.state)])
  {
    match Select(comps, addr)
    case None => Loaded(Some(NoComponent), p, comps)
    case Some(k) => Delegate(comps, k, addr, p)
  }

  /** A read changes no component other than a PPU register file. */
  lemma LoadFrame(comps: seq<Component>, addr: u16, p: Ptr)
    requires Valid(comps)
    ensures OnlyPpuChanged(comps, Load(comps, addr, p).state)
  {
  }

  /** The interface call on the component at position `k`. */
  function DelegateWrite(comps: seq<Component>, k: nat, addr: u16, v: u8): (res: Stored<seq<Component>>)
    requires Valid(comps) && k < |comps|
    ensures Valid(res.state) && SameLayout(comps, res.state)
    ensures comps[k].Device? ==>
      var s := Hardware.Write(comps[k].device, addr, v);
      res == Stored(s.err, comps[k := Device(s.state)])
    ensures comps[k].Mirrored? && !Wired(comps, comps[k].mirror) ==>
      res == Stored(Some(DanglingMirror), comps)
    ensures comps[k].Mirrored? && Wired(comps, comps[k].mirror) ==>
      var b := comps[k].mirror.backing;
      var s := Mirror.Write(comps[k].mirror, comps[b].device, addr, v);
      res == Stored(s.err, comps[b := Device(s.state)])
  {
    match comps[k]
    case Device(d) =>
      var s := Hardware.Write(d, addr, v);
      Stored(s.err, comps[k := Device(s.state)])
    case Mirrored(m) =>
      if !Wired(comps, m) then Stored(Some(DanglingMirror), comps)
      else
        var s := Mirror.Write(m, comps[m.backing].device, addr, v);
        Stored(s.err, comps[m.backing := Device(s.state)])
  }

  /** `SystemBus.Write` on a list of components. */
  function Store(comps: seq<Component>, addr: u16, v: u8): (res: Stored<seq<Component>>)
    requires Valid(comps)
    ensures Valid(res.state) && SameLayout(comps, res.state)
    ensures Select(comps, addr).None? ==> res == Stored(Some(NoComponent), comps)
    ensures forall j :: 0 <= j < |comps| && Some(j) != Target(comps, addr) ==> res.state[j] == comps[j]
    ensures forall j :: 0 <= j < |comps| && !(comps[j].Device? && comps[j].device.RamDevice?) ==>
      res.state[j] == comps[j]
    ensures Select(comps, addr).Some? && comps[Select(comps, addr).value].Device? ==>
      var k := Select(comps, addr).value;
      var s := Hardware.Write(comps[k].device, addr, v);
      res == Stored(s.err, comps[k := Device(s.state)])
    ensures Select(comps, addr).Some? && comps[Select(comps, addr).value].Mirrored? ==>
      var m := comps[Select(comps, addr).value].mirror;
      if !Wired(comps, m) then res == Stored(Some(DanglingMirror), comps)
      else
        var s := Mirror.Write(m, comps[m.backing].device, addr, v);
        res == Stored(s.err, comps[m.backing := Device(s.state)])
  {
    match Select(comps, addr)
    case None => Stored(Some(NoComponent), comps)
    case Some(k) => DelegateWrite(comps, k, addr, v)
  }

  /** Selection depends only on the windows, which accesses never change. */
  lemma {:induction false} SelectFromLayout(a: seq<Component>, b: seq<Component>, addr: u16, i: nat)
    requires SameLayout(a, b) && i <= |a|
    ensures SelectFrom(a, addr, i) == SelectFrom(b, addr, i)
    decreases |a| - i
  {
    if i < |a| {
      assert Contains(a[i], addr) == Contains(b[i], addr);
      SelectFromLayout(a, b, addr, i + 1);
    }
  }

  lemma SelectLayout(a: seq<Component>, b: seq<Component>, addr: u16)
    requires SameLayout(a, b)
    ensures Select(a, addr) == Select(b, addr)
  {
    SelectFromLayout(a, b, addr, 0);
  }

  /**
   * Appending a component keeps the owner of every address already owned,
   * and makes the new component the owner of the addresses nobody held.
   */
  lemma AppendKeepsOwners(comps: seq<Component>, c: Component, addr: u16)
    ensures Select(comps, addr).Some? ==> Select(comps + [c], addr) == Select(comps, addr)
    ensures Select(comps, addr).None? ==>
      Select(comps + [c], addr) == if Contains(c, addr) then Some(|comps|) else None
  {
    var t := comps + [c];
    match Select(comps, addr)
    case Some(k) =>
      assert forall j :: 0 <= j <= k ==> t[j] == comps[j];
    case None =>
      assert forall j :: 0 <= j < |comps| ==> t[j] == comps[j];
      assert t[|comps|] == c;
      if Select(t, addr).Some? {
        assert Select(t, addr).value == |comps|;
      }
  }

  /** The first component holding `addr` is the one selected. */
  lemma FirstMatch(comps: seq<Component>, addr: u16, k: nat)
    requires k < |comps| && Contains(comps[k], addr)
    requires forall j :: 0 <= j < k ==> !Contains(comps[j], addr)
    ensures Select(comps, addr) == Some(k)
  {
  }

  /** A component whose start lies above its end is never selected. */
  lemma EmptyWindowNeverSelected(comps: seq<Component>, k: nat, addr: u16)
    requires k < |comps| && StartAddr(comps[k]) > EndAddr(comps[k])
    ensures Select(comps, addr) != Some(k)
  {
  }

  /** On a bus with no components every access fails and changes nothing. */
  lemma EmptyBusFails(addr: u16, p: Ptr, v: u8)
    ensures Load([], addr, p) == Loaded(Some(NoComponent), p, [])
    ensures Store([], addr, v) == Stored(Some(NoComponent), [])
  {
  }

  /** Every device on the bus is `Hardware.Sound`. */
  predicate Sound(comps: seq<Component>) {
    forall j :: 0 <= j < |comps| && comps[j].Device? ==> Hardware.Sound(comps[j].device)
  }

  /**
   * On a sound bus a read into a destination never panics: the access either
   * fails with one of the components' errors or succeeds.
   */
  lemma LoadNeverPanics(comps: seq<Component>, addr: u16, p: Ptr)
    requires Valid(comps) && Sound(comps) && p.Cell?
    ensures Load(comps, addr, p).err != Some(RuntimePanic)
  {
    var k := Select(comps, addr);
    if k.Some? {
      match comps[k.value]
      case Device(d) =>
        Hardware.ReadNeverPanics(d, addr, p);
      case Mirrored(m) =>
        if Wired(comps, m) {
          var d := comps[m.backing].device;
          if Mirror.InReach(m, d, addr) {
            Hardware.ReadNeverPanics(d, Mirror.Translate(m, d, addr), p);
          }
        }
    }
  }

  /** On a sound bus a write never panics. */
  lemma StoreNeverPanics(comps: seq<Component>, addr: u16, v: u8)
    requires Valid(comps) && Sound(comps)
    ensures Store(comps, addr, v).err != Some(RuntimePanic)
  {
    var k := Select(comps, addr);
    if k.Some? {
      match comps[k.value]
      case Device(d) =>
        Hardware.WriteNeverPanics(d, addr, v);
      case Mirrored(m) =>
        if Wired(comps, m) {
          var d := comps[m.backing].device;
          if Mirror.InReach(m, d, addr) {
            Hardware.WriteNeverPanics(d, Mirror.Translate(m, d, addr), v);
          }
        }
    }
  }

  /**
   * The bus object: it owns the list of components in registration order
   * and updates the selected component's state in place.
   */
  class SystemBus {
    var components: seq<Component>

    /** `NewSystembus`: a bus with no components (it never fails). */
    constructor ()
      ensures components == []
    {
      components := [];
    }

    /** `AddComponent`: appends at the end, keeping the earlier ones. */
    method AddComponent(c: Component)
      modifies this
      ensures components == old(components) + [c]
    {
      components := components + [c];
    }

    /** `Read`: selects the owner of `addr` and delegates to it. */
    method Read(addr: u16, p: Ptr) returns (err: Option<Error>, out: Ptr)
      requires Valid(components)
      modifies this
      ensures Loaded(err, out, components) == Load(old(components), addr, p)
    {
      var owner := Select(components, addr);
      if owner.None? {
        return Some(NoComponent), p;
      }
      var res := Delegate(components, owner.value, addr, p);
      components := res.state;
      err, out := res.err, res.out;
    }

    /** `Write`: selects the owner of `addr` and delegates to it. */
    method Write(addr: u16, v: u8) returns (err: Option<Error>)
      requires Valid(components)
      modifies this
      ensures Stored(err, components) == Store(old(components), addr, v)
    {
      var owner := Select(components, addr);
      if owner.None? {
        return Some(NoComponent);
      }
      var res := DelegateWrite(components, owner.value, addr, v);
      components := res.state;
      err := res.err;
    }
  }
}
