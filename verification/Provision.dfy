/** The whole run: refuse, resolve, probe, check idle, set modes, persist, bind, release, verify. */
module Provision {
  import opened Text
  import opened Modes
  import opened Knobs
  import opened Machine
  import opened Devices
  import opened Idle
  import opened BootConfig
  import N = Nvidia

  /** What does not change on a node: its devices, the tables of `pcilibs_rs`, the kernel,
      whether the IOMMU is on, and the cdevs sysfs lists for a device. */
  datatype Site = Site(
    inventory: seq<PciDevice>,
    cat: Catalog,
    kernel: Kernel,
    iommu: bool,
    cdevs: Address -> seq<string>)

  datatype VfioDriver = VfioDriver(modl: string, driver: string)

  /** How far a run got: the stage that ended it with an error, or `Done`. */
  datatype Stage =
    Refusing | Resolving | Idling | Moding | Persisting | Binding | Releasing | Checking | Done

  datatype Ended = Ended(w: World, stage: Stage)

  // ---------------------------------------------------------------- refusing

  /** `host::check`: passthrough can work, and no host GPU driver runs. */
  predicate HostOk(site: Site, drivers: map<Address, string>) {
    site.iommu && forall a | a in drivers :: drivers[a] != "nvidia" && drivers[a] != "nouveau"
  }

  /** `verify_capable`. */
  predicate Capable(cat: Catalog, states: seq<DeviceState>, mode: Mode) {
    mode.CcReady() ==>
      && (forall s | s in states && s.IsGpu() :: if mode == Ppcie then s.CarriesPpcie(cat) else s.CcCapable())
      && (mode.CcTarget() != CcOff ==> forall s | s in states && s.IsGpu() :: !cat.isC2c(s.deviceId))
  }

  /** `passthrough_set`: only PPCIE takes the switches off the host. */
  function Passthrough(states: seq<DeviceState>, mode: Mode): seq<DeviceState> {
    if states == [] then []
    else
      var before, s := Passthrough(states[..|states| - 1], mode), states[|states| - 1];
      if mode == Ppcie || !s.IsSwitch() then before + [s] else before
  }

  predicate Kept(pass: seq<DeviceState>, a: Address) { exists s | s in pass :: s.address == a }

  // ---------------------------------------------------------------- resolving

  /** `resolve_module`: a coherently attached GPU must not fall back to vfio-pci. */
  function ResolveModule(site: Site, s: DeviceState): Option<string> {
    var modl := VfioModule(site.kernel, s.vendor, s.deviceId, N.GenericVfioSupported(site.cat, s));
    if modl.Some? && site.cat.isC2c(s.deviceId) && Normalize(modl.value) == VFIO_PCI then None else modl
  }

  function ResolveOne(site: Site, s: DeviceState): seq<Event> {
    var modl := ResolveModule(site, s);
    if modl.None? then [Bail]
    else if site.kernel.registers(modl.value).None? then [Load(modl.value), Bail]
    else [Load(modl.value)]
  }

  function ResolveParts(site: Site, states: seq<DeviceState>): (parts: seq<seq<Event>>)
    ensures |parts| == |states| && forall i | 0 <= i < |states| :: parts[i] == ResolveOne(site, states[i])
  {
    seq(|states|, i requires 0 <= i < |states| => ResolveOne(site, states[i]))
  }

  function ResolveScript(site: Site, states: seq<DeviceState>): seq<Event> { Flatten(ResolveParts(site, states)) }

  function Target(site: Site, s: DeviceState): VfioDriver {
    var modl := ResolveModule(site, s);
    var driver := if modl.Some? then site.kernel.registers(modl.value) else None;
    VfioDriver(if modl.Some? then modl.value else "", if driver.Some? then driver.value else "")
  }

  function DriversOf(site: Site, states: seq<DeviceState>): map<Address, VfioDriver> {
    if states == [] then map[]
    else
      var s := states[|states| - 1];
      DriversOf(site, states[..|states| - 1])[s.address := Target(site, s)]
  }

  lemma {:induction false} DriversCover(site: Site, states: seq<DeviceState>)
    ensures Covers(DriversOf(site, states), states)
  {
    if states != [] {
      DriversCover(site, states[..|states| - 1]);
      assert states == states[..|states| - 1] + [states[|states| - 1]];
    }
  }

  predicate Covers(drivers: map<Address, VfioDriver>, states: seq<DeviceState>) {
    forall s | s in states :: s.address in drivers
  }

  method ResolveDrivers(node: Node, site: Site, states: seq<DeviceState>)
    returns (r: Option<map<Address, VfioDriver>>)
    modifies node
    ensures Ran(node.View(), r.Some?) == RunAll(old(node.View()), ResolveScript(site, states))
    ensures r.Some? ==> r.value == DriversOf(site, states)
  {
    ghost var w, script := node.View(), ResolveScript(site, states);
    r := ResolveEach(node, site, states, Course(w, script), w, script, ResolveParts(site, states));
  }

  method ResolveEach(node: Node, site: Site, states: seq<DeviceState>, ghost at: nat -> Ran, ghost w: World,
                     ghost script: seq<Event>, ghost parts: seq<seq<Event>>)
    returns (r: Option<map<Address, VfioDriver>>)
    requires Tracks(at, w, script) && script == Flatten(parts)
    requires |parts| == |states| && forall i | 0 <= i < |states| :: parts[i] == ResolveOne(site, states[i])
    requires Ran(node.View(), true) == at(0)
    modifies node
    ensures Ran(node.View(), r.Some?) == at(|script|)
    ensures r.Some? ==> r.value == DriversOf(site, states)
  {
    FlattenNone();
    hide Flatten, RunAll, Window;
    ghost var n: nat := 0;
    assert parts[..0] == [];
    var drivers: map<Address, VfioDriver> := map[];
    for i := 0 to |states|
      invariant Ran(node.View(), true) == at(n) && n == |Flatten(parts[..i])|
      invariant drivers == DriversOf(site, states[..i])
    {
      FlattenWindow(parts, i);
      var ok;
      ok, drivers := ResolveNext(node, site, states, i, drivers, at, w, script, n);
      if !ok { return None; }
      n := n + |parts[i]|;
    }
    assert states[..|states|] == states && parts[..|parts|] == parts;
    return Some(drivers);
  }

  method ResolveNext(node: Node, site: Site, states: seq<DeviceState>, i: nat, before: map<Address, VfioDriver>,
                     ghost at: nat -> Ran, ghost w: World, ghost script: seq<Event>, ghost start: nat)
    returns (ok: bool, drivers: map<Address, VfioDriver>)
    requires i < |states| && before == DriversOf(site, states[..i])
    requires Tracks(at, w, script) && Window(script, start, ResolveOne(site, states[i]))
    requires Ran(node.View(), true) == at(start)
    modifies node
    ensures ok ==> Ran(node.View(), true) == at(start + |ResolveOne(site, states[i])|)
    ensures ok ==> drivers == DriversOf(site, states[..i + 1])
    ensures !ok ==> Ran(node.View(), false) == at(|script|)
  {
    var target;
    ok, target := ResolveDevice(node, site, states[i], at, w, script, start);
    drivers := before[states[i].address := target];
    DriversMore(site, states, i);
  }

  lemma DriversMore(site: Site, states: seq<DeviceState>, i: nat)
    requires i < |states|
    ensures DriversOf(site, states[..i + 1])
            == DriversOf(site, states[..i])[states[i].address := Target(site, states[i])]
  {
    assert states[..i + 1][..i] == states[..i];
  }

  method ResolveDevice(node: Node, site: Site, s: DeviceState, ghost at: nat -> Ran, ghost w: World,
                       ghost script: seq<Event>, ghost start: nat)
    returns (ok: bool, target: VfioDriver)
    requires Tracks(at, w, script) && Window(script, start, ResolveOne(site, s))
    requires Ran(node.View(), true) == at(start)
    modifies node
    ensures ok ==> Ran(node.View(), true) == at(start + |ResolveOne(site, s)|) && target == Target(site, s)
    ensures !ok ==> Ran(node.View(), false) == at(|script|)
  {
    target := VfioDriver("", "");
    ghost var one := ResolveOne(site, s);
    WindowAt(script, start, one, 0);
    var modl := ResolveModule(site, s);
    if modl.None? {
      BailStops(at, w, script, start);
      ok := Follow(node, at, w, script, start, Bail);
      return;
    }
    ok := Follow(node, at, w, script, start, Load(modl.value));
    if !ok { return; }
    var driver := site.kernel.registers(modl.value);
    if driver.None? {
      WindowAt(script, start, one, 1);
      BailStops(at, w, script, start + 1);
      ok := Follow(node, at, w, script, start + 1, Bail);
      return;
    }
    target := VfioDriver(modl.value, driver.value);
  }

  /** A script never gets past a `Bail`. */
  lemma BailStops(at: nat -> Ran, w: World, script: seq<Event>, n: nat)
    requires Tracks(at, w, script) && n < |script| && script[n] == Bail
    ensures !at(n + 1).ok
  {
    assert at(n + 1) == RunAll(w, script[..n + 1]);
    assert script[..n + 1] == script[..n] + [Bail];
    RunMore(w, script[..n], Bail);
  }

  // ---------------------------------------------------------------- checking idle

  /** Variant drivers carry the name of the one they replace somewhere in their own. */
  predicate IsVfio(driver: Option<string>) {
    driver.Some? && Contains(Normalize(driver.value), "vfio")
  }

  function BoundTo(drivers: map<Address, string>, a: Address): Option<string> {
    if a in drivers then Some(drivers[a]) else None
  }

  /** The run may write, bind or release this device, so it must be idle. */
  predicate IsWritable(bound: map<Address, string>, s: DeviceState, pass: seq<DeviceState>,
                       drivers: map<Address, VfioDriver>, mode: Mode, unreadable: set<Address>) {
    var current := BoundTo(bound, s.address);
    if !Kept(pass, s.address) then IsVfio(current)
    else if s.address !in drivers then true
    else if current != Some(drivers[s.address].driver) then true
    else s.address in unreadable || WritesFor(s.seen, mode) != []
  }

  /** `writable`. */
  function Writable(bound: map<Address, string>, states: seq<DeviceState>, pass: seq<DeviceState>,
                    drivers: map<Address, VfioDriver>, mode: Mode, unreadable: set<Address>): seq<DeviceState> {
    if states == [] then []
    else
      var before, s := Writable(bound, states[..|states| - 1], pass, drivers, mode, unreadable), states[|states| - 1];
      if IsWritable(bound, s, pass, drivers, mode, unreadable) then before + [s] else before
  }

  ghost predicate Held(site: Site, procs: seq<ProcEntry>, s: DeviceState) {
    InUse(procs, s.iommuGroup, site.cdevs(s.address))
  }

  ghost predicate AllIdle(site: Site, procs: seq<ProcEntry>, states: seq<DeviceState>) {
    forall s | s in states :: !Held(site, procs, s)
  }

  method VerifyIdle(site: Site, procs: seq<ProcEntry>, states: seq<DeviceState>) returns (idle: bool)
    ensures idle <==> AllIdle(site, procs, states)
  {
    for i := 0 to |states|
      invariant AllIdle(site, procs, states[..i])
    {
      var found := Holders(procs, states[i].iommuGroup, site.cdevs(states[i].address));
      assert states[..i + 1] == states[..i] + [states[i]];
      if found != [] {
        assert Held(site, procs, states[i]);
        return false;
      }
    }
    assert states[..|states|] == states;
    return true;
  }

  // ---------------------------------------------------------------- binding, releasing, verifying

  function Claims(pass: seq<DeviceState>, drivers: map<Address, VfioDriver>): seq<Claim>
    requires Covers(drivers, pass)
  {
    seq(|pass|, i requires 0 <= i < |pass| =>
      var s, d := pass[i], drivers[pass[i].address];
      Claim(s.address, s.vendor, s.deviceId, d.modl, d.driver))
  }

  function BindScript(pass: seq<DeviceState>, drivers: map<Address, VfioDriver>): seq<Event>
    requires Covers(drivers, pass)
  {
    seq(|pass|, i requires 0 <= i < |pass| => Bind(pass[i].address, drivers[pass[i].address].driver))
  }

  method BindAll(node: Node, pass: seq<DeviceState>, drivers: map<Address, VfioDriver>) returns (ok: bool)
    requires Covers(drivers, pass)
    modifies node
    ensures Ran(node.View(), ok) == RunAll(old(node.View()), BindScript(pass, drivers))
  {
    ghost var w, script := node.View(), BindScript(pass, drivers);
    ghost var at := Course(w, script);
    for i := 0 to |pass|
      invariant Ran(node.View(), true) == at(i)
    {
      ok := Follow(node, at, w, script, i, Bind(pass[i].address, drivers[pass[i].address].driver));
      if !ok { return; }
    }
    ok := true;
  }

  function ReleaseOne(bound: map<Address, string>, pass: seq<DeviceState>, s: DeviceState): seq<Event> {
    if !Kept(pass, s.address) && IsVfio(BoundTo(bound, s.address)) then [Unbind(s.address)] else []
  }

  function ReleaseScript(bound: map<Address, string>, states: seq<DeviceState>, pass: seq<DeviceState>): seq<Event> {
    Flatten(ReleaseParts(bound, states, pass))
  }

  function ReleaseParts(bound: map<Address, string>, states: seq<DeviceState>,
                        pass: seq<DeviceState>): (parts: seq<seq<Event>>)
    ensures |parts| == |states| && forall i | 0 <= i < |states| :: parts[i] == ReleaseOne(bound, pass, states[i])
  {
    seq(|states|, i requires 0 <= i < |states| => ReleaseOne(bound, pass, states[i]))
  }

  /** `release`: a device dropped out of the set is handed back, if vfio holds it. */
  method Release(node: Node, states: seq<DeviceState>, pass: seq<DeviceState>) returns (ok: bool)
    requires UniqueAddresses(states)
    modifies node
    ensures Ran(node.View(), ok) == RunAll(old(node.View()), ReleaseScript(old(node.drivers), states, pass))
  {
    ghost var w, script := node.View(), ReleaseScript(node.drivers, states, pass);
    ok := ReleaseEach(node, states, pass, Course(w, script), w, script, ReleaseParts(node.drivers, states, pass));
  }

  method ReleaseEach(node: Node, states: seq<DeviceState>, pass: seq<DeviceState>, ghost at: nat -> Ran,
                     ghost w: World, ghost script: seq<Event>, ghost parts: seq<seq<Event>>)
    returns (ok: bool)
    requires Tracks(at, w, script) && script == Flatten(parts)
    requires |parts| == |states| && forall i | 0 <= i < |states| ::
      parts[i] == ReleaseOne(node.drivers, pass, states[i])
    requires Ran(node.View(), true) == at(0) && UniqueAddresses(states)
    modifies node
    ensures Ran(node.View(), ok) == at(|script|)
  {
    FlattenNone();
    hide Flatten, RunAll, Window;
    ghost var bound := node.drivers;
    ghost var n: nat := 0;
    assert parts[..0] == [];
    for i := 0 to |states|
      invariant Ran(node.View(), true) == at(n) && n == |Flatten(parts[..i])|
      invariant forall j | i <= j < |states| ::
        BoundTo(node.drivers, states[j].address) == BoundTo(bound, states[j].address)
    {
      FlattenWindow(parts, i);
      ok := ReleaseDevice(node, states[i], pass, at, w, script, n);
      if !ok { return; }
      n := n + |parts[i]|;
    }
    assert parts[..|parts|] == parts;
    ok := true;
  }

  method ReleaseDevice(node: Node, s: DeviceState, pass: seq<DeviceState>,
                       ghost at: nat -> Ran, ghost w: World, ghost script: seq<Event>, ghost start: nat)
    returns (ok: bool)
    requires Tracks(at, w, script) && Window(script, start, ReleaseOne(node.drivers, pass, s))
    requires Ran(node.View(), true) == at(start)
    modifies node
    ensures ok ==> Ran(node.View(), true) == at(start + |ReleaseOne(old(node.drivers), pass, s)|)
    ensures !ok ==> Ran(node.View(), false) == at(|script|)
    ensures forall a | a != s.address :: BoundTo(node.drivers, a) == BoundTo(old(node.drivers), a)
  {
    ok := true;
    if !Kept(pass, s.address) && IsVfio(BoundTo(node.drivers, s.address)) {
      WindowAt(script, start, ReleaseOne(node.drivers, pass, s), 0);
      ghost var before := node.drivers;
      ok := Follow(node, at, w, script, start, Unbind(s.address));
      forall a | a != s.address ensures BoundTo(node.drivers, a) == BoundTo(before, a) {
        assert BoundTo(node.drivers, a) == BoundTo(node.drivers - {s.address}, a);
        assert BoundTo(before, a) == BoundTo(before - {s.address}, a);
      }
    }
  }

  function CheckOne(cat: Catalog, mode: Mode, drivers: map<Address, VfioDriver>, s: DeviceState): seq<Event>
    requires s.address in drivers
  {
    var kind := Opens(cat, s);
    [CheckBound(s.address, drivers[s.address].driver)]
    + (if kind.None? then [] else [Open(s.address), Verify(s.address, kind.value, mode)])
  }

  function CheckScript(cat: Catalog, mode: Mode, pass: seq<DeviceState>, drivers: map<Address, VfioDriver>): seq<Event>
    requires Covers(drivers, pass)
  {
    Flatten(CheckParts(cat, mode, pass, drivers))
  }

  function CheckParts(cat: Catalog, mode: Mode, pass: seq<DeviceState>,
                      drivers: map<Address, VfioDriver>): (parts: seq<seq<Event>>)
    requires Covers(drivers, pass)
    ensures |parts| == |pass| && forall i | 0 <= i < |pass| :: parts[i] == CheckOne(cat, mode, drivers, pass[i])
  {
    seq(|pass|, i requires 0 <= i < |pass| => CheckOne(cat, mode, drivers, pass[i]))
  }

  /** `verify`: looks again at what the earlier stages believe they did. */
  method VerifyNode(node: Node, cat: Catalog, mode: Mode, pass: seq<DeviceState>, drivers: map<Address, VfioDriver>)
    returns (ok: bool)
    requires Covers(drivers, pass)
    modifies node
    ensures Ran(node.View(), ok) == RunAll(old(node.View()), CheckScript(cat, mode, pass, drivers))
  {
    ghost var w, script := node.View(), CheckScript(cat, mode, pass, drivers);
    ok := VerifyEach(node, cat, mode, pass, drivers, Course(w, script), w, script,
                     CheckParts(cat, mode, pass, drivers));
  }

  method VerifyEach(node: Node, cat: Catalog, mode: Mode, pass: seq<DeviceState>, drivers: map<Address, VfioDriver>,
                    ghost at: nat -> Ran, ghost w: World, ghost script: seq<Event>, ghost parts: seq<seq<Event>>)
    returns (ok: bool)
    requires Covers(drivers, pass)
    requires Tracks(at, w, script) && script == Flatten(parts)
    requires |parts| == |pass| && forall i | 0 <= i < |pass| :: parts[i] == CheckOne(cat, mode, drivers, pass[i])
    requires Ran(node.View(), true) == at(0)
    modifies node
    ensures Ran(node.View(), ok) == at(|script|)
  {
    FlattenNone();
    hide Flatten, RunAll, Window;
    ghost var n: nat := 0;
    assert parts[..0] == [];
    for i := 0 to |pass|
      invariant Ran(node.View(), true) == at(n) && n == |Flatten(parts[..i])|
    {
      FlattenWindow(parts, i);
      ok := VerifyDevice(node, cat, mode, pass[i], drivers, at, w, script, n);
      if !ok { return; }
      n := n + |parts[i]|;
    }
    assert parts[..|parts|] == parts;
    ok := true;
  }

  method VerifyDevice(node: Node, cat: Catalog, mode: Mode, s: DeviceState, drivers: map<Address, VfioDriver>,
                      ghost at: nat -> Ran, ghost w: World, ghost script: seq<Event>, ghost start: nat)
    returns (ok: bool)
    requires s.address in drivers
    requires Tracks(at, w, script) && Window(script, start, CheckOne(cat, mode, drivers, s))
    requires Ran(node.View(), true) == at(start)
    modifies node
    ensures ok ==> Ran(node.View(), true) == at(start + |CheckOne(cat, mode, drivers, s)|)
    ensures !ok ==> Ran(node.View(), false) == at(|script|)
  {
    ghost var one := CheckOne(cat, mode, drivers, s);
    WindowAt(script, start, one, 0);
    ok := Follow(node, at, w, script, start, CheckBound(s.address, drivers[s.address].driver));
    if !ok { return; }
    var kind := Opens(cat, s);
    if kind.Some? {
      WindowAt(script, start, one, 1);
      ok := Follow(node, at, w, script, start + 1, Open(s.address));
      if !ok { return; }
      WindowAt(script, start, one, 2);
      ok := Follow(node, at, w, script, start + 2, Verify(s.address, kind.value, mode));
    }
  }

  // ---------------------------------------------------------------- the pipeline

  /** The stages after the idle check, which change the node. */
  ghost function Change(site: Site, w: World, states: seq<DeviceState>, mode: Mode,
                        pass: seq<DeviceState>, drivers: map<Address, VfioDriver>): Ended
    requires Covers(drivers, pass)
  {
    var r1 := RunAll(w, N.Board(site.cat, states, w, mode));
    if !r1.ok then Ended(r1.w, Moding) else
    var r2 := RunAll(r1.w, PersistEvents(Claims(pass, drivers)));
    if !r2.ok then Ended(r2.w, Persisting) else
    var r3 := RunAll(r2.w, BindScript(pass, drivers));
    if !r3.ok then Ended(r3.w, Binding) else
    var r4 := RunAll(r3.w, ReleaseScript(r3.w.drivers, states, pass));
    if !r4.ok then Ended(r4.w, Releasing) else
    var r5 := RunAll(r4.w, CheckScript(site.cat, mode, pass, drivers));
    Ended(r5.w, if r5.ok then Done else Checking)
  }

  /** `apply`, on the node `w`, with the processes of `procs` running. */
  ghost function Run(site: Site, procs: seq<ProcEntry>, w: World, mode: Mode): Ended {
    var states := InScope(site.cat, site.inventory);
    if !HostOk(site, w.drivers) || states == [] || !Capable(site.cat, states, mode) then Ended(w, Refusing) else
    var pass := Passthrough(states, mode);
    var r := RunAll(w, ResolveScript(site, pass));
    if !r.ok then Ended(r.w, Resolving) else
    var drivers := DriversOf(site, pass);
    DriversCover(site, pass);
    var p := N.ProbeAll(site.cat, r.w, states);
    if !AllIdle(site, procs, Writable(p.w.drivers, p.states, pass, drivers, mode, p.unreadable))
    then Ended(p.w, Idling)
    else Change(site, p.w, p.states, mode, pass, drivers)
  }

  method MakeChanges(node: Node, site: Site, states: seq<DeviceState>, mode: Mode,
                     pass: seq<DeviceState>, drivers: map<Address, VfioDriver>)
    returns (stage: Stage)
    requires Covers(drivers, pass) && UniqueAddresses(states)
    modifies node
    ensures Ended(node.View(), stage) == Change(site, old(node.View()), states, mode, pass, drivers)
  {
    var outcomes := N.Apply(node, site.cat, states, mode);
    if outcomes.None? { return Moding; }
    var overridden := Persist(node, Claims(pass, drivers));
    if overridden.None? { return Persisting; }
    var ok := BindAll(node, pass, drivers);
    if !ok { return Binding; }
    ok := Release(node, states, pass);
    if !ok { return Releasing; }
    ok := VerifyNode(node, site.cat, mode, pass, drivers);
    return if ok then Done else Checking;
  }

  /** `apply`. */
  method Apply(node: Node, site: Site, procs: seq<ProcEntry>, mode: Mode) returns (stage: Stage)
    requires UniquePci(site.inventory)
    modifies node
    ensures Ended(node.View(), stage) == Run(site, procs, old(node.View()), mode)
  {
    var states := InScope(site.cat, site.inventory);
    if !HostOk(site, node.drivers) || states == [] || !Capable(site.cat, states, mode) { return Refusing; }
    var pass := Passthrough(states, mode);
    var drivers := ResolveDrivers(node, site, pass);
    if drivers.None? { return Resolving; }
    ghost var resolved := node.View();
    var probed, unreadable := N.ProbeModes(node, site.cat, states);
    var idle := VerifyIdle(site, procs, Writable(node.drivers, probed, pass, drivers.value, mode, unreadable));
    if !idle { return Idling; }
    InScopeUnique(site.cat, site.inventory);
    N.ProbeReads(site.cat, resolved, states);
    DriversCover(site, pass);
    stage := MakeChanges(node, site, probed, mode, pass, drivers.value);
  }
}
