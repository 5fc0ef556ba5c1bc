/** Concrete nodes on which a stated promise fails. */
module Witnesses {
  import opened Text
  import opened Modes
  import opened Knobs
  import opened Machine
  import opened Devices
  import opened Idle
  import opened BootConfig
  import opened Boot
  import opened Provision
  import opened Resolution
  import opened Stages
  import opened Coverage
  import opened Convergence
  import Nvidia
  import Faults

  function Hopper(): Catalog {
    Catalog((d: u16) => if d == 0x2330 then Some(Chip("GH100", true)) else None, (d: u16) => false, (c: u32) => true)
  }

  function H100(a: Address): DeviceState { Discovered(Hopper(), PciDevice(a, NVIDIA, 0x2330, 0x030200, 14)) }

  /** A node as it powers on: every knob off, nothing bound, nothing written. */
  function PoweredOn(env: Env): World { World(env, 0, map[], map[], map[], {}, NO_FILES, []) }

  lemma H100Opens(a: Address)
    ensures Opens(Hopper(), H100(a)) == Some(Gpu(true)) && H100(a).address == a
  {
    ScopeIsVendorAndClass(Hopper(), PciDevice(a, NVIDIA, 0x2330, 0x030200, 14));
  }

  lemma BoardOfTwo(a: Address, b: Address)
    ensures Nvidia.Participants(Hopper(), [H100(a), H100(b)])
            == [Nvidia.Opened(a, Gpu(true)), Nvidia.Opened(b, Gpu(true))]
  {
    var states := [H100(a), H100(b)];
    H100Opens(a);
    H100Opens(b);
    hide Opens, H100, Hopper;
    assert states[..1] == [H100(a)] && states[..1][..0] == [];
    assert Nvidia.Participants(Hopper(), states[..1]) == [Nvidia.Opened(a, Gpu(true))];
  }

  lemma PlansOfTwo(a: Address, b: Address, w: World)
    requires w.stored == map[]
    ensures Nvidia.PendingOf(w, [Nvidia.Opened(a, Gpu(true)), Nvidia.Opened(b, Gpu(true))], On)
            == [Nvidia.Pending(a, Gpu(true), [Cc(CcOn)]), Nvidia.Pending(b, Gpu(true), [Cc(CcOn)])]
  {
    var devices := [Nvidia.Opened(a, Gpu(true)), Nvidia.Opened(b, Gpu(true))];
    PlanOff(w, a);
    PlanOff(w, b);
    hide Nvidia.Plan;
    assert devices[..1] == [Nvidia.Opened(a, Gpu(true))] && devices[..1][..0] == [];
    assert Nvidia.PendingOf(w, devices[..1], On) == [Nvidia.Pending(a, Gpu(true), [Cc(CcOn)])];
  }

  lemma PlanOff(w: World, a: Address)
    requires w.stored == map[]
    ensures Nvidia.Plan(w, Nvidia.Opened(a, Gpu(true)), On) == [Cc(CcOn)]
  {
  }

  /** Two H100s, both off, asked for `on`: a write that fails on the second leaves the
      first reporting `on` and the second `off`. */
  lemma TwoGpusPartWay(a: Address, b: Address)
    requires a != b
    ensures exists w ::
      var r := RunAll(w, Nvidia.Board(Hopper(), [H100(a), H100(b)], w, On)).w;
      && w == PoweredOn(w.env)
      && InMode(See(Gpu(true), r.Stored(a)), On) && !InMode(See(Gpu(true), r.Stored(b)), On)
  {
    var states := [H100(a), H100(b)];
    BoardOfTwo(a, b);
    PlansOfTwo(a, b, PoweredOn(NoFaults()));
    var k := Faults.AfterWriting(Hopper(), states, PoweredOn(NoFaults()), On, 0);
    var w := PoweredOn(StopAt(k));
    PlansOfTwo(a, b, w);
    hide RunAll, Nvidia.Board, InMode, See, Nvidia.Participants, Nvidia.PendingOf, StopAt, Nvidia.WriteEvents;
    assert UniqueAddresses(states);
    Faults.PartWayIsReachable(Hopper(), states, w, On, 0, 1);
  }

  function NoFaults(): Env { Env((i: nat) => NoFault, (i: nat) => false) }

  lemma BoardOfOne(a: Address, w: World)
    requires w.stored == map[]
    ensures Nvidia.Participants(Hopper(), [H100(a)]) == [Nvidia.Opened(a, Gpu(true))]
    ensures Nvidia.Plan(w, Nvidia.Opened(a, Gpu(true)), On) == [Cc(CcOn)]
  {
    H100Opens(a);
    hide Opens, H100;
    assert [H100(a)][..0] == [];
    PlanOff(w, a);
  }

  /** One H100, off, asked for `on`: the run fails at the reset. The next run finds nothing
      to write, resets nothing and succeeds, and the GPU reports `on` and behaves `off`. */
  lemma GpuLeftStale(a: Address)
    ensures exists w ::
      var states := [H100(a)];
      var r := RunAll(w, Nvidia.Board(Hopper(), states, w, On)).w.(env := NoFaults());
      var again := RunAll(r, Nvidia.Board(Hopper(), states, r, On));
      && w == PoweredOn(w.env)
      && again.ok && InMode(See(Gpu(true), again.w.Stored(a)), On) && !InMode(See(Gpu(true), again.w.Latched(a)), On)
  {
    var states, d := [H100(a)], Nvidia.Opened(a, Gpu(true));
    var k := |Nvidia.UpToResets(PoweredOn(NoFaults()), Nvidia.Participants(Hopper(), states), On)|;
    var w := PoweredOn(StopAt(k));
    Faults.SamePlan(w, PoweredOn(NoFaults()), Nvidia.Participants(Hopper(), states), On);
    BoardOfOne(a, w);
    assert UniqueAddresses(states) && d in Nvidia.Participants(Hopper(), states);
    assert w.Latched(a) == Regs(CcOff, PpcieOff) && !InMode(See(d.kind, w.Latched(a)), On);
    hide RunAll, Nvidia.Board, InMode, See, Nvidia.Participants, StopAt, Nvidia.Plan, H100;
    Faults.StaleOutlivesNextRun(Hopper(), states, w, On, d, NoFaults());
  }

  // ---------------------------------------------------------------- a switch passed over

  const SWITCH := PciDevice("0000:06:00.0", NVIDIA, 0x22a3, 0x068000, 14)

  const SWITCH_IN_PPCIE := map[SWITCH.address := Regs(CcOff, PpcieOn)]

  function OneSwitch(): Site {
    Site([SWITCH],
      Catalog((d: u16) => None, (d: u16) => false, (c: u32) => true),
      Kernel((v: u16, d: u16) => NoAlias, true,
             (m: string) => if Normalize(m) == VFIO_PCI then Some(VFIO_PCI_DRIVER) else None),
      true, (a: Address) => [])
  }

  /** A node with one switch, reporting PPCIE mode and behaving in it, and bound to nothing, as
      a `ppcie` run that stopped between changing modes and binding leaves it. A run for `off` resets the switch, and
      whatever processes there are, it looks for no holders first. */
  lemma SwitchResetUnchecked(procs: seq<ProcEntry>)
    ensures var w := PoweredOn(NoFaults()).(stored := SWITCH_IN_PPCIE, latched := SWITCH_IN_PPCIE);
            && Run(OneSwitch(), procs, w, Off).stage == Done
            && Took(w, Run(OneSwitch(), procs, w, Off).w, Step(Reset(SWITCH.address), true))
            && Checked(OneSwitch(), w, Off) == []
  {
    var site, s := OneSwitch(), Discovered(OneSwitch().cat, SWITCH);
    var w := PoweredOn(NoFaults()).(stored := SWITCH_IN_PPCIE, latched := SWITCH_IN_PPCIE);
    OneSwitchSound();
    OneSwitchScope();
    assert HostOk(site, w.drivers) && Calm(w.env);
    assert w.Stored(s.address) == Regs(CcOff, PpcieOn) && w.Driver(s.address) == None;
    assert UncheckedSwitch(site, Off, w, s.address) by { assert s in Scope(site); }
    hide Run, Checked, OneSwitch, Pass, Scope, UncheckedSwitch, Sound, Capable, Took, Resolvable, HostOk, Discovered;
    SwitchUnchecked(site, w, s);
    CalmRunSucceeds(site, procs, w, Off);
    UncheckedIsReset(site, procs, w, Off, s.address);
  }

  lemma OneSwitchSound()
    ensures Sound(OneSwitch())
  {
    assert PlainName(VFIO_PCI_DRIVER);
  }

  lemma OneSwitchScope()
    ensures var site, s := OneSwitch(), Discovered(OneSwitch().cat, SWITCH);
            && s.address == SWITCH.address && s.IsSwitch()
            && Scope(site) == [s] && Pass(site, Off) == [] && Capable(site.cat, Scope(site), Off)
  {
    var site, s := OneSwitch(), Discovered(OneSwitch().cat, SWITCH);
    ScopeIsVendorAndClass(site.cat, SWITCH);
    assert site.inventory[..0] == [];
    assert Scope(site) == [s];
    assert [s][..0] == [];
  }

  /** With one device in scope, and that one passed over, nothing is checked. */
  lemma SwitchUnchecked(site: Site, w: World, s: DeviceState)
    requires Sound(site) && Scope(site) == [s] && UncheckedSwitch(site, Off, w, s.address)
    ensures Checked(site, w, Off) == []
  {
    hide Checked, Scope;
    UncheckedIsOpened(site, w, Off, s.address);
    FirstIn(Checked(site, w, Off));
    if Checked(site, w, Off) != [] {
      var t := CheckedAreOfScope(site, [], w, Off, Checked(site, w, Off)[0]);
    }
  }
}
