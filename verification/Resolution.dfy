/** Which devices a run takes, on which drivers, and which nodes it refuses. */
module Resolution {
  import opened Text
  import opened Modes
  import opened Knobs
  import opened Machine
  import opened Devices
  import opened BootConfig
  import opened Boot
  import opened RuleText
  import opened Udev
  import opened Provision
  import Transaction

  function Scope(site: Site): seq<DeviceState> { InScope(site.cat, site.inventory) }

  function Pass(site: Site, mode: Mode): seq<DeviceState> { Passthrough(Scope(site), mode) }

  /** What is assumed of a node: PCI addresses are unique, kernel names are plain, and the
      module vfio_pci, however it is spelled, registers the driver vfio-pci. */
  ghost predicate Sound(site: Site) {
    && UniquePci(site.inventory)
    && (forall v, d :: site.kernel.aliasFor(v, d).Found? ==> PlainName(site.kernel.aliasFor(v, d).modl))
    && (forall m :: site.kernel.registers(m).Some? ==> PlainName(site.kernel.registers(m).value))
    && (forall m :: Normalize(m) == VFIO_PCI && site.kernel.registers(m).Some? ==>
                      site.kernel.registers(m).value == VFIO_PCI_DRIVER)
  }

  lemma {:induction false} PassExact(states: seq<DeviceState>, mode: Mode)
    ensures forall s :: s in Passthrough(states, mode) <==> s in states && (mode == Ppcie || !s.IsSwitch())
    ensures UniqueAddresses(states) ==> UniqueAddresses(Passthrough(states, mode))
  {
    if states != [] {
      var init, s := states[..|states| - 1], states[|states| - 1];
      PassExact(init, mode);
      assert states == init + [s];
      var before := Passthrough(init, mode);
      if UniqueAddresses(states) {
        assert UniqueAddresses(init);
        forall i | 0 <= i < |before| ensures before[i].address != s.address {
          assert before[i] in before;
          var j :| 0 <= j < |init| && init[j] == before[i];
          assert states[j] == init[j];
        }
      }
    }
  }

  /** The passthrough set is in the order of the scope. `at` is where each comes from. */
  lemma {:induction false} PassInOrder(states: seq<DeviceState>, mode: Mode) returns (at: seq<nat>)
    ensures |at| == |Passthrough(states, mode)|
    ensures forall i | 0 <= i < |at| :: at[i] < |states| && Passthrough(states, mode)[i] == states[at[i]]
    ensures forall i, j | 0 <= i < j < |at| :: at[i] < at[j]
    ensures forall k: nat | k < |states| :: k in at <==> mode == Ppcie || !states[k].IsSwitch()
  {
    at := [];
    if states != [] {
      var init := states[..|states| - 1];
      at := PassInOrder(init, mode);
      if mode == Ppcie || !states[|init|].IsSwitch() {
        assert |init| in at + [|init|];
        at := at + [|init|];
      }
    }
  }

  lemma SameAddress(states: seq<DeviceState>, s: DeviceState, t: DeviceState)
    requires UniqueAddresses(states) && s in states && t in states && s.address == t.address
    ensures s == t
  {
    var i :| 0 <= i < |states| && states[i] == s;
    var j :| 0 <= j < |states| && states[j] == t;
  }

  /** A device in scope is in the passthrough set by address exactly if it belongs to it. */
  lemma KeptIsPass(site: Site, mode: Mode)
    requires Sound(site)
    ensures UniqueAddresses(Scope(site)) && UniqueAddresses(Pass(site, mode))
    ensures forall s | s in Scope(site) :: Kept(Pass(site, mode), s.address) <==> s in Pass(site, mode)
  {
    InScopeUnique(site.cat, site.inventory);
    PassExact(Scope(site), mode);
    forall s, t | s in Scope(site) && t in Pass(site, mode) && t.address == s.address ensures s == t {
      SameAddress(Scope(site), s, t);
    }
  }

  // ---------------------------------------------------------------- drivers

  predicate Resolvable(site: Site, s: DeviceState) {
    ResolveModule(site, s).Some? && site.kernel.registers(ResolveModule(site, s).value).Some?
  }

  lemma {:induction false} OkNeverBails(w: World, es: seq<Event>)
    requires RunAll(w, es).ok
    ensures Bail !in es
  {
    if es != [] {
      OkNeverBails(w, es[..|es| - 1]);
      assert es == es[..|es| - 1] + [es[|es| - 1]];
    }
  }

  /** The resolve stage succeeds only if every device has a module that registers a
      driver; and where nothing fails, that is enough. */
  lemma ResolveOkIff(site: Site, w: World, states: seq<DeviceState>)
    ensures RunAll(w, ResolveScript(site, states)).ok ==> forall s | s in states :: Resolvable(site, s)
    ensures Calm(w.env) && (forall s | s in states :: Resolvable(site, s)) ==>
      RunAll(w, ResolveScript(site, states)).ok
  {
    var parts, script := ResolveParts(site, states), ResolveScript(site, states);
    FlattenElements(parts);
    if RunAll(w, script).ok {
      OkNeverBails(w, script);
      forall s | s in states ensures Resolvable(site, s) {
        var i :| 0 <= i < |states| && states[i] == s;
        assert Bail !in parts[i];
      }
    }
    if Calm(w.env) && forall s | s in states :: Resolvable(site, s) {
      forall e | e in script ensures Transaction.NeverRefused(e) {
        var i :| 0 <= i < |parts| && e in parts[i];
        assert states[i] in states;
      }
      Transaction.CalmAccepted(w, script);
    }
  }

  lemma ResolveEvents(site: Site, states: seq<DeviceState>)
    ensures forall e | e in ResolveScript(site, states) :: e.Load? || e.Bail?
  {
    FlattenElements(ResolveParts(site, states));
  }

  /** Which module serves a device follows from its ids alone, whether or not the
      generic fallback was allowed for it. */
  lemma ModuleFollowsIds(site: Site, s: DeviceState, t: DeviceState)
    requires s.vendor == t.vendor && s.deviceId == t.deviceId
    requires ResolveModule(site, s).Some? && ResolveModule(site, t).Some?
    ensures ResolveModule(site, s) == ResolveModule(site, t)
  {
  }

  lemma {:induction false} DriversAt(site: Site, states: seq<DeviceState>)
    requires UniqueAddresses(states)
    ensures Covers(DriversOf(site, states), states)
    ensures forall s | s in states :: DriversOf(site, states)[s.address] == Target(site, s)
  {
    if states != [] {
      var init, last := states[..|states| - 1], states[|states| - 1];
      DriversAt(site, init);
      assert states == init + [last];
      forall s | s in init ensures s.address != last.address {
        var j :| 0 <= j < |init| && init[j] == s;
        assert states[j] == s;
      }
    }
  }

  function ClaimsOf(site: Site, mode: Mode): seq<Claim> {
    DriversCover(site, Pass(site, mode));
    Claims(Pass(site, mode), DriversOf(site, Pass(site, mode)))
  }

  /** The boot files of a mode: the node's devices and kernel decide them. */
  function BootFiles(site: Site, mode: Mode): Files { Compiled(ClaimsOf(site, mode)) }

  function ClaimOf(site: Site, s: DeviceState): Claim {
    Claim(s.address, s.vendor, s.deviceId, Target(site, s).modl, Target(site, s).driver)
  }

  /** The claims of a run are its passthrough devices on their own drivers. */
  lemma ClaimsExact(site: Site, mode: Mode)
    requires Sound(site)
    ensures forall c :: c in ClaimsOf(site, mode) <==> exists s | s in Pass(site, mode) :: c == ClaimOf(site, s)
  {
    KeptIsPass(site, mode);
    var pass, claims := Pass(site, mode), ClaimsOf(site, mode);
    DriversAt(site, pass);
    forall i | 0 <= i < |pass| ensures claims[i] == ClaimOf(site, pass[i]) {
      assert pass[i] in pass;
    }
    forall s | s in pass ensures ClaimOf(site, s) in claims {
      var i :| 0 <= i < |pass| && pass[i] == s;
      assert claims[i] in claims;
    }
  }

  lemma TargetIsPlain(site: Site, s: DeviceState)
    requires Sound(site) && Resolvable(site, s)
    ensures var c := ClaimOf(site, s);
            && PlainName(c.modl) && PlainName(c.driver) && site.kernel.registers(c.modl) == Some(c.driver)
            && (!NeedsDriverOverride(c.modl) ==> c.driver == VFIO_PCI_DRIVER)
  {
    assert PlainName(VFIO_PCI);
  }

  lemma ClaimsResolved(site: Site, mode: Mode)
    requires Sound(site) && forall s | s in Pass(site, mode) :: Resolvable(site, s)
    ensures Resolved(site.kernel, ClaimsOf(site, mode))
  {
    ClaimsExact(site, mode);
    forall s | s in Pass(site, mode)
      ensures var c := ClaimOf(site, s);
              && PlainName(c.modl) && PlainName(c.driver) && site.kernel.registers(c.modl) == Some(c.driver)
              && (!NeedsDriverOverride(c.modl) ==> c.driver == VFIO_PCI_DRIVER)
    {
      TargetIsPlain(site, s);
    }
    forall s, t | s in Pass(site, mode) && t in Pass(site, mode) && s.vendor == t.vendor && s.deviceId == t.deviceId
      ensures Target(site, s) == Target(site, t)
    {
      ModuleFollowsIds(site, s, t);
    }
  }

  // ---------------------------------------------------------------- coherent GPUs

  /** A coherently attached device is never left to plain vfio-pci: its ids are not on the
      `ids=` line, and if the run takes it, a rule for a variant module covers it. */
  lemma CoherentNeverOnPlainVfio(site: Site, mode: Mode, id: Id)
    requires Sound(site) && site.cat.isC2c(id.device)
    requires forall s | s in Pass(site, mode) :: Resolvable(site, s)
    ensures !ClaimedById(BootFiles(site, mode), id)
    ensures forall s | s in Pass(site, mode) && Id(s.vendor, s.deviceId) == id ::
              && Normalize(Target(site, s).modl) != "vfio_pci"
              && UdevDoes(BootFiles(site, mode), id)
                 == Effects(Some(Target(site, s).driver), {Target(site, s).modl}, true)
  {
    ClaimsExact(site, mode);
    ClaimsResolved(site, mode);
    var claims := ClaimsOf(site, mode);
    forall c | c in claims && IdOf(c) == id ensures NeedsDriverOverride(c.modl) {
      var s :| s in Pass(site, mode) && c == ClaimOf(site, s);
    }
    OptionsRead(claims, id);
    UdevForClaims(site.kernel, claims, id);
    hide UdevDoes, ClaimedById, Compiled;
    forall s | s in Pass(site, mode) && Id(s.vendor, s.deviceId) == id
      ensures Normalize(Target(site, s).modl) != "vfio_pci"
      ensures UdevDoes(BootFiles(site, mode), id) == Effects(Some(Target(site, s).driver), {Target(site, s).modl}, true)
    {
      var c := ClaimOf(site, s);
      assert c in claims && IdOf(c) == id;
      NormalVfioPci(c.modl);
    }
  }

  // ---------------------------------------------------------------- whole nodes

  /** A node accepted for a raised mode has no GPU the mode change would pass over, and
      under PPCIE none without the PPCIE knob. */
  lemma AcceptedNodeIsWhole(site: Site, mode: Mode)
    requires mode.CcReady() && Capable(site.cat, Scope(site), mode)
    ensures forall s | s in Scope(site) && s.IsGpu() ::
              && Opens(site.cat, s).Some?
              && (mode == Ppcie ==> Opens(site.cat, s) == Some(Gpu(true)))
  {
    InScopeFresh(site.cat, site.inventory);
    forall s | s in Scope(site) && s.IsGpu()
      ensures Opens(site.cat, s).Some? && (mode == Ppcie ==> Opens(site.cat, s) == Some(Gpu(true)))
    {
      assert Fresh(site.cat, s);
    }
  }

  /** The design has a node with a Grace-attached GPU refused for anything but `off`. The
      code refuses it for `on` and `devtools`; for `ppcie`, whose CC target is off, it
      accepts it exactly if every GPU of the node carries PPCIE. */
  lemma GraceNodeAcceptedIff(cat: Catalog, states: seq<DeviceState>, mode: Mode)
    requires exists s | s in states :: s.IsGpu() && cat.isC2c(s.deviceId)
    ensures Capable(cat, states, mode)
            <==> mode == Off || (mode == Ppcie && forall s | s in states && s.IsGpu() :: s.CarriesPpcie(cat))
  {
  }

  /** A GH200 node is accepted for `ppcie`. */
  lemma GraceNodeAcceptedForPpcie()
    ensures var cat := Catalog(
              (d: u16) => if d == 0x2342 then Some(Chip("GH100", true)) else None,
              (d: u16) => d == 0x2342,
              (c: u32) => true);
            var gpu := Discovered(cat, PciDevice("0009:01:00.0", NVIDIA, 0x2342, 0x030200, 14));
            gpu.IsGpu() && cat.isC2c(gpu.deviceId) && Capable(cat, [gpu], Ppcie) && !Capable(cat, [gpu], On)
  {
    var cat := Catalog(
      (d: u16) => if d == 0x2342 then Some(Chip("GH100", true)) else None,
      (d: u16) => d == 0x2342,
      (c: u32) => true);
    var card := PciDevice("0009:01:00.0", NVIDIA, 0x2342, 0x030200, 14);
    ScopeIsVendorAndClass(cat, card);
    var gpu := Discovered(cat, card);
    assert [gpu][0] == gpu;
  }
}
