/** The code's own view of a node's devices is that of `Hardware`. */
module Cards {
  import opened Text
  import opened Modes
  import opened Knobs
  import opened Devices
  import opened BootConfig
  import opened Provision
  import opened Resolution
  import opened Coverage
  import opened Hardware
  import Nvidia

  // ---------------------------------------------------------------- the scope

  function StateOf(site: Site, d: PciDevice): DeviceState { Discovered(site.cat, d) }

  /** The cards of the node are the scope of a run. */
  lemma CardsAreScope(site: Site, d: PciDevice)
    requires Sound(site) && d in site.inventory
    ensures StateOf(site, d) in Scope(site) <==> IsCard(site, d)
  {
    var at := ScopeExact(site.cat, site.inventory);
    var k: nat :| k < |site.inventory| && site.inventory[k] == d;
    if InHand(site.cat, d) {
      var i :| 0 <= i < |at| && at[i] == k;
      assert Scope(site)[i] == StateOf(site, d);
    }
    if StateOf(site, d) in Scope(site) {
      var i :| 0 <= i < |at| && Scope(site)[i] == StateOf(site, d);
      assert at[i] in at && site.inventory[at[i]].address == d.address;
    }
  }

  lemma ScopeIsCards(site: Site, s: DeviceState) returns (d: PciDevice)
    requires Sound(site) && s in Scope(site)
    ensures IsCard(site, d) && s == StateOf(site, d)
  {
    InScopeFresh(site.cat, site.inventory);
    d :| d in site.inventory && s == Discovered(site.cat, d);
    CardsAreScope(site, d);
  }

  /** What the code makes of a card. */
  lemma CardIs(site: Site, d: PciDevice)
    requires IsCard(site, d)
    ensures var s := StateOf(site, d);
            && s.address == d.address && s.vendor == d.vendor && s.deviceId == d.device && s.iommuGroup == d.iommuGroup
            && (s.IsGpu() <==> IsGpuCard(site, d)) && (s.IsSwitch() <==> IsSwitchCard(site, d))
            && Opens(site.cat, s) == (if IsSwitchCard(site, d) then Some(Switch)
                                      else if HasCc(site, d) then Some(Gpu(IsHopper(site, d))) else None)
  {
    ScopeIsVendorAndClass(site.cat, d);
  }

  lemma CardRow(site: Site, d: PciDevice)
    requires IsCard(site, d)
    ensures StateOf(site, d).row in {Some(DEVICES[0]), Some(DEVICES[1])}
  {
    RowsOfTable(d.vendor, ClassPrefix(d));
    ScopeIsVendorAndClass(site.cat, d);
  }

  lemma TakenIsPass(site: Site, mode: Mode, d: PciDevice)
    requires Sound(site) && d in site.inventory
    ensures StateOf(site, d) in Pass(site, mode) <==> IsTaken(site, mode, d)
  {
    CardsAreScope(site, d);
    PassExact(Scope(site), mode);
    if IsCard(site, d) { CardIs(site, d); }
  }

  lemma CardInScope(site: Site, d: PciDevice)
    requires Sound(site) && IsCard(site, d)
    ensures StateOf(site, d) in Scope(site)
  {
    CardsAreScope(site, d);
  }

  lemma TakenInPass(site: Site, mode: Mode, d: PciDevice)
    requires Sound(site) && IsTaken(site, mode, d)
    ensures IsCard(site, d) && StateOf(site, d) in Pass(site, mode)
  {
    TakenIsPass(site, mode, d);
  }

  /** A device of the passthrough set is a card to be taken. */
  lemma PassIsTaken(site: Site, mode: Mode, s: DeviceState) returns (d: PciDevice)
    requires Sound(site) && s in Pass(site, mode)
    ensures IsCard(site, d) && IsTaken(site, mode, d) && s == StateOf(site, d)
  {
    PassExact(Scope(site), mode);
    d := ScopeIsCards(site, s);
    TakenIsPass(site, mode, d);
  }

  // ---------------------------------------------------------------- which nodes, which modules

  /** A node is accepted for a mode exactly if the mode is possible on its GPUs. */
  lemma AcceptedIff(site: Site, mode: Mode)
    requires Sound(site)
    ensures Capable(site.cat, Scope(site), mode) <==> CanDo(site, mode)
  {
    forall d | IsGpuCard(site, d)
      ensures StateOf(site, d) in Scope(site) && StateOf(site, d).IsGpu()
      ensures StateOf(site, d).CcCapable() <==> HasCc(site, d)
      ensures StateOf(site, d).CarriesPpcie(site.cat) <==> IsHopper(site, d)
    {
      CardsAreScope(site, d);
      CardIs(site, d);
      ScopeIsVendorAndClass(site.cat, d);
    }
    forall s | s in Scope(site) && s.IsGpu() ensures exists d | IsGpuCard(site, d) :: s == StateOf(site, d) {
      var d := ScopeIsCards(site, s);
      CardIs(site, d);
    }
    hide Scope, IsGpuCard, HasCc, IsHopper, Discovered;
  }

  /** So the switches of a node have no say in it. */
  lemma SwitchesHaveNoSay(site: Site, other: Site, mode: Mode)
    requires Sound(site) && Sound(other) && site.cat == other.cat
    requires forall d :: IsGpuCard(site, d) <==> IsGpuCard(other, d)
    ensures Capable(site.cat, Scope(site), mode) <==> Capable(other.cat, Scope(other), mode)
  {
    AcceptedIff(site, mode);
    AcceptedIff(other, mode);
    hide Capable, Scope, IsGpuCard;
  }

  /** The module and the driver resolved for a card are those that serve it. */
  lemma ResolvedIs(site: Site, d: PciDevice)
    requires IsCard(site, d)
    ensures ResolveModule(site, StateOf(site, d)) == ModuleOf(site, d)
    ensures Nvidia.GenericVfioSupported(site.cat, StateOf(site, d))
            <==> IsSwitchCard(site, d) || (HasCc(site, d) && !site.cat.isC2c(d.device))
    ensures Resolvable(site, StateOf(site, d)) <==> DriverOf(site, d).Some?
    ensures Resolvable(site, StateOf(site, d)) ==>
      Some(Target(site, StateOf(site, d)).driver) == DriverOf(site, d)
      && Some(Target(site, StateOf(site, d)).modl) == ModuleOf(site, d)
  {
    CardIs(site, d);
    assert VFIO_PCI == "vfio_pci" && Normalize("vfio_pci") == "vfio_pci";
    hide Discovered, Normalize;
  }

  lemma KnobsSetIff(site: Site, mode: Mode, d: PciDevice, r: Regs)
    requires IsCard(site, d)
    ensures KnobsSet(site, mode, d, r) <==>
      var kind := Opens(site.cat, StateOf(site, d));
      kind.Some? ==> InMode(See(kind.value, r), mode)
  {
    CardIs(site, d);
    hide Discovered;
  }

  lemma VfioDriverIff(driver: Option<string>)
    ensures IsVfio(driver) <==> IsVfioDriver(driver)
  {
    if driver.Some? { VfioUnderEitherSpelling(driver.value); }
  }
}
