/** What boots make of the files of a run, and what is published after it, said in the terms
    of `Hardware`. */
module Aftermath {
  import opened Text
  import opened Modes
  import opened Machine
  import opened Devices
  import opened Idle
  import opened BootConfig
  import opened Boot
  import opened RuleText
  import opened Udev
  import opened Provision
  import opened Resolution
  import opened Guarantees
  import opened Hardware
  import opened Cards
  import Nvidia

  // ---------------------------------------------------------------- what a boot does

  /** `d` is one of the cards with these ids to be passed through. */
  predicate TakenWith(site: Site, mode: Mode, id: Id, d: PciDevice) {
    IsTaken(site, mode, d) && Id(d.vendor, d.device) == id
  }

  /** Booting after a run that got past persisting, wherever it then stopped. A card to be
      passed through comes up on the driver that serves it exactly if no other driver takes it
      first, and the files put nothing else on any driver. The `ids=` line has the ids of
      the cards that vfio_pci serves, udev overrides, loads for and probes the others, and the
      modules loaded are the VFIO stack and those that serve. */
  lemma BootMeans(site: Site, procs: seq<ProcEntry>, w: World, mode: Mode, native: Option<string>, id: Id)
    requires Sound(site) && Run(site, procs, w, mode).stage in {Binding, Releasing, Checking, Done}
    ensures var files := Run(site, procs, w, mode).w.files;
            && (forall d | TakenWith(site, mode, id, d) ::
                  && DriverOf(site, d).Some?
                  && (DriverAtBoot(site.kernel, files, native, id) == DriverOf(site, d)
                      <==> native == None || native == DriverOf(site, d))
                  && (ClaimedById(files, id) <==> Normalize(ModuleOf(site, d).value) == "vfio_pci")
                  && UdevDoes(files, id) == (if Normalize(ModuleOf(site, d).value) == "vfio_pci" then NO_EFFECTS
                                             else Effects(DriverOf(site, d), {ModuleOf(site, d).value}, true)))
            && ((forall d :: !TakenWith(site, mode, id, d)) ==>
                  && DriverAtBoot(site.kernel, files, native, id) == native
                  && !ClaimedById(files, id) && UdevDoes(files, id) == NO_EFFECTS)
  {
    hide Run, DriverAtBoot, ClaimedById, UdevDoes, Compiled, Pass, IsTaken, Resolvable, Target, DriverOf, ModuleOf,
         StateOf;
    PastPersisting(site, procs, w, mode);
    BootsIntoMode(site, mode, native, id);
    FilesOfMode(site, mode, id);
    forall d | TakenWith(site, mode, id, d)
      ensures StateOf(site, d) in Pass(site, mode) && Id(StateOf(site, d).vendor, StateOf(site, d).deviceId) == id
      ensures DriverOf(site, d) == Some(Target(site, StateOf(site, d)).driver)
      ensures ModuleOf(site, d) == Some(Target(site, StateOf(site, d)).modl)
    {
      TakenInPass(site, mode, d);
      ResolvedIs(site, d);
      CardIs(site, d);
    }
    forall s | s in Pass(site, mode) && Id(s.vendor, s.deviceId) == id ensures exists d ::
        TakenWith(site, mode, id, d) {
      var d := PassIsTaken(site, mode, s);
      CardIs(site, d);
      assert TakenWith(site, mode, id, d);
    }
  }

  lemma FilesOfMode(site: Site, mode: Mode, id: Id)
    requires Sound(site) && forall s | s in Pass(site, mode) :: Resolvable(site, s)
    ensures forall s | s in Pass(site, mode) && Id(s.vendor, s.deviceId) == id ::
              && (ClaimedById(BootFiles(site, mode), id) <==> Normalize(Target(site, s).modl) == "vfio_pci")
              && UdevDoes(BootFiles(site, mode), id)
                 == if Normalize(Target(site, s).modl) == "vfio_pci" then NO_EFFECTS
                    else Effects(Some(Target(site, s).driver), {Target(site, s).modl}, true)
    ensures (forall s | s in Pass(site, mode) :: Id(s.vendor, s.deviceId) != id) ==>
              !ClaimedById(BootFiles(site, mode), id) && UdevDoes(BootFiles(site, mode), id) == NO_EFFECTS
  {
    var claims := ClaimsOf(site, mode);
    ClaimsResolved(site, mode);
    ClaimsExact(site, mode);
    OptionsRead(claims, id);
    UdevForClaims(site.kernel, claims, id);
    OneCarrier(site.kernel, claims);
    hide ClaimedById, UdevDoes, Compiled, Pass, Target, Resolvable, NeedsDriverOverride, Claims;
    forall s | s in Pass(site, mode) && Id(s.vendor, s.deviceId) == id
      ensures ClaimOf(site, s) in claims && IdOf(ClaimOf(site, s)) == id
      ensures NeedsDriverOverride(Target(site, s).modl) <==> Normalize(Target(site, s).modl) != "vfio_pci"
    {
      OverrideUnless(Target(site, s).modl);
    }
  }

  /** The modules of the boot. */
  lemma BootLoads(site: Site, procs: seq<ProcEntry>, w: World, mode: Mode, modl: string)
    requires Sound(site) && Run(site, procs, w, mode).stage in {Binding, Releasing, Checking, Done}
    ensures LoadedAtBoot(Run(site, procs, w, mode).w.files, modl)
            <==> || Normalize(modl) == "vfio" || Normalize(modl) == "vfio_iommu_type1"
                 || exists d | IsTaken(site, mode, d) ::
                      ModuleOf(site, d).Some? && Normalize(modl) == Normalize(ModuleOf(site, d).value)
  {
    hide Run, LoadedAtBoot, Compiled, Pass, IsTaken, Resolvable, Target, DriverOf, ModuleOf, StateOf, ModuleList;
    PastPersisting(site, procs, w, mode);
    var claims := ClaimsOf(site, mode);
    ClaimsResolved(site, mode);
    ClaimsExact(site, mode);
    LoadsTheList(site.kernel, claims, modl);
    ModuleListExact(claims);
    StackIs(modl);
    hide Names, ClaimsOf, Claims;
    forall d | IsTaken(site, mode, d)
      ensures StateOf(site, d) in Pass(site, mode) && ModuleOf(site, d) == Some(Target(site, StateOf(site, d)).modl)
    {
      TakenInPass(site, mode, d);
      ResolvedIs(site, d);
    }
    forall s | s in Pass(site, mode) ensures exists d :: IsTaken(site, mode, d) && s == StateOf(site, d) {
      var d := PassIsTaken(site, mode, s);
    }
    forall s | s in Pass(site, mode) ensures ClaimOf(site, s) in claims { }
  }

  lemma StackIs(modl: string)
    ensures Names(VFIO_STACK, modl) <==> Normalize(modl) == "vfio" || Normalize(modl) == "vfio_iommu_type1"
  {
    assert Normalize("vfio") == "vfio";
    assert Normalize("vfio_iommu_type1") == "vfio_iommu_type1";
    hide Normalize;
    assert VFIO_STACK[0] in VFIO_STACK && VFIO_STACK[1] in VFIO_STACK;
  }

  // ---------------------------------------------------------------- what is published

  function ModeName(mode: Mode): string {
    match mode
    case Off => "off"
    case On => "on"
    case DevTools => "devtools"
    case Ppcie => "ppcie"
  }

  /** The labels published after a run that succeeded: the mode, and whether the card is ready
      for confidential computing, on a GPU that has it and could be read; none on any other. */
  lemma LabelsMean(site: Site, procs: seq<ProcEntry>, w: World, mode: Mode, d: PciDevice) returns (i: nat)
    requires Sound(site) && Run(site, procs, w, mode).stage == Done && IsCard(site, d)
    ensures var p := Nvidia.ProbeAll(site.cat, Run(site, procs, w, mode).w, Scope(site));
            && i < |p.states| && p.states[i].address == d.address
            && p.states[i].CcLabelValues() ==
                 if IsGpuCard(site, d) && HasCc(site, d) && d.address !in p.unreadable
                 then [("nvidia.com/cc.mode.state", ModeName(mode)),
                       ("nvidia.com/cc.ready.state", if mode == Off then "false" else "true")]
                 else []
  {
    hide Run, Nvidia.ProbeAll, Scope, Opens, IsCard, HasCc, IsHopper, IsGpuCard, IsSwitchCard, Labels, ModeName,
         StateOf;
    CardIs(site, d);
    CardInScope(site, d);
    var r := Run(site, procs, w, mode).w;
    var p := Nvidia.ProbeAll(site.cat, r, Scope(site));
    i :| 0 <= i < |Scope(site)| && Scope(site)[i] == StateOf(site, d);
    Nvidia.ProbeReads(site.cat, r, Scope(site));
    if IsGpuCard(site, d) {
      LabelsAfterRun(site, procs, w, mode, i);
      LabelsSpelled(mode);
    } else {
      CardRow(site, d);
      SwitchUnlabelled(site, p.states[i]);
    }
  }

  lemma LabelsSpelled(mode: Mode)
    ensures Labels(mode.Print(), mode.CcReady())
            == [("nvidia.com/cc.mode.state", ModeName(mode)),
                ("nvidia.com/cc.ready.state", if mode == Off then "false" else "true")]
  {
  }

  lemma SwitchUnlabelled(site: Site, t: DeviceState)
    requires t.IsSwitch() && t.row in {Some(DEVICES[0]), Some(DEVICES[1])}
    ensures t.CcLabelValues() == []
  {
  }
}
