/** What a node asks of the provisioner, said of its PCI devices, its kernel and its process
    table alone: none of the code's own classification, resolution or planning is used. */
module Hardware {
  import opened Text
  import opened Modes
  import opened Knobs
  import opened Machine
  import opened Devices
  import opened Idle
  import opened Provision

  /** The top 16 bits of the class code. */
  function ClassPrefix(d: PciDevice): int { d.class_ / 0x100 % 0x1_0000 }

  /** An NVIDIA 3D controller. */
  predicate IsGpuCard(site: Site, d: PciDevice) {
    d in site.inventory && d.vendor == 0x10de && ClassPrefix(d) == 0x0302 && site.cat.passthroughCapable(d.class_)
  }

  /** An NVIDIA bridge of the class "other". */
  predicate IsSwitchCard(site: Site, d: PciDevice) {
    d in site.inventory && d.vendor == 0x10de && ClassPrefix(d) == 0x0680 && site.cat.passthroughCapable(d.class_)
  }

  predicate IsCard(site: Site, d: PciDevice) { IsGpuCard(site, d) || IsSwitchCard(site, d) }

  /** The cards a mode passes through: the switches only with the whole baseboard. */
  predicate IsTaken(site: Site, mode: Mode, d: PciDevice) {
    IsGpuCard(site, d) || (mode == Ppcie && IsSwitchCard(site, d))
  }

  predicate HasCc(site: Site, d: PciDevice) { site.cat.chipFor(d.device).Some? }

  predicate IsHopper(site: Site, d: PciDevice) { HasCc(site, d) && site.cat.chipFor(d.device).value.hopper }

  /** A node the mode is possible on: any node can be turned off. */
  ghost predicate CanDo(site: Site, mode: Mode) {
    match mode
    case Off => true
    case On | DevTools => forall d | IsGpuCard(site, d) :: HasCc(site, d) && !site.cat.isC2c(d.device)
    case Ppcie => forall d | IsGpuCard(site, d) :: IsHopper(site, d)
  }

  /** The module that serves a card: the one the alias table names; where it names none,
      vfio_pci, if the table itself can be read and the card is a switch or a GPU of a known
      chip; and for a coherently attached card none that is vfio_pci under either spelling. */
  function ModuleOf(site: Site, d: PciDevice): Option<string> {
    match site.kernel.aliasFor(d.vendor, d.device)
    case Found(m) => if site.cat.isC2c(d.device) && Normalize(m) == "vfio_pci" then None else Some(m)
    case NoAlias =>
      if site.kernel.tableReadable && !site.cat.isC2c(d.device) && (IsSwitchCard(site, d) || HasCc(site, d))
      then Some("vfio_pci") else None
    case Unreadable => None
  }

  /** The driver a card is to be on. */
  function DriverOf(site: Site, d: PciDevice): Option<string> {
    match ModuleOf(site, d)
    case None => None
    case Some(m) => site.kernel.registers(m)
  }

  function CcOf(mode: Mode): CcMode {
    match mode
    case On => CcOn
    case DevTools => CcDevTools
    case Off | Ppcie => CcOff
  }

  function PpcieOf(mode: Mode): PpcieMode { if mode == Ppcie then PpcieOn else PpcieOff }

  /** The knobs of a card, those that it has, are where the mode wants them. */
  predicate KnobsSet(site: Site, mode: Mode, d: PciDevice, r: Regs) {
    && (IsGpuCard(site, d) && HasCc(site, d) ==> r.cc == CcOf(mode))
    && (IsGpuCard(site, d) && IsHopper(site, d) ==> r.ppcie == PpcieOf(mode))
    && (IsSwitchCard(site, d) ==> r.ppcie == PpcieOf(mode))
  }

  /** A driver with vfio in its name. */
  ghost predicate IsVfioDriver(driver: Option<string>) {
    driver.Some? && exists before, after :: driver.value == before + "vfio" + after
  }

  /** A running process has `/dev/vfio/<group>` or `/dev/vfio/devices/<cdev>` of the card open. */
  ghost predicate IsHeld(site: Site, procs: seq<ProcEntry>, d: PciDevice) {
    exists p, path | p in procs && HasOpen(p, path) ::
      && ParseU32(p.name).Some?
      && (|| (d.iommuGroup >= 0 && path == ["dev", "vfio", Decimal(d.iommuGroup)])
          || exists cdev | cdev in site.cdevs(d.address) :: path == ["dev", "vfio", "devices", cdev])
  }

  /** What a run would have to do to a card. */
  ghost predicate IsToChange(site: Site, mode: Mode, w: World, d: PciDevice) {
    if IsTaken(site, mode, d)
    then w.Driver(d.address) != DriverOf(site, d) || !KnobsSet(site, mode, d, w.Stored(d.address))
    else IsVfioDriver(w.Driver(d.address))
  }
}
