/** What a PCI device is to the provisioner, and the labels its probed state earns. */
module Devices {
  import opened Text
  import opened Modes
  import opened Knobs
  import opened Machine

  type u32 = x: int | 0 <= x < 0x1_0000_0000

  datatype Provisioning = NvidiaInBandCc | NvidiaInBandPpcie

  datatype Chip = Chip(name: string, hopper: bool)

  /** The fixed tables of `pcilibs_rs`, which are not part of this model. */
  datatype Catalog = Catalog(
    chipFor: u16 -> Option<Chip>,
    isC2c: u16 -> bool,
    passthroughCapable: u32 -> bool)

  datatype DeviceRow = DeviceRow(vendor: u16, classPrefix: u16, provisioning: Provisioning, ccLabels: bool)

  const NVIDIA: u16 := 0x10de
  const GPU_CLASS: u16 := 0x0302
  const SWITCH_CLASS: u16 := 0x0680

  const DEVICES: seq<DeviceRow> := [
    DeviceRow(NVIDIA, GPU_CLASS, NvidiaInBandCc, true),
    DeviceRow(NVIDIA, SWITCH_CLASS, NvidiaInBandPpcie, false)]

  function FindRow(rows: seq<DeviceRow>, vendor: u16, classPrefix: u16): Option<DeviceRow> {
    if rows == [] then None
    else if rows[0].vendor == vendor && rows[0].classPrefix == classPrefix then Some(rows[0])
    else FindRow(rows[1..], vendor, classPrefix)
  }

  function RowFor(vendor: u16, class_: u32): Option<DeviceRow> {
    FindRow(DEVICES, vendor, class_ / 0x100 % 0x1_0000)
  }

  datatype PciDevice = PciDevice(address: Address, vendor: u16, device: u16, class_: u32, iommuGroup: int)

  datatype DeviceState = DeviceState(
    address: Address,
    vendor: u16,
    deviceId: u16,
    iommuGroup: int,
    row: Option<DeviceRow>,      // None: out of scope
    ccChip: Option<string>,      // None: no in-band CC
    seen: Seen)                  // cc_mode and ppcie_mode: None unless probed
  {
    function Provisioning(): Option<Provisioning> {
      if row.Some? then Some(row.value.provisioning) else None
    }

    predicate InScope() { row.Some? }

    predicate IsGpu() { Provisioning() == Some(NvidiaInBandCc) }

    predicate IsSwitch() { Provisioning() == Some(NvidiaInBandPpcie) }

    predicate CcCapable() { IsGpu() && ccChip.Some? }

    predicate CarriesPpcie(cat: Catalog) {
      match Provisioning()
      case Some(NvidiaInBandCc) => SupportsPpcie(cat, deviceId)
      case Some(NvidiaInBandPpcie) => true
      case None => false
    }

    /** PPCIE on decides the label, since CC reads as off then. */
    function CcLabelValues(): seq<(string, string)> {
      if row.None? || !row.value.ccLabels then []
      else if seen.ppcie == Some(PpcieOn) then Labels("ppcie", true)
      else if seen.cc.Some? then Labels(CcName(seen.cc.value), seen.cc.value != CcOff)
      else []
    }
  }

  function CcName(cc: CcMode): string {
    match cc
    case CcOff => "off"
    case CcOn => "on"
    case CcDevTools => "devtools"
  }

  function Labels(mode: string, ready: bool): seq<(string, string)> {
    [("nvidia.com/cc.mode.state", mode), ("nvidia.com/cc.ready.state", if ready then "true" else "false")]
  }

  function CcChip(cat: Catalog, device: u16): Option<string> {
    match cat.chipFor(device)
    case Some(chip) => Some(chip.name)
    case None => None
  }

  predicate SupportsPpcie(cat: Catalog, device: u16) {
    var chip := cat.chipFor(device);
    chip.Some? && chip.value.hopper
  }

  function Discovered(cat: Catalog, d: PciDevice): DeviceState {
    var row := RowFor(d.vendor, d.class_);
    DeviceState(
      d.address, d.vendor, d.device, d.iommuGroup, row,
      if row.Some? && row.value.provisioning == NvidiaInBandCc then CcChip(cat, d.device) else None,
      Seen(None, None))
  }

  /** `discover`, then the devices that have a row. */
  function InScope(cat: Catalog, inventory: seq<PciDevice>): seq<DeviceState> {
    if inventory == [] then []
    else
      var d := inventory[|inventory| - 1];
      InScope(cat, inventory[..|inventory| - 1])
      + (if cat.passthroughCapable(d.class_) && Discovered(cat, d).InScope() then [Discovered(cat, d)] else [])
  }

  /** `Handle::open`: what the device opens as, or `None` if it takes no mode. */
  function Opens(cat: Catalog, s: DeviceState): Option<Kind> {
    if s.CcCapable() then Some(Gpu(SupportsPpcie(cat, s.deviceId)))
    else if s.IsSwitch() then Some(Switch)
    else None
  }

  /** The table decides scope by vendor and the top 16 bits of the 24-bit class code. */
  lemma ScopeIsVendorAndClass(cat: Catalog, d: PciDevice)
    ensures var s := Discovered(cat, d);
            && (s.IsGpu() <==> d.vendor == NVIDIA && d.class_ / 0x100 % 0x1_0000 == GPU_CLASS)
            && (s.IsSwitch() <==> d.vendor == NVIDIA && d.class_ / 0x100 % 0x1_0000 == SWITCH_CLASS)
            && (s.CcCapable() <==> s.IsGpu() && cat.chipFor(d.device).Some?)
            && (s.CcCapable() && s.CarriesPpcie(cat) <==> Opens(cat, s) == Some(Gpu(true)))
  {
    var p: u16 := d.class_ / 0x100 % 0x1_0000;
    assert DEVICES[1..][1..] == [];
    assert FindRow(DEVICES[1..], d.vendor, p)
        == if d.vendor == NVIDIA && p == SWITCH_CLASS then Some(DEVICES[1]) else None;
  }

  /** What every discovered in-scope device is: one of the two rows, unprobed, its chip
      and row those of its ids. */
  ghost predicate Fresh(cat: Catalog, s: DeviceState) {
    && s.seen == Seen(None, None)
    && (s.row == Some(DEVICES[0]) || s.row == Some(DEVICES[1]))
    && s.ccChip == if s.IsGpu() then CcChip(cat, s.deviceId) else None
  }

  lemma {:induction false} InScopeFresh(cat: Catalog, inventory: seq<PciDevice>)
    ensures forall s | s in InScope(cat, inventory) ::
              && Fresh(cat, s)
              && exists d | d in inventory :: s == Discovered(cat, d) && cat.passthroughCapable(d.class_)
  {
    if inventory != [] {
      var d := inventory[|inventory| - 1];
      InScopeFresh(cat, inventory[..|inventory| - 1]);
      RowsOfTable(d.vendor, d.class_ / 0x100 % 0x1_0000);
    }
  }

  /** What the provisioner takes in hand: NVIDIA 3D controllers and "other" bridges that the
      class lets a guest have. */
  predicate InHand(cat: Catalog, d: PciDevice) {
    && d.vendor == 0x10de
    && (d.class_ / 0x100 % 0x1_0000 == 0x0302 || d.class_ / 0x100 % 0x1_0000 == 0x0680)
    && cat.passthroughCapable(d.class_)
  }

  /** The scope is the devices to take in hand, all of them, each once for each time it is
      enumerated, in the order in which they are. `at` is where each comes from. */
  lemma {:induction false} ScopeExact(cat: Catalog, inventory: seq<PciDevice>) returns (at: seq<nat>)
    ensures |at| == |InScope(cat, inventory)|
    ensures forall i | 0 <= i < |at| ::
              at[i] < |inventory| && InScope(cat, inventory)[i] == Discovered(cat, inventory[at[i]])
    ensures forall i, j | 0 <= i < j < |at| :: at[i] < at[j]
    ensures forall k: nat | k < |inventory| :: k in at <==> InHand(cat, inventory[k])
  {
    at := [];
    if inventory != [] {
      var init, d := inventory[..|inventory| - 1], inventory[|inventory| - 1];
      at := ScopeExact(cat, init);
      ScopeIsVendorAndClass(cat, d);
      RowsOfTable(d.vendor, d.class_ / 0x100 % 0x1_0000);
      hide FindRow;
      assert InHand(cat, d) <==> cat.passthroughCapable(d.class_) && Discovered(cat, d).InScope();
      if InHand(cat, d) {
        assert |init| in at + [|init|];
        at := at + [|init|];
      }
    }
  }

  lemma RowsOfTable(vendor: u16, prefix: u16)
    ensures FindRow(DEVICES, vendor, prefix) in {None, Some(DEVICES[0]), Some(DEVICES[1])}
  {
    assert DEVICES[1..][1..] == [];
    assert FindRow(DEVICES[1..], vendor, prefix) in {None, Some(DEVICES[1])};
  }

  ghost predicate UniqueAddresses(states: seq<DeviceState>) {
    forall i, j | 0 <= i < j < |states| :: states[i].address != states[j].address
  }

  /** PCI enumeration never reports an address twice. */
  ghost predicate UniquePci(inventory: seq<PciDevice>) {
    forall i, j | 0 <= i < j < |inventory| :: inventory[i].address != inventory[j].address
  }

  lemma {:induction false} InScopeUnique(cat: Catalog, inventory: seq<PciDevice>)
    requires UniquePci(inventory)
    ensures UniqueAddresses(InScope(cat, inventory))
  {
    if inventory != [] {
      var init, d := inventory[..|inventory| - 1], inventory[|inventory| - 1];
      InScopeUnique(cat, init);
      InScopeFresh(cat, init);
      var before := InScope(cat, init);
      forall i | 0 <= i < |before| ensures before[i].address != d.address {
        assert before[i] in before;
      }
    }
  }
}
