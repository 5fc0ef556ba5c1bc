/** Compiling claims on devices into the three files from which a boot repeats the bindings
    of a run. */
module BootConfig {
  import opened Ordering
  import opened Text
  import opened Machine

  /** `module_for`'s answer for a device's ids: the alias table's module, no alias (the
      table itself may be what is missing), or another failure. */
  datatype Alias = Found(modl: string) | NoAlias | Unreadable

  /** The running kernel: its alias table, whether that table can be read as text, and
      the driver each module registers. */
  datatype Kernel = Kernel(
    aliasFor: (u16, u16) -> Alias,
    tableReadable: bool,
    registers: string -> Option<string>)

  const VFIO_PCI := "vfio_pci"
  const VFIO_PCI_DRIVER := "vfio-pci"

  /** `vfio_module`: the fallback must not hide a missing or unreadable table. */
  function VfioModule(k: Kernel, vendor: u16, device: u16, allowGeneric: bool): Option<string> {
    match k.aliasFor(vendor, device)
    case Found(modl) => Some(modl)
    case NoAlias => if allowGeneric && k.tableReadable then Some(VFIO_PCI) else None
    case Unreadable => None
  }

  const VFIO_STACK := ["vfio", "vfio_iommu_type1"]

  datatype Claim = Claim(address: Address, vendor: u16, device: u16, modl: string, driver: string)

  predicate SameModule(a: string, b: string) { Normalize(a) == Normalize(b) }

  predicate NeedsDriverOverride(modl: string) { Normalize(modl) != VFIO_PCI }

  lemma OverrideUnless(modl: string)
    ensures NeedsDriverOverride(modl) <==> Normalize(modl) != "vfio_pci"
  {
  }

  /** `"{:04x}:{:04x}"`. */
  function IdText(vendor: u16, device: u16): string {
    Hex(4, vendor) + [':'] + Hex(4, device)
  }

  const OVERRIDE := "ATTR{driver_override}="
  const RUN_BUILTIN := "RUN{builtin}+="
  const RUN_SHELL := "/bin/sh -c 'echo %k" + " > " + "/sys/bus/pci" + "/drivers_probe'"

  /** `udev_rule`, up to the line end. */
  function RuleLine(c: Claim): string {
    Item("ACTION==", "add") + (", " + (Item("SUBSYSTEM==", "pci") + (", "
    + (Item("ATTR{vendor}==", "0x" + Hex(4, c.vendor)) + (", "
    + (Item("ATTR{device}==", "0x" + Hex(4, c.device)) + (", "
    + (Item(OVERRIDE, c.driver) + (", "
    + (Item(RUN_BUILTIN, "kmod load " + c.modl) + (", "
    + Item("RUN+=", RUN_SHELL))))))))))))
  }

  function UdevRule(c: Claim): string { RuleLine(c) + ['\n'] }

  // ---------------------------------------------------------------- what the files say

  function ModuleList(claims: seq<Claim>): seq<string> {
    if claims == [] then VFIO_STACK
    else
      var list, modl := ModuleList(claims[..|claims| - 1]), claims[|claims| - 1].modl;
      if exists held | held in list :: SameModule(held, modl) then list else list + [modl]
  }

  function Ids(claims: seq<Claim>): seq<string> {
    if claims == [] then []
    else
      var ids, c := Ids(claims[..|claims| - 1]), claims[|claims| - 1];
      if NeedsDriverOverride(c.modl) then ids else ids + [IdText(c.vendor, c.device)]
  }

  function Rules(claims: seq<Claim>): seq<string> {
    if claims == [] then []
    else
      var rules, c := Rules(claims[..|claims| - 1]), claims[|claims| - 1];
      if NeedsDriverOverride(c.modl) then rules + [UdevRule(c)] else rules
  }

  function Overridden(claims: seq<Claim>): seq<Address> {
    if claims == [] then []
    else
      var addresses, c := Overridden(claims[..|claims| - 1]), claims[|claims| - 1];
      if NeedsDriverOverride(c.modl) then addresses + [c.address] else addresses
  }

  function LoadText(modules: seq<string>): string { Join('\n', modules) + ['\n'] }

  function OptionsLine(ids: seq<string>): string { "options " + (VFIO_PCI_DRIVER + (" ids=" + Join(',', ids))) }

  function OptionsText(ids: seq<string>): string {
    if ids == [] then "" else OptionsLine(ids) + ['\n']
  }

  function CanonIds(claims: seq<Claim>): seq<string> { Canon(StringLe, Ids(claims)) }

  function CanonRules(claims: seq<Claim>): seq<string> { Canon(StringLe, Rules(claims)) }

  /** The three file operations of one `persist`. */
  function PersistEvents(claims: seq<Claim>): seq<Event> {
    var rules := CanonRules(claims);
    [Put(ModulesLoad, LoadText(ModuleList(claims))),
     Put(Modprobe, OptionsText(CanonIds(claims))),
     if rules == [] then Drop(UdevRules) else Put(UdevRules, Concat(rules))]
  }

  /** The files a completed `persist` leaves, whatever was there before. */
  function Compiled(claims: seq<Claim>): Files {
    var rules := CanonRules(claims);
    Files(
      Some(LoadText(ModuleList(claims))),
      Some(OptionsText(CanonIds(claims))),
      if rules == [] then None else Some(Concat(rules)))
  }

  /** `persist`. Returns the devices a udev rule carries, or `None` for an error. */
  method Persist(node: Node, claims: seq<Claim>) returns (r: Option<seq<Address>>)
    modifies node
    ensures Ran(node.View(), r.Some?) == RunAll(old(node.View()), PersistEvents(claims))
    ensures r.Some? ==> r.value == Overridden(claims)
  {
    var modules, ids, overridden, rules := VFIO_STACK, [], [], [];
    for i := 0 to |claims|
      invariant modules == ModuleList(claims[..i]) && ids == Ids(claims[..i])
      invariant overridden == Overridden(claims[..i]) && rules == Rules(claims[..i])
      invariant node.View() == old(node.View())
    {
      var claim := claims[i];
      assert claims[..i + 1][..i] == claims[..i] && claims[..i + 1][i] == claim;
      if !exists held | held in modules :: SameModule(held, claim.modl) {
        modules := modules + [claim.modl];
      }
      if NeedsDriverOverride(claim.modl) {
        overridden := overridden + [claim.address];
        rules := rules + [UdevRule(claim)];
      } else {
        ids := ids + [IdText(claim.vendor, claim.device)];
      }
    }
    assert claims[..|claims|] == claims;
    ids := Canon(StringLe, ids);
    rules := Canon(StringLe, rules);

    ghost var w := node.View();
    var es := PersistEvents(claims);
    RunThree(w, es);
    var ok := node.Perform(Put(ModulesLoad, LoadText(modules)));
    if !ok { return None; }
    ok := node.Perform(Put(Modprobe, OptionsText(ids)));
    if !ok { return None; }
    ok := node.Perform(if rules == [] then Drop(UdevRules) else Put(UdevRules, Concat(rules)));
    if !ok { return None; }
    return Some(overridden);
  }

  lemma RunThree(w: World, es: seq<Event>)
    requires |es| == 3
    ensures RunAll(w, es) ==
      (var a := Do(w, es[0]); if !a.ok then a else
       var b := Do(a.w, es[1]); if !b.ok then b else Do(b.w, es[2]))
  {
    RunMore(w, [], es[0]);
    RunMore(w, [es[0]], es[1]);
    RunMore(w, [es[0], es[1]], es[2]);
    assert es == [] + [es[0]] + [es[1]] + [es[2]];
  }

  /** What a file operation leaves of the files. */
  lemma FileDone(w: World, e: Event)
    requires e.Put? || e.Drop?
    ensures var done := w.files.Write(e.file, if e.Put? then Some(e.text) else None);
            Do(w, e).w.files in {w.files, done} && (Do(w, e).ok ==> Do(w, e).w.files == done)
  {
  }

  /** A `persist` stopped anywhere leaves each file as it was or as compiled, and all of them
      compiled if it succeeds. */
  lemma PersistMakes(w: World, claims: seq<Claim>)
    ensures var r, c := RunAll(w, PersistEvents(claims)), Compiled(claims);
            && r.w.files.modulesLoad in {w.files.modulesLoad, c.modulesLoad}
            && r.w.files.modprobe in {w.files.modprobe, c.modprobe}
            && r.w.files.udev in {w.files.udev, c.udev}
            && (r.ok ==> r.w.files == c)
  {
    var es := PersistEvents(claims);
    RunThree(w, es);
    hide RunAll, Do, CanonRules, CanonIds, LoadText, OptionsText, Concat, ModuleList;
    var a := Do(w, es[0]);
    FileDone(w, es[0]);
    if a.ok {
      FileDone(a.w, es[1]);
      FileDone(Do(a.w, es[1]).w, es[2]);
    }
  }

  /** A completed `persist` leaves exactly the compiled files: none of what an earlier
      run wrote, a stale udev file included. */
  lemma PersistCompletes(w: World, claims: seq<Claim>)
    requires RunAll(w, PersistEvents(claims)).ok
    ensures RunAll(w, PersistEvents(claims)).w.files == Compiled(claims)
  {
    hide RunAll, PersistEvents, Compiled;
    PersistMakes(w, claims);
  }

  /** Where the files already are the compiled ones, a `persist` stopped anywhere leaves
      them so. */
  lemma PersistRewrites(w: World, claims: seq<Claim>)
    requires w.files == Compiled(claims)
    ensures RunAll(w, PersistEvents(claims)).w.files == w.files
  {
    hide RunAll, PersistEvents, Compiled;
    PersistMakes(w, claims);
  }

  /** `unpersist`. */
  const UNPERSIST := [Drop(ModulesLoad), Drop(Modprobe), Drop(UdevRules)]

  method Unpersist(node: Node) returns (ok: bool)
    modifies node
    ensures Ran(node.View(), ok) == RunAll(old(node.View()), UNPERSIST)
    ensures ok ==> node.files == NO_FILES
  {
    ghost var w := node.View();
    ghost var at := Course(w, UNPERSIST);
    for i := 0 to |UNPERSIST|
      invariant Ran(node.View(), true) == at(i)
    {
      ok := Follow(node, at, w, UNPERSIST, i, UNPERSIST[i]);
      if !ok { return; }
    }
    UnpersistRemoves(w);
    ok := true;
  }

  /** Each file is gone or as it was, and all are gone on success. */
  lemma UnpersistRemoves(w: World)
    ensures var r := RunAll(w, UNPERSIST);
            && r.w.files.modulesLoad in {w.files.modulesLoad, None}
            && r.w.files.modprobe in {w.files.modprobe, None}
            && r.w.files.udev in {w.files.udev, None}
            && (r.ok ==> r.w.files == NO_FILES)
  {
    RunThree(w, UNPERSIST);
    hide RunAll, Do;
    var a := Do(w, UNPERSIST[0]);
    FileDone(w, UNPERSIST[0]);
    if a.ok {
      FileDone(a.w, UNPERSIST[1]);
      FileDone(Do(a.w, UNPERSIST[1]).w, UNPERSIST[2]);
    }
  }

  // ---------------------------------------------------------------- canonical form

  lemma {:induction false} IdsElements(claims: seq<Claim>)
    ensures forall x :: x in Ids(claims) <==>
              exists c | c in claims :: !NeedsDriverOverride(c.modl) && x == IdText(c.vendor, c.device)
  {
    if claims != [] {
      IdsElements(claims[..|claims| - 1]);
      assert claims == claims[..|claims| - 1] + [claims[|claims| - 1]];
    }
  }

  lemma {:induction false} RulesElements(claims: seq<Claim>)
    ensures forall x :: x in Rules(claims) <==>
              exists c | c in claims :: NeedsDriverOverride(c.modl) && x == UdevRule(c)
  {
    if claims != [] {
      RulesElements(claims[..|claims| - 1]);
      assert claims == claims[..|claims| - 1] + [claims[|claims| - 1]];
    }
  }

  lemma OverriddenMore(claims: seq<Claim>)
    requires claims != []
    ensures var before, c := Overridden(claims[..|claims| - 1]), claims[|claims| - 1];
            Overridden(claims) == if Normalize(c.modl) != "vfio_pci" then before + [c.address] else before
  {
    OverrideUnless(claims[|claims| - 1].modl);
    hide NeedsDriverOverride, Normalize;
  }

  /** `persist` returns the addresses of the claims it carries by a udev rule, those whose
      module is another than vfio_pci, in their order. `at` is where each comes from. */
  lemma {:induction false} OverriddenExact(claims: seq<Claim>) returns (at: seq<nat>)
    ensures |at| == |Overridden(claims)|
    ensures forall i | 0 <= i < |at| :: at[i] < |claims| && Overridden(claims)[i] == claims[at[i]].address
    ensures forall i, j | 0 <= i < j < |at| :: at[i] < at[j]
    ensures forall k: nat | k < |claims| :: k in at <==> Normalize(claims[k].modl) != "vfio_pci"
  {
    at := [];
    if claims != [] {
      var init := claims[..|claims| - 1];
      OverriddenMore(claims);
      hide Overridden, Normalize;
      at := OverriddenExact(init);
      if Normalize(claims[|init|].modl) != "vfio_pci" {
        assert |init| in at + [|init|];
        at := at + [|init|];
      }
    }
  }

  /** What a claim is without the slot the card sits in. */
  function Unslotted(c: Claim): Claim { c.(address := "") }

  /** The same claims up to order, repetition and slots. */
  ghost predicate SameClaims(cs: seq<Claim>, ds: seq<Claim>) {
    && (forall c | c in cs :: exists d | d in ds :: Unslotted(c) == Unslotted(d))
    && (forall d | d in ds :: exists c | c in cs :: Unslotted(c) == Unslotted(d))
  }

  lemma StringsTotalOn(s: seq<string>)
    ensures TotalOn(StringLe, s)
  {
    StringOrder();
  }

  lemma CanonOf(s: seq<string>)
    ensures SameElements(Canon(StringLe, s), s) && StrictlySorted(StringLe, Canon(StringLe, s))
  {
    StringsTotalOn(s);
    CanonStrict(StringLe, s);
  }

  lemma CanonEqual(s: seq<string>, t: seq<string>)
    requires SameElements(s, t)
    ensures Canon(StringLe, s) == Canon(StringLe, t)
  {
    CanonOf(s);
    CanonOf(t);
    StringsTotalOn(Canon(StringLe, s));
    StrictUnique(StringLe, Canon(StringLe, s), Canon(StringLe, t));
  }

  /** The modprobe and udev files depend on neither the order of the claims nor their
      repetition, nor on which slot a card is in. */
  lemma FilesAreCanonical(cs: seq<Claim>, ds: seq<Claim>)
    requires SameClaims(cs, ds)
    ensures Compiled(cs).modprobe == Compiled(ds).modprobe
    ensures Compiled(cs).udev == Compiled(ds).udev
  {
    IdsElements(cs);
    IdsElements(ds);
    CanonEqual(Ids(cs), Ids(ds));
    SameRules(cs, ds);
    CanonEqual(Rules(cs), Rules(ds));
  }

  lemma SameRules(cs: seq<Claim>, ds: seq<Claim>)
    requires SameClaims(cs, ds)
    ensures SameElements(Rules(cs), Rules(ds))
  {
    RulesElements(cs);
    RulesElements(ds);
    forall c, d | Unslotted(c) == Unslotted(d) ensures UdevRule(c) == UdevRule(d) {
      assert Unslotted(c).vendor == c.vendor && Unslotted(d).vendor == d.vendor;
    }
  }

  ghost predicate Names(list: seq<string>, modl: string) {
    exists m | m in list :: SameModule(m, modl)
  }

  /** The module list starts with the VFIO stack and names no module twice, under either
      spelling. */
  lemma {:induction false} ModuleListDistinct(claims: seq<Claim>)
    ensures VFIO_STACK <= ModuleList(claims)
    ensures forall i, j | 0 <= i < j < |ModuleList(claims)| :: !SameModule(ModuleList(claims)[i], ModuleList(claims)[j])
  {
    if claims == [] {
      assert |Normalize("vfio")| != |Normalize("vfio_iommu_type1")|;
    } else {
      var init, c := claims[..|claims| - 1], claims[|claims| - 1];
      ModuleListDistinct(init);
      var before, list := ModuleList(init), ModuleList(claims);
      if list != before {
        assert list == before + [c.modl];
        assert forall m | m in before :: !SameModule(m, c.modl);
      }
    }
  }

  /** Besides the stack it names exactly the claimed modules. */
  lemma {:induction false} ModuleListExact(claims: seq<Claim>)
    ensures forall m :: Names(ModuleList(claims), m)
                        <==> Names(VFIO_STACK, m) || exists c | c in claims :: SameModule(c.modl, m)
    ensures forall m | m in ModuleList(claims) :: m in VFIO_STACK || exists c | c in claims :: c.modl == m
  {
    if claims != [] {
      var init, c := claims[..|claims| - 1], claims[|claims| - 1];
      ModuleListExact(init);
      assert claims == init + [c];
      var before, list := ModuleList(init), ModuleList(claims);
      forall m ensures Names(list, m) <==> Names(before, m) || SameModule(c.modl, m) {
        if list == before {
          var held :| held in list && SameModule(held, c.modl);
        }
      }
    }
  }
}
