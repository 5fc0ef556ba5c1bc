/** What the kernel and udev make of the three files at the next boot, read as text. */
module Boot {
  import opened Ordering
  import opened Text
  import opened Machine
  import opened BootConfig
  import opened RuleText
  import opened Udev

  // ---------------------------------------------------------------- reading the files

  function ParseHex4(s: string): Option<u16> {
    if |s| == 4 && forall c | c in s :: IsHexDigit(c) then
      Hex4Fits(s);
      Some(UnHex(s))
    else None
  }

  lemma Hex4Fits(s: string)
    requires |s| == 4 && forall c | c in s :: IsHexDigit(c)
    ensures UnHex(s) < 0x1_0000
  {
    UnHexBound(s);
    FourDigits();
  }

  /** One element of `ids=`. */
  function ParseId(s: string): Option<Id> {
    if |s| == 9 && s[4] == ':' && ParseHex4(s[..4]).Some? && ParseHex4(s[5..]).Some?
    then Some(Id(ParseHex4(s[..4]).value, ParseHex4(s[5..]).value))
    else None
  }

  function LinesOf(file: Option<string>): seq<string> {
    match file
    case None => []
    case Some(text) => Split('\n', text)
  }

  predicate LoadedAtBoot(files: Files, modl: string) {
    exists line | line in LinesOf(files.modulesLoad) :: line != "" && SameModule(line, modl)
  }

  /** A modprobe line `options vfio-pci ... ids=...,vvvv:dddd,...`, under either spelling of the
      driver's module. */
  predicate GivesId(line: string, id: Id) {
    var words := Split(' ', line);
    && |words| >= 2 && words[0] == "options" && Normalize(words[1]) == "vfio_pci"
    && exists word | word in words[2..] ::
         var ids := StripPrefix(word, "ids=");
         ids.Some? && exists part | part in Split(',', ids.value) :: ParseId(part) == Some(id)
  }

  predicate ClaimedById(files: Files, id: Id) { exists line | line in LinesOf(files.modprobe) :: GivesId(line, id) }

  /** What the udev file does as a device with these ids comes up. */
  function UdevDoes(files: Files, id: Id): Effects { Applied(LinesOf(files.udev), AddEvent(id)) }

  // ---------------------------------------------------------------- booting

  /** The driver a device with these ids comes up on. `native` is the driver that would
      take it before any of the files is looked at; the host check exists to rule one
      out. Loading vfio-pci claims the devices of its `ids=` line. The matching udev rules
      set an override, load modules and have the device probed, which binds a device nothing
      holds if one of the modules registers the driver the override names. */
  function DriverAtBoot(k: Kernel, files: Files, native: Option<string>, id: Id): Option<string> {
    if native.Some? then native
    else if LoadedAtBoot(files, VFIO_PCI) && ClaimedById(files, id) then Some(VFIO_PCI_DRIVER)
    else
      var e := UdevDoes(files, id);
      if e.probes && e.driverOverride.Some? && exists m | m in e.loads :: k.registers(m) == e.driverOverride
      then e.driverOverride
      else None
  }

  // ---------------------------------------------------------------- reading back

  lemma Hex4Reads(n: u16)
    ensures ParseHex4(Hex(4, n)) == Some(n)
  {
    FourDigits();
    UnHexHex(4, n);
  }

  predicate OneLine(s: string) { '\n' !in s }

  lemma IdReads(vendor: u16, device: u16)
    ensures ParseId(IdText(vendor, device)) == Some(Id(vendor, device))
  {
    var s := IdText(vendor, device);
    assert s[..4] == Hex(4, vendor) && s[5..] == Hex(4, device);
    Hex4Reads(vendor);
    Hex4Reads(device);
  }

  lemma IdTextHas(vendor: u16, device: u16)
    ensures var x := IdText(vendor, device); ',' !in x && '\n' !in x && ' ' !in x
  {
  }

  /** Sorting the ids as text is sorting them as pairs of numbers. */
  lemma IdOrder(a: Id, b: Id)
    ensures StringLe(IdText(a.vendor, a.device), IdText(b.vendor, b.device))
            <==> a.vendor < b.vendor || (a.vendor == b.vendor && a.device <= b.device)
  {
    FourDigits();
    HexOrder(4, a.vendor, b.vendor);
    HexOrder(4, a.device, b.device);
    hide LexLe, Hex;
    var x, y := Hex(4, a.vendor), Hex(4, b.vendor);
    var s, t := [':'] + Hex(4, a.device), [':'] + Hex(4, b.device);
    assert IdText(a.vendor, a.device) == x + s && IdText(b.vendor, b.device) == y + t;
    LexConcat(CharLe, x, y, s, t);
    LexConcat(CharLe, [':'], [':'], Hex(4, a.device), Hex(4, b.device));
  }

  // ---------------------------------------------------------------- what boot makes of a run's claims

  /** Kernel module and driver names hold neither quotes nor line ends. */
  predicate PlainName(s: string) { s != "" && forall c | c in s :: c != '"' && c != '\n' }

  /** Claims as a run resolves them: the driver is the one the module registers, and
      module and driver follow from the ids. */
  ghost predicate Resolved(k: Kernel, claims: seq<Claim>) {
    && (forall c | c in claims :: PlainName(c.modl) && PlainName(c.driver) && k.registers(c.modl) == Some(c.driver))
    && (forall c | c in claims && !NeedsDriverOverride(c.modl) :: c.driver == VFIO_PCI_DRIVER)
    && (forall c, d | c in claims && d in claims && IdOf(c) == IdOf(d) :: c.modl == d.modl && c.driver == d.driver)
  }

  /** Some claim on these ids is carried by the `ids=` line. */
  ghost predicate CarriedById(claims: seq<Claim>, id: Id) {
    exists c | c in claims :: !NeedsDriverOverride(c.modl) && IdOf(c) == id
  }

  lemma {:induction false} JoinEnd(sep: char, parts: seq<string>)
    requires parts != []
    ensures Join(sep, parts + [""]) == Join(sep, parts) + [sep]
  {
    if |parts| == 1 {
      assert (parts + [""])[1..] == [""];
    } else {
      JoinEnd(sep, parts[1..]);
      assert (parts + [""])[1..] == parts[1..] + [""];
    }
  }

  lemma {:induction false} ModulesPlain(claims: seq<Claim>)
    requires forall c | c in claims :: PlainName(c.modl)
    ensures forall m | m in ModuleList(claims) :: PlainName(m)
    ensures ModuleList(claims) != []
  {
    if claims != [] {
      ModulesPlain(claims[..|claims| - 1]);
    } else {
      assert '\n' !in "vfio" && '\n' !in "vfio_iommu_type1";
    }
  }

  lemma {:induction false} SplitEnd(sep: char, parts: seq<string>)
    requires parts != [] && forall p | p in parts :: sep !in p
    ensures Split(sep, Join(sep, parts) + [sep]) == parts + [""]
  {
    JoinEnd(sep, parts);
    SplitJoin(sep, parts + [""]);
  }

  /** The modules loaded at boot are the listed ones. */
  lemma LoadsTheList(k: Kernel, claims: seq<Claim>, modl: string)
    requires forall c | c in claims :: PlainName(c.modl)
    ensures LoadedAtBoot(Compiled(claims), modl) <==> Names(ModuleList(claims), modl)
  {
    ModulesPlain(claims);
    var list := ModuleList(claims);
    SplitEnd('\n', list);
    var lines := LinesOf(Compiled(claims).modulesLoad);
    assert lines == list + [""];
    assert forall m | m in list :: m in lines && m != "";
  }

  lemma {:induction false} JoinHas(sep: char, parts: seq<string>, c: char)
    requires c != sep && forall p | p in parts :: c !in p
    ensures c !in Join(sep, parts)
  {
    if |parts| > 1 {
      JoinHas(sep, parts[1..], c);
    }
  }

  lemma OptionsWords(list: string)
    requires ' ' !in list
    ensures Split(' ', "options " + (VFIO_PCI_DRIVER + (" ids=" + list))) == ["options", VFIO_PCI_DRIVER, "ids=" + list]
  {
    var words := ["options", VFIO_PCI_DRIVER, "ids=" + list];
    JoinMore(' ', VFIO_PCI_DRIVER, ["ids=" + list]);
    JoinMore(' ', "options", [VFIO_PCI_DRIVER, "ids=" + list]);
    assert [VFIO_PCI_DRIVER] + ["ids=" + list] == [VFIO_PCI_DRIVER, "ids=" + list];
    assert ["options"] + [VFIO_PCI_DRIVER, "ids=" + list] == words;
    assert Join(' ', words) == "options " + (VFIO_PCI_DRIVER + (" ids=" + list));
    forall w | w in words ensures ' ' !in w { }
    SplitJoin(' ', words);
  }

  lemma VfioPciSpelling()
    ensures Normalize(VFIO_PCI_DRIVER) == "vfio_pci" == VFIO_PCI
  {
  }

  lemma OptionsGives(ids: seq<string>, id: Id)
    requires ids != [] && forall x | x in ids :: ',' !in x && '\n' !in x && ' ' !in x
    ensures GivesId(OptionsLine(ids), id) <==> exists x | x in ids :: ParseId(x) == Some(id)
  {
    var list := Join(',', ids);
    JoinHas(',', ids, ' ');
    OptionsWords(list);
    SplitJoin(',', ids);
    VfioPciSpelling();
    var words := Split(' ', OptionsLine(ids));
    assert words[2..] == ["ids=" + list];
    StripConcat("ids=", list);
    hide Split, Join, StripPrefix, ParseId, OptionsLine, Normalize;
    assert "ids=" + list in words[2..];
  }

  lemma OptionsLines(ids: seq<string>)
    requires ids != [] && forall x | x in ids :: '\n' !in x
    ensures Split('\n', OptionsText(ids)) == [OptionsLine(ids), ""]
  {
    JoinHas(',', ids, '\n');
    assert OneLine(VFIO_PCI_DRIVER) && OneLine("options ") && OneLine(" ids=");
    var line := OptionsLine(ids);
    assert [line][0] == line;
    hide VFIO_PCI_DRIVER;
    SplitEnd('\n', [line]);
  }

  lemma EmptyGivesNone(id: Id)
    ensures !GivesId("", id)
  {
    CutAt(' ', "", "");
  }

  lemma OptionsClaim(files: Files, ids: seq<string>, id: Id)
    requires forall x | x in ids :: ',' !in x && '\n' !in x && ' ' !in x
    requires files.modprobe == Some(OptionsText(ids))
    ensures ClaimedById(files, id) <==> exists x | x in ids :: ParseId(x) == Some(id)
  {
    var lines := LinesOf(files.modprobe);
    EmptyGivesNone(id);
    if ids == [] {
      CutAt('\n', "", "");
      assert lines == [""];
    } else {
      OptionsLines(ids);
      OptionsGives(ids, id);
      assert lines[0] == OptionsLine(ids) && lines[1] == "";
    }
  }

  /** The printed `ids=` line reads back as exactly the ids it was printed from, for any
      number of them. */
  lemma OptionsRead(claims: seq<Claim>, id: Id)
    ensures ClaimedById(Compiled(claims), id) <==> CarriedById(claims, id)
  {
    var ids := CanonIds(claims);
    CanonOf(Ids(claims));
    IdsElements(claims);
    forall c | c in claims
      ensures var x := IdText(c.vendor, c.device);
              ParseId(x) == Some(IdOf(c)) && ',' !in x && '\n' !in x && ' ' !in x
    {
      IdReads(c.vendor, c.device);
      IdTextHas(c.vendor, c.device);
    }
    OptionsClaim(Compiled(claims), ids, id);
  }

  // ---- the udev file

  lemma ItemIsOneLine(head: string, value: string)
    requires OneLine(head) && OneLine(value)
    ensures OneLine(Item(head, value))
  {
  }

  lemma HexIsOneLine(n: u16)
    ensures OneLine("0x" + Hex(4, n))
  {
    hide Hex;
  }

  lemma HeadsAreOneLine()
    ensures OneLine("ACTION==") && OneLine("SUBSYSTEM==") && OneLine("add") && OneLine("pci") && OneLine(", ")
    ensures OneLine("ATTR{vendor}==") && OneLine("ATTR{device}==") && OneLine("RUN+=") && OneLine("kmod load ")
  {
  }

  lemma LongHeadsAreOneLine()
    ensures OneLine(OVERRIDE) && OneLine(RUN_BUILTIN)
  {
  }

  lemma ShellIsOneLine()
    ensures OneLine(RUN_SHELL)
  {
  }

  lemma LoadIsOneLine(modl: string)
    requires OneLine(modl)
    ensures OneLine("kmod load " + modl)
  {
    HeadsAreOneLine();
  }

  lemma RuleIsOneLine(c: Claim)
    requires PlainName(c.modl) && PlainName(c.driver)
    ensures OneLine(RuleLine(c))
  {
    HeadsAreOneLine();
    LongHeadsAreOneLine();
    ShellIsOneLine();
    HexIsOneLine(c.vendor);
    HexIsOneLine(c.device);
    LoadIsOneLine(c.modl);
    hide Item, Hex, OVERRIDE, RUN_BUILTIN, RUN_SHELL;
    ItemIsOneLine("ACTION==", "add");
    ItemIsOneLine("SUBSYSTEM==", "pci");
    ItemIsOneLine("ATTR{vendor}==", "0x" + Hex(4, c.vendor));
    ItemIsOneLine("ATTR{device}==", "0x" + Hex(4, c.device));
    ItemIsOneLine(OVERRIDE, c.driver);
    ItemIsOneLine(RUN_BUILTIN, "kmod load " + c.modl);
    ItemIsOneLine("RUN+=", RUN_SHELL);
  }

  function Body(rule: string): string { if rule == "" then "" else rule[..|rule| - 1] }

  function Bodies(rules: seq<string>): seq<string> {
    if rules == [] then [] else [Body(rules[0])] + Bodies(rules[1..])
  }

  lemma {:induction false} BodiesAt(rules: seq<string>)
    ensures |Bodies(rules)| == |rules| && forall i | 0 <= i < |rules| :: Bodies(rules)[i] == Body(rules[i])
  {
    if rules != [] {
      BodiesAt(rules[1..]);
    }
  }

  lemma JoinMore(sep: char, part: string, parts: seq<string>)
    requires parts != []
    ensures Join(sep, [part] + parts) == part + [sep] + Join(sep, parts)
  {
    assert ([part] + parts)[1..] == parts;
  }

  lemma {:induction false} ConcatIsLines(rules: seq<string>)
    requires forall r | r in rules :: r != "" && r[|r| - 1] == '\n'
    ensures Concat(rules) == Join('\n', Bodies(rules) + [""])
  {
    if rules == [] {
    } else {
      var rest, body := rules[1..], Body(rules[0]);
      assert rules[0] in rules && rules[0] == body + ['\n'];
      assert Concat(rules) == body + ['\n'] + Concat(rest);
      assert Bodies(rules) == [body] + Bodies(rest);
      hide Join, Concat, Body, Bodies;
      ConcatIsLines(rest);
      JoinMore('\n', body, Bodies(rest) + [""]);
      assert Bodies(rules) + [""] == [body] + (Bodies(rest) + [""]);
    }
  }

  /** Each line of the udev file is the rule of a claim that needs one. */
  lemma UdevLineIsRule(claims: seq<Claim>, i: nat)
    requires i < |CanonRules(claims)|
    ensures exists c | c in claims :: NeedsDriverOverride(c.modl) && Body(CanonRules(claims)[i]) == RuleLine(c)
  {
    var rules := CanonRules(claims);
    CanonOf(Rules(claims));
    RulesElements(claims);
    assert rules[i] in rules;
    var c :| c in claims && NeedsDriverOverride(c.modl) && rules[i] == UdevRule(c);
    BodyOfRule(c);
  }

  /** And each such rule is a line. */
  lemma RuleIsUdevLine(claims: seq<Claim>, c: Claim) returns (i: nat)
    requires c in claims && NeedsDriverOverride(c.modl)
    ensures i < |CanonRules(claims)| && Body(CanonRules(claims)[i]) == RuleLine(c)
  {
    var rules := CanonRules(claims);
    CanonOf(Rules(claims));
    RulesElements(claims);
    assert UdevRule(c) in rules;
    i :| 0 <= i < |rules| && rules[i] == UdevRule(c);
    BodyOfRule(c);
  }

  lemma UdevLine(claims: seq<Claim>, l: string)
    requires forall c | c in claims :: PlainName(c.modl) && PlainName(c.driver)
    ensures l in LinesOf(Compiled(claims).udev) && l != ""
            <==> exists c | c in claims :: NeedsDriverOverride(c.modl) && l == RuleLine(c)
  {
    var rules, lines := CanonRules(claims), LinesOf(Compiled(claims).udev);
    hide RuleLine, Body, Split, Concat, Rules, NeedsDriverOverride, CanonIds, LoadText, OptionsText;
    if rules != [] { UdevLines(claims); }
    if l in lines && l != "" {
      var i :| 0 <= i < |lines| && lines[i] == l;
      UdevLineIsRule(claims, i);
    }
    forall c | c in claims && NeedsDriverOverride(c.modl) && l == RuleLine(c) ensures l in lines && l != "" {
      var i := RuleIsUdevLine(claims, c);
      assert lines[i] == l;
      BodyOfRule(c);
    }
  }

  lemma BodyOfRule(c: Claim)
    ensures Body(UdevRule(c)) == RuleLine(c) != ""
  {
    assert UdevRule(c)[..|UdevRule(c)| - 1] == RuleLine(c);
  }

  /** What lines do, if each of them does `e` or nothing. */
  lemma {:induction false} AllAlike(lines: seq<string>, ev: UEvent, e: Effects)
    requires forall l | l in lines :: LineEffects(l, ev) in {e, NO_EFFECTS}
    ensures Applied(lines, ev) in {e, NO_EFFECTS}
    ensures (exists l | l in lines :: LineEffects(l, ev) == e) ==> Applied(lines, ev) == e
    ensures (forall l | l in lines :: LineEffects(l, ev) == NO_EFFECTS) ==> Applied(lines, ev) == NO_EFFECTS
  {
    hide LineEffects;
    if lines != [] {
      var init, last := lines[..|lines| - 1], lines[|lines| - 1];
      assert lines == init + [last];
      AllAlike(init, ev, e);
      assert Then(e, e) == e && Then(e, NO_EFFECTS) == e == Then(NO_EFFECTS, e);
      assert Then(NO_EFFECTS, NO_EFFECTS) == NO_EFFECTS;
    }
  }

  lemma EmptyDoesNothing(ev: UEvent)
    ensures LineEffects("", ev) == NO_EFFECTS
  {
  }

  /** What the udev file makes the kernel do: on the event of a device with the ids of a
      claim that needs an override coming up, that claim's driver as override, its module
      loaded and the device probed again; on any other event, nothing. */
  lemma UdevRead(k: Kernel, claims: seq<Claim>, ev: UEvent)
    requires Resolved(k, claims)
    ensures forall c | c in claims && NeedsDriverOverride(c.modl) && ev == AddEvent(IdOf(c)) ::
              Applied(LinesOf(Compiled(claims).udev), ev) == Effects(Some(c.driver), {c.modl}, true)
    ensures (forall c | c in claims && NeedsDriverOverride(c.modl) :: ev != AddEvent(IdOf(c))) ==>
              Applied(LinesOf(Compiled(claims).udev), ev) == NO_EFFECTS
  {
    var lines := LinesOf(Compiled(claims).udev);
    hide LinesOf, Compiled, RuleLine, LineEffects, Applied, AddEvent, NeedsDriverOverride;
    EmptyDoesNothing(ev);
    forall l ensures l in lines && l != ""
                     <==> exists c | c in claims :: NeedsDriverOverride(c.modl) && l == RuleLine(c) {
      UdevLine(claims, l);
    }
    forall c | c in claims
      ensures LineEffects(RuleLine(c), ev)
              == if ev == AddEvent(IdOf(c)) then Effects(Some(c.driver), {c.modl}, true) else NO_EFFECTS
      ensures NeedsDriverOverride(c.modl) ==> RuleLine(c) in lines
    {
      RuleEffects(c, ev);
      UdevLine(claims, RuleLine(c));
    }
    if c :| c in claims && NeedsDriverOverride(c.modl) && ev == AddEvent(IdOf(c)) {
      forall d | d in claims && ev == AddEvent(IdOf(d)) ensures d.modl == c.modl && d.driver == c.driver {
        AddEventNames(IdOf(c), IdOf(d));
      }
      AllAlike(lines, ev, Effects(Some(c.driver), {c.modl}, true));
    } else {
      AllAlike(lines, ev, NO_EFFECTS);
    }
  }

  lemma RulesSplit(rules: seq<string>)
    requires forall r | r in rules :: r != "" && r[|r| - 1] == '\n' && '\n' !in Body(r)
    ensures var lines := Split('\n', Concat(rules));
            && |lines| == |rules| + 1 && lines[|rules|] == ""
            && forall i | 0 <= i < |rules| :: lines[i] == Body(rules[i])
  {
    ConcatIsLines(rules);
    BodiesAt(rules);
    var parts := Bodies(rules) + [""];
    forall i | 0 <= i < |parts| ensures '\n' !in parts[i] {
      if i < |rules| { assert rules[i] in rules; }
    }
    SplitJoin('\n', parts);
  }

  lemma UdevLines(claims: seq<Claim>)
    requires forall c | c in claims :: PlainName(c.modl) && PlainName(c.driver)
    requires CanonRules(claims) != []
    ensures var rules, lines := CanonRules(claims), LinesOf(Compiled(claims).udev);
            && |lines| == |rules| + 1 && lines[|rules|] == ""
            && forall i | 0 <= i < |rules| :: lines[i] == Body(rules[i])
  {
    var rules := CanonRules(claims);
    CanonOf(Rules(claims));
    RulesElements(claims);
    hide RuleLine, Split, Concat, Rules, Body;
    forall r | r in rules ensures r != "" && r[|r| - 1] == '\n' && '\n' !in Body(r) {
      var c :| c in claims && r == UdevRule(c);
      RuleIsOneLine(c);
      BodyOfRule(c);
    }
    RulesSplit(rules);
  }

  /** Boot does what `bind` did: a claimed device comes up on the driver its claim names
      exactly if no other driver takes it first, and the files put no device of other
      ids on any driver. */
  lemma BootAgrees(k: Kernel, claims: seq<Claim>, native: Option<string>, id: Id)
    requires Resolved(k, claims)
    ensures forall c | c in claims && IdOf(c) == id ::
      DriverAtBoot(k, Compiled(claims), native, id) == Some(c.driver)
      <==> native == None || native == Some(c.driver)
    ensures (forall c | c in claims :: IdOf(c) != id) ==>
      DriverAtBoot(k, Compiled(claims), native, id) == native
  {
    BootOne(k, claims, id);
  }

  /** What boot gives unheld devices with these ids. */
  ghost predicate BootTarget(k: Kernel, claims: seq<Claim>, id: Id) {
    var d := DriverAtBoot(k, Compiled(claims), None, id);
    && (forall c | c in claims && IdOf(c) == id :: d == Some(c.driver))
    && ((forall c | c in claims :: IdOf(c) != id) ==> d == None)
  }

  lemma BootOne(k: Kernel, claims: seq<Claim>, id: Id)
    requires Resolved(k, claims)
    ensures BootTarget(k, claims, id)
  {
    OptionsRead(claims, id);
    LoadsTheList(k, claims, VFIO_PCI);
    UdevForClaims(k, claims, id);
    hide ClaimedById, LoadedAtBoot, UdevDoes, Compiled, NeedsDriverOverride;
    if c :| c in claims && IdOf(c) == id {
      if !NeedsDriverOverride(c.modl) {
        ModuleListExact(claims);
        NormalVfioPci(c.modl);
        assert SameModule(c.modl, VFIO_PCI);
      } else {
        assert forall d | d in claims && IdOf(d) == id :: NeedsDriverOverride(d.modl);
        assert UdevDoes(Compiled(claims), id) == Effects(Some(c.driver), {c.modl}, true);
        assert c.modl in UdevDoes(Compiled(claims), id).loads;
      }
    }
  }

  lemma NoUdevFile(files: Files, id: Id)
    ensures files.udev == None ==> UdevDoes(files, id) == NO_EFFECTS
  {
  }

  /** What the udev file does to a device, by the claims on its ids. */
  lemma UdevForClaims(k: Kernel, claims: seq<Claim>, id: Id)
    requires Resolved(k, claims)
    ensures forall c | c in claims && IdOf(c) == id ::
              UdevDoes(Compiled(claims), id)
              == if NeedsDriverOverride(c.modl) then Effects(Some(c.driver), {c.modl}, true) else NO_EFFECTS
    ensures (forall c | c in claims :: IdOf(c) != id) ==> UdevDoes(Compiled(claims), id) == NO_EFFECTS
  {
    hide Compiled, LinesOf, AddEvent, Applied, NeedsDriverOverride;
    UdevRead(k, claims, AddEvent(id));
    forall c | c in claims ensures AddEvent(id) == AddEvent(IdOf(c)) <==> id == IdOf(c) {
      AddEventNames(id, IdOf(c));
    }
  }

  lemma NormalVfioPci(modl: string)
    ensures Normalize(VFIO_PCI) == VFIO_PCI
    ensures !NeedsDriverOverride(modl) <==> Normalize(modl) == "vfio_pci"
  {
  }

  /** Each claim is carried by exactly one of the `ids=` line and a udev rule, the line if its
      module is vfio_pci under either spelling, and no two rules are for the same ids. */
  lemma OneCarrier(k: Kernel, claims: seq<Claim>)
    requires Resolved(k, claims)
    ensures var files, rules := Compiled(claims), CanonRules(claims);
            && (forall c | c in claims ::
                  && (ClaimedById(files, IdOf(c)) <==> Normalize(c.modl) == "vfio_pci")
                  && (UdevDoes(files, IdOf(c)).driverOverride.Some? <==> Normalize(c.modl) != "vfio_pci"))
            && (forall i, j, c, d | 0 <= i < j < |rules| && c in claims && d in claims
                  && rules[i] == UdevRule(c) && rules[j] == UdevRule(d) :: IdOf(c) != IdOf(d))
  {
    hide ClaimedById, UdevDoes, Compiled, NeedsDriverOverride;
    forall c | c in claims
      ensures ClaimedById(Compiled(claims), IdOf(c)) <==> Normalize(c.modl) == "vfio_pci"
      ensures UdevDoes(Compiled(claims), IdOf(c)).driverOverride.Some? <==> Normalize(c.modl) != "vfio_pci"
    {
      OptionsRead(claims, IdOf(c));
      UdevForClaims(k, claims, IdOf(c));
      NormalVfioPci(c.modl);
    }
    forall c, d | c in claims && d in claims && IdOf(c) == IdOf(d) ensures UdevRule(c) == UdevRule(d) {
    }
    hide Rules, UdevRule;
    CanonOf(Rules(claims));
  }
}
