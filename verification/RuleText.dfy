/** What udev makes of one rule that `persist` prints. */
module RuleText {
  import opened Text
  import opened BootConfig
  import opened Udev

  datatype Id = Id(vendor: u16, device: u16)

  function IdOf(c: Claim): Id { Id(c.vendor, c.device) }

  /** sysfs prints an id of a PCI device as 0x and four hexadecimal digits. */
  function AttributeText(n: u16): string { "0x" + Hex(4, n) }

  /** The event of a PCI device with these ids coming up. */
  function AddEvent(id: Id): UEvent { UEvent("add", "pci", AttributeText(id.vendor), AttributeText(id.device)) }

  lemma AddEventNames(id: Id, other: Id)
    ensures AddEvent(id) == AddEvent(other) <==> id == other
  {
    AttributeNames(id.vendor, other.vendor);
    AttributeNames(id.device, other.device);
    hide AttributeText;
  }

  lemma AttributeNames(m: u16, n: u16)
    ensures AttributeText(m) == AttributeText(n) <==> m == n
  {
    FourDigits();
    UnHexHex(4, m);
    UnHexHex(4, n);
    assert AttributeText(m)[2..] == Hex(4, m) && AttributeText(n)[2..] == Hex(4, n);
  }

  /** Four conditions, and three things to do. */
  function RuleTerms(c: Claim): seq<Term> {
    [Term("ACTION", Equals, "add"),
     Term("SUBSYSTEM", Equals, "pci"),
     Term("ATTR{vendor}", Equals, AttributeText(c.vendor)),
     Term("ATTR{device}", Equals, AttributeText(c.device)),
     Term("ATTR{driver_override}", Assign, c.driver),
     Term("RUN{builtin}", Add, KMOD_LOAD + c.modl),
     Term("RUN", Add, PROBE_AGAIN)]
  }

  // ---------------------------------------------------------------- the operators

  predicate Plain(s: string) { '"' !in s }

  /** What stands before the value of a term. */
  predicate IsHead(head: string, key: string, op: Operator) {
    head != "" && !Blank(head[0]) && Plain(head) && SplitOp(head) == Some((key, op))
  }

  lemma SplitAt(key: string, sign: string, op: Operator)
    requires key != "" && key[|key| - 1] !in "=!+-:"
    requires (sign, op) in {("==", Equals), ("+=", Add), ("=", Assign)}
    ensures SplitOp(key + sign) == Some((key, op))
  {
    assert (key + sign)[..|key|] == key;
  }

  lemma ActionSplits()
    ensures IsHead("ACTION==", "ACTION", Equals)
  {
    SplitAt("ACTION", "==", Equals);
    assert "ACTION" + "==" == "ACTION==";
  }

  lemma SubsystemSplits()
    ensures IsHead("SUBSYSTEM==", "SUBSYSTEM", Equals)
  {
    SplitAt("SUBSYSTEM", "==", Equals);
    assert "SUBSYSTEM" + "==" == "SUBSYSTEM==";
  }

  lemma VendorSplits()
    ensures IsHead("ATTR{vendor}==", "ATTR{vendor}", Equals)
  {
    SplitAt("ATTR{vendor}", "==", Equals);
    assert "ATTR{vendor}" + "==" == "ATTR{vendor}==";
  }

  lemma DeviceSplits()
    ensures IsHead("ATTR{device}==", "ATTR{device}", Equals)
  {
    SplitAt("ATTR{device}", "==", Equals);
    assert "ATTR{device}" + "==" == "ATTR{device}==";
  }

  lemma OverrideSplits()
    ensures IsHead(OVERRIDE, "ATTR{driver_override}", Assign)
  {
    SplitAt("ATTR{driver_override}", "=", Assign);
    assert "ATTR{driver_override}" + "=" == OVERRIDE;
  }

  lemma BuiltinSplits()
    ensures IsHead(RUN_BUILTIN, "RUN{builtin}", Add)
  {
    SplitAt("RUN{builtin}", "+=", Add);
    assert "RUN{builtin}" + "+=" == RUN_BUILTIN;
  }

  lemma RunSplits()
    ensures IsHead("RUN+=", "RUN", Add)
  {
    SplitAt("RUN", "+=", Add);
    assert "RUN" + "+=" == "RUN+=";
  }

  // ---------------------------------------------------------------- reading

  /** An item and what follows it after a comma and a blank. */
  lemma ReadNext(head: string, value: string, rest: string, term: Term, terms: seq<Term>)
    requires IsHead(head, term.key, term.op) && Plain(value) && term.value == value
    requires Terms(rest) == Some(terms)
    ensures Terms(Item(head, value) + (", " + rest)) == Some([term] + terms)
  {
    hide Terms, SplitOp, Item;
    ReadItem(head, value, ", " + rest);
    assert (", " + rest)[1..] == [' '] + rest;
    BlankFirst(rest);
  }

  lemma ReadLast(head: string, value: string, term: Term)
    requires IsHead(head, term.key, term.op) && Plain(value) && term.value == value
    ensures Terms(Item(head, value)) == Some([term])
  {
    hide Terms, SplitOp, Item;
    ReadItem(head, value, "");
    assert Item(head, value) + "" == Item(head, value);
    assert [term] + [] == [term];
  }

  lemma AttributeIsPlain(n: u16)
    ensures Plain(AttributeText(n))
  {
  }

  /** What a rule does, as printed. */
  function Doing(c: Claim): string {
    Item(OVERRIDE, c.driver) + (", " + (Item(RUN_BUILTIN, "kmod load " + c.modl) + (", " + Item("RUN+=", RUN_SHELL))))
  }

  lemma ShellIsPlain()
    ensures Plain(RUN_SHELL) && RUN_SHELL == PROBE_AGAIN
  {
  }

  lemma LoadIsPlain(modl: string)
    requires Plain(modl)
    ensures Plain("kmod load " + modl)
  {
  }

  lemma DoingReads(c: Claim)
    requires Plain(c.modl) && Plain(c.driver)
    ensures Terms(Doing(c)) == Some(RuleTerms(c)[4..])
  {
    var load := Term("RUN{builtin}", Add, KMOD_LOAD + c.modl);
    var run := Term("RUN", Add, PROBE_AGAIN);
    var assign := Term("ATTR{driver_override}", Assign, c.driver);
    OverrideSplits();
    BuiltinSplits();
    RunSplits();
    ShellIsPlain();
    LoadIsPlain(c.modl);
    hide Terms, IsHead, Item, RUN_SHELL, PROBE_AGAIN;
    ReadLast("RUN+=", RUN_SHELL, run);
    ReadNext(RUN_BUILTIN, "kmod load " + c.modl, Item("RUN+=", RUN_SHELL), load, [run]);
    ReadNext(OVERRIDE, c.driver, Item(RUN_BUILTIN, "kmod load " + c.modl) + (", " + Item("RUN+=", RUN_SHELL)),
             assign, [load] + [run]);
    assert RuleTerms(c)[4..] == [assign] + ([load] + [run]);
  }

  /** The conditions on the ids, and what follows them. */
  function FromIds(c: Claim): string {
    Item("ATTR{vendor}==", AttributeText(c.vendor)) + (", "
    + (Item("ATTR{device}==", AttributeText(c.device)) + (", " + Doing(c))))
  }

  lemma FromIdsReads(c: Claim)
    requires Plain(c.modl) && Plain(c.driver)
    ensures Terms(FromIds(c)) == Some(RuleTerms(c)[2..])
  {
    var ts := RuleTerms(c);
    assert ts[2] == Term("ATTR{vendor}", Equals, AttributeText(c.vendor));
    assert ts[3] == Term("ATTR{device}", Equals, AttributeText(c.device));
    DoingReads(c);
    VendorSplits();
    DeviceSplits();
    AttributeIsPlain(c.vendor);
    AttributeIsPlain(c.device);
    hide Terms, IsHead, Item, RuleTerms, Doing, AttributeText;
    ReadNext("ATTR{device}==", AttributeText(c.device), Doing(c), ts[3], ts[4..]);
    ReadNext("ATTR{vendor}==", AttributeText(c.vendor),
             Item("ATTR{device}==", AttributeText(c.device)) + (", " + Doing(c)), ts[2], [ts[3]] + ts[4..]);
    assert ts[2..] == [ts[2]] + ([ts[3]] + ts[4..]);
  }

  /** A printed rule is, to udev, four conditions and three things to do. */
  lemma RuleReads(c: Claim)
    requires Plain(c.modl) && Plain(c.driver)
    ensures Terms(RuleLine(c)) == Some(RuleTerms(c))
  {
    var ts := RuleTerms(c);
    assert ts[0] == Term("ACTION", Equals, "add") && ts[1] == Term("SUBSYSTEM", Equals, "pci");
    FromIdsReads(c);
    ActionSplits();
    SubsystemSplits();
    RuleLineParts(c);
    assert Plain("add") && Plain("pci");
    hide Terms, IsHead, Item, RuleTerms, RuleLine, FromIds, Plain;
    ReadNext("SUBSYSTEM==", "pci", FromIds(c), ts[1], ts[2..]);
    ReadNext("ACTION==", "add", Item("SUBSYSTEM==", "pci") + (", " + FromIds(c)), ts[0], [ts[1]] + ts[2..]);
    assert ts == [ts[0]] + ([ts[1]] + ts[2..]);
  }

  lemma RuleLineParts(c: Claim)
    ensures RuleLine(c) == Item("ACTION==", "add") + (", " + (Item("SUBSYSTEM==", "pci") + (", " + FromIds(c))))
  {
    hide Item, Hex;
  }

  // ---------------------------------------------------------------- matching and doing

  /** A rule matches the event of a device with its ids coming up, and no other event. */
  lemma RuleMatches(c: Claim, ev: UEvent)
    ensures MatchesAll(ev, RuleTerms(c)) <==> ev == AddEvent(IdOf(c))
  {
    var ts := RuleTerms(c);
    assert MatchesAll(ev, ts)
           <==> (Matches(ev, ts[0]) && Matches(ev, ts[1]) && Matches(ev, ts[2]) && Matches(ev, ts[3])) by {
      assert forall term | term in ts[4..] :: Matches(ev, term);
      assert ts == [ts[0], ts[1], ts[2], ts[3]] + ts[4..];
    }
  }

  /** It leaves the driver as override, loads the module, and probes the device again. */
  lemma RuleDoes(c: Claim)
    ensures EffectsOf(RuleTerms(c)) == Effects(Some(c.driver), {c.modl}, true)
  {
    var ts := RuleTerms(c);
    assert ts[..6] + [ts[6]] == ts && ts[..5] + [ts[5]] == ts[..6] && ts[..4] + [ts[4]] == ts[..5];
    ConditionsDoNothing(ts[..4]);
    DoesMore(ts[..4], ts[4]);
    DoesMore(ts[..5], ts[5]);
    DoesMore(ts[..6], ts[6]);
    assert (KMOD_LOAD + c.modl)[|KMOD_LOAD|..] == c.modl;
  }

  lemma {:induction false} ConditionsDoNothing(terms: seq<Term>)
    requires forall term | term in terms :: term.op == Equals
    ensures EffectsOf(terms) == NO_EFFECTS
  {
    if terms != [] {
      ConditionsDoNothing(terms[..|terms| - 1]);
    }
  }

  lemma DoesMore(terms: seq<Term>, last: Term)
    ensures EffectsOf(terms + [last]) ==
              var e := EffectsOf(terms);
              if last.key == "ATTR{driver_override}" && last.op == Assign then e.(driverOverride := Some(last.value))
              else if last.key == "RUN{builtin}" && last.op == Add && KMOD_LOAD <= last.value then
                e.(loads := e.loads + {last.value[|KMOD_LOAD|..]})
              else if last.key == "RUN" && last.op == Add && last.value == PROBE_AGAIN then e.(probes := true)
              else e
  {
    assert (terms + [last])[..|terms + [last]| - 1] == terms;
  }

  lemma RuleEffects(c: Claim, ev: UEvent)
    requires Plain(c.modl) && Plain(c.driver)
    ensures LineEffects(RuleLine(c), ev)
            == if ev == AddEvent(IdOf(c)) then Effects(Some(c.driver), {c.modl}, true) else NO_EFFECTS
  {
    hide Terms, RuleTerms, RuleLine, EffectsOf, MatchesAll;
    RuleReads(c);
    RuleMatches(c, ev);
    RuleDoes(c);
  }
}
