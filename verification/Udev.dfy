/** How udev reads a line of a rules file, and what the matching lines do to a device. */
module Udev {
  import opened Text

  datatype Operator = Equals | Differs | Assign | Add | Remove | Final

  /** `key op "value"`. */
  datatype Term = Term(key: string, op: Operator, value: string)

  predicate Blank(c: char) { c == ' ' || c == '\t' }

  function SkipBlanks(s: string): (r: string)
    ensures |r| <= |s|
  {
    if s != "" && Blank(s[0]) then SkipBlanks(s[1..]) else s
  }

  /** The key and the operator in front of a value. */
  function SplitOp(head: string): Option<(string, Operator)> {
    var n := |head|;
    if n < 2 || head[n - 1] != '=' then None
    else if head[n - 2] == '=' then Some((head[..n - 2], Equals))
    else if head[n - 2] == '!' then Some((head[..n - 2], Differs))
    else if head[n - 2] == '+' then Some((head[..n - 2], Add))
    else if head[n - 2] == '-' then Some((head[..n - 2], Remove))
    else if head[n - 2] == ':' then Some((head[..n - 2], Final))
    else Some((head[..n - 1], Assign))
  }

  /** The terms of a line, which commas separate. A line that is not of this form is
      ignored as a whole. */
  function Terms(s: string): Option<seq<Term>>
    decreases |s|
  {
    var line := SkipBlanks(s);
    if line == "" then Some([]) else
    var (head, after) := Cut('"', line);
    if after.None? || SplitOp(head).None? then None else
    var (value, end) := Cut('"', after.value);
    if end.None? then None else
    var term, rest := Term(SplitOp(head).value.0, SplitOp(head).value.1, value), SkipBlanks(end.value);
    if rest == "" then Some([term])
    else if rest[0] != ',' then None
    else
      var more := Terms(rest[1..]);
      if more.Some? then Some([term] + more.value) else None
  }

  // ---------------------------------------------------------------- events

  /** What the rules can see of the kernel's event for a PCI device. `vendor` and `device`
      are the text of its sysfs attributes. */
  datatype UEvent = UEvent(action: string, subsystem: string, vendor: string, device: string)

  function Property(ev: UEvent, key: string): Option<string> {
    if key == "ACTION" then Some(ev.action)
    else if key == "SUBSYSTEM" then Some(ev.subsystem)
    else if key == "ATTR{vendor}" then Some(ev.vendor)
    else if key == "ATTR{device}" then Some(ev.device)
    else None
  }

  /** A term with a matching operator compares; the others are there for what they do. */
  predicate Matches(ev: UEvent, term: Term) {
    match term.op
    case Equals => Property(ev, term.key) == Some(term.value)
    case Differs => Property(ev, term.key).Some? && Property(ev, term.key) != Some(term.value)
    case _ => true
  }

  predicate MatchesAll(ev: UEvent, terms: seq<Term>) { forall term | term in terms :: Matches(ev, term) }

  /** What rules do to a device that matters to which driver it gets: the driver override
      they leave, the modules they load, and whether they have it probed again. */
  datatype Effects = Effects(driverOverride: Option<string>, loads: set<string>, probes: bool)

  const NO_EFFECTS := Effects(None, {}, false)

  const KMOD_LOAD := "kmod load "

  /** Has the PCI bus look for a driver for the device, by its kernel name. */
  const PROBE_AGAIN := "/bin/sh -c 'echo %k" + " > " + "/sys/bus/pci" + "/drivers_probe'"

  function EffectsOf(terms: seq<Term>): Effects {
    if terms == [] then NO_EFFECTS
    else
      var e, last := EffectsOf(terms[..|terms| - 1]), terms[|terms| - 1];
      if last.key == "ATTR{driver_override}" && last.op == Assign then e.(driverOverride := Some(last.value))
      else if last.key == "RUN{builtin}" && last.op == Add && KMOD_LOAD <= last.value then
        e.(loads := e.loads + {last.value[|KMOD_LOAD|..]})
      else if last.key == "RUN" && last.op == Add && last.value == PROBE_AGAIN then e.(probes := true)
      else e
  }

  function LineEffects(line: string, ev: UEvent): Effects {
    var terms := Terms(line);
    if terms.Some? && MatchesAll(ev, terms.value) then EffectsOf(terms.value) else NO_EFFECTS
  }

  /** `e` then `f`: of several lines that assign an override, the last one wins. */
  function Then(e: Effects, f: Effects): Effects {
    Effects(if f.driverOverride.Some? then f.driverOverride else e.driverOverride, e.loads + f.loads,
        e.probes || f.probes)
  }

  /** What the lines of a rules file do on an event. */
  function Applied(lines: seq<string>, ev: UEvent): Effects {
    if lines == [] then NO_EFFECTS
    else Then(Applied(lines[..|lines| - 1], ev), LineEffects(lines[|lines| - 1], ev))
  }

  // ---------------------------------------------------------------- reading what was printed

  lemma ReadItem(head: string, value: string, rest: string)
    requires head != "" && !Blank(head[0]) && '"' !in head && '"' !in value
    requires SplitOp(head).Some? && (rest == "" || rest[0] == ',')
    ensures var more := if rest == "" then Some([]) else Terms(rest[1..]);
            Terms(Item(head, value) + rest)
            == if more.Some? then Some([Term(SplitOp(head).value.0, SplitOp(head).value.1,
                value)] + more.value) else None
  {
    var s := Item(head, value) + rest;
    assert s[0] == head[0];
    assert s == head + ['"'] + (value + ['"'] + rest);
    CutAt('"', head, value + ['"'] + rest);
    CutAt('"', value, rest);
    hide SplitOp;
    assert SkipBlanks(s) == s;
    assert SkipBlanks(rest) == rest;
    var term := Term(SplitOp(head).value.0, SplitOp(head).value.1, value);
    assert [term] + [] == [term];
  }

  lemma BlankFirst(s: string)
    ensures Terms([' '] + s) == Terms(s)
  {
    assert ([' '] + s)[1..] == s;
    hide SplitOp;
  }
}
