/** The two firmware knobs of a device, what a write does to them, and the planner. */
module Knobs {
  import opened Text
  import opened Modes

  /** The mode registers of a device. A device without one of the knobs has the
      register but never shows it: see `See`. */
  datatype Regs = Regs(cc: CcMode, ppcie: PpcieMode)

  /** What an open device turned out to be. */
  datatype Kind = Gpu(supportsPpcie: bool) | Switch

  datatype Write = Cc(cc: CcMode) | PpcieKnob(ppcie: PpcieMode)

  /** The knobs a device of this kind reports; an absent knob is `None`. */
  datatype Seen = Seen(cc: Option<CcMode>, ppcie: Option<PpcieMode>)

  function See(kind: Kind, r: Regs): Seen {
    match kind
    case Gpu(supportsPpcie) => Seen(Some(r.cc), if supportsPpcie then Some(r.ppcie) else None)
    case Switch => Seen(None, Some(r.ppcie))
  }

  /** The firmware: enabling either knob clears the other, disabling one leaves the
      other alone. */
  function Fire(r: Regs, write: Write): Regs {
    match write
    case Cc(CcOff) => r.(cc := CcOff)
    case Cc(mode) => Regs(mode, PpcieOff)
    case PpcieKnob(PpcieOff) => r.(ppcie := PpcieOff)
    case PpcieKnob(PpcieOn) => Regs(CcOff, PpcieOn)
  }

  function FireAll(r: Regs, writes: seq<Write>): Regs {
    if writes == [] then r
    else Fire(FireAll(r, writes[..|writes| - 1]), writes[|writes| - 1])
  }

  /** An NVSwitch has no CC knob to write, a Blackwell GPU no PPCIE knob. */
  predicate Accepts(kind: Kind, write: Write) {
    match write
    case Cc(_) => kind.Gpu?
    case PpcieKnob(_) => kind.Switch? || kind.supportsPpcie
  }

  /** `writes_for`: what to write on a device that reports `seen` to have it report `mode`. */
  function WritesFor(seen: Seen, mode: Mode): seq<Write> {
    if seen.cc.Some? && seen.ppcie.Some? then
      var cc, ppcie := seen.cc.value, seen.ppcie.value;
      match mode.PpcieTarget()
      case PpcieOn =>
        if ppcie == PpcieOn && cc == CcOff then [] else [PpcieKnob(PpcieOn)]
      case PpcieOff =>
        if mode.CcTarget() != CcOff then
          if cc == mode.CcTarget() && ppcie == PpcieOff then [] else [Cc(mode.CcTarget())]
        else
          (if ppcie == PpcieOn then [PpcieKnob(PpcieOff)] else [])
          + (if cc != CcOff then [Cc(CcOff)] else [])
    else
      (if seen.cc.Some? && seen.cc.value != mode.CcTarget() then [Cc(mode.CcTarget())] else [])
      + (if seen.ppcie.Some? && seen.ppcie.value != mode.PpcieTarget() then [PpcieKnob(mode.PpcieTarget())] else [])
  }

  /** The check that `verify` makes of a re-read device. */
  predicate InMode(seen: Seen, mode: Mode) {
    && (seen.cc.Some? ==> seen.cc.value == mode.CcTarget())
    && (seen.ppcie.Some? ==> seen.ppcie.value == mode.PpcieTarget())
  }

  /** CC raised and PPCIE on exclude each other. */
  predicate Exclusive(r: Regs) { r.cc == CcOff || r.ppcie == PpcieOff }

  lemma FireAllAppend(r: Regs, writes: seq<Write>, more: seq<Write>)
    ensures FireAll(r, writes + more) == FireAll(FireAll(r, writes), more)
  {
    if more == [] {
      assert writes + more == writes;
    } else {
      assert (writes + more)[..|writes + more| - 1] == writes + more[..|more| - 1];
      FireAllAppend(r, writes, more[..|more| - 1]);
    }
  }

  lemma FireOne(r: Regs, write: Write)
    ensures FireAll(r, [write]) == Fire(r, write)
  {
    assert [write][..0] == [];
  }

  lemma FireTwo(r: Regs, a: Write, b: Write)
    ensures FireAll(r, [a, b]) == Fire(Fire(r, a), b)
  {
    assert [a, b][..1] == [a];
    FireOne(r, a);
  }

  /** The planner is empty exactly where `verify` passes. */
  lemma NothingToWriteIffInMode(kind: Kind, r: Regs, mode: Mode)
    ensures WritesFor(See(kind, r), mode) == [] <==> InMode(See(kind, r), mode)
  {
  }

  /** Firing the plan takes any device of any kind from any state to the mode, the
      device accepts every write of it, and a device that started with the knobs
      exclusive passes through no state where they are not. */
  lemma PlanReachesMode(kind: Kind, r: Regs, mode: Mode)
    ensures var plan := WritesFor(See(kind, r), mode);
            && InMode(See(kind, FireAll(r, plan)), mode)
            && (forall w | w in plan :: Accepts(kind, w))
            && (Exclusive(r) ==> forall n | 0 <= n <= |plan| :: Exclusive(FireAll(r, plan[..n])))
  {
    var plan := WritesFor(See(kind, r), mode);
    assert |plan| <= 2;
    if |plan| == 1 {
      FireOne(r, plan[0]);
      assert plan == [plan[0]];
    } else if |plan| == 2 {
      FireTwo(r, plan[0], plan[1]);
      assert plan == [plan[0], plan[1]];
    }
    forall n | Exclusive(r) && 0 <= n <= |plan| ensures Exclusive(FireAll(r, plan[..n])) {
      FireKeepsExclusive(r, plan[..n]);
    }
  }

  /** No write, planned or not, raises one knob beside the other. */
  lemma {:induction false} FireKeepsExclusive(r: Regs, writes: seq<Write>)
    requires Exclusive(r)
    ensures Exclusive(FireAll(r, writes))
  {
    if writes != [] {
      FireKeepsExclusive(r, writes[..|writes| - 1]);
    }
  }

  /** No accepted sequence of writes of any length that reaches the mode is shorter
      than the plan. */
  lemma PlanIsMinimal(kind: Kind, r: Regs, mode: Mode, writes: seq<Write>)
    requires forall w | w in writes :: Accepts(kind, w)
    requires InMode(See(kind, FireAll(r, writes)), mode)
    ensures |WritesFor(See(kind, r), mode)| <= |writes|
  {
    if |writes| == 1 {
      FireOne(r, writes[0]);
      assert writes == [writes[0]];
    }
  }

  /** "Which run and in which order is not a free choice": on a device whose knobs
      exclude each other, among the sequences that only ever write target values, the
      plan is the only one of its length that reaches the mode. The two-write plan
      belongs to the states where they do not, and clears PPCIE first. */
  lemma PlanIsForced(kind: Kind, r: Regs, mode: Mode, writes: seq<Write>)
    requires forall w | w in writes :: Accepts(kind, w)
    requires forall w | w in writes :: w == Cc(mode.CcTarget()) || w == PpcieKnob(mode.PpcieTarget())
    requires |writes| == |WritesFor(See(kind, r), mode)|
    ensures |WritesFor(See(kind, r), mode)| == 2 <==> kind == Gpu(true) && mode == Off && !Exclusive(r)
    ensures |WritesFor(See(kind, r), mode)| == 2 ==>
      WritesFor(See(kind, r), mode) == [PpcieKnob(PpcieOff), Cc(CcOff)]
    ensures Exclusive(r) ==>
      (InMode(See(kind, FireAll(r, writes)), mode) <==> writes == WritesFor(See(kind, r), mode))
  {
    var plan := WritesFor(See(kind, r), mode);
    PlanReachesMode(kind, r, mode);
    if |writes| == 1 {
      FireOne(r, writes[0]);
      assert writes[0] in writes && writes == [writes[0]] && plan == [plan[0]];
    }
  }
}
