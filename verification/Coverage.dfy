/** The idle check covers what a run disturbs, and a run on a provisioned node disturbs nothing. */
module Coverage {
  import opened Text
  import opened Modes
  import opened Knobs
  import opened Machine
  import opened Devices
  import opened Idle
  import opened BootConfig
  import opened Provision
  import opened Resolution
  import opened Stages
  import opened Guarantees
  import Nvidia
  import Transaction

  // ---------------------------------------------------------------- the steps of the change

  lemma BoardSteps(cat: Catalog, states: seq<DeviceState>, w: World, mode: Mode, good: Step -> bool)
    requires forall s: Step | !(s.acted && s.e.Disturbs()) :: good(s)
    requires forall e, acted | e in Nvidia.Board(cat, states, w, mode) && (e.Set? || e.Reset?) :: good(Step(e, acted))
    ensures NewSteps(w, RunAll(w, Nvidia.Board(cat, states, w, mode)).w, good)
  {
    Transaction.BoardKinds(cat, states, w, mode);
    hide Nvidia.Board, RunAll, NewSteps;
    var es := Nvidia.Board(cat, states, w, mode);
    forall e, acted | e in es ensures good(Step(e, acted)) {
      assert e.Open? || e.Read? || e.Set? || e.Reset? || e.Verify?;
    }
    StepsOf(w, es, good);
  }

  lemma QuietSteps(w: World, es: seq<Event>, good: Step -> bool)
    requires forall s: Step | !(s.acted && s.e.Disturbs()) :: good(s)
    requires forall e | e in es :: !e.Disturbs()
    ensures NewSteps(w, RunAll(w, es).w, good)
  {
    hide RunAll, NewSteps;
    StepsOf(w, es, good);
  }

  lemma BindStage(w: World, pass: seq<DeviceState>, drivers: map<Address, VfioDriver>, good: Step -> bool)
    requires Covers(drivers, pass) && UniqueAddresses(pass)
    requires forall s, acted | s in pass && (acted ==> w.Driver(s.address) == None) ::
      good(Step(Bind(s.address, drivers[s.address].driver), acted))
    ensures NewSteps(w, RunAll(w, BindScript(pass, drivers)).w, good)
    ensures forall a | !Kept(pass, a) :: RunAll(w, BindScript(pass, drivers)).w.Driver(a) == w.Driver(a)
  {
    var es := BindScript(pass, drivers);
    BindEvents(pass, drivers);
    assert forall i, j | 0 <= i < j < |es| :: es[i].a != es[j].a;
    hide BindScript, RunAll, NewSteps;
    BindSteps(w, es, good);
    forall a | !Kept(pass, a) ensures RunAll(w, es).w.Driver(a) == w.Driver(a) {
      KeepsDriverAt(w, es, a);
    }
  }

  lemma ReleaseStage(w: World, start: World, states: seq<DeviceState>, pass: seq<DeviceState>, good: Step -> bool)
    requires forall a | !Kept(pass, a) :: w.Driver(a) == start.Driver(a)
    requires forall s, acted | s in states && !Kept(pass, s.address) && IsVfio(start.Driver(s.address)) ::
      good(Step(Unbind(s.address), acted))
    ensures NewSteps(w, RunAll(w, ReleaseScript(w.drivers, states, pass)).w, good)
  {
    var es := ReleaseScript(w.drivers, states, pass);
    ReleaseEvents(w.drivers, states, pass);
    hide ReleaseScript, RunAll, NewSteps, IsVfio, Kept;
    forall e, acted | e in es ensures good(Step(e, acted)) {
      var s :| s in states && e == Unbind(s.address) && !Kept(pass, s.address) && IsVfio(BoundTo(w.drivers, s.address));
      ReleasedIsNotVfio(w, s.address);
    }
    StepsOf(w, es, good);
  }

  /** Every step of the change, given what the disturbing ones are: knob writes and resets
      of the board's script, bindings of passthrough devices nothing holds, and releases
      of other devices that a vfio driver held at the start. */
  lemma ChangeSteps(site: Site, w: World, states: seq<DeviceState>, mode: Mode,
                    pass: seq<DeviceState>, drivers: map<Address, VfioDriver>, good: Step -> bool)
    requires Covers(drivers, pass) && UniqueAddresses(pass)
    requires forall s: Step | !(s.acted && s.e.Disturbs()) :: good(s)
    requires forall e, acted | e in Nvidia.Board(site.cat, states, w, mode) && (e.Set? || e.Reset?) ::
      good(Step(e, acted))
    requires forall s, acted | s in pass && (acted ==> w.Driver(s.address) == None) ::
      good(Step(Bind(s.address, drivers[s.address].driver), acted))
    requires forall s, acted | s in states && !Kept(pass, s.address) && IsVfio(w.Driver(s.address)) ::
      good(Step(Unbind(s.address), acted))
    ensures NewSteps(w, Change(site, w, states, mode, pass, drivers).w, good)
  {
    hide RunAll, PersistEvents, Claims, BindScript, ReleaseScript, CheckScript, Nvidia.Board, IsVfio, NewSteps, Kept;
    var r1 := RunAll(w, Nvidia.Board(site.cat, states, w, mode));
    BoardSteps(site.cat, states, w, mode, good);
    Transaction.BoardKeepsHost(site.cat, states, w, mode);
    var persist := PersistEvents(Claims(pass, drivers));
    var r2 := RunAll(r1.w, persist);
    PersistKinds(Claims(pass, drivers));
    KeepsDrivers(r1.w, persist);
    QuietSteps(r1.w, persist, good);
    StepsChain(w, r1.w, r2.w, good);
    var r3 := RunAll(r2.w, BindScript(pass, drivers));
    BindStage(r2.w, pass, drivers, good);
    StepsChain(w, r2.w, r3.w, good);
    var r4 := RunAll(r3.w, ReleaseScript(r3.w.drivers, states, pass));
    ReleaseStage(r3.w, w, states, pass, good);
    StepsChain(w, r3.w, r4.w, good);
    var check := CheckScript(site.cat, mode, pass, drivers);
    CheckEvents(site.cat, mode, pass, drivers);
    QuietSteps(r4.w, check, good);
    StepsChain(w, r4.w, RunAll(r4.w, check).w, good);
  }

  // ---------------------------------------------------------------- what the idle check covers

  lemma {:induction false} WritableExact(bound: map<Address, string>, states: seq<DeviceState>, pass: seq<DeviceState>,
                                         drivers: map<Address, VfioDriver>, mode: Mode, unreadable: set<Address>)
    ensures forall t :: t in Writable(bound, states, pass, drivers, mode, unreadable)
                        <==> t in states && IsWritable(bound, t, pass, drivers, mode, unreadable)
  {
    hide IsWritable;
    if states != [] {
      WritableExact(bound, states[..|states| - 1], pass, drivers, mode, unreadable);
      assert states == states[..|states| - 1] + [states[|states| - 1]];
    }
  }

  /** The run looked at the device for holders and found none. */
  ghost predicate FoundIdle(site: Site, procs: seq<ProcEntry>, w: World, mode: Mode, a: Address) {
    exists t | t in Checked(site, w, mode) :: t.address == a && !Held(site, procs, t)
  }

  /** A switch that stays on the host, that no vfio driver holds, and whose PPCIE knob is
      not at the target: `writable` passes it over, and the mode change does not. */
  ghost predicate UncheckedSwitch(site: Site, mode: Mode, w: World, a: Address) {
    exists s | s in Scope(site) ::
      && s.address == a && s.IsSwitch() && mode != Ppcie
      && !IsVfio(w.Driver(a)) && !InMode(See(Switch, w.Stored(a)), mode)
  }

  /** A device that is disturbed was found idle, or is such a switch. */
  ghost predicate Excused(site: Site, procs: seq<ProcEntry>, w: World, mode: Mode, s: Step) {
    s.acted && s.e.Disturbs() ==>
      || FoundIdle(site, procs, w, mode, s.e.a)
      || (UncheckedSwitch(site, mode, w, s.e.a) && (s.e.Set? || s.e.Reset?))
  }

  /** Which devices a run checks. */
  lemma CheckedExact(site: Site, w: World, mode: Mode, s: DeviceState)
    requires Sound(site) && s in Scope(site)
    ensures (exists t | t in Checked(site, w, mode) :: t.address == s.address) <==>
      if s in Pass(site, mode) then
        || w.Driver(s.address) != Some(Target(site, s).driver)
        || s.address in Prepared(site, w, mode).unreadable
        || (Opens(site.cat, s).Some? && !InMode(See(Opens(site.cat, s).value, w.Stored(s.address)), mode))
      else IsVfio(w.Driver(s.address))
  {
    var p, pass := Prepared(site, w, mode), Pass(site, mode);
    hide Prepared, Pass, Scope, Target, IsVfio, Opens, WritesFor, InMode, See;
    PreparedKeeps(site, w, mode);
    PreparedStates(site, w, mode);
    KeptIsPass(site, mode);
    DriversAt(site, pass);
    WritableExact(p.w.drivers, p.states, pass, DriversOf(site, pass), mode, p.unreadable);
    var i :| 0 <= i < |Scope(site)| && Scope(site)[i] == s;
    var t := p.states[i];
    assert t in p.states && ProbedFrom(site, w, mode, s, t);
    forall u | u in p.states && u.address == s.address ensures u == t {
      SameAddress(p.states, u, t);
    }
    CheckedByProbe(site, w, mode, s, t);
  }

  lemma CheckedByProbe(site: Site, w: World, mode: Mode, s: DeviceState, t: DeviceState)
    requires ProbedFrom(site, w, mode, s, t)
    ensures s.address in Prepared(site, w, mode).unreadable || WritesFor(t.seen, mode) != [] <==>
      || s.address in Prepared(site, w, mode).unreadable
      || (Opens(site.cat, s).Some? && !InMode(See(Opens(site.cat, s).value, w.Stored(s.address)), mode))
  {
    hide Prepared, Opens;
    if Opens(site.cat, s).Some? {
      NothingToWriteIffInMode(Opens(site.cat, s).value, w.Stored(s.address), mode);
    }
  }

  /** A knob write or reset goes to a participant that does not report the mode. */
  lemma BoardDisturbs(cat: Catalog, states: seq<DeviceState>, w: World, mode: Mode, e: Event)
    requires e in Nvidia.Board(cat, states, w, mode) && (e.Set? || e.Reset?)
    ensures exists s | s in states ::
      s.address == e.a && Opens(cat, s).Some? && !InMode(See(Opens(cat, s).value, w.Stored(e.a)), mode)
  {
    var devices := Nvidia.Participants(cat, states);
    var pending := Nvidia.PendingOf(w, devices, mode);
    hide Opens, InMode, See, WritesFor;
    Transaction.PartsAre(w, devices, mode);
    Transaction.WriteEventsAre(pending);
    Transaction.PendingExact(w, devices, mode);
    Transaction.ParticipantsExact(cat, states);
    var p :| p in pending && p.a == e.a;
    var d :| d in devices && p == Nvidia.Pending(d.a, d.kind, Nvidia.Plan(w, d, mode));
    NothingToWriteIffInMode(d.kind, w.Stored(d.a), mode);
  }

  lemma ModingExcused(site: Site, procs: seq<ProcEntry>, w: World, mode: Mode, e: Event, acted: bool)
    requires Sound(site) && AllIdle(site, procs, Checked(site, w, mode))
    requires var p := Prepared(site, w, mode); e in Nvidia.Board(site.cat, p.states, p.w, mode)
    requires e.Set? || e.Reset?
    ensures Excused(site, procs, w, mode, Step(e, acted))
  {
    var p := Prepared(site, w, mode);
    hide Nvidia.Board, Prepared, Opens, InMode, See, IsVfio, Checked, Held;
    BoardDisturbs(site.cat, p.states, p.w, mode, e);
    PreparedKeeps(site, w, mode);
    PreparedStates(site, w, mode);
    var t :| t in p.states && t.address == e.a && Opens(site.cat, t).Some?
             && !InMode(See(Opens(site.cat, t).value, w.Stored(e.a)), mode);
    var i :| 0 <= i < |p.states| && p.states[i] == t;
    var s := Scope(site)[i];
    assert s in Scope(site) && ProbedFrom(site, w, mode, s, t);
    SameOpens(site.cat, s, t);
    CheckedExact(site, w, mode, s);
    PassExact(Scope(site), mode);
    SwitchOpens(site.cat, s);
  }

  lemma SameOpens(cat: Catalog, s: DeviceState, t: DeviceState)
    requires t == s.(seen := t.seen)
    ensures Opens(cat, s) == Opens(cat, t)
  {
  }

  lemma SwitchOpens(cat: Catalog, s: DeviceState)
    ensures s.IsSwitch() ==> Opens(cat, s) == Some(Switch)
  {
  }

  lemma BindExcused(site: Site, procs: seq<ProcEntry>, w: World, mode: Mode, s: DeviceState, driver: string,
                    acted: bool)
    requires Sound(site) && AllIdle(site, procs, Checked(site, w, mode)) && s in Pass(site, mode)
    requires acted ==> w.Driver(s.address) == None
    ensures Excused(site, procs, w, mode, Step(Bind(s.address, driver), acted))
  {
    hide Checked, Held, IsVfio, Target, Prepared;
    PassExact(Scope(site), mode);
    CheckedExact(site, w, mode, s);
  }

  lemma UnbindExcused(site: Site, procs: seq<ProcEntry>, w: World, mode: Mode, t: DeviceState, acted: bool)
    requires Sound(site) && AllIdle(site, procs, Checked(site, w, mode)) && t in Prepared(site, w, mode).states
    requires !Kept(Pass(site, mode), t.address) && IsVfio(w.Driver(t.address))
    ensures Excused(site, procs, w, mode, Step(Unbind(t.address), acted))
  {
    hide Checked, Held, IsVfio, Target, Prepared, Scope, Pass;
    PreparedStates(site, w, mode);
    var i :| 0 <= i < |Prepared(site, w, mode).states| && Prepared(site, w, mode).states[i] == t;
    var s := Scope(site)[i];
    assert s in Scope(site) && ProbedFrom(site, w, mode, s, t);
    KeptIsPass(site, mode);
    CheckedExact(site, w, mode, s);
  }

  /** "Busy devices block only runs that would change them" and, the other way, every run:
      wherever it stops, each device it has written, reset, newly bound or released was
      first looked at and found without holders, or is a switch the check passes over. */
  lemma IdleCoverage(site: Site, procs: seq<ProcEntry>, w: World, mode: Mode)
    requires Sound(site)
    ensures NewSteps(w, Run(site, procs, w, mode).w, s => Excused(site, procs, w, mode, s))
  {
    var good: Step -> bool := s => Excused(site, procs, w, mode, s);
    var r := Run(site, procs, w, mode);
    hide Run;
    assert forall s: Step | Undisturbing(s) :: good(s);
    if r.stage in {Refusing, Resolving, Idling} {
      RefusedWhole(site, procs, w, mode);
    } else {
      RunShape(site, procs, w, mode);
      ChangeExcused(site, procs, w, mode);
    }
  }

  lemma ChangeExcused(site: Site, procs: seq<ProcEntry>, w: World, mode: Mode)
    requires Sound(site) && AllIdle(site, procs, Checked(site, w, mode))
    ensures Covers(DriversOf(site, Pass(site, mode)), Pass(site, mode))
    ensures var p := Prepared(site, w, mode);
            var r := Change(site, p.w, p.states, mode, Pass(site, mode), DriversOf(site, Pass(site, mode))).w;
            NewSteps(w, r, s => Excused(site, procs, w, mode, s))
  {
    var good: Step -> bool := s => Excused(site, procs, w, mode, s);
    assert forall s: Step | Undisturbing(s) :: good(s);
    DriversCover(site, Pass(site, mode));
    hide Change, Prepared, Checked, Excused, RunAll, Nvidia.Board, IsVfio, Pass, Kept, AllIdle;
    var p, pass, drivers := Prepared(site, w, mode), Pass(site, mode), DriversOf(site, Pass(site, mode));
    PreparedKeeps(site, w, mode);
    assert NewSteps(w, p.w, good);
    KeptIsPass(site, mode);
    forall e, acted | e in Nvidia.Board(site.cat, p.states, p.w, mode) && (e.Set? || e.Reset?)
      ensures good(Step(e, acted))
    {
      ModingExcused(site, procs, w, mode, e, acted);
    }
    forall s, acted | s in pass && (acted ==> p.w.Driver(s.address) == None)
      ensures good(Step(Bind(s.address, drivers[s.address].driver), acted))
    {
      BindExcused(site, procs, w, mode, s, drivers[s.address].driver, acted);
    }
    forall t, acted | t in p.states && !Kept(pass, t.address) && IsVfio(p.w.Driver(t.address))
      ensures good(Step(Unbind(t.address), acted))
    {
      UnbindExcused(site, procs, w, mode, t, acted);
    }
    ChangeSteps(site, p.w, p.states, mode, pass, drivers, good);
    StepsChain(w, p.w, Change(site, p.w, p.states, mode, pass, drivers).w, good);
  }

  /** `s` is a step between two states of a run. */
  ghost predicate Took(w0: World, w1: World, s: Step) {
    exists i | |w0.trace| <= i < |w1.trace| :: w1.trace[i] == s
  }

  /** In a run that held, every event but a binding took effect. */
  lemma {:induction false} OkActs(w: World, es: seq<Event>, e: Event)
    requires RunAll(w, es).ok && e in es && !e.Bind?
    ensures Took(w, RunAll(w, es).w, Step(e, true))
  {
    var init, last := es[..|es| - 1], es[|es| - 1];
    RunTrace(w, init);
    var r := RunAll(w, init);
    assert es == init + [last];
    var after := RunAll(w, es).w.trace;
    assert after == r.w.trace + [Step(last, Acts(r.w, last))];
    if e == last {
      assert after[|r.w.trace|] == Step(e, true);
    } else {
      OkActs(w, init, e);
      var i :| |w.trace| <= i < |r.w.trace| && r.w.trace[i] == Step(e, true);
      assert after[i] == Step(e, true);
    }
  }

  lemma ChangeExtends(site: Site, w: World, states: seq<DeviceState>, mode: Mode,
                      pass: seq<DeviceState>, drivers: map<Address, VfioDriver>)
    requires Covers(drivers, pass)
    ensures RunAll(w, Nvidia.Board(site.cat, states, w, mode)).w.trace
            <= Change(site, w, states, mode, pass, drivers).w.trace
  {
    hide RunAll, PersistEvents, Claims, BindScript, ReleaseScript, CheckScript, Nvidia.Board;
    var w1 := RunAll(w, Nvidia.Board(site.cat, states, w, mode)).w;
    var persist := PersistEvents(Claims(pass, drivers));
    var w2 := RunAll(w1, persist).w;
    var w3 := RunAll(w2, BindScript(pass, drivers)).w;
    var w4 := RunAll(w3, ReleaseScript(w3.drivers, states, pass)).w;
    Extends(w1, persist);
    Extends(w2, BindScript(pass, drivers));
    Extends(w3, ReleaseScript(w3.drivers, states, pass));
    Extends(w4, CheckScript(site.cat, mode, pass, drivers));
  }

  lemma Extends(w: World, es: seq<Event>)
    ensures w.trace <= RunAll(w, es).w.trace
  {
    RunTrace(w, es);
  }

  /** A switch the check passes over is reset all the same. */
  lemma UncheckedIsReset(site: Site, procs: seq<ProcEntry>, w: World, mode: Mode, a: Address)
    requires Sound(site) && UncheckedSwitch(site, mode, w, a)
    requires Run(site, procs, w, mode).stage in {Persisting, Binding, Releasing, Checking, Done}
    ensures Took(w, Run(site, procs, w, mode).w, Step(Reset(a), true))
    ensures !exists t | t in Checked(site, w, mode) :: t.address == a
  {
    var p, pass, drivers := Prepared(site, w, mode), Pass(site, mode), DriversOf(site, Pass(site, mode));
    UncheckedIsOpened(site, w, mode, a);
    hide Run, Change, RunAll, Nvidia.Board, Prepared, Pass, Scope, InMode, See, Checked, HostOk, Capable, AllIdle,
         Resolvable, DriversOf, UncheckedSwitch, Took, Nvidia.Participants;
    PastModing(site, procs, w, mode);
    RunShape(site, procs, w, mode);
    PreparedKeeps(site, w, mode);
    PreparedStates(site, w, mode);
    ResetInChange(site, p.w, p.states, mode, pass, drivers, Nvidia.Opened(a, Switch));
    TailOf(w, p.w, Run(site, procs, w, mode).w, Step(Reset(a), true));
  }

  lemma ResetInChange(site: Site, w: World, states: seq<DeviceState>, mode: Mode,
                      pass: seq<DeviceState>, drivers: map<Address, VfioDriver>, d: Nvidia.Opened)
    requires Covers(drivers, pass) && RunAll(w, Nvidia.Board(site.cat, states, w, mode)).ok
    requires d in Nvidia.Participants(site.cat, states) && !InMode(See(d.kind, w.Stored(d.a)), mode)
    ensures Took(w, Change(site, w, states, mode, pass, drivers).w, Step(Reset(d.a), true))
  {
    hide Change, RunAll, Nvidia.Board, Nvidia.Participants, InMode, See;
    ResetInBoard(site.cat, states, w, mode, d);
    OkActs(w, Nvidia.Board(site.cat, states, w, mode), Reset(d.a));
    ChangeExtends(site, w, states, mode, pass, drivers);
  }

  lemma UncheckedIsOpened(site: Site, w: World, mode: Mode, a: Address)
    requires Sound(site) && UncheckedSwitch(site, mode, w, a)
    ensures Nvidia.Opened(a, Switch) in Nvidia.Participants(site.cat, Scope(site))
    ensures !InMode(See(Switch, w.Stored(a)), mode)
    ensures !exists t | t in Checked(site, w, mode) :: t.address == a
  {
    var s :| s in Scope(site) && s.address == a && s.IsSwitch() && mode != Ppcie
             && !IsVfio(w.Driver(a)) && !InMode(See(Switch, w.Stored(a)), mode);
    SwitchOpens(site.cat, s);
    PassExact(Scope(site), mode);
    hide Pass, Scope, IsVfio, InMode, See, Checked, Opens, Target;
    CheckedExact(site, w, mode, s);
    Transaction.ParticipantsExact(site.cat, Scope(site));
  }

  lemma ResetInBoard(cat: Catalog, states: seq<DeviceState>, w: World, mode: Mode, d: Nvidia.Opened)
    requires d in Nvidia.Participants(cat, states) && !InMode(See(d.kind, w.Stored(d.a)), mode)
    ensures Reset(d.a) in Nvidia.Board(cat, states, w, mode)
  {
    var devices := Nvidia.Participants(cat, states);
    var pending := Nvidia.PendingOf(w, devices, mode);
    NothingToWriteIffInMode(d.kind, w.Stored(d.a), mode);
    Transaction.PendingExact(w, devices, mode);
    hide Nvidia.PendingOf, Nvidia.Participants, InMode, See;
    var q := Nvidia.Pending(d.a, d.kind, Nvidia.Plan(w, d, mode));
    assert q in pending;
    var i :| 0 <= i < |pending| && pending[i] == q;
    assert Nvidia.ResetEvents(pending)[i] == Reset(d.a);
  }

  lemma TailOf(w0: World, w1: World, w2: World, s: Step)
    requires w0.trace <= w1.trace && Took(w1, w2, s)
    ensures Took(w0, w2, s)
  {
  }

  /** What the idle check misses, exactly: in a run that gets past the mode change, a
      device is disturbed without having been found idle if and only if it is a switch
      that stays on the host, off vfio, with its PPCIE knob away from the target. */
  lemma UncheckedExactly(site: Site, procs: seq<ProcEntry>, w: World, mode: Mode, a: Address)
    requires Sound(site)
    requires Run(site, procs, w, mode).stage in {Persisting, Binding, Releasing, Checking, Done}
    ensures (exists s :: Took(w, Run(site, procs, w, mode).w, s) && s.acted && s.e.Disturbs() && s.e.a == a
                         && !FoundIdle(site, procs, w, mode, a))
            <==> UncheckedSwitch(site, mode, w, a)
  {
    hide Run, FoundIdle, UncheckedSwitch, Checked;
    var r := Run(site, procs, w, mode).w;
    IdleCoverage(site, procs, w, mode);
    assert forall s | Took(w, r, s) :: Excused(site, procs, w, mode, s);
    if UncheckedSwitch(site, mode, w, a) {
      UncheckedIsReset(site, procs, w, mode, a);
      NotFoundIdle(site, procs, w, mode, a);
      assert Step(Reset(a), true).e.Disturbs();
    }
  }

  lemma NotFoundIdle(site: Site, procs: seq<ProcEntry>, w: World, mode: Mode, a: Address)
    requires !exists t | t in Checked(site, w, mode) :: t.address == a
    ensures !FoundIdle(site, procs, w, mode, a)
  {
    hide Checked;
  }

  /** The node as a run has it when it starts to release devices. */
  ghost function BeforeRelease(site: Site, w: World, mode: Mode): World {
    DriversCover(site, Pass(site, mode));
    var persisted := RunAll(Moded(site, w, mode).w, PersistEvents(ClaimsOf(site, mode))).w;
    RunAll(persisted, BindScript(Pass(site, mode), DriversOf(site, Pass(site, mode)))).w
  }

  /** Changing modes, persisting and binding leave alone who holds the other devices. */
  lemma BeforeReleaseKeeps(site: Site, w: World, mode: Mode)
    requires Sound(site)
    ensures forall a | !Kept(Pass(site, mode), a) :: BeforeRelease(site, w, mode).Driver(a) == w.Driver(a)
  {
    var pass, drivers, p := Pass(site, mode), DriversOf(site, Pass(site, mode)), Prepared(site, w, mode);
    hide RunAll, PersistEvents, BindScript, Nvidia.Board, Prepared, ClaimsOf, Pass, Kept;
    KeptIsPass(site, mode);
    DriversCover(site, pass);
    PreparedKeeps(site, w, mode);
    Transaction.BoardKeepsHost(site.cat, p.states, p.w, mode);
    var m, persist := Moded(site, w, mode).w, PersistEvents(ClaimsOf(site, mode));
    PersistKinds(ClaimsOf(site, mode));
    KeepsDrivers(m, persist);
    BindStage(RunAll(m, persist).w, pass, drivers, s => true);
  }

  /** What `release` unbinds is exactly what the idle check looked at outside the
      passthrough set. */
  lemma ReleaseIsChecked(site: Site, w: World, mode: Mode, s: DeviceState)
    requires Sound(site) && s in Scope(site) && s !in Pass(site, mode)
    ensures var bound, states := BeforeRelease(site, w, mode).drivers, Prepared(site, w, mode).states;
            Unbind(s.address) in ReleaseScript(bound, states, Pass(site, mode))
            <==> exists t | t in Checked(site, w, mode) :: t.address == s.address
  {
    var w1, p := BeforeRelease(site, w, mode), Prepared(site, w, mode);
    hide BeforeRelease, Prepared, Checked, ReleaseScript, Pass, Scope, IsVfio, Kept, Target;
    KeptIsPass(site, mode);
    BeforeReleaseKeeps(site, w, mode);
    CheckedExact(site, w, mode, s);
    PreparedStates(site, w, mode);
    ReleaseEvents(w1.drivers, p.states, Pass(site, mode));
    ReleasedIsNotVfio(w1, s.address);
    var i :| 0 <= i < |Scope(site)| && Scope(site)[i] == s;
    assert ProbedFrom(site, w, mode, s, p.states[i]) && p.states[i] in p.states;
  }

  lemma ContainsIff(s: string, part: string)
    ensures Contains(s, part) <==> exists before, after :: s == before + part + after
  {
    if i: nat :| i <= |s| && At(s, part, i) {
      assert s == s[..i] + part + s[i + |part|..];
    }
    if before, after :| s == before + part + after {
      assert s[|before|..|before| + |part|] == part;
      assert At(s, part, |before|);
    }
  }

  lemma AtVfio(s: string, i: nat)
    requires i + 4 <= |s|
    ensures At(s, "vfio", i) <==> s[i] == 'v' && s[i + 1] == 'f' && s[i + 2] == 'i' && s[i + 3] == 'o'
  {
    var t := s[i..i + 4];
    assert t[0] == s[i] && t[1] == s[i + 1] && t[2] == s[i + 2] && t[3] == s[i + 3];
    assert t == [t[0], t[1], t[2], t[3]];
  }

  /** Whether a driver is a vfio driver does not depend on how it spells its dashes. */
  lemma VfioUnderEitherSpelling(driver: string)
    ensures IsVfio(Some(driver)) <==> Contains(driver, "vfio")
    ensures IsVfio(Some(driver)) <==> exists before, after :: driver == before + "vfio" + after
  {
    ContainsIff(driver, "vfio");
    var n := Normalize(driver);
    forall i: nat | i <= |driver| ensures At(n, "vfio", i) <==> At(driver, "vfio", i) {
      if i + 4 <= |driver| {
        AtVfio(n, i);
        AtVfio(driver, i);
      }
    }
  }
}
