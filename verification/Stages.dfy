/** What each stage of a run does and leaves alone. */
module Stages {
  import opened Text
  import opened Modes
  import opened Knobs
  import opened Machine
  import opened Devices
  import opened Idle
  import opened BootConfig
  import opened Provision
  import opened Resolution
  import Nvidia
  import Transaction

  // ---------------------------------------------------------------- the steps of a run

  /** Every step between two states of a run passes `good`. */
  ghost predicate NewSteps(w0: World, w1: World, good: Step -> bool) {
    w0.trace <= w1.trace && forall i | |w0.trace| <= i < |w1.trace| :: good(w1.trace[i])
  }

  lemma StepsChain(w0: World, w1: World, w2: World, good: Step -> bool)
    requires NewSteps(w0, w1, good) && NewSteps(w1, w2, good)
    ensures NewSteps(w0, w2, good)
  {
    assert forall i | 0 <= i < |w1.trace| :: w2.trace[i] == w1.trace[i];
  }

  lemma StepsOf(w: World, es: seq<Event>, good: Step -> bool)
    requires forall e, acted | e in es :: good(Step(e, acted))
    ensures NewSteps(w, RunAll(w, es).w, good)
  {
    RunTrace(w, es);
    var r := RunAll(w, es);
    forall i | |w.trace| <= i < |r.w.trace| ensures good(r.w.trace[i]) {
      var s := r.w.trace[i];
      assert s.e == es[i - |w.trace|] && s.e in es;
      assert good(Step(s.e, s.acted));
    }
  }

  lemma OneStep(w: World, e: Event, good: Step -> bool)
    requires good(Step(e, Acts(w, e)))
    ensures NewSteps(w, Do(w, e).w, good)
  {
  }

  /** Binding takes only devices that nothing holds. */
  lemma {:induction false} BindSteps(w: World, es: seq<Event>, good: Step -> bool)
    requires forall e | e in es :: e.Bind?
    requires forall i, j | 0 <= i < j < |es| :: es[i].a != es[j].a
    requires forall e, acted | e in es && (acted ==> w.Driver(e.a) == None) :: good(Step(e, acted))
    ensures NewSteps(w, RunAll(w, es).w, good)
  {
    if es == [] {
    } else {
      var init, e := es[..|es| - 1], es[|es| - 1];
      assert es == init + [e];
      hide RunAll, Do, Effect;
      RunMore(w, init, e);
      assert forall d | d in init :: d in es && d.a != e.a;
      BindSteps(w, init, good);
      KeepsDriverAt(w, init, e.a);
      var r := RunAll(w, init);
      assert e in es && (Acts(r.w, e) ==> w.Driver(e.a) == None);
      OneStep(r.w, e, good);
      StepsChain(w, r.w, Do(r.w, e).w, good);
    }
  }

  // ---------------------------------------------------------------- the events of a stage

  lemma BindEvents(pass: seq<DeviceState>, drivers: map<Address, VfioDriver>)
    requires Covers(drivers, pass)
    ensures forall e | e in BindScript(pass, drivers) ::
              e.Bind? && exists s | s in pass :: e == Bind(s.address, drivers[s.address].driver)
    ensures forall s | s in pass :: Bind(s.address, drivers[s.address].driver) in BindScript(pass, drivers)
  {
    var es := BindScript(pass, drivers);
    forall e | e in es ensures e.Bind? && exists s | s in pass :: e == Bind(s.address, drivers[s.address].driver) {
      var i :| 0 <= i < |es| && es[i] == e;
      assert pass[i] in pass;
    }
    forall s | s in pass ensures Bind(s.address, drivers[s.address].driver) in es {
      var i :| 0 <= i < |pass| && pass[i] == s;
      assert es[i] in es;
    }
  }

  /** The devices are bound in the order of the set, as far as it goes. */
  lemma BindsInOrder(w: World, pass: seq<DeviceState>, drivers: map<Address, VfioDriver>)
    requires Covers(drivers, pass)
    ensures var trace := RunAll(w, BindScript(pass, drivers)).w.trace;
            && |w.trace| <= |trace| <= |w.trace| + |pass|
            && forall i | 0 <= i < |trace| - |w.trace| ::
                 trace[|w.trace| + i].e == Bind(pass[i].address, drivers[pass[i].address].driver)
  {
    hide RunAll;
    RunTrace(w, BindScript(pass, drivers));
  }

  /** `release` unbinds exactly the devices outside the set that a vfio driver holds. */
  lemma ReleaseEvents(bound: map<Address, string>, states: seq<DeviceState>, pass: seq<DeviceState>)
    ensures forall e :: e in ReleaseScript(bound, states, pass) <==>
              exists s | s in states ::
                e == Unbind(s.address) && !Kept(pass, s.address) && IsVfio(BoundTo(bound, s.address))
  {
    var parts := ReleaseParts(bound, states, pass);
    FlattenElements(parts);
    forall s, e | s in states && e in ReleaseOne(bound, pass, s) ensures e in ReleaseScript(bound, states, pass) {
      var i :| 0 <= i < |states| && states[i] == s;
      assert e in parts[i];
    }
    forall e | e in ReleaseScript(bound, states, pass)
      ensures exists s | s in states ::
                e == Unbind(s.address) && !Kept(pass, s.address) && IsVfio(BoundTo(bound, s.address))
    {
      var i :| 0 <= i < |parts| && e in parts[i];
      assert states[i] in states;
    }
  }

  /** `e` is one of the final checks of `s`. */
  ghost predicate ChecksDevice(cat: Catalog, mode: Mode, drivers: map<Address, VfioDriver>, s: DeviceState, e: Event)
    requires s.address in drivers
  {
    || e == CheckBound(s.address, drivers[s.address].driver)
    || e == Open(s.address)
    || (Opens(cat, s).Some? && e == Verify(s.address, Opens(cat, s).value, mode))
  }

  lemma CheckOneEvents(cat: Catalog, mode: Mode, drivers: map<Address, VfioDriver>, s: DeviceState)
    requires s.address in drivers
    ensures CheckBound(s.address, drivers[s.address].driver) in CheckOne(cat, mode, drivers, s)
    ensures Opens(cat, s).Some? ==> Verify(s.address, Opens(cat, s).value, mode) in CheckOne(cat, mode, drivers, s)
    ensures forall e | e in CheckOne(cat, mode, drivers, s) ::
              (e.CheckBound? || e.Open? || e.Verify?) && ChecksDevice(cat, mode, drivers, s, e)
  {
    hide Opens;
    assert CheckOne(cat, mode, drivers, s)[0] == CheckBound(s.address, drivers[s.address].driver);
    if Opens(cat, s).Some? {
      assert CheckOne(cat, mode, drivers, s)[2] == Verify(s.address, Opens(cat, s).value, mode);
    }
  }

  lemma CheckEvents(cat: Catalog, mode: Mode, pass: seq<DeviceState>, drivers: map<Address, VfioDriver>)
    requires Covers(drivers, pass)
    ensures forall e | e in CheckScript(cat, mode, pass, drivers) ::
              && (e.CheckBound? || e.Open? || e.Verify?)
              && exists s | s in pass :: ChecksDevice(cat, mode, drivers, s, e)
    ensures forall s | s in pass ::
              CheckBound(s.address, drivers[s.address].driver) in CheckScript(cat, mode, pass, drivers)
    ensures forall s | s in pass && Opens(cat, s).Some? ::
              Verify(s.address, Opens(cat, s).value, mode) in CheckScript(cat, mode, pass, drivers)
  {
    hide CheckOne, ChecksDevice;
    var parts, script := CheckParts(cat, mode, pass, drivers), CheckScript(cat, mode, pass, drivers);
    FlattenElements(parts);
    hide Opens;
    forall s | s in pass
      ensures CheckBound(s.address, drivers[s.address].driver) in script
      ensures Opens(cat, s).Some? ==> Verify(s.address, Opens(cat, s).value, mode) in script
    {
      var i :| 0 <= i < |pass| && pass[i] == s;
      CheckOneEvents(cat, mode, drivers, s);
      assert CheckBound(s.address, drivers[s.address].driver) in parts[i];
      assert Opens(cat, s).Some? ==> Verify(s.address, Opens(cat, s).value, mode) in parts[i];
    }
    forall e | e in script
      ensures (e.CheckBound? || e.Open? || e.Verify?) && exists s | s in pass :: ChecksDevice(cat, mode, drivers, s, e)
    {
      var i :| 0 <= i < |parts| && e in parts[i];
      assert pass[i] in pass;
      CheckOneEvents(cat, mode, drivers, pass[i]);
    }
  }

  lemma PersistKinds(claims: seq<Claim>)
    ensures forall e | e in PersistEvents(claims) :: e.Put? || e.Drop?
  {
  }

  // ---------------------------------------------------------------- before the first change

  /** A run's state after resolving and probing. */
  ghost function Prepared(site: Site, w: World, mode: Mode): Nvidia.Probed {
    Nvidia.ProbeAll(site.cat, RunAll(w, ResolveScript(site, Pass(site, mode))).w, Scope(site))
  }

  /** The devices a run checks for holders before it changes any. */
  ghost function Checked(site: Site, w: World, mode: Mode): seq<DeviceState> {
    var p := Prepared(site, w, mode);
    Writable(p.w.drivers, p.states, Pass(site, mode), DriversOf(site, Pass(site, mode)), mode, p.unreadable)
  }

  /** Two states alike in everything a reboot or another run could tell, modules aside. */
  ghost predicate SameNode(w0: World, w1: World) {
    w0.stored == w1.stored && w0.latched == w1.latched && w0.drivers == w1.drivers && w0.files == w1.files
  }

  ghost predicate Undisturbing(s: Step) { s.acted ==> !s.e.Disturbs() }

  lemma ResolveKeeps(site: Site, w: World, mode: Mode)
    ensures var r := RunAll(w, ResolveScript(site, Pass(site, mode)));
            SameNode(w, r.w) && r.w.env == w.env && NewSteps(w, r.w, s => Undisturbing(s)) && w.loaded <= r.w.loaded
  {
    var es := ResolveScript(site, Pass(site, mode));
    ResolveEvents(site, Pass(site, mode));
    KeepsStored(w, es);
    KeepsLatched(w, es);
    KeepsDrivers(w, es);
    KeepsFiles(w, es);
    RunTrace(w, es);
    LoadedGrows(w, es);
    StepsOf(w, es, s => Undisturbing(s));
  }

  /** Where resolving succeeds it has loaded the module of every device, and nothing else. */
  lemma ResolveLoads(site: Site, w: World, states: seq<DeviceState>)
    requires RunAll(w, ResolveScript(site, states)).ok
    ensures forall m :: m in RunAll(w, ResolveScript(site, states)).w.loaded
                        <==> m in w.loaded || exists s | s in states :: ResolveModule(site, s) == Some(m)
  {
    var parts, es := ResolveParts(site, states), ResolveScript(site, states);
    ResolveOkIff(site, w, states);
    FlattenElements(parts);
    hide RunAll, ResolveModule;
    forall m ensures Load(m) in es <==> exists s | s in states :: ResolveModule(site, s) == Some(m) {
      if Load(m) in es {
        var i :| 0 <= i < |parts| && Load(m) in parts[i];
        assert states[i] in states;
      }
      if s :| s in states && ResolveModule(site, s) == Some(m) {
        var i :| 0 <= i < |states| && states[i] == s;
        assert parts[i][0] == Load(m);
      }
    }
    LoadsEach(w, es);
  }

  /** Where resolving stops at a device that no module serves, with nothing failing, it has
      loaded the modules of the devices before it, and its own if it has one that registers
      no driver. */
  lemma ResolveStops(site: Site, w: World, states: seq<DeviceState>, k: nat)
    requires Calm(w.env) && k < |states| && !Resolvable(site, states[k])
    requires forall i | 0 <= i < k :: Resolvable(site, states[i])
    ensures var r := RunAll(w, ResolveScript(site, states));
            && !r.ok
            && forall m :: m in r.w.loaded
                 <==> m in w.loaded || exists i | 0 <= i <= k :: ResolveModule(site, states[i]) == Some(m)
  {
    hide ResolveScript, Resolvable, ResolveOne, RunAll, ResolveModule, Calm;
    var before := states[..k];
    ResolveReaches(site, w, states, k);
    ResolveLoads(site, w, before);
    UnservedStops(site, RunAll(w, ResolveScript(site, before)).w, states[k]);
    forall m
      ensures (exists s | s in before :: ResolveModule(site, s) == Some(m))
              <==> exists i | 0 <= i < k :: ResolveModule(site, states[i]) == Some(m)
    {
      ModulesOfFirst(site, states, k, m);
    }
  }

  lemma ResolveReaches(site: Site, w: World, states: seq<DeviceState>, k: nat)
    requires Calm(w.env) && k < |states| && !Resolvable(site, states[k])
    requires forall i | 0 <= i < k :: Resolvable(site, states[i])
    ensures var mid := RunAll(w, ResolveScript(site, states[..k]));
            && mid.ok && Calm(mid.w.env)
            && RunAll(w, ResolveScript(site, states)) == RunAll(mid.w, ResolveOne(site, states[k]))
  {
    var before, one := states[..k], ResolveOne(site, states[k]);
    var script, front := ResolveScript(site, states), ResolveScript(site, before) + one;
    hide ResolveScript, Resolvable, ResolveOne, RunAll, Calm;
    ResolveSplit(site, states, k);
    assert script == front + script[|front|..];
    ResolveOkIff(site, w, before);
    RunSplit(w, ResolveScript(site, before), one);
    RunSplit(w, front, script[|front|..]);
    RunTrace(w, ResolveScript(site, before));
    UnservedStops(site, RunAll(w, ResolveScript(site, before)).w, states[k]);
  }

  lemma ModulesOfFirst(site: Site, states: seq<DeviceState>, k: nat, m: string)
    requires k <= |states|
    ensures (exists s | s in states[..k] :: ResolveModule(site, s) == Some(m))
            <==> exists i | 0 <= i < k :: ResolveModule(site, states[i]) == Some(m)
  {
    hide ResolveModule;
    assert forall i | 0 <= i < k :: states[..k][i] == states[i];
  }

  lemma ResolveSplit(site: Site, states: seq<DeviceState>, k: nat)
    requires k < |states|
    ensures ResolveScript(site, states[..k]) + ResolveOne(site, states[k]) <= ResolveScript(site, states)
  {
    var parts := ResolveParts(site, states);
    FlattenPrefix(parts, k + 1);
    assert parts[..k + 1][..k] == parts[..k] == ResolveParts(site, states[..k]);
    assert parts[..k + 1][k] == ResolveOne(site, states[k]);
  }

  lemma UnservedStops(site: Site, w: World, s: DeviceState)
    requires Calm(w.env) && !Resolvable(site, s)
    ensures var r := RunAll(w, ResolveOne(site, s)); var modl := ResolveModule(site, s);
            !r.ok && r.w.loaded == if modl.Some? then w.loaded + {modl.value} else w.loaded
  {
    var modl := ResolveModule(site, s);
    hide ResolveModule;
    if modl.None? {
      RunMore(w, [], Bail);
      assert [] + [Bail] == [Bail];
    } else {
      RunMore(w, [], Load(modl.value));
      RunMore(w, [Load(modl.value)], Bail);
      assert [] + [Load(modl.value)] == [Load(modl.value)];
      assert [Load(modl.value)] + [Bail] == [Load(modl.value), Bail];
    }
  }

  lemma {:induction false} LoadsEach(w: World, es: seq<Event>)
    requires RunAll(w, es).ok
    ensures forall m :: m in RunAll(w, es).w.loaded <==> m in w.loaded || Load(m) in es
  {
    if es != [] {
      var init, e := es[..|es| - 1], es[|es| - 1];
      assert es == init + [e];
      RunMore(w, init, e);
      hide RunAll, Do;
      LoadsEach(w, init);
      LoadedBy(RunAll(w, init).w, e);
    }
  }

  lemma LoadedBy(w: World, e: Event)
    ensures Do(w, e).ok ==> Do(w, e).w.loaded == if e.Load? then w.loaded + {e.modl} else w.loaded
  {
  }

  lemma {:induction false} LoadedGrows(w: World, es: seq<Event>)
    ensures w.loaded <= RunAll(w, es).w.loaded
  {
    if es != [] {
      LoadedGrows(w, es[..|es| - 1]);
    }
  }

  lemma PreparedKeeps(site: Site, w: World, mode: Mode)
    ensures var p := Prepared(site, w, mode);
            SameNode(w, p.w) && p.w.env == w.env && NewSteps(w, p.w, s => Undisturbing(s)) && w.loaded <= p.w.loaded
  {
    ResolveKeeps(site, w, mode);
    var r := RunAll(w, ResolveScript(site, Pass(site, mode))).w;
    Nvidia.ProbeReads(site.cat, r, Scope(site));
    StepsChain(w, r, Prepared(site, w, mode).w, s => Undisturbing(s));
  }

  /** The states a run works on are the discovered devices, each with its modes as probed:
      what the hardware reports, or nothing if the device is recorded unreadable. */
  ghost predicate ProbedFrom(site: Site, w: World, mode: Mode, s: DeviceState, t: DeviceState) {
    && t == s.(seen := t.seen)
    && match Opens(site.cat, s) {
         case None => t.seen == Seen(None, None)
         case Some(kind) =>
           t.seen == See(kind, w.Stored(s.address)) || (t == s && s.address in Prepared(site, w, mode).unreadable)
       }
  }

  lemma PreparedStates(site: Site, w: World, mode: Mode)
    requires UniquePci(site.inventory)
    ensures var states, scope := Prepared(site, w, mode).states, Scope(site);
            && |states| == |scope|
            && (forall i | 0 <= i < |scope| :: ProbedFrom(site, w, mode, scope[i], states[i]))
            && UniqueAddresses(states)
            && Nvidia.Participants(site.cat, states) == Nvidia.Participants(site.cat, scope)
  {
    ResolveKeeps(site, w, mode);
    var r := RunAll(w, ResolveScript(site, Pass(site, mode))).w;
    Nvidia.ProbeReads(site.cat, r, Scope(site));
    InScopeUnique(site.cat, site.inventory);
    SameParticipants(site.cat, Scope(site), Prepared(site, w, mode).states);
  }

  lemma {:induction false} SameParticipants(cat: Catalog, ss: seq<DeviceState>, ts: seq<DeviceState>)
    requires |ss| == |ts| && forall i | 0 <= i < |ss| :: ts[i] == ss[i].(seen := ts[i].seen)
    ensures Nvidia.Participants(cat, ts) == Nvidia.Participants(cat, ss)
  {
    if ss != [] {
      SameParticipants(cat, ss[..|ss| - 1], ts[..|ts| - 1]);
    }
  }

  /** A run either stops before it changed anything, or goes through all of the change. */
  lemma RunShape(site: Site, procs: seq<ProcEntry>, w: World, mode: Mode)
    ensures var r, p := Run(site, procs, w, mode), Prepared(site, w, mode);
            var pass, drivers := Pass(site, mode), DriversOf(site, Pass(site, mode));
            && Covers(drivers, pass)
            && (r.stage == Refusing ==> r.w == w)
            && (r.stage == Resolving ==> r.w == RunAll(w, ResolveScript(site, pass)).w)
            && (r.stage == Idling ==> r.w == p.w)
            && (r.stage !in {Refusing, Resolving, Idling} ==>
                  && r == Change(site, p.w, p.states, mode, pass, drivers)
                  && HostOk(site, w.drivers) && Scope(site) != [] && Capable(site.cat, Scope(site), mode)
                  && (forall s | s in pass :: Resolvable(site, s))
                  && AllIdle(site, procs, Checked(site, w, mode)))
  {
    hide RunAll, Change, Capable, HostOk, AllIdle, Passthrough, InScope, DriversOf, Resolvable, Nvidia.ProbeAll,
         ResolveScript, Writable;
    var p, pass := Prepared(site, w, mode), Pass(site, mode);
    DriversCover(site, pass);
    ResolveOkIff(site, w, pass);
    ChangeKeeps(site, p.w, p.states, mode, pass, DriversOf(site, pass));
  }

  // ---------------------------------------------------------------- the change

  /** The mode change as a run makes it. */
  ghost function Moded(site: Site, w: World, mode: Mode): Ran {
    var p := Prepared(site, w, mode);
    RunAll(p.w, Nvidia.Board(site.cat, p.states, p.w, mode))
  }

  lemma AfterModing(w: World, es: seq<Event>)
    requires forall e | e in es :: !e.Set? && !e.Reset?
    ensures RunAll(w, es).w.stored == w.stored && RunAll(w, es).w.latched == w.latched
  {
    KeepsStored(w, es);
    KeepsLatched(w, es);
  }

  lemma FromPersist(w: World, es: seq<Event>)
    requires forall e | e in es :: !e.Put? && !e.Drop? && !e.Set? && !e.Reset?
    ensures var r := RunAll(w, es).w; r.files == w.files && r.stored == w.stored && r.latched == w.latched
  {
    AfterModing(w, es);
    KeepsFiles(w, es);
  }

  /** Once the mode change is through, no stage touches a knob; once persisted, no stage
      touches the files. */
  lemma ChangeKeeps(site: Site, w: World, states: seq<DeviceState>, mode: Mode,
                    pass: seq<DeviceState>, drivers: map<Address, VfioDriver>)
    requires Covers(drivers, pass)
    ensures var r := Change(site, w, states, mode, pass, drivers);
            var m := RunAll(w, Nvidia.Board(site.cat, states, w, mode));
            && (r.stage == Moding <==> !m.ok)
            && r.stage in {Moding, Persisting, Binding, Releasing, Checking, Done}
            && r.w.stored == m.w.stored && r.w.latched == m.w.latched
            && (r.stage == Moding ==> r.w.files == w.files)
            && (r.stage !in {Moding, Persisting} ==> r.w.files == Compiled(Claims(pass, drivers)))
  {
    hide RunAll, PersistEvents, Compiled, Claims, BindScript, ReleaseScript, CheckScript, Nvidia.Board, Nvidia.ProbeAll,
         ResolveScript, Writable, IsVfio, Do;
    var r1 := RunAll(w, Nvidia.Board(site.cat, states, w, mode));
    Transaction.BoardKeepsHost(site.cat, states, w, mode);
    if r1.ok {
      var claims := Claims(pass, drivers);
      var es := PersistEvents(claims);
      PersistKinds(claims);
      AfterModing(r1.w, es);
      var r2 := RunAll(r1.w, es);
      if r2.ok {
        PersistCompletes(r1.w, claims);
        BindEvents(pass, drivers);
        FromPersist(r2.w, BindScript(pass, drivers));
        var r3 := RunAll(r2.w, BindScript(pass, drivers));
        ReleaseEvents(r3.w.drivers, states, pass);
        FromPersist(r3.w, ReleaseScript(r3.w.drivers, states, pass));
        var r4 := RunAll(r3.w, ReleaseScript(r3.w.drivers, states, pass));
        CheckEvents(site.cat, mode, pass, drivers);
        FromPersist(r4.w, CheckScript(site.cat, mode, pass, drivers));
      }
    }
  }

  lemma {:induction false} Unbinds(w: World, es: seq<Event>, a: Address)
    requires RunAll(w, es).ok && forall e | e in es :: e.Unbind?
    ensures RunAll(w, es).w.Driver(a) == if Unbind(a) in es then None else w.Driver(a)
  {
    if es != [] {
      var init, e := es[..|es| - 1], es[|es| - 1];
      Unbinds(w, init, a);
      assert es == init + [e];
      var r := RunAll(w, init);
      assert r.ok && RunAll(w, es) == Do(r.w, e) && e in es;
      assert Do(r.w, e).w.drivers == r.w.drivers - {e.a};
    }
  }

  lemma ReleasedIsNotVfio(w: World, a: Address)
    ensures !IsVfio(None) && BoundTo(w.drivers, a) == w.Driver(a)
  {
  }

  lemma {:induction false} ChecksPass(w: World, es: seq<Event>)
    requires RunAll(w, es).ok && forall e | e in es :: !e.Bind? && !e.Unbind?
    ensures forall e | e in es && e.CheckBound? :: w.Driver(e.a) == Some(e.driver)
  {
    if es != [] {
      var init := es[..|es| - 1];
      ChecksPass(w, init);
      KeepsDrivers(w, init);
      assert es == init + [es[|es| - 1]];
    }
  }

  /** The final checks pass only if each passthrough device is on its driver and each that
      takes a mode reports it. */
  lemma ChecksPassed(cat: Catalog, w: World, mode: Mode, pass: seq<DeviceState>, drivers: map<Address, VfioDriver>)
    requires Covers(drivers, pass) && RunAll(w, CheckScript(cat, mode, pass, drivers)).ok
    ensures forall s | s in pass ::
              && w.Driver(s.address) == Some(drivers[s.address].driver)
              && (Opens(cat, s).Some? ==> InMode(See(Opens(cat, s).value, w.Stored(s.address)), mode))
  {
    hide RunAll, CheckScript, Opens, InMode, See;
    BoundPassed(cat, w, mode, pass, drivers);
    ModesPassed(cat, w, mode, pass, drivers);
  }

  lemma BoundPassed(cat: Catalog, w: World, mode: Mode, pass: seq<DeviceState>, drivers: map<Address, VfioDriver>)
    requires Covers(drivers, pass) && RunAll(w, CheckScript(cat, mode, pass, drivers)).ok
    ensures forall s | s in pass :: w.Driver(s.address) == Some(drivers[s.address].driver)
  {
    CheckEvents(cat, mode, pass, drivers);
    hide RunAll, CheckScript, Opens;
    ChecksPass(w, CheckScript(cat, mode, pass, drivers));
  }

  lemma ModesPassed(cat: Catalog, w: World, mode: Mode, pass: seq<DeviceState>, drivers: map<Address, VfioDriver>)
    requires Covers(drivers, pass) && RunAll(w, CheckScript(cat, mode, pass, drivers)).ok
    ensures forall s | s in pass && Opens(cat, s).Some? ::
              InMode(See(Opens(cat, s).value, w.Stored(s.address)), mode)
  {
    CheckEvents(cat, mode, pass, drivers);
    hide RunAll, CheckScript, Opens, InMode, See, ChecksDevice;
    VerifiesPass(w, CheckScript(cat, mode, pass, drivers));
  }

  lemma {:induction false} VerifiesPass(w: World, es: seq<Event>)
    requires RunAll(w, es).ok && forall e | e in es :: !e.Set?
    ensures forall e | e in es && e.Verify? :: InMode(See(e.kind, w.Stored(e.a)), e.mode)
  {
    if es != [] {
      var init, e := es[..|es| - 1], es[|es| - 1];
      assert es == init + [e];
      RunMore(w, init, e);
      hide See, InMode, Do, RunAll, Refuses;
      VerifiesPass(w, init);
      KeepsStored(w, init);
      if e.Verify? { Transaction.VerifyPassed(RunAll(w, init).w, e); }
    }
  }

  /** A run that is done has every passthrough device on its driver and no other device of
      the scope on a vfio driver. */
  lemma ChangeBinds(site: Site, w: World, states: seq<DeviceState>, mode: Mode,
                    pass: seq<DeviceState>, drivers: map<Address, VfioDriver>)
    requires Covers(drivers, pass) && Change(site, w, states, mode, pass, drivers).stage == Done
    ensures var r := Change(site, w, states, mode, pass, drivers).w;
            && (forall s | s in pass :: r.Driver(s.address) == Some(drivers[s.address].driver))
            && (forall s | s in states && !Kept(pass, s.address) :: !IsVfio(r.Driver(s.address)))
  {
    hide RunAll, PersistEvents, Compiled, Claims, BindScript, ReleaseScript, CheckScript, Nvidia.Board, Nvidia.ProbeAll,
         ResolveScript, Writable, IsVfio, Do;
    var r1 := RunAll(w, Nvidia.Board(site.cat, states, w, mode));
    var r2 := RunAll(r1.w, PersistEvents(Claims(pass, drivers)));
    var r3 := RunAll(r2.w, BindScript(pass, drivers));
    var release, check := ReleaseScript(r3.w.drivers, states, pass), CheckScript(site.cat, mode, pass, drivers);
    var r4 := RunAll(r3.w, release);
    ReleaseEvents(r3.w.drivers, states, pass);
    CheckEvents(site.cat, mode, pass, drivers);
    ChecksPass(r4.w, check);
    KeepsDrivers(r4.w, check);
    forall s | s in states && !Kept(pass, s.address) ensures !IsVfio(r4.w.Driver(s.address)) {
      Unbinds(r3.w, release, s.address);
      ReleasedIsNotVfio(r3.w, s.address);
      if IsVfio(BoundTo(r3.w.drivers, s.address)) { assert Unbind(s.address) in release; }
    }
  }
}
