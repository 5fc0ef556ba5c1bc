/** When a run succeeds, and why a second one has nothing to do. */
module Convergence {
  import opened Text
  import opened Modes
  import opened Knobs
  import opened Machine
  import opened Devices
  import opened Idle
  import opened BootConfig
  import opened Provision
  import opened Resolution
  import opened Stages
  import opened Guarantees
  import opened Coverage
  import Nvidia
  import Transaction

  // ---------------------------------------------------------------- binding

  /** Nothing else holds any of the devices to bind. */
  ghost predicate Takeable(w: World, es: seq<Event>) {
    forall e | e in es :: e.Bind? && (w.Driver(e.a) == None || w.Driver(e.a) == Some(e.driver))
  }

  ghost predicate DistinctEvents(es: seq<Event>) {
    forall i, j | 0 <= i < j < |es| && es[i].Bind? && es[j].Bind? :: es[i].a != es[j].a
  }

  lemma BindOne(w: World, e: Event)
    requires e.Bind?
    ensures Do(w, e).ok ==> Do(w, e).w.Driver(e.a) == Some(e.driver) && !Refuses(w, e)
    ensures Refuses(w, e) <==> w.Driver(e.a).Some? && w.Driver(e.a) != Some(e.driver)
    ensures forall a | a != e.a :: Do(w, e).w.Driver(a) == w.Driver(a)
  {
  }

  /** Binding succeeds only if nothing else holds the devices, and then holds them. */
  lemma {:induction false} BindsTake(w: World, es: seq<Event>)
    requires RunAll(w, es).ok && DistinctEvents(es) && forall e | e in es :: e.Bind?
    ensures Takeable(w, es)
    ensures forall e | e in es :: RunAll(w, es).w.Driver(e.a) == Some(e.driver)
  {
    if es != [] {
      var init, e := es[..|es| - 1], es[|es| - 1];
      assert es == init + [e];
      RunMore(w, init, e);
      hide RunAll, Do, Refuses;
      assert forall d | d in init :: d in es && d.a != e.a;
      BindsTake(w, init);
      KeepsDriverAt(w, init, e.a);
      BindOne(RunAll(w, init).w, e);
    }
  }

  lemma CalmBinds(w: World, es: seq<Event>)
    requires Calm(w.env) && DistinctEvents(es) && Takeable(w, es)
    ensures RunAll(w, es).ok
  {
    hide RunAll, Refuses;
    forall i | 0 <= i < |es| ensures !Refuses(RunAll(w, es[..i]).w, es[i]) {
      assert es[i] in es;
      assert forall d | d in es[..i] :: d in es && d.a != es[i].a;
      KeepsDriverAt(w, es[..i], es[i].a);
      BindOne(RunAll(w, es[..i]).w, es[i]);
    }
    CalmRun(w, es);
  }

  lemma BindScriptDistinct(pass: seq<DeviceState>, drivers: map<Address, VfioDriver>)
    requires Covers(drivers, pass) && UniqueAddresses(pass)
    ensures DistinctEvents(BindScript(pass, drivers))
  {
  }

  // ---------------------------------------------------------------- a calm change succeeds

  lemma CalmProbes(cat: Catalog, w: World, states: seq<DeviceState>)
    requires Calm(w.env)
    ensures Nvidia.ProbeAll(cat, w, states).unreadable == {} && Nvidia.ProbeAll(cat, w, states).w.env == w.env
  {
    hide Opens, See;
    if states != [] {
      CalmProbes(cat, w, states[..|states| - 1]);
    }
  }

  lemma EnvKept(w: World, es: seq<Event>)
    ensures RunAll(w, es).w.env == w.env
  {
    RunTrace(w, es);
  }

  /** The final checks pass on a board that reports the mode, with its drivers bound. */
  lemma CalmChecks(w: World, es: seq<Event>)
    requires Calm(w.env)
    requires forall e | e in es :: e.Open? || (e.CheckBound? && w.Driver(e.a) == Some(e.driver))
                                   || (e.Verify? && InMode(See(e.kind, w.Stored(e.a)), e.mode))
    ensures RunAll(w, es).ok
  {
    hide RunAll, InMode, See;
    forall i | 0 <= i < |es| ensures !Refuses(RunAll(w, es[..i]).w, es[i]) {
      assert es[i] in es;
      assert forall e | e in es[..i] :: e in es;
      KeepsStored(w, es[..i]);
      KeepsDrivers(w, es[..i]);
    }
    CalmRun(w, es);
  }

  /** With nothing failing and every write taking, the change succeeds unless another
      driver holds a passthrough device. */
  lemma CalmChange(site: Site, w: World, states: seq<DeviceState>, mode: Mode,
                   pass: seq<DeviceState>, drivers: map<Address, VfioDriver>)
    requires Calm(w.env) && UniqueAddresses(states) && UniqueAddresses(pass) && Covers(drivers, pass)
    requires Takeable(w, BindScript(pass, drivers))
    requires forall s | s in pass && Opens(site.cat, s).Some? ::
      Nvidia.Opened(s.address, Opens(site.cat, s).value) in Nvidia.Participants(site.cat, states)
    ensures Change(site, w, states, mode, pass, drivers).stage == Done
  {
    hide RunAll, PersistEvents, Claims, BindScript, ReleaseScript, CheckScript, Nvidia.Board, IsVfio, Kept, InMode, See,
         Opens, Nvidia.Participants;
    var board, bind := Nvidia.Board(site.cat, states, w, mode), BindScript(pass, drivers);
    var persist := PersistEvents(Claims(pass, drivers));
    Transaction.CalmSucceeds(site.cat, states, w, mode);
    Transaction.SuccessIsReported(site.cat, states, w, mode);
    Transaction.BoardKeepsHost(site.cat, states, w, mode);
    var r1 := RunAll(w, board);
    EnvKept(w, board);
    PersistKinds(Claims(pass, drivers));
    Transaction.CalmAccepted(r1.w, persist);
    AfterModing(r1.w, persist);
    KeepsDrivers(r1.w, persist);
    var r2 := RunAll(r1.w, persist);
    EnvKept(r1.w, persist);
    BindScriptDistinct(pass, drivers);
    CalmBinds(r2.w, bind);
    CalmTail(site, r2.w, states, mode, pass, drivers);
  }

  lemma CalmTail(site: Site, w: World, states: seq<DeviceState>, mode: Mode,
                 pass: seq<DeviceState>, drivers: map<Address, VfioDriver>)
    requires Calm(w.env) && UniqueAddresses(pass) && Covers(drivers, pass)
    requires RunAll(w, BindScript(pass, drivers)).ok
    requires forall s | s in pass && Opens(site.cat, s).Some? ::
      InMode(See(Opens(site.cat, s).value, w.Stored(s.address)), mode)
    ensures var r3 := RunAll(w, BindScript(pass, drivers));
            var r4 := RunAll(r3.w, ReleaseScript(r3.w.drivers, states, pass));
            r4.ok && RunAll(r4.w, CheckScript(site.cat, mode, pass, drivers)).ok
  {
    var bind := BindScript(pass, drivers);
    BindEvents(pass, drivers);
    BindScriptDistinct(pass, drivers);
    hide RunAll, BindScript, ReleaseScript, CheckScript, IsVfio, InMode, See, Opens, DistinctEvents, UniqueAddresses;
    BindsTake(w, bind);
    AfterModing(w, bind);
    EnvKept(w, bind);
    var w3 := RunAll(w, bind).w;
    CalmRelease(w3, states, pass);
    CalmCheckStage(site.cat, RunAll(w3, ReleaseScript(w3.drivers, states, pass)).w, mode, pass, drivers);
  }

  lemma CalmCheckStage(cat: Catalog, w: World, mode: Mode, pass: seq<DeviceState>, drivers: map<Address, VfioDriver>)
    requires Calm(w.env) && Covers(drivers, pass)
    requires forall s | s in pass :: w.Driver(s.address) == Some(drivers[s.address].driver)
    requires forall s | s in pass && Opens(cat, s).Some? :: InMode(See(Opens(cat, s).value, w.Stored(s.address)), mode)
    ensures RunAll(w, CheckScript(cat, mode, pass, drivers)).ok
  {
    hide RunAll, CheckScript, InMode, See, Opens;
    CheckEvents(cat, mode, pass, drivers);
    CalmChecks(w, CheckScript(cat, mode, pass, drivers));
  }

  lemma CalmRelease(w: World, states: seq<DeviceState>, pass: seq<DeviceState>)
    requires Calm(w.env)
    ensures var r := RunAll(w, ReleaseScript(w.drivers, states, pass));
            && r.ok && r.w.env == w.env && r.w.stored == w.stored
            && forall s | s in pass :: r.w.Driver(s.address) == w.Driver(s.address)
  {
    var release := ReleaseScript(w.drivers, states, pass);
    ReleaseEvents(w.drivers, states, pass);
    hide RunAll, ReleaseScript, IsVfio;
    Transaction.CalmAccepted(w, release);
    KeepsStored(w, release);
    EnvKept(w, release);
    forall s | s in pass ensures RunAll(w, release).w.Driver(s.address) == w.Driver(s.address) {
      assert Kept(pass, s.address);
      KeepsDriverAt(w, release, s.address);
    }
  }

  // ---------------------------------------------------------------- when a run succeeds

  /** What a run asks of a node before it changes it, holders aside. */
  ghost predicate Acceptable(site: Site, mode: Mode, w: World) {
    && HostOk(site, w.drivers) && Scope(site) != [] && Capable(site.cat, Scope(site), mode)
    && forall s | s in Pass(site, mode) :: Resolvable(site, s)
  }

  /** No passthrough device is held by another driver than its own. */
  ghost predicate Unclaimed(site: Site, mode: Mode, w: World) {
    forall s | s in Pass(site, mode) ::
      w.Driver(s.address) == None || w.Driver(s.address) == Some(Target(site, s).driver)
  }

  lemma UnclaimedIsTakeable(site: Site, mode: Mode, w: World)
    requires Sound(site)
    ensures Covers(DriversOf(site, Pass(site, mode)), Pass(site, mode))
    ensures Takeable(w, BindScript(Pass(site, mode), DriversOf(site, Pass(site, mode)))) <==> Unclaimed(site, mode, w)
  {
    hide Pass, Target, BindScript;
    KeptIsPass(site, mode);
    DriversAt(site, Pass(site, mode));
    BindEvents(Pass(site, mode), DriversOf(site, Pass(site, mode)));
  }

  lemma PassOpens(site: Site, w: World, mode: Mode)
    requires Sound(site)
    ensures forall s | s in Pass(site, mode) && Opens(site.cat, s).Some? ::
      Nvidia.Opened(s.address, Opens(site.cat, s).value)
      in Nvidia.Participants(site.cat, Prepared(site, w, mode).states)
  {
    hide Prepared, Opens;
    PreparedStates(site, w, mode);
    Transaction.ParticipantsExact(site.cat, Scope(site));
    PassExact(Scope(site), mode);
  }

  /** Whatever fails or does not, a run that succeeds found the node acceptable, the
      devices it would change idle, and its passthrough devices free to take. */
  lemma SuccessNeeds(site: Site, procs: seq<ProcEntry>, w: World, mode: Mode)
    requires Sound(site) && Run(site, procs, w, mode).stage == Done
    ensures Acceptable(site, mode, w) && AllIdle(site, procs, Checked(site, w, mode)) && Unclaimed(site, mode, w)
  {
    var p, pass, drivers := Prepared(site, w, mode), Pass(site, mode), DriversOf(site, Pass(site, mode));
    hide Run, Change, Prepared, Checked, Pass, Target, RunAll, BindScript, AllIdle, HostOk, Capable, Resolvable,
         ResolveScript;
    RunShape(site, procs, w, mode);
    PreparedKeeps(site, w, mode);
    KeptIsPass(site, mode);
    DoneTakes(site, p.w, p.states, mode, pass, drivers);
    SameDrivers(w, p.w, BindScript(pass, drivers));
    UnclaimedIsTakeable(site, mode, w);
  }

  lemma CalmRunSucceeds(site: Site, procs: seq<ProcEntry>, w: World, mode: Mode)
    requires Sound(site) && Calm(w.env)
    requires Acceptable(site, mode, w) && AllIdle(site, procs, Checked(site, w, mode)) && Unclaimed(site, mode, w)
    ensures Run(site, procs, w, mode).stage == Done
  {
    var p, pass, drivers := Prepared(site, w, mode), Pass(site, mode), DriversOf(site, Pass(site, mode));
    hide Run, Change, Prepared, Checked, Pass, Target, RunAll, BindScript, AllIdle, HostOk, Capable, Resolvable,
         ResolveScript, Nvidia.Participants, Opens;
    ResolveOkIff(site, w, pass);
    RunUnfolds(site, procs, w, mode);
    PreparedKeeps(site, w, mode);
    PreparedStates(site, w, mode);
    KeptIsPass(site, mode);
    UnclaimedIsTakeable(site, mode, w);
    SameDrivers(w, p.w, BindScript(pass, drivers));
    PassOpens(site, w, mode);
    CalmChange(site, p.w, p.states, mode, pass, drivers);
  }

  /** What a run for the mode would change of a device: bind it or write its knobs if it is
      to be passed through, release it if it is not. */
  ghost predicate NeedsChange(site: Site, mode: Mode, w: World, s: DeviceState) {
    if s in Pass(site, mode) then
      || w.Driver(s.address) != Some(Target(site, s).driver)
      || (Opens(site.cat, s).Some? && !InMode(See(Opens(site.cat, s).value, w.Stored(s.address)), mode))
    else IsVfio(w.Driver(s.address))
  }

  /** The devices a run checks are devices of the scope, with the same holders. */
  lemma CheckedAreOfScope(site: Site, procs: seq<ProcEntry>, w: World, mode: Mode, t: DeviceState)
    returns (s: DeviceState)
    requires Sound(site) && t in Checked(site, w, mode)
    ensures s in Scope(site) && s.address == t.address && (Held(site, procs, t) <==> Held(site, procs, s))
  {
    var p, pass := Prepared(site, w, mode), Pass(site, mode);
    WritableExact(p.w.drivers, p.states, pass, DriversOf(site, pass), mode, p.unreadable);
    hide Prepared, Pass, Scope, Writable, IsWritable, InUse;
    PreparedStates(site, w, mode);
    var i :| 0 <= i < |p.states| && p.states[i] == t;
    s := Scope(site)[i];
    assert ProbedFrom(site, w, mode, s, t);
  }

  /** A device that a run would have to change and that is held blocks the run, whatever
      else happens. */
  lemma HeldBlocks(site: Site, procs: seq<ProcEntry>, w: World, mode: Mode, s: DeviceState)
    requires Sound(site) && s in Scope(site) && NeedsChange(site, mode, w, s) && Held(site, procs, s)
    ensures !AllIdle(site, procs, Checked(site, w, mode)) && Run(site, procs, w, mode).stage != Done
  {
    hide Run, Checked, Pass, Scope, Target, Held, Opens, InMode, See, IsVfio, Prepared, Acceptable, Unclaimed;
    CheckedExact(site, w, mode, s);
    var t :| t in Checked(site, w, mode) && t.address == s.address;
    var u := CheckedAreOfScope(site, procs, w, mode, t);
    KeptIsPass(site, mode);
    SameAddress(Scope(site), s, u);
    if Run(site, procs, w, mode).stage == Done { SuccessNeeds(site, procs, w, mode); }
  }

  lemma IdleIff(site: Site, procs: seq<ProcEntry>, w: World, mode: Mode)
    requires Sound(site) && Calm(w.env)
    ensures AllIdle(site, procs, Checked(site, w, mode))
            <==> forall s | s in Scope(site) && NeedsChange(site, mode, w, s) :: !Held(site, procs, s)
  {
    hide Run, Checked, Pass, Scope, Target, Held, Opens, InMode, See, IsVfio, Prepared, Calm;
    if forall s | s in Scope(site) && NeedsChange(site, mode, w, s) :: !Held(site, procs, s) {
      CalmPrepared(site, w, mode);
      forall t | t in Checked(site, w, mode) ensures !Held(site, procs, t) {
        var s := CheckedAreOfScope(site, procs, w, mode, t);
        CheckedExact(site, w, mode, s);
      }
    }
    forall s | s in Scope(site) && NeedsChange(site, mode, w, s) && Held(site, procs, s)
      ensures !AllIdle(site, procs, Checked(site, w, mode))
    {
      HeldBlocks(site, procs, w, mode, s);
    }
  }

  /** A run in which nothing fails and the firmware takes its writes succeeds exactly if
      the node is acceptable, no other driver holds a passthrough device, and every device
      the run would change is idle. */
  lemma CalmRunSucceedsIff(site: Site, procs: seq<ProcEntry>, w: World, mode: Mode)
    requires Sound(site) && Calm(w.env)
    ensures Run(site, procs, w, mode).stage == Done
            <==> Acceptable(site, mode, w) && AllIdle(site, procs, Checked(site, w, mode)) && Unclaimed(site, mode, w)
    ensures AllIdle(site, procs, Checked(site, w, mode))
            <==> forall s | s in Scope(site) && NeedsChange(site, mode, w, s) :: !Held(site, procs, s)
  {
    hide Run, Acceptable, AllIdle, Checked, Unclaimed, Scope, NeedsChange, Held;
    IdleIff(site, procs, w, mode);
    if Run(site, procs, w, mode).stage == Done {
      SuccessNeeds(site, procs, w, mode);
    }
    if Acceptable(site, mode, w) && AllIdle(site, procs, Checked(site, w, mode)) && Unclaimed(site, mode, w) {
      CalmRunSucceeds(site, procs, w, mode);
    }
  }

  /** What the knobs store decides success only through the held devices: two nodes with the
      same drivers, on which the same of the held passthrough devices are in the mode,
      succeed alike, whatever the other knobs of either. */
  lemma KnobsMatterOnlyIfHeld(site: Site, procs: seq<ProcEntry>, w: World, v: World, mode: Mode)
    requires Sound(site) && Calm(w.env) && Calm(v.env) && w.drivers == v.drivers
    requires forall s | s in Pass(site, mode) && Held(site, procs, s) && Opens(site.cat, s).Some? ::
      InMode(See(Opens(site.cat, s).value, w.Stored(s.address)), mode)
      <==> InMode(See(Opens(site.cat, s).value, v.Stored(s.address)), mode)
    ensures Run(site, procs, w, mode).stage == Done <==> Run(site, procs, v, mode).stage == Done
  {
    hide Run, Checked, Pass, Scope, Target, Held, Opens, InMode, See, IsVfio, AllIdle, HostOk, Capable, Resolvable,
         Calm;
    CalmRunSucceedsIff(site, procs, w, mode);
    CalmRunSucceedsIff(site, procs, v, mode);
    forall s | s in Scope(site) && Held(site, procs, s)
      ensures NeedsChange(site, mode, w, s) <==> NeedsChange(site, mode, v, s)
    {
      assert w.Driver(s.address) == v.Driver(s.address);
    }
  }

  lemma SameDrivers(w: World, v: World, es: seq<Event>)
    requires w.drivers == v.drivers
    ensures Takeable(w, es) <==> Takeable(v, es)
  {
  }

  lemma RunUnfolds(site: Site, procs: seq<ProcEntry>, w: World, mode: Mode)
    requires HostOk(site, w.drivers) && Scope(site) != [] && Capable(site.cat, Scope(site), mode)
    requires RunAll(w, ResolveScript(site, Pass(site, mode))).ok && AllIdle(site, procs, Checked(site, w, mode))
    ensures Covers(DriversOf(site, Pass(site, mode)), Pass(site, mode))
    ensures var p := Prepared(site, w, mode);
            Run(site, procs, w, mode)
            == Change(site, p.w, p.states, mode, Pass(site, mode), DriversOf(site, Pass(site, mode)))
  {
    DriversCover(site, Pass(site, mode));
    hide RunAll, Change, Nvidia.ProbeAll, AllIdle, Writable, ResolveScript;
  }

  lemma DoneTakes(site: Site, w: World, states: seq<DeviceState>, mode: Mode,
                  pass: seq<DeviceState>, drivers: map<Address, VfioDriver>)
    requires Covers(drivers, pass) && UniqueAddresses(pass)
    requires Change(site, w, states, mode, pass, drivers).stage == Done
    ensures Takeable(w, BindScript(pass, drivers))
  {
    hide RunAll, PersistEvents, Claims, BindScript, ReleaseScript, CheckScript, Nvidia.Board;
    var r1 := RunAll(w, Nvidia.Board(site.cat, states, w, mode));
    var persist := PersistEvents(Claims(pass, drivers));
    Transaction.BoardKeepsHost(site.cat, states, w, mode);
    PersistKinds(Claims(pass, drivers));
    KeepsDrivers(r1.w, persist);
    var r2 := RunAll(r1.w, persist);
    BindEvents(pass, drivers);
    BindScriptDistinct(pass, drivers);
    BindsTake(r2.w, BindScript(pass, drivers));
    SameDrivers(w, r2.w, BindScript(pass, drivers));
  }

  // ---------------------------------------------------------------- nothing left to do

  lemma {:induction false} BindsIdle(w: World, es: seq<Event>)
    requires forall e | e in es :: e.Bind? && w.Driver(e.a) == Some(e.driver)
    ensures RunAll(w, es).w.drivers == w.drivers
  {
    if es != [] {
      BindsIdle(w, es[..|es| - 1]);
      assert es == es[..|es| - 1] + [es[|es| - 1]];
    }
  }

  /** On a node already provisioned the change has no event that would disturb a device. */
  lemma ChangeStays(site: Site, w: World, states: seq<DeviceState>, mode: Mode,
                    pass: seq<DeviceState>, drivers: map<Address, VfioDriver>)
    requires Covers(drivers, pass) && UniqueAddresses(pass)
    requires forall s | s in states && Opens(site.cat, s).Some? ::
      InMode(See(Opens(site.cat, s).value, w.Stored(s.address)), mode)
    requires forall s | s in pass :: w.Driver(s.address) == Some(drivers[s.address].driver)
    requires forall s | s in states && !Kept(pass, s.address) :: !IsVfio(w.Driver(s.address))
    requires w.files == Compiled(Claims(pass, drivers))
    ensures var r := Change(site, w, states, mode, pass, drivers).w;
            SameNode(w, r) && NewSteps(w, r, s => Undisturbing(s))
  {
    hide RunAll, PersistEvents, Claims, Compiled, BindScript, ReleaseScript, CheckScript, Nvidia.Board, IsVfio, Kept,
         InMode, See, Opens, NewSteps;
    var board, bind := Nvidia.Board(site.cat, states, w, mode), BindScript(pass, drivers);
    var persist := PersistEvents(Claims(pass, drivers));
    forall e | e in board ensures !e.Set? && !e.Reset? {
      if e.Set? || e.Reset? { BoardDisturbs(site.cat, states, w, mode, e); }
    }
    AfterModing(w, board);
    Transaction.BoardKeepsHost(site.cat, states, w, mode);
    var w1 := RunAll(w, board).w;
    PersistKinds(Claims(pass, drivers));
    AfterModing(w1, persist);
    KeepsDrivers(w1, persist);
    PersistRewrites(w1, Claims(pass, drivers));
    var w2 := RunAll(w1, persist).w;
    BindEvents(pass, drivers);
    FromPersist(w2, bind);
    BindsIdle(w2, bind);
    var w3 := RunAll(w2, bind).w;
    TailStays(site.cat, w3, states, mode, pass, drivers);
    ChangeSteps(site, w, states, mode, pass, drivers, s => Undisturbing(s));
  }

  lemma TailStays(cat: Catalog, w: World, states: seq<DeviceState>, mode: Mode,
                  pass: seq<DeviceState>, drivers: map<Address, VfioDriver>)
    requires Covers(drivers, pass)
    requires forall s | s in states && !Kept(pass, s.address) :: !IsVfio(w.Driver(s.address))
    ensures var r4 := RunAll(w, ReleaseScript(w.drivers, states, pass)).w;
            SameNode(w, r4) && SameNode(w, RunAll(r4, CheckScript(cat, mode, pass, drivers)).w)
  {
    var release := ReleaseScript(w.drivers, states, pass);
    ReleaseEvents(w.drivers, states, pass);
    hide RunAll, ReleaseScript, CheckScript, IsVfio, Kept;
    forall e | e in release ensures false {
      var s :| s in states && e == Unbind(s.address) && !Kept(pass, s.address) && IsVfio(BoundTo(w.drivers, s.address));
      ReleasedIsNotVfio(w, s.address);
    }
    FromPersist(w, release);
    KeepsDrivers(w, release);
    CheckEvents(cat, mode, pass, drivers);
    FromPersist(RunAll(w, release).w, CheckScript(cat, mode, pass, drivers));
    KeepsDrivers(RunAll(w, release).w, CheckScript(cat, mode, pass, drivers));
  }

  /** Idempotence. On a node provisioned for the mode, another run for it, wherever a fault
      stops it, writes no knob, resets, binds and releases nothing, and leaves knobs,
      modes, bindings and files exactly as they are. */
  lemma ProvisionedStays(site: Site, procs: seq<ProcEntry>, w: World, mode: Mode)
    requires Sound(site) && Provisioned(site, mode, w)
    ensures var r := Run(site, procs, w, mode).w;
            SameNode(w, r) && NewSteps(w, r, s => Undisturbing(s))
  {
    var r := Run(site, procs, w, mode);
    hide Run, Provisioned, NewSteps;
    RunShape(site, procs, w, mode);
    if r.stage in {Refusing, Resolving, Idling} {
      RefusedWhole(site, procs, w, mode);
    } else {
      hide Change, Prepared, Capable, HostOk, AllIdle, Resolvable, Pass, Scope;
      var p, pass, drivers := Prepared(site, w, mode), Pass(site, mode), DriversOf(site, Pass(site, mode));
      PreparedKeeps(site, w, mode);
      ProvisionedChange(site, w, mode);
      StepsChain(w, p.w, r.w, s => Undisturbing(s));
    }
  }

  lemma ProvisionedChange(site: Site, w: World, mode: Mode)
    requires Sound(site) && Provisioned(site, mode, w)
    ensures Covers(DriversOf(site, Pass(site, mode)), Pass(site, mode))
    ensures var p := Prepared(site, w, mode);
            var r := Change(site, p.w, p.states, mode, Pass(site, mode), DriversOf(site, Pass(site, mode))).w;
            SameNode(p.w, r) && NewSteps(p.w, r, s => Undisturbing(s))
  {
    var p, pass, drivers := Prepared(site, w, mode), Pass(site, mode), DriversOf(site, Pass(site, mode));
    hide Change, Prepared, Pass, Scope, Target, Opens, InMode, See, IsVfio, Kept, NewSteps, Compiled, Claims,
         Nvidia.Participants, DriversOf;
    PreparedKeeps(site, w, mode);
    PreparedOfProvisioned(site, w, mode);
    KeptIsPass(site, mode);
    DriversAt(site, pass);
    ChangeStays(site, p.w, p.states, mode, pass, drivers);
  }

  lemma PreparedOfProvisioned(site: Site, w: World, mode: Mode)
    requires Sound(site) && Provisioned(site, mode, w)
    ensures var p := Prepared(site, w, mode);
            && (forall t | t in p.states && Opens(site.cat, t).Some? ::
                  InMode(See(Opens(site.cat, t).value, w.Stored(t.address)), mode))
            && (forall t | t in p.states && !Kept(Pass(site, mode), t.address) :: !IsVfio(w.Driver(t.address)))
  {
    var p := Prepared(site, w, mode);
    hide Prepared, Pass, Scope, Target, InMode, See, IsVfio, Opens, BootFiles;
    PreparedStates(site, w, mode);
    KeptIsPass(site, mode);
    Transaction.ParticipantsExact(site.cat, Scope(site));
    forall t | t in p.states
      ensures Opens(site.cat, t).Some? ==> InMode(See(Opens(site.cat, t).value, w.Stored(t.address)), mode)
      ensures !Kept(Pass(site, mode), t.address) ==> !IsVfio(w.Driver(t.address))
    {
      var i :| 0 <= i < |p.states| && p.states[i] == t;
      var s := Scope(site)[i];
      assert s in Scope(site) && ProbedFrom(site, w, mode, s, t);
      SameOpens(site.cat, s, t);
      if Opens(site.cat, s).Some? {
        assert Nvidia.Opened(s.address, Opens(site.cat, s).value) in Nvidia.Participants(site.cat, Scope(site));
      }
    }
  }

  /** "A running Kata workload must not block a no-op upgrade": on a provisioned node the
      only devices a run checks for holders are those it cannot read, so if nothing fails
      it checks none and succeeds, even with every device of the node held. */
  lemma ProvisionedSucceeds(site: Site, procs: seq<ProcEntry>, w: World, mode: Mode)
    requires Sound(site) && Provisioned(site, mode, w)
    ensures forall t | t in Checked(site, w, mode) :: t.address in Prepared(site, w, mode).unreadable
    ensures Calm(w.env) && Acceptable(site, mode, w) ==>
      Checked(site, w, mode) == [] && Run(site, procs, w, mode).stage == Done
  {
    hide Run, Prepared, Checked, Pass, Scope, Target, InMode, See, IsVfio, Opens, BootFiles, HostOk, Capable,
         Resolvable, RunAll;
    FirstIn(Checked(site, w, mode));
    CheckedOfProvisioned(site, w, mode);
    if Calm(w.env) && Acceptable(site, mode, w) {
      CalmPrepared(site, w, mode);
      CalmRunSucceeds(site, procs, w, mode);
    }
  }

  lemma FirstIn<T>(s: seq<T>)
    ensures s == [] || s[0] in s
  {
  }

  lemma CalmPrepared(site: Site, w: World, mode: Mode)
    requires Calm(w.env)
    ensures Prepared(site, w, mode).unreadable == {}
  {
    hide RunAll, Nvidia.ProbeAll;
    EnvKept(w, ResolveScript(site, Pass(site, mode)));
    CalmProbes(site.cat, RunAll(w, ResolveScript(site, Pass(site, mode))).w, Scope(site));
  }

  lemma CheckedOfProvisioned(site: Site, w: World, mode: Mode)
    requires Sound(site) && Provisioned(site, mode, w)
    ensures forall t | t in Checked(site, w, mode) :: t.address in Prepared(site, w, mode).unreadable
  {
    var p, pass := Prepared(site, w, mode), Pass(site, mode);
    WritableExact(p.w.drivers, p.states, pass, DriversOf(site, pass), mode, p.unreadable);
    hide Prepared, Pass, Scope, Target, InMode, See, IsVfio, Opens, BootFiles, Writable, IsWritable;
    PreparedStates(site, w, mode);
    Transaction.ParticipantsExact(site.cat, Scope(site));
    forall t | t in Checked(site, w, mode) ensures t.address in p.unreadable {
      var i :| 0 <= i < |p.states| && p.states[i] == t;
      var s := Scope(site)[i];
      assert s in Scope(site) && ProbedFrom(site, w, mode, s, t);
      CheckedExact(site, w, mode, s);
      if Opens(site.cat, s).Some? {
        assert Nvidia.Opened(s.address, Opens(site.cat, s).value) in Nvidia.Participants(site.cat, Scope(site));
      }
    }
  }

  // ---------------------------------------------------------------- the second run

  /** A host GPU driver, which the host check refuses to work beside. */
  predicate HostGpuDriver(driver: string) { driver == "nvidia" || driver == "nouveau" }

  /** `d` is what held the device before, nothing, or a driver that `es` binds. */
  ghost predicate ComesFrom(d: Option<string>, before: Option<string>, es: seq<Event>) {
    d == None || d == before || exists e | e in es :: e.Bind? && d == Some(e.driver)
  }

  lemma {:induction false} DriverComesFrom(w: World, es: seq<Event>, a: Address)
    ensures ComesFrom(RunAll(w, es).w.Driver(a), w.Driver(a), es)
  {
    if es != [] {
      var init, e := es[..|es| - 1], es[|es| - 1];
      assert es == init + [e];
      RunMore(w, init, e);
      hide RunAll, Do;
      DriverComesFrom(w, init, a);
      OneDriver(RunAll(w, init).w, e, a);
    }
  }

  lemma OneDriver(w: World, e: Event, a: Address)
    ensures var d := Do(w, e).w.Driver(a); d == None || d == w.Driver(a) || (e.Bind? && d == Some(e.driver))
  {
  }

  /** `d` is the driver of one of the devices to be passed through. */
  ghost predicate BoundBy(pass: seq<DeviceState>, drivers: map<Address, VfioDriver>, d: Option<string>)
    requires Covers(drivers, pass)
  {
    exists s | s in pass :: d == Some(drivers[s.address].driver)
  }

  lemma BoundDriver(w: World, pass: seq<DeviceState>, drivers: map<Address, VfioDriver>, a: Address)
    requires Covers(drivers, pass)
    ensures var d := RunAll(w, BindScript(pass, drivers)).w.Driver(a);
            d == None || d == w.Driver(a) || BoundBy(pass, drivers, d)
  {
    BindEvents(pass, drivers);
    hide RunAll, BindScript;
    DriverComesFrom(w, BindScript(pass, drivers), a);
  }

  lemma ReleasedDriver(w: World, states: seq<DeviceState>, pass: seq<DeviceState>, a: Address)
    ensures RunAll(w, ReleaseScript(w.drivers, states, pass)).w.Driver(a) in {None, w.Driver(a)}
  {
    ReleaseEvents(w.drivers, states, pass);
    hide RunAll, ReleaseScript, IsVfio, Kept;
    DriverComesFrom(w, ReleaseScript(w.drivers, states, pass), a);
  }

  /** A change puts devices on no drivers but those of the passthrough devices. */
  lemma ChangeDrivers(site: Site, w: World, states: seq<DeviceState>, mode: Mode,
                      pass: seq<DeviceState>, drivers: map<Address, VfioDriver>, a: Address)
    requires Covers(drivers, pass)
    requires Change(site, w, states, mode, pass, drivers).stage == Done
    ensures var d := Change(site, w, states, mode, pass, drivers).w.Driver(a);
            d == None || d == w.Driver(a) || BoundBy(pass, drivers, d)
  {
    var persist, bind := PersistEvents(Claims(pass, drivers)), BindScript(pass, drivers);
    PersistKinds(Claims(pass, drivers));
    hide RunAll, PersistEvents, Claims, BindScript, ReleaseScript, CheckScript, Nvidia.Board, IsVfio, Kept, BoundBy;
    var w1 := RunAll(w, Nvidia.Board(site.cat, states, w, mode)).w;
    Transaction.BoardKeepsHost(site.cat, states, w, mode);
    KeepsDrivers(w1, persist);
    var w2 := RunAll(w1, persist).w;
    BoundDriver(w2, pass, drivers, a);
    TailDrivers(site.cat, RunAll(w2, bind).w, states, mode, pass, drivers, a);
  }

  lemma TailDrivers(cat: Catalog, w: World, states: seq<DeviceState>, mode: Mode,
                    pass: seq<DeviceState>, drivers: map<Address, VfioDriver>, a: Address)
    requires Covers(drivers, pass)
    ensures var r := RunAll(w, ReleaseScript(w.drivers, states, pass)).w;
            RunAll(r, CheckScript(cat, mode, pass, drivers)).w.Driver(a) in {None, w.Driver(a)}
  {
    hide RunAll, ReleaseScript, CheckScript;
    ReleasedDriver(w, states, pass, a);
    CheckEvents(cat, mode, pass, drivers);
    KeepsDrivers(RunAll(w, ReleaseScript(w.drivers, states, pass)).w, CheckScript(cat, mode, pass, drivers));
  }

  lemma DoneDrivers(site: Site, procs: seq<ProcEntry>, w: World, mode: Mode, a: Address)
    requires Sound(site) && Run(site, procs, w, mode).stage == Done
    ensures var d := Run(site, procs, w, mode).w.Driver(a);
            d == None || d == w.Driver(a) || exists s | s in Pass(site, mode) :: d == Some(Target(site, s).driver)
  {
    var p, pass, drivers := Prepared(site, w, mode), Pass(site, mode), DriversOf(site, Pass(site, mode));
    hide Run, Change, Prepared, Pass, Scope, Target, Capable, HostOk, AllIdle, Resolvable, DriversOf;
    RunShape(site, procs, w, mode);
    PreparedKeeps(site, w, mode);
    KeptIsPass(site, mode);
    DriversAt(site, pass);
    ChangeDrivers(site, p.w, p.states, mode, pass, drivers, a);
    assert p.w.Driver(a) == w.Driver(a);
  }

  lemma HostOkIff(site: Site, w: World)
    ensures HostOk(site, w.drivers)
            <==> site.iommu && forall a :: w.Driver(a).Some? ==> !HostGpuDriver(w.Driver(a).value)
  {
    forall a | a in w.drivers ensures w.Driver(a) == Some(w.drivers[a]) { }
  }

  /** A run that succeeds leaves a node that the host check accepts exactly if the drivers
      it binds are not host GPU drivers. */
  lemma DoneHostOkIff(site: Site, procs: seq<ProcEntry>, w: World, mode: Mode)
    requires Sound(site) && Run(site, procs, w, mode).stage == Done
    ensures HostOk(site, Run(site, procs, w, mode).w.drivers)
            <==> forall s | s in Pass(site, mode) :: !HostGpuDriver(Target(site, s).driver)
  {
    var r := Run(site, procs, w, mode).w;
    DoneIsBound(site, procs, w, mode);
    assert forall s | s in Pass(site, mode) :: r.Driver(s.address) == Some(Target(site, s).driver);
    hide Run, Pass, Scope, Target, HostOk, Capable, Resolvable, HostGpuDriver, AllIdle, Checked, BoundForMode,
         Unclaimed, Sound;
    SuccessNeeds(site, procs, w, mode);
    HostOkIff(site, w);
    HostOkIff(site, r);
    if forall s | s in Pass(site, mode) :: !HostGpuDriver(Target(site, s).driver) {
      forall a | r.Driver(a).Some? ensures !HostGpuDriver(r.Driver(a).value) {
        DoneDrivers(site, procs, w, mode, a);
      }
    }
  }

  /** After a run that succeeded, another in which nothing fails checks no device for
      holders, whatever processes hold them by then, and it succeeds exactly if the drivers
      that the first bound its devices to are not host GPU drivers. */
  lemma DoneAgainIff(site: Site, procs: seq<ProcEntry>, w: World, mode: Mode, calm: Env, later: seq<ProcEntry>)
    requires Sound(site) && Run(site, procs, w, mode).stage == Done && Calm(calm)
    ensures var r := Run(site, procs, w, mode).w.(env := calm);
            && Checked(site, r, mode) == []
            && (Run(site, later, r, mode).stage == Done
                <==> forall s | s in Pass(site, mode) :: !HostGpuDriver(Target(site, s).driver))
  {
    var first := Run(site, procs, w, mode).w;
    var r := first.(env := calm);
    hide Run, Prepared, Checked, Pass, Scope, Target, HostOk, Capable, Resolvable, Provisioned, HostGpuDriver, AllIdle,
         Calm, Unclaimed;
    DoneIsProvisioned(site, procs, w, mode);
    ProvisionedDepends(site, mode, first, r);
    SuccessNeeds(site, procs, w, mode);
    DoneHostOkIff(site, procs, w, mode);
    FirstIn(Checked(site, r, mode));
    CheckedOfProvisioned(site, r, mode);
    CalmPrepared(site, r, mode);
    if HostOk(site, r.drivers) { ProvisionedSucceeds(site, later, r, mode); }
    if Run(site, later, r, mode).stage == Done { SuccessNeeds(site, later, r, mode); }
  }
}
