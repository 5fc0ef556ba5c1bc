/** What runs come to for each PCI device of the node, said in the terms of `Hardware`. */
module Outcome {
  import opened Text
  import opened Modes
  import opened Knobs
  import opened Machine
  import opened Devices
  import opened Idle
  import opened BootConfig
  import opened Provision
  import opened Resolution
  import opened Stages
  import opened Guarantees
  import opened Coverage
  import opened Convergence
  import opened Hardware
  import opened Cards
  import Nvidia
  import Transaction

  // ---------------------------------------------------------------- a run that succeeds

  /** A run that succeeds leaves every card of the node as the mode wants it: those to be
      passed through on the driver that serves them, the switches that are not off vfio, and
      the knobs of all set; in a raised mode, no GPU is without them. */
  lemma DoneMeans(site: Site, procs: seq<ProcEntry>, w: World, mode: Mode, d: PciDevice)
    requires Sound(site) && Run(site, procs, w, mode).stage == Done && IsCard(site, d)
    ensures var r := Run(site, procs, w, mode).w;
            && (IsTaken(site, mode, d) ==> DriverOf(site, d).Some? && r.Driver(d.address) == DriverOf(site, d))
            && (!IsTaken(site, mode, d) ==> !IsVfioDriver(r.Driver(d.address)))
            && KnobsSet(site, mode, d, r.Stored(d.address))
    ensures IsGpuCard(site, d) && mode != Off ==> HasCc(site, d) && (mode == Ppcie ==> IsHopper(site, d))
  {
    var r := Run(site, procs, w, mode).w;
    CardIs(site, d);
    hide Run, Pass, Scope, Target, Resolvable, Opens, Discovered, IsVfio, BootFiles, IsCard, IsTaken, Capable,
         ReportsMode,
         HostOk, AllIdle, Checked, KnobsSet, DriverOf, HasCc, IsHopper, IsGpuCard, IsVfioDriver, Sound, StateOf;
    DoneIsProvisioned(site, procs, w, mode);
    PastPersisting(site, procs, w, mode);
    SuccessNeeds(site, procs, w, mode);
    AcceptedIff(site, mode);
    CardsAreScope(site, d);
    TakenIsPass(site, mode, d);
    ResolvedIs(site, d);
    ReportedKnobs(site, mode, r, d);
    VfioDriverIff(r.Driver(d.address));
    if mode != Off { PossibleGpu(site, mode, d); }
  }

  lemma PossibleGpu(site: Site, mode: Mode, d: PciDevice)
    requires CanDo(site, mode) && mode != Off
    ensures IsGpuCard(site, d) ==> HasCc(site, d) && (mode == Ppcie ==> IsHopper(site, d))
  {
    hide IsGpuCard;
  }

  /** On a board that reports the mode, the knobs of every card are set. */
  lemma ReportedKnobs(site: Site, mode: Mode, r: World, d: PciDevice)
    requires Sound(site) && ReportsMode(site, mode, r) && IsCard(site, d)
    ensures KnobsSet(site, mode, d, r.Stored(d.address))
  {
    var s := StateOf(site, d);
    assert d in site.inventory;
    hide Scope, Opens, Discovered, InMode, See, IsCard, KnobsSet, Nvidia.Participants;
    CardIs(site, d);
    CardsAreScope(site, d);
    KnobsSetIff(site, mode, d, r.Stored(d.address));
    Transaction.ParticipantsExact(site.cat, Scope(site));
    assert Opens(site.cat, s).Some? ==>
      Nvidia.Opened(s.address, Opens(site.cat, s).value) in Nvidia.Participants(site.cat, Scope(site));
  }

  // ---------------------------------------------------------------- what a run leaves alone

  lemma ChangeOutside(site: Site, w: World, states: seq<DeviceState>, mode: Mode,
                      pass: seq<DeviceState>, drivers: map<Address, VfioDriver>, a: Address)
    requires Covers(drivers, pass) && UniqueAddresses(pass)
    requires (forall s | s in states :: s.address != a) && !Kept(pass, a)
    ensures var r := Change(site, w, states, mode, pass, drivers).w;
            r.Stored(a) == w.Stored(a) && r.Latched(a) == w.Latched(a) && r.Driver(a) == w.Driver(a)
  {
    hide RunAll, PersistEvents, Claims, BindScript, ReleaseScript, CheckScript, Nvidia.Board, IsVfio, Kept;
    var board, persist, bind := Nvidia.Board(site.cat, states, w, mode), PersistEvents(Claims(pass, drivers)),
                                BindScript(pass, drivers);
    BoardOutside(site.cat, states, w, mode, a);
    var w1 := RunAll(w, board).w;
    PersistKinds(Claims(pass, drivers));
    AfterModing(w1, persist);
    KeepsDrivers(w1, persist);
    var w2 := RunAll(w1, persist).w;
    BindStage(w2, pass, drivers, s => true);
    BindEvents(pass, drivers);
    AfterModing(w2, bind);
    TailOutside(site.cat, RunAll(w2, bind).w, states, mode, pass, drivers, a);
  }

  lemma BoardOutside(cat: Catalog, states: seq<DeviceState>, w: World, mode: Mode, a: Address)
    requires forall s | s in states :: s.address != a
    ensures var r := RunAll(w, Nvidia.Board(cat, states, w, mode)).w;
            r.Stored(a) == w.Stored(a) && r.Latched(a) == w.Latched(a) && r.Driver(a) == w.Driver(a)
  {
    hide RunAll, Nvidia.Board, Opens, InMode, See;
    var board := Nvidia.Board(cat, states, w, mode);
    forall e | e in board ensures (e.Set? || e.Reset?) ==> e.a != a {
      if e.Set? || e.Reset? { BoardDisturbs(cat, states, w, mode, e); }
    }
    KeepsStoredAt(w, board, a);
    KeepsLatchedAt(w, board, a);
    Transaction.BoardKeepsHost(cat, states, w, mode);
  }

  lemma TailOutside(cat: Catalog, w: World, states: seq<DeviceState>, mode: Mode,
                    pass: seq<DeviceState>, drivers: map<Address, VfioDriver>, a: Address)
    requires Covers(drivers, pass) && forall s | s in states :: s.address != a
    ensures var r4 := RunAll(w, ReleaseScript(w.drivers, states, pass)).w;
            var r5 := RunAll(r4, CheckScript(cat, mode, pass, drivers)).w;
            && r4.Stored(a) == w.Stored(a) && r4.Latched(a) == w.Latched(a) && r4.Driver(a) == w.Driver(a)
            && r5.Stored(a) == w.Stored(a) && r5.Latched(a) == w.Latched(a) && r5.Driver(a) == w.Driver(a)
  {
    var release := ReleaseScript(w.drivers, states, pass);
    ReleaseEvents(w.drivers, states, pass);
    hide RunAll, ReleaseScript, CheckScript, IsVfio, Kept;
    AfterModing(w, release);
    KeepsDriverAt(w, release, a);
    CheckEvents(cat, mode, pass, drivers);
    var r4, check := RunAll(w, release).w, CheckScript(cat, mode, pass, drivers);
    AfterModing(r4, check);
    KeepsDrivers(r4, check);
  }

  /** "A device with no row is never touched": wherever a run stops, what is at an address
      that no card has stores, behaves and is bound as before. */
  lemma OthersUntouched(site: Site, procs: seq<ProcEntry>, w: World, mode: Mode, a: Address)
    requires Sound(site) && forall d | IsCard(site, d) :: d.address != a
    ensures var r := Run(site, procs, w, mode).w;
            r.Stored(a) == w.Stored(a) && r.Latched(a) == w.Latched(a) && r.Driver(a) == w.Driver(a)
  {
    var r, p := Run(site, procs, w, mode), Prepared(site, w, mode);
    forall s | s in Scope(site) ensures s.address != a { var d := ScopeIsCards(site, s); }
    hide Run, Change, Prepared, Pass, Scope, Capable, HostOk, AllIdle, Resolvable, DriversOf, RunAll, IsCard, Kept;
    RunShape(site, procs, w, mode);
    if r.stage in {Refusing, Resolving, Idling} {
      RefusedWhole(site, procs, w, mode);
    } else {
      PreparedChangeOutside(site, w, mode, a);
    }
  }

  lemma PreparedChangeOutside(site: Site, w: World, mode: Mode, a: Address)
    requires Sound(site) && forall s | s in Scope(site) :: s.address != a
    requires Covers(DriversOf(site, Pass(site, mode)), Pass(site, mode))
    ensures var p := Prepared(site, w, mode);
            var r := Change(site, p.w, p.states, mode, Pass(site, mode), DriversOf(site, Pass(site, mode))).w;
            r.Stored(a) == w.Stored(a) && r.Latched(a) == w.Latched(a) && r.Driver(a) == w.Driver(a)
  {
    hide Change, Prepared, Pass, Scope, DriversOf, Kept;
    var p := Prepared(site, w, mode);
    PreparedKeeps(site, w, mode);
    KeptIsPass(site, mode);
    NotKept(site, mode, a);
    PreparedOutside(site, w, mode, a);
    ChangeOutside(site, p.w, p.states, mode, Pass(site, mode), DriversOf(site, Pass(site, mode)), a);
  }

  lemma PreparedOutside(site: Site, w: World, mode: Mode, a: Address)
    requires Sound(site) && forall s | s in Scope(site) :: s.address != a
    ensures forall t | t in Prepared(site, w, mode).states :: t.address != a
  {
    hide Prepared, Scope, Opens, See;
    var states := Prepared(site, w, mode).states;
    PreparedStates(site, w, mode);
    forall t | t in states ensures t.address != a {
      var i :| 0 <= i < |states| && states[i] == t;
      assert ProbedFrom(site, w, mode, Scope(site)[i], t) && Scope(site)[i] in Scope(site);
    }
  }

  lemma NotKept(site: Site, mode: Mode, a: Address)
    requires forall s | s in Scope(site) :: s.address != a
    ensures !Kept(Pass(site, mode), a)
  {
    PassExact(Scope(site), mode);
  }

  // ---------------------------------------------------------------- how a run ends

  /** The host and its cards allow the mode. */
  ghost predicate Fits(site: Site, mode: Mode, w: World) {
    && site.iommu
    && (forall a :: w.Driver(a) != Some("nvidia") && w.Driver(a) != Some("nouveau"))
    && (exists d :: IsCard(site, d))
    && CanDo(site, mode)
  }

  /** Every card to be passed through is served by a module that registers a driver. */
  ghost predicate AllServed(site: Site, mode: Mode) { forall d | IsTaken(site, mode, d) :: DriverOf(site, d).Some? }

  /** A card that the run would have to change is held. */
  ghost predicate Busy(site: Site, procs: seq<ProcEntry>, mode: Mode, w: World) {
    exists d | IsCard(site, d) :: IsToChange(site, mode, w, d) && IsHeld(site, procs, d)
  }

  /** Another driver holds a card to be passed through. */
  ghost predicate Foreign(site: Site, mode: Mode, w: World) {
    exists d | IsTaken(site, mode, d) :: w.Driver(d.address) != None && w.Driver(d.address) != DriverOf(site, d)
  }

  lemma FitsIff(site: Site, mode: Mode, w: World)
    requires Sound(site)
    ensures Fits(site, mode, w)
            <==> HostOk(site, w.drivers) && Scope(site) != [] && Capable(site.cat, Scope(site), mode)
  {
    AcceptedIff(site, mode);
    HostOkIff(site, w);
    assert forall a :: w.Driver(a) == Some("nvidia") || w.Driver(a) == Some("nouveau")
                       <==> w.Driver(a).Some? && HostGpuDriver(w.Driver(a).value);
    hide Scope, Capable, CanDo, IsCard, HostOk, HostGpuDriver;
    if d :| IsCard(site, d) { CardInScope(site, d); }
    if Scope(site) != [] { var d := ScopeIsCards(site, Scope(site)[0]); }
  }

  lemma ServedIff(site: Site, mode: Mode)
    requires Sound(site)
    ensures AllServed(site, mode) <==> forall s | s in Pass(site, mode) :: Resolvable(site, s)
  {
    hide Pass, Resolvable, DriverOf, IsTaken, IsCard, StateOf;
    forall d | IsTaken(site, mode, d)
      ensures StateOf(site, d) in Pass(site, mode) && (Resolvable(site, StateOf(site, d)) <==> DriverOf(site, d).Some?)
    {
      TakenInPass(site, mode, d);
      ResolvedIs(site, d);
    }
    forall s | s in Pass(site, mode) ensures exists d :: IsTaken(site, mode, d) && s == StateOf(site, d) {
      var d := PassIsTaken(site, mode, s);
    }
  }

  lemma ForeignIff(site: Site, mode: Mode, w: World)
    requires Sound(site) && AllServed(site, mode)
    ensures Foreign(site, mode, w) <==> !Unclaimed(site, mode, w)
  {
    hide Pass, Resolvable, DriverOf, IsTaken, IsCard, Target;
    forall d | IsTaken(site, mode, d)
      ensures StateOf(site, d) in Pass(site, mode) && StateOf(site, d).address == d.address
      ensures Some(Target(site, StateOf(site, d)).driver) == DriverOf(site, d)
    {
      TakenInPass(site, mode, d);
      ResolvedIs(site, d);
    }
    forall s | s in Pass(site, mode) ensures exists d :: IsTaken(site, mode, d) && s == StateOf(site, d) {
      var d := PassIsTaken(site, mode, s);
    }
  }

  lemma HeldIff(site: Site, procs: seq<ProcEntry>, d: PciDevice)
    ensures Held(site, procs, StateOf(site, d)) <==> IsHeld(site, procs, d)
  {
    var cdevs := site.cdevs(d.address);
    forall path
      ensures IsNode(path, d.iommuGroup, cdevs)
              <==> (d.iommuGroup >= 0 && path == ["dev", "vfio", Decimal(d.iommuGroup)])
                   || exists cdev | cdev in cdevs :: path == ["dev", "vfio", "devices", cdev]
    {
      NodePaths(path, d.iommuGroup, cdevs);
    }
    hide IsNode, Decimal, ParseU32;
    if IsHeld(site, procs, d) {
      var p, path :| p in procs && HasOpen(p, path) && ParseU32(p.name).Some? && IsNode(path, d.iommuGroup, cdevs);
      assert Holds(procs, d.iommuGroup, cdevs, Holder(ParseU32(p.name).value, Comm(p), path));
    }
  }

  lemma NodePaths(path: Path, group: int, cdevs: seq<string>)
    ensures IsNode(path, group, cdevs)
            <==> (group >= 0 && path == ["dev", "vfio", Decimal(group)])
                 || exists cdev | cdev in cdevs :: path == ["dev", "vfio", "devices", cdev]
  {
    if |path| == 3 {
      assert path == [path[0], path[1], path[2]];
      if group >= 0 { NumeralIffPrinted(path[2], group); }
    } else if |path| == 4 {
      assert path == [path[0], path[1], path[2], path[3]];
    }
    hide Numeral, Decimal;
  }

  lemma ToChangeIff(site: Site, mode: Mode, w: World, d: PciDevice)
    requires Sound(site) && AllServed(site, mode) && IsCard(site, d)
    ensures NeedsChange(site, mode, w, StateOf(site, d)) <==> IsToChange(site, mode, w, d)
  {
    var s := StateOf(site, d);
    CardIs(site, d);
    TakenIsPass(site, mode, d);
    hide Pass, Resolvable, DriverOf, IsTaken, IsCard, Target, KnobsSet, Opens, InMode, See, IsVfio, IsVfioDriver,
         Discovered;
    ResolvedIs(site, d);
    KnobsSetIff(site, mode, d, w.Stored(d.address));
    VfioDriverIff(w.Driver(d.address));
  }

  lemma BusyIff(site: Site, procs: seq<ProcEntry>, mode: Mode, w: World)
    requires Sound(site) && AllServed(site, mode)
    ensures Busy(site, procs, mode, w)
            <==> exists s | s in Scope(site) :: NeedsChange(site, mode, w, s) && Held(site, procs, s)
  {
    hide Scope, NeedsChange, IsToChange, Held, IsHeld, IsCard, AllServed, StateOf;
    if d :| IsCard(site, d) && IsToChange(site, mode, w, d) && IsHeld(site, procs, d) {
      CardInScope(site, d);
      ToChangeIff(site, mode, w, d);
      HeldIff(site, procs, d);
      assert StateOf(site, d) in Scope(site);
    }
    if s :| s in Scope(site) && NeedsChange(site, mode, w, s) && Held(site, procs, s) {
      var d := ScopeIsCards(site, s);
      ToChangeIff(site, mode, w, d);
      HeldIff(site, procs, d);
    }
  }

  lemma RunBegins(site: Site, procs: seq<ProcEntry>, w: World, mode: Mode)
    ensures var r := Run(site, procs, w, mode);
            var fits := HostOk(site, w.drivers) && Scope(site) != [] && Capable(site.cat, Scope(site), mode);
            var resolved := RunAll(w, ResolveScript(site, Pass(site, mode))).ok;
            && (r.stage == Refusing <==> !fits)
            && (r.stage == Resolving <==> fits && !resolved)
            && (r.stage == Idling <==> fits && resolved && !AllIdle(site, procs, Checked(site, w, mode)))
  {
    hide RunAll, Capable, HostOk, AllIdle, Passthrough, InScope, DriversOf, Resolvable, Nvidia.ProbeAll, ResolveScript,
         Writable, Change;
    DriversCover(site, Pass(site, mode));
    var p, pass := Prepared(site, w, mode), Pass(site, mode);
    ChangeKeeps(site, p.w, p.states, mode, pass, DriversOf(site, pass));
  }

  /** How a run ends in which nothing fails and the firmware takes its writes, all of it
      decided by the node as the run finds it. */
  lemma CalmRunEnds(site: Site, procs: seq<ProcEntry>, w: World, mode: Mode)
    requires Sound(site) && Calm(w.env)
    ensures var stage := Run(site, procs, w, mode).stage;
            && (stage == Refusing <==> !Fits(site, mode, w))
            && (stage == Resolving <==> Fits(site, mode, w) && !AllServed(site, mode))
            && (stage == Idling <==> Fits(site, mode, w) && AllServed(site, mode) && Busy(site, procs, mode, w))
            && (stage == Done <==> Fits(site, mode, w) && AllServed(site, mode) && !Busy(site, procs, mode, w)
                                   && !Foreign(site, mode, w))
  {
    hide Run, RunAll, Capable, HostOk, AllIdle, Scope, Pass, Resolvable, ResolveScript, Checked, Held, NeedsChange,
         Unclaimed,
         Fits, AllServed, Busy, Foreign, Calm;
    FitsIff(site, mode, w);
    ServedIff(site, mode);
    ResolveOkIff(site, w, Pass(site, mode));
    RunBegins(site, procs, w, mode);
    CalmRunSucceedsIff(site, procs, w, mode);
    if AllServed(site, mode) {
      BusyIff(site, procs, mode, w);
      ForeignIff(site, mode, w);
    }
  }

  // ---------------------------------------------------------------- what is loaded

  lemma LoadedAfter(site: Site, procs: seq<ProcEntry>, w: World, mode: Mode)
    requires Run(site, procs, w, mode).stage !in {Refusing, Resolving}
    ensures RunAll(w, ResolveScript(site, Pass(site, mode))).ok
    ensures Run(site, procs, w, mode).w.loaded == RunAll(w, ResolveScript(site, Pass(site, mode))).w.loaded
  {
    hide RunAll, Capable, HostOk, AllIdle, Passthrough, InScope, DriversOf, Resolvable, Nvidia.ProbeAll, ResolveScript,
         Writable, Change;
    DriversCover(site, Pass(site, mode));
    var r := RunAll(w, ResolveScript(site, Pass(site, mode))).w;
    Nvidia.ProbeReads(site.cat, r, Scope(site));
    var p, pass := Prepared(site, w, mode), Pass(site, mode);
    ChangeLoads(site, p.w, p.states, mode, pass, DriversOf(site, pass));
  }

  lemma ChangeLoads(site: Site, w: World, states: seq<DeviceState>, mode: Mode,
                    pass: seq<DeviceState>, drivers: map<Address, VfioDriver>)
    requires Covers(drivers, pass)
    ensures Change(site, w, states, mode, pass, drivers).w.loaded == w.loaded
  {
    hide RunAll, PersistEvents, Claims, BindScript, ReleaseScript, CheckScript, Nvidia.Board;
    var w1 := RunAll(w, Nvidia.Board(site.cat, states, w, mode)).w;
    BoardLoads(site.cat, states, w, mode);
    var w2 := RunAll(w1, PersistEvents(Claims(pass, drivers))).w;
    PersistLoads(w1, Claims(pass, drivers));
    var w3 := RunAll(w2, BindScript(pass, drivers)).w;
    BindLoads(w2, pass, drivers);
    ReleaseLoads(w3, states, pass);
    CheckLoads(site.cat, RunAll(w3, ReleaseScript(w3.drivers, states, pass)).w, mode, pass, drivers);
  }

  lemma BoardLoads(cat: Catalog, states: seq<DeviceState>, w: World, mode: Mode)
    ensures RunAll(w, Nvidia.Board(cat, states, w, mode)).w.loaded == w.loaded
  {
    Transaction.BoardKinds(cat, states, w, mode);
    hide RunAll, Nvidia.Board;
    KeepsLoaded(w, Nvidia.Board(cat, states, w, mode));
  }

  lemma PersistLoads(w: World, claims: seq<Claim>)
    ensures RunAll(w, PersistEvents(claims)).w.loaded == w.loaded
  {
    PersistKinds(claims);
    hide RunAll, PersistEvents;
    KeepsLoaded(w, PersistEvents(claims));
  }

  lemma BindLoads(w: World, pass: seq<DeviceState>, drivers: map<Address, VfioDriver>)
    requires Covers(drivers, pass)
    ensures RunAll(w, BindScript(pass, drivers)).w.loaded == w.loaded
  {
    BindEvents(pass, drivers);
    hide RunAll, BindScript;
    KeepsLoaded(w, BindScript(pass, drivers));
  }

  lemma ReleaseLoads(w: World, states: seq<DeviceState>, pass: seq<DeviceState>)
    ensures RunAll(w, ReleaseScript(w.drivers, states, pass)).w.loaded == w.loaded
  {
    ReleaseEvents(w.drivers, states, pass);
    hide RunAll, ReleaseScript, IsVfio, Kept;
    KeepsLoaded(w, ReleaseScript(w.drivers, states, pass));
  }

  lemma CheckLoads(cat: Catalog, w: World, mode: Mode, pass: seq<DeviceState>, drivers: map<Address, VfioDriver>)
    requires Covers(drivers, pass)
    ensures RunAll(w, CheckScript(cat, mode, pass, drivers)).w.loaded == w.loaded
  {
    CheckEvents(cat, mode, pass, drivers);
    hide RunAll, CheckScript, Opens;
    KeepsLoaded(w, CheckScript(cat, mode, pass, drivers));
  }

  /** A run that gets past resolving has loaded the modules that serve the cards it takes, and
      no others. */
  lemma LoadsWhatServes(site: Site, procs: seq<ProcEntry>, w: World, mode: Mode)
    requires Sound(site) && Run(site, procs, w, mode).stage !in {Refusing, Resolving}
    ensures forall m :: m in Run(site, procs, w, mode).w.loaded
                        <==> m in w.loaded || exists d | IsTaken(site, mode, d) :: ModuleOf(site, d) == Some(m)
  {
    hide Run, RunAll, ResolveScript, Pass, ResolveModule, IsTaken, ModuleOf, IsCard, StateOf;
    LoadedAfter(site, procs, w, mode);
    ResolveLoads(site, w, Pass(site, mode));
    ModulesServe(site, mode);
  }

  lemma ModulesServe(site: Site, mode: Mode)
    requires Sound(site)
    ensures forall m :: (exists s | s in Pass(site, mode) :: ResolveModule(site, s) == Some(m))
                        <==> exists d | IsTaken(site, mode, d) :: ModuleOf(site, d) == Some(m)
  {
    hide Pass, ResolveModule, IsTaken, ModuleOf, IsCard, StateOf;
    forall m, s | s in Pass(site, mode) && ResolveModule(site, s) == Some(m)
      ensures exists d | IsTaken(site, mode, d) :: ModuleOf(site, d) == Some(m)
    {
      var d := PassIsTaken(site, mode, s);
      ResolvedIs(site, d);
    }
    forall m, d | IsTaken(site, mode, d) && ModuleOf(site, d) == Some(m)
      ensures exists s | s in Pass(site, mode) :: ResolveModule(site, s) == Some(m)
    {
      TakenInPass(site, mode, d);
      ResolvedIs(site, d);
    }
  }
}
