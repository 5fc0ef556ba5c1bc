/** A node over its whole history: runs stopped anywhere, uninstalls and reboots. */
module History {
  import opened Text
  import opened Modes
  import opened Knobs
  import opened Machine
  import opened Devices
  import opened Idle
  import opened BootConfig
  import opened Boot
  import opened RuleText
  import opened Provision
  import opened Resolution
  import opened Stages
  import opened Guarantees
  import opened Convergence
  import Nvidia
  import Transaction

  /** A run for a mode, an uninstall, or a reboot. `env` says what fails and where;
      `native` names the drivers that would take devices at boot before any boot file is
      looked at; only with the power cut do devices come up behaving as they report. */
  datatype Op =
    | ApplyOp(env: Env, procs: seq<ProcEntry>, mode: Mode)
    | UninstallOp(env: Env)
    | RebootOp(native: Address -> Option<string>, power: bool)

  function BootedDrivers(site: Site, files: Files, native: Address -> Option<string>,
                         devices: seq<PciDevice>): map<Address, string> {
    if devices == [] then map[]
    else
      var before, d := BootedDrivers(site, files, native, devices[..|devices| - 1]), devices[|devices| - 1];
      var driver := DriverAtBoot(site.kernel, files, native(d.address), Id(d.vendor, d.device));
      if driver.Some? then before[d.address := driver.value] else before - {d.address}
  }

  function Rebooted(site: Site, w: World, native: Address -> Option<string>, power: bool): World {
    w.(drivers := BootedDrivers(site, w.files, native, site.inventory),
       loaded := {},
       latched := if power then w.stored else w.latched)
  }

  ghost function After(site: Site, w: World, op: Op): World {
    match op
    case ApplyOp(env, procs, mode) => Run(site, procs, w.(env := env), mode).w
    case UninstallOp(env) => RunAll(w.(env := env), UNPERSIST).w
    case RebootOp(native, power) => Rebooted(site, w, native, power)
  }

  ghost function AfterAll(site: Site, w: World, ops: seq<Op>): World {
    if ops == [] then w else After(site, AfterAll(site, w, ops[..|ops| - 1]), ops[|ops| - 1])
  }

  // ---------------------------------------------------------------- rebooting

  lemma BootedLast(site: Site, files: Files, native: Address -> Option<string>, devices: seq<PciDevice>, a: Address)
    requires devices != []
    ensures var last := devices[|devices| - 1];
            BoundTo(BootedDrivers(site, files, native, devices), a) ==
              if a == last.address
              then DriverAtBoot(site.kernel, files, native(a), Id(last.vendor, last.device))
              else BoundTo(BootedDrivers(site, files, native, devices[..|devices| - 1]), a)
  {
    hide DriverAtBoot;
  }

  lemma {:induction false} BootedAt(site: Site, files: Files, native: Address -> Option<string>,
                                    devices: seq<PciDevice>, d: PciDevice)
    requires UniquePci(devices) && d in devices
    ensures BoundTo(BootedDrivers(site, files, native, devices), d.address)
            == DriverAtBoot(site.kernel, files, native(d.address), Id(d.vendor, d.device))
  {
    hide DriverAtBoot, BootedDrivers, BoundTo;
    var init, last := devices[..|devices| - 1], devices[|devices| - 1];
    assert devices == init + [last];
    BootedLast(site, files, native, devices, d.address);
    if d != last {
      var i :| 0 <= i < |init| && init[i] == d;
      assert devices[i] == d;
      assert forall i, j | 0 <= i < j < |init| :: init[i] == devices[i] && init[j] == devices[j];
      BootedAt(site, files, native, init, d);
    }
  }

  lemma RebootBinds(site: Site, w: World, native: Address -> Option<string>, power: bool, s: DeviceState)
    requires Sound(site) && s in Scope(site)
    ensures Rebooted(site, w, native, power).Driver(s.address)
            == DriverAtBoot(site.kernel, w.files, native(s.address), Id(s.vendor, s.deviceId))
  {
    hide DriverAtBoot, BootedDrivers;
    InScopeFresh(site.cat, site.inventory);
    var d :| d in site.inventory && s == Discovered(site.cat, d);
    BootedAt(site, w.files, native, site.inventory, d);
  }

  /** A device kept on the host comes up on a vfio driver: its own doing, or that of the boot
      files, which go by ids, if nothing takes it first and it shares them with a device
      passed through. */
  ghost predicate KeptComesUpVfio(site: Site, mode: Mode, native: Address -> Option<string>, s: DeviceState) {
    || IsVfio(native(s.address))
    || (native(s.address) == None
        && exists t | t in Pass(site, mode) && Id(t.vendor, t.deviceId) == Id(s.vendor, s.deviceId) ::
             IsVfio(Some(Target(site, t).driver)))
  }

  /** What would take the devices of the scope at boot leaves the passthrough devices to
      their own drivers, and none of the others comes up on a vfio driver. The host check
      is there to see that no host GPU driver is around. */
  ghost predicate QuietBoot(site: Site, mode: Mode, native: Address -> Option<string>) {
    && (forall s | s in Pass(site, mode) ::
          native(s.address) == None || native(s.address) == Some(Target(site, s).driver))
    && (forall s | s in Scope(site) && s !in Pass(site, mode) :: !KeptComesUpVfio(site, mode, native, s))
  }

  /** "Leave it able to get back there alone": a provisioned node comes back provisioned
      from a reboot exactly if no other driver takes its passthrough devices first and
      none of the others comes up on a vfio driver. */
  lemma RebootKeepsProvisioned(site: Site, mode: Mode, w: World, native: Address -> Option<string>, power: bool)
    requires Sound(site) && Provisioned(site, mode, w)
    requires forall s | s in Pass(site, mode) :: Resolvable(site, s)
    ensures Provisioned(site, mode, Rebooted(site, w, native, power)) <==> QuietBoot(site, mode, native)
  {
    var w' := Rebooted(site, w, native, power);
    assert w'.stored == w.stored && w'.files == w.files;
    SameReport(site, mode, w, w');
    hide BoundForMode, QuietBoot, ReportsMode, BootFiles, Pass, Resolvable, Rebooted;
    RebootBound(site, mode, w, native, power);
  }

  lemma SameReport(site: Site, mode: Mode, w: World, v: World)
    requires w.stored == v.stored
    ensures ReportsMode(site, mode, w) <==> ReportsMode(site, mode, v)
  {
    assert forall a :: w.Stored(a) == v.Stored(a);
    hide Scope, InMode, See, Nvidia.Participants;
  }

  lemma RebootBound(site: Site, mode: Mode, w: World, native: Address -> Option<string>, power: bool)
    requires Sound(site) && w.files == BootFiles(site, mode)
    requires forall s | s in Pass(site, mode) :: Resolvable(site, s)
    ensures BoundForMode(site, mode, Rebooted(site, w, native, power)) <==> QuietBoot(site, mode, native)
  {
    var w' := Rebooted(site, w, native, power);
    PassExact(Scope(site), mode);
    assert forall s | s in Pass(site, mode) :: s in Scope(site);
    hide Pass, Scope, Target, Resolvable, DriverAtBoot, BootFiles, IsVfio, Rebooted, KeptComesUpVfio;
    forall s | s in Scope(site)
      ensures s in Pass(site, mode) ==>
        (w'.Driver(s.address) == Some(Target(site, s).driver)
         <==> native(s.address) == None || native(s.address) == Some(Target(site, s).driver))
      ensures s !in Pass(site, mode) ==> (IsVfio(w'.Driver(s.address)) <==> KeptComesUpVfio(site, mode, native, s))
    {
      RebootOne(site, mode, w, native, power, s);
    }
  }

  lemma RebootOne(site: Site, mode: Mode, w: World, native: Address -> Option<string>, power: bool, s: DeviceState)
    requires Sound(site) && s in Scope(site) && w.files == BootFiles(site, mode)
    requires forall t | t in Pass(site, mode) :: Resolvable(site, t)
    ensures s in Pass(site, mode) ==>
      (Rebooted(site, w, native, power).Driver(s.address) == Some(Target(site, s).driver)
       <==> native(s.address) == None || native(s.address) == Some(Target(site, s).driver))
    ensures s !in Pass(site, mode) ==>
      (IsVfio(Rebooted(site, w, native, power).Driver(s.address)) <==> KeptComesUpVfio(site, mode, native, s))
  {
    hide Pass, Scope, Target, Resolvable, DriverAtBoot, BootFiles, Rebooted, IsVfio;
    ReleasedIsNotVfio(w, s.address);
    RebootBinds(site, w, native, power, s);
    BootsIntoMode(site, mode, native(s.address), Id(s.vendor, s.deviceId));
    NativeStays(site, w.files, native(s.address), Id(s.vendor, s.deviceId));
  }

  lemma NativeStays(site: Site, files: Files, native: Option<string>, id: Id)
    ensures native.Some? ==> DriverAtBoot(site.kernel, files, native, id) == native
  {
  }

  // ---------------------------------------------------------------- settled

  /** What may happen to a node that is to stay in a mode: more runs for it, stopped
      anywhere, and quiet reboots. */
  ghost predicate Staying(site: Site, mode: Mode, op: Op) {
    match op
    case ApplyOp(_, _, m) => m == mode
    case UninstallOp(_) => false
    case RebootOp(native, _) => QuietBoot(site, mode, native)
  }

  /** Once provisioned, a node stays provisioned and its knobs stay as they are, through
      any number of further runs for the mode, however they fail, and quiet reboots. If
      every device behaved as it reported, every device still does. */
  lemma {:induction false} SettledForGood(site: Site, mode: Mode, w: World, ops: seq<Op>)
    requires Sound(site) && Provisioned(site, mode, w)
    requires forall s | s in Pass(site, mode) :: Resolvable(site, s)
    requires forall op | op in ops :: Staying(site, mode, op)
    ensures var r := AfterAll(site, w, ops);
            && Provisioned(site, mode, r) && r.stored == w.stored
            && (w.latched == w.stored ==> r.latched == r.stored)
  {
    if ops != [] {
      var init, op := ops[..|ops| - 1], ops[|ops| - 1];
      assert ops == init + [op];
      hide Run, Provisioned, Pass, Resolvable, Rebooted;
      SettledForGood(site, mode, w, init);
      SettledOnce(site, mode, AfterAll(site, w, init), op);
    }
  }

  lemma SettledOnce(site: Site, mode: Mode, w: World, op: Op)
    requires Sound(site) && Provisioned(site, mode, w) && Staying(site, mode, op)
    requires forall s | s in Pass(site, mode) :: Resolvable(site, s)
    ensures var r := After(site, w, op);
            && Provisioned(site, mode, r) && r.stored == w.stored
            && (w.latched == w.stored ==> r.latched == r.stored)
  {
    match op {
      case ApplyOp(env, procs, m) =>
        var w' := w.(env := env);
        ProvisionedDepends(site, mode, w, w');
        hide Run, Provisioned, Pass, Resolvable;
        ProvisionedStays(site, procs, w', mode);
        ProvisionedDepends(site, mode, w', After(site, w, op));
      case RebootOp(native, power) =>
        var r := Rebooted(site, w, native, power);
        assert r.stored == w.stored && (r.latched == w.stored || r.latched == w.latched);
        hide Provisioned, Pass, Resolvable, Rebooted, QuietBoot;
        RebootKeepsProvisioned(site, mode, w, native, power);
    }
  }

  /** The headline. Start a node anywhere and let anything happen to it: runs for any
      modes stopped at any step, uninstalls, reboots. One run for a mode that succeeds
      leaves it provisioned, and from then on it stays so on its own. */
  lemma OneSuccessSettles(site: Site, mode: Mode, start: World, before: seq<Op>, env: Env, procs: seq<ProcEntry>,
                          later: seq<Op>)
    requires Sound(site)
    requires Run(site, procs, AfterAll(site, start, before).(env := env), mode).stage == Done
    requires forall op | op in later :: Staying(site, mode, op)
    ensures var settled := After(site, AfterAll(site, start, before), ApplyOp(env, procs, mode));
            Provisioned(site, mode, AfterAll(site, settled, later))
  {
    hide Run, Provisioned, Pass, Resolvable, Staying;
    var w := AfterAll(site, start, before).(env := env);
    DoneIsProvisioned(site, procs, w, mode);
    PastPersisting(site, procs, w, mode);
    SettledForGood(site, mode, Run(site, procs, w, mode).w, later);
  }

  // ---------------------------------------------------------------- exclusive throughout

  lemma {:induction false} ProbesKeep(inv: World -> bool, cat: Catalog, w: World, states: seq<DeviceState>)
    requires Inductive(inv) && inv(w)
    ensures inv(Nvidia.ProbeAll(cat, w, states).w)
  {
    hide Opens, See, Do;
    if states != [] {
      ProbesKeep(inv, cat, w, states[..|states| - 1]);
    }
  }

  /** What every primitive keeps, every run keeps, wherever it stops. */
  lemma RunKeepsInvariant(inv: World -> bool, site: Site, procs: seq<ProcEntry>, w: World, mode: Mode)
    requires Inductive(inv) && inv(w)
    ensures inv(Run(site, procs, w, mode).w)
  {
    hide Inductive, Run, Change, RunAll, Pass, Scope, AllIdle, Checked, Capable, HostOk, Resolvable, DriversOf,
         ResolveScript, Nvidia.ProbeAll;
    RunShape(site, procs, w, mode);
    var resolved := RunAll(w, ResolveScript(site, Pass(site, mode))).w;
    RunKeeps(inv, w, ResolveScript(site, Pass(site, mode)));
    ProbesKeep(inv, site.cat, resolved, Scope(site));
    var p := Prepared(site, w, mode);
    assert inv(p.w);
    if Run(site, procs, w, mode).stage !in {Refusing, Resolving, Idling} {
      ChangeKeepsInvariant(inv, site, p.w, p.states, mode, Pass(site, mode), DriversOf(site, Pass(site, mode)));
    }
  }

  lemma ChangeKeepsInvariant(inv: World -> bool, site: Site, w: World, states: seq<DeviceState>, mode: Mode,
                             pass: seq<DeviceState>, drivers: map<Address, VfioDriver>)
    requires Inductive(inv) && inv(w) && Covers(drivers, pass)
    ensures inv(Change(site, w, states, mode, pass, drivers).w)
  {
    hide Inductive, RunAll, PersistEvents, Claims, BindScript, ReleaseScript, CheckScript, Nvidia.Board;
    var board, persist := Nvidia.Board(site.cat, states, w, mode), PersistEvents(Claims(pass, drivers));
    var w1 := RunAll(w, board).w;
    var w2 := RunAll(w1, persist).w;
    var w3 := RunAll(w2, BindScript(pass, drivers)).w;
    var w4 := RunAll(w3, ReleaseScript(w3.drivers, states, pass)).w;
    RunKeeps(inv, w, board);
    RunKeeps(inv, w1, persist);
    RunKeeps(inv, w2, BindScript(pass, drivers));
    RunKeeps(inv, w3, ReleaseScript(w3.drivers, states, pass));
    RunKeeps(inv, w4, CheckScript(site.cat, mode, pass, drivers));
  }

  /** On a node that starts with the knobs of every device exclusive, no history of runs,
      stops, uninstalls and reboots ever has CC raised and PPCIE on together on a device,
      as reported or as behaved. */
  lemma {:induction false} ExclusiveForever(site: Site, w: World, ops: seq<Op>)
    requires Transaction.KnobsExclusive(w)
    ensures Transaction.KnobsExclusive(AfterAll(site, w, ops))
  {
    if ops != [] {
      var init, op := ops[..|ops| - 1], ops[|ops| - 1];
      ExclusiveForever(site, w, init);
      var v := AfterAll(site, w, init);
      Transaction.ExclusiveIsInductive();
      hide Inductive, Run, RunAll;
      match op {
        case ApplyOp(env, procs, mode) =>
          assert Transaction.KnobsExclusive(v.(env := env)) by { SameKnobs(v, v.(env := env)); }
          RunKeepsInvariant(Transaction.KnobsExclusive, site, procs, v.(env := env), mode);
        case UninstallOp(env) =>
          assert Transaction.KnobsExclusive(v.(env := env)) by { SameKnobs(v, v.(env := env)); }
          RunKeeps(Transaction.KnobsExclusive, v.(env := env), UNPERSIST);
        case RebootOp(native, power) =>
          RebootedKnobs(site, v, native, power);
      }
    }
  }

  lemma SameKnobs(w: World, v: World)
    requires w.stored == v.stored && w.latched == v.latched
    ensures Transaction.KnobsExclusive(w) <==> Transaction.KnobsExclusive(v)
  {
    assert forall a :: w.Stored(a) == v.Stored(a) && w.Latched(a) == v.Latched(a);
  }

  lemma RebootedKnobs(site: Site, w: World, native: Address -> Option<string>, power: bool)
    requires Transaction.KnobsExclusive(w)
    ensures Transaction.KnobsExclusive(Rebooted(site, w, native, power))
  {
    var r := Rebooted(site, w, native, power);
    forall a ensures Exclusive(r.Stored(a)) && Exclusive(r.Latched(a)) {
      assert Exclusive(w.Stored(a)) && Exclusive(w.Latched(a));
      assert r.Latched(a) == if power then w.Stored(a) else w.Latched(a);
    }
  }

  // ---------------------------------------------------------------- behaving as reported

  /** Every device behaves as it reports. */
  ghost predicate Coherent(w: World) {
    forall a :: w.Latched(a) == w.Stored(a)
  }

  /** The run died between the first write of its mode change and the end of it. */
  ghost predicate DiedChanging(site: Site, procs: seq<ProcEntry>, w: World, mode: Mode) {
    && Run(site, procs, w, mode).stage == Moding
    && var p := Prepared(site, w, mode);
       |Moded(site, w, mode).w.trace| - |p.w.trace| > |Nvidia.Preparation(Nvidia.Participants(site.cat, p.states))|
  }

  lemma BoardKeepsCoherent(cat: Catalog, states: seq<DeviceState>, w: World, mode: Mode)
    requires Coherent(w)
    requires var r := RunAll(w, Nvidia.Board(cat, states, w, mode));
             r.ok || |r.w.trace| - |w.trace| <= |Nvidia.Preparation(Nvidia.Participants(cat, states))|
    ensures Coherent(RunAll(w, Nvidia.Board(cat, states, w, mode)).w)
  {
    var script, devices := Nvidia.Board(cat, states, w, mode), Nvidia.Participants(cat, states);
    var r := RunAll(w, script);
    hide Nvidia.Board, Nvidia.PendingOf, RunAll, Nvidia.Plan;
    if r.ok {
      Transaction.SuccessLatches(cat, states, w, mode);
      forall a ensures r.w.Latched(a) == r.w.Stored(a) {
        if !exists p | p in Nvidia.PendingOf(w, devices, mode) :: p.a == a {
          Transaction.UnplannedKeeps(cat, states, w, mode, a);
          assert w.Latched(a) == w.Stored(a);
        }
      }
    } else {
      Transaction.TwoPhase(cat, states, w, mode);
      assert |Nvidia.Preparation(devices)| <= |Nvidia.UpToResets(w, devices, mode)|;
      assert r.w.stored == w.stored && r.w.latched == w.latched;
      forall a ensures r.w.Latched(a) == r.w.Stored(a) {
        assert w.Latched(a) == w.Stored(a);
      }
    }
  }

  /** A run leaves a coherent node coherent unless it dies in the middle of the mode
      change: past it, or before its first write, it may fail as it likes. */
  lemma RunKeepsCoherent(site: Site, procs: seq<ProcEntry>, w: World, mode: Mode)
    requires UniquePci(site.inventory) && Coherent(w) && !DiedChanging(site, procs, w, mode)
    ensures Coherent(Run(site, procs, w, mode).w)
  {
    var r, p := Run(site, procs, w, mode), Prepared(site, w, mode);
    hide Run, Change, Prepared, RunAll, Nvidia.Board, Pass, Scope, AllIdle, Capable, HostOk, Resolvable, DriversOf;
    RunShape(site, procs, w, mode);
    PreparedKeeps(site, w, mode);
    SameCoherent(w, p.w);
    if r.stage in {Refusing, Resolving, Idling} {
      RefusedWhole(site, procs, w, mode);
      SameCoherent(w, r.w);
    } else {
      ChangeKeeps(site, p.w, p.states, mode, Pass(site, mode), DriversOf(site, Pass(site, mode)));
      BoardKeepsCoherent(site.cat, p.states, p.w, mode);
      SameCoherent(Moded(site, w, mode).w, r.w);
    }
  }

  lemma SameCoherent(w: World, v: World)
    requires w.stored == v.stored && w.latched == v.latched
    ensures Coherent(w) <==> Coherent(v)
  {
    assert forall a :: w.Stored(a) == v.Stored(a) && w.Latched(a) == v.Latched(a);
  }

  /** Since the last power cycle, or else since a coherent start, no run died in the middle
      of its mode change. */
  ghost predicate Undamaged(site: Site, w: World, ops: seq<Op>) {
    if ops == [] then Coherent(w)
    else
      var init := ops[..|ops| - 1];
      match ops[|ops| - 1]
      case ApplyOp(env, procs, mode) =>
        Undamaged(site, w, init) && !DiedChanging(site, procs, AfterAll(site, w, init).(env := env), mode)
      case UninstallOp(_) => Undamaged(site, w, init)
      case RebootOp(_, power) => power || Undamaged(site, w, init)
  }

  lemma {:induction false} UndamagedIsCoherent(site: Site, w: World, ops: seq<Op>)
    requires UniquePci(site.inventory) && Undamaged(site, w, ops)
    ensures Coherent(AfterAll(site, w, ops))
  {
    if ops != [] {
      var init, op := ops[..|ops| - 1], ops[|ops| - 1];
      var v := AfterAll(site, w, init);
      hide Run, RunAll, DiedChanging, Coherent;
      match op {
        case ApplyOp(env, procs, mode) =>
          UndamagedIsCoherent(site, w, init);
          SameCoherent(v, v.(env := env));
          RunKeepsCoherent(site, procs, v.(env := env), mode);
        case UninstallOp(env) =>
          UndamagedIsCoherent(site, w, init);
          AfterModing(v.(env := env), UNPERSIST);
          SameCoherent(v, RunAll(v.(env := env), UNPERSIST).w);
        case RebootOp(native, power) =>
          if !power { UndamagedIsCoherent(site, w, init); }
          RebootedCoherent(site, v, native, power);
      }
    }
  }

  lemma RebootedCoherent(site: Site, w: World, native: Address -> Option<string>, power: bool)
    ensures power || Coherent(w) ==> Coherent(Rebooted(site, w, native, power))
  {
    var r := Rebooted(site, w, native, power);
    if power || Coherent(w) {
      forall a ensures r.Latched(a) == r.Stored(a) {
        assert !power ==> w.Latched(a) == w.Stored(a);
      }
    }
  }

  /** A run that succeeds leaves every participant behaving in the mode exactly if none was
      stale: reporting the mode already, left unreset by an earlier run that died. */
  lemma DoneBehavesIff(site: Site, procs: seq<ProcEntry>, w: World, mode: Mode)
    requires Sound(site) && Run(site, procs, w, mode).stage == Done
    ensures BehavesInMode(site, mode, Run(site, procs, w, mode).w)
            <==> forall d | d in Nvidia.Participants(site.cat, Scope(site)) :: !Transaction.Stale(w, d, mode)
  {
    var p := Prepared(site, w, mode);
    hide Run, RunAll, Nvidia.Board, Prepared, Scope, Nvidia.Participants, InMode, See;
    PastModing(site, procs, w, mode);
    PreparedKeeps(site, w, mode);
    PreparedStates(site, w, mode);
    Transaction.SuccessIsBehaviourUnlessStale(site.cat, p.states, p.w, mode);
    assert forall a :: p.w.Stored(a) == w.Stored(a) && p.w.Latched(a) == w.Latched(a);
  }

  /** After a history in which no run died in the middle of its mode change since the last
      power cycle, a run that succeeds leaves every device of the board reporting the mode
      and behaving in it. */
  lemma UndamagedSuccessBehaves(site: Site, mode: Mode, start: World, before: seq<Op>, env: Env, procs: seq<ProcEntry>)
    requires Sound(site) && Undamaged(site, start, before)
    requires Run(site, procs, AfterAll(site, start, before).(env := env), mode).stage == Done
    ensures var r := After(site, AfterAll(site, start, before), ApplyOp(env, procs, mode));
            Provisioned(site, mode, r) && BehavesInMode(site, mode, r)
  {
    var w := AfterAll(site, start, before).(env := env);
    UndamagedIsCoherent(site, start, before);
    SameCoherent(AfterAll(site, start, before), w);
    assert forall a :: w.Latched(a) == w.Stored(a);
    hide Run, Provisioned, BehavesInMode, Scope, Nvidia.Participants, InMode, See;
    DoneIsProvisioned(site, procs, w, mode);
    DoneBehavesIff(site, procs, w, mode);
  }
}
