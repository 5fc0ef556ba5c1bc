/** The boot files of a node whose runs may have died inside `persist`: each file from
    whatever run last wrote it. */
module Interrupted {
  import opened Text
  import opened Modes
  import opened Machine
  import opened Devices
  import opened Idle
  import opened BootConfig
  import opened Boot
  import opened RuleText
  import opened Udev
  import opened Provision
  import opened Resolution
  import opened Stages
  import opened History
  import Nvidia
  import Transaction

  // ---------------------------------------------------------------- one run

  /** Each file is the old or the new one. */
  ghost predicate MixOf(files: Files, before: Files, after: Files) {
    && (files.modulesLoad == before.modulesLoad || files.modulesLoad == after.modulesLoad)
    && (files.modprobe == before.modprobe || files.modprobe == after.modprobe)
    && (files.udev == before.udev || files.udev == after.udev)
  }

  /** A `persist` stopped anywhere leaves each file as it was or as compiled. */
  lemma PersistMixes(w: World, claims: seq<Claim>)
    ensures MixOf(RunAll(w, PersistEvents(claims)).w.files, w.files, Compiled(claims))
  {
    hide RunAll, PersistEvents, Compiled;
    PersistMakes(w, claims);
  }

  lemma ChangeMixes(site: Site, w: World, states: seq<DeviceState>, mode: Mode,
                    pass: seq<DeviceState>, drivers: map<Address, VfioDriver>)
    requires Covers(drivers, pass)
    ensures MixOf(Change(site, w, states, mode, pass, drivers).w.files, w.files,
                  Compiled(Claims(pass, drivers)))
  {
    hide RunAll, PersistEvents, Compiled, Claims, Nvidia.Board, BindScript, ReleaseScript, CheckScript;
    var r1 := RunAll(w, Nvidia.Board(site.cat, states, w, mode));
    Transaction.BoardKeepsHost(site.cat, states, w, mode);
    PersistMixes(r1.w, Claims(pass, drivers));
    ChangeKeeps(site, w, states, mode, pass, drivers);
  }

  /** A run for the mode can get as far as persisting. */
  ghost predicate Persistable(site: Site, mode: Mode) {
    forall s | s in Pass(site, mode) :: Resolvable(site, s)
  }

  lemma RunMixes(site: Site, procs: seq<ProcEntry>, w: World, mode: Mode)
    ensures var files := Run(site, procs, w, mode).w.files;
            files == w.files || (Persistable(site, mode) && MixOf(files, w.files, BootFiles(site, mode)))
  {
    hide Run, Change, Prepared, Pass, Scope, Capable, HostOk, AllIdle, Resolvable, DriversOf, Compiled, Claims, RunAll;
    RunShape(site, procs, w, mode);
    ResolveKeeps(site, w, mode);
    PreparedKeeps(site, w, mode);
    var p, pass := Prepared(site, w, mode), Pass(site, mode);
    ChangeMixes(site, p.w, p.states, mode, pass, DriversOf(site, pass));
  }

  // ---------------------------------------------------------------- a history of runs

  /** Each file is absent or one that a run for some mode wrote, not necessarily all for the
      same mode. */
  ghost predicate FromRuns(site: Site, files: Files) {
    && (files.modulesLoad == None
        || exists m :: Persistable(site, m) && files.modulesLoad == BootFiles(site, m).modulesLoad)
    && (files.modprobe == None
        || exists m :: Persistable(site, m) && files.modprobe == BootFiles(site, m).modprobe)
    && (files.udev == None
        || exists m :: Persistable(site, m) && files.udev == BootFiles(site, m).udev)
  }

  lemma MixFromRuns(site: Site, files: Files, before: Files, after: Files)
    requires FromRuns(site, before) && FromRuns(site, after) && MixOf(files, before, after)
    ensures FromRuns(site, files)
  {
    hide Persistable, BootFiles;
  }

  lemma ModeFromRuns(site: Site, mode: Mode)
    requires Persistable(site, mode)
    ensures FromRuns(site, BootFiles(site, mode))
  {
    hide Persistable, BootFiles;
  }

  lemma UnpersistMixes(w: World)
    ensures MixOf(RunAll(w, UNPERSIST).w.files, w.files, NO_FILES)
  {
    hide RunAll, UNPERSIST;
    UnpersistRemoves(w);
  }

  /** Whatever runs, uninstalls and reboots a node goes through, and wherever each stops, its
      files are ones that runs wrote. */
  lemma {:induction false} HistoryFromRuns(site: Site, w: World, ops: seq<Op>)
    requires FromRuns(site, w.files)
    ensures FromRuns(site, AfterAll(site, w, ops).files)
  {
    if ops != [] {
      var init, op := ops[..|ops| - 1], ops[|ops| - 1];
      HistoryFromRuns(site, w, init);
      var v := AfterAll(site, w, init);
      hide Run, RunAll, FromRuns, Persistable, BootFiles, MixOf, BootedDrivers;
      match op {
        case ApplyOp(env, procs, mode) =>
          RunMixes(site, procs, v.(env := env), mode);
          var files := Run(site, procs, v.(env := env), mode).w.files;
          if files != v.files {
            ModeFromRuns(site, mode);
            MixFromRuns(site, files, v.files, BootFiles(site, mode));
          }
        case UninstallOp(env) =>
          UnpersistMixes(v.(env := env));
          NoFilesFromRuns(site);
          MixFromRuns(site, RunAll(v.(env := env), UNPERSIST).w.files, v.files, NO_FILES);
        case RebootOp(native, power) =>
      }
    }
  }

  lemma NoFilesFromRuns(site: Site)
    ensures FromRuns(site, NO_FILES)
  {
    hide BootFiles, Persistable;
  }

  // ---------------------------------------------------------------- booting the remains

  /** Devices of the scope with equal ids have the same target, if one of them can be
      passed through at all: a switch that stays behind included. */
  lemma SharedTarget(site: Site, mode: Mode, s: DeviceState, t: DeviceState)
    requires Persistable(site, mode) && s in Scope(site) && t in Pass(site, mode)
    requires s.vendor == t.vendor && s.deviceId == t.deviceId
    ensures Target(site, s) == Target(site, t)
  {
    PassExact(Scope(site), mode);
    assert Resolvable(site, t);
    if s in Pass(site, mode) {
      assert Resolvable(site, s);
      ModuleFollowsIds(site, s, t);
    } else {
      assert s.IsSwitch() && Nvidia.GenericVfioSupported(site.cat, s);
    }
  }

  /** An id on the `ids=` line is that of a device that vfio-pci is the target of. */
  lemma LineHasOwner(site: Site, files: Files, id: Id) returns (m: Mode, t: DeviceState)
    requires Sound(site) && FromRuns(site, files) && ClaimedById(files, id)
    ensures Persistable(site, m) && t in Pass(site, m) && Id(t.vendor, t.deviceId) == id
    ensures Target(site, t).driver == VFIO_PCI_DRIVER
  {
    hide Pass, Scope, Target, Resolvable, Compiled;
    m :| Persistable(site, m) && files.modprobe == BootFiles(site, m).modprobe;
    assert ClaimedById(BootFiles(site, m), id);
    ClaimsExact(site, m);
    ClaimsResolved(site, m);
    OptionsRead(ClaimsOf(site, m), id);
    var c :| c in ClaimsOf(site, m) && !NeedsDriverOverride(c.modl) && IdOf(c) == id;
    t :| t in Pass(site, m) && c == ClaimOf(site, t);
  }

  /** And an override is the target of a device with the ids of its rule. */
  lemma RuleHasOwner(site: Site, files: Files, id: Id) returns (m: Mode, t: DeviceState)
    requires Sound(site) && FromRuns(site, files) && UdevDoes(files, id).driverOverride.Some?
    ensures Persistable(site, m) && t in Pass(site, m) && Id(t.vendor, t.deviceId) == id
    ensures UdevDoes(files, id).driverOverride == Some(Target(site, t).driver)
  {
    NoUdevFile(files, id);
    hide Pass, Scope, Target, Resolvable, Compiled, Applied;
    assert files.udev != None;
    m :| Persistable(site, m) && files.udev == BootFiles(site, m).udev;
    ClaimsExact(site, m);
    ClaimsResolved(site, m);
    UdevForClaims(site.kernel, ClaimsOf(site, m), id);
    assert UdevDoes(files, id) == UdevDoes(BootFiles(site, m), id);
    var c :| c in ClaimsOf(site, m) && IdOf(c) == id;
    t :| t in Pass(site, m) && c == ClaimOf(site, t);
  }

  /** Booting files that runs wrote leaves a device to whatever takes it first, or else puts
      it on the target of a device that has its ids and may be passed through. */
  lemma BootsOntoTarget(site: Site, files: Files, native: Option<string>, id: Id)
    requires Sound(site) && FromRuns(site, files)
    ensures var d := DriverAtBoot(site.kernel, files, native, id);
            || d == native
            || (native == None
                && exists m, t | Persistable(site, m) && t in Pass(site, m) ::
                     Id(t.vendor, t.deviceId) == id && d == Some(Target(site, t).driver))
  {
    hide FromRuns, LoadedAtBoot, ClaimedById, Target, Pass, Sound, UdevDoes, Persistable;
    if ClaimedById(files, id) { var m, t := LineHasOwner(site, files, id); }
    if UdevDoes(files, id).driverOverride.Some? { var m, t := RuleHasOwner(site, files, id); }
  }

  /** Start a node without boot files and let anything happen to it, runs for any modes that
      die inside `persist` included. Whatever mix of files that leaves, a device of the scope
      boots onto whatever takes it first, or else onto its own target or nothing, and a
      device that shares its ids with none of the scope is left alone. */
  lemma AnyHistoryBootsOwn(site: Site, w: World, ops: seq<Op>, native: Option<string>, id: Id)
    requires Sound(site) && w.files == NO_FILES
    ensures var d := DriverAtBoot(site.kernel, AfterAll(site, w, ops).files, native, id);
            && (forall s | s in Scope(site) && Id(s.vendor, s.deviceId) == id ::
                  d == native || (native == None && d == Some(Target(site, s).driver)))
            && ((forall s | s in Scope(site) :: Id(s.vendor, s.deviceId) != id) ==> d == native)
  {
    hide AfterAll, FromRuns, DriverAtBoot, Target, Pass, Scope, Sound, Persistable;
    NoFilesFromRuns(site);
    HistoryFromRuns(site, w, ops);
    var d := DriverAtBoot(site.kernel, AfterAll(site, w, ops).files, native, id);
    BootsOntoTarget(site, AfterAll(site, w, ops).files, native, id);
    if d != native {
      var m, t :| Persistable(site, m) && t in Pass(site, m)
                  && Id(t.vendor, t.deviceId) == id && d == Some(Target(site, t).driver);
      PassIsOfScope(site, m, t);
      forall s | s in Scope(site) && Id(s.vendor, s.deviceId) == id ensures d == Some(Target(site, s).driver) {
        SharedTarget(site, m, s, t);
      }
    }
  }

  lemma PassIsOfScope(site: Site, mode: Mode, s: DeviceState)
    requires s in Pass(site, mode)
    ensures s in Scope(site)
  {
    PassExact(Scope(site), mode);
  }

  /** Nor does any such history put a coherently attached GPU on the `ids=` line. */
  lemma CoherentNeverOnLine(site: Site, w: World, ops: seq<Op>, id: Id)
    requires Sound(site) && w.files == NO_FILES && site.cat.isC2c(id.device)
    ensures !ClaimedById(AfterAll(site, w, ops).files, id)
  {
    hide AfterAll, BootFiles, Pass, Resolvable, Sound;
    NoFilesFromRuns(site);
    HistoryFromRuns(site, w, ops);
    var files := AfterAll(site, w, ops).files;
    if ClaimedById(files, id) {
      var m :| Persistable(site, m) && files.modprobe == BootFiles(site, m).modprobe;
      assert ClaimedById(BootFiles(site, m), id);
      CoherentNeverOnPlainVfio(site, m, id);
    }
  }
}
