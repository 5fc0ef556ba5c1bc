/** What a run guarantees, wherever it starts and wherever it stops. */
module Guarantees {
  import opened Text
  import opened Modes
  import opened Knobs
  import opened Machine
  import opened Devices
  import opened Idle
  import opened BootConfig
  import opened Boot
  import opened RuleText
  import opened Provision
  import opened Resolution
  import opened Stages
  import Nvidia
  import Transaction

  // ---------------------------------------------------------------- refused whole

  /** "Refuse whole, not half": a run that ends in an error at or before the idle check
      has disturbed no device and leaves every knob, mode, binding and file as it was.
      Only modules may have been loaded. */
  lemma RefusedWhole(site: Site, procs: seq<ProcEntry>, w: World, mode: Mode)
    requires Run(site, procs, w, mode).stage in {Refusing, Resolving, Idling}
    ensures var r := Run(site, procs, w, mode);
            SameNode(w, r.w) && w.loaded <= r.w.loaded && NewSteps(w, r.w, s => Undisturbing(s))
  {
    hide Run, RunAll, Prepared;
    RunShape(site, procs, w, mode);
    ResolveKeeps(site, w, mode);
    PreparedKeeps(site, w, mode);
  }

  // ---------------------------------------------------------------- done

  /** Every device that takes a mode reports the mode's targets. */
  ghost predicate ReportsMode(site: Site, mode: Mode, w: World) {
    forall d | d in Nvidia.Participants(site.cat, Scope(site)) :: InMode(See(d.kind, w.Stored(d.a)), mode)
  }

  /** And behaves by them. */
  ghost predicate BehavesInMode(site: Site, mode: Mode, w: World) {
    forall d | d in Nvidia.Participants(site.cat, Scope(site)) :: InMode(See(d.kind, w.Latched(d.a)), mode)
  }

  /** Every passthrough device is on its driver, and no other device of the scope on a
      vfio driver. */
  ghost predicate BoundForMode(site: Site, mode: Mode, w: World) {
    && (forall s | s in Pass(site, mode) :: w.Driver(s.address) == Some(Target(site, s).driver))
    && (forall s | s in Scope(site) && s !in Pass(site, mode) :: !IsVfio(w.Driver(s.address)))
  }

  /** The node is in the mode and configured to come back in it. All of it follows from
      the devices, the kernel and the mode. */
  ghost predicate Provisioned(site: Site, mode: Mode, w: World) {
    ReportsMode(site, mode, w) && BoundForMode(site, mode, w) && w.files == BootFiles(site, mode)
  }

  lemma ProvisionedDepends(site: Site, mode: Mode, w: World, v: World)
    requires w.stored == v.stored && w.drivers == v.drivers && w.files == v.files
    ensures Provisioned(site, mode, w) <==> Provisioned(site, mode, v)
  {
    hide Pass, Scope, Target, BootFiles, IsVfio, InMode, See, Nvidia.Participants;
  }

  /** Past the mode change, the board reports the mode. */
  lemma PastModing(site: Site, procs: seq<ProcEntry>, w: World, mode: Mode)
    requires UniquePci(site.inventory)
    requires Run(site, procs, w, mode).stage in {Persisting, Binding, Releasing, Checking, Done}
    ensures var r := Run(site, procs, w, mode).w;
            Moded(site, w, mode).ok && ReportsMode(site, mode, r)
            && r.stored == Moded(site, w, mode).w.stored && r.latched == Moded(site, w, mode).w.latched
  {
    hide Run, Change, RunAll, Nvidia.Board, Prepared;
    RunShape(site, procs, w, mode);
    var p, pass := Prepared(site, w, mode), Pass(site, mode);
    ChangeKeeps(site, p.w, p.states, mode, pass, DriversOf(site, pass));
    PreparedStates(site, w, mode);
    Transaction.SuccessIsReported(site.cat, p.states, p.w, mode);
  }

  /** The files a run leaves once it has persisted. */
  lemma PastPersisting(site: Site, procs: seq<ProcEntry>, w: World, mode: Mode)
    requires Run(site, procs, w, mode).stage in {Binding, Releasing, Checking, Done}
    ensures Run(site, procs, w, mode).w.files == BootFiles(site, mode)
    ensures forall s | s in Pass(site, mode) :: Resolvable(site, s)
  {
    hide Run, Change, RunAll, Nvidia.Board, Prepared, Compiled, Claims;
    RunShape(site, procs, w, mode);
    var p, pass := Prepared(site, w, mode), Pass(site, mode);
    ChangeKeeps(site, p.w, p.states, mode, pass, DriversOf(site, pass));
  }

  lemma DoneIsBound(site: Site, procs: seq<ProcEntry>, w: World, mode: Mode)
    requires Sound(site) && Run(site, procs, w, mode).stage == Done
    ensures BoundForMode(site, mode, Run(site, procs, w, mode).w)
  {
    hide Run, Change, RunAll, Nvidia.Board, Prepared, IsVfio, Target, Kept, Pass, Scope, Capable, HostOk, AllIdle;
    RunShape(site, procs, w, mode);
    var p, pass, drivers := Prepared(site, w, mode), Pass(site, mode), DriversOf(site, Pass(site, mode));
    ChangeBinds(site, p.w, p.states, mode, pass, drivers);
    KeptIsPass(site, mode);
    DriversAt(site, pass);
    PreparedStates(site, w, mode);
    var r := Run(site, procs, w, mode).w;
    forall s | s in Scope(site) && s !in pass ensures !IsVfio(r.Driver(s.address)) {
      var i :| 0 <= i < |Scope(site)| && Scope(site)[i] == s;
      assert ProbedFrom(site, w, mode, s, p.states[i]) && p.states[i] in p.states;
    }
  }

  /** A run that succeeds, from whatever state the node was in and with whatever writes
      the firmware dropped, leaves the node provisioned. */
  lemma DoneIsProvisioned(site: Site, procs: seq<ProcEntry>, w: World, mode: Mode)
    requires Sound(site) && Run(site, procs, w, mode).stage == Done
    ensures Provisioned(site, mode, Run(site, procs, w, mode).w)
  {
    hide Run, ReportsMode, BoundForMode, BootFiles;
    PastModing(site, procs, w, mode);
    DoneIsBound(site, procs, w, mode);
    PastPersisting(site, procs, w, mode);
  }

  /** The same boot files, reported modes and passthrough drivers, and no vfio driver
      elsewhere in the scope. */
  ghost predicate AlikeFor(site: Site, mode: Mode, w1: World, w2: World) {
    && w1.files == w2.files
    && (forall d | d in Nvidia.Participants(site.cat, Scope(site)) ::
          See(d.kind, w1.Stored(d.a)) == See(d.kind, w2.Stored(d.a)))
    && (forall s | s in Pass(site, mode) :: w1.Driver(s.address) == w2.Driver(s.address))
    && (forall s | s in Scope(site) && s !in Pass(site, mode) ::
          !IsVfio(w1.Driver(s.address)) && !IsVfio(w2.Driver(s.address)))
  }

  lemma ModeDeterminesSeen(kind: Kind, mode: Mode, r: Regs, q: Regs)
    requires InMode(See(kind, r), mode) && InMode(See(kind, q), mode)
    ensures See(kind, r) == See(kind, q)
  {
  }

  lemma ProvisionedAlike(site: Site, mode: Mode, w1: World, w2: World)
    requires Provisioned(site, mode, w1) && Provisioned(site, mode, w2)
    ensures AlikeFor(site, mode, w1, w2)
  {
    hide IsVfio, Target, BootFiles, Scope, Pass, Nvidia.Participants, InMode, See;
    forall d | d in Nvidia.Participants(site.cat, Scope(site))
      ensures See(d.kind, w1.Stored(d.a)) == See(d.kind, w2.Stored(d.a))
    {
      ModeDeterminesSeen(d.kind, mode, w1.Stored(d.a), w2.Stored(d.a));
    }
  }

  /** Two runs for the same mode that succeed leave nodes alike, whatever came before
      them: nothing an earlier run, an uninstall or a reboot left behind shows through. */
  lemma HistoryIndependent(site: Site, mode: Mode, procs1: seq<ProcEntry>, w1: World, procs2: seq<ProcEntry>, w2: World)
    requires Sound(site)
    requires Run(site, procs1, w1, mode).stage == Done && Run(site, procs2, w2, mode).stage == Done
    ensures AlikeFor(site, mode, Run(site, procs1, w1, mode).w, Run(site, procs2, w2, mode).w)
  {
    hide Run, Provisioned, AlikeFor;
    DoneIsProvisioned(site, procs1, w1, mode);
    DoneIsProvisioned(site, procs2, w2, mode);
    ProvisionedAlike(site, mode, Run(site, procs1, w1, mode).w, Run(site, procs2, w2, mode).w);
  }

  // ---------------------------------------------------------------- stopped after persisting

  /** "A crash leaves a node that comes back bound": booting the files of a mode puts a
      passthrough device on its driver exactly if no other driver takes it first, and a
      device that shares its ids with none is left to whatever would have taken it. */
  lemma BootsIntoMode(site: Site, mode: Mode, native: Option<string>, id: Id)
    requires Sound(site) && forall s | s in Pass(site, mode) :: Resolvable(site, s)
    ensures forall s | s in Pass(site, mode) && Id(s.vendor, s.deviceId) == id ::
              DriverAtBoot(site.kernel, BootFiles(site, mode), native, id) == Some(Target(site, s).driver)
              <==> native == None || native == Some(Target(site, s).driver)
    ensures (forall s | s in Pass(site, mode) :: Id(s.vendor, s.deviceId) != id) ==>
              DriverAtBoot(site.kernel, BootFiles(site, mode), native, id) == native
  {
    hide DriverAtBoot, Compiled, Target, Resolvable, Pass;
    ClaimsResolved(site, mode);
    ClaimsExact(site, mode);
    BootAgrees(site.kernel, ClaimsOf(site, mode), native, id);
    forall s | s in Pass(site, mode) ensures ClaimOf(site, s) in ClaimsOf(site, mode) { }
  }

  /** What boot does after a run stopped anywhere past persisting is what a run that
      succeeds does live: every passthrough device comes up on the driver it would be
      bound to. */
  lemma BootAgreesWithBind(site: Site, mode: Mode, procs1: seq<ProcEntry>, stopped: World, procs2: seq<ProcEntry>,
                           live: World)
    requires Sound(site)
    requires Run(site, procs1, stopped, mode).stage in {Binding, Releasing, Checking, Done}
    requires Run(site, procs2, live, mode).stage == Done
    ensures forall s | s in Pass(site, mode) ::
              DriverAtBoot(site.kernel, Run(site, procs1, stopped, mode).w.files, None,
                           Id(s.vendor, s.deviceId))
              == Run(site, procs2, live, mode).w.Driver(s.address)
  {
    PastPersisting(site, procs1, stopped, mode);
    DoneIsProvisioned(site, procs2, live, mode);
    hide Run, DriverAtBoot, BootFiles, Target;
    forall s | s in Pass(site, mode)
      ensures DriverAtBoot(site.kernel, BootFiles(site, mode), None, Id(s.vendor, s.deviceId))
              == Some(Target(site, s).driver)
    {
      BootsIntoMode(site, mode, None, Id(s.vendor, s.deviceId));
    }
  }

  /** In the files of a run that persisted, each passthrough device is carried by exactly
      one of the `ids=` line and a udev rule, the line if its module is vfio_pci. A
      coherently attached GPU is never on the `ids=` line. */
  lemma CarriersOfRun(site: Site, procs: seq<ProcEntry>, w: World, mode: Mode, id: Id)
    requires Sound(site) && Run(site, procs, w, mode).stage in {Binding, Releasing, Checking, Done}
    ensures var files := Run(site, procs, w, mode).w.files;
            && (forall s | s in Pass(site, mode) && Id(s.vendor, s.deviceId) == id ::
                  && (ClaimedById(files, id) <==> Normalize(Target(site, s).modl) == "vfio_pci")
                  && (UdevDoes(files, id).driverOverride.Some? <==> Normalize(Target(site, s).modl) != "vfio_pci"))
            && (site.cat.isC2c(id.device) ==> !ClaimedById(files, id))
  {
    hide Run, ClaimedById, UdevDoes, Pass, Target, Resolvable;
    PastPersisting(site, procs, w, mode);
    ClaimsResolved(site, mode);
    ClaimsExact(site, mode);
    var claims := ClaimsOf(site, mode);
    OneCarrier(site.kernel, claims);
    forall s | s in Pass(site, mode)
      ensures ClaimOf(site, s) in claims && IdOf(ClaimOf(site, s)) == Id(s.vendor, s.deviceId)
    {
    }
    if site.cat.isC2c(id.device) { CoherentNeverOnPlainVfio(site, mode, id); }
  }

  // ---------------------------------------------------------------- whole nodes

  /** After a successful run in a raised mode, every GPU of the scope took part and
      reports the mode: "either every GPU reaches the requested mode, or the node is
      labelled failed". */
  lemma NoGpuLeftBehind(site: Site, procs: seq<ProcEntry>, w: World, mode: Mode)
    requires Sound(site) && mode.CcReady() && Run(site, procs, w, mode).stage == Done
    ensures forall s | s in Scope(site) && s.IsGpu() ::
              && Opens(site.cat, s).Some?
              && InMode(See(Opens(site.cat, s).value, Run(site, procs, w, mode).w.Stored(s.address)), mode)
              && (mode == Ppcie ==> Run(site, procs, w, mode).w.Stored(s.address) == Regs(CcOff, PpcieOn))
  {
    hide Run, Prepared, Change, Opens, Scope, Pass, Capable, Nvidia.Participants, InMode, See, Resolvable, HostOk,
         AllIdle;
    PastModing(site, procs, w, mode);
    RunShape(site, procs, w, mode);
    AcceptedNodeIsWhole(site, mode);
    Transaction.ParticipantsExact(site.cat, Scope(site));
    var r := Run(site, procs, w, mode).w;
    forall s | s in Scope(site) && s.IsGpu()
      ensures InMode(See(Opens(site.cat, s).value, r.Stored(s.address)), mode)
      ensures mode == Ppcie ==> r.Stored(s.address) == Regs(CcOff, PpcieOn)
    {
      assert Nvidia.Opened(s.address, Opens(site.cat, s).value) in Nvidia.Participants(site.cat, Scope(site));
      PpcieRegs(r.Stored(s.address));
    }
  }

  lemma PpcieRegs(r: Regs)
    ensures InMode(See(Gpu(true), r), Ppcie) ==> r == Regs(CcOff, PpcieOn)
  {
  }

  // ---------------------------------------------------------------- labels

  /** Labels tell the truth. Probing a provisioned node gives every GPU it can read the
      labels of the node's mode, a GPU that takes no mode none, and one it records as
      unreadable none either: a failed probe never claims readiness. */
  lemma LabelsTellTheMode(site: Site, mode: Mode, w: World)
    requires ReportsMode(site, mode, w) && Capable(site.cat, Scope(site), mode)
    ensures var p := Nvidia.ProbeAll(site.cat, w, Scope(site));
            |p.states| == |Scope(site)| && forall i | 0 <= i < |Scope(site)| && Scope(site)[i].IsGpu() ::
              p.states[i].CcLabelValues() ==
                if Opens(site.cat, Scope(site)[i]).Some? && p.states[i].seen != Seen(None, None)
                then Labels(mode.Print(), mode.CcReady()) else []
    ensures var p := Nvidia.ProbeAll(site.cat, w, Scope(site));
            forall i | 0 <= i < |Scope(site)| && Scope(site)[i].address !in p.unreadable ::
              (p.states[i].seen != Seen(None, None) <==> Opens(site.cat, Scope(site)[i]).Some?)
    ensures forall s | s in Scope(site) && s.IsGpu() && mode.CcReady() :: Opens(site.cat, s).Some?
    ensures UniquePci(site.inventory) ==>
      var p := Nvidia.ProbeAll(site.cat, w, Scope(site));
      |p.states| == |Scope(site)| && forall i | 0 <= i < |Scope(site)| && Scope(site)[i].IsGpu() ::
        p.states[i].CcLabelValues() ==
          if Opens(site.cat, Scope(site)[i]).Some? && Scope(site)[i].address !in p.unreadable
          then Labels(mode.Print(), mode.CcReady()) else []
  {
    hide Nvidia.ProbeAll, Opens, InMode, Capable, Labels, Nvidia.Participants, InScope;
    var p, scope := Nvidia.ProbeAll(site.cat, w, Scope(site)), Scope(site);
    Nvidia.ProbeReads(site.cat, w, scope);
    InScopeFresh(site.cat, site.inventory);
    Transaction.ParticipantsExact(site.cat, scope);
    if mode.CcReady() { AcceptedNodeIsWhole(site, mode); }
    forall i | 0 <= i < |scope| && scope[i].IsGpu()
      ensures p.states[i].CcLabelValues() ==
                if Opens(site.cat, scope[i]).Some? && p.states[i].seen != Seen(None, None)
                then Labels(mode.Print(), mode.CcReady()) else []
    {
      var s := scope[i];
      assert s in scope && Fresh(site.cat, s);
      if Opens(site.cat, s).Some? {
        assert Nvidia.Opened(s.address, Opens(site.cat, s).value) in Nvidia.Participants(site.cat, scope);
      }
      LabelsOfOne(site, mode, w, s, p.states[i]);
    }
    if UniquePci(site.inventory) {
      InScopeUnique(site.cat, site.inventory);
      forall i | 0 <= i < |scope|
        ensures p.states[i].seen != Seen(None, None)
                <==> Opens(site.cat, scope[i]).Some? && scope[i].address !in p.unreadable
      {
        assert Nvidia.ReadOrRecorded(site.cat, w, scope[i], p.states[i], p.unreadable);
        assert scope[i] in scope && Fresh(site.cat, scope[i]);
      }
    }
  }

  /** The labels published after a successful run: those of the mode it ran for on a GPU that
      takes one and could be read, and none on any other. */
  lemma LabelsAfterRun(site: Site, procs: seq<ProcEntry>, w: World, mode: Mode, i: nat)
    requires Sound(site) && Run(site, procs, w, mode).stage == Done
    requires i < |Scope(site)| && Scope(site)[i].IsGpu()
    ensures var p := Nvidia.ProbeAll(site.cat, Run(site, procs, w, mode).w, Scope(site));
            && |p.states| == |Scope(site)| && p.states[i].address == Scope(site)[i].address
            && p.states[i].CcLabelValues()
               == if Opens(site.cat, Scope(site)[i]).Some? && p.states[i].address !in p.unreadable
                  then Labels(mode.Print(), mode.CcReady()) else []
  {
    hide Run, Opens, Nvidia.ProbeAll, Labels, ReportsMode, Scope, Capable, HostOk, AllIdle, Pass, Prepared, Change;
    PastModing(site, procs, w, mode);
    RunShape(site, procs, w, mode);
    var r := Run(site, procs, w, mode).w;
    LabelsTellTheMode(site, mode, r);
    Nvidia.ProbeReads(site.cat, r, Scope(site));
  }

  lemma LabelsOfOne(site: Site, mode: Mode, w: World, s: DeviceState, t: DeviceState)
    requires Fresh(site.cat, s) && s.IsGpu() && t == s.(seen := t.seen)
    requires match Opens(site.cat, s)
             case None => !mode.CcReady() && t.seen == Seen(None, None)
             case Some(kind) =>
               && InMode(See(kind, w.Stored(s.address)), mode)
               && (t.seen == See(kind, w.Stored(s.address)) || t.seen == Seen(None, None))
               && (mode == Ppcie ==> kind == Gpu(true))
    ensures t.CcLabelValues() ==
              if Opens(site.cat, s).Some? && t.seen != Seen(None, None)
              then Labels(mode.Print(), mode.CcReady()) else []
  {
  }
}
