/** What the board-wide mode change guarantees, on every run and at every stop. */
module Transaction {
  import opened Text
  import opened Modes
  import opened Knobs
  import opened Machine
  import opened Devices
  import opened Nvidia

  ghost predicate Unique(devices: seq<Opened>) {
    forall i, j | 0 <= i < j < |devices| :: devices[i].a != devices[j].a
  }

  lemma {:induction false} ParticipantsAre(cat: Catalog, states: seq<DeviceState>)
    ensures forall d :: d in Participants(cat, states)
                        <==> exists s | s in states :: d.a == s.address && Opens(cat, s) == Some(d.kind)
  {
    hide Opens;
    if states != [] {
      var init, s := states[..|states| - 1], states[|states| - 1];
      ParticipantsAre(cat, init);
      assert states == init + [s];
    }
  }

  lemma {:induction false} ParticipantsUnique(cat: Catalog, states: seq<DeviceState>)
    requires UniqueAddresses(states)
    ensures Unique(Participants(cat, states))
  {
    hide Opens;
    if states != [] {
      var init, s := states[..|states| - 1], states[|states| - 1];
      assert forall i, j | 0 <= i < j < |init| :: init[i] == states[i] && init[j] == states[j];
      ParticipantsUnique(cat, init);
      ParticipantsAre(cat, init);
      var before := Participants(cat, init);
      forall i | 0 <= i < |before| ensures before[i].a != s.address {
        assert before[i] in before;
        var t :| t in init && before[i].a == t.address;
        var j :| 0 <= j < |init| && init[j] == t;
        assert states[j] == t;
      }
    }
  }

  lemma ParticipantsExact(cat: Catalog, states: seq<DeviceState>)
    ensures forall d :: d in Participants(cat, states)
                        <==> exists s | s in states :: d.a == s.address && Opens(cat, s) == Some(d.kind)
    ensures UniqueAddresses(states) ==> Unique(Participants(cat, states))
  {
    ParticipantsAre(cat, states);
    if UniqueAddresses(states) { ParticipantsUnique(cat, states); }
  }

  lemma {:induction false} PendingAre(w: World, devices: seq<Opened>, mode: Mode)
    ensures forall p :: p in PendingOf(w, devices, mode) <==>
              p.writes != [] && exists d | d in devices :: p == Pending(d.a, d.kind, Plan(w, d, mode))
  {
    hide Plan;
    if devices != [] {
      var init, d := devices[..|devices| - 1], devices[|devices| - 1];
      PendingAre(w, init, mode);
      assert devices == init + [d];
    }
  }

  ghost predicate Distinct(pending: seq<Pending>) {
    forall i, j | 0 <= i < j < |pending| :: pending[i].a != pending[j].a
  }

  lemma {:induction false} PendingUnique(w: World, devices: seq<Opened>, mode: Mode)
    requires Unique(devices)
    ensures Distinct(PendingOf(w, devices, mode))
  {
    hide Plan;
    if devices != [] {
      var init, d := devices[..|devices| - 1], devices[|devices| - 1];
      assert forall i, j | 0 <= i < j < |init| :: init[i] == devices[i] && init[j] == devices[j];
      PendingUnique(w, init, mode);
      PendingAre(w, init, mode);
      var before := PendingOf(w, init, mode);
      forall i | 0 <= i < |before| ensures before[i].a != d.a {
        assert before[i] in before;
        var e :| e in init && before[i].a == e.a;
        var j :| 0 <= j < |init| && init[j] == e;
        assert devices[j] == e;
      }
    }
  }

  lemma PendingExact(w: World, devices: seq<Opened>, mode: Mode)
    ensures forall p :: p in PendingOf(w, devices, mode) <==>
              p.writes != [] && exists d | d in devices :: p == Pending(d.a, d.kind, Plan(w, d, mode))
    ensures Unique(devices) ==> Distinct(PendingOf(w, devices, mode))
  {
    PendingAre(w, devices, mode);
    if Unique(devices) { PendingUnique(w, devices, mode); }
  }

  lemma {:induction false} WriteEventsAre(pending: seq<Pending>)
    ensures forall e | e in WriteEvents(pending) ::
              e.Set? && exists p | p in pending :: e.a == p.a && e.kind == p.kind && e.write in p.writes
  {
    if pending != [] {
      WriteEventsAre(pending[..|pending| - 1]);
    }
  }

  /** The kinds of event in each part of the script. */
  lemma PartsAre(w: World, devices: seq<Opened>, mode: Mode)
    ensures forall e | e in Preparation(devices) :: e.Open? || e.Read?
    ensures forall e | e in UpToResets(w, devices, mode) :: e.Open? || e.Read? || e.Set?
    ensures forall e | e in UpToVerify(w, devices, mode) :: e.Open? || e.Read? || e.Set? || e.Reset?
    ensures forall e | e in VerifyEvents(devices, mode) :: e.Verify?
  {
    WriteEventsAre(PendingOf(w, devices, mode));
  }

  /** The mode change in two phases. Every run attempts a prefix of one script, planned
      from where it started: opens, reads, writes, resets, verifications. One that ends
      before the first write has changed no knob, one that ends before the first reset
      has changed no behaviour, and none touches a driver or a file. */
  lemma TwoPhase(cat: Catalog, states: seq<DeviceState>, w: World, mode: Mode)
    ensures var devices, script := Participants(cat, states), Board(cat, states, w, mode);
            var r := RunAll(w, script);
            var n := |r.w.trace| - |w.trace|;
            && 0 <= n <= |script|
            && (forall i | 0 <= i < n :: r.w.trace[|w.trace| + i].e == script[i])
            && (r.ok ==> n == |script|)
            && (n <= |Preparation(devices)| ==> r.w.stored == w.stored)
            && (n <= |UpToResets(w, devices, mode)| ==> r.w.latched == w.latched)
            && r.w.drivers == w.drivers && r.w.files == w.files
  {
    var devices, script := Participants(cat, states), Board(cat, states, w, mode);
    RunTrace(w, script);
    PartsAre(w, devices, mode);
    PrefixChanges(w, script, Preparation(devices), UpToResets(w, devices, mode));
    BoardKeepsHost(cat, states, w, mode);
  }

  /** Whatever a mode change writes or resets, and however far it gets, it has opened and read
      every device of the board before. */
  lemma OpenedAndReadFirst(cat: Catalog, states: seq<DeviceState>, w: World, mode: Mode, i: nat, d: Opened)
    requires var r := RunAll(w, Board(cat, states, w, mode));
             |w.trace| <= i < |r.w.trace| && (r.w.trace[i].e.Set? || r.w.trace[i].e.Reset?)
    requires d in Participants(cat, states)
    ensures var trace := RunAll(w, Board(cat, states, w, mode)).w.trace;
            && (exists j | |w.trace| <= j < i :: trace[j].e == Open(d.a))
            && exists j | |w.trace| <= j < i :: trace[j].e == Read(d.a)
  {
    var script := Board(cat, states, w, mode);
    hide RunAll, Board, Participants;
    RunTrace(w, script);
    var trace := RunAll(w, script).w.trace;
    assert trace[i].e == script[i - |w.trace|];
    var first, read := PreparedBefore(cat, states, w, mode, i - |w.trace|, d);
    assert trace[|w.trace| + first].e == Open(d.a) && trace[|w.trace| + read].e == Read(d.a);
  }

  lemma PreparedBefore(cat: Catalog, states: seq<DeviceState>, w: World, mode: Mode, n: nat, d: Opened)
    returns (first: nat, read: nat)
    requires n < |Board(cat, states, w, mode)| && d in Participants(cat, states)
    requires var e := Board(cat, states, w, mode)[n]; e.Set? || e.Reset?
    ensures first < read < n
    ensures Board(cat, states, w, mode)[first] == Open(d.a) && Board(cat, states, w, mode)[read] == Read(d.a)
  {
    var devices, script := Participants(cat, states), Board(cat, states, w, mode);
    var pending := PendingOf(w, devices, mode);
    first :| 0 <= first < |devices| && devices[first] == d;
    read := |devices| + first;
    BoardLaid(cat, states, w, mode);
    hide Board, Participants, PendingOf, Laid;
    PreparationLaid(script, devices, pending, mode, first);
    if n < 2 * |devices| { PreparationOnly(script, devices, pending, mode, n); }
  }

  /** The participants are in the order of the devices. `at` is where each comes from. */
  lemma {:induction false} ParticipantsInOrder(cat: Catalog, states: seq<DeviceState>) returns (at: seq<nat>)
    ensures |at| == |Participants(cat, states)|
    ensures forall i | 0 <= i < |at| :: at[i] < |states| && Participants(cat, states)[i].a == states[at[i]].address
    ensures forall i, j | 0 <= i < j < |at| :: at[i] < at[j]
    ensures forall k: nat | k < |states| :: k in at <==> Opens(cat, states[k]).Some?
  {
    hide Opens;
    at := [];
    if states != [] {
      var init := states[..|states| - 1];
      at := ParticipantsInOrder(cat, init);
      if Opens(cat, states[|init|]).Some? {
        assert |init| in at + [|init|];
        at := at + [|init|];
      }
    }
  }

  /** A mode change goes through the devices in order, loop by loop: it opens them, reads them,
      and after the writes resets those written and re-reads them all. */
  lemma BoardInOrder(cat: Catalog, states: seq<DeviceState>, w: World, mode: Mode, i: nat)
    ensures var devices, script := Participants(cat, states), Board(cat, states, w, mode);
            var pending := PendingOf(w, devices, mode);
            var verifies := |script| - |devices|;
            var resets := verifies - |pending|;
            && resets >= 2 * |devices|
            && (i < |devices| ==>
                  && script[i] == Open(devices[i].a) && script[|devices| + i] == Read(devices[i].a)
                  && script[verifies + i] == Verify(devices[i].a, devices[i].kind, mode))
            && (i < |pending| ==> script[resets + i] == Reset(pending[i].a))
            && (2 * |devices| <= i < resets ==> script[i].Set?)
  {
    var devices, script := Participants(cat, states), Board(cat, states, w, mode);
    var pending := PendingOf(w, devices, mode);
    BoardLaid(cat, states, w, mode);
    WriteEventsAre(pending);
    hide Board, Participants, PendingOf, Laid, WriteEvents;
    LaidLength(script, devices, pending, mode);
    if i < |devices| {
      PreparationLaid(script, devices, pending, mode, i);
      VerifyLaid(script, devices, pending, mode, i);
    }
    if i < |pending| { ResetLaid(script, devices, pending, mode, i); }
    if 2 * |devices| <= i < |script| - |devices| - |pending| {
      WriteLaid(script, devices, pending, mode, i - 2 * |devices|);
      assert WriteEvents(pending)[i - 2 * |devices|] in WriteEvents(pending);
    }
  }

  lemma LaidLength(script: seq<Event>, devices: seq<Opened>, pending: seq<Pending>, mode: Mode)
    requires Laid(script, devices, pending, mode)
    ensures |script| == 3 * |devices| + |WriteEvents(pending)| + |pending|
  {
    hide WriteEvents, Window;
  }

  lemma VerifyLaid(script: seq<Event>, devices: seq<Opened>, pending: seq<Pending>, mode: Mode, i: nat)
    requires Laid(script, devices, pending, mode) && i < |devices|
    ensures var at := 2 * |devices| + |WriteEvents(pending)| + |pending| + i;
            at < |script| && script[at] == Verify(devices[i].a, devices[i].kind, mode)
  {
    hide WriteEvents, OpenEvents, ReadEvents, ResetEvents;
    WindowAt(script, 2 * |devices| + |WriteEvents(pending)| + |pending|, VerifyEvents(devices, mode), i);
  }

  lemma ResetLaid(script: seq<Event>, devices: seq<Opened>, pending: seq<Pending>, mode: Mode, i: nat)
    requires Laid(script, devices, pending, mode) && i < |pending|
    ensures var at := 2 * |devices| + |WriteEvents(pending)| + i;
            at < |script| && script[at] == Reset(pending[i].a)
  {
    hide WriteEvents, OpenEvents, ReadEvents, VerifyEvents;
    WindowAt(script, 2 * |devices| + |WriteEvents(pending)|, ResetEvents(pending), i);
  }

  lemma WriteLaid(script: seq<Event>, devices: seq<Opened>, pending: seq<Pending>, mode: Mode, i: nat)
    requires Laid(script, devices, pending, mode) && i < |WriteEvents(pending)|
    ensures 2 * |devices| + i < |script| && script[2 * |devices| + i] == WriteEvents(pending)[i]
  {
    hide WriteEvents, OpenEvents, ReadEvents, VerifyEvents, ResetEvents;
    WindowAt(script, 2 * |devices|, WriteEvents(pending), i);
  }

  lemma PreparationLaid(script: seq<Event>, devices: seq<Opened>, pending: seq<Pending>, mode: Mode, k: nat)
    requires Laid(script, devices, pending, mode) && k < |devices|
    ensures |script| >= 2 * |devices|
    ensures script[k] == Open(devices[k].a) && script[|devices| + k] == Read(devices[k].a)
  {
    hide WriteEvents, VerifyEvents, ResetEvents;
    WindowAt(script, 0, OpenEvents(devices), k);
    WindowAt(script, |devices|, ReadEvents(devices), k);
  }

  lemma PreparationOnly(script: seq<Event>, devices: seq<Opened>, pending: seq<Pending>, mode: Mode, n: nat)
    requires Laid(script, devices, pending, mode) && n < 2 * |devices| <= |script|
    ensures script[n].Open? || script[n].Read?
  {
    PreparationLaid(script, devices, pending, mode, if n < |devices| then n else n - |devices|);
  }

  /** A script's opening without writes or resets changes no knob, and its opening
      without resets changes no behaviour, even if a fault stops it there. */
  lemma PrefixChanges(w: World, script: seq<Event>, before: seq<Event>, unreset: seq<Event>)
    requires before <= script && unreset <= script
    requires forall e | e in before :: !e.Set?
    requires forall e | e in unreset :: !e.Reset?
    ensures var r := RunAll(w, script);
            var n := |r.w.trace| - |w.trace|;
            && (n <= |before| ==> r.w.stored == w.stored)
            && (n <= |unreset| ==> r.w.latched == w.latched)
  {
    RunAttempted(w, script);
    var r := RunAll(w, script);
    var n := |r.w.trace| - |w.trace|;
    if n <= |before| {
      assert script[..n] == before[..n];
      KeepsStored(w, script[..n]);
    }
    if n <= |unreset| {
      assert script[..n] == unreset[..n];
      KeepsLatched(w, script[..n]);
    }
  }

  lemma BoardKinds(cat: Catalog, states: seq<DeviceState>, w: World, mode: Mode)
    ensures forall e | e in Board(cat, states, w, mode) :: e.Open? || e.Read? || e.Set? || e.Reset? || e.Verify?
  {
    PartsAre(w, Participants(cat, states), mode);
    hide UpToVerify, VerifyEvents, Participants;
  }

  lemma BoardKeepsHost(cat: Catalog, states: seq<DeviceState>, w: World, mode: Mode)
    ensures var r := RunAll(w, Board(cat, states, w, mode)); r.w.drivers == w.drivers && r.w.files == w.files
  {
    BoardKinds(cat, states, w, mode);
    hide RunAll, Board;
    KeepsDrivers(w, Board(cat, states, w, mode));
    KeepsFiles(w, Board(cat, states, w, mode));
  }

  /** A device without a plan keeps its knobs through the mode change, however it ends. */
  lemma UnplannedKeeps(cat: Catalog, states: seq<DeviceState>, w: World, mode: Mode, a: Address)
    requires forall p | p in PendingOf(w, Participants(cat, states), mode) :: p.a != a
    ensures RunAll(w, Board(cat, states, w, mode)).w.Stored(a) == w.Stored(a)
  {
    var devices := Participants(cat, states);
    PartsAre(w, devices, mode);
    WriteEventsAre(PendingOf(w, devices, mode));
    hide RunAll, PendingOf, WriteEvents;
    KeepsStoredAt(w, Board(cat, states, w, mode), a);
  }

  // ---------------------------------------------------------------- what success means

  lemma {:induction false} VerifyPasses(w: World, es: seq<Event>)
    requires RunAll(w, es).ok && forall e | e in es :: e.Verify?
    ensures forall e | e in es :: InMode(See(e.kind, w.Stored(e.a)), e.mode)
  {
    if es != [] {
      var init, e := es[..|es| - 1], es[|es| - 1];
      assert es == init + [e];
      RunMore(w, init, e);
      hide See, InMode, Do, RunAll, Refuses;
      VerifyPasses(w, init);
      KeepsStored(w, init);
      VerifyPassed(RunAll(w, init).w, e);
    }
  }

  lemma VerifyPassed(w: World, e: Event)
    requires e.Verify? && Do(w, e).ok
    ensures InMode(See(e.kind, w.Stored(e.a)), e.mode)
  {
    hide See, InMode;
  }

  /** A successful mode change leaves every participant reporting the mode, whether or
      not the firmware took every write it acknowledged. */
  lemma SuccessIsReported(cat: Catalog, states: seq<DeviceState>, w: World, mode: Mode)
    requires RunAll(w, Board(cat, states, w, mode)).ok
    ensures forall d | d in Participants(cat, states) ::
              InMode(See(d.kind, RunAll(w, Board(cat, states, w, mode)).w.Stored(d.a)), mode)
  {
    var devices := Participants(cat, states);
    var before, checks := UpToVerify(w, devices, mode), VerifyEvents(devices, mode);
    RunSplit(w, before, checks);
    PartsAre(w, devices, mode);
    var mid := RunAll(w, before).w;
    VerifyPasses(mid, checks);
    KeepsStored(mid, checks);
    forall d | d in devices ensures InMode(See(d.kind, mid.Stored(d.a)), mode) {
      var i :| 0 <= i < |devices| && devices[i] == d;
      assert checks[i] in checks;
    }
  }

  lemma {:induction false} ResetsLatch(w: World, pending: seq<Pending>)
    requires RunAll(w, ResetEvents(pending)).ok
    ensures var r := RunAll(w, ResetEvents(pending)).w;
            && r.stored == w.stored
            && forall a :: r.Latched(a) == if exists p | p in pending :: p.a == a then w.Stored(a) else w.Latched(a)
  {
    if pending != [] {
      var init, p := pending[..|pending| - 1], pending[|pending| - 1];
      assert ResetEvents(pending) == ResetEvents(init) + [Reset(p.a)];
      RunMore(w, ResetEvents(init), Reset(p.a));
      ResetsLatch(w, init);
      assert pending == init + [p];
    } else {
      assert ResetEvents(pending) == [];
    }
  }

  /** A successful run is a successful run of its phases, one after the other. */
  lemma Phases(cat: Catalog, states: seq<DeviceState>, w: World, mode: Mode)
    requires RunAll(w, Board(cat, states, w, mode)).ok
    ensures var devices := Participants(cat, states);
            var r1 := RunAll(w, UpToResets(w, devices, mode));
            var r2 := RunAll(r1.w, ResetEvents(PendingOf(w, devices, mode)));
            && r1.ok && r2.ok
            && RunAll(r2.w, VerifyEvents(devices, mode)) == RunAll(w, Board(cat, states, w, mode))
  {
    var devices := Participants(cat, states);
    var a, b, c := UpToResets(w, devices, mode), ResetEvents(PendingOf(w, devices, mode)), VerifyEvents(devices, mode);
    RunSplit(w, a + b, c);
    RunSplit(w, a, b);
  }

  /** Behaviour after a successful mode change: a device that was written behaves as it
      reports, one that was not behaves as before. */
  lemma SuccessLatches(cat: Catalog, states: seq<DeviceState>, w: World, mode: Mode)
    requires RunAll(w, Board(cat, states, w, mode)).ok
    ensures var r, pending := RunAll(w, Board(cat, states, w, mode)).w, PendingOf(w, Participants(cat, states), mode);
            forall a :: r.Latched(a) == if exists p | p in pending :: p.a == a then r.Stored(a) else w.Latched(a)
  {
    var devices := Participants(cat, states);
    var pending := PendingOf(w, devices, mode);
    Phases(cat, states, w, mode);
    PartsAre(w, devices, mode);
    LatchedByResets(w, UpToResets(w, devices, mode), pending, VerifyEvents(devices, mode));
  }

  lemma LatchedByResets(w: World, before: seq<Event>, pending: seq<Pending>, after: seq<Event>)
    requires forall e | e in before :: !e.Reset?
    requires forall e | e in after :: !e.Reset? && !e.Set?
    requires RunAll(RunAll(w, before).w, ResetEvents(pending)).ok
    ensures var r := RunAll(RunAll(RunAll(w, before).w, ResetEvents(pending)).w, after).w;
            forall a :: r.Latched(a) == if exists p | p in pending :: p.a == a then r.Stored(a) else w.Latched(a)
  {
    var w1 := RunAll(w, before).w;
    var w2 := RunAll(w1, ResetEvents(pending)).w;
    KeepsLatched(w, before);
    ResetsLatch(w1, pending);
    KeepsLatched(w2, after);
    KeepsStored(w2, after);
    var r := RunAll(w2, after).w;
    forall a ensures r.Latched(a) == if exists p | p in pending :: p.a == a then r.Stored(a) else w.Latched(a) {
      assert w2.Latched(a) == if exists p | p in pending :: p.a == a then w1.Stored(a) else w1.Latched(a);
      assert r.Latched(a) == w2.Latched(a) && r.Stored(a) == w2.Stored(a) == w1.Stored(a);
    }
  }

  /** The device reports the mode but still behaves in another: an earlier run died
      between writing it and resetting it. */
  ghost predicate Stale(w: World, d: Opened, mode: Mode) {
    InMode(See(d.kind, w.Stored(d.a)), mode) && !InMode(See(d.kind, w.Latched(d.a)), mode)
  }

  /** "Without this the device reports the new mode and behaves like the old." A
      successful mode change leaves every participant behaving in the mode exactly if no
      participant was stale at its start. */
  lemma SuccessIsBehaviourUnlessStale(cat: Catalog, states: seq<DeviceState>, w: World, mode: Mode)
    requires RunAll(w, Board(cat, states, w, mode)).ok && UniqueAddresses(states)
    ensures var r := RunAll(w, Board(cat, states, w, mode)).w;
            (forall d | d in Participants(cat, states) :: InMode(See(d.kind, r.Latched(d.a)), mode))
            <==> (forall d | d in Participants(cat, states) :: !Stale(w, d, mode))
  {
    var devices := Participants(cat, states);
    var r := RunAll(w, Board(cat, states, w, mode)).w;
    SuccessIsReported(cat, states, w, mode);
    SuccessLatches(cat, states, w, mode);
    ParticipantsExact(cat, states);
    forall d | d in devices ensures InMode(See(d.kind, r.Latched(d.a)), mode) <==> !Stale(w, d, mode) {
      PlannedIffPending(w, devices, d, mode);
      NothingToWriteIffInMode(d.kind, w.Stored(d.a), mode);
    }
  }

  /** A participant is pending exactly if it has something to write. */
  lemma PlannedIffPending(w: World, devices: seq<Opened>, d: Opened, mode: Mode)
    requires Unique(devices) && d in devices
    ensures (exists p | p in PendingOf(w, devices, mode) :: p.a == d.a) <==> Plan(w, d, mode) != []
  {
    PendingExact(w, devices, mode);
    if Plan(w, d, mode) != [] {
      assert Pending(d.a, d.kind, Plan(w, d, mode)) in PendingOf(w, devices, mode);
    }
    forall p | p in PendingOf(w, devices, mode) && p.a == d.a ensures Plan(w, d, mode) != [] {
      var e :| e in devices && p == Pending(e.a, e.kind, Plan(w, e, mode));
      assert e == d;
    }
  }

  // ---------------------------------------------------------------- each device once

  function Resets(es: seq<Event>, a: Address): nat {
    if es == [] then 0
    else Resets(es[..|es| - 1], a) + (if es[|es| - 1] == Reset(a) then 1 else 0)
  }

  lemma {:induction false} ResetsConcat(es: seq<Event>, fs: seq<Event>, a: Address)
    ensures Resets(es + fs, a) == Resets(es, a) + Resets(fs, a)
  {
    if fs == [] {
      assert es + fs == es;
    } else {
      assert (es + fs)[..|es + fs| - 1] == es + fs[..|fs| - 1];
      ResetsConcat(es, fs[..|fs| - 1], a);
    }
  }

  lemma {:induction false} NoResets(es: seq<Event>, a: Address)
    requires Reset(a) !in es
    ensures Resets(es, a) == 0
  {
    if es != [] {
      NoResets(es[..|es| - 1], a);
    }
  }

  lemma {:induction false} ResetsOfPending(pending: seq<Pending>, a: Address)
    requires Distinct(pending)
    ensures Resets(ResetEvents(pending), a) == if exists p | p in pending :: p.a == a then 1 else 0
  {
    if pending == [] {
      assert ResetEvents(pending) == [];
    } else {
      var init, p := pending[..|pending| - 1], pending[|pending| - 1];
      assert ResetEvents(pending)[..|pending| - 1] == ResetEvents(init);
      ResetsOfPending(init, a);
      assert pending == init + [p];
      assert forall q | q in init :: q.a != p.a;
    }
  }

  lemma PlannedResets(cat: Catalog, states: seq<DeviceState>, w: World, mode: Mode, d: Opened)
    requires UniqueAddresses(states) && d in Participants(cat, states)
    ensures Resets(Board(cat, states, w, mode), d.a) == if Plan(w, d, mode) != [] then 1 else 0
  {
    var devices := Participants(cat, states);
    var pending := PendingOf(w, devices, mode);
    var a, b, c := UpToResets(w, devices, mode), ResetEvents(pending), VerifyEvents(devices, mode);
    hide Plan, Participants, PendingOf;
    ResetsConcat(a + b, c, d.a);
    ResetsConcat(a, b, d.a);
    PartsAre(w, devices, mode);
    NoResets(a, d.a);
    NoResets(c, d.a);
    ParticipantsExact(cat, states);
    PendingExact(w, devices, mode);
    ResetsOfPending(pending, d.a);
    PlannedIffPending(w, devices, d, mode);
  }

  /** On success each device has been reset exactly once if its outcome is `Applied`, and
      never if it is `AlreadySet`: "doing so to a device that needs nothing is a free
      outage". A mode change stopped anywhere has reset no device more often than that. */
  lemma ResetOnceIffApplied(cat: Catalog, states: seq<DeviceState>, w: World, mode: Mode, i: nat)
    requires UniqueAddresses(states) && i < |Participants(cat, states)|
    ensures var devices, script := Participants(cat, states), Board(cat, states, w, mode);
            var outcomes, done := Outcomes(w, devices, mode), Resets(Made(w, script), devices[i].a);
            && |outcomes| == |devices| && outcomes[i].0 == devices[i].a
            && done <= (if outcomes[i].1 == Applied then 1 else 0)
            && (RunAll(w, script).ok ==> done == if outcomes[i].1 == Applied then 1 else 0)
  {
    var devices, script := Participants(cat, states), Board(cat, states, w, mode);
    var d := devices[i];
    hide Board, Resets, RunAll, Made, Participants, Plan;
    PlannedResets(cat, states, w, mode, d);
    OutcomeAt(w, devices, mode, i);
    BoardMade(cat, states, w, mode);
    var made := Made(w, script);
    assert script == made + script[|made|..];
    ResetsConcat(made, script[|made|..], d.a);
  }

  /** A mode change makes a prefix of its script, and all of it if it succeeds. */
  lemma BoardMade(cat: Catalog, states: seq<DeviceState>, w: World, mode: Mode)
    ensures var script := Board(cat, states, w, mode);
            Made(w, script) <= script && (RunAll(w, script).ok ==> Made(w, script) == script)
  {
    BoardKinds(cat, states, w, mode);
    hide RunAll, Made, Board;
    MadeIsPrefix(w, Board(cat, states, w, mode));
  }

  lemma {:induction false} OutcomeAt(w: World, devices: seq<Opened>, mode: Mode, i: nat)
    requires i < |devices|
    ensures |Outcomes(w, devices, mode)| == |devices|
    ensures Outcomes(w, devices, mode)[i] == Outcome(devices[i], Plan(w, devices[i], mode))
  {
    var init := devices[..|devices| - 1];
    if i < |init| {
      OutcomeAt(w, init, mode, i);
    } else if init != [] {
      OutcomeAt(w, init, mode, 0);
    }
  }

  // ---------------------------------------------------------------- the plan does its job

  lemma {:induction false} WritesToDevice(p: Pending, a: Address, n: nat)
    requires n <= |p.writes|
    ensures WritesTo(SetEvents(p)[..n], a) == if p.a == a then p.writes[..n] else []
  {
    if n > 0 {
      assert SetEvents(p)[..n][..n - 1] == SetEvents(p)[..n - 1];
      WritesToDevice(p, a, n - 1);
      assert p.writes[..n] == p.writes[..n - 1] + [p.writes[n - 1]];
    }
  }

  lemma WritesToOne(p: Pending, a: Address)
    ensures WritesTo(SetEvents(p), a) == if p.a == a then p.writes else []
  {
    WritesToDevice(p, a, |p.writes|);
    assert SetEvents(p)[..|p.writes|] == SetEvents(p) && p.writes[..|p.writes|] == p.writes;
  }

  /** The board's writes to one device are its own plan. */
  lemma {:induction false} WritesToPending(pending: seq<Pending>, a: Address)
    requires Distinct(pending)
    ensures forall p | p in pending && p.a == a :: WritesTo(WriteEvents(pending), a) == p.writes
    ensures (forall p | p in pending :: p.a != a) ==> WritesTo(WriteEvents(pending), a) == []
  {
    if pending != [] {
      var init, p := pending[..|pending| - 1], pending[|pending| - 1];
      assert pending == init + [p];
      assert forall i | 0 <= i < |init| :: init[i] == pending[i];
      assert WriteEvents(pending) == WriteEvents(init) + SetEvents(p);
      hide WritesTo, SetEvents, WriteEvents;
      WritesToPending(init, a);
      WritesToConcat(WriteEvents(init), SetEvents(p), a);
      WritesToOne(p, a);
      assert forall q | q in init :: q.a != p.a;
    }
  }

  lemma {:induction false} NoWrites(es: seq<Event>, a: Address)
    requires forall e | e in es :: !e.Set?
    ensures WritesTo(es, a) == []
  {
    if es != [] {
      NoWrites(es[..|es| - 1], a);
    }
  }

  lemma WritesToParticipant(w: World, devices: seq<Opened>, d: Opened, mode: Mode)
    requires Unique(devices) && d in devices
    ensures WritesTo(UpToVerify(w, devices, mode), d.a) == Plan(w, d, mode)
  {
    var pending := PendingOf(w, devices, mode);
    PartsAre(w, devices, mode);
    PendingExact(w, devices, mode);
    PlannedIffPending(w, devices, d, mode);
    NoWrites(Preparation(devices), d.a);
    NoWrites(ResetEvents(pending), d.a);
    WritesToConcat(Preparation(devices), WriteEvents(pending), d.a);
    WritesToConcat(UpToResets(w, devices, mode), ResetEvents(pending), d.a);
    WritesToPending(pending, d.a);
    if Plan(w, d, mode) != [] {
      assert Pending(d.a, d.kind, Plan(w, d, mode)) in pending;
    }
  }

  predicate NeverRefused(e: Event) {
    match e
    case Set(_, kind, write) => Accepts(kind, write)
    case Verify(_, _, _) | Bind(_, _) | CheckBound(_, _) | Bail => false
    case _ => true
  }

  lemma CalmAccepted(w: World, es: seq<Event>)
    requires Calm(w.env) && forall e | e in es :: NeverRefused(e)
    ensures RunAll(w, es).ok
  {
    forall i | 0 <= i < |es| ensures !Refuses(RunAll(w, es[..i]).w, es[i]) {
      assert es[i] in es;
    }
    CalmRun(w, es);
  }

  lemma UpToVerifyAccepted(w: World, devices: seq<Opened>, mode: Mode)
    ensures forall e | e in UpToVerify(w, devices, mode) :: NeverRefused(e)
  {
    var pending := PendingOf(w, devices, mode);
    PartsAre(w, devices, mode);
    WriteEventsAre(pending);
    PendingExact(w, devices, mode);
    forall e | e in WriteEvents(pending) ensures NeverRefused(e) {
      var p :| p in pending && e.a == p.a && e.kind == p.kind && e.write in p.writes;
      var d :| d in devices && p == Pending(d.a, d.kind, Plan(w, d, mode));
      PlanReachesMode(d.kind, w.Stored(d.a), mode);
    }
  }

  lemma CalmVerifies(w: World, es: seq<Event>)
    requires Calm(w.env)
    requires forall e | e in es :: e.Verify? && InMode(See(e.kind, w.Stored(e.a)), e.mode)
    ensures RunAll(w, es).ok
  {
    forall i | 0 <= i < |es| ensures !Refuses(RunAll(w, es[..i]).w, es[i]) {
      assert forall e | e in es[..i] :: e in es;
      KeepsStored(w, es[..i]);
    }
    CalmRun(w, es);
  }

  /** And the plan is enough: from every state of the board, a mode change in which
      nothing fails and the firmware takes its writes succeeds. */
  lemma CalmSucceeds(cat: Catalog, states: seq<DeviceState>, w: World, mode: Mode)
    requires Calm(w.env) && UniqueAddresses(states)
    ensures RunAll(w, Board(cat, states, w, mode)).ok
  {
    var devices := Participants(cat, states);
    ParticipantsExact(cat, states);
    var before, checks := UpToVerify(w, devices, mode), VerifyEvents(devices, mode);
    UpToVerifyAccepted(w, devices, mode);
    CalmAccepted(w, before);
    RunTrace(w, before);
    var mid := RunAll(w, before).w;
    forall e | e in checks ensures e.Verify? && InMode(See(e.kind, mid.Stored(e.a)), e.mode) {
      var i :| 0 <= i < |checks| && checks[i] == e;
      var d := devices[i];
      WritesToParticipant(w, devices, d, mode);
      StoredIsFired(w, before, d.a);
      PlanReachesMode(d.kind, w.Stored(d.a), mode);
    }
    CalmVerifies(mid, checks);
    RunSplit(w, before, checks);
  }

  // ---------------------------------------------------------------- no shorter script

  /** The events of a script that are not writes to one device. */
  function Without(es: seq<Event>, a: Address): seq<Event> {
    if es == [] then []
    else
      var before, e := Without(es[..|es| - 1], a), es[|es| - 1];
      if e.Set? && e.a == a then before else before + [e]
  }

  lemma {:induction false} WithoutCounts(es: seq<Event>, a: Address)
    ensures |es| == |Without(es, a)| + |WritesTo(es, a)|
    ensures forall b | b != a :: WritesTo(Without(es, a), b) == WritesTo(es, b)
  {
    if es != [] {
      WithoutCounts(es[..|es| - 1], a);
    }
  }

  /** No script of any length, writing the devices in any order, that takes every
      participant to the mode makes fewer writes than the planned one. */
  lemma {:induction false} BoardPlanIsMinimal(w: World, devices: seq<Opened>, mode: Mode, es: seq<Event>)
    requires Unique(devices)
    requires forall d | d in devices ::
      && (forall x | x in WritesTo(es, d.a) :: Accepts(d.kind, x))
      && InMode(See(d.kind, FireAll(w.Stored(d.a), WritesTo(es, d.a))), mode)
    ensures |WriteEvents(PendingOf(w, devices, mode))| <= |es|
  {
    if devices != [] {
      var init, d := devices[..|devices| - 1], devices[|devices| - 1];
      WithoutCounts(es, d.a);
      PlanIsMinimal(d.kind, w.Stored(d.a), mode, WritesTo(es, d.a));
      forall e | e in init ensures e.a != d.a && e in devices { }
      BoardPlanIsMinimal(w, init, mode, Without(es, d.a));
    }
  }

  // ---------------------------------------------------------------- the knobs stay exclusive

  /** No device of the node reports or behaves with CC raised and PPCIE on together. */
  ghost predicate KnobsExclusive(w: World) {
    forall a :: Exclusive(w.Stored(a)) && Exclusive(w.Latched(a))
  }

  /** Whatever a run does and wherever it stops, it never raises one knob beside the
      other. */
  lemma ExclusiveIsInductive()
    ensures Inductive(KnobsExclusive)
  {
    forall w, e | KnobsExclusive(w) ensures KnobsExclusive(Do(w, e).w) {
      var w' := Do(w, e).w;
      forall a ensures Exclusive(w'.Stored(a)) && Exclusive(w'.Latched(a)) {
        assert Exclusive(w.Stored(a)) && Exclusive(w.Latched(a));
        if e.Set? {
          assert Exclusive(w.Stored(e.a));
        } else if e.Reset? {
          assert Exclusive(w.Stored(e.a));
        }
      }
    }
  }

  /** After success in any mode, a device with both knobs has at most one raised,
      whatever state it started in. */
  lemma SuccessIsExclusive(cat: Catalog, states: seq<DeviceState>, w: World, mode: Mode)
    requires RunAll(w, Board(cat, states, w, mode)).ok
    ensures forall d | d in Participants(cat, states) && d.kind == Gpu(true) ::
              Exclusive(RunAll(w, Board(cat, states, w, mode)).w.Stored(d.a))
  {
    SuccessIsReported(cat, states, w, mode);
  }
}
