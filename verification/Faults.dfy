/** What a fault in the mode change can leave behind, and what the next run makes of it. */
module Faults {
  import opened Modes
  import opened Knobs
  import opened Machine
  import opened Devices
  import opened Nvidia
  import opened Transaction

  // ---------------------------------------------------------------- a board part-way

  /** However a mode change ends, a participant reports the mode exactly if all the writes
      planned for it are among those the run made. */
  lemma ReportsModeIffWritten(cat: Catalog, states: seq<DeviceState>, w: World, mode: Mode)
    requires UniqueAddresses(states) && forall n :: !w.env.deaf(n)
    ensures var script := Board(cat, states, w, mode);
            forall d | d in Participants(cat, states) ::
              InMode(See(d.kind, RunAll(w, script).w.Stored(d.a)), mode)
              <==> WritesTo(Made(w, script), d.a) == Plan(w, d, mode)
  {
    var script, devices := Board(cat, states, w, mode), Participants(cat, states);
    ParticipantsExact(cat, states);
    BoardMade(cat, states, w, mode);
    hide Board, Participants, RunAll, Made, InMode, See, WritesTo, Unique, UniqueAddresses;
    forall d | d in devices
      ensures InMode(See(d.kind, RunAll(w, script).w.Stored(d.a)), mode)
              <==> WritesTo(Made(w, script), d.a) == Plan(w, d, mode)
    {
      StoredIsMade(w, script, d.a);
      WrittenPrefix(cat, states, w, mode, d, Made(w, script));
      PrefixOfPlan(d.kind, w.Stored(d.a), mode, WritesTo(Made(w, script), d.a));
    }
  }

  lemma {:induction false} WritesToPrefix(made: seq<Event>, es: seq<Event>, a: Address)
    requires made <= es
    ensures WritesTo(made, a) <= WritesTo(es, a)
  {
    assert es == made + es[|made|..];
    WritesToConcat(made, es[|made|..], a);
  }

  lemma WrittenPrefix(cat: Catalog, states: seq<DeviceState>, w: World, mode: Mode, d: Opened, made: seq<Event>)
    requires Unique(Participants(cat, states)) && d in Participants(cat, states)
    requires made <= Board(cat, states, w, mode)
    ensures WritesTo(made, d.a) <= Plan(w, d, mode)
  {
    var devices := Participants(cat, states);
    var before, checks := UpToVerify(w, devices, mode), VerifyEvents(devices, mode);
    hide UpToVerify, VerifyEvents, Plan, WritesTo;
    PartsAre(w, devices, mode);
    WritesToParticipant(w, devices, d, mode);
    WritesToConcat(before, checks, d.a);
    NoWrites(checks, d.a);
    WritesToPrefix(made, Board(cat, states, w, mode), d.a);
  }

  /** A plan reaches its mode with its last write and no sooner. */
  lemma PrefixOfPlan(kind: Kind, r: Regs, mode: Mode, writes: seq<Write>)
    requires writes <= WritesFor(See(kind, r), mode)
    ensures InMode(See(kind, FireAll(r, writes)), mode) <==> writes == WritesFor(See(kind, r), mode)
  {
    var plan := WritesFor(See(kind, r), mode);
    hide WritesFor, InMode, See, FireAll, Accepts;
    PlanReachesMode(kind, r, mode);
    assert plan[..|plan|] == plan;
    forall x | x in writes ensures Accepts(kind, x) { assert x in plan; }
    if InMode(See(kind, FireAll(r, writes)), mode) {
      PlanIsMinimal(kind, r, mode, writes);
      assert |writes| == |plan|;
    }
  }

  /** A script stopped at its k-th event, none of whose earlier events can be refused. */
  lemma StoppedScript(w: World, script: seq<Event>, k: nat)
    requires k < |script| && w.env == StopAt(w.clock + k) && forall e | e in script[..k] :: NeverRefused(e)
    ensures var r := RunAll(w, script);
            && !r.ok
            && r.w.latched == RunAll(w, script[..k]).w.latched
            && forall a :: r.w.Stored(a) == FireAll(w.Stored(a), WritesTo(script[..k], a))
  {
    hide RunAll, WritesTo, NeverRefused;
    forall n | 0 <= n < k ensures !Refuses(RunAll(w, script[..n]).w, script[n]) {
      assert script[..k][n] == script[n] && script[..k][n] in script[..k];
      NeverRefusedNeverRefuses(RunAll(w, script[..n]).w, script[n]);
    }
    StoppedRun(w, script, k);
    forall a { StoredIsFired(w, script[..k], a); }
  }

  /** How many events a mode change takes to write its first i + 1 pending devices. */
  function AfterWriting(cat: Catalog, states: seq<DeviceState>, w: World, mode: Mode, i: nat): nat
    requires i < |PendingOf(w, Participants(cat, states), mode)|
  {
    2 * |Participants(cat, states)| + |WriteEvents(PendingOf(w, Participants(cat, states), mode)[..i + 1])|
  }

  /** Every board on which two devices need writes can be left part-way: the run that
      fails between their writes leaves the first in the mode and the second not. */
  lemma PartWayIsReachable(cat: Catalog, states: seq<DeviceState>, w: World, mode: Mode, i: nat, j: nat)
    requires UniqueAddresses(states)
    requires i < j < |PendingOf(w, Participants(cat, states), mode)|
    requires w.env == StopAt(w.clock + AfterWriting(cat, states, w, mode, i))
    ensures var pending := PendingOf(w, Participants(cat, states), mode);
            var r := RunAll(w, Board(cat, states, w, mode));
            && !r.ok
            && InMode(See(pending[i].kind, r.w.Stored(pending[i].a)), mode)
            && !InMode(See(pending[j].kind, r.w.Stored(pending[j].a)), mode)
  {
    var devices := Participants(cat, states);
    hide Board, WritesTo, WriteEvents, RunAll, Plan, InMode, See, PendingOf, Participants, NeverRefused,
         UniqueAddresses, FireAll, Preparation, AfterWriting, StopAt;
    PartWayPrefix(cat, states, w, mode, i);
    PartWayWrites(cat, states, w, mode, i, j);
    StoppedScript(w, Board(cat, states, w, mode), AfterWriting(cat, states, w, mode, i));
    PendingOne(w, devices, mode, i);
    PendingOne(w, devices, mode, j);
  }

  lemma NeverRefusedNeverRefuses(w: World, e: Event)
    requires NeverRefused(e)
    ensures !Refuses(w, e)
  {
  }

  /** The plan of a pending device is not empty, and firing it reaches the mode. */
  lemma PendingOne(w: World, devices: seq<Opened>, mode: Mode, i: nat)
    requires i < |PendingOf(w, devices, mode)|
    ensures var p := PendingOf(w, devices, mode)[i];
            && InMode(See(p.kind, FireAll(w.Stored(p.a), p.writes)), mode)
            && !InMode(See(p.kind, FireAll(w.Stored(p.a), [])), mode)
  {
    var p := PendingOf(w, devices, mode)[i];
    PendingExact(w, devices, mode);
    assert p in PendingOf(w, devices, mode);
    PlanReachesMode(p.kind, w.Stored(p.a), mode);
    NothingToWriteIffInMode(p.kind, w.Stored(p.a), mode);
  }

  lemma SamePlan(w: World, v: World, devices: seq<Opened>, mode: Mode)
    requires w.stored == v.stored
    ensures PendingOf(w, devices, mode) == PendingOf(v, devices, mode)
  {
    if devices != [] {
      SamePlan(w, v, devices[..|devices| - 1], mode);
    }
  }

  lemma CutConcat(a: seq<Event>, b: seq<Event>, c: seq<Event>, d: seq<Event>, n: nat)
    requires n <= |b|
    ensures (((a + b) + c) + d)[..|a| + n] == a + b[..n]
    ensures forall e | e in a + b[..n] :: e in (a + b) + c
  {
  }

  lemma PartWayPrefix(cat: Catalog, states: seq<DeviceState>, w: World, mode: Mode, i: nat)
    requires i + 1 < |PendingOf(w, Participants(cat, states), mode)|
    ensures var devices := Participants(cat, states);
            var writes := WriteEvents(PendingOf(w, devices, mode)[..i + 1]);
            var script, k := Board(cat, states, w, mode), AfterWriting(cat, states, w, mode, i);
            && k < |script| && script[..k] == Preparation(devices) + writes
            && (forall e | e in script[..k] :: NeverRefused(e))
  {
    var devices := Participants(cat, states);
    var pending := PendingOf(w, devices, mode);
    var writes, script := WriteEvents(pending[..i + 1]), Board(cat, states, w, mode);
    WriteEventsPrefix(pending, i + 1);
    UpToVerifyAccepted(w, devices, mode);
    var k := 2 * |devices| + |writes|;
    assert |Preparation(devices)| == 2 * |devices|;
    var resets, checks := ResetEvents(pending), VerifyEvents(devices, mode);
    hide WriteEvents, PendingOf, Participants, NeverRefused, Preparation, VerifyEvents, ResetEvents;
    CutConcat(Preparation(devices), WriteEvents(pending), resets, checks, |writes|);
    assert |checks| > 0 || |WriteEvents(pending)| + |resets| > |writes|;
    assert forall e | e in script[..k] :: e in UpToVerify(w, devices, mode);
  }

  lemma PartWayWrites(cat: Catalog, states: seq<DeviceState>, w: World, mode: Mode, i: nat, j: nat)
    requires UniqueAddresses(states)
    requires i < j < |PendingOf(w, Participants(cat, states), mode)|
    ensures var devices := Participants(cat, states);
            var pending := PendingOf(w, devices, mode);
            var part := Preparation(devices) + WriteEvents(pending[..i + 1]);
            WritesTo(part, pending[i].a) == pending[i].writes && WritesTo(part, pending[j].a) == []
  {
    var devices := Participants(cat, states);
    var pending := PendingOf(w, devices, mode);
    var part, before := pending[..i + 1], Preparation(devices);
    var writes := WriteEvents(part);
    ParticipantsExact(cat, states);
    PendingExact(w, devices, mode);
    PartsAre(w, devices, mode);
    hide WritesTo, WriteEvents, Preparation, PendingOf, Participants;
    forall a ensures WritesTo(before + writes, a) == WritesTo(writes, a) {
      WritesToConcat(before, writes, a);
      NoWrites(before, a);
    }
    assert Distinct(part);
    WritesToPending(part, pending[i].a);
    WritesToPending(part, pending[j].a);
    assert part[i] == pending[i] && part[i] in part;
    forall p | p in part ensures p.a != pending[j].a {
      var n :| 0 <= n < |part| && part[n] == p;
      assert pending[n] == p;
    }
  }

  /** The board is part-way between two modes: the mode change took one device to the mode
      and left another in a different one. */
  ghost predicate LeftPartWay(cat: Catalog, states: seq<DeviceState>, w: World, mode: Mode, r: World) {
    exists d, e | d in Participants(cat, states) && e in Participants(cat, states) ::
      && Plan(w, d, mode) != [] && InMode(See(d.kind, r.Stored(d.a)), mode)
      && !InMode(See(e.kind, r.Stored(e.a)), mode)
  }

  /** "A board part-way between the two modes is not a state the node can be left in" does
      not hold of a run that a fault stops. It holds of exactly the boards on which at most
      one device has something to write: on every other, some fault leaves the board so. */
  lemma PartWayReachableIff(cat: Catalog, states: seq<DeviceState>, w: World, mode: Mode)
    requires UniqueAddresses(states)
    ensures (exists env :: LeftPartWay(cat, states, w, mode, RunAll(w.(env := env), Board(cat, states, w, mode)).w))
            <==> |PendingOf(w, Participants(cat, states), mode)| >= 2
  {
    hide LeftPartWay, Board, RunAll, PendingOf, Participants, StopAt, UniqueAddresses, AfterWriting;
    forall env | LeftPartWay(cat, states, w, mode, RunAll(w.(env := env), Board(cat, states, w, mode)).w)
      ensures |PendingOf(w, Participants(cat, states), mode)| >= 2
    {
      SameBoard(cat, states, w, env, mode);
      PartWayNeedsTwo(cat, states, w.(env := env), mode);
    }
    if |PendingOf(w, Participants(cat, states), mode)| >= 2 {
      var env := StopAt(w.clock + AfterWriting(cat, states, w, mode, 0));
      SameBoard(cat, states, w, env, mode);
      FirstStopsPartWay(cat, states, w.(env := env), mode);
    }
  }

  /** What a mode change plans does not depend on what will fail. */
  lemma SameBoard(cat: Catalog, states: seq<DeviceState>, w: World, env: Env, mode: Mode)
    ensures var v, devices := w.(env := env), Participants(cat, states);
            && PendingOf(v, devices, mode) == PendingOf(w, devices, mode)
            && Board(cat, states, v, mode) == Board(cat, states, w, mode)
            && (forall r :: LeftPartWay(cat, states, v, mode, r) <==> LeftPartWay(cat, states, w, mode, r))
            && forall i: nat | i < |PendingOf(w, devices, mode)| ::
                 AfterWriting(cat, states, v, mode, i) == AfterWriting(cat, states, w, mode, i)
  {
    SamePlan(w, w.(env := env), Participants(cat, states), mode);
    forall d ensures Plan(w.(env := env), d, mode) == Plan(w, d, mode) { }
    hide PendingOf, Participants, Plan, InMode, See, WriteEvents;
  }

  lemma PartWayNeedsTwo(cat: Catalog, states: seq<DeviceState>, w: World, mode: Mode)
    requires UniqueAddresses(states)
    requires LeftPartWay(cat, states, w, mode, RunAll(w, Board(cat, states, w, mode)).w)
    ensures |PendingOf(w, Participants(cat, states), mode)| >= 2
  {
    var devices := Participants(cat, states);
    var pending, r := PendingOf(w, devices, mode), RunAll(w, Board(cat, states, w, mode)).w;
    var d, e :| d in devices && e in devices && Plan(w, d, mode) != [] && InMode(See(d.kind, r.Stored(d.a)), mode)
                && !InMode(See(e.kind, r.Stored(e.a)), mode);
    NothingToWriteIffInMode(e.kind, w.Stored(e.a), mode);
    hide Board, RunAll, PendingOf, Participants, InMode, See, UniqueAddresses, Plan;
    ParticipantsExact(cat, states);
    PlannedIffPending(w, devices, d, mode);
    PlannedIffPending(w, devices, e, mode);
    var p :| p in pending && p.a == d.a;
    if Plan(w, e, mode) == [] {
      UnplannedKeeps(cat, states, w, mode, e.a);
      PlanIsOf(w, e, mode);
      assert false;
    }
    var q :| q in pending && q.a == e.a;
    if p == q { SameDevice(devices, d, e); }
    TwoElements(pending, p, q);
  }

  lemma PlanIsOf(w: World, d: Opened, mode: Mode)
    ensures Plan(w, d, mode) == WritesFor(See(d.kind, w.Stored(d.a)), mode)
  {
  }

  lemma SameDevice(devices: seq<Opened>, d: Opened, e: Opened)
    requires Unique(devices) && d in devices && e in devices && d.a == e.a
    ensures d == e
  {
  }

  lemma TwoElements<T>(s: seq<T>, x: T, y: T)
    requires x in s && y in s && x != y
    ensures |s| >= 2
  {
  }

  lemma FirstStopsPartWay(cat: Catalog, states: seq<DeviceState>, w: World, mode: Mode)
    requires UniqueAddresses(states) && |PendingOf(w, Participants(cat, states), mode)| >= 2
    requires w.env == StopAt(w.clock + AfterWriting(cat, states, w, mode, 0))
    ensures LeftPartWay(cat, states, w, mode, RunAll(w, Board(cat, states, w, mode)).w)
  {
    var devices := Participants(cat, states);
    hide Board, RunAll, PendingOf, Participants, InMode, See, StopAt, UniqueAddresses, AfterWriting, Plan, LeftPartWay;
    PartWayIsReachable(cat, states, w, mode, 0, 1);
    var d := PendingDevice(w, devices, mode, 0);
    var e := PendingDevice(w, devices, mode, 1);
    PartWayOf(cat, states, w, mode, RunAll(w, Board(cat, states, w, mode)).w, d, e);
  }

  lemma PartWayOf(cat: Catalog, states: seq<DeviceState>, w: World, mode: Mode, r: World, d: Opened, e: Opened)
    requires d in Participants(cat, states) && e in Participants(cat, states) && Plan(w, d, mode) != []
    requires InMode(See(d.kind, r.Stored(d.a)), mode) && !InMode(See(e.kind, r.Stored(e.a)), mode)
    ensures LeftPartWay(cat, states, w, mode, r)
  {
  }

  lemma PendingDevice(w: World, devices: seq<Opened>, mode: Mode, i: nat) returns (d: Opened)
    requires i < |PendingOf(w, devices, mode)|
    ensures d in devices && PendingOf(w, devices, mode)[i] == Pending(d.a, d.kind, Plan(w, d, mode))
    ensures Plan(w, d, mode) != []
  {
    hide PendingOf, Plan;
    PendingExact(w, devices, mode);
    var p := PendingOf(w, devices, mode)[i];
    assert p in PendingOf(w, devices, mode);
    d :| d in devices && p == Pending(d.a, d.kind, Plan(w, d, mode));
  }

  // ---------------------------------------------------------------- a stale device

  /** A device that has to be written can be left stale: a run that fails at the first
      reset leaves it reporting the mode and behaving as before. */
  lemma StaleIsReachable(cat: Catalog, states: seq<DeviceState>, w: World, mode: Mode, d: Opened)
    requires UniqueAddresses(states) && d in Participants(cat, states)
    requires Plan(w, d, mode) != [] && !InMode(See(d.kind, w.Latched(d.a)), mode)
    requires w.env == StopAt(w.clock + |UpToResets(w, Participants(cat, states), mode)|)
    ensures var r := RunAll(w, Board(cat, states, w, mode));
            !r.ok && Stale(r.w, d, mode)
  {
    var devices, script := Participants(cat, states), Board(cat, states, w, mode);
    var part := UpToResets(w, devices, mode);
    ParticipantsExact(cat, states);
    ResetFollows(cat, states, w, mode, d);
    hide Board, UpToResets, RunAll, WritesTo, InMode, See, Participants, NeverRefused, UniqueAddresses, FireAll, StopAt,
         Plan;
    StoppedScript(w, script, |part|);
    WrittenByResets(w, devices, mode, d);
    UnresetBefore(w, devices, mode);
  }

  /** The writes ahead of the resets take a device to the mode. */
  lemma WrittenByResets(w: World, devices: seq<Opened>, mode: Mode, d: Opened)
    requires Unique(devices) && d in devices
    ensures InMode(See(d.kind, FireAll(w.Stored(d.a), WritesTo(UpToResets(w, devices, mode), d.a))), mode)
  {
    hide UpToResets, WritesTo, InMode, See, FireAll, Accepts, WritesFor;
    WritesUpToResets(w, devices, d, mode);
    PlanReachesMode(d.kind, w.Stored(d.a), mode);
  }

  lemma UnresetBefore(w: World, devices: seq<Opened>, mode: Mode)
    ensures RunAll(w, UpToResets(w, devices, mode)).w.latched == w.latched
  {
    PartsAre(w, devices, mode);
    hide UpToResets;
    KeepsLatched(w, UpToResets(w, devices, mode));
  }

  /** And the next run, even one in which nothing fails, leaves it so: it finds nothing to
      write, does not reset, and reports success. */
  lemma StaleOutlivesNextRun(cat: Catalog, states: seq<DeviceState>, w: World, mode: Mode, d: Opened, calm: Env)
    requires UniqueAddresses(states) && d in Participants(cat, states)
    requires Plan(w, d, mode) != [] && !InMode(See(d.kind, w.Latched(d.a)), mode)
    requires w.env == StopAt(w.clock + |UpToResets(w, Participants(cat, states), mode)|) && Calm(calm)
    ensures var r := RunAll(w, Board(cat, states, w, mode)).w.(env := calm);
            var again := RunAll(r, Board(cat, states, r, mode));
            && again.ok
            && InMode(See(d.kind, again.w.Stored(d.a)), mode)
            && !InMode(See(d.kind, again.w.Latched(d.a)), mode)
  {
    hide RunAll, Board, InMode, See, Participants, StopAt, Plan, UpToResets, Calm;
    StaleIsReachable(cat, states, w, mode, d);
    var died := RunAll(w, Board(cat, states, w, mode)).w;
    var r := died.(env := calm);
    assert r.Stored(d.a) == died.Stored(d.a) && r.Latched(d.a) == died.Latched(d.a);
    CalmSucceeds(cat, states, r, mode);
    SuccessIsReported(cat, states, r, mode);
    StaleStays(cat, states, r, mode, d);
  }

  lemma StaleStays(cat: Catalog, states: seq<DeviceState>, w: World, mode: Mode, d: Opened)
    requires UniqueAddresses(states) && d in Participants(cat, states)
    requires RunAll(w, Board(cat, states, w, mode)).ok && Stale(w, d, mode)
    ensures RunAll(w, Board(cat, states, w, mode)).w.Latched(d.a) == w.Latched(d.a)
  {
    NothingToWriteIffInMode(d.kind, w.Stored(d.a), mode);
    hide RunAll, Board, InMode, See, Participants, PendingOf;
    ParticipantsExact(cat, states);
    PlannedIffPending(w, Participants(cat, states), d, mode);
    SuccessLatches(cat, states, w, mode);
  }

  /** If a device has to be written, the script goes on to resets after the writes. */
  lemma ResetFollows(cat: Catalog, states: seq<DeviceState>, w: World, mode: Mode, d: Opened)
    requires Unique(Participants(cat, states)) && d in Participants(cat, states) && Plan(w, d, mode) != []
    ensures var script, part := Board(cat, states, w, mode), UpToResets(w, Participants(cat, states), mode);
            |part| < |script| && script[..|part|] == part && forall e | e in part :: NeverRefused(e)
  {
    var devices := Participants(cat, states);
    PlannedIffPending(w, devices, d, mode);
    UpToVerifyAccepted(w, devices, mode);
    hide UpToResets, PendingOf, Participants, NeverRefused, Plan, VerifyEvents;
    var p :| p in PendingOf(w, devices, mode) && p.a == d.a;
    assert |ResetEvents(PendingOf(w, devices, mode))| > 0;
    hide ResetEvents;
    assert forall e | e in UpToResets(w, devices, mode) :: e in UpToVerify(w, devices, mode);
  }

  lemma WritesUpToResets(w: World, devices: seq<Opened>, d: Opened, mode: Mode)
    requires Unique(devices) && d in devices
    ensures WritesTo(UpToResets(w, devices, mode), d.a) == Plan(w, d, mode)
  {
    var resets := ResetEvents(PendingOf(w, devices, mode));
    hide WritesTo, UpToResets, PendingOf, Plan;
    WritesToParticipant(w, devices, d, mode);
    WritesToConcat(UpToResets(w, devices, mode), resets, d.a);
    NoWrites(resets, d.a);
  }
}
