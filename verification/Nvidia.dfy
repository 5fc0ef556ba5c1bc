/** The board-wide mode change: open all, read and plan all, write all, reset all, verify all. */
module Nvidia {
  import opened Text
  import opened Modes
  import opened Knobs
  import opened Machine
  import opened Devices

  /** Plain vfio-pci will do for a switch, and for a GPU known not to be coherently attached. */
  predicate GenericVfioSupported(cat: Catalog, s: DeviceState) {
    match s.Provisioning()
    case Some(NvidiaInBandCc) => s.CcCapable() && !cat.isC2c(s.deviceId)
    case Some(NvidiaInBandPpcie) => true
    case None => false
  }

  // ---------------------------------------------------------------- probing

  datatype Probed = Probed(w: World, states: seq<DeviceState>, unreadable: set<Address>)

  /** `probe_modes`: a device that cannot be read keeps what it had and is recorded. */
  function ProbeAll(cat: Catalog, w: World, states: seq<DeviceState>): Probed {
    if states == [] then Probed(w, [], {})
    else
      var p, s := ProbeAll(cat, w, states[..|states| - 1]), states[|states| - 1];
      var kind := Opens(cat, s);
      if kind.None? then Probed(p.w, p.states + [s.(seen := Seen(None, None))], p.unreadable)
      else
        var r := Do(p.w, Probe(s.address));
        if r.ok then Probed(r.w, p.states + [s.(seen := See(kind.value, p.w.Stored(s.address)))], p.unreadable)
        else Probed(r.w, p.states + [s], p.unreadable + {s.address})
  }

  method ProbeModes(node: Node, cat: Catalog, states: seq<DeviceState>)
    returns (probed: seq<DeviceState>, unreadable: set<Address>)
    modifies node
    ensures Probed(node.View(), probed, unreadable) == ProbeAll(cat, old(node.View()), states)
  {
    probed, unreadable := states, {};
    for i := 0 to |states|
      invariant |probed| == |states| && probed[i..] == states[i..]
      invariant Probed(node.View(), probed[..i], unreadable) == ProbeAll(cat, old(node.View()), states[..i])
    {
      assert states[..i + 1][..i] == states[..i];
      var s := states[i];
      var before := probed;
      match Opens(cat, s) {
        case None => probed := probed[i := s.(seen := Seen(None, None))];
        case Some(kind) =>
          var seen := See(kind, node.Stored(s.address));
          var ok := node.Perform(Probe(s.address));
          if ok {
            probed := probed[i := s.(seen := seen)];
          } else {
            unreadable := unreadable + {s.address};
          }
      }
      assert before[i] == states[i..][0] by { assert before[i] == before[i..][0]; }
      assert probed[..i + 1] == before[..i] + [probed[i]];
      assert probed[i + 1..] == before[i..][1..] == states[i..][1..];
    }
    assert states[..|states|] == states && probed[..|states|] == probed;
  }

  /** `t` is what a probe makes of the device `s`, of an address of its own: a device that
      takes no mode shows none, one recorded unreadable is left as it was, and any other
      shows what the hardware reports. */
  ghost predicate ReadOrRecorded(cat: Catalog, w: World, s: DeviceState, t: DeviceState, unreadable: set<Address>) {
    match Opens(cat, s)
    case None => s.address !in unreadable && t == s.(seen := Seen(None, None))
    case Some(kind) =>
      t == if s.address in unreadable then s else s.(seen := See(kind, w.Stored(s.address)))
  }

  /** Probing changes no register, binding or file; it keeps who the devices are, and a
      device it does not report unreadable it reports as it is. With addresses unique, one
      it does report unreadable it leaves as it was. */
  lemma ProbeReads(cat: Catalog, w: World, states: seq<DeviceState>)
    ensures var p := ProbeAll(cat, w, states);
            && p.w == w.(clock := p.w.clock, trace := p.w.trace)
            && w.trace <= p.w.trace
            && (forall i | |w.trace| <= i < |p.w.trace| :: p.w.trace[i].e.Probe?)
            && |p.states| == |states|
            && (forall i | 0 <= i < |states| ::
                  && p.states[i] == states[i].(seen := p.states[i].seen)
                  && match Opens(cat, states[i]) {
                       case None => p.states[i].seen == Seen(None, None)
                       case Some(kind) =>
                         || p.states[i].seen == See(kind, w.Stored(states[i].address))
                         || (p.states[i] == states[i] && states[i].address in p.unreadable)
                     })
    ensures UniqueAddresses(states) ==>
      var p := ProbeAll(cat, w, states);
      && |p.states| == |states|
      && forall i | 0 <= i < |states| :: ReadOrRecorded(cat, w, states[i], p.states[i], p.unreadable)
  {
    ProbeOnlyReads(cat, w, states);
    hide ProbeAll, Opens, See, ReadOrRecorded, UniqueAddresses;
    if UniqueAddresses(states) { ProbeRecords(cat, w, states); }
  }

  lemma {:induction false} ProbeOnlyReads(cat: Catalog, w: World, states: seq<DeviceState>)
    ensures var p := ProbeAll(cat, w, states);
            && p.w == w.(clock := p.w.clock, trace := p.w.trace)
            && w.trace <= p.w.trace
            && (forall i | |w.trace| <= i < |p.w.trace| :: p.w.trace[i].e.Probe?)
            && |p.states| == |states|
            && (forall i | 0 <= i < |states| ::
                  && p.states[i] == states[i].(seen := p.states[i].seen)
                  && match Opens(cat, states[i]) {
                       case None => p.states[i].seen == Seen(None, None)
                       case Some(kind) =>
                         || p.states[i].seen == See(kind, w.Stored(states[i].address))
                         || (p.states[i] == states[i] && states[i].address in p.unreadable)
                     })
  {
    hide Opens, See;
    if states != [] {
      ProbeOnlyReads(cat, w, states[..|states| - 1]);
    }
  }

  lemma {:induction false} ProbeRecords(cat: Catalog, w: World, states: seq<DeviceState>)
    requires UniqueAddresses(states)
    ensures var p := ProbeAll(cat, w, states);
            && |p.states| == |states|
            && forall i | 0 <= i < |states| :: ReadOrRecorded(cat, w, states[i], p.states[i], p.unreadable)
  {
    hide Opens, See, Do;
    if states != [] {
      var init, s := states[..|states| - 1], states[|states| - 1];
      ProbeRecords(cat, w, init);
      ProbeOnlyReads(cat, w, init);
      RecordedAreDevices(cat, w, init);
      forall i | 0 <= i < |init| ensures init[i].address != s.address {
        assert init[i] == states[i];
      }
    }
  }

  /** A probe looks at each participant once, in their order, and at nothing else. */
  lemma {:induction false} ProbesEach(cat: Catalog, w: World, states: seq<DeviceState>)
    ensures var p, devices := ProbeAll(cat, w, states), Participants(cat, states);
            && |p.w.trace| == |w.trace| + |devices| && w.trace <= p.w.trace
            && forall i | 0 <= i < |devices| :: p.w.trace[|w.trace| + i].e == Probe(devices[i].a)
  {
    hide Opens, See, Do;
    if states != [] {
      var init, s := states[..|states| - 1], states[|states| - 1];
      ProbesEach(cat, w, init);
      DoRecords(ProbeAll(cat, w, init).w, Probe(s.address));
    }
  }

  lemma {:induction false} RecordedAreDevices(cat: Catalog, w: World, states: seq<DeviceState>)
    ensures forall a | a in ProbeAll(cat, w, states).unreadable :: exists s | s in states :: s.address == a
  {
    hide Opens, See, Do;
    if states != [] {
      var init, s := states[..|states| - 1], states[|states| - 1];
      RecordedAreDevices(cat, w, init);
      assert states == init + [s];
    }
  }

  // ---------------------------------------------------------------- the script of a mode change

  /** A device that opened. */
  datatype Opened = Opened(a: Address, kind: Kind)

  /** A device with writes to make. */
  datatype Pending = Pending(a: Address, kind: Kind, writes: seq<Write>)

  datatype Transition = AlreadySet | Applied

  function Participants(cat: Catalog, states: seq<DeviceState>): seq<Opened> {
    if states == [] then []
    else
      var before, s := Participants(cat, states[..|states| - 1]), states[|states| - 1];
      if Opens(cat, s).Some? then before + [Opened(s.address, Opens(cat, s).value)] else before
  }

  function Plan(w: World, d: Opened, mode: Mode): seq<Write> {
    WritesFor(See(d.kind, w.Stored(d.a)), mode)
  }

  function PendingOf(w: World, devices: seq<Opened>, mode: Mode): seq<Pending> {
    if devices == [] then []
    else
      var before, d := PendingOf(w, devices[..|devices| - 1], mode), devices[|devices| - 1];
      if Plan(w, d, mode) == [] then before else before + [Pending(d.a, d.kind, Plan(w, d, mode))]
  }

  function Outcome(d: Opened, plan: seq<Write>): (Address, Transition) {
    (d.a, if plan == [] then AlreadySet else Applied)
  }

  function Outcomes(w: World, devices: seq<Opened>, mode: Mode): seq<(Address, Transition)> {
    if devices == [] then []
    else
      var d := devices[|devices| - 1];
      Outcomes(w, devices[..|devices| - 1], mode) + [Outcome(d, Plan(w, d, mode))]
  }

  function OpenEvents(devices: seq<Opened>): seq<Event> {
    seq(|devices|, i requires 0 <= i < |devices| => Open(devices[i].a))
  }

  function ReadEvents(devices: seq<Opened>): seq<Event> {
    seq(|devices|, i requires 0 <= i < |devices| => Read(devices[i].a))
  }

  function SetEvents(p: Pending): seq<Event> {
    seq(|p.writes|, i requires 0 <= i < |p.writes| => Set(p.a, p.kind, p.writes[i]))
  }

  function WriteEvents(pending: seq<Pending>): seq<Event> {
    if pending == [] then []
    else WriteEvents(pending[..|pending| - 1]) + SetEvents(pending[|pending| - 1])
  }

  function ResetEvents(pending: seq<Pending>): seq<Event> {
    seq(|pending|, i requires 0 <= i < |pending| => Reset(pending[i].a))
  }

  function VerifyEvents(devices: seq<Opened>, mode: Mode): seq<Event> {
    seq(|devices|, i requires 0 <= i < |devices| => Verify(devices[i].a, devices[i].kind, mode))
  }

  /** Everything before the first write. */
  function Preparation(devices: seq<Opened>): seq<Event> { OpenEvents(devices) + ReadEvents(devices) }

  /** Everything before the first reset. */
  function UpToResets(w: World, devices: seq<Opened>, mode: Mode): seq<Event> {
    Preparation(devices) + WriteEvents(PendingOf(w, devices, mode))
  }

  /** Everything before the final verification. */
  function UpToVerify(w: World, devices: seq<Opened>, mode: Mode): seq<Event> {
    UpToResets(w, devices, mode) + ResetEvents(PendingOf(w, devices, mode))
  }

  /** The whole transaction, as planned from the board's state at its start. */
  function Board(cat: Catalog, states: seq<DeviceState>, w: World, mode: Mode): seq<Event> {
    var devices := Participants(cat, states);
    UpToVerify(w, devices, mode) + VerifyEvents(devices, mode)
  }

  lemma MidWindow(before: seq<Event>, part: seq<Event>, after: seq<Event>, script: seq<Event>)
    requires script == before + part + after
    ensures Window(script, |before|, part)
  {
  }

  lemma FiveWindows(script: seq<Event>, a: seq<Event>, b: seq<Event>, c: seq<Event>, d: seq<Event>, e: seq<Event>)
    requires script == (((a + b) + c) + d) + e
    ensures Window(script, 0, a) && Window(script, |a|, b) && Window(script, |a| + |b|, c)
    ensures Window(script, |a| + |b| + |c|, d) && Window(script, |a| + |b| + |c| + |d|, e)
    ensures |script| == |a| + |b| + |c| + |d| + |e|
  {
    hide Window;
    MidWindow([], a, b + c + d + e, script);
    MidWindow(a, b, c + d + e, script);
    MidWindow(a + b, c, d + e, script);
    MidWindow(a + b + c, d, e, script);
    MidWindow(a + b + c + d, e, [], script);
  }

  /** Where the five loops' events lie in the script. */
  ghost predicate Laid(script: seq<Event>, ds: seq<Opened>, pending: seq<Pending>, mode: Mode) {
    var resets := 2 * |ds| + |WriteEvents(pending)|;
    && Window(script, 0, OpenEvents(ds))
    && Window(script, |ds|, ReadEvents(ds))
    && Window(script, 2 * |ds|, WriteEvents(pending))
    && Window(script, resets, ResetEvents(pending))
    && Window(script, resets + |pending|, VerifyEvents(ds, mode))
    && |script| == resets + |pending| + |ds|
  }

  lemma LaidInOrder(script: seq<Event>, ds: seq<Opened>, pending: seq<Pending>, mode: Mode)
    requires script == (((OpenEvents(ds) + ReadEvents(ds)) + WriteEvents(pending)) + ResetEvents(pending))
                       + VerifyEvents(ds, mode)
    ensures Laid(script, ds, pending, mode)
  {
    hide WriteEvents, OpenEvents, ReadEvents, ResetEvents, VerifyEvents, Window;
    OnePerDevice(ds, pending, mode);
    FiveWindows(script, OpenEvents(ds), ReadEvents(ds), WriteEvents(pending), ResetEvents(pending),
                VerifyEvents(ds, mode));
  }

  lemma OnePerDevice(ds: seq<Opened>, pending: seq<Pending>, mode: Mode)
    ensures |OpenEvents(ds)| == |ReadEvents(ds)| == |VerifyEvents(ds, mode)| == |ds|
    ensures |ResetEvents(pending)| == |pending|
  {
  }

  lemma BoardLaid(cat: Catalog, states: seq<DeviceState>, w: World, mode: Mode)
    ensures var ds := Participants(cat, states);
            Laid(Board(cat, states, w, mode), ds, PendingOf(w, ds, mode), mode)
  {
    hide Participants, PendingOf, WriteEvents, OpenEvents, ReadEvents, ResetEvents, VerifyEvents, Window, Laid;
    var ds := Participants(cat, states);
    LaidInOrder(Board(cat, states, w, mode), ds, PendingOf(w, ds, mode), mode);
  }

  lemma {:induction false} ParticipantsPrefix(cat: Catalog, states: seq<DeviceState>, i: nat)
    requires i <= |states|
    ensures Participants(cat, states[..i]) <= Participants(cat, states)
  {
    if i < |states| {
      ParticipantsPrefix(cat, states[..|states| - 1], i);
      assert states[..|states| - 1][..i] == states[..i];
    } else {
      assert states[..i] == states;
    }
  }

  lemma {:induction false} WriteEventsPrefix(pending: seq<Pending>, i: nat)
    requires i <= |pending|
    ensures WriteEvents(pending[..i]) <= WriteEvents(pending)
  {
    if i < |pending| {
      WriteEventsPrefix(pending[..|pending| - 1], i);
      assert pending[..|pending| - 1][..i] == pending[..i];
    } else {
      assert pending[..i] == pending;
    }
  }

  /** `nvidia::apply`, one method for each of its loops. `None` for an error. */
  method Apply(node: Node, cat: Catalog, states: seq<DeviceState>, mode: Mode)
    returns (r: Option<seq<(Address, Transition)>>)
    modifies node
    ensures Ran(node.View(), r.Some?) == RunAll(old(node.View()), Board(cat, states, old(node.View()), mode))
    ensures r.Some? ==> r.value == Outcomes(old(node.View()), Participants(cat, states), mode)
  {
    ghost var w := node.View();
    ghost var script := Board(cat, states, w, mode);
    BoardLaid(cat, states, w, mode);
    r := RunBoard(node, cat, states, mode, Course(w, script), w, script);
  }

  method RunBoard(node: Node, cat: Catalog, states: seq<DeviceState>, mode: Mode, ghost at: nat -> Ran, ghost w: World,
                  ghost script: seq<Event>)
    returns (r: Option<seq<(Address, Transition)>>)
    requires Tracks(at, w, script) && Ran(node.View(), true) == at(0) && node.View() == w
    requires var ds := Participants(cat, states); Laid(script, ds, PendingOf(w, ds, mode), mode)
    modifies node
    ensures Ran(node.View(), r.Some?) == at(|script|)
    ensures r.Some? ==> r.value == Outcomes(w, Participants(cat, states), mode)
  {
    var ok, devices := OpenAll(node, cat, states, at, w, script);
    if !ok { return None; }
    var pending, outcomes;
    ok, pending, outcomes := ReadAndPlan(node, devices, mode, at, w, script, |devices|);
    if !ok { return None; }
    ok := CarryOut(node, devices, pending, mode, at, w, script);
    if !ok { return None; }
    return Some(outcomes);
  }

  method CarryOut(node: Node, devices: seq<Opened>, pending: seq<Pending>, mode: Mode, ghost at: nat -> Ran,
                  ghost w: World, ghost script: seq<Event>)
    returns (ok: bool)
    requires Tracks(at, w, script) && Laid(script, devices, pending, mode)
    requires Ran(node.View(), true) == at(2 * |devices|)
    modifies node
    ensures Ran(node.View(), ok) == at(|script|)
  {
    ghost var resets := 2 * |devices| + |WriteEvents(pending)|;
    hide WriteEvents, ResetEvents, VerifyEvents, OpenEvents, ReadEvents, Window;
    ok := WriteAll(node, pending, at, w, script, 2 * |devices|);
    if !ok { return; }
    ok := ResetAll(node, pending, at, w, script, resets);
    if !ok { return; }
    ok := VerifyAll(node, devices, mode, at, w, script, resets + |pending|);
  }

  method OpenAll(node: Node, cat: Catalog, states: seq<DeviceState>, ghost at: nat -> Ran, ghost w: World,
                 ghost script: seq<Event>)
    returns (ok: bool, devices: seq<Opened>)
    requires Tracks(at, w, script) && Window(script, 0, OpenEvents(Participants(cat, states)))
    requires Ran(node.View(), true) == at(0)
    modifies node
    ensures ok ==> devices == Participants(cat, states)
    ensures ok ==> Ran(node.View(), true) == at(|devices|) && node.stored == old(node.stored)
    ensures !ok ==> Ran(node.View(), false) == at(|script|)
  {
    ghost var all := Participants(cat, states);
    devices := [];
    for i := 0 to |states|
      invariant devices == Participants(cat, states[..i]) && devices <= all
      invariant Ran(node.View(), true) == at(|devices|) && node.stored == old(node.stored)
    {
      assert states[..i + 1][..i] == states[..i];
      ParticipantsPrefix(cat, states, i + 1);
      var kind := Opens(cat, states[i]);
      if kind.Some? {
        ghost var n := |devices|;
        devices := devices + [Opened(states[i].address, kind.value)];
        assert all[n] == devices[n];
        WindowAt(script, 0, OpenEvents(all), n);
        ok := Follow(node, at, w, script, n, Open(states[i].address));
        if !ok { return; }
      }
    }
    assert states[..|states|] == states;
    ok := true;
  }

  /** Every device is read, and planned for, before any is written. */
  method ReadAndPlan(node: Node, devices: seq<Opened>, mode: Mode, ghost at: nat -> Ran, ghost w: World,
                     ghost script: seq<Event>, ghost start: nat)
    returns (ok: bool, pending: seq<Pending>, outcomes: seq<(Address, Transition)>)
    requires Tracks(at, w, script) && Window(script, start, ReadEvents(devices))
    requires Ran(node.View(), true) == at(start) && node.stored == w.stored
    modifies node
    ensures ok ==> pending == PendingOf(w, devices, mode) && outcomes == Outcomes(w, devices, mode)
    ensures ok ==> Ran(node.View(), true) == at(start + |devices|)
    ensures !ok ==> Ran(node.View(), false) == at(|script|)
  {
    pending, outcomes := [], [];
    for i := 0 to |devices|
      invariant Ran(node.View(), true) == at(start + i) && node.stored == w.stored
      invariant pending == PendingOf(w, devices[..i], mode) && outcomes == Outcomes(w, devices[..i], mode)
    {
      WindowAt(script, start, ReadEvents(devices), i);
      ok, pending, outcomes := PlanNext(node, devices, i, pending, outcomes, mode, at, w, script, start + i);
      if !ok { return; }
    }
    assert devices[..|devices|] == devices;
    ok := true;
  }

  /** One turn of the second loop: read a device, and add what is to be done with it. */
  method PlanNext(node: Node, devices: seq<Opened>, i: nat, planned: seq<Pending>,
                  outcomes: seq<(Address, Transition)>, mode: Mode,
                  ghost at: nat -> Ran, ghost w: World, ghost script: seq<Event>, ghost n: nat)
    returns (ok: bool, pending: seq<Pending>, more: seq<(Address, Transition)>)
    requires i < |devices| && Tracks(at, w, script) && n < |script| && script[n] == Read(devices[i].a)
    requires Ran(node.View(), true) == at(n) && node.stored == w.stored
    requires planned == PendingOf(w, devices[..i], mode) && outcomes == Outcomes(w, devices[..i], mode)
    modifies node
    ensures ok ==> Ran(node.View(), true) == at(n + 1) && node.stored == w.stored
    ensures ok ==> pending == PendingOf(w, devices[..i + 1], mode) && more == Outcomes(w, devices[..i + 1], mode)
    ensures !ok ==> Ran(node.View(), false) == at(|script|)
  {
    var d := devices[i];
    pending, more := planned, outcomes;
    ok := Follow(node, at, w, script, n, Read(d.a));
    if !ok { return; }
    var writes := WritesFor(See(d.kind, node.Stored(d.a)), mode);
    assert writes == Plan(w, d, mode);
    hide Plan, PendingOf, Outcomes;
    PlanMore(w, devices, mode, i, writes);
    more := more + [Outcome(d, writes)];
    if writes != [] { pending := pending + [Pending(d.a, d.kind, writes)]; }
  }

  lemma PlanMore(w: World, devices: seq<Opened>, mode: Mode, i: nat, writes: seq<Write>)
    requires i < |devices| && writes == Plan(w, devices[i], mode)
    ensures var d := devices[i];
            && Outcomes(w, devices[..i + 1], mode) == Outcomes(w, devices[..i], mode) + [Outcome(d, writes)]
            && PendingOf(w, devices[..i + 1], mode)
               == PendingOf(w, devices[..i], mode) + (if writes == [] then [] else [Pending(d.a, d.kind, writes)])
  {
    assert devices[..i + 1][..i] == devices[..i];
  }

  method WriteAll(node: Node, pending: seq<Pending>, ghost at: nat -> Ran, ghost w: World, ghost script: seq<Event>,
                  ghost start: nat)
    returns (ok: bool)
    requires Tracks(at, w, script) && Window(script, start, WriteEvents(pending))
    requires Ran(node.View(), true) == at(start)
    modifies node
    ensures ok ==> Ran(node.View(), true) == at(start + |WriteEvents(pending)|)
    ensures !ok ==> Ran(node.View(), false) == at(|script|)
  {
    for i := 0 to |pending|
      invariant Ran(node.View(), true) == at(start + |WriteEvents(pending[..i])|)
    {
      ghost var from := |WriteEvents(pending[..i])|;
      WriteEventsWindow(pending, i);
      WindowWithin(script, start, WriteEvents(pending), from, SetEvents(pending[i]));
      ok := WriteDevice(node, pending[i], at, w, script, start + from);
      if !ok { return; }
    }
    assert pending[..|pending|] == pending;
    ok := true;
  }

  method WriteDevice(node: Node, p: Pending, ghost at: nat -> Ran, ghost w: World, ghost script: seq<Event>,
                     ghost start: nat)
    returns (ok: bool)
    requires Tracks(at, w, script) && Window(script, start, SetEvents(p))
    requires Ran(node.View(), true) == at(start)
    modifies node
    ensures ok ==> Ran(node.View(), true) == at(start + |p.writes|)
    ensures !ok ==> Ran(node.View(), false) == at(|script|)
  {
    for j := 0 to |p.writes|
      invariant Ran(node.View(), true) == at(start + j)
    {
      WindowAt(script, start, SetEvents(p), j);
      ok := Follow(node, at, w, script, start + j, Set(p.a, p.kind, p.writes[j]));
      if !ok { return; }
    }
    ok := true;
  }

  lemma WindowWithin(script: seq<Event>, start: nat, part: seq<Event>, from: nat, inner: seq<Event>)
    requires Window(script, start, part) && Window(part, from, inner)
    ensures Window(script, start + from, inner)
  {
    var at := start + from;
    forall i | 0 <= i < |inner| ensures script[at..at + |inner|][i] == inner[i] {
      WindowAt(part, from, inner, i);
      WindowAt(script, start, part, from + i);
    }
  }

  lemma WriteEventsWindow(pending: seq<Pending>, i: nat)
    requires i < |pending|
    ensures var from := |WriteEvents(pending[..i])|;
            && |WriteEvents(pending[..i + 1])| == from + |pending[i].writes|
            && Window(WriteEvents(pending), from, SetEvents(pending[i]))
  {
    assert pending[..i + 1][..i] == pending[..i];
    WriteEventsPrefix(pending, i + 1);
  }

  /** No device is reset until every device is written. */
  method ResetAll(node: Node, pending: seq<Pending>, ghost at: nat -> Ran, ghost w: World, ghost script: seq<Event>,
                  ghost start: nat)
    returns (ok: bool)
    requires Tracks(at, w, script) && Window(script, start, ResetEvents(pending))
    requires Ran(node.View(), true) == at(start)
    modifies node
    ensures ok ==> Ran(node.View(), true) == at(start + |pending|)
    ensures !ok ==> Ran(node.View(), false) == at(|script|)
  {
    for i := 0 to |pending|
      invariant Ran(node.View(), true) == at(start + i)
    {
      WindowAt(script, start, ResetEvents(pending), i);
      ok := Follow(node, at, w, script, start + i, Reset(pending[i].a));
      if !ok { return; }
    }
    ok := true;
  }

  method VerifyAll(node: Node, devices: seq<Opened>, mode: Mode, ghost at: nat -> Ran, ghost w: World,
                   ghost script: seq<Event>, ghost start: nat)
    returns (ok: bool)
    requires Tracks(at, w, script) && Window(script, start, VerifyEvents(devices, mode))
    requires Ran(node.View(), true) == at(start)
    modifies node
    ensures ok ==> Ran(node.View(), true) == at(start + |devices|)
    ensures !ok ==> Ran(node.View(), false) == at(|script|)
  {
    for i := 0 to |devices|
      invariant Ran(node.View(), true) == at(start + i)
    {
      WindowAt(script, start, VerifyEvents(devices, mode), i);
      ok := Follow(node, at, w, script, start + i, Verify(devices[i].a, devices[i].kind, mode));
      if !ok { return; }
    }
    ok := true;
  }
}
