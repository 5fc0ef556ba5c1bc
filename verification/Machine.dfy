/** The node a run acts on, and the primitives it acts with. Every primitive may fail,
    before or after it took effect, and a run stops at the first that does, so the runs
    over all fault patterns are the runs stopped at every possible point. */
module Machine {
  import opened Text
  import opened Modes
  import opened Knobs

  type Address = string

  datatype Fault = NoFault | FailsBefore | FailsAfter

  /** What the surroundings do to the n-th primitive of a run: `fault` makes it report an
      error, `deaf` makes a knob write report success without taking. */
  datatype Env = Env(fault: nat -> Fault, deaf: nat -> bool)

  datatype File = ModulesLoad | Modprobe | UdevRules

  datatype Files = Files(modulesLoad: Option<string>, modprobe: Option<string>, udev: Option<string>) {
    function Write(file: File, text: Option<string>): Files {
      match file
      case ModulesLoad => this.(modulesLoad := text)
      case Modprobe => this.(modprobe := text)
      case UdevRules => this.(udev := text)
    }
  }

  const NO_FILES := Files(None, None, None)

  datatype Event =
    | Open(a: Address)
    | Read(a: Address)                                // the knobs, to plan from
    | Probe(a: Address)                               // open and read, ahead of the idle check
    | Set(a: Address, kind: Kind, write: Write)
    | Reset(a: Address)
    | Verify(a: Address, kind: Kind, mode: Mode)      // re-read, and refuse another mode
    | Load(modl: string)
    | Put(file: File, text: string)
    | Drop(file: File)
    | Bind(a: Address, driver: string)
    | Unbind(a: Address)
    | CheckBound(a: Address, driver: string)
    | Bail                                            // the run's own refusal
  {
    /** Takes a device from whoever uses it. */
    predicate Disturbs() { Set? || Reset? || Bind? || Unbind? }
  }

  /** An attempted primitive, and whether it took effect. */
  datatype Step = Step(e: Event, acted: bool)

  datatype World = World(
    env: Env,
    clock: nat,
    stored: map<Address, Regs>,     // the knobs as written and reported back
    latched: map<Address, Regs>,    // the knobs as the device behaves
    drivers: map<Address, string>,  // unbound devices are absent
    loaded: set<string>,
    files: Files,
    trace: seq<Step>)
  {
    function Stored(a: Address): Regs { if a in stored then stored[a] else Regs(CcOff, PpcieOff) }

    function Latched(a: Address): Regs { if a in latched then latched[a] else Regs(CcOff, PpcieOff) }

    function Driver(a: Address): Option<string> { if a in drivers then Some(drivers[a]) else None }
  }

  /** The primitive reports an error of its own accord and has no effect. */
  predicate Refuses(w: World, e: Event) {
    match e
    case Set(_, kind, write) => !Accepts(kind, write)
    case Verify(a, kind, mode) => !InMode(See(kind, w.Stored(a)), mode)
    case Bind(a, driver) => w.Driver(a).Some? && w.Driver(a) != Some(driver)
    case CheckBound(a, driver) => w.Driver(a) != Some(driver)
    case Bail => true
    case _ => false
  }

  function Effect(w: World, e: Event): World {
    match e
    case Set(a, _, write) =>
      if w.env.deaf(w.clock) then w else w.(stored := w.stored[a := Fire(w.Stored(a), write)])
    case Reset(a) => w.(latched := w.latched[a := w.Stored(a)])
    case Load(modl) => w.(loaded := w.loaded + {modl})
    case Put(file, text) => w.(files := w.files.Write(file, Some(text)))
    case Drop(file) => w.(files := w.files.Write(file, None))
    case Bind(a, driver) => w.(drivers := w.drivers[a := driver])
    case Unbind(a) => w.(drivers := w.drivers - {a})
    case _ => w
  }

  datatype Ran = Ran(w: World, ok: bool)

  predicate Acts(w: World, e: Event) {
    && !Refuses(w, e)
    && w.env.fault(w.clock) != FailsBefore
    && !(e.Bind? && w.Driver(e.a) == Some(e.driver))   // already bound
  }

  function Do(w: World, e: Event): Ran {
    var acted := Acts(w, e);
    var w' := if acted then Effect(w, e) else w;
    Ran(w'.(clock := w.clock + 1, trace := w.trace + [Step(e, acted)]),
        !Refuses(w, e) && w.env.fault(w.clock) == NoFault)
  }

  /** The events in order, up to the first that reports an error. */
  function RunAll(w: World, es: seq<Event>): Ran {
    if es == [] then Ran(w, true)
    else
      var r := RunAll(w, es[..|es| - 1]);
      if r.ok then Do(r.w, es[|es| - 1]) else r
  }

  class Node {
    const env: Env
    var clock: nat
    var stored: map<Address, Regs>
    var latched: map<Address, Regs>
    var drivers: map<Address, string>
    var loaded: set<string>
    var files: Files
    ghost var trace: seq<Step>

    ghost function View(): World
      reads this
    {
      World(env, clock, stored, latched, drivers, loaded, files, trace)
    }

    function Stored(a: Address): (r: Regs)
      reads this
      ensures r == View().Stored(a)
    {
      if a in stored then stored[a] else Regs(CcOff, PpcieOff)
    }

    function Driver(a: Address): (r: Option<string>)
      reads this
      ensures r == View().Driver(a)
    {
      if a in drivers then Some(drivers[a]) else None
    }

    constructor (w: World)
      ensures View() == w.(trace := [])
    {
      env, clock := w.env, w.clock;
      stored, latched, drivers, loaded, files := w.stored, w.latched, w.drivers, w.loaded, w.files;
      trace := [];
    }

    predicate Rejects(e: Event)
      reads this
      ensures Rejects(e) == Refuses(View(), e)
    {
      match e
      case Set(_, kind, write) => !Accepts(kind, write)
      case Verify(a, kind, mode) => !InMode(See(kind, Stored(a)), mode)
      case Bind(a, driver) => Driver(a).Some? && Driver(a) != Some(driver)
      case CheckBound(a, driver) => Driver(a) != Some(driver)
      case Bail => true
      case _ => false
    }

    /** One primitive of the hardware, of sysfs or of the filesystem. */
    method Perform(e: Event) returns (ok: bool)
      modifies this
      ensures Ran(View(), ok) == Do(old(View()), e)
    {
      var refused, fault, deaf := Rejects(e), env.fault(clock), env.deaf(clock);
      ok := !refused && fault == NoFault;
      var acts := !refused && fault != FailsBefore && !(e.Bind? && Driver(e.a) == Some(e.driver));
      if acts {
        match e
        case Set(a, _, write) => if !deaf { stored := stored[a := Fire(Stored(a), write)]; }
        case Reset(a) => latched := latched[a := Stored(a)];
        case Load(modl) => loaded := loaded + {modl};
        case Put(file, text) => files := files.Write(file, Some(text));
        case Drop(file) => files := files.Write(file, None);
        case Bind(a, driver) => drivers := drivers[a := driver];
        case Unbind(a) => drivers := drivers - {a};
        case _ =>
      }
      clock := clock + 1;
      trace := trace + [Step(e, acts)];
    }
  }

  // ---------------------------------------------------------------- runs

  /** A run of two halves is a run of the first, then of the second if the first held. */
  lemma {:induction false} RunSplit(w: World, es: seq<Event>, fs: seq<Event>)
    ensures RunAll(w, es + fs) == (var r := RunAll(w, es); if r.ok then RunAll(r.w, fs) else r)
  {
    if fs == [] {
      assert es + fs == es;
    } else {
      var init := fs[..|fs| - 1];
      assert (es + fs)[..|es + fs| - 1] == es + init;
      RunSplit(w, es, init);
    }
  }

  lemma RunMore(w: World, es: seq<Event>, e: Event)
    ensures RunAll(w, es + [e]) == (var r := RunAll(w, es); if r.ok then Do(r.w, e) else r)
  {
    assert (es + [e])[..|es + [e]| - 1] == es;
  }

  lemma DoRecords(w: World, e: Event)
    ensures var r := Do(w, e);
            r.w.env == w.env && r.w.clock == w.clock + 1 && r.w.trace == w.trace + [Step(e, Acts(w, e))]
  {
    hide Acts, Refuses;
  }

  /** A run attempts a prefix of its events, in order: all of them when it succeeds, and
      at least one when it does not. */
  lemma {:induction false} RunTrace(w: World, es: seq<Event>)
    ensures var r := RunAll(w, es);
            && |w.trace| <= |r.w.trace| <= |w.trace| + |es|
            && r.w.trace[..|w.trace|] == w.trace
            && (forall i | |w.trace| <= i < |r.w.trace| :: r.w.trace[i].e == es[i - |w.trace|])
            && (r.ok ==> |r.w.trace| == |w.trace| + |es|)
            && (!r.ok ==> |r.w.trace| > |w.trace|)
            && r.w.env == w.env
            && r.w.clock - w.clock == |r.w.trace| - |w.trace|
  {
    if es != [] {
      var init := es[..|es| - 1];
      hide Do;
      RunTrace(w, init);
      DoRecords(RunAll(w, init).w, es[|es| - 1]);
    }
  }

  // What a kind of event never touches, a run of other events leaves alone.

  lemma DoKeeps(w: World, e: Event)
    ensures !e.Set? ==> Do(w, e).w.stored == w.stored
    ensures !e.Reset? ==> Do(w, e).w.latched == w.latched
    ensures !e.Bind? && !e.Unbind? ==> Do(w, e).w.drivers == w.drivers
    ensures !e.Put? && !e.Drop? ==> Do(w, e).w.files == w.files
    ensures !e.Load? ==> Do(w, e).w.loaded == w.loaded
  {
    hide Acts, Refuses;
  }

  lemma DoKeepsAt(w: World, e: Event, a: Address)
    ensures !(e.Set? && e.a == a) ==> Do(w, e).w.Stored(a) == w.Stored(a)
    ensures !(e.Reset? && e.a == a) ==> Do(w, e).w.Latched(a) == w.Latched(a)
    ensures !((e.Bind? || e.Unbind?) && e.a == a) ==> Do(w, e).w.Driver(a) == w.Driver(a)
  {
    hide Acts, Refuses, Fire;
  }

  lemma {:induction false} KeepsStored(w: World, es: seq<Event>)
    requires forall e | e in es :: !e.Set?
    ensures RunAll(w, es).w.stored == w.stored
  {
    if es != [] {
      var init := es[..|es| - 1];
      hide Do;
      KeepsStored(w, init);
      DoKeeps(RunAll(w, init).w, es[|es| - 1]);
    }
  }

  lemma {:induction false} KeepsLatched(w: World, es: seq<Event>)
    requires forall e | e in es :: !e.Reset?
    ensures RunAll(w, es).w.latched == w.latched
  {
    if es != [] {
      var init := es[..|es| - 1];
      hide Do;
      KeepsLatched(w, init);
      DoKeeps(RunAll(w, init).w, es[|es| - 1]);
    }
  }

  lemma {:induction false} KeepsDrivers(w: World, es: seq<Event>)
    requires forall e | e in es :: !e.Bind? && !e.Unbind?
    ensures RunAll(w, es).w.drivers == w.drivers
  {
    if es != [] {
      var init := es[..|es| - 1];
      hide Do;
      KeepsDrivers(w, init);
      DoKeeps(RunAll(w, init).w, es[|es| - 1]);
    }
  }

  lemma {:induction false} KeepsFiles(w: World, es: seq<Event>)
    requires forall e | e in es :: !e.Put? && !e.Drop?
    ensures RunAll(w, es).w.files == w.files
  {
    if es != [] {
      var init := es[..|es| - 1];
      hide Do;
      KeepsFiles(w, init);
      DoKeeps(RunAll(w, init).w, es[|es| - 1]);
    }
  }

  lemma {:induction false} KeepsLoaded(w: World, es: seq<Event>)
    requires forall e | e in es :: !e.Load?
    ensures RunAll(w, es).w.loaded == w.loaded
  {
    if es != [] {
      var init := es[..|es| - 1];
      hide Do;
      KeepsLoaded(w, init);
      DoKeeps(RunAll(w, init).w, es[|es| - 1]);
    }
  }

  // And what no event of the run addresses stays as it is for that device.

  lemma {:induction false} KeepsStoredAt(w: World, es: seq<Event>, a: Address)
    requires forall e | e in es :: !(e.Set? && e.a == a)
    ensures RunAll(w, es).w.Stored(a) == w.Stored(a)
  {
    if es != [] {
      var init := es[..|es| - 1];
      hide Do;
      KeepsStoredAt(w, init, a);
      DoKeepsAt(RunAll(w, init).w, es[|es| - 1], a);
    }
  }

  lemma {:induction false} KeepsLatchedAt(w: World, es: seq<Event>, a: Address)
    requires forall e | e in es :: !(e.Reset? && e.a == a)
    ensures RunAll(w, es).w.Latched(a) == w.Latched(a)
  {
    if es != [] {
      var init := es[..|es| - 1];
      hide Do;
      KeepsLatchedAt(w, init, a);
      DoKeepsAt(RunAll(w, init).w, es[|es| - 1], a);
    }
  }

  lemma {:induction false} KeepsDriverAt(w: World, es: seq<Event>, a: Address)
    requires forall e | e in es :: !((e.Bind? || e.Unbind?) && e.a == a)
    ensures RunAll(w, es).w.Driver(a) == w.Driver(a)
  {
    if es != [] {
      var init := es[..|es| - 1];
      hide Do;
      KeepsDriverAt(w, init, a);
      DoKeepsAt(RunAll(w, init).w, es[|es| - 1], a);
    }
  }

  /** A run ends as if only the events it attempted had been asked for. */
  lemma {:induction false} RunAttempted(w: World, es: seq<Event>)
    ensures var r := RunAll(w, es);
            var n := |r.w.trace| - |w.trace|;
            && 0 <= n <= |es|
            && RunAll(w, es[..n]) == r
  {
    RunTrace(w, es);
    if es != [] {
      var init := es[..|es| - 1];
      RunAttempted(w, init);
      RunTrace(w, init);
      var r := RunAll(w, init);
      if r.ok {
        assert es[..|es|] == es;
      } else {
        var n := |r.w.trace| - |w.trace|;
        assert init[..n] == es[..n];
      }
    } else {
      assert es[..0] == es;
    }
  }

  lemma RunStops(w: World, n: nat, script: seq<Event>)
    requires n < |script| && RunAll(w, script[..n]).ok && !Do(RunAll(w, script[..n]).w, script[n]).ok
    ensures RunAll(w, script) == Do(RunAll(w, script[..n]).w, script[n])
  {
    RunMore(w, script[..n], script[n]);
    assert script[..n + 1] == script[..n] + [script[n]];
    RunSplit(w, script[..n + 1], script[n + 1..]);
    assert script == script[..n + 1] + script[n + 1..];
  }

  /** `at(n)` is where a script has got after its first n events. */
  ghost predicate Tracks(at: nat -> Ran, w: World, script: seq<Event>) {
    forall n: nat {:trigger RunAll(w, script[..n])} | n <= |script| :: at(n) == RunAll(w, script[..n])
  }

  ghost function Course(w: World, script: seq<Event>): (at: nat -> Ran)
    ensures Tracks(at, w, script) && at(0) == Ran(w, true) && at(|script|) == RunAll(w, script)
  {
    assert script[..|script|] == script;
    (n: nat) => if n <= |script| then RunAll(w, script[..n]) else Ran(w, false)
  }

  /** `part` is what the script has from `start` on. */
  ghost predicate Window(script: seq<Event>, start: nat, part: seq<Event>) {
    start + |part| <= |script| && script[start..start + |part|] == part
  }

  lemma WindowAt(script: seq<Event>, start: nat, part: seq<Event>, i: nat)
    requires Window(script, start, part) && i < |part|
    ensures start + i < |script| && script[start + i] == part[i]
  {
    assert script[start..start + |part|][i] == script[start + i];
  }

  /** The next primitive of a script. */
  method Follow(node: Node, ghost at: nat -> Ran, ghost w: World, ghost script: seq<Event>, ghost n: nat, e: Event)
    returns (ok: bool)
    requires n < |script| && script[n] == e && Tracks(at, w, script)
    requires Ran(node.View(), true) == at(n)
    modifies node
    ensures !e.Set? ==> node.stored == old(node.stored)
    ensures !e.Bind? && !e.Unbind? ==> node.drivers == old(node.drivers)
    ensures e.Unbind? ==> old(node.drivers) - {e.a} == node.drivers - {e.a}
    ensures ok ==> Ran(node.View(), true) == at(n + 1)
    ensures !ok ==> Ran(node.View(), false) == at(|script|)
  {
    assert at(n) == RunAll(w, script[..n]);
    ok := node.Perform(e);
    RunMore(w, script[..n], e);
    assert script[..n + 1] == script[..n] + [e];
    assert script[..|script|] == script;
    assert at(|script|) == RunAll(w, script[..|script|]);
    if !ok { RunStops(w, n, script); }
  }

  /** The events of a loop that makes several per turn. */
  function Flatten(parts: seq<seq<Event>>): seq<Event> {
    if parts == [] then [] else Flatten(parts[..|parts| - 1]) + parts[|parts| - 1]
  }

  lemma FlattenNone()
    ensures Flatten([]) == []
  {
  }

  lemma {:induction false} FlattenPrefix(parts: seq<seq<Event>>, i: nat)
    requires i <= |parts|
    ensures Flatten(parts[..i]) <= Flatten(parts)
  {
    if i < |parts| {
      FlattenPrefix(parts[..|parts| - 1], i);
      assert parts[..|parts| - 1][..i] == parts[..i];
    } else {
      assert parts[..i] == parts;
    }
  }

  lemma FlattenWindow(parts: seq<seq<Event>>, i: nat)
    requires i < |parts|
    ensures var from := |Flatten(parts[..i])|;
            && |Flatten(parts[..i + 1])| == from + |parts[i]|
            && Window(Flatten(parts), from, parts[i])
  {
    assert parts[..i + 1][..i] == parts[..i];
    FlattenPrefix(parts, i + 1);
  }

  lemma {:induction false} FlattenElements(parts: seq<seq<Event>>)
    ensures forall e :: e in Flatten(parts) <==> exists i | 0 <= i < |parts| :: e in parts[i]
  {
    if parts != [] {
      var init := parts[..|parts| - 1];
      FlattenElements(init);
      assert forall i | 0 <= i < |init| :: init[i] == parts[i];
    }
  }

  /** Nothing fails and every write takes. */
  ghost predicate Calm(env: Env) { forall n :: env.fault(n) == NoFault && !env.deaf(n) }

  ghost predicate FaultFree(env: Env, start: nat, n: nat) {
    forall i | start <= i < start + n :: env.fault(i) == NoFault
  }

  /** Without faults, a run succeeds unless one of its events refuses. */
  lemma {:induction false} CalmRun(w: World, es: seq<Event>)
    requires FaultFree(w.env, w.clock, |es|)
    requires forall i | 0 <= i < |es| :: !Refuses(RunAll(w, es[..i]).w, es[i])
    ensures RunAll(w, es).ok
  {
    if es != [] {
      var init := es[..|es| - 1];
      assert forall i | 0 <= i < |init| :: init[..i] == es[..i];
      CalmRun(w, init);
      RunTrace(w, init);
    }
  }

  /** The environment in which only the n-th primitive fails, without effect. */
  ghost function StopAt(n: nat): Env {
    Env((i: nat) => if i == n then FailsBefore else NoFault, (i: nat) => false)
  }

  /** Stopped at its k-th event, a run leaves what its first k events made. */
  lemma StoppedRun(w: World, es: seq<Event>, k: nat)
    requires k < |es| && w.env == StopAt(w.clock + k)
    requires forall i | 0 <= i < k :: !Refuses(RunAll(w, es[..i]).w, es[i])
    ensures var r, m := RunAll(w, es), RunAll(w, es[..k]);
            !r.ok && m.ok && r.w.stored == m.w.stored && r.w.latched == m.w.latched
  {
    var part := es[..k];
    assert forall i | 0 <= i < k :: part[..i] == es[..i];
    CalmRun(w, part);
    RunTrace(w, part);
    RunStops(w, k, es);
  }

  /** `inv` survives every primitive, whatever the fault pattern. */
  ghost predicate Inductive(inv: World -> bool) {
    forall w, e | inv(w) :: inv(Do(w, e).w)
  }

  lemma {:induction false} RunKeeps(inv: World -> bool, w: World, es: seq<Event>)
    requires Inductive(inv) && inv(w)
    ensures inv(RunAll(w, es).w)
  {
    if es != [] {
      RunKeeps(inv, w, es[..|es| - 1]);
    }
  }

  // ---------------------------------------------------------------- writes

  /** The writes of a run that go to one device. */
  function WritesTo(es: seq<Event>, a: Address): seq<Write> {
    if es == [] then []
    else
      var before, e := WritesTo(es[..|es| - 1], a), es[|es| - 1];
      if e.Set? && e.a == a then before + [e.write] else before
  }

  lemma {:induction false} WritesToConcat(es: seq<Event>, fs: seq<Event>, a: Address)
    ensures WritesTo(es + fs, a) == WritesTo(es, a) + WritesTo(fs, a)
  {
    if fs == [] {
      assert es + fs == es;
    } else {
      assert (es + fs)[..|es + fs| - 1] == es + fs[..|fs| - 1];
      WritesToConcat(es, fs[..|fs| - 1], a);
    }
  }

  lemma OneWriteTo(e: Event, a: Address)
    ensures WritesTo([e], a) == if e.Set? && e.a == a then [e.write] else []
  {
    assert [e][..0] == [];
  }

  lemma StoredMore(w: World, m: World, init: seq<Event>, e: Event, a: Address)
    requires (Acts(m, e) || Do(m, e).ok) && !m.env.deaf(m.clock)
    requires m.Stored(a) == FireAll(w.Stored(a), WritesTo(init, a))
    ensures Do(m, e).w.Stored(a) == FireAll(w.Stored(a), WritesTo(init + [e], a))
  {
    WritesToConcat(init, [e], a);
    OneWriteTo(e, a);
    FireAllAppend(w.Stored(a), WritesTo(init, a), WritesTo([e], a));
    if e.Set? {
      FireOne(m.Stored(a), e.write);
    } else {
      assert WritesTo(init, a) + [] == WritesTo(init, a);
    }
  }

  /** Where every write takes, a device ends as its own writes leave it. */
  lemma {:induction false} StoredIsFired(w: World, es: seq<Event>, a: Address)
    requires RunAll(w, es).ok && forall n :: !w.env.deaf(n)
    ensures RunAll(w, es).w.Stored(a) == FireAll(w.Stored(a), WritesTo(es, a))
  {
    if es != [] {
      var init, e := es[..|es| - 1], es[|es| - 1];
      assert es == init + [e];
      RunMore(w, init, e);
      RunTrace(w, init);
      hide RunAll, Do, Effect, FireAll, WritesTo;
      StoredIsFired(w, init, a);
      StoredMore(w, RunAll(w, init).w, init, e, a);
    }
  }

  // ---------------------------------------------------------------- what a run made

  /** The events of the steps that took effect. */
  function Acted(steps: seq<Step>): seq<Event> {
    if steps == [] then []
    else
      var before, s := Acted(steps[..|steps| - 1]), steps[|steps| - 1];
      if s.acted then before + [s.e] else before
  }

  /** What the trace of a run says it made: of the events it attempted, those that took
      effect. */
  ghost function Made(w: World, es: seq<Event>): seq<Event> {
    RunTrace(w, es);
    Acted(RunAll(w, es).w.trace[|w.trace|..])
  }

  lemma MadeMore(w: World, es: seq<Event>, e: Event)
    ensures var r := RunAll(w, es);
            Made(w, es + [e]) == if r.ok && Acts(r.w, e) then Made(w, es) + [e] else Made(w, es)
  {
    hide RunAll, Acts, Effect;
    RunMore(w, es, e);
    RunTrace(w, es);
    RunTrace(w, es + [e]);
    var r := RunAll(w, es);
    if r.ok {
      var steps, more := r.w.trace[|w.trace|..], RunAll(w, es + [e]).w.trace[|w.trace|..];
      assert more == steps + [Step(e, Acts(r.w, e))];
      assert more[..|more| - 1] == steps;
    }
  }

  /** A run without bindings makes a prefix of its events, and all of them if it succeeds. */
  lemma {:induction false} MadeIsPrefix(w: World, es: seq<Event>)
    requires forall e | e in es :: !e.Bind?
    ensures Made(w, es) <= es && (RunAll(w, es).ok ==> Made(w, es) == es)
  {
    if es != [] {
      var init, e := es[..|es| - 1], es[|es| - 1];
      assert es == init + [e];
      MadeIsPrefix(w, init);
      MadeMore(w, init, e);
      RunMore(w, init, e);
      hide RunAll, Made;
      OkActed(RunAll(w, init).w, e);
    }
  }

  lemma OkActed(w: World, e: Event)
    ensures Do(w, e).ok && !e.Bind? ==> Acts(w, e)
  {
  }

  /** Where every write takes, a run leaves a device as the writes it made leave it, however
      it ends. */
  lemma {:induction false} StoredIsMade(w: World, es: seq<Event>, a: Address)
    requires forall n :: !w.env.deaf(n)
    ensures RunAll(w, es).w.Stored(a) == FireAll(w.Stored(a), WritesTo(Made(w, es), a))
  {
    if es != [] {
      var init, e := es[..|es| - 1], es[|es| - 1];
      assert es == init + [e];
      StoredIsMade(w, init, a);
      MadeMore(w, init, e);
      RunMore(w, init, e);
      RunTrace(w, init);
      hide RunAll, Made, Do, Effect, FireAll, WritesTo, Acts;
      var m := RunAll(w, init);
      if m.ok && Acts(m.w, e) {
        StoredMore(w, m.w, Made(w, init), e, a);
      } else if m.ok {
        NoAct(m.w, e, a);
      }
    }
  }

  lemma NoAct(w: World, e: Event, a: Address)
    ensures !Acts(w, e) ==> Do(w, e).w.Stored(a) == w.Stored(a)
  {
  }
}
