/** Whether any process holds one of a device's VFIO nodes open. */
module Idle {
  import opened Ordering
  import opened Text

  /** A path by its components. */
  type Path = seq<string>

  /** An entry of `/proc`. `fds` is `None` where the directory cannot be read, and a
      link target is `None` where the link cannot. */
  datatype ProcEntry = ProcEntry(name: string, fds: Option<seq<Option<Path>>>, comm: Option<string>)

  datatype Holder = Holder(pid: nat, comm: string, node: Path)

  const DEV_VFIO: Path := ["dev", "vfio"]

  function Decimal(n: nat): string {
    if n < 10 then ['0' + n as char] else Decimal(n / 10) + ['0' + (n % 10) as char]
  }

  function ParseDigits(s: string): Option<nat> {
    if s == [] then Some(0)
    else
      var init, c := ParseDigits(s[..|s| - 1]), s[|s| - 1];
      if init.Some? && '0' <= c <= '9' then Some(10 * init.value + (c - '0') as int) else None
  }

  /** `name.parse::<u32>()`, which allows a leading plus sign. */
  function ParseU32(s: string): Option<nat> {
    var digits := if s != [] && s[0] == '+' then s[1..] else s;
    var n := ParseDigits(digits);
    if digits != [] && n.Some? && n.value < 0x1_0000_0000 then n else None
  }

  // ---------------------------------------------------------------- numerals

  /** `s` is the number `n` in decimal, without needless zeros. */
  predicate Numeral(s: string, n: int) {
    s != "" && ParseDigits(s) == Some(n) && (s[0] == '0' ==> s == "0")
  }

  lemma {:induction false} DecimalIsNumeral(n: nat)
    ensures Numeral(Decimal(n), n)
    ensures n > 0 ==> Decimal(n)[0] != '0'
  {
    var s := Decimal(n);
    if n < 10 {
      assert s[..0] == "" && ParseDigits(s[..0]) == Some(0);
    } else {
      DecimalIsNumeral(n / 10);
      assert s[..|s| - 1] == Decimal(n / 10);
    }
  }

  lemma {:induction false} LeadingDigit(s: string)
    requires s != "" && s[0] != '0' && ParseDigits(s).Some?
    ensures ParseDigits(s).value > 0
  {
    assert ParseDigits(s[..|s| - 1]).Some?;
    if |s| > 1 {
      LeadingDigit(s[..|s| - 1]);
    } else {
      assert s[..0] == "";
    }
  }

  /** Printing is the only way to write a number down, and reading gives it back. */
  lemma {:induction false} NumeralIffPrinted(s: string, n: nat)
    ensures Numeral(s, n) <==> s == Decimal(n)
  {
    DecimalIsNumeral(n);
    if Numeral(s, n) {
      var init := s[..|s| - 1];
      var digit := s[|s| - 1] - '0';
      if |s| == 1 {
        assert init == "" && ParseDigits(init) == Some(0);
      } else {
        LeadingDigit(init);
        var v := ParseDigits(init).value;
        assert n == 10 * v + digit as int && n / 10 == v && n % 10 == digit as int;
        NumeralIffPrinted(init, v);
        assert s == init + [s[|s| - 1]];
      }
    }
  }

  /** A pid reads back as itself exactly if it fits 32 bits. */
  lemma PidReads(n: nat)
    ensures ParseU32(Decimal(n)) == if n < 0x1_0000_0000 then Some(n) else None
  {
    DecimalIsNumeral(n);
    DigitsOnly(Decimal(n));
    assert Decimal(n)[0] in Decimal(n);
    hide Decimal, ParseDigits;
  }

  predicate AllDigits(s: string) { s != "" && forall c | c in s :: '0' <= c <= '9' }

  /** A name is that of a process exactly if it is decimal digits, with a plus sign or without,
      for a number that fits 32 bits. */
  lemma PidNames(s: string)
    ensures var digits := if s != "" && s[0] == '+' then s[1..] else s;
            && (ParseU32(s).Some?
                <==> AllDigits(digits) && ParseDigits(digits).Some? && ParseDigits(digits).value < 0x1_0000_0000)
            && (ParseU32(s).Some? ==> ParseU32(s) == ParseDigits(digits))
  {
    var digits := if s != "" && s[0] == '+' then s[1..] else s;
    DigitsOnly(digits);
    if AllDigits(digits) { DigitsRead(digits); }
  }

  lemma {:induction false} DigitsRead(s: string)
    requires forall c | c in s :: '0' <= c <= '9'
    ensures ParseDigits(s).Some?
  {
    if s != "" {
      var init := s[..|s| - 1];
      assert forall c | c in init :: c in s;
      DigitsRead(init);
      assert s[|s| - 1] in s;
    }
  }

  lemma {:induction false} DigitsOnly(s: string)
    ensures ParseDigits(s).Some? ==> forall c | c in s :: '0' <= c <= '9'
  {
    if s != "" {
      DigitsOnly(s[..|s| - 1]);
      assert s == s[..|s| - 1] + [s[|s| - 1]];
    }
  }

  // ---------------------------------------------------------------- the nodes of a device

  /** `path` is one of the two ways to open a device: the node of its group, or one of its
      cdevs. A negative group is none. */
  predicate IsNode(path: Path, group: int, cdevs: seq<string>) {
    || (group >= 0 && |path| == 3 && path[0] == "dev" && path[1] == "vfio" && Numeral(path[2], group))
    || (|path| == 4 && path[0] == "dev" && path[1] == "vfio" && path[2] == "devices" && path[3] in cdevs)
  }

  /** `vfio_nodes`: the group node and the device's cdevs. */
  method VfioNodes(iommuGroup: int, cdevs: seq<string>) returns (nodes: seq<Path>)
    ensures forall p :: p in nodes <==> IsNode(p, iommuGroup, cdevs)
  {
    nodes := [];
    if iommuGroup >= 0 {
      nodes := nodes + [DEV_VFIO + [Decimal(iommuGroup)]];
    }
    GroupNode(iommuGroup, nodes);
    for i := 0 to |cdevs|
      invariant forall p :: p in nodes <==> IsNode(p, iommuGroup, cdevs[..i])
    {
      OneMoreCdev(iommuGroup, cdevs, i);
      nodes := nodes + [DEV_VFIO + ["devices", cdevs[i]]];
    }
    assert cdevs[..|cdevs|] == cdevs;
  }

  lemma UnderDevVfio(p: Path, name: string)
    ensures p == DEV_VFIO + [name] <==> |p| == 3 && p[0] == "dev" && p[1] == "vfio" && p[2] == name
    ensures p == DEV_VFIO + ["devices", name]
            <==> |p| == 4 && p[0] == "dev" && p[1] == "vfio" && p[2] == "devices" && p[3] == name
  {
    var q, r := DEV_VFIO + [name], DEV_VFIO + ["devices", name];
    assert |q| == 3 && q[0] == "dev" && q[1] == "vfio" && q[2] == name;
    assert |r| == 4 && r[0] == "dev" && r[1] == "vfio" && r[2] == "devices" && r[3] == name;
    if |p| == 3 && p[0] == "dev" && p[1] == "vfio" && p[2] == name { assert p == q; }
    if |p| == 4 && p[0] == "dev" && p[1] == "vfio" && p[2] == "devices" && p[3] == name { assert p == r; }
  }

  lemma GroupNode(group: int, nodes: seq<Path>)
    requires nodes == if group >= 0 then [DEV_VFIO + [Decimal(group)]] else []
    ensures forall p :: p in nodes <==> IsNode(p, group, [])
  {
    forall p: Path ensures p in nodes <==> IsNode(p, group, []) {
      if group >= 0 {
        UnderDevVfio(p, Decimal(group));
        if |p| == 3 { NumeralIffPrinted(p[2], group); }
      }
    }
  }

  lemma OneMoreCdev(group: int, cdevs: seq<string>, i: nat)
    requires i < |cdevs|
    ensures forall p :: IsNode(p, group, cdevs[..i + 1])
                        <==> IsNode(p, group, cdevs[..i]) || p == DEV_VFIO + ["devices", cdevs[i]]
  {
    assert cdevs[..i + 1] == cdevs[..i] + [cdevs[i]];
    forall p: Path
      ensures IsNode(p, group, cdevs[..i + 1])
              <==> IsNode(p, group, cdevs[..i]) || p == DEV_VFIO + ["devices", cdevs[i]]
    {
      UnderDevVfio(p, cdevs[i]);
      hide Numeral, DEV_VFIO;
    }
  }

  function Comm(p: ProcEntry): string { if p.comm.Some? then p.comm.value else "?" }

  /** Process `p` has an open descriptor on `node`. */
  ghost predicate HasOpen(p: ProcEntry, node: Path) {
    p.fds.Some? && Some(node) in p.fds.value
  }

  /** `h` is a process of the table with one of the device's nodes open. */
  ghost predicate Holds(procs: seq<ProcEntry>, group: int, cdevs: seq<string>, h: Holder) {
    && IsNode(h.node, group, cdevs)
    && exists p | p in procs ::
         && ParseU32(p.name) == Some(h.pid) && HasOpen(p, h.node)
         && h.comm == if p.comm.Some? then p.comm.value else "?"
  }

  ghost predicate InUse(procs: seq<ProcEntry>, group: int, cdevs: seq<string>) {
    exists h :: Holds(procs, group, cdevs, h)
  }

  /** A pid names one process. */
  ghost predicate CommOfPid(procs: seq<ProcEntry>) {
    forall p, q | p in procs && q in procs && ParseU32(p.name).Some? && ParseU32(p.name) == ParseU32(q.name) ::
      Comm(p) == Comm(q)
  }

  /** The sort key: pid, then node. */
  predicate HolderLe(a: Holder, b: Holder) {
    a.pid < b.pid || (a.pid == b.pid && PathLe(a.node, b.node))
  }

  /** `holders`: exactly the processes holding a node, and in (pid, node) order without
      repetition where a pid names one process. */
  method Holders(procs: seq<ProcEntry>, iommuGroup: int, cdevs: seq<string>) returns (found: seq<Holder>)
    ensures forall h :: h in found <==> Holds(procs, iommuGroup, cdevs, h)
    ensures found == [] <==> !InUse(procs, iommuGroup, cdevs)
    ensures CommOfPid(procs) ==>
      forall i, j | 0 <= i < j < |found| ::
        || found[i].pid < found[j].pid
        || (found[i].pid == found[j].pid && PathLe(found[i].node, found[j].node) && found[i].node != found[j].node)
  {
    var nodes := VfioNodes(iommuGroup, cdevs);
    if nodes == [] {
      assert forall p | IsNode(p, iommuGroup, cdevs) :: p in nodes;
      return [];
    }
    var raw: seq<Holder> := [];
    for i := 0 to |procs|
      invariant forall h :: h in raw <==> Holds(procs[..i], iommuGroup, cdevs, h)
    {
      ghost var before := raw;
      var process := procs[i];
      var pid := ParseU32(process.name);
      if pid.Some? && process.fds.Some? {
        var fds := process.fds.value;
        for j := 0 to |fds|
          invariant forall h :: h in raw <==>
            h in before || (h.pid == pid.value && h.comm == Comm(process) && h.node in nodes
                && Some(h.node) in fds[..j])
        {
          if fds[j].Some? && fds[j].value in nodes {
            raw := raw + [Holder(pid.value, Comm(process), fds[j].value)];
          }
          assert fds[..j + 1] == fds[..j] + [fds[j]];
        }
        assert fds[..|fds|] == fds;
      }
      HoldsOneMore(procs, iommuGroup, cdevs, i);
      assert forall h :: h in raw <==> h in before || HoldsBy(process, iommuGroup, cdevs, h);
    }
    assert procs[..|procs|] == procs;
    found := Dedup(Sort(HolderLe, raw));
    SortElements(HolderLe, raw);
    DedupElements(Sort(HolderLe, raw));
    if CommOfPid(procs) {
      HolderOrder(procs, iommuGroup, cdevs, raw);
      CanonStrict(HolderLe, raw);
      HoldersByKey(procs, iommuGroup, cdevs, found);
    }
    assert found != [] ==> found[0] in found;
  }

  ghost predicate HoldsBy(p: ProcEntry, group: int, cdevs: seq<string>, h: Holder) {
    ParseU32(p.name) == Some(h.pid) && h.comm == Comm(p) && IsNode(h.node, group, cdevs) && HasOpen(p, h.node)
  }

  lemma HoldsOneMore(procs: seq<ProcEntry>, group: int, cdevs: seq<string>, i: nat)
    requires i < |procs|
    ensures forall h :: Holds(procs[..i + 1], group, cdevs, h)
                        <==> Holds(procs[..i], group, cdevs, h) || HoldsBy(procs[i], group, cdevs, h)
  {
    hide IsNode;
    assert procs[..i + 1] == procs[..i] + [procs[i]];
  }

  lemma {:induction false} DedupElements<T(!new)>(s: seq<T>)
    ensures SameElements(Dedup(s), s)
  {
    if |s| > 1 {
      DedupElements(s[..|s| - 1]);
      assert s == s[..|s| - 1] + [s[|s| - 1]];
      assert s[|s| - 2] in s[..|s| - 1];
    }
  }

  /** Holders of one table with equal keys are equal. */
  lemma HoldersByKey(procs: seq<ProcEntry>, group: int, cdevs: seq<string>, hs: seq<Holder>)
    requires CommOfPid(procs) && forall h | h in hs :: Holds(procs, group, cdevs, h)
    ensures forall a, b | a in hs && b in hs && a.pid == b.pid && a.node == b.node :: a == b
  {
    hide IsNode;
  }

  lemma HolderOrder(procs: seq<ProcEntry>, group: int, cdevs: seq<string>, hs: seq<Holder>)
    requires CommOfPid(procs) && forall h | h in hs :: Holds(procs, group, cdevs, h)
    ensures TotalOn(HolderLe, hs)
  {
    PathOrder();
    HoldersByKey(procs, group, cdevs, hs);
  }
}
