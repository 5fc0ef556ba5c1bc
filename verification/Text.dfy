/** Rendering and reading back the text of the boot files. */
module Text {
  import opened Ordering

  type u16 = x: int | 0 <= x < 0x1_0000

  datatype Option<+T> = None | Some(value: T)

  /** `s.replace('-', "_")`. */
  function Normalize(s: string): (r: string)
    ensures |r| == |s|
    ensures forall i | 0 <= i < |s| :: r[i] == (if s[i] == '-' then '_' else s[i])
  {
    seq(|s|, i requires 0 <= i < |s| => if s[i] == '-' then '_' else s[i])
  }

  predicate At(s: string, part: string, i: nat) {
    i + |part| <= |s| && s[i..i + |part|] == part
  }

  predicate Contains(s: string, part: string) {
    exists i: nat | i <= |s| :: At(s, part, i)
  }

  /** `head"value"`. */
  function Item(head: string, value: string): string { head + (['"'] + (value + ['"'])) }

  // ---------------------------------------------------------------- hexadecimal

  function HexDigit(n: int): char
    requires 0 <= n < 16
  {
    if n < 10 then '0' + n as char else 'a' + (n - 10) as char
  }

  /** The digits are those of lower-case hexadecimal. */
  lemma HexDigitIs(n: int)
    requires 0 <= n < 16
    ensures HexDigit(n) == "0123456789abcdef"[n]
  {
  }

  predicate IsHexDigit(c: char) { '0' <= c <= '9' || 'a' <= c <= 'f' }

  function HexValue(c: char): (n: int)
    requires IsHexDigit(c)
    ensures 0 <= n < 16
  {
    if c <= '9' then (c - '0') as int else (c - 'a') as int + 10
  }

  function Pow16(width: nat): (p: nat)
    ensures p > 0
  {
    if width == 0 then 1 else 16 * Pow16(width - 1)
  }

  /** `{:0width$x}`, for a number that fits. */
  function Hex(width: nat, n: nat): (s: string)
    ensures |s| == width
    ensures forall c | c in s :: IsHexDigit(c)
  {
    if width == 0 then [] else Hex(width - 1, n / 16) + [HexDigit(n % 16)]
  }

  function UnHex(s: string): nat
    requires forall c | c in s :: IsHexDigit(c)
  {
    if s == [] then 0 else 16 * UnHex(s[..|s| - 1]) + HexValue(s[|s| - 1])
  }

  lemma {:induction false} UnHexBound(s: string)
    requires forall c | c in s :: IsHexDigit(c)
    ensures UnHex(s) < Pow16(|s|)
  {
    if s != [] {
      UnHexBound(s[..|s| - 1]);
    }
  }

  lemma FourDigits()
    ensures Pow16(4) == 0x1_0000
  {
    assert Pow16(3) == 16 * Pow16(2) && Pow16(2) == 16 * Pow16(1) && Pow16(1) == 16 * Pow16(0);
  }

  lemma {:induction false} UnHexHex(width: nat, n: nat)
    requires n < Pow16(width)
    ensures UnHex(Hex(width, n)) == n
  {
    if width > 0 {
      var s := Hex(width, n);
      assert s[..|s| - 1] == Hex(width - 1, n / 16);
      UnHexHex(width - 1, n / 16);
    }
  }

  lemma LexOne(a: char, b: char)
    ensures LexLe(CharLe, [a], [b]) <==> a <= b
  {
    assert LexLe(CharLe, [a][1..], [b][1..]);
  }

  lemma DigitOrder(m: nat, n: nat)
    requires m < 16 && n < 16
    ensures LexLe(CharLe, [HexDigit(m)], [HexDigit(n)]) <==> m <= n
  {
    LexOne(HexDigit(m), HexDigit(n));
    hide LexLe;
  }

  /** Fixed-width hexadecimal sorts as text the way it sorts as numbers. */
  lemma {:induction false} HexOrder(width: nat, a: nat, b: nat)
    requires a < Pow16(width) && b < Pow16(width)
    ensures StringLe(Hex(width, a), Hex(width, b)) <==> a <= b
    ensures Hex(width, a) == Hex(width, b) <==> a == b
  {
    UnHexHex(width, a);
    UnHexHex(width, b);
    if width > 0 {
      var x, y := [HexDigit(a % 16)], [HexDigit(b % 16)];
      assert Hex(width, a) == Hex(width - 1, a / 16) + x && Hex(width, b) == Hex(width - 1, b / 16) + y;
      DigitOrder(a % 16, b % 16);
      hide LexLe, Hex, UnHex, HexDigit;
      HexOrder(width - 1, a / 16, b / 16);
      LexConcat(CharLe, Hex(width - 1, a / 16), Hex(width - 1, b / 16), x, y);
    }
  }

  // ---------------------------------------------------------------- splitting and joining

  /** `parts.join(sep)` for a one-character separator. */
  function Join(sep: char, parts: seq<string>): string {
    if parts == [] then ""
    else if |parts| == 1 then parts[0]
    else parts[0] + [sep] + Join(sep, parts[1..])
  }

  /** `parts.concat()`. */
  function Concat(parts: seq<string>): string {
    if parts == [] then "" else parts[0] + Concat(parts[1..])
  }

  /** What precedes the first `sep`, and what follows it. */
  function Cut(sep: char, s: string): (r: (string, Option<string>))
    ensures sep !in r.0
    ensures r.1.Some? ==> |r.1.value| < |s|
  {
    if s == [] then ([], None)
    else if s[0] == sep then ([], Some(s[1..]))
    else var (before, after) := Cut(sep, s[1..]); ([s[0]] + before, after)
  }

  function Split(sep: char, s: string): (parts: seq<string>)
    decreases |s|
    ensures parts != []
  {
    var (before, after) := Cut(sep, s);
    if after.None? then [before] else [before] + Split(sep, after.value)
  }

  lemma {:induction false} CutAt(sep: char, before: string, after: string)
    requires sep !in before
    ensures Cut(sep, before) == (before, None)
    ensures Cut(sep, before + [sep] + after) == (before, Some(after))
  {
    var s := before + [sep] + after;
    if before == [] {
      assert s[1..] == after;
    } else {
      CutAt(sep, before[1..], after);
      assert s[1..] == before[1..] + [sep] + after;
      assert before == [before[0]] + before[1..];
    }
  }

  /** Splitting undoes joining. */
  lemma {:induction false} SplitJoin(sep: char, parts: seq<string>)
    requires parts != [] && forall p | p in parts :: sep !in p
    ensures Split(sep, Join(sep, parts)) == parts
  {
    if |parts| == 1 {
      CutAt(sep, parts[0], []);
    } else {
      CutAt(sep, parts[0], Join(sep, parts[1..]));
      SplitJoin(sep, parts[1..]);
      assert parts == [parts[0]] + parts[1..];
    }
  }

  /** `s.strip_prefix(prefix)`. */
  function StripPrefix(s: string, prefix: string): Option<string> {
    if prefix <= s then Some(s[|prefix|..]) else None
  }

  lemma StripConcat(prefix: string, rest: string)
    ensures StripPrefix(prefix + rest, prefix) == Some(rest)
  {
  }
}
