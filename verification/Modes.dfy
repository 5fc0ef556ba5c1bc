/** The node mode and its two hardware targets. */
module Modes {
  import opened Text

  datatype CcMode = CcOff | CcOn | CcDevTools

  datatype PpcieMode = PpcieOff | PpcieOn

  /** Node-wide, and covering the switches, which the per-GPU `CcMode` is not. */
  datatype Mode = Off | On | DevTools | Ppcie {
    /** Protecting a whole board with PPCIE means leaving CC off on each of its GPUs. */
    function CcTarget(): CcMode {
      match this
      case Off | Ppcie => CcOff
      case On => CcOn
      case DevTools => CcDevTools
    }

    function PpcieTarget(): PpcieMode {
      match this
      case Ppcie => PpcieOn
      case Off | On | DevTools => PpcieOff
    }

    predicate CcReady() { this != Off }

    function Print(): string {
      match this
      case Off => "off"
      case On => "on"
      case DevTools => "devtools"
      case Ppcie => "ppcie"
    }
  }

  function ParseMode(s: string): Option<Mode> {
    if s == "off" then Some(Off)
    else if s == "on" then Some(On)
    else if s == "devtools" then Some(DevTools)
    else if s == "ppcie" then Some(Ppcie)
    else None
  }

  /** Parsing accepts exactly what printing produces. */
  lemma ParsePrint(s: string, mode: Mode)
    ensures ParseMode(s) == Some(mode) <==> s == mode.Print()
  {
    assert "off"[1] != "on"[1];
  }

  /** The two targets are never both raised, and together they name the mode. */
  lemma TargetsNameTheMode(m: Mode, n: Mode)
    ensures m.CcTarget() == CcOff || m.PpcieTarget() == PpcieOff
    ensures m.CcTarget() == n.CcTarget() && m.PpcieTarget() == n.PpcieTarget() ==> m == n
    ensures m.CcReady() <==> m.CcTarget() != CcOff || m.PpcieTarget() == PpcieOn
  {
  }
}
