// The QSS latency-insertion node: a capacitor c in parallel with a
// conductance g and a current source h, integrated by a state atom for its
// voltage that receives the source atom's value. The LIM ground is a single
// constant-zero source atom.

module LimNode {
  import opened Wrappers
  import opened Qdl

  /** The coefficient functions, by name, as the atoms refer to them. */
  const AiiFn: CoefFn := CoefFn("LimNode", "aii")
  const BiiFn: CoefFn := CoefFn("LimNode", "bii")

  /** aii: the voltage's own coefficient, -g/c. */
  function Aii(c: real, g: real): (r: Result<real>)
    ensures r.Err? <==> c == 0.0
    ensures r.Err? ==> r.error == ZeroDivisionError
    ensures r.Ok? && g > 0.0 && c > 0.0 ==> r.value < 0.0
    ensures r.Ok? ==> r.value * c == -g
  {
    if c == 0.0 then Err(ZeroDivisionError) else Ok(-g / c)
  }

  /** bii: the gain from the current source into the voltage, 1/c. */
  function Bii(c: real): (r: Result<real>)
    ensures r.Err? <==> c == 0.0
    ensures r.Err? ==> r.error == ZeroDivisionError
    ensures r.Ok? ==> r.value * c == 1.0
  {
    if c == 0.0 then Err(ZeroDivisionError) else Ok(1.0 / c)
  }

  /** aij: the coupling of a branch current into this node, -1/c. */
  function Aij(c: real): (r: Result<real>)
    ensures r.Err? <==> c == 0.0
    ensures r.Err? ==> r.error == ZeroDivisionError
    ensures r.Ok? ==> r.value * c == -1.0
  {
    if c == 0.0 then Err(ZeroDivisionError) else Ok(-1.0 / c)
  }

  /** aji: the coupling of this node's voltage into a branch, 1/c. */
  function Aji(c: real): (r: Result<real>)
    ensures r.Err? <==> c == 0.0
    ensures r.Err? ==> r.error == ZeroDivisionError
    ensures r.Ok? ==> r.value * c == 1.0
  {
    if c == 0.0 then Err(ZeroDivisionError) else Ok(1.0 / c)
  }

  /**
   * The node's couplings are antisymmetric, its self term is g times its
   * coupling, and the source gain is the outward coupling: whenever c is
   * nonzero, aij == -aji, aii == g*aij and bii == aji.
   */
  lemma Couplings(c: real, g: real)
    ensures Aij(c).Ok? <==> Aji(c).Ok?
    ensures Aij(c).Ok? ==> Aij(c).value == -Aji(c).value
    ensures Aii(c, g).Ok? ==> Aii(c, g).value == g * Aij(c).value
    ensures Bii(c) == Aji(c)
  {
  }

  /** LimNode: a device holding the source atom h and the state atom voltage. */
  class LimNode {
    const c: real
    const g: real
    /** The qdl.Device part: the name and the atoms. */
    const device: Device
    const h: Atom
    const voltage: Atom

    /**
     * The constructor makes h (a constant source at the given current) and
     * voltage (a state starting at v0 with coefficient function aii), adds
     * them in that order, connects h into voltage through bii, and records
     * aii as voltage's Jacobian entry on itself. The nodes argument is not
     * kept.
     */
    constructor (name: string, c: real, g: real, h: real, v0: real, dq: real)
      ensures this.c == c && this.g == g
      ensures device.name == name && device.atoms == [this.h, voltage] && this.h != voltage
      ensures this.h.name == "h" && this.h.kind.SourceKind? && this.h.kind.p.sourceType == Constant
      ensures this.h.kind.p.u0 == h && this.h.x0 == h && this.h.dq == Some(dq) && this.h.units == "A"
      ensures voltage.name == "voltage" && voltage.kind == StateKind(0.0, Some(AiiFn))
      ensures voltage.x0 == v0 && voltage.dq == Some(dq) && voltage.units == "V"
      ensures this.h.device == device && voltage.device == device
      ensures |voltage.connections| == 1
      ensures var k := voltage.connections[0];
              k.atom == voltage && k.other == this.h && k.coeffunc == Some(BiiFn) && k.device == device
      ensures this.h.broadcastTo == [voltage] && voltage.broadcastTo == []
      ensures voltage.jacfuncs == [(voltage, AiiFn)] && this.h.jacfuncs == [] && this.h.connections == []
    {
      this.c := c;
      this.g := g;
      var dev := new Device(name);
      var src := new Atom.SourceAtom("h", Constant, h, 0.0, 0.0, 0.0, 0.0, 0.0, 0.0, 0.0, 0.0, Some(dq),
                                     None, None, None, None, Some(AtomDMax), "A");
      var v := new Atom.StateAtom("voltage", v0, 0.0, Some(AiiFn), Some(dq), None, None, None, None,
                                  Some(AtomDMax), "V");
      dev.AddAtom(src);
      dev.AddAtom(v);
      var k := v.AddConnection(src, 1.0, Some(BiiFn));
      v.AddJacfunc(v, AiiFn);
      device, this.h, voltage := dev, src, v;
    }

    /** The coefficient functions evaluated on this node, by name; an unknown name has no attribute. */
    function Coefficient(f: CoefFn): (r: Result<real>)
      ensures f == AiiFn ==> r == Aii(c, g)
      ensures f == BiiFn ==> r == Bii(c)
      ensures f.fn !in {"aii", "bii", "aij", "aji"} ==> r == Err(AttributeError)
    {
      match f.fn
      case "aii" => Aii(c, g)
      case "bii" => Bii(c)
      case "aij" => Aij(c)
      case "aji" => Aji(c)
      case _ => Err(AttributeError)
    }
  }

  /** LimGround: a device holding one constant source atom at 0 with a quantum of 1. */
  class LimGround {
    const device: Device
    const atom: Atom

    constructor (name: string)
      ensures device.name == name && device.atoms == [atom] && atom.device == device
      ensures atom.name == "source" && atom.kind.SourceKind? && atom.kind.p.sourceType == Constant
      ensures atom.kind.p.u0 == 0.0 && atom.x0 == 0.0 && atom.dq == Some(1.0) && atom.units == "V"
      ensures atom.broadcastTo == [] && atom.connections == []
    {
      var dev := new Device(name);
      var a := new Atom.SourceAtom("source", Constant, 0.0, 0.0, 0.0, 0.0, 0.0, 0.0, 0.0, 0.0, 0.0, Some(1.0),
                                   None, None, None, None, Some(AtomDMax), "V");
      dev.AddAtom(a);
      device, atom := dev, a;
    }
  }
}
