// The QSS latency-insertion branch: an inductance l in series with a
// resistance r and a voltage source e, integrated by a state atom for its
// current that receives the source atom's value.

module LimBranch {
  import opened Wrappers
  import opened Qdl

  /** The coefficient functions, by name, as the atoms refer to them. */
  const AiiFn: CoefFn := CoefFn("LimBranch", "aii")
  const BiiFn: CoefFn := CoefFn("LimBranch", "bii")

  /** aii: the current's own coefficient, -r/l. */
  function Aii(l: real, r: real): (a: Result<real>)
    ensures a.Err? <==> l == 0.0
    ensures a.Err? ==> a.error == ZeroDivisionError
    ensures a.Ok? && r > 0.0 && l > 0.0 ==> a.value < 0.0
    ensures a.Ok? ==> a.value * l == -r
  {
    if l == 0.0 then Err(ZeroDivisionError) else Ok(-r / l)
  }

  /** bii: the gain from the voltage source into the current, 1/l. */
  function Bii(l: real): (a: Result<real>)
    ensures a.Err? <==> l == 0.0
    ensures a.Err? ==> a.error == ZeroDivisionError
    ensures a.Ok? ==> a.value * l == 1.0
  {
    if l == 0.0 then Err(ZeroDivisionError) else Ok(1.0 / l)
  }

  /** aij: the coupling of the branch current from the positive node's voltage, 1/l. */
  function Aij(l: real): (a: Result<real>)
    ensures a.Err? <==> l == 0.0
    ensures a.Err? ==> a.error == ZeroDivisionError
    ensures a.Ok? ==> a.value * l == 1.0
  {
    if l == 0.0 then Err(ZeroDivisionError) else Ok(1.0 / l)
  }

  /** aji: the coupling of the branch current into a node's voltage, -1/l. */
  function Aji(l: real): (a: Result<real>)
    ensures a.Err? <==> l == 0.0
    ensures a.Err? ==> a.error == ZeroDivisionError
    ensures a.Ok? ==> a.value * l == -1.0
  {
    if l == 0.0 then Err(ZeroDivisionError) else Ok(-1.0 / l)
  }

  /**
   * The source gain equals the inward coupling, which is the negated
   * outward coupling, and the self term is r times the outward coupling:
   * whenever l is nonzero, aij == bii == -aji and aii == r*aji.
   */
  lemma Couplings(l: real, r: real)
    ensures Aij(l) == Bii(l)
    ensures Aij(l).Ok? <==> Aji(l).Ok?
    ensures Aij(l).Ok? ==> Aij(l).value == -Aji(l).value
    ensures Aii(l, r).Ok? ==> Aii(l, r).value == r * Aji(l).value
  {
  }

  /** LimBranch: a device holding the source atom e and the state atom current. */
  class LimBranch {
    const l: real
    const r: real
    /** The qdl.Device part: the name and the atoms. */
    const device: Device
    const e: Atom
    const current: Atom

    /**
     * The constructor makes e (a constant source at the given voltage) and
     * current (a state starting at i0 with coefficient function aii), adds
     * them in that order, connects e into current through bii, and records
     * aii as current's Jacobian entry on itself. The nodes argument is not
     * kept.
     */
    constructor (name: string, l: real, r: real, e: real, i0: real, dq: real)
      ensures this.l == l && this.r == r
      ensures device.name == name && device.atoms == [this.e, current] && this.e != current
      ensures this.e.name == "e" && this.e.kind.SourceKind? && this.e.kind.p.sourceType == Constant
      ensures this.e.kind.p.u0 == e && this.e.x0 == e && this.e.dq == Some(dq) && this.e.units == "V"
      ensures current.name == "current" && current.kind == StateKind(0.0, Some(AiiFn))
      ensures current.x0 == i0 && current.dq == Some(dq) && current.units == "A"
      ensures this.e.device == device && current.device == device
      ensures |current.connections| == 1
      ensures var k := current.connections[0];
              k.atom == current && k.other == this.e && k.coeffunc == Some(BiiFn) && k.device == device
      ensures this.e.broadcastTo == [current] && current.broadcastTo == []
      ensures current.jacfuncs == [(current, AiiFn)] && this.e.jacfuncs == [] && this.e.connections == []
    {
      this.l := l;
      this.r := r;
      var dev := new Device(name);
      var src := new Atom.SourceAtom("e", Constant, e, 0.0, 0.0, 0.0, 0.0, 0.0, 0.0, 0.0, 0.0, Some(dq),
                                     None, None, None, None, Some(AtomDMax), "V");
      var i := new Atom.StateAtom("current", i0, 0.0, Some(AiiFn), Some(dq), None, None, None, None,
                                  Some(AtomDMax), "A");
      dev.AddAtom(src);
      dev.AddAtom(i);
      var k := i.AddConnection(src, 1.0, Some(BiiFn));
      i.AddJacfunc(i, AiiFn);
      device, this.e, current := dev, src, i;
    }

    /** The coefficient functions evaluated on this branch, by name; an unknown name has no attribute. */
    function Coefficient(f: CoefFn): (a: Result<real>)
      ensures f == AiiFn ==> a == Aii(l, r)
      ensures f == BiiFn ==> a == Bii(l)
      ensures f.fn !in {"aii", "bii", "aij", "aji"} ==> a == Err(AttributeError)
    {
      match f.fn
      case "aii" => Aii(l, r)
      case "bii" => Bii(l)
      case "aij" => Aij(l)
      case "aji" => Aji(l)
      case _ => Err(AttributeError)
    }
  }
}
