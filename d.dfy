// The diode engine: a two-terminal companion model re-linearised at every
// Newton iteration around the last iterate's voltage. The exponential is an
// argument.
module D {
  import opened Wrappers
  import opened Netlist
  import opened Interfaces

  /** The thermal voltage minor_step uses, 25.85 mV. */
  const ThermalVoltage: real := 0.02585

  /** The voltage above which minor_step does not linearise. */
  const VMax: real := 0.8

  /** The numeric model attributes the constructor sets, with their defaults (bv, infinite, aside). */
  function Defaults(): (a: map<string, real>)
    ensures a.Keys == {"is_", "rs", "n", "tt", "cjo", "vj", "m", "eg", "xti", "kf", "af", "fc", "ibv", "tnom"}
    ensures a["is_"] == 0.00000000000001 && a["n"] == 1.0
  {
    map["is_" := 0.00000000000001, "rs" := 0.0, "n" := 1.0, "tt" := 0.0, "cjo" := 0.0, "vj" := 1.0,
        "m" := 0.5, "eg" := 1.11, "xti" := 3.0, "kf" := 0.0, "af" := 1.0, "fc" := 0.5,
        "ibv" := 0.001, "tnom" := 27.0]
  }

  /** min(v, 0.8): the linearisation point never exceeds 0.8 V. */
  function Clamp(v: real): (r: real)
    ensures r <= VMax && r <= v
    ensures r == v || r == VMax
  {
    if v <= VMax then v else VMax
  }

  /** The companion conductance is_/vt * exp(v/vt). */
  function Geq(is_: real, v: real, exp: real -> real): real
  {
    is_ / ThermalVoltage * exp(v / ThermalVoltage)
  }

  /** The diode current is_ * (exp(v/vt) - 1). */
  function Ieq(is_: real, v: real, exp: real -> real): real
  {
    is_ * (exp(v / ThermalVoltage) - 1.0)
  }

  /** The companion source ieq - geq*v. */
  function Beq(is_: real, v: real, exp: real -> real): real
  {
    Ieq(is_, v, exp) - Geq(is_, v, exp) * v
  }

  /** A non-negative saturation current gives a non-negative conductance, as exp is positive. */
  lemma ConductanceNonNegative(is_: real, v: real, exp: real -> real)
    requires is_ >= 0.0 && exp(v / ThermalVoltage) > 0.0
    ensures Geq(is_, v, exp) >= 0.0
  {
    assert is_ / ThermalVoltage >= 0.0;
  }

  class D {
    const nodes: seq<NodeKey>
    /** The model name argument, kept as `mname`. */
    const mname: Option<string>
    /** The `model` attribute, which the constructor sets to None. */
    const model: Option<Model>
    const parameters: map<string, real>
    var attrs: map<string, real>
    var port2node: Option<map<int, int>>
    const jac: array2<real>
    const bequiv: array<real>

    ghost predicate Valid()
      reads this
    {
      && jac.Length0 == |nodes| && jac.Length1 == |nodes| && bequiv.Length == |nodes|
      && attrs.Keys == Defaults().Keys
    }

    /** The defaults are set, and then `model` is set to None whatever was passed as the model name. */
    constructor (nodes: seq<NodeKey>, mname: Option<string>, parameters: map<string, real>)
      ensures Valid() && this.nodes == nodes && this.mname == mname && this.parameters == parameters
      ensures attrs == Defaults() && model.None? && port2node.None?
      ensures fresh(jac) && fresh(bequiv)
      ensures forall i, j | 0 <= i < |nodes| && 0 <= j < |nodes| :: jac[i, j] == 0.0
      ensures forall i | 0 <= i < |nodes| :: bequiv[i] == 0.0
    {
      this.nodes := nodes;
      this.mname := mname;
      this.parameters := parameters;
      attrs := Defaults();
      model := None;
      port2node := None;
      var j, b := NewStamp(|nodes|);
      jac := j;
      bequiv := b;
    }

    /** connect unpacks exactly two labels as ports 0 and 1. */
    method Connect(net: Netlist) returns (out: Outcome)
      modifies this`port2node, net`nodes, net`nodenum
      ensures |nodes| != 2 ==> out == Raised(ValueError) && port2node == old(port2node) && net.Reg() == old(net.Reg())
      ensures |nodes| == 2 ==> out == Done && net.Reg() == LookupAll(old(net.Reg()), nodes).0
      ensures |nodes| == 2 ==> port2node == Some(PortMap(LookupAll(old(net.Reg()), nodes).1))
    {
      if |nodes| != 2 {
        return Raised(ValueError);
      }
      var m := ConnectNodes(net, nodes);
      port2node := Some(m);
      out := Done;
    }

    /**
     * start: a model would be read through a `parameters` attribute Model does
     * not have; then non-empty keyword parameters override existing attributes.
     */
    method Start(dt: real) returns (out: Outcome)
      requires Valid()
      modifies this`attrs
      ensures Valid()
      ensures model.Some? ==> out == Raised(AttributeError) && attrs == old(attrs)
      ensures model.None? ==> out == Done && attrs == OverrideSpec(old(attrs), parameters)
    {
      if model.Some? {
        return Raised(AttributeError);
      }
      if |parameters| > 0 {
        attrs := Override(attrs, parameters);
      }
      out := Done;
    }

    /**
     * minor_step linearises at the last iterate's voltage across the diode,
     * clamped to 0.8 V: conductance geq in the two-terminal pattern and the
     * companion source -beq, beq on the right-hand side. A stamp smaller than
     * 2-by-2 raises IndexError in the conductance pattern, after the entries
     * inside it are written, and bequiv is not reached.
     */
    method MinorStep(dt: real, t: real, k: int, last: Option<seq<real>>, exp: real -> real) returns (out: Outcome)
      requires Valid()
      modifies jac, bequiv
      ensures GetAcross(last, map[], port2node, 0, Some(1), None).Err? ==>
                out == Raised(GetAcross(last, map[], port2node, 0, Some(1), None).error) && unchanged(jac) && unchanged(bequiv)
      ensures GetAcross(last, map[], port2node, 0, Some(1), None).Ok? ==>
                && var vd := Clamp(GetAcross(last, map[], port2node, 0, Some(1), None).value);
                && Wrote(jac, TwoTerminal(Geq(attrs["is_"], vd, exp)))
                && (|nodes| < 2 ==> out == Raised(IndexError) && unchanged(bequiv))
                && (|nodes| >= 2 ==> out == Done && WroteVec(bequiv, Opposed(-Beq(attrs["is_"], vd, exp))))
    {
      var across := GetAcross(last, map[], port2node, 0, Some(1), None);
      if across.Err? {
        return Raised(across.error);
      }
      var vd := Clamp(across.value);
      var geq := Geq(attrs["is_"], vd, exp);
      var beq := Beq(attrs["is_"], vd, exp);
      var ok := WriteConductance(geq);
      if !ok {
        return Raised(IndexError);
      }
      WriteSource(beq);
      out := Done;
    }

    /**
     * The four conductance writes, in order; on a stamp smaller than 2-by-2 the
     * first write outside it raises, after the ones inside it.
     */
    method WriteConductance(geq: real) returns (ok: bool)
      requires Valid()
      modifies jac
      ensures ok <==> |nodes| >= 2
      ensures Wrote(jac, TwoTerminal(geq))
    {
      if |nodes| < 2 {
        if |nodes| == 1 {
          jac[0, 0] := geq;
        }
        return false;
      }
      jac[0, 0] := geq;
      jac[0, 1] := -geq;
      jac[1, 0] := -geq;
      jac[1, 1] := geq;
      ok := true;
    }

    /** The two source writes. */
    method WriteSource(beq: real)
      requires Valid() && |nodes| >= 2
      modifies bequiv
      ensures WroteVec(bequiv, Opposed(-beq))
    {
      bequiv[0] := -beq;
      bequiv[1] := beq;
    }
  }

  /**
   * The companion stamp is the tangent of the diode law at the linearisation
   * point vd: the current it draws at voltages v is ieq(vd) + geq(vd)*(v0 - v1 - vd),
   * and what enters the diode at port 0 leaves it at port 1.
   */
  lemma CompanionIsTangent(is_: real, vd: real, exp: real -> real, v: seq<real>)
    requires |v| == 2
    ensures Residual(TwoTerminal(Geq(is_, vd, exp)), Opposed(-Beq(is_, vd, exp)), 0, v)
            == Ieq(is_, vd, exp) + Geq(is_, vd, exp) * ((v[0] - v[1]) - vd)
    ensures Residual(TwoTerminal(Geq(is_, vd, exp)), Opposed(-Beq(is_, vd, exp)), 0, v)
            + Residual(TwoTerminal(Geq(is_, vd, exp)), Opposed(-Beq(is_, vd, exp)), 1, v) == 0.0
  {
    var g := Geq(is_, vd, exp);
    TwoTerminalConserves(g, -Beq(is_, vd, exp), v);
    assert g * (v[0] - v[1]) + Beq(is_, vd, exp) == Ieq(is_, vd, exp) + g * ((v[0] - v[1]) - vd);
  }

  /** At the linearisation point itself the companion draws exactly the diode current. */
  lemma CompanionExactAtPoint(is_: real, vd: real, exp: real -> real)
    ensures Residual(TwoTerminal(Geq(is_, vd, exp)), Opposed(-Beq(is_, vd, exp)), 0, [vd, 0.0]) == Ieq(is_, vd, exp)
  {
    CompanionIsTangent(is_, vd, exp, [vd, 0.0]);
  }
}
