// The resistor engine of the subcircuit package: a fixed two-terminal
// conductance stamp and no right-hand side.
module R {
  import opened Wrappers
  import opened Netlist
  import opened Interfaces

  /** 1e12 siemens, the near short used for a zero or missing resistance. */
  const ShortConductance: real := 1000000000000.0

  /** The conductance update uses: the reciprocal of a truthy value, else the near short. */
  function Conductance(value: Option<real>): (g: real)
    ensures value.Some? && value.value != 0.0 ==> g * value.value == 1.0
    ensures value.None? || value.value == 0.0 ==> g == ShortConductance
  {
    if value.Some? && value.value != 0.0 then 1.0 / value.value else ShortConductance
  }

  class R {
    const nodes: seq<NodeKey>
    var value: Option<real>
    var port2node: Option<map<int, int>>
    const jac: array2<real>
    const bequiv: array<real>

    /** The stamp has one row per node and no internal node. */
    ghost predicate Valid()
    {
      jac.Length0 == |nodes| && jac.Length1 == |nodes| && bequiv.Length == |nodes|
    }

    constructor (nodes: seq<NodeKey>, value: Option<real>)
      ensures Valid() && this.nodes == nodes && this.value == value && port2node.None?
      ensures fresh(jac) && fresh(bequiv)
      ensures forall i, j | 0 <= i < |nodes| && 0 <= j < |nodes| :: jac[i, j] == 0.0
      ensures forall i | 0 <= i < |nodes| :: bequiv[i] == 0.0
    {
      this.nodes := nodes;
      this.value := value;
      port2node := None;
      var j, b := NewStamp(|nodes|);
      jac := j;
      bequiv := b;
    }

    /** connect unpacks exactly two labels and registers them as ports 0 and 1. */
    method Connect(net: Netlist) returns (out: Outcome)
      modifies this`port2node, net`nodes, net`nodenum
      ensures |nodes| != 2 ==> out == Raised(ValueError) && port2node == old(port2node) && net.Reg() == old(net.Reg())
      ensures |nodes| == 2 ==> out == Done && net.Reg() == LookupAll(old(net.Reg()), nodes).0
      ensures |nodes| == 2 ==> port2node == Some(PortMap(LookupAll(old(net.Reg()), nodes).1))
    {
      if |nodes| != 2 {
        return Raised(ValueError);
      }
      var m := ConnectNodes(net, nodes);
      port2node := Some(m);
      out := Done;
    }

    /**
     * update writes the conductance pattern into the top-left 2-by-2 block and
     * nothing else. A smaller stamp raises IndexError at the first entry outside
     * it, after the entries inside it (jac[0, 0] of a one-node stamp) are written.
     */
    method Update() returns (out: Outcome)
      requires Valid()
      modifies jac
      ensures out == Done <==> |nodes| >= 2
      ensures out != Done ==> out == Raised(IndexError)
      ensures Wrote(jac, TwoTerminal(Conductance(value)))
    {
      var g := Conductance(value);
      if |nodes| < 2 {
        if |nodes| == 1 {
          jac[0, 0] := g;
        }
        return Raised(IndexError);
      }
      jac[0, 0] := g;
      jac[0, 1] := -g;
      jac[1, 0] := -g;
      jac[1, 1] := g;
      out := Done;
    }

    /** start is update. */
    method Start(dt: real) returns (out: Outcome)
      requires Valid()
      modifies jac
      ensures out == Done <==> |nodes| >= 2
      ensures out != Done ==> out == Raised(IndexError)
      ensures Wrote(jac, TwoTerminal(Conductance(value)))
    {
      out := Update();
    }

    /** A linear, time-invariant device: step changes nothing. */
    method Step(dt: real, t: real)
      ensures unchanged(this) && unchanged(jac) && unchanged(bequiv)
    {
    }
  }

  /** A resistor's companion current is g times the voltage across it. */
  lemma ResistorCurrent(value: Option<real>, v: seq<real>)
    requires |v| == 2
    ensures Residual(TwoTerminal(Conductance(value)), map[], 0, v) == Conductance(value) * (v[0] - v[1])
    ensures Residual(TwoTerminal(Conductance(value)), map[], 1, v) == -Conductance(value) * (v[0] - v[1])
  {
    var w := TwoTerminal(Conductance(value));
    ResidualUnfold2(w, map[], 0, v);
    ResidualUnfold2(w, map[], 1, v);
  }
}
