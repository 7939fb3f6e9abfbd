// The capacitor engine of the subcircuit package: the backward-Euler companion
// model, a conductance C/dt beside a history current source.
module C {
  import opened Wrappers
  import opened Netlist
  import opened Interfaces

  class C {
    const nodes: seq<NodeKey>
    var value: real
    var port2node: Option<map<int, int>>
    const jac: array2<real>
    const bequiv: array<real>

    /** The stamp has one row per node and no internal node. */
    ghost predicate Valid()
    {
      jac.Length0 == |nodes| && jac.Length1 == |nodes| && bequiv.Length == |nodes|
    }

    constructor (nodes: seq<NodeKey>, value: real)
      ensures Valid() && this.nodes == nodes && this.value == value && port2node.None?
      ensures fresh(jac) && fresh(bequiv)
      ensures forall i, j | 0 <= i < |nodes| && 0 <= j < |nodes| :: jac[i, j] == 0.0
      ensures forall i | 0 <= i < |nodes| :: bequiv[i] == 0.0
    {
      this.nodes := nodes;
      this.value := value;
      port2node := None;
      var j, b := NewStamp(|nodes|);
      jac := j;
      bequiv := b;
    }

    /** connect unpacks exactly two labels and registers them as ports 0 and 1. */
    method Connect(net: Netlist) returns (out: Outcome)
      modifies this`port2node, net`nodes, net`nodenum
      ensures |nodes| != 2 ==> out == Raised(ValueError) && port2node == old(port2node) && net.Reg() == old(net.Reg())
      ensures |nodes| == 2 ==> out == Done && net.Reg() == LookupAll(old(net.Reg()), nodes).0
      ensures |nodes| == 2 ==> port2node == Some(PortMap(LookupAll(old(net.Reg()), nodes).1))
    {
      if |nodes| != 2 {
        return Raised(ValueError);
      }
      var m := ConnectNodes(net, nodes);
      port2node := Some(m);
      out := Done;
    }

    /**
     * start writes the conductance C/dt in the two-terminal pattern. A stamp
     * smaller than 2-by-2 raises IndexError after the entries inside it are written.
     */
    method Start(dt: real) returns (out: Outcome)
      requires Valid()
      modifies jac
      ensures dt == 0.0 ==> out == Raised(ZeroDivisionError) && unchanged(jac)
      ensures dt != 0.0 && |nodes| < 2 ==> out == Raised(IndexError)
      ensures dt != 0.0 && |nodes| >= 2 ==> out == Done
      ensures dt != 0.0 ==> Wrote(jac, TwoTerminal(value / dt))
    {
      if dt == 0.0 {
        return Raised(ZeroDivisionError);
      }
      if |nodes| < 2 {
        if |nodes| == 1 {
          jac[0, 0] := value / dt;
        }
        return Raised(IndexError);
      }
      jac[0, 0] := value / dt;
      jac[0, 1] := -value / dt;
      jac[1, 0] := -value / dt;
      jac[1, 1] := value / dt;
      out := Done;
    }

    /**
     * step reads the previous step's voltage across ports 0 and 1 and writes the
     * history current (C/dt) * vc into port 0 and its negation into port 1; jac
     * is left alone.
     */
    method Step(dt: real, t: real, hist: seq<real>) returns (out: Outcome)
      requires Valid()
      modifies bequiv
      ensures Across(hist, port2node, 0, Some(1)).Err? ==>
                out == Raised(Across(hist, port2node, 0, Some(1)).error) && unchanged(bequiv)
      ensures Across(hist, port2node, 0, Some(1)).Ok? && dt == 0.0 ==> out == Raised(ZeroDivisionError) && unchanged(bequiv)
      ensures Across(hist, port2node, 0, Some(1)).Ok? && dt != 0.0 && |nodes| < 2 ==> out == Raised(IndexError)
      ensures Across(hist, port2node, 0, Some(1)).Ok? && dt != 0.0 && |nodes| >= 2 ==> out == Done
      ensures Across(hist, port2node, 0, Some(1)).Ok? && dt != 0.0 ==>
                WroteVec(bequiv, Opposed(value / dt * Across(hist, port2node, 0, Some(1)).value))
    {
      var vc := Across(hist, port2node, 0, Some(1));
      if vc.Err? {
        return Raised(vc.error);
      }
      if dt == 0.0 {
        return Raised(ZeroDivisionError);
      }
      if |nodes| < 2 {
        if |nodes| == 1 {
          bequiv[0] := value / dt * vc.value;
        }
        return Raised(IndexError);
      }
      bequiv[0] := value / dt * vc.value;
      bequiv[1] := -value / dt * vc.value;
      out := Done;
    }
  }

  /**
   * The companion model is backward Euler: the current it draws from port 0's node is
   * C times the change of the voltage across it since the last step, over dt.
   */
  lemma CapacitorIsBackwardEuler(value: real, dt: real, vc: real, v: seq<real>)
    requires dt != 0.0 && |v| == 2
    ensures Residual(TwoTerminal(value / dt), Opposed(value / dt * vc), 0, v) == value * ((v[0] - v[1]) - vc) / dt
  {
    TwoTerminalConserves(value / dt, value / dt * vc, v);
    calc {
      value / dt * (v[0] - v[1]) - value / dt * vc;
      value / dt * ((v[0] - v[1]) - vc);
      { assert value / dt * ((v[0] - v[1]) - vc) * dt == value * ((v[0] - v[1]) - vc); }
      value * ((v[0] - v[1]) - vc) / dt;
    }
  }
}
