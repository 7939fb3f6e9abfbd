// The current sensor engine: a zero-volt branch between ports 0 and 1 whose
// current is the value of a third, user-named node.
module Isense {
  import opened Wrappers
  import opened Netlist
  import opened Interfaces

  class CurrentSensor {
    const nodes: seq<NodeKey>
    var port2node: Option<map<int, int>>
    const jac: array2<real>
    const bequiv: array<real>

    /** No internal node: the current node is the third user node. */
    ghost predicate Valid()
    {
      jac.Length0 == |nodes| && jac.Length1 == |nodes| && bequiv.Length == |nodes|
    }

    constructor (nodes: seq<NodeKey>)
      ensures Valid() && this.nodes == nodes && port2node.None?
      ensures fresh(jac) && fresh(bequiv)
      ensures forall i, j | 0 <= i < |nodes| && 0 <= j < |nodes| :: jac[i, j] == 0.0
      ensures forall i | 0 <= i < |nodes| :: bequiv[i] == 0.0
    {
      this.nodes := nodes;
      port2node := None;
      var j, b := NewStamp(|nodes|);
      jac := j;
      bequiv := b;
    }

    /** connect unpacks exactly three labels as ports 0, 1 and the current node 2. */
    method Connect(net: Netlist) returns (out: Outcome)
      modifies this`port2node, net`nodes, net`nodenum
      ensures |nodes| != 3 ==> out == Raised(ValueError) && port2node == old(port2node) && net.Reg() == old(net.Reg())
      ensures |nodes| == 3 ==> out == Done && net.Reg() == LookupAll(old(net.Reg()), nodes).0
      ensures |nodes| == 3 ==> port2node == Some(PortMap(LookupAll(old(net.Reg()), nodes).1))
      ensures |nodes| == 3 ==> net.Reg().internalnum == old(net.Reg().internalnum)
    {
      if |nodes| != 3 {
        return Raised(ValueError);
      }
      var m := ConnectNodes(net, nodes);
      port2node := Some(m);
      out := Done;
    }

    /** start writes the gyrator on port 2 and leaves its diagonal and bequiv at zero. */
    method Start(dt: real) returns (out: Outcome)
      requires Valid()
      modifies jac
      ensures |nodes| < 3 ==> out == Raised(IndexError) && unchanged(jac)
      ensures |nodes| >= 3 ==> out == Done && Wrote(jac, Gyrator(2))
    {
      if |nodes| < 3 {
        return Raised(IndexError);
      }
      jac[0, 2] := 1.0;
      jac[1, 2] := -1.0;
      jac[2, 0] := 1.0;
      jac[2, 1] := -1.0;
      out := Done;
    }

    /** get_current_node: the node of port 2, with sign -1. */
    function GetCurrentNode(): (r: Result<(int, real)>)
      reads this
      ensures port2node.Some? && 2 in port2node.value <==> r.Ok?
      ensures r.Ok? ==> r.value == (port2node.value[2], -1.0)
    {
      match port2node
      case None => Err(TypeError)
      case Some(m) => if 2 in m then Ok((m[2], -1.0)) else Err(KeyError)
    }
  }

  /**
   * The gyrator with an empty right-hand side is an ammeter: its branch row
   * forces v0 == v1, and the branch current v2 enters the sensor at port 0 and leaves it at port 1.
   */
  lemma ZeroVoltBranch(v: seq<real>)
    requires |v| == 3
    ensures Residual(Gyrator(2), map[], 2, v) == v[0] - v[1]
    ensures Residual(Gyrator(2), map[], 0, v) == v[2] && Residual(Gyrator(2), map[], 1, v) == -v[2]
  {
    ResidualUnfold3(Gyrator(2), map[], 0, v);
    ResidualUnfold3(Gyrator(2), map[], 1, v);
    ResidualUnfold3(Gyrator(2), map[], 2, v);
  }
}
