// The current scope engine: a zero-volt branch on an internal node as port 2,
// whose value it logs after every step.
module IScope {
  import opened Wrappers
  import opened Netlist
  import opened Interfaces

  class IScope {
    const nodes: seq<NodeKey>
    var port2node: Option<map<int, int>>
    const jac: array2<real>
    const bequiv: array<real>
    /** The logged step times and currents. */
    var time: seq<real>
    var data: seq<real>

    /** One internal node; the two logs stay aligned. */
    ghost predicate Valid()
      reads this
    {
      && jac.Length0 == |nodes| + 1 && jac.Length1 == |nodes| + 1 && bequiv.Length == |nodes| + 1
      && |time| == |data|
    }

    constructor (nodes: seq<NodeKey>)
      ensures Valid() && this.nodes == nodes && port2node.None? && time == [] && data == []
      ensures fresh(jac) && fresh(bequiv)
      ensures forall i, j | 0 <= i < |nodes| + 1 && 0 <= j < |nodes| + 1 :: jac[i, j] == 0.0
      ensures forall i | 0 <= i < |nodes| + 1 :: bequiv[i] == 0.0
    {
      this.nodes := nodes;
      port2node := None;
      time := [];
      data := [];
      var j, b := NewStamp(|nodes| + 1);
      jac := j;
      bequiv := b;
    }

    /** connect unpacks exactly two labels and creates an internal node as port 2. */
    method Connect(net: Netlist) returns (out: Outcome)
      modifies this`port2node, net`nodes, net`nodenum, net`internalnum
      ensures |nodes| != 2 ==> out == Raised(ValueError) && port2node == old(port2node) && net.Reg() == old(net.Reg())
      ensures |nodes| == 2 ==>
                out == Done && net.Reg() == Internal(LookupAll(old(net.Reg()), nodes).0).0
      ensures |nodes| == 2 ==>
                port2node == Some(PortMap(LookupAll(old(net.Reg()), nodes).1 + [Internal(LookupAll(old(net.Reg()), nodes).0).1]))
    {
      if |nodes| != 2 {
        return Raised(ValueError);
      }
      ghost var r0 := net.Reg();
      var m := ConnectNodes(net, nodes);
      var internal := net.CreateInternal();
      assert PortMap(LookupAll(r0, nodes).1 + [internal]) == m[2 := internal];
      port2node := Some(m[2 := internal]);
      out := Done;
    }

    /** start writes the gyrator on port 2, as the current sensor does; step does nothing. */
    method Start(dt: real) returns (out: Outcome)
      requires Valid()
      modifies jac
      ensures |nodes| < 2 ==> out == Raised(IndexError) && unchanged(jac)
      ensures |nodes| >= 2 ==> out == Done && Wrote(jac, Gyrator(2))
    {
      if |nodes| < 2 {
        return Raised(IndexError);
      }
      jac[0, 2] := 1.0;
      jac[1, 2] := -1.0;
      jac[2, 0] := 1.0;
      jac[2, 1] := -1.0;
      out := Done;
    }

    /** post_step logs the time and the branch current of the last iterate, one entry each. */
    method PostStep(dt: real, t: real, last: Option<seq<real>>) returns (out: Outcome)
      requires Valid()
      modifies this`time, this`data
      ensures Valid()
      ensures GetAcross(last, map[], port2node, 2, None, None).Err? ==>
                out == Raised(GetAcross(last, map[], port2node, 2, None, None).error)
                && time == old(time) && data == old(data)
      ensures GetAcross(last, map[], port2node, 2, None, None).Ok? ==>
                out == Done && time == old(time) + [t]
                && data == old(data) + [GetAcross(last, map[], port2node, 2, None, None).value]
    {
      var i := GetAcross(last, map[], port2node, 2, None, None);
      if i.Err? {
        return Raised(i.error);
      }
      time := time + [t];
      data := data + [i.value];
      out := Done;
    }

    /** get_current_node: the internal node of port 2, with sign -1. */
    function GetCurrentNode(): (r: Result<(int, real)>)
      reads this
      ensures port2node.Some? && 2 in port2node.value <==> r.Ok?
      ensures r.Ok? ==> r.value == (port2node.value[2], -1.0)
    {
      match port2node
      case None => Err(TypeError)
      case Some(m) => if 2 in m then Ok((m[2], -1.0)) else Err(KeyError)
    }
  }
}
