// The five-channel scope engine: a signal device with no stamp that logs,
// after every step, five voltages against a common reference port; and its
// block's node padding.
module Scope {
  import opened Wrappers
  import opened Netlist
  import opened Interfaces

  class Scope5 {
    const nodes: seq<NodeKey>
    var port2node: Option<map<int, int>>
    var time: seq<real>
    var data1: seq<real>
    var data2: seq<real>
    var data3: seq<real>
    var data4: seq<real>
    var data5: seq<real>

    ghost predicate Valid()
      reads this
    {
      |time| == |data1| == |data2| == |data3| == |data4| == |data5|
    }

    constructor (nodes: seq<NodeKey>)
      ensures Valid() && this.nodes == nodes && port2node.None? && time == []
      ensures data1 == [] && data2 == [] && data3 == [] && data4 == [] && data5 == []
    {
      this.nodes := nodes;
      port2node := None;
      time := [];
      data1 := [];
      data2 := [];
      data3 := [];
      data4 := [];
      data5 := [];
    }

    /** connect unpacks exactly six labels as ports 0 to 5, port 5 being the reference; start and step do nothing. */
    method Connect(net: Netlist) returns (out: Outcome)
      modifies this`port2node, net`nodes, net`nodenum
      ensures |nodes| != 6 ==> out == Raised(ValueError) && port2node == old(port2node) && net.Reg() == old(net.Reg())
      ensures |nodes| == 6 ==> out == Done && net.Reg() == LookupAll(old(net.Reg()), nodes).0
      ensures |nodes| == 6 ==> port2node == Some(PortMap(LookupAll(old(net.Reg()), nodes).1))
    {
      if |nodes| != 6 {
        return Raised(ValueError);
      }
      var m := ConnectNodes(net, nodes);
      port2node := Some(m);
      out := Done;
    }

    /** post_step reads ports 0 to 4 against port 5, then appends the time and the five readings. */
    method PostStep(dt: real, t: real, last: Option<seq<real>>) returns (out: Outcome)
      requires Valid()
      modifies this`time, this`data1, this`data2, this`data3, this`data4, this`data5
      ensures Valid()
      ensures ReadAll(last, port2node, [0, 1, 2, 3, 4], 5).Err? ==>
                && out == Raised(ReadAll(last, port2node, [0, 1, 2, 3, 4], 5).error)
                && time == old(time) && data1 == old(data1) && data2 == old(data2)
                && data3 == old(data3) && data4 == old(data4) && data5 == old(data5)
      ensures ReadAll(last, port2node, [0, 1, 2, 3, 4], 5).Ok? ==>
                && var v := ReadAll(last, port2node, [0, 1, 2, 3, 4], 5).value;
                && out == Done && time == old(time) + [t]
                && data1 == old(data1) + [v[0]] && data2 == old(data2) + [v[1]] && data3 == old(data3) + [v[2]]
                && data4 == old(data4) + [v[3]] && data5 == old(data5) + [v[4]]
    {
      ghost var ports := [0, 1, 2, 3, 4];
      assert ports[0] == 0 && ports[1] == 1 && ports[2] == 2 && ports[3] == 3 && ports[4] == 4;
      var v1 := GetAcross(last, map[], port2node, 0, Some(5), None);
      if v1.Err? {
        return Raised(v1.error);
      }
      var v2 := GetAcross(last, map[], port2node, 1, Some(5), None);
      if v2.Err? {
        return Raised(v2.error);
      }
      var v3 := GetAcross(last, map[], port2node, 2, Some(5), None);
      if v3.Err? {
        return Raised(v3.error);
      }
      var v4 := GetAcross(last, map[], port2node, 3, Some(5), None);
      if v4.Err? {
        return Raised(v4.error);
      }
      var v5 := GetAcross(last, map[], port2node, 4, Some(5), None);
      if v5.Err? {
        return Raised(v5.error);
      }
      time := time + [t];
      data1 := data1 + [v1.value];
      data2 := data2 + [v2.value];
      data3 := data3 + [v3.value];
      data4 := data4 + [v4.value];
      data5 := data5 + [v5.value];
      out := Done;
    }
  }

  /**
   * Scope5Block.get_engine: zero to five connections are padded with ground
   * to six, in the caller's own list; the engine copies the list.
   */
  method BlockEngine(nodes: PyList) returns (engine: Scope5)
    modifies nodes
    ensures nodes.items == Padded(old(nodes.items), 0, 6)
    ensures fresh(engine) && engine.Valid() && engine.nodes == nodes.items && engine.time == []
  {
    if |nodes.items| == 0 {
      nodes.ExtendGround(6);
    }
    if |nodes.items| == 1 {
      nodes.ExtendGround(5);
    } else if |nodes.items| == 2 {
      nodes.ExtendGround(4);
    } else if |nodes.items| == 3 {
      nodes.ExtendGround(3);
    } else if |nodes.items| == 4 {
      nodes.ExtendGround(2);
    } else if |nodes.items| == 5 {
      nodes.ExtendGround(1);
    }
    engine := new Scope5(nodes.items);
  }
}
