// The voltage scope engines: signal devices with no stamp that log, after
// every step, the voltage across two ports (VScope) or three voltages against
// a common reference port (VScope3); and the blocks' node padding.
module VScope {
  import opened Wrappers
  import opened Netlist
  import opened Interfaces

  class VScope {
    const nodes: seq<NodeKey>
    var port2node: Option<map<int, int>>
    var time: seq<real>
    var data: seq<real>

    ghost predicate Valid()
      reads this
    {
      |time| == |data|
    }

    constructor (nodes: seq<NodeKey>)
      ensures Valid() && this.nodes == nodes && port2node.None? && time == [] && data == []
    {
      this.nodes := nodes;
      port2node := None;
      time := [];
      data := [];
    }

    /** connect unpacks exactly two labels as ports 0 and 1; start and step do nothing. */
    method Connect(net: Netlist) returns (out: Outcome)
      modifies this`port2node, net`nodes, net`nodenum
      ensures |nodes| != 2 ==> out == Raised(ValueError) && port2node == old(port2node) && net.Reg() == old(net.Reg())
      ensures |nodes| == 2 ==> out == Done && net.Reg() == LookupAll(old(net.Reg()), nodes).0
      ensures |nodes| == 2 ==> port2node == Some(PortMap(LookupAll(old(net.Reg()), nodes).1))
    {
      if |nodes| != 2 {
        return Raised(ValueError);
      }
      var m := ConnectNodes(net, nodes);
      port2node := Some(m);
      out := Done;
    }

    /** post_step logs the time and the voltage across ports 0 and 1, one entry each. */
    method PostStep(dt: real, t: real, last: Option<seq<real>>) returns (out: Outcome)
      requires Valid()
      modifies this`time, this`data
      ensures Valid()
      ensures ReadAll(last, port2node, [0], 1).Err? ==>
                out == Raised(ReadAll(last, port2node, [0], 1).error) && time == old(time) && data == old(data)
      ensures ReadAll(last, port2node, [0], 1).Ok? ==>
                out == Done && time == old(time) + [t] && data == old(data) + ReadAll(last, port2node, [0], 1).value
    {
      var v := GetAcross(last, map[], port2node, 0, Some(1), None);
      if v.Err? {
        return Raised(v.error);
      }
      time := time + [t];
      data := data + [v.value];
      out := Done;
    }
  }

  class VScope3 {
    const nodes: seq<NodeKey>
    var port2node: Option<map<int, int>>
    var time: seq<real>
    var data1: seq<real>
    var data2: seq<real>
    var data3: seq<real>

    ghost predicate Valid()
      reads this
    {
      |time| == |data1| == |data2| == |data3|
    }

    constructor (nodes: seq<NodeKey>)
      ensures Valid() && this.nodes == nodes && port2node.None?
      ensures time == [] && data1 == [] && data2 == [] && data3 == []
    {
      this.nodes := nodes;
      port2node := None;
      time := [];
      data1 := [];
      data2 := [];
      data3 := [];
    }

    /** connect unpacks exactly four labels as ports 0 to 3, port 3 being the reference. */
    method Connect(net: Netlist) returns (out: Outcome)
      modifies this`port2node, net`nodes, net`nodenum
      ensures |nodes| != 4 ==> out == Raised(ValueError) && port2node == old(port2node) && net.Reg() == old(net.Reg())
      ensures |nodes| == 4 ==> out == Done && net.Reg() == LookupAll(old(net.Reg()), nodes).0
      ensures |nodes| == 4 ==> port2node == Some(PortMap(LookupAll(old(net.Reg()), nodes).1))
    {
      if |nodes| != 4 {
        return Raised(ValueError);
      }
      var m := ConnectNodes(net, nodes);
      port2node := Some(m);
      out := Done;
    }

    /** post_step reads ports 0, 1 and 2 against port 3, then appends the time and the three readings. */
    method PostStep(dt: real, t: real, last: Option<seq<real>>) returns (out: Outcome)
      requires Valid()
      modifies this`time, this`data1, this`data2, this`data3
      ensures Valid()
      ensures ReadAll(last, port2node, [0, 1, 2], 3).Err? ==>
                && out == Raised(ReadAll(last, port2node, [0, 1, 2], 3).error)
                && time == old(time) && data1 == old(data1) && data2 == old(data2) && data3 == old(data3)
      ensures ReadAll(last, port2node, [0, 1, 2], 3).Ok? ==>
                && var v := ReadAll(last, port2node, [0, 1, 2], 3).value;
                && out == Done && time == old(time) + [t]
                && data1 == old(data1) + [v[0]] && data2 == old(data2) + [v[1]] && data3 == old(data3) + [v[2]]
    {
      ghost var ports := [0, 1, 2];
      assert ports[0] == 0 && ports[1] == 1 && ports[2] == 2;
      var v1 := GetAcross(last, map[], port2node, 0, Some(3), None);
      if v1.Err? {
        return Raised(v1.error);
      }
      var v2 := GetAcross(last, map[], port2node, 1, Some(3), None);
      if v2.Err? {
        return Raised(v2.error);
      }
      var v3 := GetAcross(last, map[], port2node, 2, Some(3), None);
      if v3.Err? {
        return Raised(v3.error);
      }
      time := time + [t];
      data1 := data1 + [v1.value];
      data2 := data2 + [v2.value];
      data3 := data3 + [v3.value];
      out := Done;
    }
  }

  /**
   * VScopeBlock.get_engine: a single connection gets a grounded negative lead,
   * appended to the caller's own list; the engine copies the list.
   */
  method BlockEngine(nodes: PyList) returns (engine: VScope)
    modifies nodes
    ensures nodes.items == Padded(old(nodes.items), 1, 2)
    ensures fresh(engine) && engine.Valid() && engine.nodes == nodes.items && engine.time == []
  {
    if |nodes.items| == 1 {
      nodes.ExtendGround(1);
    }
    engine := new VScope(nodes.items);
  }

  /** VScope3Block.get_engine: one to three connections are padded with ground to four, in place. */
  method Block3Engine(nodes: PyList) returns (engine: VScope3)
    modifies nodes
    ensures nodes.items == Padded(old(nodes.items), 1, 4)
    ensures fresh(engine) && engine.Valid() && engine.nodes == nodes.items && engine.time == []
  {
    if |nodes.items| == 1 {
      nodes.ExtendGround(3);
    }
    if |nodes.items| == 2 {
      nodes.ExtendGround(2);
    }
    if |nodes.items| == 3 {
      nodes.ExtendGround(1);
    }
    engine := new VScope3(nodes.items);
  }

  /**
   * An engine built from a non-empty list of at most four nodes connects: the
   * padding gives it exactly the four nodes connect unpacks. An empty list is
   * not padded and cannot connect.
   */
  lemma PaddedScope3Connects(xs: seq<NodeKey>)
    ensures 1 <= |xs| <= 4 <==> |Padded(xs, 1, 4)| == 4
  {
  }
}
