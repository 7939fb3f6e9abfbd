// The subcircuit instance engine (X) and the two-port subcircuit block's
// get_engine, which builds a definition from its property strings.
module X {
  import opened Wrappers
  import opened Netlist
  import opened Interfaces
  import opened PyOps

  /**
   * The dict `for p, n in zip(ports, nodes): port2node[p] = n` holds after the
   * first k pairs: each port keyed to its node, a repeated port to its last node.
   */
  function ZipMap(ports: seq<NodeKey>, nodes: seq<NodeKey>, k: nat): (m: map<NodeKey, NodeKey>)
    requires k <= |ports| && k <= |nodes|
    ensures m.Keys == set i | 0 <= i < k :: ports[i]
    ensures forall i | 0 <= i < k && (forall j | i < j < k :: ports[j] != ports[i]) :: m[ports[i]] == nodes[i]
  {
    if k == 0 then map[] else ZipMap(ports, nodes, k - 1)[ports[k - 1] := nodes[k - 1]]
  }

  /** zip stops at the shorter sequence. */
  function ZipLength(ports: seq<NodeKey>, nodes: seq<NodeKey>): (n: nat)
    ensures n <= |ports| && n <= |nodes| && (n == |ports| || n == |nodes|)
  {
    if |ports| <= |nodes| then |ports| else |nodes|
  }

  class X {
    const nodes: seq<NodeKey>
    const subckt: string
    const parameters: map<string, real>
    /** Subcircuit port name to instance node label: no node indices are looked up. */
    var port2node: Option<map<NodeKey, NodeKey>>

    /** An X device has no internal node and no stamp of its own. */
    constructor (nodes: seq<NodeKey>, subckt: string, parameters: map<string, real>)
      ensures this.nodes == nodes && this.subckt == subckt && this.parameters == parameters && port2node.None?
    {
      this.nodes := nodes;
      this.subckt := subckt;
      this.parameters := parameters;
      port2node := None;
    }

    /**
     * connect pairs the definition's ports with this instance's nodes,
     * dropping extras on either side; an unregistered definition raises.
     */
    method Connect(subckts: map<string, Subckt>) returns (out: Outcome)
      modifies this`port2node
      ensures subckt !in subckts ==> out == Raised(KeyError) && port2node == Some(map[])
      ensures subckt in subckts ==>
                out == Done
                && port2node == Some(ZipMap(subckts[subckt].ports, nodes, ZipLength(subckts[subckt].ports, nodes)))
    {
      port2node := Some(map[]);
      if subckt !in subckts {
        return Raised(KeyError);
      }
      var m := ZipPorts(subckts[subckt].ports, nodes);
      port2node := Some(m);
      out := Done;
    }
  }

  /** The zip loop of connect. */
  method ZipPorts(ports: seq<NodeKey>, nodes: seq<NodeKey>) returns (m: map<NodeKey, NodeKey>)
    ensures m == ZipMap(ports, nodes, ZipLength(ports, nodes))
  {
    var n := ZipLength(ports, nodes);
    m := map[];
    for k := 0 to n
      invariant m == ZipMap(ports, nodes, k)
    {
      m := m[ports[k] := nodes[k]];
    }
  }

  /** With distinct port names every paired port maps to its own node, and nothing else is mapped. */
  lemma DistinctPortsMapped(ports: seq<NodeKey>, nodes: seq<NodeKey>)
    requires forall i, j | 0 <= i < j < |ports| :: ports[i] != ports[j]
    ensures var m := ZipMap(ports, nodes, ZipLength(ports, nodes));
            && |m| == ZipLength(ports, nodes)
            && forall i | 0 <= i < ZipLength(ports, nodes) :: m[ports[i]] == nodes[i]
  {
    var n := ZipLength(ports, nodes);
    var m := ZipMap(ports, nodes, n);
    DistinctCard(ports, n);
  }

  /** k distinct elements make a set of k. */
  lemma {:induction false} DistinctCard(ports: seq<NodeKey>, k: nat)
    requires k <= |ports| && forall i, j | 0 <= i < j < |ports| :: ports[i] != ports[j]
    ensures |set i | 0 <= i < k :: ports[i]| == k
  {
    if k > 0 {
      DistinctCard(ports, k - 1);
      var s := set i | 0 <= i < k - 1 :: ports[i];
      assert (set i | 0 <= i < k :: ports[i]) == s + {ports[k - 1]};
      assert ports[k - 1] !in s;
    }
  }

  /** The registry of definitions by name that netlist.subckt fills. */
  class SubcktTable {
    var subckts: map<string, Subckt>

    constructor ()
      ensures subckts == map[]
    {
      subckts := map[];
    }

    /** netlist.subckt: register (or replace) the definition under the name and name it. */
    method Register(name: string, def: Subckt)
      modifies this, def`name
      ensures subckts == old(subckts)[name := def] && def.name == Some(name)
    {
      subckts := subckts[name := def];
      def.name := Some(name);
    }
  }

  /** The two-port block's properties: definition name, two port names and nine device slots. */
  datatype XProps = XProps(subcktName: string, port1: string, port2: string, devices: seq<string>)

  /**
   * The definition's device table after the first k slots: a non-blank slot
   * whose evaluation produced a device is added under its own text, unless
   * that text is already a key.
   */
  function SlotTable(defs: seq<string>, evaluated: seq<Option<DeviceRef>>, k: nat): (m: map<string, DeviceRef>)
    requires k <= |defs| && k <= |evaluated|
    ensures forall name | name in m :: exists i | 0 <= i < k :: defs[i] == name && !Blank(defs[i]) && evaluated[i].Some?
    ensures forall i | 0 <= i < k && !Blank(defs[i]) && evaluated[i].Some? :: defs[i] in m
  {
    if k == 0 then map[]
    else
      var m := SlotTable(defs, evaluated, k - 1);
      var d := defs[k - 1];
      if !Blank(d) && evaluated[k - 1].Some? && d !in m then m[d := evaluated[k - 1].value] else m
  }

  /**
   * XBlock2Port.get_engine: a fresh definition with the two port names,
   * registered when a netlist is given, holding the devices of the nine
   * slots (the evaluation of each slot is an argument, None where it
   * raised); it returns an instance of the named definition on the nodes.
   */
  method BlockEngine(props: XProps, nodes: seq<NodeKey>, netlist: SubcktTable?, evaluated: seq<Option<DeviceRef>>)
    returns (engine: X, def: Subckt)
    requires |props.devices| == 9 && |evaluated| == 9
    modifies netlist, set i | 0 <= i < 9 && evaluated[i].Some? :: evaluated[i].value
    ensures fresh(def) && def.ports == [StrKey(props.port1), StrKey(props.port2)]
    ensures def.devices == SlotTable(props.devices, evaluated, 9)
    ensures netlist != null ==> netlist.subckts == old(netlist.subckts)[props.subcktName := def] && def.name == Some(props.subcktName)
    ensures netlist == null ==> def.name.None?
    ensures fresh(engine) && engine.nodes == nodes && engine.subckt == props.subcktName && engine.port2node.None?
  {
    def := new Subckt([StrKey(props.port1), StrKey(props.port2)]);
    if netlist != null {
      netlist.Register(props.subcktName, def);
    }
    for i := 0 to 9
      invariant def.devices == SlotTable(props.devices, evaluated, i)
      invariant def.ports == [StrKey(props.port1), StrKey(props.port2)]
      invariant netlist != null ==> netlist.subckts == old(netlist.subckts)[props.subcktName := def] && def.name == Some(props.subcktName)
      invariant netlist == null ==> def.name.None?
    {
      var text := props.devices[i];
      if !Blank(text) && evaluated[i].Some? {
        var added := def.Device(text, evaluated[i].value);
      }
    }
    engine := new X(nodes, props.subcktName, map[]);
  }
}
