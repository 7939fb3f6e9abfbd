// The device base classes of the subcircuit package: node bookkeeping, the
// across-value accessors every device engine reads its terminal voltages with,
// model lookup, the subcircuit definition's device dict and the lookup table
// used by dependent sources.
module Interfaces {
  import opened Wrappers
  import opened Netlist

  // ---------------------------------------------------------------------------
  // Device nodes
  // ---------------------------------------------------------------------------

  /** The `nodes` argument of a device: a bare int or an iterable of node labels. */
  datatype NodesArg = IntNode(n: int) | NodeList(keys: seq<NodeKey>)

  /** Device.__init__: an int becomes a one-element tuple, anything else a list. */
  function BaseNodes(nodes: NodesArg): (r: seq<NodeKey>)
    ensures nodes.IntNode? ==> |r| == 1 && r[0] == IntKey(nodes.n)
    ensures nodes.NodeList? ==> r == nodes.keys
  {
    match nodes
    case IntNode(n) => [IntKey(n)]
    case NodeList(keys) => keys
  }

  /**
   * MNADevice.__init__ sizes its stamp from the RAW argument: len() of an int
   * raises TypeError and numpy refuses a negative dimension with ValueError.
   */
  function MNASize(nodes: NodesArg, internals: int): (r: Result<nat>)
    ensures r.Ok? <==> nodes.NodeList? && |nodes.keys| + internals >= 0
    ensures r.Ok? ==> r.value == |BaseNodes(nodes)| + internals
    ensures nodes.IntNode? ==> r == Err(TypeError)
  {
    match nodes
    case IntNode(_) => Err(TypeError)
    case NodeList(keys) =>
      if |keys| + internals < 0 then Err(ValueError) else Ok(|keys| + internals)
  }

  /**
   * The base class accepts a single int node, but the MNA subclass then fails on
   * it: every MNA device needs a node list, and its stamp has one row per node
   * plus one per internal node.
   */
  lemma MNAOverridesBase(nodes: NodesArg, internals: nat)
    ensures nodes.IntNode? ==> |BaseNodes(nodes)| == 1 && MNASize(nodes, internals).Err?
    ensures nodes.NodeList? ==> MNASize(nodes, internals) == Ok(|BaseNodes(nodes)| + internals)
  {
  }

  // ---------------------------------------------------------------------------
  // Across values
  // ---------------------------------------------------------------------------

  /** numpy's v[i] on a vector: negative indices count from the end. */
  function PyIndex(v: seq<real>, i: int): (r: Result<real>)
    ensures r.Ok? <==> -|v| <= i < |v|
    ensures 0 <= i < |v| ==> r == Ok(v[i])
  {
    if 0 <= i < |v| then Ok(v[i])
    else if -|v| <= i < 0 then Ok(v[|v| + i])
    else Err(IndexError)
  }

  /** The value of a port's node: None port maps raise TypeError, missing ports KeyError. */
  function PortValue(v: seq<real>, p2n: Option<map<int, int>>, port: int): (r: Result<real>)
    ensures p2n.None? ==> r == Err(TypeError)
    ensures p2n.Some? && port !in p2n.value ==> r == Err(KeyError)
    ensures p2n.Some? && port in p2n.value ==> r == PyIndex(v, p2n.value[port])
  {
    match p2n
    case None => Err(TypeError)
    case Some(m) => if port in m then PyIndex(v, m[port]) else Err(KeyError)
  }

  /** A port argument is truthy when it is given and not 0. */
  predicate Truthy(port: Option<int>)
  {
    port.Some? && port.value != 0
  }

  /**
   * The port form shared by get_across and get_across_history: the first port's
   * node value, minus the second port's only when that argument is truthy.
   */
  function Across(v: seq<real>, p2n: Option<map<int, int>>, port1: int, port2: Option<int>): (r: Result<real>)
    ensures r.Ok? <==> PortValue(v, p2n, port1).Ok? && (Truthy(port2) ==> PortValue(v, p2n, port2.value).Ok?)
    ensures r.Ok? && Truthy(port2) ==> r.value == PortValue(v, p2n, port1).value - PortValue(v, p2n, port2.value).value
    ensures r.Ok? && !Truthy(port2) ==> r.value == PortValue(v, p2n, port1).value
  {
    var a := PortValue(v, p2n, port1);
    if a.Err? then a
    else if Truthy(port2) then
      var b := PortValue(v, p2n, port2.value);
      if b.Err? then b else Ok(a.value - b.value)
    else a
  }

  /** Naming port 0 as the second port measures the first port against ground, not against port 0. */
  lemma PortZeroIsGround(v: seq<real>, p2n: Option<map<int, int>>, port1: int)
    ensures Across(v, p2n, port1, Some(0)) == Across(v, p2n, port1, None)
  {
  }

  /** Between two non-zero ports, swapping them negates the reading. */
  lemma AcrossAntisymmetric(v: seq<real>, p2n: Option<map<int, int>>, port1: int, port2: int)
    requires port1 != 0 && port2 != 0
    requires Across(v, p2n, port1, Some(port2)).Ok?
    ensures Across(v, p2n, port2, Some(port1)).Ok?
    ensures Across(v, p2n, port2, Some(port1)).value == -Across(v, p2n, port1, Some(port2)).value
  {
  }

  /** Indexing an across vector with a raw node label: numpy refuses a string index. */
  function NodeValue(v: seq<real>, key: NodeKey): (r: Result<real>)
    ensures key.StrKey? ==> r == Err(IndexError)
    ensures key.IntKey? ==> r == PyIndex(v, key.i)
  {
    match key
    case IntKey(i) => PyIndex(v, i)
    case StrKey(_) => Err(IndexError)
  }

  /** Two node labels' difference, the external-device reading. */
  function NodeDifference(v: seq<real>, a: NodeKey, b: NodeKey): (r: Result<real>)
    ensures r.Ok? <==> NodeValue(v, a).Ok? && NodeValue(v, b).Ok?
    ensures r.Ok? ==> r.value == NodeValue(v, a).value - NodeValue(v, b).value
  {
    var x := NodeValue(v, a);
    if x.Err? then x
    else
      var y := NodeValue(v, b);
      if y.Err? then y else Ok(x.value - y.value)
  }

  /**
   * Device.get_across. Before setup (across_last is None) it reads 0.0. With an
   * external device it asserts that device has at least two nodes and subtracts
   * the values at its first two raw node labels; otherwise it is the port form.
   */
  function GetAcross(last: Option<seq<real>>, devNodes: map<string, NodesArg>, p2n: Option<map<int, int>>,
                     port1: int, port2: Option<int>, external: Option<string>): (r: Result<real>)
    ensures last.None? ==> r == Ok(0.0)
    ensures last.Some? && !(external.Some? && external.value != "") ==> r == Across(last.value, p2n, port1, port2)
    ensures last.Some? && external.Some? && external.value != "" && external.value !in devNodes ==> r == Err(KeyError)
    ensures last.Some? && external.Some? && external.value != "" && external.value in devNodes
            && devNodes[external.value].NodeList?
            && |devNodes[external.value].keys| > 1
            ==> r == NodeDifference(last.value, devNodes[external.value].keys[0], devNodes[external.value].keys[1])
  {
    match last
    case None => Ok(0.0)
    case Some(v) =>
      if external.Some? && external.value != "" then
        if external.value !in devNodes then Err(KeyError)
        else match devNodes[external.value]
          case IntNode(_) => Err(TypeError)
          case NodeList(keys) =>
            if |keys| > 1 then NodeDifference(v, keys[0], keys[1]) else Err(AssertionError)
      else Across(v, p2n, port1, port2)
  }

  /**
   * Device.get_across_history as written. With a device name it checks only that
   * the device has more than one node, then returns across_history[0] minus
   * across_history[1] whatever the device's nodes are; a one-node device gives
   * +inf. Without a device it is the port form on the history vector.
   */
  function GetAcrossHistory(hist: seq<real>, devNodes: map<string, NodesArg>, p2n: Option<map<int, int>>,
                            port1: int, port2: Option<int>, device: Option<string>): (r: Result<ExtReal>)
    ensures !(device.Some? && device.value != "") ==>
              (r.Ok? <==> Across(hist, p2n, port1, port2).Ok?)
              && (r.Ok? ==> r.value == Fin(Across(hist, p2n, port1, port2).value))
    ensures device.Some? && device.value != "" && device.value in devNodes && devNodes[device.value].NodeList?
            && |devNodes[device.value].keys| > 1 && |hist| >= 2
            ==> r == Ok(Fin(hist[0] - hist[1]))
  {
    if device.Some? && device.value != "" then
      if device.value !in devNodes then Err(KeyError)
      else match devNodes[device.value]
        case IntNode(_) => Err(TypeError)
        case NodeList(keys) =>
          if |keys| > 1 then
            if |hist| >= 2 then Ok(Fin(hist[0] - hist[1])) else Err(IndexError)
          else Ok(PosInf)
    else
      var a := Across(hist, p2n, port1, port2);
      if a.Err? then Err(a.error) else Ok(Fin(a.value))
  }

  /**
   * The device form as evidently intended, matching get_across: the history
   * values at the device's first two node labels.
   */
  function GetAcrossHistoryIntended(hist: seq<real>, devNodes: map<string, NodesArg>, p2n: Option<map<int, int>>,
                                    port1: int, port2: Option<int>, device: Option<string>): (r: Result<ExtReal>)
    ensures device.Some? && device.value != "" && device.value in devNodes && devNodes[device.value].NodeList?
            && |devNodes[device.value].keys| > 1
            ==> (r.Ok? <==> NodeDifference(hist, devNodes[device.value].keys[0], devNodes[device.value].keys[1]).Ok?)
    ensures !(device.Some? && device.value != "") ==> r == GetAcrossHistory(hist, devNodes, p2n, port1, port2, device)
  {
    if device.Some? && device.value != "" then
      if device.value !in devNodes then Err(KeyError)
      else match devNodes[device.value]
        case IntNode(_) => Err(TypeError)
        case NodeList(keys) =>
          if |keys| > 1 then
            var d := NodeDifference(hist, keys[0], keys[1]);
            if d.Err? then Err(d.error) else Ok(Fin(d.value))
          else Ok(PosInf)
    else GetAcrossHistory(hist, devNodes, p2n, port1, port2, device)
  }

  /**
   * The intended device reading agrees with get_across on the same vector: the
   * history of a device's voltage is what get_across reported one step earlier.
   */
  lemma IntendedHistoryMatchesGetAcross(v: seq<real>, devNodes: map<string, NodesArg>, p2n: Option<map<int, int>>,
                                        name: string)
    requires name != "" && GetAcross(Some(v), devNodes, p2n, 0, None, Some(name)).Ok?
    ensures GetAcrossHistoryIntended(v, devNodes, p2n, 0, None, Some(name))
            == Ok(Fin(GetAcross(Some(v), devNodes, p2n, 0, None, Some(name)).value))
  {
  }

  /**
   * The device form as written ignores the device: a resistor between nodes 2
   * and 3 with 5 V and 1 V on them reads 0 V of history instead of 4 V.
   */
  lemma HistoryOfDeviceIgnoresNodes()
    ensures var devNodes := map["R1" := NodeList([IntKey(2), IntKey(3)])];
            var hist := [0.0, 0.0, 5.0, 1.0];
            && GetAcrossHistory(hist, devNodes, None, 0, None, Some("R1")) == Ok(Fin(0.0))
            && GetAcrossHistoryIntended(hist, devNodes, None, 0, None, Some("R1")) == Ok(Fin(4.0))
  {
    var devNodes := map["R1" := NodeList([IntKey(2), IntKey(3)])];
    var hist := [0.0, 0.0, 5.0, 1.0];
    assert devNodes["R1"].keys == [IntKey(2), IntKey(3)];
    assert NodeDifference(hist, IntKey(2), IntKey(3)) == Ok(4.0);
  }

  // ---------------------------------------------------------------------------
  // Models
  // ---------------------------------------------------------------------------

  /** A .model card: its name and its parameters. */
  datatype Model = Model(name: string, params: map<string, real>)

  /** MNADevice.get_model: the subcircuit's model of that name, or None. */
  function GetModel(models: map<string, Model>, mname: string): (r: Option<Model>)
    ensures r.Some? <==> mname in models
    ensures r.Some? ==> r.value == models[mname]
  {
    if mname in models then Some(models[mname]) else None
  }

  // ---------------------------------------------------------------------------
  // Subcircuit definitions
  // ---------------------------------------------------------------------------

  /** The base attributes of a device object that a subcircuit definition sets on it. */
  class DeviceRef {
    var name: Option<string>
    var subckt: Option<Subckt>

    constructor ()
      ensures name.None? && subckt.None?
    {
      name := None;
      subckt := None;
    }
  }

  /** A .subckt definition: its external ports and its devices by name. */
  class Subckt {
    var ports: seq<NodeKey>
    var devices: map<string, DeviceRef>
    var nnodes: nat
    var name: Option<string>

    constructor (ports: seq<NodeKey>)
      ensures this.ports == ports && devices == map[] && nnodes == 0 && name.None?
    {
      this.ports := ports;
      devices := map[];
      nnodes := 0;
      name := None;
    }

    /**
     * Subckt.device: an unused name is inserted, the device is named and linked
     * back to this definition, and True is returned; a used name returns False
     * and changes nothing.
     */
    method Device(name: string, device: DeviceRef) returns (ok: bool)
      modifies this`devices, device
      ensures ok <==> name !in old(devices)
      ensures ok ==> devices == old(devices)[name := device] && device.name == Some(name) && device.subckt == Some(this)
      ensures !ok ==> devices == old(devices) && unchanged(device)
    {
      if name !in devices {
        devices := devices[name := device];
        device.name := Some(name);
        device.subckt := Some(this);
        ok := true;
      } else {
        ok := false;
      }
    }
  }

  // ---------------------------------------------------------------------------
  // MNA device helpers: connecting nodes and writing stamp entries
  // ---------------------------------------------------------------------------

  /** get_node_index for each label in turn, on the abstract registry. */
  function LookupAll(r: Registry, keys: seq<NodeKey>): (res: (Registry, seq<int>))
    ensures |res.1| == |keys|
  {
    if keys == [] then (r, [])
    else
      var (r1, idx) := LookupAll(r, keys[..|keys| - 1]);
      var (r2, i) := Lookup(r1, keys[|keys| - 1]);
      (r2, idx + [i])
  }

  /**
   * Registering a device's labels one after another: each label ends up naming
   * the index returned for it, every index is a valid node, and labels known
   * before keep their index.
   */
  lemma {:induction false} LookupAllSpec(r: Registry, keys: seq<NodeKey>)
    requires Bounded(r)
    ensures var (r2, idx) := LookupAll(r, keys);
      && |idx| == |keys| && Bounded(r2) && r2.internalnum == r.internalnum
      && (forall i | 0 <= i < |keys| :: keys[i] in r2.nodes && r2.nodes[keys[i]] == idx[i])
      && (forall k | k in r.nodes :: k in r2.nodes && r2.nodes[k] == r.nodes[k])
  {
    if keys != [] {
      var init := keys[..|keys| - 1];
      LookupAllSpec(r, init);
      var (r1, idx1) := LookupAll(r, init);
      LookupSpec(r1, keys[|keys| - 1]);
      var (r2, i) := Lookup(r1, keys[|keys| - 1]);
      assert forall k | IsGroundKey(k) :: k in r2.nodes && r2.nodes[k] == 0 by {
        forall k | IsGroundKey(k) ensures k in r2.nodes && r2.nodes[k] == 0 {
          assert k in r1.nodes;
        }
      }
      forall j | 0 <= j < |keys| ensures keys[j] in r2.nodes && r2.nodes[keys[j]] == (idx1 + [i])[j] {
        if j < |init| {
          assert keys[j] == init[j];
        }
      }
    }
  }

  /** The port-to-node dict a device builds: port p is the p-th index. */
  function PortMap(idx: seq<int>): (m: map<int, int>)
    ensures forall p :: p in m <==> 0 <= p < |idx|
    ensures forall p | 0 <= p < |idx| :: m[p] == idx[p]
  {
    map p | 0 <= p < |idx| :: idx[p]
  }

  /**
   * Device.get_node_index applied to each label, as the devices' connect methods
   * do in their dict displays (left to right).
   */
  method ConnectNodes(net: Netlist, keys: seq<NodeKey>) returns (p2n: map<int, int>)
    modifies net`nodes, net`nodenum
    ensures (net.Reg(), p2n) == (LookupAll(old(net.Reg()), keys).0, PortMap(LookupAll(old(net.Reg()), keys).1))
  {
    var idx: seq<int> := [];
    var k := 0;
    while k < |keys|
      invariant 0 <= k <= |keys|
      invariant (net.Reg(), idx) == LookupAll(old(net.Reg()), keys[..k])
    {
      assert keys[..k + 1][..k] == keys[..k];
      var i := net.GetNodeIndex(keys[k]);
      idx := idx + [i];
      k := k + 1;
    }
    assert keys[..k] == keys;
    p2n := PortMap(idx);
  }

  /**
   * MNADevice.__init__'s arrays: an n-by-n zero jac and a zero bequiv of n rows
   * (numpy's n-by-1 column, modelled as a vector).
   */
  method NewStamp(n: nat) returns (jac: array2<real>, bequiv: array<real>)
    ensures fresh(jac) && fresh(bequiv)
    ensures jac.Length0 == n && jac.Length1 == n && bequiv.Length == n
    ensures forall i, j | 0 <= i < n && 0 <= j < n :: jac[i, j] == 0.0
    ensures forall i | 0 <= i < n :: bequiv[i] == 0.0
  {
    jac := new real[n, n]((i, j) => 0.0);
    bequiv := new real[n](i => 0.0);
  }

  /** Fixed entries a device writes into its local matrix, by (row, column). */
  type Writes = map<(int, int), real>

  /** `a` holds the written entries and every other entry is as before. */
  twostate predicate Wrote(a: array2<real>, new w: Writes)
    reads a
  {
    forall i, j | 0 <= i < a.Length0 && 0 <= j < a.Length1 ::
      a[i, j] == if (i, j) in w then w[(i, j)] else old(a[i, j])
  }

  /** `b` holds the written entries and every other entry is as before. */
  twostate predicate WroteVec(b: array<real>, new w: map<int, real>)
    reads b
  {
    forall i | 0 <= i < b.Length :: b[i] == if i in w then w[i] else old(b[i])
  }

  /** A set of writes that is its own transpose. */
  ghost predicate Symmetric(w: Writes)
  {
    forall i, j | (i, j) in w :: (j, i) in w && w[(j, i)] == w[(i, j)]
  }

  /**
   * The two-terminal conductance pattern [[g, -g], [-g, g]] of resistors,
   * capacitors, current-source resistances and diodes.
   */
  function TwoTerminal(g: real): (w: Writes)
    ensures Symmetric(w)
    ensures forall i | 0 <= i < 2 :: (i, 0) in w && (i, 1) in w && w[(i, 0)] + w[(i, 1)] == 0.0
    ensures forall i, j | (i, j) in w :: 0 <= i < 2 && 0 <= j < 2 && w[(i, j)] == if i == j then g else -g
  {
    map[(0, 0) := g, (0, 1) := -g, (1, 0) := -g, (1, 1) := g]
  }

  /** The right-hand side pair (x, -x) two-terminal sources write. */
  function Opposed(x: real): (w: map<int, real>)
    ensures w.Keys == {0, 1} && w[0] == x && w[0] + w[1] == 0.0
  {
    map[0 := x, 1 := -x]
  }

  /**
   * The gyrator pattern that ties the branch-current port c to the terminals
   * 0 and 1: +1 and -1 in column c and in row c, symmetric about the diagonal.
   */
  function Gyrator(c: int): (w: Writes)
    requires c >= 2
    ensures Symmetric(w)
    ensures w.Keys == {(0, c), (1, c), (c, 0), (c, 1)}
    ensures w[(0, c)] == 1.0 && w[(0, c)] + w[(1, c)] == 0.0
  {
    map[(0, c) := 1.0, (1, c) := -1.0, (c, 0) := 1.0, (c, 1) := -1.0]
  }

  /** Entry (i, j) of a write pattern over a zero matrix. */
  function WEntry(w: Writes, i: int, j: int): real
  {
    if (i, j) in w then w[(i, j)] else 0.0
  }

  /** Row i of the pattern times the port voltages v. */
  function RowDot(w: Writes, i: int, v: seq<real>): real
  {
    if v == [] then 0.0 else RowDot(w, i, v[..|v| - 1]) + WEntry(w, i, |v| - 1) * v[|v| - 1]
  }

  /**
   * What a device's stamp says it draws from the node at port i, the current
   * entering the device there, at port voltages v: row i of
   * its jac times v, minus its bequiv at i (the system solved is jac * v == bequiv).
   */
  function Residual(w: Writes, b: map<int, real>, i: int, v: seq<real>): real
  {
    RowDot(w, i, v) - (if i in b then b[i] else 0.0)
  }

  lemma ResidualUnfold2(w: Writes, b: map<int, real>, i: int, v: seq<real>)
    requires |v| == 2
    ensures Residual(w, b, i, v) == WEntry(w, i, 0) * v[0] + WEntry(w, i, 1) * v[1] - (if i in b then b[i] else 0.0)
  {
    var u := v[..1];
    assert u[..0] == [] && u[0] == v[0];
    assert RowDot(w, i, u) == RowDot(w, i, []) + WEntry(w, i, 0) * v[0];
    assert RowDot(w, i, v) == RowDot(w, i, u) + WEntry(w, i, 1) * v[1];
  }

  lemma ResidualUnfold3(w: Writes, b: map<int, real>, i: int, v: seq<real>)
    requires |v| == 3
    ensures Residual(w, b, i, v) == WEntry(w, i, 0) * v[0] + WEntry(w, i, 1) * v[1] + WEntry(w, i, 2) * v[2]
                                    - (if i in b then b[i] else 0.0)
  {
    var u := v[..2];
    ResidualUnfold2(w, b, i, u);
    assert RowDot(w, i, v) == RowDot(w, i, u) + WEntry(w, i, 2) * v[2];
  }

  lemma ResidualUnfold5(w: Writes, b: map<int, real>, i: int, v: seq<real>)
    requires |v| == 5
    ensures Residual(w, b, i, v) == WEntry(w, i, 0) * v[0] + WEntry(w, i, 1) * v[1] + WEntry(w, i, 2) * v[2]
                                    + WEntry(w, i, 3) * v[3] + WEntry(w, i, 4) * v[4]
                                    - (if i in b then b[i] else 0.0)
  {
    var u := v[..4];
    var t := u[..3];
    assert t == v[..3];
    ResidualUnfold3(w, b, i, t);
    assert RowDot(w, i, u) == RowDot(w, i, t) + WEntry(w, i, 3) * v[3];
    assert RowDot(w, i, v) == RowDot(w, i, u) + WEntry(w, i, 4) * v[4];
  }

  /**
   * A two-terminal stamp conserves charge: whatever it draws from the node at
   * port 0 it returns to the node at port 1, at any voltages.
   */
  lemma TwoTerminalConserves(g: real, x: real, v: seq<real>)
    requires |v| == 2
    ensures Residual(TwoTerminal(g), Opposed(x), 0, v) == g * (v[0] - v[1]) - x
    ensures Residual(TwoTerminal(g), Opposed(x), 0, v) + Residual(TwoTerminal(g), Opposed(x), 1, v) == 0.0
  {
    ResidualUnfold2(TwoTerminal(g), Opposed(x), 0, v);
    ResidualUnfold2(TwoTerminal(g), Opposed(x), 1, v);
  }

  // ---------------------------------------------------------------------------
  // Scope helpers: several readings against one reference port, node padding
  // ---------------------------------------------------------------------------

  /**
   * get_across(p, ref) for each port p in turn, stopping at the first that
   * raises; a scope appends nothing unless every reading succeeds.
   */
  function ReadAll(last: Option<seq<real>>, p2n: Option<map<int, int>>, ports: seq<int>, ref: int): (r: Result<seq<real>>)
    ensures r.Ok? <==> forall k | 0 <= k < |ports| :: GetAcross(last, map[], p2n, ports[k], Some(ref), None).Ok?
    ensures r.Ok? ==> |r.value| == |ports|
    ensures r.Ok? ==> forall k | 0 <= k < |ports| :: GetAcross(last, map[], p2n, ports[k], Some(ref), None) == Ok(r.value[k])
    ensures r.Err? ==> exists k | 0 <= k < |ports| ::
              && GetAcross(last, map[], p2n, ports[k], Some(ref), None) == Err(r.error)
              && forall j | 0 <= j < k :: GetAcross(last, map[], p2n, ports[j], Some(ref), None).Ok?
  {
    if ports == [] then Ok([])
    else
      var a := GetAcross(last, map[], p2n, ports[0], Some(ref), None);
      if a.Err? then Err(a.error)
      else
        var rest := ReadAll(last, p2n, ports[1..], ref);
        if rest.Err? then
          var k :| 0 <= k < |ports[1..]| && GetAcross(last, map[], p2n, ports[1..][k], Some(ref), None) == Err(rest.error)
                   && forall j | 0 <= j < k :: GetAcross(last, map[], p2n, ports[1..][j], Some(ref), None).Ok?;
          assert forall j | 1 <= j < k + 1 :: ports[j] == ports[1..][j - 1];
          assert GetAcross(last, map[], p2n, ports[k + 1], Some(ref), None) == Err(rest.error);
          Err(rest.error)
        else
          assert forall k | 1 <= k < |ports| :: ports[k] == ports[1..][k - 1];
          Ok([a.value] + rest.value)
  }

  /** A Python list of node labels that a caller owns and a block's get_engine extends in place. */
  class PyList {
    var items: seq<NodeKey>

    constructor (items: seq<NodeKey>)
      ensures this.items == items
    {
      this.items := items;
    }

    /** `nodes += [0] * k`. */
    method ExtendGround(k: nat)
      modifies this
      ensures items == old(items) + seq(k, _ => IntKey(0))
    {
      items := items + seq(k, _ => IntKey(0));
    }
  }

  /**
   * The node list a get_engine leaves: a list whose length lies in [lo, n) is
   * padded with ground (0) up to length n; any other list is left as it is.
   */
  function Padded(xs: seq<NodeKey>, lo: nat, n: nat): (r: seq<NodeKey>)
    ensures lo <= |xs| < n ==> |r| == n
    ensures !(lo <= |xs| < n) ==> r == xs
    ensures |r| >= |xs| && r[..|xs|] == xs
    ensures forall i | |xs| <= i < |r| :: r[i] == IntKey(0)
  {
    if lo <= |xs| < n then xs + seq(n - |xs|, _ => IntKey(0)) else xs
  }

  // ---------------------------------------------------------------------------
  // Parameter overrides
  // ---------------------------------------------------------------------------

  /**
   * The attributes after `for key in params: if key in __dict__: __dict__[key]
   * = params[key]`: a key the object already has takes the parameter's value,
   * any other key is ignored.
   */
  function OverrideSpec(attrs: map<string, real>, params: map<string, real>): (r: map<string, real>)
    ensures r.Keys == attrs.Keys
    ensures forall key | key in attrs :: r[key] == if key in params then params[key] else attrs[key]
  {
    map key | key in attrs :: if key in params then params[key] else attrs[key]
  }

  /** The override loop itself, one parameter at a time in any order. */
  method Override(attrs: map<string, real>, params: map<string, real>) returns (r: map<string, real>)
    ensures r == OverrideSpec(attrs, params)
  {
    r := attrs;
    var todo := params.Keys;
    while todo != {}
      invariant todo <= params.Keys
      invariant r == map key | key in attrs :: if key in params && key !in todo then params[key] else attrs[key]
      decreases todo
    {
      var key :| key in todo;
      if key in r {
        r := r[key := params[key]];
      }
      todo := todo - {key};
    }
  }

  /**
   * Model parameters, then keyword parameters: the keywords win, the model
   * fills in what they leave, and keys the object lacks never appear.
   */
  lemma {:induction false} KeywordsWin(attrs: map<string, real>, model: map<string, real>, kw: map<string, real>)
    ensures OverrideSpec(OverrideSpec(attrs, model), kw).Keys == attrs.Keys
    ensures forall key | key in attrs && key in kw :: OverrideSpec(OverrideSpec(attrs, model), kw)[key] == kw[key]
    ensures forall key | key in attrs && key !in kw && key in model ::
              OverrideSpec(OverrideSpec(attrs, model), kw)[key] == model[key]
    ensures forall key | key in attrs && key !in kw && key !in model ::
              OverrideSpec(OverrideSpec(attrs, model), kw)[key] == attrs[key]
  {
    var m := OverrideSpec(attrs, model);
    assert m.Keys == attrs.Keys;
  }

  // ---------------------------------------------------------------------------
  // Lookup table
  // ---------------------------------------------------------------------------

  /**
   * The first index at or after `i` whose knot is not below `x`, or the last
   * index: where the table's cursor loop stops.
   */
  function Scan(xp: seq<real>, x: real, i: nat): (j: nat)
    requires i < |xp|
    ensures i <= j < |xp|
    ensures j == |xp| - 1 || x <= xp[j]
    ensures forall k | i <= k < j :: x > xp[k]
    decreases |xp| - i
  {
    if x > xp[i] && i < |xp| - 1 then Scan(xp, x, i + 1) else i
  }

  /** Linear interpolation on one bracket; equal knots divide by zero. */
  function Lerp(x0: real, y0: real, x1: real, y1: real, x: real): (r: Result<real>)
    ensures r.Ok? <==> x1 != x0
    ensures r.Ok? && x == x0 ==> r.value == y0
    ensures r.Ok? && x == x1 ==> r.value == y1
  {
    if x1 == x0 then Err(ZeroDivisionError) else Ok(y0 + (y1 - y0) * (x - x0) / (x1 - x0))
  }

  ghost predicate TableShape(xp: seq<real>, yp: seq<real>, cursor: nat)
  {
    |xp| == |yp| && (if |xp| == 0 then cursor == 0 else cursor < |xp|)
  }

  predicate StrictlyIncreasing(xp: seq<real>)
  {
    forall i, j | 0 <= i < j < |xp| :: xp[i] < xp[j]
  }

  /**
   * One _interp_ call from cursor `cursor`: its result and the new cursor. An
   * empty table raises IndexError; inputs at or beyond either end clamp to the
   * end value and keep the cursor; interior inputs scan forward from the cursor
   * and interpolate on the bracket that ends where the scan stopped.
   */
  function InterpAt(xp: seq<real>, yp: seq<real>, cursor: nat, x: real): (r: (Result<real>, nat))
    requires TableShape(xp, yp, cursor)
    ensures TableShape(xp, yp, r.1)
    ensures cursor <= r.1
    ensures |xp| == 0 ==> r == (Err(IndexError), cursor)
    ensures |xp| > 0 && x <= xp[0] ==> r == (Ok(yp[0]), cursor)
    ensures |xp| > 0 && x > xp[0] && x >= xp[|xp| - 1] ==> r == (Ok(yp[|yp| - 1]), cursor)
    ensures r.0.Err? ==> |xp| == 0 || r.0.error == ZeroDivisionError
  {
    if |xp| == 0 then (Err(IndexError), cursor)
    else if x <= xp[0] then (Ok(yp[0]), cursor)
    else if x >= xp[|xp| - 1] then (Ok(yp[|yp| - 1]), cursor)
    else
      var i := Scan(xp, x, cursor);
      (Lerp(xp[i - 1], yp[i - 1], xp[i], yp[i], x), i)
  }

  /** Interpolation on a bracket stays between the bracket's two values. */
  lemma LerpBetween(x0: real, y0: real, x1: real, y1: real, x: real)
    requires x0 < x <= x1
    ensures Lerp(x0, y0, x1, y1, x).Ok?
    ensures var v := Lerp(x0, y0, x1, y1, x).value;
            (y0 <= v <= y1) || (y1 <= v <= y0)
  {
    var t := (x - x0) / (x1 - x0);
    FractionBetween(x - x0, x1 - x0);
    assert (y1 - y0) * (x - x0) / (x1 - x0) == (y1 - y0) * t;
    if y0 <= y1 {
      ScaleBetween(y1 - y0, t);
    } else {
      ScaleBetween(y0 - y1, t);
      assert (y1 - y0) * t == -((y0 - y1) * t);
    }
  }

  lemma FractionBetween(n: real, d: real)
    requires 0.0 < n <= d
    ensures 0.0 < n / d <= 1.0
  {
    var t := n / d;
    assert t * d == n;
  }

  lemma ScaleBetween(a: real, t: real)
    requires a >= 0.0 && 0.0 <= t <= 1.0
    ensures 0.0 <= a * t <= a
  {
    assert a * (1.0 - t) >= 0.0;
  }

  /**
   * On a strictly increasing table, an interior input with a cursor that is not
   * past it lands in its true bracket xp[i-1] < x <= xp[i], and the result lies
   * between that bracket's values.
   */
  lemma InterpBracket(xp: seq<real>, yp: seq<real>, cursor: nat, x: real)
    requires TableShape(xp, yp, cursor) && StrictlyIncreasing(xp)
    requires |xp| > 0 && xp[0] < x < xp[|xp| - 1]
    requires cursor == 0 || xp[cursor - 1] < x
    ensures var (r, i) := InterpAt(xp, yp, cursor, x);
            && 1 <= i < |xp| && xp[i - 1] < x <= xp[i]
            && r.Ok? && ((yp[i - 1] <= r.value <= yp[i]) || (yp[i] <= r.value <= yp[i - 1]))
  {
    var i := Scan(xp, x, cursor);
    if i == cursor {
      assert x <= xp[i];
    }
    assert 1 <= i;
    assert xp[i - 1] < x;
    assert x <= xp[i];
    LerpBetween(xp[i - 1], yp[i - 1], xp[i], yp[i], x);
  }

  /** At an interior knot, reached with a cursor not past it, the table returns the knot's value exactly. */
  lemma InterpAtKnot(xp: seq<real>, yp: seq<real>, cursor: nat, k: nat)
    requires TableShape(xp, yp, cursor) && StrictlyIncreasing(xp)
    requires 0 < k < |xp| - 1 && cursor <= k
    ensures InterpAt(xp, yp, cursor, xp[k]).0 == Ok(yp[k])
  {
    var x := xp[k];
    InterpBracket(xp, yp, cursor, x);
    var i := InterpAt(xp, yp, cursor, x).1;
    assert i == k;
  }

  /**
   * The cursor never moves back: after the input 1.5 leaves it on the bracket
   * [1, 2], the smaller input 0.5 is extrapolated on that bracket (1.5) rather
   * than interpolated on [0, 1] (0.5).
   */
  lemma InterpStaleBracket()
    ensures var xp := [0.0, 1.0, 2.0];
            var yp := [0.0, 1.0, 0.0];
            var first := InterpAt(xp, yp, 0, 1.5);
            && first == (Ok(0.5), 2)
            && InterpAt(xp, yp, first.1, 0.5) == (Ok(1.5), 2)
  {
    var xp := [0.0, 1.0, 2.0];
    assert Scan(xp, 1.5, 1) == 2;
    assert Scan(xp, 1.5, 0) == 2;
    assert Scan(xp, 0.5, 2) == 2;
  }

  /** A lookup table of (input, output) pairs with a forward-only interpolation cursor. */
  class Table {
    var xp: seq<real>
    var yp: seq<real>
    var cursor: nat

    ghost predicate Valid()
      reads this
    {
      TableShape(xp, yp, cursor)
    }

    /** Table(*pairs): the inputs and outputs in pair order, cursor 0. */
    constructor (pairs: seq<(real, real)>)
      ensures Valid() && cursor == 0 && |xp| == |pairs|
      ensures forall k | 0 <= k < |pairs| :: xp[k] == pairs[k].0 && yp[k] == pairs[k].1
    {
      xp := [];
      yp := [];
      cursor := 0;
      new;
      for k := 0 to |pairs|
        invariant |xp| == |yp| == k && cursor == 0
        invariant forall m | 0 <= m < k :: xp[m] == pairs[m].0 && yp[m] == pairs[m].1
      {
        xp := xp + [pairs[k].0];
        yp := yp + [pairs[k].1];
      }
    }

    /** _interp_ (which output() calls): the cursor loop, then interpolation on the bracket it found. */
    method Interp(x: real) returns (r: Result<real>)
      requires Valid()
      modifies this`cursor
      ensures Valid() && (r, cursor) == InterpAt(xp, yp, old(cursor), x)
    {
      if |xp| == 0 {
        return Err(IndexError);
      }
      if x <= xp[0] {
        return Ok(yp[0]);
      }
      if x >= xp[|xp| - 1] {
        return Ok(yp[|yp| - 1]);
      }
      var i := cursor;
      while x > xp[i] && i < |xp| - 1
        invariant cursor <= i < |xp|
        invariant Scan(xp, x, i) == Scan(xp, x, cursor)
        decreases |xp| - i
      {
        i := i + 1;
      }
      cursor := i;
      r := Lerp(xp[i - 1], yp[i - 1], xp[i], yp[i], x);
    }
  }
}
