// Mutual inductance engines of the subcircuit package: K couples two named
// inductors through their branch-current nodes; Mut applies the same stamp to
// two user nodes with the mutual inductance given directly.
module K {
  import opened Wrappers
  import opened Netlist
  import opened Interfaces
  import L

  /** A square root on the non-negative reals, as math.sqrt is relied on. */
  ghost predicate IsSqrt(sqrt: real -> real)
  {
    forall x | x >= 0.0 :: sqrt(x) >= 0.0 && sqrt(x) * sqrt(x) == x
  }

  /** connect's mutual inductance from the coupling coefficient: k * sqrt(L1 * L2). */
  function Mutual(k: real, l1: real, l2: real, sqrt: real -> real): real
  {
    k * sqrt(l1 * l2)
  }

  /** The off-diagonal coupling start writes; the diagonal is left to the inductors. */
  function MutualJac(m: real, dt: real): (w: Writes)
    requires dt != 0.0
    ensures Symmetric(w)
    ensures w.Keys == {(0, 1), (1, 0)} && w[(0, 1)] == -m / dt
  {
    map[(0, 1) := -m / dt, (1, 0) := -m / dt]
  }

  /** The history term step writes for one side, from the OTHER side's previous current, as written. */
  function MutualHistory(m: real, dt: real, ih: real): real
    requires dt != 0.0
  {
    m / dt * ih
  }

  /** The history term as evidently intended, with the inductor engine's sign. */
  function MutualHistoryIntended(m: real, dt: real, ih: real): real
    requires dt != 0.0
  {
    -m / dt * ih
  }

  /** step's right-hand side: each port gets the other port's history term. */
  function CrossHistory(m: real, dt: real, c1: real, c2: real): (b: map<int, real>)
    requires dt != 0.0
    ensures b.Keys == {0, 1} && b[0] == MutualHistory(m, dt, c2) && b[1] == MutualHistory(m, dt, c1)
  {
    map[0 := MutualHistory(m, dt, c2), 1 := MutualHistory(m, dt, c1)]
  }

  /** The as-written right-hand side with the two currents swapped is the same pair swapped. */
  lemma CrossHistorySwaps(m: real, dt: real, c1: real, c2: real)
    requires dt != 0.0
    ensures CrossHistory(m, dt, c2, c1)[0] == CrossHistory(m, dt, c1, c2)[1]
    ensures CrossHistory(m, dt, c2, c1)[1] == CrossHistory(m, dt, c1, c2)[0]
  {
  }

  class K {
    var value: real
    const l1name: string
    const l2name: string
    var l1: Option<real>
    var l2: Option<real>
    var mutual: Option<real>
    var port2node: Option<map<int, int>>
    const jac: array2<real>
    const bequiv: array<real>

    /** Built on the placeholder nodes [0, 0]: a 2-by-2 stamp. */
    ghost predicate Valid()
    {
      jac.Length0 == 2 && jac.Length1 == 2 && bequiv.Length == 2
    }

    constructor (l1name: string, l2name: string, value: real)
      ensures Valid() && this.l1name == l1name && this.l2name == l2name && this.value == value
      ensures l1.None? && l2.None? && mutual.None? && port2node.None?
      ensures fresh(jac) && fresh(bequiv)
      ensures forall i, j | 0 <= i < 2 && 0 <= j < 2 :: jac[i, j] == 0.0
      ensures forall i | 0 <= i < 2 :: bequiv[i] == 0.0
    {
      this.value := value;
      this.l1name := l1name;
      this.l2name := l2name;
      l1 := None;
      l2 := None;
      mutual := None;
      port2node := None;
      var j, b := NewStamp(2);
      jac := j;
      bequiv := b;
    }

    /**
     * connect looks both inductors up by name, sets the mutual inductance
     * value * sqrt(L1 * L2), and maps ports 0 and 1 to the inductors' current
     * nodes. A missing name raises KeyError before anything changes.
     */
    method Connect(devices: map<string, L.L>, sqrt: real -> real) returns (out: Outcome)
      modifies this`l1, this`l2, this`mutual, this`port2node
      ensures l1name !in devices || l2name !in devices ==> out == Raised(KeyError) && unchanged(this)
      ensures l1name in devices && l2name in devices ==>
                l1 == Some(devices[l1name].value) && l2 == Some(devices[l2name].value)
      ensures l1name in devices && l2name in devices && l1.value * l2.value < 0.0 ==>
                out == Raised(ValueError) && mutual == old(mutual) && port2node == old(port2node)
      ensures l1name in devices && l2name in devices && l1.value * l2.value >= 0.0 ==>
                && mutual == Some(Mutual(value, l1.value, l2.value, sqrt))
                && (out == Done <==> devices[l1name].GetCurrentNode().Ok? && devices[l2name].GetCurrentNode().Ok?)
                && (out == Done ==> port2node == Some(map[0 := devices[l1name].GetCurrentNode().value.0,
                                                          1 := devices[l2name].GetCurrentNode().value.0]))
                && (out != Done ==> port2node == old(port2node))
    {
      if l1name !in devices || l2name !in devices {
        return Raised(KeyError);
      }
      var inductor1 := devices[l1name];
      var inductor2 := devices[l2name];
      l1 := Some(inductor1.value);
      l2 := Some(inductor2.value);
      var product := l1.value * l2.value;
      if product < 0.0 {
        return Raised(ValueError);
      }
      mutual := Some(Mutual(value, l1.value, l2.value, sqrt));
      var n1 := inductor1.GetCurrentNode();
      if n1.Err? {
        return Raised(n1.error);
      }
      var n2 := inductor2.GetCurrentNode();
      if n2.Err? {
        return Raised(n2.error);
      }
      port2node := Some(map[0 := n1.value.0, 1 := n2.value.0]);
      out := Done;
    }

    /** start writes only the two off-diagonal entries -M/dt. */
    method Start(dt: real) returns (out: Outcome)
      requires Valid()
      modifies jac
      ensures mutual.None? ==> out == Raised(TypeError) && unchanged(jac)
      ensures mutual.Some? && dt == 0.0 ==> out == Raised(ZeroDivisionError) && unchanged(jac)
      ensures mutual.Some? && dt != 0.0 ==> out == Done && Wrote(jac, MutualJac(mutual.value, dt))
    {
      if mutual.None? {
        return Raised(TypeError);
      }
      if dt == 0.0 {
        return Raised(ZeroDivisionError);
      }
      jac[0, 1] := -mutual.value / dt;
      jac[1, 0] := -mutual.value / dt;
      out := Done;
    }

    /** step writes the cross-coupled history terms. */
    method Step(dt: real, t: real, hist: seq<real>) returns (out: Outcome)
      requires Valid()
      modifies bequiv
      ensures out == Done <==> Across(hist, port2node, 0, None).Ok? && Across(hist, port2node, 1, None).Ok?
                               && mutual.Some? && dt != 0.0
      ensures out == Done ==> WroteVec(bequiv, CrossHistory(mutual.value, dt, Across(hist, port2node, 0, None).value,
                                                            Across(hist, port2node, 1, None).value))
      ensures out != Done ==> unchanged(bequiv)
    {
      var current1 := Across(hist, port2node, 0, None);
      if current1.Err? {
        return Raised(current1.error);
      }
      var current2 := Across(hist, port2node, 1, None);
      if current2.Err? {
        return Raised(current2.error);
      }
      if mutual.None? {
        return Raised(TypeError);
      }
      if dt == 0.0 {
        return Raised(ZeroDivisionError);
      }
      bequiv[0] := mutual.value / dt * current2.value;
      bequiv[1] := mutual.value / dt * current1.value;
      out := Done;
    }
  }

  /** With a true square root, the mutual inductance satisfies M^2 == k^2 * L1 * L2. */
  lemma MutualFromCoupling(k: real, l1: real, l2: real, sqrt: real -> real)
    requires IsSqrt(sqrt) && l1 * l2 >= 0.0
    ensures Mutual(k, l1, l2, sqrt) * Mutual(k, l1, l2, sqrt) == k * k * (l1 * l2)
    ensures k >= 0.0 ==> Mutual(k, l1, l2, sqrt) >= 0.0
  {
    assert sqrt(l1 * l2) * sqrt(l1 * l2) == l1 * l2;
  }

  class Mut {
    const nodes: seq<NodeKey>
    var mutual: real
    var port2node: Option<map<int, int>>
    const jac: array2<real>
    const bequiv: array<real>

    ghost predicate Valid()
    {
      jac.Length0 == |nodes| && jac.Length1 == |nodes| && bequiv.Length == |nodes|
    }

    /** The value is the mutual inductance itself. */
    constructor (nodes: seq<NodeKey>, value: real)
      ensures Valid() && this.nodes == nodes && mutual == value && port2node.None?
      ensures fresh(jac) && fresh(bequiv)
      ensures forall i, j | 0 <= i < |nodes| && 0 <= j < |nodes| :: jac[i, j] == 0.0
      ensures forall i | 0 <= i < |nodes| :: bequiv[i] == 0.0
    {
      this.nodes := nodes;
      mutual := value;
      port2node := None;
      var j, b := NewStamp(|nodes|);
      jac := j;
      bequiv := b;
    }

    method Connect(net: Netlist) returns (out: Outcome)
      modifies this`port2node, net`nodes, net`nodenum
      ensures |nodes| != 2 ==> out == Raised(ValueError) && port2node == old(port2node) && net.Reg() == old(net.Reg())
      ensures |nodes| == 2 ==> out == Done && net.Reg() == LookupAll(old(net.Reg()), nodes).0
      ensures |nodes| == 2 ==> port2node == Some(PortMap(LookupAll(old(net.Reg()), nodes).1))
    {
      if |nodes| != 2 {
        return Raised(ValueError);
      }
      var m := ConnectNodes(net, nodes);
      port2node := Some(m);
      out := Done;
    }

    method Start(dt: real) returns (out: Outcome)
      requires Valid()
      modifies jac
      ensures dt == 0.0 ==> out == Raised(ZeroDivisionError) && unchanged(jac)
      ensures dt != 0.0 && |nodes| < 2 ==> out == Raised(IndexError) && unchanged(jac)
      ensures dt != 0.0 && |nodes| >= 2 ==> out == Done && Wrote(jac, MutualJac(mutual, dt))
    {
      if dt == 0.0 {
        return Raised(ZeroDivisionError);
      }
      if |nodes| < 2 {
        return Raised(IndexError);
      }
      jac[0, 1] := -mutual / dt;
      jac[1, 0] := -mutual / dt;
      out := Done;
    }

    method Step(dt: real, t: real, hist: seq<real>) returns (out: Outcome)
      requires Valid()
      modifies bequiv
      ensures out == Done <==> Across(hist, port2node, 0, None).Ok? && Across(hist, port2node, 1, None).Ok?
                               && dt != 0.0 && |nodes| >= 2
      ensures out == Done ==> WroteVec(bequiv, CrossHistory(mutual, dt, Across(hist, port2node, 0, None).value,
                                                            Across(hist, port2node, 1, None).value))
      ensures Across(hist, port2node, 0, None).Ok? && Across(hist, port2node, 1, None).Ok? && dt != 0.0 && |nodes| == 1 ==>
                out == Raised(IndexError) && WroteVec(bequiv, map[0 := MutualHistory(mutual, dt, Across(hist, port2node, 1, None).value)])
      ensures !(Across(hist, port2node, 0, None).Ok? && Across(hist, port2node, 1, None).Ok? && dt != 0.0 && |nodes| >= 1) ==>
                unchanged(bequiv)
    {
      var current1 := Across(hist, port2node, 0, None);
      if current1.Err? {
        return Raised(current1.error);
      }
      var current2 := Across(hist, port2node, 1, None);
      if current2.Err? {
        return Raised(current2.error);
      }
      if dt == 0.0 {
        return Raised(ZeroDivisionError);
      }
      if |nodes| < 2 {
        if |nodes| == 1 {
          bequiv[0] := mutual / dt * current2.value;
        }
        return Raised(IndexError);
      }
      bequiv[0] := mutual / dt * current2.value;
      bequiv[1] := mutual / dt * current1.value;
      out := Done;
    }
  }

  /**
   * What the coupling adds to the first inductor's branch equation as written:
   * -(M/dt) times the SUM of the other inductor's new and previous currents.
   */
  lemma CouplingTerm(m: real, dt: real, c1: real, c2: real, v: seq<real>)
    requires dt != 0.0 && |v| == 2
    ensures Residual(MutualJac(m, dt), CrossHistory(m, dt, c1, c2), 0, v) == -m * (v[1] + c2) / dt
  {
    ResidualUnfold2(MutualJac(m, dt), CrossHistory(m, dt, c1, c2), 0, v);
    assert m / dt * (v[1] + c2) * dt == m * (v[1] + c2);
  }

  /**
   * With the intended sign the coupling is backward Euler, like the inductor's
   * own term: -(M/dt) times the CHANGE of the other inductor's current.
   */
  lemma CouplingTermIntended(m: real, dt: real, c1: real, c2: real, v: seq<real>)
    requires dt != 0.0 && |v| == 2
    ensures Residual(MutualJac(m, dt), map[0 := MutualHistoryIntended(m, dt, c2), 1 := MutualHistoryIntended(m, dt, c1)], 0, v)
            == -m * (v[1] - c2) / dt
  {
    ResidualUnfold2(MutualJac(m, dt), map[0 := MutualHistoryIntended(m, dt, c2), 1 := MutualHistoryIntended(m, dt, c1)], 0, v);
    assert m / dt * (v[1] - c2) * dt == m * (v[1] - c2);
  }

  /**
   * M = 1 H, dt = 1 s, the second inductor carrying a steady 1 A: as written the
   * coupling still induces 2 V in the first branch; as intended none.
   */
  lemma SteadyCurrentInducesVoltage()
    ensures Residual(MutualJac(1.0, 1.0), CrossHistory(1.0, 1.0, 0.0, 1.0), 0, [0.0, 1.0]) == -2.0
    ensures Residual(MutualJac(1.0, 1.0), map[0 := MutualHistoryIntended(1.0, 1.0, 1.0), 1 := MutualHistoryIntended(1.0, 1.0, 0.0)], 0, [0.0, 1.0]) == 0.0
  {
    CouplingTerm(1.0, 1.0, 0.0, 1.0, [0.0, 1.0]);
    CouplingTermIntended(1.0, 1.0, 0.0, 1.0, [0.0, 1.0]);
  }
}
