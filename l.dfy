// The inductor engine of the subcircuit package: a branch-current port tied to
// the terminals by the gyrator pattern, with the backward-Euler branch equation.
module L {
  import opened Wrappers
  import opened Netlist
  import opened Interfaces

  /** The jac start writes: the gyrator on port 2 and -(res + L/dt) on its diagonal. */
  function InductorJac(value: real, res: real, dt: real): (w: Writes)
    requires dt != 0.0
    ensures Symmetric(w)
    ensures forall i, j | 0 <= i < 2 && 0 <= j < 2 :: (i, j) !in w
    ensures w.Keys == Gyrator(2).Keys + {(2, 2)} && w[(2, 2)] == -(res + value / dt)
  {
    Gyrator(2)[(2, 2) := -(res + value / dt)]
  }

  class L {
    const nodes: seq<NodeKey>
    /** A third user node carries the branch current instead of an internal node. */
    const linkable: bool
    /** MNADevice.__init__ ran: only two- and three-node inductors get a stamp. */
    const stamped: bool
    var value: real
    var res: real
    var port2node: Option<map<int, int>>
    const jac: array2<real>
    const bequiv: array<real>

    ghost predicate Valid()
    {
      && (linkable <==> |nodes| == 3)
      && (stamped <==> |nodes| == 2 || |nodes| == 3)
      && (stamped ==> jac.Length0 == 3 && jac.Length1 == 3 && bequiv.Length == 3)
    }

    /** Two nodes get one internal node; three nodes none; any other count no stamp at all. */
    constructor (nodes: seq<NodeKey>, value: real, res: real)
      ensures Valid() && this.nodes == nodes && this.value == value && this.res == res && port2node.None?
      ensures fresh(jac) && fresh(bequiv)
      ensures stamped ==> forall i, j | 0 <= i < 3 && 0 <= j < 3 :: jac[i, j] == 0.0
      ensures stamped ==> forall i | 0 <= i < 3 :: bequiv[i] == 0.0
    {
      this.nodes := nodes;
      linkable := |nodes| == 3;
      stamped := |nodes| == 2 || |nodes| == 3;
      this.value := value;
      this.res := res;
      port2node := None;
      var n := if |nodes| == 2 || |nodes| == 3 then 3 else 0;
      var j, b := NewStamp(n);
      jac := j;
      bequiv := b;
    }

    /**
     * connect: a linkable inductor registers its three labels as ports 0..2; the
     * two-node form registers its two labels and then creates an internal node
     * as port 2. Any other node count never ran MNADevice.__init__, so reading
     * self.nodes is an AttributeError.
     */
    method Connect(net: Netlist) returns (out: Outcome)
      requires Valid()
      modifies this`port2node, net`nodes, net`nodenum, net`internalnum
      ensures linkable ==> out == Done && net.Reg() == LookupAll(old(net.Reg()), nodes).0
                           && port2node == Some(PortMap(LookupAll(old(net.Reg()), nodes).1))
      ensures !linkable && |nodes| == 2 ==>
                out == Done && net.Reg() == Internal(LookupAll(old(net.Reg()), nodes).0).0
      ensures !linkable && |nodes| == 2 ==>
                port2node == Some(PortMap(LookupAll(old(net.Reg()), nodes).1 + [Internal(LookupAll(old(net.Reg()), nodes).0).1]))
      ensures !stamped ==> out == Raised(AttributeError) && port2node == old(port2node) && net.Reg() == old(net.Reg())
    {
      if linkable {
        var m := ConnectNodes(net, nodes);
        port2node := Some(m);
        return Done;
      }
      if !stamped {
        return Raised(AttributeError);
      }
      ghost var r0 := net.Reg();
      var m := ConnectNodes(net, nodes);
      var internal := net.CreateInternal();
      assert PortMap(LookupAll(r0, nodes).1 + [internal]) == m[2 := internal];
      port2node := Some(m[2 := internal]);
      out := Done;
    }

    /**
     * start writes the gyrator entries, then -(res + L/dt) on the branch
     * diagonal; a zero dt raises after the four gyrator entries are written.
     */
    method Start(dt: real) returns (out: Outcome)
      requires Valid()
      modifies jac
      ensures !stamped ==> out == Raised(AttributeError) && unchanged(jac)
      ensures stamped && dt == 0.0 ==> out == Raised(ZeroDivisionError) && Wrote(jac, Gyrator(2))
      ensures stamped && dt != 0.0 ==> out == Done && Wrote(jac, InductorJac(value, res, dt))
    {
      if !stamped {
        return Raised(AttributeError);
      }
      jac[0, 2] := 1.0;
      jac[1, 2] := -1.0;
      jac[2, 0] := 1.0;
      jac[2, 1] := -1.0;
      if dt == 0.0 {
        return Raised(ZeroDivisionError);
      }
      jac[2, 2] := -(res + value / dt);
      out := Done;
    }

    /**
     * step writes only bequiv[2] = -(L/dt) times the previous branch current;
     * an inductor that never ran MNADevice.__init__ has no port2node, so
     * get_across_history raises AttributeError first.
     */
    method Step(dt: real, t: real, hist: seq<real>) returns (out: Outcome)
      requires Valid()
      modifies bequiv
      ensures !stamped ==> out == Raised(AttributeError) && unchanged(bequiv)
      ensures stamped && Across(hist, port2node, 2, None).Err? ==> out == Raised(Across(hist, port2node, 2, None).error) && unchanged(bequiv)
      ensures stamped && Across(hist, port2node, 2, None).Ok? && dt == 0.0 ==> out == Raised(ZeroDivisionError) && unchanged(bequiv)
      ensures stamped && Across(hist, port2node, 2, None).Ok? && dt != 0.0 ==>
                out == Done && WroteVec(bequiv, map[2 := -value / dt * Across(hist, port2node, 2, None).value])
    {
      if !stamped {
        return Raised(AttributeError);
      }
      var current := Across(hist, port2node, 2, None);
      if current.Err? {
        return Raised(current.error);
      }
      if dt == 0.0 {
        return Raised(ZeroDivisionError);
      }
      bequiv[2] := -value / dt * current.value;
      out := Done;
    }

    /** get_current_node: the branch-current node, with sign +1. */
    function GetCurrentNode(): (r: Result<(int, real)>)
      reads this
      ensures port2node.Some? && 2 in port2node.value <==> r.Ok?
      ensures r.Ok? ==> r.value == (port2node.value[2], 1.0)
    {
      match port2node
      case None => Err(TypeError)
      case Some(m) => if 2 in m then Ok((m[2], 1.0)) else Err(KeyError)
    }
  }

  /**
   * The stamp solves the inductor's backward-Euler branch equation: the branch
   * current i (port 2) enters the inductor at port 0 and leaves it at port 1,
   * and the voltage across the terminals is res * i plus L times the change of
   * i over dt.
   */
  lemma InductorBranchEquation(value: real, res: real, dt: real, ih: real, v: seq<real>)
    requires dt != 0.0 && |v| == 3
    ensures Residual(InductorJac(value, res, dt), map[2 := -value / dt * ih], 0, v) == v[2]
    ensures Residual(InductorJac(value, res, dt), map[2 := -value / dt * ih], 1, v) == -v[2]
    ensures Residual(InductorJac(value, res, dt), map[2 := -value / dt * ih], 2, v)
            == (v[0] - v[1]) - res * v[2] - value * (v[2] - ih) / dt
  {
    var w := InductorJac(value, res, dt);
    var b := map[2 := -value / dt * ih];
    ResidualUnfold3(w, b, 0, v);
    ResidualUnfold3(w, b, 1, v);
    ResidualUnfold3(w, b, 2, v);
    assert value / dt * (v[2] - ih) * dt == value * (v[2] - ih);
  }

  /** The linkable form uses the third user node as the branch node and creates nothing. */
  lemma LinkableCreatesNothing(r: Registry, nodes: seq<NodeKey>)
    requires Bounded(r) && |nodes| == 3
    ensures LookupAll(r, nodes).0.internalnum == r.internalnum
    ensures PortMap(LookupAll(r, nodes).1)[2] == LookupAll(r, nodes).0.nodes[nodes[2]]
  {
    LookupAllSpec(r, nodes);
  }
}
