// The voltage-controlled voltage source engine: control ports 0 and 1, output
// ports 2 and 3, and the output branch current on an internal node as port 4.
// The gain is a fixed number or a lookup table, optionally limited.
module E {
  import opened Wrappers
  import opened Netlist
  import opened Interfaces

  /** The constructor's `value` argument, by the type checks it goes through. */
  datatype GainArg = NumberGain(x: real) | TableGain(t: Table) | OtherGain

  /** The six entries start writes for gain k. */
  function EStamp(k: real): (w: Writes)
    ensures w.Keys == {(2, 4), (3, 4), (4, 0), (4, 1), (4, 2), (4, 3)}
    ensures w[(2, 4)] == -1.0 && w[(3, 4)] == 1.0 && w[(4, 2)] == -1.0 && w[(4, 3)] == 1.0
    ensures w[(4, 0)] == k && w[(4, 1)] == -k
  {
    map[(2, 4) := -1.0, (3, 4) := 1.0, (4, 0) := k, (4, 2) := -1.0, (4, 3) := 1.0, (4, 1) := -k]
  }

  /** The two control entries step rewrites. */
  function GainEntries(k: real): (w: Writes)
    ensures w.Keys == {(4, 0), (4, 1)} && w[(4, 0)] == k && w[(4, 1)] == -k
  {
    map[(4, 0) := k, (4, 1) := -k]
  }

  /**
   * step's limiting: with a truthy limit and a non-zero control voltage, a
   * product vc*k above the limit is cut to the limit, then one below -limit
   * is raised to -limit; otherwise the gain is left alone.
   */
  function Limited(vc: real, k: real, limit: Option<real>): (r: real)
    ensures limit.None? || limit.value == 0.0 || vc == 0.0 ==> r == k
    ensures limit.Some? && limit.value > 0.0 && vc != 0.0 ==> -limit.value <= vc * r <= limit.value
    ensures limit.Some? && limit.value > 0.0 && -limit.value <= vc * k <= limit.value ==> r == k
    ensures limit.Some? && limit.value > 0.0 && vc != 0.0 && vc * k > limit.value ==> vc * r == limit.value
    ensures limit.Some? && limit.value > 0.0 && vc != 0.0 && vc * k < -limit.value ==> vc * r == -limit.value
  {
    if limit.Some? && limit.value != 0.0 && vc != 0.0 then
      var k1 := if vc * k > limit.value then limit.value / vc else k;
      assert vc * k > limit.value ==> vc * k1 == limit.value;
      var k2 := if vc * k1 < -limit.value then -limit.value / vc else k1;
      assert vc * k1 < -limit.value ==> vc * k2 == -limit.value;
      k2
    else k
  }

  class E {
    const nodes: seq<NodeKey>
    const gain: Option<real>
    const table: Table?
    const limit: Option<real>
    var port2node: Option<map<int, int>>
    const jac: array2<real>
    const bequiv: array<real>

    ghost predicate Valid()
    {
      jac.Length0 == |nodes| + 1 && jac.Length1 == |nodes| + 1 && bequiv.Length == |nodes| + 1
    }

    /** A number sets the gain, a table the table, anything else neither. */
    constructor (nodes: seq<NodeKey>, arg: GainArg, limit: Option<real>)
      ensures Valid() && this.nodes == nodes && this.limit == limit && port2node.None?
      ensures gain == if arg.NumberGain? then Some(arg.x) else None
      ensures table == if arg.TableGain? then arg.t else null
      ensures fresh(jac) && fresh(bequiv)
      ensures forall i, j | 0 <= i < |nodes| + 1 && 0 <= j < |nodes| + 1 :: jac[i, j] == 0.0
      ensures forall i | 0 <= i < |nodes| + 1 :: bequiv[i] == 0.0
    {
      this.nodes := nodes;
      gain := if arg.NumberGain? then Some(arg.x) else None;
      table := if arg.TableGain? then arg.t else null;
      this.limit := limit;
      port2node := None;
      var j, b := NewStamp(|nodes| + 1);
      jac := j;
      bequiv := b;
    }

    /** connect unpacks exactly four labels as ports 0 to 3 and creates an internal node as port 4. */
    method Connect(net: Netlist) returns (out: Outcome)
      modifies this`port2node, net`nodes, net`nodenum, net`internalnum
      ensures |nodes| != 4 ==> out == Raised(ValueError) && port2node == old(port2node) && net.Reg() == old(net.Reg())
      ensures |nodes| == 4 ==>
                out == Done && net.Reg() == Internal(LookupAll(old(net.Reg()), nodes).0).0
      ensures |nodes| == 4 ==>
                port2node == Some(PortMap(LookupAll(old(net.Reg()), nodes).1 + [Internal(LookupAll(old(net.Reg()), nodes).0).1]))
    {
      if |nodes| != 4 {
        return Raised(ValueError);
      }
      ghost var r0 := net.Reg();
      var m := ConnectNodes(net, nodes);
      var internal := net.CreateInternal();
      assert PortMap(LookupAll(r0, nodes).1 + [internal]) == m[4 := internal];
      port2node := Some(m[4 := internal]);
      out := Done;
    }

    /** start's gain: a truthy fixed gain, else 0. */
    function StartGain(): (k: real)
      reads this
      ensures gain.Some? && gain.value != 0.0 ==> k == gain.value
      ensures gain.None? || gain.value == 0.0 ==> k == 0.0
    {
      if gain.Some? && gain.value != 0.0 then gain.value else 0.0
    }

    /** start writes the six fixed entries of row and column 4. */
    method Start(dt: real) returns (out: Outcome)
      requires Valid()
      modifies jac
      ensures |nodes| < 4 ==> out == Raised(IndexError) && unchanged(jac)
      ensures |nodes| >= 4 ==> out == Done && Wrote(jac, EStamp(StartGain()))
    {
      if |nodes| < 4 {
        return Raised(IndexError);
      }
      var k := StartGain();
      jac[2, 4] := -1.0;
      jac[3, 4] := 1.0;
      jac[4, 0] := k;
      jac[4, 2] := -1.0;
      jac[4, 3] := 1.0;
      jac[4, 1] := -k;
      out := Done;
    }

    /**
     * step with a table: the control voltage is read across ports 2 and 3 of
     * the last iterate, the table gives the gain for it (advancing its
     * cursor), the gain is limited, and only jac[4,0] and jac[4,1] are
     * rewritten. Without a table nothing changes.
     */
    method Step(dt: real, t: real, last: Option<seq<real>>) returns (out: Outcome)
      requires Valid() && (table != null ==> table.Valid())
      modifies jac, table
      ensures table == null ==> out == Done && unchanged(jac)
      ensures table != null && GetAcross(last, map[], port2node, 2, Some(3), None).Err? ==>
                out == Raised(GetAcross(last, map[], port2node, 2, Some(3), None).error) && unchanged(jac) && unchanged(table)
      ensures table != null && GetAcross(last, map[], port2node, 2, Some(3), None).Ok? ==>
                table.Valid() && unchanged(table`xp, table`yp)
                && var vc := GetAcross(last, map[], port2node, 2, Some(3), None).value;
                   var (k, c) := InterpAt(old(table.xp), old(table.yp), old(table.cursor), vc);
                   table.cursor == c
                   && (k.Err? ==> out == Raised(k.error) && unchanged(jac))
                   && (k.Ok? && |nodes| < 4 ==> out == Raised(IndexError) && unchanged(jac))
                   && (k.Ok? && |nodes| >= 4 ==> out == Done && Wrote(jac, GainEntries(Limited(vc, k.value, limit))))
    {
      if table == null {
        return Done;
      }
      var vc := GetAcross(last, map[], port2node, 2, Some(3), None);
      if vc.Err? {
        return Raised(vc.error);
      }
      var k := table.Interp(vc.value);
      if k.Err? {
        return Raised(k.error);
      }
      var g := Limited(vc.value, k.value, limit);
      if |nodes| < 4 {
        return Raised(IndexError);
      }
      jac[4, 0] := g;
      jac[4, 1] := -g;
      out := Done;
    }

    /**
     * get_current_node returns the fifth raw node label, which connect's
     * four-way unpacking never allows to exist: on a connected device it raises.
     */
    function GetCurrentNode(): (r: Result<(NodeKey, real)>)
      reads this
      ensures r.Ok? <==> |nodes| > 4
      ensures r.Ok? ==> r.value == (nodes[4], 1.0)
    {
      if |nodes| > 4 then Ok((nodes[4], 1.0)) else Err(IndexError)
    }
  }

  /**
   * The stamp is an ideal voltage-controlled voltage source: the branch row
   * holds exactly when v2 - v3 == k*(v0 - v1), and the branch current v4
   * enters the source at port 3 and leaves it at port 2.
   */
  lemma ControlledVoltage(k: real, v: seq<real>)
    requires |v| == 5
    ensures Residual(EStamp(k), map[], 4, v) == k * (v[0] - v[1]) - (v[2] - v[3])
    ensures Residual(EStamp(k), map[], 2, v) == -v[4] && Residual(EStamp(k), map[], 3, v) == v[4]
    ensures Residual(EStamp(k), map[], 0, v) == 0.0 && Residual(EStamp(k), map[], 1, v) == 0.0
  {
    var w := EStamp(k);
    ResidualUnfold5(w, map[], 0, v);
    ResidualUnfold5(w, map[], 1, v);
    ResidualUnfold5(w, map[], 2, v);
    ResidualUnfold5(w, map[], 3, v);
    ResidualUnfold5(w, map[], 4, v);
  }
}
