// The voltage source engine (the pyspyce generation): a branch-current port on
// an internal node, an optional series resistance and inductance, and the
// source voltage on the branch row. The value of an attached stimulus at each
// call is an argument.
module V {
  import opened Wrappers
  import opened Netlist
  import opened Interfaces

  /** The constructor's `value` argument, by the type checks it goes through. */
  datatype SourceArg = StimulusArg | NumberArg(x: real) | OtherArg

  /** The jac start writes: the gyrator on port 2 and -(res + induct/dt) on its diagonal. */
  function SourceJac(res: real, induct: real, dt: real): (w: Writes)
    requires dt != 0.0
    ensures Symmetric(w)
    ensures forall i, j | 0 <= i < 2 && 0 <= j < 2 :: (i, j) !in w
    ensures w.Keys == Gyrator(2).Keys + {(2, 2)} && w[(2, 2)] == -(res + induct / dt)
  {
    Gyrator(2)[(2, 2) := -(res + induct / dt)]
  }

  class V {
    const nodes: seq<NodeKey>
    /** Whether the constructor set the `stimulus` attribute at all (None counts as set). */
    var hasStimulusAttr: bool
    var stimulus: bool
    var value: Option<real>
    var res: real
    var induct: real
    var port2node: Option<map<int, int>>
    const jac: array2<real>
    const bequiv: array<real>

    ghost predicate Valid()
    {
      jac.Length0 == |nodes| + 1 && jac.Length1 == |nodes| + 1 && bequiv.Length == |nodes| + 1
    }

    /**
     * A stimulus sets `stimulus`; an int or float sets `stimulus` to None and
     * stores the value; anything else sets neither.
     */
    constructor (nodes: seq<NodeKey>, arg: SourceArg, res: real, induct: real)
      ensures Valid() && this.nodes == nodes && this.res == res && this.induct == induct
      ensures hasStimulusAttr == !arg.OtherArg? && stimulus == arg.StimulusArg?
      ensures value == if arg.NumberArg? then Some(arg.x) else None
      ensures port2node.None? && fresh(jac) && fresh(bequiv)
      ensures forall i, j | 0 <= i < |nodes| + 1 && 0 <= j < |nodes| + 1 :: jac[i, j] == 0.0
      ensures forall i | 0 <= i < |nodes| + 1 :: bequiv[i] == 0.0
    {
      this.nodes := nodes;
      hasStimulusAttr := !arg.OtherArg?;
      stimulus := arg.StimulusArg?;
      value := if arg.NumberArg? then Some(arg.x) else None;
      this.res := res;
      this.induct := induct;
      port2node := None;
      var j, b := NewStamp(|nodes| + 1);
      jac := j;
      bequiv := b;
    }

    /** connect registers the two labels and creates an internal node as port 2. */
    method Connect(net: Netlist) returns (out: Outcome)
      modifies this`port2node, net`nodes, net`nodenum, net`internalnum
      ensures |nodes| != 2 ==> out == Raised(ValueError) && port2node == old(port2node) && net.Reg() == old(net.Reg())
      ensures |nodes| == 2 ==>
                out == Done && net.Reg() == Internal(LookupAll(old(net.Reg()), nodes).0).0
      ensures |nodes| == 2 ==>
                port2node == Some(PortMap(LookupAll(old(net.Reg()), nodes).1 + [Internal(LookupAll(old(net.Reg()), nodes).0).1]))
    {
      if |nodes| != 2 {
        return Raised(ValueError);
      }
      ghost var r0 := net.Reg();
      var m := ConnectNodes(net, nodes);
      var internal := net.CreateInternal();
      assert PortMap(LookupAll(r0, nodes).1 + [internal]) == m[2 := internal];
      port2node := Some(m[2 := internal]);
      out := Done;
    }

    /** start's source voltage: the stimulus's start value, else a truthy value, else 0.0. */
    function StartVolt(stimOut: real): (r: real)
      reads this
      ensures stimulus ==> r == stimOut
      ensures !stimulus ==> r == value.GetOr(0.0)
    {
      if stimulus then stimOut else if value.Some? && value.value != 0.0 then value.value else 0.0
    }

    /**
     * start writes the gyrator entries, then the branch diagonal (raising on a
     * zero dt, even with no inductance), then the source voltage into bequiv[2];
     * an argument of the wrong type fails there on the missing attribute.
     */
    method Start(dt: real, stimOut: real) returns (out: Outcome)
      requires Valid()
      modifies jac, bequiv
      ensures |nodes| < 2 ==> out == Raised(IndexError) && unchanged(jac) && unchanged(bequiv)
      ensures |nodes| >= 2 && dt == 0.0 ==> out == Raised(ZeroDivisionError) && Wrote(jac, Gyrator(2)) && unchanged(bequiv)
      ensures |nodes| >= 2 && dt != 0.0 ==> Wrote(jac, SourceJac(res, induct, dt))
      ensures |nodes| >= 2 && dt != 0.0 && !hasStimulusAttr ==> out == Raised(AttributeError) && unchanged(bequiv)
      ensures |nodes| >= 2 && dt != 0.0 && hasStimulusAttr ==> out == Done && WroteVec(bequiv, map[2 := StartVolt(stimOut)])
    {
      if |nodes| < 2 {
        return Raised(IndexError);
      }
      jac[0, 2] := 1.0;
      jac[1, 2] := -1.0;
      jac[2, 0] := 1.0;
      jac[2, 1] := -1.0;
      if dt == 0.0 {
        return Raised(ZeroDivisionError);
      }
      jac[2, 2] := -(res + induct / dt);
      if !hasStimulusAttr {
        return Raised(AttributeError);
      }
      bequiv[2] := StartVolt(stimOut);
      out := Done;
    }

    /**
     * step's source voltage, plus (induct/dt) times the previous branch current
     * when there is an inductance.
     */
    function StepVolt(dt: real, stimOut: real, hist: seq<real>): (r: Result<real>)
      reads this
      ensures !hasStimulusAttr ==> r == Err(AttributeError)
      ensures hasStimulusAttr && !stimulus && value.None? ==> r.Err?
      ensures hasStimulusAttr && induct == 0.0 ==> r == if stimulus then Ok(stimOut) else if value.Some? then Ok(value.value) else Err(TypeError)
      ensures r.Ok? && induct != 0.0 ==>
                && dt != 0.0 && Across(hist, port2node, 2, None).Ok?
                && r.value == HistoryVolt(if stimulus then stimOut else value.value, induct, dt, Across(hist, port2node, 2, None).value)
    {
      if !hasStimulusAttr then Err(AttributeError)
      else
        var volt: Option<real> := if stimulus then Some(stimOut) else value;
        if induct == 0.0 then
          if volt.None? then Err(TypeError) else Ok(volt.value)
        else
          var il := Across(hist, port2node, 2, None);
          if il.Err? then Err(il.error)
          else if dt == 0.0 then Err(ZeroDivisionError)
          else if volt.None? then Err(TypeError)
          else Ok(HistoryVolt(volt.value, induct, dt, il.value))
    }

    /** step rewrites only bequiv[2]. */
    method Step(dt: real, t: real, stimOut: real, hist: seq<real>) returns (out: Outcome)
      requires Valid()
      modifies bequiv
      ensures StepVolt(dt, stimOut, hist).Err? ==> out == Raised(StepVolt(dt, stimOut, hist).error) && unchanged(bequiv)
      ensures StepVolt(dt, stimOut, hist).Ok? && |nodes| < 2 ==> out == Raised(IndexError) && unchanged(bequiv)
      ensures StepVolt(dt, stimOut, hist).Ok? && |nodes| >= 2 ==> out == Done && WroteVec(bequiv, map[2 := StepVolt(dt, stimOut, hist).value])
    {
      var volt := StepVolt(dt, stimOut, hist);
      if volt.Err? {
        return Raised(volt.error);
      }
      if |nodes| < 2 {
        return Raised(IndexError);
      }
      bequiv[2] := volt.value;
      out := Done;
    }

    /** get_current_node: the branch-current node, with sign -1. */
    function GetCurrentNode(): (r: Result<(int, real)>)
      reads this
      ensures port2node.Some? && 2 in port2node.value <==> r.Ok?
      ensures r.Ok? ==> r.value == (port2node.value[2], -1.0)
    {
      match port2node
      case None => Err(TypeError)
      case Some(m) => if 2 in m then Ok((m[2], -1.0)) else Err(KeyError)
    }
  }

  /** step's branch voltage with inductance as written: the history term is added. */
  function HistoryVolt(src: real, induct: real, dt: real, il: real): real
    requires dt != 0.0
  {
    src + induct / dt * il
  }

  /** The branch voltage as evidently intended, with the inductor's sign: the history term is subtracted. */
  function HistoryVoltIntended(src: real, induct: real, dt: real, il: real): real
    requires dt != 0.0
  {
    src - induct / dt * il
  }

  /**
   * As written, the stamp solves v0 - v1 = src + res*i + induct*(i + ih)/dt: the
   * series inductance sees the sum of the new and old branch currents.
   */
  lemma SourceBranchEquation(res: real, induct: real, dt: real, src: real, ih: real, v: seq<real>)
    requires dt != 0.0 && |v| == 3
    ensures Residual(SourceJac(res, induct, dt), map[2 := HistoryVolt(src, induct, dt, ih)], 2, v)
            == (v[0] - v[1]) - src - res * v[2] - induct * (v[2] + ih) / dt
    ensures Residual(SourceJac(res, induct, dt), map[2 := HistoryVolt(src, induct, dt, ih)], 0, v) == v[2]
  {
    var w := SourceJac(res, induct, dt);
    var b := map[2 := HistoryVolt(src, induct, dt, ih)];
    ResidualUnfold3(w, b, 0, v);
    ResidualUnfold3(w, b, 2, v);
    assert induct / dt * (v[2] + ih) * dt == induct * (v[2] + ih);
  }

  /**
   * With the intended sign the stamp is backward Euler for the series
   * inductance, as in the inductor engine: v0 - v1 = src + res*i + induct*(i - ih)/dt.
   */
  lemma SourceBranchEquationIntended(res: real, induct: real, dt: real, src: real, ih: real, v: seq<real>)
    requires dt != 0.0 && |v| == 3
    ensures Residual(SourceJac(res, induct, dt), map[2 := HistoryVoltIntended(src, induct, dt, ih)], 2, v)
            == (v[0] - v[1]) - src - res * v[2] - induct * (v[2] - ih) / dt
  {
    var w := SourceJac(res, induct, dt);
    var b := map[2 := HistoryVoltIntended(src, induct, dt, ih)];
    ResidualUnfold3(w, b, 2, v);
    assert induct / dt * (v[2] - ih) * dt == induct * (v[2] - ih);
  }

  /**
   * A 1 H source of 0 V carrying a steady 1 A (dt = 1): as written the branch
   * row is satisfied only with 2 V across the terminals; as intended with 0 V.
   */
  lemma SteadyCurrentNeedsVoltage()
    ensures Residual(SourceJac(0.0, 1.0, 1.0), map[2 := HistoryVolt(0.0, 1.0, 1.0, 1.0)], 2, [2.0, 0.0, 1.0]) == 0.0
    ensures Residual(SourceJac(0.0, 1.0, 1.0), map[2 := HistoryVolt(0.0, 1.0, 1.0, 1.0)], 2, [0.0, 0.0, 1.0]) != 0.0
    ensures Residual(SourceJac(0.0, 1.0, 1.0), map[2 := HistoryVoltIntended(0.0, 1.0, 1.0, 1.0)], 2, [0.0, 0.0, 1.0]) == 0.0
  {
    SourceBranchEquation(0.0, 1.0, 1.0, 0.0, 1.0, [2.0, 0.0, 1.0]);
    SourceBranchEquation(0.0, 1.0, 1.0, 0.0, 1.0, [0.0, 0.0, 1.0]);
    SourceBranchEquationIntended(0.0, 1.0, 1.0, 0.0, 1.0, [0.0, 0.0, 1.0]);
  }
}
