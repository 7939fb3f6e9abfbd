// The voltage-controlled switch engine: terminals on ports 2 and 3, control
// ports 0 and 1 (or a named voltage source), and a branch current on an
// internal node as port 4 whose diagonal is -ron when ON and -roff when OFF.
module S {
  import opened Wrappers
  import opened Netlist
  import opened Interfaces

  /** The class constants RON and ROFF. */
  const Ron: real := 0.000001
  const Roff: real := 1000000.0

  /** The numeric model attributes the constructor creates, with their defaults. */
  function Defaults(): (a: map<string, real>)
    ensures a.Keys == {"vt", "it", "vh", "ih", "ron", "roff"}
    ensures a["vt"] == 0.0 && a["ron"] == Ron && a["roff"] == Roff
  {
    map["vt" := 0.0, "it" := 0.0, "vh" := 0.0, "ih" := 0.0, "ron" := Ron, "roff" := Roff]
  }

  /**
   * The entries start writes: the gyrator between the terminals and port 4,
   * and the diagonal d of the branch.
   */
  function SwitchStamp(d: real): (w: Writes)
    ensures w.Keys == {(2, 4), (3, 4), (4, 2), (4, 3), (4, 4)}
    ensures Symmetric(w) && w[(2, 4)] == 1.0 && w[(3, 4)] == -1.0 && w[(4, 4)] == d
  {
    map[(2, 4) := 1.0, (3, 4) := -1.0, (4, 2) := 1.0, (4, 3) := -1.0, (4, 4) := d]
  }

  /** The branch drop ron*v that bequiv[4] negates while the switch is ON. */
  function Drop(ron: real, v: real): real
  {
    ron * v
  }

  /**
   * The state after a minor step: a control at or above the threshold turns
   * the switch ON, one below turns it OFF, whatever the state was.
   */
  function NextState(state: bool, control: real, vt: real): (on: bool)
    ensures on <==> control >= vt
    ensures on == state <==> (state <==> control >= vt)
  {
    if control >= vt then true
    else if control < vt then false
    else state
  }

  class S {
    const nodes: seq<NodeKey>
    const model: Option<Model>
    /** The name of a controlling voltage source, if any. */
    const vsource: Option<string>
    const on: bool
    const parameters: map<string, real>
    var state: bool
    /** vt, it, vh, ih, ron and roff. */
    var attrs: map<string, real>
    var port2node: Option<map<int, int>>
    const jac: array2<real>
    const bequiv: array<real>

    ghost predicate Valid()
      reads this
    {
      && jac.Length0 == |nodes| + 1 && jac.Length1 == |nodes| + 1 && bequiv.Length == |nodes| + 1
      && attrs.Keys == Defaults().Keys
    }

    /** The branch diagonal agrees with the state. */
    ghost predicate StampMatchesState()
      reads this, jac
      requires Valid()
    {
      |nodes| >= 4 ==> jac[4, 4] == if state then -attrs["ron"] else -attrs["roff"]
    }

    constructor (nodes: seq<NodeKey>, model: Option<Model>, vsource: Option<string>, on: bool, parameters: map<string, real>)
      ensures Valid() && this.nodes == nodes && this.model == model && this.vsource == vsource
      ensures this.on == on && state == on && this.parameters == parameters
      ensures attrs == Defaults() && port2node.None?
      ensures fresh(jac) && fresh(bequiv)
      ensures forall i, j | 0 <= i < |nodes| + 1 && 0 <= j < |nodes| + 1 :: jac[i, j] == 0.0
      ensures forall i | 0 <= i < |nodes| + 1 :: bequiv[i] == 0.0
    {
      this.nodes := nodes;
      this.model := model;
      this.vsource := vsource;
      this.on := on;
      this.parameters := parameters;
      state := on;
      attrs := Defaults();
      port2node := None;
      var j, b := NewStamp(|nodes| + 1);
      jac := j;
      bequiv := b;
    }

    /** connect unpacks exactly four labels as ports 0 to 3 and creates an internal node as port 4. */
    method Connect(net: Netlist) returns (out: Outcome)
      modifies this`port2node, net`nodes, net`nodenum, net`internalnum
      ensures |nodes| != 4 ==> out == Raised(ValueError) && port2node == old(port2node) && net.Reg() == old(net.Reg())
      ensures |nodes| == 4 ==>
                out == Done && net.Reg() == Internal(LookupAll(old(net.Reg()), nodes).0).0
      ensures |nodes| == 4 ==>
                port2node == Some(PortMap(LookupAll(old(net.Reg()), nodes).1 + [Internal(LookupAll(old(net.Reg()), nodes).0).1]))
    {
      if |nodes| != 4 {
        return Raised(ValueError);
      }
      ghost var r0 := net.Reg();
      var m := ConnectNodes(net, nodes);
      var internal := net.CreateInternal();
      assert PortMap(LookupAll(r0, nodes).1 + [internal]) == m[4 := internal];
      port2node := Some(m[4 := internal]);
      out := Done;
    }

    /** The attributes start arrives at: the model's parameters, then the keyword ones, on existing keys only. */
    function MergedAttrs(): (a: map<string, real>)
      reads this
      ensures a.Keys == attrs.Keys
      ensures forall key | key in attrs && key in parameters :: a[key] == parameters[key]
      ensures forall key | key in attrs && key !in parameters && model.Some? && key in model.value.params ::
                a[key] == model.value.params[key]
    {
      var m := if model.Some? then OverrideSpec(attrs, model.value.params) else attrs;
      if |parameters| > 0 then OverrideSpec(m, parameters) else m
    }

    /**
     * start merges the parameters, resets the state to `on`, writes the gyrator
     * entries and the diagonal for that state, and zeroes bequiv[4].
     */
    method Start(dt: real) returns (out: Outcome)
      requires Valid()
      modifies this`attrs, this`state, jac, bequiv
      ensures Valid() && attrs == old(MergedAttrs()) && state == on
      ensures |nodes| < 4 ==> out == Raised(IndexError) && unchanged(jac) && unchanged(bequiv)
      ensures |nodes| >= 4 ==>
                out == Done && Wrote(jac, SwitchStamp(if on then -attrs["ron"] else -attrs["roff"]))
                && WroteVec(bequiv, map[4 := 0.0])
      ensures StampMatchesState()
    {
      MergeAttrs();
      state := on;
      if |nodes| < 4 {
        return Raised(IndexError);
      }
      var d := if state then -attrs["ron"] else -attrs["roff"];
      WriteStamp(d);
      bequiv[4] := 0.0;
      out := Done;
    }

    /** The model's parameters, then the instance's, override the defaults. */
    method MergeAttrs()
      requires Valid()
      modifies this`attrs
      ensures Valid() && attrs == old(MergedAttrs())
    {
      if model.Some? {
        attrs := Override(attrs, model.value.params);
      }
      if |parameters| > 0 {
        attrs := Override(attrs, parameters);
      }
    }

    /** The five jac writes of start, in the source's order. */
    method WriteStamp(d: real)
      requires Valid() && |nodes| >= 4
      modifies jac
      ensures Wrote(jac, SwitchStamp(d))
    {
      jac[2, 4] := 1.0;
      jac[3, 4] := -1.0;
      jac[4, 2] := 1.0;
      jac[4, 3] := -1.0;
      jac[4, 4] := d;
    }

    /** The control signal: the named source's voltage, else the voltage across ports 0 and 1. */
    function Control(last: Option<seq<real>>, devNodes: map<string, NodesArg>): (r: Result<real>)
      reads this
      ensures vsource.Some? && vsource.value != "" ==> r == GetAcross(last, devNodes, port2node, 0, None, vsource)
      ensures vsource.None? || vsource.value == "" ==> r == GetAcross(last, devNodes, port2node, 0, Some(1), None)
    {
      if vsource.Some? && vsource.value != "" then GetAcross(last, devNodes, port2node, 0, None, vsource)
      else GetAcross(last, devNodes, port2node, 0, Some(1), None)
    }

    /** bequiv[4] for a state: -(ron * v(port 2)) when ON, the voltage across ports 0 and 1 when OFF. */
    function Beq(isOn: bool, last: Option<seq<real>>): (r: Result<real>)
      reads this
      requires Valid()
      ensures isOn && GetAcross(last, map[], port2node, 2, None, None).Ok? ==>
                r == Ok(-Drop(attrs["ron"], GetAcross(last, map[], port2node, 2, None, None).value))
      ensures !isOn ==> r == GetAcross(last, map[], port2node, 0, Some(1), None)
      ensures r.Err? ==> (if isOn then GetAcross(last, map[], port2node, 2, None, None) else r).Err?
    {
      if isOn then
        var a := GetAcross(last, map[], port2node, 2, None, None);
        if a.Err? then a else Ok(-Drop(attrs["ron"], a.value))
      else GetAcross(last, map[], port2node, 0, Some(1), None)
    }

    /**
     * minor_step reads the control, switches state against the threshold
     * (rewriting the diagonal only on a transition), then rewrites bequiv[4].
     * The diagonal keeps agreeing with the state.
     */
    method MinorStep(dt: real, t: real, k: int, last: Option<seq<real>>, devNodes: map<string, NodesArg>) returns (out: Outcome)
      requires Valid() && StampMatchesState()
      modifies this`state, jac, bequiv
      ensures Valid() && StampMatchesState()
      ensures Control(last, devNodes).Err? ==>
                out == Raised(Control(last, devNodes).error) && state == old(state) && unchanged(jac) && unchanged(bequiv)
      ensures Control(last, devNodes).Ok? ==> state == NextState(old(state), Control(last, devNodes).value, attrs["vt"])
      ensures Control(last, devNodes).Ok? && |nodes| < 4 ==> out.Raised? && unchanged(jac) && unchanged(bequiv)
      ensures Control(last, devNodes).Ok? && |nodes| < 4 && state != old(state) ==> out == Raised(IndexError)
      ensures Control(last, devNodes).Ok? && |nodes| < 4 && state == old(state) ==>
                out == Raised(if Beq(state, last).Err? then Beq(state, last).error else IndexError)
      ensures Control(last, devNodes).Ok? && |nodes| >= 4 && Beq(state, last).Err? ==>
                out == Raised(Beq(state, last).error) && unchanged(bequiv)
      ensures Control(last, devNodes).Ok? && |nodes| >= 4 && Beq(state, last).Ok? ==>
                out == Done && WroteVec(bequiv, map[4 := Beq(state, last).value])
      ensures Control(last, devNodes).Ok? && |nodes| >= 4 ==>
                Wrote(jac, if state == old(state) then map[] else map[(4, 4) := if state then -attrs["ron"] else -attrs["roff"]])
    {
      var control := Control(last, devNodes);
      if control.Err? {
        return Raised(control.error);
      }
      var vt := attrs["vt"];
      if control.value >= vt {
        if !state {
          state := true;
          if |nodes| < 4 {
            return Raised(IndexError);
          }
          jac[4, 4] := -attrs["ron"];
        }
      } else if control.value < vt {
        if state {
          state := false;
          if |nodes| < 4 {
            return Raised(IndexError);
          }
          jac[4, 4] := -attrs["roff"];
        }
      }
      var b := Beq(state, last);
      if b.Err? {
        return Raised(b.error);
      }
      if |nodes| < 4 {
        return Raised(IndexError);
      }
      bequiv[4] := b.value;
      out := Done;
    }

    /**
     * get_current_node returns the fifth raw node label, which connect's
     * four-way unpacking never allows to exist: on a connected device it raises.
     */
    function GetCurrentNode(): (r: Result<(NodeKey, real)>)
      reads this
      ensures r.Ok? <==> |nodes| > 4
      ensures r.Ok? ==> r.value == (nodes[4], 1.0)
    {
      if |nodes| > 4 then Ok((nodes[4], 1.0)) else Err(IndexError)
    }
  }

  /** The states after each minor step of a sweep of control values. */
  function Sweep(state: bool, controls: seq<real>, vt: real): (states: seq<bool>)
    decreases |controls|
    ensures |states| == |controls|
    ensures forall i | 0 <= i < |controls| :: states[i] <==> controls[i] >= vt
  {
    if controls == [] then []
    else
      var s := NextState(state, controls[0], vt);
      [s] + Sweep(s, controls[1..], vt)
  }

  /** The number of OFF-to-ON transitions along a sweep. */
  function TurnOns(state: bool, controls: seq<real>, vt: real): nat
    decreases |controls|
  {
    if controls == [] then 0
    else
      var s := NextState(state, controls[0], vt);
      (if s && !state then 1 else 0) + TurnOns(s, controls[1..], vt)
  }

  predicate NonDecreasing(xs: seq<real>)
  {
    forall i, j | 0 <= i <= j < |xs| :: xs[i] <= xs[j]
  }

  /**
   * Under a non-decreasing control the switch turns ON at most once, and
   * never once it is already ON; once ON it stays ON.
   */
  lemma {:induction false} MonotoneSweepTurnsOnOnce(state: bool, controls: seq<real>, vt: real)
    requires NonDecreasing(controls)
    decreases |controls|
    ensures TurnOns(state, controls, vt) <= 1
    ensures state && (controls == [] || controls[0] >= vt) ==> TurnOns(state, controls, vt) == 0
    ensures forall i, j | 0 <= i <= j < |controls| :: Sweep(state, controls, vt)[i] ==> Sweep(state, controls, vt)[j]
  {
    if controls != [] {
      var s := NextState(state, controls[0], vt);
      var rest := controls[1..];
      assert NonDecreasing(rest) by {
        forall i, j | 0 <= i <= j < |rest|
          ensures rest[i] <= rest[j]
        {
          assert rest[i] == controls[i + 1] && rest[j] == controls[j + 1];
        }
      }
      MonotoneSweepTurnsOnOnce(s, rest, vt);
      if s && rest != [] {
        assert controls[0] <= controls[1];
      }
    }
  }

  /** A sweep that starts OFF below the threshold and ends at or above it turns ON exactly once. */
  lemma {:induction false} CrossingTurnsOnExactlyOnce(controls: seq<real>, vt: real)
    requires NonDecreasing(controls) && |controls| > 0 && controls[|controls| - 1] >= vt
    decreases |controls|
    ensures TurnOns(false, controls, vt) == 1
  {
    var s := NextState(false, controls[0], vt);
    var rest := controls[1..];
    assert NonDecreasing(rest) by {
      forall i, j | 0 <= i <= j < |rest|
        ensures rest[i] <= rest[j]
      {
        assert rest[i] == controls[i + 1] && rest[j] == controls[j + 1];
      }
    }
    if s {
      MonotoneSweepTurnsOnOnce(s, rest, vt);
      if rest != [] {
        assert controls[0] <= controls[1];
      }
    } else {
      assert rest != [];
      CrossingTurnsOnExactlyOnce(rest, vt);
    }
  }
}
