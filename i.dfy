// The current source engine of the subcircuit package: an optional parallel
// conductance and a source current pushed from port 0 to port 1. The value of
// an attached stimulus at each call is an argument (its waveforms are in the
// Stimuli module).
module I {
  import opened Wrappers
  import opened Netlist
  import opened Interfaces

  /** start's parallel conductance: 1/resistance for a positive resistance, else none. */
  function SourceConductance(resistance: real): (g: real)
    ensures resistance > 0.0 ==> g > 0.0 && g * resistance == 1.0
    ensures resistance <= 0.0 ==> g == 0.0
  {
    if resistance > 0.0 then 1.0 / resistance else 0.0
  }

  /**
   * start's current: the stimulus's start value, else a truthy value, else 0.0.
   * A stimulus whose start returns None (the `Pwl` and `Sffm` stubs) gives no
   * current that `-current` accepts.
   */
  function StartCurrent(stimulus: bool, stimOut: Option<real>, value: Option<real>): (c: Result<real>)
    ensures stimulus ==> (c.Ok? <==> stimOut.Some?) && (c.Ok? ==> c.value == stimOut.value)
    ensures c.Err? ==> c.error == TypeError
    ensures !stimulus ==> c == Ok(value.GetOr(0.0))
  {
    if stimulus then (if stimOut.Some? then Ok(stimOut.value) else Err(TypeError))
    else if value.Some? && value.value != 0.0 then Ok(value.value)
    else Ok(0.0)
  }

  /** step's current: the stimulus's step value, else the value; None cannot be negated. */
  function StepCurrent(stimulus: bool, stimOut: Option<real>, value: Option<real>): (c: Result<real>)
    ensures stimulus ==> (c.Ok? <==> stimOut.Some?) && (c.Ok? ==> c.value == stimOut.value)
    ensures !stimulus ==> (c.Ok? <==> value.Some?) && (c.Ok? ==> c.value == value.value)
    ensures c.Err? ==> c.error == TypeError
  {
    if stimulus then (if stimOut.Some? then Ok(stimOut.value) else Err(TypeError))
    else if value.Some? then Ok(value.value)
    else Err(TypeError)
  }

  class I {
    const nodes: seq<NodeKey>
    var stimulus: bool
    var value: Option<real>
    var resistance: real
    var port2node: Option<map<int, int>>
    const jac: array2<real>
    const bequiv: array<real>

    ghost predicate Valid()
    {
      jac.Length0 == |nodes| && jac.Length1 == |nodes| && bequiv.Length == |nodes|
    }

    /** A stimulus argument leaves `value` at the base class's None. */
    constructor (nodes: seq<NodeKey>, stimulus: bool, value: Option<real>, resistance: real)
      ensures Valid() && this.nodes == nodes && this.stimulus == stimulus && this.resistance == resistance
      ensures this.value == if stimulus then None else value
      ensures port2node.None? && fresh(jac) && fresh(bequiv)
      ensures forall i, j | 0 <= i < |nodes| && 0 <= j < |nodes| :: jac[i, j] == 0.0
      ensures forall i | 0 <= i < |nodes| :: bequiv[i] == 0.0
    {
      this.nodes := nodes;
      this.stimulus := stimulus;
      this.value := if stimulus then None else value;
      this.resistance := resistance;
      port2node := None;
      var j, b := NewStamp(|nodes|);
      jac := j;
      bequiv := b;
    }

    /** connect unpacks exactly two labels; no internal node. */
    method Connect(net: Netlist) returns (out: Outcome)
      modifies this`port2node, net`nodes, net`nodenum
      ensures |nodes| != 2 ==> out == Raised(ValueError) && port2node == old(port2node) && net.Reg() == old(net.Reg())
      ensures |nodes| == 2 ==> out == Done && net.Reg() == LookupAll(old(net.Reg()), nodes).0
      ensures |nodes| == 2 ==> port2node == Some(PortMap(LookupAll(old(net.Reg()), nodes).1))
    {
      if |nodes| != 2 {
        return Raised(ValueError);
      }
      var m := ConnectNodes(net, nodes);
      port2node := Some(m);
      out := Done;
    }

    /**
     * start writes the conductance pattern and the opposed pair (current, -current).
     * A stamp smaller than 2-by-2 raises IndexError in the conductance pattern,
     * after the entries inside it are written, and bequiv is not reached. A None
     * stimulus output is stored into bequiv[0] by NumPy as NaN, which no real
     * holds, before `-current` raises TypeError: that entry is left unspecified.
     */
    method Start(dt: real, stimOut: Option<real>) returns (out: Outcome)
      requires Valid()
      modifies jac, bequiv
      ensures Wrote(jac, TwoTerminal(SourceConductance(resistance)))
      ensures |nodes| < 2 ==> out == Raised(IndexError) && unchanged(bequiv)
      ensures |nodes| >= 2 && StartCurrent(stimulus, stimOut, value).Err? ==>
                out == Raised(TypeError) && forall k | 1 <= k < bequiv.Length :: bequiv[k] == old(bequiv[k])
      ensures |nodes| >= 2 && StartCurrent(stimulus, stimOut, value).Ok? ==>
                out == Done && WroteVec(bequiv, Opposed(StartCurrent(stimulus, stimOut, value).value))
    {
      var g := SourceConductance(resistance);
      if |nodes| < 2 {
        if |nodes| == 1 {
          jac[0, 0] := g;
        }
        return Raised(IndexError);
      }
      jac[0, 0] := g;
      jac[0, 1] := -g;
      jac[1, 0] := -g;
      jac[1, 1] := g;
      var current := StartCurrent(stimulus, stimOut, value);
      if current.Err? {
        bequiv[0] := *;
        return Raised(TypeError);
      }
      bequiv[0] := current.value;
      bequiv[1] := -current.value;
      out := Done;
    }

    /**
     * step rewrites only the opposed pair. A None value or stimulus output is stored into
     * bequiv[0] by NumPy as NaN, which no real holds, before `-current` raises
     * TypeError: that entry is left unspecified.
     */
    method Step(dt: real, t: real, stimOut: Option<real>) returns (out: Outcome)
      requires Valid()
      modifies bequiv
      ensures StepCurrent(stimulus, stimOut, value).Err? && |nodes| == 0 ==> out == Raised(IndexError) && unchanged(bequiv)
      ensures StepCurrent(stimulus, stimOut, value).Err? && |nodes| >= 1 ==>
                out == Raised(TypeError) && forall k | 1 <= k < bequiv.Length :: bequiv[k] == old(bequiv[k])
      ensures StepCurrent(stimulus, stimOut, value).Ok? && |nodes| < 2 ==> out == Raised(IndexError)
      ensures StepCurrent(stimulus, stimOut, value).Ok? && |nodes| >= 2 ==> out == Done
      ensures StepCurrent(stimulus, stimOut, value).Ok? ==>
                WroteVec(bequiv, Opposed(StepCurrent(stimulus, stimOut, value).value))
    {
      var current := StepCurrent(stimulus, stimOut, value);
      if current.Err? {
        if |nodes| == 0 {
          return Raised(IndexError);
        }
        bequiv[0] := *;
        return Raised(TypeError);
      }
      if |nodes| < 2 {
        if |nodes| == 1 {
          bequiv[0] := current.value;
        }
        return Raised(IndexError);
      }
      bequiv[0] := current.value;
      bequiv[1] := -current.value;
      out := Done;
    }
  }

  /**
   * The source pushes its current out of port 0 through the network and back
   * into port 1: with no resistance, the stamp draws exactly -current from port 0's node.
   */
  lemma IdealSourceCurrent(current: real, v: seq<real>)
    requires |v| == 2
    ensures Residual(TwoTerminal(SourceConductance(0.0)), Opposed(current), 0, v) == -current
    ensures Residual(TwoTerminal(SourceConductance(0.0)), Opposed(current), 1, v) == current
  {
    TwoTerminalConserves(SourceConductance(0.0), current, v);
  }
}
