// The signal source engine: a signal device that drives its one port with a
// stimulus's output or a fixed value. The value of an attached stimulus at
// each call is an argument.
module Source {
  import opened Wrappers
  import opened Netlist
  import opened Interfaces

  /** The constructor's `value` argument, by the type checks it goes through. */
  datatype SignalArg = StimulusArg | NumberArg(x: real) | OtherArg

  class SignalSource {
    const nodes: seq<NodeKey>
    /** Whether the constructor set the `stimulus` attribute at all. */
    const hasStimulusAttr: bool
    const stimulus: bool
    /** The raw argument when it is a number. */
    const value: Option<real>
    var port2node: Option<map<int, int>>
    /** Signal values by port, as a port-value store would hold them. */
    var portValues: map<int, real>

    constructor (nodes: seq<NodeKey>, arg: SignalArg)
      ensures this.nodes == nodes && port2node.None? && portValues == map[]
      ensures hasStimulusAttr == !arg.OtherArg? && stimulus == arg.StimulusArg?
      ensures value == if arg.NumberArg? then Some(arg.x) else None
    {
      this.nodes := nodes;
      hasStimulusAttr := !arg.OtherArg?;
      stimulus := arg.StimulusArg?;
      value := if arg.NumberArg? then Some(arg.x) else None;
      port2node := None;
      portValues := map[];
    }

    /** connect registers only the first label, as port 0; extra labels are ignored. */
    method Connect(net: Netlist) returns (out: Outcome)
      modifies this`port2node, net`nodes, net`nodenum
      ensures |nodes| == 0 ==> out == Raised(IndexError) && port2node == old(port2node) && net.Reg() == old(net.Reg())
      ensures |nodes| > 0 ==> out == Done && net.Reg() == Lookup(old(net.Reg()), nodes[0]).0
      ensures |nodes| > 0 ==> port2node == Some(map[0 := Lookup(old(net.Reg()), nodes[0]).1])
    {
      if |nodes| == 0 {
        return Raised(IndexError);
      }
      var n := net.GetNodeIndex(nodes[0]);
      port2node := Some(map[0 := n]);
      out := Done;
    }

    /** The output start and step compute: the stimulus's output if there is one, else the value. */
    function Output(stimOut: real): (r: Result<real>)
      reads this
      ensures !hasStimulusAttr ==> r == Err(AttributeError)
      ensures hasStimulusAttr && stimulus ==> r == Ok(stimOut)
      ensures hasStimulusAttr && !stimulus ==> r == if value.Some? then Ok(value.value) else Err(TypeError)
    {
      if !hasStimulusAttr then Err(AttributeError)
      else if stimulus then Ok(stimOut)
      else if value.Some? then Ok(value.value)
      else Err(TypeError)
    }

    /**
     * start and step as written: once the output is computed they call
     * set_port_value, which no class in the modelled files defines, so they
     * always raise AttributeError and store nothing.
     */
    method Start(dt: real, stimOut: real) returns (out: Outcome)
      ensures out == Raised(AttributeError)
    {
      var output := Output(stimOut);
      out := Raised(AttributeError);
    }

    /** step as written: the same as start. */
    method Step(dt: real, t: real, stimOut: real) returns (out: Outcome)
      ensures out == Raised(AttributeError)
    {
      var output := Output(stimOut);
      out := Raised(AttributeError);
    }

    /** start and step as evidently intended: the output is stored as port 0's value. */
    method StepIntended(dt: real, t: real, stimOut: real) returns (out: Outcome)
      modifies this`portValues
      ensures Output(stimOut).Err? ==> out == Raised(Output(stimOut).error) && portValues == old(portValues)
      ensures Output(stimOut).Ok? ==> out == Done && portValues == old(portValues)[0 := Output(stimOut).value]
    {
      var output := Output(stimOut);
      if output.Err? {
        return Raised(output.error);
      }
      portValues := portValues[0 := output.value];
      out := Done;
    }
  }
}
