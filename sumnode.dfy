// The summing junction: a signal device whose output port 0 carries a signed
// sum of its three input ports, and its block's sign labels.
module SumNode {
  import opened Wrappers
  import opened Netlist
  import opened Interfaces
  import opened PyOps

  /** The signs used when none (or an empty list) is given: in1 + in2 - in3. */
  const DefaultSigns: seq<real> := [1.0, 1.0, -1.0]

  /** Python's `not signs`: no list, or an empty one. */
  function SignsOrDefault(signs: Option<seq<real>>): (r: seq<real>)
    ensures signs.None? || signs.value == [] ==> r == DefaultSigns
    ensures signs.Some? && signs.value != [] ==> r == signs.value
  {
    if signs.None? || signs.value == [] then DefaultSigns else signs.value
  }

  /** in1*s1 + in2*s2 + in3*s3. */
  function WeightedSum(signs: seq<real>, ins: seq<real>): real
    requires |signs| == 3 && |ins| == 3
  {
    ins[0] * signs[0] + ins[1] * signs[1] + ins[2] * signs[2]
  }

  /** With the default signs the output is in1 + in2 - in3. */
  lemma DefaultSignsSubtractThird(in1: real, in2: real, in3: real)
    ensures WeightedSum(SignsOrDefault(None), [in1, in2, in3]) == in1 + in2 - in3
    ensures WeightedSum(SignsOrDefault(Some([])), [in1, in2, in3]) == in1 + in2 - in3
  {
  }

  class Sum {
    const nodes: seq<NodeKey>
    const signs: seq<real>
    var port2node: Option<map<int, int>>
    /** Signal values by port, as a port-value store would hold them. */
    var portValues: map<int, real>

    constructor (nodes: seq<NodeKey>, signs: Option<seq<real>>)
      ensures this.nodes == nodes && this.signs == SignsOrDefault(signs)
      ensures port2node.None? && portValues == map[]
    {
      this.nodes := nodes;
      this.signs := SignsOrDefault(signs);
      port2node := None;
      portValues := map[];
    }

    /** connect maps the four labels (output, then three inputs) only when there are exactly four. */
    method Connect(net: Netlist)
      modifies this`port2node, net`nodes, net`nodenum
      ensures |nodes| != 4 ==> port2node == old(port2node) && net.Reg() == old(net.Reg())
      ensures |nodes| == 4 ==> net.Reg() == LookupAll(old(net.Reg()), nodes).0
      ensures |nodes| == 4 ==> port2node == Some(PortMap(LookupAll(old(net.Reg()), nodes).1))
    {
      if |nodes| == 4 {
        var m := ConnectNodes(net, nodes);
        port2node := Some(m);
      }
    }

    /**
     * step as written: after unpacking the three signs it calls
     * get_port_value, which no class in the modelled files defines.
     */
    method Step(dt: real, t: real) returns (out: Outcome)
      ensures |signs| != 3 ==> out == Raised(ValueError)
      ensures |signs| == 3 ==> out == Raised(AttributeError)
    {
      if |signs| != 3 {
        return Raised(ValueError);
      }
      out := Raised(AttributeError);
    }

    /** step as evidently intended: port 0 gets the signed sum of ports 1 to 3. */
    method StepIntended(dt: real, t: real) returns (out: Outcome)
      modifies this`portValues
      ensures |signs| != 3 ==> out == Raised(ValueError) && portValues == old(portValues)
      ensures |signs| == 3 && !(1 in old(portValues) && 2 in old(portValues) && 3 in old(portValues)) ==>
                out == Raised(KeyError) && portValues == old(portValues)
      ensures |signs| == 3 && 1 in old(portValues) && 2 in old(portValues) && 3 in old(portValues) ==>
                && out == Done
                && portValues == old(portValues)[0 := WeightedSum(signs, [old(portValues)[1], old(portValues)[2], old(portValues)[3]])]
    {
      if |signs| != 3 {
        return Raised(ValueError);
      }
      if !(1 in portValues && 2 in portValues && 3 in portValues) {
        return Raised(KeyError);
      }
      var output := WeightedSum(signs, [portValues[1], portValues[2], portValues[3]]);
      portValues := portValues[0 := output];
      out := Done;
    }
  }

  /** A text field of the block's symbol. */
  datatype Field = Field(text: string, visible: bool)

  /** The label of an input's sign: "+" for 1, "_" for -1, "?" otherwise. */
  function SignLabel(sign: real): (s: string)
    ensures sign == 1.0 <==> s == "+"
    ensures sign == -1.0 <==> s == "_"
    ensures sign != 1.0 && sign != -1.0 <==> s == "?"
  {
    if sign == 1.0 then "+" else if sign == -1.0 then "_" else "?"
  }

  /** The field of input i after design_update: labelled and shown when connected, else only hidden. */
  function InputField(f: Field, connected: bool, sign: real): (r: Field)
    ensures connected ==> r == Field(SignLabel(sign), true)
    ensures !connected ==> r.text == f.text && !r.visible
  {
    if connected then Field(SignLabel(sign), true) else f.(visible := false)
  }

  /** The float() parse of each space-separated piece, or None if one fails. */
  function ParseAll(parts: seq<string>, parse: string -> Option<real>): (r: Option<seq<real>>)
    ensures r.Some? <==> forall i | 0 <= i < |parts| :: parse(parts[i]).Some?
    ensures r.Some? ==> |r.value| == |parts| && forall i | 0 <= i < |parts| :: r.value[i] == parse(parts[i]).value
  {
    if parts == [] then Some([])
    else
      var rest := ParseAll(parts[1..], parse);
      if parse(parts[0]).None? then None
      else if rest.None? then
        assert exists i | 0 <= i < |parts[1..]| :: parse(parts[1..][i]).None?;
        None
      else Some([parse(parts[0]).value] + rest.value)
  }

  /** The block's sign labels: the Signs property, which input ports are connected, and the symbol fields. */
  class SumNodeBlock {
    var signsText: string
    var signs: seq<real>
    /** Whether input1, input2 and input3 are connected. */
    var connected: seq<bool>
    /** Field 0 is the sigma; fields 1 to 3 label the inputs. */
    var fields: seq<Field>

    ghost predicate Valid()
      reads this
    {
      |connected| == 3 && |fields| == 4
    }

    /** The block starts with the Signs property "1 1 -1", the default signs and hidden "+" labels. */
    constructor ()
      ensures Valid() && signsText == "1 1 -1" && signs == DefaultSigns
      ensures connected == [false, false, false]
      ensures fields == [Field("Σ", true), Field("+", false), Field("+", false), Field("+", false)]
    {
      signsText := "1 1 -1";
      signs := DefaultSigns;
      connected := [false, false, false];
      fields := [Field("Σ", true), Field("+", false), Field("+", false), Field("+", false)];
    }

    /**
     * design_update: the Signs property is split on spaces and parsed (the
     * parser is an argument); then it must hold exactly three signs, and each
     * input's field is labelled by its sign when connected and hidden when not.
     */
    method DesignUpdate(parse: string -> Option<real>) returns (out: Outcome)
      requires Valid()
      modifies this`signs, this`fields
      ensures Valid()
      ensures ParseAll(Split(signsText, ' '), parse).None? ==>
                out == Raised(ValueError) && signs == old(signs) && fields == old(fields)
      ensures ParseAll(Split(signsText, ' '), parse).Some? ==> signs == ParseAll(Split(signsText, ' '), parse).value
      ensures ParseAll(Split(signsText, ' '), parse).Some? && |signs| != 3 ==> out == Raised(ValueError) && fields == old(fields)
      ensures ParseAll(Split(signsText, ' '), parse).Some? && |signs| == 3 ==>
                && out == Done && fields[0] == old(fields[0])
                && forall i | 1 <= i < 4 :: fields[i] == InputField(old(fields[i]), connected[i - 1], signs[i - 1])
    {
      var parsed := ParseAll(Split(signsText, ' '), parse);
      if parsed.None? {
        return Raised(ValueError);
      }
      signs := parsed.value;
      if |signs| != 3 {
        return Raised(ValueError);
      }
      for i := 1 to 4
        invariant signs == parsed.value && |signs| == 3
        invariant |fields| == 4 && fields[0] == old(fields[0])
        invariant forall j | 1 <= j < i :: fields[j] == InputField(old(fields[j]), connected[j - 1], signs[j - 1])
        invariant forall j | i <= j < 4 :: fields[j] == old(fields[j])
      {
        fields := fields[i := InputField(fields[i], connected[i - 1], signs[i - 1])];
      }
      out := Done;
    }
  }

  /** The block's default Signs text splits into the three pieces "1", "1" and "-1". */
  lemma DefaultSignsText()
    ensures Split("1 1 -1", ' ') == ["1", "1", "-1"]
  {
    var e: string := [];
    assert Split(e, ' ') == [e];
    assert Split("1", ' ') == ["1"] by {
      assert "1"[1..] == e;
      assert ['1'] + e == "1";
      assert [e][1..] == [];
    }
    assert Split("-1", ' ') == ["-1"] by {
      assert "-1"[1..] == "1";
      assert ['-'] + "1" == "-1";
      assert ["1"][1..] == [];
    }
    assert Split(" -1", ' ') == ["", "-1"] by {
      assert " -1"[1..] == "-1";
    }
    assert Split("1 -1", ' ') == ["1", "-1"] by {
      assert "1 -1"[1..] == " -1";
    }
    assert Split(" 1 -1", ' ') == ["", "1", "-1"] by {
      assert " 1 -1"[1..] == "1 -1";
    }
  }

  /** With a parser that reads "1" as 1 and "-1" as -1, the default text gives the default signs. */
  lemma DefaultTextGivesDefaultSigns(parse: string -> Option<real>)
    requires parse("1") == Some(1.0) && parse("-1") == Some(-1.0)
    ensures ParseAll(Split("1 1 -1", ' '), parse) == Some(DefaultSigns)
  {
    DefaultSignsText();
    var parts: seq<string> := ["1", "1", "-1"];
    assert parts[0] == "1" && parts[1] == "1" && parts[2] == "-1";
    var r := ParseAll(parts, parse);
    assert r.Some?;
    assert r.value[0] == 1.0 && r.value[1] == 1.0 && r.value[2] == -1.0;
    assert r.value == DefaultSigns;
  }
}
