// The transfer-function block's text handling: parameter substitution in
// order of decreasing name length, operator rewriting, the parameter dict
// get_engine builds, and the engine's defaults. Parsing the resulting
// expression into a transfer function is not part of this model.
module TF {
  import opened Wrappers
  import opened Netlist
  import opened Interfaces
  import opened PyOps

  /** The equation used when none (or an empty one) is given. */
  const DefaultEquation: string := "1 / (s + 1)"

  /** operator_subs: the caret, the multiplication sign and the middle dot, in that order. */
  const OperatorSubs: seq<(string, string)> := [("^", "**"), ("×", "*"), ("·", "*")]

  // ---------------------------------------------------------------------------
  // Ordered dictionaries of parameters
  // ---------------------------------------------------------------------------

  /** A dict in insertion order: distinct keys with their values. */
  predicate DistinctKeys(d: seq<(string, real)>)
  {
    forall i, j | 0 <= i < j < |d| :: d[i].0 != d[j].0
  }

  /** `d[key] = value`: an existing key keeps its place and takes the value; a new key goes last. */
  function DictSet(d: seq<(string, real)>, key: string, value: real): (r: seq<(string, real)>)
    requires DistinctKeys(d)
    ensures DistinctKeys(r)
    ensures (exists i | 0 <= i < |d| :: d[i].0 == key) ==> |r| == |d|
    ensures (forall i | 0 <= i < |d| :: d[i].0 != key) ==> r == d + [(key, value)]
    ensures forall i | 0 <= i < |r| :: r[i] == if i < |d| && d[i].0 != key then d[i] else (key, value)
  {
    if d == [] then [(key, value)]
    else if d[0].0 == key then [(key, value)] + d[1..]
    else [d[0]] + DictSet(d[1..], key, value)
  }

  /**
   * The parameters get_engine collects from the first n (name, text) pairs of
   * the zipped lists: a value that parses is stored under its name, one that
   * does not is skipped.
   */
  function Collect(keys: seq<string>, values: seq<string>, parse: string -> Option<real>, n: nat): (d: seq<(string, real)>)
    requires n <= |keys| && n <= |values|
    ensures DistinctKeys(d)
    ensures forall i | 0 <= i < |d| :: exists j | 0 <= j < n :: keys[j] == d[i].0 && parse(values[j]) == Some(d[i].1)
  {
    if n == 0 then []
    else
      var d := Collect(keys, values, parse, n - 1);
      var v := parse(values[n - 1]);
      if v.None? then d
      else
        var r := DictSet(d, keys[n - 1], v.value);
        forall i | 0 <= i < |r|
          ensures exists j | 0 <= j < n :: keys[j] == r[i].0 && parse(values[j]) == Some(r[i].1)
        {
          if i < |d| && d[i].0 != keys[n - 1] {
            assert r[i] == d[i];
          } else {
            assert r[i] == (keys[n - 1], v.value);
            assert keys[n - 1] == r[i].0 && parse(values[n - 1]) == Some(r[i].1);
          }
        }
        r
  }

  // ---------------------------------------------------------------------------
  // sub_params
  // ---------------------------------------------------------------------------

  predicate LengthsNonIncreasing(keys: seq<string>)
  {
    forall i, j | 0 <= i < j < |keys| :: |keys[i]| >= |keys[j]|
  }

  /** Place `key` after every element at least as long, before the first shorter one. */
  function InsertByLength(key: string, sorted: seq<string>): (r: seq<string>)
    requires LengthsNonIncreasing(sorted)
    ensures LengthsNonIncreasing(r) && multiset(r) == multiset(sorted) + multiset{key}
  {
    if sorted == [] then [key]
    else if |sorted[0]| < |key| then [key] + sorted
    else
      var rest := InsertByLength(key, sorted[1..]);
      assert sorted == [sorted[0]] + sorted[1..];
      forall j | 0 <= j < |rest|
        ensures |rest[j]| <= |sorted[0]|
      {
        assert rest[j] in multiset(rest);
        if rest[j] != key {
          assert rest[j] in multiset(sorted[1..]);
          var m :| 0 <= m < |sorted[1..]| && sorted[1..][m] == rest[j];
          assert sorted[m + 1] == rest[j];
        }
      }
      [sorted[0]] + rest
  }

  /**
   * sorted(keys, key=len, reverse=True): the keys longest first, keys of equal
   * length in their original order.
   */
  function ByLengthDescending(keys: seq<string>): (r: seq<string>)
    ensures LengthsNonIncreasing(r) && multiset(r) == multiset(keys)
  {
    if keys == [] then []
    else
      assert keys == keys[..|keys| - 1] + [keys[|keys| - 1]];
      InsertByLength(keys[|keys| - 1], ByLengthDescending(keys[..|keys| - 1]))
  }

  function Keys(d: seq<(string, real)>): (ks: seq<string>)
    ensures |ks| == |d| && forall i | 0 <= i < |d| :: ks[i] == d[i].0
  {
    seq(|d|, i requires 0 <= i < |d| => d[i].0)
  }

  /** The value stored under a key of the dict: the first entry with that key. */
  function Value(d: seq<(string, real)>, key: string): (v: real)
    requires key in Keys(d)
    ensures exists i | 0 <= i < |d| :: d[i] == (key, v)
  {
    if d[0].0 == key then d[0].1
    else
      assert Keys(d[1..]) == Keys(d)[1..];
      var v := Value(d[1..], key);
      var i :| 0 <= i < |d[1..]| && d[1..][i] == (key, v);
      assert d[i + 1] == (key, v);
      v
  }

  /** The expression after replacing each key of `order`, in turn, by the text of its value. */
  function ReplaceEach(expr: string, order: seq<string>, d: seq<(string, real)>, show: real -> string): string
    requires forall k | k in order :: k in Keys(d)
    decreases |order|
  {
    if order == [] then expr
    else
      assert order[0] in order;
      assert forall k | k in order[1..] :: k in order;
      ReplaceEach(Replace(expr, order[0], show(Value(d, order[0]))), order[1..], d, show)
  }

  /** Every name in the sorted order is a key of the dict. */
  lemma OrderHasKeys(d: seq<(string, real)>)
    ensures forall k | k in ByLengthDescending(Keys(d)) :: k in Keys(d)
  {
    forall k | k in ByLengthDescending(Keys(d))
      ensures k in Keys(d)
    {
      assert k in multiset(ByLengthDescending(Keys(d)));
    }
  }

  /**
   * sub_params: each parameter name is replaced by its value's text, longest
   * names first, so that a name that is part of a longer one is not
   * substituted inside it first. The value's text is an argument.
   */
  method SubParams(expr: string, d: seq<(string, real)>, show: real -> string) returns (r: string)
    ensures d == [] ==> r == expr
    ensures forall k | k in ByLengthDescending(Keys(d)) :: k in Keys(d)
    ensures r == ReplaceEach(expr, ByLengthDescending(Keys(d)), d, show)
  {
    var order := ByLengthDescending(Keys(d));
    OrderHasKeys(d);
    r := expr;
    for n := 0 to |order|
      invariant ReplaceEach(expr, order, d, show) == ReplaceEach(r, order[n..], d, show)
    {
      assert order[n..] == [order[n]] + order[n + 1..];
      assert order[n] in order;
      r := Replace(r, order[n], show(Value(d, order[n])));
    }
    assert order[|order|..] == [];
  }

  // ---------------------------------------------------------------------------
  // sub_operators
  // ---------------------------------------------------------------------------

  /** The expression after the first n operator substitutions. */
  function ReplaceOps(expr: string, n: nat): string
    requires n <= |OperatorSubs|
  {
    if n == 0 then expr else Replace(ReplaceOps(expr, n - 1), OperatorSubs[n - 1].0, OperatorSubs[n - 1].1)
  }

  /** sub_operators: the three substitutions in table order. */
  method SubOperators(expr: string) returns (r: string)
    ensures r == ReplaceOps(expr, 3)
  {
    r := expr;
    for n := 0 to |OperatorSubs|
      invariant r == ReplaceOps(expr, n)
    {
      r := Replace(r, OperatorSubs[n].0, OperatorSubs[n].1);
    }
  }

  /** After sub_operators no caret, multiplication sign or middle dot is left. */
  lemma NoOperatorsLeft(expr: string)
    ensures '^' !in ReplaceOps(expr, 3) && '×' !in ReplaceOps(expr, 3) && '·' !in ReplaceOps(expr, 3)
  {
    var a := Replace(expr, "^", "**");
    var b := Replace(a, "×", "*");
    var c := Replace(b, "·", "*");
    assert ReplaceOps(expr, 1) == a;
    assert ReplaceOps(expr, 2) == b;
    assert ReplaceOps(expr, 3) == c;
    ReplaceRemoves(expr, '^', "**");
    ReplaceKeepsOut(a, "×", "*", '^');
    ReplaceKeepsOut(b, "·", "*", '^');
    ReplaceRemoves(a, '×', "*");
    ReplaceKeepsOut(b, "·", "*", '×');
    ReplaceRemoves(b, '·', "*");
  }

  /** H(s) after sub_params and then sub_operators. */
  function Substituted(hs: string, d: seq<(string, real)>, show: real -> string): (e: string)
    ensures '^' !in e && '×' !in e && '·' !in e
  {
    OrderHasKeys(d);
    var p := ReplaceEach(hs, ByLengthDescending(Keys(d)), d, show);
    NoOperatorsLeft(p);
    ReplaceOps(p, 3)
  }

  // ---------------------------------------------------------------------------
  // The engine and its block
  // ---------------------------------------------------------------------------

  class TF {
    const nodes: seq<NodeKey>
    const equation: string
    const parameters: seq<(string, real)>
    var port2node: Option<map<int, int>>

    /** A missing or empty equation becomes 1 / (s + 1). */
    constructor (nodes: seq<NodeKey>, equation: Option<string>, parameters: seq<(string, real)>)
      ensures this.nodes == nodes && this.parameters == parameters && port2node.None?
      ensures equation.None? || equation.value == "" ==> this.equation == DefaultEquation
      ensures equation.Some? && equation.value != "" ==> this.equation == equation.value
    {
      this.nodes := nodes;
      this.equation := if equation.None? || equation.value == "" then DefaultEquation else equation.value;
      this.parameters := parameters;
      port2node := None;
    }

    /** connect maps input and output only when there are exactly two labels. */
    method Connect(net: Netlist)
      modifies this`port2node, net`nodes, net`nodenum
      ensures |nodes| != 2 ==> port2node == old(port2node) && net.Reg() == old(net.Reg())
      ensures |nodes| == 2 ==> net.Reg() == LookupAll(old(net.Reg()), nodes).0
      ensures |nodes| == 2 ==> port2node == Some(PortMap(LookupAll(old(net.Reg()), nodes).1))
    {
      if |nodes| == 2 {
        var m := ConnectNodes(net, nodes);
        port2node := Some(m);
      }
    }

    /** step as written calls get_port_value, which no class in the modelled files defines. */
    method Step(dt: real, t: real) returns (out: Outcome)
      ensures out == Raised(AttributeError)
    {
      out := Raised(AttributeError);
    }
  }

  /** The loop over zip(names, values) that fills the parameter dict. */
  method CollectParams(keys: seq<string>, values: seq<string>, parse: string -> Option<real>) returns (d: seq<(string, real)>)
    ensures d == Collect(keys, values, parse, if |keys| <= |values| then |keys| else |values|)
  {
    var n := if |keys| <= |values| then |keys| else |values|;
    d := [];
    for i := 0 to n
      invariant d == Collect(keys, values, parse, i)
    {
      var v := parse(values[i]);
      if v.Some? {
        d := DictSet(d, keys[i], v.value);
      }
    }
  }

  /** The parameter dict get_engine builds from the two space-separated property texts. */
  function Parameters(names: string, values: string, parse: string -> Option<real>): (d: seq<(string, real)>)
    ensures DistinctKeys(d)
  {
    var keys := Split(names, ' ');
    var vals := Split(values, ' ');
    Collect(keys, vals, parse, if |keys| <= |vals| then |keys| else |vals|)
  }

  /**
   * The block's default texts give the one parameter omega_0 = 100.0, with a
   * parser that reads "100.0" as 100.
   */
  lemma DefaultParameters(parse: string -> Option<real>)
    requires parse("100.0") == Some(100.0)
    ensures Parameters("omega_0", "100.0", parse) == [("omega_0", 100.0)]
  {
    SplitWithoutSep("omega_0", ' ');
    SplitWithoutSep("100.0", ' ');
    var d: seq<(string, real)> := [];
    assert Collect(["omega_0"], ["100.0"], parse, 0) == d;
  }

  /** get_engine's computation: the parameter dict, then H(s) with names and operators substituted. */
  method Prepare(hs: string, names: string, values: string, parse: string -> Option<real>, show: real -> string)
    returns (d: seq<(string, real)>, equ: string)
    ensures d == Parameters(names, values, parse) && equ == Substituted(hs, d, show)
  {
    d := CollectParams(Split(names, ' '), Split(values, ' '), parse);
    equ := SubParams(hs, d, show);
    equ := SubOperators(equ);
  }

  /** The block's properties that get_engine reads and writes. */
  class TFBlock {
    var hs: string
    var parameterNames: string
    var parameterValues: string
    var sympyExpression: string
    var parameters: seq<(string, real)>

    /**
     * The block starts with H(s) = omega_0 / (s + omega_0) and omega_0 = 100.0,
     * and then builds an engine on nodes 0 and 1 once, which fills the
     * parameter dict and the Sympy Expression property.
     */
    constructor (parse: string -> Option<real>, show: real -> string)
      ensures hs == "omega_0 / (s + omega_0)" && parameterNames == "omega_0" && parameterValues == "100.0"
      ensures parameters == Parameters("omega_0", "100.0", parse)
      ensures sympyExpression == Substituted("omega_0 / (s + omega_0)", parameters, show)
    {
      hs := "omega_0 / (s + omega_0)";
      parameterNames := "omega_0";
      parameterValues := "100.0";
      sympyExpression := "";
      parameters := [];
      new;
      var engine := GetEngine([IntKey(0), IntKey(1)], parse, show);
    }

    /**
     * get_engine: names and values are split on spaces and zipped (extras on
     * either side dropped, unparsable values skipped), the names are
     * substituted into H(s), the operators rewritten, the result stored as the
     * Sympy Expression property and handed to a new engine.
     */
    method GetEngine(nodes: seq<NodeKey>, parse: string -> Option<real>, show: real -> string) returns (engine: TF)
      modifies this`parameters, this`sympyExpression
      ensures parameters == Parameters(parameterNames, parameterValues, parse)
      ensures sympyExpression == Substituted(hs, parameters, show)
      ensures fresh(engine) && engine.nodes == nodes && engine.parameters == parameters
      ensures engine.equation == if sympyExpression == "" then DefaultEquation else sympyExpression
    {
      var d, equ := Prepare(hs, parameterNames, parameterValues, parse, show);
      parameters := d;
      sympyExpression := equ;
      engine := new TF(nodes, Some(equ), d);
    }
  }
}
