// The earlier subcircuit engine: the same zero-then-scatter-add assembly as the
// netlist, but the local matrices are read transposed, the node count comes from
// the devices, and a singular system raises instead of being reported.
module Circuit {
  import opened Wrappers
  import opened PyOps
  import opened Netlist

  /** A device as this engine sees it: its node list, node2port map and local arrays. */
  datatype CircuitDevice = CircuitDevice(nodes: seq<int>, node2port: map<int, int>,
                                         jacobian: seq<seq<real>>, bequiv: seq<real>)

  /** Every node has a port and the local jacobian is square. */
  predicate Mapped(cd: CircuitDevice)
  {
    && (forall k | 0 <= k < |cd.nodes| :: cd.nodes[k] in cd.node2port)
    && (forall r | r in cd.jacobian :: |r| == |cd.jacobian|)
  }

  /** Moreover every port indexes the local arrays and no node is negative. */
  predicate Shaped(cd: CircuitDevice)
  {
    && Mapped(cd)
    && |cd.jacobian| == |cd.bequiv|
    && (forall k | 0 <= k < |cd.nodes| :: 0 <= cd.nodes[k] && 0 <= cd.node2port[cd.nodes[k]] < |cd.bequiv|)
  }

  /** A device of an n-node system. */
  predicate WellFormed(cd: CircuitDevice, n: int)
  {
    Shaped(cd) && forall k | 0 <= k < |cd.nodes| :: cd.nodes[k] < n
  }

  lemma WellFormedMapped(devs: seq<CircuitDevice>, n: int)
    requires forall cd | cd in devs :: WellFormed(cd, n)
    ensures forall cd | cd in devs :: Mapped(cd)
  {
  }

  function Transpose(m: seq<seq<real>>): (t: seq<seq<real>>)
    requires forall r | r in m :: |r| == |m|
    ensures |t| == |m| && forall r | r in t :: |r| == |m|
    ensures forall p, q :: Entry(t, p, q) == Entry(m, q, p)
  {
    seq(|m|, p requires 0 <= p < |m| => seq(|m|, q requires 0 <= q < |m| => m[q][p]))
  }

  /** The (port, node) pairs the node list visits, duplicates included. */
  function Ports(cd: CircuitDevice): (ps: seq<(int, int)>)
    requires Mapped(cd)
    ensures |ps| == |cd.nodes|
    ensures forall k | 0 <= k < |ps| :: ps[k] == (cd.node2port[cd.nodes[k]], cd.nodes[k])
  {
    seq(|cd.nodes|, k requires 0 <= k < |cd.nodes| => (cd.node2port[cd.nodes[k]], cd.nodes[k]))
  }

  /** What stamp adds for the device: every node paired with every node, local entries transposed. */
  function AsLocal(cd: CircuitDevice): LocalStamp
    requires Mapped(cd)
  {
    LocalStamp(Ports(cd), Transpose(cd.jacobian), cd.bequiv)
  }

  /** The same device read the netlist's way, without the transposition. */
  function AsPlain(cd: CircuitDevice): LocalStamp
    requires Mapped(cd)
  {
    LocalStamp(Ports(cd), cd.jacobian, cd.bequiv)
  }

  /** The devices' local stamps, transposed as the circuit engine reads them. */
  function Locals(devs: seq<CircuitDevice>): seq<LocalStamp>
    requires forall cd | cd in devs :: Mapped(cd)
  {
    seq(|devs|, k requires 0 <= k < |devs| => AsLocal(devs[k]))
  }

  function Plains(devs: seq<CircuitDevice>): (ds: seq<LocalStamp>)
    requires forall cd | cd in devs :: Mapped(cd)
    ensures |ds| == |devs| && forall k | 0 <= k < |devs| :: ds[k] == AsPlain(devs[k])
  {
    seq(|devs|, k requires 0 <= k < |devs| => AsPlain(devs[k]))
  }

  lemma LocalsFit(devs: seq<CircuitDevice>, n: int)
    requires n >= 0 && (forall cd | cd in devs :: Mapped(cd)) && forall cd | cd in devs :: WellFormed(cd, n)
    ensures forall d | d in Locals(devs) :: Fits(d, n)
  {
    var ls := Locals(devs);
    forall k | 0 <= k < |devs| ensures Fits(ls[k], n) {
      var cd := devs[k];
      assert cd in devs;
      assert forall a | 0 <= a < |ls[k].ports| :: ls[k].ports[a] == (cd.node2port[cd.nodes[a]], cd.nodes[a]);
    }
  }

  /**
   * The transposed read: the assembled entry (i, j) is the entry (j, i) the same
   * devices would give when read the netlist's way.
   */
  lemma CircuitStampTransposed(devs: seq<CircuitDevice>, i: int, j: int)
    requires forall cd | cd in devs :: Mapped(cd)
    ensures NetJac(Locals(devs), i, j) == NetJac(Plains(devs), j, i)
  {
    var ls := Locals(devs);
    var ps := Plains(devs);
    forall k | 0 <= k < |devs| ensures DevJacs(ls, i, j)(k) == DevJacs(ps, j, i)(k) {
      DevJacTranspose(ls[k], ps[k], i, j);
    }
    SumExt(|devs|, DevJacs(ls, i, j), DevJacs(ps, j, i));
  }

  /** So the two engines agree on circuits whose devices all have symmetric local matrices. */
  lemma CircuitMatchesNetlistWhenSymmetric(devs: seq<CircuitDevice>, i: int, j: int)
    requires forall cd | cd in devs :: Mapped(cd) && LocalSymmetric(AsPlain(cd))
    ensures NetJac(Locals(devs), i, j) == NetJac(Plains(devs), i, j)
  {
    CircuitStampTransposed(devs, i, j);
    NetJacSymmetric(Plains(devs), i, j);
  }

  /** The node count setup derives: one more than the highest device node; None when a device has no nodes (max of an empty list). */
  function NodeCount(start: int, devs: seq<CircuitDevice>): (r: Option<int>)
    ensures r.Some? <==> forall k | 0 <= k < |devs| :: |devs[k].nodes| > 0
    ensures r.Some? ==> r.value >= start
    ensures r.Some? ==> forall k, m | 0 <= k < |devs| && 0 <= m < |devs[k].nodes| :: devs[k].nodes[m] < r.value
    ensures r.Some? ==> r.value == start || exists k, m | 0 <= k < |devs| && 0 <= m < |devs[k].nodes| :: r.value == devs[k].nodes[m] + 1
  {
    if devs == [] then Some(start)
    else
      var last := devs[|devs| - 1];
      match NodeCount(start, devs[..|devs| - 1])
      case None => None
      case Some(c) =>
        if |last.nodes| == 0 then None
        else
          var r := if c >= Highest(last.nodes) + 1 then c else Highest(last.nodes) + 1;
          assert forall k | 0 <= k < |devs| - 1 :: devs[..|devs| - 1][k] == devs[k];
          assert forall m | 0 <= m < |last.nodes| :: last.nodes[m] in last.nodes;
          Some(r)
  }

  /** Python's max over a non-empty list. */
  function Highest(s: seq<int>): (h: int)
    requires |s| > 0
    ensures h in s && forall x | x in s :: x <= h
  {
    if |s| == 1 then s[0]
    else
      var h := Highest(s[1..]);
      assert forall x | x in s[1..] :: x in s;
      assert s == [s[0]] + s[1..];
      if s[0] >= h then s[0] else h
  }

  /** Python's dict insert-if-absent, applied to a sequence of (name, device) additions. */
  function AddAll(devices: map<string, nat>, adds: seq<(string, nat)>): map<string, nat>
  {
    if adds == [] then devices
    else
      var before := AddAll(devices, adds[..|adds| - 1]);
      var (name, id) := adds[|adds| - 1];
      if name in before then before else before[name := id]
  }

  /** Under repeated add_device, the first device registered under a name keeps it. */
  lemma {:induction false} AddAllFirstWins(devices: map<string, nat>, adds: seq<(string, nat)>, k: int)
    requires 0 <= k < |adds| && adds[k].0 !in devices
    requires forall k2 | 0 <= k2 < k :: adds[k2].0 != adds[k].0
    ensures adds[k].0 in AddAll(devices, adds) && AddAll(devices, adds)[adds[k].0] == adds[k].1
  {
    if k < |adds| - 1 {
      AddAllFirstWins(devices, adds[..|adds| - 1], k);
    } else {
      AddAllAbsent(devices, adds[..k], adds[k].0);
    }
  }

  lemma {:induction false} AddAllAbsent(devices: map<string, nat>, adds: seq<(string, nat)>, name: string)
    requires name !in devices && forall k | 0 <= k < |adds| :: adds[k].0 != name
    ensures name !in AddAll(devices, adds)
  {
    if adds != [] {
      AddAllAbsent(devices, adds[..|adds| - 1], name);
    }
  }

  /**
   * What one Newton iteration that did not raise left behind, on an `n`-node system
   * of mapped devices: the reduced system of `devs` was solved, `now[1..]` is its
   * solution, and `converged` compares `now` with the iterate `prev` it started from.
   */
  ghost predicate SolvedFrom(devs: seq<CircuitDevice>, n: int, solve: Solver, prev: seq<real>, now: seq<real>,
                             converged: bool, tol: real)
  {
    && n >= 1 && |now| == n && (forall cd | cd in devs :: Mapped(cd))
    && var x := solve(ReducedJac(Locals(devs), n), ReducedRhs(Locals(devs), n));
    && x.Some?
    && now[1..] == x.value
    && converged == WithinTol(prev, now, tol)
  }

  /** The solver refuses the reduced system of the mapped `devs`: minor_step raises. */
  ghost predicate Refused(devs: seq<CircuitDevice>, n: int, solve: Solver)
  {
    && n >= 1 && (forall cd | cd in devs :: Mapped(cd))
    && solve(ReducedJac(Locals(devs), n), ReducedRhs(Locals(devs), n)).None?
  }

  class SubCircuit {
    var nodes: int
    var devices: map<string, nat>
    /** The identities of the devices whose `subcircuit` field refers to this subcircuit. */
    var members: set<nat>
    var jacobian: array2<real>
    var bequiv: array<real>
    var across: array<real>
    var acrossLast: seq<real>
    var acrossHistory: seq<real>
    var converged: bool

    ghost predicate Ready()
      reads this
    {
      && nodes >= 1 && across.Length == nodes
      && jacobian.Length0 == nodes && jacobian.Length1 == nodes
      && bequiv.Length == nodes && bequiv != across
      && |acrossLast| == nodes && |acrossHistory| == nodes
    }

    constructor ()
      ensures nodes == 0 && devices == map[] && members == {} && !converged
    {
      nodes := 0;
      devices := map[];
      members := {};
      jacobian := new real[0, 0];
      bequiv := new real[0];
      across := new real[0];
      acrossLast := [];
      acrossHistory := [];
      converged := false;
    }

    /** Register a device under its name unless the name is taken; it is attached in either case. */
    method AddDevice(name: string, id: nat)
      modifies this`devices, this`members
      ensures members == old(members) + {id}
      ensures devices == AddAll(old(devices), [(name, id)])
    {
      members := members + {id};
      if name !in devices {
        devices := devices[name := id];
      }
    }

    /** Zero the system, then add every device's transposed local stamp. */
    method Stamp(devs: seq<CircuitDevice>)
      requires Ready() && (forall cd | cd in devs :: Mapped(cd)) && forall cd | cd in devs :: WellFormed(cd, nodes)
      modifies jacobian, bequiv
      ensures forall i, j | 0 <= i < nodes && 0 <= j < nodes :: jacobian[i, j] == NetJac(Locals(devs), i, j)
      ensures forall i | 0 <= i < nodes :: bequiv[i] == NetRhs(Locals(devs), i)
    {
      LocalsFit(devs, nodes);
      Assemble(jacobian, bequiv, Locals(devs));
    }

    /**
     * Size the system from the devices' nodes and stamp it. Fails (ValueError) when a
     * device has no nodes, or when no node was found so the reduced system would have
     * a negative size.
     */
    method Setup(devs: seq<CircuitDevice>) returns (ok: bool)
      requires nodes >= 0 && (forall cd | cd in devs :: Mapped(cd)) && forall cd | cd in devs :: Shaped(cd)
      modifies this`nodes, this`jacobian, this`bequiv, this`across, this`acrossLast, this`acrossHistory
      ensures ok <==> NodeCount(old(nodes), devs).Some? && NodeCount(old(nodes), devs).value >= 1
      ensures ok ==> nodes == NodeCount(old(nodes), devs).value && Ready()
      ensures ok ==> forall i | 0 <= i < nodes :: across[i] == 0.0
      ensures ok ==> acrossLast == seq(nodes, _ => 0.0) && acrossHistory == acrossLast
      ensures ok ==> forall i, j | 0 <= i < nodes && 0 <= j < nodes :: jacobian[i, j] == NetJac(Locals(devs), i, j)
      ensures ok ==> forall i | 0 <= i < nodes :: bequiv[i] == NetRhs(Locals(devs), i)
    {
      ok := CountNodes(devs);
      if !ok || nodes < 1 {
        ok := false;
        return;
      }
      across := new real[nodes](_ => 0.0);
      acrossLast := seq(nodes, _ => 0.0);
      acrossHistory := seq(nodes, _ => 0.0);
      jacobian := new real[nodes, nodes]((_, _) => 0.0);
      bequiv := new real[nodes](_ => 0.0);
      Stamp(devs);
      ok := true;
    }

    /** The node-count loop of setup: nodes = max(nodes, max(device.nodes) + 1) per device. */
    method CountNodes(devs: seq<CircuitDevice>) returns (ok: bool)
      modifies this`nodes
      ensures ok <==> NodeCount(old(nodes), devs).Some?
      ensures ok ==> nodes == NodeCount(old(nodes), devs).value
    {
      var k := 0;
      assert devs[..0] == [];
      while k < |devs|
        invariant 0 <= k <= |devs|
        invariant NodeCount(old(nodes), devs[..k]) == Some(nodes)
      {
        if |devs[k].nodes| == 0 {
          NodeCountNone(old(nodes), devs, k);
          return false;
        }
        var highest := Highest(devs[k].nodes);
        NodeCountStep(old(nodes), devs, k, nodes);
        nodes := if nodes >= highest + 1 then nodes else highest + 1;
        k := k + 1;
      }
      assert devs[..|devs|] == devs;
      return true;
    }

    /**
     * One Newton iteration. A singular system raises: `raised` is true and nothing
     * after the solve happens, so `across`, `acrossLast` and `converged` keep their values.
     */
    method MinorStep(devs: seq<CircuitDevice>, solve: Solver, tol: real) returns (raised: bool)
      requires Ready() && SolverShape(solve)
      requires (forall cd | cd in devs :: Mapped(cd)) && forall cd | cd in devs :: WellFormed(cd, nodes)
      modifies jacobian, bequiv, across, this`converged, this`acrossLast
      ensures forall i, j | 0 <= i < nodes && 0 <= j < nodes :: jacobian[i, j] == NetJac(Locals(devs), i, j)
      ensures forall i | 0 <= i < nodes :: bequiv[i] == NetRhs(Locals(devs), i)
      ensures Ready() && across[0] == old(across[0])
      ensures !raised ==> SolvedFrom(devs, nodes, solve, old(acrossLast), across[..], converged, tol) && acrossLast == across[..]
      ensures raised ==> Refused(devs, nodes, solve)
      ensures raised ==> across[..] == old(across[..]) && converged == old(converged) && acrossLast == old(acrossLast)
    {
      WellFormedMapped(devs, nodes);
      Stamp(devs);
      var sub, rhs := Reduce(devs);
      var x := solve(sub, rhs);
      if x.None? {
        raised := true;
        return;
      }
      raised := false;
      Accept(x.value, tol);
    }

    /** The system without the ground row and column, read off the stamped arrays. */
    method Reduce(ghost devs: seq<CircuitDevice>) returns (sub: seq<seq<real>>, rhs: seq<real>)
      requires Ready() && forall cd | cd in devs :: Mapped(cd)
      requires forall i, j | 0 <= i < nodes && 0 <= j < nodes :: jacobian[i, j] == NetJac(Locals(devs), i, j)
      requires forall i | 0 <= i < nodes :: bequiv[i] == NetRhs(Locals(devs), i)
      ensures sub == ReducedJac(Locals(devs), nodes) && rhs == ReducedRhs(Locals(devs), nodes)
    {
      var n := nodes;
      var J := jacobian;
      sub := seq(n - 1, r requires 0 <= r < n - 1 reads J => seq(n - 1, c requires 0 <= c < n - 1 reads J => J[r + 1, c + 1]));
      rhs := bequiv[1..];
      assert forall r | 0 <= r < n - 1 :: sub[r] == ReducedJac(Locals(devs), n)[r];
      assert sub == ReducedJac(Locals(devs), n);
      assert rhs == ReducedRhs(Locals(devs), n);
    }

    /** The accepted solution fills the non-ground nodes, is checked for convergence and remembered. */
    method Accept(v: seq<real>, tol: real)
      requires Ready() && |v| == nodes - 1
      modifies across, this`converged, this`acrossLast
      ensures across[0] == old(across[0]) && across[1..] == v
      ensures converged == WithinTol(old(acrossLast), across[..], tol) && acrossLast == across[..]
    {
      forall r | 1 <= r < nodes {
        across[r] := v[r - 1];
      }
      assert across[1..] == v;
      converged := CheckConvergence(acrossLast, across[..], tol);
      acrossLast := across[..];
    }

    /** A Newton iteration as the step loop sees it: solved from across_last, or refused. */
    method Iterate(devs: seq<CircuitDevice>, solve: Solver, tol: real) returns (raised: bool)
      requires Ready() && SolverShape(solve) && forall cd | cd in devs :: WellFormed(cd, nodes)
      modifies jacobian, bequiv, across, this`converged, this`acrossLast
      ensures Ready() && across[0] == old(across[0])
      ensures !raised ==> SolvedFrom(devs, nodes, solve, old(acrossLast), across[..], converged, tol) && acrossLast == across[..]
      ensures raised ==> Refused(devs, nodes, solve)
      ensures raised ==> across[..] == old(across[..]) && converged == old(converged) && acrossLast == old(acrossLast)
    {
      WellFormedMapped(devs, nodes);
      raised := MinorStep(devs, solve, tol);
    }

    /**
     * One time step: at most maxitr Newton iterations, the first compared against
     * across_last as the previous step (or setup) left it, then across_last and
     * the history take across. There is no failure result: a singular system
     * raises out of step before the history is saved. The ghost `prev` is the
     * iterate the last iteration run started from.
     */
    method Step(engines: (nat, seq<real>) -> seq<CircuitDevice>, solve: Solver, maxitr: nat, tol: real)
      returns (raised: bool, ghost iterations: nat, ghost prev: seq<real>)
      requires Ready() && SolverShape(solve)
      requires forall k: nat, last: seq<real>, cd | cd in engines(k, last) :: WellFormed(cd, nodes)
      modifies jacobian, bequiv, across, this`converged, this`acrossLast, this`acrossHistory
      ensures Ready() && iterations <= maxitr && across[0] == old(across[0])
      ensures !raised ==> (converged || iterations == maxitr) && acrossLast == across[..] && acrossHistory == across[..]
      ensures raised ==> !converged && acrossHistory == old(acrossHistory)
      // the first iteration is compared against across_last as the step found it
      ensures (if raised then iterations == 0 else iterations == 1) ==> prev == old(acrossLast)
      ensures !raised && iterations > 0 ==> SolvedFrom(engines(iterations - 1, prev), nodes, solve, prev, across[..], converged, tol)
      ensures raised ==>
        && iterations < maxitr
        && Refused(engines(iterations, prev), nodes, solve)
        && acrossLast == prev
        && across[..] == (if iterations == 0 then old(across[..]) else prev)
    {
      ghost var solved;
      raised, iterations, prev, solved := Iterations(engines, solve, maxitr, tol);
      if !raised {
        acrossLast := across[..];
        acrossHistory := across[..];
      }
    }

    /** The Newton loop of step, which stops at convergence, after maxitr iterations or on a raise. */
    method Iterations(engines: (nat, seq<real>) -> seq<CircuitDevice>, solve: Solver, maxitr: nat, tol: real)
      returns (raised: bool, ghost iterations: nat, ghost prev: seq<real>, ghost solved: seq<CircuitDevice>)
      requires Ready() && SolverShape(solve)
      requires forall k: nat, last: seq<real>, cd | cd in engines(k, last) :: WellFormed(cd, nodes)
      modifies jacobian, bequiv, across, this`converged, this`acrossLast
      ensures Ready() && iterations <= maxitr && across[0] == old(across[0])
      ensures !raised ==> converged || iterations == maxitr
      ensures iterations > 0 ==> acrossLast == across[..]
      ensures iterations == 0 ==> across[..] == old(across[..]) && acrossLast == old(acrossLast)
      ensures raised ==> !converged
      ensures (if raised then iterations == 0 else iterations == 1) ==> prev == old(acrossLast)
      ensures !raised && iterations > 0 ==> solved == engines(iterations - 1, prev)
      ensures !raised && iterations > 0 ==> SolvedFrom(solved, nodes, solve, prev, across[..], converged, tol)
      ensures raised ==> iterations < maxitr && Refused(engines(iterations, prev), nodes, solve) && acrossLast == prev
      ensures raised && iterations > 0 ==> across[..] == prev
    {
      raised, converged, prev, iterations, solved := false, false, acrossLast, 0, [];
      if maxitr == 0 {
        return;
      }
      var devs := engines(0, acrossLast);
      raised := Iterate(devs, solve, tol);
      if raised {
        return;
      }
      solved := devs;
      var k := 1;
      while k < maxitr && !converged
        invariant 1 <= k <= maxitr && Ready() && !raised
        invariant across[0] == old(across[0]) && acrossLast == across[..]
        invariant k == 1 ==> prev == old(acrossLast)
        invariant solved == engines(k - 1, prev)
        invariant SolvedFrom(solved, nodes, solve, prev, across[..], converged, tol)
      {
        prev := acrossLast;
        devs := engines(k, acrossLast);
        raised := Iterate(devs, solve, tol);
        if raised {
          iterations := k;
          return;
        }
        assert devs == engines(k, prev);
        solved := devs;
        k := k + 1;
      }
      iterations := k;
    }
  }

  /** One more device raises the count to one past its highest node when that is more. */
  lemma NodeCountStep(start: int, devs: seq<CircuitDevice>, k: nat, c: int)
    requires k < |devs| && |devs[k].nodes| > 0 && NodeCount(start, devs[..k]) == Some(c)
    ensures var h := Highest(devs[k].nodes);
            NodeCount(start, devs[..k + 1]) == Some(if c >= h + 1 then c else h + 1)
  {
    assert devs[..k + 1][..k] == devs[..k];
  }

  lemma NodeCountNone(start: int, devs: seq<CircuitDevice>, k: int)
    requires 0 <= k < |devs| && |devs[k].nodes| == 0
    ensures NodeCount(start, devs) == None
  {
  }
}
