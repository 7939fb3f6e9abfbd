// The MNA netlist of netlist.py: the node registry, the stamp assembler, the
// Newton minor-step loop and subcircuit flattening.
module Netlist {
  import opened Wrappers
  import opened PyOps

  // ---------------------------------------------------------------------------
  // Node keys and the node registry
  // ---------------------------------------------------------------------------

  /** A node key as the netlist sees it: the integer 0 or any string name. */
  datatype NodeKey = IntKey(i: int) | StrKey(s: string)

  function DigitChar(d: nat): char
    requires d < 10
  {
    "0123456789"[d]
  }

  /** Python's str() of a non-negative int. */
  function Decimal(n: nat): (r: string)
    ensures 1 <= |r| && (n >= 10 <==> |r| >= 2)
    decreases n
  {
    if n < 10 then [DigitChar(n)] else Decimal(n / 10) + [DigitChar(n % 10)]
  }

  lemma {:induction false} DecimalInjective(a: nat, b: nat)
    requires Decimal(a) == Decimal(b)
    ensures a == b
    decreases a
  {
    if a >= 10 && b >= 10 {
      var da, db := Decimal(a), Decimal(b);
      assert da[|da| - 1] == DigitChar(a % 10) && db[|db| - 1] == DigitChar(b % 10);
      assert a % 10 == b % 10;
      assert da[..|da| - 1] == Decimal(a / 10) && db[..|db| - 1] == Decimal(b / 10);
      DecimalInjective(a / 10, b / 10);
    }
  }

  /** The key create_internal stores its node under: 'internal<k>'. */
  function InternalKey(k: nat): NodeKey
  {
    StrKey("internal" + Decimal(k))
  }

  lemma InternalKeyInjective(a: nat, b: nat)
    requires InternalKey(a) == InternalKey(b)
    ensures a == b
  {
    assert ("internal" + Decimal(a))[8..] == Decimal(a);
    assert ("internal" + Decimal(b))[8..] == Decimal(b);
    DecimalInjective(a, b);
  }

  predicate IsGroundKey(k: NodeKey)
  {
    k == IntKey(0) || k == StrKey("ground") || k == StrKey("gnd")
  }

  /** The registry's abstract value: the nodes dict and the two counters. */
  datatype Registry = Registry(nodes: map<NodeKey, int>, nodenum: nat, internalnum: nat)

  /** 0, 'ground' and 'gnd' preloaded to node 0, next index 1, no internal node yet. */
  function Preloaded(): Registry
  {
    Registry(map[IntKey(0) := 0, StrKey("ground") := 0, StrKey("gnd") := 0], 1, 0)
  }

  /** Every index is below nodenum and the ground keys name node 0. */
  ghost predicate Bounded(r: Registry)
  {
    && (forall k | k in r.nodes :: 0 <= r.nodes[k] < r.nodenum)
    && (forall k | IsGroundKey(k) :: k in r.nodes && r.nodes[k] == 0)
  }

  /** Only the ground keys share an index. */
  ghost predicate Distinct(r: Registry)
  {
    forall k1, k2 | k1 in r.nodes && k2 in r.nodes && k1 != k2 && r.nodes[k1] == r.nodes[k2] ::
      IsGroundKey(k1) && IsGroundKey(k2)
  }

  /** Every index below nodenum is held by some key. */
  ghost predicate Dense(r: Registry)
  {
    forall i | 0 <= i < r.nodenum :: i in r.nodes.Values
  }

  /** get_node_index on the abstract registry: the new registry and the index returned. */
  function Lookup(r: Registry, key: NodeKey): (Registry, int)
  {
    if key in r.nodes then (r, r.nodes[key])
    else (r.(nodes := r.nodes[key := r.nodenum], nodenum := r.nodenum + 1), r.nodenum)
  }

  /** create_internal on the abstract registry. */
  function Internal(r: Registry): (Registry, int)
  {
    (Registry(r.nodes[InternalKey(r.internalnum) := r.nodenum], r.nodenum + 1, r.internalnum + 1), r.nodenum)
  }

  lemma PreloadedInvariants()
    ensures Bounded(Preloaded()) && Distinct(Preloaded()) && Dense(Preloaded())
  {
    var r := Preloaded();
    assert r.nodes[IntKey(0)] == 0;
  }

  /** A known key keeps its index; a new key gets the old nodenum, which then grows by one. */
  lemma LookupSpec(r: Registry, key: NodeKey)
    requires Bounded(r)
    ensures var (r2, i) := Lookup(r, key);
      && key in r2.nodes && r2.nodes[key] == i
      && (key in r.nodes ==> r2 == r && i == r.nodes[key])
      && (key !in r.nodes ==> i == r.nodenum && r2.nodenum == r.nodenum + 1 && i !in r.nodes.Values)
      && r2.internalnum == r.internalnum
      && (forall k | k in r.nodes :: k in r2.nodes && r2.nodes[k] == r.nodes[k])
  {
    if key !in r.nodes {
      assert forall v | v in r.nodes.Values :: v < r.nodenum;
    }
  }

  lemma LookupInvariants(r: Registry, key: NodeKey)
    requires Bounded(r) && Distinct(r) && Dense(r)
    ensures var r2 := Lookup(r, key).0; Bounded(r2) && Distinct(r2) && Dense(r2)
  {
    var r2 := Lookup(r, key).0;
    if key !in r.nodes {
      forall i | 0 <= i < r2.nodenum ensures i in r2.nodes.Values {
        if i == r.nodenum {
          assert r2.nodes[key] == i;
        } else {
          assert i in r.nodes.Values;
          var k :| k in r.nodes && r.nodes[k] == i;
          assert r2.nodes[k] == i;
        }
      }
    }
  }

  /**
   * create_internal returns the old nodenum under 'internal<internalnum>' and bumps both
   * counters; an existing entry under that key is overwritten without a check.
   */
  lemma InternalSpec(r: Registry)
    requires Bounded(r)
    ensures var (r2, i) := Internal(r);
      && i == r.nodenum && r2.nodenum == r.nodenum + 1 && r2.internalnum == r.internalnum + 1
      && r2.nodes[InternalKey(r.internalnum)] == i
      && (forall k | k in r.nodes && k != InternalKey(r.internalnum) :: r2.nodes[k] == r.nodes[k])
      && Bounded(r2)
  {
    var r2 := Internal(r).0;
    assert !IsGroundKey(InternalKey(r.internalnum));
    forall k | IsGroundKey(k) ensures k in r2.nodes && r2.nodes[k] == 0 {
      assert k != InternalKey(r.internalnum);
    }
  }

  /** Without a collision on the new key the registry stays distinct and dense. */
  lemma InternalInvariants(r: Registry)
    requires Bounded(r) && Distinct(r) && Dense(r)
    requires InternalKey(r.internalnum) !in r.nodes
    ensures var r2 := Internal(r).0; Bounded(r2) && Distinct(r2) && Dense(r2)
  {
    InternalSpec(r);
    var r2 := Internal(r).0;
    forall i | 0 <= i < r2.nodenum ensures i in r2.nodes.Values {
      if i == r.nodenum {
        assert r2.nodes[InternalKey(r.internalnum)] == i;
      } else {
        assert i in r.nodes.Values;
        var k :| k in r.nodes && r.nodes[k] == i;
        assert r2.nodes[k] == i;
      }
    }
  }

  /**
   * The overwrite: when 'internal<k>' already names a non-ground node j, after
   * create_internal no key holds j any more.
   */
  lemma InternalCollisionOrphans(r: Registry)
    requires Bounded(r) && Distinct(r)
    requires InternalKey(r.internalnum) in r.nodes && r.nodes[InternalKey(r.internalnum)] != 0
    ensures var r2 := Internal(r).0;
      forall k | k in r2.nodes :: r2.nodes[k] != r.nodes[InternalKey(r.internalnum)]
  {
    var key := InternalKey(r.internalnum);
    var j := r.nodes[key];
    var r2 := Internal(r).0;
    forall k | k in r2.nodes ensures r2.nodes[k] != j {
      if k != key {
        assert k in r.nodes && r2.nodes[k] == r.nodes[k];
      }
    }
  }

  // ---------------------------------------------------------------------------
  // Finite sums and the assembled stamp
  // ---------------------------------------------------------------------------

  /** f(0) + ... + f(n-1). */
  function Sum(n: nat, f: int -> real): real
  {
    if n == 0 then 0.0 else Sum(n - 1, f) + f(n - 1)
  }

  lemma {:induction false} SumExt(n: nat, f: int -> real, g: int -> real)
    requires forall k | 0 <= k < n :: f(k) == g(k)
    ensures Sum(n, f) == Sum(n, g)
  {
    if n > 0 {
      SumExt(n - 1, f, g);
    }
  }

  lemma {:induction false} SumAdd(n: nat, f: int -> real, g: int -> real, h: int -> real)
    requires forall k | 0 <= k < n :: h(k) == f(k) + g(k)
    ensures Sum(n, h) == Sum(n, f) + Sum(n, g)
  {
    if n > 0 {
      SumAdd(n - 1, f, g, h);
    }
  }

  /** The row a of a two-argument function, and its column b. */
  function Row(f: (int, int) -> real, a: int): int -> real { b => f(a, b) }
  function Col(f: (int, int) -> real, b: int): int -> real { a => f(a, b) }

  /** Row sums over n columns, and column sums over m rows. */
  function RowSums(n: nat, f: (int, int) -> real): int -> real { a => Sum(n, Row(f, a)) }
  function ColSums(m: nat, f: (int, int) -> real): int -> real { b => Sum(m, Col(f, b)) }

  /** Exchanging the order of a finite double sum. */
  lemma {:induction false} SumSwap(m: nat, n: nat, f: (int, int) -> real)
    ensures Sum(m, RowSums(n, f)) == Sum(n, ColSums(m, f))
  {
    if m > 0 {
      SumSwap(m - 1, n, f);
      forall k | 0 <= k < n ensures ColSums(m, f)(k) == ColSums(m - 1, f)(k) + Row(f, m - 1)(k) {
        assert Col(f, k)(m - 1) == f(m - 1, k);
      }
      SumAdd(n, ColSums(m - 1, f), Row(f, m - 1), ColSums(m, f));
      calc {
        Sum(m, RowSums(n, f));
        Sum(m - 1, RowSums(n, f)) + RowSums(n, f)(m - 1);
        Sum(n, ColSums(m - 1, f)) + RowSums(n, f)(m - 1);
        { assert RowSums(n, f)(m - 1) == Sum(n, Row(f, m - 1)); }
        Sum(n, ColSums(m - 1, f)) + Sum(n, Row(f, m - 1));
        Sum(n, ColSums(m, f));
      }
    } else {
      SumExt(n, ColSums(0, f), k => 0.0);
      SumZero(n);
    }
  }

  lemma {:induction false} SumZero(n: nat)
    ensures Sum(n, k => 0.0) == 0.0
  {
    if n > 0 {
      SumZero(n - 1);
    }
  }

  /**
   * A device as the netlist's stamp reads it: the items of its port-to-node dict
   * in iteration order, its local jac and its local bequiv.
   */
  datatype LocalStamp = LocalStamp(ports: seq<(int, int)>, jac: seq<seq<real>>, bequiv: seq<real>)

  /** Every port indexes the local arrays and every node indexes the n-node system. */
  ghost predicate Fits(d: LocalStamp, n: nat)
  {
    && |d.jac| == |d.bequiv|
    && (forall r | r in d.jac :: |r| == |d.jac|)
    && (forall a | 0 <= a < |d.ports| :: 0 <= d.ports[a].0 < |d.bequiv| && 0 <= d.ports[a].1 < n)
  }

  function Entry(m: seq<seq<real>>, p: int, q: int): real
  {
    if 0 <= p < |m| && 0 <= q < |m[p]| then m[p][q] else 0.0
  }

  /** What the port pair (a, b) of device d adds to the system entry (i, j). */
  function Pair(d: LocalStamp, i: int, j: int, a: int, b: int): real
  {
    if 0 <= a < |d.ports| && 0 <= b < |d.ports| && d.ports[a].1 == i && d.ports[b].1 == j
    then Entry(d.jac, d.ports[a].0, d.ports[b].0) else 0.0
  }

  function Pairs(d: LocalStamp, i: int, j: int): (int, int) -> real
  {
    (a, b) => Pair(d, i, j, a, b)
  }

  /** What port a of device d adds to the system right-hand side at node i. */
  function Rhs(d: LocalStamp, i: int): int -> real
  {
    a => if 0 <= a < |d.ports| && d.ports[a].1 == i && 0 <= d.ports[a].0 < |d.bequiv|
         then d.bequiv[d.ports[a].0] else 0.0
  }

  function DevJac(d: LocalStamp, i: int, j: int): real
  {
    Sum(|d.ports|, RowSums(|d.ports|, Pairs(d, i, j)))
  }

  function DevRhs(d: LocalStamp, i: int): real
  {
    Sum(|d.ports|, Rhs(d, i))
  }

  function DevJacs(devs: seq<LocalStamp>, i: int, j: int): int -> real
  {
    k => if 0 <= k < |devs| then DevJac(devs[k], i, j) else 0.0
  }

  function DevRhss(devs: seq<LocalStamp>, i: int): int -> real
  {
    k => if 0 <= k < |devs| then DevRhs(devs[k], i) else 0.0
  }

  /** The assembled system entry: the sum of every device's contribution. */
  function NetJac(devs: seq<LocalStamp>, i: int, j: int): real
  {
    Sum(|devs|, DevJacs(devs, i, j))
  }

  function NetRhs(devs: seq<LocalStamp>, i: int): real
  {
    Sum(|devs|, DevRhss(devs, i))
  }

  ghost predicate LocalSymmetric(d: LocalStamp)
  {
    forall p, q :: Entry(d.jac, p, q) == Entry(d.jac, q, p)
  }

  /**
   * Two devices on the same ports whose local matrices are each other's transpose
   * contribute transposed entries to the system.
   */
  lemma DevJacTranspose(d: LocalStamp, e: LocalStamp, i: int, j: int)
    requires d.ports == e.ports
    requires forall p, q :: Entry(d.jac, p, q) == Entry(e.jac, q, p)
    ensures DevJac(d, i, j) == DevJac(e, j, i)
  {
    var n := |d.ports|;
    SumSwap(n, n, Pairs(e, j, i));
    forall b | 0 <= b < n ensures ColSums(n, Pairs(e, j, i))(b) == RowSums(n, Pairs(d, i, j))(b) {
      SumExt(n, Col(Pairs(e, j, i), b), Row(Pairs(d, i, j), b));
    }
    SumExt(n, ColSums(n, Pairs(e, j, i)), RowSums(n, Pairs(d, i, j)));
  }

  /** A device with a symmetric local jac contributes symmetrically. */
  lemma DevJacSymmetric(d: LocalStamp, i: int, j: int)
    requires LocalSymmetric(d)
    ensures DevJac(d, i, j) == DevJac(d, j, i)
  {
    DevJacTranspose(d, d, i, j);
  }

  /** When every device's local jac is symmetric, so is the assembled jac. */
  lemma NetJacSymmetric(devs: seq<LocalStamp>, i: int, j: int)
    requires forall d | d in devs :: LocalSymmetric(d)
    ensures NetJac(devs, i, j) == NetJac(devs, j, i)
  {
    forall k | 0 <= k < |devs| ensures DevJacs(devs, i, j)(k) == DevJacs(devs, j, i)(k) {
      DevJacSymmetric(devs[k], i, j);
    }
    SumExt(|devs|, DevJacs(devs, i, j), DevJacs(devs, j, i));
  }

  /** Stamping is additive over the device list. */
  lemma NetJacAppend(devs: seq<LocalStamp>, d: LocalStamp, i: int, j: int)
    ensures NetJac(devs + [d], i, j) == NetJac(devs, i, j) + DevJac(d, i, j)
  {
    SumExt(|devs|, DevJacs(devs + [d], i, j), DevJacs(devs, i, j));
  }

  lemma NetRhsAppend(devs: seq<LocalStamp>, d: LocalStamp, i: int)
    ensures NetRhs(devs + [d], i) == NetRhs(devs, i) + DevRhs(d, i)
  {
    SumExt(|devs|, DevRhss(devs + [d], i), DevRhss(devs, i));
  }

  /** The system matrix without the ground row and column: what la.solve is given. */
  function ReducedJac(devs: seq<LocalStamp>, n: nat): (m: seq<seq<real>>)
    requires n >= 1
    ensures |m| == n - 1 && forall r | r in m :: |r| == n - 1
  {
    seq(n - 1, r => seq(n - 1, c => NetJac(devs, r + 1, c + 1)))
  }

  function ReducedRhs(devs: seq<LocalStamp>, n: nat): (v: seq<real>)
    requires n >= 1
    ensures |v| == n - 1
  {
    seq(n - 1, r => NetRhs(devs, r + 1))
  }

  // ---------------------------------------------------------------------------
  // Newton convergence
  // ---------------------------------------------------------------------------

  /** Every pair that zip(last, cur) yields is within tol. */
  predicate WithinTol(last: seq<real>, cur: seq<real>, tol: real)
  {
    forall i | 0 <= i < |last| && i < |cur| :: Abs(cur[i] - last[i]) <= tol
  }

  /** The convergence scan of minor_step: stops at the first pair further apart than tol. */
  method CheckConvergence(last: seq<real>, cur: seq<real>, tol: real) returns (converged: bool)
    ensures converged <==> WithinTol(last, cur, tol)
  {
    converged := true;
    var i := 0;
    while i < |last| && i < |cur|
      invariant 0 <= i <= |last| && i <= |cur|
      invariant forall k | 0 <= k < i :: Abs(cur[k] - last[k]) <= tol
    {
      if Abs(cur[i] - last[i]) > tol {
        converged := false;
        break;
      }
      i := i + 1;
    }
  }

  /** A linear solver: None stands for LinAlgError. */
  type Solver = (seq<seq<real>>, seq<real>) -> Option<seq<real>>

  /** la.solve returns a vector as long as the right-hand side. */
  ghost predicate SolverShape(solve: Solver)
  {
    forall m, b :: solve(m, b).Some? ==> |solve(m, b).value| == |b|
  }

  // ---------------------------------------------------------------------------
  // Subcircuit flattening
  // ---------------------------------------------------------------------------

  /**
   * An entry of a devices dict. Every device object has an identity `id`; an X
   * instance carries the devices dict of its subcircuit definition, in iteration order.
   */
  datatype DeviceEntry = Element(id: nat) | Instance(id: nat, def: seq<(string, DeviceEntry)>)

  function Mangle(sub: string, dev: string): string
  {
    sub + "_" + dev
  }

  /** The mangled registrations one instance produces. */
  function MangleAll(sub: string, def: seq<(string, DeviceEntry)>): (ps: seq<(string, DeviceEntry)>)
    ensures |ps| == |def|
    ensures forall k | 0 <= k < |def| :: ps[k] == (Mangle(sub, def[k].0), def[k].1)
  {
    if def == [] then [] else MangleAll(sub, def[..|def| - 1]) + [(Mangle(sub, def[|def| - 1].0), def[|def| - 1].1)]
  }

  /** The registrations of all instances, instance by instance. */
  function Placements(insts: seq<(string, seq<(string, DeviceEntry)>)>): seq<(string, DeviceEntry)>
  {
    if insts == [] then []
    else Placements(insts[..|insts| - 1]) + MangleAll(insts[|insts| - 1].0, insts[|insts| - 1].1)
  }

  /** The X instances met along `order`, with their definitions. */
  function InstancesIn(devs: map<string, DeviceEntry>, order: seq<string>): seq<(string, seq<(string, DeviceEntry)>)>
  {
    if order == [] then []
    else
      var rest := InstancesIn(devs, order[..|order| - 1]);
      var name := order[|order| - 1];
      if name in devs && devs[name].Instance? then rest + [(name, devs[name].def)] else rest
  }

  /** The keys of a devices dict that hold an X instance. */
  function InstanceKeys(devs: map<string, DeviceEntry>): set<string>
  {
    set k | k in devs && devs[k].Instance?
  }

  /** `order` lists every element of `keys` exactly once: a dict's iteration order. */
  predicate Enumerates(order: seq<string>, keys: set<string>)
  {
    && (forall k | 0 <= k < |order| :: order[k] in keys)
    && (forall key | key in keys :: key in order)
    && (forall k1, k2 | 0 <= k1 < k2 < |order| :: order[k1] != order[k2])
  }

  /**
   * Registering ps one after another: each entry is stored under its name and the
   * device object is renamed to it (names maps a device identity to its name).
   */
  function Place(devs: map<string, DeviceEntry>, names: map<nat, string>, ps: seq<(string, DeviceEntry)>)
    : (map<string, DeviceEntry>, map<nat, string>)
  {
    if ps == [] then (devs, names)
    else
      var (d, n) := Place(devs, names, ps[..|ps| - 1]);
      var p := ps[|ps| - 1];
      (d[p.0 := p.1], n[p.1.id := p.0])
  }

  /**
   * What flatten leaves behind: the X instances removed, then the devices of every
   * instance registered under mangled names, instances taken in the order `iorder`.
   */
  function Flattened(devs: map<string, DeviceEntry>, names: map<nat, string>, iorder: seq<string>)
    : (map<string, DeviceEntry>, map<nat, string>)
  {
    Place(devs - InstanceKeys(devs), names, Placements(InstancesIn(devs, iorder)))
  }

  /** The last registration under a name wins; a name never registered keeps its old entry. */
  lemma {:induction false} PlaceLastWins(devs: map<string, DeviceEntry>, names: map<nat, string>,
                                         ps: seq<(string, DeviceEntry)>, name: string)
    ensures var d := Place(devs, names, ps).0;
      && (forall k | 0 <= k < |ps| :: ps[k].0 in d)
      && ((forall k | 0 <= k < |ps| :: ps[k].0 != name) ==> (name in d <==> name in devs) && (name in devs ==> d[name] == devs[name]))
      && (forall k | 0 <= k < |ps| && ps[k].0 == name && (forall k2 | k < k2 < |ps| :: ps[k2].0 != name) :: d[name] == ps[k].1)
  {
    if ps != [] {
      var init, last := ps[..|ps| - 1], ps[|ps| - 1];
      PlaceLastWins(devs, names, init, name);
      var d0, d := Place(devs, names, init).0, Place(devs, names, ps).0;
      assert d == d0[last.0 := last.1];
      assert forall k | 0 <= k < |init| :: init[k] == ps[k];
      forall k | 0 <= k < |ps| && ps[k].0 == name && (forall k2 | k < k2 < |ps| :: ps[k2].0 != name)
        ensures d[name] == ps[k].1
      {
        if k < |init| {
          assert last.0 != name;
          assert forall k2 | k < k2 < |init| :: init[k2].0 != name;
        }
      }
    }
  }

  /** The last registration of a device object decides its final name. */
  lemma {:induction false} PlaceLastName(devs: map<string, DeviceEntry>, names: map<nat, string>,
                                         ps: seq<(string, DeviceEntry)>, id: nat)
    ensures var n := Place(devs, names, ps).1;
      && (forall k | 0 <= k < |ps| :: ps[k].1.id in n)
      && ((forall k | 0 <= k < |ps| :: ps[k].1.id != id) ==> (id in n <==> id in names) && (id in names ==> n[id] == names[id]))
      && (forall k | 0 <= k < |ps| && ps[k].1.id == id && (forall k2 | k < k2 < |ps| :: ps[k2].1.id != id) :: n[id] == ps[k].0)
  {
    if ps != [] {
      var init, last := ps[..|ps| - 1], ps[|ps| - 1];
      PlaceLastName(devs, names, init, id);
      var n0, n := Place(devs, names, init).1, Place(devs, names, ps).1;
      assert n == n0[last.1.id := last.0];
      assert forall k | 0 <= k < |init| :: init[k] == ps[k];
      forall k | 0 <= k < |ps| && ps[k].1.id == id && (forall k2 | k < k2 < |ps| :: ps[k2].1.id != id)
        ensures n[id] == ps[k].0
      {
        if k < |init| {
          assert last.1.id != id;
          assert forall k2 | k < k2 < |init| :: init[k2].1.id != id;
        }
      }
    }
  }

  /** The device a final name refers to was registered at or after a given registration of it. */
  lemma {:induction false} PlaceNameIsLater(devs: map<string, DeviceEntry>, names: map<nat, string>,
                                            ps: seq<(string, DeviceEntry)>, k0: int)
    requires 0 <= k0 < |ps|
    ensures var n := Place(devs, names, ps).1;
      ps[k0].1.id in n && exists k | k0 <= k < |ps| :: n[ps[k0].1.id] == ps[k].0
  {
    var last := |ps| - 1;
    if ps[last].1.id != ps[k0].1.id {
      PlaceNameIsLater(devs, names, ps[..last], k0);
      var k :| k0 <= k < last && Place(devs, names, ps[..last]).1[ps[k0].1.id] == ps[..last][k].0;
      assert Place(devs, names, ps).1[ps[k0].1.id] == ps[k].0;
    } else {
      assert Place(devs, names, ps).1[ps[k0].1.id] == ps[last].0;
    }
  }

  /** Where the registrations of instance i start among all registrations. */
  lemma {:induction false} PlacementsAt(insts: seq<(string, seq<(string, DeviceEntry)>)>, i: int, j: int)
    requires 0 <= i < |insts| && 0 <= j < |insts[i].1|
    ensures |Placements(insts[..i])| + j < |Placements(insts)|
    ensures Placements(insts)[|Placements(insts[..i])| + j] == (Mangle(insts[i].0, insts[i].1[j].0), insts[i].1[j].1)
  {
    var last := |insts| - 1;
    assert insts[..last + 1] == insts;
    if i < last {
      PlacementsAt(insts[..last], i, j);
      assert insts[..last][..i] == insts[..i];
    }
  }

  /** No mangled name is produced twice. */
  predicate NoCollisions(ps: seq<(string, DeviceEntry)>)
  {
    forall k1, k2 | 0 <= k1 < k2 < |ps| :: ps[k1].0 != ps[k2].0
  }

  /**
   * Flattening does not copy: two instances of one definition register the very same
   * device objects under their two mangled names, and each object keeps only the
   * name it got from the later instance.
   */
  lemma FlattenAliases(devs: map<string, DeviceEntry>, names: map<nat, string>, iorder: seq<string>,
                       i1: int, i2: int, j: int)
    requires var insts := InstancesIn(devs, iorder);
      0 <= i1 < i2 < |insts| && insts[i1].1 == insts[i2].1 && 0 <= j < |insts[i1].1|
    requires NoCollisions(Placements(InstancesIn(devs, iorder)))
    ensures var insts := InstancesIn(devs, iorder);
      var (d, n) := Flattened(devs, names, iorder);
      var (dname, dev) := insts[i1].1[j];
      && Mangle(insts[i1].0, dname) in d && d[Mangle(insts[i1].0, dname)] == dev
      && Mangle(insts[i2].0, dname) in d && d[Mangle(insts[i2].0, dname)] == dev
      && dev.id in n && n[dev.id] != Mangle(insts[i1].0, dname)
  {
    var insts := InstancesIn(devs, iorder);
    var ps := Placements(insts);
    var base := devs - InstanceKeys(devs);
    var (dname, dev) := insts[i1].1[j];
    PlacementsAt(insts, i1, j);
    PlacementsAt(insts, i2, j);
    var o1 := |Placements(insts[..i1])| + j;
    var o2 := |Placements(insts[..i2])| + j;
    assert ps[o1] == (Mangle(insts[i1].0, dname), dev);
    assert insts[i2].1[j] == insts[i1].1[j];
    assert ps[o2] == (Mangle(insts[i2].0, dname), dev);
    PlacementsPrefixGrow(insts, i1, i2);
    assert Flattened(devs, names, iorder) == Place(base, names, ps);
    PlaceUnique(base, names, ps, o1);
    PlaceUnique(base, names, ps, o2);
    PlaceRenamed(base, names, ps, o1, o2);
  }

  /** Without collisions every registration survives under its own name. */
  lemma PlaceUnique(devs: map<string, DeviceEntry>, names: map<nat, string>, ps: seq<(string, DeviceEntry)>, o: int)
    requires NoCollisions(ps) && 0 <= o < |ps|
    ensures ps[o].0 in Place(devs, names, ps).0 && Place(devs, names, ps).0[ps[o].0] == ps[o].1
  {
    PlaceLastWins(devs, names, ps, ps[o].0);
  }

  /** Without collisions a device object registered again later does not keep the earlier name. */
  lemma PlaceRenamed(devs: map<string, DeviceEntry>, names: map<nat, string>, ps: seq<(string, DeviceEntry)>,
                     o1: int, o2: int)
    requires NoCollisions(ps) && 0 <= o1 < o2 < |ps|
    ensures ps[o2].1.id in Place(devs, names, ps).1 && Place(devs, names, ps).1[ps[o2].1.id] != ps[o1].0
  {
    PlaceNameIsLater(devs, names, ps, o2);
  }

  /** Later instances start later among the registrations, after all of the earlier one's. */
  lemma {:induction false} PlacementsPrefixGrow(insts: seq<(string, seq<(string, DeviceEntry)>)>, i1: int, i2: int)
    requires 0 <= i1 < i2 <= |insts|
    ensures |Placements(insts[..i1])| + |insts[i1].1| <= |Placements(insts[..i2])|
  {
    assert insts[..i1 + 1][..i1] == insts[..i1];
    if i2 > i1 + 1 {
      PlacementsPrefixGrow(insts, i1, i2 - 1);
      assert insts[..i2][..i2 - 1] == insts[..i2 - 1];
    }
  }

  // ---------------------------------------------------------------------------
  // The netlist object
  // ---------------------------------------------------------------------------

  /**
   * A netlist: the node registry, the devices dict of the main subcircuit (which
   * flatten edits in place), the system arrays and the Newton state.
   * `names` holds the `name` attribute of every device object, by identity.
   * A device enters the numeric methods as the LocalStamp it holds at that moment.
   */
  class Netlist {
    var nodes: map<NodeKey, int>
    var nodenum: nat
    var internalnum: nat
    var devices: map<string, DeviceEntry>
    var names: map<nat, string>
    var jac: array2<real>
    var bequiv: array<real>
    var across: array<real>
    var acrossLast: seq<real>
    var acrossHistory: seq<real>
    var converged: bool

    ghost function Reg(): Registry
      reads this
    {
      Registry(nodes, nodenum, internalnum)
    }

    /** The arrays have the sizes setup gives them. */
    ghost predicate Ready()
      reads this
    {
      && across.Length >= 1
      && jac.Length0 == across.Length && jac.Length1 == across.Length
      && bequiv.Length == across.Length
      && bequiv != across
      && |acrossLast| == across.Length && |acrossHistory| == across.Length
    }

    /** Before setup, the arrays are empty (None in the source). */
    constructor ()
      ensures Reg() == Preloaded() && devices == map[] && names == map[]
      ensures !converged && across.Length == 0 && acrossLast == [] && acrossHistory == []
    {
      nodes := Preloaded().nodes;
      nodenum := 1;
      internalnum := 0;
      devices := map[];
      names := map[];
      jac := new real[0, 0];
      bequiv := new real[0];
      across := new real[0];
      acrossLast := [];
      acrossHistory := [];
      converged := false;
    }

    method GetNodeIndex(key: NodeKey) returns (index: int)
      modifies this`nodes, this`nodenum
      ensures (Reg(), index) == Lookup(old(Reg()), key)
    {
      if key !in nodes {
        nodenum := nodenum + 1;
        nodes := nodes[key := nodenum - 1];
      }
      index := nodes[key];
    }

    method CreateInternal() returns (index: int)
      modifies this`nodes, this`nodenum, this`internalnum
      ensures (Reg(), index) == Internal(old(Reg()))
    {
      nodenum := nodenum + 1;
      internalnum := internalnum + 1;
      var key := InternalKey(internalnum - 1);
      nodes := nodes[key := nodenum - 1];
      index := nodenum - 1;
    }

    /** Zero the system, then scatter-add every device's local stamp. */
    method Stamp(devs: seq<LocalStamp>)
      requires Ready()
      requires forall d | d in devs :: Fits(d, across.Length)
      modifies jac, bequiv
      ensures forall i, j | 0 <= i < jac.Length0 && 0 <= j < jac.Length1 :: jac[i, j] == NetJac(devs, i, j)
      ensures forall i | 0 <= i < bequiv.Length :: bequiv[i] == NetRhs(devs, i)
    {
      Assemble(jac, bequiv, devs);
    }

    /**
     * Allocate every vector at nodenum zeros and the matrix at nodenum x nodenum zeros,
     * then stamp the devices (as their setup left them).
     */
    method Setup(devs: seq<LocalStamp>)
      requires nodenum >= 1
      requires forall d | d in devs :: Fits(d, nodenum)
      modifies this`jac, this`bequiv, this`across, this`acrossLast, this`acrossHistory
      ensures Ready() && across.Length == nodenum
      ensures fresh(jac) && fresh(bequiv) && fresh(across)
      ensures forall i | 0 <= i < across.Length :: across[i] == 0.0
      ensures acrossLast == seq(nodenum, _ => 0.0) && acrossHistory == acrossLast
      ensures forall i, j | 0 <= i < jac.Length0 && 0 <= j < jac.Length1 :: jac[i, j] == NetJac(devs, i, j)
      ensures forall i | 0 <= i < bequiv.Length :: bequiv[i] == NetRhs(devs, i)
    {
      across := new real[nodenum](_ => 0.0);
      acrossLast := seq(nodenum, _ => 0.0);
      acrossHistory := seq(nodenum, _ => 0.0);
      jac := new real[nodenum, nodenum]((_, _) => 0.0);
      bequiv := new real[nodenum](_ => 0.0);
      Stamp(devs);
    }

    /**
     * One Newton iteration: restamp, solve the system without the ground row and
     * column, and test convergence against the previous iterate. A solver failure
     * leaves `across` and `converged` as they were; `acrossLast` always becomes `across`.
     */
    method MinorStep(devs: seq<LocalStamp>, solve: Solver, tol: real) returns (success: bool)
      requires Ready() && SolverShape(solve)
      requires forall d | d in devs :: Fits(d, across.Length)
      modifies jac, bequiv, across, this`converged, this`acrossLast
      ensures forall i, j | 0 <= i < jac.Length0 && 0 <= j < jac.Length1 :: jac[i, j] == NetJac(devs, i, j)
      ensures forall i | 0 <= i < bequiv.Length :: bequiv[i] == NetRhs(devs, i)
      ensures var x := solve(ReducedJac(devs, across.Length), ReducedRhs(devs, across.Length));
        && success == x.Some?
        && across[0] == old(across[0])
        && (success ==> across[1..] == x.value && converged == WithinTol(old(acrossLast), across[..], tol))
        && (!success ==> across[..] == old(across[..]) && converged == old(converged))
      ensures acrossLast == across[..]
    {
      Stamp(devs);
      var n := across.Length;
      var J := jac;
      var sub := seq(n - 1, r requires 0 <= r < n - 1 reads J => seq(n - 1, c requires 0 <= c < n - 1 reads J => J[r + 1, c + 1]));
      var rhs := bequiv[1..];
      assert forall r | 0 <= r < n - 1 :: sub[r] == ReducedJac(devs, n)[r];
      assert sub == ReducedJac(devs, n);
      assert rhs == ReducedRhs(devs, n);
      var x := solve(sub, rhs);
      if x.Some? {
        var v := x.value;
        forall r | 1 <= r < n {
          across[r] := v[r - 1];
        }
        assert across[1..] == v;
        converged := CheckConvergence(acrossLast, across[..], tol);
        success := true;
      } else {
        success := false;
      }
      acrossLast := across[..];
    }

    /**
     * What one successful Newton iteration left behind: the reduced system of the
     * stamps `devs` was solved, `across[1..]` is its solution, and `converged`
     * compares it with the iterate `prev` it started from.
     */
    ghost predicate SolvedFrom(devs: seq<LocalStamp>, solve: Solver, prev: seq<real>, tol: real)
      reads this, across
      requires Ready()
    {
      var x := solve(ReducedJac(devs, across.Length), ReducedRhs(devs, across.Length));
      && x.Some?
      && across[1..] == x.value
      && converged == WithinTol(prev, across[..], tol)
    }

    /**
     * One time step: Newton iterations until convergence, a solver failure or maxitr
     * iterations, whichever comes first. engines(k, last) are the device stamps of
     * iteration k, given the previous iterate `last`. The ghost `prev` is the iterate
     * the last iteration run started from.
     */
    method Step(engines: (nat, seq<real>) -> seq<LocalStamp>, solve: Solver, maxitr: nat, tol: real)
      returns (success: bool, ghost iterations: nat, ghost prev: seq<real>)
      requires Ready() && SolverShape(solve)
      requires forall k: nat, last: seq<real>, d | d in engines(k, last) :: Fits(d, across.Length)
      modifies jac, bequiv, across, this`converged, this`acrossLast, this`acrossHistory
      ensures iterations <= maxitr
      ensures success ==> converged || iterations == maxitr
      ensures converged ==> success
      ensures maxitr == 0 ==> success && !converged && across[..] == old(across[..])
      ensures across[0] == old(across[0])
      ensures acrossLast == across[..] && acrossHistory == across[..]
      // the first iteration starts from the previous step's last iterate
      ensures (if success then iterations == 1 else iterations == 0) ==> prev == old(acrossLast)
      // a successful step ends on the solution of its last iteration
      ensures success && iterations > 0 ==> SolvedFrom(engines(iterations - 1, prev), solve, prev, tol)
      // a failed step is the solver refusing its last system; across keeps the last good iterate
      ensures !success ==>
        && iterations < maxitr && !converged
        && solve(ReducedJac(engines(iterations, prev), across.Length), ReducedRhs(engines(iterations, prev), across.Length)).None?
        && across[..] == (if iterations == 0 then old(across[..]) else prev)
    {
      success := true;
      var k := 0;
      converged := false;
      prev := acrossLast;
      while k < maxitr && !converged
        invariant 0 <= k <= maxitr
        invariant Ready() && success
        invariant across[0] == old(across[0])
        invariant k == 0 ==> !converged && across[..] == old(across[..]) && acrossLast == old(acrossLast)
        invariant k == 1 ==> prev == old(acrossLast)
        invariant k > 0 ==> acrossLast == across[..] && SolvedFrom(engines(k - 1, prev), solve, prev, tol)
      {
        prev := acrossLast;
        success := MinorStep(engines(k, acrossLast), solve, tol);
        if !success {
          break;
        }
        k := k + 1;
      }
      iterations := k;
      acrossLast := across[..];
      acrossHistory := across[..];
    }

    /**
     * Replace every X instance of the main devices dict by the devices of its
     * subcircuit, registered under mangled names and renamed in place. `order` is
     * the iteration order of the devices dict, `iorder` that of the instances found.
     */
    method Flatten(order: seq<string>, iorder: seq<string>)
      requires Enumerates(order, devices.Keys)
      requires Enumerates(iorder, InstanceKeys(devices))
      modifies this`devices, this`names
      ensures (devices, names) == Flattened(old(devices), old(names), iorder)
    {
      ghost var d0 := devices;
      var instances := RemoveInstances(order);
      ghost var base := devices;
      var j := 0;
      assert iorder[..0] == [];
      while j < |iorder|
        invariant 0 <= j <= |iorder|
        invariant (devices, names) == Place(base, old(names), Placements(InstancesIn(d0, iorder[..j])))
      {
        var sname := iorder[j];
        RegisterInstance(sname, instances[sname], base, old(names), Placements(InstancesIn(d0, iorder[..j])));
        InstancesInStep(d0, iorder, j);
        j := j + 1;
      }
      assert iorder[..|iorder|] == iorder;
    }

    /** The first loop of flatten: take the X instances out of the devices dict. */
    method RemoveInstances(order: seq<string>) returns (instances: map<string, seq<(string, DeviceEntry)>>)
      requires Enumerates(order, devices.Keys)
      modifies this`devices
      ensures instances.Keys == InstanceKeys(old(devices))
      ensures forall key | key in instances :: instances[key] == old(devices)[key].def
      ensures devices == old(devices) - InstanceKeys(old(devices))
    {
      instances := map[];
      var i := 0;
      while i < |order|
        invariant 0 <= i <= |order|
        invariant forall key :: key in instances <==> key in InstanceKeys(old(devices)) && key in order[..i]
        invariant forall key | key in instances :: instances[key] == old(devices)[key].def
        invariant devices == old(devices) - instances.Keys
      {
        var name := order[i];
        assert name !in order[..i];
        var device := devices[name];
        if device.Instance? {
          instances := instances[name := device.def];
          devices := devices - {name};
        }
        assert order[..i + 1] == order[..i] + [name];
        i := i + 1;
      }
      assert order[..|order|] == order;
    }

    /** The inner loop of flatten: register one instance's devices under mangled names. */
    method RegisterInstance(sname: string, def: seq<(string, DeviceEntry)>, ghost base: map<string, DeviceEntry>,
                            ghost names0: map<nat, string>, ghost before: seq<(string, DeviceEntry)>)
      requires (devices, names) == Place(base, names0, before)
      modifies this`devices, this`names
      ensures (devices, names) == Place(base, names0, before + MangleAll(sname, def))
    {
      var m := 0;
      assert def[..0] == [] && before + MangleAll(sname, []) == before;
      while m < |def|
        invariant 0 <= m <= |def|
        invariant (devices, names) == Place(base, names0, before + MangleAll(sname, def[..m]))
      {
        var mangled := sname + "_" + def[m].0;
        devices := devices[mangled := def[m].1];
        names := names[def[m].1.id := mangled];
        assert MangleAll(sname, def[..m + 1]) == MangleAll(sname, def[..m]) + [(mangled, def[m].1)];
        assert before + MangleAll(sname, def[..m + 1]) == (before + MangleAll(sname, def[..m])) + [(mangled, def[m].1)];
        m := m + 1;
      }
      assert def[..|def|] == def;
    }

  }

  /**
   * Zero an n-node system, then scatter-add every device's local stamp:
   * entry (i, j) becomes the sum of the device contributions.
   */
  method Assemble(jac: array2<real>, bequiv: array<real>, devs: seq<LocalStamp>)
    requires jac.Length0 == bequiv.Length && jac.Length1 == bequiv.Length
    requires forall d | d in devs :: Fits(d, bequiv.Length)
    modifies jac, bequiv
    ensures forall i, j | 0 <= i < jac.Length0 && 0 <= j < jac.Length1 :: jac[i, j] == NetJac(devs, i, j)
    ensures forall i | 0 <= i < bequiv.Length :: bequiv[i] == NetRhs(devs, i)
  {
    var n := bequiv.Length;
    var r := 0;
    while r < n
      invariant 0 <= r <= n
      invariant forall i, j | 0 <= i < r && 0 <= j < n :: jac[i, j] == 0.0
    {
      var c := 0;
      while c < n
        invariant 0 <= c <= n
        invariant forall i, j | 0 <= i < r && 0 <= j < n :: jac[i, j] == 0.0
        invariant forall j | 0 <= j < c :: jac[r, j] == 0.0
      {
        jac[r, c] := 0.0;
        c := c + 1;
      }
      r := r + 1;
    }
    r := 0;
    while r < n
      invariant 0 <= r <= n
      invariant forall i, j | 0 <= i < n && 0 <= j < n :: jac[i, j] == 0.0
      invariant forall i | 0 <= i < r :: bequiv[i] == 0.0
    {
      bequiv[r] := 0.0;
      r := r + 1;
    }
    var k := 0;
    while k < |devs|
      invariant 0 <= k <= |devs|
      invariant forall i, j | 0 <= i < n && 0 <= j < n :: jac[i, j] == NetJac(devs[..k], i, j)
      invariant forall i | 0 <= i < n :: bequiv[i] == NetRhs(devs[..k], i)
    {
      ghost var done := devs[..k];
      AddStamp(jac, bequiv, devs[k], (i, j) => NetJac(done, i, j), i => NetRhs(done, i));
      assert devs[..k + 1] == done + [devs[k]];
      forall i, j | 0 <= i < n && 0 <= j < n
        ensures jac[i, j] == NetJac(devs[..k + 1], i, j)
      {
        NetJacAppend(done, devs[k], i, j);
      }
      forall i | 0 <= i < n
        ensures bequiv[i] == NetRhs(devs[..k + 1], i)
      {
        NetRhsAppend(done, devs[k], i);
      }
      k := k + 1;
    }
    assert devs[..|devs|] == devs;
  }

  /** Add one device's contributions on top of the entries `jac0` and `rhs0` already there. */
  method AddStamp(jac: array2<real>, bequiv: array<real>, d: LocalStamp,
                  ghost jac0: (int, int) -> real, ghost rhs0: int -> real)
    requires jac.Length0 == bequiv.Length && jac.Length1 == bequiv.Length && Fits(d, bequiv.Length)
    requires forall i, j | 0 <= i < jac.Length0 && 0 <= j < jac.Length1 :: jac[i, j] == jac0(i, j)
    requires forall i | 0 <= i < bequiv.Length :: bequiv[i] == rhs0(i)
    modifies jac, bequiv
    ensures forall i, j | 0 <= i < jac.Length0 && 0 <= j < jac.Length1 :: jac[i, j] == jac0(i, j) + DevJac(d, i, j)
    ensures forall i | 0 <= i < bequiv.Length :: bequiv[i] == rhs0(i) + DevRhs(d, i)
  {
    AddSources(bequiv, d, rhs0);
    AddRows(jac, d, jac0);
  }

  /** Add d's local source vector to the system vector. */
  method AddSources(bequiv: array<real>, d: LocalStamp, ghost rhs0: int -> real)
    requires Fits(d, bequiv.Length)
    requires forall i | 0 <= i < bequiv.Length :: bequiv[i] == rhs0(i)
    modifies bequiv
    ensures forall i | 0 <= i < bequiv.Length :: bequiv[i] == rhs0(i) + DevRhs(d, i)
  {
    var a := 0;
    while a < |d.ports|
      invariant 0 <= a <= |d.ports|
      invariant forall i | 0 <= i < bequiv.Length :: bequiv[i] == RhsAcc(rhs0, d, a, i)
    {
      AddSource(bequiv, d, a, rhs0);
      a := a + 1;
    }
  }

  /** Add d's local matrix to the system matrix. */
  method AddRows(jac: array2<real>, d: LocalStamp, ghost jac0: (int, int) -> real)
    requires jac.Length0 == jac.Length1 && Fits(d, jac.Length0)
    requires forall i, j | 0 <= i < jac.Length0 && 0 <= j < jac.Length1 :: jac[i, j] == jac0(i, j)
    modifies jac
    ensures forall i, j | 0 <= i < jac.Length0 && 0 <= j < jac.Length1 :: jac[i, j] == jac0(i, j) + DevJac(d, i, j)
  {
    var a := 0;
    while a < |d.ports|
      invariant 0 <= a <= |d.ports|
      invariant forall i, j | 0 <= i < jac.Length0 && 0 <= j < jac.Length1 :: jac[i, j] == JacAcc(jac0, d, a, 0, i, j)
    {
      AddRow(jac, d, a, jac0);
      a := a + 1;
    }
  }

  /** Add the local source entry of d's port a to the system vector. */
  method AddSource(bequiv: array<real>, d: LocalStamp, a: nat, ghost rhs0: int -> real)
    requires Fits(d, bequiv.Length) && a < |d.ports|
    requires forall i | 0 <= i < bequiv.Length :: bequiv[i] == RhsAcc(rhs0, d, a, i)
    modifies bequiv
    ensures forall i | 0 <= i < bequiv.Length :: bequiv[i] == RhsAcc(rhs0, d, a + 1, i)
  {
    var (pi, ni) := d.ports[a];
    bequiv[ni] := bequiv[ni] + d.bequiv[pi];
    forall i | 0 <= i < bequiv.Length
      ensures bequiv[i] == RhsAcc(rhs0, d, a + 1, i)
    {
      RhsAccStep(rhs0, d, a, i);
    }
  }

  /** Add the pairs of row a of d's local matrix to the system matrix. */
  method AddRow(jac: array2<real>, d: LocalStamp, a: nat, ghost jac0: (int, int) -> real)
    requires jac.Length0 == jac.Length1 && Fits(d, jac.Length0) && a < |d.ports|
    requires forall i, j | 0 <= i < jac.Length0 && 0 <= j < jac.Length1 :: jac[i, j] == JacAcc(jac0, d, a, 0, i, j)
    modifies jac
    ensures forall i, j | 0 <= i < jac.Length0 && 0 <= j < jac.Length1 :: jac[i, j] == JacAcc(jac0, d, a + 1, 0, i, j)
  {
    var n := jac.Length0;
    var m := |d.ports|;
    var (pi, ni) := d.ports[a];
    var b := 0;
    while b < m
      invariant 0 <= b <= m
      invariant forall i, j | 0 <= i < n && 0 <= j < n :: jac[i, j] == JacAcc(jac0, d, a, b, i, j)
    {
      var (pj, nj) := d.ports[b];
      label cell:
      jac[ni, nj] := jac[ni, nj] + d.jac[pi][pj];
      forall i, j | 0 <= i < n && 0 <= j < n
        ensures jac[i, j] == JacAcc(jac0, d, a, b + 1, i, j)
      {
        assert old@cell(jac[i, j]) == JacAcc(jac0, d, a, b, i, j);
        JacAccStep(jac0, d, a, b, i, j);
      }
      b := b + 1;
    }
    forall i, j | 0 <= i < n && 0 <= j < n
      ensures jac[i, j] == JacAcc(jac0, d, a + 1, 0, i, j)
    {
      JacAccRow(jac0, d, a, i, j);
    }
  }

  /** The system entry (i, j) after the rows before a, and the first b pairs of row a, of d. */
  ghost function JacAcc(jac0: (int, int) -> real, d: LocalStamp, a: nat, b: nat, i: int, j: int): real
  {
    jac0(i, j) + Sum(a, RowSums(|d.ports|, Pairs(d, i, j))) + Sum(b, Row(Pairs(d, i, j), a))
  }

  ghost function RhsAcc(rhs0: int -> real, d: LocalStamp, a: nat, i: int): real
  {
    rhs0(i) + Sum(a, Rhs(d, i))
  }

  lemma JacAccStep(jac0: (int, int) -> real, d: LocalStamp, a: nat, b: nat, i: int, j: int)
    requires a < |d.ports| && b < |d.ports|
    ensures JacAcc(jac0, d, a, b + 1, i, j) == JacAcc(jac0, d, a, b, i, j) +
      (if d.ports[a].1 == i && d.ports[b].1 == j then Entry(d.jac, d.ports[a].0, d.ports[b].0) else 0.0)
  {
  }

  lemma JacAccRow(jac0: (int, int) -> real, d: LocalStamp, a: nat, i: int, j: int)
    requires a < |d.ports|
    ensures JacAcc(jac0, d, a + 1, 0, i, j) == JacAcc(jac0, d, a, |d.ports|, i, j)
  {
  }

  lemma RhsAccStep(rhs0: int -> real, d: LocalStamp, a: nat, i: int)
    requires a < |d.ports| && 0 <= d.ports[a].0 < |d.bequiv|
    ensures RhsAcc(rhs0, d, a + 1, i) == RhsAcc(rhs0, d, a, i) +
      (if d.ports[a].1 == i then d.bequiv[d.ports[a].0] else 0.0)
  {
  }

  lemma InstancesInStep(devs: map<string, DeviceEntry>, iorder: seq<string>, j: int)
    requires 0 <= j < |iorder| && iorder[j] in InstanceKeys(devs)
    ensures Placements(InstancesIn(devs, iorder[..j + 1]))
         == Placements(InstancesIn(devs, iorder[..j])) + MangleAll(iorder[j], devs[iorder[j]].def)
  {
    assert iorder[..j + 1][..j] == iorder[..j];
    var insts := InstancesIn(devs, iorder[..j + 1]);
    assert insts[..|insts| - 1] == InstancesIn(devs, iorder[..j]);
  }
}
