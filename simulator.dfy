// The fixed-step transient driver and the trace extraction of the plot command.
module Simulator {
  import opened Wrappers
  import opened PyOps
  import opened Netlist

  /** The simulator's defaults for the Newton iteration cap and tolerance. */
  const DefaultMaxitr: nat := 100
  const DefaultTol: real := 0.001

  /**
   * What netlist.step hands back to trans: the netlist returns a single bool,
   * while trans unpacks a (success, iterations) pair.
   */
  datatype StepReturn = Single(ok: bool) | Pair(ok: bool, k: nat)

  /** `success, k = r`: unpacking a bool raises TypeError. */
  function Unpack(r: StepReturn): (u: Result<(bool, nat)>)
    ensures u.Ok? <==> r.Pair?
    ensures r.Single? ==> u == Err(TypeError)
    ensures r.Pair? ==> u.value == (r.ok, r.k)
  {
    match r
    case Single(_) => Err(TypeError)
    case Pair(ok, k) => Ok((ok, k))
  }

  /**
   * The calls the driver makes, in order. NetStep records the two arguments as
   * passed: trans passes (tstep, time) to netlist.step(t, dt).
   */
  datatype Call = Hook(dt: real, t: real) | Update(device: string) | NetStep(arg1: real, arg2: real)

  /** One iteration at time t: the hook, update() on each device in dict order, then step. */
  function IterationCalls(tstep: real, t: real, order: seq<string>): (cs: seq<Call>)
  {
    [Hook(tstep, t)] + Updates(order) + [NetStep(tstep, t)]
  }

  function Updates(order: seq<string>): seq<Call>
  {
    if order == [] then [] else [Update(order[0])] + Updates(order[1..])
  }

  /** The time after i steps, accumulated as the driver does: one tstep per step. */
  function Elapsed(i: nat, tstep: real): real
  {
    if i == 0 then 0.0 else Elapsed(i - 1, tstep) + tstep
  }

  /** In exact arithmetic the accumulated time is i * tstep. */
  lemma {:induction false} ElapsedExact(i: nat, tstep: real)
    ensures Elapsed(i, tstep) == i as real * tstep
  {
    if i > 0 {
      ElapsedExact(i - 1, tstep);
    }
  }

  /** The calls of the first m iterations; iteration i runs at time Elapsed(i). */
  function Calls(tstep: real, order: seq<string>, m: nat): seq<Call>
  {
    if m == 0 then [] else Calls(tstep, order, m - 1) + IterationCalls(tstep, Elapsed(m - 1, tstep), order)
  }

  /** Each iteration calls the hook first, then update() on every device in order, then step. */
  lemma IterationCallsOrder(tstep: real, t: real, order: seq<string>)
    ensures var cs := IterationCalls(tstep, t, order);
      && |cs| == |order| + 2 && cs[0] == Hook(tstep, t) && cs[|cs| - 1] == NetStep(tstep, t)
      && forall k | 0 <= k < |order| :: cs[k + 1] == Update(order[k])
  {
    UpdatesSpec(order);
  }

  lemma {:induction false} UpdatesSpec(order: seq<string>)
    ensures |Updates(order)| == |order| && forall k | 0 <= k < |order| :: Updates(order)[k] == Update(order[k])
  {
    if order != [] {
      UpdatesSpec(order[1..]);
    }
  }

  lemma {:induction false} CallsLength(tstep: real, order: seq<string>, m: nat)
    ensures |Calls(tstep, order, m)| == m * (|order| + 2)
  {
    if m > 0 {
      CallsLength(tstep, order, m - 1);
      UpdatesSpec(order);
    }
  }

  /** One step of the loop, from the point of view of the whole run started at 0. */
  lemma RunStep(i: nat, n: nat, results: nat -> StepReturn)
    requires i <= n && Run(0, n, results) == Run(i, n, results)
    ensures var o := Run(0, n, results);
      && (i == n ==> o == Finished(n) && Started(o, n) == n && Recorded(o) == n)
      && (i < n && results(i).Single? ==> o == Halted(TypeError, i) && Started(o, n) == i + 1 && Recorded(o) == i)
      && (i < n && results(i).Pair? && !results(i).ok ==> o == Finished(i) && Started(o, n) == i + 1 && Recorded(o) == i)
      && (i < n && results(i).Pair? && results(i).ok ==> o == Run(i + 1, n, results))
  {
  }

  /** How the sample loop ends: an exception at sample `at`, or `completed` samples recorded. */
  datatype RunOutcome = Halted(error: PyError, at: nat) | Finished(completed: nat)

  /** The loop from sample i on: stop at the first raise or the first failed step. */
  function Run(i: nat, n: nat, results: nat -> StepReturn): (o: RunOutcome)
    ensures i <= n ==> i <= Recorded(o) <= n
    decreases n - i
  {
    if i >= n then Finished(n)
    else match Unpack(results(i))
      case Err(e) => Halted(e, i)
      case Ok(p) => if !p.0 then Finished(i) else Run(i + 1, n, results)
  }

  /** The samples the loop records before it stops. */
  function Recorded(o: RunOutcome): nat
  {
    match o
    case Halted(_, at) => at
    case Finished(c) => c
  }

  /** The iterations the loop starts: the recorded ones and the one that stopped it, if any. */
  function Started(o: RunOutcome, n: nat): nat
  {
    match o
    case Halted(_, at) => at + 1
    case Finished(c) => if c < n then c + 1 else n
  }

  /**
   * What the loop does, stated without the recursion: every sample before the stop
   * succeeded, and the stop is the first Single return, the first failed step, or n.
   */
  lemma {:induction false} RunSpec(i: nat, n: nat, results: nat -> StepReturn)
    requires i <= n
    ensures var o := Run(i, n, results);
      && i <= Recorded(o) <= n
      && (forall j | i <= j < Recorded(o) :: results(j).Pair? && results(j).ok)
      && (o.Halted? ==> o.error == TypeError && o.at < n && results(o.at).Single?)
      && (o.Finished? && o.completed < n ==> results(o.completed).Pair? && !results(o.completed).ok)
    decreases n - i
  {
    if i < n && results(i).Pair? && results(i).ok {
      RunSpec(i + 1, n, results);
    }
  }

  /**
   * As written, netlist.step returns one bool, so the unpacking in trans raises
   * TypeError in the very first sample and nothing is recorded.
   */
  lemma BoolStepAborts(n: nat, results: nat -> StepReturn)
    requires n >= 1 && forall i :: results(i).Single?
    ensures Run(0, n, results) == Halted(TypeError, 0)
    ensures Recorded(Run(0, n, results)) == 0
  {
  }

  /** With the (success, iterations) pair trans expects, all n samples are recorded when every step succeeds. */
  lemma {:induction false} PairStepsRecordAll(i: nat, n: nat, results: nat -> StepReturn)
    requires i <= n && forall j :: results(j).Pair? && results(j).ok
    ensures Run(i, n, results) == Finished(n)
    decreases n - i
  {
    if i < n {
      PairStepsRecordAll(i + 1, n, results);
    }
  }

  class Simulator {
    var t: real
    var tmax: real
    var maxitr: nat
    var tol: real
    var transData: array2<real>
    var transTime: array<real>
    var calls: seq<Call>

    constructor (maxitr: nat, tol: real)
      ensures this.maxitr == maxitr && this.tol == tol && t == 0.0 && tmax == 0.0 && calls == []
      ensures transData.Length0 == 0 && transTime.Length == 0
    {
      this.maxitr := maxitr;
      this.tol := tol;
      t := 0.0;
      tmax := 0.0;
      transData := new real[0, 0];
      transTime := new real[0];
      calls := [];
    }

    /**
     * The transient analysis: n = int(tstop / tstep) + 1 samples, zero-initialised
     * nodenum x n data and n times, then one iteration per sample until a step fails.
     * results(i) is what netlist.step returns at sample i and acrossAfter(i) the
     * solution it leaves. Returns the number of samples recorded, or the exception.
     */
    method Trans(tstep: real, tstop: real, nodenum: nat, order: seq<string>,
                 results: nat -> StepReturn, acrossAfter: nat -> seq<real>) returns (r: Result<nat>)
      requires forall i :: |acrossAfter(i)| == nodenum
      modifies this
      ensures tstep == 0.0 ==> r == Err(ZeroDivisionError) && calls == old(calls)
      ensures tstep != 0.0 && Trunc(tstop / tstep) + 1 < 0 ==> r == Err(ValueError) && calls == old(calls)
      ensures tstep != 0.0 && Trunc(tstop / tstep) + 1 >= 0 ==>
        && fresh(transData) && fresh(transTime) && tmax == tstop
        && transData.Length0 == nodenum && transData.Length1 == Trunc(tstop / tstep) + 1
        && SamplesDone(transData, transTime, t, tstep, Trunc(tstop / tstep) + 1, results, acrossAfter, r)
        && calls == old(calls) + Calls(tstep, order, Started(Run(0, Trunc(tstop / tstep) + 1, results), Trunc(tstop / tstep) + 1))
    {
      if tstep == 0.0 {
        return Err(ZeroDivisionError);
      }
      var n := Trunc(tstop / tstep) + 1;
      tmax := tstop;
      if n < 0 {
        return Err(ValueError);
      }
      transData := new real[nodenum, n]((_, _) => 0.0);
      transTime := new real[n](_ => 0.0);
      t := 0.0;
      ghost var started;
      r, started := Samples(tstep, n, order, results, acrossAfter);
    }

    /** The sample loop of trans, over freshly zeroed arrays. */
    method Samples(tstep: real, n: nat, order: seq<string>,
                   results: nat -> StepReturn, acrossAfter: nat -> seq<real>) returns (r: Result<nat>, ghost started: nat)
      requires forall i :: |acrossAfter(i)| == transData.Length0
      requires transData.Length1 == n && transTime.Length == n && t == 0.0
      requires Filled(transData, transTime, 0, tstep, acrossAfter)
      modifies this`t, this`calls, transData, transTime
      ensures SamplesDone(transData, transTime, t, tstep, n, results, acrossAfter, r)
      ensures started == Started(Run(0, n, results), n)
      ensures calls == old(calls) + Calls(tstep, order, started)
    {
      var i := 0;
      while i < n
        invariant 0 <= i <= n && InProgress(i, tstep, n, order, results, acrossAfter, old(calls))
      {
        var stop;
        stop, r := Iteration(i, tstep, n, order, results, acrossAfter, old(calls));
        if stop {
          return r, i + 1;
        }
        i := i + 1;
      }
      RunStep(n, n, results);
      return Ok(n), n;
    }

    /** The loop state before iteration i: time, log and samples of the first i iterations. */
    ghost predicate InProgress(i: nat, tstep: real, n: nat, order: seq<string>,
                               results: nat -> StepReturn, acrossAfter: nat -> seq<real>, calls0: seq<Call>)
      reads this, transData, transTime
    {
      && (forall j :: |acrossAfter(j)| == transData.Length0)
      && transData.Length1 == n && transTime.Length == n && t == Elapsed(i, tstep)
      && Run(0, n, results) == Run(i, n, results)
      && calls == calls0 + Calls(tstep, order, i)
      && Filled(transData, transTime, i, tstep, acrossAfter)
    }

    /** One iteration of the sample loop: stop with the result, or record sample i. */
    method Iteration(i: nat, tstep: real, n: nat, order: seq<string>,
                     results: nat -> StepReturn, acrossAfter: nat -> seq<real>, ghost calls0: seq<Call>)
      returns (stop: bool, r: Result<nat>)
      requires i < n && InProgress(i, tstep, n, order, results, acrossAfter, calls0)
      modifies this`t, this`calls, transData, transTime
      ensures stop ==> SamplesDone(transData, transTime, t, tstep, n, results, acrossAfter, r)
                       && Started(Run(0, n, results), n) == i + 1
                       && calls == calls0 + Calls(tstep, order, i + 1)
      ensures !stop ==> InProgress(i + 1, tstep, n, order, results, acrossAfter, calls0)
    {
      LogIteration(i, tstep, order, calls0);
      var u := Unpack(results(i));
      RunStep(i, n, results);
      if u.Err? {
        return true, Err(u.error);
      }
      var (success, k) := u.value;
      if !success {
        return true, Ok(i);
      }
      t := t + tstep;
      RecordSample(i, tstep, acrossAfter);
      return false, Ok(i);
    }

    /** Log the calls of iteration i, made at time t. */
    method LogIteration(i: nat, tstep: real, order: seq<string>, ghost calls0: seq<Call>)
      requires calls == calls0 + Calls(tstep, order, i) && t == Elapsed(i, tstep)
      modifies this`calls
      ensures calls == calls0 + Calls(tstep, order, i + 1)
    {
      calls := calls + IterationCalls(tstep, t, order);
      assert calls0 + Calls(tstep, order, i + 1) == calls0 + Calls(tstep, order, i) + IterationCalls(tstep, t, order);
    }

    /** Record sample i: its time and its solution column. */
    method RecordSample(i: int, tstep: real, acrossAfter: nat -> seq<real>)
      requires 0 <= i < transData.Length1 && |acrossAfter(i)| == transData.Length0
      requires Filled(transData, transTime, i, tstep, acrossAfter)
      modifies transData, transTime
      ensures Filled(transData, transTime, i + 1, tstep, acrossAfter)
    {
      RecordTime(i, tstep);
      RecordColumn(i, acrossAfter(i));
      assert ColumnsFilled(transData, i + 1, acrossAfter);
    }

    /** trans_time[i] = i * tstep. */
    method RecordTime(i: int, tstep: real)
      requires 0 <= i < transTime.Length && TimesFilled(transTime, i, tstep)
      modifies transTime
      ensures TimesFilled(transTime, i + 1, tstep)
    {
      transTime[i] := i as real * tstep;
    }

    /** trans_data[:, i] = copy(across). */
    method RecordColumn(i: int, across: seq<real>)
      requires 0 <= i < transData.Length1 && |across| == transData.Length0
      modifies transData
      ensures forall row | 0 <= row < transData.Length0 :: transData[row, i] == across[row]
      ensures forall row, j | 0 <= row < transData.Length0 && 0 <= j < transData.Length1 && j != i ::
        transData[row, j] == old(transData[row, j])
    {
      var row := 0;
      while row < transData.Length0
        invariant 0 <= row <= transData.Length0
        invariant forall r | 0 <= r < row :: transData[r, i] == across[r]
        invariant forall r, j | 0 <= r < transData.Length0 && 0 <= j < transData.Length1 && (j != i || r >= row) ::
          transData[r, j] == old(transData[r, j])
      {
        transData[row, i] := across[row];
        row := row + 1;
      }
    }
  }

  /**
   * The state after the sample loop: it stopped where Run says, every recorded
   * sample holds its time and its solution, every later sample is still zero.
   */
  ghost predicate SamplesDone(data: array2<real>, time: array<real>, t: real, tstep: real, n: nat,
                              results: nat -> StepReturn, acrossAfter: nat -> seq<real>, r: Result<nat>)
    reads data, time
  {
    var o := Run(0, n, results);
    var m := Recorded(o);
    && data.Length1 == n && time.Length == n
    && r == (match o case Halted(e, _) => Err(e) case Finished(c) => Ok(c))
    && t == Elapsed(m, tstep)
    && Filled(data, time, m, tstep, acrossAfter)
  }

  /** Samples before m hold their time and solution; samples from m on are still zero. */
  ghost predicate Filled(data: array2<real>, time: array<real>, m: int, tstep: real, acrossAfter: nat -> seq<real>)
    reads data, time
  {
    && 0 <= m <= data.Length1 && time.Length == data.Length1
    && TimesFilled(time, m, tstep)
    && ColumnsFilled(data, m, acrossAfter)
  }

  /** The first m sample times are set and the rest are still zero. */
  ghost predicate TimesFilled(time: array<real>, m: nat, tstep: real)
    reads time
  {
    && (forall i | 0 <= i < m && i < time.Length :: time[i] == i as real * tstep)
    && (forall i | m <= i < time.Length :: time[i] == 0.0)
  }

  /** The first m columns hold their solutions and the rest are still zero. */
  ghost predicate ColumnsFilled(data: array2<real>, m: nat, acrossAfter: nat -> seq<real>)
    reads data
  {
    && (forall i | 0 <= i < m :: |acrossAfter(i)| == data.Length0)
    && (forall row, i | 0 <= row < data.Length0 && 0 <= i < m && i < data.Length1 :: data[row, i] == acrossAfter(i)[row])
    && (forall row, i | 0 <= row < data.Length0 && m <= i < data.Length1 :: data[row, i] == 0.0)
  }

  // ---------------------------------------------------------------------------
  // Trace extraction
  // ---------------------------------------------------------------------------

  /** A nodes x samples table whose rows all have `width` samples. */
  predicate Rect(data: seq<seq<real>>, width: nat)
  {
    forall row | row in data :: |row| == width
  }

  /** Every registered node indexes a row of the data. */
  predicate RowsFor(data: seq<seq<real>>, nodes: map<NodeKey, int>)
  {
    forall key | key in nodes :: 0 <= nodes[key] < |data|
  }

  /** The Voltage(node1, node2) trace: row(node1) - row(node2); KeyError on an unknown node. */
  function VoltageTrace(data: seq<seq<real>>, width: nat, nodes: map<NodeKey, int>, node1: NodeKey, node2: NodeKey)
    : (r: Result<seq<real>>)
    requires Rect(data, width) && RowsFor(data, nodes)
    ensures r.Err? <==> node1 !in nodes || node2 !in nodes
    ensures r.Err? ==> r.error == KeyError
    ensures r.Ok? ==> |r.value| == width
  {
    if node1 !in nodes || node2 !in nodes then Err(KeyError)
    else
      var a := data[nodes[node1]];
      var b := data[nodes[node2]];
      Ok(seq(width, c requires 0 <= c < width => a[c] - b[c]))
  }

  /** Swapping the nodes negates the trace. */
  lemma VoltageAntisymmetric(data: seq<seq<real>>, width: nat, nodes: map<NodeKey, int>, node1: NodeKey, node2: NodeKey)
    requires Rect(data, width) && RowsFor(data, nodes) && node1 in nodes && node2 in nodes
    ensures forall c | 0 <= c < width ::
      VoltageTrace(data, width, nodes, node1, node2).value[c] == -VoltageTrace(data, width, nodes, node2, node1).value[c]
  {
  }

  /** Against ground, whose row the solver never writes, the trace is the node's own row. */
  lemma VoltageToGround(data: seq<seq<real>>, width: nat, nodes: map<NodeKey, int>, node1: NodeKey)
    requires Rect(data, width) && RowsFor(data, nodes) && node1 in nodes
    requires IntKey(0) in nodes && nodes[IntKey(0)] == 0
    requires forall c | 0 <= c < width :: data[0][c] == 0.0
    ensures VoltageTrace(data, width, nodes, node1, IntKey(0)).value == data[nodes[node1]]
  {
  }

  /**
   * The Current(name) trace. sensors maps each device name to its current node and
   * sign when the device is a CurrentSensor, to None otherwise (no trace).
   */
  function CurrentTrace(data: seq<seq<real>>, width: nat, sensors: map<string, Option<(int, real)>>, name: string)
    : (r: Result<Option<seq<real>>>)
    requires Rect(data, width)
    requires forall s | s in sensors && sensors[s].Some? :: 0 <= sensors[s].value.0 < |data|
    ensures r.Err? <==> name !in sensors
    ensures r.Ok? ==> (r.value.Some? <==> sensors[name].Some?)
    ensures r.Ok? && r.value.Some? ==> |r.value.value| == width
  {
    if name !in sensors then Err(KeyError)
    else match sensors[name]
      case None => Ok(None)
      case Some(ns) =>
        var row := data[ns.0];
        Ok(Some(seq(width, c requires 0 <= c < width => row[c] * ns.1)))
  }

  /** With the sign -1.0 the sensors report, the trace is the negated current-node row. */
  lemma CurrentTraceSign(data: seq<seq<real>>, width: nat, sensors: map<string, Option<(int, real)>>, name: string)
    requires Rect(data, width)
    requires forall s | s in sensors && sensors[s].Some? :: 0 <= sensors[s].value.0 < |data|
    requires name in sensors && sensors[name].Some? && sensors[name].value.1 == -1.0
    ensures forall c | 0 <= c < width ::
      CurrentTrace(data, width, sensors, name).value.value[c] == -data[sensors[name].value.0][c]
  {
  }
}
