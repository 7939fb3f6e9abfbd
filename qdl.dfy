// The quantised state system engine (DEVS-LIM): atoms integrate their
// derivative and publish a quantised value that moves in steps of dq; the
// system advances simulated time from one atom event to the next and lets
// triggered atoms catch up.
module Qdl {
  import opened Wrappers

  /** _EPS, the smallest time advance and the derivative treated as zero. */
  const Eps: real := 0.000000000000001

  /** _MAXITER, the bound on the passes of the trigger loop. */
  const MaxIter: nat := 1000

  /** DEF_DTMIN, the system's default minimum time step. */
  const DefDtMin: real := 0.000000000001

  /** DEF_DMAX, the system's default maximum derivative. */
  const DefDMax: real := 100000.0

  /** The dmax an atom is built with when none is passed. */
  const AtomDMax: real := 10000000000.0

  /** Python's truth test on an optional number: None and 0.0 are false. */
  predicate Truthy(o: Option<real>)
  {
    o.Some? && o.value != 0.0
  }

  /** min over floats that may be infinite. */
  function MinE(a: ExtReal, b: ExtReal): (r: ExtReal)
    ensures r == a || r == b
    ensures r.PosInf? <==> a.PosInf? && b.PosInf?
    ensures r.Fin? && a.Fin? ==> r.r <= a.r
    ensures r.Fin? && b.Fin? ==> r.r <= b.r
  {
    if a.PosInf? then b else if b.PosInf? then a else if b.r < a.r then b else a
  }

  /** max(a, b) with a possibly infinite and b finite. */
  function MaxE(a: ExtReal, b: real): (r: ExtReal)
    ensures a.PosInf? ==> r.PosInf?
    ensures a.Fin? ==> r.Fin? && r.r >= a.r && r.r >= b && (r.r == a.r || r.r == b)
  {
    if a.PosInf? then PosInf else if b > a.r then Fin(b) else a
  }

  /** The source kinds; the strings of SourceType. */
  datatype SourceType = NoSource | Constant | Step | Sine | Pwm | Ramp | Function

  /** A device's coefficient function, named by the device class and its static method. */
  datatype CoefFn = CoefFn(owner: string, fn: string)

  /** What a SourceAtom keeps of its constructor arguments (u0 already replaced by u1 for a ramp). */
  datatype SourceParams = SourceParams(
    sourceType: SourceType, u0: real, u1: real, u2: real, ua: real, freq: real, phi: real,
    duty: real, t1: real, t2: real, rampSlope: real)

  /** The two kinds of atom: one that integrates, one that follows a source waveform. */
  datatype Kind =
    | StateKind(coefficient: real, coeffunc: Option<CoefFn>)
    | SourceKind(p: SourceParams)

  /**
   * What a source's user function and its sine evaluate to at the current
   * time: srcfunc's value, u0 + ua*sin(...), the sine's derivative and the
   * sine's next quantum crossing.
   */
  datatype SourceEnv = SourceEnv(funcValue: real, sineValue: real, sineSlope: real, sineNext: ExtReal)

  /** The output arrays: event times, quantised values and update counts, and the zero-order-hold pair. */
  datatype Trace = Trace(tout: seq<real>, qout: seq<real>, nupd: seq<int>, tzoh: seq<real>, qzoh: seq<real>)

  /** initialize's first sample and every save's two zero-order-hold points keep the arrays in step. */
  predicate Aligned(tr: Trace)
  {
    && |tr.tout| >= 1 && |tr.qout| == |tr.tout| && |tr.nupd| == |tr.tout|
    && |tr.tzoh| == 2 * |tr.tout| - 1 && |tr.qzoh| == |tr.tzoh|
  }

  /** save's appends: one output sample, and the old and new value at the same time on the hold. */
  function Appended(tr: Trace, time: real, q: real, q0: real, updates: int): (r: Trace)
    ensures Aligned(tr) ==> Aligned(r)
    ensures |r.tout| == |tr.tout| + 1 && r.tout[..|tr.tout|] == tr.tout && r.tout[|tr.tout|] == time
    ensures |r.qout| == |tr.qout| + 1 && r.qout[..|tr.qout|] == tr.qout && r.qout[|tr.qout|] == q
    ensures |r.qzoh| == |tr.qzoh| + 2 && r.qzoh[..|tr.qzoh|] == tr.qzoh && r.qzoh[|tr.qzoh|] == q0 && r.qzoh[|tr.qzoh| + 1] == q
    ensures |r.tzoh| == |tr.tzoh| + 2 && r.tzoh[..|tr.tzoh|] == tr.tzoh && r.tzoh[|tr.tzoh|] == time && r.tzoh[|tr.tzoh| + 1] == time
  {
    Trace(tr.tout + [time], tr.qout + [q], tr.nupd + [updates], tr.tzoh + [time, time], tr.qzoh + [q0, q])
  }

  /**
   * update_dq's new quantum: Ok(None) when dqerr is falsy or not positive,
   * when neither bound is truthy, or when the bounds are closer than _EPS;
   * a TypeError when one bound is None; otherwise |dqerr*q| clamped to the bounds.
   */
  function DqUpdate(dqerr: Option<real>, dqmin: Option<real>, dqmax: Option<real>, q: real): (r: Result<Option<real>>)
    ensures !Truthy(dqerr) || dqerr.value <= 0.0 || !(Truthy(dqmin) || Truthy(dqmax)) ==> r == Ok(None)
    ensures r.Err? <==> Truthy(dqerr) && dqerr.value > 0.0 && (Truthy(dqmin) || Truthy(dqmax)) && (dqmin.None? || dqmax.None?)
    ensures r.Err? ==> r.error == TypeError
    ensures r.Ok? && r.value.Some? ==> dqmin.Some? && dqmax.Some? && dqmin.value <= r.value.value <= dqmax.value
    ensures r.Ok? && r.value.Some? && dqmin.value <= Abs(dqerr.value * q) <= dqmax.value ==> r.value.value == Abs(dqerr.value * q)
    ensures r.Ok? && r.value.None? && dqmin.Some? && dqmax.Some? && Truthy(dqerr) && dqerr.value > 0.0 && (Truthy(dqmin) || Truthy(dqmax))
            ==> dqmax.value - dqmin.value < Eps
  {
    if !Truthy(dqerr) || dqerr.value <= 0.0 then Ok(None)
    else if !(Truthy(dqmin) || Truthy(dqmax)) then Ok(None)
    else if dqmin.None? || dqmax.None? then Err(TypeError)
    else if dqmax.value - dqmin.value < Eps then Ok(None)
    else Ok(Some(Min(dqmax.value, Max(dqmin.value, Abs(dqerr.value * q)))))
  }

  function Abs(v: real): (r: real)
    ensures r >= 0.0 && (r == v || r == -v)
  {
    if v < 0.0 then -v else v
  }

  function Min(a: real, b: real): (r: real)
    ensures r <= a && r <= b && (r == a || r == b)
  {
    if b < a then b else a
  }

  function Max(a: real, b: real): (r: real)
    ensures r >= a && r >= b && (r == a || r == b)
  {
    if b > a then b else a
  }

  /**
   * The waveform value SourceAtom.dint computes before slew limiting:
   * FUNCTION and SINE through the environment, CONSTANT u0, STEP u0 before
   * t1 and u1 from t1, RAMP u1 up to t1, then u1 + (time - t1)*d up to t2,
   * then u2. PWM and NONE leave the value unbound: a NameError.
   */
  function Waveform(p: SourceParams, time: real, d: real, env: SourceEnv): (r: Result<real>)
    ensures r.Err? <==> p.sourceType == Pwm || p.sourceType == NoSource
    ensures p.sourceType == Step ==> r == Ok(if time < p.t1 then p.u0 else p.u1)
    ensures p.sourceType == Constant ==> r == Ok(p.u0)
    ensures p.sourceType == Ramp && time <= p.t1 ==> r == Ok(p.u1)
    ensures p.sourceType == Ramp && time > p.t2 && p.t2 >= p.t1 ==> r == Ok(p.u2)
  {
    match p.sourceType
    case Function => Ok(env.funcValue)
    case Constant => Ok(p.u0)
    case Step => Ok(if time < p.t1 then p.u0 else p.u1)
    case Sine => Ok(if time >= p.t1 then env.sineValue else p.u0)
    case Pwm => Err(NameError)
    case Ramp => Ok(if time <= p.t1 then p.u1 else if time <= p.t2 then p.u1 + (time - p.t1) * d else p.u2)
    case NoSource => Err(NameError)
  }

  /** Between t1 and t2 a ramp's value is u1 plus the slope times the time since t1. */
  lemma RampBetween(p: SourceParams, time: real, d: real, env: SourceEnv)
    requires p.sourceType == Ramp && p.t1 < time <= p.t2
    ensures Waveform(p, time, d, env) == Ok(p.u1 + (time - p.t1) * d)
  {
    var r := Waveform(p, time, d, env);
    assert r.Ok?;
    assert r.value == p.u1 + (time - p.t1) * d;
  }

  /** A ramp whose slope is the constructor's ramp_slope meets u2 exactly at t2: the waveform is continuous. */
  lemma RampMeetsEnd(p: SourceParams, env: SourceEnv)
    requires p.sourceType == Ramp && p.t2 > p.t1 && p.rampSlope == (p.u2 - p.u1) / (p.t2 - p.t1)
    ensures Waveform(p, p.t2, p.rampSlope, env) == Ok(p.u2)
    ensures Waveform(p, p.t1, p.rampSlope, env) == Ok(p.u1)
  {
    RampBetween(p, p.t2, p.rampSlope, env);
    var w := Waveform(p, p.t2, p.rampSlope, env);
    assert w.value == p.u1 + (p.t2 - p.t1) * p.rampSlope;
    assert (p.t2 - p.t1) * ((p.u2 - p.u1) / (p.t2 - p.t1)) == p.u2 - p.u1;
    assert w.value == p.u2;
  }

  /**
   * dint's slew limiting: with the slew rate enabled, a rise is cut to
   * u_prev + bound and a fall to u_prev - bound, where bound is
   * dmax*dq*(time - tlast); an unchanged value stays.
   */
  function Slewed(target: real, prev: real, bound: real, slewrate: bool): (u: real)
    ensures !slewrate ==> u == target
    ensures slewrate && bound >= 0.0 ==> -bound <= u - prev <= bound
    ensures slewrate && bound >= 0.0 ==> Min(prev, target) <= u <= Max(prev, target)
    ensures slewrate && -bound <= target - prev <= bound ==> u == target
  {
    if !slewrate then target
    else if target > prev then Min(target, bound + prev)
    else if target < prev then Max(target, -bound + prev)
    else prev
  }

  /** dint's move: x carried along the slope d from tlast to time. */
  function Dint(x: real, d: real, tlast: real, time: real): (r: real)
    ensures time == tlast || d == 0.0 ==> r == x
    ensures d > 0.0 && time > tlast ==> r > x
  {
    x + d * (time - tlast)
  }

  /** The slew bound dmax*dq*(time - tlast). */
  function SlewBound(dmax: real, dq: real, tlast: real, time: real): real
  {
    dmax * dq * (time - tlast)
  }

  /** The time a line through x with slope d reaches level, d non-zero. */
  function Crossing(time: real, level: real, x: real, d: real): (t: real)
    requires d != 0.0
  {
    time + (level - x) / d
  }

  /** Crossing is where the integrated state meets the level. */
  lemma CrossingReachesLevel(time: real, level: real, x: real, d: real)
    requires d != 0.0
    ensures x + d * (Crossing(time, level, x, d) - time) == level
  {
    assert d * ((level - x) / d) == level - x;
  }

  /**
   * StateAtom.ta before the dtmin floor: the crossing of qhi when rising
   * faster than _EPS, of qlo when falling faster than _EPS, else never.
   */
  function NextCrossing(time: real, x: real, d: real, qlo: real, qhi: real): (r: ExtReal)
    ensures r.PosInf? <==> -Eps <= d <= Eps
    ensures d > Eps ==> r == Fin(Crossing(time, qhi, x, d))
    ensures d < -Eps ==> r == Fin(Crossing(time, qlo, x, d))
  {
    if d > Eps then Fin(Crossing(time, qhi, x, d))
    else if d < -Eps then Fin(Crossing(time, qlo, x, d))
    else PosInf
  }

  /** A state atom inside its band never schedules in the past: both crossings lie ahead. */
  lemma CrossingAhead(time: real, x: real, d: real, qlo: real, qhi: real)
    requires qlo <= x <= qhi
    ensures NextCrossing(time, x, d, qlo, qhi).Fin? ==> NextCrossing(time, x, d, qlo, qhi).r >= time
  {
    if d > Eps {
      assert (qhi - x) / d >= 0.0;
    } else if d < -Eps {
      assert (qlo - x) / d >= 0.0;
    }
  }

  /**
   * SourceAtom.ta before the dtmin floor: a ramp or a step waits for t1, a
   * running ramp for its value to move one quantum off q, a sine for its
   * next crossing after t1; everything else never.
   */
  function SourceNext(p: SourceParams, time: real, q: real, dq: real, u: real, d: real, env: SourceEnv): (r: ExtReal)
    ensures (p.sourceType == Ramp || p.sourceType == Step || p.sourceType == Sine) && time < p.t1 ==> r == Fin(p.t1)
    ensures p.sourceType == Step && time >= p.t1 ==> r.PosInf?
    ensures p.sourceType == Ramp && time >= p.t2 && time >= p.t1 ==> r.PosInf?
    ensures p.sourceType == Ramp && p.t1 <= time < p.t2 && d > 0.0 ==> r == Fin(Crossing(time, q + dq, u, d))
    ensures p.sourceType == Ramp && p.t1 <= time < p.t2 && d < 0.0 ==> r == Fin(Crossing(time, q - dq, u, d))
    ensures p.sourceType in {Constant, Pwm, Function, NoSource} ==> r.PosInf?
  {
    match p.sourceType
    case Ramp =>
      if time < p.t1 then Fin(p.t1)
      else if time < p.t2 then
        (if d > 0.0 then Fin(Crossing(time, q + dq, u, d))
         else if d < 0.0 then Fin(Crossing(time, q - dq, u, d))
         else PosInf)
      else PosInf
    case Step => if time < p.t1 then Fin(p.t1) else PosInf
    case Sine => if time < p.t1 then Fin(p.t1) else env.sineNext
    case _ => PosInf
  }

  /** SourceAtom.f: the ramp slope, the sine's derivative, else 0. */
  function SourceSlope(p: SourceParams, env: SourceEnv): (d: real)
    ensures p.sourceType == Ramp ==> d == p.rampSlope
    ensures p.sourceType == Sine ==> d == env.sineSlope
    ensures p.sourceType !in {Ramp, Sine} ==> d == 0.0
  {
    match p.sourceType
    case Ramp => p.rampSlope
    case Sine => env.sineSlope
    case _ => 0.0
  }

  /**
   * The interpolated q quantize picks when the derivative changes sign: the
   * zero of the line through (qhi - 2dq, flo) and (qhi, fhi).
   */
  function Interpolated(qhi: real, dq: real, flo: real, fhi: real): real
    requires flo != fhi
  {
    qhi - (2.0 * dq) / (fhi - flo) * fhi
  }

  /** The interpolated q is where the secant of the derivative across the band vanishes. */
  lemma InterpolatedIsSecantZero(qlo: real, qhi: real, dq: real, flo: real, fhi: real)
    requires flo != fhi && qhi == qlo + 2.0 * dq && dq != 0.0
    ensures flo + (fhi - flo) / (qhi - qlo) * (Interpolated(qhi, dq, flo, fhi) - qlo) == 0.0
  {
    var a := (2.0 * dq) / (fhi - flo);
    var s := (fhi - flo) / (qhi - qlo);
    assert s * a == 1.0;
    calc {
      flo + s * (Interpolated(qhi, dq, flo, fhi) - qlo);
      flo + s * (2.0 * dq - a * fhi);
      { assert s * (2.0 * dq) == fhi - flo; }
      flo + (fhi - flo) - s * a * fhi;
    }
  }

  /**
   * f(q) of an atom: `if not q: q = self.q`, so an explicit 0.0 is replaced
   * by the atom's own q, as written.
   */
  function DerivativeArgAsWritten(selfQ: real, arg: real): (r: real)
    ensures arg != 0.0 ==> r == arg
  {
    if arg == 0.0 then selfQ else arg
  }

  /** With q == 1 and the band edge at 0, quantize's f(self.qlo) is evaluated at 1, not at 0. */
  lemma ZeroEdgeEvaluatedAtQ()
    ensures DerivativeArgAsWritten(1.0, 0.0) == 1.0
    ensures DerivativeArgAsWritten(1.0, 0.0) != 0.0
  {
  }

  /** f(q) as intended: only a missing argument falls back to the atom's own q. */
  function DerivativeArg(selfQ: real, arg: Option<real>): (r: real)
    ensures arg.Some? ==> r == arg.value
    ensures arg.None? ==> r == selfQ
  {
    if arg.None? then selfQ else arg.value
  }

  /** The argument quantize's f(edge) is evaluated at: through `if not q` as written, the edge itself as intended. */
  function EdgeArg(asWritten: bool, crossed: real, edge: real): (r: real)
    ensures edge != 0.0 ==> r == edge
    ensures !asWritten ==> r == edge
    ensures asWritten && edge == 0.0 ==> r == crossed
  {
    if asWritten then DerivativeArgAsWritten(crossed, edge) else DerivativeArg(crossed, Some(edge))
  }

  /** What StateAtom.quantize leaves: q, the band, the derivative and whether q was interpolated. */
  datatype Quantized = Quantized(q: real, qlo: real, qhi: real, d: real, interp: bool)

  /**
   * StateAtom.quantize on an atom's x, q, band, quantum and derivative d.
   * Leaving the band upwards makes q the old qhi, downwards the old qlo, and
   * the band moves one quantum with it; qhi is reset to qlo + 2dq. After a
   * crossing, when implicit, d becomes f at the crossed q, and when that
   * changed sign q moves to the zero of the derivative's secant across the
   * new band, the edges evaluated as EdgeArg says.
   */
  function Quantize(asWritten: bool, implicit: bool, x: real, q: real, qlo: real, qhi: real, dq: real, d: real,
                    deriv: real -> real): (r: Quantized)
    ensures r.qhi == r.qlo + 2.0 * dq
    ensures qlo < x < qhi ==> r == Quantized(q, qlo, qlo + 2.0 * dq, d, false)
    ensures x >= qhi ==> r.qlo == qlo + dq && (!r.interp ==> r.q == qhi)
    ensures x < qhi && x <= qlo ==> r.qlo == qlo - dq && (!r.interp ==> r.q == qlo)
    ensures !implicit ==> !r.interp && r.d == d
    ensures (x >= qhi || x <= qlo) && implicit ==> r.d == deriv(if x >= qhi then qhi else qlo)
    ensures var qc := if x >= qhi then qhi else qlo;
            var flo := deriv(EdgeArg(asWritten, qc, r.qlo));
            var fhi := deriv(EdgeArg(asWritten, qc, r.qhi));
            && (r.interp <==> (x >= qhi || x <= qlo) && implicit && r.d * d < 0.0 && flo != fhi)
            && (r.interp ==> r.q == Interpolated(r.qhi, dq, flo, fhi))
  {
    var up := x >= qhi;
    var down := !up && x <= qlo;
    var qc := if up then qhi else if down then qlo else q;
    var lo := if up then qlo + dq else if down then qlo - dq else qlo;
    var hi := lo + 2.0 * dq;
    if (up || down) && implicit then
      var d1 := deriv(qc);
      var flo := deriv(EdgeArg(asWritten, qc, lo));
      var fhi := deriv(EdgeArg(asWritten, qc, hi));
      if d1 * d < 0.0 && flo != fhi then Quantized(Interpolated(hi, dq, flo, fhi), lo, hi, d1, true)
      else Quantized(qc, lo, hi, d1, false)
    else Quantized(qc, lo, hi, d, false)
  }

  /**
   * With the band edges evaluated at the edges themselves, an interpolated q
   * is the zero of the derivative's secant through both edges of the new band.
   */
  lemma IntendedInterpolationZerosSecant(implicit: bool, x: real, q: real, qlo: real, qhi: real, dq: real, d: real,
                                         deriv: real -> real)
    requires dq != 0.0
    ensures var r := Quantize(false, implicit, x, q, qlo, qhi, dq, d, deriv);
            r.interp ==> deriv(r.qlo) + (deriv(r.qhi) - deriv(r.qlo)) / (2.0 * dq) * (r.q - r.qlo) == 0.0
  {
    var r := Quantize(false, implicit, x, q, qlo, qhi, dq, d, deriv);
    if r.interp {
      InterpolatedIsSecantZero(r.qlo, r.qhi, dq, deriv(r.qlo), deriv(r.qhi));
    }
  }

  /**
   * An atom at q = 0 in the band [-0.5, 0.5] with dq = 0.5 and the derivative
   * 0.25 - q crosses up when x reaches 0.5: q becomes 0.5, the band [0, 1]
   * and d = -0.25, so the sign changed. As written the edge 0 is evaluated at
   * 0.5 and the interpolation lands on -0.5, where the derivative is 0.75; as
   * intended it lands on the derivative's zero 0.25.
   */
  lemma ZeroEdgeMissesRoot()
    ensures var deriv := (v: real) => 0.25 - v;
            && Quantize(true, true, 0.5, 0.0, -0.5, 0.5, 0.5, 0.25, deriv) == Quantized(-0.5, 0.0, 1.0, -0.25, true)
            && deriv(-0.5) != 0.0
            && Quantize(false, true, 0.5, 0.0, -0.5, 0.5, 0.5, 0.25, deriv) == Quantized(0.25, 0.0, 1.0, -0.25, true)
            && deriv(0.25) == 0.0
  {
    var deriv := (v: real) => 0.25 - v;
    assert deriv(EdgeArg(true, 0.5, 0.0)) == -0.25;
    assert deriv(EdgeArg(true, 0.5, 1.0)) == -0.75;
    assert Interpolated(1.0, 0.5, -0.25, -0.75) == -0.5;
    assert deriv(EdgeArg(false, 0.5, 0.0)) == 0.25;
    assert deriv(EdgeArg(false, 0.5, 1.0)) == -0.75;
    assert Interpolated(1.0, 0.5, 0.25, -0.75) == 0.25;
  }

  /** A device: a name and the atoms it adds, in order. */
  class Device {
    const name: string
    var atoms: seq<Atom>

    constructor (name: string)
      ensures this.name == name && atoms == []
    {
      this.name := name;
      atoms := [];
    }

    /** add_atom appends the atom and makes this device its owner. */
    method AddAtom(atom: Atom)
      modifies this`atoms, atom`device
      ensures atoms == old(atoms) + [atom] && atom.device == this
    {
      atoms := atoms + [atom];
      atom.device := this;
    }
  }

  /** A connection from which `atom` receives `other`'s value, scaled by a coefficient. */
  class Connection {
    const atom: Atom
    const other: Atom
    const coefficient: real
    const coeffunc: Option<CoefFn>
    var device: Device?

    /** The constructor with both atoms given runs reset_atoms: `other` now broadcasts to `atom`. */
    constructor (atom: Atom, other: Atom, coefficient: real, coeffunc: Option<CoefFn>)
      modifies other`broadcastTo
      ensures this.atom == atom && this.other == other && this.coefficient == coefficient && this.coeffunc == coeffunc
      ensures device == null && other.broadcastTo == old(other.broadcastTo) + [atom]
    {
      this.atom := atom;
      this.other := other;
      this.coefficient := coefficient;
      this.coeffunc := coeffunc;
      device := null;
      new;
      other.broadcastTo := other.broadcastTo + [atom];
    }

    /** compute_coefficient: the coefficient function applied to the device, else the fixed coefficient. */
    function ComputeCoefficient(eval: CoefFn -> real): (k: real)
    {
      if coeffunc.Some? then eval(coeffunc.value) else coefficient
    }
  }

  class Atom {
    const name: string
    const kind: Kind
    const x0: real
    const units: string
    const dqmin: Option<real>
    const dqmax: Option<real>
    const dqerr: Option<real>
    const dq0: Option<real>
    /** Always true: quantize may interpolate. */
    const implicit: bool
    var dq: Option<real>
    var dtmin: Option<real>
    var dmax: Option<real>
    var qlo: real
    var qhi: real
    var time: real
    var tlast: real
    var tnext: ExtReal
    var x: real
    var d: real
    var d0: real
    var q: real
    var q0: real
    var u: real
    var uPrev: real
    var triggered: bool
    var trace: Option<Trace>
    var updates: int
    var broadcastTo: seq<Atom>
    var connections: seq<Connection>
    var jacfuncs: seq<(Atom, CoefFn)>
    var device: Device?
    var index: Option<int>
    /** qsave and xsave, absent until initialize or save_state. */
    var saved: Option<(real, real)>

    /** Everything the simulation methods need: a quantum, a minimum step, a slew bound and the output arrays. */
    predicate Ready()
      reads this`dq, this`dtmin, this`dmax, this`trace
    {
      dq.Some? && dtmin.Some? && dmax.Some? && trace.Some? && Aligned(trace.value)
    }

    /** The quantiser band is 2*dq wide. */
    predicate Banded()
      reads this`dq, this`qlo, this`qhi
    {
      dq.Some? && qhi == qlo + 2.0 * dq.value
    }

    /** StateAtom(...): an integrating atom starting at x0 with q == x0 and an empty band at 0. */
    constructor StateAtom(name: string, x0: real, coefficient: real, coeffunc: Option<CoefFn>, dq: Option<real>,
                          dqmin: Option<real>, dqmax: Option<real>, dqerr: Option<real>, dtmin: Option<real>,
                          dmax: Option<real>, units: string)
      ensures this.name == name && kind == StateKind(coefficient, coeffunc) && this.x0 == x0 && this.units == units
      ensures this.dq == dq && dq0 == dq && this.dqmin == dqmin && this.dqmax == dqmax && this.dqerr == dqerr
      ensures this.dtmin == dtmin && this.dmax == dmax && implicit
      ensures x == x0 && q == x0 && q0 == x0 && qlo == 0.0 && qhi == 0.0 && d == 0.0 && d0 == 0.0
      ensures time == 0.0 && tlast == 0.0 && tnext == Fin(0.0) && !triggered && updates == 0
      ensures trace.None? && saved.None? && index.None? && device == null
      ensures broadcastTo == [] && connections == [] && jacfuncs == []
    {
      this.name := name;
      kind := StateKind(coefficient, coeffunc);
      this.x0 := x0;
      this.units := units;
      this.dq := dq;
      dq0 := dq;
      this.dqmin := dqmin;
      this.dqmax := dqmax;
      this.dqerr := dqerr;
      this.dtmin := dtmin;
      this.dmax := dmax;
      implicit := true;
      qlo, qhi := 0.0, 0.0;
      time, tlast, tnext := 0.0, 0.0, Fin(0.0);
      x, d, d0, q, q0 := x0, 0.0, 0.0, x0, x0;
      u, uPrev := 0.0, 0.0;
      triggered := false;
      trace := None;
      updates := 0;
      broadcastTo, connections, jacfuncs := [], [], [];
      device := null;
      index := None;
      saved := None;
    }

    /**
     * SourceAtom(...): the atom starts at u0 (x0 = u = u0); a ramp then
     * holds u1 as its u0; ramp_slope is (u2 - u1)/(t2 - t1) when t2 > t1, else 0.
     */
    constructor SourceAtom(name: string, sourceType: SourceType, u0: real, u1: real, u2: real, ua: real,
                           freq: real, phi: real, duty: real, t1: real, t2: real, dq: Option<real>,
                           dqmin: Option<real>, dqmax: Option<real>, dqerr: Option<real>, dtmin: Option<real>,
                           dmax: Option<real>, units: string)
      ensures this.name == name && this.x0 == u0 && this.units == units && kind.SourceKind?
      ensures kind.p.sourceType == sourceType && kind.p.u0 == (if sourceType == Ramp then u1 else u0)
      ensures kind.p.u1 == u1 && kind.p.u2 == u2 && kind.p.ua == ua && kind.p.freq == freq && kind.p.phi == phi
      ensures kind.p.duty == duty && kind.p.t1 == t1 && kind.p.t2 == t2
      ensures kind.p.rampSlope == if t2 - t1 > 0.0 then (u2 - u1) / (t2 - t1) else 0.0
      ensures this.dq == dq && dq0 == dq && this.dqmin == dqmin && this.dqmax == dqmax && this.dqerr == dqerr
      ensures this.dtmin == dtmin && this.dmax == dmax && implicit
      ensures x == u0 && q == u0 && q0 == u0 && u == u0 && qlo == 0.0 && qhi == 0.0 && d == 0.0 && d0 == 0.0
      ensures time == 0.0 && tlast == 0.0 && tnext == Fin(0.0) && !triggered && updates == 0
      ensures trace.None? && saved.None? && index.None? && device == null
      ensures broadcastTo == [] && connections == [] && jacfuncs == []
    {
      this.name := name;
      var slope := if t2 - t1 > 0.0 then (u2 - u1) / (t2 - t1) else 0.0;
      kind := SourceKind(SourceParams(sourceType, if sourceType == Ramp then u1 else u0, u1, u2, ua, freq, phi,
                                      duty, t1, t2, slope));
      this.x0 := u0;
      this.units := units;
      this.dq := dq;
      dq0 := dq;
      this.dqmin := dqmin;
      this.dqmax := dqmax;
      this.dqerr := dqerr;
      this.dtmin := dtmin;
      this.dmax := dmax;
      implicit := true;
      qlo, qhi := 0.0, 0.0;
      time, tlast, tnext := 0.0, 0.0, Fin(0.0);
      x, d, d0, q, q0 := u0, 0.0, 0.0, u0, u0;
      u, uPrev := u0, 0.0;
      triggered := false;
      trace := None;
      updates := 0;
      broadcastTo, connections, jacfuncs := [], [], [];
      device := null;
      index := None;
      saved := None;
    }

    /** add_connection: a new connection from `other`, owned by this atom's device, appended to the connections. */
    method AddConnection(other: Atom, coefficient: real, coeffunc: Option<CoefFn>) returns (c: Connection)
      modifies this`connections, other`broadcastTo
      ensures fresh(c) && c.atom == this && c.other == other && c.coefficient == coefficient && c.coeffunc == coeffunc
      ensures c.device == device
      ensures connections == old(connections) + [c]
      ensures other.broadcastTo == old(other.broadcastTo) + [this]
    {
      c := new Connection(this, other, coefficient, coeffunc);
      c.device := device;
      connections := connections + [c];
    }

    /** add_jacfunc appends the pair. */
    method AddJacfunc(other: Atom, f: CoefFn)
      modifies this`jacfuncs
      ensures jacfuncs == old(jacfuncs) + [(other, f)]
    {
      jacfuncs := jacfuncs + [(other, f)];
    }

    /** broadcast flags every atom this one pushes updates to, except itself. */
    method Broadcast()
      modifies broadcastTo`triggered
      ensures forall a | a in broadcastTo && a != this :: a.triggered
      ensures this in broadcastTo ==> triggered == old(triggered)
    {
      var targets := broadcastTo;
      for i := 0 to |targets|
        invariant broadcastTo == targets
        invariant forall k | 0 <= k < i && targets[k] != this :: targets[k].triggered
        invariant this in targets ==> triggered == old(triggered)
      {
        if targets[i] != this {
          targets[i].triggered := true;
        }
      }
    }

    /** update_dq: a new quantum re-centres the band on q; otherwise nothing changes. */
    method UpdateDq() returns (out: Outcome)
      modifies this`dq, this`qlo, this`qhi
      ensures var r := DqUpdate(dqerr, dqmin, dqmax, q);
              && (r.Err? ==> out == Raised(r.error) && unchanged(this`dq, this`qlo, this`qhi))
              && (r.Ok? && r.value.None? ==> out == Done && unchanged(this`dq, this`qlo, this`qhi))
              && (r.Ok? && r.value.Some? ==> out == Done && dq == r.value && qlo == q - dq.value && qhi == q + dq.value)
      ensures out == Done && old(Banded()) ==> Banded()
    {
      var r := DqUpdate(dqerr, dqmin, dqmax, q);
      if r.Err? {
        return Raised(r.error);
      }
      if r.value.Some? {
        dq := r.value;
        qlo := q - dq.value;
        qhi := q + dq.value;
      }
      out := Done;
    }

    /** save appends a sample when the time moved on since the last one, or when forced. */
    method Save(force: bool)
      requires Ready()
      modifies this`trace
      ensures Ready()
      ensures var tr := old(trace.value);
              if time != tr.tout[|tr.tout| - 1] || force then trace == Some(Appended(tr, time, q, q0, updates))
              else trace == old(trace)
    {
      var tr := trace.value;
      if time != tr.tout[|tr.tout| - 1] || force {
        trace := Some(Appended(tr, time, q, q0, updates));
      }
    }

    /**
     * initialize: the clock starts at t0 with no event pending; a state atom
     * restarts from x0, a source evaluates its waveform; q, q0 and the saved
     * pair take x, the band is centred on q, and the arrays hold one sample.
     */
    method Initialize(t0: real, env: SourceEnv, slewrate: bool) returns (out: Outcome)
      requires dq.Some? && dmax.Some?
      modifies this`tlast, this`time, this`tnext, this`x, this`q, this`q0, this`saved, this`qlo, this`qhi,
               this`trace, this`updates, this`u, this`uPrev
      ensures time == t0 && tlast == t0
      ensures out.Raised? <==> kind.SourceKind? && Waveform(kind.p, t0, d, env).Err?
      ensures out.Done? ==> && q == x && q0 == x && saved == Some((x, x)) && Banded() && updates == 0
                            && trace == Some(Trace([t0], [x], [0], [t0], [x])) && tnext.PosInf?
      ensures out.Done? && kind.StateKind? ==> x == x0
      ensures out.Done? && kind.SourceKind? ==> x == u
    {
      tlast, time, tnext := t0, t0, PosInf;
      var v;
      if kind.StateKind? {
        v := x0;
        x := v;
      } else {
        var r := DintSource(env, slewrate);
        if r.Err? {
          return Raised(r.error);
        }
        v := r.value;
      }
      Restart(t0, v);
      out := Done;
    }

    /** The quantised value, the band and the one-sample history start from v at t0. */
    method Restart(t0: real, v: real)
      requires dq.Some?
      modifies this`q, this`q0, this`saved, this`qlo, this`qhi, this`trace, this`updates
      ensures q == v && q0 == v && saved == Some((v, v)) && Banded() && qlo == v - dq.value && updates == 0
      ensures trace == Some(Trace([t0], [v], [0], [t0], [v]))
    {
      q, q0, saved := v, v, Some((v, v));
      qhi, qlo := v + dq.value, v - dq.value;
      trace := Some(Trace([t0], [v], [0], [t0], [v]));
      updates := 0;
    }

    /**
     * set_state: x takes the value; without quantize, q does too and the band
     * is centred on it; with quantize, a state atom quantises without
     * interpolation and a source raises a TypeError (its quantize takes no argument).
     */
    method SetState(value: real, quantize: bool) returns (out: Outcome)
      requires dq.Some?
      modifies this`x, this`q, this`qlo, this`qhi, this`d0, this`d
      ensures x == value
      ensures !quantize ==> out == Done && q == value && qlo == value - dq.value && qhi == value + dq.value && unchanged(this`d0)
      ensures quantize && kind.SourceKind? ==> out == Raised(TypeError) && unchanged(this`q, this`qlo, this`qhi)
      ensures quantize && kind.StateKind? ==> out == Done && Banded()
      ensures quantize && kind.StateKind? && old(Banded()) && old(qlo) < value < old(qhi) ==> q == old(q) && qlo == old(qlo)
      ensures quantize && kind.StateKind? && old(Banded()) && (value >= old(qhi) || value <= old(qlo)) ==>
                qlo == q - dq.value && qhi == q + dq.value
      ensures unchanged(this`d)
    {
      x := value;
      if quantize {
        if kind.SourceKind? {
          return Raised(TypeError);
        }
        var interp := QuantizeState(false, v => 0.0);
      } else {
        q := value;
        qhi := q + dq.value;
        qlo := q - dq.value;
      }
      out := Done;
    }

    /** StateAtom.dint: x moves along the derivative from tlast to time. */
    method DintState() returns (r: real)
      modifies this`x, this`tlast
      ensures x == Dint(old(x), d, old(tlast), time) && tlast == time && r == x
    {
      x := Dint(x, d, tlast, time);
      tlast := time;
      r := x;
    }

    /**
     * SourceAtom.dint: u_prev keeps u, the waveform is evaluated and, with the
     * slew rate enabled, limited to dmax*dq*(time - tlast) away from u_prev;
     * then x and q follow u and tlast catches up. PWM and NONE raise.
     */
    method DintSource(env: SourceEnv, slewrate: bool) returns (r: Result<real>)
      requires kind.SourceKind? && dq.Some? && dmax.Some?
      modifies this`u, this`uPrev, this`tlast, this`x, this`q
      ensures uPrev == old(u)
      ensures var w := Waveform(kind.p, time, d, env);
              && (w.Err? ==> r == Err(w.error) && unchanged(this`u, this`tlast, this`x, this`q))
              && (w.Ok? ==> && u == Slewed(w.value, old(u), SlewBound(dmax.value, dq.value, old(tlast), time), slewrate)
                            && r == Ok(u) && x == u && q == u && tlast == time)
    {
      var limit := SlewBound(dmax.value, dq.value, tlast, time);
      var w := Waveform(kind.p, time, d, env);
      uPrev := u;
      if w.Err? {
        return Err(w.error);
      }
      var v := Slewed(w.value, uPrev, limit, slewrate);
      u, tlast, x, q := v, time, v, v;
      r := Ok(v);
    }

    /**
     * StateAtom.quantize: leaving the band upwards makes q the old qhi,
     * downwards the old qlo, and the band moves one quantum with it;
     * qhi is always reset to qlo + 2dq. After a crossing, when implicit and
     * the derivative at the new q changed sign, q moves to the zero of the
     * derivative's secant across the band. As written, f(self.qlo) and
     * f(self.qhi) replace an edge at exactly 0.0 by the crossed q.
     */
    method QuantizeState(implicitArg: bool, deriv: real -> real) returns (interp: bool)
      requires dq.Some?
      modifies this`q, this`qlo, this`qhi, this`d0, this`d
      ensures d0 == old(d) && Banded()
      ensures old(x) >= old(qhi) ==> qlo == old(qlo) + dq.value && (!interp ==> q == old(qhi))
      ensures old(qlo) < x < old(qhi) ==> !interp && q == old(q) && qlo == old(qlo) && d == old(d)
      ensures x < old(qhi) && x <= old(qlo) ==> qlo == old(qlo) - dq.value && (!interp ==> q == old(qlo))
      ensures old(Banded()) && (x >= old(qhi) || x <= old(qlo)) && !interp ==> qlo == q - dq.value && qhi == q + dq.value
      ensures interp ==> var qc := if x >= old(qhi) then old(qhi) else old(qlo);
                         && implicitArg && implicit && d * d0 < 0.0
                         && deriv(DerivativeArgAsWritten(qc, qlo)) != deriv(DerivativeArgAsWritten(qc, qhi))
                         && q == Interpolated(qhi, dq.value, deriv(DerivativeArgAsWritten(qc, qlo)),
                                              deriv(DerivativeArgAsWritten(qc, qhi)))
      ensures !(implicitArg && implicit) ==> !interp && d == old(d)
      ensures var r := Quantize(true, implicitArg && implicit, x, old(q), old(qlo), old(qhi), dq.value, old(d), deriv);
              q == r.q && qlo == r.qlo && qhi == r.qhi && d == r.d && interp == r.interp
    {
      ghost var r := Quantize(true, implicitArg && implicit, x, q, qlo, qhi, dq.value, d, deriv);
      interp := false;
      var change := false;
      d0 := d;
      if x >= qhi {
        q := qhi;
        qlo := qlo + dq.value;
        change := true;
      } else if x <= qlo {
        q := qlo;
        qlo := qlo - dq.value;
        change := true;
      }
      qhi := qlo + 2.0 * dq.value;
      if change && implicit && implicitArg {
        d := deriv(q);
        if d * d0 < 0.0 {
          var flo := deriv(EdgeArg(true, q, qlo));
          var fhi := deriv(EdgeArg(true, q, qhi));
          if flo != fhi {
            q := Interpolated(qhi, dq.value, flo, fhi);
            interp := true;
          }
        }
      }
      assert q == r.q && qlo == r.qlo && qhi == r.qhi && d == r.d && interp == r.interp;
    }

    /**
     * StateAtom.quantize as evidently intended: the band edges are evaluated
     * at the edges themselves, 0.0 included. Otherwise as QuantizeState: leaving the band upwards makes q the old qhi,
     * downwards the old qlo, and the band moves one quantum with it;
     * qhi is always reset to qlo + 2dq. After a crossing, when implicit and
     * the derivative at the new q changed sign, q moves to the zero of the
     * derivative's secant across the band.
     */
    method QuantizeStateIntended(implicitArg: bool, deriv: real -> real) returns (interp: bool)
      requires dq.Some?
      modifies this`q, this`qlo, this`qhi, this`d0, this`d
      ensures d0 == old(d) && Banded()
      ensures old(x) >= old(qhi) ==> qlo == old(qlo) + dq.value && (!interp ==> q == old(qhi))
      ensures old(qlo) < x < old(qhi) ==> !interp && q == old(q) && qlo == old(qlo) && d == old(d)
      ensures x < old(qhi) && x <= old(qlo) ==> qlo == old(qlo) - dq.value && (!interp ==> q == old(qlo))
      ensures old(Banded()) && (x >= old(qhi) || x <= old(qlo)) && !interp ==> qlo == q - dq.value && qhi == q + dq.value
      ensures interp ==> && implicitArg && implicit && d * d0 < 0.0 && deriv(qlo) != deriv(qhi)
                         && q == Interpolated(qhi, dq.value, deriv(qlo), deriv(qhi))
      ensures !(implicitArg && implicit) ==> !interp && d == old(d)
      ensures var r := Quantize(false, implicitArg && implicit, x, old(q), old(qlo), old(qhi), dq.value, old(d), deriv);
              q == r.q && qlo == r.qlo && qhi == r.qhi && d == r.d && interp == r.interp
    {
      ghost var r := Quantize(false, implicitArg && implicit, x, q, qlo, qhi, dq.value, d, deriv);
      interp := false;
      var change := false;
      d0 := d;
      if x >= qhi {
        q := qhi;
        qlo := qlo + dq.value;
        change := true;
      } else if x <= qlo {
        q := qlo;
        qlo := qlo - dq.value;
        change := true;
      }
      qhi := qlo + 2.0 * dq.value;
      if change && implicit && implicitArg {
        d := deriv(q);
        if d * d0 < 0.0 {
          var flo := deriv(EdgeArg(false, q, qlo));
          var fhi := deriv(EdgeArg(false, q, qhi));
          if flo != fhi {
            q := Interpolated(qhi, dq.value, flo, fhi);
            interp := true;
          }
        }
      }
      assert q == r.q && qlo == r.qlo && qhi == r.qhi && d == r.d && interp == r.interp;
    }

    /** ta: the next event time, never earlier than tlast + dtmin. */
    method Ta(env: SourceEnv)
      requires dq.Some? && dtmin.Some?
      modifies this`tnext
      ensures kind.StateKind? ==> tnext == MaxE(NextCrossing(time, x, d, qlo, qhi), tlast + dtmin.value)
      ensures kind.SourceKind? ==> tnext == MaxE(SourceNext(kind.p, time, q, dq.value, u, d, env), tlast + dtmin.value)
      ensures tnext.Fin? ==> tnext.r >= tlast + dtmin.value
    {
      var next := if kind.StateKind? then NextCrossing(time, x, d, qlo, qhi)
                  else SourceNext(kind.p, time, q, dq.value, u, d, env);
      tnext := MaxE(next, tlast + dtmin.value);
    }

    /** A state atom's integration: x moves along f at the old q, then quantize as written with d0 that new f. */
    twostate predicate StateIntegrated(deriv: real -> real)
      reads this
    {
      && old(dq).Some? && dq == old(dq)
      && var reached := Dint(old(x), deriv(old(q)), old(tlast), time);
         var r := Quantize(true, implicit, reached, old(q), old(qlo), old(qhi), dq.value, deriv(old(q)), deriv);
         x == reached && q == r.q && qlo == r.qlo && qhi == r.qhi && d == r.d && d0 == deriv(old(q)) && tlast == time
    }

    /**
     * A source's integration: d is the source's slope and u_prev the old u;
     * the waveform's error is raised with x, q, the band and tlast as they
     * were, otherwise u is the slewed waveform value and x and q follow it.
     */
    twostate predicate SourceIntegrated(env: SourceEnv, slewrate: bool, out: Outcome)
      reads this
    {
      && kind.SourceKind? && old(dq).Some? && old(dmax).Some? && dq == old(dq)
      && d == SourceSlope(kind.p, env) && uPrev == old(u)
      && var w := Waveform(kind.p, time, d, env);
         if w.Err? then out == Raised(w.error) && x == old(x) && q == old(q) && qlo == old(qlo) && qhi == old(qhi)
                        && tlast == old(tlast)
         else && out == Done && qlo == old(qlo) && qhi == old(qhi) && q == x && x == u && tlast == time
              && u == Slewed(w.value, old(u), SlewBound(old(dmax).value, old(dq).value, old(tlast), time), slewrate)
    }

    /** StateAtom's half of update's middle: d = f(), dint, quantize. */
    method IntegrateState(deriv: real -> real)
      requires kind.StateKind? && dq.Some?
      modifies this`d, this`d0, this`x, this`tlast, this`q, this`qlo, this`qhi
      ensures Banded() && StateIntegrated(deriv)
      ensures old(Banded()) && old(qlo) < Dint(old(x), deriv(old(q)), old(tlast), time) < old(qhi) ==>
                q == old(q) && qlo == old(qlo)
    {
      d := deriv(q);
      var _ := DintState();
      ghost var reached := x;
      ghost var q1, qlo1, qhi1 := q, qlo, qhi;
      var _ := QuantizeState(true, deriv);
      assert qlo1 < reached < qhi1 ==> q == q1 && qlo == qlo1;
    }

    /** SourceAtom's half of update's middle: d = f(), dint, and q follows x. */
    method IntegrateSource(env: SourceEnv, slewrate: bool) returns (out: Outcome)
      requires kind.SourceKind? && dq.Some? && dmax.Some?
      modifies this`d, this`x, this`tlast, this`q, this`u, this`uPrev
      ensures SourceIntegrated(env, slewrate, out)
    {
      var slope := SourceSlope(kind.p, env);
      d := slope;
      var r := DintSource(env, slewrate);
      if r.Err? {
        return Raised(r.error);
      }
      q := x;
      out := Done;
    }

    /**
     * The end of update, seen from before it started with q0 at q0Before and
     * the band [lo, hi] quantize left: when q did not move nothing changes;
     * otherwise the sample is saved, q0 catches up and update_dq either
     * raises, keeps the band or re-centres it on q with its new quantum.
     */
    predicate Published(q0Before: real, lo: real, hi: real, dqBefore: Option<real>, traceBefore: Option<Trace>,
                        out: Outcome)
      reads this
    {
      && traceBefore.Some? && Aligned(traceBefore.value)
      && if q == q0Before then out == Done && q0 == q0Before && dq == dqBefore && qlo == lo && qhi == hi
                              && trace == traceBefore
         else
           var p := DqUpdate(dqerr, dqmin, dqmax, q);
           var tr := traceBefore.value;
           && q0 == q
           && trace == Some(if time != tr.tout[|tr.tout| - 1] then Appended(tr, time, q, q0Before, updates) else tr)
           && (p.Err? ==> out == Raised(p.error))
           && (p.Ok? ==> out == Done)
           && (if p.Ok? && p.value.Some? then dq == p.value && qlo == q - dq.value && qhi == q + dq.value
               else dq == dqBefore && qlo == lo && qhi == hi)
    }

    /** The fields update reads before it changes them. */
    function Values(): AtomValues
      reads this
    {
      AtomValues(x, q, q0, qlo, qhi, tlast, u, dq, dmax, trace)
    }

    /**
     * What update leaves from the values b once the clock is at time: a
     * state atom has integrated x along f at its old q, quantised as Quantize
     * says with d0 the new derivative, and scheduled the crossing of the band
     * quantize left; a source has taken its slope and slewed waveform value
     * or raised the waveform's error. Then a move of q is published.
     */
    predicate Followed(b: AtomValues, deriv: real -> real, env: SourceEnv, slewrate: bool, out: Outcome)
      reads this
    {
      if kind.StateKind? then FollowedState(b, deriv, out) else FollowedSource(b, env, slewrate, out)
    }

    /** Followed for a state atom. */
    predicate FollowedState(b: AtomValues, deriv: real -> real, out: Outcome)
      reads this
    {
      && b.dq.Some? && dtmin.Some?
      && var reached := Dint(b.x, deriv(b.q), b.tlast, time);
         var r := Quantize(true, implicit, reached, b.q, b.qlo, b.qhi, b.dq.value, deriv(b.q), deriv);
         && x == reached && q == r.q && d == r.d && d0 == deriv(b.q) && tlast == time
         && tnext == MaxE(NextCrossing(time, x, d, r.qlo, r.qhi), tlast + dtmin.value)
         && Published(b.q0, r.qlo, r.qhi, b.dq, b.trace, out)
    }

    /** Followed for a source atom. */
    predicate FollowedSource(b: AtomValues, env: SourceEnv, slewrate: bool, out: Outcome)
      reads this
      requires kind.SourceKind?
    {
      && b.dq.Some? && b.dmax.Some? && dtmin.Some?
      && var w := Waveform(kind.p, time, SourceSlope(kind.p, env), env);
         && uPrev == b.u && d == SourceSlope(kind.p, env)
         && if w.Err? then out == Raised(w.error)
            else
              && u == Slewed(w.value, b.u, SlewBound(b.dmax.value, b.dq.value, b.tlast, time), slewrate)
              && x == u && q == u && tlast == time
              && tnext == MaxE(SourceNext(kind.p, time, q, b.dq.value, u, d, env), tlast + dtmin.value)
              && Published(b.q0, b.qlo, b.qhi, b.dq, b.trace, out)
    }

    /** The end of update once q moved off q0: save, catch q0 up, flag the listeners, revise the quantum. */
    method Publish() returns (out: Outcome)
      requires Ready() && q != q0
      modifies this`trace, this`q0, this`dq, this`qlo, this`qhi, broadcastTo`triggered
      ensures Ready() && q0 == q
      ensures forall a | a in broadcastTo && a != this :: a.triggered
      ensures triggered == old(triggered)
      ensures out.Raised? ==> out == Raised(TypeError)
      ensures old(Banded()) ==> Banded()
      ensures Published(old(q0), old(qlo), old(qhi), old(dq), old(trace), out)
    {
      Save(false);
      q0 := q;
      Broadcast();
      out := UpdateDq();
    }

    /** The tail of update: ta, then publish a move of q. */
    method Schedule(env: SourceEnv) returns (out: Outcome)
      requires Ready()
      modifies this`tnext, this`trace, this`q0, this`dq, this`qlo, this`qhi, broadcastTo`triggered
      ensures Ready() && q0 == q
      ensures kind.StateKind? ==> tnext == MaxE(NextCrossing(time, x, d, old(qlo), old(qhi)), tlast + dtmin.value)
      ensures kind.SourceKind? ==> tnext == MaxE(SourceNext(kind.p, time, q, old(dq).value, u, d, env), tlast + dtmin.value)
      ensures tnext.Fin? ==> tnext.r >= tlast + dtmin.value
      ensures q != old(q0) ==> forall a | a in broadcastTo && a != this :: a.triggered
      ensures triggered == old(triggered)
      ensures out.Raised? ==> out == Raised(TypeError)
      ensures old(Banded()) ==> Banded()
      ensures Published(old(q0), old(qlo), old(qhi), old(dq), old(trace), out)
    {
      Ta(env);
      out := Done;
      if q != q0 {
        out := Publish();
      }
    }

    /**
     * update: the clock moves to t, the atom integrates, quantises and
     * schedules; if q moved off q0 the sample is saved, q0 catches up, the
     * listeners are flagged and the quantum is revised.
     */
    method Update(t: real, deriv: real -> real, env: SourceEnv, slewrate: bool) returns (out: Outcome)
      requires Ready()
      modifies this`time, this`updates, this`triggered, this`d, this`d0, this`x, this`tlast, this`q, this`q0,
               this`qlo, this`qhi, this`tnext, this`trace, this`dq, this`u, this`uPrev, broadcastTo`triggered
      ensures Ready()
      ensures time == t && updates == old(updates) + 1
      ensures !triggered
      ensures Followed(old(Values()), deriv, env, slewrate, out)
      ensures out.Raised? ==> kind.SourceKind? || out == Raised(TypeError)
      ensures out.Done? ==> tlast == t && q0 == q && (tnext.Fin? ==> tnext.r >= tlast + dtmin.value)
      ensures out.Done? && q != old(q0) ==> forall a | a in broadcastTo && a != this :: a.triggered
      ensures kind.StateKind? ==> Banded()
    {
      time := t;
      updates := updates + 1;
      triggered := false;
      out := Follow(deriv, env, slewrate);
    }

    /** update once the clock has moved: integrate and quantise, schedule, publish a move of q. */
    method Follow(deriv: real -> real, env: SourceEnv, slewrate: bool) returns (out: Outcome)
      requires Ready()
      modifies this`d, this`d0, this`x, this`tlast, this`q, this`q0,
               this`qlo, this`qhi, this`tnext, this`trace, this`dq, this`u, this`uPrev, broadcastTo`triggered
      ensures Ready()
      ensures out.Raised? ==> kind.SourceKind? || out == Raised(TypeError)
      ensures out.Done? ==> tlast == time && q0 == q && (tnext.Fin? ==> tnext.r >= tlast + dtmin.value)
      ensures out.Done? && q != old(q0) ==> forall a | a in broadcastTo && a != this :: a.triggered
      ensures kind.StateKind? ==> Banded()
      ensures triggered == old(triggered)
      ensures Followed(old(Values()), deriv, env, slewrate, out)
    {
      if kind.StateKind? {
        out := FollowState(deriv, env, slewrate);
      } else {
        out := FollowSource(deriv, env, slewrate);
      }
    }

    /** Follow for a state atom: d = f(), dint, quantize, ta, then publish a move of q. */
    method FollowState(deriv: real -> real, env: SourceEnv, slewrate: bool) returns (out: Outcome)
      requires Ready() && kind.StateKind?
      modifies this`d, this`d0, this`x, this`tlast, this`q, this`q0,
               this`qlo, this`qhi, this`tnext, this`trace, this`dq, broadcastTo`triggered
      ensures Ready()
      ensures out.Raised? ==> kind.SourceKind? || out == Raised(TypeError)
      ensures out.Done? ==> tlast == time && q0 == q && (tnext.Fin? ==> tnext.r >= tlast + dtmin.value)
      ensures out.Done? && q != old(q0) ==> forall a | a in broadcastTo && a != this :: a.triggered
      ensures kind.StateKind? ==> Banded()
      ensures triggered == old(triggered)
      ensures FollowedState(old(Values()), deriv, out)
    {
      ghost var b := Values();
      IntegrateState(deriv);
      out := Schedule(env);
      assert FollowedState(b, deriv, out);
    }

    /** Follow for a source atom: d = f(), dint, q follows x, ta, then publish a move of q. */
    method FollowSource(deriv: real -> real, env: SourceEnv, slewrate: bool) returns (out: Outcome)
      requires Ready() && kind.SourceKind?
      modifies this`d, this`x, this`tlast, this`q, this`q0,
               this`qlo, this`qhi, this`tnext, this`trace, this`dq, this`u, this`uPrev, broadcastTo`triggered
      ensures Ready()
      ensures out.Raised? ==> kind.SourceKind? || out == Raised(TypeError)
      ensures out.Done? ==> tlast == time && q0 == q && (tnext.Fin? ==> tnext.r >= tlast + dtmin.value)
      ensures out.Done? && q != old(q0) ==> forall a | a in broadcastTo && a != this :: a.triggered
      ensures kind.StateKind? ==> Banded()
      ensures triggered == old(triggered)
      ensures FollowedSource(old(Values()), env, slewrate, out)
    {
      ghost var b := Values();
      out := IntegrateSource(env, slewrate);
      if out.Raised? {
        return;
      }
      out := Schedule(env);
      assert FollowedSource(b, env, slewrate, out);
    }
  }

  /** An atom's x, q, q0, band, tlast, u, quantum, slew bound and output arrays, as update finds them. */
  datatype AtomValues = AtomValues(x: real, q: real, q0: real, qlo: real, qhi: real, tlast: real, u: real,
                                   dq: Option<real>, dmax: Option<real>, trace: Option<Trace>)

  /** An event callback run and the time it is scheduled for, by identity. */
  datatype Event = Event(id: nat)

  /** A falsy dtmin or dmax of an atom is replaced by the system's. */
  function Filled(own: Option<real>, system: real): (r: Option<real>)
    ensures Truthy(own) ==> r == own
    ensures r.Some?
  {
    if Truthy(own) then own else Some(system)
  }

  /** What add_device starts from: the system's atom lists and the device atoms' own step bounds. */
  datatype Snapshot = Snapshot(atoms: seq<Atom>, states: seq<Atom>, sources: seq<Atom>, n: int, m: int,
                               dtmins: seq<Option<real>>, dmaxs: seq<Option<real>>, clean: bool)

  /** The atoms' own dtmin values, in order. */
  ghost function Dtmins(s: seq<Atom>): (r: seq<Option<real>>)
    reads s`dtmin
    ensures |r| == |s| && forall i | 0 <= i < |s| :: r[i] == s[i].dtmin
  {
    if s == [] then [] else [s[0].dtmin] + Dtmins(s[1..])
  }

  /** The atoms' clocks, in order. */
  ghost function Times(s: seq<Atom>): (r: seq<real>)
    reads s`time
    ensures |r| == |s| && forall i | 0 <= i < |s| :: r[i] == s[i].time
  {
    if s == [] then [] else [s[0].time] + Times(s[1..])
  }

  /** The atoms' next event times, in order. */
  ghost function Nexts(s: seq<Atom>): (r: seq<ExtReal>)
    reads s`tnext
    ensures |r| == |s| && forall i | 0 <= i < |s| :: r[i] == s[i].tnext
  {
    if s == [] then [] else [s[0].tnext] + Nexts(s[1..])
  }

  /** The atoms' own dmax values, in order. */
  ghost function Dmaxs(s: seq<Atom>): (r: seq<Option<real>>)
    reads s`dmax
    ensures |r| == |s| && forall i | 0 <= i < |s| :: r[i] == s[i].dmax
  {
    if s == [] then [] else [s[0].dmax] + Dmaxs(s[1..])
  }

  /** After restore_state: q and x are the saved ones and the band is centred on q. */
  ghost predicate Restored(a: Atom)
    reads a
  {
    && a.saved.Some? && a.dq.Some?
    && (a.q, a.x) == a.saved.value
    && a.qlo == a.q - a.dq.value && a.qhi == a.q + a.dq.value
  }

  /** Atoms, all distinct. */
  predicate Distinct(s: seq<Atom>)
  {
    s == [] || (s[0] !in s[1..] && Distinct(s[1..]))
  }

  /** Two positions of a distinct sequence hold different atoms. */
  lemma {:induction false} DistinctApart(s: seq<Atom>, i: nat, j: nat)
    requires Distinct(s) && i < j < |s|
    ensures s[i] != s[j]
  {
    if i == 0 {
      assert s[j] == s[1..][j - 1];
    } else {
      DistinctApart(s[1..], i - 1, j - 1);
    }
  }

  /** The state atoms of a sequence, in order. */
  function StatesOf(s: seq<Atom>): (r: seq<Atom>)
    ensures |r| <= |s|
  {
    if s == [] then [] else StatesOf(s[..|s| - 1]) + (if s[|s| - 1].kind.StateKind? then [s[|s| - 1]] else [])
  }

  /** The source atoms of a sequence, in order. */
  function SourcesOf(s: seq<Atom>): (r: seq<Atom>)
    ensures |r| <= |s|
  {
    if s == [] then [] else SourcesOf(s[..|s| - 1]) + (if s[|s| - 1].kind.SourceKind? then [s[|s| - 1]] else [])
  }

  /** Every atom is a state atom or a source atom, so the two filters split a sequence. */
  lemma {:induction false} FiltersSplit(s: seq<Atom>)
    ensures |StatesOf(s)| + |SourcesOf(s)| == |s|
  {
    if s != [] {
      FiltersSplit(s[..|s| - 1]);
    }
  }

  /** The filters keep only atoms of the sequence. */
  lemma {:induction false} FiltersWithin(s: seq<Atom>)
    ensures forall a | a in StatesOf(s) :: a in s && a.kind.StateKind?
    ensures forall a | a in SourcesOf(s) :: a in s && a.kind.SourceKind?
  {
    if s != [] {
      FiltersWithin(s[..|s| - 1]);
    }
  }

  lemma {:induction false} StatesAppend(s: seq<Atom>, t: seq<Atom>)
    ensures StatesOf(s + t) == StatesOf(s) + StatesOf(t)
    decreases |t|
  {
    if t == [] {
      assert s + t == s;
    } else {
      assert (s + t)[..|s + t| - 1] == s + t[..|t| - 1];
      StatesAppend(s, t[..|t| - 1]);
    }
  }

  lemma {:induction false} SourcesAppend(s: seq<Atom>, t: seq<Atom>)
    ensures SourcesOf(s + t) == SourcesOf(s) + SourcesOf(t)
    decreases |t|
  {
    if t == [] {
      assert s + t == s;
    } else {
      assert (s + t)[..|s + t| - 1] == s + t[..|t| - 1];
      SourcesAppend(s, t[..|t| - 1]);
    }
  }

  /** The earliest pending event of a sequence of atoms: min over tnext. */
  function Earliest(s: seq<Atom>): (r: ExtReal)
    reads s`tnext
    ensures forall a | a in s && a.tnext.Fin? :: r.Fin? && r.r <= a.tnext.r
    ensures r.PosInf? || exists a | a in s :: a.tnext == r
  {
    if s == [] then PosInf else MinE(s[|s| - 1].tnext, Earliest(s[..|s| - 1]))
  }

  /** advance's new time: min(max(min tnext, time + _EPS), tstop). */
  function NextTime(earliest: ExtReal, time: real, tstop: real): (t: real)
  {
    var late := MaxE(earliest, time + Eps);
    if late.PosInf? || tstop < late.r then tstop else late.r
  }

  /**
   * advance never passes tstop; short of tstop it moves at least _EPS and
   * lands on the earliest event when that is later; with nothing pending it
   * jumps to tstop.
   */
  lemma NextTimeBounds(earliest: ExtReal, time: real, tstop: real)
    ensures NextTime(earliest, time, tstop) <= tstop
    ensures tstop >= time + Eps ==> NextTime(earliest, time, tstop) >= time + Eps
    ensures earliest.PosInf? ==> NextTime(earliest, time, tstop) == tstop
    ensures earliest.Fin? && time + Eps <= earliest.r <= tstop ==> NextTime(earliest, time, tstop) == earliest.r
    ensures earliest.Fin? && earliest.r <= time + Eps <= tstop ==> NextTime(earliest, time, tstop) == time + Eps
  {
  }

  class System {
    const name: string
    const dtmin: real
    const dmax: real
    var devices: seq<Device>
    var atoms: seq<Atom>
    var stateAtoms: seq<Atom>
    var sourceAtoms: seq<Atom>
    var n: int
    var m: int
    var tstop: real
    var time: real
    var tsave: real
    var enableSlewrate: bool
    var events: map<real, seq<Event>>
    /** The devices set as attributes under their names. */
    var named: map<string, Device>

    /** State atoms are numbered 0..n-1 and source atoms 0..m-1, in the order they were added. */
    ghost predicate Indexed()
      reads this`n, this`m, this`stateAtoms, this`sourceAtoms, stateAtoms`index, sourceAtoms`index
    {
      && n == |stateAtoms| && m == |sourceAtoms|
      && (forall j | 0 <= j < |stateAtoms| :: stateAtoms[j].index == Some(j))
      && (forall j | 0 <= j < |sourceAtoms| :: sourceAtoms[j].index == Some(j))
    }

    /** Every atom of the system is ready to simulate. */
    ghost predicate AllReady()
      reads this`atoms, atoms`dq, atoms`dtmin, atoms`dmax, atoms`trace
    {
      forall a | a in atoms :: a.Ready()
    }

    /** The atoms the system's atoms broadcast to. */
    ghost function Targets(): set<Atom>
      reads this`atoms, atoms`broadcastTo
    {
      set a, b | a in atoms && b in a.broadcastTo :: b
    }

    /** A falsy dtmin or dmax takes the default. */
    constructor (name: string, dtmin: Option<real>, dmax: Option<real>)
      ensures this.name == name && Indexed()
      ensures this.dtmin == (if Truthy(dtmin) then dtmin.value else DefDtMin)
      ensures this.dmax == (if Truthy(dmax) then dmax.value else DefDMax)
      ensures this.dtmin != 0.0 && this.dmax != 0.0
      ensures devices == [] && atoms == [] && stateAtoms == [] && sourceAtoms == []
      ensures tstop == 0.0 && time == 0.0 && tsave == 0.0 && !enableSlewrate && events == map[] && named == map[]
    {
      this.name := name;
      this.dtmin := if Truthy(dtmin) then dtmin.value else DefDtMin;
      this.dmax := if Truthy(dmax) then dmax.value else DefDMax;
      devices, atoms, stateAtoms, sourceAtoms := [], [], [], [];
      n, m := 0, 0;
      tstop, time, tsave := 0.0, 0.0, 0.0;
      enableSlewrate := false;
      events := map[];
      named := map[];
    }

    /** schedule appends the callback to the list for its time, creating the list if needed. */
    method Schedule(func: Event, t: real)
      modifies this`events
      ensures events.Keys == old(events).Keys + {t}
      ensures events[t] == (if t in old(events) then old(events)[t] else []) + [func]
      ensures forall s | s in old(events) && s != t :: events[s] == old(events)[s]
    {
      if t !in events {
        events := events[t := []];
      }
      events := events[t := events[t] + [func]];
    }

    /** The next state or source index goes to the atom, which joins that list. */
    method Number(atom: Atom)
      modifies this`stateAtoms, this`sourceAtoms, this`n, this`m, atom`index
      ensures stateAtoms == old(stateAtoms) + StatesOf([atom]) && n == old(n) + |StatesOf([atom])|
      ensures sourceAtoms == old(sourceAtoms) + SourcesOf([atom]) && m == old(m) + |SourcesOf([atom])|
      ensures old(Indexed()) && old(atom.index).None? ==> Indexed()
    {
      ghost var wasIndexed := Indexed() && atom.index.None?;
      if wasIndexed {
        assert forall j | 0 <= j < |stateAtoms| :: stateAtoms[j] != atom;
        assert forall j | 0 <= j < |sourceAtoms| :: sourceAtoms[j] != atom;
      }
      assert StatesOf([atom]) == (if atom.kind.StateKind? then [atom] else []);
      assert SourcesOf([atom]) == (if atom.kind.SourceKind? then [atom] else []);
      if atom.kind.StateKind? {
        atom.index := Some(n);
        stateAtoms := stateAtoms + [atom];
        n := n + 1;
      } else {
        atom.index := Some(m);
        sourceAtoms := sourceAtoms + [atom];
        m := m + 1;
      }
    }

    /**
     * One atom of add_device, once its quantum is known to be truthy: falsy
     * dtmin and dmax take the system's, the device becomes its owner, and it
     * takes the next state or source index.
     */
    method Enroll(atom: Atom, device: Device)
      requires Truthy(atom.dq)
      modifies this`atoms, this`stateAtoms, this`sourceAtoms, this`n, this`m
      modifies atom`dtmin, atom`dmax, atom`device, atom`index
      ensures atoms == old(atoms) + [atom]
      ensures stateAtoms == old(stateAtoms) + StatesOf([atom]) && n == old(n) + |StatesOf([atom])|
      ensures sourceAtoms == old(sourceAtoms) + SourcesOf([atom]) && m == old(m) + |SourcesOf([atom])|
      ensures atom.device == device
      ensures atom.dtmin == Filled(old(atom.dtmin), dtmin) && atom.dmax == Filled(old(atom.dmax), dmax)
      ensures old(Indexed()) && old(atom.index).None? ==> Indexed()
    {
      if !Truthy(atom.dtmin) {
        atom.dtmin := Some(dtmin);
      }
      if !Truthy(atom.dmax) {
        atom.dmax := Some(dmax);
      }
      atom.device := device;
      atoms := atoms + [atom];
      Number(atom);
    }

    /**
     * add_device part way through the device's atoms: the first k are
     * enrolled on top of the system as it was (s0), and the rest still have
     * their own step bounds, or bounds that fill to the same values.
     */
    ghost predicate Progress(das: seq<Atom>, k: nat, device: Device, s0: Snapshot)
      reads this`atoms, this`n, this`m, this`stateAtoms, this`sourceAtoms
      reads das`device, das`dtmin, das`dmax, das`index, das`dq, stateAtoms`index, sourceAtoms`index
    {
      && k <= |das| && |s0.dtmins| == |das| && |s0.dmaxs| == |das|
      && (forall i | 0 <= i < k :: Truthy(das[i].dq))
      && atoms == s0.atoms + das[..k]
      && stateAtoms == s0.states + StatesOf(das[..k]) && n == s0.n + |StatesOf(das[..k])|
      && sourceAtoms == s0.sources + SourcesOf(das[..k]) && m == s0.m + |SourcesOf(das[..k])|
      && (forall i | 0 <= i < k ::
            das[i].device == device && das[i].dtmin == Filled(s0.dtmins[i], dtmin) && das[i].dmax == Filled(s0.dmaxs[i], dmax))
      && (forall i | k <= i < |das| ::
            Filled(das[i].dtmin, dtmin) == Filled(s0.dtmins[i], dtmin) && Filled(das[i].dmax, dmax) == Filled(s0.dmaxs[i], dmax))
      && (s0.clean ==> Distinct(das) && Indexed() && forall j | k <= j < |das| :: das[j].index.None?)
    }

    /** One turn of add_device's loop over an atom with a truthy quantum. */
    method EnrollNext(das: seq<Atom>, k: nat, device: Device, ghost s0: Snapshot)
      requires Progress(das, k, device, s0) && k < |das| && Truthy(das[k].dq)
      modifies this`atoms, this`stateAtoms, this`sourceAtoms, this`n, this`m
      modifies das`dtmin, das`dmax, das`device, das`index
      ensures Progress(das, k + 1, device, s0)
    {
      var atom := das[k];
      ghost var before := das[..k];
      assert das[..k + 1] == before + [atom];
      StatesAppend(before, [atom]);
      SourcesAppend(before, [atom]);
      if s0.clean {
        forall j | k < j < |das|
          ensures das[j] != atom
        {
          DistinctApart(das, k, j);
        }
      }
      label pre:
      Enroll(atom, device);
      forall i | 0 <= i <= k
        ensures das[i].device == device
        ensures das[i].dtmin == Filled(s0.dtmins[i], dtmin) && das[i].dmax == Filled(s0.dmaxs[i], dmax)
      {
        if das[i] != atom {
          assert das[i].dtmin == old@pre(das[i].dtmin) && das[i].dmax == old@pre(das[i].dmax);
        }
      }
      assert atoms == s0.atoms + das[..k + 1];
      assert stateAtoms == s0.states + StatesOf(before) + StatesOf([atom]);
      assert sourceAtoms == s0.sources + SourcesOf(before) + SourcesOf([atom]);
    }

    /** add_device starts with no atom enrolled. */
    lemma Start(das: seq<Atom>, device: Device, s0: Snapshot)
      requires s0.atoms == atoms && s0.states == stateAtoms && s0.sources == sourceAtoms && s0.n == n && s0.m == m
      requires |s0.dtmins| == |das| && |s0.dmaxs| == |das|
      requires forall i | 0 <= i < |das| :: s0.dtmins[i] == das[i].dtmin && s0.dmaxs[i] == das[i].dmax
      requires s0.clean ==> Indexed() && Distinct(das) && forall j | 0 <= j < |das| :: das[j].index.None?
      ensures Progress(das, 0, device, s0)
    {
      assert das[..0] == [];
      assert StatesOf([]) == [] && SourcesOf([]) == [];
      assert s0.atoms + [] == s0.atoms && s0.states + [] == s0.states && s0.sources + [] == s0.sources;
    }

    /**
     * What enrolling the atoms das of device left behind: the first k atoms,
     * all with a truthy quantum, are appended to atoms and numbered among
     * the state or the source atoms; each knows its device and has its falsy
     * dtmin and dmax filled in; atom k, if any, has a falsy quantum.
     */
    twostate predicate Enrolled(das: seq<Atom>, k: nat, device: Device)
      reads this`atoms, this`stateAtoms, this`sourceAtoms, this`n, this`m, das`device, das`dtmin, das`dmax, das`dq
    {
      && k <= |das| && (forall j | 0 <= j < k :: Truthy(das[j].dq)) && (k < |das| ==> !Truthy(das[k].dq))
      && atoms == old(atoms) + das[..k]
      && stateAtoms == old(stateAtoms) + StatesOf(das[..k]) && n == old(n) + |StatesOf(das[..k])|
      && sourceAtoms == old(sourceAtoms) + SourcesOf(das[..k]) && m == old(m) + |SourcesOf(das[..k])|
      && (forall i | 0 <= i < k ::
            && das[i].device == device
            && das[i].dtmin == Filled(old(das[i].dtmin), dtmin)
            && das[i].dmax == Filled(old(das[i].dmax), dmax))
    }

    /**
     * add_device's loop: atoms are enrolled in order until one has a falsy
     * quantum; k is the number enrolled.
     */
    method EnrollAll(das: seq<Atom>, device: Device) returns (k: nat)
      modifies this`atoms, this`stateAtoms, this`sourceAtoms, this`n, this`m
      modifies das`dtmin, das`dmax, das`device, das`index
      ensures Enrolled(das, k, device) && |atoms| == |old(atoms)| + k
      ensures old(Indexed()) && Distinct(das) && (forall j | 0 <= j < |das| :: old(das[j].index).None?) ==> Indexed()
    {
      ghost var s0 := Snapshot(atoms, stateAtoms, sourceAtoms, n, m, Dtmins(das), Dmaxs(das),
                               Indexed() && Distinct(das) && (forall j | 0 <= j < |das| :: das[j].index.None?));
      Start(das, device, s0);
      k := EnrollLoop(das, device, s0);
    }

    /** The loop itself, kept apart from what it establishes. */
    method EnrollLoop(das: seq<Atom>, device: Device, ghost s0: Snapshot) returns (k: nat)
      requires Progress(das, 0, device, s0)
      modifies this`atoms, this`stateAtoms, this`sourceAtoms, this`n, this`m
      modifies das`dtmin, das`dmax, das`device, das`index
      ensures Progress(das, k, device, s0) && (k < |das| ==> !Truthy(das[k].dq))
    {
      k := 0;
      while k < |das|
        invariant Progress(das, k, device, s0)
      {
        if !Truthy(das[k].dq) {
          return;
        }
        EnrollNext(das, k, device, s0);
        k := k + 1;
      }
    }

    /**
     * add_device: the device is recorded, then its atoms are enrolled in
     * order. An atom with a falsy quantum raises an AttributeError (the
     * system has no dq to give it), leaving the atoms before it enrolled.
     */
    method AddDevice(device: Device) returns (out: Outcome)
      modifies this`devices, this`named, this`atoms, this`stateAtoms, this`sourceAtoms, this`n, this`m
      modifies device.atoms`dtmin, device.atoms`dmax, device.atoms`device, device.atoms`index
      ensures |atoms| >= |old(atoms)| && Enrolled(device.atoms, |atoms| - |old(atoms)|, device)
      ensures devices == old(devices) + [device]
      ensures out.Done? <==> |atoms| - |old(atoms)| == |device.atoms|
      ensures out.Raised? ==> out.error == AttributeError && named == old(named)
      ensures out.Done? ==> named == old(named)[device.name := device]
      ensures old(Indexed()) && Distinct(device.atoms) && (forall j | 0 <= j < |device.atoms| :: old(device.atoms[j].index).None?)
              ==> Indexed()
    {
      var das := device.atoms;
      var k := EnrollAll(das, device);
      devices := devices + [device];
      if k < |das| {
        return Raised(AttributeError);
      }
      named := named[device.name := device];
      out := Done;
    }

    /** save_state: the clock and every atom's q and x are kept for restore_state. */
    method SaveState()
      modifies this`tsave, atoms`saved
      ensures tsave == time
      ensures forall a | a in atoms :: a.saved == Some((a.q, a.x))
    {
      tsave := time;
      for j := 0 to |atoms|
        invariant tsave == time
        invariant forall i | 0 <= i < j :: atoms[i].saved == Some((atoms[i].q, atoms[i].x))
      {
        atoms[j].saved := Some((atoms[j].q, atoms[j].x));
      }
    }

    /** One atom of restore_state. */
    method RestoreAtom(atom: Atom) returns (out: Outcome)
      modifies atom`q, atom`x, atom`qlo, atom`qhi
      ensures out.Done? <==> atom.saved.Some? && atom.dq.Some?
      ensures out.Raised? ==> out.error == (if atom.saved.None? then AttributeError else TypeError)
      ensures out.Done? ==> Restored(atom)
    {
      if atom.saved.None? {
        return Raised(AttributeError);
      }
      atom.q, atom.x := atom.saved.value.0, atom.saved.value.1;
      if atom.dq.None? {
        return Raised(TypeError);
      }
      atom.qhi := atom.q + atom.dq.value;
      atom.qlo := atom.q - atom.dq.value;
      out := Done;
    }

    /**
     * restore_state: the clock goes back to tsave and every atom takes back
     * its saved q and x, with its band re-centred on q. An atom never saved
     * raises an AttributeError; one without a quantum a TypeError.
     */
    method RestoreState() returns (out: Outcome)
      modifies this`time, atoms`q, atoms`x, atoms`qlo, atoms`qhi
      ensures time == tsave
      ensures out.Done? <==> forall a | a in atoms :: a.saved.Some? && a.dq.Some?
      ensures out.Raised? ==> out.error == AttributeError || out.error == TypeError
      ensures out.Done? ==> forall a | a in atoms :: Restored(a)
    {
      time := tsave;
      for j := 0 to |atoms|
        invariant time == tsave
        invariant forall i | 0 <= i < j :: Restored(atoms[i])
      {
        out := RestoreAtom(atoms[j]);
        if out.Raised? {
          return;
        }
      }
      out := Done;
    }

    /** advance's first loop: the earliest pending event over all atoms. */
    method EarliestEvent() returns (tn: ExtReal)
      ensures tn == Earliest(atoms)
    {
      tn := PosInf;
      for j := 0 to |atoms|
        invariant tn == Earliest(atoms[..j])
      {
        assert atoms[..j + 1][..j] == atoms[..j];
        tn := MinE(atoms[j].tnext, tn);
      }
      assert atoms[..|atoms|] == atoms;
    }

    /** One atom.update(self.time) of advance, seen from the system. */
    method Visit(atom: Atom, deriv: Atom -> real -> real, env: Atom -> SourceEnv) returns (out: Outcome)
      requires atom in atoms && AllReady()
      modifies atoms`time, atoms`updates, atoms`triggered, atoms`d, atoms`d0, atoms`x, atoms`tlast, atoms`q, atoms`q0,
               atoms`qlo, atoms`qhi, atoms`tnext, atoms`trace, atoms`dq, atoms`u, atoms`uPrev, Targets()`triggered
      ensures AllReady()
      ensures atom.time == time
      ensures forall i | 0 <= i < |atoms| && atoms[i] != atom :: atoms[i].time == old(atoms[i].time) && atoms[i].tnext == old(atoms[i].tnext)
    {
      assert forall b | b in atom.broadcastTo :: b in Targets();
      out := atom.Update(time, deriv(atom), env(atom), enableSlewrate);
    }

    /**
     * How far advance's second loop has got: of the first j atoms, every one
     * due at entry (by its entry tnext, tn) is at the new time; every atom's
     * clock is its entry clock (t0) or the new time; an atom not yet reached
     * still has its entry tnext unless it was reached under another index.
     */
    ghost predicate Swept(j: nat, t0: seq<real>, tn: seq<ExtReal>)
      reads this`atoms, this`time, this`tstop, atoms`time, atoms`tnext
    {
      && j <= |atoms| && |t0| == |atoms| && |tn| == |atoms|
      && (forall i | 0 <= i < j && (tn[i].LessEq(time) || time >= tstop) :: atoms[i].time == time)
      && (forall i | 0 <= i < |atoms| :: atoms[i].time == t0[i] || atoms[i].time == time)
      && (forall i | j <= i < |atoms| :: atoms[i].time == time || atoms[i].tnext == tn[i])
    }

    /** One turn of advance's second loop: atom j is updated when it is due or the run is over. */
    method SweepAt(j: nat, deriv: Atom -> real -> real, env: Atom -> SourceEnv, ghost t0: seq<real>, ghost tn: seq<ExtReal>)
      returns (out: Outcome)
      requires AllReady() && j < |atoms| && Swept(j, t0, tn)
      modifies atoms`time, atoms`updates, atoms`triggered, atoms`d, atoms`d0, atoms`x, atoms`tlast, atoms`q, atoms`q0,
               atoms`qlo, atoms`qhi, atoms`tnext, atoms`trace, atoms`dq, atoms`u, atoms`uPrev, Targets()`triggered
      ensures AllReady() && Swept(j + 1, t0, tn)
    {
      out := Done;
      var atom := atoms[j];
      if atom.tnext.LessEq(time) || time >= tstop {
        out := Visit(atom, deriv, env);
      }
    }

    /**
     * advance's second loop: every atom whose event is due by the new time,
     * or all of them once the clock reached tstop, is updated.
     */
    method Sweep(deriv: Atom -> real -> real, env: Atom -> SourceEnv) returns (out: Outcome)
      requires AllReady()
      modifies atoms`time, atoms`updates, atoms`triggered, atoms`d, atoms`d0, atoms`x, atoms`tlast, atoms`q, atoms`q0,
               atoms`qlo, atoms`qhi, atoms`tnext, atoms`trace, atoms`dq, atoms`u, atoms`uPrev, Targets()`triggered
      ensures AllReady()
      ensures out.Done? ==> forall i | 0 <= i < |atoms| && (old(atoms[i].tnext).LessEq(time) || time >= tstop) :: atoms[i].time == time
      ensures forall i | 0 <= i < |atoms| :: atoms[i].time == old(atoms[i].time) || atoms[i].time == time
    {
      out := Done;
      ghost var t0, tn := Times(atoms), Nexts(atoms);
      for j := 0 to |atoms|
        invariant AllReady() && Swept(j, t0, tn)
      {
        out := SweepAt(j, deriv, env, t0, tn);
        if out.Raised? {
          return;
        }
      }
    }

    /**
     * One pass of advance's trigger loop: every triggered atom is updated,
     * which may trigger others; quiet says none was triggered.
     */
    method Pass(deriv: Atom -> real -> real, env: Atom -> SourceEnv) returns (out: Outcome, quiet: bool)
      requires AllReady()
      modifies atoms`time, atoms`updates, atoms`triggered, atoms`d, atoms`d0, atoms`x, atoms`tlast, atoms`q, atoms`q0,
               atoms`qlo, atoms`qhi, atoms`tnext, atoms`trace, atoms`dq, atoms`u, atoms`uPrev, Targets()`triggered
      ensures AllReady()
      ensures quiet ==> out.Done? && forall i | 0 <= i < |atoms| :: !atoms[i].triggered
      ensures forall i | 0 <= i < |atoms| :: atoms[i].time == old(atoms[i].time) || atoms[i].time == time
    {
      out, quiet := Done, true;
      ghost var t0 := Times(atoms);
      for j := 0 to |atoms|
        invariant AllReady() && Clocked(t0)
        invariant quiet ==> out.Done? && Quiet(j)
      {
        var busy;
        out, busy := PassAt(j, deriv, env, t0);
        quiet := quiet && !busy;
        if out.Raised? {
          return;
        }
      }
    }

    /** Every atom's clock is the one in t0 or the system's time. */
    ghost predicate Clocked(t0: seq<real>)
      reads this`atoms, this`time, atoms`time
    {
      |t0| == |atoms| && forall i | 0 <= i < |atoms| :: atoms[i].time == t0[i] || atoms[i].time == time
    }

    /** None of the first j atoms is triggered. */
    ghost predicate Quiet(j: nat)
      reads this`atoms, atoms`triggered
    {
      j <= |atoms| && forall i | 0 <= i < j :: !atoms[i].triggered
    }

    /** One turn of a trigger pass: atom j is updated when it is triggered; busy says it was. */
    method PassAt(j: nat, deriv: Atom -> real -> real, env: Atom -> SourceEnv, ghost t0: seq<real>)
      returns (out: Outcome, busy: bool)
      requires AllReady() && j < |atoms| && Clocked(t0)
      modifies atoms`time, atoms`updates, atoms`triggered, atoms`d, atoms`d0, atoms`x, atoms`tlast, atoms`q, atoms`q0,
               atoms`qlo, atoms`qhi, atoms`tnext, atoms`trace, atoms`dq, atoms`u, atoms`uPrev, Targets()`triggered
      ensures AllReady() && Clocked(t0)
      ensures !busy ==> out.Done? && (old(Quiet(j)) ==> Quiet(j + 1))
    {
      out, busy := Done, false;
      var atom := atoms[j];
      if atom.triggered {
        busy := true;
        out := Visit(atom, deriv, env);
      }
    }

    /**
     * advance's trigger loop: passes repeat until one finds nothing
     * triggered, at most _MAXITER times; passes counts the busy ones.
     */
    method Settle(deriv: Atom -> real -> real, env: Atom -> SourceEnv) returns (out: Outcome, ghost passes: nat)
      requires AllReady()
      modifies atoms`time, atoms`updates, atoms`triggered, atoms`d, atoms`d0, atoms`x, atoms`tlast, atoms`q, atoms`q0,
               atoms`qlo, atoms`qhi, atoms`tnext, atoms`trace, atoms`dq, atoms`u, atoms`uPrev, Targets()`triggered
      ensures AllReady()
      ensures passes <= MaxIter
      ensures out.Done? && passes < MaxIter ==> forall i | 0 <= i < |atoms| :: !atoms[i].triggered
      ensures forall i | 0 <= i < |atoms| :: atoms[i].time == old(atoms[i].time) || atoms[i].time == time
    {
      var i := 0;
      out := Done;
      while i < MaxIter
        invariant 0 <= i <= MaxIter
        invariant AllReady()
        invariant forall k | 0 <= k < |atoms| :: atoms[k].time == old(atoms[k].time) || atoms[k].time == time
      {
        var quiet;
        out, quiet := Pass(deriv, env);
        if out.Raised? {
          return out, i;
        }
        if quiet {
          return Done, i;
        }
        i := i + 1;
      }
      passes := i;
    }

    /** advance after the clock moved: the due atoms, then the triggered ones. */
    method Respond(deriv: Atom -> real -> real, env: Atom -> SourceEnv) returns (out: Outcome, ghost passes: nat)
      requires AllReady()
      modifies atoms`time, atoms`updates, atoms`triggered, atoms`d, atoms`d0, atoms`x, atoms`tlast, atoms`q, atoms`q0,
               atoms`qlo, atoms`qhi, atoms`tnext, atoms`trace, atoms`dq, atoms`u, atoms`uPrev, Targets()`triggered
      ensures AllReady()
      ensures out.Done? ==> forall i | 0 <= i < |atoms| && (old(atoms[i].tnext).LessEq(time) || time >= tstop) :: atoms[i].time == time
      ensures out.Done? && passes < MaxIter ==> forall i | 0 <= i < |atoms| :: !atoms[i].triggered
    {
      passes := 0;
      out := Sweep(deriv, env);
      if out.Raised? {
        return;
      }
      out, passes := Settle(deriv, env);
    }

    /** advance's first loop and the clock update that follows it. */
    method Clock()
      modifies this`time
      ensures time == NextTime(old(Earliest(atoms)), old(time), tstop) && time <= tstop
    {
      var tn := EarliestEvent();
      NextTimeBounds(tn, time, tstop);
      time := NextTime(tn, time, tstop);
    }

    /**
     * advance: the clock moves to the earliest pending event, at least _EPS
     * on and at most tstop; the due atoms are updated, then the triggered
     * ones until the system settles.
     */
    method Advance(deriv: Atom -> real -> real, env: Atom -> SourceEnv) returns (out: Outcome, ghost passes: nat)
      requires AllReady()
      modifies this`time, atoms`time, atoms`updates, atoms`triggered, atoms`d, atoms`d0, atoms`x, atoms`tlast, atoms`q, atoms`q0,
               atoms`qlo, atoms`qhi, atoms`tnext, atoms`trace, atoms`dq, atoms`u, atoms`uPrev, Targets()`triggered
      ensures AllReady()
      ensures time == NextTime(old(Earliest(atoms)), old(time), tstop) && time <= tstop
      ensures out.Done? ==> forall i | 0 <= i < |atoms| && (old(atoms[i].tnext).LessEq(time) || time >= tstop) :: atoms[i].time == time
      ensures out.Done? && passes < MaxIter ==> forall i | 0 <= i < |atoms| :: !atoms[i].triggered
    {
      ghost var targets := Targets();
      Clock();
      assert Targets() == targets && AllReady();
      assert forall i | 0 <= i < |atoms| :: atoms[i].tnext == old(atoms[i].tnext);
      ghost var clock := time;
      out, passes := Respond(deriv, env);
      assert time == clock;
    }
  }
}
