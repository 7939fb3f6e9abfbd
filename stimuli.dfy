// Independent-source stimuli: the SPICE PULSE waveform, the piecewise-linear
// table PWL, and the branch structure of SIN and EXP around their abstract
// transcendental parts.
module Stimuli {
  import opened Wrappers
  import opened PyOps
  import opened Interfaces

  // ---------------------------------------------------------------------------
  // PULSE
  // ---------------------------------------------------------------------------

  /** A rise or fall fraction (t - t0) / dur taken on [t0, t0 + dur) lies in [0, 1). */
  lemma RampFraction(n: real, d: real)
    requires 0.0 <= n < d
    ensures 0.0 <= n / d < 1.0
  {
    var f := n / d;
    assert f * d == n;
  }

  /** Moving from a toward b by a fraction in [0, 1] stays between a and b. */
  lemma TowardBetween(a: real, b: real, f: real)
    requires 0.0 <= f <= 1.0
    ensures Min(a, b) <= a + (b - a) * f <= Max(a, b)
  {
    if a <= b {
      MulNonneg(b - a, f);
      MulNonneg(b - a, 1.0 - f);
    } else {
      MulNonneg(a - b, f);
      MulNonneg(a - b, 1.0 - f);
    }
  }

  /** The level n into a d-long linear ramp from a to b. */
  function LinearRamp(a: real, b: real, n: real, d: real): real
    requires d != 0.0
  {
    a + (b - a) * n / d
  }

  /** Taken inside its interval, a linear ramp stays between its two levels. */
  lemma LinearRampBetween(a: real, b: real, n: real, d: real)
    requires 0.0 <= n < d
    ensures Min(a, b) <= LinearRamp(a, b, n, d) <= Max(a, b)
  {
    RampFraction(n, d);
    var f := n / d;
    TowardBetween(a, b, f);
    assert f * d == n;
    assert (b - a) * n == ((b - a) * f) * d;
    assert LinearRamp(a, b, n, d) == a + (b - a) * f;
  }

  /**
   * The pulse shape on one period, at a time already reduced modulo the period:
   * v2 on the plateau, a linear rise before it, a linear fall after it, and v1
   * elsewhere. Each ramp interval is empty unless its duration is positive, so
   * the divisions never see zero; the value stays between v1 and v2.
   */
  function PulseShape(v1: real, v2: real, td: real, tr: real, tf: real, pw: real, t: real): (v: real)
    ensures Min(v1, v2) <= v <= Max(v1, v2)
    ensures td + tr <= t < td + tr + pw ==> v == v2
    ensures tr >= 0.0 && pw >= 0.0 && tf >= 0.0 && !(td <= t < td + tr + pw + tf) ==> v == v1
  {
    if td + tr <= t < td + tr + pw then v2
    else if td <= t < td + tr then
      LinearRampBetween(v1, v2, t - td, tr);
      LinearRamp(v1, v2, t - td, tr)
    else if td + tr + pw <= t < td + tr + pw + tf then
      LinearRampBetween(v2, v1, t - (td + tr + pw), tf);
      LinearRamp(v2, v1, t - (td + tr + pw), tf)
    else v1
  }

  /**
   * The corners of one pulse: v1 at the delay, v2 at the end of the rise and at
   * the end of the plateau, v1 again at the end of the fall, for positive
   * durations.
   */
  lemma PulseCorners(v1: real, v2: real, td: real, tr: real, tf: real, pw: real)
    requires tr > 0.0 && tf > 0.0 && pw > 0.0
    ensures PulseShape(v1, v2, td, tr, tf, pw, td) == v1
    ensures PulseShape(v1, v2, td, tr, tf, pw, td + tr) == v2
    ensures PulseShape(v1, v2, td, tr, tf, pw, td + tr + pw) == v2
    ensures PulseShape(v1, v2, td, tr, tf, pw, td + tr + pw + tf) == v1
  {
    assert (v2 - v1) * (td - td) / tr == 0.0;
    assert (v1 - v2) * (td + tr + pw - (td + tr + pw)) / tf == 0.0;
  }

  /**
   * step's chain of comparisons on the reduced time t, in Python's order:
   * the plateau test reads pw once t >= td + tr, the fall test reads pw when
   * neither the plateau nor the rise applies and tf once t >= td + tr + pw;
   * reading a pw or tf still None is a TypeError.
   */
  function PulseAt(v1: real, v2: real, td: real, tr: real, tf: Option<real>, pw: Option<real>, t: real): (r: Result<real>)
    ensures pw.Some? && tf.Some? ==> r == Ok(PulseShape(v1, v2, td, tr, tf.value, pw.value, t))
    ensures pw.None? ==> (r.Err? <==> !(td <= t < td + tr))
    ensures pw.Some? && tf.None? ==> (r.Err? <==> td + tr + pw.value <= t && !(td <= t < td + tr))
    ensures r.Err? ==> r == Err(TypeError)
    ensures r.Ok? ==> Min(v1, v2) <= r.value <= Max(v1, v2)
  {
    if td + tr <= t && pw.None? then Err(TypeError)
    else if td + tr <= t && t < td + tr + pw.value then Ok(v2)
    else if td <= t < td + tr then Ok(PulseShape(v1, v2, td, tr, 0.0, 0.0, t))
    else if pw.None? then Err(TypeError)
    else if td + tr + pw.value <= t && tf.None? then Err(TypeError)
    else if td + tr + pw.value <= t && t < td + tr + pw.value + tf.value then
      Ok(PulseShape(v1, v2, td, tr, tf.value, pw.value, t))
    else Ok(v1)
  }

  /**
   * `t %= per` on a float: an infinite period leaves non-negative times alone
   * and sends negative ones to +inf; a zero period raises ZeroDivisionError.
   */
  function ModPeriod(t: real, per: ExtReal): (r: Result<ExtReal>)
    ensures per == Fin(0.0) <==> r.Err?
    ensures r.Err? ==> r.error == ZeroDivisionError
    ensures per.PosInf? && t >= 0.0 ==> r == Ok(Fin(t))
  {
    match per
    case PosInf => if t >= 0.0 then Ok(Fin(t)) else Ok(PosInf)
    case Fin(p) => if p == 0.0 then Err(ZeroDivisionError) else Ok(Fin(FMod(t, p)))
  }

  /** A PULSE stimulus; the optional durations are None until start fills them. */
  class Pulse {
    var v1: real
    var v2: real
    var td: real
    var tr: Option<real>
    var tf: Option<real>
    var pw: Option<real>
    var per: Option<ExtReal>

    constructor (v1: real, v2: real, td: real, tr: Option<real>, tf: Option<real>, pw: Option<real>, per: Option<ExtReal>)
      ensures this.v1 == v1 && this.v2 == v2 && this.td == td
      ensures this.tr == tr && this.tf == tf && this.pw == pw && this.per == per
    {
      this.v1 := v1;
      this.v2 := v2;
      this.td := td;
      this.tr := tr;
      this.tf := tf;
      this.pw := pw;
      this.per := per;
    }

    /** start: only the missing durations are filled, with dt, and a missing period becomes +inf. */
    method Start(dt: real) returns (v: real)
      modifies this`tr, this`tf, this`pw, this`per
      ensures v == v1
      ensures tr == Some(old(tr).GetOr(dt)) && tf == Some(old(tf).GetOr(dt)) && pw == Some(old(pw).GetOr(dt))
      ensures per == Some(old(per).GetOr(PosInf))
    {
      if tr.None? {
        tr := Some(dt);
      }
      if tf.None? {
        tf := Some(dt);
      }
      if pw.None? {
        pw := Some(dt);
      }
      if per.None? {
        per := Some(PosInf);
      }
      v := v1;
    }

    /**
     * step: the time is reduced modulo the period, then shaped. A period still
     * None (start not yet called) is a TypeError and a zero period divides by
     * zero; then the rise time is read at once, and pw and tf only when the
     * comparisons reach them (PulseAt).
     */
    function Step(t: real): (r: Result<real>)
      reads this
      ensures per.None? ==> r == Err(TypeError)
      ensures per == Some(Fin(0.0)) ==> r == Err(ZeroDivisionError)
      ensures per.Some? && per != Some(Fin(0.0)) && tr.None? ==> r == Err(TypeError)
      ensures per.Some? && per.value.Fin? && per.value.r != 0.0 && tr.Some? ==>
                r == PulseAt(v1, v2, td, tr.value, tf, pw, FMod(t, per.value.r))
      ensures tr.Some? && tf.Some? && pw.Some? ==> (r.Err? <==> per.None? || per == Some(Fin(0.0)))
      ensures r.Ok? ==> Min(v1, v2) <= r.value <= Max(v1, v2)
    {
      if per.None? then Err(TypeError)
      else
        var m := ModPeriod(t, per.value);
        if m.Err? then Err(m.error)
        else if tr.None? then Err(TypeError)
        else match m.value
          case PosInf => if pw.None? || tf.None? then Err(TypeError) else Ok(v1)
          case Fin(tm) => PulseAt(v1, v2, td, tr.value, tf, pw, tm)
    }
  }

  /** A finite period makes the pulse periodic. */
  lemma PulsePeriodic(p: Pulse, t: real)
    requires p.per.Some? && p.per.value.Fin? && p.per.value.r != 0.0
    ensures p.Step(t + p.per.value.r) == p.Step(t)
  {
    FModShift(t, p.per.value.r);
  }

  /** With no period given, the pulse happens once: after start, late times hold v1. */
  lemma PulseOnce(p: Pulse, t: real)
    requires p.per == Some(PosInf) && p.tr.Some? && p.tf.Some? && p.pw.Some?
    requires p.tr.value >= 0.0 && p.pw.value >= 0.0 && p.tf.value >= 0.0
    requires t >= p.td + p.tr.value + p.pw.value + p.tf.value
    ensures p.Step(t) == Ok(p.v1)
  {
  }

  // ---------------------------------------------------------------------------
  // SIN
  // ---------------------------------------------------------------------------

  /** A SIN stimulus; math.exp, math.sin and math.pi are parameters of its step. */
  class Sin {
    var vo: real
    var va: real
    var freq: real
    var td: real
    var theta: real
    var phi: real

    constructor (vo: real, va: real, freq: real, td: real, theta: real, phi: real)
      ensures this.vo == vo && this.va == va && this.freq == freq
      ensures this.td == td && this.theta == theta && this.phi == phi
    {
      this.vo := vo;
      this.va := va;
      this.freq := freq;
      this.td := td;
      this.theta := theta;
      this.phi := phi;
    }

    /**
     * step: 0.0 before the delay (not the offset vo), then the damped or plain
     * sine; a truthy theta selects the damped form.
     */
    function Step(t: real, exp: real -> real, sin: real -> real, pi: real): (r: real)
      reads this
      ensures t < td ==> r == 0.0
    {
      if t < td then 0.0
      else if theta != 0.0 then vo + va * exp(-(t + td) / theta) * sin(2.0 * pi * freq * (t + td) + phi)
      else vo + va * sin(2.0 * pi * freq * (t + td) + phi)
    }

    /** start is step at time 0. */
    function Start(exp: real -> real, sin: real -> real, pi: real): (r: real)
      reads this
      ensures td > 0.0 ==> r == 0.0
      ensures td <= 0.0 ==> r == Step(0.0, exp, sin, pi)
    {
      Step(0.0, exp, sin, pi)
    }
  }

  /** Before its delay a SIN source outputs 0, so a non-zero offset is missing until the delay. */
  lemma SinBeforeDelayIsZero(s: Sin, t: real, exp: real -> real, sin: real -> real, pi: real)
    requires t < s.td && s.vo != 0.0
    ensures s.Step(t, exp, sin, pi) == 0.0 != s.vo
  {
  }

  // ---------------------------------------------------------------------------
  // EXP
  // ---------------------------------------------------------------------------

  /** The parameters of an EXP stimulus; the optional ones are None until start. */
  datatype ExpParams = ExpParams(v1: real, v2: real, td1: real, tau1: Option<real>, td2: Option<real>, tau2: Option<real>)

  /** Python truthiness of an optional number. */
  predicate Given(x: Option<real>)
  {
    x.Some? && x.value != 0.0
  }

  /** Exp.start: falsy time constants become dt, a falsy second delay becomes td1 + dt. */
  function ExpStart(e: ExpParams, dt: real): (s: ExpParams)
    ensures s.v1 == e.v1 && s.v2 == e.v2 && s.td1 == e.td1
    ensures s.tau1 == (if Given(e.tau1) then e.tau1 else Some(dt))
    ensures s.td2 == (if Given(e.td2) then e.td2 else Some(e.td1 + dt))
    ensures s.tau2 == (if Given(e.tau2) then e.tau2 else Some(dt))
    ensures dt != 0.0 ==> Given(s.tau1) && Given(s.tau2)
  {
    e.(tau1 := if Given(e.tau1) then e.tau1 else Some(dt),
       td2 := if Given(e.td2) then e.td2 else Some(e.td1 + dt),
       tau2 := if Given(e.tau2) then e.tau2 else Some(dt))
  }

  /**
   * The tail expression of Exp.step, evaluated left to right: the rise term
   * divides by tau1 first, then the fall term subtracts td2 and divides by
   * tau2. A None operand is a TypeError and a zero divisor a
   * ZeroDivisionError, whichever the evaluation meets first.
   */
  function ExpTail(e: ExpParams, t: real, exp: real -> real, offset: real): (r: Result<real>)
    ensures r.Ok? <==> Given(e.tau1) && Given(e.tau2) && e.td2.Some?
    ensures e.tau1.None? ==> r == Err(TypeError)
    ensures e.tau1 == Some(0.0) ==> r == Err(ZeroDivisionError)
    ensures Given(e.tau1) && (e.td2.None? || e.tau2.None?) ==> r == Err(TypeError)
    ensures Given(e.tau1) && e.td2.Some? && e.tau2 == Some(0.0) ==> r == Err(ZeroDivisionError)
  {
    if e.tau1.None? then Err(TypeError)
    else if e.tau1.value == 0.0 then Err(ZeroDivisionError)
    else if e.td2.None? || e.tau2.None? then Err(TypeError)
    else if e.tau2.value == 0.0 then Err(ZeroDivisionError)
    else Ok(offset + (e.v2 - e.v1) * (1.0 - exp(-(t - e.td1) / e.tau1.value))
            + (e.v1 - e.v2) * (1.0 - exp(-(t - e.td2.value) / e.tau2.value)))
  }

  /**
   * Exp.step as written: the first test is `0.0 >= t < td1`, so v1 is held only
   * at non-positive times; the middle test `td1 <= t < td1` never holds; the
   * remaining branch adds a constant 1.0 to the two exponential terms.
   */
  function ExpStep(e: ExpParams, t: real, exp: real -> real): (r: Result<real>)
    ensures t <= 0.0 && t < e.td1 ==> r == Ok(e.v1)
    ensures !(t <= 0.0 && t < e.td1) ==> r == ExpTail(e, t, exp, 1.0)
  {
    if 0.0 >= t && t < e.td1 then Ok(e.v1)
    else if e.td1 <= t < e.td1 then
      assert false;
      Ok(e.v1)
    else ExpTail(e, t, exp, 1.0)
  }

  /**
   * The rise alone, v1 + (v2 - v1)*(1 - exp(-(t - td1)/tau1)): a None tau1 is a
   * TypeError and a zero one a ZeroDivisionError.
   */
  function ExpRise(e: ExpParams, t: real, exp: real -> real): (r: Result<real>)
    ensures r.Ok? <==> Given(e.tau1)
    ensures e.tau1.None? ==> r == Err(TypeError)
    ensures e.tau1 == Some(0.0) ==> r == Err(ZeroDivisionError)
    ensures exp(0.0) == 1.0 && t == e.td1 && Given(e.tau1) ==> r == Ok(e.v1)
  {
    if e.tau1.None? then Err(TypeError)
    else if e.tau1.value == 0.0 then Err(ZeroDivisionError)
    else
      assert t == e.td1 ==> -(t - e.td1) / e.tau1.value == 0.0;
      Ok(e.v1 + (e.v2 - e.v1) * (1.0 - exp(-(t - e.td1) / e.tau1.value)))
  }

  /**
   * Exp.step as evidently intended: v1 before the rise delay, the rise alone
   * between the two delays (a None td2 cannot be compared, a TypeError), and
   * rise plus fall built on v1 from td2 on.
   */
  function ExpStepIntended(e: ExpParams, t: real, exp: real -> real): (r: Result<real>)
    ensures t < e.td1 ==> r == Ok(e.v1)
    ensures e.td1 <= t && e.td2.None? ==> r == Err(TypeError)
    ensures e.td1 <= t && e.td2.Some? && t < e.td2.value ==> r == ExpRise(e, t, exp)
    ensures e.td1 <= t && e.td2.Some? && e.td2.value <= t ==> r == ExpTail(e, t, exp, e.v1)
  {
    if t < e.td1 then Ok(e.v1)
    else if e.td2.None? then Err(TypeError)
    else if t < e.td2.value then ExpRise(e, t, exp)
    else ExpTail(e, t, exp, e.v1)
  }

  /**
   * The intended waveform has no jump at the fall delay: with exp(0) = 1 the
   * fall term vanishes at td2, so rise plus fall there equals the rise alone.
   */
  lemma ExpIntendedJoinsAtTd2(e: ExpParams, exp: real -> real)
    requires exp(0.0) == 1.0 && Given(e.tau1) && Given(e.tau2) && e.td2.Some?
    ensures ExpTail(e, e.td2.value, exp, e.v1) == ExpRise(e, e.td2.value, exp)
  {
    assert -(e.td2.value - e.td2.value) / e.tau2.value == 0.0;
  }

  /**
   * With both delays equal and exp(0) = 1, the waveform at the delay should still
   * be v1 (both exponential terms vanish); as written it is 1.0: v1 = 0, v2 = 5,
   * td1 = td2 = 0.001, tau1 = tau2 = 0.001 gives 1.0 at t = 0.001.
   */
  lemma ExpStepOffset(exp: real -> real)
    requires exp(0.0) == 1.0
    ensures var e := ExpParams(0.0, 5.0, 0.001, Some(0.001), Some(0.001), Some(0.001));
            ExpStep(e, 0.001, exp) == Ok(1.0) && ExpStepIntended(e, 0.001, exp) == Ok(0.0)
  {
    var e := ExpParams(0.0, 5.0, 0.001, Some(0.001), Some(0.001), Some(0.001));
    assert -(0.001 - e.td1) / e.tau1.value == 0.0;
    assert -(0.001 - e.td2.value) / e.tau2.value == 0.0;
  }

  /** The intended waveform starts at v1 at its rise delay whenever the fall delay is no earlier and exp(0) = 1. */
  lemma ExpIntendedStartsAtV1(e: ExpParams, exp: real -> real)
    requires exp(0.0) == 1.0 && Given(e.tau1) && Given(e.tau2) && e.td2.Some? && e.td2.value >= e.td1
    ensures ExpStepIntended(e, e.td1, exp) == Ok(e.v1)
  {
    assert -(e.td1 - e.td1) / e.tau1.value == 0.0;
    if e.td2.value == e.td1 {
      assert -(e.td1 - e.td2.value) / e.tau2.value == 0.0;
    }
  }

  // ---------------------------------------------------------------------------
  // PWL
  // ---------------------------------------------------------------------------

  /**
   * A (time, value) argument of Pwl as float() sees it: Some number, or None for
   * a string float() rejects with ValueError.
   */
  type PwlArg = (Option<real>, Option<real>)

  /**
   * Pwl.__init__ as written: the time is appended before the value is
   * converted, so a pair whose value is rejected leaves an extra time behind.
   */
  function PwlLists(pairs: seq<PwlArg>): (r: (seq<real>, seq<real>))
    ensures |r.0| >= |r.1|
  {
    if pairs == [] then ([], [])
    else
      var (xp, yp) := PwlLists(pairs[..|pairs| - 1]);
      var (time, value) := pairs[|pairs| - 1];
      if time.None? then (xp, yp)
      else if value.None? then (xp + [time.value], yp)
      else (xp + [time.value], yp + [value.value])
  }

  /** The constructor as evidently intended: a pair is kept only when both halves convert. */
  function PwlListsIntended(pairs: seq<PwlArg>): (r: (seq<real>, seq<real>))
    ensures |r.0| == |r.1| <= |pairs|
  {
    if pairs == [] then ([], [])
    else
      var (xp, yp) := PwlListsIntended(pairs[..|pairs| - 1]);
      var (time, value) := pairs[|pairs| - 1];
      if time.Some? && value.Some? then (xp + [time.value], yp + [value.value]) else (xp, yp)
  }

  /** The pair (x, y) is one of the arguments, both halves convertible. */
  ghost predicate KeptFrom(pairs: seq<PwlArg>, x: real, y: real)
  {
    exists j :: 0 <= j < |pairs| && pairs[j] == (Some(x), Some(y))
  }

  /** The intended constructor keeps only convertible argument pairs, with each time next to its own value. */
  lemma {:induction false} PwlListsIntendedKeeps(pairs: seq<PwlArg>)
    ensures forall k | 0 <= k < |PwlListsIntended(pairs).0| ::
              KeptFrom(pairs, PwlListsIntended(pairs).0[k], PwlListsIntended(pairs).1[k])
  {
    if pairs != [] {
      var init := pairs[..|pairs| - 1];
      PwlListsIntendedKeeps(init);
      var r0 := PwlListsIntended(init);
      var r := PwlListsIntended(pairs);
      forall k | 0 <= k < |r.0|
        ensures KeptFrom(pairs, r.0[k], r.1[k])
      {
        if k < |r0.0| {
          assert r.0[k] == r0.0[k] && r.1[k] == r0.1[k];
          assert KeptFrom(init, r0.0[k], r0.1[k]);
          var j :| 0 <= j < |init| && init[j] == (Some(r0.0[k]), Some(r0.1[k]));
          assert pairs[j] == init[j];
        } else {
          assert pairs[|pairs| - 1] == (Some(r.0[k]), Some(r.1[k]));
        }
      }
    }
  }

  /** When every pair converts, the two constructors agree. */
  lemma {:induction false} PwlListsAgree(pairs: seq<PwlArg>)
    requires forall j | 0 <= j < |pairs| :: pairs[j].0.Some? == pairs[j].1.Some?
    ensures PwlLists(pairs) == PwlListsIntended(pairs)
  {
    if pairs != [] {
      var init := pairs[..|pairs| - 1];
      assert forall j | 0 <= j < |init| :: init[j] == pairs[j];
      PwlListsAgree(init);
      var last := pairs[|pairs| - 1];
      assert last.0.Some? == last.1.Some?;
      if last.0.None? {
        assert PwlLists(pairs) == PwlLists(init);
        assert PwlListsIntended(pairs) == PwlListsIntended(init);
      } else {
        assert PwlLists(pairs) == (PwlLists(init).0 + [last.0.value], PwlLists(init).1 + [last.1.value]);
      }
    }
  }

  /** One more argument pair extends the lists as the constructor loop does. */
  lemma PwlListsSnoc(init: seq<PwlArg>, last: PwlArg)
    ensures PwlLists(init + [last]) ==
      if last.0.None? then PwlLists(init)
      else if last.1.None? then (PwlLists(init).0 + [last.0.value], PwlLists(init).1)
      else (PwlLists(init).0 + [last.0.value], PwlLists(init).1 + [last.1.value])
    ensures PwlListsIntended(init + [last]) ==
      if last.0.Some? && last.1.Some?
      then (PwlListsIntended(init).0 + [last.0.value], PwlListsIntended(init).1 + [last.1.value])
      else PwlListsIntended(init)
  {
    assert (init + [last])[..|init + [last]| - 1] == init;
  }

  /** A rejected value leaves the lists misaligned: (0, 1), (1, "x") gives times [0, 1] and values [1]. */
  lemma PwlMisaligned()
    ensures PwlLists([(Some(0.0), Some(1.0)), (Some(1.0), None)]) == ([0.0, 1.0], [1.0])
    ensures PwlListsIntended([(Some(0.0), Some(1.0)), (Some(1.0), None)]) == ([0.0], [1.0])
  {
    var a: PwlArg := (Some(0.0), Some(1.0));
    var b: PwlArg := (Some(1.0), None);
    PwlListsSnoc([], a);
    assert [] + [a] == [a];
    PwlListsSnoc([a], b);
    assert [a] + [b] == [a, b];
    var none: seq<real> := [];
    assert none + [0.0] == [0.0] && none + [1.0] == [1.0];
    assert PwlLists([a]) == ([0.0], [1.0]);
    assert PwlListsIntended([a]) == ([0.0], [1.0]);
    assert [0.0] + [1.0] == [0.0, 1.0];
    assert PwlLists([a, b]) == ([0.0, 1.0], [1.0]);
    assert PwlListsIntended([a, b]) == ([0.0], [1.0]);
  }

  /**
   * Pwl._interp_: clamp at the ends, otherwise scan from index 1 for the bracket
   * and interpolate; indices into the values list follow Python's rules, so a
   * shorter values list gives IndexError or reads a different knot.
   */
  function PwlInterp(xp: seq<real>, yp: seq<real>, x: real): (r: Result<real>)
    ensures |xp| == 0 ==> r == Err(IndexError)
    ensures |xp| > 0 && x <= xp[0] ==> r == PyIndex(yp, 0)
    ensures |xp| > 0 && x > xp[0] && x >= xp[|xp| - 1] ==> r == PyIndex(yp, -1)
  {
    if |xp| == 0 then Err(IndexError)
    else if x <= xp[0] then PyIndex(yp, 0)
    else if x >= xp[|xp| - 1] then PyIndex(yp, -1)
    else
      var i := Scan(xp, x, 1);
      var y0 := PyIndex(yp, i - 1);
      var y1 := PyIndex(yp, i);
      if y0.Err? then y0 else if y1.Err? then y1
      else Lerp(xp[i - 1], y0.value, xp[i], y1.value, x)
  }

  /** With aligned lists, PWL interpolation is the table interpolation from a fresh cursor. */
  lemma PwlIsTableInterp(xp: seq<real>, yp: seq<real>, x: real)
    requires |xp| == |yp| >= 1
    ensures PwlInterp(xp, yp, x) == InterpAt(xp, yp, 0, x).0
  {
    if xp[0] < x < xp[|xp| - 1] {
      assert Scan(xp, x, 0) == Scan(xp, x, 1);
    }
  }

  /**
   * The misaligned lists of PwlMisaligned: an input past the last time reads the
   * value of the first pair, and an interior input raises IndexError.
   */
  lemma PwlMisalignedInterp()
    ensures PwlInterp([0.0, 1.0], [1.0], 2.0) == Ok(1.0)
    ensures PwlInterp([0.0, 1.0, 2.0], [1.0, 3.0], 1.5) == Err(IndexError)
  {
    assert Scan([0.0, 1.0, 2.0], 1.5, 1) == 2;
  }

  /** A PWL stimulus. */
  class Pwl {
    var xp: seq<real>
    var yp: seq<real>

    /** The constructor loop, as written. */
    constructor (pairs: seq<PwlArg>)
      ensures (xp, yp) == PwlLists(pairs)
    {
      xp := [];
      yp := [];
      new;
      for k := 0 to |pairs|
        invariant (xp, yp) == PwlLists(pairs[..k])
      {
        assert pairs[..k + 1][..k] == pairs[..k];
        var (time, value) := pairs[k];
        if time.Some? {
          xp := xp + [time.value];
          if value.Some? {
            yp := yp + [value.value];
          }
        }
      }
      assert pairs[..|pairs|] == pairs;
    }

    /** _interp_: the index loop restarts from 1 on every call. */
    method Interp(x: real) returns (r: Result<real>)
      ensures r == PwlInterp(xp, yp, x)
    {
      if |xp| == 0 {
        return Err(IndexError);
      }
      if x <= xp[0] {
        return PyIndex(yp, 0);
      }
      if x >= xp[|xp| - 1] {
        return PyIndex(yp, -1);
      }
      var itr := 1;
      while x > xp[itr] && itr < |xp| - 1
        invariant 1 <= itr < |xp|
        invariant Scan(xp, x, itr) == Scan(xp, x, 1)
        decreases |xp| - itr
      {
        itr := itr + 1;
      }
      var y0 := PyIndex(yp, itr - 1);
      var y1 := PyIndex(yp, itr);
      if y0.Err? {
        return y0;
      }
      if y1.Err? {
        return y1;
      }
      r := Lerp(xp[itr - 1], y0.value, xp[itr], y1.value, x);
    }

    /** step interpolates at the device's simulation time; its own t argument is unused. */
    method Step(deviceTime: real) returns (r: Result<real>)
      ensures r == PwlInterp(xp, yp, deviceTime)
    {
      r := Interp(deviceTime);
    }
  }
}
