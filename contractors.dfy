/**
 * The Lohner contractor on tubes.
 *
 * A tube vector is stored as n >= 1 slices sharing one time partition
 * t_0, ..., t_n: slice i carries the codomain box over [t_i, t_(i+1)], and
 * the gates are the boxes at the n + 1 instants. `contract` sweeps the
 * slices forwards with an integrator of x' = f(x) started from the first
 * gate, then backwards with an integrator of x' = -f(x) started from the last
 * gate; every write into the tube intersects with what is already there.
 */
module Contractors {
  import opened Intervals
  import opened Lohner

  /** Time propagation flags, combined with `|` and tested with `&`. */
  type TimePropag = bv8
  const FORWARD: TimePropag := 1
  const BACKWARD: TimePropag := 2

  /** The step each sweep's integrator is built with; the first slice overrides it. */
  const InitialStep: real := 0.1

  // ---------------------------------------------------------------------------
  // Tube contents

  /** The contents of a tube vector. */
  datatype TubeData = TubeData(times: seq<real>, codomains: seq<Box>, gates: seq<Box>)

  /** The contents of a scalar tube. */
  datatype ScalarTubeData = ScalarTubeData(times: seq<real>, codomains: seq<Interval>, gates: seq<Interval>)

  function Slices(t: TubeData): nat
  {
    |t.codomains|
  }

  /** At least one slice, n + 1 instants and gates, every box of the tube's dimension. */
  ghost predicate WellFormed(t: TubeData, dim: nat)
  {
    && |t.codomains| >= 1
    && |t.times| == |t.codomains| + 1
    && |t.gates| == |t.codomains| + 1
    && (forall i :: 0 <= i < |t.codomains| ==> |t.codomains[i]| == dim)
    && (forall k :: 0 <= k < |t.gates| ==> |t.gates[k]| == dim)
  }

  ghost predicate ScalarWellFormed(s: ScalarTubeData)
  {
    && |s.codomains| >= 1
    && |s.times| == |s.codomains| + 1
    && |s.gates| == |s.codomains| + 1
  }

  /** A tube is empty when one of its codomains or gates is. */
  predicate TubeIsEmpty(t: TubeData)
  {
    || (exists i :: 0 <= i < |t.codomains| && BoxIsEmpty(t.codomains[i]))
    || (exists k :: 0 <= k < |t.gates| && BoxIsEmpty(t.gates[k]))
  }

  predicate ScalarIsEmpty(s: ScalarTubeData)
  {
    || (exists i :: 0 <= i < |s.codomains| && IsEmpty(s.codomains[i]))
    || (exists k :: 0 <= k < |s.gates| && IsEmpty(s.gates[k]))
  }

  /** The width of slice i's time domain. */
  function Width(t: TubeData, i: nat): real
    requires i + 1 < |t.times|
  {
    t.times[i + 1] - t.times[i]
  }

  /** `TubeVector(1, tube)`: each interval becomes a box of dimension one. */
  function ToVector(s: ScalarTubeData): (t: TubeData)
    requires ScalarWellFormed(s)
    ensures WellFormed(t, 1) && Slices(t) == |s.codomains|
  {
    TubeData(s.times,
             seq(|s.codomains|, i requires 0 <= i < |s.codomains| => [s.codomains[i]]),
             seq(|s.gates|, k requires 0 <= k < |s.gates| => [s.gates[k]]))
  }

  /** `tubeVector[j]`: the j-th component as a scalar tube. */
  function Component(t: TubeData, dim: nat, j: nat): (s: ScalarTubeData)
    requires WellFormed(t, dim) && j < dim
    ensures ScalarWellFormed(s) && |s.codomains| == Slices(t)
  {
    ScalarTubeData(t.times,
                   seq(|t.codomains|, i requires 0 <= i < |t.codomains| => t.codomains[i][j]),
                   seq(|t.gates|, k requires 0 <= k < |t.gates| => t.gates[k][j]))
  }

  /** Wrapping a scalar tube and taking its only component gives the tube back. */
  lemma ComponentOfToVector(s: ScalarTubeData)
    requires ScalarWellFormed(s)
    ensures Component(ToVector(s), 1, 0) == s
  {
    var s1 := Component(ToVector(s), 1, 0);
    assert s1.codomains == s.codomains;
    assert s1.gates == s.gates;
  }

  /** A one-component tube vector is the wrapping of its only component. */
  lemma ToVectorOfComponent(t: TubeData)
    requires WellFormed(t, 1)
    ensures ToVector(Component(t, 1, 0)) == t
  {
    var t1 := ToVector(Component(t, 1, 0));
    forall i | 0 <= i < |t.codomains|
      ensures t1.codomains[i] == t.codomains[i]
    {
      assert |t.codomains[i]| == 1;
    }
    forall k | 0 <= k < |t.gates|
      ensures t1.gates[k] == t.gates[k]
    {
      assert |t.gates[k]| == 1;
    }
  }

  /** Wrapping preserves emptiness. */
  lemma ToVectorIsEmpty(s: ScalarTubeData)
    requires ScalarWellFormed(s)
    ensures TubeIsEmpty(ToVector(s)) <==> ScalarIsEmpty(s)
  {
    var t := ToVector(s);
    if TubeIsEmpty(t) {
      if exists i :: 0 <= i < |t.codomains| && BoxIsEmpty(t.codomains[i]) {
        var i :| 0 <= i < |t.codomains| && BoxIsEmpty(t.codomains[i]);
        assert t.codomains[i] == [s.codomains[i]];
      } else {
        var k :| 0 <= k < |t.gates| && BoxIsEmpty(t.gates[k]);
        assert t.gates[k] == [s.gates[k]];
      }
    }
    if ScalarIsEmpty(s) {
      if exists i :: 0 <= i < |s.codomains| && IsEmpty(s.codomains[i]) {
        var i :| 0 <= i < |s.codomains| && IsEmpty(s.codomains[i]);
        assert t.codomains[i][0] == s.codomains[i];
      } else {
        var k :| 0 <= k < |s.gates| && IsEmpty(s.gates[k]);
        assert t.gates[k][0] == s.gates[k];
      }
    }
  }

  // ---------------------------------------------------------------------------
  // Narrowing

  /** a has b's time partition and lies within b, codomain by codomain and gate by gate. */
  ghost predicate Narrowed(a: TubeData, b: TubeData)
  {
    && a.times == b.times
    && |a.codomains| == |b.codomains|
    && |a.gates| == |b.gates|
    && (forall i :: 0 <= i < |a.codomains| ==> BoxSubset(a.codomains[i], b.codomains[i]))
    && (forall k :: 0 <= k < |a.gates| ==> BoxSubset(a.gates[k], b.gates[k]))
  }

  lemma NarrowedReflexive(t: TubeData)
    ensures Narrowed(t, t)
  {
    forall i | 0 <= i < |t.codomains|
      ensures BoxSubset(t.codomains[i], t.codomains[i])
    {
      BoxSubsetReflexive(t.codomains[i]);
    }
    forall k | 0 <= k < |t.gates|
      ensures BoxSubset(t.gates[k], t.gates[k])
    {
      BoxSubsetReflexive(t.gates[k]);
    }
  }

  lemma NarrowedTransitive(a: TubeData, b: TubeData, c: TubeData)
    requires Narrowed(a, b) && Narrowed(b, c)
    ensures Narrowed(a, c)
  {
    forall i | 0 <= i < |a.codomains|
      ensures BoxSubset(a.codomains[i], c.codomains[i])
    {
      BoxSubsetTransitive(a.codomains[i], b.codomains[i], c.codomains[i]);
    }
    forall k | 0 <= k < |a.gates|
      ensures BoxSubset(a.gates[k], c.gates[k])
    {
      BoxSubsetTransitive(a.gates[k], b.gates[k], c.gates[k]);
    }
  }

  /** Intersecting the codomain of slice i with a box narrows the tube. */
  lemma NarrowedByCodomain(t: TubeData, dim: nat, i: nat, w: Box)
    requires WellFormed(t, dim) && i < Slices(t) && |w| == dim
    ensures Narrowed(t.(codomains := t.codomains[i := BoxMeet(t.codomains[i], w)]), t)
  {
    var t1 := t.(codomains := t.codomains[i := BoxMeet(t.codomains[i], w)]);
    forall k | 0 <= k < |t1.codomains|
      ensures BoxSubset(t1.codomains[k], t.codomains[k])
    {
      if k == i {
        assert t1.codomains[k] == BoxMeet(t.codomains[i], w);
      } else {
        BoxSubsetReflexive(t.codomains[k]);
      }
    }
    forall j | 0 <= j < |t.gates|
      ensures BoxSubset(t.gates[j], t.gates[j])
    {
      BoxSubsetReflexive(t.gates[j]);
    }
  }

  /** Intersecting the k-th gate with a box narrows the tube. */
  lemma NarrowedByGate(t: TubeData, dim: nat, k: nat, w: Box)
    requires WellFormed(t, dim) && k < |t.gates| && |w| == dim
    ensures Narrowed(t.(gates := t.gates[k := BoxMeet(t.gates[k], w)]), t)
  {
    var t1 := t.(gates := t.gates[k := BoxMeet(t.gates[k], w)]);
    forall j | 0 <= j < |t1.gates|
      ensures BoxSubset(t1.gates[j], t.gates[j])
    {
      if j == k {
        assert t1.gates[j] == BoxMeet(t.gates[k], w);
      } else {
        BoxSubsetReflexive(t.gates[j]);
      }
    }
    forall i | 0 <= i < |t.codomains|
      ensures BoxSubset(t.codomains[i], t.codomains[i])
    {
      BoxSubsetReflexive(t.codomains[i]);
    }
  }

  // ---------------------------------------------------------------------------
  // The sweeps

  /**
   * What a sweep does on one slice with its integrator: from the integrator
   * state, the slice's width and the gate it contracts by, the new state, or
   * the error that stops the sweep.
   */
  type SliceStep = (LohnerState, real, Box) -> Result<LohnerState>

  /** The states a step produces carry local and global enclosures of dimension dim. */
  ghost predicate KeepsDim(step: SliceStep, dim: nat)
  {
    forall lo, h, gate :: step(lo, h, gate).Success? ==>
      |step(lo, h, gate).value.u| == dim && |step(lo, h, gate).value.uTilde| == dim
  }

  /**
   * `lo.integrate(1, h); lo.contractStep(gate)` for an integrator of cfg:
   * the integration error, or the contracted state; states of the wrong
   * dimension, which no integrator reaches, fail.
   */
  ghost function SliceStepSpec(cfg: Config, lo: LohnerState, h: real, gate: Box): (r: Result<LohnerState>)
    ensures r.Success? ==> WellSized(cfg.f, r.value) && BoxSubset(r.value.u, gate)
  {
    if WellSized(cfg.f, lo) && |gate| == cfg.f.dim then
      var p := IntegrateSpec(cfg, lo, 1, h);
      if p.error.Some? then Failure(p.error.value)
      else Success(ContractStepSpec(cfg.f, p.state, gate))
    else Failure(GlobalEnclosureError)
  }

  /**
   * step is the Lohner step of cfg. Each equation is used only where the
   * SliceStepSpec term is already at hand, so that a proof about a sweep
   * does not unfold the integrator's definitions on every slice.
   */
  ghost predicate IsLohnerStep(step: SliceStep, cfg: Config)
  {
    forall lo, h, gate {:trigger SliceStepSpec(cfg, lo, h, gate)} :: step(lo, h, gate) == SliceStepSpec(cfg, lo, h, gate)
  }

  /** The Lohner step of cfg as the step of a sweep. */
  ghost function LohnerStep(cfg: Config): (step: SliceStep)
    ensures KeepsDim(step, cfg.f.dim)
  {
    (lo: LohnerState, h: real, gate: Box) => SliceStepSpec(cfg, lo, h, gate)
  }

  lemma LohnerStepIsLohnerStep(cfg: Config)
    ensures IsLohnerStep(LohnerStep(cfg), cfg)
  {
  }

  /** The tube after a sweep, and the integration error that stopped it, if any. */
  datatype Outcome = Outcome(tube: TubeData, error: Option<LohnerError>)

  /**
   * The forward sweep from slice i on, with integrator state lo and the
   * output gate read last: step over the slice with its output gate, then
   * intersect its codomain with the global enclosure; after the last slice,
   * intersect the last gate with the local enclosure. An error stops the
   * sweep with the slices before it written.
   */
  function ForwardFrom(step: SliceStep, dim: nat, lo: LohnerState, t: TubeData, i: nat, outGate: Box): (o: Outcome)
    requires KeepsDim(step, dim) && WellFormed(t, dim) && |lo.u| == dim && i <= Slices(t) && |outGate| == dim
    ensures WellFormed(o.tube, dim) && o.tube.times == t.times && Slices(o.tube) == Slices(t)
    decreases Slices(t) - i
  {
    if i == Slices(t) then
      Outcome(t.(gates := t.gates[i := BoxMeet(outGate, lo.u)]), None)
    else
      match step(lo, Width(t, i), t.gates[i + 1])
      case Failure(e) => Outcome(t, Some(e))
      case Success(lo1) =>
        var t1 := t.(codomains := t.codomains[i := BoxMeet(t.codomains[i], lo1.uTilde)]);
        ForwardFrom(step, dim, lo1, t1, i + 1, t.gates[i + 1])
  }

  /** The backward sweep from slice i down to slice 0, then the first gate. */
  function BackwardFrom(step: SliceStep, dim: nat, lo: LohnerState, t: TubeData, i: int, outGate: Box): (o: Outcome)
    requires KeepsDim(step, dim) && WellFormed(t, dim) && |lo.u| == dim && -1 <= i < Slices(t) && |outGate| == dim
    ensures WellFormed(o.tube, dim) && o.tube.times == t.times && Slices(o.tube) == Slices(t)
    decreases i + 1
  {
    if i < 0 then
      Outcome(t.(gates := t.gates[0 := BoxMeet(outGate, lo.u)]), None)
    else
      match step(lo, Width(t, i), t.gates[i])
      case Failure(e) => Outcome(t, Some(e))
      case Success(lo1) =>
        var t1 := t.(codomains := t.codomains[i := BoxMeet(t.codomains[i], lo1.uTilde)]);
        BackwardFrom(step, dim, lo1, t1, i - 1, t.gates[i])
  }

  /**
   * What a contraction runs on: the system f and its negation, and the step
   * of a sweep with an integrator of each.
   */
  datatype Integrators = Integrators(f: SizedKernel, fNeg: SizedKernel, fwdStep: SliceStep, bwdStep: SliceStep)

  /** Both systems have dimension dim, and so do the enclosures their steps produce. */
  ghost predicate Fits(it: Integrators, dim: nat)
  {
    it.f.dim == dim && it.fNeg.dim == dim && KeepsDim(it.fwdStep, dim) && KeepsDim(it.bwdStep, dim)
  }

  /** The integrators of `CtcLohner`: Lohner steps with the given parameters. */
  ghost function LohnerIntegrators(f: SizedKernel, fNeg: SizedKernel, contractions: int, eps: real): (it: Integrators)
    requires fNeg.dim == f.dim
    ensures Fits(it, f.dim)
    ensures IsLohnerStep(it.fwdStep, Config(f, eps, contractions)) && IsLohnerStep(it.bwdStep, Config(fNeg, eps, contractions))
  {
    LohnerStepIsLohnerStep(Config(f, eps, contractions));
    LohnerStepIsLohnerStep(Config(fNeg, eps, contractions));
    Integrators(f, fNeg, LohnerStep(Config(f, eps, contractions)), LohnerStep(Config(fNeg, eps, contractions)))
  }

  /** The whole forward sweep, with an integrator of f started from the first gate. */
  function Forward(it: Integrators, t: TubeData): (o: Outcome)
    requires Fits(it, it.f.dim) && WellFormed(t, it.f.dim)
    ensures WellFormed(o.tube, it.f.dim) && o.tube.times == t.times && Slices(o.tube) == Slices(t)
  {
    ForwardFrom(it.fwdStep, it.f.dim, Init(it.f, InitialStep, t.gates[0]), t, 0, ZeroBox(it.f.dim))
  }

  /** The whole backward sweep, with an integrator of -f started from the last gate. */
  function Backward(it: Integrators, t: TubeData): (o: Outcome)
    requires Fits(it, it.f.dim) && WellFormed(t, it.f.dim)
    ensures WellFormed(o.tube, it.f.dim) && o.tube.times == t.times && Slices(o.tube) == Slices(t)
  {
    BackwardFrom(it.bwdStep, it.f.dim, Init(it.fNeg, InitialStep, t.gates[Slices(t)]), t, Slices(t) - 1, ZeroBox(it.f.dim))
  }

  /**
   * `contract(tube, t_propa)`: the forward sweep when FORWARD is set, then,
   * unless it failed, the backward sweep when BACKWARD is set.
   */
  function ContractSpec(it: Integrators, t: TubeData, propa: TimePropag): (o: Outcome)
    requires Fits(it, it.f.dim) && WellFormed(t, it.f.dim)
    ensures WellFormed(o.tube, it.f.dim) && Slices(o.tube) == Slices(t)
  {
    var o1 := if propa & FORWARD != 0 then Forward(it, t) else Outcome(t, None);
    if o1.error.Some? || propa & BACKWARD == 0 then o1
    else Backward(it, o1.tube)
  }

  /** The Tube overload: the scalar tube is written back only when the contraction succeeded. */
  function ContractScalarSpec(it: Integrators, s: ScalarTubeData, propa: TimePropag): (r: (ScalarTubeData, Option<LohnerError>))
    requires Fits(it, 1) && ScalarWellFormed(s)
    ensures ScalarWellFormed(r.0)
  {
    var o := ContractSpec(it, ToVector(s), propa);
    if o.error.Some? then (s, o.error) else (Component(o.tube, 1, 0), None)
  }

  // ---------------------------------------------------------------------------
  // What the sweeps do to the tube

  /**
   * The forward sweep writes every codomain and the last gate only by
   * intersection, whatever the integrator does.
   */
  lemma {:induction false} ForwardNarrows(step: SliceStep, dim: nat, lo: LohnerState, t: TubeData, i: nat, outGate: Box)
    requires KeepsDim(step, dim) && WellFormed(t, dim) && |lo.u| == dim && i <= Slices(t) && |outGate| == dim
    requires i < Slices(t) || outGate == t.gates[Slices(t)]
    ensures Narrowed(ForwardFrom(step, dim, lo, t, i, outGate).tube, t)
    decreases Slices(t) - i
  {
    if i == Slices(t) {
      NarrowedByGate(t, dim, i, lo.u);
    } else {
      match step(lo, Width(t, i), t.gates[i + 1])
      case Failure(_) =>
        NarrowedReflexive(t);
      case Success(lo1) =>
        var t1 := t.(codomains := t.codomains[i := BoxMeet(t.codomains[i], lo1.uTilde)]);
        ForwardNarrows(step, dim, lo1, t1, i + 1, t.gates[i + 1]);
        NarrowedByCodomain(t, dim, i, lo1.uTilde);
        NarrowedTransitive(ForwardFrom(step, dim, lo1, t1, i + 1, t.gates[i + 1]).tube, t1, t);
    }
  }

  /**
   * The forward sweep from slice i visits slices i, i + 1, ... only: it
   * leaves the codomains before slice i and every gate but the last as they
   * are.
   */
  lemma {:induction false} ForwardKeeps(step: SliceStep, dim: nat, lo: LohnerState, t: TubeData, i: nat, outGate: Box)
    requires KeepsDim(step, dim) && WellFormed(t, dim) && |lo.u| == dim && i <= Slices(t) && |outGate| == dim
    ensures forall k :: 0 <= k < Slices(t) ==> ForwardFrom(step, dim, lo, t, i, outGate).tube.gates[k] == t.gates[k]
    ensures forall k :: 0 <= k < i ==> ForwardFrom(step, dim, lo, t, i, outGate).tube.codomains[k] == t.codomains[k]
    decreases Slices(t) - i
  {
    if i < Slices(t) {
      match step(lo, Width(t, i), t.gates[i + 1])
      case Failure(_) =>
      case Success(lo1) =>
        var t1 := t.(codomains := t.codomains[i := BoxMeet(t.codomains[i], lo1.uTilde)]);
        var o1 := ForwardFrom(step, dim, lo1, t1, i + 1, t.gates[i + 1]);
        ForwardKeeps(step, dim, lo1, t1, i + 1, t.gates[i + 1]);
        forall k | 0 <= k < i
          ensures o1.tube.codomains[k] == t.codomains[k]
        {
          assert o1.tube.codomains[k] == t1.codomains[k];
        }
    }
  }

  /**
   * The backward sweep writes every codomain and the first gate only by
   * intersection, whatever the integrator does.
   */
  lemma {:induction false} BackwardNarrows(step: SliceStep, dim: nat, lo: LohnerState, t: TubeData, i: int, outGate: Box)
    requires KeepsDim(step, dim) && WellFormed(t, dim) && |lo.u| == dim && -1 <= i < Slices(t) && |outGate| == dim
    requires i >= 0 || outGate == t.gates[0]
    ensures Narrowed(BackwardFrom(step, dim, lo, t, i, outGate).tube, t)
    decreases i + 1
  {
    if i < 0 {
      NarrowedByGate(t, dim, 0, lo.u);
    } else {
      match step(lo, Width(t, i), t.gates[i])
      case Failure(_) =>
        NarrowedReflexive(t);
      case Success(lo1) =>
        var t1 := t.(codomains := t.codomains[i := BoxMeet(t.codomains[i], lo1.uTilde)]);
        BackwardNarrows(step, dim, lo1, t1, i - 1, t.gates[i]);
        NarrowedByCodomain(t, dim, i, lo1.uTilde);
        NarrowedTransitive(BackwardFrom(step, dim, lo1, t1, i - 1, t.gates[i]).tube, t1, t);
    }
  }

  /**
   * The backward sweep from slice i visits slices i, i - 1, ... only: it
   * leaves the codomains after slice i and every gate but the first as they
   * are.
   */
  lemma {:induction false} BackwardKeeps(step: SliceStep, dim: nat, lo: LohnerState, t: TubeData, i: int, outGate: Box)
    requires KeepsDim(step, dim) && WellFormed(t, dim) && |lo.u| == dim && -1 <= i < Slices(t) && |outGate| == dim
    ensures forall k :: 0 < k < |t.gates| ==> BackwardFrom(step, dim, lo, t, i, outGate).tube.gates[k] == t.gates[k]
    ensures forall k :: i < k < Slices(t) ==> BackwardFrom(step, dim, lo, t, i, outGate).tube.codomains[k] == t.codomains[k]
    decreases i + 1
  {
    if i >= 0 {
      match step(lo, Width(t, i), t.gates[i])
      case Failure(_) =>
      case Success(lo1) =>
        var t1 := t.(codomains := t.codomains[i := BoxMeet(t.codomains[i], lo1.uTilde)]);
        var o1 := BackwardFrom(step, dim, lo1, t1, i - 1, t.gates[i]);
        BackwardKeeps(step, dim, lo1, t1, i - 1, t.gates[i]);
        forall k | i < k < Slices(t)
          ensures o1.tube.codomains[k] == t.codomains[k]
        {
          assert o1.tube.codomains[k] == t1.codomains[k];
        }
    }
  }

  /**
   * `contract` only narrows the tube, whether it succeeds or stops on an
   * error: each codomain and gate is kept or intersected, so every box of the
   * result lies within the input's. The forward sweep alone leaves the first gate as it
   * is, the backward sweep alone the last one, and without either flag
   * nothing changes.
   */
  lemma ContractNarrows(it: Integrators, t: TubeData, propa: TimePropag)
    requires Fits(it, it.f.dim) && WellFormed(t, it.f.dim)
    ensures Narrowed(ContractSpec(it, t, propa).tube, t)
    ensures propa & BACKWARD == 0 ==> ContractSpec(it, t, propa).tube.gates[0] == t.gates[0]
    ensures propa & FORWARD == 0 ==> ContractSpec(it, t, propa).tube.gates[Slices(t)] == t.gates[Slices(t)]
    ensures propa & (FORWARD | BACKWARD) == 0 ==> ContractSpec(it, t, propa) == Outcome(t, None)
  {
    var n, dim := Slices(t), it.f.dim;
    var o := ContractSpec(it, t, propa);
    var o1 := if propa & FORWARD != 0 then Forward(it, t) else Outcome(t, None);
    if propa & FORWARD != 0 {
      ForwardNarrows(it.fwdStep, dim, Init(it.f, InitialStep, t.gates[0]), t, 0, ZeroBox(dim));
      ForwardKeeps(it.fwdStep, dim, Init(it.f, InitialStep, t.gates[0]), t, 0, ZeroBox(dim));
    } else {
      NarrowedReflexive(t);
    }
    if o1.error.None? && propa & BACKWARD != 0 {
      BackwardNarrows(it.bwdStep, dim, Init(it.fNeg, InitialStep, o1.tube.gates[n]), o1.tube, n - 1, ZeroBox(dim));
      BackwardKeeps(it.bwdStep, dim, Init(it.fNeg, InitialStep, o1.tube.gates[n]), o1.tube, n - 1, ZeroBox(dim));
      NarrowedTransitive(o.tube, o1.tube, t);
    }
  }

  /** The Tube overload narrows the scalar tube the same way, and keeps it on an error. */
  lemma ContractScalarNarrows(it: Integrators, s: ScalarTubeData, propa: TimePropag)
    requires Fits(it, 1) && ScalarWellFormed(s)
    ensures ContractScalarSpec(it, s, propa).0.times == s.times
    ensures ContractScalarSpec(it, s, propa).1.Some? ==> ContractScalarSpec(it, s, propa).0 == s
    ensures ContractScalarSpec(it, s, propa).1.None? ==>
              ToVector(ContractScalarSpec(it, s, propa).0) == ContractSpec(it, ToVector(s), propa).tube
    ensures Narrowed(ToVector(ContractScalarSpec(it, s, propa).0), ToVector(s))
  {
    var o := ContractSpec(it, ToVector(s), propa);
    ContractNarrows(it, ToVector(s), propa);
    if o.error.None? {
      ToVectorOfComponent(o.tube);
    } else {
      NarrowedReflexive(ToVector(s));
    }
  }

  // ---------------------------------------------------------------------------
  // Tubes in memory

  /** A tube vector whose slices the contractor writes in place. */
  class TubeVector {
    const size: nat
    var times: seq<real>
    var codomains: seq<Box>
    var gates: seq<Box>

    function Data(): TubeData
      reads this
    {
      TubeData(times, codomains, gates)
    }

    ghost predicate Valid()
      reads this
    {
      WellFormed(Data(), size)
    }

    /** `TubeVector(1, tube)` */
    constructor FromTube(tube: Tube)
      requires tube.Valid()
      ensures Valid() && size == 1
      ensures Data() == ToVector(tube.Data())
    {
      size := 1;
      var t := ToVector(tube.Data());
      times, codomains, gates := t.times, t.codomains, t.gates;
    }

    /** `set(y, i)`: the codomain of slice i becomes y. */
    method SetCodomain(y: Box, i: nat)
      requires Valid() && i < |codomains| && |y| == size
      modifies this
      ensures Valid()
      ensures Data() == old(Data()).(codomains := old(codomains)[i := y])
    {
      codomains := codomains[i := y];
    }

    /** `set(y, t)` at the k-th instant of the partition: the k-th gate becomes y. */
    method SetGate(y: Box, k: nat)
      requires Valid() && k < |gates| && |y| == size
      modifies this
      ensures Valid()
      ensures Data() == old(Data()).(gates := old(gates)[k := y])
    {
      gates := gates[k := y];
    }
  }

  /** A scalar tube. */
  class Tube {
    var times: seq<real>
    var codomains: seq<Interval>
    var gates: seq<Interval>

    function Data(): ScalarTubeData
      reads this
    {
      ScalarTubeData(times, codomains, gates)
    }

    ghost predicate Valid()
      reads this
    {
      ScalarWellFormed(Data())
    }

    /** `tube = other`: copies the contents. */
    method Assign(s: ScalarTubeData)
      requires ScalarWellFormed(s)
      modifies this
      ensures Valid() && Data() == s
    {
      times, codomains, gates := s.times, s.codomains, s.gates;
    }
  }

  // ---------------------------------------------------------------------------
  // The contractor

  /** The kinds of domain of the constraint network besides tubes. */
  datatype OtherDomainType = IntervalType | IntervalVectorType | SliceType

  /** A domain handed to `contract(v_domains)`. */
  datatype DomainArg =
    | TubeArg(tube: Tube)
    | TubeVectorArg(tubes: TubeVector)
    | OtherArg(kind: OtherDomainType)

  /** The storage a domain lets the contractor write. */
  function Storage(d: DomainArg): set<object>
  {
    match d
    case TubeArg(t) => {t}
    case TubeVectorArg(tv) => {tv}
    case OtherArg(_) => {}
  }

  datatype CtcError = DomainsTypeException | Integration(error: LohnerError)

  class CtcLohner {
    /** The system x' = f(x), and x' = -f(x) for the backward sweep. */
    const f: SizedKernel
    const fNeg: SizedKernel
    const contractions: int
    const dim: nat
    const eps: real
    /** The step of each sweep: the Lohner step of f, and of fNeg. */
    ghost const fwdStep: SliceStep
    ghost const bwdStep: SliceStep

    /** fNeg stands for the negation of f, so both have f's dimension. */
    constructor (f: SizedKernel, fNeg: SizedKernel, contractions: int, eps: real)
      requires fNeg.dim == f.dim
      ensures Valid()
      ensures this.f == f && this.fNeg == fNeg && this.contractions == contractions && this.eps == eps
      ensures Its() == LohnerIntegrators(f, fNeg, contractions, eps)
    {
      this.f := f;
      this.fNeg := fNeg;
      this.contractions := contractions;
      this.dim := f.dim;
      this.eps := eps;
      var it := LohnerIntegrators(f, fNeg, contractions, eps);
      this.fwdStep := it.fwdStep;
      this.bwdStep := it.bwdStep;
    }

    ghost predicate Valid()
    {
      && dim == f.dim
      && Fits(Its(), dim)
      && IsLohnerStep(fwdStep, Fwd())
      && IsLohnerStep(bwdStep, Bwd())
    }

    ghost function Its(): Integrators
    {
      Integrators(f, fNeg, fwdStep, bwdStep)
    }

    function Fwd(): Config
    {
      Config(f, eps, contractions)
    }

    function Bwd(): Config
    {
      Config(fNeg, eps, contractions)
    }

    /** `contract(TubeVector&, t_propa)`; an integration error stops it with the writes before it kept. */
    method ContractTubeVector(tube: TubeVector, propa: TimePropag) returns (err: Option<LohnerError>)
      requires Valid() && tube.Valid() && tube.size == dim && !TubeIsEmpty(tube.Data())
      modifies tube
      ensures tube.Valid()
      ensures Outcome(tube.Data(), err) == ContractSpec(Its(), old(tube.Data()), propa)
    {
      err := None;
      if propa & FORWARD != 0 {
        err := ForwardSweep(tube);
        if err.Some? {
          return;
        }
      }
      if propa & BACKWARD != 0 {
        err := BackwardSweep(tube);
      }
    }

    /**
     * The forward sweep: an integrator of f started from the first gate, the
     * loop over the slices, then the last gate narrowed by the final local
     * enclosure.
     */
    method ForwardSweep(tube: TubeVector) returns (err: Option<LohnerError>)
      requires Valid() && tube.Valid() && tube.size == dim
      modifies tube
      ensures tube.Valid()
      ensures Outcome(tube.Data(), err) == Forward(Its(), old(tube.Data()))
    {
      var lo := new LohnerAlgorithm(f, InitialStep, tube.gates[0], contractions, eps);
      var outputGate;
      err, outputGate := ForwardLoop(lo, tube);
      if err.Some? {
        return;
      }
      tube.SetGate(BoxMeet(outputGate, lo.GetLocalEnclosure()), |tube.codomains|);
    }

    /** The forward loop over slices 0, ..., n - 1, ending with the last output gate read. */
    method ForwardLoop(lo: LohnerAlgorithm, tube: TubeVector) returns (err: Option<LohnerError>, outputGate: Box)
      requires dim == f.dim && IsLohnerStep(fwdStep, Fwd()) && KeepsDim(fwdStep, dim) && tube.Valid() && tube.size == dim
      requires lo.Valid() && lo.Cfg() == Fwd()
      modifies lo, tube
      ensures tube.Valid() && lo.Valid() && lo.Cfg() == Fwd() && |outputGate| == dim
      ensures |tube.codomains| == old(|tube.codomains|)
      ensures err.Some? ==>
                ForwardFrom(fwdStep, dim, old(lo.State()), old(tube.Data()), 0, ZeroBox(dim)) == Outcome(tube.Data(), err)
      ensures err.None? ==>
                ForwardFrom(fwdStep, dim, old(lo.State()), old(tube.Data()), 0, ZeroBox(dim))
                == ForwardFrom(fwdStep, dim, lo.State(), tube.Data(), |tube.codomains|, outputGate)
    {
      var n := |tube.codomains|;
      outputGate := ZeroBox(dim);
      ghost var whole := ForwardFrom(fwdStep, dim, lo.State(), tube.Data(), 0, outputGate);
      var i := 0;
      while i < n
        invariant tube.Valid() && |tube.codomains| == n && i <= n
        invariant lo.Valid() && lo.Cfg() == Fwd() && |outputGate| == dim
        invariant ForwardFrom(fwdStep, dim, lo.State(), tube.Data(), i, outputGate) == whole
      {
        err := ForwardSlice(lo, tube, i);
        if err.Some? {
          return;
        }
        outputGate := tube.gates[i + 1];
        i := i + 1;
      }
      err := None;
    }

    /**
     * The backward sweep: an integrator of -f started from the last gate,
     * the loop over the slices in reverse, then the first gate narrowed by
     * the final local enclosure.
     */
    method BackwardSweep(tube: TubeVector) returns (err: Option<LohnerError>)
      requires Valid() && tube.Valid() && tube.size == dim
      modifies tube
      ensures tube.Valid()
      ensures Outcome(tube.Data(), err) == Backward(Its(), old(tube.Data()))
    {
      var lo2 := new LohnerAlgorithm(fNeg, InitialStep, tube.gates[|tube.codomains|], contractions, eps);
      var outputGate;
      err, outputGate := BackwardLoop(lo2, tube);
      if err.Some? {
        return;
      }
      tube.SetGate(BoxMeet(outputGate, lo2.GetLocalEnclosure()), 0);
    }

    /** The backward loop over slices n - 1, ..., 0, ending with the last output gate read. */
    method BackwardLoop(lo2: LohnerAlgorithm, tube: TubeVector) returns (err: Option<LohnerError>, outputGate: Box)
      requires dim == fNeg.dim && IsLohnerStep(bwdStep, Bwd()) && KeepsDim(bwdStep, dim) && tube.Valid() && tube.size == dim
      requires lo2.Valid() && lo2.Cfg() == Bwd()
      modifies lo2, tube
      ensures tube.Valid() && lo2.Valid() && lo2.Cfg() == Bwd() && |outputGate| == dim
      ensures err.Some? ==>
                BackwardFrom(bwdStep, dim, old(lo2.State()), old(tube.Data()), old(|tube.codomains|) - 1, ZeroBox(dim))
                == Outcome(tube.Data(), err)
      ensures err.None? ==>
                BackwardFrom(bwdStep, dim, old(lo2.State()), old(tube.Data()), old(|tube.codomains|) - 1, ZeroBox(dim))
                == BackwardFrom(bwdStep, dim, lo2.State(), tube.Data(), -1, outputGate)
    {
      var n := |tube.codomains|;
      outputGate := ZeroBox(dim);
      ghost var whole := BackwardFrom(bwdStep, dim, lo2.State(), tube.Data(), n - 1, outputGate);
      var i := n - 1;
      while i >= 0
        invariant tube.Valid() && |tube.codomains| == n && -1 <= i < n
        invariant lo2.Valid() && lo2.Cfg() == Bwd() && |outputGate| == dim
        invariant BackwardFrom(bwdStep, dim, lo2.State(), tube.Data(), i, outputGate) == whole
      {
        err := BackwardSlice(lo2, tube, i);
        if err.Some? {
          return;
        }
        outputGate := tube.gates[i];
        i := i - 1;
      }
      err := None;
    }

    /**
     * One slice of the forward loop: integrate over slice i, contract by its
     * output gate, and intersect its codomain with the global enclosure.
     * The integrator does exactly one LohnerStep.
     */
    method ForwardSlice(lo: LohnerAlgorithm, tube: TubeVector, i: nat) returns (err: Option<LohnerError>)
      requires dim == f.dim && IsLohnerStep(fwdStep, Fwd()) && KeepsDim(fwdStep, dim) && tube.Valid() && tube.size == dim && i < |tube.codomains|
      requires lo.Valid() && lo.Cfg() == Fwd()
      modifies lo, tube
      ensures tube.Valid() && lo.Valid() && lo.Cfg() == Fwd()
      ensures err.Some? ==>
                && fwdStep(old(lo.State()), Width(old(tube.Data()), i), old(tube.gates[i + 1])) == Failure(err.value)
                && tube.Data() == old(tube.Data())
      ensures err.None? ==>
                && fwdStep(old(lo.State()), Width(old(tube.Data()), i), old(tube.gates[i + 1])) == Success(lo.State())
                && tube.Data() == old(tube.Data()).(codomains := old(tube.codomains)[i := BoxMeet(old(tube.codomains[i]), lo.uTilde)])
    {
      var h := tube.times[i + 1] - tube.times[i];
      var outputGate := tube.gates[i + 1];
      var slice := tube.codomains[i];
      ghost var expected := SliceStepSpec(Fwd(), lo.State(), h, outputGate);
      var r := lo.Integrate(1, h);
      if r.Failure? {
        return Some(r.error);
      }
      lo.ContractStep(outputGate);
      tube.SetCodomain(BoxMeet(slice, lo.GetGlobalEnclosure()), i);
      err := None;
    }

    /** One slice of the backward loop, the mirror image of ForwardSlice. */
    method BackwardSlice(lo2: LohnerAlgorithm, tube: TubeVector, i: nat) returns (err: Option<LohnerError>)
      requires dim == fNeg.dim && IsLohnerStep(bwdStep, Bwd()) && KeepsDim(bwdStep, dim) && tube.Valid() && tube.size == dim && i < |tube.codomains|
      requires lo2.Valid() && lo2.Cfg() == Bwd()
      modifies lo2, tube
      ensures tube.Valid() && lo2.Valid() && lo2.Cfg() == Bwd()
      ensures err.Some? ==>
                && bwdStep(old(lo2.State()), Width(old(tube.Data()), i), old(tube.gates[i])) == Failure(err.value)
                && tube.Data() == old(tube.Data())
      ensures err.None? ==>
                && bwdStep(old(lo2.State()), Width(old(tube.Data()), i), old(tube.gates[i])) == Success(lo2.State())
                && tube.Data() == old(tube.Data()).(codomains := old(tube.codomains)[i := BoxMeet(old(tube.codomains[i]), lo2.uTilde)])
    {
      var h := tube.times[i + 1] - tube.times[i];
      var outputGate := tube.gates[i];
      var slice := tube.codomains[i];
      ghost var expected := SliceStepSpec(Bwd(), lo2.State(), h, outputGate);
      var r := lo2.Integrate(1, h);
      if r.Failure? {
        return Some(r.error);
      }
      lo2.ContractStep(outputGate);
      tube.SetCodomain(BoxMeet(slice, lo2.GetGlobalEnclosure()), i);
      err := None;
    }

    /** `contract(Tube&, t_propa)`: the tube is copied back only when the contraction succeeded. */
    method ContractTube(tube: Tube, propa: TimePropag) returns (err: Option<LohnerError>)
      requires Valid() && tube.Valid() && dim == 1 && !ScalarIsEmpty(tube.Data())
      modifies tube
      ensures tube.Valid()
      ensures (tube.Data(), err) == ContractScalarSpec(Its(), old(tube.Data()), propa)
    {
      ToVectorIsEmpty(tube.Data());
      var tubeVector := new TubeVector.FromTube(tube);
      err := ContractTubeVector(tubeVector, propa);
      if err.None? {
        tube.Assign(Component(tubeVector.Data(), 1, 0));
      }
    }

    /**
     * `contract(v_domains)`: exactly one domain, a tube or a tube vector,
     * contracted in both directions; anything else raises
     * DomainsTypeException and changes nothing.
     */
    method ContractDomains(domains: seq<DomainArg>) returns (err: Option<CtcError>)
      requires Valid()
      requires |domains| == 1 && domains[0].TubeArg? ==>
                 domains[0].tube.Valid() && dim == 1 && !ScalarIsEmpty(domains[0].tube.Data())
      requires |domains| == 1 && domains[0].TubeVectorArg? ==>
                 domains[0].tubes.Valid() && domains[0].tubes.size == dim && !TubeIsEmpty(domains[0].tubes.Data())
      modifies if |domains| == 1 then Storage(domains[0]) else {}
      ensures |domains| != 1 || domains[0].OtherArg? ==> err == Some(DomainsTypeException)
      ensures |domains| == 1 && domains[0].TubeArg? ==>
                var r := ContractScalarSpec(Its(), old(domains[0].tube.Data()), FORWARD | BACKWARD);
                domains[0].tube.Data() == r.0 && err == (if r.1.Some? then Some(Integration(r.1.value)) else None)
      ensures |domains| == 1 && domains[0].TubeVectorArg? ==>
                var o := ContractSpec(Its(), old(domains[0].tubes.Data()), FORWARD | BACKWARD);
                domains[0].tubes.Data() == o.tube && err == (if o.error.Some? then Some(Integration(o.error.value)) else None)
    {
      if |domains| != 1 {
        return Some(DomainsTypeException);
      }
      match domains[0]
      case TubeArg(t) =>
        var e := ContractTube(t, FORWARD | BACKWARD);
        err := if e.Some? then Some(Integration(e.value)) else None;
      case TubeVectorArg(tv) =>
        var e := ContractTubeVector(tv, FORWARD | BACKWARD);
        err := if e.Some? then Some(Integration(e.value)) else None;
      case OtherArg(_) =>
        err := Some(DomainsTypeException);
    }
  }
}
