/**
 * Control skeleton of the first-order Lohner guaranteed integrator.
 *
 * The interval arithmetic (evaluation of f and of its Jacobian, the QR
 * factorisation, matrix inversion, midpoints, inflation) is not modelled: it
 * is a Kernel of uninterpreted box-valued functions supplied by the caller.
 * What is modelled is the control around it: the bounded search for a global
 * enclosure, the steps and inner contractions of `integrate`, and
 * `contractStep`, which only narrows by intersection.
 */
module Lohner {
  import opened Intervals

  type Vector = seq<real>
  type Matrix = seq<seq<real>>
  type IntervalMatrix = seq<seq<Interval>>

  /** Time directions. */
  const FWD: real := 1.0
  const BWD: real := -1.0

  /** Number of candidates tried by the global-enclosure search. */
  const MaxTries: nat := 30

  datatype LohnerError = GlobalEnclosureError

  datatype Option<T> = None | Some(value: T)

  datatype Result<T> = Success(value: T) | Failure(error: LohnerError)

  /**
   * The numerical kernels of the scheme for a system x' = f(x) of dimension
   * `dim`, each standing for one expression of the C++ library.
   */
  datatype Kernel = Kernel(
    dim: nat,
    // initialGuess + direction * [0, h] * f(u_0)
    image: (Box, real, real, Box) -> Box,
    // (1 + eps) * u_1 - eps * u_1
    inflate: (Box, real) -> Box,
    // 0.5 * h * h * J_f(u_t) * f(u_t)
    remainder: (real, Box) -> Box,
    // midpoint of a box
    mid: Box -> Vector,
    // Id + h * J_f(u)
    linearised: (real, Box) -> IntervalMatrix,
    // Q of the Householder QR factorisation of mid(A * B)
    orthoFrame: (IntervalMatrix, Matrix) -> Matrix,
    // real_inverse
    inverse: Matrix -> Matrix,
    // (B1inv * A * B) * r + B1inv * (z1 - m1)
    transport: (Matrix, IntervalMatrix, Matrix, Box, Box, Vector) -> Box,
    // u_hat + h * mid(f(u_hat)) + m1
    advanceCentre: (Vector, real, Vector) -> Vector,
    // u_hat1 + B1 * r1
    recompose: (Vector, Matrix, Box) -> Box,
    // Binv * (u - u_hat)
    errorFrame: (Matrix, Box, Vector) -> Box,
    // u0 - mid(u0)
    offset: (Box, Vector) -> Box)
  {
    /** The box-valued kernels produce boxes of the system's dimension. */
    ghost predicate Sized()
    {
      && (forall g, d, h, c :: |image(g, d, h, c)| == dim)
      && (forall b, e :: |inflate(b, e)| == dim)
      && (forall bi, a, b, r, z, m :: |transport(bi, a, b, r, z, m)| == dim)
      && (forall c, b, r :: |recompose(c, b, r)| == dim)
      && (forall bi, v, c :: |errorFrame(bi, v, c)| == dim)
      && (forall v, c :: |offset(v, c)| == dim)
    }
  }

  /** The kernels of a system whose box-valued functions respect its dimension. */
  type SizedKernel = k: Kernel | k.Sized()
    witness Kernel(0, (g, d, h, c) => [], (b, e) => [], (h, b) => [], b => [], (h, b) => [],
                   (a, b) => [], b => b, (bi, a, b, r, z, m) => [], (v, h, m) => v,
                   (c, b, r) => [], (bi, v, c) => [], (v, c) => [])

  /** The parameters fixed when the integrator is built. */
  datatype Config = Config(f: SizedKernel, eps: real, contractions: int)

  /** The integrator's mutable state. */
  datatype LohnerState = LohnerState(
    h: real,
    u: Box,       // local enclosure
    z: Box,       // Taylor-Lagrange remainder
    r: Box,       // uncertainties in the frame B
    uTilde: Box,  // global enclosure of the last step
    B: Matrix,
    Binv: Matrix,
    uHat: Vector) // centre of u

  /** The part of the state one inner iteration recomputes. */
  datatype Frame = Frame(z: Box, r: Box, u: Box, B: Matrix, Binv: Matrix, uHat: Vector)

  /** Holds what the intersections of the scheme need: operands of one dimension. */
  ghost predicate WellSized(f: SizedKernel, st: LohnerState)
  {
    && |st.u| == f.dim
    && |st.r| == f.dim
    && (|st.uTilde| == f.dim || st.uTilde == [])
  }

  function Identity(n: nat): (m: Matrix)
    ensures |m| == n && forall i, j :: 0 <= i < n && 0 <= j < n ==> |m[i]| == n && m[i][j] == (if i == j then 1.0 else 0.0)
  {
    seq(n, i => seq(n, j => if i == j then 1.0 else 0.0))
  }

  /** The state right after construction: no global enclosure computed yet. */
  function Init(f: SizedKernel, h: real, u0: Box): (st: LohnerState)
    requires |u0| == f.dim
    ensures WellSized(f, st) && st.uTilde == []
  {
    var c := f.mid(u0);
    var z := f.offset(u0, c);
    LohnerState(h, u0, z, z, [], Identity(f.dim), Identity(f.dim), c)
  }

  // ---------------------------------------------------------------------------
  // Global enclosure search

  /** The k-th candidate: the guess itself, then the inflated image of the previous one. */
  function Candidate(f: SizedKernel, h: real, eps: real, guess: Box, dir: real, k: nat): (c: Box)
    requires |guess| == f.dim
    ensures |c| == f.dim
  {
    if k == 0 then guess
    else f.inflate(f.image(guess, dir, h, Candidate(f, h, eps, guess, dir, k - 1)), eps)
  }

  /** A candidate is accepted when it contains the image of the guess over [0, h] under it. */
  predicate Encloses(f: SizedKernel, h: real, guess: Box, dir: real, c: Box)
  {
    BoxSuperset(c, f.image(guess, dir, h, c))
  }

  /** The search from the k-th candidate on. */
  function Search(f: SizedKernel, h: real, eps: real, guess: Box, dir: real, k: nat): (res: Result<Box>)
    requires |guess| == f.dim
    ensures res.Success? ==> |res.value| == f.dim && Encloses(f, h, guess, dir, res.value)
    ensures res.Failure? ==> res.error == GlobalEnclosureError
    decreases MaxTries - k
  {
    if k >= MaxTries then Failure(GlobalEnclosureError)
    else if Encloses(f, h, guess, dir, Candidate(f, h, eps, guess, dir, k)) then Success(Candidate(f, h, eps, guess, dir, k))
    else Search(f, h, eps, guess, dir, k + 1)
  }

  /** None of the k-th to the 29th candidates is accepted. */
  predicate NoneEncloses(f: SizedKernel, h: real, eps: real, guess: Box, dir: real, k: nat)
    requires |guess| == f.dim
  {
    forall j :: k <= j < MaxTries ==> !Encloses(f, h, guess, dir, Candidate(f, h, eps, guess, dir, j))
  }

  /** The k-th candidate is the first one accepted. */
  predicate FirstEncloses(f: SizedKernel, h: real, eps: real, guess: Box, dir: real, k: nat)
    requires |guess| == f.dim
  {
    && k < MaxTries
    && Encloses(f, h, guess, dir, Candidate(f, h, eps, guess, dir, k))
    && forall i :: 0 <= i < k ==> !Encloses(f, h, guess, dir, Candidate(f, h, eps, guess, dir, i))
  }

  /** The search from the k-th candidate fails exactly when none of the k-th to the 29th is accepted. */
  lemma {:induction false} SearchFailsIffNoneEncloses(f: SizedKernel, h: real, eps: real, guess: Box, dir: real, k: nat)
    requires |guess| == f.dim && k <= MaxTries
    ensures Search(f, h, eps, guess, dir, k).Failure? <==> NoneEncloses(f, h, eps, guess, dir, k)
    decreases MaxTries - k
  {
    if k < MaxTries {
      if Encloses(f, h, guess, dir, Candidate(f, h, eps, guess, dir, k)) {
        assert Search(f, h, eps, guess, dir, k).Success?;
      } else {
        SearchFailsIffNoneEncloses(f, h, eps, guess, dir, k + 1);
      }
    }
  }

  /** When the j-th candidate is the first accepted one from the k-th on, the search returns it. */
  lemma {:induction false} SearchReturnsFirstEnclosure(f: SizedKernel, h: real, eps: real, guess: Box, dir: real, k: nat, j: nat)
    requires |guess| == f.dim
    requires k <= j < MaxTries
    requires Encloses(f, h, guess, dir, Candidate(f, h, eps, guess, dir, j))
    requires forall i :: k <= i < j ==> !Encloses(f, h, guess, dir, Candidate(f, h, eps, guess, dir, i))
    ensures Search(f, h, eps, guess, dir, k) == Success(Candidate(f, h, eps, guess, dir, j))
    decreases j - k
  {
    if k < j {
      var c := Candidate(f, h, eps, guess, dir, k);
      assert !Encloses(f, h, guess, dir, c);
      SearchReturnsFirstEnclosure(f, h, eps, guess, dir, k + 1, j);
    }
  }

  // ---------------------------------------------------------------------------
  // One step of `integrate`

  /** The body of the inner loop, before the optional narrowing of the global enclosure. */
  function Linearise(f: SizedKernel, st: LohnerState, ut: Box): (fr: Frame)
    ensures |fr.r| == f.dim && |fr.u| == f.dim
  {
    var z1 := f.remainder(st.h, ut);
    var m1 := f.mid(z1);
    var A := f.linearised(st.h, st.u);
    var B1 := f.orthoFrame(A, st.B);
    var B1inv := f.inverse(B1);
    var r1 := f.transport(B1inv, A, st.B, st.r, z1, m1);
    var uHat1 := f.advanceCentre(st.uHat, st.h, m1);
    var u1 := f.recompose(uHat1, B1, r1);
    Frame(z1, r1, u1, B1, B1inv, uHat1)
  }

  function FrameOf(st: LohnerState): Frame
  {
    Frame(st.z, st.r, st.u, st.B, st.Binv, st.uHat)
  }

  /**
   * The inner loop from iteration j on: each iteration recomputes the frame
   * from the global enclosure ut, and all but the last narrow ut by the
   * backward global enclosure of the new local enclosure.
   */
  function Refine(cfg: Config, st: LohnerState, ut: Box, fr: Frame, j: int): (res: Result<(Frame, Box)>)
    requires WellSized(cfg.f, st) && |ut| == cfg.f.dim && |fr.r| == cfg.f.dim && |fr.u| == cfg.f.dim
    ensures res.Success? ==> |res.value.1| == cfg.f.dim && |res.value.0.r| == cfg.f.dim && |res.value.0.u| == cfg.f.dim
    decreases cfg.contractions - j
  {
    if j >= cfg.contractions then Success((fr, ut))
    else
      var fr1 := Linearise(cfg.f, st, ut);
      if j < cfg.contractions - 1 then
        match Search(cfg.f, st.h, cfg.eps, fr1.u, BWD, 0)
        case Failure(e) => Failure(e)
        case Success(g) => Refine(cfg, st, BoxMeet(ut, g), fr1, j + 1)
      else
        Refine(cfg, st, ut, fr1, j + 1)
  }

  function Commit(st: LohnerState, fr: Frame, ut: Box): LohnerState
  {
    LohnerState(st.h, fr.u, fr.z, fr.r, ut, fr.B, fr.Binv, fr.uHat)
  }

  /** One outer iteration of `integrate`: all of the new state is committed at once, or nothing. */
  function Step(cfg: Config, st: LohnerState): (res: Result<LohnerState>)
    requires WellSized(cfg.f, st)
    ensures res.Success? ==> WellSized(cfg.f, res.value) && |res.value.uTilde| == cfg.f.dim && res.value.h == st.h
  {
    match Search(cfg.f, st.h, cfg.eps, st.u, FWD, 0)
    case Failure(e) => Failure(e)
    case Success(ut) =>
      match Refine(cfg, st, ut, FrameOf(st), 0)
      case Failure(e) => Failure(e)
      case Success(p) => Success(Commit(st, p.0, p.1))
  }

  /** The state reached and the error raised, if any, by a run of outer iterations. */
  datatype Progress = Progress(state: LohnerState, error: Option<LohnerError>)

  /** `steps` outer iterations; an error stops the run with the steps before it committed. */
  function Advance(cfg: Config, st: LohnerState, steps: nat): (p: Progress)
    requires WellSized(cfg.f, st)
    ensures WellSized(cfg.f, p.state) && p.state.h == st.h
    ensures steps > 0 && p.error.None? ==> |p.state.uTilde| == cfg.f.dim
    decreases steps
  {
    if steps == 0 then Progress(st, None)
    else
      match Step(cfg, st)
      case Failure(e) => Progress(st, Some(e))
      case Success(st1) => Advance(cfg, st1, steps - 1)
  }

  /** `integrate(steps, H)`: the step is overridden by H only when H > 0. */
  function IntegrateSpec(cfg: Config, st: LohnerState, steps: nat, H: real): (p: Progress)
    requires WellSized(cfg.f, st)
    ensures WellSized(cfg.f, p.state)
    ensures p.state.h == if H > 0.0 then H else st.h
    ensures steps > 0 && p.error.None? ==> |p.state.uTilde| == cfg.f.dim
  {
    Advance(cfg, st.(h := if H > 0.0 then H else st.h), steps)
  }

  /** One inner iteration that narrows the global enclosure by a successful backward search. */
  lemma RefineUnfoldNarrow(cfg: Config, st: LohnerState, ut: Box, fr: Frame, j: int, g: Box)
    requires WellSized(cfg.f, st) && |ut| == cfg.f.dim && |fr.r| == cfg.f.dim && |fr.u| == cfg.f.dim
    requires j < cfg.contractions - 1
    requires Search(cfg.f, st.h, cfg.eps, Linearise(cfg.f, st, ut).u, BWD, 0) == Success(g)
    ensures |BoxMeet(ut, g)| == cfg.f.dim
    ensures Refine(cfg, st, ut, fr, j) == Refine(cfg, st, BoxMeet(ut, g), Linearise(cfg.f, st, ut), j + 1)
  {
  }

  /** An inner iteration whose backward search fails makes the whole inner loop fail. */
  lemma RefineUnfoldFail(cfg: Config, st: LohnerState, ut: Box, fr: Frame, j: int)
    requires WellSized(cfg.f, st) && |ut| == cfg.f.dim && |fr.r| == cfg.f.dim && |fr.u| == cfg.f.dim
    requires j < cfg.contractions - 1
    requires Search(cfg.f, st.h, cfg.eps, Linearise(cfg.f, st, ut).u, BWD, 0).Failure?
    ensures Refine(cfg, st, ut, fr, j) == Failure(GlobalEnclosureError)
  {
  }

  /** The last inner iteration recomputes the frame and keeps the global enclosure. */
  lemma RefineUnfoldLast(cfg: Config, st: LohnerState, ut: Box, fr: Frame, j: int)
    requires WellSized(cfg.f, st) && |ut| == cfg.f.dim && |fr.r| == cfg.f.dim && |fr.u| == cfg.f.dim
    requires j == cfg.contractions - 1
    ensures Refine(cfg, st, ut, fr, j) == Refine(cfg, st, ut, Linearise(cfg.f, st, ut), j + 1)
  {
  }

  /** A run of n > 0 steps whose first step succeeds is n - 1 more steps from the committed state. */
  lemma AdvanceUnfold(cfg: Config, st: LohnerState, st1: LohnerState, steps: nat)
    requires WellSized(cfg.f, st) && steps > 0 && Step(cfg, st) == Success(st1)
    ensures WellSized(cfg.f, st1) && Advance(cfg, st, steps) == Advance(cfg, st1, steps - 1)
  {
  }

  /** A run of n > 0 steps whose first step fails stops where it started. */
  lemma AdvanceUnfoldFail(cfg: Config, st: LohnerState, steps: nat)
    requires WellSized(cfg.f, st) && steps > 0 && Step(cfg, st).Failure?
    ensures Advance(cfg, st, steps) == Progress(st, Some(GlobalEnclosureError))
  {
    assert Step(cfg, st).error == GlobalEnclosureError;
  }

  /**
   * The inner loop only narrows the global enclosure, and it leaves it as it
   * is when at most one iteration remains.
   */
  lemma {:induction false} RefineNarrows(cfg: Config, st: LohnerState, ut: Box, fr: Frame, j: int)
    requires WellSized(cfg.f, st) && |ut| == cfg.f.dim && |fr.r| == cfg.f.dim && |fr.u| == cfg.f.dim
    requires Refine(cfg, st, ut, fr, j).Success?
    ensures BoxSubset(Refine(cfg, st, ut, fr, j).value.1, ut)
    ensures cfg.contractions <= j + 1 ==> Refine(cfg, st, ut, fr, j).value.1 == ut
    decreases cfg.contractions - j
  {
    if j < cfg.contractions {
      var fr1 := Linearise(cfg.f, st, ut);
      if j < cfg.contractions - 1 {
        var g := Search(cfg.f, st.h, cfg.eps, fr1.u, BWD, 0).value;
        RefineNarrows(cfg, st, BoxMeet(ut, g), fr1, j + 1);
        BoxSubsetTransitive(Refine(cfg, st, ut, fr, j).value.1, BoxMeet(ut, g), ut);
      } else {
        RefineNarrows(cfg, st, ut, fr1, j + 1);
      }
    }
  }

  /** The frame the inner loop ends with is the given one, or one recomputed from the same state. */
  lemma {:induction false} RefineFrame(cfg: Config, st: LohnerState, ut: Box, fr: Frame, j: int)
    requires WellSized(cfg.f, st) && |ut| == cfg.f.dim && |fr.r| == cfg.f.dim && |fr.u| == cfg.f.dim
    requires Refine(cfg, st, ut, fr, j).Success?
    ensures j >= cfg.contractions ==> Refine(cfg, st, ut, fr, j).value.0 == fr
    ensures j < cfg.contractions ==>
              Refine(cfg, st, ut, fr, j).value.0 == Linearise(cfg.f, st, Refine(cfg, st, ut, fr, j).value.1)
    decreases cfg.contractions - j
  {
    if j < cfg.contractions {
      var fr1 := Linearise(cfg.f, st, ut);
      var ut1 := if j < cfg.contractions - 1 then BoxMeet(ut, Search(cfg.f, st.h, cfg.eps, fr1.u, BWD, 0).value) else ut;
      assert Refine(cfg, st, ut, fr, j) == Refine(cfg, st, ut1, fr1, j + 1);
      RefineFrame(cfg, st, ut1, fr1, j + 1);
      if j + 1 >= cfg.contractions {
        assert Refine(cfg, st, ut, fr, j).value == (Linearise(cfg.f, st, ut), ut);
      }
    }
  }

  /**
   * A step's global enclosure lies within the forward enclosure of the old
   * local enclosure, and equals it when there is at most one contraction.
   */
  lemma StepGlobalEnclosure(cfg: Config, st: LohnerState)
    requires WellSized(cfg.f, st) && Step(cfg, st).Success?
    ensures Search(cfg.f, st.h, cfg.eps, st.u, FWD, 0).Success?
    ensures BoxSubset(Step(cfg, st).value.uTilde, Search(cfg.f, st.h, cfg.eps, st.u, FWD, 0).value)
    ensures cfg.contractions <= 1 ==> Step(cfg, st).value.uTilde == Search(cfg.f, st.h, cfg.eps, st.u, FWD, 0).value
  {
    var ut := Search(cfg.f, st.h, cfg.eps, st.u, FWD, 0).value;
    RefineNarrows(cfg, st, ut, FrameOf(st), 0);
  }

  /**
   * The frame a step commits is the recomputation from the very global
   * enclosure committed with it (the last inner iteration does not narrow
   * it), or is the old one when no inner iteration runs.
   */
  lemma StepCommitsTogether(cfg: Config, st: LohnerState)
    requires WellSized(cfg.f, st) && Step(cfg, st).Success?
    ensures cfg.contractions <= 0 ==> Step(cfg, st).value == st.(uTilde := Step(cfg, st).value.uTilde)
    ensures cfg.contractions > 0 ==>
              FrameOf(Step(cfg, st).value) == Linearise(cfg.f, st, Step(cfg, st).value.uTilde)
  {
    var ut := Search(cfg.f, st.h, cfg.eps, st.u, FWD, 0).value;
    RefineFrame(cfg, st, ut, FrameOf(st), 0);
    var p := Refine(cfg, st, ut, FrameOf(st), 0).value;
    assert FrameOf(Step(cfg, st).value) == p.0 && Step(cfg, st).value.uTilde == p.1;
  }

  /**
   * `steps` iterations are exactly that many steps: running a + b steps is
   * running a steps and then, unless they failed, b more.
   */
  lemma {:induction false} AdvanceComposes(cfg: Config, st: LohnerState, a: nat, b: nat)
    requires WellSized(cfg.f, st)
    ensures Advance(cfg, st, a + b) ==
              if Advance(cfg, st, a).error.Some? then Advance(cfg, st, a)
              else Advance(cfg, Advance(cfg, st, a).state, b)
    decreases a
  {
    if a > 0 {
      match Step(cfg, st)
      case Failure(_) =>
        AdvanceUnfoldFail(cfg, st, a + b);
        AdvanceUnfoldFail(cfg, st, a);
      case Success(st1) =>
        AdvanceUnfold(cfg, st, st1, a + b);
        AdvanceUnfold(cfg, st, st1, a);
        assert (a + b) - 1 == (a - 1) + b;
        AdvanceComposes(cfg, st1, a - 1, b);
    }
  }

  // ---------------------------------------------------------------------------
  // contractStep

  /**
   * `contractStep(x)`: u narrows to x & u, its centre is recomputed, and r
   * narrows to r & Binv * (u - u_hat). Nothing else changes.
   */
  function ContractStepSpec(f: SizedKernel, st: LohnerState, x: Box): (st1: LohnerState)
    requires WellSized(f, st) && |x| == f.dim
    ensures WellSized(f, st1)
    ensures BoxSubset(st1.u, x) && BoxSubset(st1.u, st.u)
    ensures BoxSubset(st1.r, st.r)
    ensures st1.uHat == f.mid(st1.u)
    ensures st1 == st.(u := st1.u, uHat := st1.uHat, r := st1.r)
  {
    var u1 := BoxMeet(x, st.u);
    var uHat1 := f.mid(u1);
    st.(u := u1, uHat := uHat1, r := BoxMeet(st.r, f.errorFrame(st.Binv, u1, uHat1)))
  }

  /** A second `contractStep` with the same box changes nothing. */
  lemma ContractStepIdempotent(f: SizedKernel, st: LohnerState, x: Box)
    requires WellSized(f, st) && |x| == f.dim
    ensures ContractStepSpec(f, ContractStepSpec(f, st, x), x) == ContractStepSpec(f, st, x)
  {
    var st1 := ContractStepSpec(f, st, x);
    BoxMeetAbsorbs(x, st.u);
    assert st1.u == BoxMeet(x, st.u);
    var e := f.errorFrame(st.Binv, st1.u, st1.uHat);
    BoxMeetAbsorbs(st.r, e);
  }

  // ---------------------------------------------------------------------------
  // The integrator object

  class LohnerAlgorithm {
    const f: SizedKernel
    const dim: nat
    const eps: real
    const contractions: int
    var h: real
    var u: Box
    var z: Box
    var r: Box
    var uTilde: Box
    var B: Matrix
    var Binv: Matrix
    var uHat: Vector

    function Cfg(): Config
    {
      Config(f, eps, contractions)
    }

    function State(): LohnerState
      reads this
    {
      LohnerState(h, u, z, r, uTilde, B, Binv, uHat)
    }

    ghost predicate Valid()
      reads this
    {
      dim == f.dim && WellSized(f, State())
    }

    constructor (f: SizedKernel, h: real, u0: Box, contractions: int, eps: real)
      requires |u0| == f.dim
      ensures Valid()
      ensures this.f == f && this.eps == eps && this.contractions == contractions
      ensures State() == Init(f, h, u0)
    {
      this.f := f;
      this.dim := f.dim;
      this.h := h;
      this.eps := eps;
      this.contractions := contractions;
      this.u := u0;
      var c := f.mid(u0);
      this.z := f.offset(u0, c);
      this.r := this.z;
      this.uTilde := [];
      this.B := Identity(f.dim);
      this.Binv := Identity(f.dim);
      this.uHat := c;
    }

    /** `integrate(steps, H)`: the local enclosure after the steps, or the error that stopped them. */
    method Integrate(steps: nat, H: real) returns (res: Result<Box>)
      requires Valid()
      modifies this
      ensures Valid()
      ensures State() == IntegrateSpec(Cfg(), old(State()), steps, H).state
      ensures res == match IntegrateSpec(Cfg(), old(State()), steps, H).error
                     case None => Success(u)
                     case Some(e) => Failure(e)
    {
      if H > 0.0 {
        h := H;
      }
      var p := IntegrateSteps(State(), steps);
      SetState(p.state);
      res := if p.error.None? then Success(u) else Failure(p.error.value);
    }

    /**
     * The outer loop of `integrate`, run from the state st: `steps`
     * iterations, stopped by the first error with the iterations before it
     * committed.
     */
    method IntegrateSteps(st: LohnerState, steps: nat) returns (p: Progress)
      requires Valid() && WellSized(f, st) && st.h == h
      ensures p == Advance(Cfg(), st, steps)
    {
      var cur := st;
      var n := steps;
      while n > 0
        invariant WellSized(f, cur) && cur.h == h
        invariant Advance(Cfg(), st, steps) == Advance(Cfg(), cur, n)
      {
        var next := IntegrateStep(cur);
        if next.Failure? {
          AdvanceUnfoldFail(Cfg(), cur, n);
          return Progress(cur, Some(next.error));
        }
        AdvanceUnfold(Cfg(), cur, next.value, n);
        cur := next.value;
        n := n - 1;
      }
      p := Progress(cur, None);
    }

    /**
     * One iteration of the outer loop of `integrate`, from the state st. The
     * new frame and global enclosure are committed together at its end, so a
     * failing global-enclosure search commits nothing.
     */
    method IntegrateStep(st: LohnerState) returns (res: Result<LohnerState>)
      requires Valid() && WellSized(f, st) && st.h == h
      ensures res == Step(Cfg(), st)
    {
      var g := GlobalEnclosure(st.u, FWD);
      if g.Failure? {
        return Failure(g.error);
      }
      var c := Contract(st, g.value);
      if c.Failure? {
        return Failure(c.error);
      }
      res := Success(Commit(st, c.value.0, c.value.1));
    }

    /** The inner loop of one step, from the forward global enclosure ut0. */
    method Contract(st: LohnerState, ut0: Box) returns (res: Result<(Frame, Box)>)
      requires Valid() && WellSized(f, st) && st.h == h && |ut0| == dim
      ensures res == Refine(Cfg(), st, ut0, FrameOf(st), 0)
    {
      var fr := FrameOf(st);
      var ut := ut0;
      var j := 0;
      while j < contractions
        invariant 0 <= j
        invariant |ut| == dim && |fr.r| == dim && |fr.u| == dim
        invariant Refine(Cfg(), st, ut, fr, j) == Refine(Cfg(), st, ut0, FrameOf(st), 0)
        decreases contractions - j
      {
        var next := Contraction(st, ut, fr, j);
        if next.Failure? {
          return Failure(next.error);
        }
        fr, ut := next.value.0, next.value.1;
        j := j + 1;
      }
      res := Success((fr, ut));
    }

    /**
     * Iteration j of the inner loop: the frame is recomputed from ut and,
     * unless this is the last iteration, ut is narrowed by the backward
     * global enclosure of the new local enclosure.
     */
    method Contraction(st: LohnerState, ut: Box, fr: Frame, j: int) returns (res: Result<(Frame, Box)>)
      requires Valid() && WellSized(f, st) && st.h == h
      requires |ut| == dim && |fr.r| == dim && |fr.u| == dim && j < contractions
      ensures res.Success? ==> |res.value.1| == dim && |res.value.0.r| == dim && |res.value.0.u| == dim
      ensures res.Success? ==> Refine(Cfg(), st, ut, fr, j) == Refine(Cfg(), st, res.value.1, res.value.0, j + 1)
      ensures res.Failure? ==> Refine(Cfg(), st, ut, fr, j) == res
    {
      var fr1 := Linearise(f, st, ut);
      if j < contractions - 1 {
        var back := GlobalEnclosure(fr1.u, BWD);
        if back.Failure? {
          RefineUnfoldFail(Cfg(), st, ut, fr, j);
          return Failure(back.error);
        }
        RefineUnfoldNarrow(Cfg(), st, ut, fr, j, back.value);
        res := Success((fr1, BoxMeet(ut, back.value)));
      } else {
        RefineUnfoldLast(Cfg(), st, ut, fr, j);
        res := Success((fr1, ut));
      }
    }

    /** Writes a state back into the fields. */
    method SetState(st: LohnerState)
      requires dim == f.dim && WellSized(f, st)
      modifies this
      ensures Valid()
      ensures State() == st
    {
      h, u, z, r, uTilde, B, Binv, uHat := st.h, st.u, st.z, st.r, st.uTilde, st.B, st.Binv, st.uHat;
    }

    /**
     * `globalEnclosure`: tries at most 30 candidates, starting with the guess,
     * and returns the first that encloses the guess's image under it.
     */
    method GlobalEnclosure(initialGuess: Box, direction: real) returns (res: Result<Box>)
      requires Valid() && |initialGuess| == dim
      ensures res == Search(f, h, eps, initialGuess, direction, 0)
      ensures res.Success? ==> Encloses(f, h, initialGuess, direction, res.value)
      ensures forall k :: FirstEncloses(f, h, eps, initialGuess, direction, k) ==>
                res == Success(Candidate(f, h, eps, initialGuess, direction, k))
      ensures res.Failure? <==> NoneEncloses(f, h, eps, initialGuess, direction, 0)
    {
      SearchFailsIffNoneEncloses(f, h, eps, initialGuess, direction, 0);
      forall k | FirstEncloses(f, h, eps, initialGuess, direction, k)
        ensures Search(f, h, eps, initialGuess, direction, 0) == Success(Candidate(f, h, eps, initialGuess, direction, k))
      {
        SearchReturnsFirstEnclosure(f, h, eps, initialGuess, direction, 0, k);
      }
      var u0 := initialGuess;
      var i := 0;
      while i < MaxTries
        invariant 0 <= i <= MaxTries
        invariant u0 == Candidate(f, h, eps, initialGuess, direction, i)
        invariant Search(f, h, eps, initialGuess, direction, i) == Search(f, h, eps, initialGuess, direction, 0)
      {
        var u1 := f.image(initialGuess, direction, h, u0);
        if BoxSuperset(u0, u1) {
          return Success(u0);
        } else {
          u0 := f.inflate(u1, eps);
        }
        i := i + 1;
      }
      return Failure(GlobalEnclosureError);
    }

    /** `contractStep(x)` */
    method ContractStep(x: Box)
      requires Valid() && |x| == dim
      modifies this
      ensures Valid()
      ensures State() == ContractStepSpec(f, old(State()), x)
    {
      u := BoxMeet(x, u);
      uHat := f.mid(u);
      r := BoxMeet(r, f.errorFrame(Binv, u, uHat));
    }

    /** `getLocalEnclosure()`: the enclosure of the state at the current time. */
    function GetLocalEnclosure(): (b: Box)
      reads this
      requires Valid()
      ensures b == State().u && |b| == dim
    {
      u
    }

    /** `getGlobalEnclosure()`: empty until a step has completed. */
    function GetGlobalEnclosure(): (b: Box)
      reads this
      requires Valid()
      ensures b == State().uTilde && (|b| == dim || b == [])
    {
      uTilde
    }
  }
}
