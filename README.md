# Lohner contractor and constraint-network hashcodes, in Dafny

This project models two parts of the tubex/codac C++ library.

**Hashcodes of the constraint network** (`hashcode.dfy`, module `Hashcode`).
A domain is identified by the address of the storage it references: a
double, an interval, a vector, an interval vector, a slice, a tube or a tube
vector. A contractor activation is identified by an array of words: the
identities of its bound domains, in binding order, followed by one
discriminant word. The discriminant names the relation: 0 for equality, 1
for component, 2/3/4 for the built-in eval/deriv/dist dynamic contractors,
and otherwise the address of the contractor's control block, which must
exceed the reserved codes. `operator<` compares two keys lexicographically
over their common prefix. Addresses are natural-number handles. The model
proves that a key identifies an activation exactly (the discriminant
decodes back to the relation). It also proves that the key order is a
strict order, and that it is total on the keys of real activations. It is
not a strict weak order on arbitrary keys of different lengths; a concrete
counterexample is proved.

**The Lohner guaranteed integrator and the contractor built on it**
(`lohner.dfy`, module `Lohner`; `contractors.dfy`, module `Contractors`;
`intervals.dfy`, module `Intervals`).
`LohnerAlgorithm` is a class with the integrator's fields:
- the step h;
- the local enclosure u and the remainder z;
- the frame r, B, B⁻¹;
- the centre û;
- the global enclosure ũ.

Its methods are proved against specification functions:
- `integrate(steps, H)` runs `Advance`, a sequence of outer `Step`s. Each
  step searches a forward global enclosure (`Search`: at most 30 candidates),
  runs the inner `Refine` loop of `contractions` iterations, and commits the
  whole new state at once.
- `contractStep(x)` only intersects.

The interval numerics (evaluation of f, its Jacobian, QR, inversion,
midpoints, inflation) are the fields of a `Kernel` the caller supplies.

`CtcLohner::contract` is modelled on a `TubeVector` class that holds the
time partition, the slice codomains and the gates:
- The forward sweep integrates slice by slice from the first gate,
  contracts by each output gate, and intersects each codomain with the
  global enclosure, then the last gate with the local enclosure.
- The backward sweep mirrors it with the integrator of x' = -f(x).
- An integration error stops the contraction with the earlier writes kept.

The `Tube` overload wraps the scalar tube, contracts it, and copies it back
only when the contraction succeeded. The `vector<Domain*>` overload accepts
exactly one tube or tube vector, and otherwise reports `DomainsTypeException`.

The sweeps are specified by `ForwardFrom`/`BackwardFrom`, which are generic
in the integrator step. The model proves for every step function that
`contract` only narrows the tube and touches only the parts it sweeps.

Errors that the C++ code throws are `Result`/`Option` values here. The C++
`assert`s become preconditions.

## Model

| member | source | states |
|---|---|---|
| Hashcode.Uintptr | src/core/cn/tubex_Hashcode.cpp:95-134 | the identity of a domain is the storage it references, for each of the seven memory kinds |
| Hashcode.DomainHashcodeOf | src/core/cn/tubex_Hashcode.cpp:85-88 | a domain hashcode holds the identity of the domain's storage |
| Hashcode.DomainHashcodeLess | src/core/cn/tubex_Hashcode.cpp:90-93 | one domain hashcode precedes another when its storage handle is smaller |
| Hashcode.SameStorageSameHashcode | src/core/cn/tubex_Hashcode.cpp:85-88 | two domains get equal hashcodes if and only if they reference the same storage |
| Hashcode.DomainHashcodeStrictTotalOrder | src/core/cn/tubex_Hashcode.cpp:90-93 | the domain hashcode `<` is irreflexive, asymmetric, transitive and total on distinct hashcodes |
| Hashcode.Discriminant | src/core/cn/tubex_Hashcode.cpp:31-67 | the last key word decodes back to the contractor's relation, and lies in 0..4 exactly for the built-in relations |
| Hashcode.DiscriminantOfRelation | src/core/cn/tubex_Hashcode.cpp:31-67 | activations applying the same relation get the same discriminant |
| Hashcode.ContractorKey | src/core/cn/tubex_Hashcode.cpp:23-68 | the key has one word per bound domain, holding its storage identity in binding order, then the discriminant |
| Hashcode.KeyIdentifiesActivation | src/core/cn/tubex_Hashcode.cpp:23-68 | two activations have equal keys if and only if they bind the same storage in the same order and apply the same relation |
| Hashcode.ContractorHashcode.constructor | src/core/cn/tubex_Hashcode.cpp:23-68 | the fresh array has `|domains| + 1` words and holds exactly the activation's key |
| Hashcode.ContractorHashcode.Less | src/core/cn/tubex_Hashcode.cpp:70-81 | `operator<` returns the lexicographic comparison of the two arrays over their common prefix |
| Hashcode.KeyLessFrom | src/core/cn/tubex_Hashcode.cpp:72-80 | from index i on, the first index where the keys differ within their common length decides; agreement up to the shorter length gives false |
| Hashcode.KeyLess | src/core/cn/tubex_Hashcode.cpp:70-81 | the comparison of two whole keys: KeyLessFrom from index 0 |
| Hashcode.KeyLessAtFirstDifference | src/core/cn/tubex_Hashcode.cpp:72-77 | the first differing word within the common prefix decides the comparison |
| Hashcode.KeyCommonPrefixIncomparable | src/core/cn/tubex_Hashcode.cpp:72-80 | keys that agree on their common prefix (equal keys, or one a prefix of the other) compare false both ways |
| Hashcode.KeyLessStrictOrder | src/core/cn/tubex_Hashcode.cpp:70-81 | the key order is irreflexive, asymmetric and transitive for keys of any lengths |
| Hashcode.IncomparabilityNotTransitive | src/core/cn/tubex_Hashcode.cpp:70-81 | [1,2] and [1], and [1] and [1,3], are incomparable, yet [1,2] < [1,3]: not a strict weak order in general |
| Hashcode.KeyTrichotomy | src/core/cn/tubex_Hashcode.cpp:70-81 | two keys are ordered one way or the other unless they agree on their common prefix |
| Hashcode.KeyLessTotalOnEqualLength | src/core/cn/tubex_Hashcode.cpp:70-81 | between keys of equal length, exactly one of less, greater and equal holds |
| Hashcode.ShorterKeyDiffers | src/core/cn/tubex_Hashcode.cpp:23-68 | where a shorter activation key ends, its discriminant differs from the longer key's storage identity |
| Hashcode.ActivationKeysTotallyOrdered | src/core/cn/tubex_Hashcode.cpp:23-81 | keys of real activations (identities outside the reserved codes, control blocks distinct from storage) are always ordered or equal |
| Intervals.Meet | src/core/contractors/dyn/tubex_CtcLohner.cpp:173 | `x & y` contains exactly the values in both intervals |
| Intervals.SubsetIsInclusion | src/core/contractors/dyn/tubex_CtcLohner.cpp:163 | the bound-wise subset test is inclusion of the denoted sets, both ways |
| Intervals.IsSubset | src/core/contractors/dyn/tubex_CtcLohner.cpp:163 | `x.is_subset(y)`: x is empty or lies within y's bounds |
| Intervals.BoxSubset | src/core/contractors/dyn/tubex_CtcLohner.cpp:163 | `a.is_subset(b)` on boxes: same dimension, and a is empty or each component is a subset |
| Intervals.BoxSuperset | src/core/contractors/dyn/tubex_CtcLohner.cpp:163 | `a.is_superset(b)` is `b.is_subset(a)` |
| Intervals.BoxSubsetIsInclusion | src/core/contractors/dyn/tubex_CtcLohner.cpp:163 | on boxes of one dimension, the subset test is exactly inclusion of the sets of points, both ways |
| Intervals.BoxMeet | src/core/contractors/dyn/tubex_CtcLohner.cpp:151 | the box intersection keeps the dimension and lies within both operands |
| Intervals.BoxMeetPoints | src/core/contractors/dyn/tubex_CtcLohner.cpp:213 | a point is in `a & b` if and only if it is in a and in b |
| Intervals.BoxMeetAbsorbs | src/core/contractors/dyn/tubex_CtcLohner.cpp:173 | intersecting `a & b` again with a or with b changes nothing |
| Intervals.ZeroBox | src/core/contractors/dyn/tubex_CtcLohner.cpp:197 | the box `IntervalVector(dim, Interval(0))` has dimension n and every component is the point interval [0, 0] |
| Lohner.Init | src/core/contractors/dyn/tubex_CtcLohner.cpp:116-131 | the initial state is well sized and has no global enclosure yet |
| Lohner.Identity | src/core/contractors/dyn/tubex_CtcLohner.cpp:128-129 | `Matrix::eye(n)`: an n×n matrix with 1 on the diagonal and 0 elsewhere |
| Lohner.LohnerAlgorithm.constructor | src/core/contractors/dyn/tubex_CtcLohner.cpp:116-131 | the fields are u0, its centre, the offset u0 - mid(u0) as z and r, and the identity frame; the parameters are kept |
| Lohner.Candidate | src/core/contractors/dyn/tubex_CtcLohner.cpp:160-166 | the k-th guess of the search: the initial guess, then the eps-inflated image of the previous guess; every guess keeps the dimension |
| Lohner.Encloses | src/core/contractors/dyn/tubex_CtcLohner.cpp:162-163 | a guess is accepted when it is a superset of the image of the initial guess over [0, h] evaluated on that guess |
| Lohner.Search | src/core/contractors/dyn/tubex_CtcLohner.cpp:159-170 | a returned candidate has the system's dimension and contains its own image over [0, h]; otherwise the error is GlobalEnclosureError |
| Lohner.SearchFailsIffNoneEncloses | src/core/contractors/dyn/tubex_CtcLohner.cpp:159-170 | the search fails if and only if none of the 30 candidates is accepted |
| Lohner.SearchReturnsFirstEnclosure | src/core/contractors/dyn/tubex_CtcLohner.cpp:161-165 | the search returns the first accepted candidate |
| Lohner.LohnerAlgorithm.GlobalEnclosure | src/core/contractors/dyn/tubex_CtcLohner.cpp:159-170 | the 30-try loop returns the first accepted candidate, and fails exactly when none is accepted |
| Lohner.Linearise | src/core/contractors/dyn/tubex_CtcLohner.cpp:141-149 | the recomputed frame's r and u have the system's dimension |
| Lohner.Refine | src/core/contractors/dyn/tubex_CtcLohner.cpp:140-153 | the inner loop's result keeps the system's dimension |
| Lohner.RefineNarrows | src/core/contractors/dyn/tubex_CtcLohner.cpp:150-152 | the inner loop only narrows the global enclosure, and keeps it as it is when at most one iteration remains |
| Lohner.RefineFrame | src/core/contractors/dyn/tubex_CtcLohner.cpp:140-153 | the frame the inner loop ends with is the old one when no iteration runs, else the recomputation from the global enclosure the loop ends with, since the last iteration does not narrow it |
| Lohner.LohnerAlgorithm.Contract | src/core/contractors/dyn/tubex_CtcLohner.cpp:140-153 | the inner loop returns Refine from the forward global enclosure and the current frame |
| Lohner.LohnerAlgorithm.Contraction | src/core/contractors/dyn/tubex_CtcLohner.cpp:141-152 | one inner iteration advances Refine by one iteration, or is its failure |
| Lohner.Step | src/core/contractors/dyn/tubex_CtcLohner.cpp:136-154 | a successful step commits a well-sized state with a global enclosure and the same h |
| Lohner.Commit | src/core/contractors/dyn/tubex_CtcLohner.cpp:154 | the step writes back the new frame (z, r, u, B, B⁻¹, û) and ũ together, keeping h |
| Lohner.StepGlobalEnclosure | src/core/contractors/dyn/tubex_CtcLohner.cpp:139-154 | a step's global enclosure lies within the forward enclosure of the old local enclosure, and equals it with at most one contraction |
| Lohner.StepCommitsTogether | src/core/contractors/dyn/tubex_CtcLohner.cpp:136-154 | when contractions > 0 the committed frame is the recomputation from the committed global enclosure ũ; when contractions <= 0 only ũ changes |
| Lohner.LohnerAlgorithm.IntegrateStep | src/core/contractors/dyn/tubex_CtcLohner.cpp:136-154 | one outer iteration returns Step of the state |
| Lohner.Advance | src/core/contractors/dyn/tubex_CtcLohner.cpp:135-155 | after n > 0 successful steps there is a global enclosure of the system's dimension; h is kept |
| Lohner.AdvanceComposes | src/core/contractors/dyn/tubex_CtcLohner.cpp:135-155 | running a + b steps is running a steps and then, unless they failed, b more |
| Lohner.LohnerAlgorithm.IntegrateSteps | src/core/contractors/dyn/tubex_CtcLohner.cpp:135-155 | the outer loop returns Advance of the state |
| Lohner.IntegrateSpec | src/core/contractors/dyn/tubex_CtcLohner.cpp:133-157 | h becomes H only when H > 0; the state stays well sized; a successful run of at least one step leaves a global enclosure |
| Lohner.LohnerAlgorithm.Integrate | src/core/contractors/dyn/tubex_CtcLohner.cpp:133-157 | the new state is IntegrateSpec's, and the result is its local enclosure or its error |
| Lohner.LohnerAlgorithm.SetState | src/core/contractors/dyn/tubex_CtcLohner.cpp:154 | the fields hold exactly the committed state |
| Lohner.ContractStepSpec | src/core/contractors/dyn/tubex_CtcLohner.cpp:172-176 | u narrows within x and the old u, r narrows, û is the centre of the new u, and nothing else changes |
| Lohner.ContractStepIdempotent | src/core/contractors/dyn/tubex_CtcLohner.cpp:172-176 | contracting twice by the same box is contracting once |
| Lohner.LohnerAlgorithm.ContractStep | src/core/contractors/dyn/tubex_CtcLohner.cpp:172-176 | the new state is ContractStepSpec of the old one |
| Lohner.LohnerAlgorithm.GetLocalEnclosure | src/core/contractors/dyn/tubex_CtcLohner.cpp:178-180 | returns the local enclosure u, of the system's dimension |
| Lohner.LohnerAlgorithm.GetGlobalEnclosure | src/core/contractors/dyn/tubex_CtcLohner.cpp:182-184 | returns the global enclosure ũ, empty until a step has completed |
| Contractors.ToVector | src/core/contractors/dyn/tubex_CtcLohner.cpp:239 | wrapping a scalar tube gives a well-formed one-component tube vector with the same slices |
| Contractors.Component | src/core/contractors/dyn/tubex_CtcLohner.cpp:241 | a component of a tube vector is a well-formed scalar tube with the same slices |
| Contractors.ComponentOfToVector | src/core/contractors/dyn/tubex_CtcLohner.cpp:239-241 | wrapping a scalar tube and taking its component gives it back |
| Contractors.ToVectorOfComponent | src/core/contractors/dyn/tubex_CtcLohner.cpp:239-241 | a one-component tube vector is the wrapping of its component |
| Contractors.ToVectorIsEmpty | src/core/contractors/dyn/tubex_CtcLohner.cpp:238-239 | wrapping keeps emptiness both ways, so the tube vector's non-emptiness check holds |
| Contractors.TubeIsEmpty | src/core/contractors/dyn/tubex_CtcLohner.cpp:196 | a tube vector is empty when one of its codomains or gates is an empty box |
| Contractors.ScalarIsEmpty | src/core/contractors/dyn/tubex_CtcLohner.cpp:238 | a scalar tube is empty when one of its codomains or gates is an empty interval |
| Contractors.Width | src/core/contractors/dyn/tubex_CtcLohner.cpp:206 | the width `tdomain().diam()` of slice i: the difference of its bounding times |
| Contractors.NarrowedReflexive | src/core/contractors/dyn/tubex_CtcLohner.cpp:195-235 | every tube lies within itself |
| Contractors.NarrowedTransitive | src/core/contractors/dyn/tubex_CtcLohner.cpp:195-235 | lying within is transitive |
| Contractors.NarrowedByCodomain | src/core/contractors/dyn/tubex_CtcLohner.cpp:213 | intersecting a codomain with a box narrows the tube |
| Contractors.NarrowedByGate | src/core/contractors/dyn/tubex_CtcLohner.cpp:215 | intersecting a gate with a box narrows the tube |
| Contractors.SliceStepSpec | src/core/contractors/dyn/tubex_CtcLohner.cpp:211-212 | integrating over one slice and contracting by its gate yields a well-sized state whose local enclosure lies within the gate |
| Contractors.LohnerStep | src/core/contractors/dyn/tubex_CtcLohner.cpp:211-212 | the sweep step of an integrator keeps enclosures of the system's dimension |
| Contractors.LohnerStepIsLohnerStep | src/core/contractors/dyn/tubex_CtcLohner.cpp:211-212 | the Lohner step of a configuration does exactly one SliceStepSpec on every state, step and gate |
| Contractors.LohnerIntegrators | src/core/contractors/dyn/tubex_CtcLohner.cpp:188-193 | the contractor's two sweep steps are the Lohner steps of f and of the negated system, with its contractions and eps, and both keep the dimension |
| Contractors.ForwardFrom | src/core/contractors/dyn/tubex_CtcLohner.cpp:205-215 | the forward sweep keeps the tube well formed with the same time partition |
| Contractors.BackwardFrom | src/core/contractors/dyn/tubex_CtcLohner.cpp:223-233 | the backward sweep keeps the tube well formed with the same time partition |
| Contractors.Forward | src/core/contractors/dyn/tubex_CtcLohner.cpp:199-216 | the forward sweep from the first gate keeps the tube well formed with the same time partition |
| Contractors.Backward | src/core/contractors/dyn/tubex_CtcLohner.cpp:217-234 | the backward sweep from the last gate keeps the tube well formed with the same time partition |
| Contractors.ForwardNarrows | src/core/contractors/dyn/tubex_CtcLohner.cpp:205-215 | for any integrator, the forward sweep only narrows the tube, even when it stops on an error |
| Contractors.ForwardKeeps | src/core/contractors/dyn/tubex_CtcLohner.cpp:205-215 | the forward sweep from slice i leaves the earlier codomains and every gate but the last as they are |
| Contractors.BackwardNarrows | src/core/contractors/dyn/tubex_CtcLohner.cpp:223-233 | for any integrator, the backward sweep only narrows the tube, even when it stops on an error |
| Contractors.BackwardKeeps | src/core/contractors/dyn/tubex_CtcLohner.cpp:223-233 | the backward sweep from slice i leaves the later codomains and every gate but the first as they are |
| Contractors.ContractSpec | src/core/contractors/dyn/tubex_CtcLohner.cpp:195-235 | contraction keeps the tube well formed with the same slices |
| Contractors.ContractNarrows | src/core/contractors/dyn/tubex_CtcLohner.cpp:195-235 | for any integrators of the tube's dimension, contraction only narrows the tube; forward alone keeps the first gate, backward alone the last, no flag changes nothing |
| Contractors.ContractScalarSpec | src/core/contractors/dyn/tubex_CtcLohner.cpp:237-242 | the scalar result stays well formed |
| Contractors.ContractScalarNarrows | src/core/contractors/dyn/tubex_CtcLohner.cpp:237-242 | the scalar tube keeps its times, is unchanged on an error, is the contracted vector's component on success, and only narrows |
| Contractors.TubeVector.FromTube | src/core/contractors/dyn/tubex_CtcLohner.cpp:239 | the new tube vector holds the wrapping of the scalar tube |
| Contractors.TubeVector.SetCodomain | src/core/contractors/dyn/tubex_CtcLohner.cpp:213 | only the codomain of slice i is replaced |
| Contractors.TubeVector.SetGate | src/core/contractors/dyn/tubex_CtcLohner.cpp:215 | only the k-th gate is replaced |
| Contractors.Tube.Assign | src/core/contractors/dyn/tubex_CtcLohner.cpp:241 | the tube holds exactly the given contents |
| Contractors.CtcLohner.constructor | src/core/contractors/dyn/tubex_CtcLohner.cpp:186-193 | the contractor keeps f, the negated system, contractions and eps, with dim = f's dimension, and its sweep steps are LohnerIntegrators of those |
| Contractors.CtcLohner.ContractTubeVector | src/core/contractors/dyn/tubex_CtcLohner.cpp:195-235 | the tube and error afterwards are exactly ContractSpec of the old tube, with the contractor's Lohner integrators |
| Contractors.CtcLohner.ForwardSweep | src/core/contractors/dyn/tubex_CtcLohner.cpp:199-216 | the forward loop leaves exactly the tube and error of Forward |
| Contractors.CtcLohner.BackwardSweep | src/core/contractors/dyn/tubex_CtcLohner.cpp:217-234 | the backward loop leaves exactly the tube and error of Backward |
| Contractors.CtcLohner.ForwardLoop | src/core/contractors/dyn/tubex_CtcLohner.cpp:205-214 | the loop over the slices, stopped or finished, leaves exactly what ForwardFrom computes from the integrator's start state and the old tube |
| Contractors.CtcLohner.BackwardLoop | src/core/contractors/dyn/tubex_CtcLohner.cpp:223-232 | the reverse loop over the slices, stopped or finished, leaves exactly what BackwardFrom computes from the integrator's start state and the old tube |
| Contractors.CtcLohner.ForwardSlice | src/core/contractors/dyn/tubex_CtcLohner.cpp:206-213 | one forward slice does one SliceStepSpec, and writes only that slice's codomain, intersected with the global enclosure |
| Contractors.CtcLohner.BackwardSlice | src/core/contractors/dyn/tubex_CtcLohner.cpp:224-231 | one backward slice does one SliceStepSpec, and writes only that slice's codomain, intersected with the global enclosure |
| Contractors.CtcLohner.ContractTube | src/core/contractors/dyn/tubex_CtcLohner.cpp:237-242 | the scalar tube and error afterwards are exactly ContractScalarSpec of the old tube |
| Contractors.CtcLohner.ContractDomains | src/core/contractors/dyn/tubex_CtcLohner.cpp:252-267 | anything but one tube or tube vector gives DomainsTypeException; otherwise both-way contraction of that domain |

## Left out

- Numerics: the interval evaluation of f and its Jacobian, the Householder QR factorisation, the real inverse, midpoints and the `(1 + eps)` inflation are uninterpreted kernel functions. Nothing is proved about the enclosures being guaranteed (that is a property of the numerics). Reals stand for doubles, with no rounding.
- Contractors.CtcLohner.constructor: the negated system `-f` is built symbolically in the source. Here it is a second kernel given by the caller, of the same dimension. That it is the negation of f is not stated.
- Tube storage is not part of the core and is reduced to a time partition, slice codomains and gates:
  - `tube.set(y, i)` replaces the codomain of slice i only. The library's own propagation of a codomain into the adjacent gates is not modelled.
  - `tube.set(y, t)` at the first or last instant replaces that gate.
  - The sweep reads gates and codomains as the loop reaches them, as the source does.
- Exceptions become `Result`/`Option` values. The message texts, and the signature data attached to `DomainsTypeException` (the contractor name and the expected domain list), are not modelled.
- The source's `assert`s on non-empty tubes, tube dimension and reserved codes become preconditions. The unreachable `default:` branches of the switches are absent because the datatypes are closed.
- Contractors.SliceStepSpec: a state or gate of the wrong dimension fails. No integrator reaches one, since the sizes are preconditions of the methods.
- `integrate` returns a reference to u; here it returns the box as a value.
- Addresses are abstract natural-number handles. `reinterpret_cast` and pointer width are not modelled, and allocation and release of `m_ptr` are not modelled.
- `DomainHashcode::operator<` is a predicate, `DomainHashcodeLess`, with its order properties proved as a lemma.
- The contractor's `vector<Domain*>` domains are reduced to what the overload inspects: a tube, a tube vector, or another kind.
- Lohner.LohnerAlgorithm.GetGlobalEnclosure: before the first step the source's `u_tilde` is a default-constructed box; here it is the empty sequence.
- Default arguments are not modelled, and every parameter is passed explicitly. In the library these are `u0 = IntervalVector::empty(1)`, `contractions = 1` and `eps = 0.1` for the `LohnerAlgorithm` constructor, and `H = -1` for `integrate`. No call in the modelled code relies on them.
- Graphics (VibesFigure), the example program and the Tools helpers are not part of this model.
