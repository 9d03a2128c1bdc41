/**
 * Identity keys of the constraint network.
 *
 * A domain is reduced to the identity of the storage it references, and a
 * contractor activation to the identities of its bound domains followed by one
 * discriminant word naming the relation it applies. Memory addresses are
 * abstract natural-number handles.
 */
module Hashcode {

  /** The identity of a piece of storage (an address in the C++ library). */
  type Handle = nat

  /** Discriminants 0..4 are reserved for the built-in relations. */
  const MaxReservedCode: Handle := 4

  /** A domain, by the kind of memory it references (Domain::MemoryRef). */
  datatype Domain =
    | DoubleRef(storage: Handle)
    | IntervalRef(storage: Handle)
    | VectorRef(storage: Handle)
    | IntervalVectorRef(storage: Handle)
    | SliceRef(storage: Handle)
    | TubeRef(storage: Handle)
    | TubeVectorRef(storage: Handle)

  /** Identity of the storage referenced by a domain, dispatched on its memory kind. */
  function Uintptr(dom: Domain): (ptr: Handle)
    ensures ptr == dom.storage
  {
    match dom
    case DoubleRef(d) => d
    case IntervalRef(i) => i
    case VectorRef(v) => v
    case IntervalVectorRef(iv) => iv
    case SliceRef(s) => s
    case TubeRef(t) => t
    case TubeVectorRef(tv) => tv
  }

  // ---------------------------------------------------------------------------
  // DomainHashcode

  datatype DomainHashcode = DomainHashcode(ptr: Handle)

  /** The hashcode of a domain: the identity of its storage. */
  function DomainHashcodeOf(dom: Domain): (hc: DomainHashcode)
    ensures hc.ptr == dom.storage
  {
    DomainHashcode(Uintptr(dom))
  }

  predicate DomainHashcodeLess(a: DomainHashcode, b: DomainHashcode)
  {
    a.ptr < b.ptr
  }

  /** Two domains get equal hashcodes exactly when they reference the same storage. */
  lemma SameStorageSameHashcode(a: Domain, b: Domain)
    ensures DomainHashcodeOf(a) == DomainHashcodeOf(b) <==> a.storage == b.storage
  {
  }

  /** The domain hashcode order is a strict total order. */
  lemma DomainHashcodeStrictTotalOrder(a: DomainHashcode, b: DomainHashcode, c: DomainHashcode)
    ensures !DomainHashcodeLess(a, a)
    ensures DomainHashcodeLess(a, b) ==> !DomainHashcodeLess(b, a)
    ensures DomainHashcodeLess(a, b) && DomainHashcodeLess(b, c) ==> DomainHashcodeLess(a, c)
    ensures a != b ==> DomainHashcodeLess(a, b) || DomainHashcodeLess(b, a)
  {
  }

  // ---------------------------------------------------------------------------
  // Contractors and their discriminant

  /** Contractor::Type */
  datatype ContractorType = Equality | Component | Ibex | Tubex

  /** The dynamic type of the dynamic contractor of a T_TUBEX contractor. */
  datatype DynCtcType = CtcEval | CtcDeriv | CtcDist | OtherDynCtc

  /**
   * A contractor activation: its kind, the domains it is bound to (in binding
   * order), the identity of its static (ibex) control block and the identity
   * and dynamic type of its dynamic (tubex) control block.
   */
  datatype Contractor = Contractor(
    kind: ContractorType,
    domains: seq<Domain>,
    staticCtc: Handle,
    dynCtc: Handle,
    dynType: DynCtcType)

  /** Which relation an activation applies, independently of any encoding. */
  datatype Relation =
    | EqualityRelation
    | ComponentRelation
    | EvalRelation
    | DerivRelation
    | DistRelation
    | ControlBlock(id: Handle)

  function RelationOf(ctc: Contractor): Relation
  {
    match ctc.kind
    case Equality => EqualityRelation
    case Component => ComponentRelation
    case Ibex => ControlBlock(ctc.staticCtc)
    case Tubex =>
      match ctc.dynType
      case CtcEval => EvalRelation
      case CtcDeriv => DerivRelation
      case CtcDist => DistRelation
      case OtherDynCtc => ControlBlock(ctc.dynCtc)
  }

  predicate IsBuiltIn(rel: Relation)
  {
    !rel.ControlBlock?
  }

  /** The constructor asserts that a control-block identity never takes a reserved code. */
  predicate ReservedCodesFree(ctc: Contractor)
  {
    && (ctc.kind == Ibex ==> ctc.staticCtc > MaxReservedCode)
    && (ctc.kind == Tubex && ctc.dynType == OtherDynCtc ==> ctc.dynCtc > MaxReservedCode)
  }

  /** Reads a discriminant word back as the relation it names. */
  function DecodeDiscriminant(d: Handle): Relation
  {
    if d == 0 then EqualityRelation
    else if d == 1 then ComponentRelation
    else if d == 2 then EvalRelation
    else if d == 3 then DerivRelation
    else if d == 4 then DistRelation
    else ControlBlock(d)
  }

  /**
   * The last word of a contractor key. It names the relation without
   * ambiguity, and it lies in the reserved range exactly for the built-in
   * relations.
   */
  function Discriminant(ctc: Contractor): (d: Handle)
    requires ReservedCodesFree(ctc)
    ensures DecodeDiscriminant(d) == RelationOf(ctc)
    ensures d <= MaxReservedCode <==> IsBuiltIn(RelationOf(ctc))
  {
    match ctc.kind
    case Equality => 0
    case Component => 1
    case Ibex => ctc.staticCtc
    case Tubex =>
      match ctc.dynType
      case CtcEval => 2
      case CtcDeriv => 3
      case CtcDist => 4
      case OtherDynCtc => ctc.dynCtc
  }

  /** The identity key of a contractor activation. */
  function ContractorKey(ctc: Contractor): (key: seq<Handle>)
    requires ReservedCodesFree(ctc)
    ensures |key| == |ctc.domains| + 1
    ensures forall i :: 0 <= i < |ctc.domains| ==> key[i] == ctc.domains[i].storage
    ensures DecodeDiscriminant(key[|ctc.domains|]) == RelationOf(ctc)
  {
    seq(|ctc.domains|, i requires 0 <= i < |ctc.domains| => Uintptr(ctc.domains[i])) + [Discriminant(ctc)]
  }

  /** Same relation, bound to the same storage, in the same order. */
  predicate SameActivation(a: Contractor, b: Contractor)
  {
    && |a.domains| == |b.domains|
    && (forall i :: 0 <= i < |a.domains| ==> a.domains[i].storage == b.domains[i].storage)
    && RelationOf(a) == RelationOf(b)
  }

  /** Two activations get equal keys exactly when they are the same activation. */
  lemma KeyIdentifiesActivation(a: Contractor, b: Contractor)
    requires ReservedCodesFree(a) && ReservedCodesFree(b)
    ensures ContractorKey(a) == ContractorKey(b) <==> SameActivation(a, b)
  {
    var ka, kb := ContractorKey(a), ContractorKey(b);
    var n := |a.domains|;
    if ka == kb {
      assert |b.domains| == n;
      assert DecodeDiscriminant(ka[n]) == DecodeDiscriminant(kb[n]);
    }
    if SameActivation(a, b) {
      assert Discriminant(a) == Discriminant(b) by {
        DiscriminantOfRelation(a, b);
      }
      forall i | 0 <= i < |ka|
        ensures ka[i] == kb[i]
      {
      }
    }
  }

  lemma DiscriminantOfRelation(a: Contractor, b: Contractor)
    requires ReservedCodesFree(a) && ReservedCodesFree(b)
    requires RelationOf(a) == RelationOf(b)
    ensures Discriminant(a) == Discriminant(b)
  {
    var da, db := Discriminant(a), Discriminant(b);
    if da <= MaxReservedCode {
      assert db <= MaxReservedCode;
    } else {
      assert DecodeDiscriminant(da) == ControlBlock(da);
    }
  }

  // ---------------------------------------------------------------------------
  // Key ordering

  /**
   * Lexicographic comparison of two keys from index i on, over the common
   * prefix only: the first differing entry decides, and agreement up to the
   * shorter length gives false.
   */
  function KeyLessFrom(a: seq<Handle>, b: seq<Handle>, i: nat): bool
    decreases |a| - i
  {
    if i >= |a| || i >= |b| then false
    else if a[i] == b[i] then KeyLessFrom(a, b, i + 1)
    else a[i] < b[i]
  }

  function KeyLess(a: seq<Handle>, b: seq<Handle>): bool
  {
    KeyLessFrom(a, b, 0)
  }

  function Min(x: nat, y: nat): nat
  {
    if x <= y then x else y
  }

  /** Agreement on the first k entries. */
  predicate AgreeUpTo(a: seq<Handle>, b: seq<Handle>, k: nat)
  {
    k <= |a| && k <= |b| && forall j :: 0 <= j < k ==> a[j] == b[j]
  }

  lemma {:induction false} KeyLessFromAtDifference(a: seq<Handle>, b: seq<Handle>, i: nat, k: nat)
    requires i <= k < Min(|a|, |b|)
    requires forall j :: i <= j < k ==> a[j] == b[j]
    requires a[k] != b[k]
    ensures KeyLessFrom(a, b, i) == (a[k] < b[k])
    decreases k - i
  {
    if i < k {
      KeyLessFromAtDifference(a, b, i + 1, k);
    }
  }

  /** At the first differing index within the common prefix, that entry decides. */
  lemma KeyLessAtFirstDifference(a: seq<Handle>, b: seq<Handle>, k: nat)
    requires k < Min(|a|, |b|) && AgreeUpTo(a, b, k) && a[k] != b[k]
    ensures KeyLess(a, b) == (a[k] < b[k])
  {
    KeyLessFromAtDifference(a, b, 0, k);
  }

  lemma {:induction false} KeyLessFromCommonPrefix(a: seq<Handle>, b: seq<Handle>, i: nat)
    requires AgreeUpTo(a, b, Min(|a|, |b|))
    ensures !KeyLessFrom(a, b, i)
    decreases |a| - i
  {
    if i < |a| && i < |b| {
      KeyLessFromCommonPrefix(a, b, i + 1);
    }
  }

  /**
   * Keys that agree on their common prefix compare neither less nor greater:
   * equal keys, and keys one of which is a prefix of the other.
   */
  lemma KeyCommonPrefixIncomparable(a: seq<Handle>, b: seq<Handle>)
    requires AgreeUpTo(a, b, Min(|a|, |b|))
    ensures !KeyLess(a, b) && !KeyLess(b, a)
  {
    KeyLessFromCommonPrefix(a, b, 0);
    KeyLessFromCommonPrefix(b, a, 0);
  }

  lemma {:induction false} KeyLessFromIrreflexive(a: seq<Handle>, i: nat)
    ensures !KeyLessFrom(a, a, i)
    decreases |a| - i
  {
    if i < |a| {
      KeyLessFromIrreflexive(a, i + 1);
    }
  }

  lemma {:induction false} KeyLessFromAsymmetric(a: seq<Handle>, b: seq<Handle>, i: nat)
    requires KeyLessFrom(a, b, i)
    ensures !KeyLessFrom(b, a, i)
    decreases |a| - i
  {
    if a[i] == b[i] {
      KeyLessFromAsymmetric(a, b, i + 1);
    }
  }

  lemma {:induction false} KeyLessFromTransitive(a: seq<Handle>, b: seq<Handle>, c: seq<Handle>, i: nat)
    requires KeyLessFrom(a, b, i) && KeyLessFrom(b, c, i)
    ensures KeyLessFrom(a, c, i)
    decreases |a| - i
  {
    if a[i] == b[i] && b[i] == c[i] {
      KeyLessFromTransitive(a, b, c, i + 1);
    }
  }

  /** The key order is irreflexive, asymmetric and transitive, for keys of any lengths. */
  lemma KeyLessStrictOrder(a: seq<Handle>, b: seq<Handle>, c: seq<Handle>)
    ensures !KeyLess(a, a)
    ensures KeyLess(a, b) ==> !KeyLess(b, a)
    ensures KeyLess(a, b) && KeyLess(b, c) ==> KeyLess(a, c)
  {
    KeyLessFromIrreflexive(a, 0);
    if KeyLess(a, b) {
      KeyLessFromAsymmetric(a, b, 0);
      if KeyLess(b, c) {
        KeyLessFromTransitive(a, b, c, 0);
      }
    }
  }

  /**
   * Incomparability is not transitive across keys of different lengths:
   * [1, 2] and [1] are incomparable, so are [1] and [1, 3], yet [1, 2] < [1, 3].
   */
  lemma IncomparabilityNotTransitive()
    ensures !KeyLess([1, 2], [1]) && !KeyLess([1], [1, 2])
    ensures !KeyLess([1], [1, 3]) && !KeyLess([1, 3], [1])
    ensures KeyLess([1, 2], [1, 3])
  {
    KeyCommonPrefixIncomparable([1, 2], [1]);
    KeyCommonPrefixIncomparable([1], [1, 3]);
    KeyLessAtFirstDifference([1, 2], [1, 3], 1);
  }

  /** Two keys are ordered one way or the other unless they agree on their common prefix. */
  lemma KeyTrichotomy(a: seq<Handle>, b: seq<Handle>)
    ensures KeyLess(a, b) || KeyLess(b, a) || AgreeUpTo(a, b, Min(|a|, |b|))
  {
    var m := Min(|a|, |b|);
    var k := 0;
    while k < m && a[k] == b[k]
      invariant 0 <= k <= m
      invariant AgreeUpTo(a, b, k)
    {
      k := k + 1;
    }
    if k < m {
      KeyLessAtFirstDifference(a, b, k);
      KeyLessAtFirstDifference(b, a, k);
    }
  }

  /** Between keys of equal length, incomparability is equality: a strict weak (indeed total) order. */
  lemma KeyLessTotalOnEqualLength(a: seq<Handle>, b: seq<Handle>)
    requires |a| == |b|
    ensures KeyLess(a, b) || KeyLess(b, a) || a == b
  {
    KeyTrichotomy(a, b);
  }

  /**
   * The identities in a pair of activations are those of distinct objects:
   * storage identities lie above the reserved range, and no control block
   * shares its identity with bound storage.
   */
  predicate DistinctIdentities(a: Contractor, b: Contractor)
  {
    && (forall d :: d in a.domains + b.domains ==> d.storage > MaxReservedCode)
    && (RelationOf(a).ControlBlock? ==> forall d :: d in a.domains + b.domains ==> d.storage != RelationOf(a).id)
    && (RelationOf(b).ControlBlock? ==> forall d :: d in a.domains + b.domains ==> d.storage != RelationOf(b).id)
  }

  /**
   * For the keys of real activations the truncated comparison does no harm:
   * no key is a proper prefix of another, so any two keys are ordered or equal.
   */
  lemma ActivationKeysTotallyOrdered(a: Contractor, b: Contractor)
    requires ReservedCodesFree(a) && ReservedCodesFree(b)
    requires DistinctIdentities(a, b)
    ensures KeyLess(ContractorKey(a), ContractorKey(b))
         || KeyLess(ContractorKey(b), ContractorKey(a))
         || ContractorKey(a) == ContractorKey(b)
  {
    var ka, kb := ContractorKey(a), ContractorKey(b);
    KeyTrichotomy(ka, kb);
    if |a.domains| < |b.domains| {
      ShorterKeyDiffers(a, b);
    } else if |b.domains| < |a.domains| {
      ShorterKeyDiffers(b, a);
    }
  }

  /** Where the shorter key ends, its discriminant meets a storage identity of the longer one. */
  lemma ShorterKeyDiffers(a: Contractor, b: Contractor)
    requires ReservedCodesFree(a) && ReservedCodesFree(b)
    requires DistinctIdentities(a, b) || DistinctIdentities(b, a)
    requires |a.domains| < |b.domains|
    ensures ContractorKey(a)[|a.domains|] != ContractorKey(b)[|a.domains|]
  {
    var m := |a.domains|;
    var d := b.domains[m];
    assert d in a.domains + b.domains && d in b.domains + a.domains;
    assert ContractorKey(b)[m] == d.storage;
    var disc := ContractorKey(a)[m];
    assert disc == Discriminant(a);
  }

  // ---------------------------------------------------------------------------
  // ContractorHashcode: the key stored in an array

  class ContractorHashcode {
    const n: nat
    const ptr: array<Handle>

    ghost predicate Valid()
      reads this
    {
      ptr.Length == n
    }

    /** Fills the key: bound-domain identities in binding order, then the discriminant. */
    constructor (ctc: Contractor)
      requires ReservedCodesFree(ctc)
      ensures Valid() && fresh(ptr)
      ensures n == |ctc.domains| + 1
      ensures ptr[..] == ContractorKey(ctc)
    {
      var m := |ctc.domains| + 1;
      var a := new Handle[m];
      var i := 0;
      while i < m - 1
        invariant 0 <= i <= m - 1
        invariant forall j :: 0 <= j < i ==> a[j] == ctc.domains[j].storage
      {
        a[i] := Uintptr(ctc.domains[i]);
        i := i + 1;
      }
      match ctc.kind {
        case Equality => a[m - 1] := 0;
        case Component => a[m - 1] := 1;
        case Ibex => a[m - 1] := ctc.staticCtc;
        case Tubex =>
          if ctc.dynType == CtcEval {
            a[m - 1] := 2;
          } else if ctc.dynType == CtcDeriv {
            a[m - 1] := 3;
          } else if ctc.dynType == CtcDist {
            a[m - 1] := 4;
          } else {
            a[m - 1] := ctc.dynCtc;
          }
      }
      n := m;
      ptr := a;
      new;
      assert ptr[..] == ContractorKey(ctc) by {
        assert forall j :: 0 <= j < m - 1 ==> ptr[..][j] == ContractorKey(ctc)[j];
        assert ptr[..][m - 1] == Discriminant(ctc);
      }
    }

    /** operator<: the first differing entry within the common prefix decides. */
    method Less(other: ContractorHashcode) returns (less: bool)
      requires Valid() && other.Valid()
      ensures less == KeyLess(ptr[..], other.ptr[..])
    {
      var m := Min(n, other.n);
      var i := 0;
      while i < m
        invariant 0 <= i <= m
        invariant KeyLessFrom(ptr[..], other.ptr[..], i) == KeyLess(ptr[..], other.ptr[..])
      {
        if ptr[i] == other.ptr[i] {
          i := i + 1;
          continue;
        }
        return ptr[i] < other.ptr[i];
      }
      return false;
    }
  }
}
