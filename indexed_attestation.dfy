/**
 * The IndexedAttestation container of the Ethereum 2.0 phase-0 beacon chain: two lists
 * of validator indices (custody bit 0 and custody bit 1), the attestation data and the
 * BLS signature.  Modelled here: its SimpleSerialize (SSZ) length, its structural
 * equality and the object-level Equals that wraps it.
 */
module IndexedAttestation {
  import opened Wrappers

  /** A validator index is an unsigned 64-bit number on the wire. */
  type ValidatorIndex = nat

  /** The attestation data container; its fields belong to another file, so it is
      represented by its encoding and compared as a value. */
  datatype AttestationData = AttestationData(encoding: seq<bv8>)

  /** A BLS signature, compared as a value. */
  datatype BlsSignature = BlsSignature(bytes: seq<bv8>)

  /** `Data` and `Signature` are settable properties and may be null. */
  datatype IndexedAttestation = IndexedAttestation(
    custodyBit0Indices: seq<ValidatorIndex>,
    custodyBit1Indices: seq<ValidatorIndex>,
    data: Option<AttestationData>,
    signature: Option<BlsSignature>)

  /** The fixed SSZ sizes of the element types, defined outside this container. */
  datatype SszSizes = SszSizes(validatorIndex: nat, attestationData: nat, blsSignature: nat)

  /** SSZ offsets are 4-byte little-endian integers (`sizeof(uint)`). */
  const BytesPerLengthOffset: nat := 4

  /** The encoded length: two offsets, the indices, the data and the signature. */
  function SszLength(value: IndexedAttestation, sizes: SszSizes): (n: nat)
    ensures n >= 2 * BytesPerLengthOffset + sizes.attestationData + sizes.blsSignature
    ensures n >= (|value.custodyBit0Indices| + |value.custodyBit1Indices|) * sizes.validatorIndex
  {
    2 * BytesPerLengthOffset
    + (|value.custodyBit0Indices| + |value.custodyBit1Indices|) * sizes.validatorIndex
    + sizes.attestationData
    + sizes.blsSignature
  }

  // ---------------------------------------------------------------------------
  // An independent account of the length, by the SSZ container rules: every field
  // contributes to the fixed part (its own bytes when fixed-size, a 4-byte offset when
  // variable-size) and every variable-size field also contributes its payload to the
  // variable part.

  datatype FieldLayout = FixedSize(size: nat) | VariableSize(payload: nat)

  /** The container's fields in declaration order. */
  function Fields(value: IndexedAttestation, sizes: SszSizes): seq<FieldLayout> {
    [ VariableSize(|value.custodyBit0Indices| * sizes.validatorIndex),
      VariableSize(|value.custodyBit1Indices| * sizes.validatorIndex),
      FixedSize(sizes.attestationData),
      FixedSize(sizes.blsSignature) ]
  }

  function FixedPart(fields: seq<FieldLayout>): nat {
    if fields == [] then 0
    else (match fields[0] case FixedSize(n) => n case VariableSize(_) => BytesPerLengthOffset)
         + FixedPart(fields[1..])
  }

  function VariablePart(fields: seq<FieldLayout>): nat {
    if fields == [] then 0
    else (match fields[0] case FixedSize(_) => 0 case VariableSize(p) => p)
         + VariablePart(fields[1..])
  }

  /** SszLength is the SSZ container length: fixed part plus variable part. */
  lemma {:induction false} SszLengthIsContainerLength(value: IndexedAttestation, sizes: SszSizes)
    ensures SszLength(value, sizes)
         == FixedPart(Fields(value, sizes)) + VariablePart(Fields(value, sizes))
  {
    var fs := Fields(value, sizes);
    assert fs[1..][1..][1..][1..] == [];
    assert FixedPart(fs[1..][1..][1..]) == sizes.blsSignature;
    assert VariablePart(fs[1..][1..][1..]) == 0;
    assert FixedPart(fs[1..][1..]) == sizes.attestationData + sizes.blsSignature;
    assert VariablePart(fs[1..][1..]) == 0;
  }

  /** Each further index, in either list, adds exactly one index's size. */
  lemma SszLengthGrowsPerIndex(value: IndexedAttestation, sizes: SszSizes, x: ValidatorIndex)
    ensures SszLength(value.(custodyBit0Indices := value.custodyBit0Indices + [x]), sizes)
         == SszLength(value, sizes) + sizes.validatorIndex
    ensures SszLength(value.(custodyBit1Indices := value.custodyBit1Indices + [x]), sizes)
         == SszLength(value, sizes) + sizes.validatorIndex
  {
    var n := |value.custodyBit0Indices| + |value.custodyBit1Indices|;
    assert (n + 1) * sizes.validatorIndex == n * sizes.validatorIndex + sizes.validatorIndex;
  }

  // ---------------------------------------------------------------------------
  // Equality

  /** The rule Equals(IndexedAttestation) implements: equal data and signature, equal
      lengths, and equal indices position by position. */
  predicate Equivalent(a: IndexedAttestation, b: IndexedAttestation) {
    && a.data == b.data
    && a.signature == b.signature
    && |a.custodyBit0Indices| == |b.custodyBit0Indices|
    && |a.custodyBit1Indices| == |b.custodyBit1Indices|
    && (forall i :: 0 <= i < |a.custodyBit0Indices| ==> a.custodyBit0Indices[i] == b.custodyBit0Indices[i])
    && (forall i :: 0 <= i < |a.custodyBit1Indices| ==> a.custodyBit1Indices[i] == b.custodyBit1Indices[i])
  }

  /** Equals(IndexedAttestation): compares the header fields and the lengths, then the two
      index lists element by element, returning at the first difference. */
  method Equals(self: IndexedAttestation, other: IndexedAttestation) returns (r: bool)
    ensures r <==> Equivalent(self, other)
    ensures r <==> self == other
    ensures self.data != other.data || self.signature != other.signature ==> !r
    ensures |self.custodyBit0Indices| != |other.custodyBit0Indices| ==> !r
    ensures |self.custodyBit1Indices| != |other.custodyBit1Indices| ==> !r
  {
    EquivalentIsEquality(self, other);
    if self.data != other.data
       || self.signature != other.signature
       || |self.custodyBit0Indices| != |other.custodyBit0Indices|
       || |self.custodyBit1Indices| != |other.custodyBit1Indices|
    {
      return false;
    }

    for i := 0 to |self.custodyBit0Indices|
      invariant forall j :: 0 <= j < i ==> self.custodyBit0Indices[j] == other.custodyBit0Indices[j]
    {
      if self.custodyBit0Indices[i] != other.custodyBit0Indices[i] {
        return false;
      }
    }

    for i := 0 to |self.custodyBit1Indices|
      invariant forall j :: 0 <= j < i ==> self.custodyBit1Indices[j] == other.custodyBit1Indices[j]
    {
      if self.custodyBit1Indices[i] != other.custodyBit1Indices[i] {
        return false;
      }
    }

    return true;
  }

  /** The element-wise rule coincides with equality of the whole value. */
  lemma EquivalentIsEquality(a: IndexedAttestation, b: IndexedAttestation)
    ensures Equivalent(a, b) <==> a == b
  {
    if Equivalent(a, b) {
      assert a.custodyBit0Indices == b.custodyBit0Indices;
      assert a.custodyBit1Indices == b.custodyBit1Indices;
    }
  }

  /** Hence Equals is an equivalence relation. */
  lemma EquivalentIsEquivalence(a: IndexedAttestation, b: IndexedAttestation, c: IndexedAttestation)
    ensures Equivalent(a, a)
    ensures Equivalent(a, b) ==> Equivalent(b, a)
    ensures Equivalent(a, b) && Equivalent(b, c) ==> Equivalent(a, c)
  {
    EquivalentIsEquality(a, a);
    EquivalentIsEquality(a, b);
    EquivalentIsEquality(b, a);
    EquivalentIsEquality(b, c);
    EquivalentIsEquality(a, c);
  }

  // ---------------------------------------------------------------------------
  // Equals(object)

  /** A .NET object reference as Equals(object) sees it: null, or an object with an
      identity, a runtime type and, when it is an IndexedAttestation, its value. */
  datatype Object = Null | Instance(reference: nat, runtimeType: nat, attestation: Option<IndexedAttestation>)

  /** What the .NET type system guarantees: an object whose runtime type is that of an
      IndexedAttestation is one. */
  predicate TypeConsistent(self: Object, obj: Object) {
    self.Instance? && self.attestation.Some? &&
    (obj.Instance? && obj.runtimeType == self.runtimeType ==> obj.attestation.Some?)
  }

  /** Equals(object): false for null, true for the same reference, otherwise the typed
      Equals when the runtime types agree. */
  function EqualsObject(self: Object, obj: Object): (r: bool)
    requires TypeConsistent(self, obj)
    ensures obj.Null? ==> !r
    ensures obj.Instance? && obj.reference == self.reference ==> r
    ensures obj.Instance? && obj.reference != self.reference && obj.runtimeType != self.runtimeType ==> !r
    ensures obj.Instance? && obj.reference != self.reference && obj.runtimeType == self.runtimeType
            ==> (r <==> self.attestation.value == obj.attestation.value)
  {
    EquivalentIsEquality(self.attestation.value, if obj.Instance? && obj.attestation.Some? then obj.attestation.value else self.attestation.value);
    if obj.Null? then false
    else if obj.reference == self.reference then true
    else obj.runtimeType == self.runtimeType && Equivalent(self.attestation.value, obj.attestation.value)
  }

  datatype Exception = NotSupported

  /** GetHashCode is not supported: every call throws. */
  function GetHashCode(value: IndexedAttestation): (r: Result<int, Exception>)
    ensures r.Failure? && r.error == NotSupported
  {
    Failure(NotSupported)
  }
}
