/**
 The variant record as the plugins see it, and the one counting step both
 plugins share: how many genotype slots of a sample carry the allele of
 interest.

 A record is abstracted to its contig name and the per-sample genotype calls
 (`record.samples[sample_id].allele_indices`). A call is a sequence of slots;
 each slot is an allele index (0 is the reference, k the k-th alternate) or
 `None` for a no-call.
 */
module Genotypes {
  import opened Common

  /** One genotype slot; `None` is a no-call. */
  type Allele = Option<int>

  /** One sample's genotype call, one slot per copy recorded. */
  type Genotype = seq<Allele>

  /** The part of a variant-file row the plugins read. */
  datatype VariantRecord = VariantRecord(chrom: string, samples: map<string, Genotype>)

  /** A `(focus, total)` allele-count pair for one sample. */
  datatype Counts = Counts(focus: nat, total: nat)

  /**
   `record.samples[sampleId].allele_indices`: the sample's call, or the
   `KeyError` raised for a sample the record does not hold.
   */
  function LookupGenotype(record: VariantRecord, sampleId: string): (r: Result<Genotype, Error>)
    ensures r.Success? <==> sampleId in record.samples
    ensures r.Success? ==> r.value == record.samples[sampleId]
    ensures r.Failure? ==> r.error == SampleNotFound(sampleId)
  {
    if sampleId in record.samples then Success(record.samples[sampleId])
    else Failure(SampleNotFound(sampleId))
  }

  /** The slots kept after dropping no-calls. */
  function Called(alleles: Genotype): (c: Genotype)
    ensures forall a :: a in c <==> a in alleles && a.Some?
    ensures |c| <= |alleles|
  {
    if |alleles| == 0 then []
    else if alleles[0].None? then Called(alleles[1..])
    else [alleles[0]] + Called(alleles[1..])
  }

  /**
   The number of slots whose value equals `altIndex`: the sum of one per
   matching slot. A no-call slot is `None`, which never equals an integer.
   */
  function CountFocus(alleles: Genotype, altIndex: int): (n: nat)
    ensures n <= |alleles|
    ensures n == 0 <==> Some(altIndex) !in alleles
  {
    if |alleles| == 0 then 0
    else (if alleles[0] == Some(altIndex) then 1 else 0) + CountFocus(alleles[1..], altIndex)
  }

  /** The focus count is the multiplicity of the allele in the call. */
  lemma {:induction false} CountFocusIsMultiplicity(alleles: Genotype, altIndex: int)
    ensures CountFocus(alleles, altIndex) == multiset(alleles)[Some(altIndex)]
  {
    if |alleles| > 0 {
      assert alleles == [alleles[0]] + alleles[1..];
      assert multiset(alleles) == multiset{alleles[0]} + multiset(alleles[1..]);
      CountFocusIsMultiplicity(alleles[1..], altIndex);
    }
  }

  /** Reordering the slots of a call changes neither the focus count nor the slot count. */
  lemma CountFocusPermutationInvariant(a: Genotype, b: Genotype, altIndex: int)
    requires multiset(a) == multiset(b)
    ensures CountFocus(a, altIndex) == CountFocus(b, altIndex)
    ensures |a| == |b|
  {
    CountFocusIsMultiplicity(a, altIndex);
    CountFocusIsMultiplicity(b, altIndex);
    assert |a| == |multiset(a)| == |multiset(b)| == |b|;
  }

  /** Dropping the no-calls never changes the focus count. */
  lemma {:induction false} NoCallsNeverMatch(alleles: Genotype, altIndex: int)
    ensures CountFocus(Called(alleles), altIndex) == CountFocus(alleles, altIndex)
  {
    if |alleles| > 0 {
      NoCallsNeverMatch(alleles[1..], altIndex);
      if alleles[0].Some? {
        assert ([alleles[0]] + Called(alleles[1..]))[1..] == Called(alleles[1..]);
      }
    }
  }

  /** Dropping the no-calls removes exactly one slot per no-call. */
  lemma {:induction false} CalledLength(alleles: Genotype)
    ensures |Called(alleles)| == |alleles| - multiset(alleles)[None]
  {
    if |alleles| > 0 {
      assert alleles == [alleles[0]] + alleles[1..];
      assert multiset(alleles) == multiset{alleles[0]} + multiset(alleles[1..]);
      CalledLength(alleles[1..]);
    }
  }
}
