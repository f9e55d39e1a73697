/**
 `BasePlugin`, the default cohort policy: every sample is included, and a
 sample's call counts as many focus alleles as it has slots equal to the
 allele index of interest, out of as many total alleles as it has slots.
 */
module BasePlugin {
  import opened Common
  import opened Genotypes
  import PhenotypeIndex

  /** The message of the `NotImplementedError` the base plugin raises. */
  const IndexNotImplementedMessage := "Plugins must implement sample-to-phenotype index method"

  /**
   The base plugin has no way to build a phenotype index: asking for one
   always raises `NotImplementedError`.
   */
  function CreateSamplePhenotypeIndex(): (r: Result<PhenotypeIndex.Index, Error>)
    ensures r.Failure? && r.error.NotImplemented?
  {
    Failure(NotImplemented(IndexNotImplementedMessage))
  }

  /** Every sample is included, whatever the record, phenotype and index. */
  function IncludeSample(sampleId: string, record: VariantRecord, phenotype: Option<string>,
                         index: PhenotypeIndex.Index): (included: bool)
    ensures included
  {
    true
  }

  /**
   The counts of one genotype call: `focus` is how often `altIndex` occurs
   among the slots (a no-call never does), `total` is the raw slot count,
   no-calls included; hence `focus <= total`.
   */
  function ProcessGenotype(alleles: Genotype, altIndex: int): (c: Counts)
    ensures c.focus == multiset(alleles)[Some(altIndex)]
    ensures c.total == |alleles|
    ensures c.focus <= c.total
  {
    CountFocusIsMultiplicity(alleles, altIndex);
    Counts(CountFocus(alleles, altIndex), |alleles|)
  }

  /**
   `process_sample_genotype`: the counts of the named sample's call in the
   record, or the `KeyError` for a sample the record does not hold.
   */
  function ProcessSampleGenotype(sampleId: string, record: VariantRecord, altIndex: int): (r: Result<Counts, Error>)
    ensures r.Failure? <==> sampleId !in record.samples
    ensures r.Failure? ==> r.error == SampleNotFound(sampleId)
    ensures r.Success? ==> r.value.focus <= r.value.total == |record.samples[sampleId]|
    ensures r.Success? ==> r.value.focus == multiset(record.samples[sampleId])[Some(altIndex)]
  {
    match LookupGenotype(record, sampleId)
    case Success(alleles) => Success(ProcessGenotype(alleles, altIndex))
    case Failure(e) => Failure(e)
  }

  /**
   The counts depend on nothing but this sample's slots: two records that
   give the sample the same multiset of slots, in any order and whatever the
   contig or the other samples, yield the same counts.
   */
  lemma ProcessSampleGenotypeIsLocal(sampleId: string, r1: VariantRecord, r2: VariantRecord, altIndex: int)
    requires sampleId in r1.samples && sampleId in r2.samples
    requires multiset(r1.samples[sampleId]) == multiset(r2.samples[sampleId])
    ensures ProcessSampleGenotype(sampleId, r1, altIndex) == ProcessSampleGenotype(sampleId, r2, altIndex)
  {
    CountFocusPermutationInvariant(r1.samples[sampleId], r2.samples[sampleId], altIndex);
  }

  /**
   No-call slots never add to `focus` but always add to `total`: dropping them
   keeps the focus count and removes exactly one slot each from the total.
   */
  lemma NoCallsCountOnlyTowardTotal(alleles: Genotype, altIndex: int)
    ensures ProcessGenotype(Called(alleles), altIndex).focus == ProcessGenotype(alleles, altIndex).focus
    ensures ProcessGenotype(Called(alleles), altIndex).total
         == ProcessGenotype(alleles, altIndex).total - multiset(alleles)[None]
  {
    NoCallsNeverMatch(alleles, altIndex);
    CountFocusIsMultiplicity(alleles, altIndex);
    CountFocusIsMultiplicity(Called(alleles), altIndex);
    CalledLength(alleles);
  }

  /**
   The worked example of the source comment: with the allele of interest at
   index 2, the call `(1, 2)` is one focus allele out of two; a no-call slot
   still counts toward the total.
   */
  lemma WorkedExamples()
    ensures ProcessGenotype([Some(1), Some(2)], 2) == Counts(1, 2)
    ensures ProcessGenotype([Some(0), None], 0) == Counts(1, 2)
    ensures ProcessGenotype([], 1) == Counts(0, 0)
  {
    assert [Some(1), Some(2)][1..] == [Some(2)];
    assert [Some(0), None][1..] == [None];
  }
}
