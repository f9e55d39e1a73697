/**
 `GregorPlugin`, the region-aware policy for GREGoR data: it owns a phenotype
 index, includes a sample only when the index lists the requested phenotype
 for it, and corrects the total allele count by contig. Mitochondrial and Y
 contigs count one allele per sample (present or absent); the X contig counts
 every sample as diploid; every other contig counts as the base plugin does.
 */
module GregorPlugin {
  import opened Common
  import opened Genotypes
  import PhenotypeIndex
  import BasePlugin

  /** The contigs treated as hemizygous: exactly these two names, `chr` prefix included. */
  predicate IsHemizygous(chrom: string) {
    chrom in ["chrM", "chrY"]
  }

  /** The contig whose samples are all counted as diploid. */
  predicate IsX(chrom: string) {
    chrom == "chrX"
  }

  /**
   The phenotype index the plugin is constructed with: the index read from a
   pre-computed file when one is given (`precomputed`), otherwise the grouping
   of the phenotype table rows (however the table was loaded).
   */
  function CreatePhenotypeIndex(precomputed: Option<PhenotypeIndex.Index>, rows: seq<PhenotypeIndex.Row>)
    : (index: PhenotypeIndex.Index)
    ensures precomputed.Some? ==> index == precomputed.value
    ensures precomputed.None? ==>
      forall p :: p in index <==> exists i :: 0 <= i < |rows| && rows[i].participantId == p
    ensures precomputed.None? ==>
      forall p, t :: p in index ==> (t in index[p] <==> PhenotypeIndex.Row(p, t) in rows)
    ensures precomputed.None? ==> forall p :: p in index ==> NoDuplicates(index[p])
  {
    if precomputed.Some? then precomputed.value else PhenotypeIndex.Build(rows)
  }

  /**
   A sample is included exactly when the index has an entry for it and that
   entry lists the requested phenotype. A sample absent from the index, or a
   call without a phenotype, is excluded; the record plays no part.
   */
  function IncludeSample(index: PhenotypeIndex.Index, sampleId: string, record: VariantRecord,
                         phenotype: Option<string>): (included: bool)
    ensures included <==> sampleId in index && phenotype.Some? && phenotype.value in index[sampleId]
  {
    sampleId in index && phenotype.Some? && phenotype.value in index[sampleId]
  }

  /**
   The counts of one genotype call on the given contig.
   */
  function ProcessGenotype(chrom: string, alleles: Genotype, altIndex: int): (c: Counts)
    ensures IsHemizygous(chrom) ==> c.total == 1
    ensures IsHemizygous(chrom) ==> (c.focus == 1 <==> Some(altIndex) in alleles) && c.focus <= 1
    ensures IsX(chrom) ==> c.total == 2 && c.focus == multiset(alleles)[Some(altIndex)]
    ensures !IsHemizygous(chrom) && !IsX(chrom) ==> c == BasePlugin.ProcessGenotype(alleles, altIndex)
  {
    CountFocusIsMultiplicity(alleles, altIndex);
    var withinHemizygousRegion := IsHemizygous(chrom);
    var withinX := IsX(chrom);
    var matches := CountFocus(alleles, altIndex);
    var focus := if withinHemizygousRegion && matches > 0 then 1 else matches;
    var isFemale := true;
    var total :=
      if withinHemizygousRegion then 1
      else if withinX then (if isFemale then 2 else 1)
      else |alleles|;
    Counts(focus, total)
  }

  /**
   `process_sample_genotype`: the contig-corrected counts of the named
   sample's call, or the `KeyError` for a sample the record does not hold.
   */
  function ProcessSampleGenotype(sampleId: string, record: VariantRecord, altIndex: int): (r: Result<Counts, Error>)
    ensures r.Failure? <==> sampleId !in record.samples
    ensures r.Failure? ==> r.error == SampleNotFound(sampleId)
    ensures r.Success? && IsHemizygous(record.chrom) ==> r.value.focus <= r.value.total == 1
    ensures r.Success? && IsX(record.chrom) ==> r.value.total == 2
    ensures r.Success? ==> r.value == ProcessGenotype(record.chrom, record.samples[sampleId], altIndex)
    ensures !IsHemizygous(record.chrom) && !IsX(record.chrom) ==>
      r == BasePlugin.ProcessSampleGenotype(sampleId, record, altIndex)
  {
    match LookupGenotype(record, sampleId)
    case Success(alleles) => Success(ProcessGenotype(record.chrom, alleles, altIndex))
    case Failure(e) => Failure(e)
  }

  /**
   `focus <= total` holds on every contig except the X contig, where it holds
   exactly when at most two slots carry the allele of interest (the focus
   count there is not clamped while the total is fixed at two).
   */
  lemma FocusWithinTotal(chrom: string, alleles: Genotype, altIndex: int)
    ensures !IsX(chrom) ==> ProcessGenotype(chrom, alleles, altIndex).focus <= ProcessGenotype(chrom, alleles, altIndex).total
    ensures IsX(chrom) ==>
      (ProcessGenotype(chrom, alleles, altIndex).focus <= ProcessGenotype(chrom, alleles, altIndex).total
       <==> multiset(alleles)[Some(altIndex)] <= 2)
  {
  }

  /**
   The contig-corrected counts depend only on the multiset of the call's
   slots: reordering them changes nothing on any contig.
   */
  lemma ProcessGenotypePermutationInvariant(chrom: string, a: Genotype, b: Genotype, altIndex: int)
    requires multiset(a) == multiset(b)
    ensures ProcessGenotype(chrom, a, altIndex) == ProcessGenotype(chrom, b, altIndex)
  {
    CountFocusPermutationInvariant(a, b, altIndex);
  }

  /**
   On the X contig a triploid call `(1, 1, 1)` with allele of interest 1 gives
   three focus alleles out of two.
   */
  lemma ChrXTriploidExceedsTotal()
    ensures ProcessGenotype("chrX", [Some(1), Some(1), Some(1)], 1) == Counts(3, 2)
  {
    var g := [Some(1), Some(1), Some(1)];
    assert multiset(g)[Some(1)] == 3;
  }

  /**
   The hemizygous clamp: a call holding the allele of interest any number of
   times counts as one out of one; for example `(1, 2)` with allele 1 on `chrY`.
   */
  lemma HemizygousExamples()
    ensures ProcessGenotype("chrY", [Some(1), Some(2)], 1) == Counts(1, 1)
    ensures ProcessGenotype("chrM", [Some(1), Some(1)], 1) == Counts(1, 1)
    ensures ProcessGenotype("chrY", [Some(0)], 1) == Counts(0, 1)
    ensures ProcessGenotype("chrY", [], 1) == Counts(0, 1)
  {
  }

  /**
   Contig names are matched exactly: `Y` and `MT` without the `chr` prefix
   count as ordinary contigs, slot by slot.
   */
  lemma UnprefixedContigsAreOrdinary(alleles: Genotype, altIndex: int)
    ensures ProcessGenotype("Y", alleles, altIndex) == BasePlugin.ProcessGenotype(alleles, altIndex)
    ensures ProcessGenotype("MT", alleles, altIndex) == BasePlugin.ProcessGenotype(alleles, altIndex)
    ensures ProcessGenotype("X", alleles, altIndex) == BasePlugin.ProcessGenotype(alleles, altIndex)
  {
  }

  /**
   With an index built from phenotype rows, a sample is included for a
   phenotype exactly when some row pairs that sample with that phenotype.
   */
  lemma IncludeSampleFromRows(rows: seq<PhenotypeIndex.Row>, sampleId: string, record: VariantRecord, phenotype: string)
    ensures IncludeSample(CreatePhenotypeIndex(None, rows), sampleId, record, Some(phenotype))
            <==> PhenotypeIndex.Row(sampleId, phenotype) in rows
  {
    var index := CreatePhenotypeIndex(None, rows);
    if PhenotypeIndex.Row(sampleId, phenotype) in rows {
      var i :| 0 <= i < |rows| && rows[i] == PhenotypeIndex.Row(sampleId, phenotype);
      assert rows[i].participantId == sampleId;
    }
  }

  /**
   With the index `{"s1": ["HP:01", "HP:02"], "s2": ["HP:03"]}` and phenotype
   `HP:01`, only `s1` is included; a sample without an entry never is.
   */
  lemma PhenotypeFilterExample(record: VariantRecord)
    ensures
      var index := map["s1" := ["HP:01", "HP:02"], "s2" := ["HP:03"]];
      && IncludeSample(index, "s1", record, Some("HP:01"))
      && !IncludeSample(index, "s2", record, Some("HP:01"))
      && !IncludeSample(index, "s3", record, Some("HP:01"))
  {
  }
}
