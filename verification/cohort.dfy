/**
 The cohort totals a caller accumulates from a plugin: over the samples of a
 record, skip those the plugin excludes and add up the `(focus, total)` pairs
 of the rest. Only the summation is modelled, to carry the per-sample bound
 `focus <= total` over to the cohort totals.
 */
module Cohort {
  import opened Common
  import opened Genotypes
  import GregorPlugin
  import Plugins

  /** The component-wise sum of the counts. */
  function SumCounts(cs: seq<Counts>): (t: Counts)
    ensures (forall i :: 0 <= i < |cs| ==> cs[i].focus <= cs[i].total) ==> t.focus <= t.total
    ensures (forall i :: 0 <= i < |cs| ==> cs[i].total == 1) ==> t.total == |cs|
    ensures (forall i :: 0 <= i < |cs| ==> cs[i].focus == 0) <==> t.focus == 0
  {
    if |cs| == 0 then Counts(0, 0)
    else
      var rest := SumCounts(cs[1..]);
      Counts(cs[0].focus + rest.focus, cs[0].total + rest.total)
  }

  /** Summing a concatenation adds the sums of its two parts, component by component. */
  lemma {:induction false} SumCountsAppend(a: seq<Counts>, b: seq<Counts>)
    ensures SumCounts(a + b).focus == SumCounts(a).focus + SumCounts(b).focus
    ensures SumCounts(a + b).total == SumCounts(a).total + SumCounts(b).total
    decreases |a|
  {
    if |a| == 0 {
      assert a + b == b;
    } else {
      assert (a + b)[1..] == a[1..] + b;
      SumCountsAppend(a[1..], b);
    }
  }

  /**
   The counts of the listed samples of the record that the plugin includes,
   in list order. Samples the record does not hold are skipped.
   */
  function IncludedCounts(plugin: Plugins.Plugin, record: VariantRecord, altIndex: int,
                          phenotype: Option<string>, sampleIds: seq<string>): (cs: seq<Counts>)
    ensures |cs| <= |sampleIds|
    ensures plugin.Base? && (forall i :: 0 <= i < |sampleIds| ==> sampleIds[i] in record.samples) ==>
      |cs| == |sampleIds|
    ensures plugin.Base? && (forall i :: 0 <= i < |sampleIds| ==> sampleIds[i] in record.samples) ==>
      forall i :: 0 <= i < |sampleIds| ==>
        cs[i] == Plugins.ProcessSampleGenotype(plugin, sampleIds[i], record, altIndex).value
    ensures forall c :: c in cs ==>
      exists id :: id in sampleIds && id in record.samples && Plugins.IncludeSample(plugin, id, record, phenotype)
                   && c == Plugins.ProcessSampleGenotype(plugin, id, record, altIndex).value
  {
    if |sampleIds| == 0 then []
    else
      var id := sampleIds[0];
      var rest := IncludedCounts(plugin, record, altIndex, phenotype, sampleIds[1..]);
      if id in record.samples && Plugins.IncludeSample(plugin, id, record, phenotype) then
        [Plugins.ProcessSampleGenotype(plugin, id, record, altIndex).value] + rest
      else rest
  }

  /**
   A single listed sample contributes its own counts when the record holds it
   and the plugin includes it, and nothing otherwise.
   */
  lemma IncludedCountsSingle(plugin: Plugins.Plugin, record: VariantRecord, altIndex: int,
                             phenotype: Option<string>, id: string)
    ensures IncludedCounts(plugin, record, altIndex, phenotype, [id])
         == if id in record.samples && Plugins.IncludeSample(plugin, id, record, phenotype)
            then [Plugins.ProcessSampleGenotype(plugin, id, record, altIndex).value]
            else []
  {
  }

  /**
   The samples are handled one at a time and independently: the counts of a
   concatenated list are the counts of its first part followed by those of
   its second. With `IncludedCountsSingle`, each listed sample contributes
   its own counts exactly once, or nothing.
   */
  lemma {:induction false} IncludedCountsAppend(plugin: Plugins.Plugin, record: VariantRecord, altIndex: int,
                                                phenotype: Option<string>, a: seq<string>, b: seq<string>)
    ensures IncludedCounts(plugin, record, altIndex, phenotype, a + b)
         == IncludedCounts(plugin, record, altIndex, phenotype, a)
            + IncludedCounts(plugin, record, altIndex, phenotype, b)
    decreases |a|
  {
    if |a| == 0 {
      assert a + b == b;
    } else {
      assert (a + b)[1..] == a[1..] + b;
      IncludedCountsAppend(plugin, record, altIndex, phenotype, a[1..], b);
    }
  }

  /**
   The cohort sum of a concatenated sample list is the sum of the cohort sums
   of its parts: adding samples to a cohort adds exactly their counts.
   */
  lemma CohortSumAppend(plugin: Plugins.Plugin, record: VariantRecord, altIndex: int,
                        phenotype: Option<string>, a: seq<string>, b: seq<string>)
    ensures SumCounts(IncludedCounts(plugin, record, altIndex, phenotype, a + b)).focus
         == SumCounts(IncludedCounts(plugin, record, altIndex, phenotype, a)).focus
            + SumCounts(IncludedCounts(plugin, record, altIndex, phenotype, b)).focus
    ensures SumCounts(IncludedCounts(plugin, record, altIndex, phenotype, a + b)).total
         == SumCounts(IncludedCounts(plugin, record, altIndex, phenotype, a)).total
            + SumCounts(IncludedCounts(plugin, record, altIndex, phenotype, b)).total
  {
    IncludedCountsAppend(plugin, record, altIndex, phenotype, a, b);
    SumCountsAppend(IncludedCounts(plugin, record, altIndex, phenotype, a),
                    IncludedCounts(plugin, record, altIndex, phenotype, b));
  }

  /**
   No listed sample that the record holds and the plugin includes has a call
   holding the allele of interest more than twice.
   */
  ghost predicate AtMostDiploidMatches(plugin: Plugins.Plugin, record: VariantRecord, altIndex: int,
                                       phenotype: Option<string>, sampleIds: seq<string>) {
    forall i :: 0 <= i < |sampleIds| && sampleIds[i] in record.samples
                && Plugins.IncludeSample(plugin, sampleIds[i], record, phenotype) ==>
      multiset(record.samples[sampleIds[i]])[Some(altIndex)] <= 2
  }

  /**
   The cohort focus count never exceeds the cohort total, for either plugin
   and any inclusion outcome, provided that for the GREGoR plugin on the X
   contig no included call holds the allele of interest more than twice.
   */
  lemma {:induction false} CohortFocusWithinTotal(plugin: Plugins.Plugin, record: VariantRecord, altIndex: int,
                                                  phenotype: Option<string>, sampleIds: seq<string>)
    requires plugin.Gregor? && GregorPlugin.IsX(record.chrom) ==>
      AtMostDiploidMatches(plugin, record, altIndex, phenotype, sampleIds)
    ensures SumCounts(IncludedCounts(plugin, record, altIndex, phenotype, sampleIds)).focus
         <= SumCounts(IncludedCounts(plugin, record, altIndex, phenotype, sampleIds)).total
  {
    var cs := IncludedCounts(plugin, record, altIndex, phenotype, sampleIds);
    forall i | 0 <= i < |cs|
      ensures cs[i].focus <= cs[i].total
    {
      IncludedCountsBounded(plugin, record, altIndex, phenotype, sampleIds, i);
    }
  }

  /** Each included sample's counts keep `focus <= total` under the same proviso. */
  lemma {:induction false} IncludedCountsBounded(plugin: Plugins.Plugin, record: VariantRecord, altIndex: int,
                                                 phenotype: Option<string>, sampleIds: seq<string>, i: nat)
    requires plugin.Gregor? && GregorPlugin.IsX(record.chrom) ==>
      AtMostDiploidMatches(plugin, record, altIndex, phenotype, sampleIds)
    requires i < |IncludedCounts(plugin, record, altIndex, phenotype, sampleIds)|
    ensures IncludedCounts(plugin, record, altIndex, phenotype, sampleIds)[i].focus
         <= IncludedCounts(plugin, record, altIndex, phenotype, sampleIds)[i].total
    decreases |sampleIds|
  {
    var id := sampleIds[0];
    var rest := IncludedCounts(plugin, record, altIndex, phenotype, sampleIds[1..]);
    assert forall j :: 0 <= j < |sampleIds| - 1 ==> sampleIds[1..][j] == sampleIds[j + 1];
    if id in record.samples && Plugins.IncludeSample(plugin, id, record, phenotype) {
      var r := Plugins.ProcessSampleGenotype(plugin, id, record, altIndex);
      if i == 0 {
        assert r.Success?;
      } else {
        IncludedCountsBounded(plugin, record, altIndex, phenotype, sampleIds[1..], i - 1);
      }
    } else {
      IncludedCountsBounded(plugin, record, altIndex, phenotype, sampleIds[1..], i);
    }
  }

  /**
   Worked cohort: a diploid autosomal record with calls `(0,0)`, `(1,1)`,
   `(0,1)` and allele of interest 1 gives three focus alleles out of six under
   the base plugin.
   */
  lemma AutosomalCohortExample()
    ensures
      var record := VariantRecord("chr1", map["s1" := [Some(0), Some(0)], "s2" := [Some(1), Some(1)],
                                              "s3" := [Some(0), Some(1)]]);
      SumCounts(IncludedCounts(Plugins.Base, record, 1, None, ["s1", "s2", "s3"])) == Counts(3, 6)
  {
    var record := VariantRecord("chr1", map["s1" := [Some(0), Some(0)], "s2" := [Some(1), Some(1)],
                                            "s3" := [Some(0), Some(1)]]);
    var ids := ["s1", "s2", "s3"];
    assert record.samples["s1"] == [Some(0), Some(0)];
    assert multiset(record.samples["s1"])[Some(1)] == 0;
    assert multiset(record.samples["s2"])[Some(1)] == 2;
    assert multiset(record.samples["s3"])[Some(1)] == 1;
    var c1 := Plugins.ProcessSampleGenotype(Plugins.Base, "s1", record, 1);
    var c2 := Plugins.ProcessSampleGenotype(Plugins.Base, "s2", record, 1);
    var c3 := Plugins.ProcessSampleGenotype(Plugins.Base, "s3", record, 1);
    assert c1 == Success(Counts(0, 2));
    assert c2 == Success(Counts(2, 2));
    assert c3 == Success(Counts(1, 2));
    assert ids[1..] == ["s2", "s3"] && ids[1..][1..] == ["s3"] && ids[1..][1..][1..] == [];
    assert IncludedCounts(Plugins.Base, record, 1, None, ids) == [Counts(0, 2), Counts(2, 2), Counts(1, 2)];
  }

  /**
   Worked cohort: a `chrY` record with calls `(1,)` and `(0,)` and allele of
   interest 0 gives one focus allele out of two under the GREGoR plugin when
   both samples carry the requested phenotype; each hemizygous sample adds one
   to the total.
   */
  lemma HemizygousCohortExample()
    ensures
      var record := VariantRecord("chrY", map["s1" := [Some(1)], "s2" := [Some(0)]]);
      var plugin := Plugins.Gregor(map["s1" := ["HP:01"], "s2" := ["HP:01", "HP:02"]]);
      SumCounts(IncludedCounts(plugin, record, 0, Some("HP:01"), ["s1", "s2"])) == Counts(1, 2)
  {
    var record := VariantRecord("chrY", map["s1" := [Some(1)], "s2" := [Some(0)]]);
    var plugin := Plugins.Gregor(map["s1" := ["HP:01"], "s2" := ["HP:01", "HP:02"]]);
    var ids := ["s1", "s2"];
    assert Plugins.IncludeSample(plugin, "s1", record, Some("HP:01"));
    assert Plugins.IncludeSample(plugin, "s2", record, Some("HP:01"));
    assert Plugins.ProcessSampleGenotype(plugin, "s1", record, 0) == Success(Counts(0, 1));
    assert Plugins.ProcessSampleGenotype(plugin, "s2", record, 0) == Success(Counts(1, 1));
    assert ids[1..] == ["s2"] && ids[1..][1..] == [];
    assert IncludedCounts(plugin, record, 0, Some("HP:01"), ids) == [Counts(0, 1), Counts(1, 1)];
  }
}
