/**
 The operations of the two concrete plugin classes, each chosen by the
 plugin's class. `GregorPlugin` subclasses `BasePlugin`, overriding
 `include_sample` and `process_sample_genotype` but not
 `create_sample_phenotype_index`. The two `include_sample` methods take
 different arguments: the base one a fourth, ignored, phenotype index, which
 is passed here as an empty map.
 */
module Plugins {
  import opened Common
  import opened Genotypes
  import PhenotypeIndex
  import BasePlugin
  import GregorPlugin

  /** A plugin instance; the GREGoR plugin carries the index it was built with. */
  datatype Plugin = Base | Gregor(phenotypeIndex: PhenotypeIndex.Index)

  /**
   `create_sample_phenotype_index`: neither plugin overrides the base
   method, so it raises `NotImplementedError` for both.
   */
  function CreateSamplePhenotypeIndex(plugin: Plugin): (r: Result<PhenotypeIndex.Index, Error>)
    ensures r == Failure(NotImplemented(BasePlugin.IndexNotImplementedMessage))
  {
    match plugin
    case Base => BasePlugin.CreateSamplePhenotypeIndex()
    case Gregor(_) => BasePlugin.CreateSamplePhenotypeIndex()
  }

  /**
   `include_sample` of the plugin's own class, each called with its own
   argument list; the base method's extra index argument is an empty map.
   */
  function IncludeSample(plugin: Plugin, sampleId: string, record: VariantRecord,
                         phenotype: Option<string>): (included: bool)
    ensures plugin.Base? ==> included
    ensures plugin.Gregor? ==>
      (included <==> sampleId in plugin.phenotypeIndex && phenotype.Some?
                     && phenotype.value in plugin.phenotypeIndex[sampleId])
  {
    match plugin
    case Base => BasePlugin.IncludeSample(sampleId, record, phenotype, map[])
    case Gregor(index) => GregorPlugin.IncludeSample(index, sampleId, record, phenotype)
  }

  /** `process_sample_genotype` of the plugin's own class. */
  function ProcessSampleGenotype(plugin: Plugin, sampleId: string, record: VariantRecord,
                                 altIndex: int): (r: Result<Counts, Error>)
    ensures r.Failure? <==> sampleId !in record.samples
    ensures r.Success? ==>
      (r.value.focus <= r.value.total
       <==> plugin.Base? || !GregorPlugin.IsX(record.chrom)
            || multiset(record.samples[sampleId])[Some(altIndex)] <= 2)
    ensures r.Success? && plugin.Base? ==>
      r.value == BasePlugin.ProcessGenotype(record.samples[sampleId], altIndex)
    ensures r.Success? && plugin.Gregor? ==>
      r.value == GregorPlugin.ProcessGenotype(record.chrom, record.samples[sampleId], altIndex)
  {
    match plugin
    case Base => BasePlugin.ProcessSampleGenotype(sampleId, record, altIndex)
    case Gregor(_) => GregorPlugin.ProcessSampleGenotype(sampleId, record, altIndex)
  }
}
