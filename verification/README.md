# Cohort-allele-frequency plugins, modelled in Dafny

This project models the per-sample counting and filtering policy of the
cohort-allele-frequency (CAF) plugins of the vrs_anvil toolkit, and the rule by
which the plugin manager finds a plugin class by name.

- **BasePlugin** (`base_plugin.dfy`): the default policy. It turns one sample's
  genotype call into a `(focus, total)` pair. `focus` is the number of slots equal
  to the allele index of interest. `total` is the number of slots. Every sample is
  included. Asking it for a phenotype index raises `NotImplementedError`.
- **GregorPlugin** (`gregor_plugin.dfy`): the region-aware policy.
  - On `chrM` and `chrY` the total is 1 and the focus count is clamped to 0 or 1.
  - On `chrX` the total is fixed at 2 and the focus count is not clamped.
  - On every other contig it counts as the base plugin does.
  - A sample is included only when the plugin's phenotype index lists the
    requested phenotype for it.
- **Phenotype index** (`phenotype_index.dfy`): groups `(participant_id, term_id)`
  rows into a map from participant to that participant's distinct terms, in order
  of first appearance (pandas' `unique`, modelled by `Common.Unique`).
- **Plugins** (`plugins.dfy`): each operation of the two plugin classes, chosen by
  the plugin's class. `GregorPlugin` does not override
  `create_sample_phenotype_index`, so it inherits the raising one. The two
  `include_sample` methods take different arguments in the code (see "## Left out").
- **Cohort** (`cohort.dfy`): over a list of sample ids, keep those the record holds
  and the plugin includes, count each with the plugin, and sum the counts. It
  carries the per-sample bound `focus <= total` over to cohort totals.
- **PluginManager** (`plugin_manager.dfy`): `load_plugin` as a first-match search
  over an abstract package. The package is a list of modules. Each module has an
  import-failure flag and a list of attributes. Each attribute is a name bound to a
  class or to some other value. A class carries the `__is_plugin__` marker when it
  declares it or inherits it.

Abstractions:

- A variant record is its contig name plus a map from sample id to genotype call.
- A genotype call is a `seq<Option<int>>`; `None` is a no-call.
- A raised exception is a `Failure` of `Common.Result`.

Two points of the code's behaviour that are easy to misread:

- **No-calls.** A no-call slot counts toward `total` on ordinary contigs, because
  the code uses `len(alleles)`. It never counts toward `focus`, because `None`
  never equals an integer.
- **`alt_index`.** It is compared directly with the genotype's allele indices,
  where 0 is the reference. So it is an allele index, not a zero-based index into
  the list of alternates.

## Model

| member | source | states |
|---|---|---|
| Genotypes.LookupGenotype | plugin_system/plugins/base_plugin.py:56 | succeeds iff the record holds the sample, with exactly that sample's call; otherwise the `KeyError` naming the sample (also reached from gregor_plugin.py line 106) |
| Genotypes.CountFocus | plugin_system/plugins/base_plugin.py:56-59 | the number of slots equal to the allele of interest is at most the slot count, and is zero exactly when no slot holds that allele |
| Genotypes.CountFocusIsMultiplicity | plugin_system/plugins/base_plugin.py:57-59 | the focus count equals the multiplicity of `Some(altIndex)` in the call |
| Genotypes.CountFocusPermutationInvariant | plugin_system/plugins/base_plugin.py:56-60 | reordering a call's slots changes neither the focus count nor the slot count |
| Genotypes.NoCallsNeverMatch | plugin_system/plugins/base_plugin.py:57-59 | dropping the no-call slots leaves the focus count unchanged |
| Common.Unique | plugin_system/plugins/gregor_plugin.py:56-61 | de-duplication keeps exactly the elements of the input, with no repeats and no more of them |
| BasePlugin.CreateSamplePhenotypeIndex | plugin_system/plugins/base_plugin.py:11-19 | building a phenotype index always fails with a not-implemented error |
| BasePlugin.IncludeSample | plugin_system/plugins/base_plugin.py:21-33 | every sample is included, for every record, phenotype and index |
| BasePlugin.ProcessGenotype | plugin_system/plugins/base_plugin.py:53-62 | focus is the multiplicity of the allele of interest, total is the raw slot count including no-calls, and focus <= total |
| BasePlugin.ProcessSampleGenotype | plugin_system/plugins/base_plugin.py:35-62 | fails with a key error exactly when the record lacks the sample; otherwise focus <= total, total is the sample's slot count and focus the allele's multiplicity in that call |
| BasePlugin.ProcessSampleGenotypeIsLocal | plugin_system/plugins/base_plugin.py:56-62 | the counts depend only on the multiset of this sample's slots, not on their order, the contig or the other samples |
| BasePlugin.NoCallsCountOnlyTowardTotal | plugin_system/plugins/base_plugin.py:56-60 | dropping the no-calls keeps focus and lowers total by exactly the number of no-call slots |
| BasePlugin.WorkedExamples | plugin_system/plugins/base_plugin.py:53-55 | `(1,2)` with allele 2 gives `(1,2)`; `(0, no-call)` with allele 0 gives `(1,2)`; an empty call gives `(0,0)` |
| PhenotypeIndex.TermsOf | plugin_system/plugins/gregor_plugin.py:57-59 | the terms of one participant's rows are exactly the terms some row pairs with that participant |
| PhenotypeIndex.Build | plugin_system/plugins/gregor_plugin.py:55-61 | the keys are exactly the participant ids of the rows; a term is listed for a participant iff some row pairs them; no list has duplicates |
| GregorPlugin.CreatePhenotypeIndex | plugin_system/plugins/gregor_plugin.py:44-63 | a pre-computed index takes precedence; otherwise the index has exactly the rows' participants as keys, exactly their terms, and no repeated term in any list |
| GregorPlugin.IncludeSample | plugin_system/plugins/gregor_plugin.py:65-79 | a sample is included iff it is a key of the index and its entry lists the requested phenotype; an absent sample is never included |
| GregorPlugin.ProcessGenotype | plugin_system/plugins/gregor_plugin.py:102-125 | on chrM/chrY total is 1 and focus is 1 iff some slot holds the allele, else 0; on chrX total is 2 and focus is the unclamped multiplicity; elsewhere the base plugin's counts |
| GregorPlugin.ProcessSampleGenotype | plugin_system/plugins/gregor_plugin.py:81-125 | fails with a key error exactly when the record lacks the sample; otherwise the contig-corrected counts of that sample's call: on chrM/chrY total 1 and focus 1 iff the call holds the allele, else 0; on chrX total 2 and focus the unclamped multiplicity; elsewhere the base plugin's result |
| GregorPlugin.FocusWithinTotal | plugin_system/plugins/gregor_plugin.py:111-123 | focus <= total on every contig but chrX; on chrX it holds iff at most two slots hold the allele of interest |
| GregorPlugin.ProcessGenotypePermutationInvariant | plugin_system/plugins/gregor_plugin.py:106-123 | on every contig the counts depend only on the multiset of the call's slots, not on their order |
| GregorPlugin.ChrXTriploidExceedsTotal | plugin_system/plugins/gregor_plugin.py:103-121 | on chrX the call `(1,1,1)` with allele 1 gives `(3,2)`, a focus count above the total |
| GregorPlugin.HemizygousExamples | plugin_system/plugins/gregor_plugin.py:102-116 | on chrY `(1,2)` with allele 1 gives `(1,1)`; on chrM `(1,1)` gives `(1,1)`; a call without the allele, or an empty call, gives `(0,1)` |
| GregorPlugin.UnprefixedContigsAreOrdinary | plugin_system/plugins/gregor_plugin.py:102-123 | the contigs `Y`, `MT` and `X` without the `chr` prefix are counted exactly as the base plugin counts |
| GregorPlugin.IncludeSampleFromRows | plugin_system/plugins/gregor_plugin.py:55-79 | with an index built from rows, a sample is included for a phenotype iff some row pairs that sample with that phenotype |
| GregorPlugin.PhenotypeFilterExample | plugin_system/plugins/gregor_plugin.py:73-79 | with index `{s1: [HP:01, HP:02], s2: [HP:03]}` and phenotype HP:01 only s1 is included; an unindexed sample is excluded |
| Plugins.CreateSamplePhenotypeIndex | plugin_system/plugins/base_plugin.py:11-19 | both plugins fail with the base plugin's not-implemented error, since neither overrides the method |
| Plugins.IncludeSample | plugin_system/plugins/gregor_plugin.py:65-79 | the base plugin includes every sample; the GREGoR plugin includes a sample iff it is a key of its own index whose entry lists the requested phenotype |
| Plugins.ProcessSampleGenotype | plugin_system/plugins/gregor_plugin.py:81-125 | fails iff the record lacks the sample; on success the counts are those of the plugin's own class for the sample's call (slot counts for the base plugin, contig-corrected counts for the GREGoR plugin), and focus <= total iff the plugin is the base one, the contig is not chrX, or at most two slots hold the allele |
| Cohort.SumCounts | tests/integration/gregor/test_caf_generation.py:209-211 | summed counts keep focus <= total when every summand does; n samples each of total 1 sum to total n; the summed focus is zero iff every summand's focus is |
| Cohort.SumCountsAppend | tests/integration/gregor/test_caf_generation.py:209-211 | the sum over a concatenation is the component-wise sum of the sums of its parts |
| Cohort.IncludedCounts | plugin_system/plugins/gregor_plugin.py:65-125 | every count comes from some listed sample that the record holds and the plugin includes, and is that sample's counts under the plugin; at most one count per listed sample; under the base plugin, when the record holds every listed sample, the i-th count is exactly the i-th listed sample's counts |
| Cohort.IncludedCountsSingle | plugin_system/plugins/gregor_plugin.py:65-125 | one listed sample contributes its own counts under the plugin when the record holds it and the plugin includes it, and nothing otherwise |
| Cohort.IncludedCountsAppend | plugin_system/plugins/gregor_plugin.py:65-125 | samples are handled independently: the counts of a concatenated list are those of its first part followed by those of its second, so each listed sample contributes exactly once or not at all |
| Cohort.CohortSumAppend | tests/integration/gregor/test_caf_generation.py:209-211 | the cohort sums over a concatenated sample list are the sums over its parts added together |
| Cohort.CohortFocusWithinTotal | tests/integration/gregor/test_caf_generation.py:209-211 | for either plugin and any inclusion outcome, the cohort focus total is at most the cohort locus total, given, on chrX under the GREGoR plugin, at most two matching slots in the call of each listed sample that is held and included |
| Cohort.AutosomalCohortExample | plugin_system/plugins/base_plugin.py:56-62 | calls `(0,0)`, `(1,1)`, `(0,1)` with allele 1 on chr1 sum to 3 focus alleles out of 6 under the base plugin |
| Cohort.HemizygousCohortExample | plugin_system/plugins/gregor_plugin.py:111-116 | calls `(1,)` and `(0,)` with allele 0 on chrY sum to 1 focus allele out of 2 under the GREGoR plugin |
| PluginManager.FindInModule | plugin_system/plugin_manager.py:44-50 | the result is the first attribute that has the requested name, is a class and carries the marker; none is found iff no attribute qualifies |
| PluginManager.ScanModules | plugin_system/plugin_manager.py:37-56 | the search stops at the first module that fails to import or holds a qualifying attribute; it returns that module's first qualifying attribute or re-raises its import error; not-found iff no module stops the search |
| PluginManager.LoadPlugin | plugin_system/plugin_manager.py:18-56 | a failing package import is raised; a result is the first qualifying class in module-then-attribute order; an import error comes from the first stopping module; not-found, naming the plugin and path, iff no module qualifies or fails |
| PluginManager.SubclassesCarryMarker | plugin_system/plugins/base_plugin.py:9 | every direct or indirect subclass of the base plugin carries the inherited `__is_plugin__` marker |
| PluginManager.MarkerComesFromAncestor | plugin_system/plugin_manager.py:47-49 | the `hasattr(attribute, "__is_plugin__")` test holds iff the class or some class it descends from declares the marker |
| PluginManager.SubclassQualifies | tests/unit/test_plugin.py:84-94 | an attribute bound to a subclass of the base plugin qualifies under its own name |
| PluginManager.ImportFailureAborts | plugin_system/plugin_manager.py:51-53 | an import failure in a module reached before any plugin is found ends the search with an import error, even if a later module holds the plugin |
| PluginManager.LoadGregorExample | plugin_system/plugin_manager.py:44-50 | the GREGoR plugin class is found past a same-named non-class attribute and past the imported base class |

## Left out

- Loading a pre-computed index with `load_dict` (`gregor_plugin.py` lines 45-46) is file I/O. The loaded index is a parameter of `GregorPlugin.CreatePhenotypeIndex`.
- Loading the table from CSV/TSV or a Terra data table (lines 49-52) is file or network I/O. The table is a sequence of rows.
- The `save_dict`/`load_dict` round trip is JSON file I/O. `plugin_system/utils` is not part of this model.
- The aggregation loop `get_cohort_allele_frequency` is not part of this model, and neither is the shape of the CAF result. `Cohort` only filters the listed samples through `include_sample`, skips ids the record does not hold, and sums the counts. The floating-point `alleleFrequency` division is not modelled.
- `get_phenotype_index` is called by the tests but defined in no modelled file, so it is not modelled.
- The obsolete interface `plugin_system/base_plugin.py` is not modelled; no modelled code uses it. The template `stub_plugin.py` is a module of the plugin package, so `load_plugin` imports it while scanning, and its `StubPlugin(BasePlugin)` qualifies under the name "StubPlugin". In the model it is just one entry of the package's module list (a subclass of the base plugin, see `PluginManager.SubclassQualifies`); the bodies of its methods, which all raise `NotImplementedError`, are not modelled.
- The `importlib`/`pkgutil` mechanics are abstracted to the package/module/attribute datatypes. Discovery order and `dir()` order are the given sequence orders. `hasattr` is modelled only through the class's own declaration and its bases; metaclass attributes are not modelled. Every failing module import is reported as `ImportFailure`; in the code only an `ImportError` is caught, logged and re-raised, while another exception raised by the import (a `SyntaxError`, say) escapes unlogged as its own type.
- The log line printed before an import error is re-raised is output only, so it is not modelled.
- Python's `None` as the phenotype argument is modelled as `Option<string>`. What the caller passes when no phenotype is requested is decided in the aggregation loop, which is not modelled.
- The order in which `PhenotypeIndex.Build` lists a participant's terms is first appearance in the rows. The contract states membership and absence of duplicates, not that order.
- pysam, VRS identifier translation and vrsix index building are external; they are replaced by the abstract record.
- Plugins.IncludeSample: the two `include_sample` methods have different signatures in the code. `BasePlugin.include_sample` (`base_plugin.py` line 21) takes a fourth argument `sample_phenotype_index`; the `GregorPlugin` override (`gregor_plugin.py` lines 65-67) takes only `sample_id`, `record` and `phenotype`. So a caller that uses one call form raises `TypeError` for the other class. The model does not model that `TypeError`: it calls each class with its own argument list and passes an empty index (`map[]`) as the base plugin's fourth argument, which that method ignores.
- PhenotypeIndex.Build: the table is a sequence of `(participant_id, term_id)` rows, so two behaviours of the pandas grouping (`gregor_plugin.py` lines 56-59) are not modelled. A table without a `participant_id` or `term_id` column raises `KeyError`. An empty cell is read as NaN; a NaN participant id becomes a key with an empty term list, because NaN never equals itself in the row filter; a NaN term id becomes a `nan` entry in its participant's list, which a `string` term cannot represent.
- Participant sex: `is_female` is hard-coded to true in the code, so the model keeps only the diploid branch reachable on chrX; participant sex is not an input.
