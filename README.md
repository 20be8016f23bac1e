# eva-pipeline job-parameter validation and aggregated VCF line mapping, in Dafny

This project models the two pieces of logic of the EVA variant-loading
pipeline that decide something on their own:

* **Job-parameter validation.** Before a step or job runs, its parameters are
  checked in two phases. First the base check (Spring Batch's
  `DefaultJobParametersValidator`) makes sure every required key is present.
  Then a freshly built `CompositeJobParametersValidator` runs the field
  validators in a fixed order and stops at the first failure. Some validators
  are wrapped in an `OptionalValidator`, which only fires when its key was
  supplied. The model covers `AnnotationLoaderStepParametersValidator`, the
  `DbNameValidator` rule (a non-blank string) and
  `DropStudyJobParametersValidator` as their tests fix them.
* **Aggregated VCF line mapping.** `AggregatedVcfLineMapper` picks a parsing
  factory from the source's aggregation kind once, in its constructor. EVS,
  EXAC and BASIC each get their own factory. NONE is refused with an
  `IllegalArgumentException`. `mapLine` asserts that a factory is present and
  delegates the line to it.

Files:

* `Wrappers.dfy`: `Option`, `Outcome` and `Result`.
* `JobParameters.dfy`: a parameter set is a `map<string, Option<string>>`.
  `None` is a key supplied with a null value. The file also holds the
  parameter names and `GetString`.
* `Validation.dfy`: field validators, the optional guard, the fail-fast
  composite (`RunAll`), the base key check (`CheckKeys`), a per-job
  `Validate`, and the general lemmas about them.
* `FieldValidators.dfy`: the non-blank database-name rule, with Java's
  `String.trim` written out. The other leaf rules are predicates passed in a
  `LeafRules` record.
* `AnnotationLoaderStep.dfy`: the annotation loader step's declaration,
  validator list and properties.
* `DropStudyJob.dfy`: the drop-study job's declaration and validator list,
  plus the cases of its test.
* `AggregatedVcfLineMapper.dfy`: the mapper class, its constructor's switch
  and `mapLine`.

Validation is a function of the parameter set, so it cannot change the set.
A composite is built fresh on every call and holds no state. So the same
parameters always get the same verdict, and no earlier call can affect a
later one. In this model that holds by construction.

Behaviour taken from Spring Batch, and the readings chosen for classes this
model does not include:

* The base check is Spring Batch's `DefaultJobParametersValidator`. It treats
  a key as present when it is in the parameter map, even with a null value.
  It reports all missing required keys together as one set, not only the
  first one. When optional keys are declared, it also refuses keys that are
  neither required nor optional. The annotation loader step declares no
  optional keys (an empty array), so that branch never fires for it
  (`AnnotationLoaderStep.UnknownKeysIgnored`). The drop-study job is assumed
  to declare none either.
* `OptionalValidator` runs its inner validator when its key is in the
  parameter map.
* "Blank" follows Java's `String.trim`: every character is at most U+0020.
  The test pins only the single space.
* The parameter-name strings follow the repository's naming scheme. The
  proofs rely only on the names being distinct.

## Model

| member | source | states |
|---|---|---|
| `JobParameters.GetString` | src/test/java/uk/ac/ebi/eva/pipeline/parameters/validation/DbNameValidatorTest.java:57-62 | The string value of a key is present if and only if the key is supplied with a non-null value, and it is then that value. A missing key and a null value both read as null. |
| `Validation.Run` | src/main/java/uk/ac/ebi/eva/pipeline/parameters/validation/step/AnnotationLoaderStepParametersValidator.java:51-59 | A failing validator names the parameter it checks. An optional-wrapped validator passes when its key is absent and behaves exactly like its inner validator when the key is present. |
| `Validation.RunReadsOnly` | src/main/java/uk/ac/ebi/eva/pipeline/parameters/validation/step/AnnotationLoaderStepParametersValidator.java:51-59 | A validator's verdict depends only on the entries of the keys it reads. |
| `Validation.RunAll` | src/main/java/uk/ac/ebi/eva/pipeline/parameters/validation/step/AnnotationLoaderStepParametersValidator.java:62-64 | Any failure of the composite is the failure of one of its validators, naming that validator's key. |
| `Validation.RunAllPassIff` | src/main/java/uk/ac/ebi/eva/pipeline/parameters/validation/step/AnnotationLoaderStepParametersValidator.java:45-48 | The composite passes if and only if every composed validator passes. |
| `Validation.FirstFailure` | src/main/java/uk/ac/ebi/eva/pipeline/parameters/validation/step/AnnotationLoaderStepParametersValidator.java:45-48 | A failing composite reports the failure of some validator `i`, and every validator before `i` passes. |
| `Validation.RunAllReportsFirstFailure` | src/main/java/uk/ac/ebi/eva/pipeline/parameters/validation/step/AnnotationLoaderStepParametersValidator.java:51-64 | Fail-fast: if validator `i` is the first to fail, the composite's failure is exactly validator `i`'s, whatever the later ones would say. |
| `Validation.RunAllAppend` | src/main/java/uk/ac/ebi/eva/pipeline/parameters/validation/step/AnnotationLoaderStepParametersValidator.java:62-64 | Running `a + b` gives `a`'s failure if `a` fails and `b`'s verdict otherwise, so nothing after a failure is consulted. |
| `Validation.RunAllReadsOnly` | src/main/java/uk/ac/ebi/eva/pipeline/parameters/validation/step/AnnotationLoaderStepParametersValidator.java:51-60 | The composite's verdict depends only on the keys its validators read. |
| `Validation.CheckKeys` | src/main/java/uk/ac/ebi/eva/pipeline/parameters/validation/step/AnnotationLoaderStepParametersValidator.java:35-46 | The base check passes if and only if every required key is present and, when optional keys are declared, every key is declared. A missing-key failure lists exactly the absent required keys. |
| `Validation.Validate` | src/main/java/uk/ac/ebi/eva/pipeline/parameters/validation/step/AnnotationLoaderStepParametersValidator.java:45-48 | A pass means every required key is present. A missing-key failure lists exactly the absent required keys, and there is at least one. A failure naming a parameter comes only once every required key is present, and names a key that one of the composed validators reports on. |
| `Validation.ValidatePassIff` | src/main/java/uk/ac/ebi/eva/pipeline/parameters/validation/step/AnnotationLoaderStepParametersValidator.java:45-48 | `validate` passes if and only if the base check and every composed validator pass. |
| `Validation.KeyCheckComesFirst` | src/main/java/uk/ac/ebi/eva/pipeline/parameters/validation/step/AnnotationLoaderStepParametersValidator.java:46-47 | When the base check fails, its failure is the result whatever validators are composed, so none of them is run. |
| `Validation.RemovingRequiredKeyFails` | src/main/java/uk/ac/ebi/eva/pipeline/parameters/validation/step/AnnotationLoaderStepParametersValidator.java:35-46 | Removing any one required key from a set that validates makes validation fail, naming exactly that key. |
| `FieldValidators.TrimStart` | src/test/java/uk/ac/ebi/eva/pipeline/parameters/validation/DbNameValidatorTest.java:50-55 | The result is a suffix of the input. Every dropped character is at most U+0020, and the result does not start with such a character. |
| `FieldValidators.TrimEnd` | src/test/java/uk/ac/ebi/eva/pipeline/parameters/validation/DbNameValidatorTest.java:50-55 | The result is a prefix of the input. Every dropped character is at most U+0020, and the result does not end with such a character. |
| `FieldValidators.Trim` | src/test/java/uk/ac/ebi/eva/pipeline/parameters/validation/DbNameValidatorTest.java:43-55 | The result is a slice of the input. Everything cut off on either side is at most U+0020, and a non-empty result neither starts nor ends with such a character. |
| `FieldValidators.NonBlankValue` | src/test/java/uk/ac/ebi/eva/pipeline/parameters/validation/DbNameValidatorTest.java:36-62 | A value counts as non-blank if and only if it is not null and has a character above U+0020. |
| `FieldValidators.DbNameValidator` | src/test/java/uk/ac/ebi/eva/pipeline/parameters/validation/DbNameValidatorTest.java:36-62 | The validator reads and reports on the database-name key only. It passes on a parameter set if and only if that key's string value is non-blank. |
| `FieldValidators.BlankIffAllTrimmable` | src/test/java/uk/ac/ebi/eva/pipeline/parameters/validation/DbNameValidatorTest.java:43-55 | A string trims to empty if and only if every character in it is at most U+0020. |
| `FieldValidators.DbNameValidatorAcceptsIff` | src/test/java/uk/ac/ebi/eva/pipeline/parameters/validation/DbNameValidatorTest.java:36-62 | The database-name validator accepts if and only if the name is supplied, is not null and has a character above U+0020. Otherwise it fails naming the database-name key. |
| `FieldValidators.DbNameValidatorOnName` | src/test/java/uk/ac/ebi/eva/pipeline/parameters/validation/DbNameValidatorTest.java:36-62 | On a set holding only the database name, the validator passes exactly when the value is non-blank, and otherwise fails naming the database-name key. |
| `FieldValidators.DbNameIsValid` | src/test/java/uk/ac/ebi/eva/pipeline/parameters/validation/DbNameValidatorTest.java:36-41 | `"dbName"` is accepted. |
| `FieldValidators.DbNameIsEmpty` | src/test/java/uk/ac/ebi/eva/pipeline/parameters/validation/DbNameValidatorTest.java:43-48 | `""` is rejected, naming the database-name key. |
| `FieldValidators.DbNameIsWhitespace` | src/test/java/uk/ac/ebi/eva/pipeline/parameters/validation/DbNameValidatorTest.java:50-55 | `" "` is rejected, naming the database-name key. |
| `FieldValidators.DbNameIsNull` | src/test/java/uk/ac/ebi/eva/pipeline/parameters/validation/DbNameValidatorTest.java:57-62 | A null value is rejected, naming the database-name key. |
| `AnnotationLoaderStep.Declaration` | src/main/java/uk/ac/ebi/eva/pipeline/parameters/validation/step/AnnotationLoaderStepParametersValidator.java:35-42 | Exactly the five keys (variants collection, db name, annotation output dir, study id, vcf id) are required, and no optional keys are declared. |
| `AnnotationLoaderStep.Validators` | src/main/java/uk/ac/ebi/eva/pipeline/parameters/validation/step/AnnotationLoaderStepParametersValidator.java:50-60 | Seven validators are composed. The first five are plain field validators. The last two are optional guards keyed on the very parameter their inner validator checks. Each reads only the key it reports on. |
| `AnnotationLoaderStep.ValidateParameters` | src/main/java/uk/ac/ebi/eva/pipeline/parameters/validation/step/AnnotationLoaderStepParametersValidator.java:45-60 | A failure either lists exactly the missing required keys, at least one, or names one of the seven validated keys, and the latter only once all five required keys are present. |
| `AnnotationLoaderStep.KeyCheckRequiresExactlyFiveKeys` | src/main/java/uk/ac/ebi/eva/pipeline/parameters/validation/step/AnnotationLoaderStepParametersValidator.java:35-42 | The base check passes if and only if the five keys (variants collection, db name, annotation output dir, study id, vcf id) are present. Any other key is tolerated. On failure it names the missing ones among the five. |
| `AnnotationLoaderStep.ValidateParametersPassIff` | src/main/java/uk/ac/ebi/eva/pipeline/parameters/validation/step/AnnotationLoaderStepParametersValidator.java:45-60 | `validate` passes if and only if the five keys are present, each mandatory field passes its rule, and the restartability flag and chunk size pass their rules when they are supplied. |
| `AnnotationLoaderStep.EachValidatorDemands` | src/main/java/uk/ac/ebi/eva/pipeline/parameters/validation/step/AnnotationLoaderStepParametersValidator.java:51-60 | Each of the seven composed validators, taken in order, passes exactly when its own parameter meets its rule. The restartability and chunk-size validators also pass when their key is absent. |
| `AnnotationLoaderStep.ReportedKeysInOrder` | src/main/java/uk/ac/ebi/eva/pipeline/parameters/validation/step/AnnotationLoaderStepParametersValidator.java:51-60 | The `k`-th composed validator reports on the `k`-th key of the order: variants collection, db name, annotation output dir, study id, vcf id, restartability, chunk size. |
| `AnnotationLoaderStep.ReportsEarliestFailure` | src/main/java/uk/ac/ebi/eva/pipeline/parameters/validation/step/AnnotationLoaderStepParametersValidator.java:51-60 | The validators run in the order variants collection, db name, annotation output dir, study id, vcf id, restartability, chunk size. The reported failure names the first of these that fails. |
| `AnnotationLoaderStep.OptionalKeysMayBeOmitted` | src/main/java/uk/ac/ebi/eva/pipeline/parameters/validation/step/AnnotationLoaderStepParametersValidator.java:57-59 | A set that validates still validates without the restartability flag, or without the chunk size. |
| `AnnotationLoaderStep.UnknownKeysIgnored` | src/main/java/uk/ac/ebi/eva/pipeline/parameters/validation/step/AnnotationLoaderStepParametersValidator.java:35-60 | Adding or changing a key the step does not know leaves the verdict unchanged. |
| `DropStudyJob.Declaration` | src/test/java/uk/ac/ebi/eva/pipeline/parameters/validation/job/DropStudyJobParametersValidatorTest.java:50-54 | Exactly the four keys (db name, variants collection, files collection, study id) are required, and no optional keys are declared. |
| `DropStudyJob.Validators` | src/test/java/uk/ac/ebi/eva/pipeline/parameters/validation/job/DropStudyJobParametersValidatorTest.java:50-58 | Five validators are composed. The first four are plain field validators on the required keys. The last is an optional guard on the chunk size, keyed on the parameter its inner validator checks. |
| `DropStudyJob.ValidateParameters` | src/test/java/uk/ac/ebi/eva/pipeline/parameters/validation/job/DropStudyJobParametersValidatorTest.java:50-85 | A failure either lists exactly the missing required keys, at least one, or names one of the four required keys or the chunk size, and the latter only once all four required keys are present. |
| `DropStudyJob.ValidateParametersPassIff` | src/test/java/uk/ac/ebi/eva/pipeline/parameters/validation/job/DropStudyJobParametersValidatorTest.java:50-76 | Drop-study validation passes if and only if db name, variants collection, files collection and study id are present and pass their rules, and the chunk size passes its rule when supplied. |
| `DropStudyJob.AllJobParametersAreValid` | src/test/java/uk/ac/ebi/eva/pipeline/parameters/validation/job/DropStudyJobParametersValidatorTest.java:63-69 | The test's four required parameters together with chunk size `"100"` validate. |
| `DropStudyJob.AllRequiredJobParametersAreValid` | src/test/java/uk/ac/ebi/eva/pipeline/parameters/validation/job/DropStudyJobParametersValidatorTest.java:71-76 | The test's four required parameters alone validate. |
| `DropStudyJob.DbNameIsRequired` | src/test/java/uk/ac/ebi/eva/pipeline/parameters/validation/job/DropStudyJobParametersValidatorTest.java:78-85 | Removing the db name from the full fixture fails, naming only the db-name key, whatever the leaf rules are. |
| `DropStudyJob.RequiredKeysAreNeeded` | src/test/java/uk/ac/ebi/eva/pipeline/parameters/validation/job/DropStudyJobParametersValidatorTest.java:50-54 | Removing any of the four required keys from a valid set fails, naming that key. |
| `DropStudyJob.ChunkSizeMayBeOmitted` | src/test/java/uk/ac/ebi/eva/pipeline/parameters/validation/job/DropStudyJobParametersValidatorTest.java:71-76 | A set that validates still validates without the chunk size. |
| `DropStudyJob.FixtureLacksOutputDirAndVcfId` | src/test/java/uk/ac/ebi/eva/pipeline/parameters/validation/job/DropStudyJobParametersValidatorTest.java:50-54 | Of the annotation loader's required keys, the drop-study fixture lacks exactly the annotation output dir and the vcf id. |
| `DropStudyJob.DropStudyNeedsFewerKeysThanAnnotationLoader` | src/test/java/uk/ac/ebi/eva/pipeline/parameters/validation/job/DropStudyJobParametersValidatorTest.java:50-76 | The required fixture has no vcf id and no annotation output dir, yet drop-study validation accepts it. The annotation loader step refuses it, missing exactly those two keys. |
| `AggregatedVcfMapping.AggregationOf` | src/main/java/uk/ac/ebi/eva/pipeline/io/mappers/AggregatedVcfLineMapper.java:42-50 | Every factory is meant for an aggregated kind, never for NONE. |
| `AggregatedVcfMapping.FactoryFor` | src/main/java/uk/ac/ebi/eva/pipeline/io/mappers/AggregatedVcfLineMapper.java:41-56 | NONE gets no factory. EVS, EXAC and BASIC each get a factory meant for that kind, and no factory serves two kinds. |
| `AggregatedVcfMapping.AggregatedVcfLineMapper.Valid` | src/main/java/uk/ac/ebi/eva/pipeline/io/mappers/AggregatedVcfLineMapper.java:39-57 | In a mapper the constructor has left behind, the factory is null exactly when the source is NONE, and a present factory is the one meant for the source's aggregation kind. |
| `AggregatedVcfMapping.AggregatedVcfLineMapper.constructor` | src/main/java/uk/ac/ebi/eva/pipeline/io/mappers/AggregatedVcfLineMapper.java:39-57 | The final `source` is the argument, and the factory is the one the source's aggregation kind selects (null for NONE). |
| `AggregatedVcfMapping.AggregatedVcfLineMapper.MapLine` | src/main/java/uk/ac/ebi/eva/pipeline/io/mappers/AggregatedVcfLineMapper.java:60-64 | The not-null assertion fails exactly when the source is NONE. Otherwise the result is what the selected factory creates from this source and this line. The line number plays no part, and the mapper is left unchanged. |
| `AggregatedVcfMapping.New` | src/main/java/uk/ac/ebi/eva/pipeline/io/mappers/AggregatedVcfLineMapper.java:39-57 | Construction fails with `IllegalArgument` exactly for NONE. Otherwise it yields a new mapper for the source that holds a factory. |
| `AggregatedVcfMapping.NewThenMapLine` | src/main/java/uk/ac/ebi/eva/pipeline/io/mappers/AggregatedVcfLineMapper.java:39-64 | For a mapper that construction handed out, `mapLine` never trips its assertion. It delegates to the factory selected for the source's aggregation kind. |

## Left out

- Leaf validators other than the db-name rule (`DbCollectionsVariantsNameValidator`, `DbCollectionsFilesNameValidator`, `OutputDirAnnotationValidator`, `InputStudyIdValidator`, `InputVcfIdValidator`, `ConfigRestartabilityAllowValidator`, `ConfigChunkSizeValidator`): their code is not part of this model. They are arbitrary predicates on the parameter's value (`LeafRules`), and the output-directory check also touches the file system.
- `DropStudyJobParametersValidator`'s own code is not part of this model. Its required keys and optional chunk size come from its test. The order of its composed validators (db name, variants collection, files collection, study id, chunk size) is assumed. It is assumed to declare no optional keys, so unknown keys are tolerated.
- `OptionalValidator` and `JobParametersNames` are not part of this model. The guard is read as "the key is in the map", and the name strings as distinct placeholders.
- Spring Batch's typed parameter values (long, double, date) are not modelled: every value is a string or null. Its refusal of a null `JobParameters` object is not modelled either, because a parameter set here is always a value.
- Exception message texts are not modelled. A failure carries only the offending key or keys.
- The VCF parsing inside the external factories: `factory.create(source, line)` is the uninterpreted term `Created(factory, source, line)`.
- A null `VariantSource`, which would make `source.getAggregation()` throw a `NullPointerException`, is not modelled, because a datatype value cannot be null.
- A null aggregation kind, which would make the constructor's switch throw a `NullPointerException`, is not modelled, because `Aggregation` has no null.
- `GenotypedVcfJobTestUtils` (file, gzip and MongoDB assertions in tests) and `VariantAnnotationWriterConfiguration` (Spring bean wiring of a Mongo writer) are glue over external services and are not modelled.
