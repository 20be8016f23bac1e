/**
 * `DropStudyJobParametersValidator`, as its test fixes it: four required
 * keys and an optional chunk size.
 */
module DropStudyJob {
  import opened Wrappers
  import opened JobParameters
  import opened Validation
  import opened FieldValidators
  import AnnotationLoaderStep

  /** The four required keys; no optional keys are declared. */
  function Declaration(): (d: KeyDeclaration)
    ensures d.optional == []
    ensures |d.required| == 4
    ensures forall k :: k in d.required <==>
      k in {DB_NAME, DB_COLLECTIONS_VARIANTS_NAME, DB_COLLECTIONS_FILES_NAME, INPUT_STUDY_ID}
  {
    KeyDeclaration([DB_NAME, DB_COLLECTIONS_VARIANTS_NAME, DB_COLLECTIONS_FILES_NAME, INPUT_STUDY_ID], [])
  }

  /**
   * The composed validators: a plain field validator per required key, then
   * the chunk size wrapped in an optional guard keyed on its own parameter.
   */
  function Validators(rules: LeafRules): (vs: seq<Validator>)
    ensures |vs| == 5
    ensures forall k :: 0 <= k < 4 ==> vs[k].Field? && vs[k].key in Declaration().required
    ensures vs[4].Optional? && vs[4].inner.Field? && vs[4].guard == ReportedKey(vs[4]) == CONFIG_CHUNK_SIZE
  {
    [ DbNameValidator(),
      DbCollectionsVariantsNameValidator(rules),
      DbCollectionsFilesNameValidator(rules),
      InputStudyIdValidator(rules),
      Optional(CONFIG_CHUNK_SIZE, ConfigChunkSizeValidator(rules)) ]
  }

  /**
   * `validate`: the base required-keys check, then the composite. A failure
   * names either missing keys among the four or one validated key, the
   * latter only once all four are present.
   */
  function ValidateParameters(rules: LeafRules, p: Params): (r: Outcome<Failure>)
    ensures r.Fail? ==> r.error.MissingRequiredKeys? || r.error.ParameterInvalid?
    ensures r.Fail? && r.error.MissingRequiredKeys? ==>
      r.error.missing != {} && forall k :: k in r.error.missing <==> k in Declaration().required && k !in p
    ensures r.Fail? && r.error.ParameterInvalid? ==>
      && (forall k :: k in Declaration().required ==> k in p)
      && r.error.key in {DB_NAME, DB_COLLECTIONS_VARIANTS_NAME, DB_COLLECTIONS_FILES_NAME, INPUT_STUDY_ID, CONFIG_CHUNK_SIZE}
  {
    Validate(Declaration(), Validators(rules), p)
  }

  /** The four required parameters of the test's fixture. */
  function RequiredFixture(): Params
  {
    map[DB_NAME := Some("database"),
        DB_COLLECTIONS_VARIANTS_NAME := Some("variants"),
        DB_COLLECTIONS_FILES_NAME := Some("files"),
        INPUT_STUDY_ID := Some("inputStudyId")]
  }

  /** The fixture's required parameters plus its optional chunk size. */
  function FullFixture(): Params
  {
    RequiredFixture()[CONFIG_CHUNK_SIZE := Some("100")]
  }

  /** The leaf rules accept the fixture's values, as the real validators do. */
  predicate AcceptsFixtureValues(rules: LeafRules)
  {
    && rules.variantsCollectionName(Some("variants"))
    && rules.filesCollectionName(Some("files"))
    && rules.inputStudyId(Some("inputStudyId"))
    && rules.chunkSize(Some("100"))
  }

  /** The four keys are present and every field passes its rule. */
  predicate Acceptable(rules: LeafRules, p: Params)
  {
    && DB_NAME in p && DB_COLLECTIONS_VARIANTS_NAME in p && DB_COLLECTIONS_FILES_NAME in p && INPUT_STUDY_ID in p
    && NonBlankValue(GetString(p, DB_NAME))
    && rules.variantsCollectionName(GetString(p, DB_COLLECTIONS_VARIANTS_NAME))
    && rules.filesCollectionName(GetString(p, DB_COLLECTIONS_FILES_NAME))
    && rules.inputStudyId(GetString(p, INPUT_STUDY_ID))
    && (CONFIG_CHUNK_SIZE in p ==> rules.chunkSize(GetString(p, CONFIG_CHUNK_SIZE)))
  }

  /** Validation passes exactly when the four keys are present and every field passes its rule. */
  lemma ValidateParametersPassIff(rules: LeafRules, p: Params)
    ensures ValidateParameters(rules, p).Pass? <==> Acceptable(rules, p)
  {
    var vs := Validators(rules);
    ValidatePassIff(Declaration(), vs, p);
    assert Run(vs[0], p).Pass? <==> NonBlankValue(GetString(p, DB_NAME));
    assert Run(vs[4], p).Pass? <==> (CONFIG_CHUNK_SIZE in p ==> rules.chunkSize(GetString(p, CONFIG_CHUNK_SIZE)));
    if Run(vs[0], p).Pass? && Run(vs[1], p).Pass? && Run(vs[2], p).Pass? && Run(vs[3], p).Pass? &&
       Run(vs[4], p).Pass? {
      forall i | 0 <= i < |vs| ensures Run(vs[i], p).Pass? {
        assert i in {0, 1, 2, 3, 4};
      }
    }
  }

  /** A set holding the fixture's values under the four keys, and at most its chunk size, is acceptable. */
  lemma FixtureValuesAreAcceptable(rules: LeafRules, p: Params)
    requires AcceptsFixtureValues(rules)
    requires DB_NAME in p && p[DB_NAME] == Some("database")
    requires DB_COLLECTIONS_VARIANTS_NAME in p && p[DB_COLLECTIONS_VARIANTS_NAME] == Some("variants")
    requires DB_COLLECTIONS_FILES_NAME in p && p[DB_COLLECTIONS_FILES_NAME] == Some("files")
    requires INPUT_STUDY_ID in p && p[INPUT_STUDY_ID] == Some("inputStudyId")
    requires CONFIG_CHUNK_SIZE in p ==> p[CONFIG_CHUNK_SIZE] == Some("100")
    ensures Acceptable(rules, p)
  {
    assert !IsTrimmable("database"[0]);
  }

  /** `allJobParametersAreValid`: the four required parameters with chunk size "100" validate. */
  lemma AllJobParametersAreValid(rules: LeafRules)
    requires AcceptsFixtureValues(rules)
    ensures ValidateParameters(rules, FullFixture()) == Pass
  {
    FixtureValuesAreAcceptable(rules, FullFixture());
    ValidateParametersPassIff(rules, FullFixture());
  }

  /** `allRequiredJobParametersAreValid`: the four required parameters alone validate. */
  lemma AllRequiredJobParametersAreValid(rules: LeafRules)
    requires AcceptsFixtureValues(rules)
    ensures ValidateParameters(rules, RequiredFixture()) == Pass
  {
    NamesDistinct();
    FixtureValuesAreAcceptable(rules, RequiredFixture());
    ValidateParametersPassIff(rules, RequiredFixture());
  }

  /**
   * `dbNameIsRequired`: without the database name the fixture fails the
   * base check naming that key, whatever the leaf rules.
   */
  lemma DbNameIsRequired(rules: LeafRules)
    ensures ValidateParameters(rules, FullFixture() - {DB_NAME}) == Fail(MissingRequiredKeys({DB_NAME}))
  {
    var q := FullFixture() - {DB_NAME};
    assert Missing(Declaration(), q) == {DB_NAME};
  }

  /** Every required key is needed: dropping one from a valid set fails naming it. */
  lemma RequiredKeysAreNeeded(rules: LeafRules, p: Params, k: string)
    requires ValidateParameters(rules, p).Pass?
    requires k in {DB_NAME, DB_COLLECTIONS_VARIANTS_NAME, DB_COLLECTIONS_FILES_NAME, INPUT_STUDY_ID}
    ensures ValidateParameters(rules, p - {k}) == Fail(MissingRequiredKeys({k}))
  {
    RemovingRequiredKeyFails(Declaration(), Validators(rules), p, k);
  }

  /** The chunk size is optional: a set that validates still validates without it. */
  lemma ChunkSizeMayBeOmitted(rules: LeafRules, p: Params)
    requires ValidateParameters(rules, p).Pass?
    ensures ValidateParameters(rules, p - {CONFIG_CHUNK_SIZE}).Pass?
  {
    var q := p - {CONFIG_CHUNK_SIZE};
    ValidateParametersPassIff(rules, p);
    ValidateParametersPassIff(rules, q);
    assert GetString(q, DB_NAME) == GetString(p, DB_NAME);
    assert GetString(q, DB_COLLECTIONS_VARIANTS_NAME) == GetString(p, DB_COLLECTIONS_VARIANTS_NAME);
    assert GetString(q, DB_COLLECTIONS_FILES_NAME) == GetString(p, DB_COLLECTIONS_FILES_NAME);
    assert GetString(q, INPUT_STUDY_ID) == GetString(p, INPUT_STUDY_ID);
  }

  /** The annotation loader's required keys that the fixture lacks. */
  lemma FixtureLacksOutputDirAndVcfId()
    ensures Missing(AnnotationLoaderStep.Declaration(), RequiredFixture()) == {OUTPUT_DIR_ANNOTATION, INPUT_VCF_ID}
  {
    var p := RequiredFixture();
    var d := AnnotationLoaderStep.Declaration();
    assert p.Keys == {DB_NAME, DB_COLLECTIONS_VARIANTS_NAME, DB_COLLECTIONS_FILES_NAME, INPUT_STUDY_ID};
    assert OUTPUT_DIR_ANNOTATION !in p && INPUT_VCF_ID !in p;
    assert forall k :: k in Missing(d, p) <==> k == OUTPUT_DIR_ANNOTATION || k == INPUT_VCF_ID;
  }

  /**
   * A drop-study set needs neither a vcf id nor an annotation output
   * directory, while the annotation loader step refuses the same set for
   * lack of exactly those two keys.
   */
  lemma DropStudyNeedsFewerKeysThanAnnotationLoader(rules: LeafRules)
    requires AcceptsFixtureValues(rules)
    ensures INPUT_VCF_ID !in RequiredFixture() && OUTPUT_DIR_ANNOTATION !in RequiredFixture()
    ensures ValidateParameters(rules, RequiredFixture()) == Pass
    ensures AnnotationLoaderStep.ValidateParameters(rules, RequiredFixture()) ==
      Fail(MissingRequiredKeys({OUTPUT_DIR_ANNOTATION, INPUT_VCF_ID}))
  {
    AllRequiredJobParametersAreValid(rules);
    FixtureLacksOutputDirAndVcfId();
    var d := AnnotationLoaderStep.Declaration();
    assert CheckKeys(d, RequiredFixture()) == Fail(MissingRequiredKeys({OUTPUT_DIR_ANNOTATION, INPUT_VCF_ID}));
  }
}
