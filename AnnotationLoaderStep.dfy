/**
 * `AnnotationLoaderStepParametersValidator`: the parameters the annotation
 * loader step needs.
 */
module AnnotationLoaderStep {
  import opened Wrappers
  import opened JobParameters
  import opened Validation
  import opened FieldValidators

  /** The five required keys, in declaration order; no optional keys are declared. */
  function Declaration(): (d: KeyDeclaration)
    ensures d.optional == []
    ensures |d.required| == 5
    ensures forall k :: k in d.required <==>
      k in {DB_COLLECTIONS_VARIANTS_NAME, DB_NAME, OUTPUT_DIR_ANNOTATION, INPUT_STUDY_ID, INPUT_VCF_ID}
  {
    KeyDeclaration([DB_COLLECTIONS_VARIANTS_NAME, DB_NAME, OUTPUT_DIR_ANNOTATION, INPUT_STUDY_ID, INPUT_VCF_ID], [])
  }

  /**
   * The composed validators, in the order they run: five plain field
   * validators, then the restartability flag and the chunk size, each wrapped
   * in an optional guard keyed on its own parameter.
   */
  function Validators(rules: LeafRules): (vs: seq<Validator>)
    ensures |vs| == 7
    ensures forall k :: 0 <= k < 5 ==> vs[k].Field?
    ensures forall k :: 5 <= k < 7 ==> vs[k].Optional? && vs[k].inner.Field? && vs[k].guard == ReportedKey(vs[k])
    ensures forall k :: 0 <= k < 7 ==> ReadKeys(vs[k]) == {ReportedKey(vs[k])}
  {
    [ DbCollectionsVariantsNameValidator(rules),
      DbNameValidator(),
      OutputDirAnnotationValidator(rules),
      InputStudyIdValidator(rules),
      InputVcfIdValidator(rules),
      Optional(CONFIG_RESTARTABILITY_ALLOW, ConfigRestartabilityAllowValidator(rules)),
      Optional(CONFIG_CHUNK_SIZE, ConfigChunkSizeValidator(rules)) ]
  }

  /** The keys the composed validators report on, in the order they run. */
  const ValidationOrder: seq<string> :=
    [ DB_COLLECTIONS_VARIANTS_NAME, DB_NAME, OUTPUT_DIR_ANNOTATION, INPUT_STUDY_ID, INPUT_VCF_ID,
      CONFIG_RESTARTABILITY_ALLOW, CONFIG_CHUNK_SIZE ]

  /**
   * `validate`: the base required-keys check, then the composite. A failure
   * names either missing keys among the five or one of the seven validated
   * keys, the latter only once all five are present.
   */
  function ValidateParameters(rules: LeafRules, p: Params): (r: Outcome<Failure>)
    ensures r.Fail? ==> r.error.MissingRequiredKeys? || r.error.ParameterInvalid?
    ensures r.Fail? && r.error.MissingRequiredKeys? ==>
      r.error.missing != {} && forall k :: k in r.error.missing <==> k in Declaration().required && k !in p
    ensures r.Fail? && r.error.ParameterInvalid? ==> HasRequiredKeys(p) && r.error.key in ValidationOrder
  {
    ReportedKeysInOrder(rules);
    Validate(Declaration(), Validators(rules), p)
  }

  /** The five required keys are all present. */
  predicate HasRequiredKeys(p: Params)
  {
    && DB_COLLECTIONS_VARIANTS_NAME in p && DB_NAME in p && OUTPUT_DIR_ANNOTATION in p
    && INPUT_STUDY_ID in p && INPUT_VCF_ID in p
  }

  /**
   * The base check requires exactly the five keys and, since no optional keys
   * are declared, tolerates any other key; when it fails it names every
   * missing required key.
   */
  lemma KeyCheckRequiresExactlyFiveKeys(p: Params)
    ensures CheckKeys(Declaration(), p).Pass? <==> HasRequiredKeys(p)
    ensures CheckKeys(Declaration(), p).Fail? ==>
      && CheckKeys(Declaration(), p).error.MissingRequiredKeys?
      && forall k :: k in CheckKeys(Declaration(), p).error.missing <==>
           k in Declaration().required && k !in p
  {
  }

  /** What each composed validator, in order, demands of the parameters. */
  lemma EachValidatorDemands(rules: LeafRules, p: Params)
    ensures Run(Validators(rules)[0], p).Pass? <==> rules.variantsCollectionName(GetString(p, DB_COLLECTIONS_VARIANTS_NAME))
    ensures Run(Validators(rules)[1], p).Pass? <==> NonBlankValue(GetString(p, DB_NAME))
    ensures Run(Validators(rules)[2], p).Pass? <==> rules.outputDirAnnotation(GetString(p, OUTPUT_DIR_ANNOTATION))
    ensures Run(Validators(rules)[3], p).Pass? <==> rules.inputStudyId(GetString(p, INPUT_STUDY_ID))
    ensures Run(Validators(rules)[4], p).Pass? <==> rules.inputVcfId(GetString(p, INPUT_VCF_ID))
    ensures Run(Validators(rules)[5], p).Pass? <==>
      (CONFIG_RESTARTABILITY_ALLOW in p ==> rules.restartabilityAllow(GetString(p, CONFIG_RESTARTABILITY_ALLOW)))
    ensures Run(Validators(rules)[6], p).Pass? <==>
      (CONFIG_CHUNK_SIZE in p ==> rules.chunkSize(GetString(p, CONFIG_CHUNK_SIZE)))
  {
  }

  /** The conditions under which the step's parameters are valid. */
  predicate Acceptable(rules: LeafRules, p: Params)
  {
    && HasRequiredKeys(p)
    && rules.variantsCollectionName(GetString(p, DB_COLLECTIONS_VARIANTS_NAME))
    && NonBlankValue(GetString(p, DB_NAME))
    && rules.outputDirAnnotation(GetString(p, OUTPUT_DIR_ANNOTATION))
    && rules.inputStudyId(GetString(p, INPUT_STUDY_ID))
    && rules.inputVcfId(GetString(p, INPUT_VCF_ID))
    && (CONFIG_RESTARTABILITY_ALLOW in p ==> rules.restartabilityAllow(GetString(p, CONFIG_RESTARTABILITY_ALLOW)))
    && (CONFIG_CHUNK_SIZE in p ==> rules.chunkSize(GetString(p, CONFIG_CHUNK_SIZE)))
  }

  /**
   * Validation passes exactly when the five keys are present, each mandatory
   * field passes its rule, and the restartability flag and chunk size pass
   * theirs whenever they are supplied.
   */
  lemma ValidateParametersPassIff(rules: LeafRules, p: Params)
    ensures ValidateParameters(rules, p).Pass? <==> Acceptable(rules, p)
  {
    KeyCheckRequiresExactlyFiveKeys(p);
    var vs := Validators(rules);
    ValidatePassIff(Declaration(), vs, p);
    EachValidatorDemands(rules, p);
    if Run(vs[0], p).Pass? && Run(vs[1], p).Pass? && Run(vs[2], p).Pass? && Run(vs[3], p).Pass? &&
       Run(vs[4], p).Pass? && Run(vs[5], p).Pass? && Run(vs[6], p).Pass? {
      forall i | 0 <= i < |vs| ensures Run(vs[i], p).Pass? {
        assert i in {0, 1, 2, 3, 4, 5, 6};
      }
    }
  }

  /**
   * Fail-fast in declared order: when all five keys are present and the
   * validator for `ValidationOrder[i]` is the first to fail, validation
   * reports that key.
   */
  lemma ReportsEarliestFailure(rules: LeafRules, p: Params, i: nat)
    requires HasRequiredKeys(p)
    requires i < |Validators(rules)| && Run(Validators(rules)[i], p).Fail?
    requires forall j :: 0 <= j < i ==> Run(Validators(rules)[j], p).Pass?
    ensures ValidateParameters(rules, p) == Fail(ParameterInvalid(ValidationOrder[i]))
  {
    var vs := Validators(rules);
    KeyCheckRequiresExactlyFiveKeys(p);
    assert CheckKeys(Declaration(), p).Pass?;
    RunAllReportsFirstFailure(vs, p, i);
    assert ValidateParameters(rules, p) == Fail(ParameterInvalid(ReportedKey(vs[i])));
    ReportedKeysInOrder(rules);
  }

  /** The `k`-th composed validator reports on the `k`-th key of `ValidationOrder`. */
  lemma ReportedKeysInOrder(rules: LeafRules)
    ensures |Validators(rules)| == |ValidationOrder|
    ensures forall k :: 0 <= k < |ValidationOrder| ==> ReportedKey(Validators(rules)[k]) == ValidationOrder[k]
  {
    var vs := Validators(rules);
    forall k | 0 <= k < |ValidationOrder| ensures ReportedKey(vs[k]) == ValidationOrder[k] {
      assert k in {0, 1, 2, 3, 4, 5, 6};
    }
  }

  /**
   * The optional keys are never needed: a parameter set that validates still
   * validates without the restartability flag or without the chunk size.
   */
  lemma OptionalKeysMayBeOmitted(rules: LeafRules, p: Params)
    requires ValidateParameters(rules, p).Pass?
    ensures ValidateParameters(rules, p - {CONFIG_RESTARTABILITY_ALLOW}).Pass?
    ensures ValidateParameters(rules, p - {CONFIG_CHUNK_SIZE}).Pass?
  {
    NamesDistinct();
    ValidateParametersPassIff(rules, p);
    var q1 := p - {CONFIG_RESTARTABILITY_ALLOW};
    var q2 := p - {CONFIG_CHUNK_SIZE};
    ValidateParametersPassIff(rules, q1);
    ValidateParametersPassIff(rules, q2);
    assert GetString(q1, DB_COLLECTIONS_VARIANTS_NAME) == GetString(p, DB_COLLECTIONS_VARIANTS_NAME);
    assert GetString(q1, DB_NAME) == GetString(p, DB_NAME);
    assert GetString(q1, OUTPUT_DIR_ANNOTATION) == GetString(p, OUTPUT_DIR_ANNOTATION);
    assert GetString(q1, INPUT_STUDY_ID) == GetString(p, INPUT_STUDY_ID);
    assert GetString(q1, INPUT_VCF_ID) == GetString(p, INPUT_VCF_ID);
    assert GetString(q1, CONFIG_CHUNK_SIZE) == GetString(p, CONFIG_CHUNK_SIZE);
    assert GetString(q2, DB_COLLECTIONS_VARIANTS_NAME) == GetString(p, DB_COLLECTIONS_VARIANTS_NAME);
    assert GetString(q2, DB_NAME) == GetString(p, DB_NAME);
    assert GetString(q2, OUTPUT_DIR_ANNOTATION) == GetString(p, OUTPUT_DIR_ANNOTATION);
    assert GetString(q2, INPUT_STUDY_ID) == GetString(p, INPUT_STUDY_ID);
    assert GetString(q2, INPUT_VCF_ID) == GetString(p, INPUT_VCF_ID);
    assert GetString(q2, CONFIG_RESTARTABILITY_ALLOW) == GetString(p, CONFIG_RESTARTABILITY_ALLOW);
  }

  /**
   * Keys the step does not know about do not change the verdict: no optional
   * keys are declared, so the base check does not reject them, and no
   * composed validator reads them.
   */
  lemma UnknownKeysIgnored(rules: LeafRules, p: Params, k: string, v: Option<string>)
    requires k !in ValidationOrder
    ensures ValidateParameters(rules, p[k := v]) == ValidateParameters(rules, p)
  {
    var q := p[k := v];
    var vs := Validators(rules);
    forall i | 0 <= i < |vs| ensures k !in ReadKeys(vs[i]) {
      assert ReadKeys(vs[i]) <= set j | j in ValidationOrder;
    }
    assert k !in ReadKeysAll(vs);
    assert AgreeOn(p, q, ReadKeysAll(vs));
    RunAllReadsOnly(vs, p, q);
    KeyCheckRequiresExactlyFiveKeys(p);
    KeyCheckRequiresExactlyFiveKeys(q);
    assert HasRequiredKeys(p) <==> HasRequiredKeys(q);
    assert Missing(Declaration(), p) == Missing(Declaration(), q);
  }
}
