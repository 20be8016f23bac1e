/**
 * The leaf validators, one per parameter. The database-name rule is given
 * in full (a non-blank string); the others check formats, numbers or the
 * file system and are supplied as predicates in a `LeafRules` record.
 */
module FieldValidators {
  import opened Wrappers
  import opened JobParameters
  import opened Validation

  /** A character that Java's `String.trim` strips: any code point up to U+0020. */
  predicate IsTrimmable(c: char)
  {
    c <= ' '
  }

  /** `s` without its leading trimmable characters. */
  function TrimStart(s: string): (r: string)
    ensures |r| <= |s| && r == s[|s| - |r|..]
    ensures forall i :: 0 <= i < |s| - |r| ==> IsTrimmable(s[i])
    ensures r != [] ==> !IsTrimmable(r[0])
  {
    if s != [] && IsTrimmable(s[0]) then TrimStart(s[1..]) else s
  }

  /** `s` without its trailing trimmable characters. */
  function TrimEnd(s: string): (r: string)
    ensures |r| <= |s| && r == s[..|r|]
    ensures forall i :: |r| <= i < |s| ==> IsTrimmable(s[i])
    ensures r != [] ==> !IsTrimmable(r[|r| - 1])
  {
    if s != [] && IsTrimmable(s[|s| - 1]) then TrimEnd(s[..|s| - 1]) else s
  }

  /**
   * Java's `String.trim`: the longest slice of `s` that neither starts nor
   * ends with a trimmable character, everything around it being trimmable.
   */
  function Trim(s: string): (r: string)
    ensures exists start: nat :: TrimmedAround(s, r, start)
    ensures r != [] ==> !IsTrimmable(r[0]) && !IsTrimmable(r[|r| - 1])
  {
    TrimEndOfTrimStart(s);
    TrimEnd(TrimStart(s))
  }

  /** Trimming the end of the start-trimmed string leaves a slice of `s` with trimmable surroundings. */
  lemma TrimEndOfTrimStart(s: string)
    ensures TrimmedAround(s, TrimEnd(TrimStart(s)), |s| - |TrimStart(s)|)
  {
    var t := TrimStart(s);
    PrefixOfSuffixTrimmedAround(s, t, TrimEnd(t), |s| - |t|);
  }

  /** A prefix `r` of a suffix `t` of `s`, each cut off part trimmable, sits in `s` at `start`. */
  lemma PrefixOfSuffixTrimmedAround(s: string, t: string, r: string, start: nat)
    requires start <= |s| && t == s[start..] && |r| <= |t| && r == t[..|r|]
    requires forall i :: 0 <= i < start ==> IsTrimmable(s[i])
    requires forall j :: |r| <= j < |t| ==> IsTrimmable(t[j])
    ensures TrimmedAround(s, r, start)
  {
    assert r == s[start..start + |r|];
    forall i | start + |r| <= i < |s| ensures IsTrimmable(s[i]) {
      assert s[i] == t[i - start];
    }
  }

  /** `r` sits in `s` at `start` with only trimmable characters around it. */
  predicate TrimmedAround(s: string, r: string, start: nat)
  {
    && start + |r| <= |s|
    && r == s[start..start + |r|]
    && (forall i :: 0 <= i < start ==> IsTrimmable(s[i]))
    && (forall i :: start + |r| <= i < |s| ==> IsTrimmable(s[i]))
  }

  /** A blank string: one that trims to the empty string. */
  predicate IsBlank(s: string)
  {
    Trim(s) == ""
  }

  /** A string is blank exactly when every one of its characters is trimmable. */
  lemma BlankIffAllTrimmable(s: string)
    ensures IsBlank(s) <==> forall i :: 0 <= i < |s| ==> IsTrimmable(s[i])
  {
    var t := TrimStart(s);
    if t != [] {
      assert !IsTrimmable(t[0]);
      assert t[0] == s[|s| - |t|];
    }
  }

  /**
   * The database-name rule: a value is supplied and it is not blank, that is,
   * it has a character above U+0020.
   */
  predicate NonBlankValue(value: Option<string>)
    ensures NonBlankValue(value) <==>
      value.Some? && exists i :: 0 <= i < |value.value| && !IsTrimmable(value.value[i])
  {
    if value.Some? then
      BlankIffAllTrimmable(value.value);
      !IsBlank(value.value)
    else false
  }

  /**
   * `DbNameValidator`: it reads only the database name, reports on it when it
   * fails, and accepts exactly a non-blank value.
   */
  function DbNameValidator(): (v: Validator)
    ensures ReportedKey(v) == DB_NAME && ReadKeys(v) == {DB_NAME}
    ensures forall p :: Run(v, p).Pass? <==> NonBlankValue(GetString(p, DB_NAME))
  {
    Field(DB_NAME, NonBlankValue)
  }

  /**
   * The database-name validator accepts a parameter set exactly when the
   * database name is supplied, is not null, and has a character above
   * U+0020.
   */
  lemma DbNameValidatorAcceptsIff(p: Params)
    ensures Run(DbNameValidator(), p).Pass? <==>
      DB_NAME in p && p[DB_NAME].Some? &&
      exists i :: 0 <= i < |p[DB_NAME].value| && !IsTrimmable(p[DB_NAME].value[i])
    ensures Run(DbNameValidator(), p).Fail? ==>
      Run(DbNameValidator(), p) == Fail(ParameterInvalid(DB_NAME))
  {
    if DB_NAME in p && p[DB_NAME].Some? {
      BlankIffAllTrimmable(p[DB_NAME].value);
    }
  }

  /** The database-name validator on a set holding only the database name. */
  lemma DbNameValidatorOnName(value: Option<string>)
    ensures Run(DbNameValidator(), map[DB_NAME := value]) ==
      if NonBlankValue(value) then Pass else Fail(ParameterInvalid(DB_NAME))
  {
    assert GetString(map[DB_NAME := value], DB_NAME) == value;
  }

  /** `dbNameIsValid`: "dbName" is accepted. */
  lemma DbNameIsValid()
    ensures Run(DbNameValidator(), map[DB_NAME := Some("dbName")]) == Pass
  {
    BlankIffAllTrimmable("dbName");
    assert !IsTrimmable("dbName"[0]);
    DbNameValidatorOnName(Some("dbName"));
  }

  /** `dbNameIsEmpty`: "" is rejected. */
  lemma DbNameIsEmpty()
    ensures Run(DbNameValidator(), map[DB_NAME := Some("")]) == Fail(ParameterInvalid(DB_NAME))
  {
    assert TrimStart("") == "";
    DbNameValidatorOnName(Some(""));
  }

  /** `dbNameIsWhitespace`: " " is rejected. */
  lemma DbNameIsWhitespace()
    ensures Run(DbNameValidator(), map[DB_NAME := Some(" ")]) == Fail(ParameterInvalid(DB_NAME))
  {
    BlankIffAllTrimmable(" ");
    DbNameValidatorOnName(Some(" "));
  }

  /** `dbNameIsNull`: a null value is rejected. */
  lemma DbNameIsNull()
    ensures Run(DbNameValidator(), map[DB_NAME := None]) == Fail(ParameterInvalid(DB_NAME))
  {
    DbNameValidatorOnName(None);
  }

  /**
   * The rules of the leaf validators whose code is not part of this model,
   * each a predicate on the value `getString` gives for its parameter.
   */
  datatype LeafRules = LeafRules(
    variantsCollectionName: Option<string> -> bool,
    filesCollectionName: Option<string> -> bool,
    outputDirAnnotation: Option<string> -> bool,
    inputStudyId: Option<string> -> bool,
    inputVcfId: Option<string> -> bool,
    restartabilityAllow: Option<string> -> bool,
    chunkSize: Option<string> -> bool)

  function DbCollectionsVariantsNameValidator(rules: LeafRules): Validator
  {
    Field(DB_COLLECTIONS_VARIANTS_NAME, rules.variantsCollectionName)
  }

  function DbCollectionsFilesNameValidator(rules: LeafRules): Validator
  {
    Field(DB_COLLECTIONS_FILES_NAME, rules.filesCollectionName)
  }

  function OutputDirAnnotationValidator(rules: LeafRules): Validator
  {
    Field(OUTPUT_DIR_ANNOTATION, rules.outputDirAnnotation)
  }

  function InputStudyIdValidator(rules: LeafRules): Validator
  {
    Field(INPUT_STUDY_ID, rules.inputStudyId)
  }

  function InputVcfIdValidator(rules: LeafRules): Validator
  {
    Field(INPUT_VCF_ID, rules.inputVcfId)
  }

  function ConfigRestartabilityAllowValidator(rules: LeafRules): Validator
  {
    Field(CONFIG_RESTARTABILITY_ALLOW, rules.restartabilityAllow)
  }

  function ConfigChunkSizeValidator(rules: LeafRules): Validator
  {
    Field(CONFIG_CHUNK_SIZE, rules.chunkSize)
  }
}
