/**
 * The job-parameter validation machinery: leaf field validators, the
 * optional-key guard, the fail-fast composite, and the base required-keys
 * check that every per-job validator runs first.
 */
module Validation {
  import opened Wrappers
  import opened JobParameters

  /** Why a parameter set was refused. */
  datatype Failure =
    | ParameterInvalid(key: string)
      // a field validator refused the value of `key`
    | MissingRequiredKeys(missing: set<string>)
      // the base check found these required keys absent
    | UndeclaredKeys(undeclared: set<string>)
      // the base check, with optional keys declared, found keys that are neither required nor optional

  /**
   * A validator as composed by the per-job validators: a leaf that checks the
   * value of one parameter, or an `OptionalValidator` that runs its inner
   * validator only when `guard` is among the parameters.
   */
  datatype Validator =
    | Field(key: string, accepts: Option<string> -> bool)
    | Optional(guard: string, inner: Validator)

  /** The parameter whose value the validator reports on when it fails. */
  function ReportedKey(v: Validator): string
  {
    match v
    case Field(key, _) => key
    case Optional(_, inner) => ReportedKey(inner)
  }

  /** The keys whose entries the validator looks at. */
  function ReadKeys(v: Validator): set<string>
  {
    match v
    case Field(key, _) => {key}
    case Optional(guard, inner) => {guard} + ReadKeys(inner)
  }

  /** Runs one validator against the parameters. */
  function Run(v: Validator, p: Params): (r: Outcome<Failure>)
    ensures r.Fail? ==> r == Fail(ParameterInvalid(ReportedKey(v)))
    ensures v.Optional? && v.guard !in p ==> r.Pass?
    ensures v.Optional? && v.guard in p ==> r == Run(v.inner, p)
  {
    match v
    case Field(key, accepts) =>
      if accepts(GetString(p, key)) then Pass else Fail(ParameterInvalid(key))
    case Optional(guard, inner) =>
      if guard in p then Run(inner, p) else Pass
  }

  /** A validator's verdict depends only on the entries of the keys it reads. */
  lemma {:induction false} RunReadsOnly(v: Validator, p: Params, q: Params)
    requires AgreeOn(p, q, ReadKeys(v))
    ensures Run(v, p) == Run(v, q)
  {
    match v
    case Field(key, _) =>
      assert key in ReadKeys(v);
      assert GetString(p, key) == GetString(q, key);
    case Optional(guard, inner) =>
      assert guard in ReadKeys(v);
      if guard in p {
        assert AgreeOn(p, q, ReadKeys(inner));
        RunReadsOnly(inner, p, q);
      }
  }

  /**
   * `CompositeJobParametersValidator.validate`: runs the validators in order
   * and stops at the first failure, which it propagates unchanged.
   */
  function RunAll(vs: seq<Validator>, p: Params): (r: Outcome<Failure>)
    ensures r.Fail? ==> exists v :: v in vs && r == Fail(ParameterInvalid(ReportedKey(v)))
  {
    if vs == [] then Pass
    else if Run(vs[0], p).Fail? then Run(vs[0], p)
    else
      var rest := RunAll(vs[1..], p);
      assert rest.Fail? ==> exists v :: v in vs[1..] && v in vs && rest == Fail(ParameterInvalid(ReportedKey(v)));
      rest
  }

  /** The keys read by any of the validators. */
  function ReadKeysAll(vs: seq<Validator>): (keys: set<string>)
    ensures forall k :: k in keys <==> exists i :: 0 <= i < |vs| && k in ReadKeys(vs[i])
  {
    if vs == [] then {} else ReadKeys(vs[0]) + ReadKeysAll(vs[1..])
  }

  /** The composite passes exactly when every validator passes on its own. */
  lemma {:induction false} RunAllPassIff(vs: seq<Validator>, p: Params)
    ensures RunAll(vs, p).Pass? <==> forall i :: 0 <= i < |vs| ==> Run(vs[i], p).Pass?
  {
    if vs != [] {
      RunAllPassIff(vs[1..], p);
      if Run(vs[0], p).Pass? {
        forall i | 0 < i < |vs| ensures Run(vs[i], p) == Run(vs[1..][i - 1], p) {}
      }
    }
  }

  /**
   * The index of the validator whose failure the composite reports: it
   * fails, and every validator before it passes.
   */
  function FirstFailure(vs: seq<Validator>, p: Params): (i: nat)
    requires RunAll(vs, p).Fail?
    ensures i < |vs| && Run(vs[i], p) == RunAll(vs, p)
    ensures forall j :: 0 <= j < i ==> Run(vs[j], p).Pass?
  {
    if Run(vs[0], p).Fail? then 0 else 1 + FirstFailure(vs[1..], p)
  }

  /**
   * Fail-fast: when validator `i` fails and all before it pass, the composite
   * reports exactly validator `i`'s failure, whatever the later ones say.
   */
  lemma {:induction false} RunAllReportsFirstFailure(vs: seq<Validator>, p: Params, i: nat)
    requires i < |vs| && Run(vs[i], p).Fail?
    requires forall j :: 0 <= j < i ==> Run(vs[j], p).Pass?
    ensures RunAll(vs, p) == Run(vs[i], p)
  {
    if i > 0 {
      assert Run(vs[0], p).Pass?;
      assert vs[1..][i - 1] == vs[i];
      forall j | 0 <= j < i - 1 ensures Run(vs[1..][j], p).Pass? {
        assert vs[1..][j] == vs[j + 1];
      }
      RunAllReportsFirstFailure(vs[1..], p, i - 1);
    }
  }

  /**
   * Running two lists in sequence: the second list is never consulted once
   * the first has failed.
   */
  lemma {:induction false} RunAllAppend(a: seq<Validator>, b: seq<Validator>, p: Params)
    ensures RunAll(a + b, p) == if RunAll(a, p).Fail? then RunAll(a, p) else RunAll(b, p)
  {
    if a != [] {
      assert (a + b)[0] == a[0];
      assert (a + b)[1..] == a[1..] + b;
      RunAllAppend(a[1..], b, p);
    } else {
      assert a + b == b;
    }
  }

  /** The composite's verdict depends only on the entries of the keys its validators read. */
  lemma {:induction false} RunAllReadsOnly(vs: seq<Validator>, p: Params, q: Params)
    requires AgreeOn(p, q, ReadKeysAll(vs))
    ensures RunAll(vs, p) == RunAll(vs, q)
  {
    if vs != [] {
      assert AgreeOn(p, q, ReadKeys(vs[0]));
      RunReadsOnly(vs[0], p, q);
      assert AgreeOn(p, q, ReadKeysAll(vs[1..]));
      RunAllReadsOnly(vs[1..], p, q);
    }
  }

  /**
   * The required and optional key arrays passed to
   * `DefaultJobParametersValidator`'s constructor.
   */
  datatype KeyDeclaration = KeyDeclaration(required: seq<string>, optional: seq<string>)

  /** The required keys absent from `p`. */
  function Missing(decl: KeyDeclaration, p: Params): (s: set<string>)
    ensures forall k :: k in s <==> k in decl.required && k !in p
  {
    set k | k in decl.required && k !in p
  }

  /** The keys of `p` that are neither required nor optional. */
  function Undeclared(decl: KeyDeclaration, p: Params): (s: set<string>)
    ensures forall k :: k in s <==> k in p && k !in decl.required && k !in decl.optional
  {
    set k | k in p && k !in decl.required && k !in decl.optional
  }

  /**
   * `DefaultJobParametersValidator.validate`: when optional keys are declared,
   * every supplied key must be declared; then every required key must be
   * supplied (with any value, null included).
   */
  function CheckKeys(decl: KeyDeclaration, p: Params): (r: Outcome<Failure>)
    ensures r.Pass? <==>
      && (forall k :: k in decl.required ==> k in p)
      && (decl.optional != [] ==> forall k :: k in p ==> k in decl.required || k in decl.optional)
    ensures r.Fail? ==> r.error.MissingRequiredKeys? || r.error.UndeclaredKeys?
    ensures r.Fail? && r.error.MissingRequiredKeys? ==> r.error.missing == Missing(decl, p) != {}
  {
    var undeclared := Undeclared(decl, p);
    var missing := Missing(decl, p);
    if decl.optional != [] && undeclared != {} then
      assert exists k :: k in undeclared;
      Fail(UndeclaredKeys(undeclared))
    else if missing != {} then
      assert exists k :: k in missing;
      Fail(MissingRequiredKeys(missing))
    else Pass
  }

  /**
   * A per-job validator's `validate`: the base key check first, and only if it
   * passes, a freshly built composite of `vs`.
   */
  function Validate(decl: KeyDeclaration, vs: seq<Validator>, p: Params): (r: Outcome<Failure>)
    ensures r.Pass? ==> forall k :: k in decl.required ==> k in p
    ensures r.Fail? && r.error.MissingRequiredKeys? ==> r.error.missing == Missing(decl, p) != {}
    ensures r.Fail? && r.error.ParameterInvalid? ==>
      && (forall k :: k in decl.required ==> k in p)
      && exists v :: v in vs && r.error.key == ReportedKey(v)
  {
    if CheckKeys(decl, p).Fail? then CheckKeys(decl, p) else RunAll(vs, p)
  }

  /** A per-job validator passes exactly when the key check and every composed validator pass. */
  lemma ValidatePassIff(decl: KeyDeclaration, vs: seq<Validator>, p: Params)
    ensures Validate(decl, vs, p).Pass? <==>
      CheckKeys(decl, p).Pass? && forall i :: 0 <= i < |vs| ==> Run(vs[i], p).Pass?
  {
    RunAllPassIff(vs, p);
  }

  /**
   * When the key check fails, no composed validator is consulted: any other
   * list of validators gives the same failure.
   */
  lemma KeyCheckComesFirst(decl: KeyDeclaration, vs: seq<Validator>, ws: seq<Validator>, p: Params)
    requires CheckKeys(decl, p).Fail?
    ensures Validate(decl, vs, p) == Validate(decl, ws, p) == CheckKeys(decl, p)
  {
  }

  /**
   * Removing any one required key from a parameter set that validates makes
   * validation fail, naming exactly that key.
   */
  lemma {:induction false} RemovingRequiredKeyFails(decl: KeyDeclaration, vs: seq<Validator>, p: Params, k: string)
    requires Validate(decl, vs, p).Pass?
    requires k in decl.required
    ensures Validate(decl, vs, p - {k}) == Fail(MissingRequiredKeys({k}))
  {
    var q := p - {k};
    assert CheckKeys(decl, p).Pass?;
    assert Missing(decl, q) == {k};
    if decl.optional != [] {
      assert Undeclared(decl, p) == {};
      assert Undeclared(decl, q) <= Undeclared(decl, p);
    }
  }
}
