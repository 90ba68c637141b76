/** The joi schemas of models/User.js, models/Post.js and models/Category.js.

    Each schema is a list of keys with a `joi.string()` rule chain. Validation follows joi's
    defaults: keys are checked in declaration order, then unknown keys are refused, and the
    first failure is the one reported (`abortEarly`). A `.trim()` chain checks the trimmed
    string; an empty string (after trimming) is refused before any length rule. */
module Validation {
  import opened Base
  import opened Text
  import opened Externals
  import opened Http

  /** A `joi.string()` chain: `.trim()`, `.min(n)`, `.max(n)`, `.email()`, and the
      `Joi.objectId()` pattern. */
  datatype StringRule = StringRule(trim: bool, min: Option<nat>, max: Option<nat>, email: bool, objectId: bool)

  /** One key of a `joi.object({...})`, with `.required()` or not. */
  datatype KeyRule = KeyRule(key: string, required: bool, rule: StringRule)

  type Schema = seq<KeyRule>

  /** Why joi refused a value. */
  datatype Problem =
    | Required
    | NotAString
    | Empty
    | TooShort(limit: nat)
    | TooLong(limit: nat)
    | NotEmail
    | NotObjectId(value: string)
    | NotAllowed

  /** `error.details[0]`: the offending key and the reason. */
  datatype Issue = Issue(key: string, problem: Problem)

  /** The string the rules inspect: `.trim()` converts before checking. */
  function Converted(rule: StringRule, s: string): string {
    if rule.trim then Trim(s) else s
  }

  /** The checks of a chain, each on its own, on the converted string `v`. */
  predicate ShortFor(rule: StringRule, v: string) {
    rule.min.Some? && |v| < rule.min.value
  }

  predicate LongFor(rule: StringRule, v: string) {
    rule.max.Some? && |v| > rule.max.value
  }

  predicate NotEmailFor(env: Env, rule: StringRule, v: string) {
    rule.email && !env.isEmail(v)
  }

  predicate NotObjectIdFor(env: Env, rule: StringRule, v: string) {
    rule.objectId && !env.isObjectId(v)
  }

  /** A string meets every rule of its chain. */
  predicate StringMeets(env: Env, rule: StringRule, s: string) {
    var v := Converted(rule, s);
    && v != ""
    && !ShortFor(rule, v)
    && !LongFor(rule, v)
    && !NotEmailFor(env, rule, v)
    && !NotObjectIdFor(env, rule, v)
  }

  /** The first rule of the chain the string fails. joi reports emptiness first, then the
      rules in the order `min`, `max`, `email`, ObjectId pattern: each problem is reported
      exactly when its check fails and every earlier check passes. */
  function StringProblem(env: Env, rule: StringRule, s: string): (r: Option<Problem>)
    ensures r.None? <==> StringMeets(env, rule, s)
    ensures var v := Converted(rule, s);
      r == Some(Empty) <==> v == ""
    ensures var v := Converted(rule, s);
      r.Some? && r.value.TooShort? <==> v != "" && ShortFor(rule, v)
    ensures var v := Converted(rule, s);
      r.Some? && r.value.TooLong? <==> v != "" && !ShortFor(rule, v) && LongFor(rule, v)
    ensures var v := Converted(rule, s);
      r == Some(NotEmail) <==>
        v != "" && !ShortFor(rule, v) && !LongFor(rule, v) && NotEmailFor(env, rule, v)
    ensures var v := Converted(rule, s);
      r.Some? && r.value.NotObjectId? <==>
        && v != "" && !ShortFor(rule, v) && !LongFor(rule, v) && !NotEmailFor(env, rule, v)
        && NotObjectIdFor(env, rule, v)
    ensures r.Some? && r.value.TooShort? ==> rule.min == Some(r.value.limit)
    ensures r.Some? && r.value.TooLong? ==> rule.max == Some(r.value.limit)
    ensures r.Some? && r.value.NotObjectId? ==> r.value.value == Converted(rule, s)
    ensures r.Some? ==> !r.value.Required? && !r.value.NotAString? && !r.value.NotAllowed?
  {
    var v := Converted(rule, s);
    if v == "" then Some(Empty)
    else if ShortFor(rule, v) then Some(TooShort(rule.min.value))
    else if LongFor(rule, v) then Some(TooLong(rule.max.value))
    else if NotEmailFor(env, rule, v) then Some(NotEmail)
    else if NotObjectIdFor(env, rule, v) then Some(NotObjectId(v))
    else None
  }

  /** The value of a key (absent, a string, or another JSON value) meets the key's rule. */
  predicate KeyMeets(env: Env, k: KeyRule, v: Option<Json>) {
    match v
    case None => !k.required
    case Some(Str(s)) => StringMeets(env, k.rule, s)
    case Some(_) => false
  }

  function KeyProblem(env: Env, k: KeyRule, v: Option<Json>): (r: Option<Problem>)
    ensures r.None? <==> KeyMeets(env, k, v)
    ensures r != Some(NotAllowed)
  {
    match v
    case None => if k.required then Some(Required) else None
    case Some(Str(s)) => StringProblem(env, k.rule, s)
    case Some(_) => Some(NotAString)
  }

  function Keys(schema: Schema): set<string> {
    set i | 0 <= i < |schema| :: schema[i].key
  }

  /** Every member of the body has a key the schema declares. */
  predicate OnlyKeys(b: Body, allowed: set<string>) {
    forall i :: 0 <= i < |b| ==> b[i].key in allowed
  }

  /** The first declared key whose value fails, in declaration order: the reported key fails
      with the reported problem, and every key declared before it passes. */
  function FirstKeyIssue(env: Env, schema: Schema, b: Body): (r: Option<Issue>)
    ensures r.None? <==> forall i :: 0 <= i < |schema| ==> KeyMeets(env, schema[i], Get(b, schema[i].key))
    ensures r.Some? ==> exists i :: 0 <= i < |schema| && r.value.key == schema[i].key
                                  && KeyProblem(env, schema[i], Get(b, schema[i].key)) == Some(r.value.problem)
                                  && forall j :: 0 <= j < i ==> KeyMeets(env, schema[j], Get(b, schema[j].key))
    ensures r.Some? ==> r.value.problem != NotAllowed
  {
    if |schema| == 0 then None
    else
      match KeyProblem(env, schema[0], Get(b, schema[0].key))
      case Some(p) => Some(Issue(schema[0].key, p))
      case None =>
        var r := FirstKeyIssue(env, schema[1..], b);
        assert forall i :: 1 <= i < |schema| ==> schema[1..][i - 1] == schema[i];
        assert r.Some? ==> exists i :: 0 <= i < |schema| && r.value.key == schema[i].key
                                      && KeyProblem(env, schema[i], Get(b, schema[i].key)) == Some(r.value.problem)
                                      && forall j :: 0 <= j < i ==> KeyMeets(env, schema[j], Get(b, schema[j].key)) by {
          if r.Some? {
            var i :| 0 <= i < |schema| - 1 && r.value.key == schema[1..][i].key
                     && KeyProblem(env, schema[1..][i], Get(b, schema[1..][i].key)) == Some(r.value.problem)
                     && forall j :: 0 <= j < i ==> KeyMeets(env, schema[1..][j], Get(b, schema[1..][j].key));
            assert schema[1..][i] == schema[i + 1];
            forall j | 0 <= j < i + 1 ensures KeyMeets(env, schema[j], Get(b, schema[j].key)) {
              if j > 0 {
                assert schema[1..][j - 1] == schema[j];
              }
            }
          }
        }
        r
  }

  /** A key that JavaScript treats as an array index: the canonical decimal form of a number
      below 2^32 - 1. `Object.keys` lists such keys first, in ascending numeric order, and
      the other keys after them in insertion order. */
  predicate IsIndexKey(k: string) {
    && |k| > 0
    && (forall i :: 0 <= i < |k| ==> '0' <= k[i] <= '9')
    && (k[0] != '0' || |k| == 1)
    && DecimalValue(k) < 0xFFFF_FFFF
  }

  /** The number a string of decimal digits denotes. */
  function DecimalValue(k: string): nat
    requires forall i :: 0 <= i < |k| ==> '0' <= k[i] <= '9'
  {
    if |k| == 0 then 0 else DecimalValue(k[..|k| - 1]) * 10 + (k[|k| - 1] as int - '0' as int)
  }

  /** The unknown array-index key of least numeric value, if there is one. */
  function LeastUnknownIndex(b: Body, allowed: set<string>): (r: Option<string>)
    ensures r.None? <==> forall i :: 0 <= i < |b| ==> b[i].key in allowed || !IsIndexKey(b[i].key)
    ensures r.Some? ==> r.value !in allowed && IsIndexKey(r.value)
                        && exists i :: 0 <= i < |b| && b[i].key == r.value
    ensures r.Some? ==> forall i :: 0 <= i < |b| && b[i].key !in allowed && IsIndexKey(b[i].key) ==>
                          DecimalValue(r.value) <= DecimalValue(b[i].key)
  {
    if |b| == 0 then None
    else
      var rest := LeastUnknownIndex(b[1..], allowed);
      assert forall i :: 1 <= i < |b| ==> b[1..][i - 1] == b[i];
      if b[0].key in allowed || !IsIndexKey(b[0].key) then rest
      else if rest.Some? && DecimalValue(rest.value) < DecimalValue(b[0].key) then rest
      else Some(b[0].key)
  }

  /** The first unknown key in the order `Object.keys` lists the body's keys, which is the
      order joi reports unknown keys in: the least unknown array-index key if there is one,
      otherwise the first unknown key in the body. */
  function FirstUnknown(b: Body, allowed: set<string>): (r: Option<string>)
    ensures r.None? <==> OnlyKeys(b, allowed)
    ensures r.Some? ==> r.value !in allowed && exists i :: 0 <= i < |b| && b[i].key == r.value
    ensures (exists i :: 0 <= i < |b| && b[i].key !in allowed && IsIndexKey(b[i].key)) ==>
      r.Some? && IsIndexKey(r.value)
    ensures r.Some? && IsIndexKey(r.value) ==>
      forall i :: 0 <= i < |b| && b[i].key !in allowed && IsIndexKey(b[i].key) ==>
        DecimalValue(r.value) <= DecimalValue(b[i].key)
    ensures r.Some? && !IsIndexKey(r.value) ==>
      exists j :: 0 <= j < |b| && b[j].key == r.value && forall i :: 0 <= i < j ==> b[i].key in allowed
  {
    match LeastUnknownIndex(b, allowed)
    case Some(k) => Some(k)
    case None =>
      match FindFirst(b, (m: Member) => m.key !in allowed)
      case None => None
      case Some(j) => Some(b[j].key)
  }

  /** An unknown array-index key is reported before any other unknown key, wherever it stands
      in the body. */
  lemma IndexKeyReportedFirst(b: Body, allowed: set<string>, i: nat, j: nat)
    requires i < |b| && j < |b|
    requires b[i].key !in allowed && !IsIndexKey(b[i].key)
    requires b[j].key !in allowed && IsIndexKey(b[j].key)
    ensures FirstUnknown(b, allowed) != Some(b[i].key)
  {
  }

  /** The body satisfies the schema: every declared key's value passes and no other key occurs. */
  predicate Accepts(env: Env, schema: Schema, b: Body) {
    && (forall i :: 0 <= i < |schema| ==> KeyMeets(env, schema[i], Get(b, schema[i].key)))
    && OnlyKeys(b, Keys(schema))
  }

  /** `schema.validate(body).error`, reduced to its first detail; `None` when the body passes. */
  function Validate(env: Env, schema: Schema, b: Body): (r: Option<Issue>)
    ensures r.None? <==> Accepts(env, schema, b)
    ensures r.Some? && r.value.problem == NotAllowed ==> r.value.key !in Keys(schema)
    ensures (exists i :: 0 <= i < |schema| && !KeyMeets(env, schema[i], Get(b, schema[i].key))) ==>
      r.Some? && r.value.problem != NotAllowed
    ensures r.Some? && r.value.problem != NotAllowed ==> r == FirstKeyIssue(env, schema, b)
    ensures r.Some? && r.value.problem == NotAllowed ==> Some(r.value.key) == FirstUnknown(b, Keys(schema))
  {
    match FirstKeyIssue(env, schema, b)
    case Some(i) => Some(i)
    case None =>
      match FirstUnknown(b, Keys(schema))
      case Some(k) => Some(Issue(k, NotAllowed))
      case None => None
  }

  /** `error.details[0].message` in joi's default English templates: the offending key in
      double quotes, then the reason. */
  function IssueMessage(i: Issue): (m: string)
    ensures "\"" + i.key + "\"" <= m
  {
    var quoted := "\"" + i.key + "\"";
    match i.problem
    case Required => quoted + " is required"
    case NotAString => quoted + " must be a string"
    case Empty => quoted + " is not allowed to be empty"
    case TooShort(n) => quoted + " length must be at least " + NatToString(n) + " characters long"
    case TooLong(n) => quoted + " length must be less than or equal to " + NatToString(n) + " characters long"
    case NotEmail => quoted + " must be a valid email"
    case NotObjectId(v) => quoted + " with value \"" + v + "\" fails to match the valid mongo id pattern"
    case NotAllowed => quoted + " is not allowed"
  }

  // ---------------------------------------------------------------------------------------
  // The schemas

  /** `joi.string().trim().min(lo)` with an optional `.max(hi)`. */
  function Trimmed(lo: nat, hi: Option<nat>): StringRule {
    StringRule(true, Some(lo), hi, false, false)
  }

  /** models/User.js `validateSignupUser`. */
  const SignupSchema: Schema := [
    KeyRule("username", true, Trimmed(3, Some(20))),
    KeyRule("password", true, Trimmed(8, None)),
    KeyRule("email", true, StringRule(true, Some(5), Some(70), true, false))]

  /** models/User.js `validateSignInUser`. */
  const SigninSchema: Schema := [
    KeyRule("password", true, Trimmed(8, None)),
    KeyRule("email", true, StringRule(true, Some(5), Some(70), true, false))]

  /** models/User.js `validateUpdateUser`: every key optional, `bio` not trimmed. */
  const UpdateUserSchema: Schema := [
    KeyRule("username", false, Trimmed(3, Some(20))),
    KeyRule("password", false, Trimmed(8, None)),
    KeyRule("bio", false, StringRule(false, None, Some(500), false, false))]

  /** `Joi.objectId()`. */
  const ObjectIdRule: StringRule := StringRule(false, None, None, false, true)

  /** models/Post.js `validatePost`. */
  const PostSchema: Schema := [
    KeyRule("title", true, Trimmed(2, Some(100))),
    KeyRule("description", true, Trimmed(10, None)),
    KeyRule("category", true, ObjectIdRule)]

  /** models/Post.js `validatePostUpdate`: `PostSchema` with every key optional. */
  const PostUpdateSchema: Schema := [
    KeyRule("title", false, Trimmed(2, Some(100))),
    KeyRule("description", false, Trimmed(10, None)),
    KeyRule("category", false, ObjectIdRule)]

  /** models/Category.js `validateCategory`. */
  const CategorySchema: Schema := [KeyRule("category", true, Trimmed(2, Some(50)))]

  lemma KeysOfThree(schema: Schema)
    requires |schema| == 3
    ensures Keys(schema) == {schema[0].key, schema[1].key, schema[2].key}
  {
    assert schema[0].key in Keys(schema);
    assert schema[1].key in Keys(schema);
    assert schema[2].key in Keys(schema);
  }

  lemma KeysOfTwo(schema: Schema)
    requires |schema| == 2
    ensures Keys(schema) == {schema[0].key, schema[1].key}
  {
    assert schema[0].key in Keys(schema);
    assert schema[1].key in Keys(schema);
  }

  lemma KeysOfOne(schema: Schema)
    requires |schema| == 1
    ensures Keys(schema) == {schema[0].key}
  {
    assert schema[0].key in Keys(schema);
  }

  /** A present string field of the body, or the empty string. */
  function Raw(b: Body, key: string): string {
    StrField(b, key).GetOr("")
  }

  /** The key holds a string whose trimmed length lies in `lo..hi`. */
  predicate TrimmedIn(b: Body, key: string, lo: nat, hi: nat) {
    StrField(b, key).Some? && lo <= |Trim(StrField(b, key).value)| <= hi
  }

  /** The key holds a string whose trimmed length is at least `lo`. */
  predicate TrimmedAtLeast(b: Body, key: string, lo: nat) {
    StrField(b, key).Some? && lo <= |Trim(StrField(b, key).value)|
  }

  /** The key is absent, or it meets `constraint`. */
  predicate Optional(b: Body, key: string, constraint: bool) {
    Get(b, key).Some? ==> constraint
  }

  lemma RequiredKey(env: Env, k: KeyRule, b: Body)
    requires k.required
    ensures KeyMeets(env, k, Get(b, k.key)) <==>
      StrField(b, k.key).Some? && StringMeets(env, k.rule, StrField(b, k.key).value)
  {
  }

  lemma OptionalKey(env: Env, k: KeyRule, b: Body)
    requires !k.required
    ensures KeyMeets(env, k, Get(b, k.key)) <==>
      (Get(b, k.key).Some? ==> StrField(b, k.key).Some? && StringMeets(env, k.rule, StrField(b, k.key).value))
  {
  }

  /** With a positive minimum, the empty-string check adds nothing to the length bounds. */
  lemma TrimmedMeets(env: Env, lo: nat, hi: Option<nat>, s: string)
    requires lo >= 1
    ensures StringMeets(env, Trimmed(lo, hi), s) <==>
      lo <= |Trim(s)| && (hi.Some? ==> |Trim(s)| <= hi.value)
  {
  }

  /** The e-mail rule of the user schemas, stated on the trimmed string. */
  lemma EmailRuleMeets(env: Env, s: string)
    ensures StringMeets(env, StringRule(true, Some(5), Some(70), true, false), s) <==>
      5 <= |Trim(s)| <= 70 && env.isEmail(Trim(s))
  {
  }

  lemma AcceptsThree(env: Env, schema: Schema, b: Body)
    requires |schema| == 3
    ensures Accepts(env, schema, b) <==>
      && KeyMeets(env, schema[0], Get(b, schema[0].key))
      && KeyMeets(env, schema[1], Get(b, schema[1].key))
      && KeyMeets(env, schema[2], Get(b, schema[2].key))
      && OnlyKeys(b, {schema[0].key, schema[1].key, schema[2].key})
  {
    KeysOfThree(schema);
  }

  lemma AcceptsTwo(env: Env, schema: Schema, b: Body)
    requires |schema| == 2
    ensures Accepts(env, schema, b) <==>
      && KeyMeets(env, schema[0], Get(b, schema[0].key))
      && KeyMeets(env, schema[1], Get(b, schema[1].key))
      && OnlyKeys(b, {schema[0].key, schema[1].key})
  {
    KeysOfTwo(schema);
  }

  lemma AcceptsOne(env: Env, schema: Schema, b: Body)
    requires |schema| == 1
    ensures Accepts(env, schema, b) <==>
      KeyMeets(env, schema[0], Get(b, schema[0].key)) && OnlyKeys(b, {schema[0].key})
  {
    KeysOfOne(schema);
  }

  // ---------------------------------------------------------------------------------------
  // Users

  datatype SignupForm = SignupForm(username: string, password: string, email: string)

  /** The signup body the controller may accept, stated field by field. */
  predicate SignupAcceptable(env: Env, b: Body) {
    && OnlyKeys(b, {"username", "password", "email"})
    && TrimmedIn(b, "username", 3, 20)
    && TrimmedAtLeast(b, "password", 8)
    && TrimmedIn(b, "email", 5, 70)
    && env.isEmail(Trim(Raw(b, "email")))
  }

  lemma SignupSchemaMeaning(env: Env, b: Body)
    ensures Accepts(env, SignupSchema, b) <==> SignupAcceptable(env, b)
  {
    var s := SignupSchema;
    assert s[0] == KeyRule("username", true, Trimmed(3, Some(20)));
    assert s[1] == KeyRule("password", true, Trimmed(8, None));
    assert s[2] == KeyRule("email", true, StringRule(true, Some(5), Some(70), true, false));
    AcceptsThree(env, s, b);
    assert {s[0].key, s[1].key, s[2].key} == {"username", "password", "email"};
    RequiredKey(env, s[0], b);
    RequiredKey(env, s[1], b);
    RequiredKey(env, s[2], b);
    TrimmedMeets(env, 3, Some(20), Raw(b, "username"));
    TrimmedMeets(env, 8, None, Raw(b, "password"));
    EmailRuleMeets(env, Raw(b, "email"));
    assert KeyMeets(env, s[0], Get(b, s[0].key)) <==> TrimmedIn(b, "username", 3, 20);
    assert KeyMeets(env, s[1], Get(b, s[1].key)) <==> TrimmedAtLeast(b, "password", 8);
    assert KeyMeets(env, s[2], Get(b, s[2].key)) <==>
      TrimmedIn(b, "email", 5, 70) && env.isEmail(Trim(Raw(b, "email")));
  }

  /** `validateSignupUser`; a passing body yields its raw (untrimmed) fields. */
  function ValidateSignupUser(env: Env, b: Body): (r: Result<SignupForm, Issue>)
    ensures r.Success? <==> SignupAcceptable(env, b)
    ensures r.Failure? ==> Some(r.error) == Validate(env, SignupSchema, b)
    ensures r.Success? ==> && StrField(b, "username") == Some(r.value.username)
                           && StrField(b, "password") == Some(r.value.password)
                           && StrField(b, "email") == Some(r.value.email)
  {
    SignupSchemaMeaning(env, b);
    match Validate(env, SignupSchema, b)
    case Some(i) => Failure(i)
    case None => Success(SignupForm(Raw(b, "username"), Raw(b, "password"), Raw(b, "email")))
  }

  datatype SigninForm = SigninForm(email: string, password: string)

  predicate SigninAcceptable(env: Env, b: Body) {
    && OnlyKeys(b, {"password", "email"})
    && TrimmedAtLeast(b, "password", 8)
    && TrimmedIn(b, "email", 5, 70)
    && env.isEmail(Trim(Raw(b, "email")))
  }

  lemma SigninSchemaMeaning(env: Env, b: Body)
    ensures Accepts(env, SigninSchema, b) <==> SigninAcceptable(env, b)
  {
    var s := SigninSchema;
    assert s[0] == KeyRule("password", true, Trimmed(8, None));
    assert s[1] == KeyRule("email", true, StringRule(true, Some(5), Some(70), true, false));
    AcceptsTwo(env, s, b);
    assert {s[0].key, s[1].key} == {"password", "email"};
    RequiredKey(env, s[0], b);
    RequiredKey(env, s[1], b);
    TrimmedMeets(env, 8, None, Raw(b, "password"));
    EmailRuleMeets(env, Raw(b, "email"));
    assert KeyMeets(env, s[0], Get(b, s[0].key)) <==> TrimmedAtLeast(b, "password", 8);
    assert KeyMeets(env, s[1], Get(b, s[1].key)) <==>
      TrimmedIn(b, "email", 5, 70) && env.isEmail(Trim(Raw(b, "email")));
  }

  /** `validateSignInUser`. */
  function ValidateSignInUser(env: Env, b: Body): (r: Result<SigninForm, Issue>)
    ensures r.Success? <==> SigninAcceptable(env, b)
    ensures r.Failure? ==> Some(r.error) == Validate(env, SigninSchema, b)
    ensures r.Success? ==> && StrField(b, "email") == Some(r.value.email)
                           && StrField(b, "password") == Some(r.value.password)
  {
    SigninSchemaMeaning(env, b);
    match Validate(env, SigninSchema, b)
    case Some(i) => Failure(i)
    case None => Success(SigninForm(Raw(b, "email"), Raw(b, "password")))
  }

  /** The update fields present in the body (`undefined` ones are `None`). */
  datatype UserUpdateForm = UserUpdateForm(username: Option<string>, password: Option<string>, bio: Option<string>)

  predicate UpdateUserAcceptable(b: Body) {
    && OnlyKeys(b, {"username", "password", "bio"})
    && Optional(b, "username", TrimmedIn(b, "username", 3, 20))
    && Optional(b, "password", TrimmedAtLeast(b, "password", 8))
    && Optional(b, "bio", StrField(b, "bio").Some? && StrField(b, "bio").value != ""
                          && |StrField(b, "bio").value| <= 500)
  }

  lemma UpdateUserSchemaMeaning(env: Env, b: Body)
    ensures Accepts(env, UpdateUserSchema, b) <==> UpdateUserAcceptable(b)
  {
    var s := UpdateUserSchema;
    assert s[0] == KeyRule("username", false, Trimmed(3, Some(20)));
    assert s[1] == KeyRule("password", false, Trimmed(8, None));
    assert s[2] == KeyRule("bio", false, StringRule(false, None, Some(500), false, false));
    AcceptsThree(env, s, b);
    assert {s[0].key, s[1].key, s[2].key} == {"username", "password", "bio"};
    OptionalKey(env, s[0], b);
    OptionalKey(env, s[1], b);
    OptionalKey(env, s[2], b);
    TrimmedMeets(env, 3, Some(20), Raw(b, "username"));
    TrimmedMeets(env, 8, None, Raw(b, "password"));
    assert KeyMeets(env, s[0], Get(b, s[0].key)) <==>
      Optional(b, "username", TrimmedIn(b, "username", 3, 20));
    assert KeyMeets(env, s[1], Get(b, s[1].key)) <==>
      Optional(b, "password", TrimmedAtLeast(b, "password", 8));
  }

  /** `validateUpdateUser`. No key is required; `bio` is capped but not trimmed. */
  function ValidateUpdateUser(env: Env, b: Body): (r: Result<UserUpdateForm, Issue>)
    ensures r.Success? <==> UpdateUserAcceptable(b)
    ensures r.Failure? ==> Some(r.error) == Validate(env, UpdateUserSchema, b)
    ensures r.Success? ==> && r.value.username == StrField(b, "username")
                           && r.value.password == StrField(b, "password")
                           && r.value.bio == StrField(b, "bio")
    ensures r.Success? ==> forall k :: k in {"username", "password", "bio"} ==>
                             (Get(b, k).Some? <==> StrField(b, k).Some?)
  {
    UpdateUserSchemaMeaning(env, b);
    match Validate(env, UpdateUserSchema, b)
    case Some(i) => Failure(i)
    case None => Success(UserUpdateForm(StrField(b, "username"), StrField(b, "password"), StrField(b, "bio")))
  }

  // ---------------------------------------------------------------------------------------
  // Posts

  datatype PostForm = PostForm(title: string, description: string, category: string)

  predicate PostAcceptable(env: Env, b: Body) {
    && OnlyKeys(b, {"title", "description", "category"})
    && TrimmedIn(b, "title", 2, 100)
    && TrimmedAtLeast(b, "description", 10)
    && StrField(b, "category").Some? && StrField(b, "category").value != ""
    && env.isObjectId(StrField(b, "category").value)
  }

  lemma PostSchemaMeaning(env: Env, b: Body)
    ensures Accepts(env, PostSchema, b) <==> PostAcceptable(env, b)
  {
    var s := PostSchema;
    assert s[0] == KeyRule("title", true, Trimmed(2, Some(100)));
    assert s[1] == KeyRule("description", true, Trimmed(10, None));
    assert s[2] == KeyRule("category", true, ObjectIdRule);
    AcceptsThree(env, s, b);
    assert {s[0].key, s[1].key, s[2].key} == {"title", "description", "category"};
    RequiredKey(env, s[0], b);
    RequiredKey(env, s[1], b);
    RequiredKey(env, s[2], b);
    TrimmedMeets(env, 2, Some(100), Raw(b, "title"));
    TrimmedMeets(env, 10, None, Raw(b, "description"));
    assert KeyMeets(env, s[0], Get(b, s[0].key)) <==> TrimmedIn(b, "title", 2, 100);
    assert KeyMeets(env, s[1], Get(b, s[1].key)) <==> TrimmedAtLeast(b, "description", 10);
  }

  /** `validatePost`. */
  function ValidatePost(env: Env, b: Body): (r: Result<PostForm, Issue>)
    ensures r.Success? <==> PostAcceptable(env, b)
    ensures r.Failure? ==> Some(r.error) == Validate(env, PostSchema, b)
    ensures r.Success? ==> && StrField(b, "title") == Some(r.value.title)
                           && StrField(b, "description") == Some(r.value.description)
                           && StrField(b, "category") == Some(r.value.category)
  {
    PostSchemaMeaning(env, b);
    match Validate(env, PostSchema, b)
    case Some(i) => Failure(i)
    case None => Success(PostForm(Raw(b, "title"), Raw(b, "description"), Raw(b, "category")))
  }

  datatype PostUpdateForm = PostUpdateForm(title: Option<string>, description: Option<string>, category: Option<string>)

  predicate PostUpdateAcceptable(env: Env, b: Body) {
    && OnlyKeys(b, {"title", "description", "category"})
    && Optional(b, "title", TrimmedIn(b, "title", 2, 100))
    && Optional(b, "description", TrimmedAtLeast(b, "description", 10))
    && Optional(b, "category", StrField(b, "category").Some? && StrField(b, "category").value != ""
                               && env.isObjectId(StrField(b, "category").value))
  }

  lemma PostUpdateSchemaMeaning(env: Env, b: Body)
    ensures Accepts(env, PostUpdateSchema, b) <==> PostUpdateAcceptable(env, b)
  {
    var s := PostUpdateSchema;
    assert s[0] == KeyRule("title", false, Trimmed(2, Some(100)));
    assert s[1] == KeyRule("description", false, Trimmed(10, None));
    assert s[2] == KeyRule("category", false, ObjectIdRule);
    AcceptsThree(env, s, b);
    assert {s[0].key, s[1].key, s[2].key} == {"title", "description", "category"};
    OptionalKey(env, s[0], b);
    OptionalKey(env, s[1], b);
    OptionalKey(env, s[2], b);
    TrimmedMeets(env, 2, Some(100), Raw(b, "title"));
    TrimmedMeets(env, 10, None, Raw(b, "description"));
    assert KeyMeets(env, s[0], Get(b, s[0].key)) <==>
      Optional(b, "title", TrimmedIn(b, "title", 2, 100));
    assert KeyMeets(env, s[1], Get(b, s[1].key)) <==>
      Optional(b, "description", TrimmedAtLeast(b, "description", 10));
  }

  /** `validatePostUpdate`. */
  function ValidatePostUpdate(env: Env, b: Body): (r: Result<PostUpdateForm, Issue>)
    ensures r.Success? <==> PostUpdateAcceptable(env, b)
    ensures r.Failure? ==> Some(r.error) == Validate(env, PostUpdateSchema, b)
    ensures r.Success? ==> && r.value.title == StrField(b, "title")
                           && r.value.description == StrField(b, "description")
                           && r.value.category == StrField(b, "category")
  {
    PostUpdateSchemaMeaning(env, b);
    match Validate(env, PostUpdateSchema, b)
    case Some(i) => Failure(i)
    case None => Success(PostUpdateForm(StrField(b, "title"), StrField(b, "description"), StrField(b, "category")))
  }

  // ---------------------------------------------------------------------------------------
  // Categories

  predicate CategoryAcceptable(b: Body) {
    OnlyKeys(b, {"category"}) && TrimmedIn(b, "category", 2, 50)
  }

  lemma CategorySchemaMeaning(env: Env, b: Body)
    ensures Accepts(env, CategorySchema, b) <==> CategoryAcceptable(b)
  {
    var s := CategorySchema;
    AcceptsOne(env, s, b);
    RequiredKey(env, s[0], b);
    TrimmedMeets(env, 2, Some(50), Raw(b, "category"));
  }

  /** `validateCategory`; a passing body yields the raw `category` string. */
  function ValidateCategory(env: Env, b: Body): (r: Result<string, Issue>)
    ensures r.Success? <==> CategoryAcceptable(b)
    ensures r.Failure? ==> Some(r.error) == Validate(env, CategorySchema, b)
    ensures r.Success? ==> StrField(b, "category") == Some(r.value)
  {
    CategorySchemaMeaning(env, b);
    match Validate(env, CategorySchema, b)
    case Some(i) => Failure(i)
    case None => Success(Raw(b, "category"))
  }

  // ---------------------------------------------------------------------------------------
  // Relations between the validators

  /** A body that carries exactly the given email and password strings (in any order, with
      no other key), as a client re-sends its signup credentials to sign in. */
  predicate CarriesCredentials(c: Body, email: string, password: string) {
    && OnlyKeys(c, {"email", "password"})
    && Get(c, "email") == Some(Str(email))
    && Get(c, "password") == Some(Str(password))
  }

  /** The bounds a signup form's email and password are known to meet. */
  predicate CredentialBounds(env: Env, email: string, password: string) {
    8 <= |Trim(password)| && 5 <= |Trim(email)| <= 70 && env.isEmail(Trim(email))
  }

  lemma SignupFormBounds(env: Env, b: Body, f: SignupForm)
    requires ValidateSignupUser(env, b) == Success(f)
    ensures CredentialBounds(env, f.email, f.password)
  {
    assert SignupAcceptable(env, b);
    assert Raw(b, "email") == f.email;
  }

  lemma SigninAcceptsBoundedCredentials(env: Env, c: Body, email: string, password: string)
    requires CredentialBounds(env, email, password) && CarriesCredentials(c, email, password)
    ensures ValidateSignInUser(env, c) == Success(SigninForm(email, password))
  {
    assert StrField(c, "email") == Some(email) && StrField(c, "password") == Some(password);
    assert SigninAcceptable(env, c);
  }

  /** The credentials of an accepted signup body, sent on their own, pass sign-in validation. */
  lemma SignupCredentialsPassSignin(env: Env, b: Body, f: SignupForm, c: Body)
    requires ValidateSignupUser(env, b) == Success(f)
    requires CarriesCredentials(c, f.email, f.password)
    ensures ValidateSignInUser(env, c) == Success(SigninForm(f.email, f.password))
  {
    SignupFormBounds(env, b, f);
    SigninAcceptsBoundedCredentials(env, c, f.email, f.password);
  }

  /** Sign-in validation refuses a body that also carries the username. */
  lemma SigninRefusesUsername(env: Env, b: Body)
    requires Get(b, "username").Some?
    ensures ValidateSignInUser(env, b).Failure?
  {
  }

  /** Members appended under other keys do not change what a key reads. */
  lemma {:induction false} GetIgnoresOtherKeys(b: Body, tail: Body, key: string)
    requires forall i :: 0 <= i < |tail| ==> tail[i].key != key
    ensures Get(b + tail, key) == Get(b, key)
  {
    if |tail| == 0 {
      assert b + tail == b;
    } else {
      var front := tail[..|tail| - 1];
      assert (b + tail)[|b + tail| - 1] == tail[|tail| - 1];
      assert (b + tail)[..|b + tail| - 1] == b + front;
      GetIgnoresOtherKeys(b, front, key);
    }
  }

  /** The unknown key reported for a body whose only unknown keys are "zz" and then "7". */
  lemma IndexKeyBeatsEarlierKey(b: Body, allowed: set<string>)
    requires OnlyKeys(b, allowed) && "zz" !in allowed && "7" !in allowed
    ensures FirstUnknown(b + [Member("zz", Num(1)), Member("7", Num(2))], allowed) == Some("7")
  {
    var e := b + [Member("zz", Num(1)), Member("7", Num(2))];
    assert e[|b| + 1].key == "7" && IsIndexKey("7");
    assert forall i :: 0 <= i < |b| ==> e[i] == b[i];
    assert !IsIndexKey(e[|b|].key) by { assert !('0' <= "zz"[0] <= '9'); }
  }

  /** Appending the unknown keys "zz" and then "7" to a body the schema accepts gets it
      refused naming "7": `Object.keys` lists the array-index key first. */
  lemma AppendedIndexKeyReportedFirst(env: Env, schema: Schema, b: Body)
    requires Accepts(env, schema, b) && "zz" !in Keys(schema) && "7" !in Keys(schema)
    ensures Validate(env, schema, b + [Member("zz", Num(1)), Member("7", Num(2))])
         == Some(Issue("7", NotAllowed))
  {
    var tail := [Member("zz", Num(1)), Member("7", Num(2))];
    forall i | 0 <= i < |schema| ensures KeyMeets(env, schema[i], Get(b + tail, schema[i].key)) {
      assert schema[i].key in Keys(schema);
      GetIgnoresOtherKeys(b, tail, schema[i].key);
    }
    IndexKeyBeatsEarlierKey(b, Keys(schema));
  }

  /** The empty body is a valid (no-op) profile update. */
  lemma UpdateUserAcceptsEmptyBody(env: Env)
    ensures ValidateUpdateUser(env, []).Success?
  {
  }

  /** Any key other than username, password and bio (isAdmin, email, ...) fails update
      validation, so a profile update can never carry the admin flag. */
  lemma UpdateUserRefusesOtherKeys(env: Env, b: Body, i: nat)
    requires i < |b| && b[i].key !in {"username", "password", "bio"}
    ensures ValidateUpdateUser(env, b).Failure?
  {
  }

  /** joi strings refuse "" by default, so an empty bio is refused. */
  lemma UpdateUserRefusesEmptyBio(env: Env, b: Body)
    requires Get(b, "bio") == Some(Str(""))
    ensures ValidateUpdateUser(env, b).Failure?
  {
  }

  /** bio is not trimmed: any non-empty string of at most 500 characters passes, even one of
      only spaces, while a 501-character one does not. */
  lemma UpdateUserBioBounds(env: Env, bio: string)
    ensures ValidateUpdateUser(env, [Member("bio", Str(bio))]).Success? <==> bio != "" && |bio| <= 500
  {
    var b := [Member("bio", Str(bio))];
    assert Get(b, "bio") == Some(Str(bio));
    assert Get(b, "username").None? && Get(b, "password").None?;
  }

  /** Every body that can create a post is also a valid post update. */
  lemma PostCreateBodyIsUpdateBody(env: Env, b: Body)
    requires ValidatePost(env, b).Success?
    ensures ValidatePostUpdate(env, b).Success?
  {
  }

  /** Neither post validator lets the client choose the author, image or likes. */
  lemma PostValidatorsRefuseOwnedKeys(env: Env, b: Body, i: nat)
    requires i < |b| && b[i].key in {"user", "image", "likes"}
    ensures ValidatePost(env, b).Failure? && ValidatePostUpdate(env, b).Failure?
  {
    assert b[i].key !in {"title", "description", "category"};
    assert !OnlyKeys(b, {"title", "description", "category"});
  }

  /** The empty body is a valid (no-op) post update. */
  lemma PostUpdateAcceptsEmptyBody(env: Env)
    ensures ValidatePostUpdate(env, []).Success?
  {
  }

  /** A body without `category` is refused with joi's "is required" detail. */
  lemma CategoryMissingIsRequired(env: Env, b: Body)
    requires Get(b, "category").None?
    ensures ValidateCategory(env, b) == Failure(Issue("category", Required))
    ensures IssueMessage(Issue("category", Required)) == "\"category\" is required"
  {
  }

  /** Any key besides `category` fails category validation. */
  lemma CategoryRefusesOtherKeys(env: Env, b: Body, i: nat)
    requires i < |b| && b[i].key != "category"
    ensures ValidateCategory(env, b).Failure?
  {
  }

  /** The Mongoose `category` path: required, trimmed, 2 to 50 characters once trimmed. */
  predicate CategoryPathValid(v: string) {
    var t := Trim(v);
    t != "" && 2 <= |t| && |t| <= 50
  }

  /** A name joi accepts also passes the schema's own validators when saved. */
  lemma CategoryValidatorWithinSchema(env: Env, b: Body)
    requires ValidateCategory(env, b).Success?
    ensures CategoryPathValid(ValidateCategory(env, b).value)
  {
  }
}
