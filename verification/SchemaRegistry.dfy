/** The schema validator: termination for every schema set whose reference cycles pass through a sub-value,
    and agreement of its verdict with JSON Schema on the supported keywords. */
module SchemaRegistry {
  import opened Wrappers
  import Numerals

  datatype Json =
    | JNull
    | JBool(b: bool)
    | JNumber(n: real)
    | JString(s: string)
    | JArray(elements: seq<Json>)
    | JObject(fields: seq<Field>)
  {
    predicate Scalar()
    {
      !JArray? && !JObject?
    }
  }

  datatype Field = Field(key: string, value: Json)

  predicate HasKey(fields: seq<Field>, key: string)
  {
    exists i :: 0 <= i < |fields| && fields[i].key == key
  }

  /** `value[key]`. */
  function Lookup(fields: seq<Field>, key: string): (v: Json)
    requires HasKey(fields, key)
    ensures exists i :: 0 <= i < |fields| && fields[i] == Field(key, v)
  {
    if fields[0].key == key then
      assert fields[0] == Field(key, fields[0].value);
      fields[0].value
    else
      var i :| 0 <= i < |fields| && fields[i].key == key;
      assert fields[1..][i - 1] == fields[i];
      var v := Lookup(fields[1..], key);
      var k :| 0 <= k < |fields[1..]| && fields[1..][k] == Field(key, v);
      assert fields[k + 1] == Field(key, v);
      v
  }

  /** A schema object. An absent (or empty) `type` or `$ref` is the empty string. */
  datatype Schema = Schema(
    ref: string, anyOf: Branches, constant: Option<Json>, enumeration: Option<seq<Json>>, typeName: string,
    minLength: Option<int>, pattern: Option<string>, minimum: Option<real>,
    required: seq<string>, properties: Properties, additional: Additional, items: Items)

  datatype Branches = NoBranches | Branches(schemas: seq<Schema>)
  datatype Properties = NoProperties | Properties(entries: seq<Property>)
  datatype Property = Property(key: string, schema: Schema)
  datatype Additional = AnyAdditional | NoAdditional | Additional(schema: Schema)
  datatype Items = AnyItems | Items(schema: Schema)

  predicate Declares(entries: seq<Property>, key: string)
  {
    exists i :: 0 <= i < |entries| && entries[i].key == key
  }

  /** The schema files below the root by normalised path, path resolution, and the regular expressions. */
  datatype Registry = Registry(
    files: map<string, Schema>, resolve: (string, string) -> string, dirOf: string -> string,
    compiles: string -> bool, matches: (string, string) -> bool)

  // ---- references that stay on the same value -----------------------------------------------------------------

  /** `target` is the file that validating a value against `s` continues with on the same value. */
  predicate IsTarget(g: Registry, s: Schema, dir: string, target: string)
  {
    if s.ref != "" then target == g.resolve(dir, s.ref)
    else s.anyOf.Branches? && exists i :: 0 <= i < |s.anyOf.schemas| && IsTarget(g, s.anyOf.schemas[i], dir, target)
  }

  predicate StepsTo(g: Registry, p: string, q: string)
  {
    p in g.files && q in g.files && IsTarget(g, g.files[p], g.dirOf(p), q)
  }

  predicate IsPath(g: Registry, path: seq<string>)
  {
    |path| >= 2 && forall i :: 0 <= i < |path| - 1 ==> StepsTo(g, path[i], path[i + 1])
  }

  /** No reference leads back to its own file without passing through a property, an item or an additional
      property. Recursive schemas are fine. */
  ghost predicate Acyclic(g: Registry)
  {
    forall path :: IsPath(g, path) ==> path[0] != path[|path| - 1]
  }

  ghost predicate Reaches(g: Registry, p: string, q: string)
  {
    exists path :: IsPath(g, path) && path[0] == p && path[|path| - 1] == q
  }

  ghost function ReachableFrom(g: Registry, p: string): set<string>
  {
    set q | q in g.files.Keys && Reaches(g, p, q)
  }

  /** How long a chain of same-value references from a file can be at most. */
  ghost function Rank(g: Registry, p: string): nat
  {
    |ReachableFrom(g, p)|
  }

  ghost function Top(g: Registry): nat
  {
    |g.files| + 1
  }

  lemma ReachesStep(g: Registry, p: string, q: string, t: string)
    requires StepsTo(g, p, q) && Reaches(g, q, t)
    ensures Reaches(g, p, t)
  {
    var path :| IsPath(g, path) && path[0] == q && path[|path| - 1] == t;
    var longer := [p] + path;
    assert forall i :: 0 < i < |longer| ==> longer[i] == path[i - 1];
    assert IsPath(g, longer);
  }

  lemma SmallerSet<T>(a: set<T>, b: set<T>)
    requires a <= b
    ensures |a| <= |b| && (a < b ==> |a| < |b|)
  {
    assert b == a + (b - a);
  }

  lemma RankDecreases(g: Registry, p: string, q: string)
    requires Acyclic(g) && StepsTo(g, p, q)
    ensures Rank(g, q) < Rank(g, p)
  {
    forall t | t in ReachableFrom(g, q) ensures t in ReachableFrom(g, p) { ReachesStep(g, p, q, t); }
    assert IsPath(g, [p, q]);
    assert q in ReachableFrom(g, p) && q !in ReachableFrom(g, q);
    SmallerSet(ReachableFrom(g, q), ReachableFrom(g, p));
  }

  lemma RankBelowTop(g: Registry, p: string)
    ensures Rank(g, p) < Top(g)
  {
    SmallerSet(ReachableFrom(g, p), g.files.Keys);
  }

  /** Every file that `s` continues with on the same value ranks below `r`. */
  ghost predicate Below(g: Registry, s: Schema, dir: string, r: nat)
  {
    forall t :: IsTarget(g, s, dir, t) && t in g.files ==> Rank(g, t) < r
  }

  lemma BelowTop(g: Registry, s: Schema, dir: string)
    ensures Below(g, s, dir, Top(g))
  {
    forall t | IsTarget(g, s, dir, t) && t in g.files ensures Rank(g, t) < Top(g) { RankBelowTop(g, t); }
  }

  lemma BelowTarget(g: Registry, p: string)
    requires Acyclic(g) && p in g.files
    ensures Below(g, g.files[p], g.dirOf(p), Rank(g, p))
  {
    forall t | IsTarget(g, g.files[p], g.dirOf(p), t) && t in g.files ensures Rank(g, t) < Rank(g, p) {
      RankDecreases(g, p, t);
    }
  }

  // ---- the validator -----------------------------------------------------------------------------------------------

  datatype Kind =
    | NoMatch | NotConst | NotInEnum | WrongType | TooShort | NoPattern | TooSmall | Missing | Unexpected
  datatype Problem = Problem(path: string, kind: Kind)

  /** `===` against a value that was parsed separately: arrays and objects are never identical. */
  predicate StrictlyEqual(a: Json, b: Json)
  {
    a.Scalar() && a == b
  }

  predicate Integral(n: real)
  {
    n.Floor as real == n
  }

  /** `matchesType`; `typeof null` is "object". */
  predicate MatchesType(v: Json, typeName: string)
  {
    if typeName == "array" then v.JArray?
    else if typeName == "integer" then v.JNumber? && Integral(v.n)
    else if typeName == "object" then v.JObject?
    else if typeName == "boolean" then v.JBool?
    else if typeName == "number" then v.JNumber?
    else typeName == "string" && v.JString?
  }

  function If(c: bool, path: string, kind: Kind): seq<Problem>
  {
    if c then [Problem(path, kind)] else []
  }

  /** Errors of `const` and `enum`. */
  function ValueProblems(v: Json, s: Schema, path: string): seq<Problem>
  {
    If(s.constant.Some? && !StrictlyEqual(v, s.constant.value), path, NotConst) +
    If(s.enumeration.Some? && !exists e :: e in s.enumeration.value && StrictlyEqual(v, e), path, NotInEnum)
  }

  /** Errors of the string and number keywords. */
  function ScalarProblems(g: Registry, v: Json, s: Schema, path: string): seq<Problem>
  {
    If(s.typeName == "string" && v.JString? && s.minLength.Some? && |v.s| < s.minLength.value, path, TooShort) +
    If(s.typeName == "string" && v.JString? && s.pattern.Some? && !g.matches(s.pattern.value, v.s), path, NoPattern) +
    If((s.typeName == "number" || s.typeName == "integer") && v.JNumber? && s.minimum.Some? && v.n < s.minimum.value,
      path, TooSmall)
  }

  /** Whether `new RegExp(pattern)` is reached and throws. */
  predicate BadPattern(g: Registry, v: Json, s: Schema)
  {
    s.typeName == "string" && v.JString? && s.pattern.Some? && !g.compiles(s.pattern.value)
  }

  function RequiredProblems(fields: seq<Field>, required: seq<string>, path: string): seq<Problem>
  {
    if required == [] then []
    else
      If(!HasKey(fields, required[0]), path + "." + required[0], Missing) +
      RequiredProblems(fields, required[1..], path)
  }

  /** Errors, or `None` for a throw. */
  type Outcome = Option<seq<Problem>>

  function Both(a: Outcome, b: Outcome): Outcome
  {
    if a.None? || b.None? then None else Some(a.value + b.value)
  }

  /** The errors of all parts in order; a throw of one is a throw of all. */
  function Gather(parts: seq<Outcome>): Outcome
  {
    if parts == [] then Some([]) else Both(parts[0], Gather(parts[1..]))
  }

  /** `validateNode`, for a value against a schema in a file of directory `dir`. */
  function ValidateNode(g: Registry, v: Json, s: Schema, path: string, dir: string, ghost r: nat): Outcome
    requires Acyclic(g) && Below(g, s, dir, r)
    decreases v, r, s
  {
    if s.ref != "" then
      var target := g.resolve(dir, s.ref);
      if target !in g.files then None
      else
        BelowTarget(g, target);
        ValidateNode(g, v, g.files[target], path, g.dirOf(target), Rank(g, target))
    else if s.anyOf.Branches? then
      var branches := BranchVerdicts(g, v, s, path, dir, r);
      if None in branches then None else Some(If(Some([]) !in branches, path, NoMatch))
    else
      var head := ValueProblems(v, s, path);
      if s.typeName != "" && !MatchesType(v, s.typeName) then Some(head + [Problem(path, WrongType)])
      else if BadPattern(g, v, s) then None
      else
        Both(Some(head + ScalarProblems(g, v, s, path)),
          Both(ObjectVerdict(g, v, s, path, dir, r), ArrayVerdict(g, v, s, path, dir, r)))
  }

  function BranchVerdicts(g: Registry, v: Json, s: Schema, path: string, dir: string,
      ghost r: nat): (branches: seq<Outcome>)
    requires Acyclic(g) && Below(g, s, dir, r) && s.ref == "" && s.anyOf.Branches?
    ensures |branches| == |s.anyOf.schemas|
    ensures forall i :: 0 <= i < |branches| ==> branches[i] == ValidateNode(g, v, s.anyOf.schemas[i], path, dir, r)
    decreases v, r, s, 0
  {
    seq(|s.anyOf.schemas|,
      i requires 0 <= i < |s.anyOf.schemas| => ValidateNode(g, v, s.anyOf.schemas[i], path, dir, r))
  }

  /** Required keys, undeclared fields, declared properties. */
  function ObjectVerdict(g: Registry, v: Json, s: Schema, path: string, dir: string, ghost r: nat): Outcome
    requires Acyclic(g)
    decreases v, r, s, 2
  {
    if s.typeName == "object" && s.properties.Properties? && v.JObject? then
      Both(Some(RequiredProblems(v.fields, s.required, path)),
        Both(Gather(FieldVerdicts(g, v, s, path, dir, r)), Gather(PropertyVerdicts(g, v, s, path, dir, r))))
    else Some([])
  }

  function FieldVerdicts(g: Registry, v: Json, s: Schema, path: string, dir: string,
      ghost r: nat): (parts: seq<Outcome>)
    requires Acyclic(g) && v.JObject? && s.properties.Properties?
    ensures |parts| == |v.fields| && forall i :: 0 <= i < |parts| ==> parts[i] == FieldVerdict(g, v, s, path, dir, r, i)
    decreases v, r, s, 1, 1
  {
    seq(|v.fields|, i requires 0 <= i < |v.fields| => FieldVerdict(g, v, s, path, dir, r, i))
  }

  function PropertyVerdicts(g: Registry, v: Json, s: Schema, path: string, dir: string,
      ghost r: nat): (parts: seq<Outcome>)
    requires Acyclic(g) && v.JObject? && s.properties.Properties?
    ensures |parts| == |s.properties.entries|
    ensures forall i :: 0 <= i < |parts| ==> parts[i] == PropertyVerdict(g, v, s, path, dir, r, i)
    decreases v, r, s, 1, 1
  {
    seq(|s.properties.entries|, i requires 0 <= i < |s.properties.entries| => PropertyVerdict(g, v, s, path, dir, r, i))
  }

  /** What `additionalProperties` makes of field `i`. */
  function FieldVerdict(g: Registry, v: Json, s: Schema, path: string, dir: string, ghost r: nat, i: nat): Outcome
    requires Acyclic(g) && v.JObject? && s.properties.Properties? && i < |v.fields|
    decreases v, r, s, 1, 0
  {
    var key := v.fields[i].key;
    if Declares(s.properties.entries, key) then Some([])
    else
      match s.additional
      case AnyAdditional => Some([])
      case NoAdditional => Some([Problem(path + "." + key, Unexpected)])
      case Additional(schema) =>
        BelowTop(g, schema, dir);
        ValidateNode(g, Lookup(v.fields, key), schema, path + "." + key, dir, Top(g))
  }

  /** Declared property `i`, if the value has it. */
  function PropertyVerdict(g: Registry, v: Json, s: Schema, path: string, dir: string, ghost r: nat, i: nat): Outcome
    requires Acyclic(g) && v.JObject? && s.properties.Properties? && i < |s.properties.entries|
    decreases v, r, s, 1, 0
  {
    var p := s.properties.entries[i];
    if !HasKey(v.fields, p.key) then Some([])
    else
      BelowTop(g, p.schema, dir);
      ValidateNode(g, Lookup(v.fields, p.key), p.schema, path + "." + p.key, dir, Top(g))
  }

  function ArrayVerdict(g: Registry, v: Json, s: Schema, path: string, dir: string, ghost r: nat): Outcome
    requires Acyclic(g)
    decreases v, r, s, 2
  {
    if s.typeName == "array" && s.items.Items? && v.JArray? then
      Gather(ElementVerdicts(g, v, s, path, dir, r))
    else Some([])
  }

  function ElementVerdicts(g: Registry, v: Json, s: Schema, path: string, dir: string,
      ghost r: nat): (parts: seq<Outcome>)
    requires Acyclic(g) && v.JArray? && s.items.Items?
    ensures |parts| == |v.elements|
    ensures forall i :: 0 <= i < |parts| ==> parts[i] == ElementVerdict(g, v, s, path, dir, r, i)
    decreases v, r, s, 1, 1
  {
    seq(|v.elements|, i requires 0 <= i < |v.elements| => ElementVerdict(g, v, s, path, dir, r, i))
  }

  function ElementVerdict(g: Registry, v: Json, s: Schema, path: string, dir: string, ghost r: nat, i: nat): Outcome
    requires Acyclic(g) && v.JArray? && s.items.Items? && i < |v.elements|
    decreases v, r, s, 1, 0
  {
    BelowTop(g, s.items.schema, dir);
    ValidateNode(g, v.elements[i], s.items.schema, path + "[" + Numerals.Print(i, 10) + "]", dir, Top(g))
  }

  // ---- the meaning of a schema ------------------------------------------------------------------------------------

  predicate Whole(n: real, k: int)
  {
    n == k as real
  }

  /** The standard's types (JSON Schema 2020-12 Validation, section 6.1.1): the six of the data model, and the numbers
      with no fraction. */
  ghost predicate HasType(v: Json, typeName: string)
  {
    || (typeName == "null" && v.JNull?)
    || (typeName == "boolean" && v.JBool?)
    || (typeName == "object" && v.JObject?)
    || (typeName == "array" && v.JArray?)
    || (typeName == "number" && v.JNumber?)
    || (typeName == "string" && v.JString?)
    || (typeName == "integer" && v.JNumber? && exists k :: Whole(v.n, k))
  }

  /** But for `null`, the code's types are the standard's. */
  lemma TypesAgree(v: Json, typeName: string)
    requires typeName != "null"
    ensures MatchesType(v, typeName) <==> HasType(v, typeName)
  {
    if v.JNumber? {
      IntegralExactly(v.n);
    }
  }

  lemma IntegralExactly(n: real)
    ensures Integral(n) <==> exists k :: Whole(n, k)
  {
    if k :| Whole(n, k) {
      assert n.Floor == k;
    }
    assert Integral(n) ==> Whole(n, n.Floor);
  }

  /** Equality as the standard has it: the order of an object's fields does not matter. */
  predicate SameJson(a: Json, b: Json)
    decreases a, 1
  {
    if a.JArray? && b.JArray? then
      |a.elements| == |b.elements| && forall i :: 0 <= i < |a.elements| ==> SameJson(a.elements[i], b.elements[i])
    else if a.JObject? && b.JObject? then
      && (forall i :: 0 <= i < |b.fields| ==> HasKey(a.fields, b.fields[i].key))
      && (forall i :: 0 <= i < |a.fields| ==> SameField(a, b, a.fields[i].key))
    else a == b
  }

  predicate SameField(a: Json, b: Json, key: string)
    requires a.JObject? && b.JObject? && HasKey(a.fields, key)
    decreases a, 0
  {
    HasKey(b.fields, key) && SameJson(Lookup(a.fields, key), Lookup(b.fields, key))
  }

  predicate SameAsOne(v: Json, members: seq<Json>)
  {
    exists e :: e in members && SameJson(v, e)
  }

  function Entries(p: Properties): seq<Property>
  {
    if p.Properties? then p.entries else []
  }

  /** Each keyword on its own, as JSON Schema 2020-12 reads it: an assertion about instances of one type holds
      of all others, applicators apply to every property, field or element, and a schema is the conjunction of
      its keywords (but for `anyOf` beside `$ref`, which is left out). */
  ghost predicate Satisfies(g: Registry, v: Json, s: Schema, dir: string, r: nat)
    requires Acyclic(g) && Below(g, s, dir, r)
    decreases v, r, s
  {
    && (s.ref != "" ==> SatisfiesTarget(g, v, s, dir, r))
    && (s.ref == "" && s.anyOf.Branches? ==>
          exists i :: 0 <= i < |s.anyOf.schemas| && Satisfies(g, v, s.anyOf.schemas[i], dir, r))
    && ValueOk(v, s) && ScalarOk(g, v, s) && ObjectOk(g, v, s, dir, r) && ArrayOk(g, v, s, dir, r)
  }

  ghost predicate ValueOk(v: Json, s: Schema)
  {
    && (s.constant.Some? ==> SameJson(v, s.constant.value))
    && (s.enumeration.Some? ==> SameAsOne(v, s.enumeration.value))
    && (s.typeName != "" ==> HasType(v, s.typeName))
  }

  predicate ScalarOk(g: Registry, v: Json, s: Schema)
  {
    && (v.JString? && s.minLength.Some? ==> |v.s| >= s.minLength.value)
    && (v.JString? && s.pattern.Some? ==> g.matches(s.pattern.value, v.s))
    && (v.JNumber? && s.minimum.Some? ==> v.n >= s.minimum.value)
  }

  ghost predicate ObjectOk(g: Registry, v: Json, s: Schema, dir: string, r: nat)
    requires Acyclic(g)
    decreases v, r, s, 1
  {
    v.JObject? ==>
      && (forall k :: k in s.required ==> HasKey(v.fields, k))
      && FieldsOk(g, v, s, dir, r) && PropertiesOk(g, v, s, dir, r)
  }

  ghost predicate FieldsOk(g: Registry, v: Json, s: Schema, dir: string, r: nat)
    requires Acyclic(g) && v.JObject?
    decreases v, r, s, 0, 1
  {
    forall i :: 0 <= i < |v.fields| ==> FieldOk(g, v, s, dir, r, i)
  }

  ghost predicate PropertiesOk(g: Registry, v: Json, s: Schema, dir: string, r: nat)
    requires Acyclic(g) && v.JObject?
    decreases v, r, s, 0, 1
  {
    forall i :: 0 <= i < |Entries(s.properties)| ==> PropertyOk(g, v, s, dir, r, i)
  }

  ghost predicate ArrayOk(g: Registry, v: Json, s: Schema, dir: string, r: nat)
    requires Acyclic(g)
    decreases v, r, s, 1
  {
    v.JArray? && s.items.Items? ==> forall i :: 0 <= i < |v.elements| ==> ElementOk(g, v, s, dir, r, i)
  }

  ghost predicate SatisfiesTarget(g: Registry, v: Json, s: Schema, dir: string, r: nat)
    requires Acyclic(g) && Below(g, s, dir, r) && s.ref != ""
    decreases v, r, s, 0
  {
    var target := g.resolve(dir, s.ref);
    target in g.files && (BelowTarget(g, target); Satisfies(g, v, g.files[target], g.dirOf(target), Rank(g, target)))
  }

  /** Property `i`, if the value has it, satisfies its schema. */
  ghost predicate PropertyOk(g: Registry, v: Json, s: Schema, dir: string, r: nat, i: nat)
    requires Acyclic(g) && v.JObject? && i < |Entries(s.properties)|
    decreases v, r, s, 0, 0
  {
    var p := Entries(s.properties)[i];
    HasKey(v.fields, p.key) ==>
      (BelowTop(g, p.schema, dir); Satisfies(g, Lookup(v.fields, p.key), p.schema, dir, Top(g)))
  }

  /** Field `i`, if no property declares it, is allowed by `additionalProperties`. */
  ghost predicate FieldOk(g: Registry, v: Json, s: Schema, dir: string, r: nat, i: nat)
    requires Acyclic(g) && v.JObject? && i < |v.fields|
    decreases v, r, s, 0, 0
  {
    var key := v.fields[i].key;
    Declares(Entries(s.properties), key) ||
    match s.additional
    case AnyAdditional => true
    case NoAdditional => false
    case Additional(schema) => BelowTop(g, schema, dir); Satisfies(g, Lookup(v.fields, key), schema, dir, Top(g))
  }

  ghost predicate ElementOk(g: Registry, v: Json, s: Schema, dir: string, r: nat, i: nat)
    requires Acyclic(g) && v.JArray? && s.items.Items? && i < |v.elements|
    decreases v, r, s, 0, 0
  {
    BelowTop(g, s.items.schema, dir);
    Satisfies(g, v.elements[i], s.items.schema, dir, Top(g))
  }

  // ---- the schemas on which the validator follows the standard -----------------------------------------------------

  /** No keyword but possibly `$ref` and `anyOf`. */
  predicate OnlyCombines(s: Schema)
  {
    && s.constant.None? && s.enumeration.None? && s.typeName == "" && s.minLength.None? && s.pattern.None? &&
          s.minimum.None?
    && s.required == [] && s.properties.NoProperties? && s.additional.AnyAdditional? && s.items.AnyItems?
  }

  /** The keywords about one type of value. */
  predicate HasTypedKeyword(s: Schema)
  {
    || s.minLength.Some? || s.pattern.Some? || s.minimum.Some? || s.properties.Properties? || s.required != []
    || !s.additional.AnyAdditional? || s.items.Items?
  }

  /** No `$ref` or `anyOf`; keywords about one type of value come with some `type`, and those that the code ties to
      `properties` with these; `const` and `enum` list scalars; and the type is not `null`. */
  predicate Guarded(s: Schema)
  {
    && s.ref == "" && s.anyOf.NoBranches?
    && (s.constant.Some? ==> s.constant.value.Scalar())
    && (s.enumeration.Some? ==> forall e :: e in s.enumeration.value ==> e.Scalar())
    && s.typeName != "null" && (HasTypedKeyword(s) ==> s.typeName != "")
    && (s.typeName == "object" && (s.required != [] || !s.additional.AnyAdditional?) ==> s.properties.Properties?)
  }

  /** A schema that combines others by `$ref` or `anyOf`, without siblings, or has guarded keywords; in all its
      parts. */
  predicate Supported(s: Schema)
  {
    if s.ref != "" then s.anyOf.NoBranches? && OnlyCombines(s)
    else if s.anyOf.Branches? then
      OnlyCombines(s) && forall i :: 0 <= i < |s.anyOf.schemas| ==> Supported(s.anyOf.schemas[i])
    else
      && Guarded(s)
      && (s.properties.Properties? ==>
            forall i :: 0 <= i < |s.properties.entries| ==> Supported(s.properties.entries[i].schema))
      && (s.additional.Additional? ==> Supported(s.additional.schema))
      && (s.items.Items? ==> Supported(s.items.schema))
  }

  /** Every reference leads to a file, and every pattern is a regular expression. */
  predicate Closed(g: Registry, s: Schema, dir: string)
  {
    && (s.ref != "" ==> g.resolve(dir, s.ref) in g.files)
    && (s.pattern.Some? ==> g.compiles(s.pattern.value))
    && (s.anyOf.Branches? ==> forall i :: 0 <= i < |s.anyOf.schemas| ==> Closed(g, s.anyOf.schemas[i], dir))
    && (s.properties.Properties? ==>
          forall i :: 0 <= i < |s.properties.entries| ==> Closed(g, s.properties.entries[i].schema, dir))
    && (s.additional.Additional? ==> Closed(g, s.additional.schema, dir))
    && (s.items.Items? ==> Closed(g, s.items.schema, dir))
  }

  predicate Usable(g: Registry, s: Schema, dir: string)
  {
    Supported(s) && Closed(g, s, dir)
  }

  ghost predicate AllUsable(g: Registry)
  {
    Acyclic(g) && forall p :: p in g.files ==> Usable(g, g.files[p], g.dirOf(p))
  }

  /** The verdict `o` means `ok`. */
  predicate Means(o: Outcome, ok: bool)
  {
    o.Some? && (o.value == [] <==> ok)
  }

  lemma BothMeans(a: Outcome, b: Outcome, p: bool, q: bool)
    requires Means(a, p) && Means(b, q)
    ensures Means(Both(a, b), p && q)
  {
  }

  lemma {:induction false} GatherMeans(parts: seq<Outcome>, oks: seq<bool>)
    requires |parts| == |oks| && forall i :: 0 <= i < |parts| ==> Means(parts[i], oks[i])
    ensures Means(Gather(parts), forall i :: 0 <= i < |oks| ==> oks[i])
  {
    if parts == [] {
    } else {
      GatherMeans(parts[1..], oks[1..]);
      BothMeans(parts[0], Gather(parts[1..]), oks[0], forall i :: 0 <= i < |oks[1..]| ==> oks[1..][i]);
      assert forall i :: 0 < i < |oks| ==> oks[i] == oks[1..][i - 1];
    }
  }

  /** The validator finds no errors exactly in the values that satisfy the schema. */
  lemma {:induction false} ValidatorMeansSchema(g: Registry, v: Json, s: Schema, path: string, dir: string, r: nat)
    requires AllUsable(g) && Usable(g, s, dir) && Below(g, s, dir, r)
    ensures Means(ValidateNode(g, v, s, path, dir, r), Satisfies(g, v, s, dir, r))
    decreases v, r, s
  {
    if s.ref != "" {
      var target := g.resolve(dir, s.ref);
      BelowTarget(g, target);
      ValidatorMeansSchema(g, v, g.files[target], path, g.dirOf(target), Rank(g, target));
      CombinedSatisfies(g, v, s, dir, r);
    } else if s.anyOf.Branches? {
      forall i | 0 <= i < |s.anyOf.schemas|
        ensures Means(ValidateNode(g, v, s.anyOf.schemas[i], path, dir, r), Satisfies(g, v, s.anyOf.schemas[i], dir, r))
      {
        ValidatorMeansSchema(g, v, s.anyOf.schemas[i], path, dir, r);
      }
      BranchesAgree(g, v, s, path, dir, r);
      CombinedSatisfies(g, v, s, dir, r);
    } else {
      if s.typeName == "" || MatchesType(v, s.typeName) {
        ObjectAgrees(g, v, s, path, dir, r);
        ArrayAgrees(g, v, s, path, dir, r);
      }
      KeywordsAgree(g, v, s, path, dir, r);
    }
  }

  lemma NoKeywordsOk(g: Registry, v: Json, s: Schema, dir: string, r: nat)
    requires Acyclic(g) && OnlyCombines(s)
    ensures ValueOk(v, s) && ScalarOk(g, v, s) && ObjectOk(g, v, s, dir, r) && ArrayOk(g, v, s, dir, r)
  {
    NoPropertiesOk(g, v, s, dir, r);
  }

  /** What is left of the meaning when there are no keywords beside `$ref` or `anyOf`. */
  lemma CombinedSatisfies(g: Registry, v: Json, s: Schema, dir: string, r: nat)
    requires Acyclic(g) && Below(g, s, dir, r) && OnlyCombines(s)
    ensures s.ref != "" ==> (Satisfies(g, v, s, dir, r) <==> SatisfiesTarget(g, v, s, dir, r))
    ensures s.ref == "" && s.anyOf.Branches? ==>
      (Satisfies(g, v, s, dir, r) <==>
        exists i :: 0 <= i < |s.anyOf.schemas| && Satisfies(g, v, s.anyOf.schemas[i], dir, r))
  {
    NoKeywordsOk(g, v, s, dir, r);
  }

  lemma BranchesAgree(g: Registry, v: Json, s: Schema, path: string, dir: string, r: nat)
    requires Acyclic(g) && Below(g, s, dir, r) && s.ref == "" && s.anyOf.Branches?
    requires forall i :: 0 <= i < |s.anyOf.schemas| ==>
      Means(ValidateNode(g, v, s.anyOf.schemas[i], path, dir, r), Satisfies(g, v, s.anyOf.schemas[i], dir, r))
    ensures Means(ValidateNode(g, v, s, path, dir, r),
      exists i :: 0 <= i < |s.anyOf.schemas| && Satisfies(g, v, s.anyOf.schemas[i], dir, r))
  {
    var branches := BranchVerdicts(g, v, s, path, dir, r);
    if i :| 0 <= i < |s.anyOf.schemas| && Satisfies(g, v, s.anyOf.schemas[i], dir, r) {
      assert branches[i] == Some([]);
    }
  }

  lemma {:induction false} RequiredAgree(fields: seq<Field>, required: seq<string>, path: string)
    ensures RequiredProblems(fields, required, path) == [] <==> forall k :: k in required ==> HasKey(fields, k)
  {
    if required == [] {
    } else {
      RequiredAgree(fields, required[1..], path);
      assert required == [required[0]] + required[1..];
    }
  }

  lemma {:induction false} FieldAgrees(g: Registry, v: Json, s: Schema, path: string, dir: string, r: nat, i: nat)
    requires AllUsable(g) && Usable(g, s, dir) && v.JObject? && s.properties.Properties? && i < |v.fields|
    ensures Means(FieldVerdict(g, v, s, path, dir, r, i), FieldOk(g, v, s, dir, r, i))
    decreases v, r, s, 1
  {
    var key := v.fields[i].key;
    if s.additional.Additional? && !Declares(s.properties.entries, key) {
      BelowTop(g, s.additional.schema, dir);
      ValidatorMeansSchema(g, Lookup(v.fields, key), s.additional.schema, path + "." + key, dir, Top(g));
    }
  }

  lemma {:induction false} PropertyAgrees(g: Registry, v: Json, s: Schema, path: string, dir: string, r: nat, i: nat)
    requires AllUsable(g) && Usable(g, s, dir) && v.JObject? && s.properties.Properties? && i < |s.properties.entries|
    ensures Means(PropertyVerdict(g, v, s, path, dir, r, i), PropertyOk(g, v, s, dir, r, i))
    decreases v, r, s, 1
  {
    var p := s.properties.entries[i];
    if HasKey(v.fields, p.key) {
      BelowTop(g, p.schema, dir);
      ValidatorMeansSchema(g, Lookup(v.fields, p.key), p.schema, path + "." + p.key, dir, Top(g));
    }
  }

  lemma {:induction false} ElementAgrees(g: Registry, v: Json, s: Schema, path: string, dir: string, r: nat, i: nat)
    requires AllUsable(g) && Usable(g, s, dir) && v.JArray? && s.items.Items? && i < |v.elements|
    ensures Means(ElementVerdict(g, v, s, path, dir, r, i), ElementOk(g, v, s, dir, r, i))
    decreases v, r, s, 1
  {
    BelowTop(g, s.items.schema, dir);
    ValidatorMeansSchema(g, v.elements[i], s.items.schema, path + "[" + Numerals.Print(i, 10) + "]", dir, Top(g));
  }

  lemma {:induction false} ObjectAgrees(g: Registry, v: Json, s: Schema, path: string, dir: string, r: nat)
    requires AllUsable(g) && Usable(g, s, dir) && Guarded(s) && (s.typeName != "" ==> MatchesType(v, s.typeName))
    ensures Means(ObjectVerdict(g, v, s, path, dir, r), ObjectOk(g, v, s, dir, r))
    decreases v, r, s, 2
  {
    if s.properties.Properties? && v.JObject? {
      forall i | 0 <= i < |v.fields|
        ensures Means(FieldVerdict(g, v, s, path, dir, r, i), FieldOk(g, v, s, dir, r, i))
      {
        FieldAgrees(g, v, s, path, dir, r, i);
      }
      forall i | 0 <= i < |s.properties.entries|
        ensures Means(PropertyVerdict(g, v, s, path, dir, r, i), PropertyOk(g, v, s, dir, r, i))
      {
        PropertyAgrees(g, v, s, path, dir, r, i);
      }
      FieldsAgree(g, v, s, path, dir, r);
      PropertiesAgree(g, v, s, path, dir, r);
      PartsOfObject(g, v, s, path, dir, r);
    } else {
      NoPropertiesOk(g, v, s, dir, r);
    }
  }

  lemma NoPropertiesOk(g: Registry, v: Json, s: Schema, dir: string, r: nat)
    requires Acyclic(g)
    requires v.JObject? ==> s.required == [] && s.properties.NoProperties? && s.additional.AnyAdditional?
    ensures ObjectOk(g, v, s, dir, r)
  {
    if v.JObject? {
      assert FieldsOk(g, v, s, dir, r) && PropertiesOk(g, v, s, dir, r);
    }
  }

  lemma FieldsAgree(g: Registry, v: Json, s: Schema, path: string, dir: string, r: nat)
    requires Acyclic(g) && v.JObject? && s.properties.Properties?
    requires forall i :: 0 <= i < |v.fields| ==>
      Means(FieldVerdict(g, v, s, path, dir, r, i), FieldOk(g, v, s, dir, r, i))
    ensures Means(Gather(FieldVerdicts(g, v, s, path, dir, r)), FieldsOk(g, v, s, dir, r))
  {
    var n := |v.fields|;
    GatherMeans(FieldVerdicts(g, v, s, path, dir, r), seq(n, i requires 0 <= i < n => FieldOk(g, v, s, dir, r, i)));
  }

  lemma PropertiesAgree(g: Registry, v: Json, s: Schema, path: string, dir: string, r: nat)
    requires Acyclic(g) && v.JObject? && s.properties.Properties?
    requires forall i :: 0 <= i < |s.properties.entries| ==>
      Means(PropertyVerdict(g, v, s, path, dir, r, i), PropertyOk(g, v, s, dir, r, i))
    ensures Means(Gather(PropertyVerdicts(g, v, s, path, dir, r)), PropertiesOk(g, v, s, dir, r))
  {
    var n := |s.properties.entries|;
    GatherMeans(PropertyVerdicts(g, v, s, path, dir, r),
      seq(n, i requires 0 <= i < n => PropertyOk(g, v, s, dir, r, i)));
  }

  lemma PartsOfObject(g: Registry, v: Json, s: Schema, path: string, dir: string, r: nat)
    requires Acyclic(g) && v.JObject? && s.properties.Properties? && s.typeName == "object"
    requires Means(Gather(FieldVerdicts(g, v, s, path, dir, r)), FieldsOk(g, v, s, dir, r))
    requires Means(Gather(PropertyVerdicts(g, v, s, path, dir, r)), PropertiesOk(g, v, s, dir, r))
    ensures Means(ObjectVerdict(g, v, s, path, dir, r), ObjectOk(g, v, s, dir, r))
  {
    RequiredAgree(v.fields, s.required, path);
  }

  lemma {:induction false} ArrayAgrees(g: Registry, v: Json, s: Schema, path: string, dir: string, r: nat)
    requires AllUsable(g) && Usable(g, s, dir) && Guarded(s) && (s.typeName != "" ==> MatchesType(v, s.typeName))
    ensures Means(ArrayVerdict(g, v, s, path, dir, r), ArrayOk(g, v, s, dir, r))
    decreases v, r, s, 2
  {
    if s.items.Items? && v.JArray? {
      forall i | 0 <= i < |v.elements|
        ensures Means(ElementVerdict(g, v, s, path, dir, r, i), ElementOk(g, v, s, dir, r, i))
      {
        ElementAgrees(g, v, s, path, dir, r, i);
      }
      PartsOfArray(g, v, s, path, dir, r);
    }
  }

  lemma PartsOfArray(g: Registry, v: Json, s: Schema, path: string, dir: string, r: nat)
    requires Acyclic(g) && v.JArray? && s.items.Items? && s.typeName == "array"
    requires forall i :: 0 <= i < |v.elements| ==>
      Means(ElementVerdict(g, v, s, path, dir, r, i), ElementOk(g, v, s, dir, r, i))
    ensures Means(ArrayVerdict(g, v, s, path, dir, r), ArrayOk(g, v, s, dir, r))
  {
    GatherMeans(seq(|v.elements|, i requires 0 <= i < |v.elements| => ElementVerdict(g, v, s, path, dir, r, i)),
      seq(|v.elements|, i requires 0 <= i < |v.elements| => ElementOk(g, v, s, dir, r, i)));
  }

  lemma ScalarsAgree(g: Registry, v: Json, s: Schema, path: string)
    requires Guarded(s) && (s.typeName != "" ==> MatchesType(v, s.typeName))
    ensures ValueProblems(v, s, path) + ScalarProblems(g, v, s, path) == [] <==> ValueOk(v, s) && ScalarOk(g, v, s)
  {
    if s.typeName != "" {
      TypesAgree(v, s.typeName);
    }
  }

  lemma KeywordsAgree(g: Registry, v: Json, s: Schema, path: string, dir: string, r: nat)
    requires Acyclic(g) && Guarded(s) && Below(g, s, dir, r) && (s.pattern.Some? ==> g.compiles(s.pattern.value))
    requires s.typeName == "" || MatchesType(v, s.typeName) ==>
      Means(ObjectVerdict(g, v, s, path, dir, r), ObjectOk(g, v, s, dir, r)) &&
      Means(ArrayVerdict(g, v, s, path, dir, r), ArrayOk(g, v, s, dir, r))
    ensures Means(ValidateNode(g, v, s, path, dir, r), Satisfies(g, v, s, dir, r))
  {
    if s.typeName == "" || MatchesType(v, s.typeName) { ScalarsAgree(g, v, s, path); }
  }

  /** `validate`, for the normalised path of a schema file. */
  function Validate(g: Registry, schemaPath: string, v: Json): Outcome
    requires Acyclic(g)
  {
    if schemaPath !in g.files then None
    else
      BelowTop(g, g.files[schemaPath], g.dirOf(schemaPath));
      ValidateNode(g, v, g.files[schemaPath], "$", g.dirOf(schemaPath), Top(g))
  }

  ghost predicate SatisfiesFile(g: Registry, schemaPath: string, v: Json)
    requires Acyclic(g) && schemaPath in g.files
  {
    BelowTop(g, g.files[schemaPath], g.dirOf(schemaPath));
    Satisfies(g, v, g.files[schemaPath], g.dirOf(schemaPath), Top(g))
  }

  /** For a schema set in the supported form whose reference cycles pass through sub-values: validation ends
      for every value, does not throw, and has no errors exactly when the value satisfies the schema. */
  lemma ValidateDecides(g: Registry, schemaPath: string, v: Json)
    requires AllUsable(g) && schemaPath in g.files
    ensures Means(Validate(g, schemaPath, v), SatisfiesFile(g, schemaPath, v))
  {
    BelowTop(g, g.files[schemaPath], g.dirOf(schemaPath));
    ValidatorMeansSchema(g, v, g.files[schemaPath], "$", g.dirOf(schemaPath), Top(g));
  }

  // ---- where the validator departs from the standard --------------------------------------------------------------

  const EMPTY := Schema("", NoBranches, None, None, "", None, None, None, [], NoProperties, AnyAdditional, AnyItems)

  /** `typeof null` is "object", so the type `null` rejects every value, `null` included. */
  lemma NullTypeRejectsAll(g: Registry, v: Json, path: string, dir: string, r: nat)
    requires Acyclic(g)
    ensures var s := EMPTY.(typeName := "null");
      && Below(g, s, dir, r)
      && ValidateNode(g, v, s, path, dir, r) == Some([Problem(path, WrongType)])
      && (Satisfies(g, v, s, dir, r) <==> v.JNull?)
  {
    var s := EMPTY.(typeName := "null");
    assert ValueProblems(v, s, path) == [] && !MatchesType(v, "null");
    assert [] + [Problem(path, WrongType)] == [Problem(path, WrongType)];
    NoPropertiesOk(g, v, s, dir, r);
  }

  /** With `const` and `enum` alone, their problems and their meaning are all there is. */
  lemma {:induction false} ValuesOnly(g: Registry, v: Json, s: Schema, path: string, dir: string, r: nat)
    requires Acyclic(g) && s == EMPTY.(constant := s.constant, enumeration := s.enumeration)
    ensures Below(g, s, dir, r)
    ensures ValidateNode(g, v, s, path, dir, r) == Some(ValueProblems(v, s, path))
    ensures Satisfies(g, v, s, dir, r) <==> ValueOk(v, s)
  {
    var problems := ValueProblems(v, s, path);
    assert ScalarProblems(g, v, s, path) == [] && problems + [] + ([] + []) == problems;
    NoPropertiesOk(g, v, s, dir, r);
  }

  /** A constant that is an array or an object rejects every value, the same one included. */
  lemma CompositeConstRejectsAll(g: Registry, v: Json, c: Json, path: string, dir: string, r: nat)
    requires Acyclic(g) && !c.Scalar()
    ensures var s := EMPTY.(constant := Some(c));
      && Below(g, s, dir, r)
      && ValidateNode(g, v, s, path, dir, r) == Some([Problem(path, NotConst)])
      && (Satisfies(g, v, s, dir, r) <==> SameJson(v, c))
  {
    var s := EMPTY.(constant := Some(c));
    ValuesOnly(g, v, s, path, dir, r);
    assert ValueProblems(v, s, path) == [Problem(path, NotConst)];
  }

  /** A tree: an object whose property `child` is a tree again. */
  const TREE := EMPTY.(typeName := "object", properties := Properties([Property("child", EMPTY.(ref := "tree"))]))

  lemma NoStepsNoCycles(g: Registry)
    requires forall p, q :: !StepsTo(g, p, q)
    ensures Acyclic(g)
  {
    assert forall path: seq<string> :: |path| >= 2 && !StepsTo(g, path[0], path[1]) ==> !IsPath(g, path);
  }

  /** A recursive schema is in the supported form when the cycle passes through a property, and not when a file
      refers to itself on the same value. */
  lemma RecursionAllowed(g: Registry, s: Schema)
    requires g.files == map["tree" := s] && g.resolve(g.dirOf("tree"), "tree") == "tree"
    ensures s == TREE ==> AllUsable(g)
    ensures s == EMPTY.(ref := "tree") ==> !Acyclic(g)
  {
    if s == TREE {
      TreeUsable(g);
      NoStepsNoCycles(g);
    }
    if s == EMPTY.(ref := "tree") {
      assert StepsTo(g, "tree", "tree");
      assert IsPath(g, ["tree", "tree"]);
    }
  }

  lemma TreeUsable(g: Registry)
    requires g.files == map["tree" := TREE] && g.resolve(g.dirOf("tree"), "tree") == "tree"
    ensures Usable(g, TREE, g.dirOf("tree"))
  {
    assert Closed(g, EMPTY.(ref := "tree"), g.dirOf("tree")) && Supported(EMPTY.(ref := "tree"));
  }

  /** `required` and `additionalProperties` without `properties` are not looked at. */
  lemma RequiredAloneIgnored(g: Registry, v: Json, required: seq<string>, additional: Additional, path: string,
      dir: string, r: nat)
    requires Acyclic(g) && v.JObject?
    ensures var s := EMPTY.(typeName := "object", required := required, additional := additional);
      && Below(g, s, dir, r)
      && ValidateNode(g, v, s, path, dir, r) == Some([])
      && (Satisfies(g, v, s, dir, r) <==>
            (forall k :: k in required ==> HasKey(v.fields, k)) && FieldsOk(g, v, s, dir, r))
  {
    var s := EMPTY.(typeName := "object", required := required, additional := additional);
    assert ValueProblems(v, s, path) + ScalarProblems(g, v, s, path) == [];
    assert PropertiesOk(g, v, s, dir, r);
  }

  /** Without a `type`, no keyword about one type of value is looked at. */
  lemma UntypedIgnored(g: Registry, v: Json, s: Schema, path: string, dir: string, r: nat)
    requires Acyclic(g) && s.ref == "" && s.anyOf.NoBranches? && s.constant.None? && s.enumeration.None? &&
      s.typeName == ""
    ensures Below(g, s, dir, r)
    ensures ValidateNode(g, v, s, path, dir, r) == Some([])
    ensures Satisfies(g, v, s, dir, r) <==> ScalarOk(g, v, s) && ObjectOk(g, v, s, dir, r) && ArrayOk(g, v, s, dir, r)
  {
    assert ValueProblems(v, s, path) + ScalarProblems(g, v, s, path) == [];
  }

  lemma ScalarMember(v: Json, members: seq<Json>)
    ensures (exists e :: e in members && StrictlyEqual(v, e)) <==> v.Scalar() && v in members
  {
    if v.Scalar() && v in members { assert StrictlyEqual(v, v); }
  }

  /** Of the members of `enum`, only scalars are ever matched. */
  lemma CompositeEnumUnmatched(g: Registry, v: Json, members: seq<Json>, path: string, dir: string, r: nat)
    requires Acyclic(g)
    ensures var s := EMPTY.(enumeration := Some(members));
      && Below(g, s, dir, r)
      && Means(ValidateNode(g, v, s, path, dir, r), v.Scalar() && v in members)
      && (Satisfies(g, v, s, dir, r) <==> SameAsOne(v, members))
  {
    ValuesOnly(g, v, EMPTY.(enumeration := Some(members)), path, dir, r);
    ScalarMember(v, members);
  }

  /** What stands beside `$ref` is not looked at. */
  lemma RefSiblingsIgnored(g: Registry, v: Json, s: Schema, path: string, dir: string, r: nat)
    requires Acyclic(g) && Below(g, s, dir, r) && s.ref != ""
    ensures var bare := EMPTY.(ref := s.ref);
      && Below(g, bare, dir, r)
      && ValidateNode(g, v, s, path, dir, r) == ValidateNode(g, v, bare, path, dir, r)
      && (Satisfies(g, v, s, dir, r) <==>
            Satisfies(g, v, bare, dir, r) && ValueOk(v, s) && ScalarOk(g, v, s) && ObjectOk(g, v, s, dir, r) &&
              ArrayOk(g, v, s, dir, r))
  {
    var bare := EMPTY.(ref := s.ref);
    assert forall t :: IsTarget(g, bare, dir, t) <==> IsTarget(g, s, dir, t);
    CombinedSatisfies(g, v, bare, dir, r);
  }

  /** What stands beside `anyOf` is not looked at. */
  lemma AnyOfSiblingsIgnored(g: Registry, v: Json, s: Schema, path: string, dir: string, r: nat)
    requires Acyclic(g) && Below(g, s, dir, r) && s.ref == "" && s.anyOf.Branches?
    ensures var bare := EMPTY.(anyOf := s.anyOf);
      && Below(g, bare, dir, r)
      && ValidateNode(g, v, s, path, dir, r) == ValidateNode(g, v, bare, path, dir, r)
      && (Satisfies(g, v, s, dir, r) <==>
            Satisfies(g, v, bare, dir, r) && ValueOk(v, s) && ScalarOk(g, v, s) && ObjectOk(g, v, s, dir, r) &&
              ArrayOk(g, v, s, dir, r))
  {
    var bare := EMPTY.(anyOf := s.anyOf);
    assert forall t :: IsTarget(g, bare, dir, t) <==> IsTarget(g, s, dir, t);
    CombinedSatisfies(g, v, bare, dir, r);
    SameBranches(g, v, s, bare, path, dir, r);
  }

  lemma SameBranches(g: Registry, v: Json, s: Schema, t: Schema, path: string, dir: string, r: nat)
    requires Acyclic(g) && Below(g, s, dir, r) && Below(g, t, dir, r)
    requires s.ref == t.ref == "" && s.anyOf.Branches? && t.anyOf == s.anyOf
    ensures ValidateNode(g, v, s, path, dir, r) == ValidateNode(g, v, t, path, dir, r)
  {
    assert BranchVerdicts(g, v, s, path, dir, r) == BranchVerdicts(g, v, t, path, dir, r);
  }

  // ---- where validation ends ----------------------------------------------------------------------------------------

  /** A call of `validateNode`. */
  datatype Call = Call(v: Json, s: Schema, dir: string)

  /** The calls that a call may make: all that it does make, unless one of them throws before. */
  function Calls(g: Registry, c: Call): seq<Call>
  {
    if c.s.ref != "" then
      var target := g.resolve(c.dir, c.s.ref);
      if target in g.files then [Call(c.v, g.files[target], g.dirOf(target))] else []
    else if c.s.anyOf.Branches? then
      seq(|c.s.anyOf.schemas|, i requires 0 <= i < |c.s.anyOf.schemas| => Call(c.v, c.s.anyOf.schemas[i], c.dir))
    else if c.s.typeName == "object" && c.s.properties.Properties? && c.v.JObject? then
      FieldCalls(c, 0) + PropertyCalls(c, 0)
    else if c.s.typeName == "array" && c.s.items.Items? && c.v.JArray? then
      seq(|c.v.elements|, i requires 0 <= i < |c.v.elements| => Call(c.v.elements[i], c.s.items.schema, c.dir))
    else []
  }

  function FieldCalls(c: Call, i: nat): (calls: seq<Call>)
    requires c.v.JObject? && c.s.properties.Properties? && i <= |c.v.fields|
    ensures forall d :: d in calls ==> d.v < c.v
    decreases |c.v.fields| - i
  {
    if i == |c.v.fields| then []
    else
      var key := c.v.fields[i].key;
      (if c.s.additional.Additional? && !Declares(c.s.properties.entries, key)
       then [Call(Lookup(c.v.fields, key), c.s.additional.schema, c.dir)] else []) + FieldCalls(c, i + 1)
  }

  function PropertyCalls(c: Call, i: nat): (calls: seq<Call>)
    requires c.v.JObject? && c.s.properties.Properties? && i <= |c.s.properties.entries|
    ensures forall d :: d in calls ==> d.v < c.v
    decreases |c.s.properties.entries| - i
  {
    if i == |c.s.properties.entries| then []
    else
      var p := c.s.properties.entries[i];
      (if HasKey(c.v.fields, p.key) then [Call(Lookup(c.v.fields, p.key), p.schema, c.dir)] else []) +
      PropertyCalls(c, i + 1)
  }

  /** The call, and every call that follows from it, ends, with at most `fuel` calls on top of one another. */
  ghost predicate EndsWithin(g: Registry, c: Call, fuel: nat)
    decreases fuel
  {
    fuel > 0 && forall d :: d in Calls(g, c) ==> EndsWithin(g, d, fuel - 1)
  }

  ghost predicate Ends(g: Registry, c: Call)
  {
    exists fuel: nat :: EndsWithin(g, c, fuel)
  }

  lemma {:induction false} EndsWithMore(g: Registry, c: Call, fuel: nat, more: nat)
    requires EndsWithin(g, c, fuel) && fuel <= more
    ensures EndsWithin(g, c, more)
    decreases fuel
  {
    forall d | d in Calls(g, c) ensures EndsWithin(g, d, more - 1) { EndsWithMore(g, d, fuel - 1, more - 1); }
  }

  lemma {:induction false} AllEndTogether(g: Registry, calls: seq<Call>) returns (fuel: nat)
    requires forall d :: d in calls ==> Ends(g, d)
    ensures forall d :: d in calls ==> EndsWithin(g, d, fuel)
  {
    if calls == [] {
      fuel := 0;
    } else {
      var rest := AllEndTogether(g, calls[1..]);
      assert calls[0] in calls && Ends(g, calls[0]);
      var first: nat :| EndsWithin(g, calls[0], first);
      fuel := first + rest;
      EndsWithMore(g, calls[0], first, fuel);
      forall d | d in calls[1..] ensures EndsWithin(g, d, fuel) { EndsWithMore(g, d, rest, fuel); }
      assert calls == [calls[0]] + calls[1..];
    }
  }

  /** A call is made on a smaller value, or on the same value with a lower rank, or with a part of the schema. */
  lemma {:induction false} CallsGoDown(g: Registry, c: Call, d: Call, r: nat) returns (r': nat)
    requires Acyclic(g) && Below(g, c.s, c.dir, r) && d in Calls(g, c)
    ensures Below(g, d.s, d.dir, r')
    ensures d.v < c.v || (d.v == c.v && (r' < r || (r' == r && d.s < c.s)))
  {
    BelowTop(g, d.s, d.dir);
    r' := Top(g);
    if c.s.ref != "" {
      var target := g.resolve(c.dir, c.s.ref);
      BelowTarget(g, target);
      r' := Rank(g, target);
    } else if c.s.anyOf.Branches? {
      var i :| 0 <= i < |c.s.anyOf.schemas| && d == Call(c.v, c.s.anyOf.schemas[i], c.dir);
      assert forall t :: IsTarget(g, d.s, d.dir, t) ==> IsTarget(g, c.s, c.dir, t);
      r' := r;
    }
  }

  /** Validation ends when every reference cycle passes through a sub-value. */
  lemma {:induction false} AcyclicEnds(g: Registry, c: Call, r: nat)
    requires Acyclic(g) && Below(g, c.s, c.dir, r)
    ensures Ends(g, c)
    decreases c.v, r, c.s
  {
    forall d | d in Calls(g, c) ensures Ends(g, d) {
      var r' := CallsGoDown(g, c, d, r);
      AcyclicEnds(g, d, r');
    }
    var fuel := AllEndTogether(g, Calls(g, c));
    assert EndsWithin(g, c, fuel + 1);
  }

  function FileCall(g: Registry, p: string, v: Json): Call
    requires p in g.files
  {
    Call(v, g.files[p], g.dirOf(p))
  }

  /** A reference that stays on the same value is followed, whatever the value. */
  lemma {:induction false} TargetEnds(g: Registry, c: Call, target: string, fuel: nat)
    requires EndsWithin(g, c, fuel) && IsTarget(g, c.s, c.dir, target) && target in g.files
    ensures fuel > 0 && EndsWithin(g, FileCall(g, target, c.v), fuel - 1)
    decreases fuel
  {
    if c.s.ref != "" {
      assert FileCall(g, target, c.v) in Calls(g, c);
    } else {
      var i :| 0 <= i < |c.s.anyOf.schemas| && IsTarget(g, c.s.anyOf.schemas[i], c.dir, target);
      var d := Call(c.v, c.s.anyOf.schemas[i], c.dir);
      assert Calls(g, c)[i] == d;
      assert d in Calls(g, c);
      TargetEnds(g, d, target, fuel - 1);
      EndsWithMore(g, FileCall(g, target, c.v), fuel - 2, fuel - 1);
    }
  }

  lemma OnPath(g: Registry, path: seq<string>, k: nat)
    requires IsPath(g, path) && k < |path|
    ensures path[k] in g.files
  {
    assert if k > 0 then StepsTo(g, path[k - 1], path[k]) else StepsTo(g, path[0], path[1]);
  }

  lemma {:induction false} PathEnds(g: Registry, v: Json, path: seq<string>, k: nat, fuel: nat)
    requires IsPath(g, path) && k < |path| && path[0] in g.files && path[k] in g.files
    requires EndsWithin(g, FileCall(g, path[0], v), fuel)
    ensures fuel >= k && EndsWithin(g, FileCall(g, path[k], v), fuel - k)
  {
    if k == 0 {
    } else {
      OnPath(g, path, k - 1);
      PathEnds(g, v, path, k - 1, fuel);
      assert StepsTo(g, path[k - 1], path[k]);
      TargetEnds(g, FileCall(g, path[k - 1], v), path[k], fuel - (k - 1));
    }
  }

  /** On a cycle of references that stay on the same value, no value's validation ever ends. */
  lemma {:induction false} CycleNeverEnds(g: Registry, v: Json, path: seq<string>, fuel: nat)
    requires IsPath(g, path) && path[0] == path[|path| - 1] && path[0] in g.files
    ensures !EndsWithin(g, FileCall(g, path[0], v), fuel)
    decreases fuel
  {
    if EndsWithin(g, FileCall(g, path[0], v), fuel) {
      PathEnds(g, v, path, |path| - 1, fuel);
      CycleNeverEnds(g, v, path, fuel - (|path| - 1));
    }
  }

  /** The condition is exact: validation ends for every value and every schema file if and only if every reference
      cycle passes through a sub-value. On any other cycle it ends for no value. */
  lemma {:induction false} EndsExactly(g: Registry)
    ensures Acyclic(g) <==> forall p, v :: p in g.files ==> Ends(g, FileCall(g, p, v))
    ensures forall p, v :: p in g.files && Reaches(g, p, p) ==> !Ends(g, FileCall(g, p, v))
  {
    forall p, v | p in g.files && Reaches(g, p, p) ensures !Ends(g, FileCall(g, p, v)) {
      var path :| IsPath(g, path) && path[0] == p && path[|path| - 1] == p;
      forall fuel: nat ensures !EndsWithin(g, FileCall(g, p, v), fuel) { CycleNeverEnds(g, v, path, fuel); }
    }
    if Acyclic(g) {
      forall p, v | p in g.files ensures Ends(g, FileCall(g, p, v)) {
        BelowTop(g, g.files[p], g.dirOf(p));
        AcyclicEnds(g, FileCall(g, p, v), Top(g));
      }
    } else {
      var path :| IsPath(g, path) && path[0] == path[|path| - 1];
      OnPath(g, path, 0);
      assert Reaches(g, path[0], path[0]) && !Ends(g, FileCall(g, path[0], JNull));
    }
  }

  // ---- what the errors name ----------------------------------------------------------------------------------------

  /** The measure of the recursion makes no difference to the verdict. */
  lemma {:induction false} MeasureIrrelevant(g: Registry, v: Json, s: Schema, path: string, dir: string, r: nat,
      r': nat)
    requires Acyclic(g) && Below(g, s, dir, r) && Below(g, s, dir, r')
    ensures ValidateNode(g, v, s, path, dir, r) == ValidateNode(g, v, s, path, dir, r')
    decreases s
  {
    if s.ref == "" && s.anyOf.Branches? {
      forall i | 0 <= i < |s.anyOf.schemas|
        ensures ValidateNode(g, v, s.anyOf.schemas[i], path, dir, r) ==
          ValidateNode(g, v, s.anyOf.schemas[i], path, dir, r')
      {
        MeasureIrrelevant(g, v, s.anyOf.schemas[i], path, dir, r, r');
      }
      SameBranchesMeasured(g, v, s, path, dir, r, r');
    } else if s.ref == "" {
      SamePartsMeasured(g, v, s, path, dir, r, r');
    }
  }

  lemma {:induction false} SameBranchesMeasured(g: Registry, v: Json, s: Schema, path: string, dir: string, r: nat,
      r': nat)
    requires Acyclic(g) && Below(g, s, dir, r) && Below(g, s, dir, r') && s.ref == "" && s.anyOf.Branches?
    requires forall i :: 0 <= i < |s.anyOf.schemas| ==>
      ValidateNode(g, v, s.anyOf.schemas[i], path, dir, r) == ValidateNode(g, v, s.anyOf.schemas[i], path, dir, r')
    ensures ValidateNode(g, v, s, path, dir, r) == ValidateNode(g, v, s, path, dir, r')
  {
    assert BranchVerdicts(g, v, s, path, dir, r) == BranchVerdicts(g, v, s, path, dir, r');
  }

  lemma {:induction false} SamePartsMeasured(g: Registry, v: Json, s: Schema, path: string, dir: string, r: nat,
      r': nat)
    requires Acyclic(g) && Below(g, s, dir, r) && Below(g, s, dir, r') && s.ref == "" && s.anyOf.NoBranches?
    ensures ValidateNode(g, v, s, path, dir, r) == ValidateNode(g, v, s, path, dir, r')
  {
    SamePartsOfObject(g, v, s, path, dir, r, r');
    SamePartsOfArray(g, v, s, path, dir, r, r');
  }

  lemma SamePartsOfObject(g: Registry, v: Json, s: Schema, path: string, dir: string, r: nat, r': nat)
    requires Acyclic(g)
    ensures ObjectVerdict(g, v, s, path, dir, r) == ObjectVerdict(g, v, s, path, dir, r')
  {
    if v.JObject? && s.properties.Properties? {
      assert FieldVerdicts(g, v, s, path, dir, r) == FieldVerdicts(g, v, s, path, dir, r');
      assert PropertyVerdicts(g, v, s, path, dir, r) == PropertyVerdicts(g, v, s, path, dir, r');
    }
  }

  lemma SamePartsOfArray(g: Registry, v: Json, s: Schema, path: string, dir: string, r: nat, r': nat)
    requires Acyclic(g)
    ensures ArrayVerdict(g, v, s, path, dir, r) == ArrayVerdict(g, v, s, path, dir, r')
  {
    if v.JArray? && s.items.Items? {
      assert ElementVerdicts(g, v, s, path, dir, r) == ElementVerdicts(g, v, s, path, dir, r');
    }
  }

  function Verdict(g: Registry, c: Call, path: string): Outcome
    requires Acyclic(g)
  {
    BelowTop(g, c.s, c.dir);
    ValidateNode(g, c.v, c.s, path, c.dir, Top(g))
  }

  /** A way through a value: staying on it, as a reference does, or going into a field or an element. */
  datatype Turn = Stay | Into(key: string) | At(index: nat)

  function Named(path: string, turn: Turn): string
  {
    match turn
    case Stay => path
    case Into(key) => path + "." + key
    case At(index) => path + "[" + Numerals.Print(index, 10) + "]"
  }

  function PathTo(path: string, turns: seq<Turn>): string
    decreases |turns|
  {
    if turns == [] then path else PathTo(Named(path, turns[0]), turns[1..])
  }

  /** Schema and value are those of an object whose fields get looked at. */
  predicate LooksInto(c: Call)
  {
    c.s.ref == "" && c.s.anyOf.NoBranches? && c.s.typeName == "object" && c.s.properties.Properties? && c.v.JObject?
  }

  /** With this turn, validation goes on from one schema for a value to the next. */
  predicate GoesTo(g: Registry, c: Call, turn: Turn, d: Call)
  {
    match turn
    case Stay =>
      var target := g.resolve(c.dir, c.s.ref);
      c.s.ref != "" && target in g.files && d == Call(c.v, g.files[target], g.dirOf(target))
    case Into(key) =>
      && LooksInto(c) && HasKey(c.v.fields, key) && d.v == Lookup(c.v.fields, key) && d.dir == c.dir
      && (if Declares(c.s.properties.entries, key) then Property(key, d.s) in c.s.properties.entries
          else c.s.additional == Additional(d.s))
    case At(index) =>
      && c.s.ref == "" && c.s.anyOf.NoBranches? && c.s.typeName == "array" && c.v.JArray? && c.s.items == Items(d.s)
      && index < |c.v.elements| && d.v == c.v.elements[index] && d.dir == c.dir
  }

  ghost predicate IsWay(g: Registry, c: Call, turns: seq<Turn>, d: Call)
    decreases |turns|
  {
    if turns == [] then d == c
    else exists m :: GoesTo(g, c, turns[0], m) && IsWay(g, m, turns[1..], d)
  }

  /** The problem is one that the value itself has with a keyword of the schema itself. */
  predicate OwnKeyword(g: Registry, c: Call, path: string, p: Problem)
    requires c.s.ref == "" && c.s.anyOf.NoBranches?
  {
    var s, v := c.s, c.v;
    match p.kind
    case NoMatch => false
    case NotConst => p.path == path && s.constant.Some? && !StrictlyEqual(v, s.constant.value)
    case NotInEnum =>
      p.path == path && s.enumeration.Some? && forall e :: e in s.enumeration.value ==> !StrictlyEqual(v, e)
    case WrongType => p.path == path && s.typeName != "" && !MatchesType(v, s.typeName)
    case TooShort =>
      && p.path == path && s.typeName == "string" && v.JString?
      && s.minLength.Some? && |v.s| < s.minLength.value
    case NoPattern =>
      && p.path == path && s.typeName == "string" && v.JString?
      && s.pattern.Some? && !g.matches(s.pattern.value, v.s)
    case TooSmall =>
      && p.path == path && s.typeName in {"number", "integer"} && MatchesType(v, s.typeName)
      && s.minimum.Some? && v.n < s.minimum.value
    case Missing =>
      LooksInto(c) && exists k :: k in s.required && !HasKey(v.fields, k) && p.path == Named(path, Into(k))
    case Unexpected =>
      && LooksInto(c) && s.additional.NoAdditional?
      && exists f :: f in v.fields && !Declares(s.properties.entries, f.key) && p.path == Named(path, Into(f.key))
  }

  /** It is one of those, or that no branch of `anyOf` accepts the value. */
  predicate Own(g: Registry, c: Call, path: string, p: Problem)
    requires Acyclic(g)
  {
    c.s.ref == "" &&
    if c.s.anyOf.NoBranches? then OwnKeyword(g, c, path, p)
    else
      && p == Problem(path, NoMatch)
      && forall i :: 0 <= i < |c.s.anyOf.schemas| ==>
        Verdict(g, Call(c.v, c.s.anyOf.schemas[i], c.dir), path) != Some([])
  }

  /** The problem is reported for the value at this path. */
  predicate ReportedAt(g: Registry, d: Call, path: string, p: Problem)
    requires Acyclic(g)
  {
    Verdict(g, d, path).Some? && p in Verdict(g, d, path).value
  }

  /** The problem is one of a part that validation goes into. */
  ghost predicate Nested(g: Registry, c: Call, path: string, p: Problem)
    requires Acyclic(g)
  {
    exists turn, d :: GoesTo(g, c, turn, d) && ReportedAt(g, d, Named(path, turn), p)
  }

  lemma {:induction false} GatherMembers(parts: seq<Outcome>, p: Problem)
    requires Gather(parts).Some?
    ensures forall i :: 0 <= i < |parts| ==> parts[i].Some?
    ensures p in Gather(parts).value <==> exists i :: 0 <= i < |parts| && p in parts[i].value
  {
    if parts == [] {
    } else {
      GatherMembers(parts[1..], p);
      assert parts == [parts[0]] + parts[1..];
      assert forall i :: 0 <= i < |parts| - 1 ==> parts[1..][i] == parts[i + 1];
    }
  }

  lemma {:induction false} RequiredMembers(fields: seq<Field>, required: seq<string>, path: string, p: Problem)
    ensures p in RequiredProblems(fields, required, path) <==>
      p.kind.Missing? && exists k :: k in required && !HasKey(fields, k) && p.path == Named(path, Into(k))
  {
    if required == [] {
    } else {
      RequiredMembers(fields, required[1..], path, p);
      assert required == [required[0]] + required[1..];
    }
  }

  lemma {:induction false} FieldMembers(g: Registry, c: Call, path: string, p: Problem, i: nat)
    requires Acyclic(g) && LooksInto(c) && i < |c.v.fields|
    requires FieldVerdict(g, c.v, c.s, path, c.dir, Top(g), i).Some?
    ensures var key := c.v.fields[i].key;
      p in FieldVerdict(g, c.v, c.s, path, c.dir, Top(g), i).value <==>
        !Declares(c.s.properties.entries, key) &&
          ((c.s.additional.NoAdditional? && p == Problem(Named(path, Into(key)), Unexpected)) ||
           (c.s.additional.Additional? &&
              ReportedAt(g, Call(Lookup(c.v.fields, key), c.s.additional.schema, c.dir), Named(path, Into(key)), p)))
  {
  }

  lemma {:induction false} FieldsMembers(g: Registry, c: Call, path: string, p: Problem)
    requires Acyclic(g) && LooksInto(c)
    requires Gather(FieldVerdicts(g, c.v, c.s, path, c.dir, Top(g))).Some?
    ensures p in Gather(FieldVerdicts(g, c.v, c.s, path, c.dir, Top(g))).value <==>
      (p.kind.Unexpected? && OwnKeyword(g, c, path, p)) ||
      exists i :: 0 <= i < |c.v.fields| && NestedField(g, c, path, p, i)
  {
    var parts := FieldVerdicts(g, c.v, c.s, path, c.dir, Top(g));
    GatherMembers(parts, p);
    forall i | 0 <= i < |c.v.fields|
      ensures p in parts[i].value <==> UnexpectedField(c, path, p, i) || NestedField(g, c, path, p, i)
    {
      FieldMembers(g, c, path, p, i);
    }
    if p.kind.Unexpected? && OwnKeyword(g, c, path, p) {
      var f :| f in c.v.fields && !Declares(c.s.properties.entries, f.key) && p.path == Named(path, Into(f.key));
      var i :| 0 <= i < |c.v.fields| && c.v.fields[i] == f;
      assert UnexpectedField(c, path, p, i);
    }
    if i :| 0 <= i < |c.v.fields| && UnexpectedField(c, path, p, i) {
      assert c.v.fields[i] in c.v.fields;
    }
  }

  predicate UnexpectedField(c: Call, path: string, p: Problem, i: nat)
    requires LooksInto(c) && i < |c.v.fields|
  {
    var key := c.v.fields[i].key;
    !Declares(c.s.properties.entries, key) && c.s.additional.NoAdditional? &&
    p == Problem(Named(path, Into(key)), Unexpected)
  }

  /** The problem is one of undeclared field `i`. */
  predicate NestedField(g: Registry, c: Call, path: string, p: Problem, i: nat)
    requires Acyclic(g) && LooksInto(c) && i < |c.v.fields|
  {
    var key := c.v.fields[i].key;
    !Declares(c.s.properties.entries, key) && c.s.additional.Additional? &&
    ReportedAt(g, Call(Lookup(c.v.fields, key), c.s.additional.schema, c.dir), Named(path, Into(key)), p)
  }

  /** The problem is one of declared property `i`. */
  predicate NestedProperty(g: Registry, c: Call, path: string, p: Problem, i: nat)
    requires Acyclic(g) && LooksInto(c) && i < |c.s.properties.entries|
  {
    var e := c.s.properties.entries[i];
    HasKey(c.v.fields, e.key) &&
    ReportedAt(g, Call(Lookup(c.v.fields, e.key), e.schema, c.dir), Named(path, Into(e.key)), p)
  }

  lemma {:induction false} PropertiesMembers(g: Registry, c: Call, path: string, p: Problem)
    requires Acyclic(g) && LooksInto(c)
    requires Gather(PropertyVerdicts(g, c.v, c.s, path, c.dir, Top(g))).Some?
    ensures p in Gather(PropertyVerdicts(g, c.v, c.s, path, c.dir, Top(g))).value <==>
      exists i :: 0 <= i < |c.s.properties.entries| && NestedProperty(g, c, path, p, i)
  {
    var parts := PropertyVerdicts(g, c.v, c.s, path, c.dir, Top(g));
    GatherMembers(parts, p);
    forall i | 0 <= i < |parts| ensures p in parts[i].value <==> NestedProperty(g, c, path, p, i) {
      PropertyMembers(g, c, path, p, i);
    }
  }

  lemma {:induction false} PropertyMembers(g: Registry, c: Call, path: string, p: Problem, i: nat)
    requires Acyclic(g) && LooksInto(c) && i < |c.s.properties.entries|
    requires PropertyVerdict(g, c.v, c.s, path, c.dir, Top(g), i).Some?
    ensures p in PropertyVerdict(g, c.v, c.s, path, c.dir, Top(g), i).value <==> NestedProperty(g, c, path, p, i)
  {
  }

  lemma {:induction false} NestedInto(g: Registry, c: Call, path: string, p: Problem, key: string, d: Call)
    requires Acyclic(g) && LooksInto(c) && GoesTo(g, c, Into(key), d) && ReportedAt(g, d, Named(path, Into(key)), p)
    ensures
      || (exists i :: 0 <= i < |c.v.fields| && NestedField(g, c, path, p, i))
      || (exists i :: 0 <= i < |c.s.properties.entries| && NestedProperty(g, c, path, p, i))
  {
    if Declares(c.s.properties.entries, key) {
      var i :| 0 <= i < |c.s.properties.entries| && c.s.properties.entries[i] == Property(key, d.s);
      assert NestedProperty(g, c, path, p, i);
    } else {
      var i :| 0 <= i < |c.v.fields| && c.v.fields[i].key == key;
      assert NestedField(g, c, path, p, i);
    }
  }

  lemma {:induction false} FieldNested(g: Registry, c: Call, path: string, p: Problem, i: nat)
    requires Acyclic(g) && LooksInto(c) && i < |c.v.fields| && NestedField(g, c, path, p, i)
    ensures Nested(g, c, path, p)
  {
    var key := c.v.fields[i].key;
    var d := Call(Lookup(c.v.fields, key), c.s.additional.schema, c.dir);
    assert GoesTo(g, c, Into(key), d) && ReportedAt(g, d, Named(path, Into(key)), p);
  }

  lemma {:induction false} PropertyNested(g: Registry, c: Call, path: string, p: Problem, i: nat)
    requires Acyclic(g) && LooksInto(c) && i < |c.s.properties.entries| && NestedProperty(g, c, path, p, i)
    ensures Nested(g, c, path, p)
  {
    var e := c.s.properties.entries[i];
    var d := Call(Lookup(c.v.fields, e.key), e.schema, c.dir);
    assert e == Property(e.key, d.s);
    assert GoesTo(g, c, Into(e.key), d) && ReportedAt(g, d, Named(path, Into(e.key)), p);
  }

  /** The errors of an object: missing and unexpected keys of its own, and those of the fields that are looked at. */
  lemma {:induction false} ObjectMembers(g: Registry, c: Call, path: string, p: Problem)
    requires Acyclic(g) && LooksInto(c) && ObjectVerdict(g, c.v, c.s, path, c.dir, Top(g)).Some?
    ensures p in ObjectVerdict(g, c.v, c.s, path, c.dir, Top(g)).value <==>
      ((p.kind.Missing? || p.kind.Unexpected?) && OwnKeyword(g, c, path, p)) || Nested(g, c, path, p)
  {
    RequiredMembers(c.v.fields, c.s.required, path, p);
    FieldsMembers(g, c, path, p);
    PropertiesMembers(g, c, path, p);
    if i :| 0 <= i < |c.v.fields| && NestedField(g, c, path, p, i) {
      FieldNested(g, c, path, p, i);
    }
    if i :| 0 <= i < |c.s.properties.entries| && NestedProperty(g, c, path, p, i) {
      PropertyNested(g, c, path, p, i);
    }
    if Nested(g, c, path, p) {
      var turn, d :| GoesTo(g, c, turn, d) && ReportedAt(g, d, Named(path, turn), p);
      NestedInto(g, c, path, p, turn.key, d);
    }
  }

  predicate NestedElement(g: Registry, c: Call, path: string, p: Problem, i: nat)
    requires Acyclic(g) && c.v.JArray? && c.s.items.Items? && i < |c.v.elements|
  {
    ReportedAt(g, Call(c.v.elements[i], c.s.items.schema, c.dir), Named(path, At(i)), p)
  }

  predicate LooksAtElements(c: Call)
  {
    c.s.ref == "" && c.s.anyOf.NoBranches? && c.s.typeName == "array" && c.s.items.Items? && c.v.JArray?
  }

  lemma {:induction false} ElementsMembers(g: Registry, c: Call, path: string, p: Problem)
    requires Acyclic(g) && LooksAtElements(c) && Gather(ElementVerdicts(g, c.v, c.s, path, c.dir, Top(g))).Some?
    ensures p in Gather(ElementVerdicts(g, c.v, c.s, path, c.dir, Top(g))).value <==>
      exists i :: 0 <= i < |c.v.elements| && NestedElement(g, c, path, p, i)
  {
    var parts := ElementVerdicts(g, c.v, c.s, path, c.dir, Top(g));
    GatherMembers(parts, p);
    assert forall i :: 0 <= i < |parts| ==> (p in parts[i].value <==> NestedElement(g, c, path, p, i));
  }

  lemma {:induction false} ElementsNested(g: Registry, c: Call, path: string, p: Problem)
    requires Acyclic(g) && LooksAtElements(c)
    ensures Nested(g, c, path, p) <==> exists i :: 0 <= i < |c.v.elements| && NestedElement(g, c, path, p, i)
  {
    if i :| 0 <= i < |c.v.elements| && NestedElement(g, c, path, p, i) {
      var d := Call(c.v.elements[i], c.s.items.schema, c.dir);
      assert GoesTo(g, c, At(i), d) && ReportedAt(g, d, Named(path, At(i)), p);
    }
    if Nested(g, c, path, p) {
      var turn, d :| GoesTo(g, c, turn, d) && ReportedAt(g, d, Named(path, turn), p);
      assert NestedElement(g, c, path, p, turn.index);
    }
  }

  lemma {:induction false} ArrayMembers(g: Registry, c: Call, path: string, p: Problem)
    requires Acyclic(g) && c.s.ref == "" && c.s.anyOf.NoBranches? && !LooksInto(c)
    requires ArrayVerdict(g, c.v, c.s, path, c.dir, Top(g)).Some?
    ensures p in ArrayVerdict(g, c.v, c.s, path, c.dir, Top(g)).value <==> Nested(g, c, path, p)
  {
    if LooksAtElements(c) {
      ElementsMembers(g, c, path, p);
      ElementsNested(g, c, path, p);
    } else {
      assert !Nested(g, c, path, p);
    }
  }

  lemma {:induction false} ValueMembers(g: Registry, c: Call, path: string, p: Problem)
    requires c.s.ref == "" && c.s.anyOf.NoBranches?
    ensures p in ValueProblems(c.v, c.s, path) <==>
      (p.kind.NotConst? || p.kind.NotInEnum?) && OwnKeyword(g, c, path, p)
  {
    var s := c.s;
    IfMembers(s.constant.Some? && !StrictlyEqual(c.v, s.constant.value), path, NotConst, p);
    IfMembers(s.enumeration.Some? && !exists e :: e in s.enumeration.value && StrictlyEqual(c.v, e), path, NotInEnum,
      p);
  }

  lemma IfMembers(b: bool, path: string, kind: Kind, p: Problem)
    ensures p in If(b, path, kind) <==> b && p == Problem(path, kind)
  {
  }

  lemma {:induction false} ScalarMembers(g: Registry, c: Call, path: string, p: Problem)
    requires c.s.ref == "" && c.s.anyOf.NoBranches? && (c.s.typeName == "" || MatchesType(c.v, c.s.typeName))
    ensures p in ScalarProblems(g, c.v, c.s, path) <==>
      (p.kind.TooShort? || p.kind.NoPattern? || p.kind.TooSmall?) && OwnKeyword(g, c, path, p)
  {
    assert p == Problem(p.path, p.kind);
  }

  /** What is reported for a value is its own problems and those of the parts that validation goes into. */
  lemma {:induction false} OwnOrNested(g: Registry, c: Call, path: string, p: Problem)
    requires Acyclic(g) && Verdict(g, c, path).Some?
    ensures ReportedAt(g, c, path, p) <==> Own(g, c, path, p) || Nested(g, c, path, p)
  {
    if c.s.ref != "" {
      var d := TargetOf(g, c, path);
      if Nested(g, c, path, p) {
        var turn, m :| GoesTo(g, c, turn, m) && ReportedAt(g, m, Named(path, turn), p);
        assert turn == Stay && m == d;
      }
      assert ReportedAt(g, d, Named(path, Stay), p) ==> Nested(g, c, path, p);
    } else if c.s.anyOf.Branches? {
      BranchesOwn(g, c, path, p);
      assert !Nested(g, c, path, p);
    } else {
      BelowTop(g, c.s, c.dir);
      PlainOwnOrNested(g, c, path, p);
    }
  }

  lemma {:induction false} TargetOf(g: Registry, c: Call, path: string) returns (d: Call)
    requires Acyclic(g) && c.s.ref != "" && Verdict(g, c, path).Some?
    ensures GoesTo(g, c, Stay, d) && Verdict(g, c, path) == Verdict(g, d, path)
    ensures IsTarget(g, c.s, c.dir, g.resolve(c.dir, c.s.ref)) && g.resolve(c.dir, c.s.ref) in g.files
  {
    var target := g.resolve(c.dir, c.s.ref);
    d := Call(c.v, g.files[target], g.dirOf(target));
    BelowTarget(g, target);
    BelowTop(g, d.s, d.dir);
    BelowTop(g, c.s, c.dir);
    MeasureIrrelevant(g, d.v, d.s, path, d.dir, Rank(g, target), Top(g));
  }

  lemma {:induction false} BranchesOwn(g: Registry, c: Call, path: string, p: Problem)
    requires Acyclic(g) && Verdict(g, c, path).Some? && c.s.ref == "" && c.s.anyOf.Branches?
    ensures ReportedAt(g, c, path, p) <==> Own(g, c, path, p)
  {
    BelowTop(g, c.s, c.dir);
    var branches := BranchVerdicts(g, c.v, c.s, path, c.dir, Top(g));
    assert forall i :: 0 <= i < |branches| ==>
      branches[i] == Verdict(g, Call(c.v, c.s.anyOf.schemas[i], c.dir), path);
  }

  predicate Mismatch(c: Call)
  {
    c.s.typeName != "" && !MatchesType(c.v, c.s.typeName)
  }

  /** Where the errors of a schema that neither refers nor branches come from. */
  lemma {:induction false} PlainMembers(g: Registry, c: Call, path: string, p: Problem)
    requires Acyclic(g) && Below(g, c.s, c.dir, Top(g)) && c.s.ref == "" && c.s.anyOf.NoBranches?
    requires ValidateNode(g, c.v, c.s, path, c.dir, Top(g)).Some?
    ensures !Mismatch(c) ==>
      && ObjectVerdict(g, c.v, c.s, path, c.dir, Top(g)).Some?
      && ArrayVerdict(g, c.v, c.s, path, c.dir, Top(g)).Some?
    ensures p in ValidateNode(g, c.v, c.s, path, c.dir, Top(g)).value <==>
      p in ValueProblems(c.v, c.s, path) ||
      if Mismatch(c) then p == Problem(path, WrongType)
      else
        || p in ScalarProblems(g, c.v, c.s, path)
        || p in ObjectVerdict(g, c.v, c.s, path, c.dir, Top(g)).value
        || p in ArrayVerdict(g, c.v, c.s, path, c.dir, Top(g)).value
  {
  }

  lemma {:induction false} PlainOwnOrNested(g: Registry, c: Call, path: string, p: Problem)
    requires Acyclic(g) && Below(g, c.s, c.dir, Top(g)) && c.s.ref == "" && c.s.anyOf.NoBranches?
    requires ValidateNode(g, c.v, c.s, path, c.dir, Top(g)).Some?
    ensures p in ValidateNode(g, c.v, c.s, path, c.dir, Top(g)).value <==>
      OwnKeyword(g, c, path, p) || Nested(g, c, path, p)
  {
    PlainMembers(g, c, path, p);
    ValueMembers(g, c, path, p);
    if Mismatch(c) {
      assert !LooksInto(c) && !Nested(g, c, path, p);
      MismatchOwn(g, c, path, p);
    } else {
      ScalarMembers(g, c, path, p);
      if LooksInto(c) {
        ObjectMembers(g, c, path, p);
      } else {
        ArrayMembers(g, c, path, p);
      }
    }
  }

  lemma MismatchOwn(g: Registry, c: Call, path: string, p: Problem)
    requires c.s.ref == "" && c.s.anyOf.NoBranches? && Mismatch(c)
    ensures OwnKeyword(g, c, path, p) <==>
      p == Problem(path, WrongType) || ((p.kind.NotConst? || p.kind.NotInEnum?) && OwnKeyword(g, c, path, p))
  {
  }

  /** When a verdict is no throw, neither is that of any part that validation goes into. */
  lemma {:induction false} PartIsSome(g: Registry, c: Call, path: string, turn: Turn, d: Call)
    requires Acyclic(g) && Verdict(g, c, path).Some? && GoesTo(g, c, turn, d)
    ensures Verdict(g, d, Named(path, turn)).Some?
  {
    match turn
    case Stay => var target := TargetOf(g, c, path);
    case Into(key) => FieldIsSome(g, c, path, key, d);
    case At(index) => ElementIsSome(g, c, path, index, d);
  }

  lemma {:induction false} PartsAreSome(g: Registry, c: Call, path: string)
    requires Acyclic(g) && Verdict(g, c, path).Some? && c.s.ref == "" && c.s.anyOf.NoBranches?
    requires c.s.typeName == "" || MatchesType(c.v, c.s.typeName)
    ensures ObjectVerdict(g, c.v, c.s, path, c.dir, Top(g)).Some?
    ensures ArrayVerdict(g, c.v, c.s, path, c.dir, Top(g)).Some?
  {
    BelowTop(g, c.s, c.dir);
    assert ValidateNode(g, c.v, c.s, path, c.dir, Top(g)).Some?;
  }

  lemma {:induction false} FieldIsSome(g: Registry, c: Call, path: string, key: string, d: Call)
    requires Acyclic(g) && Verdict(g, c, path).Some? && GoesTo(g, c, Into(key), d)
    ensures Verdict(g, d, Named(path, Into(key))).Some?
  {
    PartsAreSome(g, c, path);
    if Declares(c.s.properties.entries, key) {
      var parts := PropertyVerdicts(g, c.v, c.s, path, c.dir, Top(g));
      GatherMembers(parts, Problem(path, NoMatch));
      var i :| 0 <= i < |c.s.properties.entries| && c.s.properties.entries[i] == Property(key, d.s);
      assert parts[i] == Verdict(g, d, Named(path, Into(key)));
    } else {
      var parts := FieldVerdicts(g, c.v, c.s, path, c.dir, Top(g));
      GatherMembers(parts, Problem(path, NoMatch));
      var i :| 0 <= i < |c.v.fields| && c.v.fields[i].key == key;
      assert parts[i] == Verdict(g, d, Named(path, Into(key)));
    }
  }

  lemma {:induction false} ElementIsSome(g: Registry, c: Call, path: string, index: nat, d: Call)
    requires Acyclic(g) && Verdict(g, c, path).Some? && GoesTo(g, c, At(index), d)
    ensures Verdict(g, d, Named(path, At(index))).Some?
  {
    PartsAreSome(g, c, path);
    var parts := ElementVerdicts(g, c.v, c.s, path, c.dir, Top(g));
    GatherMembers(parts, Problem(path, NoMatch));
    assert parts[index] == Verdict(g, d, Named(path, At(index)));
  }

  /** A problem at the end of a way is reported under the path that the way gives. */
  lemma {:induction false} WayReports(g: Registry, c: Call, path: string, turns: seq<Turn>, d: Call, p: Problem)
    requires Acyclic(g) && Verdict(g, c, path).Some? && IsWay(g, c, turns, d) && Own(g, d, PathTo(path, turns), p)
    ensures ReportedAt(g, c, path, p)
    decreases |turns|
  {
    OwnOrNested(g, c, path, p);
    if turns == [] {
    } else {
      var m :| GoesTo(g, c, turns[0], m) && IsWay(g, m, turns[1..], d);
      PartIsSome(g, c, path, turns[0], m);
      WayReports(g, m, Named(path, turns[0]), turns[1..], d, p);
    }
  }

  /** Every problem reported is one at the end of a way. */
  lemma {:induction false} ReportedOnWay(g: Registry, c: Call, path: string, p: Problem, r: nat)
      returns (turns: seq<Turn>, d: Call)
    requires Acyclic(g) && Below(g, c.s, c.dir, r) && ReportedAt(g, c, path, p)
    ensures IsWay(g, c, turns, d) && Own(g, d, PathTo(path, turns), p)
    decreases c.v, r
  {
    OwnOrNested(g, c, path, p);
    turns, d := [], c;
    if !Own(g, c, path, p) {
      var turn, m :| GoesTo(g, c, turn, m) && ReportedAt(g, m, Named(path, turn), p);
      var r' := PartBelow(g, c, path, turn, m, r);
      turns, d := ReportedOnWay(g, m, Named(path, turn), p, r');
      turns := WayCons(g, c, turn, m, turns, d, path);
    }
  }

  lemma {:induction false} WayCons(g: Registry, c: Call, turn: Turn, m: Call, turns: seq<Turn>, d: Call, path: string)
      returns (longer: seq<Turn>)
    requires GoesTo(g, c, turn, m) && IsWay(g, m, turns, d)
    ensures IsWay(g, c, longer, d) && PathTo(path, longer) == PathTo(Named(path, turn), turns)
  {
    longer := [turn] + turns;
    assert longer[1..] == turns;
  }

  lemma {:induction false} PartBelow(g: Registry, c: Call, path: string, turn: Turn, m: Call, r: nat)
      returns (r': nat)
    requires Acyclic(g) && Below(g, c.s, c.dir, r) && GoesTo(g, c, turn, m)
    ensures Below(g, m.s, m.dir, r') && (m.v < c.v || (m.v == c.v && r' < r))
  {
    if turn == Stay {
      var target := g.resolve(c.dir, c.s.ref);
      BelowTarget(g, target);
      r' := Rank(g, target);
      assert IsTarget(g, c.s, c.dir, target);
    } else {
      BelowTop(g, m.s, m.dir);
      r' := Top(g);
    }
  }

  /** The problem is one that a value has with a keyword at the end of a way of references, keys and indices, and its
      path is spelled by the way. */
  ghost predicate AtEndOfWay(g: Registry, c: Call, path: string, p: Problem)
    requires Acyclic(g)
  {
    exists turns, d :: IsWay(g, c, turns, d) && Own(g, d, PathTo(path, turns), p)
  }

  /** Exactly these problems are reported, whenever validation does not throw. */
  lemma {:induction false} ProblemsExactly(g: Registry, c: Call, path: string, p: Problem)
    requires Acyclic(g) && Verdict(g, c, path).Some?
    ensures p in Verdict(g, c, path).value <==> AtEndOfWay(g, c, path, p)
  {
    if ReportedAt(g, c, path, p) {
      BelowTop(g, c.s, c.dir);
      var turns, d := ReportedOnWay(g, c, path, p, Top(g));
    } else if AtEndOfWay(g, c, path, p) {
      var turns, d :| IsWay(g, c, turns, d) && Own(g, d, PathTo(path, turns), p);
      WayReports(g, c, path, turns, d, p);
    }
  }

  /** In particular for a schema file, where paths begin with `$`. */
  lemma ErrorsNamePaths(g: Registry, schemaPath: string, v: Json, p: Problem)
    requires Acyclic(g) && schemaPath in g.files && Validate(g, schemaPath, v).Some?
    ensures p in Validate(g, schemaPath, v).value <==> AtEndOfWay(g, FileCall(g, schemaPath, v), "$", p)
  {
    BelowTop(g, g.files[schemaPath], g.dirOf(schemaPath));
    ProblemsExactly(g, FileCall(g, schemaPath, v), "$", p);
  }

  // ---- the implementation ------------------------------------------------------------------------------------------

  lemma BothAssociative(a: Outcome, b: Outcome, c: Outcome)
    ensures Both(Both(a, b), c) == Both(a, Both(b, c))
  {
    if a.Some? && b.Some? && c.Some? { assert a.value + b.value + c.value == a.value + (b.value + c.value); }
  }

  /** One more part of a list of verdicts has been added to the errors so far. */
  lemma GatherNext(errors: seq<Problem>, parts: seq<Outcome>, i: nat)
    requires i < |parts|
    ensures Both(Some(errors), Gather(parts[i..])) == Both(Both(Some(errors), parts[i]), Gather(parts[i + 1..]))
  {
    assert parts[i..][0] == parts[i] && parts[i..][1..] == parts[i + 1..];
    BothAssociative(Some(errors), parts[i], Gather(parts[i + 1..]));
  }

  lemma GatherDone(errors: seq<Problem>, parts: seq<Outcome>)
    ensures Both(Some(errors), Gather(parts[|parts|..])) == Some(errors)
    ensures parts[0..] == parts
  {
    assert parts[|parts|..] == [] && errors + [] == errors;
  }

  lemma BothEmpty(o: Outcome)
    ensures Both(Some([]), o) == o
  {
    if o.Some? { assert [] + o.value == o.value; }
  }

  lemma TakeNext<T>(s: seq<T>, i: nat)
    requires i < |s|
    ensures s[..i + 1] == s[..i] + [s[i]]
  {
  }

  class FileSchemaRegistry {
    const g: Registry

    constructor (g: Registry)
      ensures this.g == g
    {
      this.g := g;
    }

    method CheckNode(v: Json, s: Schema, path: string, dir: string, ghost r: nat) returns (o: Outcome)
      requires Acyclic(g) && Below(g, s, dir, r)
      ensures o == ValidateNode(g, v, s, path, dir, r)
      decreases v, r, s
    {
      if s.ref != "" {
        var target := g.resolve(dir, s.ref);
        if target !in g.files { return None; }
        BelowTarget(g, target);
        o := CheckNode(v, g.files[target], path, g.dirOf(target), Rank(g, target));
        return;
      }
      if s.anyOf.Branches? {
        var branches := CheckBranches(v, s, path, dir, r);
        return if None in branches then None else Some(If(Some([]) !in branches, path, NoMatch));
      }
      var errors := ValueProblems(v, s, path);
      if s.typeName != "" && !MatchesType(v, s.typeName) { return Some(errors + [Problem(path, WrongType)]); }
      if BadPattern(g, v, s) { return None; }
      errors := errors + ScalarProblems(g, v, s, path);
      var parts := CheckObject(v, s, path, dir, r);
      if parts.None? { return None; }
      var elements := CheckElements(v, s, path, dir, r);
      if elements.None? { return None; }
      o := Some(errors + (parts.value + elements.value));
    }

    /** `Promise.all` over the branches of `anyOf`. */
    method CheckBranches(v: Json, s: Schema, path: string, dir: string, ghost r: nat) returns (branches: seq<Outcome>)
      requires Acyclic(g) && Below(g, s, dir, r) && s.ref == "" && s.anyOf.Branches?
      ensures branches == BranchVerdicts(g, v, s, path, dir, r)
      decreases v, r, s, 3
    {
      branches := [];
      ghost var verdicts := BranchVerdicts(g, v, s, path, dir, r);
      for i := 0 to |s.anyOf.schemas|
        invariant branches == verdicts[..i]
      {
        var verdict := CheckNode(v, s.anyOf.schemas[i], path, dir, r);
        TakeNext(verdicts, i);
        branches := branches + [verdict];
      }
      assert verdicts[..|verdicts|] == verdicts;
    }

    method CheckObject(v: Json, s: Schema, path: string, dir: string, ghost r: nat) returns (o: Outcome)
      requires Acyclic(g)
      ensures o == ObjectVerdict(g, v, s, path, dir, r)
      decreases v, r, s, 2
    {
      if !(s.typeName == "object" && s.properties.Properties? && v.JObject?) { return Some([]); }
      var errors := RequiredProblems(v.fields, s.required, path);
      var fields := CheckFields(v, s, path, dir, r);
      if fields.None? { return None; }
      var properties := CheckProperties(v, s, path, dir, r);
      if properties.None? { return None; }
      o := Some(errors + (fields.value + properties.value));
    }

    /** `for (const key of Object.keys(value))`. */
    method CheckFields(v: Json, s: Schema, path: string, dir: string, ghost r: nat) returns (o: Outcome)
      requires Acyclic(g) && v.JObject? && s.properties.Properties?
      ensures o == Gather(FieldVerdicts(g, v, s, path, dir, r))
      decreases v, r, s, 1, 1
    {
      ghost var parts := FieldVerdicts(g, v, s, path, dir, r);
      var errors: seq<Problem> := [];
      GatherDone(errors, parts);
      BothEmpty(Gather(parts));
      for i := 0 to |v.fields|
        invariant Both(Some(errors), Gather(parts[i..])) == Gather(parts)
      {
        GatherNext(errors, parts, i);
        assert errors + [] == errors;
        var key := v.fields[i].key;
        if !Declares(s.properties.entries, key) {
          match s.additional
          case AnyAdditional =>
          case NoAdditional => errors := errors + [Problem(path + "." + key, Unexpected)];
          case Additional(schema) =>
            BelowTop(g, schema, dir);
            var found := CheckNode(Lookup(v.fields, key), schema, path + "." + key, dir, Top(g));
            if found.None? { return None; }
            errors := errors + found.value;
        }
      }
      GatherDone(errors, parts);
      o := Some(errors);
    }

    /** `for (const [key, child] of Object.entries(schema.properties))`. */
    method CheckProperties(v: Json, s: Schema, path: string, dir: string, ghost r: nat) returns (o: Outcome)
      requires Acyclic(g) && v.JObject? && s.properties.Properties?
      ensures o == Gather(PropertyVerdicts(g, v, s, path, dir, r))
      decreases v, r, s, 1, 1
    {
      ghost var parts := PropertyVerdicts(g, v, s, path, dir, r);
      var errors: seq<Problem> := [];
      GatherDone(errors, parts);
      BothEmpty(Gather(parts));
      for i := 0 to |s.properties.entries|
        invariant Both(Some(errors), Gather(parts[i..])) == Gather(parts)
      {
        GatherNext(errors, parts, i);
        var p := s.properties.entries[i];
        if HasKey(v.fields, p.key) {
          BelowTop(g, p.schema, dir);
          var found := CheckNode(Lookup(v.fields, p.key), p.schema, path + "." + p.key, dir, Top(g));
          if found.None? { return None; }
          errors := errors + found.value;
        } else {
          assert errors + [] == errors;
        }
      }
      GatherDone(errors, parts);
      o := Some(errors);
    }

    /** `for (const [index, item] of value.entries())`. */
    method CheckElements(v: Json, s: Schema, path: string, dir: string, ghost r: nat) returns (o: Outcome)
      requires Acyclic(g)
      ensures o == ArrayVerdict(g, v, s, path, dir, r)
      decreases v, r, s, 2
    {
      if !(s.typeName == "array" && s.items.Items? && v.JArray?) { return Some([]); }
      ghost var parts := ElementVerdicts(g, v, s, path, dir, r);
      var errors: seq<Problem> := [];
      GatherDone(errors, parts);
      BothEmpty(Gather(parts));
      for i := 0 to |v.elements|
        invariant Both(Some(errors), Gather(parts[i..])) == Gather(parts)
      {
        GatherNext(errors, parts, i);
        BelowTop(g, s.items.schema, dir);
        var found := CheckNode(v.elements[i], s.items.schema, path + "[" + Numerals.Print(i, 10) + "]", dir, Top(g));
        if found.None? { return None; }
        errors := errors + found.value;
      }
      GatherDone(errors, parts);
      o := Some(errors);
    }
  }
}
