/**
 * Request bodies as decoded JSON and the part of zod's object validation
 * the application's schemas use: strings with a minimum length, numbers,
 * string enumerations, `.optional()`, `.nullable()` and nested objects.
 *
 * zod checks every key of an object schema in declaration order and the
 * handlers report only `errors[0]`, so a body is described here by its
 * first issue: the first key, in schema order, whose value does not conform.
 */
module Zod {
  import opened Wrappers
  import opened Text

  /** A decoded JSON value. Numbers are integers (cents, ids). */
  datatype Json =
    | JNull
    | JBool(b: bool)
    | JNum(n: int)
    | JStr(s: string)
    | JArr(items: seq<Json>)
    | JObj(fields: map<string, Json>)

  /** The type name zod reports as "received". */
  function TypeName(j: Json): string {
    match j
    case JNull => "null"
    case JBool(_) => "boolean"
    case JNum(_) => "number"
    case JStr(_) => "string"
    case JArr(_) => "array"
    case JObj(_) => "object"
  }

  datatype Rule =
    | Str(min: nat, tooShort: string)           // z.string().min(min, tooShort); min 0 is a plain z.string()
    | Num                                       // z.number()
    | Enum(options: seq<string>, required: Option<string>)  // z.enum(options, { required_error })
    | Optional(inner: Rule)                     // .optional(): undefined is accepted
    | Nullable(inner: Rule)                     // .nullable(): null is accepted
    | Object(fields: seq<Field>)                // z.object({...}), keys in declaration order

  datatype Field = Field(key: string, rule: Rule)

  /** One validation issue: where (`path`) and what `message` the handler sends back. */
  datatype Issue = Issue(path: seq<string>, message: string)

  /** A key's value, `None` when the key is absent (undefined). */
  function Lookup(m: map<string, Json>, key: string): (r: Option<Json>)
    ensures r.Some? <==> key in m
    ensures r.Some? ==> r.value == m[key]
  {
    if key in m then Some(m[key]) else None
  }

  /** `'a' | 'b' | 'c'`, as zod lists the options of an enumeration. */
  function QuotedOptions(options: seq<string>): string {
    if options == [] then ""
    else if |options| == 1 then "'" + options[0] + "'"
    else "'" + options[0] + "' | " + QuotedOptions(options[1..])
  }

  /** What zod names as "expected" for a scalar or object rule. */
  function ExpectedName(r: Rule): string {
    match r
    case Str(_, _) => "string"
    case Num => "number"
    case Enum(options, _) => QuotedOptions(options)
    case Object(_) => "object"
    case Optional(inner) => ""
    case Nullable(inner) => ""
  }

  /** The message for an undefined value: the enumeration's `required_error`, or zod's "Required". */
  function RequiredMessage(r: Rule): string {
    if r.Enum? && r.required.Some? then r.required.value else "Required"
  }

  function TypeMessage(r: Rule, got: Json): string {
    "Expected " + ExpectedName(r) + ", received " + TypeName(got)
  }

  function EnumMessage(options: seq<string>, got: string): string {
    "Invalid enum value. Expected " + QuotedOptions(options) + ", received '" + got + "'"
  }

  /** The measure that lets `Check` hand an object to `CheckFields`. */
  function Width(r: Rule): nat {
    if r.Object? then |r.fields| + 1 else 0
  }

  /** The first issue zod reports for the value `v` (absent when `None`) under rule `r`, or none. */
  function Check(v: Option<Json>, r: Rule): Option<Issue>
    decreases r, Width(r)
  {
    match r
    case Optional(inner) => if v.None? then None else Check(v, inner)
    case Nullable(inner) => if v == Some(JNull) then None else Check(v, inner)
    case Str(min, tooShort) =>
      if v.None? then Some(Issue([], RequiredMessage(r)))
      else if !v.value.JStr? then Some(Issue([], TypeMessage(r, v.value)))
      else if Utf16Length(v.value.s) < min then Some(Issue([], tooShort))
      else None
    case Num =>
      if v.None? then Some(Issue([], RequiredMessage(r)))
      else if !v.value.JNum? then Some(Issue([], TypeMessage(r, v.value)))
      else None
    case Enum(options, _) =>
      if v.None? then Some(Issue([], RequiredMessage(r)))
      else if !v.value.JStr? then Some(Issue([], TypeMessage(r, v.value)))
      else if v.value.s !in options then Some(Issue([], EnumMessage(options, v.value.s)))
      else None
    case Object(fields) =>
      if v.None? then Some(Issue([], RequiredMessage(r)))
      else if !v.value.JObj? then Some(Issue([], TypeMessage(r, v.value)))
      else CheckFields(v.value.fields, r, 0)
  }

  /** The first issue among the keys `r.fields[i..]` of the object `m`, its path prefixed with the key. */
  function CheckFields(m: map<string, Json>, r: Rule, i: nat): Option<Issue>
    requires r.Object? && i <= |r.fields|
    decreases r, |r.fields| - i
  {
    if i == |r.fields| then None
    else
      var f := r.fields[i];
      assert f in r.fields;
      match Check(Lookup(m, f.key), f.rule)
      case Some(issue) => Some(Issue([f.key] + issue.path, issue.message))
      case None => CheckFields(m, r, i + 1)
  }

  /** What it means for a value to satisfy a rule, independently of issue order. */
  predicate Conforms(v: Option<Json>, r: Rule)
    decreases r
  {
    match r
    case Optional(inner) => v.None? || Conforms(v, inner)
    case Nullable(inner) => v == Some(JNull) || Conforms(v, inner)
    case Str(min, _) => v.Some? && v.value.JStr? && Utf16Length(v.value.s) >= min
    case Num => v.Some? && v.value.JNum?
    case Enum(options, _) => v.Some? && v.value.JStr? && v.value.s in options
    case Object(fields) =>
      v.Some? && v.value.JObj?
      && forall i :: 0 <= i < |fields| ==> FieldConforms(v.value.fields, fields[i])
  }

  predicate FieldConforms(m: map<string, Json>, f: Field)
    decreases f
  {
    Conforms(Lookup(m, f.key), f.rule)
  }

  /** A value passes validation exactly when it conforms. */
  lemma {:induction false} CheckIff(v: Option<Json>, r: Rule)
    ensures Check(v, r).None? <==> Conforms(v, r)
    decreases r, Width(r)
  {
    match r
    case Optional(inner) => if v.Some? { CheckIff(v, inner); }
    case Nullable(inner) => if v != Some(JNull) { CheckIff(v, inner); }
    case Str(_, _) =>
    case Num =>
    case Enum(_, _) =>
    case Object(fields) =>
      if v.Some? && v.value.JObj? {
        CheckFieldsIff(v.value.fields, r, 0);
      }
  }

  lemma {:induction false} CheckFieldsIff(m: map<string, Json>, r: Rule, i: nat)
    requires r.Object? && i <= |r.fields|
    ensures CheckFields(m, r, i).None? <==> forall j :: i <= j < |r.fields| ==> FieldConforms(m, r.fields[j])
    decreases r, |r.fields| - i
  {
    if i < |r.fields| {
      var f := r.fields[i];
      assert f in r.fields;
      CheckIff(Lookup(m, f.key), f.rule);
      CheckFieldsIff(m, r, i + 1);
    }
  }

  /**
   * The reported issue belongs to the first non-conforming key: every earlier
   * key conforms, the issue's path starts with that key, and the rest of the
   * issue is that key's own first issue.
   */
  lemma {:induction false} FirstIssue(m: map<string, Json>, r: Rule, i: nat) returns (k: nat)
    requires r.Object? && i <= |r.fields| && CheckFields(m, r, i).Some?
    ensures i <= k < |r.fields|
    ensures forall j :: i <= j < k ==> FieldConforms(m, r.fields[j])
    ensures !FieldConforms(m, r.fields[k])
    ensures var issue := CheckFields(m, r, i).value;
      issue.path != [] && issue.path[0] == r.fields[k].key
      && Check(Lookup(m, r.fields[k].key), r.fields[k].rule) == Some(Issue(issue.path[1..], issue.message))
    decreases |r.fields| - i
  {
    var f := r.fields[i];
    assert f in r.fields;
    CheckIff(Lookup(m, f.key), f.rule);
    if Check(Lookup(m, f.key), f.rule).Some? {
      k := i;
    } else {
      k := FirstIssue(m, r, i + 1);
    }
  }

  /** No field of the object rule `r` is read under `key`. */
  predicate NotAKey(r: Rule, key: string)
    requires r.Object?
  {
    forall j :: 0 <= j < |r.fields| ==> r.fields[j].key != key
  }

  /** zod strips unknown keys: a key the schema does not declare changes nothing about the outcome. */
  lemma {:induction false} UnknownKeyIgnored(m: map<string, Json>, r: Rule, i: nat, key: string, v: Json)
    requires r.Object? && i <= |r.fields| && NotAKey(r, key)
    ensures CheckFields(m[key := v], r, i) == CheckFields(m, r, i)
    decreases |r.fields| - i
  {
    if i < |r.fields| {
      assert Lookup(m[key := v], r.fields[i].key) == Lookup(m, r.fields[i].key);
      UnknownKeyIgnored(m, r, i + 1, key, v);
    }
  }

  /** A rule with no nested object. */
  predicate Flat(r: Rule) {
    match r
    case Optional(inner) => Flat(inner)
    case Nullable(inner) => Flat(inner)
    case Object(_) => false
    case _ => true
  }

  /** A flat rule reports its issue at the value itself, with an empty path. */
  lemma {:induction false} FlatIssuePath(v: Option<Json>, r: Rule)
    requires Flat(r) && Check(v, r).Some?
    ensures Check(v, r).value.path == []
  {
    match r
    case Optional(inner) => FlatIssuePath(v, inner);
    case Nullable(inner) => FlatIssuePath(v, inner);
    case Str(_, _) =>
    case Num =>
    case Enum(_, _) =>
  }

  /**
   * For an object of flat rules, the reported issue is the one of the first
   * key that does not conform, and its path is that key alone.
   */
  lemma FirstFailingKey(m: map<string, Json>, r: Rule, k: nat)
    requires r.Object? && k < |r.fields| && forall j :: 0 <= j < |r.fields| ==> Flat(r.fields[j].rule)
    requires forall j :: 0 <= j < k ==> FieldConforms(m, r.fields[j])
    requires !FieldConforms(m, r.fields[k])
    ensures Check(Some(JObj(m)), r).Some? && Check(Lookup(m, r.fields[k].key), r.fields[k].rule).Some?
    ensures Check(Some(JObj(m)), r).value
      == Issue([r.fields[k].key], Check(Lookup(m, r.fields[k].key), r.fields[k].rule).value.message)
  {
    CheckFieldsIff(m, r, 0);
    CheckIff(Lookup(m, r.fields[k].key), r.fields[k].rule);
    var k' := FirstIssue(m, r, 0);
    assert k' == k;
    var f := r.fields[k];
    FlatIssuePath(Lookup(m, f.key), f.rule);
    var issue := CheckFields(m, r, 0).value;
    assert issue.path == [f.key] + issue.path[1..];
  }

  // ---- reading a validated object ----

  /** The string under `key`, or "" when there is none. */
  function StringAt(m: map<string, Json>, key: string): string {
    if key in m && m[key].JStr? then m[key].s else ""
  }

  /** The number under `key`, or 0 when there is none. */
  function NumberAt(m: map<string, Json>, key: string): int {
    if key in m && m[key].JNum? then m[key].n else 0
  }

  /** A nullable, optional string read as `value ?? null`. */
  function NullableStringAt(m: map<string, Json>, key: string): Option<string> {
    if key in m && m[key].JStr? then Some(m[key].s) else None
  }

  /** A nullable, optional number read as `value ?? null`. */
  function NullableNumberAt(m: map<string, Json>, key: string): Option<int> {
    if key in m && m[key].JNum? then Some(m[key].n) else None
  }

  /** Conforming to a string rule means the value read back is a long-enough string. */
  lemma StringField(m: map<string, Json>, key: string, min: nat, msg: string)
    requires Conforms(Lookup(m, key), Str(min, msg))
    ensures key in m && m[key] == JStr(StringAt(m, key)) && Utf16Length(StringAt(m, key)) >= min
  {
  }
}
