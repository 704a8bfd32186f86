/**
 * The shared API contract: the error bodies handlers send, the outcome of a
 * handler, `buildUrl` and the input schema of the sell endpoint.
 */
module Api {
  import opened Wrappers
  import opened Text
  import opened Zod

  /**
   * `errorSchemas`: a validation error carries a message and the field it is
   * about; not-found and internal errors carry a message only.
   */
  datatype ErrorBody = ErrorBody(message: string, field: Option<string>)

  /** `{ message: err.errors[0].message, field: err.errors[0].path.join('.') }`. */
  function ValidationError(issue: Issue): (e: ErrorBody)
    ensures e.message == issue.message && e.field.Some?
    ensures |issue.path| == 1 ==> e.field == Some(issue.path[0])
  {
    ErrorBody(issue.message, Some(Join(issue.path, ".")))
  }

  /** `{ message }`. */
  function Message(message: string): (e: ErrorBody)
    ensures e.message == message && e.field.None?
  {
    ErrorBody(message, None)
  }

  /**
   * What a handler answers: a status with a body, a status with an error
   * body, or an exception it does not catch, which the framework turns into
   * a 500 response.
   */
  datatype Reply<T> =
    | Success(status: int, body: T)
    | Failure(status: int, error: ErrorBody)
    | Unhandled

  // ---- buildUrl ----

  /** A route parameter value: `string | number`. */
  datatype ParamValue = PStr(s: string) | PNum(n: int)

  /** `String(value)`. */
  function ParamText(v: ParamValue): string {
    match v
    case PStr(s) => s
    case PNum(n) => IntToString(n)
  }

  /**
   * The replacement text `String.prototype.replace` inserts for a string
   * pattern: `$$` is a dollar sign, `$&` the match, `` $` `` the text before it,
   * `$'` the text after it; with no capture groups every other `$` is literal.
   */
  function Expand(repl: string, matched: string, before: string, after: string): string
    decreases |repl|
  {
    if repl == [] then ""
    else if repl[0] == '$' && |repl| >= 2 && repl[1] in "$&`'" then
      (match repl[1]
       case '$' => "$"
       case '&' => matched
       case '`' => before
       case _ => after)
      + Expand(repl[2..], matched, before, after)
    else [repl[0]] + Expand(repl[1..], matched, before, after)
  }

  /** A replacement without `$` is inserted as it is. */
  lemma {:induction false} ExpandLiteral(repl: string, matched: string, before: string, after: string)
    requires '$' !in repl
    ensures Expand(repl, matched, before, after) == repl
    decreases |repl|
  {
    if repl != [] {
      assert repl[0] != '$';
      assert '$' !in repl[1..] by {
        forall c | c in repl[1..] ensures c in repl { }
      }
      ExpandLiteral(repl[1..], matched, before, after);
    }
  }

  /** The decimal text of a number never holds a dollar sign. */
  lemma NumberTextLiteral(n: int)
    ensures '$' !in ParamText(PNum(n))
  {
    var s := NatToString(if n < 0 then -n else n);
    assert forall i :: 0 <= i < |s| ==> IsDigit(s[i]);
    if n < 0 {
      assert ParamText(PNum(n)) == "-" + s;
    }
  }

  /** `url.replace(pattern, repl)` with a string pattern: only the first occurrence is replaced. */
  function ReplaceFirst(s: string, pattern: string, repl: string): string {
    var i := IndexOf(s, pattern);
    if i < 0 then s
    else s[..i] + Expand(repl, pattern, s[..i], s[i + |pattern|..]) + s[i + |pattern|..]
  }

  /** One step of the `forEach`: replace `:key` when the url includes it. */
  function Substitute(url: string, entry: (string, ParamValue)): string {
    var pattern := ":" + entry.0;
    if Contains(url, pattern) then ReplaceFirst(url, pattern, ParamText(entry.1)) else url
  }

  /** The entries applied in order, each to the result of the ones before it. */
  function SubstituteAll(path: string, entries: seq<(string, ParamValue)>): string
    decreases |entries|
  {
    if entries == [] then path
    else Substitute(SubstituteAll(path, entries[..|entries| - 1]), entries[|entries| - 1])
  }

  /** `buildUrl(path, params)`, with `params` given as its entries in iteration order. */
  method BuildUrl(path: string, params: Option<seq<(string, ParamValue)>>) returns (url: string)
    ensures params.None? ==> url == path
    ensures params.Some? ==> url == SubstituteAll(path, params.value)
  {
    url := path;
    if params.Some? {
      var entries := params.value;
      var i := 0;
      while i < |entries|
        invariant 0 <= i <= |entries|
        invariant url == SubstituteAll(path, entries[..i])
      {
        assert entries[..i + 1][..i] == entries[..i];
        var pattern := ":" + entries[i].0;
        if Contains(url, pattern) {
          url := ReplaceFirst(url, pattern, ParamText(entries[i].1));
        }
        i := i + 1;
      }
      assert entries[..|entries|] == entries;
    }
  }

  /** With no entries the path comes back unchanged. */
  lemma NoParamsUnchanged(path: string)
    ensures SubstituteAll(path, []) == path
  {
  }

  /** A parameter whose `:key` does not occur leaves the url as it is. */
  lemma AbsentKeyUnchanged(url: string, key: string, v: ParamValue)
    requires !Contains(url, ":" + key)
    ensures Substitute(url, (key, v)) == url
  {
  }

  /** `ReplaceFirst` once unfolded, at a known first occurrence. */
  lemma ReplaceFirstAt(s: string, pattern: string, repl: string, i: int)
    requires i == IndexOf(s, pattern) && i >= 0
    ensures ReplaceFirst(s, pattern, repl) == s[..i] + Expand(repl, pattern, s[..i], s[i + |pattern|..]) + s[i + |pattern|..]
  {
  }

  /** With a replacement free of `$`, the first occurrence of the pattern gives way to it verbatim. */
  lemma ReplaceFirstLiteral(s: string, pattern: string, repl: string)
    requires IndexOf(s, pattern) >= 0 && '$' !in repl
    ensures var i := IndexOf(s, pattern);
      ReplaceFirst(s, pattern, repl) == s[..i] + repl + s[i + |pattern|..]
  {
    var i := IndexOf(s, pattern);
    ReplaceFirstAt(s, pattern, repl, i);
    ExpandLiteral(repl, pattern, s[..i], s[i + |pattern|..]);
  }

  /** An occurrence of the pattern at `i` splits `s` around it. */
  lemma SplitAround(s: string, pattern: string, i: int)
    requires 0 <= i <= |s| - |pattern| && StartsWith(s[i..], pattern)
    ensures s == s[..i] + pattern + s[i + |pattern|..]
  {
    assert s[i..][..|pattern|] == pattern;
    assert s == s[..i] + s[i..i + |pattern|] + s[i + |pattern|..];
  }

  /** The text before the first occurrence and after it, around the occurrence itself, make up `s`. */
  lemma FirstOccurrenceSplits(s: string, pattern: string)
    requires IndexOf(s, pattern) >= 0
    ensures var i := IndexOf(s, pattern);
      s == s[..i] + pattern + s[i + |pattern|..]
  {
    SplitAround(s, pattern, IndexOf(s, pattern));
  }

  /**
   * A parameter whose `:key` does occur replaces its first occurrence, and
   * only that one, by the value's text when that text has no `$`.
   */
  lemma FirstOccurrenceReplaced(url: string, key: string, v: ParamValue)
    requires Contains(url, ":" + key) && '$' !in ParamText(v)
    ensures var p := ":" + key; var i := IndexOf(url, p);
      0 <= i <= |url| - |p|
      && url == url[..i] + p + url[i + |p|..]
      && (forall j :: 0 <= j < i ==> !StartsWith(url[j..], p))
      && Substitute(url, (key, v)) == url[..i] + ParamText(v) + url[i + |p|..]
  {
    FirstOccurrenceSplits(url, ":" + key);
    ReplaceFirstLiteral(url, ":" + key, ParamText(v));
  }

  /** Applying the entries `a + b` is applying `a`, then `b` to the result. */
  lemma {:induction false} EntryOrder(path: string, a: seq<(string, ParamValue)>, b: seq<(string, ParamValue)>)
    ensures SubstituteAll(path, a + b) == SubstituteAll(SubstituteAll(path, a), b)
    decreases |b|
  {
    if b == [] {
      assert a + b == a;
    } else {
      var b' := b[..|b| - 1];
      assert (a + b)[..|a + b| - 1] == a + b';
      assert (a + b)[|a + b| - 1] == b[|b| - 1];
      EntryOrder(path, a, b');
    }
  }

  // ---- the sell endpoint's input ----

  const NullableNumber: Rule := Optional(Nullable(Num))
  const NullableString: Rule := Optional(Nullable(Str(0, "")))

  /** `tradeInVehicle`: validated, though no handler reads it. */
  const TradeInRule: Rule := Object([
    Field("plate", Str(0, "")), Field("brand", Str(0, "")), Field("model", Str(0, "")),
    Field("color", Str(0, "")), Field("yearFab", NullableNumber), Field("yearModel", NullableNumber),
    Field("condition", NullableString), Field("mileage", NullableNumber),
    Field("acquisitionPrice", NullableNumber), Field("price", NullableNumber),
    Field("fipeCode", NullableString), Field("fipePrice", NullableString),
    Field("ownerId", NullableNumber), Field("notes", NullableString)])

  /** `api.sales.markAsSold.input`. */
  const SellRule: Rule := Object([
    Field("salePrice", Num),
    Field("buyerId", NullableNumber),
    Field("saleDate", Optional(Str(0, ""))),
    Field("saleMileage", NullableNumber),
    Field("tradeInVehicle", Optional(Nullable(TradeInRule))),
    Field("tradeInValue", NullableNumber),
    Field("intermediaryId", NullableNumber),
    Field("intermediaryCommission", NullableNumber)])

  /** The part of a validated sell body the handler reads. */
  datatype SellInput = SellInput(salePrice: int, buyerId: Option<int>, saleDate: Option<string>)

  /** `markAsSold.input.parse(body)`, reporting the first issue as a validation error. */
  function ParseSellInput(body: Json): (r: Result<SellInput, ErrorBody>)
    ensures r.Ok? <==> Conforms(Some(body), SellRule)
    ensures r.Err? ==> Check(Some(body), SellRule).Some? && r.error == ValidationError(Check(Some(body), SellRule).value)
    ensures r.Ok? ==> body.JObj? && "salePrice" in body.fields && body.fields["salePrice"] == JNum(r.value.salePrice)
    ensures r.Ok? ==> r.value.buyerId == NullableNumberAt(body.fields, "buyerId")
    ensures r.Ok? ==>
      r.value.saleDate == if "saleDate" in body.fields && body.fields["saleDate"].JStr? then Some(body.fields["saleDate"].s) else None
  {
    CheckIff(Some(body), SellRule);
    match Check(Some(body), SellRule)
    case Some(issue) => Err(ValidationError(issue))
    case None =>
      assert FieldConforms(body.fields, SellRule.fields[0]);
      var m := body.fields;
      Ok(SellInput(NumberAt(m, "salePrice"), NullableNumberAt(m, "buyerId"),
        if "saleDate" in m && m["saleDate"].JStr? then Some(m["saleDate"].s) else None))
  }

  /** A body holding only a numeric sale price is accepted: every other key is optional. */
  lemma SellPriceSuffices(price: int)
    ensures ParseSellInput(JObj(map["salePrice" := JNum(price)])) == Ok(SellInput(price, None, None))
  {
    var m := map["salePrice" := JNum(price)];
    forall i | 1 <= i < |SellRule.fields| ensures FieldConforms(m, SellRule.fields[i]) {
      assert SellRule.fields[i].key != "salePrice";
    }
    assert FieldConforms(m, SellRule.fields[0]);
  }

  /** Without a numeric sale price the body is refused, and the error names `salePrice`. */
  lemma SellPriceRequired(body: Json)
    requires body.JObj? && !(("salePrice" in body.fields) && body.fields["salePrice"].JNum?)
    ensures ParseSellInput(body).Err? && ParseSellInput(body).error.field == Some("salePrice")
  {
    assert !FieldConforms(body.fields, SellRule.fields[0]);
    CheckIff(Some(body), SellRule);
    var issue := Check(Some(body), SellRule).value;
    var k := FirstIssue(body.fields, SellRule, 0);
    assert k == 0;
  }
}
