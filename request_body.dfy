/**
 * The request-body validator middleware (middleware/verify-request-body.js). A sample object
 * names the keys a body must hold and, through the constructor it maps each key to, the type of
 * the value; a nested sample object describes a nested body object. The check walks the sample's
 * keys in order and collects one message per problem; Date-typed keys are also converted from
 * their text to a Date, and put back as they were when the text is not a valid date. The
 * middleware lets the request through when nothing was collected, and otherwise answers one 400
 * listing every message.
 */
module RequestBody {
  import opened Common
  import opened Json
  import opened Http

  /** What a sample key maps to: one of the constructors `String`, `Number`, `Boolean`, `Date`, or a nested sample. */
  datatype Sample = StringType | NumberType | BooleanType | DateType | Nested(entries: seq<SampleEntry>)

  datatype SampleEntry = SampleEntry(key: string, sample: Sample)

  /**
   * `typeof` of what calling the sample's constructor returns; a nested sample is not called.
   * `Date()` called without `new` returns a string, so a Date-typed key expects a string.
   */
  function ExpectedType(s: Sample): (t: string)
    ensures t == "object" <==> s.Nested?
  {
    match s
    case StringType => "string"
    case NumberType => "number"
    case BooleanType => "boolean"
    case DateType => "string"
    case Nested(_) => "object"
  }

  datatype BodyError =
    | Missing(path: string)
    | Empty(path: string)
    | WrongType(path: string, actualType: string, expectedType: string)
    | Unconvertible(shown: string, typeName: string)

  function Message(e: BodyError): string
  {
    match e
    case Missing(path) => "The request body does not contain the key '" + path + "'"
    case Empty(path) => "The value of key '" + path + "' is null or empty"
    case WrongType(path, actualType, expectedType) =>
      "The value of key '" + path + "' is a " + actualType + " when a " + expectedType + " was expected"
    case Unconvertible(shown, typeName) => "Could not convert " + shown + " from " + typeName + " to Date"
  }

  function ErrorMessages(es: seq<BodyError>): (ms: seq<string>)
    ensures |ms| == |es|
    ensures forall i :: 0 <= i < |es| ==> ms[i] == Message(es[i])
  {
    if es == [] then [] else [Message(es[0])] + ErrorMessages(es[1..])
  }

  /** `v !== 0 && !v`: the falsy values other than the number zero. */
  predicate IsEmptyValue(v: Value)
  {
    v.Undefined? || v.Null? || v == Bool(false) || v == Str("")
  }

  /** The largest time value a Date can hold, in milliseconds either side of the epoch. */
  const MaxTimeValue: int := 8640000000000000

  /**
   * The time value of `new Date(v)`, or `None` for an Invalid Date. `parse` is the engine's
   * date-string parser; an object is first turned into the string "[object Object]".
   */
  function ToDate(v: Value, parse: string -> Option<int>): (r: Option<int>)
    ensures v.Instant? ==> r == Some(v.ms)
    ensures v.Undefined? ==> r.None?
    ensures v.Null? ==> r == Some(0)
    ensures v.Num? ==> (r.Some? <==> -MaxTimeValue <= v.n <= MaxTimeValue)
    ensures v.Str? ==> r == parse(v.s)
  {
    match v
    case Undefined => None
    case Null => Some(0)
    case Bool(b) => Some(if b then 1 else 0)
    case Num(n) => if -MaxTimeValue <= n <= MaxTimeValue then Some(n) else None
    case Str(s) => parse(s)
    case Obj(_) => parse("[object Object]")
    case Instant(ms) => Some(ms)
  }

  /** The errors collected so far and the body as the check has rewritten it. */
  datatype Outcome = Outcome(errors: seq<BodyError>, body: seq<Entry>)

  /** The else-if chain for one key: missing, empty, or of the wrong type; at most one of them. */
  function ChainError(s: Sample, fields: seq<Entry>, key: string, path: string): (r: Option<BodyError>)
    ensures r.None? <==>
      Has(fields, key) && !IsEmptyValue(Get(fields, key)) && TypeOf(Get(fields, key)) == ExpectedType(s)
    ensures r.Some? ==> !r.value.Unconvertible? && r.value.path == path + key
  {
    var v := Get(fields, key);
    if !Has(fields, key) then Some(Missing(path + key))
    else if IsEmptyValue(v) then Some(Empty(path + key))
    else if TypeOf(v) != ExpectedType(s) then Some(WrongType(path + key, TypeOf(v), ExpectedType(s)))
    else None
  }

  /** The conversion step for one key: a Date-typed key becomes a Date, or is restored and reported. */
  function Convert(s: Sample, key: string, o: Outcome, parse: string -> Option<int>): (r: Outcome)
    ensures s != DateType ==> r == o
    ensures forall k :: k != key ==> (Has(r.body, k) <==> Has(o.body, k)) && Get(r.body, k) == Get(o.body, k)
    ensures Has(o.body, key) ==> Has(r.body, key)
    ensures s == DateType ==>
      match ToDate(Get(o.body, key), parse)
      case Some(ms) => r.errors == o.errors && Get(r.body, key) == Instant(ms)
      case None =>
        && Has(r.body, key) && Get(r.body, key) == Get(o.body, key)
        && r.errors == o.errors + [Unconvertible(ValueText(Get(o.body, key)), TypeOf(Get(o.body, key)))]
  {
    if s != DateType then o
    else
      var save := Get(o.body, key);
      match ToDate(save, parse)
      case Some(ms) => Outcome(o.errors, Set(o.body, key, Instant(ms)))
      case None => Outcome(o.errors + [Unconvertible(ValueText(save), TypeOf(save))], Set(o.body, key, save))
  }

  /** The body fields a nested check walks: an object's own keys; a Date has none. */
  function NestedFields(v: Value): seq<Entry>
  {
    if v.Obj? then v.fields else []
  }

  /** `recursiveCheck(sample, actual, path)` over the first `n` keys of the sample. */
  function CheckKeys(sample: seq<SampleEntry>, n: nat, fields: seq<Entry>, path: string, parse: string -> Option<int>): Outcome
    requires n <= |sample|
    decreases sample, n, 1
  {
    if n == 0 then Outcome([], fields)
    else
      var prev := CheckKeys(sample, n - 1, fields, path, parse);
      Convert(sample[n - 1].sample, sample[n - 1].key, Checked(sample, n, prev, path, parse), parse)
  }

  /** The body and errors after the else-if chain for key `n - 1`, before its conversion step. */
  function Checked(sample: seq<SampleEntry>, n: nat, prev: Outcome, path: string, parse: string -> Option<int>): (r: Outcome)
    requires 0 < n <= |sample|
    ensures prev.errors <= r.errors
    decreases sample, n, 0
  {
    var key := sample[n - 1].key;
    var s := sample[n - 1].sample;
    var v := Get(prev.body, key);
    match ChainError(s, prev.body, key, path)
    case Some(e) => Outcome(prev.errors + [e], prev.body)
    case None =>
      if IsObject(v) then
        // the value's `typeof` is "object", and so is the sample's only when it is nested
        assert s.Nested?;
        var inner := CheckKeys(s.entries, |s.entries|, NestedFields(v), path + key + ".", parse);
        Outcome(prev.errors + inner.errors, if v.Obj? then Set(prev.body, key, Obj(inner.body)) else prev.body)
      else
        prev
  }

  /** The chain for one key leaves every other key alone and removes no key. */
  lemma CheckedFrame(sample: seq<SampleEntry>, n: nat, prev: Outcome, path: string, parse: string -> Option<int>, k: string)
    requires 0 < n <= |sample|
    ensures var r := Checked(sample, n, prev, path, parse);
      && (k != sample[n - 1].key ==> (Has(r.body, k) <==> Has(prev.body, k)) && Get(r.body, k) == Get(prev.body, k))
      && (Has(prev.body, k) ==> Has(r.body, k))
  {
  }

  /** A key the check does not walk keeps its value, and its presence or absence. */
  lemma {:induction false} CheckKeysLeavesOthers(
    sample: seq<SampleEntry>, n: nat, fields: seq<Entry>, path: string, parse: string -> Option<int>, k: string)
    requires n <= |sample|
    requires forall i :: 0 <= i < n ==> sample[i].key != k
    ensures var o := CheckKeys(sample, n, fields, path, parse);
      (Has(o.body, k) <==> Has(fields, k)) && Get(o.body, k) == Get(fields, k)
    decreases n
  {
    if n > 0 {
      CheckKeysLeavesOthers(sample, n - 1, fields, path, parse, k);
      var prev := CheckKeys(sample, n - 1, fields, path, parse);
      CheckedFrame(sample, n, prev, path, parse, k);
    }
  }

  /** No key of the body disappears. */
  lemma {:induction false} CheckKeysKeepsKeys(
    sample: seq<SampleEntry>, n: nat, fields: seq<Entry>, path: string, parse: string -> Option<int>, k: string)
    requires n <= |sample| && Has(fields, k)
    ensures Has(CheckKeys(sample, n, fields, path, parse).body, k)
    decreases n
  {
    if n > 0 {
      CheckKeysKeepsKeys(sample, n - 1, fields, path, parse, k);
      var prev := CheckKeys(sample, n - 1, fields, path, parse);
      CheckedFrame(sample, n, prev, path, parse, k);
    }
  }

  /** Every missing, empty or mistyped key is reported under the path the check started from. */
  lemma {:induction false} CheckKeysErrorPaths(
    sample: seq<SampleEntry>, n: nat, fields: seq<Entry>, path: string, parse: string -> Option<int>)
    requires n <= |sample|
    ensures forall e :: e in CheckKeys(sample, n, fields, path, parse).errors && !e.Unconvertible? ==> path <= e.path
    decreases sample, n
  {
    if n > 0 {
      CheckKeysErrorPaths(sample, n - 1, fields, path, parse);
      var prev := CheckKeys(sample, n - 1, fields, path, parse);
      var key := sample[n - 1].key;
      var s := sample[n - 1].sample;
      var v := Get(prev.body, key);
      if ChainError(s, prev.body, key, path).None? && IsObject(v) {
        CheckKeysErrorPaths(s.entries, |s.entries|, NestedFields(v), path + key + ".", parse);
        assert path <= path + key + ".";
      }
    }
  }

  /** `recursiveCheck`: a loop over the sample's keys that pushes errors and rewrites the body. */
  method RecursiveCheck(sample: seq<SampleEntry>, fields: seq<Entry>, path: string, parse: string -> Option<int>)
    returns (errors: seq<BodyError>, body: seq<Entry>)
    ensures Outcome(errors, body) == CheckKeys(sample, |sample|, fields, path, parse)
    decreases sample
  {
    errors, body := [], fields;
    for i := 0 to |sample|
      invariant Outcome(errors, body) == CheckKeys(sample, i, fields, path, parse)
    {
      var key := sample[i].key;
      var s := sample[i].sample;
      var actual := Get(body, key);
      if !Has(body, key) {
        errors := errors + [Missing(path + key)];
      } else if IsEmptyValue(actual) {
        errors := errors + [Empty(path + key)];
      } else if TypeOf(actual) != ExpectedType(s) {
        errors := errors + [WrongType(path + key, TypeOf(actual), ExpectedType(s))];
      } else if IsObject(actual) {
        var nestedErrors, nestedBody := RecursiveCheck(s.entries, NestedFields(actual), path + key + ".", parse);
        errors := errors + nestedErrors;
        if actual.Obj? {
          body := Set(body, key, Obj(nestedBody));
        }
      }
      errors, body := ConvertKey(s, key, errors, body, parse);
    }
  }

  /** The `try`/`catch` after the chain: convert a Date-typed key in place, restoring it on failure. */
  method ConvertKey(s: Sample, key: string, errors: seq<BodyError>, body: seq<Entry>, parse: string -> Option<int>)
    returns (errors': seq<BodyError>, body': seq<Entry>)
    ensures Outcome(errors', body') == Convert(s, key, Outcome(errors, body), parse)
  {
    errors', body' := errors, body;
    if s == DateType {
      var save := Get(body', key);
      var converted := ToDate(save, parse);
      if converted.Some? {
        body' := Set(body', key, Instant(converted.value));
      } else {
        body' := Set(body', key, save);
        errors' := errors' + [Unconvertible(ValueText(save), TypeOf(save))];
      }
    }
  }

  /**
   * The middleware: `next()` exactly when the check collected nothing, otherwise one 400 whose
   * messages are every collected error in order. `converted` is the body as the next handler sees it.
   */
  method VerifyRequestBody(sample: seq<SampleEntry>, body: seq<Entry>, res: Reply, parse: string -> Option<int>)
    returns (next: bool, converted: seq<Entry>)
    modifies res
    ensures var o := CheckKeys(sample, |sample|, body, "", parse);
      && converted == o.body
      && (next <==> o.errors == [])
      && (next ==> res.sent == old(res.sent))
      && (!next ==> res.sent == old(res.sent) + [Response(400, Messages(ErrorMessages(o.errors)))])
  {
    var errors;
    errors, converted := RecursiveCheck(sample, body, "", parse);
    if |errors| == 0 {
      next := true;
    } else {
      next := false;
      res.Send(400, Messages(ErrorMessages(errors)));
    }
  }

  // ---------------------------------------------------------------------------
  // Properties of the check, key by key

  /**
   * The key at position `n - 1` of any sample is checked as a one-key sample would be, against
   * the body the earlier keys left, and its errors follow theirs. This lifts the one-key lemmas
   * below to every key of a longer sample.
   */
  lemma CheckKeysStep(sample: seq<SampleEntry>, n: nat, fields: seq<Entry>, path: string, parse: string -> Option<int>)
    requires 0 < n <= |sample|
    ensures var prev := CheckKeys(sample, n - 1, fields, path, parse);
      var one := CheckKeys([sample[n - 1]], 1, prev.body, path, parse);
      CheckKeys(sample, n, fields, path, parse) == Outcome(prev.errors + one.errors, one.body)
  {
    var e := sample[n - 1];
    var prev := CheckKeys(sample, n - 1, fields, path, parse);
    var c := Checked([e], 1, Outcome([], prev.body), path, parse);
    CheckedShift(sample, n, prev, path, parse);
    ConvertShift(e.sample, e.key, prev.errors, c, parse);
    assert CheckKeys([e], 0, prev.body, path, parse) == Outcome([], prev.body);
  }

  /** The chain for key `n - 1` appends to the earlier errors what it finds on its own. */
  lemma CheckedShift(sample: seq<SampleEntry>, n: nat, prev: Outcome, path: string, parse: string -> Option<int>)
    requires 0 < n <= |sample|
    ensures var c := Checked([sample[n - 1]], 1, Outcome([], prev.body), path, parse);
      Checked(sample, n, prev, path, parse) == Outcome(prev.errors + c.errors, c.body)
  {
    var c := Checked([sample[n - 1]], 1, Outcome([], prev.body), path, parse);
    assert [] + c.errors == c.errors;
  }

  /** The conversion step appends to the earlier errors what it finds on its own. */
  lemma ConvertShift(s: Sample, key: string, earlier: seq<BodyError>, o: Outcome, parse: string -> Option<int>)
    ensures var r := Convert(s, key, o, parse);
      Convert(s, key, Outcome(earlier + o.errors, o.body), parse) == Outcome(earlier + r.errors, r.body)
  {
  }

  /** A key missing from the body at its turn is reported as missing, after the earlier keys' errors. */
  lemma MissingKeyReportedInTurn(sample: seq<SampleEntry>, n: nat, fields: seq<Entry>, path: string, parse: string -> Option<int>)
    requires 0 < n <= |sample|
    requires forall i :: 0 <= i < n - 1 ==> sample[i].key != sample[n - 1].key
    requires !Has(fields, sample[n - 1].key)
    ensures var prev := CheckKeys(sample, n - 1, fields, path, parse);
      var errors := CheckKeys(sample, n, fields, path, parse).errors;
      |errors| > |prev.errors| && errors[|prev.errors|] == Missing(path + sample[n - 1].key)
  {
    var e := sample[n - 1];
    var prev := CheckKeys(sample, n - 1, fields, path, parse);
    CheckKeysLeavesOthers(sample, n - 1, fields, path, parse, e.key);
    assert !Has(prev.body, e.key);
    MissingKeyReported(e, prev.body, path, parse);
    var one := CheckKeys([e], 1, prev.body, path, parse);
    assert one.errors[0] == Missing(path + e.key);
    CheckKeysStep(sample, n, fields, path, parse);
    assert CheckKeys(sample, n, fields, path, parse).errors == prev.errors + one.errors;
  }

  /** A key the body lacks is reported as missing; a Date-typed one is also reported unconvertible and left holding `undefined`. */
  lemma MissingKeyReported(e: SampleEntry, fields: seq<Entry>, path: string, parse: string -> Option<int>)
    requires !Has(fields, e.key)
    ensures var o := CheckKeys([e], 1, fields, path, parse);
      if e.sample == DateType then
        o == Outcome([Missing(path + e.key), Unconvertible("undefined", "undefined")], fields + [Entry(e.key, Undefined)])
      else
        o == Outcome([Missing(path + e.key)], fields)
  {
  }

  /**
   * A present value that is falsy is reported as null or empty, but the number zero is accepted.
   * A Date-typed key is reported too, and its conversion still runs after the report.
   */
  lemma EmptyValueReported(e: SampleEntry, fields: seq<Entry>, path: string, parse: string -> Option<int>)
    requires Has(fields, e.key)
    ensures var v := Get(fields, e.key);
      var errors := CheckKeys([e], 1, fields, path, parse).errors;
      && (IsEmptyValue(v) && e.sample != DateType ==> errors == [Empty(path + e.key)])
      && (IsEmptyValue(v) && e.sample == DateType ==> 1 <= |errors| <= 2 && errors[0] == Empty(path + e.key))
      && (v == Num(0) && e.sample == NumberType ==> errors == [])
  {
  }

  /** A Date-typed `null` is reported as null or empty, and yet left converted to the epoch. */
  lemma NullDateReportedAndConverted(key: string, fields: seq<Entry>, path: string, parse: string -> Option<int>)
    requires Has(fields, key) && Get(fields, key) == Null
    ensures var o := CheckKeys([SampleEntry(key, DateType)], 1, fields, path, parse);
      o.errors == [Empty(path + key)] && Get(o.body, key) == Instant(0)
  {
  }

  /**
   * A present, non-empty value of another type is reported once, with both type names. A
   * Date-typed key expects a string; its mismatch is reported first, and the conversion runs after.
   */
  lemma WrongTypeReported(e: SampleEntry, fields: seq<Entry>, path: string, parse: string -> Option<int>)
    requires Has(fields, e.key)
    requires !IsEmptyValue(Get(fields, e.key)) && TypeOf(Get(fields, e.key)) != ExpectedType(e.sample)
    ensures var v := Get(fields, e.key);
      var o := CheckKeys([e], 1, fields, path, parse);
      && (e.sample != DateType ==> o == Outcome([WrongType(path + e.key, TypeOf(v), ExpectedType(e.sample))], fields))
      && (e.sample == DateType ==> 1 <= |o.errors| <= 2 && o.errors[0] == WrongType(path + e.key, TypeOf(v), "string"))
  {
  }

  /** A valid date text is replaced by the Date it denotes, with nothing reported. */
  lemma DateTextConverted(key: string, fields: seq<Entry>, path: string, parse: string -> Option<int>, text: string, ms: int)
    requires Get(fields, key) == Str(text) && text != "" && parse(text) == Some(ms)
    ensures var o := CheckKeys([SampleEntry(key, DateType)], 1, fields, path, parse);
      o.errors == [] && Get(o.body, key) == Instant(ms) && o.body == Set(fields, key, Instant(ms))
  {
    assert Has(fields, key);
  }

  /** A date text the parser rejects is put back unchanged and reported as unconvertible. */
  lemma InvalidDateRestored(key: string, fields: seq<Entry>, path: string, parse: string -> Option<int>, text: string)
    requires Get(fields, key) == Str(text) && text != "" && parse(text).None?
    ensures var o := CheckKeys([SampleEntry(key, DateType)], 1, fields, path, parse);
      o.errors == [Unconvertible(text, "string")] && Get(o.body, key) == Str(text)
  {
    assert Has(fields, key);
  }

  /**
   * For a key whose sample is not nested, the check reports at most one of missing, empty and
   * wrong type, and at most one failed conversion after it, which only a Date-typed key can get.
   */
  lemma AtMostOneChainErrorPerKey(e: SampleEntry, fields: seq<Entry>, path: string, parse: string -> Option<int>)
    requires !e.sample.Nested?
    ensures var errors := CheckKeys([e], 1, fields, path, parse).errors;
      && |errors| <= 2
      && (forall i :: 0 <= i < |errors| && !errors[i].Unconvertible? ==> i == 0)
      && (|errors| == 2 ==> !errors[0].Unconvertible? && errors[1].Unconvertible?)
      && (e.sample != DateType ==> forall i :: 0 <= i < |errors| ==> !errors[i].Unconvertible?)
  {
    var v := Get(fields, e.key);
    assert !IsObject(v) || ChainError(e.sample, fields, e.key, path).Some?;
  }

  /** A nested key is reported under its parent's key and a dot. */
  lemma NestedKeyPrefixed(
    parent: string, child: SampleEntry, fields: seq<Entry>, nested: seq<Entry>, path: string, parse: string -> Option<int>)
    requires Get(fields, parent) == Obj(nested) && !Has(nested, child.key) && child.sample != DateType
    ensures CheckKeys([SampleEntry(parent, Nested([child]))], 1, fields, path, parse).errors
      == [Missing(path + parent + "." + child.key)]
  {
    assert Has(fields, parent);
    var inner := CheckKeys([child], 1, nested, path + parent + ".", parse);
    MissingKeyReported(child, nested, path + parent + ".", parse);
    assert (path + parent + ".") + child.key == path + parent + "." + child.key;
  }

  /**
   * A body that passed has its Date-typed keys turned into Dates, so the same check run on it
   * again reports each of them as an object where a string was expected.
   */
  lemma ConvertedBodyFailsAgain(key: string, fields: seq<Entry>, parse: string -> Option<int>, text: string, ms: int)
    requires Get(fields, key) == Str(text) && text != "" && parse(text) == Some(ms)
    ensures var once := CheckKeys([SampleEntry(key, DateType)], 1, fields, "", parse);
      var twice := CheckKeys([SampleEntry(key, DateType)], 1, once.body, "", parse);
      once.errors == [] && twice.errors == [WrongType(key, "object", "string")]
  {
    DateTextConverted(key, fields, "", parse, text, ms);
    var once := CheckKeys([SampleEntry(key, DateType)], 1, fields, "", parse);
    assert Has(once.body, key);
    assert "" + key == key;
  }
}
