/** Object-schema validation of a request body, as the server runs it before any
    storage call: every key of the schema is checked in order, every problem found
    is recorded as an issue with a message and a path, and keys the schema does not
    name are dropped. */
module Validation {
  import opened Wrappers
  import opened Strings

  /** A parsed request body; numbers are integers here. JSON has no date value: a
      date travels as a string. */
  datatype Json =
    | JNull
    | JBool(b: bool)
    | JNumber(n: int)
    | JString(s: string)
    | JArray(items: seq<Json>)
    | JObject(fields: map<string, Json>)

  /** The name a validation message gives to the type of a received value. */
  function TypeName(v: Json): string {
    match v
    case JNull => "null"
    case JBool(_) => "boolean"
    case JNumber(_) => "number"
    case JString(_) => "string"
    case JArray(_) => "array"
    case JObject(_) => "object"
  }

  /** One step of an issue's path: an object key or an array index. */
  datatype PathSeg = Key(name: string) | Index(i: nat)

  datatype Issue = Issue(message: string, path: seq<PathSeg>)

  /** The value type a key must have. `DateKind` wants a date value as it is, which
      no parsed body holds; `CoercedDateKind` first turns the value into a date, as
      `new Date(value)` does, and refuses an invalid one. */
  datatype Kind = StringKind | NumberKind | DateKind | CoercedDateKind | NumberArrayKind

  // ---------------------------------------------------------------------------
  // Dates on the wire

  /** Dates are instants, abstract integers here. The text `toISOString` writes for
      an instant is modelled by its decimal numeral, and `new Date(text)` by reading
      that numeral back; any other text is an invalid date. */
  function DateText(instant: int): string {
    IntToString(instant)
  }

  function DateFromText(s: string): Option<int> {
    ParseInteger(s)
  }

  /** The text sent for a date reads back as the same instant. */
  lemma DateTextRoundTrip(instant: int)
    ensures DateFromText(DateText(instant)) == Some(instant)
  {
    IntToStringRoundTrip(instant);
  }

  /** The date a value is coerced to: a string is read as date text, a number is
      milliseconds since the epoch; other values give an invalid date here. */
  function CoerceDate(v: Json): Option<int> {
    match v
    case JString(s) => DateFromText(s)
    case JNumber(n) => Some(n)
    case _ => None
  }

  /** The rule for one key: its type, whether it may be left out and whether it may be `null`. */
  datatype Rule = Rule(key: string, kind: Kind, optional: bool, nullable: bool)

  /** The message of a value of the wrong type. */
  function TypeMessage(expected: string, received: Json): string {
    "Expected " + expected + ", received " + TypeName(received)
  }

  /** The message of a text where a date is wanted. */
  lemma TextForDateMessage(v: Json)
    requires v.JString?
    ensures TypeMessage("date", v) == "Expected date, received string"
  {
    assert TypeName(v) == "string";
  }

  /** The issues of the array elements from index `i` on: one per element that is not a number. */
  function ElementIssues(items: seq<Json>, i: nat, path: seq<PathSeg>): seq<Issue>
    decreases |items|
  {
    if items == [] then []
    else
      (if items[0].JNumber? then [] else [Issue(TypeMessage("number", items[0]), path + [Index(i)])])
      + ElementIssues(items[1..], i + 1, path)
  }

  /** The issues of a present, non-null value checked against `kind`. */
  function ValueIssues(kind: Kind, v: Json, path: seq<PathSeg>): seq<Issue> {
    match kind
    case StringKind => if v.JString? then [] else [Issue(TypeMessage("string", v), path)]
    case NumberKind => if v.JNumber? then [] else [Issue(TypeMessage("number", v), path)]
    case DateKind => [Issue(TypeMessage("date", v), path)]
    case CoercedDateKind => if CoerceDate(v).Some? then [] else [Issue("Invalid date", path)]
    case NumberArrayKind =>
      if v.JArray? then ElementIssues(v.items, 0, path) else [Issue(TypeMessage("array", v), path)]
  }

  /** The issues one rule finds in an object: a missing required key is "Required",
      an allowed `null` passes, anything else is checked by type. */
  function RuleIssues(r: Rule, obj: map<string, Json>): seq<Issue> {
    if r.key !in obj then (if r.optional then [] else [Issue("Required", [Key(r.key)])])
    else if obj[r.key].JNull? && r.nullable then []
    else ValueIssues(r.kind, obj[r.key], [Key(r.key)])
  }

  /** The issues of an object, key by key in the order of the schema. */
  function ShapeIssues(shape: seq<Rule>, obj: map<string, Json>): seq<Issue> {
    if shape == [] then [] else RuleIssues(shape[0], obj) + ShapeIssues(shape[1..], obj)
  }

  /** The issues of a whole body: a body that is not an object has one issue at the empty path. */
  function BodyIssues(shape: seq<Rule>, body: Json): seq<Issue> {
    if body.JObject? then ShapeIssues(shape, body.fields)
    else [Issue(TypeMessage("object", body), [])]
  }

  /** Every key of the object passes its rule. */
  predicate ShapeValid(shape: seq<Rule>, obj: map<string, Json>) {
    forall j :: 0 <= j < |shape| ==> RuleIssues(shape[j], obj) == []
  }

  /** An object has no issues exactly when every rule passes. */
  lemma {:induction false} NoIssuesIffValid(shape: seq<Rule>, obj: map<string, Json>)
    ensures ShapeIssues(shape, obj) == [] <==> ShapeValid(shape, obj)
  {
    if shape != [] {
      NoIssuesIffValid(shape[1..], obj);
      assert ShapeIssues(shape, obj) == RuleIssues(shape[0], obj) + ShapeIssues(shape[1..], obj);
      if ShapeIssues(shape, obj) == [] {
        forall i | 0 <= i < |shape| ensures RuleIssues(shape[i], obj) == [] {
          if i > 0 {
            assert shape[i] == shape[1..][i - 1];
          }
        }
      }
      if ShapeValid(shape, obj) {
        assert RuleIssues(shape[0], obj) == [];
        forall i | 0 <= i < |shape[1..]| ensures RuleIssues(shape[1..][i], obj) == [] {
          assert shape[1..][i] == shape[i + 1];
        }
      }
    }
  }

  /** When an object has issues, the first one is the first issue of the first rule
      that fails, and every rule before that one passes. */
  lemma {:induction false} FirstIssueIsFirstFailingKey(shape: seq<Rule>, obj: map<string, Json>)
    requires ShapeIssues(shape, obj) != []
    ensures exists j :: (0 <= j < |shape| && RuleIssues(shape[j], obj) != []
      && ShapeIssues(shape, obj)[0] == RuleIssues(shape[j], obj)[0]
      && ShapeValid(shape[..j], obj))
  {
    var head := RuleIssues(shape[0], obj);
    assert ShapeIssues(shape, obj) == head + ShapeIssues(shape[1..], obj);
    if head != [] {
      assert ShapeValid(shape[..0], obj);
    } else {
      FirstIssueIsFirstFailingKey(shape[1..], obj);
      var j :| 0 <= j < |shape[1..]| && RuleIssues(shape[1..][j], obj) != []
        && ShapeIssues(shape[1..], obj)[0] == RuleIssues(shape[1..][j], obj)[0]
        && ShapeValid(shape[1..][..j], obj);
      assert shape[1..][j] == shape[j + 1];
      var before := shape[..j + 1];
      forall i | 0 <= i < |before| ensures RuleIssues(before[i], obj) == [] {
        if i > 0 {
          assert before[i] == shape[1..][..j][i - 1];
        }
      }
    }
  }

  /** The rules of a prefix of a schema pass when all of them do. */
  lemma ValidPrefix(shape: seq<Rule>, obj: map<string, Json>, n: nat)
    requires n <= |shape| && ShapeValid(shape, obj)
    ensures ShapeValid(shape[..n], obj)
  {
    forall j | 0 <= j < n ensures RuleIssues(shape[..n][j], obj) == [] {
      assert shape[..n][j] == shape[j];
    }
  }

  /** When the rules before `j` pass and rule `j` fails, the object is refused with
      rule `j`'s first issue. */
  lemma FirstIssueAt(shape: seq<Rule>, obj: map<string, Json>, j: nat)
    requires j < |shape| && ShapeValid(shape[..j], obj) && RuleIssues(shape[j], obj) != []
    ensures ShapeIssues(shape, obj) != [] && ShapeIssues(shape, obj)[0] == RuleIssues(shape[j], obj)[0]
  {
    assert shape == shape[..j] + shape[j..];
    ShapeIssuesConcat(shape[..j], shape[j..], obj);
    NoIssuesIffValid(shape[..j], obj);
    assert shape[j..][0] == shape[j];
  }

  /** The issues of a schema extended by more keys are those of the two parts, in order. */
  lemma {:induction false} ShapeIssuesConcat(a: seq<Rule>, b: seq<Rule>, obj: map<string, Json>)
    ensures ShapeIssues(a + b, obj) == ShapeIssues(a, obj) + ShapeIssues(b, obj)
  {
    if a == [] {
      assert a + b == b;
    } else {
      assert (a + b)[0] == a[0];
      assert (a + b)[1..] == a[1..] + b;
      ShapeIssuesConcat(a[1..], b, obj);
    }
  }

  /** Keys the schema does not name have no effect on the issues. */
  lemma {:induction false} ShapeIssuesIgnoreOtherKeys(shape: seq<Rule>, obj: map<string, Json>, k: string, v: Json)
    requires forall j :: 0 <= j < |shape| ==> shape[j].key != k
    ensures ShapeIssues(shape, obj[k := v]) == ShapeIssues(shape, obj)
  {
    if shape != [] {
      assert shape[0].key != k;
      assert RuleIssues(shape[0], obj[k := v]) == RuleIssues(shape[0], obj);
      ShapeIssuesIgnoreOtherKeys(shape[1..], obj, k, v);
    }
  }

  /** The keys a schema names. */
  function Keys(shape: seq<Rule>): set<string> {
    set j | 0 <= j < |shape| :: shape[j].key
  }

  /** The object a successful validation hands on: only the keys the schema names. */
  function Strip(shape: seq<Rule>, obj: map<string, Json>): map<string, Json> {
    map k | k in obj && k in Keys(shape) :: obj[k]
  }

  /** Validation of a body: the first issue, or the stripped object. */
  function Validate(shape: seq<Rule>, body: Json): Result<map<string, Json>, Issue> {
    var issues := BodyIssues(shape, body);
    if issues != [] then Err(issues[0]) else Ok(Strip(shape, body.fields))
  }

  /** A body passes exactly when it is an object whose every key passes its rule;
      the object handed on keeps the named keys with their values and drops the rest. */
  lemma ValidateAccepts(shape: seq<Rule>, body: Json)
    ensures Validate(shape, body).Ok? <==> body.JObject? && ShapeValid(shape, body.fields)
    ensures Validate(shape, body).Ok? ==>
      && (forall k :: k in Validate(shape, body).value <==> k in body.fields && k in Keys(shape))
      && (forall k :: k in Validate(shape, body).value ==> Validate(shape, body).value[k] == body.fields[k])
  {
    if body.JObject? {
      NoIssuesIffValid(shape, body.fields);
    }
  }

  /** A refused object is refused for its first failing key, with that key's first issue. */
  lemma ValidateRefuses(shape: seq<Rule>, obj: map<string, Json>)
    requires Validate(shape, JObject(obj)).Err?
    ensures exists j :: (0 <= j < |shape| && RuleIssues(shape[j], obj) != []
      && Validate(shape, JObject(obj)).error == RuleIssues(shape[j], obj)[0]
      && ShapeValid(shape[..j], obj))
  {
    FirstIssueIsFirstFailingKey(shape, obj);
  }

  /** A key the schema does not name changes nothing, whatever its value. */
  lemma ValidateIgnoresOtherKeys(shape: seq<Rule>, obj: map<string, Json>, k: string, v: Json)
    requires k !in Keys(shape)
    ensures Validate(shape, JObject(obj[k := v])) == Validate(shape, JObject(obj))
  {
    forall j | 0 <= j < |shape| ensures shape[j].key != k {
      assert shape[j].key in Keys(shape);
    }
    ShapeIssuesIgnoreOtherKeys(shape, obj, k, v);
    assert Strip(shape, obj[k := v]) == Strip(shape, obj);
  }

  /** An object whose keys the schema all names is handed on whole. */
  lemma StripKeepsNamedKeys(shape: seq<Rule>, obj: map<string, Json>)
    requires forall k :: k in obj ==> k in Keys(shape)
    ensures Strip(shape, obj) == obj
  {
  }

  /** The same schema with every key optional. */
  function Partial(shape: seq<Rule>): (r: seq<Rule>)
    ensures |r| == |shape|
    ensures forall j :: 0 <= j < |shape| ==> r[j] == shape[j].(optional := true)
  {
    seq(|shape|, j requires 0 <= j < |shape| => shape[j].(optional := true))
  }

  lemma PartialKeys(shape: seq<Rule>)
    ensures Keys(Partial(shape)) == Keys(shape)
  {
    var r := Partial(shape);
    forall k | k in Keys(shape) ensures k in Keys(r) {
      var j :| 0 <= j < |shape| && shape[j].key == k;
      assert r[j].key == k;
    }
  }

  /** With every key optional, an empty object has no issues. */
  lemma PartialAcceptsEmpty(shape: seq<Rule>)
    ensures ShapeIssues(Partial(shape), map[]) == []
  {
    NoIssuesIffValid(Partial(shape), map[]);
  }

  /** An issue path written with "." between its steps, as the error body's `field`. */
  function JoinPath(path: seq<PathSeg>): string {
    if path == [] then ""
    else
      var first := match path[0] case Key(name) => name case Index(i) => NatToString(i);
      if |path| == 1 then first else first + "." + JoinPath(path[1..])
  }

  lemma JoinPathOfElement(key: string, i: nat)
    ensures JoinPath([Key(key), Index(i)]) == key + "." + NatToString(i)
  {
    assert [Key(key), Index(i)][1..] == [Index(i)];
  }

  // ---------------------------------------------------------------------------
  // Reading the value of a key of an object that passed validation

  function StringAt(obj: map<string, Json>, key: string): string {
    if key in obj && obj[key].JString? then obj[key].s else ""
  }

  function OptionalString(obj: map<string, Json>, key: string): Field<string> {
    if key in obj && obj[key].JString? then Present(obj[key].s) else Absent
  }

  function NullableString(obj: map<string, Json>, key: string): Field<Option<string>> {
    if key !in obj then Absent
    else if obj[key].JString? then Present(Some(obj[key].s))
    else Present(None)
  }

  function NullableNumber(obj: map<string, Json>, key: string): Field<Option<int>> {
    if key !in obj then Absent
    else if obj[key].JNumber? then Present(Some(obj[key].n))
    else Present(None)
  }

  /** A date read from a key that passed its rule: null or the coerced date. */
  function NullableDate(obj: map<string, Json>, key: string): Field<Option<int>> {
    if key !in obj then Absent
    else if obj[key].JNull? then Present(None)
    else Present(CoerceDate(obj[key]))
  }

  function Numbers(items: seq<Json>): seq<int> {
    if items == [] then []
    else (if items[0].JNumber? then [items[0].n] else []) + Numbers(items[1..])
  }

  function OptionalNumbers(obj: map<string, Json>, key: string): Field<seq<int>> {
    if key in obj && obj[key].JArray? then Present(Numbers(obj[key].items)) else Absent
  }

  // ---------------------------------------------------------------------------
  // Writing values as a body

  function NumberValues(ns: seq<int>): (r: seq<Json>)
    ensures |r| == |ns|
    ensures forall i :: 0 <= i < |ns| ==> r[i] == JNumber(ns[i])
  {
    if ns == [] then [] else [JNumber(ns[0])] + NumberValues(ns[1..])
  }

  lemma {:induction false} NumbersRoundTrip(ns: seq<int>)
    ensures Numbers(NumberValues(ns)) == ns
  {
    if ns != [] {
      NumbersRoundTrip(ns[1..]);
      assert NumberValues(ns)[1..] == NumberValues(ns[1..]);
    }
  }

  /** An array of numbers has no element issues, wherever it sits. */
  lemma {:induction false} NumberElementsPass(items: seq<Json>, i: nat, path: seq<PathSeg>)
    requires forall x :: x in items ==> x.JNumber?
    ensures ElementIssues(items, i, path) == []
    decreases |items|
  {
    if items != [] {
      assert items[0] in items;
      NumberElementsPass(items[1..], i + 1, path);
    }
  }

  function PutString(obj: map<string, Json>, key: string, f: Field<string>): map<string, Json> {
    if f.Present? then obj[key := JString(f.value)] else obj
  }

  /** The value sent for a column: nothing when it is left out. */
  function StringEntry(f: Field<string>): Option<Json> {
    if f.Present? then Some(JString(f.value)) else None
  }

  function NullableStringEntry(f: Field<Option<string>>): Option<Json> {
    match f
    case Absent => None
    case Present(None) => Some(JNull)
    case Present(Some(s)) => Some(JString(s))
  }

  function NullableNumberEntry(f: Field<Option<int>>): Option<Json> {
    match f
    case Absent => None
    case Present(None) => Some(JNull)
    case Present(Some(n)) => Some(JNumber(n))
  }

  function NullableDateEntry(f: Field<Option<int>>): Option<Json> {
    match f
    case Absent => None
    case Present(None) => Some(JNull)
    case Present(Some(t)) => Some(JString(DateText(t)))
  }

  function NumbersEntry(f: Field<seq<int>>): Option<Json> {
    if f.Present? then Some(JArray(NumberValues(f.value))) else None
  }

  /** A date field that sends a date, as opposed to one left out or null. */
  predicate SendsDate(f: Field<Option<int>>) {
    f.Present? && f.value.Some?
  }

  /** Key `k` of `obj` holds exactly the value `e` sends (and is missing when it sends none). */
  predicate HasEntry(obj: map<string, Json>, k: string, e: Option<Json>) {
    (k in obj <==> e.Some?) && (k in obj ==> obj[k] == e.value)
  }

  /** A column sent as a string reads back unchanged and passes its rule. */
  lemma ReadString(obj: map<string, Json>, k: string, f: Field<string>, optional: bool)
    requires HasEntry(obj, k, StringEntry(f))
    ensures OptionalString(obj, k) == f
    ensures f.Present? ==> StringAt(obj, k) == f.value
    ensures optional || f.Present? ==> RuleIssues(Rule(k, StringKind, optional, false), obj) == []
  {
  }

  lemma ReadNullableString(obj: map<string, Json>, k: string, f: Field<Option<string>>, optional: bool)
    requires HasEntry(obj, k, NullableStringEntry(f))
    ensures NullableString(obj, k) == f
    ensures optional || f.Present? ==> RuleIssues(Rule(k, StringKind, optional, true), obj) == []
  {
  }

  lemma ReadNullableNumber(obj: map<string, Json>, k: string, f: Field<Option<int>>, optional: bool)
    requires HasEntry(obj, k, NullableNumberEntry(f))
    ensures NullableNumber(obj, k) == f
    ensures optional || f.Present? ==> RuleIssues(Rule(k, NumberKind, optional, true), obj) == []
  {
  }

  /** A date column sent as a string reads back unchanged and passes the coercing
      rule; the strict rule passes it only when no date is sent (left out or null),
      and refuses a sent date as a string. */
  lemma ReadNullableDate(obj: map<string, Json>, k: string, f: Field<Option<int>>, optional: bool)
    requires HasEntry(obj, k, NullableDateEntry(f))
    ensures NullableDate(obj, k) == f
    ensures optional || f.Present? ==> RuleIssues(Rule(k, CoercedDateKind, optional, true), obj) == []
    ensures (optional || f.Present?) && !SendsDate(f) ==> RuleIssues(Rule(k, DateKind, optional, true), obj) == []
    ensures SendsDate(f) ==>
      RuleIssues(Rule(k, DateKind, optional, true), obj) == [Issue("Expected date, received string", [Key(k)])]
  {
    if SendsDate(f) {
      DateTextRoundTrip(f.value.value);
      TextForDateMessage(obj[k]);
    }
  }

  lemma ReadNumbers(obj: map<string, Json>, k: string, f: Field<seq<int>>, optional: bool)
    requires HasEntry(obj, k, NumbersEntry(f))
    ensures OptionalNumbers(obj, k) == f
    ensures optional || f.Present? ==> RuleIssues(Rule(k, NumberArrayKind, optional, false), obj) == []
  {
    if f.Present? {
      NumbersRoundTrip(f.value);
      NumberElementsPass(NumberValues(f.value), 0, [Key(k)]);
    }
  }
}
