/**
 * A small interpreter for the object schemas the forms declare: each field
 * has a base type and an ordered list of checks, each with a message. A
 * value of the wrong type yields only the type's message; otherwise every
 * failing check contributes its message, in declaration order. Email and
 * phone-number validity belong to outside libraries and are given as
 * predicates.
 */
module Schema {
  import opened Wrappers

  /** A form value: text, a number (fractions play no part in any rule),
      `NaN`, a list of strings, or `undefined`. */
  datatype Value = Text(text: string) | Number(n: int) | NotANumber | TextList(entries: seq<string>) | Undefined

  /** Which of the library's default wordings a message is: `"Required"` for
      a missing value, `"Expected <type>, received <type>"` for a value of
      the wrong type, and `"String must contain at most <n> character(s)"`
      for a failed maximum length. */
  datatype DefaultKind = Missing | InvalidType(expected: BaseType, received: string) | TooLong(max: nat)

  /** A custom message, or one of the library's default wordings. */
  datatype Message = Custom(text: string) | LibraryDefault(kind: DefaultKind)

  datatype BaseType = StringType | NumberType | StringArrayType

  datatype Check =
    | MinLength(n: nat, message: Message)
    | MaxLength(n: nat, message: Message)
    | Email(message: Message)
    | Phone(message: Message)

  /** One field: its key, base type, the custom message (if any) for a
      missing or wrong-typed value, and checks in order. */
  datatype FieldSpec = FieldSpec(name: string, base: BaseType, typeMessage: Option<string>, checks: seq<Check>)

  /** The outside predicates: the email-format test, and phone parsing, which
      yields nothing or a parsed number with its `isValid()` answer. */
  datatype Oracles = Oracles(isEmail: string -> bool, parsePhone: string -> Option<bool>)

  /** One reported problem: the field's key and the message. */
  datatype Issue = Issue(field: string, message: Message)

  predicate HasType(base: BaseType, v: Value) {
    match base
    case StringType => v.Text?
    case NumberType => v.Number?
    case StringArrayType => v.TextList?
  }

  /** Length as `.min`/`.max`/`.nonempty` measure it. */
  function Length(v: Value): nat {
    match v
    case Text(s) => |s|
    case TextList(xs) => |xs|
    case _ => 0
  }

  predicate CheckPasses(c: Check, v: Value, oracles: Oracles) {
    match c
    case MinLength(n, _) => Length(v) >= n
    case MaxLength(n, _) => Length(v) <= n
    case Email(_) => v.Text? && oracles.isEmail(v.text)
    case Phone(_) => v.Text? && oracles.parsePhone(v.text) == Some(true)
  }

  /** Messages of the failing checks, in order. */
  function FailedChecks(checks: seq<Check>, v: Value, oracles: Oracles): (r: seq<Message>)
    ensures |r| <= |checks|
    ensures r == [] <==> forall i :: 0 <= i < |checks| ==> CheckPasses(checks[i], v, oracles)
    ensures forall m :: m in r ==> exists i :: 0 <= i < |checks| && checks[i].message == m && !CheckPasses(checks[i], v, oracles)
    ensures forall i :: 0 <= i < |checks| && !CheckPasses(checks[i], v, oracles) ==> checks[i].message in r
  {
    if checks == [] then []
    else
      var rest := FailedChecks(checks[1..], v, oracles);
      assert forall i :: 1 <= i < |checks| ==> checks[i] == checks[1..][i - 1];
      if CheckPasses(checks[0], v, oracles) then rest else [checks[0].message] + rest
  }

  /** The type name the library puts after "received". */
  function Received(v: Value): string {
    match v
    case Text(_) => "string"
    case Number(_) => "number"
    case NotANumber => "nan"
    case TextList(_) => "array"
    case Undefined => "undefined"
  }

  /** The message for a missing or wrong-typed value: the field's custom
      message when it has one, else "Required" for a missing value and the
      expected/received wording for any other. */
  function TypeMessage(spec: FieldSpec, v: Value): (m: Message)
    ensures spec.typeMessage.Some? ==> m == Custom(spec.typeMessage.value)
    ensures spec.typeMessage.None? && v == Undefined ==> m == LibraryDefault(Missing)
    ensures spec.typeMessage.None? && v != Undefined ==> m == LibraryDefault(InvalidType(spec.base, Received(v)))
  {
    match spec.typeMessage
    case Some(text) => Custom(text)
    case None => if v == Undefined then LibraryDefault(Missing) else LibraryDefault(InvalidType(spec.base, Received(v)))
  }

  /** The messages a field reports for a value. */
  function FieldIssues(spec: FieldSpec, v: Value, oracles: Oracles): (r: seq<Message>)
    ensures !HasType(spec.base, v) ==> r == [TypeMessage(spec, v)]
    ensures r == [] <==> HasType(spec.base, v) && forall i :: 0 <= i < |spec.checks| ==> CheckPasses(spec.checks[i], v, oracles)
  {
    if !HasType(spec.base, v) then [TypeMessage(spec, v)] else FailedChecks(spec.checks, v, oracles)
  }

  /** A missing key reads as `undefined`. */
  function Lookup(values: map<string, Value>, key: string): Value {
    if key in values then values[key] else Undefined
  }

  /** The issues of every field of a schema, in field order. */
  function SchemaIssues(schema: seq<FieldSpec>, values: map<string, Value>, oracles: Oracles): (r: seq<Issue>)
    ensures forall e :: e in r ==>
              exists i :: 0 <= i < |schema| && schema[i].name == e.field
                          && e.message in FieldIssues(schema[i], Lookup(values, schema[i].name), oracles)
    ensures forall i, m :: 0 <= i < |schema| && m in FieldIssues(schema[i], Lookup(values, schema[i].name), oracles) ==>
              Issue(schema[i].name, m) in r
  {
    if schema == [] then []
    else
      var first := FieldIssues(schema[0], Lookup(values, schema[0].name), oracles);
      var rest := SchemaIssues(schema[1..], values, oracles);
      assert forall i :: 1 <= i < |schema| ==> schema[i] == schema[1..][i - 1];
      var head := seq(|first|, k requires 0 <= k < |first| => Issue(schema[0].name, first[k]));
      assert forall k :: 0 <= k < |first| ==> head[k] == Issue(schema[0].name, first[k]);
      assert forall m :: m in first ==> Issue(schema[0].name, m) in head;
      head + rest
  }

  /** A value object passes a schema when every field passes. */
  predicate FieldValid(spec: FieldSpec, values: map<string, Value>, oracles: Oracles) {
    FieldIssues(spec, Lookup(values, spec.name), oracles) == []
  }

  /** A schema reports no issue exactly when every one of its fields passes. */
  lemma {:induction false} SchemaValidIffFieldsValid(schema: seq<FieldSpec>, values: map<string, Value>, oracles: Oracles)
    ensures SchemaIssues(schema, values, oracles) == [] <==>
              forall i :: 0 <= i < |schema| ==> FieldValid(schema[i], values, oracles)
  {
    if schema != [] {
      SchemaValidIffFieldsValid(schema[1..], values, oracles);
      assert forall i :: 1 <= i < |schema| ==> schema[i] == schema[1..][i - 1];
    }
  }
}
