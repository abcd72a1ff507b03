/**
 * The schema builder (src/validation/schema.ts) and a model of the checks
 * the built schema performs. A schema maps each form name to a record
 * schema, which maps each field name to the rule its type selects; data maps
 * each form name to an array of records. Whether a value "is an email" or
 * "coerces to a number" is decided by the validation library and is taken
 * here as a parameter.
 */
module ValidationSchema {
  import opened Wrappers
  import opened FormTypes
  import opened LastWriteWins

  /** The three rules a field can get. */
  datatype Rule = Email | Number | Text

  type RecordSchema = map<string, Rule>
  type Schema = map<string, RecordSchema>

  const RequiredMessage := "必須項目です"
  const InvalidEmailMessage := "有効なメールアドレスを入力してください"
  const NotANumberMessage := "数値で入力してください"

  /** The rule a field type selects; every type other than "email" and "number" is free text. */
  function RuleFor(fieldType: string): (r: Rule)
    ensures r == Email <==> fieldType == "email"
    ensures r == Number <==> fieldType == "number"
    ensures r == Text <==> fieldType != "email" && fieldType != "number"
  {
    if fieldType == "email" then Email
    else if fieldType == "number" then Number
    else Text
  }

  function FieldKey(field: FormField): string { field.fieldName }
  function FieldRule(field: FormField): Rule { RuleFor(field.fieldType) }
  function FormKey(form: FormData): string { form.name }

  /** The record schema the inner loop writes for a list of sub-fields. */
  function RecordSchemaOf(subFields: seq<FormField>): RecordSchema
  {
    Assign(subFields, FieldKey, FieldRule)
  }

  function FormSchema(form: FormData): RecordSchema { RecordSchemaOf(form.subFields) }

  /** The schema the outer loop writes for a list of forms. */
  function SchemaOf(forms: seq<FormData>): Schema
  {
    Assign(forms, FormKey, FormSchema)
  }

  /**
   * The inner `forEach` (schema.ts lines 8-26): one rule per field name, the
   * last field with a name deciding its rule.
   */
  method BuildRecordSchema(subFields: seq<FormField>) returns (shape: RecordSchema)
    ensures shape == RecordSchemaOf(subFields)
    ensures shape.Keys == set field | field in subFields :: field.fieldName
    ensures forall q :: LastWithKey(subFields, FieldKey, q) ==>
              shape[subFields[q].fieldName] == RuleFor(subFields[q].fieldType)
  {
    shape := map[];
    var i := 0;
    while i < |subFields|
      invariant 0 <= i <= |subFields|
      invariant shape == Assign(subFields[..i], FieldKey, FieldRule)
    {
      var field := subFields[i];
      if field.fieldType == "email" {
        shape := shape[field.fieldName := Email];
      } else if field.fieldType == "number" {
        shape := shape[field.fieldName := Number];
      } else {
        shape := shape[field.fieldName := Text];
      }
      assert subFields[..i + 1][..i] == subFields[..i];
      i := i + 1;
    }
    assert subFields[..i] == subFields;
    AssignKeys(subFields, FieldKey, FieldRule);
    forall q | LastWithKey(subFields, FieldKey, q)
      ensures shape[subFields[q].fieldName] == RuleFor(subFields[q].fieldType)
    {
      AssignLastWins(subFields, FieldKey, FieldRule, q);
    }
  }

  /**
   * `createValidationSchema(forms)`: one entry per form name, built from the
   * last form carrying that name.
   */
  method CreateValidationSchema(forms: seq<FormData>) returns (schema: Schema)
    ensures schema == SchemaOf(forms)
    ensures schema.Keys == set form | form in forms :: form.name
    ensures forall j :: LastWithKey(forms, FormKey, j) ==>
              schema[forms[j].name] == RecordSchemaOf(forms[j].subFields)
  {
    schema := map[];
    var i := 0;
    while i < |forms|
      invariant 0 <= i <= |forms|
      invariant schema == Assign(forms[..i], FormKey, FormSchema)
    {
      var form := forms[i];
      var subFieldSchemas := BuildRecordSchema(form.subFields);
      schema := schema[form.name := subFieldSchemas];
      assert forms[..i + 1][..i] == forms[..i];
      i := i + 1;
    }
    assert forms[..i] == forms;
    AssignKeys(forms, FormKey, FormSchema);
    forall j | LastWithKey(forms, FormKey, j)
      ensures schema[forms[j].name] == RecordSchemaOf(forms[j].subFields)
    {
      AssignLastWins(forms, FormKey, FormSchema, j);
    }
  }

  /** The data values the model distinguishes. */
  datatype Value = Null | Str(text: string) | Num(number: int)

  /** The library's coercion tests, which the model does not define. */
  datatype Predicates = Predicates(isEmail: Value -> bool, isNumeric: Value -> bool)

  type Record = map<string, Value>
  type Data = map<string, seq<Record>>

  function Lookup(record: Record, key: string): Option<Value>
  {
    if key in record then Some(record[key]) else None
  }

  /** Missing, null or the empty string: what `required()` rejects for a string. */
  predicate Blank(v: Option<Value>)
  {
    v == None || v == Some(Null) || v == Some(Str(""))
  }

  /** The message a rule reports for a value, or None when the value passes. */
  function FieldError(rule: Rule, v: Option<Value>, preds: Predicates): (e: Option<string>)
    ensures e.Some? ==> e.value in {RequiredMessage, InvalidEmailMessage, NotANumberMessage}
    ensures rule == Text ==> (e.None? <==> !Blank(v)) && (e.Some? ==> e.value == RequiredMessage)
    ensures rule == Email ==>
              (e == Some(RequiredMessage) <==> Blank(v))
              && (e == Some(InvalidEmailMessage) <==> !Blank(v) && !preds.isEmail(v.value))
    ensures rule == Number ==>
              (e == Some(RequiredMessage) <==> v == None || v == Some(Null))
              && (e == Some(NotANumberMessage) <==> v != None && v != Some(Null) && !preds.isNumeric(v.value))
    ensures e == Some(InvalidEmailMessage) ==> rule == Email
    ensures e == Some(NotANumberMessage) ==> rule == Number
  {
    match rule
    case Text => if Blank(v) then Some(RequiredMessage) else None
    case Email =>
      if Blank(v) then Some(RequiredMessage)
      else if !preds.isEmail(v.value) then Some(InvalidEmailMessage)
      else None
    case Number =>
      if v == None || v == Some(Null) then Some(RequiredMessage)
      else if !preds.isNumeric(v.value) then Some(NotANumberMessage)
      else None
  }

  /** Where a failure is reported: form name, record index, field name. */
  datatype Path = Path(form: string, index: nat, field: string)

  /** The field at `p` has a rule in `schema`, and the value there fails it. */
  predicate FailsAt(schema: Schema, data: Data, preds: Predicates, p: Path)
  {
    && p.form in schema && p.form in data
    && p.index < |data[p.form]|
    && p.field in schema[p.form]
    && FieldError(schema[p.form][p.field], Lookup(data[p.form][p.index], p.field), preds).Some?
  }

  /** The message of the failure at `p`. */
  function MessageAt(schema: Schema, data: Data, preds: Predicates, p: Path): string
    requires FailsAt(schema, data, preds, p)
  {
    FieldError(schema[p.form][p.field], Lookup(data[p.form][p.index], p.field), preds).value
  }

  datatype Outcome = Valid | Invalid(path: Path, message: string)

  /**
   * `schema.validateSync(data)`: success when no field fails, otherwise one
   * failing field and its message (which one is left open, as the library's
   * order is not modelled).
   */
  method ValidateSync(schema: Schema, data: Data, preds: Predicates) returns (r: Outcome)
    ensures r == Valid <==> forall p :: !FailsAt(schema, data, preds, p)
    ensures r.Invalid? ==> FailsAt(schema, data, preds, r.path) && r.message == MessageAt(schema, data, preds, r.path)
  {
    var failures := set f, i, k | f in schema && f in data && 0 <= i < |data[f]| && k in schema[f]
                                  && FieldError(schema[f][k], Lookup(data[f][i], k), preds).Some?
                                  :: Path(f, i, k);
    forall p | FailsAt(schema, data, preds, p) ensures p in failures {
      assert p == Path(p.form, p.index, p.field);
    }
    if failures == {} {
      r := Valid;
    } else {
      var p :| p in failures;
      r := Invalid(p, MessageAt(schema, data, preds, p));
    }
  }

  /**
   * A failure of a built schema happens exactly where the last form with the
   * path's name declares, as its last field with the path's field name, a
   * field whose rule rejects the value there.
   */
  lemma {:induction false} BuiltSchemaFailsAt(forms: seq<FormData>, data: Data, preds: Predicates, p: Path, j: nat, q: nat)
    requires LastWithKey(forms, FormKey, j) && forms[j].name == p.form
    requires LastWithKey(forms[j].subFields, FieldKey, q) && forms[j].subFields[q].fieldName == p.field
    ensures FailsAt(SchemaOf(forms), data, preds, p) <==>
              && p.form in data && p.index < |data[p.form]|
              && FieldError(RuleFor(forms[j].subFields[q].fieldType), Lookup(data[p.form][p.index], p.field), preds).Some?
  {
    AssignLastWins(forms, FormKey, FormSchema, j);
    AssignLastWins(forms[j].subFields, FieldKey, FieldRule, q);
  }

  /** Only declared form names and field names can fail; extra keys in the data are ignored. */
  lemma {:induction false} OnlyDeclaredFieldsFail(forms: seq<FormData>, data: Data, preds: Predicates, p: Path)
    requires FailsAt(SchemaOf(forms), data, preds, p)
    ensures exists j, q :: LastWithKey(forms, FormKey, j) && forms[j].name == p.form
              && 0 <= q < |forms[j].subFields| && forms[j].subFields[q].fieldName == p.field
  {
    AssignKeys(forms, FormKey, FormSchema);
    var form :| form in forms && form.name == p.form;
    var j :| 0 <= j < |forms| && forms[j] == form;
    // The schema entry of p.form is the record schema of the last form named p.form.
    var last := LastIndex(forms, j);
    AssignLastWins(forms, FormKey, FormSchema, last);
    AssignKeys(forms[last].subFields, FieldKey, FieldRule);
    var field :| field in forms[last].subFields && field.fieldName == p.field;
    var q :| 0 <= q < |forms[last].subFields| && forms[last].subFields[q] == field;
  }

  /** The last position with the same form name as position j. */
  function LastIndex(forms: seq<FormData>, j: nat): (last: nat)
    requires j < |forms|
    ensures j <= last && LastWithKey(forms, FormKey, last) && forms[last].name == forms[j].name
    decreases |forms| - j
  {
    if exists k :: j < k < |forms| && forms[k].name == forms[j].name then
      var k :| j < k < |forms| && forms[k].name == forms[j].name;
      LastIndex(forms, k)
    else j
  }

  /** Unit-test scenario: an empty list of forms gives a schema without keys, which accepts any data. */
  lemma EmptyFormsAcceptEverything(data: Data, preds: Predicates)
    ensures SchemaOf([]) == map[]
    ensures forall p :: !FailsAt(SchemaOf([]), data, preds, p)
  {
  }

  /** Unit-test scenario: two forms with one name give one key, built from the later form. */
  lemma {:induction false} DuplicateNameLaterWins(first: FormData, second: FormData)
    requires first.name == second.name
    ensures SchemaOf([first, second]).Keys == {second.name}
    ensures SchemaOf([first, second])[second.name] == RecordSchemaOf(second.subFields)
  {
    AssignSnoc([], first, FormKey, FormSchema);
    AssignSnoc([first], second, FormKey, FormSchema);
    assert [] + [first] == [first] && [first] + [second] == [first, second];
    assert SchemaOf([first]).Keys == {first.name};
  }

  /** Unit-test scenario: a form without sub-fields accepts any array of records, `[{}]` included. */
  lemma {:induction false} NoSubFieldsAcceptsAnyRecords(id: string, name: string, records: seq<Record>, preds: Predicates)
    ensures SchemaOf([FormData(id, name, [])]) == map[name := map[]]
    ensures forall p :: !FailsAt(SchemaOf([FormData(id, name, [])]), map[name := records], preds, p)
  {
    AssignSnoc([], FormData(id, name, []), FormKey, FormSchema);
  }

  /** Unit-test scenario: an "unknown-type" field is free text: "" fails as required, "some value" passes. */
  lemma UnknownTypeIsText(preds: Predicates)
    ensures var form := FormData("form1", "unknownForm", [FormField("unknownForm_custom_1234", "custom", "unknown-type", "カスタム")]);
            var schema := SchemaOf([form]);
            var p := Path("unknownForm", 0, "custom");
            && FailsAt(schema, map["unknownForm" := [map["custom" := Str("")]]], preds, p)
            && MessageAt(schema, map["unknownForm" := [map["custom" := Str("")]]], preds, p) == RequiredMessage
            && forall p' :: !FailsAt(schema, map["unknownForm" := [map["custom" := Str("some value")]]], preds, p')
  {
  }

  /**
   * Unit-test scenario: with a valid first record and a second record whose name is empty,
   * the array is rejected, and the second record's name is a failing field.
   */
  lemma OneBadRecordRejectsArray(preds: Predicates)
    requires preds.isEmail(Str("john@example.com"))
    ensures var forms := [FormData("form1", "testForm", [
                             FormField("testForm_name_1234", "name", "text", "名前"),
                             FormField("testForm_email_5678", "email", "email", "メールアドレス")])];
            var data := map["testForm" := [
                          map["name" := Str("John"), "email" := Str("john@example.com")],
                          map["name" := Str(""), "email" := Str("invalid-email")]]];
            && FailsAt(SchemaOf(forms), data, preds, Path("testForm", 1, "name"))
            && MessageAt(SchemaOf(forms), data, preds, Path("testForm", 1, "name")) == RequiredMessage
            && !FailsAt(SchemaOf(forms), data, preds, Path("testForm", 0, "name"))
            && !FailsAt(SchemaOf(forms), data, preds, Path("testForm", 0, "email"))
  {
  }

  /**
   * Unit-test scenario: an "email" field rejects "invalid-email" with the
   * address message and accepts "test@example.com"; a "number" field rejects
   * "not a number" with the number message and accepts 25.
   */
  lemma EmailAndNumberFields(preds: Predicates)
    requires !preds.isEmail(Str("invalid-email")) && preds.isEmail(Str("test@example.com"))
    requires !preds.isNumeric(Str("not a number")) && preds.isNumeric(Num(25))
    ensures var schema := SchemaOf([FormData("form1", "emailForm", [FormField("emailForm_email_1234", "email", "email", "メール")]),
                                    FormData("form2", "numberForm", [FormField("numberForm_age_1234", "age", "number", "年齢")])]);
            var bad := map["emailForm" := [map["email" := Str("invalid-email")]], "numberForm" := [map["age" := Str("not a number")]]];
            var good := map["emailForm" := [map["email" := Str("test@example.com")]], "numberForm" := [map["age" := Num(25)]]];
            && FailsAt(schema, bad, preds, Path("emailForm", 0, "email"))
            && MessageAt(schema, bad, preds, Path("emailForm", 0, "email")) == InvalidEmailMessage
            && FailsAt(schema, bad, preds, Path("numberForm", 0, "age"))
            && MessageAt(schema, bad, preds, Path("numberForm", 0, "age")) == NotANumberMessage
            && forall p :: !FailsAt(schema, good, preds, p)
  {
  }
}
