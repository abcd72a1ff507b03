# Dynamic form builder: a Dafny model

This project models the logic of a small client-side form builder. Users add
a bounded number of repeated "contact" forms, and the data is validated
against a schema derived from the forms' field types. Three units carry the
logic:

- **`DynamicForm`** (`dynamic_form.dfy`, module `DynamicForms`): an ordered
  collection of form instances with bounds `fieldMin` and `fieldMax` that are
  fixed at construction. `AddField` appends a copy of a template. The copy's
  `id` and sub-field `name`s get fresh random suffixes. Adding is ignored at or
  above the maximum. `RemoveField` applies JavaScript's `splice(index, 1)` and
  is ignored at or below the minimum. `RemoveAllFields` always empties the
  collection. The class keeps the collection in a `seq` field that its
  methods reassign, and the bounds are `const` fields. The random generator
  `nanoid(4)` becomes a `SuffixSource` object. Its n-th call returns
  `tokens(n)` for an injected token stream `tokens`.
- **`createValidationSchema`** (`validation_schema.dfy`, module
  `ValidationSchema`): two nested loops fold the forms into a map from form
  name to record schema. A record schema maps each `fieldName` to a rule:
  `"email"` gives `Email`, `"number"` gives `Number`, and every other type
  gives `Text`. A later write overwrites an earlier one. The generic fold and
  its last-write-wins lemmas are in `last_write_wins.dfy`. The module also
  models what the built schema checks. `FieldError` gives each rule's fixed
  message, `FailsAt` says which field of which record fails, and
  `ValidateSync` reports success or one failing field with its message.
- **`useFormStore`** (`form_store.dfy`, module `FormStores`): a list of
  `{name, email}` records with `AddForm`, `RemoveForm` and `ResetStore`, and
  no bounds.

`DynamicForm.removeField` and the store's `removeForm` share one removal
rule, `ArraySplice.Splice1` (`array_splice.dfy`). It models
`Array.prototype.splice(start, 1)`:

- a negative start counts from the end and is clamped at 0;
- a start at or past the end removes nothing;
- the call never fails.

The shared records of `src/types/form.ts` are in `form_types.dfy`. The
members `type` and `label` are renamed `fieldType` and `fieldLabel` because
both words are Dafny keywords.

Two points of the code are easy to miss:

- The class does not enforce `fieldMin ≤ length ≤ fieldMax`. The test at
  tests/unit/utils/DynamicForm.test.ts:35 builds a manager with one field and
  minimum 2. The model states the bound as `WithinBounds()`. `AddField` and
  `RemoveField` preserve it, and the constructor does not establish it.
  `RemoveAllFields` empties the collection whatever the minimum is, so it
  breaks the lower bound whenever `fieldMin > 0`.
- A removal above the minimum with an index at or past the end removes
  nothing, because `splice` removes nothing there. `RemoveField` does the
  same.

The numbers in the test scenarios below come from the repository's unit
tests. The scenario methods and lemmas restate those tests on the model.

## Model

| member | source | states |
|---|---|---|
| `ArraySplice.Splice1` | src/stores/formStore.ts:19 | splice(start, 1) removes one element exactly when the array is non-empty and start < length (a negative start counts from the end), and otherwise keeps the length |
| `ArraySplice.RemovesAt` | src/utils/DynamicForm.ts:52 | an in-range index removes exactly that element, keeps the others in their original order, and re-inserting the element restores the array |
| `ArraySplice.NegativeStart` | src/stores/formStore.ts:18-20 | a negative index removes at max(len + i, 0), so -1 removes the last element; on an empty array it removes nothing |
| `ArraySplice.PastEnd` | src/stores/formStore.ts:18-20 | an index at or past the end leaves the array unchanged |
| `ArraySplice.SubMultiset` | src/utils/DynamicForm.ts:52 | removal never adds or duplicates elements: it loses at most one element |
| `ArraySplice.RemovedIsGone` | src/utils/DynamicForm.ts:48-53 | with no repeated elements, the removed element no longer occurs |
| `LastWriteWins.AssignKeys` | src/validation/schema.ts:5-31 | the dictionary the loop writes has exactly the keys of the elements it walks |
| `LastWriteWins.AssignLastWins` | src/validation/schema.ts:28 | each key holds the value written by the last element with that key |
| `DynamicForms.SuffixSource.constructor` | src/utils/DynamicForm.ts:2 | the generator starts at the beginning of its token stream |
| `DynamicForms.SuffixSource.Next` | src/utils/DynamicForm.ts:36 | each `nanoid(4)` call returns the next token of the stream |
| `DynamicForms.Instantiate` | src/utils/DynamicForm.ts:32-44 | the new instance keeps the template's name; its id starts with `name_`; it has the template's sub-fields in order, each keeping fieldName, type and label and renamed with prefix `name_fieldName_` |
| `DynamicForms.IdentifierShape` | src/utils/DynamicForm.ts:36-41 | sub-field k is named `name_fieldName_` plus the k-th token drawn for the call, and the id is `name_` plus the token drawn after them |
| `DynamicForms.DistinctTokensDistinctNames` | src/utils/DynamicForm.ts:41 | names ending in distinct tokens of equal length differ, whatever their prefixes |
| `DynamicForms.IdentifiersDistinct` | src/utils/DynamicForm.ts:33-44 | identifiers drawn at different token positions (within one instance or across instances) differ when those tokens are distinct and both 4 characters long, the length of a `nanoid(4)` token |
| `DynamicForms.SuccessiveIdsDistinct` | src/utils/DynamicForm.ts:41 | two successive additions of one template get distinct ids when their id tokens differ |
| `DynamicForms.DynamicForm.constructor` | src/utils/DynamicForm.ts:5-9 | the manager adopts the given instances and bounds without checking them against each other |
| `DynamicForms.DynamicForm.Default` | src/utils/DynamicForm.ts:5-9 | the default arguments are no instances, minimum 1 and maximum 1 |
| `DynamicForms.DynamicForm.AddField` | src/utils/DynamicForm.ts:27-46 | at or above the maximum nothing changes and no token is drawn; below it exactly one instance built from the next tokens is appended and earlier instances are unchanged; it never pushes the length past the maximum and it preserves WithinBounds |
| `DynamicForms.DynamicForm.RemoveField` | src/utils/DynamicForm.ts:48-53 | at or below the minimum nothing changes for any index; above it the collection becomes splice(index, 1) of the old one; the length never drops below the minimum and WithinBounds is preserved |
| `DynamicForms.DynamicForm.RemoveAllFields` | src/utils/DynamicForm.ts:55-57 | the collection becomes empty whatever the minimum is, so the bounds hold afterwards exactly when fieldMin <= 0 <= fieldMax; the bounds are constants |
| `DynamicForms.FiveAddsStopAtMax` | tests/unit/utils/DynamicForm.test.ts:68-74 | with bounds [1, 3], five additions leave three instances |
| `DynamicForms.ZeroMaxAddsNothing` | tests/unit/utils/DynamicForm.test.ts:186-191 | with bounds [0, 0] an addition is ignored |
| `DynamicForms.EqualBounds` | tests/unit/utils/DynamicForm.test.ts:193-203 | with bounds [2, 2], three additions give two instances and a removal is ignored |
| `DynamicForms.RemoveFirstOfTwo` | tests/unit/utils/DynamicForm.test.ts:132-142 | after two additions and removeField(0), only the second instance's id remains and it differs from the first's |
| `DynamicForms.ClearTwice` | tests/unit/utils/DynamicForm.test.ts:145-164 | clearing twice gives length 0 and leaves the bounds 1 and 3 |
| `ValidationSchema.RuleFor` | src/validation/schema.ts:11-25 | "email" selects Email, "number" selects Number, and every other type string selects Text |
| `ValidationSchema.BuildRecordSchema` | src/validation/schema.ts:8-26 | the record schema's keys are exactly the sub-fields' fieldNames, each holding the rule of the last sub-field with that fieldName |
| `ValidationSchema.CreateValidationSchema` | src/validation/schema.ts:4-34 | the schema's keys are exactly the forms' names (none for no forms), each holding the record schema of the last form with that name |
| `ValidationSchema.FieldError` | src/validation/schema.ts:12-24 | Text rejects a missing, null or empty value with 必須項目です and accepts anything else; Email rejects those with 必須項目です and a non-address with 有効なメールアドレスを入力してください; Number rejects a missing or null value with 必須項目です and a non-numeric one with 数値で入力してください |
| `ValidationSchema.ValidateSync` | src/validation/schema.ts:33 | success exactly when no field of any record fails its rule; otherwise a failing field and that field's message |
| `ValidationSchema.BuiltSchemaFailsAt` | src/validation/schema.ts:28-30 | a record field fails under the built schema exactly when the last declaration of that form and field selects a rule that rejects the value; one bad record rejects the form's array |
| `ValidationSchema.OnlyDeclaredFieldsFail` | src/validation/schema.ts:7-12 | a failing path names a declared form, and a field declared by the last form with that name, so extra keys in the data are ignored |
| `ValidationSchema.EmptyFormsAcceptEverything` | tests/unit/validation/schema.test.ts:38-43 | no forms give a schema with no keys, which rejects nothing |
| `ValidationSchema.DuplicateNameLaterWins` | tests/unit/validation/schema.test.ts:419-452 | two forms with one name give one key, built from the later form |
| `ValidationSchema.NoSubFieldsAcceptsAnyRecords` | tests/unit/validation/schema.test.ts:370-386 | a form with no sub-fields gets an empty record schema, which accepts any records, `[{}]` included |
| `ValidationSchema.UnknownTypeIsText` | tests/unit/validation/schema.test.ts:388-417 | an "unknown-type" field rejects "" with 必須項目です and accepts "some value" |
| `ValidationSchema.OneBadRecordRejectsArray` | tests/unit/validation/schema.test.ts:282-302 | a second record with an empty name fails the array with 必須項目です while the first record passes |
| `ValidationSchema.EmailAndNumberFields` | tests/unit/validation/schema.test.ts:106-169 | an email field rejects "invalid-email" with the address message and accepts "test@example.com"; a number field rejects "not a number" with the number message and accepts 25 |
| `FormStores.FormStore.constructor` | src/stores/formStore.ts:5-9 | the store starts with no records |
| `FormStores.FormStore.AddForm` | src/stores/formStore.ts:11-17 | one record {name: "", email: ""} is appended; earlier records are unchanged; there is no upper bound |
| `FormStores.FormStore.RemoveForm` | src/stores/formStore.ts:18-20 | the records become splice(index, 1) of the old ones, the same rule as removeField |
| `FormStores.FormStore.ResetStore` | src/stores/formStore.ts:21-23 | the records become an empty list from any state |
| `FormStores.MixedOperations` | tests/unit/stores/formStore.test.ts:253-268 | add, add, remove(0), add, reset, add ends with exactly one empty record |
| `FormStores.FiveAddsThenReset` | tests/unit/stores/formStore.test.ts:166-178 | five additions give five empty records (the test also sets their fields, which is not modelled), and the reset that follows leaves an empty list |
| `FormStores.OutOfRangeRemovals` | tests/unit/stores/formStore.test.ts:96-126 | on three records removeForm(-1) leaves two, then removeForm(100) still leaves two; removeForm(0) on an empty store leaves it empty |
| `FormStores.RemoveMiddleTwice` | tests/unit/stores/formStore.test.ts:270-287 | removing index 2 and then index 1 from records 0..4 keeps records 0, 3 and 4 in order |

## Left out

- Randomness of `nanoid` and how unlikely its collisions are: the generator is an injected token stream. Distinct identifiers are proved only for the token positions whose tokens are assumed distinct. The repository's integration test replaces the generator with a constant, so uniqueness is not a guarantee of the code.
- No class invariant says that all identifiers in the collection are distinct. The constructor adopts arbitrary instances, so the model proves distinctness per pair of generated identifiers instead (`IdentifiersDistinct`).
- Internals of the validation library: which strings are addresses, how values are coerced to numbers (floating point, `"123abc"`), and the order in which errors are found. `isEmail` and `isNumeric` are parameters, and `ValidateSync` does not say which failing field it reports.
- ValidationSchema.FieldError: for a value that is not a string, the email test is taken to apply to the library's string conversion of the value, which the model does not define.
- ValidationSchema.FieldError: null and the empty string follow version 1 of the yup library, which the source does not pin. There `required()` rejects null with 必須項目です under all three rules, and the email test skips `""`, so `""` under Email also gets 必須項目です. Under yup 0.x, null fails the type check first: Number would report 数値で入力してください, and Text and Email would report the library's default type message. The repository's tests only require that null is rejected.
- The key `__proto__` is modelled as an ordinary key. In the source, assigning `obj["__proto__"]` to a plain object calls the prototype setter and creates no own key, so a form or field with that name gets no rule and its data is never checked. In the model it gets a rule like any other name.
- The error object's shape: the model reports a path and a message, not the library's `ValidationError`.
- Data of other shapes: the model's values are null, strings and integers, not arbitrary JavaScript values, arrays or non-integer numbers. A form name that is missing from the data is accepted, because an optional array accepts an absent value.
- Reference aliasing: the `fields` getter returns the manager's own array, the constructor adopts the caller's array, and the store's state is reactive. The model keeps values in `seq` fields, so changes made through such aliases are not modelled. The getters `fields`, `fieldMin`, `fieldMax` and `fieldLength` are the fields `fields`, `fieldMin` and `fieldMax` and the function `FieldLength`.
- Assigning to a store record's fields directly, as the store tests do, is not modelled. Records are values.
- Non-integer indices, which `splice` truncates: indices are integers.
- The router configuration and the Vue components and views: they are UI wiring, markup and styling.
