/**
 * The records shared by the field-set manager, the schema builder and the
 * contact store (src/types/form.ts). The source's `type` and `label` members are called
 * `fieldType` and `fieldLabel` here because both are Dafny keywords; the type stays a string so
 * that unknown types can be represented.
 */
module FormTypes {
  /** One input of a form: `name` is its instance-unique name, `fieldName` its data key. */
  datatype FormField = FormField(name: string, fieldName: string, fieldType: string, fieldLabel: string)

  /** A form template or a form instance. */
  datatype FormData = FormData(id: string, name: string, subFields: seq<FormField>)

  /** One contact record held by the store. */
  datatype FormValue = FormValue(name: string, email: string)
}
