/**
 * The portal's data model: form schemas (a recursive field tree), form
 * structures, stored submissions, table rows and column configurations.
 */
module Types {
  import opened Wrappers

  /** The seven field kinds a schema may name. */
  datatype FieldType = Text | Number | Date | Select | Radio | Checkbox | Group

  /** A visibility condition. Schemas name `equals` or `not_equals`; a schema
      read from JSON can carry any other word, which the interpreter treats as
      "always visible". */
  datatype Condition = Equal | NotEqual | OtherCondition(name: string)

  /** Show the field only when the field `dependsOn` relates to `value` as `condition` says. */
  datatype VisibilityRule = VisibilityRule(dependsOn: string, condition: Condition, value: string)

  /** Each bound is independently optional; the pattern is a regular expression source text. */
  datatype Validation = Validation(min: Option<int>, max: Option<int>, pattern: Option<string>)

  /** Options fetched from `endpoint` according to the value of `dependsOn`. */
  datatype DynamicOptions = DynamicOptions(dependsOn: string, endpoint: string, httpMethod: string)

  /** One schema field (`caption` is the source's `label`). Any field may carry
      a child list; nothing ties it to groups. `hasFields` says whether the
      optional `fields` property is present at all (an absent list is kept as
      `[]` with `hasFields` false). */
  datatype FormField = FormField(
    id: string,
    caption: string,
    kind: FieldType,
    required: bool,
    options: Option<seq<string>>,
    hasFields: bool,
    fields: seq<FormField>,
    validation: Option<Validation>,
    visibility: Option<VisibilityRule>,
    dynamicOptions: Option<DynamicOptions>)

  datatype FormStructure = FormStructure(formId: string, title: string, fields: seq<FormField>)

  /** The values a form holds under a field id: text, a number (stored
      submissions carry some) or the list a checkbox group produces. */
  datatype Value = Str(s: string) | Num(n: int) | Items(xs: seq<string>)

  type FormData = map<string, Value>

  datatype SubmissionStatus = Pending | Approved | Rejected

  datatype FormSubmission = FormSubmission(
    id: string,
    formId: string,
    data: FormData,
    submittedAt: string,
    status: SubmissionStatus)

  /** One row of the applications table: column name to display text. */
  type ApplicationData = map<string, string>

  datatype ColumnConfig = ColumnConfig(key: string, caption: string, visible: bool, sortable: bool)

  /** The wire name of a status. */
  function StatusName(st: SubmissionStatus): (s: string)
    ensures s in ["pending", "approved", "rejected"]
  {
    match st
    case Pending => "pending"
    case Approved => "approved"
    case Rejected => "rejected"
  }

  /** Distinct statuses have distinct names, so a row's status text identifies its status. */
  lemma StatusNameInjective(a: SubmissionStatus, b: SubmissionStatus)
    requires StatusName(a) == StatusName(b)
    ensures a == b
  {
  }

  /** A field with nothing but the mandatory properties set. */
  function Leaf(id: string, caption: string, kind: FieldType, required: bool): (f: FormField)
    ensures f.id == id && f.caption == caption && f.kind == kind && f.required == required
    ensures !f.hasFields && f.validation.None? && f.visibility.None?
  {
    FormField(id, caption, kind, required, None, false, [], None, None, None)
  }
}
