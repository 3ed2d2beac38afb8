/**
 * The dynamic form interpreter: field validation, the visibility rule, the
 * whole-form validation walk and the rendering walk over the field tree.
 * Rendering is reduced to the list of fields that appear.
 */
module DynamicForm {
  import opened Wrappers
  import opened Text
  import opened Types

  /** The regular-expression engine, injected: does `pattern` match `text`
      (an unanchored search, as `RegExp.prototype.test` does). */
  type RegexTest = (string, string) -> bool

  /** `formData[id]`, with None for `undefined`. */
  function Get(data: FormData, id: string): (v: Option<Value>)
    ensures v.Some? <==> id in data
    ensures v.Some? ==> v.value == data[id]
  {
    if id in data then Some(data[id]) else None
  }

  /** JavaScript truthiness: `undefined`, `''` and `0` are falsy; every list is truthy. */
  predicate Truthy(v: Option<Value>) {
    match v
    case None => false
    case Some(Str(s)) => s != ""
    case Some(Num(n)) => n != 0
    case Some(Items(_)) => true
  }

  /** `String(v)`: a list prints as its items joined by commas. */
  function ToText(v: Value): string {
    match v
    case Str(s) => s
    case Num(n) => IntToString(n)
    case Items(xs) => Join(xs)
  }

  function Join(xs: seq<string>): string
    decreases |xs|
  {
    if xs == [] then "" else if |xs| == 1 then xs[0] else xs[0] + "," + Join(xs[1..])
  }

  /** `Number(v)`, with None for NaN: a list converts through its text. */
  function ToNumber(v: Option<Value>): Option<int> {
    match v
    case None => None
    case Some(Str(s)) => ParseNumber(s)
    case Some(Num(n)) => Some(n)
    case Some(Items(xs)) => if xs == [] then Some(0) else if |xs| == 1 then ParseNumber(xs[0]) else None
  }

  /** What the required check treats as missing: a falsy value or an empty list. */
  predicate IsBlank(v: Option<Value>) {
    !Truthy(v) || (v.Some? && v.value.Items? && v.value.xs == [])
  }

  // ------------------------------------------------------------- messages

  function RequiredMessage(f: FormField): string { f.caption + " is required" }
  function MinMessage(f: FormField, min: int): string { f.caption + " must be at least " + IntToString(min) }
  function MaxMessage(f: FormField, max: int): string { f.caption + " must be at most " + IntToString(max) }
  function FormatMessage(f: FormField): string { f.caption + " format is invalid" }

  // ----------------------------------------------------------- validateField

  /** The error message for `f` holding `v`, or `""` when the value passes. */
  function ValidateField(f: FormField, v: Option<Value>, matches: RegexTest): (r: string)
    ensures r != "" <==> FailsRequired(f, v) || FailsMin(f, v) || FailsMax(f, v) || FailsPattern(f, v, matches)
  {
    if f.required && IsBlank(v) then RequiredMessage(f)
    else if f.validation.None? then ""
    else
      var rules := f.validation.value;
      var num := ToNumber(v);
      if f.kind == Number && rules.min.Some? && num.Some? && num.value < rules.min.value then
        MinMessage(f, rules.min.value)
      else if f.kind == Number && rules.max.Some? && num.Some? && num.value > rules.max.value then
        MaxMessage(f, rules.max.value)
      else if rules.pattern.Some? && rules.pattern.value != "" && Truthy(v)
              && !matches(rules.pattern.value, ToText(v.value)) then
        FormatMessage(f)
      else ""
  }

  // The four checks, each stated on its own.
  predicate FailsRequired(f: FormField, v: Option<Value>) {
    f.required && IsBlank(v)
  }
  predicate FailsMin(f: FormField, v: Option<Value>) {
    f.kind == Number && f.validation.Some? && f.validation.value.min.Some?
    && ToNumber(v).Some? && ToNumber(v).value < f.validation.value.min.value
  }
  predicate FailsMax(f: FormField, v: Option<Value>) {
    f.kind == Number && f.validation.Some? && f.validation.value.max.Some?
    && ToNumber(v).Some? && ToNumber(v).value > f.validation.value.max.value
  }
  predicate FailsPattern(f: FormField, v: Option<Value>, matches: RegexTest) {
    f.validation.Some? && f.validation.value.pattern.Some? && f.validation.value.pattern.value != ""
    && Truthy(v) && !matches(f.validation.value.pattern.value, ToText(v.value))
  }

  /** The checks run in the order required, min, max, pattern; the first that
      fails gives the message, and a value that fails none gives `""`. */
  lemma FirstFailureWins(f: FormField, v: Option<Value>, matches: RegexTest)
    ensures FailsRequired(f, v) ==> ValidateField(f, v, matches) == RequiredMessage(f)
    ensures !FailsRequired(f, v) && FailsMin(f, v)
            ==> ValidateField(f, v, matches) == MinMessage(f, f.validation.value.min.value)
    ensures !FailsRequired(f, v) && !FailsMin(f, v) && FailsMax(f, v)
            ==> ValidateField(f, v, matches) == MaxMessage(f, f.validation.value.max.value)
    ensures !FailsRequired(f, v) && !FailsMin(f, v) && !FailsMax(f, v) && FailsPattern(f, v, matches)
            ==> ValidateField(f, v, matches) == FormatMessage(f)
    ensures ValidateField(f, v, matches) == ""
            <==> !FailsRequired(f, v) && !FailsMin(f, v) && !FailsMax(f, v) && !FailsPattern(f, v, matches)
  {
  }

  /** A required field fails with exactly "{label} is required" iff its value
      is undefined, '', 0 or an empty list. */
  lemma RequiredIffBlank(f: FormField, v: Option<Value>, matches: RegexTest)
    requires f.required
    ensures ValidateField(f, v, matches) == RequiredMessage(f) <==> IsBlank(v)
  {
    var r := ValidateField(f, v, matches);
    var n := |f.caption|;
    if !IsBlank(v) && r != "" {
      // every other message differs from the required one right after the label
      assert r[n + 1] != 'i';
      assert RequiredMessage(f)[n + 1] == 'i';
    }
  }

  /** Bounds apply to number fields only. */
  lemma BoundsOnlyForNumbers(f: FormField, v: Option<Value>, matches: RegexTest)
    requires f.kind != Number
    ensures ValidateField(f, v, matches) in {"", RequiredMessage(f), FormatMessage(f)}
  {
  }

  /** The pattern is consulted only for a non-empty value. */
  lemma PatternOnlyForNonEmpty(f: FormField, v: Option<Value>, m1: RegexTest, m2: RegexTest)
    requires !Truthy(v)
    ensures ValidateField(f, v, m1) == ValidateField(f, v, m2)
  {
  }

  /** A value that does not parse (NaN), or an undefined one, passes both bounds. */
  lemma NaNPassesBounds(f: FormField, v: Option<Value>, matches: RegexTest)
    requires ToNumber(v).None?
    ensures !FailsMin(f, v) && !FailsMax(f, v)
    ensures !f.required && !FailsPattern(f, v, matches) ==> ValidateField(f, v, matches) == ""
  {
  }

  /** A cleared number input ('') reads as 0, so an optional number field with a
      positive minimum fails its minimum while blank. */
  lemma ClearedNumberFailsMin(f: FormField, matches: RegexTest)
    requires f.kind == Number && !f.required
    requires f.validation.Some? && f.validation.value.min.Some? && f.validation.value.min.value > 0
    ensures ValidateField(f, Some(Str("")), matches) == MinMessage(f, f.validation.value.min.value)
  {
  }

  // ----------------------------------------------------------- isFieldVisible

  /** The visibility rule: no rule means visible; `equals` compares strictly
      (a number or a list is never equal to the rule's text). */
  function IsFieldVisible(f: FormField, data: FormData): (visible: bool)
    ensures f.visibility.None? ==> visible
    ensures f.visibility.Some? && f.visibility.value.dependsOn !in data
            ==> (visible <==> f.visibility.value.condition != Equal)
    ensures f.visibility.Some? && f.visibility.value.dependsOn in data && !data[f.visibility.value.dependsOn].Str?
            ==> (visible <==> f.visibility.value.condition != Equal)
  {
    if f.visibility.None? then true
    else
      var rule := f.visibility.value;
      var dependent := Get(data, rule.dependsOn);
      match rule.condition
      case Equal => dependent == Some(Str(rule.value))
      case NotEqual => dependent != Some(Str(rule.value))
      case OtherCondition(_) => true
  }

  /** For one rule, `equals` and `not_equals` give complementary answers. */
  lemma EqualsNotEqualsComplement(f: FormField, data: FormData)
    requires f.visibility.Some? && f.visibility.value.condition == Equal
    ensures IsFieldVisible(f.(visibility := Some(f.visibility.value.(condition := NotEqual))), data)
            == !IsFieldVisible(f, data)
  {
  }

  /** Strict equality: a dependency holding the number whose text is the rule's
      value does not satisfy `equals`. */
  lemma NumberNeverEqualsText(f: FormField, data: FormData, n: int)
    requires f.visibility.Some? && f.visibility.value.condition == Equal
    requires Get(data, f.visibility.value.dependsOn) == Some(Num(n))
    ensures !IsFieldVisible(f, data)
  {
  }

  // ------------------------------------------------------------ validateForm

  /** A field whose children the walks descend into: a group that has `fields`. */
  predicate HasChildren(f: FormField) {
    f.kind == Group && f.hasFields
  }

  /** The fields validateForm checks, in visiting order: every field that is not
      a group with children and is visible by its own rule. Enclosing groups'
      rules are not consulted. */
  function ValidatedFields(fs: seq<FormField>, data: FormData): (r: seq<FormField>)
    ensures forall g :: g in r ==> !HasChildren(g) && IsFieldVisible(g, data)
    decreases fs
  {
    if fs == [] then []
    else
      (if HasChildren(fs[0]) then ValidatedFields(fs[0].fields, data)
       else if IsFieldVisible(fs[0], data) then [fs[0]] else [])
      + ValidatedFields(fs[1..], data)
  }

  lemma ConcatAssoc<T>(x: seq<T>, y: seq<T>, z: seq<T>)
    ensures x + (y + z) == (x + y) + z
  {
  }

  /** One step of the walk: the first field's contribution, then the rest. */
  lemma ValidatedFieldsCons(fs: seq<FormField>, data: FormData)
    requires fs != []
    ensures ValidatedFields(fs, data) == ValidatedFields([fs[0]], data) + ValidatedFields(fs[1..], data)
  {
    assert [fs[0]][1..] == [];
  }

  lemma {:induction false} ValidatedFieldsAppend(a: seq<FormField>, b: seq<FormField>, data: FormData)
    ensures ValidatedFields(a + b, data) == ValidatedFields(a, data) + ValidatedFields(b, data)
    decreases |a|
  {
    if a != [] {
      assert (a + b)[0] == a[0] && (a + b)[1..] == a[1..] + b;
      ValidatedFieldsCons(a, data);
      ValidatedFieldsCons(a + b, data);
      ValidatedFieldsAppend(a[1..], b, data);
      ConcatAssoc(ValidatedFields([a[0]], data), ValidatedFields(a[1..], data), ValidatedFields(b, data));
    } else {
      assert a + b == b;
    }
  }

  /** The error map after recording each field of `leaves`, in order, into `acc`:
      a field with a non-empty message sets its id to that message. */
  function RecordErrors(leaves: seq<FormField>, data: FormData, matches: RegexTest, acc: map<string, string>)
    : map<string, string>
    decreases |leaves|
  {
    if leaves == [] then acc
    else
      var f := leaves[0];
      var e := ValidateField(f, Get(data, f.id), matches);
      RecordErrors(leaves[1..], data, matches, if e != "" then acc[f.id := e] else acc)
  }

  lemma {:induction false} RecordErrorsAppend(a: seq<FormField>, b: seq<FormField>, data: FormData,
                                             matches: RegexTest, acc: map<string, string>)
    ensures RecordErrors(a + b, data, matches, acc)
            == RecordErrors(b, data, matches, RecordErrors(a, data, matches, acc))
    decreases |a|
  {
    if a != [] {
      assert (a + b)[1..] == a[1..] + b;
      var e := ValidateField(a[0], Get(data, a[0].id), matches);
      RecordErrorsAppend(a[1..], b, data, matches, if e != "" then acc[a[0].id := e] else acc);
    } else {
      assert a + b == b;
    }
  }

  /** What validateForm returns for `fields` over `data`. */
  function FormErrors(fields: seq<FormField>, data: FormData, matches: RegexTest): (errors: map<string, string>)
    ensures forall k :: k in errors ==> errors[k] != ""
  {
    var leaves := ValidatedFields(fields, data);
    RecordErrorsNonEmpty(leaves, data, matches, map[]);
    RecordErrors(leaves, data, matches, map[])
  }

  /** The message of a field for the current data. */
  function ErrorOf(f: FormField, data: FormData, matches: RegexTest): string {
    ValidateField(f, Get(data, f.id), matches)
  }

  lemma {:induction false} RecordErrorsKeys(leaves: seq<FormField>, data: FormData, matches: RegexTest,
                                           acc: map<string, string>, k: string)
    ensures k in RecordErrors(leaves, data, matches, acc)
            <==> k in acc || exists i :: 0 <= i < |leaves| && leaves[i].id == k && ErrorOf(leaves[i], data, matches) != ""
    decreases |leaves|
  {
    if leaves != [] {
      var f := leaves[0];
      var e := ErrorOf(f, data, matches);
      var acc' := if e != "" then acc[f.id := e] else acc;
      RecordErrorsKeys(leaves[1..], data, matches, acc', k);
      if exists i :: 0 <= i < |leaves| && leaves[i].id == k && ErrorOf(leaves[i], data, matches) != "" {
        var i :| 0 <= i < |leaves| && leaves[i].id == k && ErrorOf(leaves[i], data, matches) != "";
        if i > 0 { assert leaves[1..][i - 1] == leaves[i]; }
      }
      if exists j :: 0 <= j < |leaves[1..]| && leaves[1..][j].id == k && ErrorOf(leaves[1..][j], data, matches) != "" {
        var j :| 0 <= j < |leaves[1..]| && leaves[1..][j].id == k && ErrorOf(leaves[1..][j], data, matches) != "";
        assert leaves[j + 1] == leaves[1..][j];
      }
    }
  }

  lemma {:induction false} RecordErrorsNonEmpty(leaves: seq<FormField>, data: FormData, matches: RegexTest,
                                               acc: map<string, string>)
    requires forall k :: k in acc ==> acc[k] != ""
    ensures forall k :: k in RecordErrors(leaves, data, matches, acc) ==> RecordErrors(leaves, data, matches, acc)[k] != ""
    decreases |leaves|
  {
    if leaves != [] {
      var f := leaves[0];
      var e := ErrorOf(f, data, matches);
      var acc' := if e != "" then acc[f.id := e] else acc;
      assert forall k :: k in acc' ==> acc'[k] != "";
      RecordErrorsNonEmpty(leaves[1..], data, matches, acc');
      assert RecordErrors(leaves, data, matches, acc) == RecordErrors(leaves[1..], data, matches, acc');
    }
  }

  /** With distinct ids the entry for a failing field is its own message. */
  lemma {:induction false} RecordErrorsValue(leaves: seq<FormField>, data: FormData, matches: RegexTest,
                                            acc: map<string, string>, i: nat)
    requires i < |leaves| && ErrorOf(leaves[i], data, matches) != ""
    requires DistinctIds(leaves)
    ensures leaves[i].id in RecordErrors(leaves, data, matches, acc)
    ensures RecordErrors(leaves, data, matches, acc)[leaves[i].id] == ErrorOf(leaves[i], data, matches)
    decreases |leaves|
  {
    var f := leaves[0];
    var e := ErrorOf(f, data, matches);
    var acc' := if e != "" then acc[f.id := e] else acc;
    if i == 0 {
      RecordErrorsUntouched(leaves[1..], data, matches, acc', f.id);
    } else {
      RecordErrorsValue(leaves[1..], data, matches, acc', i - 1);
    }
  }

  lemma {:induction false} RecordErrorsUntouched(leaves: seq<FormField>, data: FormData, matches: RegexTest,
                                                acc: map<string, string>, k: string)
    requires forall j :: 0 <= j < |leaves| ==> leaves[j].id != k
    requires k in acc
    ensures k in RecordErrors(leaves, data, matches, acc) && RecordErrors(leaves, data, matches, acc)[k] == acc[k]
    decreases |leaves|
  {
    if leaves != [] {
      var f := leaves[0];
      var e := ErrorOf(f, data, matches);
      RecordErrorsUntouched(leaves[1..], data, matches, if e != "" then acc[f.id := e] else acc, k);
    }
  }

  /** validateForm has an entry exactly for each validated field whose message is non-empty. */
  lemma FormErrorsKeys(fields: seq<FormField>, data: FormData, matches: RegexTest, k: string)
    ensures k in FormErrors(fields, data, matches) <==>
              exists i :: 0 <= i < |ValidatedFields(fields, data)| && ValidatedFields(fields, data)[i].id == k
                          && ErrorOf(ValidatedFields(fields, data)[i], data, matches) != ""
  {
    var leaves := ValidatedFields(fields, data);
    var none: map<string, string> := map[];
    assert FormErrors(fields, data, matches) == RecordErrors(leaves, data, matches, none);
    RecordErrorsKeys(leaves, data, matches, none, k);
    assert k !in none;
  }

  /** With distinct ids, the entry for a failing validated field is its own message. */
  lemma FormErrorsValue(fields: seq<FormField>, data: FormData, matches: RegexTest, f: FormField)
    requires DistinctIds(ValidatedFields(fields, data))
    requires f in ValidatedFields(fields, data) && ErrorOf(f, data, matches) != ""
    ensures f.id in FormErrors(fields, data, matches)
    ensures FormErrors(fields, data, matches)[f.id] == ErrorOf(f, data, matches)
  {
    var leaves := ValidatedFields(fields, data);
    var i :| 0 <= i < |leaves| && leaves[i] == f;
    RecordErrorsValue(leaves, data, matches, map[], i);
  }

  /** No two fields of the list share an id, as schemas intend. */
  predicate DistinctIds(fs: seq<FormField>) {
    forall a, b :: 0 <= a < b < |fs| ==> fs[a].id != fs[b].id
  }

  /** validateForm, as the source writes it: a walk that records into one
      error map, descending into every group that has `fields`. */
  method ValidateForm(fields: seq<FormField>, data: FormData, matches: RegexTest)
    returns (errors: map<string, string>)
    ensures errors == FormErrors(fields, data, matches)
  {
    errors := ValidateFieldsRecursively(fields, data, matches, map[]);
  }

  method ValidateFieldsRecursively(fieldList: seq<FormField>, data: FormData, matches: RegexTest,
                                   acc: map<string, string>)
    returns (errors: map<string, string>)
    ensures errors == RecordErrors(ValidatedFields(fieldList, data), data, matches, acc)
    decreases fieldList
  {
    errors := acc;
    var i := 0;
    while i < |fieldList|
      invariant 0 <= i <= |fieldList|
      invariant errors == RecordErrors(ValidatedFields(fieldList[..i], data), data, matches, acc)
    {
      var field := fieldList[i];
      ghost var before := errors;
      ValidatedSingleton(field, data);
      if field.kind == Group && field.hasFields {
        errors := ValidateFieldsRecursively(field.fields, data, matches, errors);
      } else if IsFieldVisible(field, data) {
        var error := ValidateField(field, Get(data, field.id), matches);
        if error != "" {
          errors := errors[field.id := error];
        }
        RecordErrorsSingle(field, data, matches, before);
      }
      StepOfValidation(fieldList, i, data, matches, acc, before, errors);
      i := i + 1;
    }
    assert fieldList[..i] == fieldList;
  }

  lemma ValidatedSingleton(f: FormField, data: FormData)
    ensures ValidatedFields([f], data)
            == if HasChildren(f) then ValidatedFields(f.fields, data) else if IsFieldVisible(f, data) then [f] else []
  {
    assert [f][1..] == [];
  }

  lemma RecordErrorsSingle(f: FormField, data: FormData, matches: RegexTest, acc: map<string, string>)
    ensures RecordErrors([f], data, matches, acc)
            == if ErrorOf(f, data, matches) != "" then acc[f.id := ErrorOf(f, data, matches)] else acc
  {
    assert [f][1..] == [];
  }

  /** One iteration of the walk: after handling `fieldList[i]` the error map
      covers the first `i + 1` fields. */
  lemma StepOfValidation(fieldList: seq<FormField>, i: nat, data: FormData, matches: RegexTest,
                         acc: map<string, string>, before: map<string, string>, after: map<string, string>)
    requires i < |fieldList|
    requires before == RecordErrors(ValidatedFields(fieldList[..i], data), data, matches, acc)
    requires after == RecordErrors(ValidatedFields([fieldList[i]], data), data, matches, before)
    ensures after == RecordErrors(ValidatedFields(fieldList[..i + 1], data), data, matches, acc)
  {
    assert fieldList[..i + 1] == fieldList[..i] + [fieldList[i]];
    ValidatedFieldsAppend(fieldList[..i], [fieldList[i]], data);
    RecordErrorsAppend(ValidatedFields(fieldList[..i], data), ValidatedFields([fieldList[i]], data), data, matches, acc);
  }

  /** A field whose own rule hides it is never validated, whatever it holds. */
  lemma {:induction false} HiddenFieldNotValidated(fields: seq<FormField>, data: FormData, f: FormField)
    requires !IsFieldVisible(f, data)
    ensures f !in ValidatedFields(fields, data)
  {
  }

  // -------------------------------------------------------------- renderField

  /** The fields renderField puts on screen, in order: a field whose rule fails
      contributes nothing, a group also renders its children. */
  function RenderedFields(fs: seq<FormField>, data: FormData): (r: seq<FormField>)
    ensures forall g :: g in r ==> IsFieldVisible(g, data)
    decreases fs
  {
    if fs == [] then []
    else
      (if !IsFieldVisible(fs[0], data) then []
       else [fs[0]] + (if HasChildren(fs[0]) then RenderedFields(fs[0].fields, data) else []))
      + RenderedFields(fs[1..], data)
  }

  /** The ids of the rendered fields. */
  function RenderedIds(fs: seq<FormField>, data: FormData): (r: seq<string>)
    ensures |r| == |RenderedFields(fs, data)|
    ensures forall i :: 0 <= i < |r| ==> r[i] == RenderedFields(fs, data)[i].id
  {
    var rendered := RenderedFields(fs, data);
    seq(|rendered|, i requires 0 <= i < |rendered| => rendered[i].id)
  }

  /** `f` sits in `fs` below a chain of visible groups with children, and is visible itself. */
  ghost predicate RenderReachable(fs: seq<FormField>, f: FormField, data: FormData)
    decreases fs
  {
    exists i :: 0 <= i < |fs| && IsFieldVisible(fs[i], data)
      && (fs[i] == f || (HasChildren(fs[i]) && RenderReachable(fs[i].fields, f, data)))
  }

  /** `f` sits in `fs` below a chain of groups with children, whatever their
      rules say, is not itself a group with children, and is visible itself. */
  ghost predicate ValidateReachable(fs: seq<FormField>, f: FormField, data: FormData)
    decreases fs
  {
    exists i :: 0 <= i < |fs|
      && ((HasChildren(fs[i]) && ValidateReachable(fs[i].fields, f, data))
          || (!HasChildren(fs[i]) && fs[i] == f && IsFieldVisible(f, data)))
  }

  /** RenderReachable, one field at a time: through the head or through the rest. */
  lemma RenderReachableCons(fs: seq<FormField>, f: FormField, data: FormData)
    requires fs != []
    ensures RenderReachable(fs, f, data)
            <==> (IsFieldVisible(fs[0], data) && (fs[0] == f || (HasChildren(fs[0]) && RenderReachable(fs[0].fields, f, data))))
                 || RenderReachable(fs[1..], f, data)
  {
    if RenderReachable(fs, f, data) {
      var i :| 0 <= i < |fs| && IsFieldVisible(fs[i], data)
        && (fs[i] == f || (HasChildren(fs[i]) && RenderReachable(fs[i].fields, f, data)));
      if i > 0 {
        assert fs[1..][i - 1] == fs[i];
      }
    }
    if RenderReachable(fs[1..], f, data) {
      var j :| 0 <= j < |fs[1..]| && IsFieldVisible(fs[1..][j], data)
        && (fs[1..][j] == f || (HasChildren(fs[1..][j]) && RenderReachable(fs[1..][j].fields, f, data)));
      assert fs[j + 1] == fs[1..][j];
    }
  }

  /** A field is rendered iff it and every enclosing group are visible. */
  lemma {:induction false} RenderedIff(fs: seq<FormField>, f: FormField, data: FormData)
    ensures f in RenderedFields(fs, data) <==> RenderReachable(fs, f, data)
    decreases fs
  {
    if fs != [] {
      var g := fs[0];
      RenderedIff(fs[1..], f, data);
      if HasChildren(g) { RenderedIff(g.fields, f, data); }
      RenderReachableCons(fs, f, data);
      var here := if !IsFieldVisible(g, data) then []
                  else [g] + (if HasChildren(g) then RenderedFields(g.fields, data) else []);
      assert RenderedFields(fs, data) == here + RenderedFields(fs[1..], data);
    }
  }

  /** ValidateReachable, one field at a time: through the head or through the rest. */
  lemma ValidateReachableCons(fs: seq<FormField>, f: FormField, data: FormData)
    requires fs != []
    ensures ValidateReachable(fs, f, data)
            <==> (HasChildren(fs[0]) && ValidateReachable(fs[0].fields, f, data))
                 || (!HasChildren(fs[0]) && fs[0] == f && IsFieldVisible(f, data))
                 || ValidateReachable(fs[1..], f, data)
  {
    if ValidateReachable(fs, f, data) {
      var i :| 0 <= i < |fs|
        && ((HasChildren(fs[i]) && ValidateReachable(fs[i].fields, f, data))
            || (!HasChildren(fs[i]) && fs[i] == f && IsFieldVisible(f, data)));
      if i > 0 {
        assert fs[1..][i - 1] == fs[i];
      }
    }
    if ValidateReachable(fs[1..], f, data) {
      var j :| 0 <= j < |fs[1..]|
        && ((HasChildren(fs[1..][j]) && ValidateReachable(fs[1..][j].fields, f, data))
            || (!HasChildren(fs[1..][j]) && fs[1..][j] == f && IsFieldVisible(f, data)));
      assert fs[j + 1] == fs[1..][j];
    }
  }

  /** A field is validated iff it is visible, is not a group with children, and
      sits below a chain of groups with children, visible or not. */
  lemma {:induction false} ValidatedIff(fs: seq<FormField>, f: FormField, data: FormData)
    ensures f in ValidatedFields(fs, data) <==> ValidateReachable(fs, f, data)
    decreases fs
  {
    if fs != [] {
      var g := fs[0];
      ValidatedIff(fs[1..], f, data);
      if HasChildren(g) { ValidatedIff(g.fields, f, data); }
      ValidateReachableCons(fs, f, data);
      var here := if HasChildren(g) then ValidatedFields(g.fields, data)
                  else if IsFieldVisible(g, data) then [g] else [];
      assert ValidatedFields(fs, data) == here + ValidatedFields(fs[1..], data);
    }
  }

  /** Every rendered input (a field that is not a group with children) is validated. */
  lemma {:induction false} RenderedInputIsValidated(fs: seq<FormField>, f: FormField, data: FormData)
    requires f in RenderedFields(fs, data) && !HasChildren(f)
    ensures f in ValidatedFields(fs, data)
    decreases fs
  {
    var g := fs[0];
    var here := if !IsFieldVisible(g, data) then []
                else [g] + (if HasChildren(g) then RenderedFields(g.fields, data) else []);
    assert RenderedFields(fs, data) == here + RenderedFields(fs[1..], data);
    if f in here {
      if f != g {
        RenderedInputIsValidated(g.fields, f, data);
      }
    } else {
      RenderedInputIsValidated(fs[1..], f, data);
    }
  }

  /** The converse fails: a visible required input inside a hidden group is not
      rendered, yet validateForm still reports it. */
  lemma HiddenGroupStillValidated()
    ensures var inner := Leaf("x", "X", Text, true);
            var group := FormField("g", "G", Group, false, None, true, [inner], None,
                                   Some(VisibilityRule("smoker", Equal, "Yes")), None);
            var data: FormData := map[];
            RenderedIds([group], data) == []
            && inner in ValidatedFields([group], data)
            && forall m: RegexTest :: FormErrors([group], data, m) == map["x" := "X is required"]
  {
    var inner := Leaf("x", "X", Text, true);
    var group := FormField("g", "G", Group, false, None, true, [inner], None,
                           Some(VisibilityRule("smoker", Equal, "Yes")), None);
    var data: FormData := map[];
    assert ValidatedFields([inner], data) == [inner];
    ValidatedSingleton(group, data);
    assert ValidatedFields([group], data) == [inner];
    forall m: RegexTest ensures FormErrors([group], data, m) == map["x" := "X is required"] {
      assert ErrorOf(inner, data, m) == "X is required";
      RecordErrorsSingle(inner, data, m, map[]);
    }
    assert !IsFieldVisible(group, data);
    assert RenderedFields([group], data) == [];
  }

  // ------------------------------------------------------------ checkbox step

  /** The list a checkbox group holds: `value || []`. A non-list value is read
      as no selection. */
  function CurrentItems(v: Option<Value>): seq<string> {
    if v.Some? && v.value.Items? then v.value.xs else []
  }

  /** Ticking an option appends it at the end. */
  function CheckOption(xs: seq<string>, option: string): (r: seq<string>)
    ensures |r| == |xs| + 1 && r[..|xs|] == xs && r[|xs|] == option
  {
    xs + [option]
  }

  /** Unticking an option removes every occurrence of it and keeps the rest in order. */
  function UncheckOption(xs: seq<string>, option: string): (r: seq<string>)
    ensures option !in r
    ensures forall x :: x != option ==> multiset(r)[x] == multiset(xs)[x]
    ensures option !in xs ==> r == xs
    decreases |xs|
  {
    if xs == [] then []
    else
      var rest := UncheckOption(xs[1..], option);
      assert xs == [xs[0]] + xs[1..];
      if xs[0] == option then rest else [xs[0]] + rest
  }

  lemma {:induction false} UncheckDistributes(a: seq<string>, b: seq<string>, option: string)
    ensures UncheckOption(a + b, option) == UncheckOption(a, option) + UncheckOption(b, option)
    decreases |a|
  {
    if a == [] {
      assert a + b == b;
    } else {
      assert (a + b)[1..] == a[1..] + b;
      UncheckDistributes(a[1..], b, option);
    }
  }

  /** Ticking then unticking an option not already present restores the list. */
  lemma CheckThenUncheck(xs: seq<string>, option: string)
    requires option !in xs
    ensures UncheckOption(CheckOption(xs, option), option) == xs
  {
    UncheckDistributes(xs, [option], option);
    assert UncheckOption([option], option) == [];
  }

  /** The new checkbox list after the box for `option` turns `checked`: the
      box then reads as `checked`, and every other option keeps its state. */
  function ToggleOption(v: Option<Value>, option: string, checked: bool): (r: seq<string>)
    ensures option in r <==> checked
    ensures forall x :: x != option ==> (x in r <==> x in CurrentItems(v))
    ensures checked ==> r == CurrentItems(v) + [option]
  {
    var xs := CurrentItems(v);
    if checked then CheckOption(xs, option)
    else
      var r := UncheckOption(xs, option);
      assert forall x :: x != option ==> (x in r <==> multiset(r)[x] > 0) && (x in xs <==> multiset(xs)[x] > 0);
      r
  }
}
