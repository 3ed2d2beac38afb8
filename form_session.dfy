/**
 * The state of one DynamicForm session — `formData`, `errors`, `isDraft` and
 * `selectedCountry` — and the browser's key/value storage that drafts live in.
 * Each React state update and effect is a method; the 2-second auto-save
 * debounce is the explicit event `AutoSaveTimerFired`.
 */
module FormSession {
  import opened Wrappers
  import opened Types
  import opened DynamicForm

  /** What a storage slot holds: the JSON text of a form-data object, or
      text that JSON.parse rejects. */
  datatype StoredItem = Serialized(data: FormData) | Unparseable(text: string)

  /** The storage key of a form's draft. */
  function DraftKey(formId: string): (k: string)
    ensures |k| == |formId| + 6 && k[..6] == "draft_" && k[6..] == formId
  {
    "draft_" + formId
  }

  /** Distinct forms have distinct draft keys, so one form's draft never overwrites another's. */
  lemma DraftKeyInjective(a: string, b: string)
    requires DraftKey(a) == DraftKey(b)
    ensures a == b
  {
    assert a == DraftKey(a)[6..];
  }

  /** localStorage: a mutable map from key to stored item. */
  class DraftStorage {
    var items: map<string, StoredItem>

    constructor ()
      ensures items == map[]
    {
      items := map[];
    }

    method GetItem(key: string) returns (r: Option<StoredItem>)
      ensures r == if key in items then Some(items[key]) else None
    {
      r := if key in items then Some(items[key]) else None;
    }

    method SetItem(key: string, item: StoredItem)
      modifies this
      ensures items == old(items)[key := item]
    {
      items := items[key := item];
    }

    method RemoveItem(key: string)
      modifies this
      ensures items == old(items) - {key}
    {
      items := items - {key};
    }
  }

  /** The form data after `handleInputChange(fieldId, value)`: the field takes
      the value and, when the field is `country` and `state` held a truthy
      value before the change, `state` is reset to `''`. */
  function ChangedData(data: FormData, fieldId: string, value: Value): (r: FormData)
    ensures r.Keys == data.Keys + {fieldId} + (if fieldId == "country" && Truthy(Get(data, "state")) then {"state"} else {})
    ensures fieldId != "state" ==> r[fieldId] == value
    ensures forall k :: k in data && k != fieldId && k != "state" ==> r[k] == data[k]
    ensures "state" in r ==> r["state"] == (if fieldId == "country" && Truthy(Get(data, "state")) then Str("")
                                            else if fieldId == "state" then value else data["state"])
  {
    var next := data[fieldId := value];
    if fieldId == "country" && Truthy(Get(data, "state")) then next["state" := Str("")] else next
  }

  class Session {
    const form: FormStructure
    const store: DraftStorage
    /** The regular-expression engine the validator uses. */
    const matches: RegexTest
    var formData: FormData
    var errors: map<string, string>
    var isDraft: bool
    var selectedCountry: Value

    /** Every recorded error is a non-empty message. */
    ghost predicate Valid()
      reads this
    {
      forall k :: k in errors ==> errors[k] != ""
    }

    /** A freshly mounted form: no data, no errors, no draft, no country. */
    constructor (form: FormStructure, store: DraftStorage, matches: RegexTest)
      ensures Valid()
      ensures this.form == form && this.store == store && this.matches == matches
      ensures formData == map[] && errors == map[] && !isDraft && selectedCountry == Str("")
    {
      this.form := form;
      this.store := store;
      this.matches := matches;
      formData := map[];
      errors := map[];
      isDraft := false;
      selectedCountry := Str("");
    }

    /** The mount effect: a draft stored under this form's key that parses
        replaces `formData` and marks the session as a draft; a malformed one,
        or none, changes nothing. `selectedCountry` is not restored. */
    method RestoreDraft()
      requires Valid()
      modifies this
      ensures Valid()
      ensures var key := DraftKey(form.formId);
              if key in store.items && store.items[key].Serialized?
              then formData == store.items[key].data && isDraft
              else formData == old(formData) && isDraft == old(isDraft)
      ensures errors == old(errors) && selectedCountry == old(selectedCountry)
    {
      var saved := store.GetItem(DraftKey(form.formId));
      if saved.Some? {
        match saved.value
        case Serialized(draft) =>
          formData := draft;
          isDraft := true;
        case Unparseable(_) =>
      }
    }

    /** `saveDraft`: the current data goes under this form's key and the session is a draft. */
    method SaveDraft()
      requires Valid()
      modifies this, store
      ensures Valid()
      ensures store.items == old(store.items)[DraftKey(form.formId) := Serialized(formData)]
      ensures isDraft
      ensures formData == old(formData) && errors == old(errors) && selectedCountry == old(selectedCountry)
    {
      store.SetItem(DraftKey(form.formId), Serialized(formData));
      isDraft := true;
    }

    /** The debounced auto-save when its timer fires: it saves only when
        `formData` has at least one key. */
    method AutoSaveTimerFired()
      requires Valid()
      modifies this, store
      ensures Valid()
      ensures |old(formData)| > 0 ==> store.items == old(store.items)[DraftKey(form.formId) := Serialized(formData)] && isDraft
      ensures |old(formData)| == 0 ==> store.items == old(store.items) && isDraft == old(isDraft)
      ensures formData == old(formData) && errors == old(errors) && selectedCountry == old(selectedCountry)
    {
      if |formData| > 0 {
        SaveDraft();
      }
    }

    /** `handleInputChange`: the field takes the value, its own error (only)
        is cleared, the session is no longer a draft, and a change of
        `country` selects the country and resets a truthy `state` to `''`. */
    method HandleInputChange(fieldId: string, value: Value)
      requires Valid()
      modifies this
      ensures Valid()
      ensures formData == ChangedData(old(formData), fieldId, value)
      ensures errors == old(errors) - {fieldId}
      ensures selectedCountry == if fieldId == "country" then value else old(selectedCountry)
      ensures !isDraft
    {
      var newFormData := formData[fieldId := value];
      var previous := formData;
      formData := newFormData;
      if fieldId in errors && errors[fieldId] != "" {
        errors := errors - {fieldId};
      }
      if fieldId == "country" {
        selectedCountry := value;
        if Truthy(Get(previous, "state")) {
          formData := formData["state" := Str("")];
        }
      }
      isDraft := false;
    }

    /** The checkbox handler: the box for `option` turned `checked`, so the
        option is appended to, or every copy removed from, the field's list. */
    method ToggleCheckbox(fieldId: string, option: string, checked: bool)
      requires Valid()
      modifies this
      ensures Valid()
      ensures formData == ChangedData(old(formData), fieldId, Items(ToggleOption(Get(old(formData), fieldId), option, checked)))
      ensures errors == old(errors) - {fieldId}
      ensures selectedCountry == if fieldId == "country" then Items(ToggleOption(Get(old(formData), fieldId), option, checked))
                                 else old(selectedCountry)
      ensures !isDraft
    {
      var newValues := ToggleOption(Get(formData, fieldId), option, checked);
      HandleInputChange(fieldId, Items(newValues));
    }

    /** `handleSubmit`: validate the whole form and show the result; with no
        errors the data goes to `onSubmit`, and only when that resolves is the
        draft removed. `submitted` is what was handed to `onSubmit`. */
    method HandleSubmit(onSubmitResolves: bool) returns (submitted: Option<FormData>)
      requires Valid()
      modifies this, store
      ensures Valid()
      ensures errors == FormErrors(form.fields, formData, matches)
      ensures submitted == if errors == map[] then Some(formData) else None
      ensures formData == old(formData) && selectedCountry == old(selectedCountry)
      ensures errors == map[] && onSubmitResolves ==> store.items == old(store.items) - {DraftKey(form.formId)} && !isDraft
      ensures !(errors == map[] && onSubmitResolves) ==> store.items == old(store.items) && isDraft == old(isDraft)
    {
      var formErrors := ValidateForm(form.fields, formData, matches);
      errors := formErrors;
      submitted := None;
      if |formErrors| == 0 {
        submitted := Some(formData);
        if onSubmitResolves {
          store.RemoveItem(DraftKey(form.formId));
          isDraft := false;
        }
      }
    }
  }

  /** Saving a draft and mounting the same form again over the same storage
      restores exactly the saved data. */
  method ResumeAfterSave(s: Session) returns (resumed: Session)
    requires s.Valid()
    modifies s, s.store
    ensures fresh(resumed) && resumed.Valid()
    ensures resumed.form == s.form && resumed.formData == s.formData && resumed.isDraft
  {
    s.SaveDraft();
    resumed := new Session(s.form, s.store, s.matches);
    resumed.RestoreDraft();
  }

  /** After a submission that passed validation and whose handler resolved,
      mounting the form again finds no draft and starts empty. */
  method ResumeAfterSubmit(s: Session) returns (submitted: Option<FormData>, resumed: Session)
    requires s.Valid()
    modifies s, s.store
    ensures fresh(resumed) && resumed.Valid()
    ensures submitted.Some? ==> resumed.formData == map[] && !resumed.isDraft
    ensures submitted.None? ==> resumed.formData == (if DraftKey(s.form.formId) in s.store.items && s.store.items[DraftKey(s.form.formId)].Serialized?
                                                     then s.store.items[DraftKey(s.form.formId)].data else map[])
  {
    submitted := s.HandleSubmit(true);
    resumed := new Session(s.form, s.store, s.matches);
    resumed.RestoreDraft();
  }
}
