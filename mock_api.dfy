/**
 * The in-memory backend the portal runs against: the three insurance form
 * schemas, the states of each country, the list of submissions that
 * `submitForm` appends to, and the projection of a submission into a row of
 * the applications table. Delays are left out; the clock, the date
 * formatting and the number formatting are parameters.
 */
module MockApi {
  import opened Wrappers
  import opened Text
  import opened Types
  import opened DynamicForm
  import ApplicationsList

  // -------------------------------------------------------------- fixtures

  function Choice(id: string, caption: string, kind: FieldType, options: seq<string>): FormField {
    Leaf(id, caption, kind, true).(options := Some(options))
  }

  function ShownWhen(f: FormField, dependsOn: string, value: string): FormField {
    f.(visibility := Some(VisibilityRule(dependsOn, Equal, value)))
  }

  function Bounded(f: FormField, min: int, max: int): FormField {
    f.(validation := Some(Validation(Some(min), Some(max), None)))
  }

  /** A group: no `required`, and a `fields` list. */
  function GroupOf(id: string, caption: string, children: seq<FormField>): FormField {
    FormField(id, caption, Group, false, None, true, children, None, None, None)
  }

  const YesNo: seq<string> := ["Yes", "No"]

  const PersonalInfoGroup: FormField :=
    GroupOf("personal_info", "Personal Information", [
      Leaf("first_name", "First Name", Text, true),
      Leaf("last_name", "Last Name", Text, true),
      Leaf("dob", "Date of Birth", Date, true),
      Choice("gender", "Gender", Select, ["Male", "Female", "Other"])])

  const CountrySelect: FormField := Choice("country", "Country", Select, ["USA", "Canada", "Germany", "France"])

  const AddressGroup: FormField :=
    GroupOf("address", "Address", [
      CountrySelect,
      Leaf("state", "State", Select, true).(dynamicOptions := Some(DynamicOptions("country", "/api/getStates", "GET"))),
      Leaf("city", "City", Text, true)])

  const HealthInfoGroup: FormField :=
    GroupOf("health_info", "Health Information", [
      Choice("smoker", "Do you smoke?", Radio, YesNo),
      ShownWhen(Choice("smoking_frequency", "How often do you smoke?", Select, ["Occasionally", "Daily", "Heavy"]), "smoker", "Yes"),
      ShownWhen(Choice("pregnancy_status", "Are you pregnant?", Radio, YesNo), "gender", "Female")])

  const HealthForm: FormStructure := FormStructure("health_insurance_application", "Health Insurance Application",
    [PersonalInfoGroup, AddressGroup, HealthInfoGroup])

  const HomeValueField: FormField := Bounded(Leaf("home_value", "Estimated Home Value (USD)", Number, true), 50000, 5000000)

  const HomeFields: seq<FormField> := [
    Choice("home_owner", "Are you the homeowner?", Radio, YesNo),
    Choice("property_type", "Property Type", Select, ["House", "Apartment", "Condo"]),
    HomeValueField,
    Choice("has_security_system", "Do you have a home security system?", Radio, YesNo),
    ShownWhen(Choice("security_system_type", "Security System Type", Select, ["Monitored", "Unmonitored", "Smart Home System"]),
              "has_security_system", "Yes"),
    Choice("fire_safety", "Fire safety measures", Checkbox, ["Smoke Detectors", "Fire Extinguishers", "Sprinkler System"])]

  const HomeForm: FormStructure := FormStructure("home_insurance_application", "Home Insurance Application", HomeFields)

  const AccidentCountField: FormField :=
    ShownWhen(Leaf("accident_count", "How many accidents?", Number, true), "accidents_last_5_years", "Yes")

  const CarOwnerField: FormField := Choice("car_owner", "Are you the primary car owner?", Radio, YesNo)

  const VehicleGroup: FormField :=
    GroupOf("vehicle_info", "Vehicle Information", [
      Leaf("car_make", "Car Make", Text, true),
      Leaf("car_model", "Car Model", Text, true),
      Bounded(Leaf("car_year", "Year of Manufacture", Number, true), 1990, 2025)])

  const AccidentsField: FormField :=
    Choice("accidents_last_5_years", "Have you had any accidents in the last 5 years?", Radio, YesNo)

  const CarForm: FormStructure := FormStructure("car_insurance_application", "Car Insurance Application",
    [CarOwnerField, VehicleGroup, AccidentsField, AccidentCountField])

  /** What `getForms` returns. */
  const MockForms: seq<FormStructure> := [HealthForm, HomeForm, CarForm]

  const StatesByCountry: map<string, seq<string>> := map[
    "USA" := ["California", "New York", "Texas", "Florida", "Illinois"],
    "Canada" := ["Ontario", "Quebec", "British Columbia", "Alberta"],
    "Germany" := ["Bavaria", "North Rhine-Westphalia", "Berlin", "Hamburg"],
    "France" := ["Île-de-France", "Provence-Alpes-Côte d'Azur", "Auvergne-Rhône-Alpes"]]

  /** The submissions the backend starts with. */
  const SeedSubmissions: seq<FormSubmission> := [
    FormSubmission("1", "health_insurance_application", HealthSeed, "2024-01-15T10:30:00Z", Pending),
    FormSubmission("2", "home_insurance_application", HomeSeed, "2024-01-14T14:20:00Z", Approved),
    FormSubmission("3", "car_insurance_application", CarSeed, "2024-01-13T09:15:00Z", Rejected)]

  const HealthSeed: FormData :=
    map["first_name" := Str("John"), "last_name" := Str("Doe"), "dob" := Str("1995-06-15"),
        "gender" := Str("Male"), "country" := Str("USA"), "state" := Str("California"),
        "city" := Str("Los Angeles"), "smoker" := Str("No")]

  const HomeSeed: FormData :=
    map["home_owner" := Str("Yes"), "property_type" := Str("House"), "home_value" := Num(450000),
        "has_security_system" := Str("Yes"), "security_system_type" := Str("Monitored")]

  const CarSeed: FormData :=
    map["car_owner" := Str("Yes"), "car_make" := Str("Toyota"), "car_model" := Str("Camry"),
        "car_year" := Num(2020), "accidents_last_5_years" := Str("No")]

  /** The table's columns, in order. */
  const Columns: seq<string> :=
    ["Full Name", "Insurance Type", "City", "Status", "Submitted Date", "Property Value", "Vehicle", "Country"]

  // ------------------------------------------------------------- getStates

  /** `getStates`: the country's states, or none for an unknown country;
      the countries with states are exactly those the health form offers. */
  function GetStates(country: string): (r: seq<string>)
    ensures country in StatesByCountry ==> r == StatesByCountry[country]
    ensures r != [] <==> country in CountryField().options.value
  {
    if country in StatesByCountry then StatesByCountry[country] else []
  }

  /** The fixture `country` field of the health form: a required select
      offering the four countries. */
  function CountryField(): (f: FormField)
    ensures f in HealthForm.fields[1].fields
    ensures f.id == "country" && f.kind == Select && f.required
    ensures f.options == Some(["USA", "Canada", "Germany", "France"])
  {
    HealthForm.fields[1].fields[0]
  }

  // ------------------------------------------------------------ submitForm

  /** Distinct clock readings give distinct submission ids, and the id reads back as the reading. */
  lemma SubmissionIdIsTimestamp(now: nat, other: nat)
    ensures ParseNumber(NatToString(now)) == Some(now)
    ensures NatToString(now) == NatToString(other) ==> now == other
  {
    DigitsOfNat(now);
    DigitsOfNat(other);
  }

  // -------------------------------------------------------- getSubmissions

  /** `insuranceTypeMap[formId] || 'Unknown'`. */
  function InsuranceType(formId: string): (r: string)
    ensures r in ["Health", "Home", "Car", "Unknown"]
    ensures r == "Unknown" <==> formId !in ["health_insurance_application", "home_insurance_application", "car_insurance_application"]
  {
    if formId == "health_insurance_application" then "Health"
    else if formId == "home_insurance_application" then "Home"
    else if formId == "car_insurance_application" then "Car"
    else "Unknown"
  }

  /** Each fixture form gets its own insurance type. */
  lemma FixtureFormsHaveTypes()
    ensures forall i :: 0 <= i < |MockForms| ==> InsuranceType(MockForms[i].formId) != "Unknown"
    ensures InsuranceType(HealthForm.formId) == "Health" && InsuranceType(HomeForm.formId) == "Home"
            && InsuranceType(CarForm.formId) == "Car"
  {
    assert HealthForm.formId == "health_insurance_application";
    assert HomeForm.formId == "home_insurance_application";
    assert CarForm.formId == "car_insurance_application";
    assert MockForms == [HealthForm, HomeForm, CarForm];
  }

  /** `v || fallback`, printed: a falsy value gives the fallback, a truthy
      text or number prints non-empty, and an empty list, being truthy,
      prints as the empty string. */
  function TextOr(v: Option<Value>, fallback: string): (r: string)
    ensures !Truthy(v) ==> r == fallback
    ensures Truthy(v) && !v.value.Items? ==> r != ""
    ensures v == Some(Items([])) ==> r == ""
  {
    if Truthy(v) then ToText(v.value) else fallback
  }

  /** The Full Name column: first name (or N/A), a space, last name (or
      nothing), trimmed, and N/A when the trim leaves nothing. */
  function FullName(data: FormData): (r: string)
    ensures r != ""
  {
    var t := Trim(TextOr(Get(data, "first_name"), "N/A") + " " + TextOr(Get(data, "last_name"), ""));
    if t == "" then "N/A" else t
  }

  /** A submission with neither name shows N/A. */
  lemma FullNameWithoutNames(data: FormData)
    requires !Truthy(Get(data, "first_name")) && !Truthy(Get(data, "last_name"))
    ensures FullName(data) == "N/A"
  {
    var s := TextOr(Get(data, "first_name"), "N/A") + " " + TextOr(Get(data, "last_name"), "");
    assert s == "N/A" + [' '];
    TrimTrailingSpace("N/A", ' ');
  }

  /** A submission with only a last name shows "N/A <last>". */
  lemma FullNameWithoutFirstName(data: FormData, last: string)
    requires !Truthy(Get(data, "first_name")) && Get(data, "last_name") == Some(Str(last))
    requires last != "" && !IsSpace(last[|last| - 1])
    ensures FullName(data) == "N/A " + last
  {
    var s := TextOr(Get(data, "first_name"), "N/A") + " " + TextOr(Get(data, "last_name"), "");
    assert s == "N/A " + last;
    assert s[0] == 'N' && s[|s| - 1] == last[|last| - 1];
    TrimmedIsFixed(s);
  }

  /** Names that are already trimmed are shown as "first last". */
  lemma FullNameOfNames(data: FormData, first: string, last: string)
    requires Get(data, "first_name") == Some(Str(first)) && Get(data, "last_name") == Some(Str(last))
    requires first != "" && last != "" && !IsSpace(first[0]) && !IsSpace(last[|last| - 1])
    ensures FullName(data) == first + " " + last
  {
    var s := TextOr(Get(data, "first_name"), "N/A") + " " + TextOr(Get(data, "last_name"), "");
    assert s == first + " " + last;
    assert s[0] == first[0] && s[|s| - 1] == last[|last| - 1];
    TrimmedIsFixed(s);
  }

  /** `value.toLocaleString()`: numbers are formatted by the injected locale formatter. */
  function LocaleText(v: Value, formatNumber: int -> string): string {
    match v
    case Str(s) => s
    case Num(n) => formatNumber(n)
    case Items(xs) => Join(xs)
  }

  /** The Vehicle column: "make model" when both are set, N/A otherwise. */
  function Vehicle(data: FormData): (r: string)
    ensures Truthy(Get(data, "car_make")) && Truthy(Get(data, "car_model"))
            ==> r == ToText(data["car_make"]) + " " + ToText(data["car_model"])
    ensures !(Truthy(Get(data, "car_make")) && Truthy(Get(data, "car_model"))) ==> r == "N/A"
  {
    if Truthy(Get(data, "car_make")) && Truthy(Get(data, "car_model"))
    then ToText(data["car_make"]) + " " + ToText(data["car_model"])
    else "N/A"
  }

  /** The Property Value column: a dollar sign and the formatted value when it is set, N/A otherwise. */
  function PropertyValue(data: FormData, formatNumber: int -> string): (r: string)
    ensures |r| > 0 && (Truthy(Get(data, "home_value")) <==> r[0] == '$')
    ensures Truthy(Get(data, "home_value")) ==> r == "$" + LocaleText(data["home_value"], formatNumber)
    ensures !Truthy(Get(data, "home_value")) ==> r == "N/A"
  {
    if Truthy(Get(data, "home_value")) then "$" + LocaleText(data["home_value"], formatNumber) else "N/A"
  }

  /** The id and the eight columns, as one row. */
  function RowOf(id: string, fullName: string, insuranceType: string, city: string, status: string,
                 submittedDate: string, propertyValue: string, vehicle: string, country: string)
    : (r: ApplicationsList.Row)
    ensures r.Keys == {"id", "Full Name", "Insurance Type", "City", "Status", "Submitted Date", "Property Value", "Vehicle", "Country"}
    ensures r["id"] == id
    ensures r["Full Name"] == fullName
    ensures r["Insurance Type"] == insuranceType
    ensures r["City"] == city
    ensures r["Status"] == status
    ensures r["Submitted Date"] == submittedDate
    ensures r["Property Value"] == propertyValue
    ensures r["Vehicle"] == vehicle
    ensures r["Country"] == country
  {
    map["id" := id, "Full Name" := fullName, "Insurance Type" := insuranceType, "City" := city,
        "Status" := status, "Submitted Date" := submittedDate, "Property Value" := propertyValue,
        "Vehicle" := vehicle, "Country" := country]
  }

  /** One table row built from a submission: every column is present,
      the id and status are copied, the name is never empty. */
  function ProjectRow(sub: FormSubmission, formatDate: string -> string, formatNumber: int -> string)
    : (r: ApplicationsList.Row)
    ensures r.Keys == {"id", "Full Name", "Insurance Type", "City", "Status", "Submitted Date", "Property Value", "Vehicle", "Country"}
    ensures r["id"] == sub.id
    ensures r["Status"] == StatusName(sub.status)
    ensures r["Full Name"] != ""
    ensures r["Full Name"] == FullName(sub.data)
    ensures r["Insurance Type"] == InsuranceType(sub.formId)
    ensures r["City"] == TextOr(Get(sub.data, "city"), "N/A")
    ensures r["Country"] == TextOr(Get(sub.data, "country"), "N/A")
    ensures r["Submitted Date"] == formatDate(sub.submittedAt)
    ensures r["Property Value"] == PropertyValue(sub.data, formatNumber)
    ensures r["Vehicle"] == Vehicle(sub.data)
  {
    RowOf(sub.id, FullName(sub.data), InsuranceType(sub.formId), TextOr(Get(sub.data, "city"), "N/A"),
          StatusName(sub.status), formatDate(sub.submittedAt), PropertyValue(sub.data, formatNumber),
          Vehicle(sub.data), TextOr(Get(sub.data, "country"), "N/A"))
  }

  /** The first seed row shows its applicant's name. */
  lemma SeedRowHealthName()
    ensures FullName(HealthSeed) == "John" + " " + "Doe"
  {
    assert Get(HealthSeed, "first_name") == Some(Str("John"));
    assert Get(HealthSeed, "last_name") == Some(Str("Doe"));
    FullNameOfNames(HealthSeed, "John", "Doe");
  }

  /** The first seed row has no property value and no vehicle. */
  lemma SeedRowHealthNoAssets(formatNumber: int -> string)
    ensures PropertyValue(HealthSeed, formatNumber) == "N/A"
    ensures Vehicle(HealthSeed) == "N/A"
  {
    assert "home_value" !in HealthSeed && "car_make" !in HealthSeed;
  }

  /** The home seed row has no name and no city, and shows its formatted value. */
  lemma SeedRowHome(formatNumber: int -> string)
    ensures FullName(HomeSeed) == "N/A"
    ensures PropertyValue(HomeSeed, formatNumber) == "$" + formatNumber(450000)
    ensures TextOr(Get(HomeSeed, "city"), "N/A") == "N/A"
  {
    assert "first_name" !in HomeSeed && "last_name" !in HomeSeed && "city" !in HomeSeed;
    assert HomeSeed["home_value"] == Num(450000);
    FullNameWithoutNames(HomeSeed);
  }

  /** The car seed row shows its vehicle. */
  lemma SeedRowCar()
    ensures Vehicle(CarSeed) == "Toyota Camry"
    ensures InsuranceType(SeedSubmissions[2].formId) == "Car"
  {
    assert CarSeed["car_make"] == Str("Toyota") && CarSeed["car_model"] == Str("Camry");
  }

  /** The mock backend's one piece of state: the submission list. */
  class MockBackend {
    var submissions: seq<FormSubmission>

    constructor ()
      ensures submissions == SeedSubmissions
    {
      submissions := SeedSubmissions;
    }

    /** `submitForm`: append a pending submission stamped with the clock, and
        report success with its id. `nowMillis` is `Date.now()`,
        `isoNow` its ISO text. */
    method SubmitForm(formId: string, data: FormData, nowMillis: nat, isoNow: string)
      returns (success: bool, id: string)
      modifies this
      ensures submissions == old(submissions) + [FormSubmission(id, formId, data, isoNow, Pending)]
      ensures success && id == NatToString(nowMillis)
    {
      id := NatToString(nowMillis);
      submissions := submissions + [FormSubmission(id, formId, data, isoNow, Pending)];
      success := true;
    }

    /** `getSubmissions`: the columns and one row per submission, in order. */
    method GetSubmissions(formatDate: string -> string, formatNumber: int -> string)
      returns (columns: seq<string>, rows: seq<ApplicationsList.Row>)
      ensures columns == Columns
      ensures |rows| == |submissions|
      ensures forall i :: 0 <= i < |rows| ==> rows[i] == ProjectRow(submissions[i], formatDate, formatNumber)
    {
      columns := Columns;
      rows := seq(|submissions|, i requires 0 <= i < |submissions| reads this =>
                    ProjectRow(submissions[i], formatDate, formatNumber));
    }
  }

  /** A submission shows up as a last, pending row whose id is the clock reading. */
  method SubmitThenList(backend: MockBackend, formId: string, data: FormData, nowMillis: nat, isoNow: string,
                        formatDate: string -> string, formatNumber: int -> string)
    returns (rows: seq<ApplicationsList.Row>)
    modifies backend
    ensures |rows| == |old(backend.submissions)| + 1
    ensures rows[|rows| - 1] == ProjectRow(FormSubmission(NatToString(nowMillis), formId, data, isoNow, Pending),
                                           formatDate, formatNumber)
    ensures rows[|rows| - 1]["id"] == NatToString(nowMillis) && rows[|rows| - 1]["Status"] == "pending"
    ensures rows[|rows| - 1]["Insurance Type"] == InsuranceType(formId)
    ensures forall i :: 0 <= i < |rows| - 1 ==> rows[i] == ProjectRow(old(backend.submissions)[i], formatDate, formatNumber)
  {
    var success, id := backend.SubmitForm(formId, data, nowMillis, isoNow);
    var columns;
    columns, rows := backend.GetSubmissions(formatDate, formatNumber);
  }

  // ------------------------------------------------------ fixture behaviour

  /** Answering No to the accidents question hides the accident count,
      so the car form never reports it missing. */
  lemma CarFormWithoutAccidents(data: FormData, matches: RegexTest)
    requires Get(data, "accidents_last_5_years") == Some(Str("No"))
    ensures "accident_count" !in FormErrors(CarForm.fields, data, matches)
  {
    var before := [CarOwnerField, VehicleGroup, AccidentsField];
    var validated := ValidatedFields(CarForm.fields, data);
    assert !IsFieldVisible(AccidentCountField, data);
    assert validated == ValidatedFields(before, data) by {
      assert CarForm.fields == before + [AccidentCountField];
      ValidatedFieldsAppend(before, [AccidentCountField], data);
    }
    ValidatedFieldsIds(data);
    FormErrorsKeys(CarForm.fields, data, matches, "accident_count");
  }

  /** The ids in the first three car fields, their groups' children included, are not the accident count. */
  lemma ValidatedFieldsIds(data: FormData)
    ensures forall f :: f in ValidatedFields([CarOwnerField, VehicleGroup, AccidentsField], data) ==> f.id != "accident_count"
  {
    ValidatedFieldsAppend([CarOwnerField, VehicleGroup], [AccidentsField], data);
    ValidatedFieldsAppend([CarOwnerField], [VehicleGroup], data);
    assert [CarOwnerField, VehicleGroup] == [CarOwnerField] + [VehicleGroup];
    assert [CarOwnerField, VehicleGroup, AccidentsField] == [CarOwnerField, VehicleGroup] + [AccidentsField];
    ValidatedSingleton(CarOwnerField, data);
    ValidatedSingleton(VehicleGroup, data);
    ValidatedSingleton(AccidentsField, data);
    VehicleIds(data);
  }

  lemma VehicleIds(data: FormData)
    ensures forall g :: g in ValidatedFields(VehicleGroup.fields, data) ==> g.id != "accident_count"
  {
    forall g | g in ValidatedFields(VehicleGroup.fields, data) ensures g in VehicleGroup.fields {
      ValidatedIff(VehicleGroup.fields, g, data);
    }
  }

  /** The home value bounds are inclusive: any whole number typed into the field
      is refused below 50000 and above 5000000, and accepted in between. */
  lemma HomeValueBounds(v: int, matches: RegexTest)
    ensures ValidateField(HomeValueField, Some(Str(IntToString(v))), matches)
            == if v < 50000 then MinMessage(HomeValueField, 50000)
               else if v > 5000000 then MaxMessage(HomeValueField, 5000000)
               else ""
  {
    var text := IntToString(v);
    ParsePrinted(v);
    assert HomeValueField.required && HomeValueField.kind == Number;
    assert HomeValueField.validation == Some(Validation(Some(50000), Some(5000000), None));
    assert !IsBlank(Some(Str(text)));
    assert ToNumber(Some(Str(text))) == Some(v);
  }

  /** The first column list the table receives shows the five default columns. */
  lemma DefaultColumnsShown()
    ensures ApplicationsList.VisibleColumns(ApplicationsList.InitialConfigs(Columns))
            == ApplicationsList.InitialConfigs(Columns)[..5]
  {
    var configs := ApplicationsList.InitialConfigs(Columns);
    assert forall i :: 0 <= i < 5 ==> Columns[i] in ApplicationsList.DefaultColumns;
    assert Columns[5] !in ApplicationsList.DefaultColumns;
    assert Columns[6] !in ApplicationsList.DefaultColumns;
    assert Columns[7] !in ApplicationsList.DefaultColumns;
    assert configs == configs[..5] + configs[5..];
    ApplicationsList.VisibleColumnsAppend(configs[..5], configs[5..]);
    ApplicationsList.AllVisible(configs[..5]);
    ApplicationsList.NoneVisible(configs[5..]);
  }
}
