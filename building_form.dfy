/**
 * The add/edit building form: loading a building into the text fields,
 * validation of the name, the coordinates and the key offices, the data the
 * form submits, and the key-office list editor.
 */
module BuildingForm {
  import opened Base
  import opened Assoc
  import opened Campus

  /** The form's fields as the inputs hold them; the lists are comma-separated text. */
  datatype FormFields = FormFields(
    name: string,
    latitude: string,
    longitude: string,
    category: string,
    description: string,
    facilities: string,
    departments: string,
    hours: string,
    isAdminBuilding: bool)

  const DefaultCategory: string := "Academic"

  const BlankForm: FormFields := FormFields("", "", "", DefaultCategory, "", "", "", "", false)

  // ---------------------------------------------------------------------
  // Loading a building
  // ---------------------------------------------------------------------

  /** `list?.join(', ') || ''`. */
  function ListText(xs: Option<seq<string>>): string
  {
    if xs.Some? then Join(xs.value, ", ") else ""
  }

  function TextOr(v: Option<string>, default: string): string
  {
    if v.Some? && v.value != "" then v.value else default
  }

  /**
   * The edit-load effect. `show` is `Number.prototype.toString` on the
   * stored coordinates.
   */
  function LoadForm(b: Building, show: real -> string): FormFields
  {
    FormFields(b.name, show(b.coordinates.lat), show(b.coordinates.lng), TextOr(b.category, DefaultCategory),
               TextOr(b.description, ""), ListText(b.facilities), ListText(b.departments), TextOr(b.hours, ""),
               b.isAdminBuilding)
  }

  /**
   * The key offices the form edits: a stored office keeps its id, one without
   * an id gets `freshId(i)` (the clock-and-random id of the source).
   */
  function LoadOffices(offices: Option<seq<KeyOffice>>, freshId: nat -> string): (r: seq<KeyOffice>)
    ensures offices.None? ==> r == []
    ensures offices.Some? ==> |r| == |offices.value|
    ensures offices.Some? ==> forall i :: 0 <= i < |r| ==>
      r[i] == offices.value[i].(id := if offices.value[i].id != "" then offices.value[i].id else freshId(i))
  {
    if offices.None? then []
    else seq(|offices.value|, i requires 0 <= i < |offices.value| =>
           offices.value[i].(id := if offices.value[i].id != "" then offices.value[i].id else freshId(i)))
  }

  // ---------------------------------------------------------------------
  // Validation
  // ---------------------------------------------------------------------

  const NameRequired: string := "Building name is required"
  const LatitudeRequired: string := "Latitude is required"
  const LatitudeRange: string := "Latitude must be between -90 and 90"
  const LongitudeRequired: string := "Longitude is required"
  const LongitudeRange: string := "Longitude must be between -180 and 180"
  const PurposeRequired: string := "Purpose is required when office name is provided"

  /** A `parseFloat` result within the bounds; `None` is `NaN`, which no bound admits. */
  predicate InRange(v: Option<real>, lo: real, hi: real)
  {
    v.Some? && lo <= v.value <= hi
  }

  /** The message for a coordinate field, if it fails: empty, or not a number in range. */
  function CoordinateError(text: string, parse: string -> Option<real>, lo: real, hi: real, required: string, range: string): (e: Option<string>)
    ensures e.None? <==> text != "" && InRange(parse(text), lo, hi)
  {
    if text == "" then Some(required)
    else if !InRange(parse(text), lo, hi) then Some(range)
    else None
  }

  /** The keys of the error object; `KeyText` gives the property name each stands for. */
  datatype ErrorKey = NameKey | LatitudeKey | LongitudeKey | OfficePurposeKey(index: nat)

  function KeyText(k: ErrorKey): string
  {
    match k
    case NameKey => "name"
    case LatitudeKey => "latitude"
    case LongitudeKey => "longitude"
    case OfficePurposeKey(i) => "office_purpose_" + NatToString(i)
  }

  /** Distinct keys are distinct property names, so the datatype loses nothing. */
  lemma KeyTextInjective(k: ErrorKey, l: ErrorKey)
    ensures KeyText(k) == KeyText(l) <==> k == l
  {
    if KeyText(k) == KeyText(l) && k.OfficePurposeKey? && l.OfficePurposeKey? {
      var p := "office_purpose_";
      assert NatToString(k.index) == KeyText(k)[|p|..];
      assert NatToString(l.index) == KeyText(l)[|p|..];
      ParseNatToString(k.index);
      ParseNatToString(l.index);
    } else if KeyText(k) == KeyText(l) && (k.OfficePurposeKey? || l.OfficePurposeKey?) {
      assert KeyText(k)[0] == KeyText(l)[0];
    }
  }

  type Errors = seq<(ErrorKey, string)>

  function Entry<V>(key: ErrorKey, e: Option<V>): seq<(ErrorKey, V)>
  {
    if e.Some? then [(key, e.value)] else []
  }

  function NameError(f: FormFields): Option<string>
  {
    if IsBlank(f.name) then Some(NameRequired) else None
  }

  function LatitudeError(f: FormFields, parse: string -> Option<real>): Option<string>
  {
    CoordinateError(f.latitude, parse, -90.0, 90.0, LatitudeRequired, LatitudeRange)
  }

  function LongitudeError(f: FormFields, parse: string -> Option<real>): Option<string>
  {
    CoordinateError(f.longitude, parse, -180.0, 180.0, LongitudeRequired, LongitudeRange)
  }

  /** An office that has a name but no purpose. */
  predicate MissingPurpose(o: KeyOffice)
  {
    !IsBlank(o.name) && IsBlank(o.purpose)
  }

  function OfficeError(o: KeyOffice): Option<string>
  {
    if MissingPurpose(o) then Some(PurposeRequired) else None
  }

  /** The outcome of the office check for every office, by index. */
  function OfficeChecks(offices: seq<KeyOffice>): (r: seq<Option<string>>)
    ensures |r| == |offices| && forall i :: 0 <= i < |r| ==> r[i] == OfficeError(offices[i])
  {
    seq(|offices|, i requires 0 <= i < |offices| => OfficeError(offices[i]))
  }

  /** The entries the first `n` office checks add, in index order. */
  function OfficeErrors<V>(checks: seq<Option<V>>, n: nat): (r: seq<(ErrorKey, V)>)
    requires n <= |checks|
    ensures forall k :: 0 <= k < |r| ==> r[k].0.OfficePurposeKey? && r[k].0.index < n
  {
    if n == 0 then []
    else
      var e := if checks[n - 1].Some? then [(OfficePurposeKey(n - 1), checks[n - 1].value)] else [];
      OfficeErrors(checks, n - 1) + e
  }

  /** The error object `validate` builds: name, latitude, longitude, then the offices. */
  function BuildingErrors(f: FormFields, offices: seq<KeyOffice>, parse: string -> Option<real>): Errors
  {
    FieldErrors(f, parse) + OfficeErrors(OfficeChecks(offices), |offices|)
  }

  predicate FormValid(f: FormFields, offices: seq<KeyOffice>, parse: string -> Option<real>)
  {
    !IsBlank(f.name)
    && f.latitude != "" && InRange(parse(f.latitude), -90.0, 90.0)
    && f.longitude != "" && InRange(parse(f.longitude), -180.0, 180.0)
    && forall i :: 0 <= i < |offices| ==> !MissingPurpose(offices[i])
  }

  lemma {:induction false} OfficeErrorsEmpty<V>(checks: seq<Option<V>>, n: nat)
    requires n <= |checks|
    ensures OfficeErrors(checks, n) == [] <==> forall i :: 0 <= i < n ==> checks[i].None?
  {
    if n > 0 {
      OfficeErrorsEmpty(checks, n - 1);
    }
  }

  /** The form validates exactly when the name is given, both coordinates are numbers in range, and every named office has a purpose. */
  lemma BuildingErrorsEmpty(f: FormFields, offices: seq<KeyOffice>, parse: string -> Option<real>)
    ensures BuildingErrors(f, offices, parse) == [] <==> FormValid(f, offices, parse)
  {
    OfficeErrorsEmpty(OfficeChecks(offices), |offices|);
  }

  lemma {:induction false} GetOfficeErrors<V>(checks: seq<Option<V>>, n: nat, k: ErrorKey)
    requires n <= |checks|
    ensures Get(OfficeErrors(checks, n), k) == if k.OfficePurposeKey? && k.index < n then checks[k.index] else None
  {
    if n > 0 {
      var e := if checks[n - 1].Some? then [(OfficePurposeKey(n - 1), checks[n - 1].value)] else [];
      GetOfficeErrors(checks, n - 1, k);
      GetConcat(OfficeErrors(checks, n - 1), e, k);
    }
  }

  /**
   * Each failed check leaves its message under its own key: `name`,
   * `latitude`, `longitude`, and `office_purpose_<i>` for office `i`.
   */
  lemma BuildingErrorsAt(f: FormFields, offices: seq<KeyOffice>, parse: string -> Option<real>, k: ErrorKey)
    ensures Get(BuildingErrors(f, offices, parse), k) ==
      match k
      case NameKey => NameError(f)
      case LatitudeKey => LatitudeError(f, parse)
      case LongitudeKey => LongitudeError(f, parse)
      case OfficePurposeKey(i) => if i < |offices| then OfficeError(offices[i]) else None
  {
    GetOfficeErrors(OfficeChecks(offices), |offices|, k);
    GetConcat(FieldErrors(f, parse), OfficeErrors(OfficeChecks(offices), |offices|), k);
    GetFieldEntries(NameError(f), LatitudeError(f, parse), LongitudeError(f, parse), k);
  }

  lemma GetFieldEntries<V>(x: Option<V>, y: Option<V>, z: Option<V>, k: ErrorKey)
    ensures Get(Entry(NameKey, x) + Entry(LatitudeKey, y) + Entry(LongitudeKey, z), k) ==
      match k
      case NameKey => x
      case LatitudeKey => y
      case LongitudeKey => z
      case OfficePurposeKey(_) => None
  {
    var a := Entry(NameKey, x);
    var b := Entry(LatitudeKey, y);
    var c := Entry(LongitudeKey, z);
    GetConcat(a + b, c, k);
    GetConcat(a, b, k);
  }

  function FieldErrors(f: FormFields, parse: string -> Option<real>): Errors
  {
    Entry(NameKey, NameError(f)) + Entry(LatitudeKey, LatitudeError(f, parse)) + Entry(LongitudeKey, LongitudeError(f, parse))
  }

  /** The first part of `validate`: the name and coordinate checks on a fresh error object. */
  method CheckFields(f: FormFields, parse: string -> Option<real>) returns (errors: Errors)
    ensures errors == FieldErrors(f, parse)
    ensures forall k :: 0 <= k < |errors| ==> !errors[k].0.OfficePurposeKey?
  {
    errors := [];
    var nameError := NameError(f);
    if nameError.Some? {
      errors := Put(errors, NameKey, nameError.value);
    }
    ghost var a := errors;
    var latError := LatitudeError(f, parse);
    if latError.Some? {
      PutFresh(errors, LatitudeKey, latError.value);
      errors := Put(errors, LatitudeKey, latError.value);
    }
    ghost var b := errors;
    var lngError := LongitudeError(f, parse);
    if lngError.Some? {
      PutFresh(errors, LongitudeKey, lngError.value);
      errors := Put(errors, LongitudeKey, lngError.value);
    }
  }

  /** The `forEach` of `validate`: one entry per office that has a name but no purpose. */
  method CheckOffices(offices: seq<KeyOffice>, fields: Errors) returns (errors: Errors)
    requires forall k :: 0 <= k < |fields| ==> !fields[k].0.OfficePurposeKey?
    ensures errors == fields + OfficeErrors(OfficeChecks(offices), |offices|)
  {
    errors := fields;
    ghost var checks := OfficeChecks(offices);
    assert errors == fields + OfficeErrors(checks, 0);
    var i := 0;
    while i < |offices|
      invariant 0 <= i <= |offices|
      invariant errors == fields + OfficeErrors(checks, i)
    {
      if MissingPurpose(offices[i]) {
        PutFresh(errors, OfficePurposeKey(i), PurposeRequired);
        errors := Put(errors, OfficePurposeKey(i), PurposeRequired);
        ConcatAssoc(fields, OfficeErrors(checks, i), [(OfficePurposeKey(i), PurposeRequired)]);
      } else {
        assert OfficeErrors(checks, i + 1) == OfficeErrors(checks, i) + [];
      }
      i := i + 1;
    }
  }

  /**
   * `validate`: fills a fresh error object check by check, the offices in a
   * `forEach`, and reports whether it stayed empty.
   */
  method Validate(f: FormFields, offices: seq<KeyOffice>, parse: string -> Option<real>) returns (errors: Errors, ok: bool)
    ensures errors == BuildingErrors(f, offices, parse)
    ensures ok <==> FormValid(f, offices, parse)
  {
    var fields := CheckFields(f, parse);
    errors := CheckOffices(offices, fields);
    ok := |errors| == 0;
    BuildingErrorsEmpty(f, offices, parse);
  }

  // ---------------------------------------------------------------------
  // Submitting
  // ---------------------------------------------------------------------

  /** The building data `handleSubmit` hands to `onSave`. */
  datatype BuildingData = BuildingData(
    name: string,
    coordinates: Coordinates,
    category: string,
    description: string,
    facilities: seq<string>,
    departments: seq<string>,
    hours: string,
    keyOffices: seq<KeyOffice>,
    isAdminBuilding: bool)

  /** An office worth sending: both its name and its purpose are filled in. */
  predicate CompleteOffice(o: KeyOffice) { !IsBlank(o.name) && !IsBlank(o.purpose) }

  /** The data of a valid form; the coordinates are stored longitude first. */
  function SubmittedData(f: FormFields, offices: seq<KeyOffice>, parse: string -> Option<real>): BuildingData
    requires FormValid(f, offices, parse)
  {
    BuildingData(Trim(f.name), Coordinates(parse(f.longitude).value, parse(f.latitude).value), f.category,
                 Trim(f.description), ParseList(f.facilities), ParseList(f.departments), Trim(f.hours),
                 Filter(offices, CompleteOffice), f.isAdminBuilding)
  }

  /** `handleSubmit`: an invalid form sends nothing. */
  method HandleSubmit(f: FormFields, offices: seq<KeyOffice>, parse: string -> Option<real>)
    returns (errors: Errors, sent: Option<BuildingData>)
    ensures errors == BuildingErrors(f, offices, parse)
    ensures sent.Some? <==> FormValid(f, offices, parse)
    ensures sent.Some? ==> sent.value == SubmittedData(f, offices, parse)
  {
    var ok;
    errors, ok := Validate(f, offices, parse);
    if !ok {
      return errors, None;
    }
    sent := Some(SubmittedData(f, offices, parse));
  }

  /**
   * What a valid form sends: the parsed coordinates in `[lng, lat]` order,
   * exactly the complete offices in their order, and lists whose items are
   * trimmed and never empty.
   */
  lemma SubmittedDataSpec(f: FormFields, offices: seq<KeyOffice>, parse: string -> Option<real>, o: KeyOffice)
    requires FormValid(f, offices, parse)
    ensures var d := SubmittedData(f, offices, parse);
      Some(d.coordinates.lng) == parse(f.longitude) && Some(d.coordinates.lat) == parse(f.latitude)
      && -90.0 <= d.coordinates.lat <= 90.0 && -180.0 <= d.coordinates.lng <= 180.0
      && (o in d.keyOffices <==> o in offices && CompleteOffice(o))
      && IsSubseq(d.keyOffices, offices)
      && (forall k :: 0 <= k < |d.facilities| ==> d.facilities[k] != "" && Trim(d.facilities[k]) == d.facilities[k])
      && (forall k :: 0 <= k < |d.departments| ==> d.departments[k] != "" && Trim(d.departments[k]) == d.departments[k])
      && d.isAdminBuilding == f.isAdminBuilding
  {
    FilterMember(offices, CompleteOffice, o);
    FilterSubseq(offices, CompleteOffice);
  }

  /**
   * Opening a building for editing and saving it unchanged gives back its
   * facility and department lists, provided their items are trimmed, not
   * empty and free of commas.
   */
  lemma EditListsRoundTrip(b: Building, show: real -> string, offices: seq<KeyOffice>, parse: string -> Option<real>)
    requires b.facilities.Some? ==> forall k :: 0 <= k < |b.facilities.value| ==> ListItem(b.facilities.value[k])
    requires b.departments.Some? ==> forall k :: 0 <= k < |b.departments.value| ==> ListItem(b.departments.value[k])
    requires FormValid(LoadForm(b, show), offices, parse)
    ensures SubmittedData(LoadForm(b, show), offices, parse).facilities == if b.facilities.Some? then b.facilities.value else []
    ensures SubmittedData(LoadForm(b, show), offices, parse).departments == if b.departments.Some? then b.departments.value else []
  {
    if b.facilities.Some? { ParseJoinRoundTrip(b.facilities.value); } else { assert Split("", ',') == [""]; }
    if b.departments.Some? { ParseJoinRoundTrip(b.departments.value); } else { assert Split("", ',') == [""]; }
  }

  // ---------------------------------------------------------------------
  // The key-office list editor
  // ---------------------------------------------------------------------

  /** `addKeyOffice`: appends one blank office whose id is the clock's text. */
  function AddKeyOffice(offices: seq<KeyOffice>, now: nat): (r: seq<KeyOffice>)
    ensures |r| == |offices| + 1 && r[..|offices|] == offices
    ensures r[|offices|] == KeyOffice(NatToString(now), "", "", "", "")
  {
    offices + [KeyOffice(NatToString(now), "", "", "", "")]
  }

  predicate OtherId(id: string, o: KeyOffice) { o.id != id }

  /** `removeKeyOffice`: drops the offices with that id. */
  function RemoveKeyOffice(offices: seq<KeyOffice>, id: string): seq<KeyOffice>
  {
    Filter(offices, o => OtherId(id, o))
  }

  lemma RemoveKeyOfficeSpec(offices: seq<KeyOffice>, id: string, o: KeyOffice)
    ensures o in RemoveKeyOffice(offices, id) <==> o in offices && o.id != id
    ensures IsSubseq(RemoveKeyOffice(offices, id), offices)
  {
    FilterMember(offices, x => OtherId(id, x), o);
    FilterSubseq(offices, x => OtherId(id, x));
  }

  /** The office fields the editor rows write to. */
  datatype OfficeField = OfficeName | OfficePurpose | OfficeHours | OfficeRoomNumber

  function SetOfficeField(o: KeyOffice, field: OfficeField, value: string): KeyOffice
  {
    match field
    case OfficeName => o.(name := value)
    case OfficePurpose => o.(purpose := value)
    case OfficeHours => o.(hours := value)
    case OfficeRoomNumber => o.(roomNumber := value)
  }

  /** `updateKeyOffice`: writes the field of the offices with that id. */
  function UpdateKeyOffice(offices: seq<KeyOffice>, id: string, field: OfficeField, value: string): (r: seq<KeyOffice>)
    ensures |r| == |offices|
    ensures forall i :: 0 <= i < |r| ==> r[i] == if offices[i].id == id then SetOfficeField(offices[i], field, value) else offices[i]
  {
    seq(|offices|, i requires 0 <= i < |offices| => if offices[i].id == id then SetOfficeField(offices[i], field, value) else offices[i])
  }

  /** An update never changes ids or touches another office, and only the named field of the matching one. */
  lemma UpdateKeyOfficeOnly(offices: seq<KeyOffice>, id: string, field: OfficeField, value: string, i: nat)
    requires i < |offices|
    ensures var r := UpdateKeyOffice(offices, id, field, value);
      r[i].id == offices[i].id
      && (offices[i].id != id ==> r[i] == offices[i])
      && (r[i].name == if offices[i].id == id && field == OfficeName then value else offices[i].name)
      && (r[i].purpose == if offices[i].id == id && field == OfficePurpose then value else offices[i].purpose)
      && (r[i].hours == if offices[i].id == id && field == OfficeHours then value else offices[i].hours)
      && (r[i].roomNumber == if offices[i].id == id && field == OfficeRoomNumber then value else offices[i].roomNumber)
  {
  }
}
