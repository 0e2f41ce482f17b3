/**
 * The add-personnel dialog (src/components/employees/add-employee-dialog.tsx):
 * the two validation schemas, the person-type switch that resets the form,
 * and the submit that hands the validated person to the roster page and
 * closes the dialog. The e-mail check on `contact` is the validation
 * library's and is taken as the parameter `isEmail`.
 */
module EmployeeDialog {
  import opened Wrappers
  import opened JsBuiltins
  import opened Definitions
  import opened Employees

  datatype PersonType = InHousePerson | SubcontractorPerson

  /** The form's field values; `dnrCapacity` is absent from the in-house form. */
  datatype FormValues = FormValues(name: string, workType: string, contact: string, dnrCapacity: Option<string>)

  /** `z.string().min(2)` on name and work type, measured in UTF-16 code units as JavaScript's `length` is. */
  const MinTextLength: nat := 2

  /**
   * `baseSchema`: name and work type at least 2 code units long, contact an
   * e-mail address. In code points, one is needed and two always suffice.
   */
  predicate BaseValid(v: FormValues, isEmail: string -> bool): (ok: bool)
    ensures ok ==> 1 <= |v.name| && 1 <= |v.workType| && isEmail(v.contact)
    ensures 2 <= |v.name| && 2 <= |v.workType| && isEmail(v.contact) ==> ok
  {
    Utf16Length(v.name) >= MinTextLength && Utf16Length(v.workType) >= MinTextLength && isEmail(v.contact)
  }

  /** `inHouseEmployeeSchema`: the base fields; any other key is dropped from the output. */
  function ParseInHouse(v: FormValues, isEmail: string -> bool): (r: Option<NewPerson>)
    ensures r.Some? <==> BaseValid(v, isEmail)
    ensures r.Some? ==> r.value.dnrCapacity.None?
    ensures r.Some? ==> r.value.name == v.name && r.value.workType == v.workType && r.value.contact == v.contact
  {
    if BaseValid(v, isEmail) then Some(NewPerson(v.name, v.workType, v.contact, None)) else None
  }

  /** `subcontractorSchema`: the base fields and a `dnrCapacity` that is one of `dnrCapacities`. */
  function ParseSubcontractor(v: FormValues, isEmail: string -> bool): (r: Option<NewPerson>)
    ensures r.Some? <==> BaseValid(v, isEmail) && v.dnrCapacity.Some? && ParseDnrCapacity(v.dnrCapacity.value).Some?
    ensures r.Some? ==> r.value.dnrCapacity.Some? && CapacityName(r.value.dnrCapacity.value) == v.dnrCapacity.value
    ensures r.Some? ==> r.value.name == v.name && r.value.workType == v.workType && r.value.contact == v.contact
  {
    if !BaseValid(v, isEmail) || v.dnrCapacity.None? then None
    else
      var c := ParseDnrCapacity(v.dnrCapacity.value);
      if c.None? then None else Some(NewPerson(v.name, v.workType, v.contact, c))
  }

  /** `currentSchema`, chosen by the selected person type. */
  function ParseForm(t: PersonType, v: FormValues, isEmail: string -> bool): (r: Option<NewPerson>)
    ensures t == InHousePerson ==> (r.Some? <==> BaseValid(v, isEmail))
    ensures t == SubcontractorPerson ==>
      (r.Some? <==> BaseValid(v, isEmail) && v.dnrCapacity.Some? && ParseDnrCapacity(v.dnrCapacity.value).Some?)
    ensures r.Some? ==> r.value.name == v.name && r.value.workType == v.workType && r.value.contact == v.contact
    ensures r.Some? ==> (r.value.dnrCapacity.Some? <==> t == SubcontractorPerson)
  {
    match t
    case InHousePerson => ParseInHouse(v, isEmail)
    case SubcontractorPerson => ParseSubcontractor(v, isEmail)
  }

  /** The values the form is reset to for a person type (empty text; "none" for a subcontractor). */
  function ResetValues(t: PersonType): (v: FormValues)
    ensures v.name == "" && v.workType == "" && v.contact == ""
    ensures v.dnrCapacity.Some? <==> t == SubcontractorPerson
    ensures t == SubcontractorPerson ==> ParseDnrCapacity(v.dnrCapacity.value) == Some(NoDnr)
  {
    FormValues("", "", "", if t == SubcontractorPerson then Some("none") else None)
  }

  /** Either schema accepts a name or work type only if it is at least 2 code units long, and only an e-mail contact. */
  lemma AcceptedFormMeetsBase(t: PersonType, v: FormValues, isEmail: string -> bool)
    requires ParseForm(t, v, isEmail).Some?
    ensures Utf16Length(v.name) >= 2 && Utf16Length(v.workType) >= 2 && isEmail(v.contact)
  {
  }

  /**
   * The length rule counts code units, so a name of one character beyond
   * U+FFFF (an emoji, say) is long enough, while one character of the Basic
   * Multilingual Plane is not.
   */
  lemma OneCharacterLengthRule(c: char)
    ensures Utf16Length([c]) >= MinTextLength <==> 0x1_0000 <= c as int
  {
  }

  /** The subcontractor form accepts each of the four capacities, "both" included, with valid base fields. */
  lemma EveryCapacityAccepted(v: FormValues, c: DnrCapacity, isEmail: string -> bool)
    requires BaseValid(v, isEmail) && v.dnrCapacity == Some(CapacityName(c))
    ensures ParseSubcontractor(v, isEmail) == Some(NewPerson(v.name, v.workType, v.contact, Some(c)))
  {
    ParseCapacityName(c);
  }

  /** A freshly reset form is rejected by either schema: its name is empty. */
  lemma ResetFormIsRejected(t: PersonType, isEmail: string -> bool)
    ensures ParseForm(t, ResetValues(t), isEmail).None?
  {
  }

  class AddEmployeeDialog {
    var personType: PersonType
    var values: FormValues

    /** Opens on the in-house form with empty fields. */
    constructor ()
      ensures personType == InHousePerson && values == ResetValues(InHousePerson)
    {
      personType := InHousePerson;
      values := ResetValues(InHousePerson);
    }

    /**
     * Choosing a person type. The effect on `personType` resets the form only
     * when the type actually changes; choosing the current type again leaves
     * the entered values as they are.
     */
    method SelectPersonType(t: PersonType)
      modifies this
      ensures personType == t
      ensures values == if t == old(personType) then old(values) else ResetValues(t)
    {
      if t != personType {
        personType := t;
        values := ResetValues(t);
      }
    }

    /** Typing into the form's fields. */
    method Enter(v: FormValues)
      modifies this
      ensures values == v && personType == old(personType)
    {
      values := v;
    }

    /** The Cancel button: `onOpenChange(false)`; the entered values stay. */
    method Cancel(page: EmployeesPage)
      modifies page
      ensures !page.isAddDialogOpen
      ensures page.inHouseEmployees == old(page.inHouseEmployees) && page.subcontractors == old(page.subcontractors)
    {
      page.SetAddDialogOpen(false);
    }

    /**
     * `form.handleSubmit(onSubmit)`: when the current schema accepts the
     * values, `onSave` runs once with the parsed person, the form is reset
     * and the dialog is closed; otherwise nothing changes.
     */
    method Submit(page: EmployeesPage, now: nat, isEmail: string -> bool) returns (saved: bool)
      modifies this, page
      ensures saved <==> ParseForm(old(personType), old(values), isEmail).Some?
      ensures personType == old(personType)
      ensures saved ==>
        var person := ParseForm(old(personType), old(values), isEmail).value;
        && page.subcontractors == SubcontractorsAfterSave(old(page.subcontractors), person, now)
        && page.inHouseEmployees == InHouseAfterSave(old(page.inHouseEmployees), person, now)
        && !page.isAddDialogOpen
        && values == ResetValues(personType)
      ensures !saved ==>
        && page.subcontractors == old(page.subcontractors)
        && page.inHouseEmployees == old(page.inHouseEmployees)
        && page.isAddDialogOpen == old(page.isAddDialogOpen)
        && values == old(values)
    {
      var parsed := ParseForm(personType, values, isEmail);
      if parsed.None? {
        return false;
      }
      page.SaveEmployee(parsed.value, now);
      values := ResetValues(personType);
      page.SetAddDialogOpen(false);
      saved := true;
    }
  }
}
