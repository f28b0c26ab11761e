/**
 * The doctor's dashboard (src/pages/doctor/Dashboard.tsx): a free-form
 * appointment form over an untyped record, edited in place, submitted as an
 * update of the selected appointment or as a create stamped with the doctor's
 * id, and reset after every submit.
 */
module DoctorDashboard {
  import opened Wrappers

  /** A field value of an untyped record: the ids may be text or numbers. */
  datatype Value = Str(s: string) | Num(n: int)

  /** An untyped record, as the backend sends it and as the form holds it. */
  type Record = map<string, Value>

  const IdKey := "id"
  const DoctorIdKey := "doctorId"

  /** `record.id`; `None` when the record has no id (undefined). */
  function IdOf(r: Record): (id: Option<Value>)
    ensures id.Some? <==> IdKey in r
    ensures id.Some? ==> id.value == r[IdKey]
  {
    if IdKey in r then Some(r[IdKey]) else None
  }

  /** The backend calls the dashboard issues. */
  datatype Request = Create(data: Record) | Update(id: Option<Value>, data: Record) | Delete(target: Value)

  /** `{ ...form, doctorId }`: the form with the doctor's id, which wins over a field of the same name. */
  function Stamped(form: Record, doctorId: Value): (r: Record)
    ensures r.Keys == form.Keys + {DoctorIdKey}
    ensures r[DoctorIdKey] == doctorId
    ensures forall k :: k in form && k != DoctorIdKey ==> r[k] == form[k]
  {
    form[DoctorIdKey := doctorId]
  }

  /** The dashboard's state for one doctor. */
  class Dashboard {
    const doctorId: Value
    var selected: Option<Record>
    var form: Record
    var isEditing: bool

    /** Editing always has a selection: the two are set and cleared together. */
    ghost predicate Valid()
      reads this
    {
      isEditing ==> selected.Some?
    }

    constructor(doctorId: Value)
      ensures Valid()
      ensures this.doctorId == doctorId && selected == None && form == map[] && !isEditing
    {
      this.doctorId := doctorId;
      selected := None;
      form := map[];
      isEditing := false;
    }

    /** `handleEdit`: the appointment becomes the selection and the form, and editing starts. */
    method HandleEdit(appt: Record)
      modifies this`selected, this`form, this`isEditing
      ensures Valid()
      ensures selected == Some(appt) && form == appt && isEditing
    {
      selected := Some(appt);
      form := appt;
      isEditing := true;
    }

    /** Typing into the patient, date or time input sets that field of the form. */
    method SetField(key: string, value: string)
      modifies this`form
      ensures form == old(form)[key := Str(value)]
    {
      form := form[key := Str(value)];
    }

    /** `handleDelete`: the id goes straight to the backend, without confirmation. */
    method HandleDelete(id: Value) returns (request: Request)
      ensures request == Delete(id)
    {
      request := Delete(id);
    }

    /**
     * `handleSubmit`: an update of the selection with the form while editing,
     * otherwise a create of the form stamped with the doctor's id; then, whatever
     * becomes of the request, the form is emptied and editing ends.
     */
    method HandleSubmit() returns (request: Request)
      requires Valid()
      modifies this`selected, this`form, this`isEditing
      ensures Valid()
      ensures old(isEditing) ==> request == Update(IdOf(old(selected).value), old(form))
      ensures !old(isEditing) ==> request == Create(Stamped(old(form), doctorId))
      ensures form == map[] && !isEditing && selected == None
    {
      if isEditing {
        request := Update(IdOf(selected.value), form);
      } else {
        request := Create(form[DoctorIdKey := doctorId]);
      }
      form := map[];
      isEditing := false;
      selected := None;
    }

    /** Cancel: editing ends, the form is emptied and nothing is selected. */
    method Cancel()
      modifies this`selected, this`form, this`isEditing
      ensures Valid()
      ensures form == map[] && !isEditing && selected == None
    {
      isEditing := false;
      form := map[];
      selected := None;
    }
  }
}
