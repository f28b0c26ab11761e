/**
 * The admin appointments page (src/pages/admin/Appointments.tsx): an edit
 * form loaded from an appointment with defaults, reset, the choice between a
 * create and an update on submit, a confirmed delete, and the name and
 * colour lookups of the table.
 */
module AdminAppointments {
  import opened Wrappers
  import opened Text
  import opened Seqs

  /** An appointment as the backend returns it; any field but the id may be missing. */
  datatype Appointment = Appointment(id: int, patientId: Option<int>, doctorId: Option<int>,
                                     date: Option<string>, time: Option<string>, reason: Option<string>,
                                     status: Option<string>, notes: Option<string>)

  /** The edit form: every input holds text. */
  datatype AppointmentForm = AppointmentForm(patientId: string, doctorId: string, date: string, time: string,
                                             reason: string, status: string, notes: string)

  /** The inputs of the appointment form: two selects of people, date, time, reason, the status select and notes. */
  datatype FormField = PatientField | DoctorField | DateField | TimeField | ReasonField | StatusField | NotesField

  /** `{ ...form, [field]: value }`: the named field takes the value and every other field stays. */
  function WithField(form: AppointmentForm, field: FormField, value: string): (r: AppointmentForm)
    ensures r.patientId == (if field == PatientField then value else form.patientId)
    ensures r.doctorId == (if field == DoctorField then value else form.doctorId)
    ensures r.date == (if field == DateField then value else form.date)
    ensures r.time == (if field == TimeField then value else form.time)
    ensures r.reason == (if field == ReasonField then value else form.reason)
    ensures r.status == (if field == StatusField then value else form.status)
    ensures r.notes == (if field == NotesField then value else form.notes)
  {
    match field
    case PatientField => form.(patientId := value)
    case DoctorField => form.(doctorId := value)
    case DateField => form.(date := value)
    case TimeField => form.(time := value)
    case ReasonField => form.(reason := value)
    case StatusField => form.(status := value)
    case NotesField => form.(notes := value)
  }

  /**
   * The order of two changes matters only when they hit the same field: then
   * the later value wins; changes to different fields commute.
   */
  lemma FieldChangesCompose(form: AppointmentForm, f1: FormField, v1: string, f2: FormField, v2: string)
    ensures f1 == f2 ==> WithField(WithField(form, f1, v1), f2, v2) == WithField(form, f2, v2)
    ensures f1 != f2 ==> WithField(WithField(form, f1, v1), f2, v2) == WithField(WithField(form, f2, v2), f1, v1)
  {
  }

  /** What a submit sends: the ids parsed (`None` for NaN), the rest verbatim. */
  datatype AppointmentData = AppointmentData(patientId: Option<int>, doctorId: Option<int>, date: string,
                                             time: string, reason: string, status: string, notes: string)

  /** The backend calls the page issues. */
  datatype Request = Create(data: AppointmentData) | Update(id: int, data: AppointmentData) | Delete(id: int)

  /** A patient or doctor record of the lookup lists. */
  datatype Person = Person(id: int, fullName: string)

  const Scheduled := "scheduled"
  const BlankForm := AppointmentForm("", "", "", "", "", Scheduled, "")

  /** `value || fallback` for an optional text: missing and empty both give the fallback. */
  function OrElse(value: Option<string>, fallback: string): (r: string)
    ensures value.Some? && value.value != "" ==> r == value.value
    ensures value.None? || value.value == "" ==> r == fallback
  {
    if value.Some? && value.value != "" then value.value else fallback
  }

  /** `id?.toString() || ''` */
  function IdText(id: Option<int>): (r: string)
    ensures id.None? <==> r == ""
  {
    match id
    case Some(n) => IntToString(n)
    case None => ""
  }

  /** The form `handleEdit` loads: each field or empty text, ids as text, and "scheduled" when the status is missing or empty. */
  function FormOf(a: Appointment): AppointmentForm {
    AppointmentForm(IdText(a.patientId), IdText(a.doctorId), OrElse(a.date, ""), OrElse(a.time, ""),
                    OrElse(a.reason, ""), OrElse(a.status, Scheduled), OrElse(a.notes, ""))
  }

  /** The data a submit sends for a form. */
  function Payload(f: AppointmentForm): AppointmentData {
    AppointmentData(ParseInt(f.patientId), ParseInt(f.doctorId), f.date, f.time, f.reason, f.status, f.notes)
  }

  lemma ParseEmpty()
    ensures ParseInt("") == None
  {
  }

  /**
   * Editing an appointment and submitting the form unchanged sends its own
   * ids back, parsed from their text, and its other fields with missing ones
   * as empty text and a missing status as "scheduled".
   */
  lemma EditThenSubmitRoundTrip(a: Appointment)
    ensures Payload(FormOf(a)) ==
      AppointmentData(a.patientId, a.doctorId, OrElse(a.date, ""), OrElse(a.time, ""),
                      OrElse(a.reason, ""), OrElse(a.status, Scheduled), OrElse(a.notes, ""))
  {
    ParseEmpty();
    if a.patientId.Some? {
      ParseIntToString(a.patientId.value);
    }
    if a.doctorId.Some? {
      ParseIntToString(a.doctorId.value);
    }
  }

  /** The name of the first person with this id, or "<kind> ID: <id>" when there is none. */
  function NameOrId(people: seq<Person>, id: int, kind: string): (r: string)
    ensures (exists i :: 0 <= i < |people| && people[i].id == id) ==>
              exists k :: 0 <= k < |people| && people[k].id == id && r == people[k].fullName
                          && forall j :: 0 <= j < k ==> people[j].id != id
    ensures (forall i :: 0 <= i < |people| ==> people[i].id != id) ==> r == kind + " ID: " + IntToString(id)
  {
    match Find(people, (p: Person) => p.id == id)
    case Some(p) => p.fullName
    case None => kind + " ID: " + IntToString(id)
  }

  /** `getPatientName` */
  function PatientName(patients: seq<Person>, id: int): string {
    NameOrId(patients, id, "Patient")
  }

  /** `getDoctorName` */
  function DoctorName(doctors: seq<Person>, id: int): string {
    NameOrId(doctors, id, "Doctor")
  }

  const Blue := "bg-blue-100 text-blue-800"
  const Green := "bg-green-100 text-green-800"
  const Red := "bg-red-100 text-red-800"
  const Gray := "bg-gray-100 text-gray-800"

  /** Three distinct colours for scheduled, completed and cancelled; "no-show" and anything else share gray. */
  function StatusColor(status: string): (c: string)
    ensures c == Blue <==> status == "scheduled"
    ensures c == Green <==> status == "completed"
    ensures c == Red <==> status == "cancelled"
    ensures c == Gray <==> status != "scheduled" && status != "completed" && status != "cancelled"
  {
    match status
    case "scheduled" => Blue
    case "completed" => Green
    case "cancelled" => Red
    case "no-show" => Gray
    case _ => Gray
  }

  /** The page's form state. */
  class AppointmentsPage {
    var selected: Option<Appointment>
    var form: AppointmentForm
    var isEditing: bool

    constructor()
      ensures selected == None && form == BlankForm && !isEditing
    {
      selected := None;
      form := BlankForm;
      isEditing := false;
    }

    /** `resetForm`: empty fields, status "scheduled", not editing, nothing selected. */
    method ResetForm()
      modifies this
      ensures form == BlankForm && !isEditing && selected == None
    {
      form := BlankForm;
      isEditing := false;
      selected := None;
    }

    /** `handleEdit`: the appointment is selected and loaded into the form, and editing starts. */
    method HandleEdit(a: Appointment)
      modifies this
      ensures selected == Some(a) && form == FormOf(a) && isEditing
    {
      selected := Some(a);
      form := FormOf(a);
      isEditing := true;
    }

    /** `setForm({ ...form, [field]: value })`: an input or select sets its own field of the form. */
    method SetForm(field: FormField, value: string)
      modifies this`form
      ensures form == WithField(old(form), field, value)
    {
      form := WithField(form, field, value);
    }

    /** `handleDelete`: the delete is issued only when the user confirms. */
    method HandleDelete(id: int, confirmed: bool) returns (request: Option<Request>)
      ensures confirmed <==> request.Some?
      ensures confirmed ==> request == Some(Delete(id))
    {
      request := None;
      if confirmed {
        request := Some(Delete(id));
      }
    }

    /**
     * `handleSubmit`: an update of the selected appointment when editing with
     * a selection, a create otherwise; exactly one request, with the form's
     * payload. The form stays as it is until the request succeeds.
     */
    method HandleSubmit() returns (request: Request)
      ensures request.Update? <==> isEditing && selected.Some?
      ensures request.Update? ==> request == Update(selected.value.id, Payload(form))
      ensures request.Create? ==> request == Create(Payload(form))
      ensures !request.Delete?
    {
      var data := Payload(form);
      if isEditing && selected.Some? {
        request := Update(selected.value.id, data);
      } else {
        request := Create(data);
      }
    }

    /** A request succeeded: a create or an update resets the form; a delete leaves it. */
    method OnSuccess(request: Request)
      modifies this
      ensures !request.Delete? ==> form == BlankForm && !isEditing && selected == None
      ensures request.Delete? ==> form == old(form) && isEditing == old(isEditing) && selected == old(selected)
    {
      if !request.Delete? {
        ResetForm();
      }
    }
  }
}
