/**
 * The doctor's new-record form: five fields edited one at a time, emitted
 * together on submit and then reset.
 */
module AddRecordForm {

  /** What the form emits: a record without an id and without attachments. */
  datatype RecordDraft = RecordDraft(date: string, hospital: string, department: string, diagnosis: string, notes: string)

  /** The `name` attribute of the input a change comes from. */
  datatype Field = Date | Hospital | Department | Diagnosis | Notes

  /** The form as it opens: the given day (today's ISO date) and four empty fields. */
  function BlankDraft(today: string): (d: RecordDraft)
    ensures d.date == today
    ensures d.hospital == d.department == d.diagnosis == d.notes == ""
  {
    RecordDraft(today, "", "", "", "")
  }

  /** The value of one field of a draft. */
  function FieldValue(d: RecordDraft, f: Field): string
  {
    match f
    case Date => d.date
    case Hospital => d.hospital
    case Department => d.department
    case Diagnosis => d.diagnosis
    case Notes => d.notes
  }

  /** Every input carries `required`, so the browser submits only when none is empty. */
  predicate Filled(d: RecordDraft)
  {
    forall f: Field :: FieldValue(d, f) != ""
  }

  class RecordForm {
    var date: string
    var hospital: string
    var department: string
    var diagnosis: string
    var notes: string

    /** The form data as one value. */
    function Data(): RecordDraft
      reads this
    {
      RecordDraft(date, hospital, department, diagnosis, notes)
    }

    constructor (today: string)
      ensures Data() == BlankDraft(today)
    {
      date, hospital, department, diagnosis, notes := today, "", "", "", "";
    }

    /** `handleChange`: the field the input names takes the typed value; the other four keep theirs. */
    method Change(field: Field, value: string)
      modifies this
      ensures FieldValue(Data(), field) == value
      ensures forall f :: f != field ==> FieldValue(Data(), f) == FieldValue(old(Data()), f)
    {
      match field
      case Date => date := value;
      case Hospital => hospital := value;
      case Department => department := value;
      case Diagnosis => diagnosis := value;
      case Notes => notes := value;
    }

    /**
     * `handleSubmit`: emits the form data as it stood, then resets the form
     * to a blank draft dated `today`. Closing the dialog is the caller's
     * `onClose`.
     */
    method Submit(today: string) returns (emitted: RecordDraft)
      requires Filled(Data())
      modifies this
      ensures emitted == old(Data())
      ensures Data() == BlankDraft(today)
    {
      emitted := Data();
      date, hospital, department, diagnosis, notes := today, "", "", "", "";
    }
  }
}
