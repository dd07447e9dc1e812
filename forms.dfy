/** What every form module shares: JavaScript's `||` on an optional text field, the
    create/edit mode of a form, and the outcome of submitting it. */
module Forms {
  import opened Wrappers

  /** JavaScript truthiness of an optional text field: present and not empty. */
  predicate Present(o: Option<string>) {
    o.Some? && o.value != ""
  }

  /** `o || d` on an optional text field. */
  function Or(o: Option<string>, d: string): string {
    if Present(o) then o.value else d
  }

  /** A form is either creating a record or editing the record with the given id
      (`isEditing` together with `formData.id`, which an edit form always carries). */
  datatype Mode = Creating | Editing(id: string)

  /** What a submit handler does: nothing, or calls the store's add or update. */
  datatype Submission<T> = Rejected | Add(record: T) | Update(record: T)

  /** `isEditing ? formData.id! : prefix + Date.now()` */
  function RecordId(mode: Mode, prefix: string, stamp: string): string {
    match mode
    case Editing(id) => id
    case Creating => prefix + stamp
  }

  /** `if (isEditing) update(record) else add(record)` */
  function Dispatch<T>(mode: Mode, record: T): (r: Submission<T>)
    ensures !r.Rejected? && r.record == record
    ensures r.Update? <==> mode.Editing?
  {
    if mode.Editing? then Update(record) else Add(record)
  }
}
