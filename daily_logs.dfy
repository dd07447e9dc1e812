/** The decisions of the site diary screen (`DailyLogs.tsx`): the entry form, how an entry
    is opened for editing and submitted, and the weather label. */
module DailyLogs {
  import opened Wrappers
  import opened Types
  import opened Forms
  import opened Strings

  /** `Partial<DailyLog>` as the form holds it; the weather select always holds a value. */
  datatype LogForm = LogForm(
    projectId: Option<string>, authorId: Option<string>, content: Option<string>,
    date: Option<string>, weather: Weather, images: Option<seq<string>>)

  /** `handleOpenCreate`: a sunny entry for today, given the current time as ISO text. */
  function NewLogForm(nowIso: string): (f: LogForm)
    ensures f.date.Some? && f.date.value <= nowIso && 'T' !in f.date.value
    ensures |f.date.value| < |nowIso| ==> nowIso[|f.date.value|] == 'T'
  {
    LogForm(Some(""), None, Some(""), Some(BeforeFirst(nowIso, 'T')), SUNNY, None)
  }

  /** `handleOpenEdit`: the form filled from an entry, its date cut to the day, that is to
      the text before the first `T`. */
  function EditForm(l: DailyLog): (f: LogForm)
    ensures f.date.Some? && f.date.value <= l.date && 'T' !in f.date.value
    ensures |f.date.value| < |l.date| ==> l.date[|f.date.value|] == 'T'
    ensures 'T' !in l.date ==> f.date == Some(l.date)
  {
    LogForm(Some(l.projectId), Some(l.authorId), Some(l.content), Some(BeforeFirst(l.date, 'T')),
            l.weather, Some(l.images))
  }

  /** `formData.authorId || currentUser?.id || 'u-unknown'` */
  function AuthorId(formAuthor: Option<string>, user: Option<User>): (id: string)
    ensures Present(formAuthor) ==> id == formAuthor.value
    ensures !Present(formAuthor) && user.Some? && user.value.id != "" ==> id == user.value.id
    ensures !Present(formAuthor) && (user.None? || user.value.id == "") ==> id == "u-unknown"
    ensures id != ""
  {
    if Present(formAuthor) then formAuthor.value
    else if user.Some? && user.value.id != "" then user.value.id
    else "u-unknown"
  }

  /** `handleSubmit`: nothing happens unless content and project are filled in; otherwise
      the entry keeps an edited entry's id or gets a fresh `l-` id, its author falls back to
      the current user and then to `u-unknown`, a chosen day is turned back into a full
      timestamp by `iso` (`new Date(day).toISOString()`) and a missing one is `now`, missing
      pictures become the empty list, and it is passed to update or add. */
  function HandleSubmit(mode: Mode, form: LogForm, user: Option<User>, stamp: string, now: string,
                        iso: string -> string): (r: Submission<DailyLog>)
    ensures r.Rejected? <==> !Present(form.content) || !Present(form.projectId)
    ensures !r.Rejected? ==> (r.Update? <==> mode.Editing?)
    ensures !r.Rejected? && mode.Editing? ==> r.record.id == mode.id
    ensures !r.Rejected? && mode.Creating? ==> r.record.id == "l-" + stamp
    ensures !r.Rejected? ==>
      && r.record.content == form.content.value && r.record.content != ""
      && r.record.projectId == form.projectId.value && r.record.projectId != ""
      && r.record.authorId == AuthorId(form.authorId, user)
      && r.record.weather == form.weather
    ensures !r.Rejected? ==>
      && (Present(form.date) ==> r.record.date == iso(form.date.value))
      && (!Present(form.date) ==> r.record.date == now)
      && (form.images.None? ==> r.record.images == [])
      && (form.images.Some? ==> r.record.images == form.images.value)
  {
    if Present(form.content) && Present(form.projectId) then
      Dispatch(mode, DailyLog(
        RecordId(mode, "l-", stamp), form.projectId.value, AuthorId(form.authorId, user),
        form.content.value, if Present(form.date) then iso(form.date.value) else now,
        form.weather, form.images.GetOr([])))
    else
      Rejected
  }

  /** A freshly opened form cannot be submitted: it has no content and no project. */
  lemma NewFormRejected(mode: Mode, nowIso: string, user: Option<User>, stamp: string, now: string,
                        iso: string -> string)
    ensures HandleSubmit(mode, NewLogForm(nowIso), user, stamp, now, iso).Rejected?
  {
  }

  /** Opening an entry for editing and saving it unchanged updates it to itself, except
      that its date becomes the timestamp of its day. */
  lemma EditRoundTrip(l: DailyLog, user: Option<User>, stamp: string, now: string, iso: string -> string)
    requires l.content != "" && l.projectId != "" && l.authorId != ""
    requires l.date != [] && l.date[0] != 'T'
    ensures HandleSubmit(Editing(l.id), EditForm(l), user, stamp, now, iso)
            == Update(l.(date := iso(BeforeFirst(l.date, 'T'))))
  {
  }

  /** The weather label: sunny, rainy, and anything else is cloudy. */
  function WeatherLabel(w: Weather): (text: string)
    ensures text == "Nublado" <==> w == CLOUDY
  {
    match w
    case SUNNY => "Ensolarado"
    case RAINY => "Chuvoso"
    case _ => "Nublado"
  }

  /** No two weathers share a label. */
  lemma WeatherLabelInjective(w: Weather, v: Weather)
    requires WeatherLabel(w) == WeatherLabel(v)
    ensures w == v
  {
  }
}
