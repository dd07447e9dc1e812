/** The decisions of the projects screen (`Projects.tsx`): the form that creates and edits
    a project, the construction phase derived from progress for the material suggestion,
    and the status and budget colours of a project card. */
module Projects {
  import opened Wrappers
  import opened Types
  import opened Forms

  // ---------------------------------------------------------------- form

  /** `Partial<Project>` as the form holds it; the numeric inputs always hold a number. */
  datatype ProjectForm = ProjectForm(
    clientId: Option<string>, name: Option<string>, address: Option<string>,
    status: Option<ProjectStatus>, budget: int, spent: int,
    startDate: Option<string>, completionDate: Option<string>, progress: int,
    image: Option<string>)

  /** `handleCreate`: the blank form, with a placeholder picture keyed by `Date.now()`. */
  function NewProjectForm(stamp: string): ProjectForm {
    ProjectForm(None, Some(""), Some(""), Some(PLANNING), 0, 0, None, None, 0,
                Some("https://picsum.photos/800/600?random=" + stamp))
  }

  /** `handleEdit`: the form filled from an existing project. */
  function EditForm(p: Project): ProjectForm {
    ProjectForm(Some(p.clientId), Some(p.name), Some(p.address), Some(p.status), p.budget,
                p.spent, Some(p.startDate), Some(p.completionDate), p.progress, Some(p.image))
  }

  /** `handleSubmit`: nothing happens unless both name and client are filled in; otherwise
      the project keeps an edited record's id or gets a fresh `p-` id, missing text becomes
      empty, a missing status is PLANNING and missing dates are the current time `now`,
      and it is passed to update when editing and to add when creating. */
  function HandleSubmit(mode: Mode, form: ProjectForm, stamp: string, now: string): (r: Submission<Project>)
    ensures r.Rejected? <==> !Present(form.name) || !Present(form.clientId)
    ensures !r.Rejected? ==> (r.Update? <==> mode.Editing?)
    ensures !r.Rejected? && mode.Editing? ==> r.record.id == mode.id
    ensures !r.Rejected? && mode.Creating? ==> r.record.id == "p-" + stamp
    ensures !r.Rejected? ==>
      && r.record.name == form.name.value && r.record.name != ""
      && r.record.clientId == form.clientId.value && r.record.clientId != ""
    ensures !r.Rejected? ==>
      && (form.address.None? ==> r.record.address == "")
      && (form.image.None? ==> r.record.image == "")
      && (form.status.None? ==> r.record.status == PLANNING)
      && (!Present(form.startDate) ==> r.record.startDate == now)
      && (!Present(form.completionDate) ==> r.record.completionDate == now)
    ensures !r.Rejected? ==>
      && (form.address.Some? ==> r.record.address == form.address.value)
      && (form.image.Some? ==> r.record.image == form.image.value)
      && (form.status.Some? ==> r.record.status == form.status.value)
      && (Present(form.startDate) ==> r.record.startDate == form.startDate.value)
      && (Present(form.completionDate) ==> r.record.completionDate == form.completionDate.value)
    ensures !r.Rejected? ==>
      r.record.budget == form.budget && r.record.spent == form.spent && r.record.progress == form.progress
  {
    if Present(form.name) && Present(form.clientId) then
      Dispatch(mode, Project(
        RecordId(mode, "p-", stamp), form.clientId.value, form.name.value, Or(form.address, ""),
        form.status.GetOr(PLANNING), form.budget, form.spent, Or(form.startDate, now),
        Or(form.completionDate, now), form.progress, Or(form.image, "")))
    else
      Rejected
  }

  /** A blank form cannot be submitted: it has neither a name nor a client. */
  lemma NewFormRejected(mode: Mode, stamp: string, stamp': string, now: string)
    ensures HandleSubmit(mode, NewProjectForm(stamp), stamp', now).Rejected?
  {
  }

  /** A blank form given a name and a client creates a project in planning with no
      progress, nothing spent and no budget. */
  lemma NewFormDefaults(client: string, name: string, stamp: string, stamp': string, now: string)
    requires client != "" && name != ""
    ensures var r := HandleSubmit(Creating, NewProjectForm(stamp).(clientId := Some(client), name := Some(name)), stamp', now);
      && r.Add?
      && r.record.status == PLANNING && r.record.progress == 0
      && r.record.spent == 0 && r.record.budget == 0
      && r.record.id == "p-" + stamp'
  {
  }

  /** Opening a project for editing and saving it unchanged updates it to itself, provided
      it has a name, a client and both dates. */
  lemma EditRoundTrip(p: Project, stamp: string, now: string)
    requires p.name != "" && p.clientId != "" && p.startDate != "" && p.completionDate != ""
    ensures HandleSubmit(Editing(p.id), EditForm(p), stamp, now) == Update(p)
  {
  }

  // ---------------------------------------------------------------- phase

  /** The construction phases the material suggestion is asked for. */
  datatype Phase = Foundation | Structure | Finishing | Handover

  /** The phase names sent to the suggestion service. */
  function PhaseName(ph: Phase): string {
    match ph
    case Foundation => "Fundação"
    case Structure => "Estrutura"
    case Finishing => "Acabamento"
    case Handover => "Entrega"
  }

  /** The order of the phases. */
  function Rank(ph: Phase): nat {
    match ph
    case Foundation => 0
    case Structure => 1
    case Finishing => 2
    case Handover => 3
  }

  /** The `let phase` cascade of `handleAiSuggest`: each later test overrides the earlier,
      so the phase is the band `progress` falls in, with upper bounds 20, 60 and 90
      inclusive. */
  function PhaseFor(progress: int): (ph: Phase)
    ensures ph == Foundation <==> progress <= 20
    ensures ph == Structure <==> 20 < progress <= 60
    ensures ph == Finishing <==> 60 < progress <= 90
    ensures ph == Handover <==> 90 < progress
  {
    var ph0 := Foundation;
    var ph1 := if progress > 20 then Structure else ph0;
    var ph2 := if progress > 60 then Finishing else ph1;
    if progress > 90 then Handover else ph2
  }

  /** More progress never means an earlier phase. */
  lemma PhaseMonotone(p: int, q: int)
    requires p <= q
    ensures Rank(PhaseFor(p)) <= Rank(PhaseFor(q))
  {
  }

  /** The request to the suggestion service, as phase name and project name. */
  datatype SuggestionRequest = SuggestionRequest(phase: string, projectName: string)

  /** `handleAiSuggest`: a card that already shows a suggestion asks for none; otherwise it
      asks for the phase of the project's progress. */
  function SuggestRequest(shown: Option<string>, p: Project): (r: Option<SuggestionRequest>)
    ensures r.None? <==> Present(shown)
    ensures r.Some? ==> r.value == SuggestionRequest(PhaseName(PhaseFor(p.progress)), p.name)
  {
    if Present(shown) then None
    else Some(SuggestionRequest(PhaseName(PhaseFor(p.progress)), p.name))
  }

  // ---------------------------------------------------------------- card

  /** `statusLabel`: the Portuguese name of a status. */
  function StatusLabel(s: ProjectStatus): (text: string)
    ensures text == "Em Andamento" <==> s == IN_PROGRESS
    ensures text == "Concluído" <==> s == COMPLETED
    ensures text == "Planejamento" <==> s == PLANNING
    ensures text == "Pausado" <==> s == PAUSED
  {
    match s
    case IN_PROGRESS => "Em Andamento"
    case COMPLETED => "Concluído"
    case PLANNING => "Planejamento"
    case PAUSED => "Pausado"
  }

  /** No two statuses share a label. */
  lemma StatusLabelInjective(s: ProjectStatus, t: ProjectStatus)
    requires StatusLabel(s) == StatusLabel(t)
    ensures s == t
  {
  }

  const NEUTRAL_BADGE: string := "bg-slate-100 text-slate-700"

  /** `getStatusColor`: a colour of its own for planning, in progress and completed; a
      paused project falls to the neutral default. */
  function StatusColour(s: ProjectStatus): (c: string)
    ensures c == NEUTRAL_BADGE <==> s == PAUSED
  {
    match s
    case IN_PROGRESS => "bg-amber-100 text-amber-700"
    case COMPLETED => "bg-emerald-100 text-emerald-700"
    case PLANNING => "bg-blue-100 text-blue-700"
    case PAUSED => NEUTRAL_BADGE
  }

  /** No two statuses share a badge colour. */
  lemma StatusColourInjective(s: ProjectStatus, t: ProjectStatus)
    requires StatusColour(s) == StatusColour(t)
    ensures s == t
  {
  }

  const OVER_BUDGET: string := "bg-red-500"
  const WITHIN_BUDGET: string := "bg-emerald-500"

  /** The colour of the budget bar: red exactly when more has been spent than budgeted. */
  function BudgetBarColour(p: Project): (c: string)
    ensures c == OVER_BUDGET <==> p.spent > p.budget
    ensures c == WITHIN_BUDGET <==> p.spent <= p.budget
  {
    if p.spent > p.budget then OVER_BUDGET else WITHIN_BUDGET
  }
}
