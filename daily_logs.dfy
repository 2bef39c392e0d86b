/** The site diary page: its list of daily logs and the create/edit form. */
module DailyLogs {
  import opened Wrappers
  import opened Types
  import opened Seqs
  import MockData

  /**
   * The form's `Partial<DailyLog>`. The six edited fields are always present; `id` and `images`
   * are present only when the form was filled from an existing log.
   */
  datatype LogForm = LogForm(
    id: Option<Id>,
    projectId: Id,
    date: string,
    weather: string,
    manpowerCount: int,
    activities: string,
    issues: string,
    images: Option<seq<string>>)

  /** The text inputs of the form. */
  datatype LogField = ProjectField | DateField | WeatherField | ActivitiesField | IssuesField

  /** `MOCK_PROJECTS[0]?.id || ''` */
  function FirstProjectId(projects: seq<Project>): (id: Id)
    ensures projects == [] ==> id == ""
    ensures projects != [] ==> id == projects[0].id
  {
    if projects == [] then "" else projects[0].id
  }

  /** `initialFormState`: today's date, sunny, nobody on site, nothing written, the first project. */
  function InitialForm(today: string, projects: seq<Project>): (f: LogForm)
    ensures f.id.None? && f.images.None?
    ensures f.date == today && f.weather == "Nắng" && f.manpowerCount == 0
    ensures f.activities == "" && f.issues == "" && f.projectId == FirstProjectId(projects)
  {
    LogForm(None, FirstProjectId(projects), today, "Nắng", 0, "", "", None)
  }

  /** `setFormData(log)`: the form filled from a log, id and images included. */
  function FormOf(log: DailyLog): (f: LogForm)
    ensures f.id == Some(log.id) && f.images == log.images
  {
    LogForm(Some(log.id), log.projectId, log.date, log.weather, log.manpowerCount, log.activities, log.issues, log.images)
  }

  /** `{...log, ...formData}`: the fields present in the form replace those of the log. */
  function Overlay(log: DailyLog, f: LogForm): (r: DailyLog)
    ensures r.id == f.id.GetOr(log.id)
    ensures r.images == (if f.images.Some? then f.images else log.images)
    ensures r.projectId == f.projectId && r.date == f.date && r.weather == f.weather
    ensures r.manpowerCount == f.manpowerCount && r.activities == f.activities && r.issues == f.issues
  {
    DailyLog(f.id.GetOr(log.id), f.projectId, f.date, f.weather, f.manpowerCount, f.activities, f.issues,
      if f.images.Some? then f.images else log.images)
  }

  /** Opening a log for editing and submitting the form untouched leaves the log as it was. */
  lemma OverlayOwnForm(log: DailyLog)
    ensures Overlay(log, FormOf(log)) == log
  {
  }

  /** `{...formData, id: freshId}` */
  function NewLog(freshId: Id, f: LogForm): (r: DailyLog)
    ensures r.id == freshId && r.images == f.images
    ensures r.projectId == f.projectId && r.date == f.date && r.weather == f.weather
    ensures r.manpowerCount == f.manpowerCount && r.activities == f.activities && r.issues == f.issues
  {
    DailyLog(freshId, f.projectId, f.date, f.weather, f.manpowerCount, f.activities, f.issues, f.images)
  }

  /** The manpower input: `parseInt(value) || 0`; a negative number goes through. */
  function ParseManpower(parsed: Option<int>): (n: int)
    ensures parsed.None? ==> n == 0
    ensures parsed.Some? ==> n == parsed.value
  {
    parsed.GetOr(0)
  }

  /** Nothing clamps the head count: "-3" is stored as -3. */
  lemma NegativeManpowerAccepted()
    ensures ParseManpower(Some(-3)) == -3 && ParseManpower(None) == 0
  {
  }

  function EditRecord(f: LogForm, field: LogField, value: string): (g: LogForm)
    ensures g.id == f.id && g.images == f.images && g.manpowerCount == f.manpowerCount
    ensures g.projectId == (if field == ProjectField then value else f.projectId)
    ensures g.date == (if field == DateField then value else f.date)
    ensures g.weather == (if field == WeatherField then value else f.weather)
    ensures g.activities == (if field == ActivitiesField then value else f.activities)
    ensures g.issues == (if field == IssuesField then value else f.issues)
  {
    match field
    case ProjectField => f.(projectId := value)
    case DateField => f.(date := value)
    case WeatherField => f.(weather := value)
    case ActivitiesField => f.(activities := value)
    case IssuesField => f.(issues := value)
  }

  class DailyLogsState {
    var logs: seq<DailyLog>
    var showForm: bool
    var editing: Option<DailyLog>
    var form: LogForm

    constructor (today: string)
      ensures logs == MockData.MockLogs && !showForm && editing == None
      ensures form == InitialForm(today, MockData.MockProjects)
    {
      logs := MockData.MockLogs;
      showForm := false;
      editing := None;
      form := InitialForm(today, MockData.MockProjects);
    }

    /** `handleOpenCreate` */
    method OpenCreate(today: string)
      modifies this
      ensures editing == None && form == InitialForm(today, MockData.MockProjects) && showForm
      ensures logs == old(logs)
    {
      editing := None;
      form := InitialForm(today, MockData.MockProjects);
      showForm := true;
    }

    /** `handleOpenEdit(log)` */
    method OpenEdit(log: DailyLog)
      modifies this
      ensures editing == Some(log) && form == FormOf(log) && showForm
      ensures logs == old(logs)
    {
      editing := Some(log);
      form := FormOf(log);
      showForm := true;
    }

    /** The header button while the form is shown: it only hides the form. */
    method HideForm()
      modifies this
      ensures !showForm
      ensures logs == old(logs) && editing == old(editing) && form == old(form)
    {
      showForm := false;
    }

    /** The cancel button: hides the form and forgets the log being edited, but keeps the entries. */
    method Cancel()
      modifies this
      ensures !showForm && editing == None
      ensures logs == old(logs) && form == old(form)
    {
      showForm := false;
      editing := None;
    }

    method EditField(field: LogField, value: string)
      modifies this
      ensures form == EditRecord(old(form), field, value)
      ensures logs == old(logs) && showForm == old(showForm) && editing == old(editing)
    {
      form := EditRecord(form, field, value);
    }

    method SetManpower(parsed: Option<int>)
      modifies this
      ensures form == old(form).(manpowerCount := ParseManpower(parsed))
      ensures logs == old(logs) && showForm == old(showForm) && editing == old(editing)
    {
      form := form.(manpowerCount := ParseManpower(parsed));
    }

    /** `handleDelete(id)` once the confirmation dialog answered `confirmed`. */
    method Delete(id: Id, confirmed: bool)
      modifies this
      ensures logs == if confirmed then Without(old(logs), LogKey, id) else old(logs)
      ensures showForm == old(showForm) && editing == old(editing) && form == old(form)
    {
      if confirmed {
        logs := Without(logs, LogKey, id);
      }
    }

    /**
     * `handleSubmit`: overlay the form onto the log being edited, or prepend a new log with a fresh
     * id; then hide the form, forget the edited log and reset the form.
     */
    method Submit(freshId: Id, today: string)
      requires forall i :: 0 <= i < |logs| ==> logs[i].id != freshId
      modifies this
      ensures old(editing).Some? ==>
        |logs| == |old(logs)| &&
        forall i :: 0 <= i < |logs| ==>
          logs[i] == (if old(logs)[i].id == old(editing).value.id then Overlay(old(logs)[i], old(form)) else old(logs)[i])
      ensures old(editing).None? ==> logs == [NewLog(freshId, old(form))] + old(logs)
      ensures !showForm && editing == None && form == InitialForm(today, MockData.MockProjects)
    {
      if editing.Some? {
        var f, e := form, editing.value;
        logs := MapById(logs, LogKey, e.id, (log: DailyLog) => Overlay(log, f));
      } else {
        logs := [NewLog(freshId, form)] + logs;
      }
      showForm := false;
      editing := None;
      form := InitialForm(today, MockData.MockProjects);
    }
  }
}
