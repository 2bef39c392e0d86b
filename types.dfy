/** The record shapes of types.ts. */
module Types {
  import opened Wrappers

  type Id = string

  /** A calendar date as an instant in milliseconds; the views only compare dates. */
  type Instant = int

  /** The five project phases; every test elsewhere is equality on these. */
  datatype ProjectStatus = Planning | InProgress | Inspection | Completed | Delayed

  /** The string value of each enum member. */
  function ProjectStatusLabel(s: ProjectStatus): string
  {
    match s
    case Planning => "Chuẩn bị"
    case InProgress => "Đang thi công"
    case Inspection => "Nghiệm thu"
    case Completed => "Hoàn thành"
    case Delayed => "Chậm tiến độ"
  }

  /** Reading a label back (the `data.status as ProjectStatus` of a form select). */
  function ParseProjectStatus(text: string): (r: Option<ProjectStatus>)
    ensures r.Some? ==> ProjectStatusLabel(r.value) == text
  {
    if text == "Chuẩn bị" then Some(Planning)
    else if text == "Đang thi công" then Some(InProgress)
    else if text == "Nghiệm thu" then Some(Inspection)
    else if text == "Hoàn thành" then Some(Completed)
    else if text == "Chậm tiến độ" then Some(Delayed)
    else None
  }

  /** Every status has its own label: the enum is a closed set of five distinct strings. */
  lemma ProjectStatusLabelRoundTrip(s: ProjectStatus)
    ensures ParseProjectStatus(ProjectStatusLabel(s)) == Some(s)
  {
  }

  datatype Project = Project(
    id: Id,
    name: string,
    location: string,
    client: string,
    status: ProjectStatus,
    progress: int,  // documented as 0-100, not enforced anywhere
    startDate: Instant,
    endDate: Instant,
    description: string,
    pcccType: string)

  function ProjectKey(p: Project): Id { p.id }

  /** The four supply states of a material. */
  datatype MaterialStatus = InStock | OnOrder | OutOfStock | Consumed

  function MaterialStatusLabel(s: MaterialStatus): string
  {
    match s
    case InStock => "Đủ hàng"
    case OnOrder => "Đang đặt"
    case OutOfStock => "Hết hàng"
    case Consumed => "Đã sử dụng"
  }

  function ParseMaterialStatus(text: string): (r: Option<MaterialStatus>)
    ensures r.Some? ==> MaterialStatusLabel(r.value) == text
  {
    if text == "Đủ hàng" then Some(InStock)
    else if text == "Đang đặt" then Some(OnOrder)
    else if text == "Hết hàng" then Some(OutOfStock)
    else if text == "Đã sử dụng" then Some(Consumed)
    else None
  }

  /** Four distinct labels, and the filter's "Tất cả" (all) is none of them. */
  lemma MaterialStatusLabelRoundTrip(s: MaterialStatus)
    ensures ParseMaterialStatus(MaterialStatusLabel(s)) == Some(s)
    ensures MaterialStatusLabel(s) != "Tất cả"
  {
  }

  /**
   * A material line. `unit` and `status` are optional because a record added through the
   * material form carries neither: the form only submits a name and the two quantities.
   */
  datatype Material = Material(
    id: Id,
    name: string,
    unit: Option<string>,
    plannedQuantity: int,
    actualQuantity: int,
    status: Option<MaterialStatus>)

  function MaterialKey(m: Material): Id { m.id }

  datatype DailyLog = DailyLog(
    id: Id,
    projectId: Id,
    date: string,
    weather: string,
    manpowerCount: int,
    activities: string,
    issues: string,
    images: Option<seq<string>>)

  function LogKey(l: DailyLog): Id { l.id }

  datatype ChecklistItem = ChecklistItem(
    id: Id,
    category: string,
    task: string,
    isCompleted: bool,
    notes: Option<string>,
    standardRef: Option<string>)  // a TCVN reference

  function ItemKey(i: ChecklistItem): Id { i.id }

  datatype Checklist = Checklist(id: Id, projectId: Id, title: string, items: seq<ChecklistItem>)

  function ChecklistKey(c: Checklist): Id { c.id }

  datatype ReportTone = Professional | Concise | Technical

  datatype Language = Vi | En

  /** The AI report configuration: three independent focus flags, a tone and a language. */
  datatype AISettings = AISettings(
    riskAssessment: bool,
    resourceOptimization: bool,
    progressForecasting: bool,
    reportTone: ReportTone,
    language: Language)
}
