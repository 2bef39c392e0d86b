/**
 * The project detail view: its material, milestone, finance and document lists, the values
 * derived from them (material filter and statistics, supply bars, the milestone pipeline),
 * and the handlers that replace those lists.
 */
module ProjectDetail {
  import opened Wrappers
  import opened Types
  import opened Seqs
  import opened JsMath

  datatype MilestoneStatus = Done | Active | Pending  // 'completed' | 'active' | 'pending'

  /** A schedule milestone; `title` is the source's `label`. */
  datatype Milestone = Milestone(
    id: Id,
    title: string,
    date: string,
    progress: int,
    status: MilestoneStatus,
    description: Option<string>)

  datatype TransactionKind = Income | Expense

  /** A finance entry; `title` is the source's `label`, `kind` its `type`. */
  datatype Transaction = Transaction(id: Id, title: string, amount: string, date: string, kind: TransactionKind)

  /** A project document; `kind` is the source's `type`. */
  datatype DocumentFile = DocumentFile(id: Id, name: string, kind: string, status: string, size: string)

  function MilestoneKey(m: Milestone): Id { m.id }
  function TransactionKey(t: Transaction): Id { t.id }
  function DocumentKey(d: DocumentFile): Id { d.id }

  /** The page's tabs, plus the `'all'` that `deleteItem` also accepts. */
  datatype Section = Overview | Schedule | Finance | Documents | Materials | AllSections

  /** The material filter buttons: 'Tất cả' or one status label. */
  datatype MaterialFilter = AllMaterials | Only(status: MaterialStatus)

  datatype ModalKind = MilestoneModal | FinanceModal | DocumentModal | EditProjectModal | MaterialModal

  datatype QuantityField = Planned | Actual

  /** What `updateMaterialQuantity` receives: a number, or the text of an input with its parseInt. */
  datatype QuantityInput = Number(n: int) | Text(parsed: Option<int>)

  /** The entries of the modal form, one shape per modal that has fields. */
  datatype FormData =
    | MaterialEntries(name: string, plannedQuantity: int, actualQuantity: int)
    | MilestoneEntries(title: string, description: string, date: string, progress: int, status: MilestoneStatus)
    | NoEntries

  // ---------------------------------------------------------------- material filter

  function FilterMaterials(ms: seq<Material>, f: MaterialFilter): (r: seq<Material>)
    ensures f.AllMaterials? ==> r == ms
    ensures f.Only? ==> IsSubsequence(r, ms)
    ensures f.Only? ==> forall i :: 0 <= i < |r| ==> r[i] in ms && r[i].status == Some(f.status)
    ensures f.Only? ==> forall i :: 0 <= i < |ms| && ms[i].status == Some(f.status) ==> ms[i] in r
    ensures f.Only? ==> forall m :: multiset(r)[m] == if m.status == Some(f.status) then multiset(ms)[m] else 0
  {
    match f
    case AllMaterials => ms
    case Only(s) =>
      FilterMembers(ms, (m: Material) => m.status == Some(s));
      Filter(ms, (m: Material) => m.status == Some(s))
  }

  // ---------------------------------------------------------------- material statistics

  predicate IsSupplied(m: Material) { m.status == Some(InStock) || m.status == Some(Consumed) }
  predicate IsOnOrder(m: Material) { m.status == Some(OnOrder) }
  predicate IsShort(m: Material) { m.status == Some(OutOfStock) }
  predicate HasNoStatus(m: Material) { m.status.None? }

  datatype MaterialStats = MaterialStats(total: nat, completed: nat, pending: nat, alert: nat)

  /** `materialStats`: every material falls in exactly one of the counts or has no status. */
  function Stats(ms: seq<Material>): (st: MaterialStats)
    ensures st.total == |ms|
    ensures st.completed == |Filter(ms, IsSupplied)| && st.pending == |Filter(ms, IsOnOrder)| && st.alert == |Filter(ms, IsShort)|
    ensures st.completed + st.pending + st.alert + |Filter(ms, HasNoStatus)| == st.total
    ensures (forall i :: 0 <= i < |ms| ==> ms[i].status.Some?) ==> st.completed + st.pending + st.alert == st.total
  {
    StatsPartition(ms);
    AllHaveStatus(ms);
    MaterialStats(|ms|, |Filter(ms, IsSupplied)|, |Filter(ms, IsOnOrder)|, |Filter(ms, IsShort)|)
  }

  lemma AllHaveStatus(ms: seq<Material>)
    ensures (forall i :: 0 <= i < |ms| ==> ms[i].status.Some?) ==> Filter(ms, HasNoStatus) == []
  {
    if forall i :: 0 <= i < |ms| ==> ms[i].status.Some? {
      FilterNone(ms, HasNoStatus);
    }
  }

  lemma AllSupplied(ms: seq<Material>)
    ensures (forall i :: 0 <= i < |ms| ==> IsSupplied(ms[i])) ==> Filter(ms, IsSupplied) == ms
  {
    if forall i :: 0 <= i < |ms| ==> IsSupplied(ms[i]) {
      FilterAll(ms, IsSupplied);
    }
  }

  lemma {:induction false} StatsPartition(ms: seq<Material>)
    ensures |Filter(ms, IsSupplied)| + |Filter(ms, IsOnOrder)| + |Filter(ms, IsShort)| + |Filter(ms, HasNoStatus)| == |ms|
  {
    if ms != [] {
      StatsPartition(ms[1..]);
      FilterCount(ms, IsSupplied);
      FilterCount(ms, IsOnOrder);
      FilterCount(ms, IsShort);
      FilterCount(ms, HasNoStatus);
      var m := ms[0];
      assert m.status.None? || m.status.value.InStock? || m.status.value.OnOrder? || m.status.value.OutOfStock? || m.status.value.Consumed?;
      assert (if IsSupplied(m) then 1 else 0) + (if IsOnOrder(m) then 1 else 0) + (if IsShort(m) then 1 else 0) + (if HasNoStatus(m) then 1 else 0) == 1;
    }
  }

  /** The "Vật tư đủ hàng" figure: round(100 * completed / total), or 0 for no materials (NaN || 0). */
  function StockedPercent(ms: seq<Material>): (r: int)
    ensures |ms| == 0 ==> r == 0
    ensures |ms| > 0 ==> RoundsTo(100 * Stats(ms).completed, |ms|, r)
    ensures 0 <= r <= 100
    ensures |ms| > 0 && (forall i :: 0 <= i < |ms| ==> IsSupplied(ms[i])) ==> r == 100
  {
    if |ms| == 0 then 0
    else
      AllSupplied(ms);
      RoundPercent(Stats(ms).completed, |ms|)
  }

  // ---------------------------------------------------------------- supply bar

  /** A JavaScript number the supply bar can show: a finite integer percentage or -Infinity. */
  datatype SupplyBar = SupplyPercent(value: int) | NegativeInfinity

  /**
   * `Math.min(100, Math.round(actual / planned * 100)) || 0`. For planned = 0 the quotient is
   * Infinity (clipped to 100), NaN (turned into 0 by `|| 0`) or -Infinity.
   */
  function SupplyRatio(m: Material): (r: SupplyBar)
    ensures m.plannedQuantity > 0 && m.actualQuantity >= 0 ==> r.SupplyPercent? && 0 <= r.value <= 100
    ensures m.plannedQuantity != 0 ==> r.SupplyPercent? && r.value <= 100
    ensures m.plannedQuantity != 0 && r.value < 100 ==> RoundsTo(100 * m.actualQuantity, m.plannedQuantity, r.value)
    ensures m.plannedQuantity != 0 ==> (r.value == 100 <==> RoundsAtLeast(100 * m.actualQuantity, m.plannedQuantity, 100))
    ensures m.plannedQuantity == 0 && m.actualQuantity > 0 ==> r == SupplyPercent(100)
    ensures m.plannedQuantity == 0 && m.actualQuantity == 0 ==> r == SupplyPercent(0)
    ensures r.NegativeInfinity? <==> m.plannedQuantity == 0 && m.actualQuantity < 0
  {
    var a, p := m.actualQuantity, m.plannedQuantity;
    if p > 0 then
      RoundDivAtLeast(100 * a, p, 100);
      RoundPercentFacts(a, p);
      SupplyPercent(Min(100, RoundDiv(100 * a, p)))
    else if p < 0 then
      RoundDivAtLeast(-100 * a, -p, 100);
      SupplyPercent(Min(100, RoundDiv(-100 * a, -p)))
    else if a > 0 then SupplyPercent(100)
    else if a == 0 then SupplyPercent(0)
    else NegativeInfinity
  }

  lemma RoundPercentFacts(a: int, p: int)
    requires p > 0
    ensures a >= 0 ==> 0 <= RoundDiv(100 * a, p)
  {
    var r := RoundDiv(100 * a, p);
    if a >= 0 && r < 0 { MulMono(p, 2 * r + 1, -1); }
  }

  // ---------------------------------------------------------------- milestone pipeline

  predicate IsStarted(m: Milestone) { m.status != Pending }

  /** A JavaScript number used as a CSS width: a finite percentage or NaN. */
  datatype PipelineTrack = TrackPercent(value: real) | NotANumber

  /** `(milestones.filter(m => m.status !== 'pending').length / milestones.length) * 100`, unguarded. */
  function PipelineWidth(ms: seq<Milestone>): (w: PipelineTrack)
    ensures w.NotANumber? <==> |ms| == 0
    ensures |ms| > 0 ==> 0.0 <= w.value <= 100.0
    ensures |ms| > 0 ==> w.value * (|ms| as real) == 100.0 * (|Filter(ms, IsStarted)| as real)
  {
    if |ms| == 0 then NotANumber
    else
      var started, n := |Filter(ms, IsStarted)| as real, |ms| as real;
      RatioFacts(started, n);
      TrackPercent(started / n * 100.0)
  }

  lemma RatioFacts(a: real, n: real)
    requires 0.0 <= a <= n && n > 0.0
    ensures 0.0 <= a / n * 100.0 <= 100.0
    ensures a / n * 100.0 * n == 100.0 * a
  {
    var q := a / n;
    assert q * n == a;
  }

  // ---------------------------------------------------------------- quantity edits

  /** `typeof value === 'string' ? parseInt(value) || 0 : value` */
  function ParseQuantity(value: QuantityInput): (n: int)
    ensures value.Number? ==> n == value.n
    ensures value.Text? ==> n == value.parsed.GetOr(0)
  {
    match value
    case Number(k) => k
    case Text(parsed) => parsed.GetOr(0)
  }

  /**
   * One material after an inline quantity edit: the field becomes max(0, v), and a material
   * on order whose actual quantity now reaches the planned one is promoted to in stock.
   */
  function SetQuantity(m: Material, field: QuantityField, v: int): (u: Material)
    ensures u.id == m.id && u.name == m.name && u.unit == m.unit
    ensures field == Planned ==> u.plannedQuantity == (if v < 0 then 0 else v) && u.actualQuantity == m.actualQuantity
    ensures field == Actual ==> u.actualQuantity == (if v < 0 then 0 else v) && u.plannedQuantity == m.plannedQuantity
    ensures u.status != m.status ==> m.status == Some(OnOrder) && u.status == Some(InStock) && u.actualQuantity >= u.plannedQuantity
    ensures m.status == Some(OnOrder) && u.actualQuantity >= u.plannedQuantity ==> u.status == Some(InStock)
  {
    var clamped := if v < 0 then 0 else v;
    var updated := if field == Planned then m.(plannedQuantity := clamped) else m.(actualQuantity := clamped);
    if updated.actualQuantity >= updated.plannedQuantity && updated.status == Some(OnOrder)
    then updated.(status := Some(InStock))
    else updated
  }

  /** The material list after `updateMaterialQuantity(id, field, value)`. */
  function WithQuantity(ms: seq<Material>, id: Id, field: QuantityField, value: QuantityInput): (r: seq<Material>)
    ensures |r| == |ms|
    ensures forall i :: 0 <= i < |ms| ==> r[i] == (if ms[i].id == id then SetQuantity(ms[i], field, ParseQuantity(value)) else ms[i])
  {
    MapById(ms, MaterialKey, id, (m: Material) => SetQuantity(m, field, ParseQuantity(value)))
  }

  /**
   * A quantity edit only ever moves materials from "on order" to "in stock": the total and the
   * shortage count stay, completed + pending stays, and completed never drops.
   */
  lemma {:induction false} StatsUnderQuantityEdit(ms: seq<Material>, id: Id, field: QuantityField, value: QuantityInput)
    ensures var before, after := Stats(ms), Stats(WithQuantity(ms, id, field, value));
      after.total == before.total && after.alert == before.alert &&
      after.completed + after.pending == before.completed + before.pending &&
      after.completed >= before.completed
  {
    PromotionCounts(ms, WithQuantity(ms, id, field, value));
  }

  lemma {:induction false} PromotionCounts(ms: seq<Material>, rs: seq<Material>)
    requires |rs| == |ms|
    requires forall i :: 0 <= i < |ms| ==> rs[i].status == ms[i].status || (ms[i].status == Some(OnOrder) && rs[i].status == Some(InStock))
    ensures |Filter(rs, IsShort)| == |Filter(ms, IsShort)|
    ensures |Filter(rs, IsSupplied)| + |Filter(rs, IsOnOrder)| == |Filter(ms, IsSupplied)| + |Filter(ms, IsOnOrder)|
    ensures |Filter(rs, IsSupplied)| >= |Filter(ms, IsSupplied)|
  {
    if ms != [] {
      assert forall i :: 0 <= i < |ms| - 1 ==> ms[1..][i] == ms[i + 1] && rs[1..][i] == rs[i + 1];
      PromotionCounts(ms[1..], rs[1..]);
    }
  }

  // ---------------------------------------------------------------- modal form

  /** A form edit of a material: name and both quantities as entered, no clamp, no promotion. */
  function EditedMaterial(m: Material, data: FormData): (u: Material)
    requires data.MaterialEntries?
    ensures u.id == m.id && u.unit == m.unit && u.status == m.status
    ensures u.name == data.name && u.plannedQuantity == data.plannedQuantity && u.actualQuantity == data.actualQuantity
  {
    m.(name := data.name, plannedQuantity := data.plannedQuantity, actualQuantity := data.actualQuantity)
  }

  /** A material added through the form: no unit and no status, since the form submits neither. */
  function NewMaterial(id: Id, data: FormData): (m: Material)
    requires data.MaterialEntries?
    ensures m.id == id && m.unit.None? && m.status.None?
    ensures m.name == data.name && m.plannedQuantity == data.plannedQuantity && m.actualQuantity == data.actualQuantity
  {
    Material(id, data.name, None, data.plannedQuantity, data.actualQuantity, None)
  }

  /** A form edit of a milestone: every submitted field, including the chosen status. */
  function EditedMilestone(m: Milestone, data: FormData): (u: Milestone)
    requires data.MilestoneEntries?
    ensures u.id == m.id && u.status == data.status && u.progress == data.progress
    ensures u.title == data.title && u.date == data.date && u.description == Some(data.description)
  {
    m.(title := data.title, description := Some(data.description), date := data.date, progress := data.progress, status := data.status)
  }

  /** A milestone added through the form: always pending, whatever status the form sent. */
  function NewMilestone(id: Id, data: FormData): (m: Milestone)
    requires data.MilestoneEntries?
    ensures m.id == id && m.status == Pending && m.progress == data.progress
    ensures m.title == data.title && m.date == data.date && m.description == Some(data.description)
  {
    Milestone(id, data.title, data.date, data.progress, Pending, Some(data.description))
  }

  /** The form rendered for a modal submits the entries of that modal. */
  predicate FormFits(modal: ModalKind, data: FormData)
  {
    match modal
    case MaterialModal => data.MaterialEntries?
    case MilestoneModal => data.MilestoneEntries?
    case _ => data.NoEntries?
  }

  // ---------------------------------------------------------------- seeded state

  const SeedMilestones: seq<Milestone> := [
    Milestone("m1", "Khảo sát & Lập thiết kế", "2023-10-15", 100, Done, Some("Hoàn thành hồ sơ kỹ thuật và trình duyệt PCCC.")),
    Milestone("m2", "Thi công trục ống đứng", "2023-12-20", 100, Done, Some("Lắp đặt hệ thống ống thép chữa cháy DN150.")),
    Milestone("m3", "Lắp đặt thiết bị báo cháy", "2024-05-15", 45, Active, Some("Đang triển khai kéo cáp tín hiệu và gắn đầu báo khói.")),
    Milestone("m4", "Thử áp & Nghiệm thu nội bộ", "2024-06-10", 0, Pending, Some("Kiểm tra độ kín khít và áp lực vận hành hệ thống.")),
    Milestone("m5", "Bàn giao & Nghiệm thu Nhà nước", "2024-07-20", 0, Pending, Some("Cảnh sát PCCC kiểm tra và cấp chứng nhận."))
  ]

  const SeedTransactions: seq<Transaction> := [
    Transaction("t1", "Thanh toán đợt 1: Tạm ứng vật tư", "800,000,000", "2023-10-20", Expense),
    Transaction("t2", "Giải ngân đợt 2: Hoàn thành phần thô", "1,200,000,000", "2023-12-15", Income)
  ]

  const SeedDocuments: seq<DocumentFile> := [
    DocumentFile("d1", "Giấy phép phê duyệt thiết kế", "PDF", "Approved", "2.4MB"),
    DocumentFile("d2", "Bản vẽ thi công tầng hầm", "DWG", "Approved", "15.8MB")
  ]

  const SeedMaterials: seq<Material> := [
    Material("mt1", "Đầu phun Sprinkler 68°C", Some("Cái"), 500, 320, Some(OnOrder)),
    Material("mt2", "Ống thép PCCC DN100", Some("Mét"), 1200, 1200, Some(InStock)),
    Material("mt3", "Đầu báo khói địa chỉ", Some("Cái"), 150, 50, Some(OutOfStock)),
    Material("mt4", "Tủ trung tâm báo cháy 4 Loop", Some("Bộ"), 2, 2, Some(Consumed))
  ]

  /** The seeded schedule [completed, completed, active, pending, pending] fills 60% of the track. */
  lemma SeedPipelineIs60()
    ensures PipelineWidth(SeedMilestones) == TrackPercent(60.0)
  {
    var s := SeedMilestones;
    assert Filter(s[4..], IsStarted) == [];
    assert Filter(s[3..], IsStarted) == [];
    assert Filter(s[2..], IsStarted) == [s[2]];
    assert Filter(s[1..], IsStarted) == [s[1], s[2]];
    assert |Filter(s, IsStarted)| == 3;
  }

  /** Filtering the seed by "Hết hàng" yields exactly the smoke detectors; 'Tất cả' yields the seed. */
  lemma SeedShortageFilter()
    ensures FilterMaterials(SeedMaterials, Only(OutOfStock)) == [SeedMaterials[2]]
    ensures FilterMaterials(SeedMaterials, AllMaterials) == SeedMaterials
  {
    var s := SeedMaterials;
    var p := (m: Material) => m.status == Some(OutOfStock);
    assert Filter(s[3..], p) == [];
    assert Filter(s[2..], p) == [s[2]];
    assert Filter(s[1..], p) == [s[2]];
  }

  // ---------------------------------------------------------------- the page state

  class ProjectDetailState {
    var materials: seq<Material>
    var milestones: seq<Milestone>
    var transactions: seq<Transaction>
    var documents: seq<DocumentFile>
    var materialFilter: MaterialFilter
    var modal: Option<ModalKind>
    var editingId: Option<Id>  // the id of `editingItem`, when one is set

    constructor ()
      ensures materials == SeedMaterials && milestones == SeedMilestones
      ensures transactions == SeedTransactions && documents == SeedDocuments
      ensures materialFilter == AllMaterials && modal == None && editingId == None
    {
      materials := SeedMaterials;
      milestones := SeedMilestones;
      transactions := SeedTransactions;
      documents := SeedDocuments;
      materialFilter := AllMaterials;
      modal := None;
      editingId := None;
    }

    function FilteredMaterials(): seq<Material>
      reads this
    {
      FilterMaterials(materials, materialFilter)
    }

    method SetMaterialFilter(f: MaterialFilter)
      modifies this
      ensures materialFilter == f
      ensures materials == old(materials) && milestones == old(milestones)
      ensures transactions == old(transactions) && documents == old(documents)
      ensures modal == old(modal) && editingId == old(editingId)
    {
      materialFilter := f;
    }

    /** `updateMaterialQuantity`: only the materials with this id change, and only as SetQuantity says. */
    method UpdateMaterialQuantity(id: Id, field: QuantityField, value: QuantityInput)
      modifies this
      ensures |materials| == |old(materials)|
      ensures forall i :: 0 <= i < |materials| ==>
        materials[i] == (if old(materials)[i].id == id then SetQuantity(old(materials)[i], field, ParseQuantity(value)) else old(materials)[i])
      ensures milestones == old(milestones) && transactions == old(transactions) && documents == old(documents)
      ensures materialFilter == old(materialFilter) && modal == old(modal) && editingId == old(editingId)
    {
      materials := WithQuantity(materials, id, field, value);
    }

    /** `deleteItem(type, id)` after the confirmation dialog answered `confirmed`. */
    method DeleteItem(section: Section, id: Id, confirmed: bool)
      modifies this
      ensures milestones == if confirmed && section == Schedule then Without(old(milestones), MilestoneKey, id) else old(milestones)
      ensures transactions == if confirmed && section == Finance then Without(old(transactions), TransactionKey, id) else old(transactions)
      ensures documents == if confirmed && section == Documents then Without(old(documents), DocumentKey, id) else old(documents)
      ensures materials == if confirmed && section == Materials then Without(old(materials), MaterialKey, id) else old(materials)
      ensures materialFilter == old(materialFilter) && modal == old(modal) && editingId == old(editingId)
    {
      if !confirmed {
        return;
      }
      if section == Schedule {
        milestones := Without(milestones, MilestoneKey, id);
      }
      if section == Finance {
        transactions := Without(transactions, TransactionKey, id);
      }
      if section == Documents {
        documents := Without(documents, DocumentKey, id);
      }
      if section == Materials {
        materials := Without(materials, MaterialKey, id);
      }
    }

    /** Opening a modal, optionally on an existing item (`setEditingItem(m); setModalType(...)`). */
    method OpenModal(kind: ModalKind, editing: Option<Id>)
      modifies this
      ensures modal == Some(kind) && editingId == editing
      ensures materials == old(materials) && milestones == old(milestones)
      ensures transactions == old(transactions) && documents == old(documents)
      ensures materialFilter == old(materialFilter)
    {
      modal := Some(kind);
      editingId := editing;
    }

    /** The modal's close button: no modal and no edited item; the lists stay as they were. */
    method CloseModal()
      modifies this
      ensures modal == None && editingId == None
      ensures materials == old(materials) && milestones == old(milestones)
      ensures transactions == old(transactions) && documents == old(documents)
      ensures materialFilter == old(materialFilter)
    {
      modal := None;
      editingId := None;
    }

    /**
     * The modal form's submit: a material edit or prepend, or a milestone edit or append,
     * depending on the open modal and the item being edited; the modal then closes.
     */
    method Submit(data: FormData, freshId: Id)
      requires modal.Some? && FormFits(modal.value, data)
      requires forall i :: 0 <= i < |materials| ==> materials[i].id != freshId
      requires forall i :: 0 <= i < |milestones| ==> milestones[i].id != freshId
      modifies this
      ensures modal == None && editingId == None
      ensures transactions == old(transactions) && documents == old(documents) && materialFilter == old(materialFilter)
      ensures old(modal) == Some(MaterialModal) && old(editingId).Some? ==>
        |materials| == |old(materials)| &&
        forall i :: 0 <= i < |materials| ==>
          materials[i] == (if old(materials)[i].id == old(editingId).value then EditedMaterial(old(materials)[i], data) else old(materials)[i])
      ensures old(modal) == Some(MaterialModal) && old(editingId).None? ==> materials == [NewMaterial(freshId, data)] + old(materials)
      ensures old(modal) != Some(MaterialModal) ==> materials == old(materials)
      ensures old(modal) == Some(MilestoneModal) && old(editingId).Some? ==>
        |milestones| == |old(milestones)| &&
        forall i :: 0 <= i < |milestones| ==>
          milestones[i] == (if old(milestones)[i].id == old(editingId).value then EditedMilestone(old(milestones)[i], data) else old(milestones)[i])
      ensures old(modal) == Some(MilestoneModal) && old(editingId).None? ==> milestones == old(milestones) + [NewMilestone(freshId, data)]
      ensures old(modal) != Some(MilestoneModal) ==> milestones == old(milestones)
    {
      if modal == Some(MaterialModal) {
        match editingId
        case Some(e) =>
          materials := MapById(materials, MaterialKey, e, (m: Material) => EditedMaterial(m, data));
        case None =>
          materials := [NewMaterial(freshId, data)] + materials;
      } else if modal == Some(MilestoneModal) {
        match editingId
        case Some(e) =>
          milestones := MapById(milestones, MilestoneKey, e, (m: Milestone) => EditedMilestone(m, data));
        case None =>
          milestones := milestones + [NewMilestone(freshId, data)];
      }
      modal := None;
      editingId := None;
    }
  }
}
