/**
 * The quality-control checklist view: filtering checklists by project and completion,
 * choosing the active checklist, its progress figure, and the item and checklist handlers.
 */
module Checklists {
  import opened Wrappers
  import opened Types
  import opened Seqs
  import opened JsMath
  import MockData

  /** The status filter buttons: 'all' | 'pending' | 'completed'. */
  datatype StatusFilter = AnyStatus | PendingOnly | CompletedOnly

  /** The project selector's value standing for every project. */
  const AllProjects: string := "all"

  predicate ItemDone(i: ChecklistItem) { i.isCompleted }

  /** `cl.items.every(i => i.isCompleted)`; an empty checklist counts as completed. */
  predicate IsDone(cl: Checklist)
  {
    forall i :: 0 <= i < |cl.items| ==> cl.items[i].isCompleted
  }

  /** The `isCompleted` flag of each item, position by position. */
  function Completions(items: seq<ChecklistItem>): (r: seq<bool>)
    ensures |r| == |items| && forall i :: 0 <= i < |items| ==> r[i] == items[i].isCompleted
  {
    seq(|items|, i requires 0 <= i < |items| => items[i].isCompleted)
  }

  /** `items.filter(i => i.isCompleted).length`: how many of the flags are set. */
  function DoneCount(cl: Checklist): (n: nat)
    ensures n == multiset(Completions(cl.items))[true]
    ensures n <= |cl.items|
  {
    DoneIsSetFlags(cl.items);
    |Filter(cl.items, ItemDone)|
  }

  lemma {:induction false} DoneIsSetFlags(items: seq<ChecklistItem>)
    ensures |Filter(items, ItemDone)| == multiset(Completions(items))[true]
  {
    if items != [] {
      DoneIsSetFlags(items[1..]);
      FilterCount(items, ItemDone);
      assert Completions(items) == [items[0].isCompleted] + Completions(items[1..]);
    }
  }

  /** A checklist is completed exactly when all of its items are counted as done. */
  lemma DoneIffAllCounted(cl: Checklist)
    ensures IsDone(cl) <==> DoneCount(cl) == |cl.items|
  {
    FilterFull(cl.items, ItemDone);
  }

  /** The filter test of `filteredChecklists`. */
  predicate Matches(cl: Checklist, selectedProjectId: string, status: StatusFilter)
  {
    (selectedProjectId == AllProjects || cl.projectId == selectedProjectId) &&
    match status
    case AnyStatus => true
    case CompletedOnly => IsDone(cl)
    case PendingOnly => !IsDone(cl)
  }

  function FilteredChecklists(cls: seq<Checklist>, selectedProjectId: string, status: StatusFilter): (r: seq<Checklist>)
    ensures IsSubsequence(r, cls)
    ensures forall i :: 0 <= i < |r| ==> r[i] in cls && Matches(r[i], selectedProjectId, status)
    ensures forall i :: 0 <= i < |cls| && Matches(cls[i], selectedProjectId, status) ==> cls[i] in r
    ensures forall cl :: multiset(r)[cl] == if Matches(cl, selectedProjectId, status) then multiset(cls)[cl] else 0
    ensures selectedProjectId == AllProjects && status == AnyStatus ==> r == cls
  {
    var p := (cl: Checklist) => Matches(cl, selectedProjectId, status);
    FilterMembers(cls, p);
    if selectedProjectId == AllProjects && status == AnyStatus then
      FilterAll(cls, p);
      Filter(cls, p)
    else
      Filter(cls, p)
  }

  /** A pending filter and a completed filter split the checklists of a project between them. */
  lemma PendingCompletedPartition(cls: seq<Checklist>, selectedProjectId: string)
    ensures |FilteredChecklists(cls, selectedProjectId, PendingOnly)| + |FilteredChecklists(cls, selectedProjectId, CompletedOnly)|
         == |Filter(cls, (cl: Checklist) => Matches(cl, selectedProjectId, AnyStatus))|
  {
    PartitionCount(cls, selectedProjectId);
  }

  lemma {:induction false} PartitionCount(cls: seq<Checklist>, sel: string)
    ensures |Filter(cls, (cl: Checklist) => Matches(cl, sel, PendingOnly))| + |Filter(cls, (cl: Checklist) => Matches(cl, sel, CompletedOnly))|
         == |Filter(cls, (cl: Checklist) => Matches(cl, sel, AnyStatus))|
  {
    if cls != [] {
      PartitionCount(cls[1..], sel);
      FilterCount(cls, (cl: Checklist) => Matches(cl, sel, PendingOnly));
      FilterCount(cls, (cl: Checklist) => Matches(cl, sel, CompletedOnly));
      FilterCount(cls, (cl: Checklist) => Matches(cl, sel, AnyStatus));
    }
  }

  function HasId(id: Id): Checklist -> bool
  {
    (cl: Checklist) => cl.id == id
  }

  /** `checklists.find(cl => cl.id === activeId) || filtered[0] || checklists[0]`, undefined when all fail. */
  function ActiveChecklist(cls: seq<Checklist>, activeId: Id, filtered: seq<Checklist>): (r: Option<Checklist>)
    ensures (exists k :: 0 <= k < |cls| && cls[k].id == activeId) ==>
      exists k :: 0 <= k < |cls| && r == Some(cls[k]) && cls[k].id == activeId && forall j :: 0 <= j < k ==> cls[j].id != activeId
    ensures (forall k :: 0 <= k < |cls| ==> cls[k].id != activeId) ==>
      r == (if filtered != [] then Some(filtered[0]) else if cls != [] then Some(cls[0]) else None)
    ensures r.None? <==> cls == [] && filtered == []
  {
    match Find(cls, HasId(activeId))
    case Some(cl) => Some(cl)
    case None =>
      if filtered != [] then Some(filtered[0])
      else if cls != [] then Some(cls[0])
      else None
  }

  /** The progress bar: round(100 * done / total), 0 with no checklist or no items. */
  function Progress(active: Option<Checklist>): (r: int)
    ensures 0 <= r <= 100
    ensures active.None? || active.value.items == [] ==> r == 0
    ensures active.Some? && active.value.items != [] ==> RoundsTo(100 * DoneCount(active.value), |active.value.items|, r)
    ensures active.Some? && active.value.items != [] && IsDone(active.value) ==> r == 100
  {
    match active
    case None => 0
    case Some(cl) =>
      if cl.items == [] then 0
      else
        DoneIffAllCounted(cl);
        RoundPercent(DoneCount(cl), |cl.items|)
  }

  /** Below 200 items, a full bar means every item is done. */
  lemma FullBarMeansDone(cl: Checklist)
    requires |cl.items| < 200
    requires Progress(Some(cl)) == 100
    ensures IsDone(cl)
  {
    var t, c := |cl.items|, DoneCount(cl);
    assert t * 199 <= 200 * c;
    if c < t {
      MulMono(200, c, t - 1);
    }
    DoneIffAllCounted(cl);
  }

  /** From 200 items on, the rounding shows 100% while one item is still open. */
  lemma FullBarWithOpenItem(cl: Checklist)
    requires |cl.items| >= 200 && DoneCount(cl) == |cl.items| - 1
    ensures Progress(Some(cl)) == 100 && !IsDone(cl)
  {
    var t := |cl.items|;
    MulMono(t, 199, 2 * 100 - 1);
    RoundDivUnique(100 * (t - 1), t, 100);
    DoneIffAllCounted(cl);
  }

  /** An empty checklist passes the completed filter yet shows 0%. */
  lemma EmptyChecklistDoneAtZero(cl: Checklist)
    requires cl.items == []
    ensures IsDone(cl) && Progress(Some(cl)) == 0
  {
  }

  function FlipItem(i: ChecklistItem): ChecklistItem { i.(isCompleted := !i.isCompleted) }

  function ToggleIn(cl: Checklist, itemId: Id): Checklist
  {
    cl.(items := MapById(cl.items, ItemKey, itemId, FlipItem))
  }

  /** `toggleItemCompletion(checklistId, itemId)` on the list of checklists. */
  function Toggled(cls: seq<Checklist>, checklistId: Id, itemId: Id): (r: seq<Checklist>)
    ensures |r| == |cls|
    ensures forall k :: 0 <= k < |cls| ==> r[k].id == cls[k].id && r[k].projectId == cls[k].projectId && r[k].title == cls[k].title
    ensures forall k :: 0 <= k < |cls| ==> |r[k].items| == |cls[k].items|
    ensures forall k, j :: 0 <= k < |cls| && 0 <= j < |cls[k].items| ==>
      r[k].items[j] == (if cls[k].id == checklistId && cls[k].items[j].id == itemId then FlipItem(cls[k].items[j]) else cls[k].items[j])
  {
    MapById(cls, ChecklistKey, checklistId, (cl: Checklist) => ToggleIn(cl, itemId))
  }

  /** Toggling the same item twice restores every checklist. */
  lemma ToggleTwice(cls: seq<Checklist>, checklistId: Id, itemId: Id)
    ensures Toggled(Toggled(cls, checklistId, itemId), checklistId, itemId) == cls
  {
    var r := Toggled(Toggled(cls, checklistId, itemId), checklistId, itemId);
    forall k | 0 <= k < |cls| ensures r[k] == cls[k] {
      assert r[k].items == cls[k].items;
    }
  }

  function ItemRemoved(cl: Checklist, itemId: Id): Checklist
  {
    cl.(items := Without(cl.items, ItemKey, itemId))
  }

  /** `handleDeleteItem(checklistId, itemId)` once confirmed. */
  function WithoutItem(cls: seq<Checklist>, checklistId: Id, itemId: Id): (r: seq<Checklist>)
    ensures |r| == |cls|
    ensures forall k :: 0 <= k < |cls| ==> r[k].id == cls[k].id && r[k].projectId == cls[k].projectId && r[k].title == cls[k].title
    ensures forall k :: 0 <= k < |cls| && cls[k].id != checklistId ==> r[k] == cls[k]
    ensures forall k :: 0 <= k < |cls| && cls[k].id == checklistId ==>
      IsSubsequence(r[k].items, cls[k].items) && forall j :: 0 <= j < |r[k].items| ==> r[k].items[j].id != itemId
    ensures forall k, j :: 0 <= k < |cls| && cls[k].id == checklistId && 0 <= j < |cls[k].items| && cls[k].items[j].id != itemId ==>
      cls[k].items[j] in r[k].items
    ensures forall k, x :: 0 <= k < |cls| && cls[k].id == checklistId ==>
      multiset(r[k].items)[x] == if x.id != itemId then multiset(cls[k].items)[x] else 0
  {
    MapById(cls, ChecklistKey, checklistId, (cl: Checklist) => ItemRemoved(cl, itemId))
  }

  class ChecklistsState {
    var checklists: seq<Checklist>
    var selectedProjectId: string
    var activeChecklistId: Id
    var filterStatus: StatusFilter
    var modalOpen: bool
    var editing: Option<Checklist>

    /** The initial state: the seed checklists, every project, the first checklist active. */
    constructor ()
      ensures checklists == MockData.MockChecklists && selectedProjectId == AllProjects
      ensures activeChecklistId == "c1" && filterStatus == AnyStatus && !modalOpen && editing == None
    {
      checklists := MockData.MockChecklists;
      selectedProjectId := AllProjects;
      activeChecklistId := MockData.MockChecklists[0].id;
      filterStatus := AnyStatus;
      modalOpen := false;
      editing := None;
    }

    function Filtered(): seq<Checklist>
      reads this
    {
      FilteredChecklists(checklists, selectedProjectId, filterStatus)
    }

    function Active(): Option<Checklist>
      reads this
    {
      ActiveChecklist(checklists, activeChecklistId, Filtered())
    }

    method SelectProject(id: string)
      modifies this
      ensures selectedProjectId == id
      ensures checklists == old(checklists) && activeChecklistId == old(activeChecklistId)
      ensures filterStatus == old(filterStatus) && modalOpen == old(modalOpen) && editing == old(editing)
    {
      selectedProjectId := id;
    }

    method SetFilterStatus(status: StatusFilter)
      modifies this
      ensures filterStatus == status
      ensures checklists == old(checklists) && selectedProjectId == old(selectedProjectId)
      ensures activeChecklistId == old(activeChecklistId) && modalOpen == old(modalOpen) && editing == old(editing)
    {
      filterStatus := status;
    }

    method SelectChecklist(id: Id)
      modifies this
      ensures activeChecklistId == id
      ensures checklists == old(checklists) && selectedProjectId == old(selectedProjectId)
      ensures filterStatus == old(filterStatus) && modalOpen == old(modalOpen) && editing == old(editing)
    {
      activeChecklistId := id;
    }

    /**
     * `handleDeleteChecklist`: once confirmed the checklist goes, and if it was the active one
     * and others remain, the first remaining one becomes active.
     */
    method DeleteChecklist(id: Id, confirmed: bool)
      modifies this
      ensures checklists == if confirmed then Without(old(checklists), ChecklistKey, id) else old(checklists)
      ensures activeChecklistId ==
        if confirmed && old(activeChecklistId) == id && checklists != [] then checklists[0].id else old(activeChecklistId)
      ensures selectedProjectId == old(selectedProjectId) && filterStatus == old(filterStatus)
      ensures modalOpen == old(modalOpen) && editing == old(editing)
    {
      if confirmed {
        var remaining := Without(checklists, ChecklistKey, id);
        checklists := remaining;
        if activeChecklistId == id && |remaining| > 0 {
          activeChecklistId := remaining[0].id;
        }
      }
    }

    method ToggleItem(checklistId: Id, itemId: Id)
      modifies this
      ensures checklists == Toggled(old(checklists), checklistId, itemId)
      ensures selectedProjectId == old(selectedProjectId) && activeChecklistId == old(activeChecklistId)
      ensures filterStatus == old(filterStatus) && modalOpen == old(modalOpen) && editing == old(editing)
    {
      checklists := Toggled(checklists, checklistId, itemId);
    }

    method DeleteItem(checklistId: Id, itemId: Id, confirmed: bool)
      modifies this
      ensures checklists == if confirmed then WithoutItem(old(checklists), checklistId, itemId) else old(checklists)
      ensures selectedProjectId == old(selectedProjectId) && activeChecklistId == old(activeChecklistId)
      ensures filterStatus == old(filterStatus) && modalOpen == old(modalOpen) && editing == old(editing)
    {
      if confirmed {
        checklists := WithoutItem(checklists, checklistId, itemId);
      }
    }

    /** The create button (no checklist) and the edit buttons (that checklist) open the form. */
    method OpenForm(target: Option<Checklist>)
      modifies this
      ensures modalOpen && editing == target
      ensures checklists == old(checklists) && selectedProjectId == old(selectedProjectId)
      ensures activeChecklistId == old(activeChecklistId) && filterStatus == old(filterStatus)
    {
      editing := target;
      modalOpen := true;
    }

    method CloseForm()
      modifies this
      ensures !modalOpen
      ensures checklists == old(checklists) && selectedProjectId == old(selectedProjectId)
      ensures activeChecklistId == old(activeChecklistId) && filterStatus == old(filterStatus) && editing == old(editing)
    {
      modalOpen := false;
    }

    /**
     * The form's submit: retitle and re-assign the checklist being edited, or append an empty
     * checklist and make it active. The form closes; the edited checklist stays remembered.
     */
    method SubmitForm(title: string, projectId: Id, freshId: Id)
      modifies this
      ensures !modalOpen && editing == old(editing)
      ensures selectedProjectId == old(selectedProjectId) && filterStatus == old(filterStatus)
      ensures old(editing).Some? ==>
        checklists == MapById(old(checklists), ChecklistKey, old(editing).value.id, (cl: Checklist) => cl.(title := title, projectId := projectId)) &&
        activeChecklistId == old(activeChecklistId)
      ensures old(editing).None? ==>
        checklists == old(checklists) + [Checklist(freshId, projectId, title, [])] && activeChecklistId == freshId
    {
      if editing.Some? {
        checklists := MapById(checklists, ChecklistKey, editing.value.id, (cl: Checklist) => cl.(title := title, projectId := projectId));
      } else {
        checklists := checklists + [Checklist(freshId, projectId, title, [])];
        activeChecklistId := freshId;
      }
      modalOpen := false;
    }
  }

  /** A checklist created with an unused id is the one the view then shows, at 0%. */
  lemma CreatedChecklistIsActive(cls: seq<Checklist>, filtered: seq<Checklist>, freshId: Id, projectId: Id, title: string)
    requires forall k :: 0 <= k < |cls| ==> cls[k].id != freshId
    ensures var created := Checklist(freshId, projectId, title, []);
      ActiveChecklist(cls + [created], freshId, filtered) == Some(created) &&
      Progress(Some(created)) == 0
  {
    var created := Checklist(freshId, projectId, title, []);
    var s := cls + [created];
    assert s[|cls|].id == freshId;
  }

  /** In the seed checklist one of three items is done: 33%, and it is pending. */
  lemma SeedProgress()
    ensures Progress(Some(MockData.MockChecklists[0])) == 33
    ensures !IsDone(MockData.MockChecklists[0])
  {
    var cl := MockData.MockChecklists[0];
    var items := cl.items;
    assert Filter(items[2..], ItemDone) == [];
    assert Filter(items[1..], ItemDone) == [];
    assert DoneCount(cl) == 1;
    RoundDivUnique(100, 3, 33);
    assert !items[1].isCompleted;
  }
}
