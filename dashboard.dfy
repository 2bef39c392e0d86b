/** The dashboard aggregates over the project list: status counts, average progress, reminders. */
module Dashboard {
  import opened Types
  import opened Seqs
  import opened JsMath
  import MockData

  /** One calendar day in milliseconds; the reminder window is seven of them. */
  const DayMs: int := 86400000

  function HasStatus(st: ProjectStatus): Project -> bool
  {
    (p: Project) => p.status == st
  }

  /** The status of each project, position by position. */
  function Statuses(ps: seq<Project>): (r: seq<ProjectStatus>)
    ensures |r| == |ps| && forall i :: 0 <= i < |ps| ==> r[i] == ps[i].status
  {
    seq(|ps|, i requires 0 <= i < |ps| => ps[i].status)
  }

  /** `projects.filter(p => p.status === st).length`: how often `st` occurs among the statuses. */
  function CountStatus(ps: seq<Project>, st: ProjectStatus): (n: nat)
    ensures n == multiset(Statuses(ps))[st]
    ensures n <= |ps|
    ensures n == 0 <==> forall i :: 0 <= i < |ps| ==> ps[i].status != st
    ensures n == |ps| <==> forall i :: 0 <= i < |ps| ==> ps[i].status == st
  {
    FilterFull(ps, HasStatus(st));
    EmptyFilter(ps, HasStatus(st));
    CountIsOccurrences(ps, st);
    |Filter(ps, HasStatus(st))|
  }

  lemma {:induction false} CountIsOccurrences(ps: seq<Project>, st: ProjectStatus)
    ensures |Filter(ps, HasStatus(st))| == multiset(Statuses(ps))[st]
  {
    if ps != [] {
      CountIsOccurrences(ps[1..], st);
      FilterCount(ps, HasStatus(st));
      assert Statuses(ps) == [ps[0].status] + Statuses(ps[1..]);
    }
  }

  lemma EmptyFilter(ps: seq<Project>, p: Project -> bool)
    ensures |Filter(ps, p)| == 0 <==> forall i :: 0 <= i < |ps| ==> !p(ps[i])
  {
    FilterMembers(ps, p);
    if forall i :: 0 <= i < |ps| ==> !p(ps[i]) {
      FilterNone(ps, p);
    } else {
      var j :| 0 <= j < |ps| && p(ps[j]);
      assert ps[j] in Filter(ps, p);
    }
  }

  /** The five statuses split the projects: the four counted ones plus Planning make the total. */
  lemma {:induction false} StatusPartition(ps: seq<Project>)
    ensures CountStatus(ps, InProgress) + CountStatus(ps, Completed) + CountStatus(ps, Delayed)
          + CountStatus(ps, Inspection) + CountStatus(ps, Planning) == |ps|
  {
    if ps != [] {
      StatusPartition(ps[1..]);
      FilterCount(ps, HasStatus(InProgress));
      FilterCount(ps, HasStatus(Completed));
      FilterCount(ps, HasStatus(Delayed));
      FilterCount(ps, HasStatus(Inspection));
      FilterCount(ps, HasStatus(Planning));
    }
  }

  /** `projects.reduce((acc, p) => acc + p.progress, 0)` */
  function SumProgress(ps: seq<Project>): int
  {
    if ps == [] then 0 else ps[0].progress + SumProgress(ps[1..])
  }

  predicate ProgressInRange(ps: seq<Project>)
  {
    forall i :: 0 <= i < |ps| ==> 0 <= ps[i].progress <= 100
  }

  lemma {:induction false} SumProgressBounds(ps: seq<Project>)
    requires ProgressInRange(ps)
    ensures 0 <= SumProgress(ps) <= 100 * |ps|
  {
    if ps != [] {
      assert ProgressInRange(ps[1..]) by {
        forall i | 0 <= i < |ps| - 1 ensures 0 <= ps[1..][i].progress <= 100 {
          assert ps[1..][i] == ps[i + 1];
        }
      }
      SumProgressBounds(ps[1..]);
    }
  }

  /** `total > 0 ? Math.round(sum / total) : 0`: the nearest integer to the mean, 0 for no projects. */
  function AverageProgress(ps: seq<Project>): (r: int)
    ensures |ps| == 0 ==> r == 0
    ensures |ps| > 0 ==> RoundsTo(SumProgress(ps), |ps|, r)
    ensures ProgressInRange(ps) ==> 0 <= r <= 100
  {
    if |ps| == 0 then 0
    else
      AverageBounds(ps);
      RoundDiv(SumProgress(ps), |ps|)
  }

  lemma AverageBounds(ps: seq<Project>)
    requires |ps| > 0
    ensures ProgressInRange(ps) ==> 0 <= RoundDiv(SumProgress(ps), |ps|) <= 100
  {
    if ProgressInRange(ps) {
      SumProgressBounds(ps);
      var n, r := |ps|, RoundDiv(SumProgress(ps), |ps|);
      if r < 0 { MulMono(n, 2 * r + 1, -1); }
      if r > 100 { MulMono(n, 201, 2 * r - 1); }
    }
  }

  /** The dashboard's `stats` record. */
  datatype DashboardStats = DashboardStats(total: nat, inProgress: nat, completed: nat, delayed: nat, inspection: nat, avgProgress: int)

  function Stats(ps: seq<Project>): (st: DashboardStats)
    ensures st.total == |ps|
    ensures st.inProgress == CountStatus(ps, InProgress) && st.completed == CountStatus(ps, Completed)
    ensures st.delayed == CountStatus(ps, Delayed) && st.inspection == CountStatus(ps, Inspection)
    ensures st.avgProgress == AverageProgress(ps)
    ensures st.inProgress + st.completed + st.delayed + st.inspection + CountStatus(ps, Planning) == st.total
    ensures st.inProgress + st.completed + st.delayed + st.inspection <= st.total
    ensures ProgressInRange(ps) ==> 0 <= st.avgProgress <= 100
  {
    StatusPartition(ps);
    DashboardStats(|ps|, CountStatus(ps, InProgress), CountStatus(ps, Completed), CountStatus(ps, Delayed),
      CountStatus(ps, Inspection), AverageProgress(ps))
  }

  // ---------------------------------------------------------------- reminders

  /** The end date lies in [now, now + 7 days], both ends inclusive. */
  predicate IsSoon(p: Project, now: Instant)
  {
    now <= p.endDate <= now + 7 * DayMs
  }

  predicate IsReminder(p: Project, now: Instant)
  {
    (IsSoon(p, now) || p.status == Inspection) && p.status != Completed
  }

  function ReminderTest(now: Instant): Project -> bool
  {
    (p: Project) => IsReminder(p, now)
  }

  /** `upcomingReminders` */
  function Reminders(ps: seq<Project>, now: Instant): (r: seq<Project>)
    ensures IsSubsequence(r, ps)
    ensures forall p :: multiset(r)[p] == if IsReminder(p, now) then multiset(ps)[p] else 0
    ensures forall i :: 0 <= i < |r| ==> r[i] in ps && r[i].status != Completed
    ensures forall i :: 0 <= i < |r| ==> r[i].status == Inspection || IsSoon(r[i], now)
    ensures forall i :: 0 <= i < |ps| && ps[i].status == Inspection ==> ps[i] in r
    ensures forall i :: 0 <= i < |ps| && ps[i].status != Completed && IsSoon(ps[i], now) ==> ps[i] in r
  {
    FilterMembers(ps, ReminderTest(now));
    Filter(ps, ReminderTest(now))
  }

  /** A project that is neither Inspection nor Completed is reminded exactly when its end date is in the window. */
  lemma RemindedIffDueSoon(ps: seq<Project>, now: Instant, p: Project)
    requires p in ps && p.status != Inspection && p.status != Completed
    ensures p in Reminders(ps, now) <==> now <= p.endDate <= now + 7 * DayMs
  {
    var r := Reminders(ps, now);
    if p in r {
      var i :| 0 <= i < |r| && r[i] == p;
    } else {
      var i :| 0 <= i < |ps| && ps[i] == p;
    }
  }

  // ---------------------------------------------------------------- the seeded dashboard

  /** The seed progress values 65, 10 and 95 average to 56.67, shown as 57. */
  lemma MockAverageIs57()
    ensures AverageProgress(MockData.MockProjects) == 57
    ensures Stats(MockData.MockProjects) == DashboardStats(3, 1, 0, 0, 1, 57)
  {
    var ps := MockData.MockProjects;
    assert SumProgress(ps) == 170;
    RoundDivUnique(170, 3, 57);
    assert Filter(ps[2..], HasStatus(InProgress)) == [];
    assert Filter(ps[1..], HasStatus(InProgress)) == [];
    assert Filter(ps[2..], HasStatus(Inspection)) == [ps[2]];
    assert Filter(ps[1..], HasStatus(Inspection)) == [ps[2]];
    assert Filter(ps[2..], HasStatus(Completed)) == [];
    assert Filter(ps[1..], HasStatus(Completed)) == [];
    assert Filter(ps[2..], HasStatus(Delayed)) == [];
    assert Filter(ps[1..], HasStatus(Delayed)) == [];
  }

  /** At midnight UTC on 2024-08-25 the reminders are Grand Park (due in five days) and the hospital (inspection). */
  lemma MockRemindersLateAugust()
    ensures Reminders(MockData.MockProjects, 1724544000000) == [MockData.MockProjects[0], MockData.MockProjects[2]]
  {
    var ps := MockData.MockProjects;
    var t := ReminderTest(1724544000000);
    assert Filter(ps[2..], t) == [ps[2]];
    assert Filter(ps[1..], t) == [ps[2]];
  }
}
