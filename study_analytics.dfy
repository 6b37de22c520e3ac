/**
 * The analytics page: totals over every task, per-subject and per-priority
 * breakdowns, the last seven days, and the run of recent days with a
 * completed task. Calendar days are whole numbers here: `dayOf` maps an
 * `updatedAt` stamp to its day and `today` is the current day, so "i days
 * ago" is `today - i`.
 */
module StudyAnalytics {
  import opened Seqs
  import opened StudyTypes
  import Storage

  function IsCompleted(t: StudyTask): bool { t.status == Completed }

  /** A share as a percentage, 0 when there is nothing to share. */
  function Percent(part: nat, whole: nat): (r: real)
    requires part <= whole
    ensures whole == 0 ==> r == 0.0
    ensures 0.0 <= r <= 100.0
    ensures whole > 0 ==> (r == 100.0 <==> part == whole)
  {
    if whole > 0 then
      var share := part as real / whole as real;
      assert share * whole as real == part as real;
      share * 100.0
    else 0.0
  }

  /** `totalStudyTime`: seconds summed over every task of every bucket. */
  function TotalStudyTime(tasks: Buckets): (n: nat)
    ensures n == Sum(TimeSpent, tasks.toStudy) + Sum(TimeSpent, tasks.inProgress)
               + Sum(TimeSpent, tasks.revision) + Sum(TimeSpent, tasks.completed)
  {
    SumAppend(TimeSpent, tasks.toStudy, tasks.inProgress);
    SumAppend(TimeSpent, tasks.toStudy + tasks.inProgress, tasks.revision);
    SumAppend(TimeSpent, tasks.toStudy + tasks.inProgress + tasks.revision, tasks.completed);
    Sum(TimeSpent, AllTasks(tasks))
  }

  datatype SubjectStat = SubjectStat(subject: string, total: nat, completed: nat, completionRate: real, timeSpent: nat)

  function HasSubject(subject: string): StudyTask -> bool
  {
    (t: StudyTask) => t.subject == subject
  }

  /**
   * One subject's row: the number of its tasks, how many of them have the
   * completed status, the completion rate and the time spent on them.
   */
  function StatFor(tasks: Buckets, subject: string): (st: SubjectStat)
    ensures st.subject == subject
    ensures st.total == CountKey(AllTasks(tasks), TaskSubject, subject)
    ensures st.completed == CountKey(Filter(IsCompleted, AllTasks(tasks)), TaskSubject, subject)
    ensures st.timeSpent == SumKey(TimeSpent, AllTasks(tasks), TaskSubject, subject)
    ensures st.completed <= st.total <= |AllTasks(tasks)|
    ensures st.timeSpent <= TotalStudyTime(tasks)
    ensures st.completionRate == Percent(st.completed, st.total)
    ensures forall t :: t in AllTasks(tasks) && t.subject == subject ==> st.total > 0
  {
    var all := AllTasks(tasks);
    var mine := Filter(HasSubject(subject), all);
    var done := Filter(IsCompleted, mine);
    FilterByKey(HasSubject(subject), all, TaskSubject, subject, TimeSpent);
    FilterCommutes(IsCompleted, HasSubject(subject), all);
    FilterByKey(HasSubject(subject), Filter(IsCompleted, all), TaskSubject, subject, TimeSpent);
    FilterMembers(HasSubject(subject), all);
    SubjectStat(subject, |mine|, |done|, Percent(|done|, |mine|), Sum(TimeSpent, mine))
  }

  /** In a record that files every task under its status, the completed tasks are exactly the completed bucket. */
  lemma CompletedOfFiled(tasks: Buckets)
    requires Storage.Filed(tasks)
    ensures Filter(IsCompleted, AllTasks(tasks)) == tasks.completed
  {
    var a, b, c, d := tasks.toStudy, tasks.inProgress, tasks.revision, tasks.completed;
    assert forall i :: 0 <= i < |a| ==> a[i].status == tasks.Get(ToStudy)[i].status == ToStudy;
    assert forall i :: 0 <= i < |b| ==> b[i].status == tasks.Get(InProgress)[i].status == InProgress;
    assert forall i :: 0 <= i < |c| ==> c[i].status == tasks.Get(Revision)[i].status == Revision;
    assert forall i :: 0 <= i < |d| ==> d[i].status == tasks.Get(Completed)[i].status == Completed;
    FilterAppend(IsCompleted, a + b + c, d);
    FilterAppend(IsCompleted, a + b, c);
    FilterAppend(IsCompleted, a, b);
    FilterNone(IsCompleted, a);
    FilterNone(IsCompleted, b);
    FilterNone(IsCompleted, c);
  }

  /** So a subject's completed count is its number of tasks in the completed bucket. */
  lemma StatForFiled(tasks: Buckets, subject: string)
    requires Storage.Filed(tasks)
    ensures StatFor(tasks, subject).completed == CountKey(tasks.completed, TaskSubject, subject)
  {
    CompletedOfFiled(tasks);
  }

  function StatTotal(st: SubjectStat): nat { st.total }

  /** `subjectStats`: one row per declared subject, in declared order. */
  function SubjectStats(data: StudyData): (r: seq<SubjectStat>)
    ensures |r| == |data.userProfile.subjects|
    ensures forall i :: 0 <= i < |r| ==> r[i] == StatFor(data.tasks, data.userProfile.subjects[i])
  {
    seq(|data.userProfile.subjects|, i requires 0 <= i < |data.userProfile.subjects| =>
      StatFor(data.tasks, data.userProfile.subjects[i]))
  }

  /**
   * With distinct declared subjects the rows' totals add up to at most the
   * number of tasks, and to exactly that number when every task's subject is
   * declared.
   */
  lemma SubjectTotalsAddUp(data: StudyData)
    requires NoDups(data.userProfile.subjects)
    ensures Sum(StatTotal, SubjectStats(data)) <= |AllTasks(data.tasks)|
    ensures (forall t :: t in AllTasks(data.tasks) ==> t.subject in data.userProfile.subjects)
            ==> Sum(StatTotal, SubjectStats(data)) == |AllTasks(data.tasks)|
  {
    var all := AllTasks(data.tasks);
    var subjects := data.userProfile.subjects;
    SumMatchesKeyTotal(StatTotal, SubjectStats(data), all, TaskSubject, subjects);
    KeyTotalBound(all, TaskSubject, subjects);
  }

  datatype PriorityStat = PriorityStat(priority: Priority, count: nat, completed: nat)

  /** The breakdown's fixed order. */
  const PriorityOrder: seq<Priority> := [Urgent, High, Priority.Medium, Low]

  function HasPriority(p: Priority): StudyTask -> bool
  {
    (t: StudyTask) => t.priority == p
  }

  function TaskPriority(t: StudyTask): Priority { t.priority }

  /** One priority's row: the number of its tasks and how many of them have the completed status. */
  function PriorityStatFor(tasks: Buckets, p: Priority): (st: PriorityStat)
    ensures st.priority == p && st.completed <= st.count
    ensures st.count == CountKey(AllTasks(tasks), TaskPriority, p)
    ensures st.completed == CountKey(Filter(IsCompleted, AllTasks(tasks)), TaskPriority, p)
  {
    var all := AllTasks(tasks);
    var mine := Filter(HasPriority(p), all);
    FilterByKey(HasPriority(p), all, TaskPriority, p, TimeSpent);
    FilterCommutes(IsCompleted, HasPriority(p), all);
    FilterByKey(HasPriority(p), Filter(IsCompleted, all), TaskPriority, p, TimeSpent);
    PriorityStat(p, |mine|, |Filter(IsCompleted, mine)|)
  }

  /** In a filed record a priority's completed count is its number of tasks in the completed bucket. */
  lemma PriorityStatFiled(tasks: Buckets, p: Priority)
    requires Storage.Filed(tasks)
    ensures PriorityStatFor(tasks, p).completed == CountKey(tasks.completed, TaskPriority, p)
  {
    CompletedOfFiled(tasks);
  }

  /** `priorityStats`: four rows, urgent, high, medium, low. */
  function PriorityStats(tasks: Buckets): (r: seq<PriorityStat>)
    ensures |r| == 4
    ensures forall i :: 0 <= i < 4 ==> r[i].priority == PriorityOrder[i] && r[i].completed <= r[i].count
    ensures r[0].count + r[1].count + r[2].count + r[3].count == |AllTasks(tasks)|
  {
    PriorityCountsAddUp(AllTasks(tasks));
    seq(4, i requires 0 <= i < 4 => PriorityStatFor(tasks, PriorityOrder[i]))
  }

  /** Every task has exactly one priority, so the four counts add up to the number of tasks. */
  lemma {:induction false} PriorityCountsAddUp(s: seq<StudyTask>)
    ensures |Filter(HasPriority(Urgent), s)| + |Filter(HasPriority(High), s)|
          + |Filter(HasPriority(Priority.Medium), s)| + |Filter(HasPriority(Low), s)| == |s|
  {
    if s != [] {
      PriorityCountsAddUp(s[1..]);
    }
  }

  datatype DayEntry = DayEntry(day: int, completed: nat, hours: real)

  function UpdatedOnDay(dayOf: string -> int, day: int): StudyTask -> bool
  {
    (t: StudyTask) => dayOf(t.updatedAt) == day
  }

  /** The calendar day of a task's last update. */
  function UpdatedDay(dayOf: string -> int): StudyTask -> int
  {
    (t: StudyTask) => dayOf(t.updatedAt)
  }

  /** One chart bar: the tasks of the completed bucket last updated on `day`, and their time in hours. */
  function DayEntryFor(tasks: Buckets, dayOf: string -> int, day: int): (e: DayEntry)
    ensures e.day == day && e.completed <= |tasks.completed|
    ensures e.completed == CountKey(tasks.completed, UpdatedDay(dayOf), day)
    ensures e.hours == SumKey(TimeSpent, tasks.completed, UpdatedDay(dayOf), day) as real / 3600.0
    ensures e.completed == 0 ==> e.hours == 0.0
  {
    var done := Filter(UpdatedOnDay(dayOf, day), tasks.completed);
    FilterByKey(UpdatedOnDay(dayOf, day), tasks.completed, UpdatedDay(dayOf), day, TimeSpent);
    DayEntry(day, |done|, Sum(TimeSpent, done) as real / 3600.0)
  }

  /** `weeklyData`: seven bars, six days ago first and today last. */
  function WeeklyData(tasks: Buckets, dayOf: string -> int, today: int): (r: seq<DayEntry>)
    ensures |r| == 7
    ensures forall i :: 0 <= i < 7 ==> r[i] == DayEntryFor(tasks, dayOf, today - (6 - i))
    ensures r[6].day == today
  {
    seq(7, i requires 0 <= i < 7 => DayEntryFor(tasks, dayOf, today - (6 - i)))
  }

  function EntryCompleted(e: DayEntry): nat { e.completed }

  /** The seven bars are seven different days, so together they count each completed task at most once. */
  lemma WeeklyCompletedBound(tasks: Buckets, dayOf: string -> int, today: int)
    ensures Sum(EntryCompleted, WeeklyData(tasks, dayOf, today)) <= |tasks.completed|
  {
    var days := seq(7, i requires 0 <= i < 7 => today - (6 - i));
    assert NoDups(days);
    SumMatchesKeyTotal(EntryCompleted, WeeklyData(tasks, dayOf, today), tasks.completed, UpdatedDay(dayOf), days);
    KeyTotalBound(tasks.completed, UpdatedDay(dayOf), days);
  }

  /** Some completed task was last updated on `day`. */
  predicate CompletedOn(completed: seq<StudyTask>, dayOf: string -> int, day: int)
  {
    exists t :: t in completed && dayOf(t.updatedAt) == day
  }

  /** Some completed task was last updated `i` days ago. */
  predicate CompletedDaysAgo(completed: seq<StudyTask>, dayOf: string -> int, today: int, i: int)
  {
    CompletedOn(completed, dayOf, today - i)
  }

  /**
   * The streak the loop computes from offset `i` on: a day with a completion
   * counts, a day without one ends the run unless it is today (offset 0), and
   * no more than 30 days are examined.
   */
  function StreakFrom(completed: seq<StudyTask>, dayOf: string -> int, today: int, i: nat): (n: nat)
    ensures i <= 30 ==> n <= 30 - i
    ensures i >= 30 ==> n == 0
    decreases 30 - i
  {
    if i >= 30 then 0
    else if CompletedDaysAgo(completed, dayOf, today, i) then 1 + StreakFrom(completed, dayOf, today, i + 1)
    else if i > 0 then 0
    else StreakFrom(completed, dayOf, today, i + 1)
  }

  /** `currentStreak`: the counting loop with its early exit. */
  method CurrentStreak(completed: seq<StudyTask>, dayOf: string -> int, today: int) returns (streak: nat)
    ensures streak == StreakFrom(completed, dayOf, today, 0)
    ensures streak <= 30
  {
    streak := 0;
    var i := 0;
    while i < 30
      invariant 0 <= i <= 30
      invariant streak + StreakFrom(completed, dayOf, today, i) == StreakFrom(completed, dayOf, today, 0)
    {
      var has := exists t :: t in completed && dayOf(t.updatedAt) == today - i;
      if has {
        streak := streak + 1;
      } else if i > 0 {
        break;
      }
      i := i + 1;
    }
  }

  /** No completion today does not break the streak: counting starts from yesterday. */
  lemma StreakSkipsToday(completed: seq<StudyTask>, dayOf: string -> int, today: int)
    requires !CompletedOn(completed, dayOf, today)
    ensures StreakFrom(completed, dayOf, today, 0) == StreakFrom(completed, dayOf, today, 1)
  {
  }

  /** A day without completions at a positive offset `k` caps the streak below `k`... */
  lemma {:induction false} StreakStopsAtGap(completed: seq<StudyTask>, dayOf: string -> int, today: int, i: nat, k: nat)
    requires 0 < k && i <= k && !CompletedDaysAgo(completed, dayOf, today, k)
    ensures StreakFrom(completed, dayOf, today, i) <= k - i
    decreases k - i
  {
    if i < k && i < 30 {
      StreakStopsAtGap(completed, dayOf, today, i + 1, k);
    }
  }

  /** ...and consecutive completed days from yesterday back are all counted. */
  lemma {:induction false} StreakCountsRun(completed: seq<StudyTask>, dayOf: string -> int, today: int, i: nat, k: nat)
    requires 0 < i <= k <= 30
    requires forall j :: i <= j < k ==> CompletedDaysAgo(completed, dayOf, today, j)
    ensures StreakFrom(completed, dayOf, today, i) >= k - i
    decreases k - i
  {
    if i < k {
      StreakCountsRun(completed, dayOf, today, i + 1, k);
    }
  }

  /** `averageSessionTime`: seconds per completed task, 0 with none completed. */
  function AverageSession(time: nat, done: nat): (r: real)
    ensures done == 0 ==> r == 0.0
    ensures done > 0 ==> r * done as real == time as real && r >= 0.0
  {
    if done > 0 then time as real / done as real else 0.0
  }

  datatype Analytics = Analytics(
    totalTasks: nat,
    completedTasks: nat,
    completionRate: real,
    totalStudyTime: nat,
    averageSessionTime: real,
    currentStreak: nat,
    subjectStats: seq<SubjectStat>,
    priorityStats: seq<PriorityStat>,
    weeklyData: seq<DayEntry>)

  /** `analytics`: the whole aggregate of the page. */
  function ComputeAnalytics(data: StudyData, dayOf: string -> int, today: int): (a: Analytics)
    ensures a.totalTasks == |AllTasks(data.tasks)| && a.completedTasks == |data.tasks.completed|
    ensures a.completedTasks <= a.totalTasks
    ensures a.totalTasks == 0 ==> a.completionRate == 0.0
    ensures a.totalStudyTime == TotalStudyTime(data.tasks)
    ensures a.averageSessionTime == AverageSession(a.totalStudyTime, a.completedTasks)
    ensures a.currentStreak == StreakFrom(data.tasks.completed, dayOf, today, 0) && a.currentStreak <= 30
    ensures a.subjectStats == SubjectStats(data) && |a.subjectStats| == |data.userProfile.subjects|
    ensures a.priorityStats == PriorityStats(data.tasks) && |a.priorityStats| == 4
    ensures a.weeklyData == WeeklyData(data.tasks, dayOf, today) && |a.weeklyData| == 7
  {
    var all := AllTasks(data.tasks);
    var done := |data.tasks.completed|;
    var time := TotalStudyTime(data.tasks);
    Analytics(|all|, done, Percent(done, |all|), time,
              AverageSession(time, done),
              StreakFrom(data.tasks.completed, dayOf, today, 0),
              SubjectStats(data), PriorityStats(data.tasks), WeeklyData(data.tasks, dayOf, today))
  }
}
