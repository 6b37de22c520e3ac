/**
 * The dashboard: the board filtered by a search string and a subject chip,
 * the header statistics, and the same drag handling as the kanban board.
 */
module StudyDashboard {
  import opened Options
  import opened Seqs
  import opened Text
  import opened StudyTypes
  import opened Storage
  import opened KanbanBoard

  /** An empty search matches everything; otherwise title or description must contain it, both lowercased. */
  predicate MatchesSearch(t: StudyTask, query: string)
  {
    query == "" || Contains(Lower(t.title), Lower(query)) || Contains(Lower(t.description), Lower(query))
  }

  /** The chip `All` matches every subject. */
  predicate MatchesSubject(t: StudyTask, subject: string)
  {
    subject == "All" || t.subject == subject
  }

  function Matcher(query: string, subject: string): StudyTask -> bool
  {
    (t: StudyTask) => MatchesSearch(t, query) && MatchesSubject(t, subject)
  }

  /** Every bucket filtered by `p`. */
  function BucketsFilter(b: Buckets, p: StudyTask -> bool): (r: Buckets)
    ensures forall s :: r.Get(s) == Filter(p, b.Get(s))
  {
    Buckets(Filter(p, b.toStudy), Filter(p, b.inProgress), Filter(p, b.revision), Filter(p, b.completed))
  }

  /** `filteredTasks` as a value. */
  function FilteredTasks(tasks: Buckets, query: string, subject: string): Buckets
  {
    BucketsFilter(tasks, Matcher(query, subject))
  }

  /** `filteredTasks`: a `forEach` over the entries fills a fresh record bucket by bucket. */
  method FilterTasks(tasks: Buckets, query: string, subject: string) returns (filtered: Buckets)
    ensures filtered == FilteredTasks(tasks, query, subject)
  {
    ghost var goal := FilteredTasks(tasks, query, subject);
    var empty := Buckets([], [], [], []);
    filtered := empty;
    for i := 0 to |StatusOrder|
      invariant forall s :: filtered.Get(s) == (if Rank(s) < i then goal else empty).Get(s)
    {
      var status := StatusOrder[i];
      assert Rank(status) == i;
      filtered := filtered.With(status, Filter(Matcher(query, subject), tasks.Get(status)));
    }
    BucketsExt(filtered, goal);
  }

  /** Each shown bucket is an order-preserving subsequence of the real one. */
  lemma FilteredTasksSubseq(tasks: Buckets, query: string, subject: string)
    ensures forall s :: Subseq(FilteredTasks(tasks, query, subject).Get(s), tasks.Get(s))
  {
  }

  /** With no search and the `All` chip the board is shown as it is. */
  lemma FilteredTasksAll(tasks: Buckets)
    ensures FilteredTasks(tasks, "", "All") == tasks
  {
    BucketsExt(FilteredTasks(tasks, "", "All"), tasks);
  }

  /**
   * A task is shown exactly when it is in the bucket, matches the search (if
   * any) in title or description, and has the chosen subject (unless `All`).
   */
  lemma {:induction false} FilteredTasksMembers(tasks: Buckets, query: string, subject: string)
    ensures forall s, t :: t in FilteredTasks(tasks, query, subject).Get(s) <==>
      t in tasks.Get(s) && MatchesSearch(t, query) && MatchesSubject(t, subject)
  {
    forall s, t ensures t in FilteredTasks(tasks, query, subject).Get(s) <==>
      t in tasks.Get(s) && MatchesSearch(t, query) && MatchesSubject(t, subject)
    {
      FilterMember(Matcher(query, subject), tasks.Get(s), t);
      assert Matcher(query, subject)(t) == (MatchesSearch(t, query) && MatchesSubject(t, subject));
    }
  }

  /** With a subject chosen, every shown task has that subject. */
  lemma FilteredTasksSubject(tasks: Buckets, query: string, subject: string)
    requires subject != "All"
    ensures forall s, t :: t in FilteredTasks(tasks, query, subject).Get(s) ==> t.subject == subject
  {
    forall s, t | t in FilteredTasks(tasks, query, subject).Get(s) ensures t.subject == subject {
      FilterMember(Matcher(query, subject), tasks.Get(s), t);
      assert MatchesSubject(t, subject);
    }
  }

  /** The header statistics. */
  datatype Stats = Stats(todayTime: nat, totalCompleted: nat, inProgress: nat, dayStreak: nat)

  /** `updatedAt` falls on day `today`, by the calendar-day function `dayKey`. */
  function UpdatedOn(dayKey: string -> string, today: string): StudyTask -> bool
  {
    (t: StudyTask) => dayKey(t.updatedAt) == today
  }

  /**
   * `stats`: time spent on tasks last updated today, the sizes of the completed
   * and in-progress buckets, and the fixed streak 7.
   */
  function DashboardStats(tasks: Buckets, dayKey: string -> string, today: string): (st: Stats)
    ensures st.totalCompleted == |tasks.completed| && st.inProgress == |tasks.inProgress|
    ensures st.dayStreak == 7
    ensures st.todayTime <= Sum(TimeSpent, AllTasks(tasks))
  {
    SumFilter(TimeSpent, UpdatedOn(dayKey, today), AllTasks(tasks));
    Stats(Sum(TimeSpent, Filter(UpdatedOn(dayKey, today), AllTasks(tasks))),
          |tasks.completed|, |tasks.inProgress|, 7)
  }

  /** The dashboard's view state. */
  class Dashboard {
    var activeTask: Option<StudyTask>
    var searchQuery: string
    var selectedSubject: string

    /** What the board shows for the current search and chip. */
    function Visible(tasks: Buckets): Buckets
      reads this
    {
      FilteredTasks(tasks, searchQuery, selectedSubject)
    }

    /** No drag, an empty search and the `All` chip: the whole board is shown. */
    constructor ()
      ensures activeTask.None? && searchQuery == "" && selectedSubject == "All"
      ensures forall tasks :: Visible(tasks) == tasks
    {
      activeTask := None;
      searchQuery := "";
      selectedSubject := "All";
      new;
      forall tasks ensures Visible(tasks) == tasks {
        FilteredTasksAll(tasks);
      }
    }

    method SetSearchQuery(query: string)
      modifies this
      ensures searchQuery == query && selectedSubject == old(selectedSubject) && activeTask == old(activeTask)
    {
      searchQuery := query;
    }

    method SelectSubject(subject: string)
      modifies this
      ensures selectedSubject == subject && searchQuery == old(searchQuery) && activeTask == old(activeTask)
    {
      selectedSubject := subject;
    }

    /** `handleDragStart`, as on the board. */
    method HandleDragStart(tasks: Buckets, taskId: string)
      modifies this
      ensures activeTask == Find(AllTasks(tasks), TaskId, taskId)
      ensures searchQuery == old(searchQuery) && selectedSubject == old(selectedSubject)
    {
      activeTask := FindTask(tasks, taskId);
    }

    /** `handleDragEnd`: the same decision as the board's, over the unfiltered buckets. */
    method HandleDragEnd(tasks: Buckets, activeId: string, overId: Option<string>) returns (update: Option<StudyTask>)
      modifies this
      ensures activeTask.None?
      ensures update == DropDecision(tasks, activeId, overId)
      ensures searchQuery == old(searchQuery) && selectedSubject == old(selectedSubject)
    {
      activeTask := None;
      update := DragEndUpdate(tasks, activeId, overId);
    }
  }
}
