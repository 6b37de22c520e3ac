/**
 * The entities of the study planner as they are used by the code: tasks with
 * subtasks, priority and difficulty; resources; the user profile; the root
 * document `StudyData`; and the timer snapshot.
 */
module StudyTypes {
  import opened Options
  import opened Records
  import opened Seqs

  /** The four workflow stages; each names one bucket of `StudyData.tasks`. */
  datatype TaskStatus = ToStudy | InProgress | Revision | Completed

  /** The order of the bucket keys (`Object.keys(tasks)`). */
  const StatusOrder: seq<TaskStatus> := [ToStudy, InProgress, Revision, Completed]

  /** Position of a status in `StatusOrder`. */
  function Rank(s: TaskStatus): (i: nat)
    ensures i < |StatusOrder| && StatusOrder[i] == s
  {
    match s
    case ToStudy => 0
    case InProgress => 1
    case Revision => 2
    case Completed => 3
  }

  /** The key of a status, which is also the id of its kanban column. */
  function StatusKey(s: TaskStatus): string
  {
    match s
    case ToStudy => "toStudy"
    case InProgress => "inProgress"
    case Revision => "revision"
    case Completed => "completed"
  }

  /** The status whose key is `key`, if `key` is one of the four column ids. */
  function ParseStatus(key: string): (r: Option<TaskStatus>)
  {
    if key == "toStudy" then Some(ToStudy)
    else if key == "inProgress" then Some(InProgress)
    else if key == "revision" then Some(Revision)
    else if key == "completed" then Some(Completed)
    else None
  }

  /** Column ids and statuses are in one-to-one correspondence. */
  lemma ParseStatusKey(key: string, s: TaskStatus)
    ensures ParseStatus(StatusKey(s)) == Some(s)
    ensures ParseStatus(key) == Some(s) ==> key == StatusKey(s)
  {
  }

  datatype Priority = Low | Medium | High | Urgent
  datatype Difficulty = Easy | Medium | Hard

  /** A checklist item owned by one task. */
  datatype SubTask = SubTask(id: string, title: string, completed: bool, createdAt: string)

  /** A unit of study work; `timeSpent` counts seconds; timestamps are ISO strings. */
  datatype StudyTask = StudyTask(
    id: string,
    title: string,
    description: string,
    subject: string,
    due: string,
    timeSpent: nat,
    status: TaskStatus,
    priority: Priority,
    difficulty: Difficulty,
    subtasks: seq<SubTask>,
    createdAt: string,
    updatedAt: string)

  /** A task as submitted for creation: everything but the id and the two stamps. */
  datatype TaskDraft = TaskDraft(
    title: string,
    description: string,
    subject: string,
    due: string,
    timeSpent: nat,
    status: TaskStatus,
    priority: Priority,
    difficulty: Difficulty,
    subtasks: seq<SubTask>)

  /** `{ ...draft, id, createdAt, updatedAt }`. */
  function TaskFromDraft(d: TaskDraft, id: string, createdAt: string, updatedAt: string): StudyTask
  {
    StudyTask(id, d.title, d.description, d.subject, d.due, d.timeSpent, d.status,
              d.priority, d.difficulty, d.subtasks, createdAt, updatedAt)
  }

  /** A bookmarked reference, filed under one subject, with string tags. */
  datatype Resource = Resource(
    id: string,
    url: string,
    title: string,
    description: string,
    subject: string,
    tags: seq<string>,
    createdAt: string)

  /** A resource as submitted for creation: everything but the id and the stamp. */
  datatype ResourceDraft = ResourceDraft(
    url: string,
    title: string,
    description: string,
    subject: string,
    tags: seq<string>)

  function ResourceFromDraft(d: ResourceDraft, id: string, createdAt: string): Resource
  {
    Resource(id, d.url, d.title, d.description, d.subject, d.tags, createdAt)
  }

  /** The user profile: just the ordered list of declared subjects. */
  datatype UserProfile = UserProfile(subjects: seq<string>)

  /** `Record<TaskStatus, StudyTask[]>`: one list for every status. */
  datatype Buckets = Buckets(
    toStudy: seq<StudyTask>,
    inProgress: seq<StudyTask>,
    revision: seq<StudyTask>,
    completed: seq<StudyTask>)
  {
    /** `tasks[s]`. */
    function Get(s: TaskStatus): seq<StudyTask>
    {
      match s
      case ToStudy => toStudy
      case InProgress => inProgress
      case Revision => revision
      case Completed => completed
    }

    /** `tasks[s] = l`: only bucket `s` changes. */
    function With(s: TaskStatus, l: seq<StudyTask>): (b: Buckets)
      ensures b.Get(s) == l
      ensures forall o :: o != s ==> b.Get(o) == Get(o)
    {
      match s
      case ToStudy => this.(toStudy := l)
      case InProgress => this.(inProgress := l)
      case Revision => this.(revision := l)
      case Completed => this.(completed := l)
    }
  }

  /** Two bucket records are equal when every bucket is. */
  lemma BucketsExt(a: Buckets, b: Buckets)
    requires forall s :: a.Get(s) == b.Get(s)
    ensures a == b
  {
    assert a.Get(ToStudy) == b.Get(ToStudy);
    assert a.Get(InProgress) == b.Get(InProgress);
    assert a.Get(Revision) == b.Get(Revision);
    assert a.Get(Completed) == b.Get(Completed);
  }

  /** `Object.values(tasks).flat()`, in bucket-key order. */
  function AllTasks(b: Buckets): seq<StudyTask>
  {
    b.toStudy + b.inProgress + b.revision + b.completed
  }

  /** The buckets as a list in key order (`Object.values(tasks)`). */
  function BucketList(b: Buckets): (ls: seq<seq<StudyTask>>)
    ensures |ls| == |StatusOrder|
    ensures forall i :: 0 <= i < |StatusOrder| ==> ls[i] == b.Get(StatusOrder[i])
  {
    [b.toStudy, b.inProgress, b.revision, b.completed]
  }

  lemma AllTasksFlatten(b: Buckets)
    ensures AllTasks(b) == Flatten(BucketList(b))
  {
    var ls := BucketList(b);
    assert Flatten(ls[3..]) == b.completed + Flatten(ls[4..]);
    assert Flatten(ls[2..]) == b.revision + Flatten(ls[3..]);
    assert Flatten(ls[1..]) == b.inProgress + Flatten(ls[2..]);
  }

  lemma AllTasksMember(b: Buckets, t: StudyTask)
    ensures t in AllTasks(b) <==> exists s :: t in b.Get(s)
  {
    if t in AllTasks(b) {
      if t in b.toStudy { assert t in b.Get(ToStudy); }
      else if t in b.inProgress { assert t in b.Get(InProgress); }
      else if t in b.revision { assert t in b.Get(Revision); }
      else { assert t in b.Get(Completed); }
    }
  }

  /** The root document: profile, the four task buckets, resources by subject. */
  datatype StudyData = StudyData(userProfile: UserProfile, tasks: Buckets, resources: Rec<seq<Resource>>)

  /** The declared (unused) timer snapshot: running flag, start instant, accumulated seconds. */
  datatype TimerState = TimerState(isRunning: bool, startTime: Option<int>, totalTime: nat)

  /** Key functions used by the filters of the source. */
  function TaskId(t: StudyTask): string { t.id }
  function TaskSubject(t: StudyTask): string { t.subject }
  function ResourceId(r: Resource): string { r.id }
  function SubTaskId(s: SubTask): string { s.id }
  function Self(s: string): string { s }
  function TimeSpent(t: StudyTask): nat { t.timeSpent }
}
