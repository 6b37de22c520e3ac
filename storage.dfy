/**
 * The persistence helpers of the study planner: the default document, the
 * merge applied on load, first-use detection, and the task/resource helpers
 * that the store builds on.
 */
module Storage {
  import opened Options
  import opened Seqs
  import opened Text
  import opened Records
  import opened StudyTypes

  /** The eight subjects suggested on first use. */
  function DefaultSubjects(): (r: seq<string>)
    ensures |r| == 8 && NoDups(r)
    ensures r[0] == "Computer Science" && r[7] == "Languages"
  {
    ["Computer Science", "Mathematics", "Physics", "Chemistry",
     "Biology", "History", "Literature", "Languages"]
  }

  /** The document of a first run: no subjects, four empty buckets, no resource buckets. */
  function DefaultStudyData(): (d: StudyData)
    ensures d.userProfile.subjects == []
    ensures forall s :: d.tasks.Get(s) == []
    ensures AllTasks(d.tasks) == [] && Keys(d.resources) == []
  {
    StudyData(UserProfile([]), Buckets([], [], [], []), [])
  }

  /**
   * A stored document after parsing: any part may be missing. Keys of the stored
   * task record other than the four statuses are not represented.
   */
  datatype StoredProfile = StoredProfile(subjects: Option<seq<string>>)
  datatype StoredTasks = StoredTasks(
    toStudy: Option<seq<StudyTask>>,
    inProgress: Option<seq<StudyTask>>,
    revision: Option<seq<StudyTask>>,
    completed: Option<seq<StudyTask>>)
  datatype StoredData = StoredData(
    userProfile: Option<StoredProfile>,
    tasks: Option<StoredTasks>,
    resources: Option<Rec<seq<Resource>>>)

  /** The value of an optional field, or the default's when it is absent (object spread). */
  function Or<T>(o: Option<T>, default: T): T
  {
    match o
    case Some(v) => v
    case None => default
  }

  /** The stored subject list, if the stored document has one. */
  function StoredSubjects(stored: Option<StoredData>): Option<seq<string>>
  {
    if stored.Some? && stored.value.userProfile.Some? then stored.value.userProfile.value.subjects
    else None
  }

  /** The stored bucket of status `s`, if the stored document has one. */
  function StoredBucket(stored: Option<StoredData>, s: TaskStatus): Option<seq<StudyTask>>
  {
    if stored.Some? && stored.value.tasks.Some? then
      var t := stored.value.tasks.value;
      match s
      case ToStudy => t.toStudy
      case InProgress => t.inProgress
      case Revision => t.revision
      case Completed => t.completed
    else None
  }

  /**
   * `loadStudyData` after parsing: nothing stored (or a value that cannot be
   * parsed) gives the default document; otherwise each part is merged over the
   * default's, so a missing bucket comes back empty.
   */
  function Load(stored: Option<StoredData>): (d: StudyData)
    ensures stored.None? ==> d == DefaultStudyData()
    ensures d.userProfile.subjects == Or(StoredSubjects(stored), [])
    ensures forall s :: d.tasks.Get(s) == Or(StoredBucket(stored, s), [])
    ensures stored.Some? && stored.value.resources.Some? ==> d.resources == stored.value.resources.value
    ensures stored.None? || stored.value.resources.None? ==> d.resources == []
  {
    match stored
    case None => DefaultStudyData()
    case Some(data) =>
      StudyData(
        UserProfile(Or(StoredSubjects(stored), [])),
        Buckets(Or(StoredBucket(stored, ToStudy), []), Or(StoredBucket(stored, InProgress), []),
                Or(StoredBucket(stored, Revision), []), Or(StoredBucket(stored, Completed), [])),
        Or(data.resources, []))
  }

  /** What saving writes: every part of the document present. */
  function Snapshot(d: StudyData): StoredData
  {
    StoredData(
      Some(StoredProfile(Some(d.userProfile.subjects))),
      Some(StoredTasks(Some(d.tasks.toStudy), Some(d.tasks.inProgress), Some(d.tasks.revision), Some(d.tasks.completed))),
      Some(d.resources))
  }

  /** Loading what was saved gives back the same document. */
  lemma LoadSnapshot(d: StudyData)
    ensures Load(Some(Snapshot(d))) == d
  {
    BucketsExt(Load(Some(Snapshot(d))).tasks, d.tasks);
  }

  /** `isFirstTime`: the loaded subject list is empty. */
  function IsFirstTime(stored: Option<StoredData>): (b: bool)
    ensures b <==> StoredSubjects(stored).None? || StoredSubjects(stored) == Some([])
    ensures stored.None? ==> b
  {
    |Load(stored).userProfile.subjects| == 0
  }

  /** A saved document is a first run exactly when it has no subjects. */
  lemma IsFirstTimeSnapshot(d: StudyData)
    ensures IsFirstTime(Some(Snapshot(d))) <==> d.userProfile.subjects == []
  {
  }

  /**
   * The lookup loop of `findTaskById`: walk the buckets in key order and return
   * the first task with the id, or nothing. The board and the dashboard run the
   * same loop over their `tasks`.
   */
  method FindTask(tasks: Buckets, taskId: string) returns (r: Option<StudyTask>)
    ensures r == Find(AllTasks(tasks), TaskId, taskId)
    ensures r.Some? ==> r.value.id == taskId && exists s :: r.value in tasks.Get(s)
    ensures r.None? <==> forall s, i :: 0 <= i < |tasks.Get(s)| ==> tasks.Get(s)[i].id != taskId
  {
    var lists := BucketList(tasks);
    AllTasksFlatten(tasks);
    r := None;
    var i := 0;
    while i < |StatusOrder|
      invariant 0 <= i <= |StatusOrder|
      invariant Find(Flatten(lists[..i]), TaskId, taskId) == None
    {
      var task := Find(tasks.Get(StatusOrder[i]), TaskId, taskId);
      FlattenPrefix(lists, i);
      FindAppend(Flatten(lists[..i]), lists[i], TaskId, taskId);
      if task.Some? {
        assert lists == lists[..i + 1] + lists[i + 1..];
        FlattenAppend(lists[..i + 1], lists[i + 1..]);
        FindAppend(Flatten(lists[..i + 1]), Flatten(lists[i + 1..]), TaskId, taskId);
        r := task;
        break;
      }
      i := i + 1;
    }
    if r.None? {
      assert lists[..i] == lists;
    }
    FindWitness(tasks, taskId, r);
  }

  /** `findTaskById(data, taskId)`. */
  method FindTaskById(data: StudyData, taskId: string) returns (r: Option<StudyTask>)
    ensures r == Find(AllTasks(data.tasks), TaskId, taskId)
    ensures r.Some? ==> r.value.id == taskId && exists s :: r.value in data.tasks.Get(s)
    ensures r.None? <==> forall s, i :: 0 <= i < |data.tasks.Get(s)| ==> data.tasks.Get(s)[i].id != taskId
  {
    r := FindTask(data.tasks, taskId);
  }

  lemma FlattenPrefix<T>(ls: seq<seq<T>>, i: nat)
    requires i < |ls|
    ensures Flatten(ls[..i + 1]) == Flatten(ls[..i]) + ls[i]
  {
    assert ls[..i + 1] == ls[..i] + [ls[i]];
    FlattenAppend(ls[..i], [ls[i]]);
    assert Flatten([ls[i]]) == ls[i] + Flatten([ls[i]][1..]);
  }

  /** The first task with an id, seen bucket by bucket. */
  lemma FindWitness(b: Buckets, taskId: string, r: Option<StudyTask>)
    requires r == Find(AllTasks(b), TaskId, taskId)
    ensures r.Some? ==> r.value.id == taskId && exists s :: r.value in b.Get(s)
    ensures r.None? <==> forall s, i :: 0 <= i < |b.Get(s)| ==> b.Get(s)[i].id != taskId
  {
    if r.Some? {
      AllTasksMember(b, r.value);
    }
    forall s, i | 0 <= i < |b.Get(s)| && r.None?
      ensures b.Get(s)[i].id != taskId
    {
      AllTasksMember(b, b.Get(s)[i]);
      var j :| 0 <= j < |AllTasks(b)| && AllTasks(b)[j] == b.Get(s)[i];
    }
  }

  /** Every bucket with the elements of key `k` dropped (one `filter` per bucket). */
  function BucketsWithout(b: Buckets, key: StudyTask -> string, k: string): (r: Buckets)
    ensures forall s :: r.Get(s) == Without(b.Get(s), key, k)
  {
    Buckets(Without(b.toStudy, key, k), Without(b.inProgress, key, k),
            Without(b.revision, key, k), Without(b.completed, key, k))
  }

  /** The loop that reassigns each bucket to its filtered copy, status by status. */
  method DropEverywhere(b: Buckets, key: StudyTask -> string, k: string) returns (r: Buckets)
    ensures r == BucketsWithout(b, key, k)
  {
    ghost var goal := BucketsWithout(b, key, k);
    r := b;
    for i := 0 to |StatusOrder|
      invariant forall s :: r.Get(s) == (if Rank(s) < i then goal else b).Get(s)
    {
      var status := StatusOrder[i];
      assert Rank(status) == i;
      r := r.With(status, Without(r.Get(status), key, k));
    }
    BucketsExt(r, goal);
  }

  /** The buckets after `updateTask(data, t)`: `t` is dropped everywhere and appended to bucket `t.status`. */
  function MoveTask(b: Buckets, t: StudyTask): Buckets
  {
    var r := BucketsWithout(b, TaskId, t.id);
    r.With(t.status, r.Get(t.status) + [t])
  }

  /** `updateTask`: remove the task from every bucket, then push it onto the bucket of its status. */
  method UpdateTask(data: StudyData, t: StudyTask) returns (r: StudyData)
    ensures r == data.(tasks := MoveTask(data.tasks, t))
  {
    var tasks := DropEverywhere(data.tasks, TaskId, t.id);
    tasks := tasks.With(t.status, tasks.Get(t.status) + [t]);
    r := data.(tasks := tasks);
  }

  /** Count of a key over all buckets is the sum of the four counts. */
  lemma CountAll(b: Buckets, id: string)
    ensures CountKey(AllTasks(b), TaskId, id)
         == CountKey(b.toStudy, TaskId, id) + CountKey(b.inProgress, TaskId, id)
          + CountKey(b.revision, TaskId, id) + CountKey(b.completed, TaskId, id)
  {
    CountKeyAppend(b.toStudy, b.inProgress, TaskId, id);
    CountKeyAppend(b.toStudy + b.inProgress, b.revision, TaskId, id);
    CountKeyAppend(b.toStudy + b.inProgress + b.revision, b.completed, TaskId, id);
  }

  lemma CountSnoc(l: seq<StudyTask>, t: StudyTask, id: string)
    ensures CountKey(l + [t], TaskId, id) == CountKey(l, TaskId, id) + (if t.id == id then 1 else 0)
  {
    CountKeyAppend(l, [t], TaskId, id);
    assert CountKey([t], TaskId, id) == (if t.id == id then 1 else 0) + CountKey([t][1..], TaskId, id);
  }

  /**
   * After `updateTask(d, t)` the id of `t` occurs exactly once over all buckets,
   * as the last task of bucket `t.status`.
   */
  lemma {:induction false} MoveTaskPlaces(b: Buckets, t: StudyTask)
    ensures var l := MoveTask(b, t).Get(t.status); |l| > 0 && l[|l| - 1] == t
    ensures forall s :: s != t.status ==> CountKey(MoveTask(b, t).Get(s), TaskId, t.id) == 0
    ensures CountKey(AllTasks(MoveTask(b, t)), TaskId, t.id) == 1
  {
    var m := MoveTask(b, t);
    CountAll(m, t.id);
    CountSnoc(Without(b.Get(t.status), TaskId, t.id), t, t.id);
  }

  /** Every other task keeps its bucket and its relative order. */
  lemma {:induction false} MoveTaskKeepsOthers(b: Buckets, t: StudyTask)
    ensures forall s :: Without(MoveTask(b, t).Get(s), TaskId, t.id) == Without(b.Get(s), TaskId, t.id)
  {
    forall s ensures Without(MoveTask(b, t).Get(s), TaskId, t.id) == Without(b.Get(s), TaskId, t.id) {
      var w := Without(b.Get(s), TaskId, t.id);
      WithoutIdempotent(b.Get(s), TaskId, t.id);
      if s == t.status {
        WithoutAppend(w, [t], TaskId, t.id);
        assert Without([t], TaskId, t.id) == [];
      }
    }
  }

  /** Two updates of the same task: the last one wins, so updating twice equals updating once. */
  lemma {:induction false} MoveTaskLastWins(b: Buckets, t1: StudyTask, t2: StudyTask)
    requires t1.id == t2.id
    ensures MoveTask(MoveTask(b, t1), t2) == MoveTask(b, t2)
  {
    MoveTaskKeepsOthers(b, t1);
    forall s ensures MoveTask(MoveTask(b, t1), t2).Get(s) == MoveTask(b, t2).Get(s) {
    }
    BucketsExt(MoveTask(MoveTask(b, t1), t2), MoveTask(b, t2));
  }

  lemma MoveTaskIdempotent(b: Buckets, t: StudyTask)
    ensures MoveTask(MoveTask(b, t), t) == MoveTask(b, t)
  {
    MoveTaskLastWins(b, t, t);
  }

  /** Every task sits in the bucket named by its own status. */
  ghost predicate Filed(b: Buckets)
  {
    forall s, i :: 0 <= i < |b.Get(s)| ==> b.Get(s)[i].status == s
  }

  /** No two tasks share an id. */
  ghost predicate UniqueIds(b: Buckets)
  {
    forall id :: CountKey(AllTasks(b), TaskId, id) <= 1
  }

  /** `updateTask` keeps every task filed under its status and ids unique. */
  lemma {:induction false} MoveTaskConsistent(b: Buckets, t: StudyTask)
    requires Filed(b) && UniqueIds(b)
    ensures Filed(MoveTask(b, t)) && UniqueIds(MoveTask(b, t))
  {
    var m := MoveTask(b, t);
    forall s, i | 0 <= i < |m.Get(s)| ensures m.Get(s)[i].status == s {
      var x := m.Get(s)[i];
      if !(s == t.status && i == |m.Get(s)| - 1) {
        assert x in Without(b.Get(s), TaskId, t.id);
        WithoutMember(b.Get(s), TaskId, t.id, x);
      }
    }
    forall id ensures CountKey(AllTasks(m), TaskId, id) <= 1 {
      if id == t.id {
        MoveTaskPlaces(b, t);
      } else {
        CountAll(m, id);
        CountAll(b, id);
        forall s ensures CountKey(m.Get(s), TaskId, id) == CountKey(b.Get(s), TaskId, id) {
          CountKeyWithoutOther(b.Get(s), TaskId, id, t.id);
          if s == t.status {
            CountSnoc(Without(b.Get(s), TaskId, t.id), t, id);
          }
        }
        assert CountKey(m.Get(ToStudy), TaskId, id) == CountKey(b.Get(ToStudy), TaskId, id);
        assert CountKey(m.Get(InProgress), TaskId, id) == CountKey(b.Get(InProgress), TaskId, id);
        assert CountKey(m.Get(Revision), TaskId, id) == CountKey(b.Get(Revision), TaskId, id);
        assert CountKey(m.Get(Completed), TaskId, id) == CountKey(b.Get(Completed), TaskId, id);
      }
    }
  }

  /** Dropping tasks by any key keeps every task filed and ids unique. */
  lemma {:induction false} BucketsWithoutConsistent(b: Buckets, key: StudyTask -> string, k: string)
    requires Filed(b) && UniqueIds(b)
    ensures Filed(BucketsWithout(b, key, k)) && UniqueIds(BucketsWithout(b, key, k))
  {
    var m := BucketsWithout(b, key, k);
    forall s, i | 0 <= i < |m.Get(s)| ensures m.Get(s)[i].status == s {
      WithoutMember(b.Get(s), key, k, m.Get(s)[i]);
    }
    forall id ensures CountKey(AllTasks(m), TaskId, id) <= 1 {
      CountAll(m, id);
      CountAll(b, id);
      CountKeyWithout(b.toStudy, TaskId, id, key, k);
      CountKeyWithout(b.inProgress, TaskId, id, key, k);
      CountKeyWithout(b.revision, TaskId, id, key, k);
      CountKeyWithout(b.completed, TaskId, id, key, k);
    }
  }

  /**
   * `addResource`: the subject's bucket is created when missing and the resource
   * is appended at its end; every other bucket and the tasks stay as they were.
   */
  function AddResource(data: StudyData, res: Resource): (r: StudyData)
    ensures Get(r.resources, res.subject) == Some(Or(Get(data.resources, res.subject), []) + [res])
    ensures forall k :: k != res.subject ==> Get(r.resources, k) == Get(data.resources, k)
    ensures Keys(r.resources) == if HasKey(data.resources, res.subject) then Keys(data.resources)
                                 else Keys(data.resources) + [res.subject]
    ensures r.tasks == data.tasks && r.userProfile == data.userProfile
  {
    var bucket := Or(Get(data.resources, res.subject), []);
    data.(resources := Put(data.resources, res.subject, bucket + [res]))
  }

  /** The resources `searchResources` looks at: one subject's bucket, or all buckets flattened in key order. */
  function SearchScope(resources: Rec<seq<Resource>>, subject: Option<string>): (r: seq<Resource>)
    ensures subject.Some? && subject.value != "" ==> r == Or(Get(resources, subject.value), [])
    ensures subject.Some? && subject.value != "" && !HasKey(resources, subject.value) ==> r == []
    ensures subject.None? || subject.value == "" ==> r == Flatten(Values(resources))
  {
    if subject.Some? && subject.value != "" then Or(Get(resources, subject.value), [])
    else Flatten(Values(resources))
  }

  /** Title, description or one of the tags contains `term` once lowercased. */
  predicate ResourceMatches(res: Resource, term: string)
  {
    Contains(Lower(res.title), term) || Contains(Lower(res.description), term)
    || exists i :: 0 <= i < |res.tags| && Contains(Lower(res.tags[i]), term)
  }

  /**
   * `searchResources`: a blank query returns the scope as it is; otherwise the
   * resources of the scope that match the lowercased (untrimmed) query, in order.
   */
  function SearchResources(data: StudyData, query: string, subject: Option<string>): (r: seq<Resource>)
    ensures IsBlank(query) ==> r == SearchScope(data.resources, subject)
    ensures Subseq(r, SearchScope(data.resources, subject))
    ensures !IsBlank(query) ==>
      forall x :: x in r <==> x in SearchScope(data.resources, subject) && ResourceMatches(x, Lower(query))
    ensures SearchScope(data.resources, subject) == [] ==> r == []
  {
    TrimEmptyIffBlank(query);
    var scope := SearchScope(data.resources, subject);
    SubseqRefl(scope);
    FilterMembers((x: Resource) => ResourceMatches(x, Lower(query)), scope);
    if Trim(query) == [] then scope
    else Filter((x: Resource) => ResourceMatches(x, Lower(query)), scope)
  }
}
