/**
 * The study-data store behind the planner's screens: one `StudyData` document
 * that every state updater replaces. Ids and clock readings are parameters.
 */
module StudyStore {
  import opened Options
  import opened Seqs
  import opened Records
  import opened StudyTypes
  import opened Storage

  /** `addSubject`: append the subject (no duplicate check) and reset its resource bucket. */
  function WithSubject(d: StudyData, subject: string): (r: StudyData)
    ensures r.userProfile.subjects == d.userProfile.subjects + [subject]
    ensures Get(r.resources, subject) == Some([])
    ensures forall k :: k != subject ==> Get(r.resources, k) == Get(d.resources, k)
    ensures r.tasks == d.tasks
  {
    StudyData(UserProfile(d.userProfile.subjects + [subject]), d.tasks, Put(d.resources, subject, []))
  }

  /** Adding a subject that is already declared lists it twice and empties its bucket. */
  lemma WithSubjectNoDedup(d: StudyData, subject: string)
    requires subject in d.userProfile.subjects
    ensures !NoDups(WithSubject(d, subject).userProfile.subjects)
    ensures |WithSubject(d, subject).userProfile.subjects| == |d.userProfile.subjects| + 1
  {
    var ss := WithSubject(d, subject).userProfile.subjects;
    var i :| 0 <= i < |d.userProfile.subjects| && d.userProfile.subjects[i] == subject;
    assert ss[i] == ss[|ss| - 1];
  }

  /** `removeSubject`: the subject, its resource bucket and every task of that subject go. */
  function WithoutSubject(d: StudyData, subject: string): StudyData
  {
    StudyData(UserProfile(Without(d.userProfile.subjects, Self, subject)),
              BucketsWithout(d.tasks, TaskSubject, subject),
              Delete(d.resources, subject))
  }

  /**
   * After removing a subject: no task has it, it is not declared, its resource
   * key is gone, and every other task stays, in its bucket and in order.
   */
  lemma {:induction false} WithoutSubjectCascade(d: StudyData, subject: string)
    ensures forall s, i :: 0 <= i < |WithoutSubject(d, subject).tasks.Get(s)|
              ==> WithoutSubject(d, subject).tasks.Get(s)[i].subject != subject
    ensures subject !in WithoutSubject(d, subject).userProfile.subjects
    ensures !HasKey(WithoutSubject(d, subject).resources, subject)
    ensures forall k :: k != subject ==> Get(WithoutSubject(d, subject).resources, k) == Get(d.resources, k)
    ensures forall s, t :: t in WithoutSubject(d, subject).tasks.Get(s) <==> t in d.tasks.Get(s) && t.subject != subject
    ensures forall s :: Subseq(WithoutSubject(d, subject).tasks.Get(s), d.tasks.Get(s))
  {
    var r := WithoutSubject(d, subject);
    WithoutMember(d.userProfile.subjects, Self, subject, subject);
    forall s, t ensures t in r.tasks.Get(s) <==> t in d.tasks.Get(s) && t.subject != subject {
      WithoutMember(d.tasks.Get(s), TaskSubject, subject, t);
    }
  }

  /** Removing a subject nothing refers to changes nothing. */
  lemma {:induction false} WithoutSubjectAbsent(d: StudyData, subject: string)
    requires subject !in d.userProfile.subjects && !HasKey(d.resources, subject)
    requires forall s, i :: 0 <= i < |d.tasks.Get(s)| ==> d.tasks.Get(s)[i].subject != subject
    ensures WithoutSubject(d, subject) == d
  {
    BucketsExt(BucketsWithout(d.tasks, TaskSubject, subject), d.tasks);
  }

  /** The bucket record with `t` appended to the bucket of its status. */
  function WithTask(b: Buckets, t: StudyTask): (r: Buckets)
    ensures r.Get(t.status) == b.Get(t.status) + [t]
    ensures forall s :: s != t.status ==> r.Get(s) == b.Get(s)
  {
    b.With(t.status, b.Get(t.status) + [t])
  }

  /** Appending a task whose id is unused keeps every task filed and every id unique. */
  lemma {:induction false} WithTaskConsistent(b: Buckets, t: StudyTask)
    requires Filed(b) && UniqueIds(b)
    requires CountKey(AllTasks(b), TaskId, t.id) == 0
    ensures Filed(WithTask(b, t)) && UniqueIds(WithTask(b, t))
    ensures CountKey(AllTasks(WithTask(b, t)), TaskId, t.id) == 1
  {
    var m := WithTask(b, t);
    forall id ensures CountKey(AllTasks(m), TaskId, id) == CountKey(AllTasks(b), TaskId, id) + (if id == t.id then 1 else 0) {
      CountAll(m, id);
      CountAll(b, id);
      CountSnoc(b.Get(t.status), t, id);
      assert m.Get(t.status) == b.Get(t.status) + [t];
      match t.status
      case ToStudy =>
      case InProgress =>
      case Revision =>
      case Completed =>
    }
  }

  /** A task list with the resource of the same id as `res` (the first one) replaced in place. */
  function ReplaceById(l: seq<Resource>, res: Resource): (r: seq<Resource>)
    ensures |r| == |l|
    ensures FindIndex(l, ResourceId, res.id) == -1 ==> r == l
    ensures forall j :: 0 <= j < |l| && j != FindIndex(l, ResourceId, res.id) ==> r[j] == l[j]
    ensures FindIndex(l, ResourceId, res.id) >= 0 ==> r[FindIndex(l, ResourceId, res.id)] == res
  {
    var index := FindIndex(l, ResourceId, res.id);
    if index != -1 then l[index := res] else l
  }

  /** `updateResource` over all buckets. */
  function ReplaceResource(rs: Rec<seq<Resource>>, res: Resource): Rec<seq<Resource>>
  {
    MapValues(rs, (l: seq<Resource>) => ReplaceById(l, res))
  }

  /**
   * Updating a resource keeps every bucket key and length; a bucket holding no
   * resource with that id is untouched, so the resource never moves between
   * subjects; an id held nowhere leaves the record equal.
   */
  lemma {:induction false} ReplaceResourceInPlace(rs: Rec<seq<Resource>>, res: Resource)
    ensures Keys(ReplaceResource(rs, res)) == Keys(rs)
    ensures forall i :: 0 <= i < |rs| ==> |ReplaceResource(rs, res)[i].1| == |rs[i].1|
    ensures forall i :: 0 <= i < |rs| && FindIndex(rs[i].1, ResourceId, res.id) == -1
              ==> ReplaceResource(rs, res)[i] == rs[i]
    ensures forall i :: 0 <= i < |rs| && res in ReplaceResource(rs, res)[i].1
              ==> exists j :: 0 <= j < |rs[i].1| && rs[i].1[j].id == res.id
    ensures (forall i :: 0 <= i < |rs| ==> FindIndex(rs[i].1, ResourceId, res.id) == -1)
              ==> ReplaceResource(rs, res) == rs
  {
    var m := ReplaceResource(rs, res);
    forall i | 0 <= i < |rs| && res in m[i].1
      ensures exists j :: 0 <= j < |rs[i].1| && rs[i].1[j].id == res.id
    {
      var index := FindIndex(rs[i].1, ResourceId, res.id);
      if index >= 0 {
        assert rs[i].1[index].id == res.id;
      }
    }
  }

  /** `deleteResource` over all buckets: the id goes from every bucket, all keys stay. */
  function DropResource(rs: Rec<seq<Resource>>, id: string): Rec<seq<Resource>>
  {
    MapValues(rs, (l: seq<Resource>) => Without(l, ResourceId, id))
  }

  lemma {:induction false} DropResourceKeepsKeys(rs: Rec<seq<Resource>>, id: string)
    ensures Keys(DropResource(rs, id)) == Keys(rs)
    ensures forall i, x :: 0 <= i < |rs| ==> (x in DropResource(rs, id)[i].1 <==> x in rs[i].1 && x.id != id)
    ensures forall i :: 0 <= i < |rs| ==> Subseq(DropResource(rs, id)[i].1, rs[i].1)
  {
    forall i, x | 0 <= i < |rs| ensures x in DropResource(rs, id)[i].1 <==> x in rs[i].1 && x.id != id {
      WithoutMember(rs[i].1, ResourceId, id, x);
    }
  }

  /** Deleting a task: every copy of the id goes, other tasks keep bucket and order. */
  lemma {:induction false} DeleteTaskSpec(b: Buckets, id: string)
    ensures forall s, t :: t in BucketsWithout(b, TaskId, id).Get(s) <==> t in b.Get(s) && t.id != id
    ensures forall s :: Subseq(BucketsWithout(b, TaskId, id).Get(s), b.Get(s))
    ensures (forall s, i :: 0 <= i < |b.Get(s)| ==> b.Get(s)[i].id != id) ==> BucketsWithout(b, TaskId, id) == b
  {
    forall s, t ensures t in BucketsWithout(b, TaskId, id).Get(s) <==> t in b.Get(s) && t.id != id {
      WithoutMember(b.Get(s), TaskId, id, t);
    }
    if forall s, i :: 0 <= i < |b.Get(s)| ==> b.Get(s)[i].id != id {
      BucketsExt(BucketsWithout(b, TaskId, id), b);
    }
  }

  /** The store of `useStudyData`: the current document, replaced by every updater. */
  class Store {
    var data: StudyData

    /** Every task is in the bucket of its status and ids are unique. */
    ghost predicate Consistent()
      reads this
    {
      Filed(data.tasks) && UniqueIds(data.tasks)
    }

    /** The initial state is whatever loading gives. */
    constructor (stored: Option<StoredData>)
      ensures data == Load(stored)
    {
      data := Load(stored);
    }

    /** `updateStudyData`: replace the whole document. */
    method UpdateStudyData(newData: StudyData)
      modifies this
      ensures data == newData
    {
      data := newData;
    }

    method AddSubject(subject: string)
      modifies this
      ensures data == WithSubject(old(data), subject)
      ensures old(Consistent()) ==> Consistent()
    {
      data := data.(userProfile := UserProfile(data.userProfile.subjects + [subject]),
                    resources := Put(data.resources, subject, []));
    }

    /** `removeSubject`: a `forEach` over the statuses filters each bucket by subject. */
    method RemoveSubject(subject: string)
      modifies this
      ensures data == WithoutSubject(old(data), subject)
      ensures old(Consistent()) ==> Consistent()
    {
      var newResources := Delete(data.resources, subject);
      var newTasks := DropEverywhere(data.tasks, TaskSubject, subject);
      if Consistent() {
        BucketsWithoutConsistent(data.tasks, TaskSubject, subject);
      }
      data := StudyData(UserProfile(Without(data.userProfile.subjects, Self, subject)), newTasks, newResources);
    }

    /**
     * `createTask`: the new task gets the given id and stamps and goes to the end
     * of the bucket of its status; a fresh id keeps the store consistent.
     */
    method CreateTask(draft: TaskDraft, id: string, createdAt: string, updatedAt: string) returns (t: StudyTask)
      modifies this
      ensures t == TaskFromDraft(draft, id, createdAt, updatedAt)
      ensures data == old(data).(tasks := WithTask(old(data).tasks, t))
      ensures old(Consistent()) && CountKey(AllTasks(old(data).tasks), TaskId, id) == 0 ==> Consistent()
    {
      t := TaskFromDraft(draft, id, createdAt, updatedAt);
      if Consistent() && CountKey(AllTasks(data.tasks), TaskId, id) == 0 {
        WithTaskConsistent(data.tasks, t);
      }
      data := data.(tasks := data.tasks.With(t.status, data.tasks.Get(t.status) + [t]));
    }

    /** `updateTaskData`: stamp `updatedAt`, then apply `updateTask`. */
    method UpdateTaskData(t: StudyTask, now: string) returns (stamped: StudyTask)
      modifies this
      ensures stamped == t.(updatedAt := now)
      ensures data == old(data).(tasks := MoveTask(old(data).tasks, stamped))
      ensures old(Consistent()) ==> Consistent()
    {
      stamped := t.(updatedAt := now);
      if Consistent() {
        MoveTaskConsistent(data.tasks, stamped);
      }
      data := UpdateTask(data, stamped);
    }

    /** `deleteTask`: a `forEach` over the statuses filters each bucket by id. */
    method DeleteTask(taskId: string)
      modifies this
      ensures data == old(data).(tasks := BucketsWithout(old(data).tasks, TaskId, taskId))
      ensures old(Consistent()) ==> Consistent()
    {
      if Consistent() {
        BucketsWithoutConsistent(data.tasks, TaskId, taskId);
      }
      var newTasks := DropEverywhere(data.tasks, TaskId, taskId);
      data := data.(tasks := newTasks);
    }

    /** `createResource`: give the draft an id and a stamp, then `addResource`. */
    method CreateResource(draft: ResourceDraft, id: string, createdAt: string) returns (res: Resource)
      modifies this
      ensures res == ResourceFromDraft(draft, id, createdAt)
      ensures data == AddResource(old(data), res)
    {
      res := ResourceFromDraft(draft, id, createdAt);
      data := AddResource(data, res);
    }

    /**
     * `updateResource`: for every subject key, find the first resource with the
     * id and overwrite it at the same index.
     */
    method UpdateResource(res: Resource)
      modifies this
      ensures data == old(data).(resources := ReplaceResource(old(data).resources, res))
    {
      var rs := data.resources;
      for i := 0 to |rs|
        invariant |rs| == |data.resources|
        invariant forall j :: 0 <= j < |rs| ==>
          rs[j] == if j < i then (data.resources[j].0, ReplaceById(data.resources[j].1, res)) else data.resources[j]
      {
        var resourceIndex := FindIndex(rs[i].1, ResourceId, res.id);
        if resourceIndex != -1 {
          rs := SetAt(rs, i, rs[i].1[resourceIndex := res]);
        }
      }
      assert rs == ReplaceResource(data.resources, res);
      data := data.(resources := rs);
    }

    /** `deleteResource`: every bucket is filtered by id; every key stays, even when emptied. */
    method DeleteResource(resourceId: string)
      modifies this
      ensures data == old(data).(resources := DropResource(old(data).resources, resourceId))
    {
      var rs := data.resources;
      for i := 0 to |rs|
        invariant |rs| == |data.resources|
        invariant forall j :: 0 <= j < |rs| ==>
          rs[j] == if j < i then (data.resources[j].0, Without(data.resources[j].1, ResourceId, resourceId)) else data.resources[j]
      {
        rs := SetAt(rs, i, Without(rs[i].1, ResourceId, resourceId));
      }
      assert rs == DropResource(data.resources, resourceId);
      data := data.(resources := rs);
    }
  }
}
