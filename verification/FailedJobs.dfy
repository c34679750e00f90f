/** The in-memory store of failed jobs, with the slice and its backing array in place
    (examples/failed-jobs/main.go). */
module FailedJobs {
  import opened Basics

  datatype StoredJob = StoredJob(id: int, queue: string, body: string, err: string)

  /** What `add` reads of a failed job: err is the error's text, absent when it carries none. */
  datatype Job = Job(queue: string, body: string, err: Option<string>)

  // ---- The store as a value ----------------------------------------------------------------------

  datatype Jobs = Jobs(next: int, jobs: seq<StoredJob>)

  function Stored(id: int, job: Job): StoredJob {
    StoredJob(id, job.queue, job.body, if job.err.Some? then job.err.value else "")
  }

  /** The record has the job's texts, and an empty error text for a job without an error. */
  predicate Keeps(item: StoredJob, job: Job) {
    && item.queue == job.queue && item.body == job.body
    && (if job.err == None then item.err == "" else job.err == Some(item.err))
  }

  function Added(s: Jobs, job: Job): Jobs {
    Jobs(s.next + 1, s.jobs + [Stored(s.next + 1, job)])
  }

  /** The position of the first job with the id, or the length. */
  function Find(jobs: seq<StoredJob>, id: int): (i: nat)
    ensures i <= |jobs|
    ensures i < |jobs| ==> jobs[i].id == id
    ensures forall j :: 0 <= j < i ==> jobs[j].id != id
  {
    if jobs == [] || jobs[0].id == id then 0 else 1 + Find(jobs[1..], id)
  }

  function Without(jobs: seq<StoredJob>, i: nat): seq<StoredJob>
    requires i < |jobs|
  {
    jobs[..i] + jobs[i + 1..]
  }

  function Taken(s: Jobs, id: int): Jobs {
    var i := Find(s.jobs, id);
    if i < |s.jobs| then s.(jobs := Without(s.jobs, i)) else s
  }

  // ---- The store in memory ---------------------------------------------------------------------------

  class MemoryStore {
    var next: int
    var data: array<StoredJob>
    var len: nat

    ghost predicate Valid()
      reads this
    {
      len <= data.Length
    }

    ghost function Value(): Jobs
      reads this, data
      requires Valid()
    {
      Jobs(next, data[..len])
    }

    constructor ()
      ensures Valid() && fresh(data) && Value() == Jobs(0, [])
    {
      next, len := 0, 0;
      data := new StoredJob[0];
    }

    /** Appending writes behind the slice, or moves it to a bigger array when that is full. */
    method Add(job: Job) returns (item: StoredJob)
      requires Valid()
      modifies this, data
      ensures Valid() && (data == old(data) || fresh(data))
      ensures Value() == Added(old(Value()), job)
      ensures item == Stored(old(next) + 1, job) && Keeps(item, job)
    {
      next := next + 1;
      item := Stored(next, job);
      if len == data.Length { Grow(item); }
      ghost var before := data[..len];
      data[len] := item;
      len := len + 1;
      assert data[..len] == before + [item];
    }

    /** A bigger backing array with the same slice in it. */
    method Grow(filler: StoredJob)
      requires Valid()
      modifies this`data
      ensures Valid() && fresh(data) && data.Length > len
      ensures data[..len] == old(data[..len])
    {
      var bigger := new StoredJob[2 * len + 1](_ => filler);
      for i := 0 to len
        invariant data == old(data) && bigger != data
        invariant forall j :: 0 <= j < i ==> bigger[j] == data[j]
      {
        bigger[i] := data[i];
      }
      data := bigger;
    }

    /** A copy that shares nothing with the store. */
    method List() returns (out: array<StoredJob>)
      requires Valid()
      ensures fresh(out) && out[..] == Value().jobs
    {
      var blank := StoredJob(0, "", "", "");
      out := new StoredJob[len](_ => blank);
      for i := 0 to len
        invariant out[..i] == data[..i]
      {
        out[i] := data[i];
      }
    }

    /** Deletion moves the tail of the backing array down by one. */
    method Take(id: int) returns (job: Option<StoredJob>)
      requires Valid()
      modifies this, data
      ensures Valid() && data == old(data)
      ensures Value() == Taken(old(Value()), id)
      ensures var i := Find(old(Value()).jobs, id);
              job == if i < |old(Value()).jobs| then Some(old(Value()).jobs[i]) else None
    {
      ghost var before := data[..len];
      var i := 0;
      while i < len
        invariant i <= len == |before| && data[..len] == before
        invariant forall j :: 0 <= j < i ==> before[j].id != id
        invariant unchanged(this) && unchanged(data)
      {
        if data[i].id == id {
          FindIs(before, id, i);
          job := Some(data[i]);
          Shift(i);
          return;
        }
        i := i + 1;
      }
      FindIs(before, id, len);
      job := None;
    }

    /** append(jobs[:i], jobs[i+1:]...) */
    method Shift(i: nat)
      requires Valid() && i < len
      modifies this`len, data
      ensures Valid() && data == old(data) && data[..len] == Without(old(data[..len]), i)
    {
      for k := i to len - 1
        invariant data == old(data) && len == old(len) <= data.Length
        invariant forall j :: 0 <= j < i ==> data[j] == old(data[j])
        invariant forall j :: i <= j < k ==> data[j] == old(data[j + 1])
        invariant forall j :: k <= j < len ==> data[j] == old(data[j])
      {
        data[k] := data[k + 1];
      }
      len := len - 1;
    }
  }

  lemma {:induction false} FindIs(jobs: seq<StoredJob>, id: int, i: nat)
    requires i <= |jobs| && (forall j :: 0 <= j < i ==> jobs[j].id != id)
    requires i < |jobs| ==> jobs[i].id == id
    ensures Find(jobs, id) == i
  {
  }

  // ---- Every sequence of operations ---------------------------------------------------------------------

  datatype Op = Add(job: Job) | List | Take(id: int)

  /** The store after the operations, with every job ever added and every job taken. */
  datatype History = History(store: Jobs, added: seq<StoredJob>, taken: seq<StoredJob>)

  function Apply(h: History, op: Op): History {
    match op
    case Add(job) => History(Added(h.store, job), h.added + [Stored(h.store.next + 1, job)], h.taken)
    case List => h
    case Take(id) =>
      var i := Find(h.store.jobs, id);
      if i < |h.store.jobs| then History(Taken(h.store, id), h.added, h.taken + [h.store.jobs[i]]) else h
  }

  function RunOps(ops: seq<Op>): History {
    if ops == [] then History(Jobs(0, []), [], []) else Apply(RunOps(ops[..|ops| - 1]), ops[|ops| - 1])
  }

  ghost predicate IdsIncrease(jobs: seq<StoredJob>) {
    forall i, j :: 0 <= i < j < |jobs| ==> jobs[i].id < jobs[j].id
  }

  ghost predicate StoreInv(h: History) {
    && IdsIncrease(h.store.jobs)
    && (forall i :: 0 <= i < |h.store.jobs| ==> 1 <= h.store.jobs[i].id <= h.store.next)
    && |h.added| == h.store.next
    && (forall i :: 0 <= i < |h.added| ==> h.added[i].id == i + 1)
    && multiset(h.added) == multiset(h.store.jobs) + multiset(h.taken)
  }

  lemma WithoutMultiset(jobs: seq<StoredJob>, i: nat)
    requires i < |jobs|
    ensures multiset(Without(jobs, i)) + multiset([jobs[i]]) == multiset(jobs)
  {
    assert jobs == jobs[..i] + [jobs[i]] + jobs[i + 1..];
  }

  lemma WithoutIncreases(jobs: seq<StoredJob>, i: nat)
    requires i < |jobs| && IdsIncrease(jobs)
    ensures IdsIncrease(Without(jobs, i))
    ensures forall k :: 0 <= k < |jobs| - 1 ==> Without(jobs, i)[k] == jobs[if k < i then k else k + 1]
  {
  }

  lemma AddKeeps(h: History, job: Job)
    requires StoreInv(h)
    ensures StoreInv(Apply(h, Add(job)))
  {
    var item := Stored(h.store.next + 1, job);
    SnocMultiset(h.added, h.store.jobs, h.taken, item);
    SnocIncreases(h.store.jobs, item);
    forall i | 0 <= i < |h.added| + 1 ensures (h.added + [item])[i].id == i + 1 {
    }
  }

  lemma SnocMultiset(added: seq<StoredJob>, jobs: seq<StoredJob>, taken: seq<StoredJob>, item: StoredJob)
    requires multiset(added) == multiset(jobs) + multiset(taken)
    ensures multiset(added + [item]) == multiset(jobs + [item]) + multiset(taken)
  {
    assert multiset(added + [item]) == multiset(added) + multiset{item};
    assert multiset(jobs + [item]) == multiset(jobs) + multiset{item};
  }

  lemma SnocIncreases(jobs: seq<StoredJob>, item: StoredJob)
    requires IdsIncrease(jobs) && forall i :: 0 <= i < |jobs| ==> jobs[i].id < item.id
    ensures IdsIncrease(jobs + [item])
  {
  }

  lemma TakeMultiset(added: seq<StoredJob>, jobs: seq<StoredJob>, taken: seq<StoredJob>, i: nat)
    requires i < |jobs| && multiset(added) == multiset(jobs) + multiset(taken)
    ensures multiset(added) == multiset(Without(jobs, i)) + multiset(taken + [jobs[i]])
  {
    WithoutMultiset(jobs, i);
    assert multiset(taken + [jobs[i]]) == multiset(taken) + multiset([jobs[i]]);
  }

  lemma TakeKeeps(h: History, id: int)
    requires StoreInv(h)
    ensures StoreInv(Apply(h, Take(id)))
  {
    var jobs := h.store.jobs;
    var i := Find(jobs, id);
    if i < |jobs| {
      WithoutIncreases(jobs, i);
      TakeMultiset(h.added, jobs, h.taken, i);
    }
  }

  lemma ApplyKeeps(h: History, op: Op)
    requires StoreInv(h)
    ensures StoreInv(Apply(h, op))
  {
    match op
    case Add(job) => AddKeeps(h, job);
    case List =>
    case Take(id) => TakeKeeps(h, id);
  }

  /** Over any sequence of operations: ids increase along the slice and never exceed next; the
      n-th job added got the id n, so no id is used twice; and the jobs added are exactly the
      jobs still there and the jobs taken. */
  lemma {:induction false} EveryHistory(ops: seq<Op>)
    ensures StoreInv(RunOps(ops))
  {
    if ops != [] {
      EveryHistory(ops[..|ops| - 1]);
      ApplyKeeps(RunOps(ops[..|ops| - 1]), ops[|ops| - 1]);
    }
  }

  /** The jobs handed to the adds, in order. */
  function JobsOf(ops: seq<Op>): seq<Job> {
    if ops == [] then []
    else JobsOf(ops[..|ops| - 1]) + if ops[|ops| - 1].Add? then [ops[|ops| - 1].job] else []
  }

  /** Every record in the store, or taken from it, is one added, with the texts it was added with: the
      n-th record has those of the n-th job. */
  lemma {:induction false} RecordsKeepTheirJobs(ops: seq<Op>)
    ensures var (added, jobs) := (RunOps(ops).added, JobsOf(ops));
            |added| == |jobs| && forall i :: 0 <= i < |jobs| ==> Keeps(added[i], jobs[i])
  {
    if ops != [] { RecordsKeepTheirJobs(ops[..|ops| - 1]); }
  }

  lemma WithoutMembers(jobs: seq<StoredJob>, i: nat, x: StoredJob)
    requires i < |jobs| && IdsIncrease(jobs)
    ensures x in Without(jobs, i) <==> x in jobs && x.id != jobs[i].id
  {
    WithoutIncreases(jobs, i);
    if x in jobs && x.id != jobs[i].id {
      var j :| 0 <= j < |jobs| && jobs[j] == x;
      assert Without(jobs, i)[if j < i then j else j - 1] == x;
    }
    if x in Without(jobs, i) {
      var k :| 0 <= k < |jobs| - 1 && Without(jobs, i)[k] == x;
      assert jobs[if k < i then k else k + 1] == x;
    }
  }

  /** Taking removes exactly the job with the id, keeps the order of the others, and a second
      take of the same id finds nothing. */
  lemma TakeIsExact(ops: seq<Op>, id: int)
    ensures var before := RunOps(ops).store;
            var after := Taken(before, id);
            && (forall x :: x in after.jobs <==> x in before.jobs && x.id != id)
            && IdsIncrease(after.jobs)
            && Find(after.jobs, id) == |after.jobs|
  {
    EveryHistory(ops);
    var jobs := RunOps(ops).store.jobs;
    var after := Taken(RunOps(ops).store, id).jobs;
    var i := Find(jobs, id);
    if i < |jobs| {
      WithoutIncreases(jobs, i);
      forall x ensures x in after <==> x in jobs && x.id != id {
        WithoutMembers(jobs, i, x);
      }
    }
    assert forall j :: 0 <= j < |after| ==> after[j] in after;
    FindIs(after, id, |after|);
  }

  /** Any operations after List leave the listed copy alone. */
  method ListedCopyIsStable(s: MemoryStore, ops: seq<Op>) returns (out: array<StoredJob>)
    requires s.Valid()
    modifies s, s.data
    ensures fresh(out) && out[..] == old(s.Value()).jobs
  {
    out := s.List();
    ghost var listed := out[..];
    for k := 0 to |ops|
      invariant s.Valid() && out[..] == listed && s.data != out
      invariant s.data == old(s.data) || fresh(s.data)
    {
      match ops[k]
      case Add(job) => var _ := s.Add(job);
      case List => var _ := s.List();
      case Take(id) => var _ := s.Take(id);
    }
  }
}
