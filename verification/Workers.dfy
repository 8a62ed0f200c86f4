/** What the models of execution rows share: statuses, and workers that pick jobs from the queue. */
module Workers {
  datatype Status = Queued | Running | Succeeded | Partial | Failed

  predicate Open(st: Status) { st in {Queued, Running} }

  /** A worker process has picked a job and loaded its row, and later marked it running. */
  datatype Work = Work(job: nat, marked: bool)

  /** Jobs name distinct rows. */
  predicate DistinctJobs(jobs: seq<nat>) {
    forall i, j :: 0 <= i < j < |jobs| ==> jobs[i] != jobs[j]
  }

  /** Each worker holds a job of its own that was taken from the queue. */
  ghost predicate Picked(workers: map<nat, Work>, jobs: seq<nat>, taken: set<nat>) {
    (forall w :: w in workers ==> workers[w].job < |jobs| && workers[w].job in taken) &&
    (forall v, w :: v in workers && w in workers && v != w ==> workers[v].job != workers[w].job)
  }

  lemma MarkedStays(workers: map<nat, Work>, jobs: seq<nat>, taken: set<nat>, w: nat)
    requires Picked(workers, jobs, taken) && w in workers
    ensures Picked(workers[w := workers[w].(marked := true)], jobs, taken)
  {
  }

  /** A worker changes only the row of its own job. */
  lemma OtherJobs(workers: map<nat, Work>, jobs: seq<nat>, taken: set<nat>, w: nat)
    requires DistinctJobs(jobs) && Picked(workers, jobs, taken) && w in workers
    ensures forall v :: v in workers && v != w ==> jobs[workers[v].job] != jobs[workers[w].job]
    ensures forall j :: 0 <= j < |jobs| && j !in taken ==> jobs[j] != jobs[workers[w].job]
  {
    var mine := workers[w].job;
    forall j | 0 <= j < |jobs| && j != mine ensures jobs[j] != jobs[mine] {
      assert j < mine ==> jobs[j] != jobs[mine];
      assert mine < j ==> jobs[mine] != jobs[j];
    }
  }
}
