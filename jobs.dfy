/**
 * The job list both components keep in React state: a new job is put at the
 * front, and a finished or failed run replaces, by id, the entries it owns.
 */
module Jobs {
  import opened Text

  /** A file chosen in the upload control; a job records its name. */
  datatype Upload = Upload(name: string, mimeType: string, bytes: seq<byte>)

  /** 'processing', 'completed' or 'error'. */
  datatype Status = Processing | Completed | Error

  datatype Job<R> = Job(
    id: string,
    brand: string,
    equipmentType: string,
    pdfName: Option<string>,
    status: Status,
    progress: nat,
    results: seq<R>,
    error: Option<string>)

  /**
   * The job `startProcessing` creates: 'processing' at progress 0 with no
   * results and no error, holding the trimmed inputs, which are non-empty
   * exactly when the inputs are not blank.
   */
  function NewJob<R>(id: string, brand: string, equipmentType: string, pdfName: Option<string>): (j: Job<R>)
    ensures j.id == id && j.pdfName == pdfName
    ensures j.status == Processing && j.progress == 0 && j.results == [] && j.error == None
    ensures j.brand == Trim(brand) && j.equipmentType == Trim(equipmentType)
    ensures j.brand != [] <==> !IsBlank(brand)
    ensures j.equipmentType != [] <==> !IsBlank(equipmentType)
  {
    TrimEmptyIffBlank(brand);
    TrimEmptyIffBlank(equipmentType);
    Job(id, Trim(brand), Trim(equipmentType), pdfName, Processing, 0, [], None)
  }

  /** `jobs.find(j => j.id === id)`, as the index of the first job with that id. */
  function FindJob<R>(jobs: seq<Job<R>>, id: string): (r: Option<nat>)
    ensures r.Some? ==> r.value < |jobs| && jobs[r.value].id == id
    ensures r.Some? ==> forall k :: 0 <= k < r.value ==> jobs[k].id != id
    ensures r.None? <==> forall k :: 0 <= k < |jobs| ==> jobs[k].id != id
  {
    if jobs == [] then None
    else if jobs[0].id == id then Some(0)
    else match FindJob(jobs[1..], id)
      case None => None
      case Some(k) => Some(k + 1)
  }

  /** `jobs.map(j => j.id === id ? update(j) : j)` */
  function ReplaceById<R>(jobs: seq<Job<R>>, id: string, update: Job<R> -> Job<R>): (r: seq<Job<R>>)
    ensures |r| == |jobs|
    ensures forall k :: 0 <= k < |jobs| && jobs[k].id == id ==> r[k] == update(jobs[k])
    ensures forall k :: 0 <= k < |jobs| && jobs[k].id != id ==> r[k] == jobs[k]
  {
    if jobs == [] then []
    else [if jobs[0].id == id then update(jobs[0]) else jobs[0]] + ReplaceById(jobs[1..], id, update)
  }

  /** The job a successful run stores: the created job, completed at 100 with its results. */
  function Finished<R>(created: Job<R>, results: seq<R>): Job<R> {
    created.(status := Completed, progress := 100, results := results)
  }

  /** `{ ...j, status: 'error', error: message }` */
  function MarkFailed<R>(j: Job<R>, message: string): Job<R> {
    j.(status := Error, error := Some(message))
  }

  function Completion<R>(created: Job<R>, results: seq<R>): Job<R> -> Job<R> {
    _ => Finished(created, results)
  }

  function Failure<R>(message: string): Job<R> -> Job<R> {
    j => MarkFailed(j, message)
  }

  /** Completion: every entry with the run's id becomes the finished job. */
  function CompleteJobs<R>(jobs: seq<Job<R>>, id: string, created: Job<R>, results: seq<R>): seq<Job<R>> {
    ReplaceById(jobs, id, Completion(created, results))
  }

  /** The catch branch: every entry with the run's id is marked 'error' with the message. */
  function FailJobs<R>(jobs: seq<Job<R>>, id: string, message: string): seq<Job<R>> {
    ReplaceById(jobs, id, Failure(message))
  }

  /** A freshly prepended job is the one `find` returns for its id. */
  lemma FindPrepended<R>(job: Job<R>, jobs: seq<Job<R>>)
    ensures FindJob([job] + jobs, job.id) == Some(0)
  {
  }

  /**
   * Replacing by id never moves a job: `find` returns the same position for
   * every id, and for any other id the job found there is untouched.
   */
  lemma {:induction false} FindAfterReplace<R>(jobs: seq<Job<R>>, id: string, update: Job<R> -> Job<R>, other: string)
    requires forall j: Job<R> {:trigger update(j)} :: j.id == id ==> update(j).id == id
    ensures FindJob(ReplaceById(jobs, id, update), other) == FindJob(jobs, other)
    ensures other != id && FindJob(jobs, other).Some? ==>
      ReplaceById(jobs, id, update)[FindJob(jobs, other).value] == jobs[FindJob(jobs, other).value]
    decreases |jobs|
  {
    if jobs != [] {
      var r := ReplaceById(jobs, id, update);
      assert r[0].id == jobs[0].id;
      assert r[1..] == ReplaceById(jobs[1..], id, update);
      FindAfterReplace(jobs[1..], id, update, other);
    }
  }

  /** Completing a run leaves the length and the ids, and so every other run's job, unchanged. */
  lemma CompleteIsolated<R>(jobs: seq<Job<R>>, id: string, created: Job<R>, results: seq<R>, other: string)
    requires created.id == id && other != id
    ensures |CompleteJobs(jobs, id, created, results)| == |jobs|
    ensures FindJob(CompleteJobs(jobs, id, created, results), other) == FindJob(jobs, other)
    ensures FindJob(jobs, other).Some? ==>
      CompleteJobs(jobs, id, created, results)[FindJob(jobs, other).value] == jobs[FindJob(jobs, other).value]
    ensures FindJob(jobs, id).Some? ==>
      CompleteJobs(jobs, id, created, results)[FindJob(jobs, id).value] == Finished(created, results)
  {
    var update := Completion(created, results);
    FindAfterReplace(jobs, id, update, other);
  }

  /** A failure leaves the length and every other run's job unchanged. */
  lemma FailIsolated<R>(jobs: seq<Job<R>>, id: string, message: string, other: string)
    requires other != id
    ensures |FailJobs(jobs, id, message)| == |jobs|
    ensures FindJob(FailJobs(jobs, id, message), other) == FindJob(jobs, other)
    ensures FindJob(jobs, other).Some? ==>
      FailJobs(jobs, id, message)[FindJob(jobs, other).value] == jobs[FindJob(jobs, other).value]
  {
    var update := Failure<R>(message);
    FindAfterReplace(jobs, id, update, other);
  }

  /** Progress values never go down. */
  predicate NonDecreasing(s: seq<nat>) {
    forall i, j :: 0 <= i < j < |s| ==> s[i] <= s[j]
  }
}
