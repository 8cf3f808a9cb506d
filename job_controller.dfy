/**
 * The job service: the four request handlers over the `Job` collection.
 * The collection is a map from id to document with a counter that issues
 * fresh ids; the clock and any failure the store raises (a lost connection,
 * an id that does not cast) are parameters of each handler.
 */
module JobController {
  import opened Wrappers
  import opened JobModel

  /** Why a handler answered with an error body. */
  datatype Failure = ValidationFailed(errors: seq<FieldError>) | StoreFailed(message: string)

  /** The JSON body of a response. */
  datatype Payload =
    | OneJob(job: Job)
    | JobList(jobs: seq<Job>)
    | NullJob
    | Message(text: string)
    | ErrorMessage(failure: Failure)

  /** An HTTP status code and its body. */
  datatype Response = Response(code: nat, payload: Payload)

  const JobDeleted: string := "Job deleted"

  /** Ordered by `createdAt`, newest first. */
  predicate NewestFirst(s: seq<Job>) {
    forall i, j :: 0 <= i < j < |s| ==> s[i].createdAt >= s[j].createdAt
  }

  function InsertNewestFirst(x: Job, s: seq<Job>): (r: seq<Job>)
    requires NewestFirst(s)
    ensures NewestFirst(r)
    ensures multiset(r) == multiset(s) + multiset{x}
    ensures forall y :: y in r ==> y == x || y in s
  {
    if s == [] || x.createdAt >= s[0].createdAt then [x] + s
    else
      var rest := InsertNewestFirst(x, s[1..]);
      assert forall y :: y in rest ==> y.createdAt <= s[0].createdAt;
      assert s == [s[0]] + s[1..];
      [s[0]] + rest
  }

  /** The store's `sort({ createdAt: -1 })`: a permutation, newest first. */
  function SortNewestFirst(s: seq<Job>): (r: seq<Job>)
    ensures NewestFirst(r)
    ensures multiset(r) == multiset(s)
  {
    if s == [] then []
    else
      assert s == [s[0]] + s[1..];
      InsertNewestFirst(s[0], SortNewestFirst(s[1..]))
  }

  /** Every document is filed under its own id. */
  predicate IdsMatch(jobs: map<JobId, Job>) {
    forall k :: k in jobs ==> jobs[k].id == k
  }

  ghost function StoredBelow(jobs: map<JobId, Job>, n: nat): set<Job> {
    set k | k in jobs && k < n :: jobs[k]
  }

  /** A collection scan in natural (insertion, hence id) order. */
  function Scan(jobs: map<JobId, Job>, n: nat): (r: seq<Job>)
    requires IdsMatch(jobs)
    ensures multiset(r) == multiset(StoredBelow(jobs, n))
  {
    if n == 0 then
      assert StoredBelow(jobs, 0) == {};
      []
    else
      var prev := Scan(jobs, n - 1);
      if n - 1 in jobs then
        assert StoredBelow(jobs, n) == StoredBelow(jobs, n - 1) + {jobs[n - 1]};
        assert jobs[n - 1] !in StoredBelow(jobs, n - 1);
        prev + [jobs[n - 1]]
      else
        assert StoredBelow(jobs, n) == StoredBelow(jobs, n - 1);
        prev
  }

  /** `createJob` destructures only four keys of the body: `dateApplied` is dropped. */
  function Whitelist(body: Fields): (r: Fields)
    ensures forall id, now :: NewJob(r, id, now).Ok? <==> NewJob(body, id, now).Ok?
    ensures forall id, now :: NewJob(r, id, now).Ok? ==> NewJob(r, id, now).value.dateApplied == now
  {
    body.(dateApplied := None)
  }

  /**
   * `findByIdAndUpdate` with the body as `$set`: supplied paths overwrite,
   * `_id` and `createdAt` stay, `updatedAt` is refreshed. No validator runs.
   */
  function Patch(j: Job, body: Fields, now: Time): (r: Job)
    ensures r.id == j.id && r.createdAt == j.createdAt && r.updatedAt == now
  {
    j.(company := body.company.GetOr(j.company),
       position := body.position.GetOr(j.position),
       status := body.status.GetOr(j.status),
       link := body.link.GetOr(j.link),
       dateApplied := body.dateApplied.GetOr(j.dateApplied),
       updatedAt := now)
  }

  /** An update may store what creation would reject: the enum is not re-checked. */
  lemma PatchSkipsValidation(j: Job, now: Time)
    requires Conforming(j)
    ensures !Conforming(Patch(j, Fields(None, None, Some("Pending"), None, None), now))
    ensures !Conforming(Patch(j, Fields(Some(""), None, None, None, None), now))
  {
  }

  /** Sending a whole document back as the update body stores exactly that document. */
  lemma WholeDocumentUpdate(stored: Job, sent: Job, now: Time)
    requires sent.id == stored.id
    ensures Patch(stored, FieldsOf(sent), now) == sent.(createdAt := stored.createdAt, updatedAt := now)
  {
  }

  /** In a newest-first listing of a store, a document strictly newer than every other one leads. */
  lemma NewestLeads(listed: seq<Job>, jobs: map<JobId, Job>, x: Job)
    requires NewestFirst(listed) && multiset(listed) == multiset(jobs.Values)
    requires x in jobs.Values
    requires forall k :: k in jobs && jobs[k] != x ==> jobs[k].createdAt < x.createdAt
    ensures listed[0] == x
  {
    assert x in multiset(listed);
    var i :| 0 <= i < |listed| && listed[i] == x;
    assert listed[0] in multiset(jobs.Values);
    if i != 0 {
      assert listed[0].createdAt >= listed[i].createdAt;
    }
  }

  class JobService {
    var jobs: map<JobId, Job>
    var nextId: JobId

    ghost predicate Valid()
      reads this
    {
      IdsMatch(jobs) && forall k :: k in jobs ==> k < nextId
    }

    /** Every stored document satisfies the schema. */
    ghost predicate AllConforming()
      reads this
    {
      forall k :: k in jobs ==> Conforming(jobs[k])
    }

    constructor ()
      ensures Valid() && AllConforming()
      ensures jobs == map[] && nextId == 0
    {
      jobs := map[];
      nextId := 0;
    }

    /** `Job.find().sort({ createdAt: -1 })`: each stored document once, newest first. */
    function Listing(): (r: seq<Job>)
      reads this
      requires Valid()
      ensures NewestFirst(r)
      ensures multiset(r) == multiset(jobs.Values)
    {
      assert StoredBelow(jobs, nextId) == jobs.Values;
      SortNewestFirst(Scan(jobs, nextId))
    }

    method GetAllJobs(fault: Option<string>) returns (res: Response)
      requires Valid()
      ensures fault.Some? ==> res == Response(500, ErrorMessage(StoreFailed(fault.value)))
      ensures fault.None? ==> res.code == 200 && res.payload.JobList?
      ensures fault.None? ==> NewestFirst(res.payload.jobs) && multiset(res.payload.jobs) == multiset(jobs.Values)
    {
      if fault.Some? {
        res := Response(500, ErrorMessage(StoreFailed(fault.value)));
      } else {
        res := Response(200, JobList(Listing()));
      }
    }

    /**
     * `createJob`: only `company`, `position`, `status` and `link` reach
     * `Job.create`. Success answers 201 with the new document under a fresh
     * id; a validation or store failure answers 400 and stores nothing.
     */
    method CreateJob(body: Fields, now: Time, fault: Option<string>) returns (res: Response)
      requires Valid()
      modifies this
      ensures Valid()
      ensures old(AllConforming()) ==> AllConforming()
      ensures res.code == 201 || res.code == 400
      ensures res.code == 201 <==> fault.None? && NewJob(Whitelist(body), old(nextId), now).Ok?
      ensures res.code == 201 ==>
        && res.payload == OneJob(NewJob(Whitelist(body), old(nextId), now).value)
        && res.payload.job.id !in old(jobs)
        && jobs == old(jobs)[res.payload.job.id := res.payload.job]
        && res.payload.job.dateApplied == now
      ensures res.code == 201 && (forall k :: k in old(jobs) ==> old(jobs)[k].createdAt < now) ==>
        Listing()[0] == res.payload.job
      ensures res.code == 201 ==> nextId == old(nextId) + 1
      ensures res.code == 400 ==> jobs == old(jobs) && nextId == old(nextId)
      ensures res.code == 400 && NewJob(Whitelist(body), old(nextId), now).Err? ==>
        res.payload == ErrorMessage(ValidationFailed(NewJob(Whitelist(body), old(nextId), now).error))
      ensures res.code == 400 && NewJob(Whitelist(body), old(nextId), now).Ok? ==>
        res.payload == ErrorMessage(StoreFailed(fault.value))
    {
      var created := NewJob(Whitelist(body), nextId, now);
      if created.Err? {
        res := Response(400, ErrorMessage(ValidationFailed(created.error)));
        return;
      }
      if fault.Some? {
        res := Response(400, ErrorMessage(StoreFailed(fault.value)));
        return;
      }
      var job := created.value;
      jobs := jobs[nextId := job];
      nextId := nextId + 1;
      res := Response(201, OneJob(job));
      if forall k :: k in old(jobs) ==> old(jobs)[k].createdAt < now {
        assert jobs[old(nextId)] == job;
        NewestLeads(Listing(), jobs, job);
      }
    }

    /**
     * `updateJob`: the whole body is applied to the document with that id and
     * the updated document is answered; an unknown id answers `null`.
     */
    method UpdateJob(id: JobId, body: Fields, now: Time, fault: Option<string>) returns (res: Response)
      requires Valid()
      modifies this
      ensures Valid() && nextId == old(nextId)
      ensures fault.Some? ==> res == Response(400, ErrorMessage(StoreFailed(fault.value))) && jobs == old(jobs)
      ensures fault.None? && id !in old(jobs) ==> res == Response(200, NullJob) && jobs == old(jobs)
      ensures fault.None? && id in old(jobs) ==>
        && res == Response(200, OneJob(Patch(old(jobs)[id], body, now)))
        && jobs == old(jobs)[id := Patch(old(jobs)[id], body, now)]
    {
      if fault.Some? {
        res := Response(400, ErrorMessage(StoreFailed(fault.value)));
      } else if id !in jobs {
        res := Response(200, NullJob);
      } else {
        var updated := Patch(jobs[id], body, now);
        jobs := jobs[id := updated];
        res := Response(200, OneJob(updated));
      }
    }

    /**
     * `deleteJob`: removes the document if there is one and answers the same
     * message either way; only a store failure answers 400.
     */
    method DeleteJob(id: JobId, fault: Option<string>) returns (res: Response)
      requires Valid()
      modifies this
      ensures Valid() && nextId == old(nextId)
      ensures old(AllConforming()) ==> AllConforming()
      ensures fault.Some? ==> res == Response(400, ErrorMessage(StoreFailed(fault.value))) && jobs == old(jobs)
      ensures fault.None? ==> res == Response(200, Message(JobDeleted)) && jobs == old(jobs) - {id}
    {
      if fault.Some? {
        res := Response(400, ErrorMessage(StoreFailed(fault.value)));
      } else {
        jobs := jobs - {id};
        res := Response(200, Message(JobDeleted));
      }
    }
  }

  /** Deleting the same id twice: both calls succeed alike, the second changes nothing. */
  method DeleteTwice(service: JobService, id: JobId) returns (first: Response, second: Response)
    requires service.Valid()
    modifies service
    ensures first == second == Response(200, Message(JobDeleted))
    ensures service.jobs == old(service.jobs) - {id}
    ensures service.Valid() && service.nextId == old(service.nextId)
  {
    first := service.DeleteJob(id, None);
    second := service.DeleteJob(id, None);
  }
}
