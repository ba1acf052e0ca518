/** The collector's side of an ingest stream (internal/ingest/handler.go, internal/ingest/pipeline.go):
    one handler a stream, a bounded queue shared by all handlers, and publishers that drain it. */
module Collector {
  import opened Prelude
  import opened Sequences
  import opened ShipperModel

  /** What process finds in a batch: usable labels, which records are valid, whether the valid ones
      encode. */
  datatype Verdict = Verdict(labelsOk: bool, valid: nat -> bool, encodes: bool)

  /** How a publish ended. */
  datatype Result = Stored | Saturated | TooLarge | Unavailable

  /** What is published: the batch's records that `valid` holds of. */
  datatype Job = Job(batch: Batch, valid: nat -> bool, payload: seq<nat>)

  function JobOf(b: Batch, v: Verdict): Job {
    Job(b, v.valid, Where(b.records, v.valid))
  }

  /** The handler is between batches, or waits for the reply to its job. */
  datatype Handler = Idle | Awaits(job: nat)

  /** Jobs are shared: the queue, the publishers at work and the reply channels hold their numbers.
      `published` lists the jobs the broker has stored. */
  datatype Pipeline = Pipeline(
    jobs: map<nat, Job>,
    queue: seq<nat>,
    busy: seq<nat>,
    replies: map<nat, Result>,
    published: seq<nat>,
    next: nat,
    closing: bool)

  /** Buffer size and number of publishers. */
  datatype Bounds = Bounds(buffer: nat, workers: nat)

  const EmptyPipeline := Pipeline(map[], [], [], map[], [], 0, false)

  /** publishFailed, and the ack of a stored batch. */
  function CodeOf(r: Result): AckCode {
    match r
    case Stored => ACCEPTED
    case Saturated => OVERLOADED
    case TooLarge => INVALID
    case Unavailable => INTERNAL
  }

  /** process, as far as it gets before the queue: the ack that ends the batch, or none. */
  function Precheck(b: Batch, v: Verdict): Option<AckCode> {
    if !v.labelsOk then Some(INVALID)
    else if JobOf(b, v).payload == [] then Some(INVALID)
    else if !v.encodes then Some(INTERNAL)
    else None
  }

  /** submit, up to the wait: the ack of a refusal, or the number of the job that was queued. */
  datatype Submission = Refused(code: AckCode) | Queued(job: nat)

  function Submit(bounds: Bounds, p: Pipeline): Submission {
    if p.closing then Refused(INTERNAL)
    else if |p.queue| >= bounds.buffer then Refused(OVERLOADED)
    else Queued(p.next)
  }

  /** The payload holds exactly the records that are valid, in order. */
  ghost predicate Filtered(job: Job) {
    exists at :: Selects(job.batch.records, job.valid, at, job.payload)
  }

  lemma PayloadIsFiltered(b: Batch, v: Verdict)
    ensures Filtered(JobOf(b, v))
    ensures JobOf(b, v).payload != [] <==> exists i :: 0 <= i < |b.records| && v.valid(b.records[i])
  {
    var at := WhereSelects(b.records, v.valid);
    assert Selects(b.records, v.valid, at, JobOf(b, v).payload);
    if i :| 0 <= i < |b.records| && v.valid(b.records[i]) {
      assert !Misses(b.records, v.valid, at, i);
    }
    if at != [] {
      assert v.valid(b.records[at[0]]);
    }
  }

  /** What the agent is told at once, and why. A batch that could never be stored is refused for good:
      its labels are unusable, or none of its records is valid. Anything else is only refused for now: by
      a fault of this side, or because the queue is full. */
  lemma AnswerIff(bounds: Bounds, p: Pipeline, b: Batch, v: Verdict)
    ensures var hopeless := !v.labelsOk || forall i :: 0 <= i < |b.records| ==> !v.valid(b.records[i]);
            var answer := match Precheck(b, v) { case Some(code) => Refused(code) case None => Submit(bounds, p) };
            && (answer == Refused(INVALID) <==> hopeless)
            && (answer == Refused(INTERNAL) <==> !hopeless && (!v.encodes || p.closing))
            && (answer == Refused(OVERLOADED) <==> !hopeless && v.encodes && !p.closing && |p.queue| >= bounds.buffer)
            && answer != Refused(ACCEPTED)
    ensures forall r: Result ::
              && (CodeOf(r) == ACCEPTED <==> r == Stored) && (CodeOf(r) == INVALID <==> r == TooLarge)
              && (CodeOf(r) == OVERLOADED <==> r == Saturated)
  {
    PayloadIsFiltered(b, v);
  }

  /** The pipeline after a submission of this job. */
  function Enqueue(bounds: Bounds, p: Pipeline, job: Job): Pipeline {
    match Submit(bounds, p)
    case Refused(_) => p
    case Queued(n) => p.(jobs := p.jobs[n := job], queue := p.queue + [n], next := n + 1)
  }

  /** A publisher that is free takes the oldest job. */
  function Take(bounds: Bounds, p: Pipeline): Pipeline {
    if p.queue == [] || |p.busy| >= bounds.workers then p
    else p.(queue := p.queue[1..], busy := p.busy + [p.queue[0]])
  }

  /** The publisher's attempt ends: the broker may have stored the job, and the reply is put in the
      job's channel whether or not a handler still waits for it. */
  function Finish(p: Pipeline, i: nat, r: Result): Pipeline {
    if i >= |p.busy| then p
    else
      var n := p.busy[i];
      p.(busy := Without(p.busy, i), replies := p.replies[n := r],
         published := if r == Stored then p.published + [n] else p.published)
  }

  predicate Distinct(s: seq<nat>) {
    forall i, j :: 0 <= i < j < |s| ==> s[i] != s[j]
  }

  lemma WithoutDistinct(s: seq<nat>, i: nat)
    requires Distinct(s) && i < |s|
    ensures Distinct(Without(s, i)) && forall n :: n in Without(s, i) <==> n in s && n != s[i]
  {
    var r := Without(s, i);
    assert s == s[..i] + [s[i]] + s[i + 1..];
    forall n | n in s && n != s[i]
      ensures n in r
    {
    }
    forall k | 0 <= k < |r|
      ensures r[k] == s[if k < i then k else k + 1] && r[k] in s && r[k] != s[i]
    {
    }
  }

  lemma OneMoreDistinct(s: seq<nat>, n: nat)
    requires Distinct(s) && n !in s
    ensures Distinct(s + [n]) && forall m :: m in s + [n] <==> m in s || m == n
  {
  }

  /** A job is in exactly one of the queue, a publisher's hands and the answered ones; the stored ones
      are those answered so. */
  ghost predicate Kept(bounds: Bounds, p: Pipeline) {
    && |p.queue| <= bounds.buffer && |p.busy| <= bounds.workers
    && (forall n: nat :: n in p.jobs <==> n < p.next)
    && (forall n :: n in p.jobs <==> n in p.queue || n in p.busy || n in p.replies)
    && Distinct(p.queue) && Distinct(p.busy)
    && (forall n :: n in p.queue ==> n !in p.busy && n !in p.replies)
    && (forall n :: n in p.busy ==> n !in p.replies)
    && (forall n :: n in p.published <==> n in p.replies && p.replies[n] == Stored)
  }

  lemma EnqueueKeeps(bounds: Bounds, p: Pipeline, job: Job)
    requires Kept(bounds, p)
    ensures Kept(bounds, Enqueue(bounds, p, job))
  {
    if Submit(bounds, p).Queued? {
      assert p.next !in p.jobs;
      OneMoreDistinct(p.queue, p.next);
    }
  }

  lemma TakeKeeps(bounds: Bounds, p: Pipeline)
    requires Kept(bounds, p)
    ensures Kept(bounds, Take(bounds, p))
  {
    var r := Take(bounds, p);
    if r != p {
      WithoutDistinct(p.queue, 0);
      assert Without(p.queue, 0) == r.queue;
      assert p.queue[0] in p.queue;
      OneMoreDistinct(p.busy, p.queue[0]);
    }
  }

  lemma FinishKeeps(bounds: Bounds, p: Pipeline, i: nat, r: Result)
    requires Kept(bounds, p)
    ensures Kept(bounds, Finish(p, i, r))
  {
    if i < |p.busy| {
      var n, q := p.busy[i], Finish(p, i, r);
      assert n in p.busy;
      WithoutDistinct(p.busy, i);
      forall m
        ensures m in q.published <==> m in q.replies && q.replies[m] == Stored
      {
        assert m in p.published <==> m in p.replies && p.replies[m] == Stored;
      }
    }
  }
}
