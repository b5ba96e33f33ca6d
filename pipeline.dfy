/** Whole-pipeline facts: the gateway, the dispatcher and the worker acting on
    one shared store, as a sequence of atomic store operations. */
module Pipeline {
  import opened Wrappers
  import opened Text
  import opened Store
  import opened Ingestion
  import opened Worker
  import opened Proxy
  import opened Client

  /** The client reads back exactly the time text the worker wrote into the summary. */
  lemma TimeRoundTrip(elapsed: string, outputLen: nat)
    requires IsTimeText(elapsed)
    ensures ParseInferenceTime(Summary(elapsed, outputLen)) == Some(elapsed)
  {
    SummaryHead(elapsed, outputLen);
    TimeField(elapsed);
    CleanTime(elapsed);
  }

  /** The part of a summary before its first `|`. */
  lemma SummaryHead(elapsed: string, outputLen: nat)
    requires IsTimeText(elapsed)
    ensures Split(Summary(elapsed, outputLen), '|')[0] == "Inference Time: " + elapsed + "s "
  {
    assert forall k :: 0 <= k < |elapsed| ==> elapsed[k] != '|';
    SummaryFields(elapsed, outputLen);
  }

  /** The field after the first `:` of that part. */
  lemma TimeField(elapsed: string)
    requires IsTimeText(elapsed)
    ensures Split("Inference Time: " + elapsed + "s ", ':')[1] == " " + elapsed + "s "
  {
    var mid := " " + elapsed + "s ";
    assert "Inference Time: " + elapsed + "s " == "Inference Time" + [':'] + mid;
    assert forall k :: 0 <= k < |elapsed| ==> mid[k + 1] == elapsed[k];
    SplitJoined("Inference Time", ':', mid);
  }

  /** Stripping and dropping the `s` unit leaves the time text. */
  lemma CleanTime(elapsed: string)
    requires IsTimeText(elapsed)
    ensures RemoveAll(Strip(" " + elapsed + "s "), 's') == elapsed
  {
    var u := elapsed + "s";
    assert u[0] == elapsed[0];
    StripPadded(" ", u, " ");
    assert " " + u + " " == " " + elapsed + "s ";
    RemoveAllConcat(elapsed, "s", 's');
    assert forall k :: 0 <= k < |elapsed| ==> elapsed[k] != 's';
    assert RemoveAll("s", 's') == "";
    assert elapsed + "" == elapsed;
  }

  /** Jobs submitted one after another, first to last. */
  function SubmitAll(s: StoreState, jobs: seq<Job>): StoreState
    decreases |jobs|
  {
    if |jobs| == 0 then s else SubmitAll(AfterSubmit(s, jobs[0]), jobs[1..])
  }

  /** The jobs, most recent first. */
  function NewestFirst(jobs: seq<Job>): (r: seq<Job>)
    ensures |r| == |jobs|
  {
    seq(|jobs|, k requires 0 <= k < |jobs| => jobs[|jobs| - 1 - k])
  }

  function EncodeAll(jobs: seq<Job>): (entries: seq<string>)
    ensures |entries| == |jobs|
  {
    seq(|jobs|, k requires 0 <= k < |jobs| => Encode(jobs[k]))
  }

  /** Because every submission pushes onto the head, the queue holds the newest job
      first; the results are not touched. */
  lemma {:induction false} SubmitAllStacks(s: StoreState, jobs: seq<Job>)
    ensures SubmitAll(s, jobs).queue == EncodeAll(NewestFirst(jobs)) + s.queue
    ensures SubmitAll(s, jobs).results == s.results
    decreases |jobs|
  {
    if |jobs| > 0 {
      var rest := jobs[1..];
      SubmitAllStacks(AfterSubmit(s, jobs[0]), rest);
      assert EncodeAll(NewestFirst(jobs)) == EncodeAll(NewestFirst(rest)) + [Encode(jobs[0])];
    }
  }

  /** Draining a queue filled by submissions alone forwards every job, the newest
      first: the queue behaves as a stack (LIFO). */
  lemma DispatchOrderIsNewestFirst(s: StoreState, jobs: seq<Job>)
    requires s.queue == []
    requires forall k :: 0 <= k < |jobs| ==> IsUuidText(jobs[k].id)
    ensures ClassifyAll(SubmitAll(s, jobs).queue)
         == seq(|jobs|, k requires 0 <= k < |jobs| => Forwarded(jobs[|jobs| - 1 - k]))
  {
    SubmitAllStacks(s, jobs);
    var entries := EncodeAll(NewestFirst(jobs));
    assert SubmitAll(s, jobs).queue == entries;
    forall k | 0 <= k < |jobs|
      ensures Classify(entries[k]) == Forwarded(jobs[|jobs| - 1 - k])
    {
      assert entries[k] == Encode(jobs[|jobs| - 1 - k]);
      ClassifySubmitted(jobs[|jobs| - 1 - k]);
    }
  }

  /** The entry of a submitted job is forwarded as that job. */
  lemma ClassifySubmitted(job: Job)
    requires IsUuidText(job.id)
    ensures Classify(Encode(job)) == Forwarded(job)
  {
    UuidHasNoDelimiter(job.id);
    DecodeEncode(job);
  }

  /** Dispatching right after a submission handles that job: a failed forward leaves
      the store as before the submission, a delivered one adds the worker's write. */
  lemma StepAfterSubmit(s: StoreState, job: Job, forward: ForwardOutcome, outputTokens: int)
    requires IsUuidText(job.id)
    ensures AfterStep(AfterSubmit(s, job), forward, outputTokens)
         == match forward
            case Unreachable(_) => s
            case Delivered(backend, elapsed) => AfterInvoke(s, job, backend, elapsed, outputTokens)
  {
    ClassifySubmitted(job);
    assert AfterSubmit(s, job).queue[1..] == s.queue;
  }

  /** Submit A, then B: the next iteration forwards B, and the one after it A. */
  lemma NewerJobFirst(s: StoreState, a: Job, b: Job, forward: ForwardOutcome, outputTokens: int)
    requires IsUuidText(a.id) && IsUuidText(b.id)
    ensures var s2 := AfterSubmit(AfterSubmit(s, a), b);
      Classify(s2.queue[0]) == Forwarded(b)
      && AfterStep(s2, forward, outputTokens).queue == [Encode(a)] + s.queue
      && Classify(AfterStep(s2, forward, outputTokens).queue[0]) == Forwarded(a)
  {
    var s2 := AfterSubmit(AfterSubmit(s, a), b);
    ClassifySubmitted(b);
    assert s2.queue[1..] == [Encode(a)] + s.queue;
    ClassifySubmitted(a);
  }

  /** Submit, one iteration whose forward reaches the worker, then look up: the rest
      of the queue is as before; when the backend's content is a string or the call
      failed, the job is completed with the summary of that outcome; when the content
      is null, the worker writes nothing and the store is as before the submission. */
  lemma SubmitDispatchComplete(s: StoreState, job: Job, backend: ChatRequest -> BackendOutcome,
                               elapsed: string, outputTokens: int)
    requires IsUuidText(job.id)
    ensures var s2 := AfterStep(AfterSubmit(s, job), Delivered(backend, elapsed), outputTokens);
      var text := GeneratedText(backend(BuildRequest(job.prompt, outputTokens)));
      s2.queue == s.queue
      && (text.Some? ==> Lookup(s2.results, job.id) == Completed(Summary(elapsed, |text.value|)))
      && (text.None? ==> s2 == s)
  {
    StepAfterSubmit(s, job, Delivered(backend, elapsed), outputTokens);
    var text := GeneratedText(backend(BuildRequest(job.prompt, outputTokens)));
    if text.Some? {
      SummaryNotError(elapsed, |text.value|);
    }
  }

  /** A backend reply with null content is lost like a failed forward: `invoke`
      crashes on `len(None)` before its write, the dispatcher ignores the 500 reply,
      and the job, already popped, stays pending. */
  lemma NullContentLosesJob(s: StoreState, job: Job, backend: ChatRequest -> BackendOutcome,
                            elapsed: string, outputTokens: int)
    requires IsUuidText(job.id)
    requires backend(BuildRequest(job.prompt, outputTokens)).NullContent?
    ensures AfterStep(AfterSubmit(s, job), Delivered(backend, elapsed), outputTokens) == s
    ensures job.id !in s.results ==>
      Lookup(AfterStep(AfterSubmit(s, job), Delivered(backend, elapsed), outputTokens).results, job.id)
        == Pending
  {
    StepAfterSubmit(s, job, Delivered(backend, elapsed), outputTokens);
  }

  /** The worker's write touches no other job's lookup. */
  lemma InvokeKeepsOtherLookups(s: StoreState, job: Job, backend: ChatRequest -> BackendOutcome,
                                elapsed: string, outputTokens: int, other: string)
    requires other != job.id
    ensures Lookup(AfterInvoke(s, job, backend, elapsed, outputTokens).results, other)
         == Lookup(s.results, other)
  {
  }

  /** What the client reports for a completed job: the time the worker measured,
      never an "Error:" line, on both the success and the failure path. A null
      content completes nothing (`NullContentLosesJob`). */
  lemma ClientReadsWorkerTime(s: StoreState, job: Job, backend: ChatRequest -> BackendOutcome,
                              elapsed: string, outputTokens: int)
    requires IsUuidText(job.id) && IsTimeText(elapsed)
    requires !backend(BuildRequest(job.prompt, outputTokens)).NullContent?
    ensures var s2 := AfterStep(AfterSubmit(s, job), Delivered(backend, elapsed), outputTokens);
      Lookup(s2.results, job.id).Completed?
      && ParseInferenceTime(Lookup(s2.results, job.id).result) == Some(elapsed)
      && !StartsWithError(Lookup(s2.results, job.id).result)
  {
    SubmitDispatchComplete(s, job, backend, elapsed, outputTokens);
    var text := GeneratedText(backend(BuildRequest(job.prompt, outputTokens))).value;
    SummaryNotError(elapsed, |text|);
    TimeRoundTrip(elapsed, |text|);
  }

  /** A forward that fails is swallowed: the store ends exactly as if the job had never
      been submitted, so its lookup stays pending. */
  lemma FailedForwardLosesJob(s: StoreState, job: Job, error: string, outputTokens: int)
    requires IsUuidText(job.id)
    ensures AfterStep(AfterSubmit(s, job), Unreachable(error), outputTokens) == s
    ensures job.id !in s.results ==>
      Lookup(AfterStep(AfterSubmit(s, job), Unreachable(error), outputTokens).results, job.id) == Pending
  {
    StepAfterSubmit(s, job, Unreachable(error), outputTokens);
  }

  /** An entry without a delimiter is popped and dropped, whatever the forward would do. */
  lemma MalformedEntryDropped(s: StoreState, entry: string, forward: ForwardOutcome, outputTokens: int)
    requires Delimiter !in entry
    ensures AfterStep(StoreState([entry] + s.queue, s.results), forward, outputTokens) == s
  {
  }

  /** One atomic store operation: a submission, or an iteration of the dispatcher
      loop, which waits while the queue is empty. */
  datatype Event = Submit(job: Job) | Step(forward: ForwardOutcome)

  function Apply(s: StoreState, e: Event, outputTokens: int): StoreState
  {
    match e
    case Submit(job) => AfterSubmit(s, job)
    case Step(forward) => if s.queue == [] then s else AfterStep(s, forward, outputTokens)
  }

  function Replay(s: StoreState, events: seq<Event>, outputTokens: int): StoreState
    decreases |events|
  {
    if |events| == 0 then s else Replay(Apply(s, events[0], outputTokens), events[1..], outputTokens)
  }

  /** Once a lookup reports completed, it does so after any further interleaving of
      submissions and dispatches: results are only ever written, never cleared. */
  lemma {:induction false} CompletedStaysCompleted(s: StoreState, events: seq<Event>,
                                                   outputTokens: int, id: string)
    requires Lookup(s.results, id).Completed?
    ensures Lookup(Replay(s, events, outputTokens).results, id).Completed?
    decreases |events|
  {
    if |events| > 0 {
      var s1 := Apply(s, events[0], outputTokens);
      assert Lookup(s1.results, id).Completed? by {
        if events[0].Step? && s.queue != [] {
          match Classify(s.queue[0])
          case Dropped(_) =>
          case Forwarded(job) =>
            match events[0].forward
            case Unreachable(_) =>
            case Delivered(backend, elapsed) =>
              match GeneratedText(backend(BuildRequest(job.prompt, outputTokens)))
              case None =>
              case Some(text) => SummaryNotError(elapsed, |text|);
        }
      }
      CompletedStaysCompleted(s1, events[1..], outputTokens, id);
    }
  }

  /** The events of a dispatcher run: one loop iteration per forward outcome. */
  function Steps(forwards: seq<ForwardOutcome>): (events: seq<Event>)
    ensures |events| == |forwards|
    ensures forall k :: 0 <= k < |forwards| ==> events[k] == Step(forwards[k])
  {
    seq(|forwards|, k requires 0 <= k < |forwards| => Step(forwards[k]))
  }

  /** Iterations on an empty queue wait and change nothing. */
  lemma {:induction false} IdleSteps(s: StoreState, events: seq<Event>, outputTokens: int)
    requires s.queue == []
    requires forall k :: 0 <= k < |events| ==> events[k].Step?
    ensures Replay(s, events, outputTokens) == s
    decreases |events|
  {
    if |events| > 0 {
      IdleSteps(s, events[1..], outputTokens);
    }
  }

  /** What `Proxy.Serve` leaves behind is the replay of its iterations as events. */
  lemma {:induction false} AfterRunIsReplay(s: StoreState, forwards: seq<ForwardOutcome>,
                                            outputTokens: int)
    ensures AfterRun(s, forwards, outputTokens) == Replay(s, Steps(forwards), outputTokens)
    decreases |forwards|
  {
    if |forwards| > 0 {
      if s.queue == [] {
        IdleSteps(s, Steps(forwards), outputTokens);
      } else {
        AfterRunIsReplay(AfterStep(s, forwards[0], outputTokens), forwards[1..], outputTokens);
        assert Steps(forwards)[1..] == Steps(forwards[1..]);
      }
    }
  }

  /** A run of the dispatcher loop never turns a completed job back to pending. */
  lemma ServeKeepsCompleted(s: StoreState, forwards: seq<ForwardOutcome>, outputTokens: int,
                            id: string)
    requires Lookup(s.results, id).Completed?
    ensures Lookup(AfterRun(s, forwards, outputTokens).results, id).Completed?
  {
    AfterRunIsReplay(s, forwards, outputTokens);
    CompletedStaysCompleted(s, Steps(forwards), outputTokens, id);
  }
}
