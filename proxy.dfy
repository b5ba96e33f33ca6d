/** The dispatcher: an endless loop that BLPOPs one entry from the head of
    `job_queue`, splits it at the first `|`, and forwards the job to the worker. */
module Proxy {
  import opened Wrappers
  import opened Text
  import opened Store
  import opened Ingestion
  import opened Worker

  /** `job_id, prompt = job_data.split("|", 1)`: the unpacking raises `ValueError`
      (here `None`) when there is no delimiter. */
  function Decode(entry: string): (job: Option<Job>)
    ensures job.Some? <==> Delimiter in entry
    ensures job.Some? ==> Delimiter !in job.value.id && Encode(job.value) == entry
  {
    var parts := SplitOnce(entry, Delimiter);
    if |parts| == 2 then Some(Job(parts[0], parts[1])) else None
  }

  /** Decoding undoes encoding when the id has no delimiter, whatever the prompt holds. */
  lemma DecodeEncode(job: Job)
    requires Delimiter !in job.id
    ensures Decode(Encode(job)) == Some(job)
  {
    IndexOfJoined(job.id, Delimiter, job.prompt);
    var e := Encode(job);
    assert e[..|job.id|] == job.id;
    assert e[|job.id| + 1..] == job.prompt;
  }

  /** An entry that starts with the delimiter has an empty id and is still a job. */
  lemma DecodeLeadingDelimiter(prompt: string)
    ensures Decode([Delimiter] + prompt) == Some(Job("", prompt))
  {
    DecodeEncode(Job("", prompt));
    assert Encode(Job("", prompt)) == [Delimiter] + prompt;
  }

  /** What one loop iteration does with the entry it popped. */
  datatype Dispatched = Dropped(entry: string) | Forwarded(payload: Job)

  function Classify(entry: string): Dispatched
  {
    match Decode(entry)
    case None => Dropped(entry)
    case Some(job) => Forwarded(job)
  }

  /** How the synchronous `requests.post` to the worker goes: the worker runs
      `invoke` against this backend, or the post raises before reaching it. */
  datatype ForwardOutcome =
    | Delivered(backend: ChatRequest -> BackendOutcome, elapsed: string)
    | Unreachable(error: string)

  /** The store after one iteration of the loop. The popped entry is gone in every
      case: a malformed entry and a failed forward are dropped, not requeued. */
  function AfterStep(s: StoreState, forward: ForwardOutcome, outputTokens: int): StoreState
    requires s.queue != []
  {
    var popped := StoreState(s.queue[1..], s.results);
    match Classify(s.queue[0])
    case Dropped(_) => popped
    case Forwarded(job) =>
      match forward
      case Unreachable(_) => popped
      case Delivered(backend, elapsed) => AfterInvoke(popped, job, backend, elapsed, outputTokens)
  }

  /** One iteration of `while True`; BLPOP with `timeout=0` blocks until the queue
      has an entry, so the iteration starts only on a non-empty queue. */
  method DispatchStep(store: JobStore, forward: ForwardOutcome, outputTokens: int)
    returns (dispatched: Dispatched)
    requires store.queue != []
    modifies store
    ensures dispatched == Classify(old(store.queue[0]))
    ensures store.queue == old(store.queue)[1..]
    ensures store.State() == AfterStep(old(store.State()), forward, outputTokens)
  {
    var jobData := store.queue[0];
    store.queue := store.queue[1..];
    match Decode(jobData) {
      case None =>
        dispatched := Dropped(jobData);
      case Some(job) =>
        dispatched := Forwarded(job);
        match forward {
          case Delivered(backend, elapsed) =>
            var _ := Invoke(store, job, backend, elapsed, outputTokens);
          case Unreachable(_) =>
        }
    }
  }

  /** The store after running the loop with one forward outcome per iteration,
      until the outcomes run out or the queue is empty (where BLPOP would block). */
  function AfterRun(s: StoreState, forwards: seq<ForwardOutcome>, outputTokens: int): StoreState
    decreases |forwards|
  {
    if |forwards| == 0 || |s.queue| == 0 then s
    else AfterRun(AfterStep(s, forwards[0], outputTokens), forwards[1..], outputTokens)
  }

  /** One more iteration of the loop is one more step of `AfterRun`. */
  lemma AfterRunUnfold(s: StoreState, forwards: seq<ForwardOutcome>, i: nat, outputTokens: int)
    requires i < |forwards| && s.queue != []
    ensures AfterRun(s, forwards[i..], outputTokens)
         == AfterRun(AfterStep(s, forwards[i], outputTokens), forwards[i + 1..], outputTokens)
  {
    assert forwards[i..][1..] == forwards[i + 1..];
  }

  function ClassifyAll(entries: seq<string>): (log: seq<Dispatched>)
    ensures |log| == |entries|
    ensures forall k :: 0 <= k < |entries| ==> log[k] == Classify(entries[k])
  {
    seq(|entries|, k requires 0 <= k < |entries| => Classify(entries[k]))
  }

  /** Classifying one more entry of a prefix adds its classification at the end. */
  lemma ClassifyAllExtend(entries: seq<string>, i: nat)
    requires i < |entries|
    ensures ClassifyAll(entries[..i + 1]) == ClassifyAll(entries[..i]) + [Classify(entries[i])]
  {
    assert entries[..i + 1] == entries[..i] + [entries[i]];
  }

  /** The dispatcher loop, run for at most `|forwards|` iterations. It handles the
      queue's entries head first, one at a time, and leaves the rest. */
  method Serve(store: JobStore, forwards: seq<ForwardOutcome>, outputTokens: int)
    returns (log: seq<Dispatched>)
    modifies store
    ensures var n := Min(|forwards|, |old(store.queue)|);
      log == ClassifyAll(old(store.queue)[..n]) && store.queue == old(store.queue)[n..]
    ensures store.State() == AfterRun(old(store.State()), forwards, outputTokens)
  {
    var i := 0;
    log := [];
    while i < |forwards| && store.queue != []
      invariant 0 <= i <= |forwards| && i <= |old(store.queue)|
      invariant store.queue == old(store.queue)[i..]
      invariant log == ClassifyAll(old(store.queue)[..i])
      invariant AfterRun(store.State(), forwards[i..], outputTokens)
             == AfterRun(old(store.State()), forwards, outputTokens)
    {
      ghost var before := store.State();
      var dispatched := DispatchStep(store, forwards[i], outputTokens);
      AfterRunUnfold(before, forwards, i, outputTokens);
      ClassifyAllExtend(old(store.queue), i);
      log := log + [dispatched];
      i := i + 1;
    }
  }
}
