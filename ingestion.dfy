/** The submission/result gateway: `submit_job` and `get_result`. */
module Ingestion {
  import opened Store

  /** The character joining the job id and the prompt in a queue entry. */
  const Delimiter: char := '|'

  /** The text of `uuid.uuid4()`: 36 lower-case hexadecimal digits and hyphens. */
  predicate IsUuidText(id: string)
  {
    |id| == 36 && forall k :: 0 <= k < |id| ==> id[k] in "0123456789abcdef-"
  }

  /** A generated job id never contains the delimiter. */
  lemma UuidHasNoDelimiter(id: string)
    requires IsUuidText(id)
    ensures Delimiter !in id
  {
  }

  /** The queue entry for a job: `f"{job_id}|{prompt}"`, with the prompt left as is. */
  function Encode(job: Job): string
  {
    job.id + [Delimiter] + job.prompt
  }

  /** The store after `submit_job`: the entry is LPUSHed onto the head of `job_queue`. */
  function AfterSubmit(s: StoreState, job: Job): StoreState
  {
    StoreState([Encode(job)] + s.queue, s.results)
  }

  /** `submit_job`: `id` stands for the freshly generated uuid text. */
  method SubmitJob(store: JobStore, id: string, prompt: string) returns (jobId: string)
    requires IsUuidText(id)
    modifies store
    ensures jobId == id
    ensures store.State() == AfterSubmit(old(store.State()), Job(id, prompt))
  {
    jobId := id;
    store.queue := [Encode(Job(jobId, prompt))] + store.queue;
  }

  /** The answer of `get_result`. */
  datatype Status = Pending | Completed(result: string)

  /** `get_result`: a present, non-empty value is `completed`; a missing key and an
      empty value (both falsy in Python) are `pending`. */
  function Lookup(results: map<string, string>, id: string): (st: Status)
    ensures st.Completed? <==> id in results && results[id] != ""
    ensures st.Completed? ==> st.result == results[id]
  {
    if id in results && results[id] != "" then Completed(results[id]) else Pending
  }

  /** The endpoint itself: it only reads the store. */
  method GetResult(store: JobStore, id: string) returns (st: Status)
    ensures st == Lookup(store.results, id)
  {
    st := Lookup(store.results, id);
  }

  /** Writing a non-empty value under `id` makes `id` completed with that value and
      leaves every other lookup as it was. */
  lemma LookupAfterWrite(results: map<string, string>, id: string, value: string, other: string)
    requires value != ""
    ensures Lookup(results[id := value], id) == Completed(value)
    ensures other != id ==> Lookup(results[id := value], other) == Lookup(results, other)
  {
  }

  /** Submitting leaves every lookup unchanged: a new job is pending until written. */
  lemma SubmitKeepsLookups(s: StoreState, job: Job, id: string)
    ensures Lookup(AfterSubmit(s, job).results, id) == Lookup(s.results, id)
  {
  }
}
