# Job pipeline around a shared Redis store — Dafny model

This project models the job pipeline of a small inference benchmark. It has four parts:

- **Gateway** (`ingestion_server.py`). `submit_job` generates a uuid job id and LPUSHes
  `"<id>|<prompt>"` onto the Redis list `job_queue`. `get_result` reports a job as
  `pending` or `completed`.
- **Dispatcher** (`proxy.py`). An endless loop BLPOPs one entry from the head of
  `job_queue` and splits it at the first `|`. A malformed entry is dropped. A
  well-formed job is posted to the worker synchronously. A failed post is swallowed.
- **Worker** (`fastapi_server.py`). `invoke` builds a chat request and calls the
  inference backend. When the reply's content is a string, and when the call fails,
  it stores one summary line, `Inference Time: <t>s | Output Length: <n> chars`,
  under the job id. When the reply's content is JSON `null`, `len(None)` raises
  after the try and nothing is stored.
- **Benchmark client** (`test_client.py`). Its pure string work is modelled: the
  page count of the test document, cutting each page into 100-character lines, and
  reading the inference time back out of a completed result.

Redis is modelled in memory. `Store.JobStore` is a class with a `queue: seq<string>`
field (index 0 is the list's head) and a `results: map<string, string>` field. Its
`State()` is a `StoreState` value. Each store-changing method (`SubmitJob`,
`DispatchStep`, `Invoke`, `Serve`) ensures that its new state equals a specification
function of the old state (`AfterSubmit`, `AfterStep`, `AfterInvoke`, `AfterRun`). The
whole-pipeline lemmas in `Pipeline` are stated on those functions.

The Python string operations the code relies on are modelled in `Text`:
`split(sep)`, `split(sep, 1)`, `strip()`, `replace(c, "")`, `str(n)` and `s * n`.

Modules: `Wrappers` (Option), `Text`, `Store`, `Ingestion`, `Worker`, `Proxy`,
`Client`, `Pipeline`. There is one file per module.

## Behaviour that may be unexpected (the model follows the code)

- **The queue is a stack.** Both LPUSH (ingestion_server.py:16) and BLPOP
  (proxy.py:13) use the head of the list. Of several waiting jobs, the newest is
  dispatched first. See `Pipeline.DispatchOrderIsNewestFirst` and
  `Pipeline.NewerJobFirst`.
- **`|` in the prompt is not replaced.** The entry is built as is
  (ingestion_server.py:16). The round trip still holds: a uuid has no `|`, and decoding
  splits only at the first one (`Proxy.DecodeEncode`).
- **Failure summaries are not `Error:`-prefixed.** A failed backend call sets the
  generated text to `"Error: " + message`. Only that text's length is stored, in the
  same summary shape (fastapi_server.py:60,65-66). See `Worker.SummaryNotError`.
- **A null content loses the job.** The chat API allows `content: null` in a
  successful reply. `generated_text` is then `None`, `len` raises `TypeError` outside
  the try (fastapi_server.py:55,65), the write never happens and the worker answers
  500. The dispatcher's post does not raise on a 500 (proxy.py:23), and the entry is
  already popped, so the job stays pending forever. See `Pipeline.NullContentLosesJob`.
- **An empty stored value reads as pending** (ingestion_server.py:22).
- **No `min_tokens` is sent**, and the request has no timeout.

## Model

| member | source | states |
|---|---|---|
| `Ingestion.SubmitJob` | ingestion_server.py:12-17 | returns the id it was given; the store afterwards is `AfterSubmit`: one entry `id + "\|" + prompt` pushed at the head, rest of the queue and all results unchanged |
| `Ingestion.UuidHasNoDelimiter` | ingestion_server.py:14 | uuid4 text never contains the delimiter `\|` |
| `Ingestion.Lookup` | ingestion_server.py:19-24 | `completed` with the stored value exactly when the key is present with a non-empty value; `pending` for a missing key or an empty value |
| `Ingestion.GetResult` | ingestion_server.py:19-24 | answers `Lookup` of the current results and changes nothing, so repeated calls agree |
| `Ingestion.LookupAfterWrite` | ingestion_server.py:21-23 | after a non-empty write under an id, that id is completed with that value and every other lookup is unchanged |
| `Ingestion.SubmitKeepsLookups` | ingestion_server.py:16 | submitting a job changes no lookup |
| `Proxy.Decode` | proxy.py:17-28 | an entry decodes exactly when it contains `\|`; the id holds no `\|`, and re-encoding the decoded job gives back the entry |
| `Proxy.DecodeEncode` | proxy.py:17 | decoding the entry of a job whose id has no `\|` gives back that job, whatever `\|` the prompt contains |
| `Proxy.DecodeLeadingDelimiter` | proxy.py:17-21 | an entry that starts with `\|` decodes to a job with an empty id and is forwarded |
| `Proxy.DispatchStep` | proxy.py:11-30 | on a non-empty queue: reports the head entry as dropped or forwarded by `Decode`; the new store is `AfterStep`: head removed, and results written by `invoke` only when the forward reaches the worker |
| `Proxy.Serve` | proxy.py:11-30 | the loop handles the queue's first `min(iterations, length)` entries head first, logs each as dropped or forwarded, leaves the rest of the queue, and ends in `AfterRun` |
| `Worker.RequestCarriesPrompt` | fastapi_server.py:26-44 | the request carries the prompt verbatim after the fixed system message and instruction, sets `max_tokens` to `OUTPUT_TOKENS`, disables early stopping, names the fixed model and sends no `min_tokens` |
| `Worker.RequestInjective` | fastapi_server.py:33 | different prompts produce different requests |
| `Worker.GeneratedLength` | fastapi_server.py:55-65 | the generated text is missing exactly for a null content; otherwise its length is the content length on success and `7 + len(message)` on failure |
| `Worker.SummaryFields` | fastapi_server.py:65-66 | for a time text without `\|`, splitting the summary at `\|` gives exactly two fields: the time part, and a length part whose digits read back as the length |
| `Worker.LengthField` | fastapi_server.py:66 | the length part holds no `\|`, and the digits between ` Output Length: ` and ` chars` read back as the length |
| `Worker.SummaryNotError` | fastapi_server.py:66 | the stored summary is never empty and never starts with `Error:` |
| `Worker.Invoke` | fastapi_server.py:20-69 | the store afterwards is `AfterInvoke`: for a string content or a failure, exactly one key, the job id, is set to the summary of the outcome and the response status is `processed`; for a null content nothing is written and the answer is the `len(None)` error |
| `Client.TotalPages` | test_client.py:26-27 | at least one page; from 500 tokens on, the page count is `target // 500` (bounded by the two multiples of 500); below 1000 tokens, one page |
| `Client.DefaultPageCount` | test_client.py:13-27 | the default of 2000 input tokens gives four pages |
| `Client.ChunksConcat` | test_client.py:43 | the lines joined in order are exactly the page text |
| `Client.ChunkLengths` | test_client.py:43 | every line has 1 to 100 characters, and every line but the last has exactly 100 |
| `Client.ChunkCount` | test_client.py:43 | the number of lines is the ceiling of length / 100 (none for empty text) |
| `Client.ChunkAt` | test_client.py:43 | line k is the slice `[k*100 : k*100+100]` the comprehension takes |
| `Client.PageLines` | test_client.py:40-43 | every page text (`PAGE <n> ` and 35 copies of the sentence) gets at least one line, and its lines rebuild it |
| `Client.ParseInferenceTime` | test_client.py:100-112 | parsing succeeds exactly when the part before the first `\|` contains a `:`; the result has no `s` |
| `Text.SplitOnce` | proxy.py:17 | `split("\|", 1)`: one part without a delimiter; otherwise a delimiter-free part, the delimiter, and the rest, which rebuild the string |
| `Text.Split` | test_client.py:101 | `split(sep)`: at least one field, no field holds the separator, a single field exactly when there is no separator |
| `Text.JoinSplit` | test_client.py:101 | joining the fields of a split with the separator gives back the string |
| `Text.SplitJoin` | test_client.py:101 | splitting the join of separator-free fields gives back the fields |
| `Text.Strip` | test_client.py:101 | `strip()` leaves no whitespace at either end |
| `Text.LStrip` | test_client.py:101 | the result is a suffix with a non-whitespace first character, and everything dropped is whitespace |
| `Text.RStrip` | test_client.py:101 | the result is a prefix with a non-whitespace last character, and everything dropped is whitespace |
| `Text.StripPadded` | test_client.py:101 | stripping whitespace padding off a trimmed text gives that text |
| `Text.RemoveAll` | test_client.py:101 | `replace(c, "")` leaves no `c`, never lengthens, is the identity on text without `c`, and on a single character drops it exactly when it is `c` |
| `Text.RemoveAllConcat` | test_client.py:101 | `replace(c, "")` of a concatenation is the concatenation of the parts' results, so with the single-character case it is fixed for every text |
| `Text.NatToString` | fastapi_server.py:66 | `str(n)` is non-empty decimal digits with no leading zero |
| `Text.DecimalRoundTrip` | fastapi_server.py:66 | the decimal text of n reads back as n |
| `Text.Repeat` | test_client.py:40 | `s * n` has length `n * len(s)` and starts with `s` |
| `Text.RepeatCopy` | test_client.py:40 | copy k of `s * n`, the slice `[k*len(s) : (k+1)*len(s)]`, is `s` for every k below n, so the result is exactly n copies |
| `Pipeline.TimeRoundTrip` | test_client.py:99-101 | for a time text of digits and `.` with an optional leading `-`, the client's extraction returns exactly the time the worker formatted into the summary |
| `Pipeline.SubmitAllStacks` | ingestion_server.py:16 | after a run of submissions, the queue holds their entries newest first, in front of what was there; results unchanged |
| `Pipeline.DispatchOrderIsNewestFirst` | proxy.py:13 | draining a queue filled only by submissions forwards every job, in reverse submission order (LIFO) |
| `Pipeline.NewerJobFirst` | proxy.py:13-17 | after submitting A then B, the next iteration forwards B and leaves A at the head |
| `Pipeline.ClassifySubmitted` | ingestion_server.py:14-16 | the entry `submit_job` pushes is forwarded by the dispatcher as exactly the submitted job |
| `Pipeline.StepAfterSubmit` | proxy.py:13-25 | an iteration right after a submission handles that job: a failed forward leaves the store as before the submission, a delivered one adds only the worker's write |
| `Pipeline.SubmitDispatchComplete` | fastapi_server.py:47-67 | submit then a delivered dispatch: the queue is as before; for a string content or a failure the job is `completed` with the summary of that outcome; for a null content the store is as before the submission |
| `Pipeline.NullContentLosesJob` | fastapi_server.py:55-67 | submit then a delivered dispatch whose backend content is null leaves the store exactly as before the submission; a new job stays pending |
| `Pipeline.InvokeKeepsOtherLookups` | fastapi_server.py:67 | the worker's single write changes no other job's lookup |
| `Pipeline.ClientReadsWorkerTime` | test_client.py:88-101 | after submit and a delivered dispatch whose content is not null, the client sees `completed`, its extraction returns exactly the measured time, and the result does not start with `Error:` |
| `Pipeline.FailedForwardLosesJob` | proxy.py:22-25 | submit then a dispatch whose forward fails leaves the store exactly as before the submission; the job stays pending |
| `Pipeline.MalformedEntryDropped` | proxy.py:17-30 | an entry without `\|` is popped and nothing else changes, whatever the forward would have done |
| `Pipeline.CompletedStaysCompleted` | ingestion_server.py:21-23 | once a lookup is completed, it stays completed after any interleaving of submissions and dispatch iterations |
| `Pipeline.IdleSteps` | proxy.py:13 | loop iterations on an empty queue wait and change nothing |
| `Pipeline.AfterRunIsReplay` | proxy.py:11-30 | the store a run of the dispatcher loop leaves is the replay of its iterations as step events |
| `Pipeline.ServeKeepsCompleted` | proxy.py:11-30 | a run of the dispatcher loop never turns a completed job back to pending |

## Left out

- Redis itself, the network and the HTTP/FastAPI/pydantic layers. The store is two
  in-memory fields. The two `requests.post` calls are a direct method call and a
  function parameter.
- Redis has one keyspace for the `job_queue` list and the result keys. The model
  keeps them apart. A result written under the key `job_queue`, or `get_result`
  asked for it (a Redis type error), is not modelled. Generated ids never equal
  `job_queue`.
- The backend's answer is the parameter `backend: ChatRequest -> BackendOutcome`.
  It gives the first choice's message content (a string, or `NullContent` for JSON
  `null`) or the text of the exception. Other shapes of the JSON body, which raise
  inside the try and so become a failure, and the token-usage printout are not
  modelled. The body of the worker's 500 reply is not modelled; the dispatcher
  ignores it.
- A forward that fails is `Unreachable`, and the worker writes nothing. A post that
  raises after the worker has stored its result has the same store effect as
  `Delivered`.
- Wall-clock time and floats. `elapsed` is the already formatted `:.4f` text, and
  `IsTimeText` says it is made of digits and `.`, with an optional leading `-` for a
  clock that stepped back. `float(...)` in the client is not
  modelled. `ParseInferenceTime` returns the text `float` would receive, so a
  `ValueError` from `float` is not covered. The temperature `0.7` is not in
  `ChatRequest`.
- `uuid.uuid4()`: the id is a parameter that satisfies `IsUuidText`.
- Environment variables: `OUTPUT_TOKENS` is the parameter `outputTokens`, with
  `DefaultOutputTokens` as its default. `INPUT_TOKENS` is the `targetTokens`
  argument, with `DefaultInputTokens` as its default.
- `Proxy.Serve`: the endless `while True` loop is run for a given number of
  iterations, one forward outcome each. It stops early when the queue is empty,
  where BLPOP would block. Submissions that arrive during the loop are covered by
  `Pipeline.Replay` over atomic events, not by `Serve`.
- Concurrency. The gateway, the dispatcher and the worker act on the store as a
  sequence of atomic operations. Because the forward is synchronous, at most one job
  is in flight. The model has this by construction (`DispatchStep` calls `Invoke`
  inline) rather than as a separate stated property.
- PDF generation (reportlab, `BytesIO`), the page loop that draws lines onto the
  canvas, the client's upload and polling loop with its sleeps, and every `print`
  and `sys.stdout.flush`.
- The document-upload submission path. The gateway in the source accepts only a
  JSON `prompt`.
