/** The Redis instance the three services share: the list `job_queue` and the
    string keys holding job results, kept in memory. */
module Store {

  /** A job as the dispatcher forwards it to the worker: `{job_id, prompt}`. */
  datatype Job = Job(id: string, prompt: string)

  /** A snapshot of the store: the `job_queue` list (index 0 is its head, the
      end LPUSH and BLPOP both use) and the result keys. */
  datatype StoreState = StoreState(queue: seq<string>, results: map<string, string>)

  /** The live store, updated in place by the gateway, the dispatcher and the worker. */
  class JobStore {
    var queue: seq<string>
    var results: map<string, string>

    constructor ()
      ensures queue == [] && results == map[]
    {
      queue := [];
      results := map[];
    }

    /** The current contents, as a value the specification functions work on. */
    function State(): StoreState
      reads this
    {
      StoreState(queue, results)
    }
  }
}
