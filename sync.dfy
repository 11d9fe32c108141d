/** The standard library's `sync.WaitGroup`, seen only as an opaque handle.
    Its counter (Add, Done, Wait) belongs to the concurrency that this model
    leaves out; what matters here is which handle a configuration or a
    dispatcher holds and whether a dispatcher allocated its own. */
module Sync {

  class WaitGroup {
    /** `new(sync.WaitGroup)`: a fresh handle. */
    constructor ()
    {
    }
  }
}
